/**
  The parts of Go's `strings` package and of `fmt`'s `%d` verb that the log
  viewer relies on. A `char` stands for one byte: Go's `len`, indexing and
  slicing of strings all work on bytes.
 */
module Strings {

  /** `sub` occurs in `s` at byte offset `i`. */
  predicate OccursAt(s: string, sub: string, i: int)
  {
    0 <= i && i + |sub| <= |s| && s[i..i + |sub|] == sub
  }

  /** The first offset at or after `from` where `sub` occurs in `s`, or -1. */
  function IndexFrom(s: string, sub: string, from: nat): (r: int)
    requires from <= |s| + 1
    ensures r == -1 || (from <= r && OccursAt(s, sub, r))
    ensures forall i :: from <= i && (r == -1 || i < r) ==> !OccursAt(s, sub, i)
    decreases |s| + 1 - from
  {
    if from + |sub| > |s| then -1
    else if s[from..from + |sub|] == sub then from
    else IndexFrom(s, sub, from + 1)
  }

  /** strings.Index: the offset of the first occurrence of `sub` in `s`, or -1. */
  function IndexOf(s: string, sub: string): (r: int)
    ensures r == -1 <==> forall i :: !OccursAt(s, sub, i)
    ensures r != -1 ==> OccursAt(s, sub, r) && forall i :: 0 <= i < r ==> !OccursAt(s, sub, i)
  {
    IndexFrom(s, sub, 0)
  }

  /** strings.Contains. */
  predicate Contains(s: string, sub: string)
  {
    IndexOf(s, sub) != -1
  }

  /** A string that starts with `sub` contains it. */
  lemma ContainsPrefix(s: string, sub: string)
    requires |sub| <= |s| && s[..|sub|] == sub
    ensures Contains(s, sub)
  {
    assert OccursAt(s, sub, 0);
  }

  /** The byte-wise lexicographic order of strings.Compare and sort.Strings: `a` sorts before `b`. */
  predicate Less(a: string, b: string)
  {
    |b| > 0 && (|a| == 0 || a[0] < b[0] || (a[0] == b[0] && Less(a[1..], b[1..])))
  }

  lemma {:induction false} LessIrreflexive(a: string)
    ensures !Less(a, a)
  {
    if |a| > 0 {
      LessIrreflexive(a[1..]);
    }
  }

  lemma {:induction false} LessTransitive(a: string, b: string, c: string)
    requires Less(a, b) && Less(b, c)
    ensures Less(a, c)
  {
    if |a| > 0 && a[0] == b[0] && b[0] == c[0] {
      LessTransitive(a[1..], b[1..], c[1..]);
    }
  }

  lemma {:induction false} LessTotal(a: string, b: string)
    requires a != b
    ensures Less(a, b) || Less(b, a)
  {
    if |a| > 0 && |b| > 0 && a[0] == b[0] {
      assert a == [a[0]] + a[1..] && b == [b[0]] + b[1..];
      LessTotal(a[1..], b[1..]);
    }
  }

  lemma LessAsymmetric(a: string, b: string)
    requires Less(a, b)
    ensures !Less(b, a)
  {
    if Less(b, a) {
      LessTransitive(a, b, a);
      LessIrreflexive(a);
    }
  }

  /** Strictly ascending: sorted with no repeated element. */
  predicate StrictlySorted(s: seq<string>)
  {
    forall i, j :: 0 <= i < j < |s| ==> Less(s[i], s[j])
  }

  /** Inserts `x` into an ascending list before the first larger element. */
  function InsertKey(x: string, r: seq<string>): seq<string>
  {
    if r == [] || Less(x, r[0]) then [x] + r else [r[0]] + InsertKey(x, r[1..])
  }

  lemma {:induction false} InsertKeySorted(x: string, r: seq<string>)
    requires StrictlySorted(r) && x !in r
    ensures StrictlySorted(InsertKey(x, r))
    ensures forall y :: y in InsertKey(x, r) <==> y == x || y in r
    ensures |InsertKey(x, r)| == |r| + 1
  {
    if r == [] || Less(x, r[0]) {
      var t := [x] + r;
      forall i, j | 0 <= i < j < |t| ensures Less(t[i], t[j]) {
        if i == 0 && j > 1 {
          LessTransitive(x, r[0], r[j - 1]);
        }
      }
    } else {
      assert x != r[0];
      LessTotal(x, r[0]);
      InsertKeySorted(x, r[1..]);
      var tail := InsertKey(x, r[1..]);
      assert forall y :: y in r[1..] ==> Less(r[0], y) by {
        forall y | y in r[1..] ensures Less(r[0], y) {
          var k :| 0 <= k < |r[1..]| && r[1..][k] == y;
          assert r[k + 1] == y;
        }
      }
      assert forall y :: y in tail ==> Less(r[0], y);
      var t := [r[0]] + tail;
      forall i, j | 0 <= i < j < |t| ensures Less(t[i], t[j]) {
        if i == 0 {
          assert t[j] == tail[j - 1] && tail[j - 1] in tail;
        } else {
          assert t[i] == tail[i - 1] && t[j] == tail[j - 1];
        }
      }
      assert r == [r[0]] + r[1..];
    }
  }

  /** sort.Strings, for a list without repeated elements. */
  function SortStrings(s: seq<string>): (r: seq<string>)
    requires forall i, j :: 0 <= i < j < |s| ==> s[i] != s[j]
    ensures StrictlySorted(r) && |r| == |s|
    ensures forall y :: y in r <==> y in s
  {
    if s == [] then []
    else
      var init := s[..|s| - 1];
      var rest := SortStrings(init);
      assert s[|s| - 1] !in init;
      InsertKeySorted(s[|s| - 1], rest);
      assert s == init + [s[|s| - 1]];
      InsertKey(s[|s| - 1], rest)
  }

  /** An ascending list without repeats is determined by its elements. */
  lemma {:induction false} SortedUnique(a: seq<string>, b: seq<string>)
    requires StrictlySorted(a) && StrictlySorted(b)
    requires forall y :: y in a <==> y in b
    ensures a == b
  {
    assert a != [] ==> a[0] in b;
    assert b != [] ==> b[0] in a;
    if a != [] && b != [] {
      // Both heads are the least element of the common set.
      if a[0] != b[0] {
        assert a[0] in a && b[0] in b;
        var ia :| 0 <= ia < |b| && b[ia] == a[0];
        var ib :| 0 <= ib < |a| && a[ib] == b[0];
        assert ia > 0 && ib > 0;
        LessAsymmetric(b[0], a[0]);
      }
      forall y ensures y in a[1..] <==> y in b[1..] {
        if y in a[1..] {
          var k :| 0 <= k < |a[1..]| && a[1..][k] == y;
          assert Less(a[0], a[k + 1]);
          LessIrreflexive(y);
          assert y != b[0];
          assert y in b;
          assert b == [b[0]] + b[1..];
        }
        if y in b[1..] {
          var k :| 0 <= k < |b[1..]| && b[1..][k] == y;
          assert Less(b[0], b[k + 1]);
          LessIrreflexive(y);
          assert y != a[0];
          assert y in a;
          assert a == [a[0]] + a[1..];
        }
      }
      SortedUnique(a[1..], b[1..]);
      assert a == [a[0]] + a[1..] && b == [b[0]] + b[1..];
    }
  }

  /** strings.Join. */
  function Join(parts: seq<string>, sep: string): string
  {
    if |parts| == 0 then ""
    else if |parts| == 1 then parts[0]
    else parts[0] + sep + Join(parts[1..], sep)
  }

  /** strings.Repeat. */
  function Repeat(s: string, n: nat): (r: string)
    ensures |r| == |s| * n
  {
    if n == 0 then "" else s + Repeat(s, n - 1)
  }

  /** The decimal digit for `d`. */
  function Digit(d: nat): char
    requires d < 10
  {
    "0123456789"[d]
  }

  /** `%d` of a non-negative integer. */
  function NatToString(n: nat): (r: string)
    ensures |r| > 0 && forall i :: 0 <= i < |r| ==> '0' <= r[i] <= '9'
  {
    if n < 10 then [Digit(n)] else NatToString(n / 10) + [Digit(n % 10)]
  }

  /** `%d` of any integer. */
  function IntToString(i: int): string
  {
    if i < 0 then "-" + NatToString(-i) else NatToString(i)
  }
}
