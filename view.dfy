/**
  The pure helpers of the display (internal/tui/view.go): the colour of a
  level label, byte trimming, and the rendering of a line's decoded data in
  the detail pane.
 */
module View {
  import opened Strings
  import opened Values

  /** The label colours of the level table. */
  datatype Colour = ErrorColour | FatalColour | WarningColour | InfoColour | NormalColour

  /** messageColors: four level prefixes and the default entry. */
  const MessageColors: map<string, Colour> :=
    map["erro" := ErrorColour, "fata" := FatalColour, "warn" := WarningColour, "info" := InfoColour,
        "default" := NormalColour]

  /**
    getMessageColor: a level longer than four bytes is looked up by its
    first four bytes; failing that, by the whole level; failing that, the
    default colour applies.
   */
  function GetMessageColor(level: string): (r: Colour)
    ensures |level| > 4 && level[..4] in MessageColors ==> r == MessageColors[level[..4]]
    ensures !(|level| > 4 && level[..4] in MessageColors) && level in MessageColors ==> r == MessageColors[level]
    ensures !(|level| > 4 && level[..4] in MessageColors) && level !in MessageColors ==> r == NormalColour
  {
    if |level| > 4 && level[..4] in MessageColors then MessageColors[level[..4]]
    else if level in MessageColors then MessageColors[level]
    else MessageColors["default"]
  }

  /**
    The colour depends on the first four bytes alone: a level shorter than
    four bytes gets the default colour, and any other level gets the colour
    of its four-byte prefix.
   */
  lemma ColourFromFirstFour(level: string)
    ensures |level| < 4 ==> GetMessageColor(level) == NormalColour
    ensures |level| >= 4 ==> GetMessageColor(level) == GetMessageColor(level[..4])
  {
    assert MessageColors.Keys == {"erro", "fata", "warn", "info", "default"};
    if |level| == 4 {
      assert level[..4] == level;
    } else if |level| > 4 {
      var prefix := level[..4];
      assert |prefix| == 4;
      if prefix !in MessageColors {
        assert GetMessageColor(prefix) == NormalColour;
        if level in MessageColors {
          assert level == "default";
        }
      }
    }
  }

  /** Level names in use get their colour; the lookup is case-sensitive. */
  lemma CommonLevels()
    ensures GetMessageColor("error") == ErrorColour && GetMessageColor("fatal") == FatalColour
    ensures GetMessageColor("warning") == WarningColour && GetMessageColor("information") == InfoColour
    ensures GetMessageColor("info") == InfoColour && GetMessageColor("debug") == NormalColour
    ensures GetMessageColor("ERROR") == NormalColour
  {
    assert "error"[..4] == "erro";
    assert "fatal"[..4] == "fata";
    assert "warning"[..4] == "warn";
    assert "information"[..4] == "info";
    assert "debug"[..4] == "debu";
    assert "ERROR"[..4] == "ERRO";
  }

  /**
    trimString: the first `length` bytes of `s`, or `s` when it is not
    longer. A negative length makes the source's slice expression panic.
   */
  function TrimString(s: string, length: int): (r: string)
    requires 0 <= length
    ensures |r| == if |s| <= length then |s| else length
    ensures r == s[..|r|]
  {
    if |s| > length then s[0..length] else s
  }

  lemma TrimIdempotent(s: string, length: int)
    requires 0 <= length
    ensures TrimString(TrimString(s, length), length) == TrimString(s, length)
  {
  }

  // ---------------------------------------------------------------------
  // renderMetadata

  /** The formatting the renderer borrows: fmt's %f and %v, and the key and data styles. */
  datatype Printer = Printer(float: real -> string, any: Value -> string,
                             keyStyle: string -> string, dataStyle: string -> string)

  /** Each element formatted by `f`. */
  function Each<T>(xs: seq<T>, f: T -> string): (r: seq<string>)
    ensures |r| == |xs| && forall i :: 0 <= i < |xs| ==> r[i] == f(xs[i])
  {
    seq(|xs|, i requires 0 <= i < |xs| => f(xs[i]))
  }

  /** The keys of a map in ascending byte order, each once. */
  ghost function SortedKeys(ks: set<string>): (r: seq<string>)
    ensures StrictlySorted(r) && |r| == |ks|
    ensures forall k :: k in r <==> k in ks
    decreases ks
  {
    if ks == {} then []
    else
      var k :| k in ks;
      var rest := SortedKeys(ks - {k});
      InsertKeySorted(k, rest);
      InsertKey(k, rest)
  }

  /** What renderMetadata produces for `v` at nesting level `indent`. */
  ghost function Render(p: Printer, v: Value, indent: nat): string
    decreases v, 1
  {
    match v
    case Str(s) => s
    case Int(i) => IntToString(i)
    case Float(f) => p.float(f)
    case Strs(ss) => Join(ss, ", ")
    case Ints(ns) => Join(Each(ns, IntToString), ", ")
    case Floats(fs) => Join(Each(fs, p.float), ", ")
    case Object(m) => (if 8 * indent > 0 then "\n" else "") + Entries(p, m, SortedKeys(m.Keys), indent)
    case List(items) => Join(Each(items, p.any), ", ")
    case Bool(_) => "bool"
    case Null => "<nil>"
  }

  /** The entries of map `m` for the keys `ks`, in that order: indentation, key, nested rendering, newline. */
  ghost function Entries(p: Printer, m: map<string, Value>, ks: seq<string>, indent: nat): string
    requires forall k :: k in ks ==> k in m
    decreases Object(m), 0, |ks|
  {
    if ks == [] then ""
    else
      var k := ks[|ks| - 1];
      Entries(p, m, ks[..|ks| - 1], indent)
        + Repeat(" ", 8 * indent) + p.keyStyle(k) + p.dataStyle(Render(p, m[k], indent + 1)) + "\n"
  }

  /** Any listing of a map's keys without repeats, once sorted, is the map's sorted key list. */
  lemma SortedListing(m: map<string, Value>, ks: seq<string>)
    requires forall i, j :: 0 <= i < j < |ks| ==> ks[i] != ks[j]
    requires forall k :: k in ks <==> k in m
    ensures SortStrings(ks) == SortedKeys(m.Keys)
  {
    var a, b := SortStrings(ks), SortedKeys(m.Keys);
    assert forall x :: x in a <==> x in b;
    SortedUnique(a, b);
  }

  /**
    A map renders every key exactly once, in ascending order, whatever the
    order its keys are listed in.
   */
  lemma KeyOrderIrrelevant(p: Printer, m: map<string, Value>, ks: seq<string>, indent: nat)
    requires forall i, j :: 0 <= i < j < |ks| ==> ks[i] != ks[j]
    requires forall k :: k in ks <==> k in m
    ensures Render(p, Object(m), indent) ==
      (if indent > 0 then "\n" else "") + Entries(p, m, SortStrings(ks), indent)
  {
    SortedListing(m, ks);
  }

  /** Each entry of a map ends with a newline, so a non-empty map's rendering does too. */
  lemma {:induction false} EntriesEndWithNewline(p: Printer, m: map<string, Value>, ks: seq<string>, indent: nat)
    requires forall k :: k in ks ==> k in m
    requires ks != []
    ensures var r := Entries(p, m, ks, indent); |r| > 0 && r[|r| - 1] == '\n'
  {
  }

  /** The entries of two listings one after the other are the entries of the joined listing. */
  lemma {:induction false} EntriesAppend(p: Printer, m: map<string, Value>, a: seq<string>, b: seq<string>, indent: nat)
    requires forall k :: k in a + b ==> k in m
    ensures Entries(p, m, a + b, indent) == Entries(p, m, a, indent) + Entries(p, m, b, indent)
    decreases |b|
  {
    if b == [] {
      assert a + b == a;
    } else {
      var b' := b[..|b| - 1];
      assert (a + b)[..|a + b| - 1] == a + b';
      assert (a + b)[|a + b| - 1] == b[|b| - 1];
      EntriesAppend(p, m, a, b', indent);
    }
  }

  /**
    In any listing of keys, the entry of each key stands between the entries
    of the keys before and after it, and starts with eight spaces per nesting
    level.
   */
  lemma EntryIndent(p: Printer, m: map<string, Value>, ks: seq<string>, i: nat, indent: nat)
    requires forall k :: k in ks ==> k in m
    requires i < |ks|
    ensures Entries(p, m, ks, indent)
      == Entries(p, m, ks[..i], indent) + Entries(p, m, [ks[i]], indent) + Entries(p, m, ks[i + 1..], indent)
    ensures Entries(p, m, [ks[i]], indent)[..8 * indent] == Repeat(" ", 8 * indent)
    ensures forall j :: 0 <= j < 8 * indent ==> Entries(p, m, [ks[i]], indent)[j] == ' '
  {
    assert ks == ks[..i] + [ks[i]] + ks[i + 1..];
    EntriesAppend(p, m, ks[..i], [ks[i]], indent);
    EntriesAppend(p, m, ks[..i] + [ks[i]], ks[i + 1..], indent);
    assert [ks[i]][..0] == [];
    RepeatSpaces(8 * indent);
  }

  lemma {:induction false} RepeatSpaces(n: nat)
    ensures forall i :: 0 <= i < n ==> Repeat(" ", n)[i] == ' '
  {
    if n > 0 {
      RepeatSpaces(n - 1);
      assert Repeat(" ", n) == " " + Repeat(" ", n - 1);
    }
  }

  /** A map renders on a fresh line exactly when it is nested. */
  lemma NestedMapStartsOnNewLine(p: Printer, m: map<string, Value>, indent: nat)
    ensures indent > 0 ==> |Render(p, Object(m), indent)| > 0 && Render(p, Object(m), indent)[0] == '\n'
    ensures indent == 0 ==> Render(p, Object(m), indent) == Entries(p, m, SortedKeys(m.Keys), 0)
  {
  }

  /** Each element formatted by `f` (the loops of the []int, []float64 and []interface{} branches). */
  method FormatEach<T>(xs: seq<T>, f: T -> string) returns (b: seq<string>)
    ensures b == Each(xs, f)
  {
    b := [];
    var i := 0;
    while i < |xs|
      invariant 0 <= i <= |xs|
      invariant |b| == i && forall j :: 0 <= j < i ==> b[j] == f(xs[j])
    {
      b := b + [f(xs[i])];
      i := i + 1;
    }
  }

  /** The keys of a map, in the order the iteration yields them. */
  method CollectKeys(m: map<string, Value>) returns (keys: seq<string>)
    ensures forall i, j :: 0 <= i < j < |keys| ==> keys[i] != keys[j]
    ensures forall k :: k in keys <==> k in m
  {
    keys := [];
    var rest := m.Keys;
    while rest != {}
      invariant rest <= m.Keys
      invariant forall k :: k in keys <==> k in m.Keys - rest
      invariant forall i, j :: 0 <= i < j < |keys| ==> keys[i] != keys[j]
      decreases |rest|
    {
      var k :| k in rest;
      assert k !in keys;
      keys := keys + [k];
      rest := rest - {k};
    }
  }

  /** renderMetadata. */
  method RenderMetadata(p: Printer, v: Value, indent: nat) returns (r: string)
    ensures r == Render(p, v, indent)
    decreases v, 2
  {
    match v
    case Str(s) => r := s;
    case Int(i) => r := IntToString(i);
    case Float(f) => r := p.float(f);
    case Strs(ss) => r := Join(ss, ", ");
    case Ints(ns) =>
      var b := FormatEach(ns, IntToString);
      r := Join(b, ", ");
    case Floats(fs) =>
      var b := FormatEach(fs, p.float);
      r := Join(b, ", ");
    case Object(m) =>
      r := RenderMap(p, m, indent);
    case List(items) =>
      var b := FormatEach(items, p.any);
      r := Join(b, ", ");
    case Bool(_) => r := "bool";
    case Null => r := "<nil>";
  }

  /** The map branch of renderMetadata: the keys sorted, a leading newline when nested, then the entries. */
  method RenderMap(p: Printer, m: map<string, Value>, indent: nat) returns (r: string)
    ensures r == Render(p, Object(m), indent)
    decreases Object(m), 1
  {
    var found := CollectKeys(m);
    KeyOrderIrrelevant(p, m, found, indent);
    var keys := SortStrings(found);
    var builder := "";
    var indentWidth := 8 * indent;
    if indentWidth > 0 {
      builder := builder + "\n";
    }
    var entries := RenderEntries(p, m, keys, indent);
    r := builder + entries;
  }

  /** The loop over the sorted keys of renderMetadata's map branch. */
  method RenderEntries(p: Printer, m: map<string, Value>, keys: seq<string>, indent: nat) returns (r: string)
    requires forall k :: k in keys ==> k in m
    ensures r == Entries(p, m, keys, indent)
    decreases Object(m), 0
  {
    var indentStr := Repeat(" ", 8 * indent);
    r := "";
    var i := 0;
    while i < |keys|
      invariant 0 <= i <= |keys|
      invariant r == Entries(p, m, keys[..i], indent)
    {
      var k := keys[i];
      var data := RenderMetadata(p, m[k], indent + 1);
      assert keys[..i + 1][..i] == keys[..i] && keys[..i + 1][i] == k;
      assert Entries(p, m, keys[..i + 1], indent)
          == Entries(p, m, keys[..i], indent) + indentStr + p.keyStyle(k) + p.dataStyle(data) + "\n";
      r := r + indentStr + p.keyStyle(k) + p.dataStyle(data) + "\n";
      i := i + 1;
    }
    assert keys[..i] == keys;
  }
}
