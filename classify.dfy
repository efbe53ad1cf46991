/**
  The per-line classification rules of internal/tui/command.go
  (getGroupAndTitle, getStatus, getTimestamp, getLevel, getTags and the
  message fallback of processLog), and the log line they produce
  (internal/tui/log_line.go).
 */
module Classify {
  import opened Wrappers
  import opened Strings
  import opened Values
  import opened Templating
  import opened Configuration

  /** An instant; its representation is opaque, only its order matters. */
  type Time = int

  /** Go's zero time.Time, what a line that is not classified carries. */
  const ZeroTime: Time := 0

  /** logTag: a tag without a value rule has the empty value. */
  datatype LogTag = LogTag(name: string, value: string)

  /** logLine; `data` is None for Go's nil map. */
  datatype LogLine = LogLine(level: string, timestamp: Time, message: string, data: Option<Record>, tags: seq<LogTag>)

  // ---------------------------------------------------------------------
  // Group resolution

  /** A group rule matches when its value rule and its title rule both succeed with non-empty output. */
  predicate GroupMatches(e: Engine, g: GroupSpec, rec: Record)
    requires g.valueTmpl.Some? && g.titleTmpl.Some?
  {
    Succeeds(ApplyTemplate(e, g.valueTmpl.value, rec)) && Succeeds(ApplyTemplate(e, g.titleTmpl.value, rec))
  }

  /** The rendered key and title of a matching group rule, and the rule's position. */
  datatype GroupMatch = GroupMatch(value: string, title: string, index: nat)

  /** The search loop of getGroupAndTitle, from rule `from` on. */
  function FindGroup(e: Engine, c: Config, rec: Record, from: nat): (r: Option<GroupMatch>)
    requires Prepared(c) && from <= |c.groups|
    ensures r.None? ==> forall j :: from <= j < |c.groups| ==> !GroupMatches(e, c.groups[j], rec)
    ensures r.Some? ==>
      && from <= r.value.index < |c.groups|
      && GroupMatches(e, c.groups[r.value.index], rec)
      && r.value.value == ApplyTemplate(e, c.groups[r.value.index].valueTmpl.value, rec).output
      && r.value.title == ApplyTemplate(e, c.groups[r.value.index].titleTmpl.value, rec).output
      && forall j :: from <= j < r.value.index ==> !GroupMatches(e, c.groups[j], rec)
    decreases |c.groups| - from
  {
    if from == |c.groups| then None
    else
      var g := c.groups[from];
      var value := ApplyTemplate(e, g.valueTmpl.value, rec);
      var title := ApplyTemplate(e, g.titleTmpl.value, rec);
      if value.err.None? && title.err.None? && value.output != "" && title.output != "" then
        Some(GroupMatch(value.output, title.output, from))
      else
        assert !GroupMatches(e, g, rec);
        FindGroup(e, c, rec, from + 1)
  }

  /**
    getGroupAndTitle: the earliest group rule that matches wins, with its
    rendered value and title; None when no rule matches.
   */
  function GetGroupAndTitle(e: Engine, c: Config, rec: Record): (r: Option<GroupMatch>)
    requires Prepared(c)
    ensures r.None? <==> forall j :: 0 <= j < |c.groups| ==> !GroupMatches(e, c.groups[j], rec)
    ensures r.Some? ==>
      && r.value.index < |c.groups|
      && GroupMatches(e, c.groups[r.value.index], rec)
      && r.value.value == ApplyTemplate(e, c.groups[r.value.index].valueTmpl.value, rec).output
      && r.value.title == ApplyTemplate(e, c.groups[r.value.index].titleTmpl.value, rec).output
      && forall j :: 0 <= j < r.value.index ==> !GroupMatches(e, c.groups[j], rec)
  {
    FindGroup(e, c, rec, 0)
  }

  /** When two rules could both match, the earlier one's value and title are used. */
  lemma FirstMatchWins(e: Engine, c: Config, rec: Record, i: nat, j: nat)
    requires Prepared(c) && i < j < |c.groups|
    requires GroupMatches(e, c.groups[i], rec) && GroupMatches(e, c.groups[j], rec)
    ensures GetGroupAndTitle(e, c, rec).Some? && GetGroupAndTitle(e, c, rec).value.index <= i
  {
  }

  // ---------------------------------------------------------------------
  // Status, timestamp, level, message

  /** A status rule shows when it succeeds with non-empty output. */
  predicate StatusShows(e: Engine, s: StatusSpec, rec: Record)
    requires s.displayTmpl.Some?
  {
    Succeeds(ApplyTemplate(e, s.displayTmpl.value, rec))
  }

  /** The search loop of getStatus, from rule `from` on: the first rule that shows. */
  function FindStatus(e: Engine, c: Config, rec: Record, from: nat): (r: Option<nat>)
    requires Prepared(c) && from <= |c.statuses|
    ensures r.None? ==> forall j :: from <= j < |c.statuses| ==> !StatusShows(e, c.statuses[j], rec)
    ensures r.Some? ==>
      && from <= r.value < |c.statuses|
      && StatusShows(e, c.statuses[r.value], rec)
      && forall j :: from <= j < r.value ==> !StatusShows(e, c.statuses[j], rec)
    decreases |c.statuses| - from
  {
    if from == |c.statuses| then None
    else
      var display := ApplyTemplate(e, c.statuses[from].displayTmpl.value, rec);
      if display.err.None? && display.output != "" then Some(from)
      else FindStatus(e, c, rec, from + 1)
  }

  /**
    getStatus: the output of the first status rule that succeeds with
    non-empty output; "" (no status update) when none does.
   */
  function GetStatus(e: Engine, c: Config, rec: Record): (r: string)
    requires Prepared(c)
    ensures r == "" <==> forall j :: 0 <= j < |c.statuses| ==> !StatusShows(e, c.statuses[j], rec)
    ensures r != "" ==> (FindStatus(e, c, rec, 0).Some?
      && r == ApplyTemplate(e, c.statuses[FindStatus(e, c, rec, 0).value].displayTmpl.value, rec).output)
  {
    match FindStatus(e, c, rec, 0)
    case None => ""
    case Some(j) => ApplyTemplate(e, c.statuses[j].displayTmpl.value, rec).output
  }

  /**
    getTimestamp: the instant the timestamp rule yields, when it succeeds
    with non-empty text that parses as an RFC 3339 timestamp (`parseTime`,
    standing for time.Parse); the current instant `now` otherwise.
   */
  function GetTimestamp(e: Engine, c: Config, parseTime: string -> Option<Time>, rec: Record, now: Time): (r: Time)
    requires Prepared(c)
    ensures var t := ApplyTemplate(e, c.timestampTmpl.value, rec);
      Succeeds(t) && parseTime(t.output).Some? ==> r == parseTime(t.output).value
    ensures var t := ApplyTemplate(e, c.timestampTmpl.value, rec);
      !(Succeeds(t) && parseTime(t.output).Some?) ==> r == now
  {
    var t := ApplyTemplate(e, c.timestampTmpl.value, rec);
    if t.err.None? && t.output != "" then
      match parseTime(t.output)
      case Some(parsed) => parsed
      case None => now
    else now
  }

  /**
    getLevel: "unknown" when the level rule's execution fails, otherwise its
    (normalised) output, which may be empty.
   */
  function GetLevel(e: Engine, c: Config, rec: Record): (r: string)
    requires Prepared(c)
    ensures e.execute(c.levelTmpl.value, rec).err.Some? ==> r == "unknown"
    ensures e.execute(c.levelTmpl.value, rec).err.None? ==>
      (r == "" <==> (e.execute(c.levelTmpl.value, rec).output == ""
                     || Contains(e.execute(c.levelTmpl.value, rec).output, NoValue)))
    ensures e.execute(c.levelTmpl.value, rec).err.None? && r != "" ==> r == e.execute(c.levelTmpl.value, rec).output
  {
    var level := ApplyTemplate(e, c.levelTmpl.value, rec);
    if level.err.None? then level.output else "unknown"
  }

  /** The diagnostic that replaces a message whose rule fails. */
  function MissingMessage(field: string, err: string): string
  {
    "Field " + field + " not found in data: " + err
  }

  /**
    The message of a structured line: the message rule's output, or, when it
    fails, a diagnostic naming the configured field and the error.
   */
  function GetMessage(e: Engine, c: Config, rec: Record): (r: string)
    requires Prepared(c)
    ensures ApplyTemplate(e, c.messageTmpl.value, rec).err.None? ==> r == ApplyTemplate(e, c.messageTmpl.value, rec).output
    ensures ApplyTemplate(e, c.messageTmpl.value, rec).err.Some? ==>
      r == MissingMessage(c.messageField, ApplyTemplate(e, c.messageTmpl.value, rec).err.value)
  {
    var m := ApplyTemplate(e, c.messageTmpl.value, rec);
    if m.err.Some? then MissingMessage(c.messageField, m.err.value) else m.output
  }

  // ---------------------------------------------------------------------
  // Tags

  predicate TagsReady(ts: seq<TagSpec>)
  {
    forall t :: t in ts ==> t.keyTmpl.Some?
  }

  /**
    The tag one specification contributes on its own: none when its key rule
    fails or is empty, or when it has a value rule and that fails or is empty.
   */
  function Candidate(e: Engine, t: TagSpec, rec: Record): Option<LogTag>
    requires t.keyTmpl.Some?
  {
    var key := ApplyTemplate(e, t.keyTmpl.value, rec);
    if !Succeeds(key) then None
    else
      match t.valueTmpl
      case None => Some(LogTag(key.output, ""))
      case Some(vt) =>
        var value := ApplyTemplate(e, vt, rec);
        if Succeeds(value) then Some(LogTag(key.output, value.output)) else None
  }

  /** The contributions of `ts`, in order. */
  function Candidates(e: Engine, ts: seq<TagSpec>, rec: Record): seq<LogTag>
    requires TagsReady(ts)
  {
    if ts == [] then []
    else
      match Candidate(e, ts[0], rec)
      case None => Candidates(e, ts[1..], rec)
      case Some(t) => [t] + Candidates(e, ts[1..], rec)
  }

  /** The tags of `s` whose name is neither in `seen` nor carried by an earlier tag of `s`. */
  function FirstByName(s: seq<LogTag>, seen: set<string>): seq<LogTag>
  {
    if s == [] then []
    else if s[0].name in seen then FirstByName(s[1..], seen)
    else [s[0]] + FirstByName(s[1..], seen + {s[0].name})
  }

  /**
    getTags: try each specification in order; skip it when its key rule fails
    or renders "", when an earlier tag already took that name, or when its
    value rule (if any) fails or renders "".
   */
  method GetTags(e: Engine, ts: seq<TagSpec>, rec: Record) returns (result: seq<LogTag>)
    requires TagsReady(ts)
    ensures result == FirstByName(Candidates(e, ts, rec), {})
  {
    result := [];
    var tagsAlready: set<string> := {};
    ghost var target := FirstByName(Candidates(e, ts, rec), {});
    var i := 0;
    while i < |ts|
      invariant 0 <= i <= |ts|
      invariant result + Remaining(e, ts, i, rec, tagsAlready) == target
    {
      var tag := TryTag(e, ts[i], rec, tagsAlready);
      ghost var before := result;
      if tag.Some? {
        TagKept(e, ts, i, rec, tagsAlready, tag.value);
        result := result + [tag.value];
        tagsAlready := tagsAlready + {tag.value.name};
        assert before + ([tag.value] + Remaining(e, ts, i + 1, rec, tagsAlready)) == result + Remaining(e, ts, i + 1, rec, tagsAlready);
      } else {
        TagSkipped(e, ts, i, rec, tagsAlready);
      }
      i := i + 1;
    }
    assert Remaining(e, ts, i, rec, tagsAlready) == [] by {
      assert ts[i..] == [];
    }
  }

  /** What getTags still adds from specification `i` on, when the names in `seen` are taken. */
  ghost function Remaining(e: Engine, ts: seq<TagSpec>, i: nat, rec: Record, seen: set<string>): seq<LogTag>
    requires TagsReady(ts) && i <= |ts|
  {
    FirstByName(Candidates(e, ts[i..], rec), seen)
  }

  /**
    The body of getTags' loop for one specification: the tag it adds, or
    None when it `continue`s.
   */
  method TryTag(e: Engine, spec: TagSpec, rec: Record, tagsAlready: set<string>) returns (tag: Option<LogTag>)
    requires spec.keyTmpl.Some?
    ensures tag.Some? <==> Candidate(e, spec, rec).Some? && Candidate(e, spec, rec).value.name !in tagsAlready
    ensures tag.Some? ==> tag == Candidate(e, spec, rec)
  {
    var key := ApplyTemplate(e, spec.keyTmpl.value, rec);
    if key.err.Some? || key.output == "" || key.output in tagsAlready {
      return None;
    }
    if spec.valueTmpl.Some? {
      var value := ApplyTemplate(e, spec.valueTmpl.value, rec);
      if value.err.Some? || value.output == "" {
        return None;
      }
      return Some(LogTag(key.output, value.output));
    }
    return Some(LogTag(key.output, ""));
  }

  /** An iteration of getTags that adds tag `t`, stated on the specification functions. */
  lemma TagKept(e: Engine, ts: seq<TagSpec>, i: nat, rec: Record, seen: set<string>, t: LogTag)
    requires TagsReady(ts) && i < |ts|
    requires Candidate(e, ts[i], rec) == Some(t) && t.name !in seen
    ensures Remaining(e, ts, i, rec, seen) == [t] + Remaining(e, ts, i + 1, rec, seen + {t.name})
  {
    assert ts[i..][0] == ts[i];
    assert ts[i..][1..] == ts[i + 1..];
    var rest := Candidates(e, ts[i + 1..], rec);
    assert Candidates(e, ts[i..], rec) == [t] + rest;
    assert ([t] + rest)[1..] == rest;
  }

  /** An iteration of getTags that adds nothing, stated on the specification functions. */
  lemma TagSkipped(e: Engine, ts: seq<TagSpec>, i: nat, rec: Record, seen: set<string>)
    requires TagsReady(ts) && i < |ts|
    requires Candidate(e, ts[i], rec).None? || Candidate(e, ts[i], rec).value.name in seen
    ensures Remaining(e, ts, i, rec, seen) == Remaining(e, ts, i + 1, rec, seen)
  {
    assert ts[i..][0] == ts[i];
    assert ts[i..][1..] == ts[i + 1..];
    var rest := Candidates(e, ts[i + 1..], rec);
    if Candidate(e, ts[i], rec).Some? {
      var t := Candidate(e, ts[i], rec).value;
      assert Candidates(e, ts[i..], rec) == [t] + rest;
      assert ([t] + rest)[1..] == rest;
    }
  }

  /** FirstByName keeps only tags of `s`, none named in `seen`, no two sharing a name, and every first occurrence. */
  lemma {:induction false} FirstByNameSpec(s: seq<LogTag>, seen: set<string>)
    ensures var r := FirstByName(s, seen);
      && (forall u :: u in r ==> u in s && u.name !in seen)
      && (forall i, j :: 0 <= i < j < |r| ==> r[i].name != r[j].name)
      && (forall i :: 0 <= i < |s| && s[i].name !in seen && (forall k :: 0 <= k < i ==> s[k].name != s[i].name)
            ==> s[i] in r)
  {
    if s != [] {
      var rest := FirstByName(s[1..], if s[0].name in seen then seen else seen + {s[0].name});
      FirstByNameSpec(s[1..], if s[0].name in seen then seen else seen + {s[0].name});
      var r := FirstByName(s, seen);
      forall i | 0 <= i < |s| && s[i].name !in seen && (forall k :: 0 <= k < i ==> s[k].name != s[i].name)
        ensures s[i] in r
      {
        if i > 0 {
          assert s[1..][i - 1] == s[i];
          assert forall k :: 0 <= k < i - 1 ==> s[1..][k].name != s[1..][i - 1].name by {
            forall k | 0 <= k < i - 1 ensures s[1..][k].name != s[1..][i - 1].name {
              assert s[1..][k] == s[k + 1];
            }
          }
        }
      }
    }
  }

  /** Tag dedup law: no two tags of one line share a name. */
  lemma TagNamesDistinct(e: Engine, ts: seq<TagSpec>, rec: Record)
    requires TagsReady(ts)
    ensures var r := FirstByName(Candidates(e, ts, rec), {});
      forall i, j :: 0 <= i < j < |r| ==> r[i].name != r[j].name
  {
    FirstByNameSpec(Candidates(e, ts, rec), {});
  }

  lemma {:induction false} CandidatesAppend(e: Engine, a: seq<TagSpec>, b: seq<TagSpec>, rec: Record)
    requires TagsReady(a) && TagsReady(b)
    ensures TagsReady(a + b)
    ensures Candidates(e, a + b, rec) == Candidates(e, a, rec) + Candidates(e, b, rec)
  {
    TagsReadyAppend(a, b);
    if a == [] {
      assert a + b == b;
    } else {
      assert (a + b)[0] == a[0] && (a + b)[1..] == a[1..] + b;
      CandidatesAppend(e, a[1..], b, rec);
      if Candidate(e, a[0], rec).Some? {
        var t := Candidate(e, a[0], rec).value;
        assert Candidates(e, a + b, rec) == [t] + Candidates(e, a[1..] + b, rec);
        assert Candidates(e, a, rec) == [t] + Candidates(e, a[1..], rec);
      }
    }
  }

  lemma TagsReadyAppend(a: seq<TagSpec>, b: seq<TagSpec>)
    requires TagsReady(a) && TagsReady(b)
    ensures TagsReady(a + b)
  {
  }

  /** A skipped specification does not reserve its name: the result is as if it were absent. */
  lemma SkippedSpecReservesNothing(e: Engine, ts: seq<TagSpec>, i: nat, rec: Record)
    requires TagsReady(ts) && i < |ts| && Candidate(e, ts[i], rec).None?
    ensures TagsReady(ts[..i] + ts[i + 1..])
    ensures Candidates(e, ts, rec) == Candidates(e, ts[..i] + ts[i + 1..], rec)
  {
    assert ts == ts[..i] + ([ts[i]] + ts[i + 1..]);
    CandidatesAppend(e, ts[..i], [ts[i]] + ts[i + 1..], rec);
    assert ([ts[i]] + ts[i + 1..])[1..] == ts[i + 1..];
    CandidatesAppend(e, ts[..i], ts[i + 1..], rec);
  }

  /**
    Global tag specifications are tried before the matched group's: a name
    that some global specification contributes is carried by a global tag.
   */
  lemma GlobalTagsWin(e: Engine, global: seq<TagSpec>, group: seq<TagSpec>, rec: Record, u: LogTag)
    requires TagsReady(global) && TagsReady(group)
    requires u in FirstByName(Candidates(e, global + group, rec), {})
    requires exists t :: t in Candidates(e, global, rec) && t.name == u.name
    ensures u in Candidates(e, global, rec)
  {
    CandidatesAppend(e, global, group, rec);
    EarlierNameWins(Candidates(e, global, rec), Candidates(e, group, rec), u);
  }

  /** A kept tag whose name some tag of the prefix `g` carries comes from `g`. */
  lemma EarlierNameWins(g: seq<LogTag>, h: seq<LogTag>, u: LogTag)
    requires u in FirstByName(g + h, {})
    requires exists t :: t in g && t.name == u.name
    ensures u in g
  {
    var s := g + h;
    // The first tag of g carrying u's name is kept; kept names are distinct, so it is u.
    var t :| t in g && t.name == u.name;
    var i0 :| 0 <= i0 < |g| && g[i0] == t;
    var i := FirstIndexOfName(g, u.name, i0);
    assert s[i] == g[i];
    assert forall k :: 0 <= k < i ==> s[k].name != s[i].name by {
      assert forall k :: 0 <= k < i ==> s[k] == g[k];
    }
    FirstOccurrenceKept(s, i);
    KeptNamesUnique(s, s[i], u);
  }

  /** The first tag carrying a name is kept. */
  lemma FirstOccurrenceKept(s: seq<LogTag>, i: nat)
    requires i < |s| && forall k :: 0 <= k < i ==> s[k].name != s[i].name
    ensures s[i] in FirstByName(s, {})
  {
    FirstByNameSpec(s, {});
  }

  /** Two kept tags with the same name are the same tag. */
  lemma KeptNamesUnique(s: seq<LogTag>, u: LogTag, v: LogTag)
    requires u in FirstByName(s, {}) && v in FirstByName(s, {}) && u.name == v.name
    ensures u == v
  {
    var r := FirstByName(s, {});
    FirstByNameSpec(s, {});
    var a :| 0 <= a < |r| && r[a] == u;
    var b :| 0 <= b < |r| && r[b] == v;
    assert a == b;
  }

  /** Some occurrence of a name implies a first one. */
  lemma {:induction false} FirstIndexOfName(s: seq<LogTag>, name: string, i0: nat) returns (i: nat)
    requires i0 < |s| && s[i0].name == name
    ensures i <= i0 && s[i].name == name && forall k :: 0 <= k < i ==> s[k].name != name
  {
    if k :| 0 <= k < i0 && s[k].name == name {
      i := FirstIndexOfName(s, name, k);
    } else {
      i := i0;
    }
  }

}
