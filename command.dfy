/**
  Ingestion of the log stream (internal/tui/command.go): each line read from
  the input is classified (plain text, malformed JSON, structured record),
  turned into a log line and appended to a group held in the group cache;
  after each line the cache is snapshot and ordered by recency for display.
 */
module Command {
  import opened Wrappers
  import opened Strings
  import opened Values
  import opened Templating
  import opened Configuration
  import opened Classify

  /** Key of the reserved group collecting lines that fail to decode. */
  const ErrorsKey := "errors"
  /** Key of the reserved group collecting lines without a '{'. */
  const NotJsonKey := "not-json"
  /** Key of the group collecting records no group rule matches. */
  const NoGroupKey := "nogroup"

  /** What encoding/json's Unmarshal reports for one JSON text; a failed decode may leave a partial map. */
  datatype JsonResult =
    | Parsed(rec: Record)
    | JsonError(message: string, isEOF: bool, partial: Option<Record>)

  /** The foreign decoders processLog uses: json.Unmarshal, and time.Parse with RFC 3339. */
  datatype Decoders = Decoders(json: string -> JsonResult, time: string -> Option<Time>)

  /**
    One ReadString('\n') on standard input: a line including its terminator,
    or the reader's error (a final line without terminator is lost with it).
   */
  datatype ReadResult = Line(text: string) | ReadError(err: string)

  /** How a line is decoded. */
  datatype Decoded =
    | PlainText
    | Malformed(message: string, isEOF: bool, partial: Option<Record>)
    | Structured(rec: Record)

  /**
    A line without '{' is plain text; otherwise the text from its first '{'
    to the end is decoded as JSON.
   */
  function Decode(line: string, json: string -> JsonResult): (r: Decoded)
    ensures r.PlainText? <==> '{' !in line
    ensures !r.PlainText? ==>
      exists i :: (0 <= i < |line| && line[i] == '{' && '{' !in line[..i]
        && r == match json(line[i..])
                case Parsed(rec) => Structured(rec)
                case JsonError(m, eof, p) => Malformed(m, eof, p))
  {
    FirstBraceIndex(line);
    var jsonIdx := IndexOf(line, "{");
    if jsonIdx == -1 then PlainText
    else
      match json(line[jsonIdx..])
      case Parsed(rec) => Structured(rec)
      case JsonError(m, eof, p) => Malformed(m, eof, p)
  }

  /** strings.Index(line, "{") is the position of the first '{', or -1 when there is none. */
  lemma FirstBraceIndex(line: string)
    ensures IndexOf(line, "{") == -1 <==> '{' !in line
    ensures IndexOf(line, "{") != -1 ==>
      0 <= IndexOf(line, "{") < |line| && line[IndexOf(line, "{")] == '{' && '{' !in line[..IndexOf(line, "{")]
  {
    var r := IndexOf(line, "{");
    forall i | 0 <= i < |line| ensures OccursAt(line, "{", i) <==> line[i] == '{' {
      assert line[i..i + 1] == [line[i]];
    }
    if r != -1 {
      assert OccursAt(line, "{", r);
      forall i | 0 <= i < r ensures line[..r][i] != '{' {
        assert !OccursAt(line, "{", i);
      }
    }
  }

  // ---------------------------------------------------------------------
  // What one line does to the cache, on values

  /** A group as the display sees it. */
  datatype GroupView = GroupView(title: string, description: string, groupValue: string,
                                 timestamp: Time, lines: seq<LogLine>, selectedLine: int)

  /** The effect of one successfully read line on the group cache. */
  datatype Ingestion =
    | Skip                                            // a decode error reported as end of input
    | AddLine(key: string, line: LogLine)             // append to an existing (reserved) group
    | Upsert(key: string, title: string, description: string, line: LogLine)
                                                      // create the group if unseen, stamp it, append

  /** The "Error loading" line recorded for a malformed line. */
  function LoadError(line: string, err: string): string
  {
    "Error loading '" + line + "': " + err
  }

  /** The tag specifications that apply to a record: the global ones, then the matched group's. */
  function TagSpecsFor(c: Config, m: Option<GroupMatch>): (r: seq<TagSpec>)
    requires Prepared(c)
    requires m.Some? ==> m.value.index < |c.groups|
    ensures TagsReady(r)
    ensures m.None? ==> r == c.tags.value
    ensures m.Some? ==> r == c.tags.value + c.groups[m.value.index].tags.value
  {
    if m.None? then c.tags.value else c.tags.value + c.groups[m.value.index].tags.value
  }

  /**
    The classification processLog applies to one line read at instant `now`.
   */
  function Ingest(e: Engine, c: Config, d: Decoders, text: string, now: Time): (r: Ingestion)
    requires Prepared(c)
    ensures r.Skip? <==> Decode(text, d.json).Malformed? && Decode(text, d.json).isEOF
  {
    match Decode(text, d.json)
    case PlainText => AddLine(NotJsonKey, LogLine("", ZeroTime, text, None, []))
    case Malformed(msg, eof, partial) =>
      if eof then Skip else AddLine(ErrorsKey, LogLine("", ZeroTime, LoadError(text, msg), partial, []))
    case Structured(rec) => IngestStructured(e, c, d, rec, now)
  }

  /** The ingestion of a decoded record. */
  function IngestStructured(e: Engine, c: Config, d: Decoders, rec: Record, now: Time): (r: Ingestion)
    requires Prepared(c)
    ensures r.Upsert?
  {
    var m := GetGroupAndTitle(e, c, rec);
    var line := LogLine(GetLevel(e, c, rec), GetTimestamp(e, c, d.time, rec, now), GetMessage(e, c, rec),
                        Some(rec), FirstByName(Candidates(e, TagSpecsFor(c, m), rec), {}));
    match m
    case None => Upsert(NoGroupKey, "No Group", "Ungrouped", line)
    case Some(g) => Upsert(g.value, g.title, c.groups[g.index].name, line)
  }

  /** The status processLog reports for a line: the record's status, or "" for a line that is not a record. */
  function LineStatus(e: Engine, c: Config, d: Decoders, text: string): string
    requires Prepared(c)
  {
    match Decode(text, d.json)
    case Structured(rec) => GetStatus(e, c, rec)
    case _ => ""
  }

  /** A line without '{' is kept verbatim, without data, in the reserved Text group. */
  lemma PlainTextLine(e: Engine, c: Config, d: Decoders, text: string, now: Time)
    requires Prepared(c) && '{' !in text
    ensures Ingest(e, c, d, text, now) == AddLine(NotJsonKey, LogLine("", ZeroTime, text, None, []))
  {
  }

  /**
    A line whose JSON does not decode is recorded in the reserved Parse
    Failures group with the decoder's message and whatever it decoded;
    an error reported as end of input records nothing.
   */
  lemma MalformedLine(e: Engine, c: Config, d: Decoders, text: string, now: Time)
    requires Prepared(c) && Decode(text, d.json).Malformed?
    ensures var dec := Decode(text, d.json);
      Ingest(e, c, d, text, now) ==
        if dec.isEOF then Skip
        else AddLine(ErrorsKey, LogLine("", ZeroTime, LoadError(text, dec.message), dec.partial, []))
  {
  }

  /**
    A record goes to the group of the first matching rule (or to "nogroup"
    as "No Group"/"Ungrouped"), stamped with its timestamp, with its level,
    message, data and de-duplicated tags from the global then the group's
    tag rules.
   */
  lemma StructuredLine(e: Engine, c: Config, d: Decoders, text: string, now: Time)
    requires Prepared(c) && Decode(text, d.json).Structured?
    ensures var rec := Decode(text, d.json).rec;
      var m := GetGroupAndTitle(e, c, rec);
      var r := Ingest(e, c, d, text, now);
      && r.Upsert?
      && r.line == LogLine(GetLevel(e, c, rec), GetTimestamp(e, c, d.time, rec, now), GetMessage(e, c, rec),
                           Some(rec), FirstByName(Candidates(e, TagSpecsFor(c, m), rec), {}))
      && (m.None? ==> r.key == NoGroupKey && r.title == "No Group" && r.description == "Ungrouped")
      && (m.Some? ==> r.key == m.value.value && r.title == m.value.title
                      && r.description == c.groups[m.value.index].name)
  {
  }

  /** Whether an ingestion only appends to groups that exist. */
  predicate Applicable(v: map<string, GroupView>, i: Ingestion)
  {
    i.AddLine? ==> i.key in v
  }

  /**
    The cache after an ingestion: one group receives the line, every other
    group is untouched, no group is removed, and an existing group keeps its
    title, description and group value.
   */
  function ApplyIngestion(v: map<string, GroupView>, i: Ingestion): (r: map<string, GroupView>)
    requires Applicable(v, i)
    ensures i.Skip? ==> r == v
    ensures !i.Skip? ==> r.Keys == v.Keys + {i.key}
    ensures forall k :: k in v && (i.Skip? || k != i.key) ==> r[k] == v[k]
    ensures !i.Skip? ==> r[i.key].lines == (if i.key in v then v[i.key].lines else []) + [i.line]
    ensures !i.Skip? && i.key in v ==>
      && r[i.key].title == v[i.key].title
      && r[i.key].description == v[i.key].description
      && r[i.key].groupValue == v[i.key].groupValue
      && r[i.key].selectedLine == v[i.key].selectedLine
    ensures i.AddLine? ==> r[i.key].timestamp == v[i.key].timestamp
    ensures i.Upsert? ==> r[i.key].timestamp == i.line.timestamp
    ensures i.Upsert? && i.key !in v ==>
      r[i.key] == GroupView(i.title, i.description, i.key, i.line.timestamp, [i.line], 0)
  {
    match i
    case Skip => v
    case AddLine(key, line) => v[key := v[key].(lines := v[key].lines + [line])]
    case Upsert(key, title, description, line) =>
      if key in v then v[key := v[key].(timestamp := line.timestamp, lines := v[key].lines + [line])]
      else v[key := GroupView(title, description, key, line.timestamp, [line], 0)]
  }

  /** The reserved groups are present. */
  predicate HasReserved(v: map<string, GroupView>)
  {
    ErrorsKey in v && NotJsonKey in v
  }

  /** Every ingestion of a line targets a group that exists, or creates it. */
  lemma IngestApplicable(e: Engine, c: Config, d: Decoders, text: string, now: Time, v: map<string, GroupView>)
    requires Prepared(c) && HasReserved(v)
    ensures Applicable(v, Ingest(e, c, d, text, now))
  {
  }

  /** The cache after a sequence of ingestions. */
  function ApplyAll(v: map<string, GroupView>, history: seq<Ingestion>): map<string, GroupView>
    requires HasReserved(v)
    requires forall i :: i in history ==> i.AddLine? ==> i.key == ErrorsKey || i.key == NotJsonKey
    decreases |history|
  {
    if history == [] then v else ApplyAll(ApplyIngestion(v, history[0]), history[1..])
  }

  /**
    Over any history, groups are never removed or renamed and their lines
    only grow: what the display showed for a group stays a prefix of it.
   */
  lemma {:induction false} HistoryOnlyGrows(v: map<string, GroupView>, history: seq<Ingestion>)
    requires HasReserved(v)
    requires forall i :: i in history ==> i.AddLine? ==> i.key == ErrorsKey || i.key == NotJsonKey
    ensures HasReserved(ApplyAll(v, history))
    ensures forall k :: k in v ==>
      && k in ApplyAll(v, history)
      && ApplyAll(v, history)[k].title == v[k].title
      && ApplyAll(v, history)[k].description == v[k].description
      && ApplyAll(v, history)[k].groupValue == v[k].groupValue
      && v[k].lines <= ApplyAll(v, history)[k].lines
    decreases |history|
  {
    if history != [] {
      var v' := ApplyIngestion(v, history[0]);
      assert forall i :: i in history[1..] ==> i in history;
      HistoryOnlyGrows(v', history[1..]);
    }
  }

  // ---------------------------------------------------------------------
  // The group cache

  /**
    logGroup. Title, description and group value are fixed when the group
    is created; the timestamp and lines grow with ingestion and the display
    writes the selected line back through the same reference.
   */
  class LogGroup {
    const title: string
    const description: string
    const groupValue: string
    var timestamp: Time
    var lines: seq<LogLine>
    var selectedLine: int

    constructor (title: string, description: string, groupValue: string, timestamp: Time)
      ensures this.title == title && this.description == description && this.groupValue == groupValue
      ensures this.timestamp == timestamp && lines == [] && selectedLine == 0
    {
      this.title := title;
      this.description := description;
      this.groupValue := groupValue;
      this.timestamp := timestamp;
      lines := [];
      selectedLine := 0;
    }
  }

  ghost function ViewOf(g: LogGroup): GroupView
    reads g
  {
    GroupView(g.title, g.description, g.groupValue, g.timestamp, g.lines, g.selectedLine)
  }

  /** `a` is listed before `b`: more recent first, equal instants by title, descending. */
  predicate Before(a: LogGroup, b: LogGroup)
    reads a, b
  {
    a.timestamp > b.timestamp || (a.timestamp == b.timestamp && Less(b.title, a.title))
  }

  lemma BeforeAsymmetric(a: LogGroup, b: LogGroup)
    requires Before(a, b)
    ensures !Before(b, a)
  {
    if a.timestamp == b.timestamp {
      LessAsymmetric(b.title, a.title);
    }
  }

  lemma BeforeTransitive(a: LogGroup, b: LogGroup, c: LogGroup)
    requires Before(a, b) && Before(b, c)
    ensures Before(a, c)
  {
    if a.timestamp == b.timestamp == c.timestamp {
      LessTransitive(c.title, b.title, a.title);
    }
  }

  ghost predicate Sorted(s: seq<LogGroup>)
    reads s
  {
    forall i, j :: 0 <= i < j < |s| ==> !Before(s[j], s[i])
  }

  predicate Distinct(s: seq<LogGroup>)
  {
    forall i, j :: 0 <= i < j < |s| ==> s[i] != s[j]
  }

  /** Splicing a new element into a list: the members grow by exactly that element, and stay distinct. */
  lemma Splice(s: seq<LogGroup>, x: LogGroup, p: nat)
    requires p <= |s|
    ensures forall g :: g in s[..p] + [x] + s[p..] <==> g in s || g == x
    ensures Distinct(s) && x !in s ==> Distinct(s[..p] + [x] + s[p..])
  {
    var r := s[..p] + [x] + s[p..];
    assert s == s[..p] + s[p..];
    if Distinct(s) && x !in s {
      forall a, b | 0 <= a < b < |r| ensures r[a] != r[b] {
        assert r[a] == (if a < p then s[a] else if a == p then x else s[a - 1]);
        assert r[b] == (if b < p then s[b] else if b == p then x else s[b - 1]);
      }
    }
  }

  /** Inserts `x` after every element that does not sort after it. */
  method Insert(s: seq<LogGroup>, x: LogGroup) returns (r: seq<LogGroup>)
    requires Sorted(s)
    ensures Sorted(r)
    ensures |r| == |s| + 1
    ensures forall g :: g in r <==> g in s || g == x
    ensures Distinct(s) && x !in s ==> Distinct(r)
  {
    var p := 0;
    while p < |s| && !Before(x, s[p])
      invariant 0 <= p <= |s|
      invariant forall j :: 0 <= j < p ==> !Before(x, s[j])
    {
      p := p + 1;
    }
    r := s[..p] + [x] + s[p..];
    Splice(s, x, p);
    forall i, j | 0 <= i < j < |r| ensures !Before(r[j], r[i]) {
      if j == p {
        assert r[i] == s[i];
      } else if i == p {
        assert r[j] == s[j - 1];
        if Before(s[j - 1], x) {
          if j - 1 == p {
            BeforeAsymmetric(x, s[p]);
          } else {
            BeforeTransitive(s[j - 1], x, s[p]);
          }
        }
      } else {
        assert r[i] == (if i < p then s[i] else s[i - 1]);
        assert r[j] == (if j < p then s[j] else s[j - 1]);
      }
    }
  }

  /**
    sort.Slice on the snapshot: the same groups, each once, ordered by
    recency (the order of groups that compare equal is unspecified).
   */
  method SortByRecency(s: seq<LogGroup>) returns (r: seq<LogGroup>)
    requires Distinct(s)
    ensures Sorted(r) && Distinct(r) && |r| == |s|
    ensures forall g :: g in r <==> g in s
  {
    r := [];
    var i := 0;
    while i < |s|
      invariant 0 <= i <= |s|
      invariant Sorted(r) && Distinct(r) && |r| == i
      invariant forall g :: g in r <==> g in s[..i]
    {
      assert s[i] !in s[..i];
      assert s[..i + 1] == s[..i] + [s[i]];
      r := Insert(r, s[i]);
      i := i + 1;
    }
    assert s[..i] == s;
  }

  /** The message scanLogs hands to the display. */
  datatype Msg = ScanMsg(lines: seq<LogGroup>, status: string) | DisconnectedMsg

  /** The group cache (itemsCache), keyed by group value. */
  class GroupIndex {
    var cache: map<string, LogGroup>

    /** The reserved groups exist and no group object is held under two keys. */
    ghost predicate Valid()
      reads this
    {
      && ErrorsKey in cache && NotJsonKey in cache
      && forall k1, k2 :: k1 in cache && k2 in cache && k1 != k2 ==> cache[k1] != cache[k2]
    }

    ghost function View(): map<string, GroupView>
      reads this, cache.Values
    {
      map k | k in cache :: ViewOf(cache[k])
    }

    /** The initial cache: the two reserved groups, each stamped when it was created. */
    constructor (errorsCreated: Time, textCreated: Time)
      ensures Valid()
      ensures View() == map[ErrorsKey := GroupView("Parse Failures", "Errors", "", errorsCreated, [], 0),
                             NotJsonKey := GroupView("Text", "Not JSON", "", textCreated, [], 0)]
      ensures fresh(cache.Values)
    {
      var errors := new LogGroup("Parse Failures", "Errors", "", errorsCreated);
      var text := new LogGroup("Text", "Not JSON", "", textCreated);
      cache := map[ErrorsKey := errors, NotJsonKey := text];
    }

    /**
      processLog, with the error result limited to read failures (see
      ProcessLogErrAsWritten for the error the source returns).
     */
    method ProcessLog(e: Engine, c: Config, d: Decoders, input: ReadResult, now: Time)
      returns (status: string, err: Option<string>)
      requires Valid() && Prepared(c)
      modifies this, cache.Values
      ensures Valid()
      ensures input.ReadError? ==> View() == old(View()) && status == "" && err == Some(input.err)
      ensures input.Line? ==> err.None? && Applicable(old(View()), Ingest(e, c, d, input.text, now))
      ensures input.Line? ==> View() == ApplyIngestion(old(View()), Ingest(e, c, d, input.text, now))
      ensures input.Line? ==> status == LineStatus(e, c, d, input.text)
      ensures forall k :: k in old(cache) ==> k in cache && cache[k] == old(cache[k])
      ensures forall k :: k in cache && k !in old(cache) ==> fresh(cache[k])
    {
      if input.ReadError? {
        return "", Some(input.err);
      }
      var line := input.text;
      var jsonIdx := IndexOf(line, "{");
      if jsonIdx == -1 {
        assert Decode(line, d.json) == PlainText;
        AppendLine(NotJsonKey, LogLine("", ZeroTime, line, None, []));
        return "", None;
      }
      match d.json(line[jsonIdx..])
      case JsonError(msg, eof, partial) =>
        assert Decode(line, d.json) == Malformed(msg, eof, partial);
        if !eof {
          AppendLine(ErrorsKey, LogLine("", ZeroTime, LoadError(line, msg), partial, []));
        }
        return "", None;
      case Parsed(rec) =>
        assert Decode(line, d.json) == Structured(rec);
        status := IngestRecord(e, c, d, rec, now);
        return status, None;
    }

    /** The structured branch of processLog: files the record's line under its group. */
    method IngestRecord(e: Engine, c: Config, d: Decoders, rec: Record, now: Time) returns (status: string)
      requires Valid() && Prepared(c)
      modifies this, cache.Values
      ensures Valid()
      ensures status == GetStatus(e, c, rec)
      ensures View() == ApplyIngestion(old(View()), IngestStructured(e, c, d, rec, now))
      ensures forall k :: k in old(cache) ==> k in cache && cache[k] == old(cache[k])
      ensures forall k :: k in cache && k !in old(cache) ==> fresh(cache[k])
    {
      var groupValue, groupTitle, specName, entry := BuildEntry(e, c, d, rec, now);
      status := GetStatus(e, c, rec);
      FileLine(groupValue, groupTitle, specName, entry);
    }

    /** The group, its title and description, and the line that processLog builds from a record. */
    method BuildEntry(e: Engine, c: Config, d: Decoders, rec: Record, now: Time)
      returns (groupValue: string, groupTitle: string, specName: string, entry: LogLine)
      requires Prepared(c)
      ensures IngestStructured(e, c, d, rec, now) == Upsert(groupValue, groupTitle, specName, entry)
    {
      var m := GetGroupAndTitle(e, c, rec);
      var timestamp := GetTimestamp(e, c, d.time, rec, now);
      if m.None? {
        groupValue, groupTitle, specName := NoGroupKey, "No Group", "Ungrouped";
      } else {
        groupValue, groupTitle, specName := m.value.value, m.value.title, c.groups[m.value.index].name;
      }
      var message := GetMessage(e, c, rec);
      var level := GetLevel(e, c, rec);
      var tags := GetTags(e, TagSpecsFor(c, m), rec);
      entry := LogLine(level, timestamp, message, Some(rec), tags);
    }

    /** Creates the group under `key` when it is unseen, then stamps it with the line's instant and appends the line. */
    method FileLine(key: string, title: string, description: string, entry: LogLine)
      requires Valid()
      modifies this, cache.Values
      ensures Valid()
      ensures View() == ApplyIngestion(old(View()), Upsert(key, title, description, entry))
      ensures forall k :: k in old(cache) ==> k in cache && cache[k] == old(cache[k])
      ensures forall k :: k in cache && k !in old(cache) ==> fresh(cache[k])
    {
      if key in cache {
        StampAndAppend(key, entry.timestamp, entry);
      } else {
        var tcache := new LogGroup(title, description, key, ZeroTime);
        tcache.timestamp := entry.timestamp;
        tcache.lines := tcache.lines + [entry];
        cache := cache[key := tcache];
        assert View() == old(View())[key := ViewOf(tcache)];
      }
    }

    /** Appends a line to the group held under some key; every other group is untouched. */
    method AppendLine(k: string, line: LogLine)
      requires Valid() && k in cache
      modifies cache[k]
      ensures Valid()
      ensures View() == ApplyIngestion(old(View()), AddLine(k, line))
    {
      var g := cache[k];
      g.lines := g.lines + [line];
      assert View() == old(View())[k := old(View())[k].(lines := old(View())[k].lines + [line])];
    }

    /** Stamps an existing group with `t` and appends a line; every other group is untouched. */
    method StampAndAppend(k: string, t: Time, line: LogLine)
      requires Valid() && k in cache
      modifies cache[k]
      ensures Valid()
      ensures View() == old(View())[k := old(View())[k].(timestamp := t, lines := old(View())[k].lines + [line])]
    {
      var g := cache[k];
      g.timestamp := t;
      g.lines := g.lines + [line];
      assert View() == old(View())[k := old(View())[k].(timestamp := t, lines := old(View())[k].lines + [line])];
    }

    /** `disp` lists every group of the cache once, most recent first. */
    ghost predicate Displays(disp: seq<LogGroup>)
      reads this, disp
    {
      && Sorted(disp) && Distinct(disp) && |disp| == |cache|
      && (forall i :: 0 <= i < |disp| ==> disp[i] in cache.Values)
      && (forall k :: k in cache ==> cache[k] in disp)
    }

    /** Every group of the cache, each once, in display order. */
    method Snapshot() returns (disp: seq<LogGroup>)
      requires Valid()
      ensures Displays(disp)
    {
      var collected: seq<LogGroup> := [];
      var keys := cache.Keys;
      while keys != {}
        invariant keys <= cache.Keys
        invariant |collected| + |keys| == |cache.Keys|
        invariant Distinct(collected)
        invariant forall g :: g in collected <==> exists k :: k in cache.Keys - keys && cache[k] == g
        decreases |keys|
      {
        var k :| k in keys;
        assert cache[k] !in collected;
        collected := collected + [cache[k]];
        keys := keys - {k};
      }
      assert cache.Keys - keys == cache.Keys;
      disp := SortByRecency(collected);
      forall i | 0 <= i < |disp|
        ensures disp[i] in cache.Values
      {
        assert disp[i] in collected;
      }
    }

    /**
      scanLogs: ingest one line, then report the ordered snapshot and the
      status; only a failed read reports the input as disconnected.
     */
    method ScanLogs(e: Engine, c: Config, d: Decoders, input: ReadResult, now: Time) returns (msg: Msg)
      requires Valid() && Prepared(c)
      modifies this, cache.Values
      ensures Valid()
      ensures msg.DisconnectedMsg? <==> input.ReadError?
      ensures input.ReadError? ==> View() == old(View())
      ensures input.Line? ==> View() == ApplyIngestion(old(View()), Ingest(e, c, d, input.text, now))
      ensures msg.ScanMsg? ==> Displays(msg.lines) && msg.status == LineStatus(e, c, d, input.text)
    {
      var status, err := ProcessLog(e, c, d, input, now);
      if err.Some? {
        return DisconnectedMsg;
      }
      ghost var filed := View();
      var disp := Snapshot();
      assert View() == filed;
      return ScanMsg(disp, status);
    }
  }

  // ---------------------------------------------------------------------
  // The error processLog returns as written

  /**
    The error processLog returns as written: its result `err` is named, so
    the decode error, and the message rule's error (assigned to the same
    variable), are returned along with the read error.
   */
  function ProcessLogErrAsWritten(e: Engine, c: Config, d: Decoders, input: ReadResult): (r: Option<string>)
    requires Prepared(c)
    ensures input.ReadError? ==> r == Some(input.err)
    ensures input.Line? && Decode(input.text, d.json).Malformed? ==> r.Some?
    ensures input.Line? && Decode(input.text, d.json).Structured? ==>
      r == ApplyTemplate(e, c.messageTmpl.value, Decode(input.text, d.json).rec).err
  {
    match input
    case ReadError(err) => Some(err)
    case Line(text) =>
      match Decode(text, d.json)
      case PlainText => None
      case Malformed(msg, _, _) => Some(msg)
      case Structured(rec) => ApplyTemplate(e, c.messageTmpl.value, rec).err
  }

  /** Whether scanLogs, as written, reports the input as disconnected. */
  predicate DisconnectsAsWritten(e: Engine, c: Config, d: Decoders, input: ReadResult)
    requires Prepared(c)
  {
    ProcessLogErrAsWritten(e, c, d, input).Some?
  }

  /**
    As written, one malformed line is recorded under Parse Failures and then
    ends ingestion for good: scanLogs reports disconnection and no further
    scan is scheduled, although the input is still open.
   */
  lemma MalformedLineDisconnectsAsWritten(e: Engine, c: Config, d: Decoders, text: string, now: Time)
    requires Prepared(c)
    requires Decode(text, d.json).Malformed? && !Decode(text, d.json).isEOF
    ensures Ingest(e, c, d, text, now).AddLine? && Ingest(e, c, d, text, now).key == ErrorsKey
    ensures DisconnectsAsWritten(e, c, d, Line(text))
  {
  }

  /**
    As written, a structured line whose message rule fails is recorded with
    the "Field ... not found" message and then ends ingestion the same way.
   */
  lemma FailingMessageDisconnectsAsWritten(e: Engine, c: Config, d: Decoders, text: string, now: Time)
    requires Prepared(c)
    requires Decode(text, d.json).Structured?
    requires ApplyTemplate(e, c.messageTmpl.value, Decode(text, d.json).rec).err.Some?
    ensures Ingest(e, c, d, text, now).Upsert?
    ensures Ingest(e, c, d, text, now).line.message ==
      MissingMessage(c.messageField, ApplyTemplate(e, c.messageTmpl.value, Decode(text, d.json).rec).err.value)
    ensures DisconnectsAsWritten(e, c, d, Line(text))
  {
  }

  /** A concrete malformed line: "{oops\n" with the decoder's syntax error. */
  lemma MalformedLineExample(e: Engine, c: Config)
    requires Prepared(c)
    ensures var d := Decoders(s => JsonError("invalid character 'o' looking for beginning of object key string", false, None),
                              s => None);
      DisconnectsAsWritten(e, c, d, Line("{oops\n"))
  {
    var d := Decoders(s => JsonError("invalid character 'o' looking for beginning of object key string", false, None),
                      s => None);
    assert "{oops\n"[0] == '{';
    assert Decode("{oops\n", d.json).Malformed?;
  }
}
