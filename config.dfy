/**
  Configuration (internal/config/config.go): the rule specifications, their
  ordered first-error validation, template preparation and the defaults.

  A nil Go slice of tag specifications is `None`; the other slices are only
  ever ranged over, where nil and empty behave alike, so they are plain
  sequences. Template fields that PrepareTemplates has not filled yet are `None`.
 */
module Configuration {
  import opened Wrappers
  import opened Strings
  import opened Templating

  datatype TagSpec = TagSpec(
    value: string,                 // yaml "source"
    key: string,                   // yaml "name"
    valueTmpl: Option<Template>,
    keyTmpl: Option<Template>)

  datatype GroupSpec = GroupSpec(
    valueField: string,
    titleField: string,
    tags: Option<seq<TagSpec>>,
    name: string,
    titleTmpl: Option<Template>,
    valueTmpl: Option<Template>)

  datatype StatusSpec = StatusSpec(display: string, displayTmpl: Option<Template>)

  datatype Config = Config(
    levelField: string,
    messageField: string,
    timestampField: string,
    groups: seq<GroupSpec>,
    statuses: seq<StatusSpec>,
    tags: Option<seq<TagSpec>>,
    levelTmpl: Option<Template>,
    messageTmpl: Option<Template>,
    timestampTmpl: Option<Template>)

  /** Ranging over a possibly nil slice. */
  function TagList(tags: Option<seq<TagSpec>>): seq<TagSpec>
  {
    match tags
    case None => []
    case Some(ts) => ts
  }

  // ---------------------------------------------------------------------
  // Validation

  datatype TagError = BlankKey
  datatype GroupError = BlankTitleField | BlankValueField | BlankName | BadTag(index: nat, err: TagError)
  datatype StatusError = BlankDisplay
  datatype ConfigError =
    | BlankLevelField
    | BlankMessageField
    | BlankTimestampField
    | BadGroup(entry: nat, groupErr: GroupError)
    | BadStatus(entry: nat, statusErr: StatusError)

  function TagErrorText(e: TagError): string
  {
    "'key' must be specified"
  }

  function GroupErrorText(e: GroupError): string
  {
    match e
    case BlankTitleField => "'titleField' cannot be blank"
    case BlankValueField => "'valueField' cannot be blank"
    case BlankName => "'name' cannot be blank"
    case BadTag(i, t) => "tag " + NatToString(i) + ": " + TagErrorText(t)
  }

  function StatusErrorText(e: StatusError): string
  {
    "'display' cannot be blank"
  }

  /** The text of the error Config.Validate returns. */
  function ErrorText(e: ConfigError): string
  {
    match e
    case BlankLevelField => "'levelField' cannot be blank"
    case BlankMessageField => "'messageField' cannot be blank"
    case BlankTimestampField => "'timestampField' cannot be blank"
    case BadGroup(n, g) => "group entry #" + NatToString(n) + ": " + GroupErrorText(g)
    case BadStatus(n, s) => "status entry #" + NatToString(n) + ": " + StatusErrorText(s)
  }

  /** What validation demands of a group entry. */
  predicate GroupComplete(g: GroupSpec)
  {
    && g.titleField != "" && g.valueField != "" && g.name != ""
    && forall t :: t in TagList(g.tags) ==> t.key != ""
  }

  /** What validation demands of a whole configuration; global tags are not checked. */
  predicate ConfigComplete(c: Config)
  {
    && c.levelField != "" && c.messageField != "" && c.timestampField != ""
    && (forall g :: g in c.groups ==> GroupComplete(g))
    && (forall s :: s in c.statuses ==> s.display != "")
  }

  /** TagSpec.Validate. */
  function ValidateTag(t: TagSpec): (r: Option<TagError>)
    ensures r.None? <==> t.key != ""
  {
    if t.key == "" then Some(BlankKey) else None
  }

  /** The tag loop of GroupSpec.Validate, from index `i` on. */
  function ValidateTagsFrom(tags: seq<TagSpec>, i: nat): (r: Option<GroupError>)
    requires i <= |tags|
    ensures r.None? <==> forall j :: i <= j < |tags| ==> tags[j].key != ""
    ensures r.Some? ==> r.value.BadTag? && i <= r.value.index < |tags| && tags[r.value.index].key == ""
    ensures r.Some? ==> forall j :: i <= j < r.value.index ==> tags[j].key != ""
    decreases |tags| - i
  {
    if i == |tags| then None
    else
      match ValidateTag(tags[i])
      case Some(e) => Some(BadTag(i, e))
      case None => ValidateTagsFrom(tags, i + 1)
  }

  /**
    GroupSpec.Validate: titleField, valueField and name must be non-blank, in
    that order; then the first tag with a blank key is reported with its
    0-based index.
   */
  function ValidateGroup(g: GroupSpec): (r: Option<GroupError>)
    ensures r.None? <==> GroupComplete(g)
    ensures r == Some(BlankTitleField) <==> g.titleField == ""
    ensures r == Some(BlankValueField) <==> g.titleField != "" && g.valueField == ""
    ensures r == Some(BlankName) <==> g.titleField != "" && g.valueField != "" && g.name == ""
    ensures r.Some? && r.value.BadTag? ==>
      && g.titleField != "" && g.valueField != "" && g.name != ""
      && r.value.index < |TagList(g.tags)| && TagList(g.tags)[r.value.index].key == ""
      && forall j :: 0 <= j < r.value.index ==> TagList(g.tags)[j].key != ""
  {
    if g.titleField == "" then Some(BlankTitleField)
    else if g.valueField == "" then Some(BlankValueField)
    else if g.name == "" then Some(BlankName)
    else ValidateTagsFrom(TagList(g.tags), 0)
  }

  /** StatusSpec.Validate. */
  function ValidateStatus(s: StatusSpec): (r: Option<StatusError>)
    ensures r.None? <==> s.display != ""
  {
    if s.display == "" then Some(BlankDisplay) else None
  }

  /** The group loop of Config.Validate, from index `i` on; entries are numbered from 1. */
  function ValidateGroupsFrom(groups: seq<GroupSpec>, i: nat): (r: Option<ConfigError>)
    requires i <= |groups|
    ensures r.None? <==> forall j :: i <= j < |groups| ==> GroupComplete(groups[j])
    ensures r.Some? ==> r.value.BadGroup? && i < r.value.entry <= |groups|
    ensures r.Some? ==> ValidateGroup(groups[r.value.entry - 1]) == Some(r.value.groupErr)
    ensures r.Some? ==> forall j :: i <= j < r.value.entry - 1 ==> GroupComplete(groups[j])
    decreases |groups| - i
  {
    if i == |groups| then None
    else
      match ValidateGroup(groups[i])
      case Some(e) => Some(BadGroup(i + 1, e))
      case None => ValidateGroupsFrom(groups, i + 1)
  }

  /** The status loop of Config.Validate, from index `i` on; entries are numbered from 1. */
  function ValidateStatusesFrom(statuses: seq<StatusSpec>, i: nat): (r: Option<ConfigError>)
    requires i <= |statuses|
    ensures r.None? <==> forall j :: i <= j < |statuses| ==> statuses[j].display != ""
    ensures r.Some? ==> r.value.BadStatus? && r.value.statusErr == BlankDisplay && i < r.value.entry <= |statuses|
    ensures r.Some? ==> statuses[r.value.entry - 1].display == ""
    ensures r.Some? ==> forall j :: i <= j < r.value.entry - 1 ==> statuses[j].display != ""
    decreases |statuses| - i
  {
    if i == |statuses| then None
    else
      match ValidateStatus(statuses[i])
      case Some(e) => Some(BadStatus(i + 1, e))
      case None => ValidateStatusesFrom(statuses, i + 1)
  }

  /**
    Config.Validate: levelField, messageField and timestampField must be
    non-blank, in that order; then the group entries and then the status
    entries are checked in order, and the first failure is reported with its
    1-based entry number. It succeeds exactly when every check passes.
   */
  function Validate(c: Config): (r: Option<ConfigError>)
    ensures r.None? <==> ConfigComplete(c)
    ensures r == Some(BlankLevelField) <==> c.levelField == ""
    ensures r == Some(BlankMessageField) <==> c.levelField != "" && c.messageField == ""
    ensures r == Some(BlankTimestampField) <==>
      c.levelField != "" && c.messageField != "" && c.timestampField == ""
    ensures r.Some? && r.value.BadGroup? ==>
      && c.levelField != "" && c.messageField != "" && c.timestampField != ""
      && 1 <= r.value.entry <= |c.groups|
      && ValidateGroup(c.groups[r.value.entry - 1]) == Some(r.value.groupErr)
      && forall j :: 0 <= j < r.value.entry - 1 ==> GroupComplete(c.groups[j])
    ensures r.Some? && r.value.BadStatus? ==>
      && c.levelField != "" && c.messageField != "" && c.timestampField != ""
      && (forall g :: g in c.groups ==> GroupComplete(g))
      && 1 <= r.value.entry <= |c.statuses|
      && c.statuses[r.value.entry - 1].display == ""
      && forall j :: 0 <= j < r.value.entry - 1 ==> c.statuses[j].display != ""
  {
    if c.levelField == "" then Some(BlankLevelField)
    else if c.messageField == "" then Some(BlankMessageField)
    else if c.timestampField == "" then Some(BlankTimestampField)
    else
      match ValidateGroupsFrom(c.groups, 0)
      case Some(e) => Some(e)
      case None => ValidateStatusesFrom(c.statuses, 0)
  }

  // ---------------------------------------------------------------------
  // Defaults

  /** The configuration Get starts from before the configuration file is merged in. */
  function Defaults(): Config
  {
    Config(
      "level", "msg", "time",
      [ GroupSpec("request_id", "msg", None, "Request", None, None),
        GroupSpec("category", "category", None, "Category", None, None) ],
      [], None, None, None, None)
  }

  /** The defaults pass validation on their own. */
  lemma DefaultsAreComplete()
    ensures Validate(Defaults()) == None
  {
    var d := Defaults();
    assert forall g :: g in d.groups ==> GroupComplete(g);
  }

  // ---------------------------------------------------------------------
  // Template preparation

  /** Every template the classifier executes has been compiled. */
  predicate Prepared(c: Config)
  {
    && c.levelTmpl.Some? && c.messageTmpl.Some? && c.timestampTmpl.Some?
    && c.tags.Some? && (forall t :: t in c.tags.value ==> t.keyTmpl.Some?)
    && (forall g :: g in c.groups ==>
          g.valueTmpl.Some? && g.titleTmpl.Some? && g.tags.Some?
          && forall t :: t in g.tags.value ==> t.keyTmpl.Some?)
    && (forall s :: s in c.statuses ==> s.displayTmpl.Some?)
  }

  /**
    `t'` is `t` after TagSpec.PrepareTemplates: the name is compiled as raw
    template text (never field-wrapped); the value is compiled, field-wrapped,
    only when its source is non-empty, and otherwise left as it was.
   */
  predicate TagCompiled(t: TagSpec, t': TagSpec)
  {
    && t'.key == t.key && t'.value == t.value
    && t'.keyTmpl == Some(Template(t.key))
    && t'.valueTmpl == (if t.value != "" then Some(Template(TemplateSource(t.value))) else t.valueTmpl)
  }

  predicate TagsCompiled(ts: seq<TagSpec>, ts': seq<TagSpec>)
  {
    |ts'| == |ts| && forall i :: 0 <= i < |ts| ==> TagCompiled(ts[i], ts'[i])
  }

  predicate GroupCompiled(g: GroupSpec, g': GroupSpec)
  {
    && g'.valueField == g.valueField && g'.titleField == g.titleField && g'.name == g.name
    && g'.valueTmpl == Some(Template(TemplateSource(g.valueField)))
    && g'.titleTmpl == Some(Template(TemplateSource(g.titleField)))
    && g'.tags.Some? && TagsCompiled(TagList(g.tags), g'.tags.value)
  }

  /** `c'` is `c` after PrepareTemplates: same sources, every template compiled from its own source. */
  predicate ConfigCompiled(c: Config, c': Config)
  {
    && c'.levelField == c.levelField && c'.messageField == c.messageField
    && c'.timestampField == c.timestampField
    && c'.messageTmpl == Some(Template(TemplateSource(c.messageField)))
    && c'.timestampTmpl == Some(Template(TemplateSource(c.timestampField)))
    && c'.levelTmpl == Some(Template(TemplateSource(c.levelField)))
    && c'.tags.Some? && TagsCompiled(TagList(c.tags), c'.tags.value)
    && |c'.groups| == |c.groups|
    && (forall i :: 0 <= i < |c.groups| ==> GroupCompiled(c.groups[i], c'.groups[i]))
    && |c'.statuses| == |c.statuses|
    && (forall i :: 0 <= i < |c.statuses| ==>
          c'.statuses[i].display == c.statuses[i].display
          && c'.statuses[i].displayTmpl == Some(Template(TemplateSource(c.statuses[i].display))))
  }

  /** The texts one tag hands to the template parser, in order. */
  function TagTexts(t: TagSpec): seq<string>
  {
    [t.key] + if t.value != "" then [TemplateSource(t.value)] else []
  }

  function TagsTexts(ts: seq<TagSpec>): seq<string>
  {
    if ts == [] then [] else TagTexts(ts[0]) + TagsTexts(ts[1..])
  }

  function GroupTexts(g: GroupSpec): seq<string>
  {
    [TemplateSource(g.valueField), TemplateSource(g.titleField)] + TagsTexts(TagList(g.tags))
  }

  function GroupsTexts(gs: seq<GroupSpec>): seq<string>
  {
    if gs == [] then [] else GroupTexts(gs[0]) + GroupsTexts(gs[1..])
  }

  function StatusesTexts(ss: seq<StatusSpec>): seq<string>
  {
    if ss == [] then [] else [TemplateSource(ss[0].display)] + StatusesTexts(ss[1..])
  }

  /** Every text PrepareTemplates hands to the template parser, in the order it does so. */
  function BuildOrder(c: Config): seq<string>
  {
    [TemplateSource(c.messageField), TemplateSource(c.timestampField), TemplateSource(c.levelField)]
    + (TagsTexts(TagList(c.tags)) + (GroupsTexts(c.groups) + StatusesTexts(c.statuses)))
  }

  /** The fatal message for the first text in `texts` that does not parse, if any. */
  function FirstFailure(e: Engine, texts: seq<string>): Option<string>
  {
    if texts == [] then None
    else if e.parse(texts[0]).Some? then Some(FatalMessage(texts[0], e.parse(texts[0]).value))
    else FirstFailure(e, texts[1..])
  }

  lemma {:induction false} FirstFailureAppend(e: Engine, a: seq<string>, b: seq<string>)
    ensures FirstFailure(e, a + b) == if FirstFailure(e, a).Some? then FirstFailure(e, a) else FirstFailure(e, b)
  {
    if a != [] {
      assert (a + b)[1..] == a[1..] + b;
      FirstFailureAppend(e, a[1..], b);
    } else {
      assert a + b == b;
    }
  }

  /** A text that parses is passed over. */
  lemma FirstFailureSkip(e: Engine, texts: seq<string>)
    requires texts != [] && e.parse(texts[0]).None?
    ensures FirstFailure(e, texts) == FirstFailure(e, texts[1..])
  {
  }

  /** TagSpec.PrepareTemplates. */
  function PrepareTag(e: Engine, t: TagSpec): (r: Result<TagSpec, string>)
    ensures r.Failure? <==> FirstFailure(e, TagTexts(t)).Some?
    ensures r.Failure? ==> FirstFailure(e, TagTexts(t)) == Some(r.error)
    ensures r.Success? ==> TagCompiled(t, r.value)
  {
    var texts := TagTexts(t);
    assert texts[0] == t.key;
    assert t.value != "" ==> texts[1..] == [TemplateSource(t.value)] && texts[1..][1..] == [];
    assert t.value == "" ==> texts[1..] == [];
    assert e.parse(t.key).None? ==> FirstFailure(e, texts) == FirstFailure(e, texts[1..]);
    assert t.value != "" && e.parse(TemplateSource(t.value)).None? ==> FirstFailure(e, texts[1..]) == None;
    match BuildTemplateText(e, t.key)
    case Failure(err) => Failure(err)
    case Success(k) =>
      if t.value != "" then
        match BuildTemplate(e, t.value)
        case Failure(err) => Failure(err)
        case Success(v) => Success(t.(keyTmpl := Some(k), valueTmpl := Some(v)))
      else
        Success(t.(keyTmpl := Some(k)))
  }

  /** The `for _, t := range tags { t.PrepareTemplates() }` loops. */
  method PrepareTags(e: Engine, tags: seq<TagSpec>) returns (r: Result<seq<TagSpec>, string>)
    ensures r.Failure? <==> FirstFailure(e, TagsTexts(tags)).Some?
    ensures r.Failure? ==> FirstFailure(e, TagsTexts(tags)) == Some(r.error)
    ensures r.Success? ==> TagsCompiled(tags, r.value)
  {
    var done: seq<TagSpec> := [];
    var i := 0;
    while i < |tags|
      invariant 0 <= i <= |tags|
      invariant TagsCompiled(tags[..i], done)
      invariant FirstFailure(e, TagsTexts(tags)) == FirstFailure(e, TagsTexts(tags[i..]))
    {
      assert tags[i..][1..] == tags[i + 1..];
      FirstFailureAppend(e, TagTexts(tags[i]), TagsTexts(tags[i + 1..]));
      var t :- PrepareTag(e, tags[i]);
      done := done + [t];
      i := i + 1;
    }
    assert tags[..i] == tags;
    r := Success(done);
  }

  /** One iteration of the group loop of Config.PrepareTemplates. */
  method PrepareGroup(e: Engine, g: GroupSpec) returns (r: Result<GroupSpec, string>)
    ensures r.Failure? <==> FirstFailure(e, GroupTexts(g)).Some?
    ensures r.Failure? ==> FirstFailure(e, GroupTexts(g)) == Some(r.error)
    ensures r.Success? ==> GroupCompiled(g, r.value)
  {
    var texts := GroupTexts(g);
    assert texts[0] == TemplateSource(g.valueField);
    assert texts[1..][0] == TemplateSource(g.titleField);
    assert texts[1..][1..] == TagsTexts(TagList(g.tags));
    var value :- BuildTemplate(e, g.valueField);
    FirstFailureSkip(e, texts);
    var title :- BuildTemplate(e, g.titleField);
    FirstFailureSkip(e, texts[1..]);
    var tags :- PrepareTags(e, TagList(g.tags));
    r := Success(g.(valueTmpl := Some(value), titleTmpl := Some(title), tags := Some(tags)));
  }

  /** The group loop of Config.PrepareTemplates. */
  method PrepareGroups(e: Engine, gs: seq<GroupSpec>) returns (r: Result<seq<GroupSpec>, string>)
    ensures r.Failure? <==> FirstFailure(e, GroupsTexts(gs)).Some?
    ensures r.Failure? ==> FirstFailure(e, GroupsTexts(gs)) == Some(r.error)
    ensures r.Success? ==> |r.value| == |gs| && forall j :: 0 <= j < |gs| ==> GroupCompiled(gs[j], r.value[j])
  {
    var groups: seq<GroupSpec> := [];
    var i := 0;
    while i < |gs|
      invariant 0 <= i <= |gs|
      invariant |groups| == i
      invariant forall j :: 0 <= j < i ==> GroupCompiled(gs[j], groups[j])
      invariant FirstFailure(e, GroupsTexts(gs)) == FirstFailure(e, GroupsTexts(gs[i..]))
    {
      GroupsTextsStep(gs, i);
      FirstFailureAppend(e, GroupTexts(gs[i]), GroupsTexts(gs[i + 1..]));
      var g :- PrepareGroup(e, gs[i]);
      groups := groups + [g];
      i := i + 1;
    }
    r := Success(groups);
  }

  /** The texts of the groups from `i` on: those of group `i`, then the rest. */
  lemma GroupsTextsStep(gs: seq<GroupSpec>, i: nat)
    requires i < |gs|
    ensures GroupsTexts(gs[i..]) == GroupTexts(gs[i]) + GroupsTexts(gs[i + 1..])
  {
    assert gs[i..][1..] == gs[i + 1..];
  }

  /** The status loop of Config.PrepareTemplates. */
  method PrepareStatuses(e: Engine, ss: seq<StatusSpec>) returns (r: Result<seq<StatusSpec>, string>)
    ensures r.Failure? <==> FirstFailure(e, StatusesTexts(ss)).Some?
    ensures r.Failure? ==> FirstFailure(e, StatusesTexts(ss)) == Some(r.error)
    ensures r.Success? ==> |r.value| == |ss| && forall j :: 0 <= j < |ss| ==>
      r.value[j].display == ss[j].display
      && r.value[j].displayTmpl == Some(Template(TemplateSource(ss[j].display)))
  {
    var statuses: seq<StatusSpec> := [];
    var i := 0;
    while i < |ss|
      invariant 0 <= i <= |ss|
      invariant |statuses| == i
      invariant forall j :: 0 <= j < i ==>
        statuses[j].display == ss[j].display
        && statuses[j].displayTmpl == Some(Template(TemplateSource(ss[j].display)))
      invariant FirstFailure(e, StatusesTexts(ss)) == FirstFailure(e, StatusesTexts(ss[i..]))
    {
      var s := ss[i];
      assert ss[i..][0] == s && ss[i..][1..] == ss[i + 1..];
      var display :- BuildTemplate(e, s.display);
      FirstFailureSkip(e, StatusesTexts(ss[i..]));
      statuses := statuses + [s.(displayTmpl := Some(display))];
      i := i + 1;
    }
    r := Success(statuses);
  }

  /**
    Config.PrepareTemplates: compile every template, in a fixed order. The
    first text that does not parse is fatal; otherwise every template is
    compiled from its own source, and nil global and per-group tag lists
    become empty lists.
   */
  method PrepareTemplates(e: Engine, c: Config) returns (r: Result<Config, string>)
    ensures r.Failure? <==> FirstFailure(e, BuildOrder(c)).Some?
    ensures r.Failure? ==> FirstFailure(e, BuildOrder(c)) == Some(r.error)
    ensures r.Success? ==> ConfigCompiled(c, r.value) && Prepared(r.value)
    ensures r.Success? && c.tags.None? ==> r.value.tags == Some([])
  {
    var order := BuildOrder(c);
    ghost var rest := TagsTexts(TagList(c.tags)) + (GroupsTexts(c.groups) + StatusesTexts(c.statuses));
    assert order[0] == TemplateSource(c.messageField);
    assert order[1..][0] == TemplateSource(c.timestampField);
    assert order[1..][1..][0] == TemplateSource(c.levelField);
    assert order[1..][1..][1..] == rest;
    var message :- BuildTemplate(e, c.messageField);
    FirstFailureSkip(e, order);
    var timestamp :- BuildTemplate(e, c.timestampField);
    FirstFailureSkip(e, order[1..]);
    var level :- BuildTemplate(e, c.levelField);
    FirstFailureSkip(e, order[1..][1..]);

    FirstFailureAppend(e, TagsTexts(TagList(c.tags)), GroupsTexts(c.groups) + StatusesTexts(c.statuses));
    var tags :- PrepareTags(e, TagList(c.tags));
    FirstFailureAppend(e, GroupsTexts(c.groups), StatusesTexts(c.statuses));
    var groups :- PrepareGroups(e, c.groups);
    var statuses :- PrepareStatuses(e, c.statuses);

    var c' := c.(messageTmpl := Some(message), timestampTmpl := Some(timestamp), levelTmpl := Some(level),
                 tags := Some(tags), groups := groups, statuses := statuses);
    CompiledIsPrepared(c, c');
    r := Success(c');
  }

  lemma CompiledIsPrepared(c: Config, c': Config)
    requires ConfigCompiled(c, c')
    ensures Prepared(c')
  {
    forall t | t in c'.tags.value ensures t.keyTmpl.Some? {
      var i :| 0 <= i < |c'.tags.value| && c'.tags.value[i] == t;
      assert TagCompiled(TagList(c.tags)[i], t);
    }
    forall g | g in c'.groups
      ensures g.valueTmpl.Some? && g.titleTmpl.Some? && g.tags.Some?
      ensures forall t :: t in g.tags.value ==> t.keyTmpl.Some?
    {
      var i :| 0 <= i < |c'.groups| && c'.groups[i] == g;
      assert GroupCompiled(c.groups[i], g);
      forall t | t in g.tags.value ensures t.keyTmpl.Some? {
        var j :| 0 <= j < |g.tags.value| && g.tags.value[j] == t;
        assert TagCompiled(TagList(c.groups[i].tags)[j], t);
      }
    }
    forall s | s in c'.statuses ensures s.displayTmpl.Some? {
      var i :| 0 <= i < |c'.statuses| && c'.statuses[i] == s;
    }
  }

  /**
    Get: start from the defaults, merge the configuration file over them
    (`unmarshal`, foreign), validate, then prepare the templates. Each
    failure is fatal and carries the message the process dies with.
   */
  method Get(e: Engine, unmarshal: Config -> Result<Config, string>) returns (r: Result<Config, string>)
    ensures unmarshal(Defaults()).Failure? ==> r == Failure("Error parsing config" + unmarshal(Defaults()).error)
    ensures unmarshal(Defaults()).Success? && Validate(unmarshal(Defaults()).value).Some? ==>
      r == Failure("Config error: " + ErrorText(Validate(unmarshal(Defaults()).value).value))
    ensures (unmarshal(Defaults()).Success? && Validate(unmarshal(Defaults()).value).None?
             && FirstFailure(e, BuildOrder(unmarshal(Defaults()).value)).Some?) ==>
      r == Failure(FirstFailure(e, BuildOrder(unmarshal(Defaults()).value)).value)
    ensures r.Success? <==>
      && unmarshal(Defaults()).Success?
      && Validate(unmarshal(Defaults()).value).None?
      && FirstFailure(e, BuildOrder(unmarshal(Defaults()).value)).None?
    ensures r.Success? ==>
      && unmarshal(Defaults()).Success?
      && ConfigComplete(unmarshal(Defaults()).value)
      && FirstFailure(e, BuildOrder(unmarshal(Defaults()).value)) == None
      && ConfigCompiled(unmarshal(Defaults()).value, r.value)
      && Prepared(r.value)
  {
    var loaded := unmarshal(Defaults());
    if loaded.Failure? {
      return Failure("Error parsing config" + loaded.error);
    }
    var err := Validate(loaded.value);
    if err.Some? {
      return Failure("Config error: " + ErrorText(err.value));
    }
    r := PrepareTemplates(e, loaded.value);
  }
}
