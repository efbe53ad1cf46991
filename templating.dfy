/**
  The template-rule wrapper (internal/templating/template.go) and the
  truncation helpers it registers (internal/templating/funcs.go).

  Go's `text/template` engine is foreign code: parsing a template text and
  executing a compiled template against a record are the two functions of an
  `Engine`, and nothing is assumed about them.
 */
module Templating {
  import opened Wrappers
  import opened Strings
  import opened Values

  /** A compiled template; `text` is exactly what was handed to the parser. */
  datatype Template = Template(text: string)

  /** The output written into the buffer and the error `Execute` returned, if any. */
  datatype Rendered = Rendered(output: string, err: Option<string>)

  datatype Engine = Engine(
    /** The parser's error for a template text, or None when it parses. */
    parse: string -> Option<string>,
    /** `Execute` with option missingkey=invalid: a missing key prints the placeholder. */
    execute: (Template, Record) -> Rendered)

  /** What text/template prints for a missing key under missingkey=invalid. */
  const NoValue := "<no value>"

  /** The message log.Fatalf prints when a template text does not parse. */
  function FatalMessage(value: string, err: string): string
  {
    "Cannot build template for \"" + value + "\": " + err
  }

  /**
    BuildTemplateText: compile `value` verbatim. A text that does not parse
    ends the process at start-up, modelled as a Failure carrying the fatal
    message; it can never become a per-line error, since only a Success holds
    a Template to execute.
   */
  function BuildTemplateText(e: Engine, value: string): (r: Result<Template, string>)
    ensures r.Success? <==> e.parse(value).None?
    ensures r.Success? ==> r.value.text == value
    ensures r.Failure? ==> r.error == FatalMessage(value, e.parse(value).value)
  {
    match e.parse(value)
    case None => Success(Template(value))
    case Some(err) => Failure(FatalMessage(value, err))
  }

  /** The text BuildTemplate hands to the parser: a bare field name becomes a projection of that field. */
  function TemplateSource(value: string): string
  {
    if Contains(value, "{{") then value else "{{ ." + value + " }}"
  }

  /**
    BuildTemplate: a source holding `{{` is compiled as it is; any other
    source `s` is compiled as `{{ .s }}`.
   */
  function BuildTemplate(e: Engine, value: string): (r: Result<Template, string>)
    ensures Contains(value, "{{") ==> r == BuildTemplateText(e, value)
    ensures !Contains(value, "{{") ==> r == BuildTemplateText(e, "{{ ." + value + " }}")
  {
    BuildTemplateText(e, TemplateSource(value))
  }

  /** Wrapping is done at most once: the wrapped text is already an expression. */
  lemma TemplateSourceIdempotent(value: string)
    ensures Contains(TemplateSource(value), "{{")
    ensures TemplateSource(TemplateSource(value)) == TemplateSource(value)
  {
    var t := TemplateSource(value);
    if !Contains(value, "{{") {
      assert t[..2] == "{{";
      ContainsPrefix(t, "{{");
    }
  }

  /** The output ApplyTemplate hands back: anything mentioning the placeholder becomes empty. */
  function Normalise(s: string): (r: string)
    ensures !Contains(r, NoValue)
    ensures Contains(s, NoValue) ==> r == ""
    ensures !Contains(s, NoValue) ==> r == s
  {
    if Contains(s, NoValue) then
      assert !OccursAt("", NoValue, 0);
      ""
    else s
  }

  /**
    ApplyTemplate: execute `t` against `data`. An output that contains
    `<no value>` anywhere becomes ""; any other output is returned as it is,
    and the execution error is passed through unchanged either way.
   */
  function ApplyTemplate(e: Engine, t: Template, data: Record): (r: Rendered)
    ensures r.err == e.execute(t, data).err
    ensures !Contains(r.output, NoValue)
    ensures !Contains(e.execute(t, data).output, NoValue) ==> r.output == e.execute(t, data).output
    ensures Contains(e.execute(t, data).output, NoValue) ==> r.output == ""
  {
    var raw := e.execute(t, data);
    Rendered(Normalise(raw.output), raw.err)
  }

  /** A rule "succeeds" when it executes without error and renders something. */
  predicate Succeeds(r: Rendered)
  {
    r.err.None? && r.output != ""
  }

  /**
    Truncate (truncateRight): a string longer than `limit` bytes becomes its
    first `limit` bytes followed by "...". A negative limit makes Go's slice
    expression panic, so the function demands a non-negative one.
   */
  function TruncateRight(s: string, limit: int): (r: string)
    requires 0 <= limit
    ensures |s| <= limit ==> r == s
    ensures |s| > limit ==> |r| == limit + 3 && r[..limit] == s[..limit] && r[limit..] == "..."
  {
    if |s| > limit then s[0..limit] + "..." else s
  }

  /**
    TruncateLeft: a string longer than `limit` bytes becomes "..." followed
    by its last `limit` bytes.
   */
  function TruncateLeft(s: string, limit: int): (r: string)
    requires 0 <= limit
    ensures |s| <= limit ==> r == s
    ensures |s| > limit ==> |r| == limit + 3 && r[..3] == "..." && r[3..] == s[|s| - limit..]
  {
    if |s| > limit then "..." + s[|s| - limit..] else s
  }
}
