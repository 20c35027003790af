/**
 * The fact checker (fact_checker.py): per-source URL validation, the text
 * listing of sources handed to the external judge, and the two verdict
 * entry points with their fail-closed fallbacks.
 *
 * The URL library and the judge are outside the model. `validUrl` stands for
 * `validators.url`, which answers `True` or a failure object; `judge` stands
 * for the chat-completion call and the parsing of its JSON reply, which
 * yields a verdict or raises.
 */
module FactChecker {
  import opened Wrappers
  import opened Text
  import opened Configuration

  /** A member of a JSON object as `dict.get` sees it: missing, `null`, or a string. */
  datatype Field = Absent | Null | Str(s: string)

  /** `d.get(key, default)`: the default only when the key is missing, not when it is null. */
  function Get(f: Field, default: Field): Field {
    if f.Absent? then default else f
  }

  /** Python truthiness of a member: a non-empty string. */
  predicate Truthy(f: Field) {
    f.Str? && f.s != ""
  }

  /** How an f-string renders `d.get(key, default)`: `None` prints as "None". */
  function Render(f: Field, default: string): string {
    match f
    case Absent => default
    case Null => "None"
    case Str(t) => t
  }

  /** One submitted source object: `url`, `title` and `description`, each possibly missing. */
  datatype SourceInput = SourceInput(url: Field, title: Field, description: Field)

  /** The per-source result of `validate_sources`. */
  datatype SourceCheck = SourceCheck(url: Field, isValidUrl: bool, title: Field, hasDescription: bool)

  /** What `validators.url` returns: `True`, or a (falsy) failure object. */
  datatype UrlResult = ValidTrue | ValidationFailure

  /**
   * The check of one source: the url (the empty string when missing) and
   * title (null when missing) are copied, the url is valid exactly when it is
   * a non-empty string the URL library answers `True` for, and the
   * description counts when it is a non-empty string.
   */
  function CheckSource(source: SourceInput, validUrl: string -> UrlResult): (c: SourceCheck)
    ensures c.url == (if source.url.Absent? then Str("") else source.url)
    ensures c.isValidUrl <==> source.url.Str? && source.url.s != "" && validUrl(source.url.s) == ValidTrue
    ensures c.title == (if source.title.Absent? then Null else source.title)
    ensures c.hasDescription <==> source.description.Str? && source.description.s != ""
  {
    var url := Get(source.url, Str(""));
    SourceCheck(url, Truthy(url) && validUrl(url.s) == ValidTrue, Get(source.title, Null), Truthy(source.description))
  }

  /** A source whose url is missing, null or empty is invalid whatever the URL library would say. */
  lemma MissingUrlNeverValid(source: SourceInput, validUrl: string -> UrlResult)
    requires !Truthy(source.url)
    ensures !CheckSource(source, validUrl).isValidUrl
    ensures forall other: string -> UrlResult :: CheckSource(source, other) == CheckSource(source, validUrl)
  {
  }

  /** The checks of all sources, one per source and in order. */
  function ValidatedSources(sources: seq<SourceInput>, validUrl: string -> UrlResult): (checks: seq<SourceCheck>)
    ensures |checks| == |sources|
    ensures forall i :: 0 <= i < |sources| ==> checks[i] == CheckSource(sources[i], validUrl)
  {
    seq(|sources|, i requires 0 <= i < |sources| => CheckSource(sources[i], validUrl))
  }

  /** validate_sources: one result per source, in the order given. */
  method ValidateSources(sources: seq<SourceInput>, validUrl: string -> UrlResult) returns (results: seq<SourceCheck>)
    ensures |results| == |sources|
    ensures forall i :: 0 <= i < |sources| ==> results[i] == CheckSource(sources[i], validUrl)
  {
    results := [];
    for n := 0 to |sources|
      invariant |results| == n
      invariant forall i :: 0 <= i < n ==> results[i] == CheckSource(sources[i], validUrl)
    {
      var source := sources[n];
      var url := Get(source.url, Str(""));
      var validation := if Truthy(url) then validUrl(url.s) else ValidationFailure;
      var isValidUrl := validation == ValidTrue;
      results := results + [SourceCheck(url, isValidUrl, Get(source.title, Null), Truthy(source.description))];
    }
  }

  predicate NoNewline(f: Field) {
    f.Str? ==> '\n' !in f.s
  }

  /**
   * The line that lists one source for the judge, `- {title}: {url} - {description}`:
   * it starts with "- ", and stays on one line when no member holds a newline.
   */
  function SourceLine(source: SourceInput): (line: string)
    ensures |line| >= 2 && line[..2] == "- "
    ensures NoNewline(source.url) && NoNewline(source.title) && NoNewline(source.description) ==> '\n' !in line
  {
    "- " + Render(source.title, "Untitled") + ": " + Render(source.url, "No URL")
      + " - " + Render(source.description, "No description")
  }

  /**
   * The listing of all sources for the judge, their lines joined by newlines:
   * empty exactly when there are no sources, and otherwise starting with the
   * first source's line.
   */
  function SourcesText(sources: seq<SourceInput>): (text: string)
    ensures text == "" <==> sources == []
    ensures sources != [] ==> SourceLine(sources[0]) <= text
  {
    Join(seq(|sources|, i requires 0 <= i < |sources| => SourceLine(sources[i])), '\n')
  }

  /**
   * When no member of any source holds a newline, the listing has exactly one
   * line per source, in order, each starting with "- ".
   */
  lemma SourcesTextHasOneLinePerSource(sources: seq<SourceInput>)
    requires |sources| >= 1
    requires forall i :: 0 <= i < |sources| ==>
      NoNewline(sources[i].url) && NoNewline(sources[i].title) && NoNewline(sources[i].description)
    ensures var lines := Split(SourcesText(sources), '\n');
      && |lines| == |sources|
      && forall i :: 0 <= i < |sources| ==> lines[i] == SourceLine(sources[i]) && lines[i][..2] == "- "
  {
    var lines := seq(|sources|, i requires 0 <= i < |sources| => SourceLine(sources[i]));
    SplitJoin(lines, '\n');
  }

  /** The verdict record: validity, score (when the judge gave one), issues and recommendations. */
  datatype Verdict = Verdict(isValid: bool, score: Option<int>, issues: seq<string>, recommendations: seq<string>)

  /** What the judge is asked about: an argument, or a rebuttal with the argument it answers. */
  datatype Prompt =
    | ArgumentPrompt(content: string, sourcesText: string)
    | RebuttalPrompt(rebuttal: string, originalArgument: string, sourcesText: string)

  /** The outcome of one call to the judge: its verdict, or the message of the exception raised. */
  datatype JudgeReply = Reply(verdict: Verdict) | Raised(message: string)

  const NOT_CONFIGURED_ISSUE: string := "OpenAI API key not configured"
  const NOT_CONFIGURED_ADVICE: string := "Configure OPENAI_API_KEY to enable fact-checking"
  const ERROR_PREFIX: string := "Error during fact-checking: "
  const RETRY_ADVICE: string := "Please try again or contact support"

  /** The verdict given without a key: invalid, score 0, one issue and one recommendation. */
  function NotConfigured(): (v: Verdict)
    ensures !v.isValid && v.score == Some(0)
    ensures |v.issues| == 1 && |v.recommendations| == 1
  {
    Verdict(false, Some(0), [NOT_CONFIGURED_ISSUE], [NOT_CONFIGURED_ADVICE])
  }

  /**
   * The verdict given when the call to the judge raised: invalid, score 0,
   * and a single issue from which the exception's message can be read back.
   */
  function CallFailed(message: string): (v: Verdict)
    ensures !v.isValid && v.score == Some(0)
    ensures |v.issues| == 1 && |ERROR_PREFIX| <= |v.issues[0]| && v.issues[0][|ERROR_PREFIX|..] == message
    ensures |v.recommendations| == 1
  {
    Verdict(false, Some(0), [ERROR_PREFIX + message], [RETRY_ADVICE])
  }

  /** The verdict for a judge reply: the judge's own, or the failure verdict when it raised. */
  function FromReply(reply: JudgeReply): Verdict {
    match reply
    case Reply(v) => v
    case Raised(message) => CallFailed(message)
  }

  /**
   * check_argument: without a key, an invalid verdict of score 0 with one
   * issue and one recommendation; with a key, the judge's verdict on the
   * argument and its sources, or an invalid verdict of score 0 naming the
   * error when the call raised.
   */
  function CheckArgument(apiKey: Option<string>, content: string, sources: seq<SourceInput>, judge: Prompt -> JudgeReply): (v: Verdict)
    ensures !Configured(apiKey) ==>
      !v.isValid && v.score == Some(0) && v.issues == [NOT_CONFIGURED_ISSUE] && |v.recommendations| == 1
    ensures Configured(apiKey) && judge(ArgumentPrompt(content, SourcesText(sources))).Raised? ==>
      && !v.isValid && v.score == Some(0) && |v.recommendations| == 1
      && v.issues == [ERROR_PREFIX + judge(ArgumentPrompt(content, SourcesText(sources))).message]
    ensures Configured(apiKey) && judge(ArgumentPrompt(content, SourcesText(sources))).Reply? ==>
      v == judge(ArgumentPrompt(content, SourcesText(sources))).verdict
  {
    if !Configured(apiKey) then NotConfigured()
    else FromReply(judge(ArgumentPrompt(content, SourcesText(sources))))
  }

  /**
   * check_rebuttal: as CheckArgument, with the text of the argument being
   * answered passed to the judge as context.
   */
  function CheckRebuttal(apiKey: Option<string>, content: string, originalArgument: string,
                         sources: seq<SourceInput>, judge: Prompt -> JudgeReply): (v: Verdict)
    ensures !Configured(apiKey) ==>
      !v.isValid && v.score == Some(0) && v.issues == [NOT_CONFIGURED_ISSUE] && |v.recommendations| == 1
    ensures Configured(apiKey) && judge(RebuttalPrompt(content, originalArgument, SourcesText(sources))).Raised? ==>
      && !v.isValid && v.score == Some(0) && |v.recommendations| == 1
      && v.issues == [ERROR_PREFIX + judge(RebuttalPrompt(content, originalArgument, SourcesText(sources))).message]
    ensures Configured(apiKey) && judge(RebuttalPrompt(content, originalArgument, SourcesText(sources))).Reply? ==>
      v == judge(RebuttalPrompt(content, originalArgument, SourcesText(sources))).verdict
  {
    if !Configured(apiKey) then NotConfigured()
    else FromReply(judge(RebuttalPrompt(content, originalArgument, SourcesText(sources))))
  }

  /** Without a key the judge is never consulted: any two judges give the same verdicts. */
  lemma NoJudgeWithoutKey(apiKey: Option<string>, content: string, originalArgument: string,
                          sources: seq<SourceInput>, judge: Prompt -> JudgeReply, other: Prompt -> JudgeReply)
    requires !Configured(apiKey)
    ensures CheckArgument(apiKey, content, sources, judge) == CheckArgument(apiKey, content, sources, other)
    ensures CheckRebuttal(apiKey, content, originalArgument, sources, judge)
         == CheckRebuttal(apiKey, content, originalArgument, sources, other)
  {
  }
}
