/**
 * The YAML parser service (src/app/core/services/yaml-parser.service.ts):
 * it wraps the outcome of loading a YAML text and of checking it against the
 * configuration schema into a `ParseResult`, and formats that result as a
 * thrown message or as a diagnostic text.
 *
 * The YAML loader itself is not modelled: each operation receives what
 * `yaml.load` produced for the text, either a document (possibly
 * `undefined`) or the value it threw.
 */
module YamlParser {
  import opened Text
  import opened DashboardModels

  /** What `yaml.load` threw: an `Error` carries a message, anything else
      does not. */
  datatype Thrown = ErrorInstance(message: string) | OtherValue

  /** The outcome of `yaml.load(yamlString)`. */
  datatype Loaded = Document(value: Option<Json>) | Threw(error: Thrown)

  /** `ParseError`: a path of strings, a message and an optional code. */
  datatype ParseError = ParseError(path: seq<string>, message: string, code: Option<string>)

  /** `ParseResult`: `data` is set on success, `errors` on failure. */
  datatype ParseResult = ParseResult(success: bool, data: Option<DashboardConfig>, errors: Option<seq<ParseError>>)

  /** What `parseYamlOrThrow` does: return a configuration or throw an
      `Error` with a message. */
  datatype Outcome<T> = Returned(value: T) | Raised(message: string)

  const EmptyDocumentMessage := "YAML content is empty or invalid"
  const UnknownParsingError := "Unknown parsing error"

  function Failure(errors: seq<ParseError>): ParseResult {
    ParseResult(false, None, Some(errors))
  }

  /** `String(p)` for a path segment. */
  function SegmentText(s: Segment): string {
    match s
    case Key(name) => name
    case Index(i) => NatToString(i)
  }

  function PathText(path: seq<Segment>): (r: seq<string>)
    ensures |r| == |path| && forall k :: 0 <= k < |path| ==> r[k] == SegmentText(path[k])
  {
    seq(|path|, k requires 0 <= k < |path| => SegmentText(path[k]))
  }

  /** One schema issue as a `ParseError`: path as strings, message and code copied. */
  function ToParseError(i: Issue): (e: ParseError)
    ensures e.message == Message(i.problem) && e.code == Some(Code(i.problem))
    ensures |e.path| == |i.path| && forall k :: 0 <= k < |i.path| ==> e.path[k] == SegmentText(i.path[k])
  {
    ParseError(PathText(i.path), Message(i.problem), Some(Code(i.problem)))
  }

  function ToParseErrors(issues: seq<Issue>): (r: seq<ParseError>)
    ensures |r| == |issues| && forall k :: 0 <= k < |issues| ==> r[k] == ToParseError(issues[k])
  {
    seq(|issues|, k requires 0 <= k < |issues| => ToParseError(issues[k]))
  }

  /** The guard `!parsedYaml || typeof parsedYaml !== 'object'` lets only
      arrays and objects through. */
  predicate IsObjectLike(v: Option<Json>) {
    v.Some? && (v.value.JArray? || v.value.JObject?)
  }

  /** `parseYaml`.  A result succeeds exactly when it carries data and no
      errors, succeeds only with a configuration the schema accepts, and
      never fails without saying why. */
  function ParseYaml(loaded: Loaded, isUrl: string -> bool): (r: ParseResult)
    ensures r.success <==> r.data.Some?
    ensures r.success <==> r.errors.None?
    ensures r.success ==> ConfigOk(r.data.value, isUrl)
    ensures !r.success ==> r.errors.value != []
    ensures r.success <==> loaded.Document? && CheckConfig(loaded.value, isUrl).Valid?
    ensures loaded.Document? && IsObjectLike(loaded.value) ==> r == FromChecked(CheckConfig(loaded.value, isUrl))
  {
    match loaded
    case Threw(e) =>
      Failure([ParseError([], if e.ErrorInstance? then e.message else UnknownParsingError, None)])
    case Document(v) =>
      if !IsObjectLike(v) then
        Failure([ParseError([], EmptyDocumentMessage, None)])
      else FromChecked(CheckConfig(v, isUrl))
  }

  /** The result for a document that passed the guard: the schema's verdict
      with its issues turned into `ParseError`s. */
  function FromChecked(checked: Checked<DashboardConfig>): (r: ParseResult)
    ensures r.success <==> checked.Valid?
    ensures r.success ==> r.data == Some(checked.value) && r.errors.None?
    ensures !r.success ==> r.data.None? && r.errors == Some(ToParseErrors(checked.issues))
  {
    match checked
    case Valid(c) => ParseResult(true, Some(c), None)
    case Invalid(issues) => Failure(ToParseErrors(issues))
  }

  /** A document that is missing, falsy or not an object fails with the one
      error "YAML content is empty or invalid" at the root. */
  lemma NotAnObjectRejected(v: Option<Json>, isUrl: string -> bool)
    requires !IsObjectLike(v)
    ensures ParseYaml(Document(v), isUrl) == Failure([ParseError([], EmptyDocumentMessage, None)])
  {
  }

  /** An object-like document passes the guard and its schema issues are
      reported one `ParseError` per issue, in issue order. */
  lemma IssuesReported(v: Option<Json>, isUrl: string -> bool)
    requires IsObjectLike(v) && CheckConfig(v, isUrl).Invalid?
    ensures var r := ParseYaml(Document(v), isUrl);
            var issues := CheckConfig(v, isUrl).issues;
            && r.errors.Some? && |r.errors.value| == |issues|
            && forall k :: 0 <= k < |issues| ==>
                 && r.errors.value[k].message == Message(issues[k].problem)
                 && r.errors.value[k].code == Some(Code(issues[k].problem))
                 && |r.errors.value[k].path| == |issues[k].path|
                 && r.errors.value[k].path == PathText(issues[k].path)
  {
  }

  /** A thrown value becomes one root error: the `Error`'s message, or
      "Unknown parsing error" for anything that is not an `Error`. */
  lemma ThrowCaught(e: Thrown, isUrl: string -> bool)
    ensures var r := ParseYaml(Threw(e), isUrl);
            && !r.success && r.errors.Some? && |r.errors.value| == 1
            && r.errors.value[0].path == [] && r.errors.value[0].code.None?
            && r.errors.value[0].message == (if e.ErrorInstance? then e.message else "Unknown parsing error")
  {
  }

  /** A well-formed configuration, written out as a document and parsed,
      comes back unchanged. */
  lemma ParseWrittenConfig(c: DashboardConfig, isUrl: string -> bool)
    requires ConfigOk(c, isUrl)
    ensures ParseYaml(Document(Some(ConfigToJson(c))), isUrl) == ParseResult(true, Some(c), None)
  {
    ConfigRoundTrip(c, isUrl);
  }

  /** The shipped default, written out as a document, fails to parse with a
      single error at `applications`. */
  lemma DefaultDocumentRejected(isUrl: string -> bool)
    requires isUrl(GoogleSearchUrl)
    ensures ParseYaml(Document(Some(ConfigToJson(DefaultDashboardConfig))), isUrl)
            == Failure([ParseError(["applications"], Message(TooSmall(Elements, 1)), Some("too_small"))])
  {
    var v := Some(ConfigToJson(DefaultDashboardConfig));
    var issue := Issue([Key("applications")], TooSmall(Elements, 1));
    DefaultConfigRejected(isUrl);
    assert ParseYaml(Document(v), isUrl) == FromChecked(Invalid([issue]));
    assert ToParseErrors([issue]) == [ToParseError(issue)];
    assert PathText([Key("applications")]) == ["applications"];
  }

  /** The message of that error, as Zod words it. */
  lemma TooFewAppsMessage()
    ensures Message(TooSmall(Elements, 1)) == "Array must contain at least 1 element(s)"
  {
    assert NatToString(1) == "1";
  }

  /** `isValidYaml`: the success flag of `parseYaml`, that is, the loader
      produced a document the schema accepts. */
  function IsValidYaml(loaded: Loaded, isUrl: string -> bool): (b: bool)
    ensures b <==> ParseYaml(loaded, isUrl).success
    ensures b <==> loaded.Document? && IsObjectLike(loaded.value) && CheckConfig(loaded.value, isUrl).Valid?
  {
    ParseYaml(loaded, isUrl).success
  }

  // ---------------------------------------------------------------------
  // parseYamlOrThrow
  // ---------------------------------------------------------------------

  const ThrowPrefix := "Failed to parse YAML:\n"

  /** One line of the thrown message: `path.join('.') + ': ' + message`. */
  function ThrowLine(e: ParseError): (line: string)
    ensures e.path == [] ==> line == ": " + e.message
    ensures var j := Join(".", e.path);
            && |line| == |j| + 2 + |e.message|
            && line[..|j|] == j && line[|j|..|j| + 2] == ": " && line[|j| + 2..] == e.message
  {
    Join(".", e.path) + ": " + e.message
  }

  function ThrowLines(errors: seq<ParseError>): (r: seq<string>)
    ensures |r| == |errors| && forall k :: 0 <= k < |errors| ==> r[k] == ThrowLine(errors[k])
  {
    seq(|errors|, k requires 0 <= k < |errors| => ThrowLine(errors[k]))
  }

  /** The text after the prefix: the joined lines, or "Unknown error" when
      they join to the empty string. */
  function ThrowBody(result: ParseResult): (body: string)
    ensures body != []
    ensures result.errors.Some? && result.errors.value != [] ==> body == Join("\n", ThrowLines(result.errors.value))
    ensures result.errors.None? || result.errors.value == [] ==> body == "Unknown error"
  {
    ThrowLinesJoinNonEmpty(if result.errors.Some? then result.errors.value else []);
    var joined := if result.errors.Some? then Join("\n", ThrowLines(result.errors.value)) else [];
    if joined == [] then "Unknown error" else joined
  }

  /** The throwing half of `parseYamlOrThrow`, on a parse result: its data
      when it succeeded, otherwise an error whose message is the prefix and
      the error lines. */
  function OrThrow(result: ParseResult): (r: Outcome<DashboardConfig>)
    requires result.success ==> result.data.Some?
    ensures r.Returned? <==> result.success
    ensures r.Returned? ==> Some(r.value) == result.data
    ensures r.Raised? ==> |ThrowPrefix| < |r.message| && r.message[..|ThrowPrefix|] == ThrowPrefix
    ensures r.Raised? && result.errors.Some? && result.errors.value != [] ==>
              r.message == ThrowPrefix + Join("\n", ThrowLines(result.errors.value))
    ensures r.Raised? && (result.errors.None? || result.errors.value == []) ==>
              r.message == ThrowPrefix + "Unknown error"
  {
    if !result.success then Raised(ThrowPrefix + ThrowBody(result))
    else Returned(result.data.value)
  }

  /** `parseYamlOrThrow`: the data exactly when parsing succeeds. */
  function ParseYamlOrThrow(loaded: Loaded, isUrl: string -> bool): (r: Outcome<DashboardConfig>)
    ensures r.Returned? <==> ParseYaml(loaded, isUrl).success
    ensures r.Returned? ==> Some(r.value) == ParseYaml(loaded, isUrl).data && ConfigOk(r.value, isUrl)
    ensures r.Raised? ==> |ThrowPrefix| < |r.message| && r.message[..|ThrowPrefix|] == ThrowPrefix
    ensures r.Raised? ==> r == OrThrow(ParseYaml(loaded, isUrl))
  {
    OrThrow(ParseYaml(loaded, isUrl))
  }

  /** Error lines are never empty, so their join is empty only when there
      are no errors. */
  lemma ThrowLinesJoinNonEmpty(errors: seq<ParseError>)
    ensures errors != [] ==> Join("\n", ThrowLines(errors)) != []
  {
    if errors != [] {
      JoinLayout("\n", ThrowLines(errors), 0);
    }
  }

  /** The thrown message of a failed result with errors: after the prefix,
      the line of each error in turn, one per line, and nothing else. */
  lemma ThrownMessageLayout(result: ParseResult, k: nat, m: string)
    requires !result.success && result.errors.Some? && k < |result.errors.value|
    requires OrThrow(result) == Raised(m)
    ensures PartAt(m, |ThrowPrefix|, "\n", ThrowLines(result.errors.value), k)
  {
    ThrownMessage(result);
    JoinAfterPrefix(ThrowPrefix, "\n", ThrowLines(result.errors.value), k, m);
  }

  lemma ThrownMessage(result: ParseResult)
    requires !result.success && result.errors.Some? && result.errors.value != []
    ensures OrThrow(result) == Raised(ThrowPrefix + Join("\n", ThrowLines(result.errors.value)))
  {
  }

  /** The errors are listed in their order: the line of an earlier error
      ends, and a line break follows it, before a later error's line
      starts. */
  lemma ThrownLinesInOrder(result: ParseResult, k: nat, j: nat)
    requires !result.success && result.errors.Some? && k < j < |result.errors.value|
    ensures var lines := ThrowLines(result.errors.value);
      JoinOffset("\n", lines, k) + |ThrowLine(result.errors.value[k])| + 1 <= JoinOffset("\n", lines, j)
  {
    JoinOrder("\n", ThrowLines(result.errors.value), k, j);
  }

  /** Every error of a failed result has its line in the thrown message. */
  lemma ThrownMessageListsEveryError(result: ParseResult, k: nat)
    requires !result.success && result.errors.Some? && k < |result.errors.value|
    ensures OrThrow(result).Raised?
    ensures Includes(OrThrow(result).message, ThrowLine(result.errors.value[k]))
  {
    ThrownMessageLayout(result, k, OrThrow(result).message);
  }

  /** A document that is not an object throws "Failed to parse YAML:\n: YAML
      content is empty or invalid": the empty path leaves the line starting
      with ": ". */
  lemma NotAnObjectThrows(v: Option<Json>, isUrl: string -> bool)
    requires !IsObjectLike(v)
    ensures ParseYamlOrThrow(Document(v), isUrl) == Raised(ThrowPrefix + ": " + EmptyDocumentMessage)
  {
    NotAnObjectRejected(v, isUrl);
    RootErrorThrown(EmptyDocumentMessage);
  }

  /** A failure with one root error throws that error's message after ": ". */
  lemma RootErrorThrown(message: string)
    ensures OrThrow(Failure([ParseError([], message, None)])) == Raised(ThrowPrefix + ": " + message)
  {
    var lines := ThrowLines([ParseError([], message, None)]);
    assert lines == [": " + message];
  }

  // ---------------------------------------------------------------------
  // formatErrorMessage
  // ---------------------------------------------------------------------

  const FormatPrefix := "YAML Validation Failed:\n"

  /** One diagnostic line: `'  - ' + (path or 'root') + ': ' + message`,
      then ` (code)` when the code is present and not empty. */
  function FormatLine(e: ParseError): (line: string)
    ensures e.path == [] ==> |line| >= 10 && line[..10] == "  - root: "
    ensures |line| >= 4 && line[..4] == "  - "
    ensures var p := ShownPath(e);
            var at := 4 + |p| + 2 + |e.message|;
            && at <= |line|
            && line[4..4 + |p|] == p && line[4 + |p|..4 + |p| + 2] == ": " && line[4 + |p| + 2..at] == e.message
            && (e.code.Some? && e.code.value != [] ==> line[at..] == " (" + e.code.value + ")")
            && (!(e.code.Some? && e.code.value != []) ==> |line| == at)
  {
    var pathText := ShownPath(e);
    var suffix := if e.code.Some? && e.code.value != [] then " (" + e.code.value + ")" else "";
    "  - " + pathText + ": " + e.message + suffix
  }

  /** The path as the diagnostic shows it: dotted, or "root" when empty. */
  function ShownPath(e: ParseError): string {
    if |e.path| > 0 then Join(".", e.path) else "root"
  }

  /** The single error of the shipped default, as a thrown line and as a
      diagnostic line; `TooFewAppsMessage` gives the message's text. */
  lemma TooFewAppsLines()
    ensures var m := Message(TooSmall(Elements, 1));
            var e := ParseError(["applications"], m, Some("too_small"));
            && ThrowLine(e) == "applications: " + m
            && FormatLine(e) == "  - applications: " + m + " (too_small)"
  {
    var m := Message(TooSmall(Elements, 1));
    var e := ParseError(["applications"], m, Some("too_small"));
    assert Join(".", ["applications"]) == "applications";
    LinesOf(e, "applications", "too_small");
    TooFewAppsPieces();
  }

  lemma TooFewAppsPieces()
    ensures "applications" + ": " == "applications: "
    ensures "  - " + "applications" + ": " == "  - applications: "
    ensures " (" + "too_small" + ")" == " (too_small)"
  {
  }

  /** Both lines of an error with a dotted path `p` and a non-empty code `c`. */
  lemma LinesOf(e: ParseError, p: string, c: string)
    requires e.path != [] && Join(".", e.path) == p && e.code == Some(c) && c != []
    ensures ThrowLine(e) == p + ": " + e.message
    ensures FormatLine(e) == "  - " + p + ": " + e.message + " (" + c + ")"
  {
  }

  /** A document that is not an object is diagnosed at the root, with no
      code after the message. */
  lemma NotAnObjectFormatted()
    ensures FormatLine(ParseError([], EmptyDocumentMessage, None)) == "  - root: " + EmptyDocumentMessage
  {
    var e := ParseError([], EmptyDocumentMessage, None);
    assert ShownPath(e) == "root";
    assert FormatLine(e) == "  - " + "root" + ": " + EmptyDocumentMessage + "";
    assert "  - " + "root" + ": " == "  - root: ";
  }

  function FormatLines(errors: seq<ParseError>): (r: seq<string>)
    ensures |r| == |errors| && forall k :: 0 <= k < |errors| ==> r[k] == FormatLine(errors[k])
  {
    seq(|errors|, k requires 0 <= k < |errors| => FormatLine(errors[k]))
  }

  /** `formatErrorMessage`: "No errors" exactly for a successful result;
      otherwise the heading and one line per error, or a single
      "  - Unknown error" line when the result has no error list. */
  function FormatErrorMessage(result: ParseResult): (r: string)
    ensures r == "No errors" <==> result.success
    ensures !result.success ==> |FormatPrefix| <= |r| && r[..|FormatPrefix|] == FormatPrefix
    ensures !result.success && result.errors.None? ==> r == FormatPrefix + "  - Unknown error"
    ensures !result.success && result.errors.Some? ==> r == FormatPrefix + Join("\n", FormatLines(result.errors.value))
  {
    if result.success then "No errors"
    else
      var lines := if result.errors.Some? then FormatLines(result.errors.value) else ["  - Unknown error"];
      var r := FormatPrefix + Join("\n", lines);
      assert r[..|FormatPrefix|] == FormatPrefix;
      assert r != "No errors" by { assert |r| >= |FormatPrefix|; assert r[0] != 'N'; }
      r
  }

  /** Every error's line can be found in the diagnostic text. */
  lemma FormattedMessageListsEveryError(result: ParseResult, k: nat)
    requires !result.success && result.errors.Some? && k < |result.errors.value|
    ensures Includes(FormatErrorMessage(result), FormatLine(result.errors.value[k]))
  {
    FormattedMessageLayout(result, k, FormatErrorMessage(result));
  }

  /** The diagnostic text of a failed result with errors: after the heading,
      the line of each error in turn, one per line, and nothing else. */
  lemma FormattedMessageLayout(result: ParseResult, k: nat, m: string)
    requires !result.success && result.errors.Some? && k < |result.errors.value|
    requires FormatErrorMessage(result) == m
    ensures PartAt(m, |FormatPrefix|, "\n", FormatLines(result.errors.value), k)
  {
    FormattedMessage(result);
    JoinAfterPrefix(FormatPrefix, "\n", FormatLines(result.errors.value), k, m);
  }

  lemma FormattedMessage(result: ParseResult)
    requires !result.success && result.errors.Some?
    ensures FormatErrorMessage(result) == FormatPrefix + Join("\n", FormatLines(result.errors.value))
  {
  }

  /** The diagnostic lines come in the order of the errors. */
  lemma FormattedLinesInOrder(result: ParseResult, k: nat, j: nat)
    requires !result.success && result.errors.Some? && k < j < |result.errors.value|
    ensures var lines := FormatLines(result.errors.value);
      JoinOffset("\n", lines, k) + |FormatLine(result.errors.value[k])| + 1 <= JoinOffset("\n", lines, j)
  {
    JoinOrder("\n", FormatLines(result.errors.value), k, j);
  }

  /** A schema issue's line names its code in parentheses. */
  lemma CodeShownForSchemaIssues(i: Issue)
    ensures var line := FormatLine(ToParseError(i));
            var tail := " (" + Code(i.problem) + ")";
            |tail| <= |line| && line[|line| - |tail|..] == tail
  {
  }

  // ---------------------------------------------------------------------
  // getDefaultConfig
  // ---------------------------------------------------------------------

  /** `getDefaultConfig`: a copy of the shipped default.  Configurations are
      values here, so the copy equals the default and shares nothing that
      could be changed through it. */
  function GetDefaultConfig(): (c: DashboardConfig)
    ensures c == DefaultDashboardConfig
    ensures c.applications == [] && c.categories == [AppCategory] && c.settings == DefaultSettings
  {
    DefaultDashboardConfig
  }
}
