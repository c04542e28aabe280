/**
 * The dashboard configuration: the deserialised document it is read from,
 * the typed configuration it becomes, and the schema that decides between
 * the two (src/app/core/models/dashboard.models.ts).
 *
 * The schema is a Zod object schema.  Each `Check...` function below is one
 * schema of that file applied to a (possibly missing) document value: it
 * yields the typed value with every default filled in, or the list of issues
 * found, each with a path, a code and a message.  Like Zod, a check does not
 * stop at the first problem: object fields are checked in the schema's key
 * order, array elements in index order, and all string and number checks of
 * one field are run.  Messages and codes follow Zod 3's default error map.
 * Whether a string is a URL is not decided here: it is the parameter `isUrl`.
 */
module DashboardModels {
  import opened Text

  datatype Option<+T> = None | Some(value: T)

  // =====================================================================
  // The deserialised document
  // =====================================================================

  /** What the YAML loader produces: a JSON-like tree.  Numbers are finite. */
  datatype Json =
    | JNull
    | JBool(b: bool)
    | JNumber(n: real)
    | JString(s: string)
    | JArray(items: seq<Json>)
    | JObject(fields: map<string, Json>)

  /** A field of an object; `None` is JavaScript's `undefined` (key absent). */
  function Field(o: map<string, Json>, key: string): Option<Json> {
    if key in o then Some(o[key]) else None
  }

  /** The type name Zod reports as "received". */
  function TypeName(v: Option<Json>): string {
    match v
    case None => "undefined"
    case Some(JNull) => "null"
    case Some(JBool(_)) => "boolean"
    case Some(JNumber(_)) => "number"
    case Some(JString(_)) => "string"
    case Some(JArray(_)) => "array"
    case Some(JObject(_)) => "object"
  }

  // =====================================================================
  // Issues
  // =====================================================================

  datatype Segment = Key(name: string) | Index(index: nat)

  datatype Measured = Characters | Elements | NumberValue

  datatype Problem =
    | InvalidType(expected: string, received: string)
    | TooSmall(what: Measured, minimum: nat)
    | TooBig(what: Measured, maximum: nat)
    | InvalidUrl
    | InvalidEnumValue(options: seq<string>, received: string)

  datatype Issue = Issue(path: seq<Segment>, problem: Problem)

  /** Zod's issue code. */
  function Code(p: Problem): string {
    match p
    case InvalidType(_, _) => "invalid_type"
    case TooSmall(_, _) => "too_small"
    case TooBig(_, _) => "too_big"
    case InvalidUrl => "invalid_string"
    case InvalidEnumValue(_, _) => "invalid_enum_value"
  }

  /** Zod's default message for an issue. */
  function Message(p: Problem): string {
    match p
    case InvalidType(expected, received) =>
      if received == "undefined" then "Required"
      else "Expected " + expected + ", received " + received
    case TooSmall(Characters, n) => "String must contain at least " + NatToString(n) + " character(s)"
    case TooSmall(Elements, n) => "Array must contain at least " + NatToString(n) + " element(s)"
    case TooSmall(NumberValue, n) => "Number must be greater than or equal to " + NatToString(n)
    case TooBig(Characters, n) => "String must contain at most " + NatToString(n) + " character(s)"
    case TooBig(Elements, n) => "Array must contain at most " + NatToString(n) + " element(s)"
    case TooBig(NumberValue, n) => "Number must be less than or equal to " + NatToString(n)
    case InvalidUrl => "Invalid url"
    case InvalidEnumValue(options, received) =>
      "Invalid enum value. Expected " + JoinOptions(options) + ", received '" + received + "'"
  }

  /** Enum options as Zod lists them: `'a' | 'b' | 'c'`. */
  function JoinOptions(options: seq<string>): string {
    if options == [] then ""
    else if |options| == 1 then "'" + options[0] + "'"
    else "'" + options[0] + "' | " + JoinOptions(options[1..])
  }

  /** The outcome of checking one value against one schema. */
  datatype Checked<+T> = Valid(value: T) | Invalid(issues: seq<Issue>) {
    function Issues(): seq<Issue> {
      if Valid? then [] else issues
    }

    /** Every issue moved one level down, under `seg`. */
    function Within(seg: Segment): (r: Checked<T>)
      ensures r.Valid? == Valid? && (Valid? ==> r.value == value)
      ensures |r.Issues()| == |Issues()|
    {
      match this
      case Valid(v) => Valid(v)
      case Invalid(issues) =>
        Invalid(seq(|issues|, k requires 0 <= k < |issues| =>
          Issue([seg] + issues[k].path, issues[k].problem)))
    }
  }

  /** The check reports at least one issue whenever it rejects. */
  predicate Reasoned<T>(r: Checked<T>) {
    r.Invalid? ==> r.issues != []
  }

  function TypeIssue<T>(expected: string, v: Option<Json>): (r: Checked<T>)
    ensures r.Invalid? && r.issues == [Issue([], InvalidType(expected, TypeName(v)))]
  {
    Invalid([Issue([], InvalidType(expected, TypeName(v)))])
  }

  // =====================================================================
  // The typed configuration
  // =====================================================================

  datatype IconType = UrlIcon | NameIcon | InitialsIcon
  datatype IconConfig = IconConfig(kind: IconType, value: string)

  datatype SelfhostedApp = SelfhostedApp(
    id: string, name: string, description: string, url: string,
    icon: IconConfig, category: string, openNewTab: bool, tags: seq<string>)

  datatype Bookmark = Bookmark(
    id: string, name: string, description: string, url: string,
    icon: IconConfig, openNewTab: bool, tags: seq<string>)

  datatype Category = Category(id: string, name: string)

  datatype SearchEngine = SearchEngine(id: string, name: string, searchUrl: string, icon: Option<string>)

  datatype DashboardMetadata = DashboardMetadata(title: string, description: string)

  datatype ThemeMode = Light | Dark | Auto

  datatype DashboardSettings = DashboardSettings(
    theme: ThemeMode, dateFormat: string, itemsPerRow: int, allowBookmarks: bool,
    showAllCategory: bool, showDescriptions: bool, showLabels: bool)

  datatype DashboardConfig = DashboardConfig(
    metadata: DashboardMetadata, categories: seq<Category>, applications: seq<SelfhostedApp>,
    bookmarks: seq<Bookmark>, searchEngines: seq<SearchEngine>, settings: DashboardSettings)

  function IconTypeName(t: IconType): string {
    match t
    case UrlIcon => "url"
    case NameIcon => "name"
    case InitialsIcon => "initials"
  }

  function ThemeModeName(m: ThemeMode): string {
    match m
    case Light => "light"
    case Dark => "dark"
    case Auto => "auto"
  }

  const IconTypeNames: seq<string> := ["url", "name", "initials"]
  const ThemeModeNames: seq<string> := ["light", "dark", "auto"]

  // ---------------------------------------------------------------------
  // What the schema demands of an accepted value
  // ---------------------------------------------------------------------

  predicate AppOk(a: SelfhostedApp, isUrl: string -> bool) {
    |a.id| >= 1 && 1 <= |a.name| <= 100 && |a.description| <= 255 && isUrl(a.url)
  }

  predicate BookmarkOk(b: Bookmark, isUrl: string -> bool) {
    |b.id| >= 1 && 1 <= |b.name| <= 100 && |b.description| <= 255 && isUrl(b.url)
  }

  predicate CategoryOk(c: Category) {
    |c.id| >= 1 && 1 <= |c.name| <= 50
  }

  predicate EngineOk(e: SearchEngine, isUrl: string -> bool) {
    |e.id| >= 1 && 1 <= |e.name| <= 50 && isUrl(e.searchUrl)
  }

  predicate MetadataOk(m: DashboardMetadata) {
    1 <= |m.title| <= 100 && |m.description| <= 255
  }

  predicate SettingsOk(s: DashboardSettings) {
    1 <= s.itemsPerRow <= 10
  }

  predicate ConfigOk(c: DashboardConfig, isUrl: string -> bool) {
    && MetadataOk(c.metadata)
    && |c.categories| >= 1 && (forall k :: 0 <= k < |c.categories| ==> CategoryOk(c.categories[k]))
    && |c.applications| >= 1 && (forall k :: 0 <= k < |c.applications| ==> AppOk(c.applications[k], isUrl))
    && (forall k :: 0 <= k < |c.bookmarks| ==> BookmarkOk(c.bookmarks[k], isUrl))
    && |c.searchEngines| >= 1 && (forall k :: 0 <= k < |c.searchEngines| ==> EngineOk(c.searchEngines[k], isUrl))
    && SettingsOk(c.settings)
  }

  // =====================================================================
  // Leaf schemas
  // =====================================================================

  /** `z.string()` with an optional `.min(lo)`, `.max(hi)` and `.url()`;
      `lo == 0` means no minimum. */
  datatype StringRule = StringRule(lo: nat, hi: Option<nat>, url: bool)

  const AnyString := StringRule(0, None, false)

  predicate Fits(s: string, rule: StringRule, isUrl: string -> bool) {
    rule.lo <= |s| && (rule.hi.Some? ==> |s| <= rule.hi.value) && (rule.url ==> isUrl(s))
  }

  function CheckString(v: Option<Json>, rule: StringRule, isUrl: string -> bool): (r: Checked<string>)
    ensures Reasoned(r)
    ensures r.Valid? <==> v.Some? && v.value.JString? && Fits(v.value.s, rule, isUrl)
    ensures r.Valid? ==> r.value == v.value.s
    ensures !(v.Some? && v.value.JString?) ==> r == TypeIssue("string", v)
  {
    match v
    case Some(JString(s)) =>
      var issues :=
        (if |s| < rule.lo then [Issue([], TooSmall(Characters, rule.lo))] else [])
        + (if rule.hi.Some? && |s| > rule.hi.value then [Issue([], TooBig(Characters, rule.hi.value))] else [])
        + (if rule.url && !isUrl(s) then [Issue([], InvalidUrl)] else []);
      if issues == [] then Valid(s) else Invalid(issues)
    case _ => TypeIssue("string", v)
  }

  /** `z.string().optional()`. */
  function CheckOptionalString(v: Option<Json>): (r: Checked<Option<string>>)
    ensures Reasoned(r)
    ensures v.None? ==> r == Valid(None)
    ensures r.Valid? && v.Some? ==> v.value.JString? && r.value == Some(v.value.s)
    ensures v.Some? && v.value.JString? ==> r == Valid(Some(v.value.s))
  {
    match v
    case None => Valid(None)
    case Some(JString(s)) => Valid(Some(s))
    case _ => TypeIssue("string", v)
  }

  /** `z.boolean()`, with `.default(d)` when `dflt` is present. */
  function CheckBool(v: Option<Json>, dflt: Option<bool>): (r: Checked<bool>)
    ensures Reasoned(r)
    ensures v.None? && dflt.Some? ==> r == Valid(dflt.value)
    ensures v.Some? ==> (r.Valid? <==> v.value.JBool?) && (r.Valid? ==> r.value == v.value.b)
    ensures v.None? && dflt.None? ==> r == TypeIssue("boolean", v)
  {
    match v
    case None => if dflt.Some? then Valid(dflt.value) else TypeIssue("boolean", v)
    case Some(JBool(b)) => Valid(b)
    case _ => TypeIssue("boolean", v)
  }

  /** Index of `s` among `options`, if it is one of them. */
  function Position(options: seq<string>, s: string): (r: Option<nat>)
    ensures r.Some? <==> s in options
    ensures r.Some? ==> r.value < |options| && options[r.value] == s
  {
    if options == [] then None
    else if options[0] == s then Some(0)
    else
      match Position(options[1..], s)
      case None => None
      case Some(k) => Some(k + 1)
  }

  /** `z.enum(options)`, with `.default(options[d])` when `dflt` is present:
      the index of the accepted option. */
  function CheckEnum(v: Option<Json>, options: seq<string>, dflt: Option<nat>): (r: Checked<nat>)
    requires dflt.Some? ==> dflt.value < |options|
    ensures Reasoned(r)
    ensures r.Valid? ==> r.value < |options|
    ensures v.None? && dflt.Some? ==> r == Valid(dflt.value)
    ensures v.Some? ==> (r.Valid? <==> v.value.JString? && v.value.s in options)
    ensures v.Some? && r.Valid? ==> options[r.value] == v.value.s
    ensures v.Some? && v.value.JString? && v.value.s !in options ==>
              r == Invalid([Issue([], InvalidEnumValue(options, v.value.s))])
  {
    match v
    case None => if dflt.Some? then Valid(dflt.value) else TypeIssue(JoinOptions(options), v)
    case Some(JString(s)) =>
      (match Position(options, s)
       case Some(k) => Valid(k)
       case None => Invalid([Issue([], InvalidEnumValue(options, s))]))
    case _ => TypeIssue(JoinOptions(options), v)
  }

  predicate IsInteger(n: real) {
    n.Floor as real == n
  }

  /** `z.number().int().min(lo).max(hi)`, with `.default(d)` when present. */
  function CheckIntRange(v: Option<Json>, lo: nat, hi: nat, dflt: Option<int>): (r: Checked<int>)
    ensures Reasoned(r)
    ensures v.None? && dflt.Some? ==> r == Valid(dflt.value)
    ensures v.Some? ==> (r.Valid? <==> (v.value.JNumber? && IsInteger(v.value.n)
                                       && lo as real <= v.value.n <= hi as real))
    ensures v.Some? && r.Valid? ==> r.value as real == v.value.n && lo <= r.value <= hi
    ensures v.Some? && v.value.JNumber? && !(IsInteger(v.value.n) && lo as real <= v.value.n <= hi as real) ==>
              r.Invalid? && forall i :: i in r.issues ==> i.path == []
  {
    match v
    case None => if dflt.Some? then Valid(dflt.value) else TypeIssue("number", v)
    case Some(JNumber(n)) =>
      var issues :=
        (if !IsInteger(n) then [Issue([], InvalidType("integer", "float"))] else [])
        + (if n < lo as real then [Issue([], TooSmall(NumberValue, lo))] else [])
        + (if n > hi as real then [Issue([], TooBig(NumberValue, hi))] else []);
      if issues == [] then Valid(n.Floor) else Invalid(issues)
    case _ => TypeIssue("number", v)
  }

  // =====================================================================
  // Arrays
  // =====================================================================

  /** The elements `items`, numbered from `from`, each checked by `f`; the
      issues of element `k` are placed under its index. */
  function CheckEach<T>(items: seq<Json>, from: nat, f: Json -> Checked<T>): (r: Checked<seq<T>>)
    requires forall x :: Reasoned(f(x))
    ensures Reasoned(r)
    ensures r.Valid? <==> forall k :: 0 <= k < |items| ==> f(items[k]).Valid?
    ensures r.Valid? ==> |r.value| == |items|
                         && forall k :: 0 <= k < |items| ==> r.value[k] == f(items[k]).value
  {
    if items == [] then Valid([])
    else
      var head := f(items[0]).Within(Index(from));
      var tail := CheckEach(items[1..], from + 1, f);
      if head.Valid? && tail.Valid? then
        Valid([head.value] + tail.value)
      else
        assert !f(items[0]).Valid? || exists k :: 1 <= k < |items| && !f(items[k]).Valid? by {
          if !tail.Valid? {
            var k :| 0 <= k < |items| - 1 && !f(items[1..][k]).Valid?;
            assert !f(items[k + 1]).Valid?;
          }
        }
        Invalid(head.Issues() + tail.Issues())
  }

  /** `z.array(element)` with `.min(lo)` (`lo == 0`: none) and, when present,
      `.default(d)`.  As in Zod, a too-short array is reported before its
      elements are checked. */
  function CheckArray<T>(v: Option<Json>, lo: nat, dflt: Option<seq<T>>, f: Json -> Checked<T>): (r: Checked<seq<T>>)
    requires forall x :: Reasoned(f(x))
    ensures Reasoned(r)
    ensures v.None? && dflt.Some? ==> r == Valid(dflt.value)
    ensures v.Some? ==> (r.Valid? <==> v.value.JArray? && |v.value.items| >= lo
                                        && forall k :: 0 <= k < |v.value.items| ==> f(v.value.items[k]).Valid?)
    ensures v.Some? && r.Valid? ==> (|r.value| == |v.value.items|
              && forall k :: 0 <= k < |r.value| ==> r.value[k] == f(v.value.items[k]).value)
    ensures v.Some? && v.value.JArray? && |v.value.items| < lo ==>
              r.Invalid? && r.issues[0] == Issue([], TooSmall(Elements, lo))
    ensures !(v.Some? && v.value.JArray?) && !(v.None? && dflt.Some?) ==> r == TypeIssue("array", v)
  {
    match v
    case None => if dflt.Some? then Valid(dflt.value) else TypeIssue("array", v)
    case Some(JArray(items)) =>
      var short := if |items| < lo then [Issue([], TooSmall(Elements, lo))] else [];
      var each := CheckEach(items, 0, f);
      if short == [] && each.Valid? then each else Invalid(short + each.Issues())
    case _ => TypeIssue("array", v)
  }

  function CheckStringElement(x: Json): (r: Checked<string>)
    ensures Reasoned(r)
    ensures r.Valid? <==> x.JString?
    ensures r.Valid? ==> r.value == x.s
  {
    CheckString(Some(x), AnyString, _ => true)
  }

  /** `z.array(z.string()).default([])`. */
  function CheckTags(v: Option<Json>): (r: Checked<seq<string>>)
    ensures Reasoned(r)
    ensures v.None? ==> r == Valid([])
    ensures v.Some? ==> (r.Valid? <==> v.value.JArray? && forall k :: 0 <= k < |v.value.items| ==> v.value.items[k].JString?)
    ensures v.Some? && r.Valid? ==> (|r.value| == |v.value.items|
              && forall k :: 0 <= k < |r.value| ==> JString(r.value[k]) == v.value.items[k])
  {
    CheckArray(v, 0, Some([]), CheckStringElement)
  }

  // =====================================================================
  // Object schemas
  // =====================================================================

  /** `IconConfigSchema` (dashboard.models.ts:6-9). */
  function CheckIcon(v: Option<Json>): (r: Checked<IconConfig>)
    ensures Reasoned(r)
    ensures r.Valid? ==> v.Some? && v.value.JObject?
                         && Field(v.value.fields, "type") == Some(JString(IconTypeName(r.value.kind)))
                         && Field(v.value.fields, "value") == Some(JString(r.value.value))
  {
    match v
    case Some(JObject(o)) =>
      var kind := CheckEnum(Field(o, "type"), IconTypeNames, None).Within(Key("type"));
      var value := CheckString(Field(o, "value"), AnyString, _ => true).Within(Key("value"));
      if kind.Valid? && value.Valid? then
        var t := [UrlIcon, NameIcon, InitialsIcon][kind.value];
        assert IconTypeName(t) == IconTypeNames[kind.value];
        Valid(IconConfig(t, value.value))
      else Invalid(kind.Issues() + value.Issues())
    case _ => TypeIssue("object", v)
  }

  const IdRule := StringRule(1, None, false)
  const AppNameRule := StringRule(1, Some(100), false)
  const DescriptionRule := StringRule(0, Some(255), false)
  const UrlRule := StringRule(0, None, true)
  const ShortNameRule := StringRule(1, Some(50), false)

  /** `SelfhostedAppSchema` (dashboard.models.ts:14-23). */
  function CheckApp(v: Option<Json>, isUrl: string -> bool): (r: Checked<SelfhostedApp>)
    ensures Reasoned(r)
    ensures r.Valid? ==> AppOk(r.value, isUrl)
    ensures r.Valid? ==> v.Some? && v.value.JObject?
                         && ("openNewTab" !in v.value.fields ==> r.value.openNewTab)
                         && ("tags" !in v.value.fields ==> r.value.tags == [])
                         && Field(v.value.fields, "category") == Some(JString(r.value.category))
    ensures r.Valid? ==>
      var o := v.value.fields;
      && Field(o, "id") == Some(JString(r.value.id))
      && Field(o, "name") == Some(JString(r.value.name))
      && Field(o, "description") == Some(JString(r.value.description))
      && Field(o, "url") == Some(JString(r.value.url))
      && CheckIcon(Field(o, "icon")) == Valid(r.value.icon)
      && ("openNewTab" in o ==> o["openNewTab"] == JBool(r.value.openNewTab))
      && CheckTags(Field(o, "tags")) == Valid(r.value.tags)
  {
    match v
    case Some(JObject(o)) =>
      var id := CheckString(Field(o, "id"), IdRule, isUrl).Within(Key("id"));
      var name := CheckString(Field(o, "name"), AppNameRule, isUrl).Within(Key("name"));
      var description := CheckString(Field(o, "description"), DescriptionRule, isUrl).Within(Key("description"));
      var url := CheckString(Field(o, "url"), UrlRule, isUrl).Within(Key("url"));
      var icon := CheckIcon(Field(o, "icon")).Within(Key("icon"));
      var category := CheckString(Field(o, "category"), AnyString, isUrl).Within(Key("category"));
      var openNewTab := CheckBool(Field(o, "openNewTab"), Some(true)).Within(Key("openNewTab"));
      var tags := CheckTags(Field(o, "tags")).Within(Key("tags"));
      if id.Valid? && name.Valid? && description.Valid? && url.Valid? && icon.Valid?
         && category.Valid? && openNewTab.Valid? && tags.Valid? then
        Valid(SelfhostedApp(id.value, name.value, description.value, url.value, icon.value,
                            category.value, openNewTab.value, tags.value))
      else
        Invalid(id.Issues() + name.Issues() + description.Issues() + url.Issues() + icon.Issues()
                + category.Issues() + openNewTab.Issues() + tags.Issues())
    case _ => TypeIssue("object", v)
  }

  /** `BookmarkSchema` (dashboard.models.ts:36-44). */
  function CheckBookmark(v: Option<Json>, isUrl: string -> bool): (r: Checked<Bookmark>)
    ensures Reasoned(r)
    ensures r.Valid? ==> BookmarkOk(r.value, isUrl)
    ensures r.Valid? ==> v.Some? && v.value.JObject?
                         && ("openNewTab" !in v.value.fields ==> r.value.openNewTab)
                         && ("tags" !in v.value.fields ==> r.value.tags == [])
    ensures r.Valid? ==>
      var o := v.value.fields;
      && Field(o, "id") == Some(JString(r.value.id))
      && Field(o, "name") == Some(JString(r.value.name))
      && Field(o, "description") == Some(JString(r.value.description))
      && Field(o, "url") == Some(JString(r.value.url))
      && CheckIcon(Field(o, "icon")) == Valid(r.value.icon)
      && ("openNewTab" in o ==> o["openNewTab"] == JBool(r.value.openNewTab))
      && CheckTags(Field(o, "tags")) == Valid(r.value.tags)
  {
    match v
    case Some(JObject(o)) =>
      var id := CheckString(Field(o, "id"), IdRule, isUrl).Within(Key("id"));
      var name := CheckString(Field(o, "name"), AppNameRule, isUrl).Within(Key("name"));
      var description := CheckString(Field(o, "description"), DescriptionRule, isUrl).Within(Key("description"));
      var url := CheckString(Field(o, "url"), UrlRule, isUrl).Within(Key("url"));
      var icon := CheckIcon(Field(o, "icon")).Within(Key("icon"));
      var openNewTab := CheckBool(Field(o, "openNewTab"), Some(true)).Within(Key("openNewTab"));
      var tags := CheckTags(Field(o, "tags")).Within(Key("tags"));
      if id.Valid? && name.Valid? && description.Valid? && url.Valid? && icon.Valid?
         && openNewTab.Valid? && tags.Valid? then
        Valid(Bookmark(id.value, name.value, description.value, url.value, icon.value,
                       openNewTab.value, tags.value))
      else
        Invalid(id.Issues() + name.Issues() + description.Issues() + url.Issues() + icon.Issues()
                + openNewTab.Issues() + tags.Issues())
    case _ => TypeIssue("object", v)
  }

  /** `CategorySchema` (dashboard.models.ts:28-31). */
  function CheckCategory(v: Option<Json>): (r: Checked<Category>)
    ensures Reasoned(r)
    ensures r.Valid? ==> CategoryOk(r.value)
    ensures r.Valid? ==> v.Some? && v.value.JObject?
                         && Field(v.value.fields, "id") == Some(JString(r.value.id))
                         && Field(v.value.fields, "name") == Some(JString(r.value.name))
  {
    match v
    case Some(JObject(o)) =>
      var id := CheckString(Field(o, "id"), IdRule, _ => true).Within(Key("id"));
      var name := CheckString(Field(o, "name"), ShortNameRule, _ => true).Within(Key("name"));
      if id.Valid? && name.Valid? then Valid(Category(id.value, name.value))
      else Invalid(id.Issues() + name.Issues())
    case _ => TypeIssue("object", v)
  }

  /** `SearchEngineSchema` (dashboard.models.ts:49-54). */
  function CheckEngine(v: Option<Json>, isUrl: string -> bool): (r: Checked<SearchEngine>)
    ensures Reasoned(r)
    ensures r.Valid? ==> EngineOk(r.value, isUrl)
    ensures r.Valid? ==> v.Some? && v.value.JObject?
                         && Field(v.value.fields, "id") == Some(JString(r.value.id))
                         && Field(v.value.fields, "name") == Some(JString(r.value.name))
                         && Field(v.value.fields, "searchUrl") == Some(JString(r.value.searchUrl))
                         && Field(v.value.fields, "icon") == (if r.value.icon.Some? then Some(JString(r.value.icon.value)) else None)
  {
    match v
    case Some(JObject(o)) =>
      var id := CheckString(Field(o, "id"), IdRule, isUrl).Within(Key("id"));
      var name := CheckString(Field(o, "name"), ShortNameRule, isUrl).Within(Key("name"));
      var searchUrl := CheckString(Field(o, "searchUrl"), UrlRule, isUrl).Within(Key("searchUrl"));
      var icon := CheckOptionalString(Field(o, "icon")).Within(Key("icon"));
      if id.Valid? && name.Valid? && searchUrl.Valid? && icon.Valid? then
        Valid(SearchEngine(id.value, name.value, searchUrl.value, icon.value))
      else Invalid(id.Issues() + name.Issues() + searchUrl.Issues() + icon.Issues())
    case _ => TypeIssue("object", v)
  }

  /** `DashboardMetadataSchema` (dashboard.models.ts:59-62). */
  function CheckMetadata(v: Option<Json>): (r: Checked<DashboardMetadata>)
    ensures Reasoned(r)
    ensures r.Valid? ==> MetadataOk(r.value)
    ensures r.Valid? ==> v.Some? && v.value.JObject?
                         && Field(v.value.fields, "title") == Some(JString(r.value.title))
                         && Field(v.value.fields, "description") == Some(JString(r.value.description))
  {
    match v
    case Some(JObject(o)) =>
      var title := CheckString(Field(o, "title"), AppNameRule, _ => true).Within(Key("title"));
      var description := CheckString(Field(o, "description"), DescriptionRule, _ => true).Within(Key("description"));
      if title.Valid? && description.Valid? then Valid(DashboardMetadata(title.value, description.value))
      else Invalid(title.Issues() + description.Issues())
    case _ => TypeIssue("object", v)
  }

  const DefaultSettings := DashboardSettings(Auto, "dd-MM-yyyy", 4, false, true, true, true)

  /** `DashboardSettingsSchema` (dashboard.models.ts:67-75): every field has a
      default, but the object itself does not. */
  function CheckSettings(v: Option<Json>): (r: Checked<DashboardSettings>)
    ensures Reasoned(r)
    ensures r.Valid? ==> SettingsOk(r.value)
    ensures v.None? ==> r == TypeIssue("object", v)
    ensures r.Valid? ==> v.Some? && v.value.JObject?
    ensures r.Valid? ==>
      var o := v.value.fields;
      && ("theme" !in o ==> r.value.theme == DefaultSettings.theme)
      && ("dateFormat" !in o ==> r.value.dateFormat == DefaultSettings.dateFormat)
      && ("itemsPerRow" !in o ==> r.value.itemsPerRow == DefaultSettings.itemsPerRow)
      && ("allowBookmarks" !in o ==> r.value.allowBookmarks == DefaultSettings.allowBookmarks)
      && ("showAllCategory" !in o ==> r.value.showAllCategory == DefaultSettings.showAllCategory)
      && ("showDescriptions" !in o ==> r.value.showDescriptions == DefaultSettings.showDescriptions)
      && ("showLabels" !in o ==> r.value.showLabels == DefaultSettings.showLabels)
    ensures r.Valid? ==>
      var o := v.value.fields;
      && ("theme" in o ==> o["theme"] == JString(ThemeModeName(r.value.theme)))
      && ("itemsPerRow" in o ==> o["itemsPerRow"] == JNumber(r.value.itemsPerRow as real))
      && ("dateFormat" in o ==> o["dateFormat"] == JString(r.value.dateFormat))
      && ("allowBookmarks" in o ==> o["allowBookmarks"] == JBool(r.value.allowBookmarks))
      && ("showAllCategory" in o ==> o["showAllCategory"] == JBool(r.value.showAllCategory))
      && ("showDescriptions" in o ==> o["showDescriptions"] == JBool(r.value.showDescriptions))
      && ("showLabels" in o ==> o["showLabels"] == JBool(r.value.showLabels))
  {
    match v
    case Some(JObject(o)) =>
      SettingsOf(CheckEnum(Field(o, "theme"), ThemeModeNames, Some(2)),
                 if "dateFormat" in o then CheckString(Field(o, "dateFormat"), AnyString, _ => true)
                 else Valid(DefaultSettings.dateFormat),
                 CheckIntRange(Field(o, "itemsPerRow"), 1, 10, Some(4)),
                 CheckBool(Field(o, "allowBookmarks"), Some(false)),
                 CheckBool(Field(o, "showAllCategory"), Some(true)),
                 CheckBool(Field(o, "showDescriptions"), Some(true)),
                 CheckBool(Field(o, "showLabels"), Some(true)))
    case _ => TypeIssue("object", v)
  }

  /** The settings object from the outcomes of its seven fields, in the
      schema's key order; `theme` is the index of the accepted mode name. */
  function SettingsOf(theme: Checked<nat>, dateFormat: Checked<string>, itemsPerRow: Checked<int>,
                      allowBookmarks: Checked<bool>, showAllCategory: Checked<bool>,
                      showDescriptions: Checked<bool>, showLabels: Checked<bool>): (r: Checked<DashboardSettings>)
    requires theme.Valid? ==> theme.value < |ThemeModeNames|
    ensures r.Valid? <==> theme.Valid? && dateFormat.Valid? && itemsPerRow.Valid? && allowBookmarks.Valid?
                          && showAllCategory.Valid? && showDescriptions.Valid? && showLabels.Valid?
    ensures r.Valid? ==> ThemeModeName(r.value.theme) == ThemeModeNames[theme.value]
    ensures r.Valid? ==> r.value == DashboardSettings([Light, Dark, Auto][theme.value], dateFormat.value,
                                                      itemsPerRow.value, allowBookmarks.value, showAllCategory.value,
                                                      showDescriptions.value, showLabels.value)
    ensures (Reasoned(theme) && Reasoned(dateFormat) && Reasoned(itemsPerRow) && Reasoned(allowBookmarks)
             && Reasoned(showAllCategory) && Reasoned(showDescriptions) && Reasoned(showLabels)) ==> Reasoned(r)
  {
    var t := theme.Within(Key("theme"));
    var d := dateFormat.Within(Key("dateFormat"));
    var n := itemsPerRow.Within(Key("itemsPerRow"));
    var a := allowBookmarks.Within(Key("allowBookmarks"));
    var c := showAllCategory.Within(Key("showAllCategory"));
    var e := showDescriptions.Within(Key("showDescriptions"));
    var l := showLabels.Within(Key("showLabels"));
    if t.Valid? && d.Valid? && n.Valid? && a.Valid? && c.Valid? && e.Valid? && l.Valid? then
      var mode := [Light, Dark, Auto][t.value];
      assert ThemeModeName(mode) == ThemeModeNames[t.value];
      Valid(DashboardSettings(mode, d.value, n.value, a.value, c.value, e.value, l.value))
    else
      Invalid(t.Issues() + d.Issues() + n.Issues() + a.Issues() + c.Issues() + e.Issues() + l.Issues())
  }

  // Element schemas of the configuration's arrays, named once so that every
  // use denotes the same function.

  function CategoryElement(x: Json): (r: Checked<Category>)
    ensures r == CheckCategory(Some(x)) && Reasoned(r)
  {
    CheckCategory(Some(x))
  }

  function AppElement(isUrl: string -> bool): (f: Json -> Checked<SelfhostedApp>)
    ensures forall x :: f(x) == CheckApp(Some(x), isUrl) && Reasoned(f(x))
  {
    x => CheckApp(Some(x), isUrl)
  }

  function BookmarkElement(isUrl: string -> bool): (f: Json -> Checked<Bookmark>)
    ensures forall x :: f(x) == CheckBookmark(Some(x), isUrl) && Reasoned(f(x))
  {
    x => CheckBookmark(Some(x), isUrl)
  }

  function EngineElement(isUrl: string -> bool): (f: Json -> Checked<SearchEngine>)
    ensures forall x :: f(x) == CheckEngine(Some(x), isUrl) && Reasoned(f(x))
  {
    x => CheckEngine(Some(x), isUrl)
  }

  /** `z.array(CategorySchema).min(1)`. */
  function CheckCategories(v: Option<Json>): (r: Checked<seq<Category>>)
    ensures Reasoned(r)
    ensures r.Valid? ==> |r.value| >= 1 && forall k :: 0 <= k < |r.value| ==> CategoryOk(r.value[k])
  {
    CheckArray(v, 1, None, CategoryElement)
  }

  /** `z.array(SelfhostedAppSchema).min(1)`. */
  function CheckApps(v: Option<Json>, isUrl: string -> bool): (r: Checked<seq<SelfhostedApp>>)
    ensures Reasoned(r)
    ensures r.Valid? ==> |r.value| >= 1 && forall k :: 0 <= k < |r.value| ==> AppOk(r.value[k], isUrl)
    ensures v.Some? && v.value.JArray? && v.value.items == [] ==> r == Invalid([Issue([], TooSmall(Elements, 1))])
  {
    CheckArray(v, 1, None, AppElement(isUrl))
  }

  /** `z.array(BookmarkSchema)`: may be empty, but may not be missing. */
  function CheckBookmarks(v: Option<Json>, isUrl: string -> bool): (r: Checked<seq<Bookmark>>)
    ensures Reasoned(r)
    ensures r.Valid? ==> forall k :: 0 <= k < |r.value| ==> BookmarkOk(r.value[k], isUrl)
    ensures v.None? ==> r == TypeIssue("array", v)
  {
    CheckArray(v, 0, None, BookmarkElement(isUrl))
  }

  /** `z.array(SearchEngineSchema).min(1)`. */
  function CheckEngines(v: Option<Json>, isUrl: string -> bool): (r: Checked<seq<SearchEngine>>)
    ensures Reasoned(r)
    ensures r.Valid? ==> |r.value| >= 1 && forall k :: 0 <= k < |r.value| ==> EngineOk(r.value[k], isUrl)
  {
    CheckArray(v, 1, None, EngineElement(isUrl))
  }

  /** `DashboardConfigSchema` (dashboard.models.ts:80-87). */
  function CheckConfig(v: Option<Json>, isUrl: string -> bool): (r: Checked<DashboardConfig>)
    ensures Reasoned(r)
    ensures r.Valid? ==> ConfigOk(r.value, isUrl)
    ensures !(v.Some? && v.value.JObject?) ==> r == TypeIssue("object", v)
    ensures r.Valid? ==>
      var o := v.value.fields;
      && CheckMetadata(Field(o, "metadata")) == Valid(r.value.metadata)
      && CheckCategories(Field(o, "categories")) == Valid(r.value.categories)
      && CheckApps(Field(o, "applications"), isUrl) == Valid(r.value.applications)
      && CheckBookmarks(Field(o, "bookmarks"), isUrl) == Valid(r.value.bookmarks)
      && CheckEngines(Field(o, "searchEngines"), isUrl) == Valid(r.value.searchEngines)
      && CheckSettings(Field(o, "settings")) == Valid(r.value.settings)
  {
    match v
    case Some(JObject(o)) =>
      ConfigOf(CheckMetadata(Field(o, "metadata")), CheckCategories(Field(o, "categories")),
               CheckApps(Field(o, "applications"), isUrl), CheckBookmarks(Field(o, "bookmarks"), isUrl),
               CheckEngines(Field(o, "searchEngines"), isUrl), CheckSettings(Field(o, "settings")))
    case _ => TypeIssue("object", v)
  }

  /** The configuration object from the outcomes of its six fields, in the
      schema's key order: accepted when every field is, otherwise every
      field's issues, each under its key. */
  function ConfigOf(metadata: Checked<DashboardMetadata>, categories: Checked<seq<Category>>,
                    applications: Checked<seq<SelfhostedApp>>, bookmarks: Checked<seq<Bookmark>>,
                    searchEngines: Checked<seq<SearchEngine>>, settings: Checked<DashboardSettings>): (r: Checked<DashboardConfig>)
    ensures r.Valid? <==> metadata.Valid? && categories.Valid? && applications.Valid? && bookmarks.Valid?
                          && searchEngines.Valid? && settings.Valid?
    ensures r.Valid? ==> r.value == DashboardConfig(metadata.value, categories.value, applications.value,
                                                    bookmarks.value, searchEngines.value, settings.value)
    ensures (Reasoned(metadata) && Reasoned(categories) && Reasoned(applications) && Reasoned(bookmarks)
             && Reasoned(searchEngines) && Reasoned(settings)) ==> Reasoned(r)
  {
    var m := metadata.Within(Key("metadata"));
    var c := categories.Within(Key("categories"));
    var a := applications.Within(Key("applications"));
    var b := bookmarks.Within(Key("bookmarks"));
    var e := searchEngines.Within(Key("searchEngines"));
    var s := settings.Within(Key("settings"));
    if m.Valid? && c.Valid? && a.Valid? && b.Valid? && e.Valid? && s.Valid? then
      Valid(DashboardConfig(m.value, c.value, a.value, b.value, e.value, s.value))
    else
      Invalid(m.Issues() + c.Issues() + a.Issues() + b.Issues() + e.Issues() + s.Issues())
  }

  /** Every issue of a field, placed under its key, is in the report. */
  lemma ConfigOfReportsEveryIssue(metadata: Checked<DashboardMetadata>, categories: Checked<seq<Category>>,
                                  applications: Checked<seq<SelfhostedApp>>, bookmarks: Checked<seq<Bookmark>>,
                                  searchEngines: Checked<seq<SearchEngine>>, settings: Checked<DashboardSettings>)
    ensures var r := ConfigOf(metadata, categories, applications, bookmarks, searchEngines, settings);
      && (forall i :: i in metadata.Within(Key("metadata")).Issues() ==> i in r.Issues())
      && (forall i :: i in categories.Within(Key("categories")).Issues() ==> i in r.Issues())
      && (forall i :: i in applications.Within(Key("applications")).Issues() ==> i in r.Issues())
      && (forall i :: i in bookmarks.Within(Key("bookmarks")).Issues() ==> i in r.Issues())
      && (forall i :: i in searchEngines.Within(Key("searchEngines")).Issues() ==> i in r.Issues())
      && (forall i :: i in settings.Within(Key("settings")).Issues() ==> i in r.Issues())
  {
  }

  // =====================================================================
  // Constants and the default configuration
  // =====================================================================

  /** The synthetic "all applications" category (dashboard.models.ts:104-107). */
  const AppCategory := Category("apps", "Apps")

  /** The synthetic bookmarks category (dashboard.models.ts:109-112). */
  const BookmarksCategory := Category("bookmarks", "Bookmarks")

  const GoogleSearchUrl := "https://www.google.com/search?q={query}"

  /** `DEFAULT_DASHBOARD_CONFIG` (dashboard.models.ts:114-139). */
  const DefaultDashboardConfig := DashboardConfig(
    DashboardMetadata("Mando", "My Selfhosted Applications"),
    [AppCategory],
    [],
    [],
    [SearchEngine("google", "Google", GoogleSearchUrl, Some("google"))],
    DashboardSettings(Auto, "dd-MM-yyyy", 4, false, true, true, true))

  // =====================================================================
  // Writing a configuration back as a document
  // =====================================================================

  function Strings(ss: seq<string>): (r: seq<Json>)
    ensures |r| == |ss| && forall k :: 0 <= k < |ss| ==> r[k] == JString(ss[k])
  {
    seq(|ss|, k requires 0 <= k < |ss| => JString(ss[k]))
  }

  function Encode<T>(xs: seq<T>, enc: T -> Json): (r: seq<Json>)
    ensures |r| == |xs| && forall k :: 0 <= k < |xs| ==> r[k] == enc(xs[k])
  {
    seq(|xs|, k requires 0 <= k < |xs| => enc(xs[k]))
  }

  function IconToJson(i: IconConfig): Json {
    JObject(map["type" := JString(IconTypeName(i.kind)), "value" := JString(i.value)])
  }

  function AppToJson(a: SelfhostedApp): Json {
    JObject(map[
      "id" := JString(a.id), "name" := JString(a.name), "description" := JString(a.description),
      "url" := JString(a.url), "icon" := IconToJson(a.icon), "category" := JString(a.category),
      "openNewTab" := JBool(a.openNewTab), "tags" := JArray(Strings(a.tags))])
  }

  function BookmarkToJson(b: Bookmark): Json {
    JObject(map[
      "id" := JString(b.id), "name" := JString(b.name), "description" := JString(b.description),
      "url" := JString(b.url), "icon" := IconToJson(b.icon),
      "openNewTab" := JBool(b.openNewTab), "tags" := JArray(Strings(b.tags))])
  }

  function CategoryToJson(c: Category): Json {
    JObject(map["id" := JString(c.id), "name" := JString(c.name)])
  }

  function EngineToJson(e: SearchEngine): Json {
    var fields := map["id" := JString(e.id), "name" := JString(e.name), "searchUrl" := JString(e.searchUrl)];
    JObject(if e.icon.Some? then fields["icon" := JString(e.icon.value)] else fields)
  }

  function MetadataToJson(m: DashboardMetadata): Json {
    JObject(map["title" := JString(m.title), "description" := JString(m.description)])
  }

  function SettingsToJson(s: DashboardSettings): Json {
    JObject(map[
      "theme" := JString(ThemeModeName(s.theme)), "dateFormat" := JString(s.dateFormat),
      "itemsPerRow" := JNumber(s.itemsPerRow as real), "allowBookmarks" := JBool(s.allowBookmarks),
      "showAllCategory" := JBool(s.showAllCategory), "showDescriptions" := JBool(s.showDescriptions),
      "showLabels" := JBool(s.showLabels)])
  }

  function ConfigToJson(c: DashboardConfig): Json {
    JObject(map[
      "metadata" := MetadataToJson(c.metadata),
      "categories" := JArray(Encode(c.categories, CategoryToJson)),
      "applications" := JArray(Encode(c.applications, AppToJson)),
      "bookmarks" := JArray(Encode(c.bookmarks, BookmarkToJson)),
      "searchEngines" := JArray(Encode(c.searchEngines, EngineToJson)),
      "settings" := SettingsToJson(c.settings)])
  }

  // =====================================================================
  // The schema accepts exactly what it describes
  // =====================================================================

  lemma IconRoundTrip(i: IconConfig)
    ensures CheckIcon(Some(IconToJson(i))) == Valid(i)
  {
    var o := IconToJson(i).fields;
    assert Field(o, "type") == Some(JString(IconTypeName(i.kind)));
    assert Field(o, "value") == Some(JString(i.value));
  }

  lemma TagsRoundTrip(tags: seq<string>)
    ensures CheckTags(Some(JArray(Strings(tags)))) == Valid(tags)
  {
    var r := CheckTags(Some(JArray(Strings(tags))));
    assert r.value == tags;
  }

  /** The fields of a written-back application, looked up. */
  lemma AppJsonFields(a: SelfhostedApp)
    ensures var o := AppToJson(a).fields;
      && Field(o, "id") == Some(JString(a.id)) && Field(o, "name") == Some(JString(a.name))
      && Field(o, "description") == Some(JString(a.description)) && Field(o, "url") == Some(JString(a.url))
      && Field(o, "icon") == Some(IconToJson(a.icon)) && Field(o, "category") == Some(JString(a.category))
      && Field(o, "openNewTab") == Some(JBool(a.openNewTab)) && Field(o, "tags") == Some(JArray(Strings(a.tags)))
  {
  }

  /** Each field of a written-back application passes its own schema. */
  lemma AppFieldsAccepted(o: map<string, Json>, a: SelfhostedApp, isUrl: string -> bool)
    requires AppOk(a, isUrl)
    requires && Field(o, "id") == Some(JString(a.id)) && Field(o, "name") == Some(JString(a.name))
      && Field(o, "description") == Some(JString(a.description)) && Field(o, "url") == Some(JString(a.url))
      && Field(o, "icon") == Some(IconToJson(a.icon)) && Field(o, "category") == Some(JString(a.category))
      && Field(o, "openNewTab") == Some(JBool(a.openNewTab)) && Field(o, "tags") == Some(JArray(Strings(a.tags)))
    ensures && CheckString(Field(o, "id"), IdRule, isUrl) == Valid(a.id)
      && CheckString(Field(o, "name"), AppNameRule, isUrl) == Valid(a.name)
      && CheckString(Field(o, "description"), DescriptionRule, isUrl) == Valid(a.description)
      && CheckString(Field(o, "url"), UrlRule, isUrl) == Valid(a.url)
      && CheckIcon(Field(o, "icon")) == Valid(a.icon)
      && CheckString(Field(o, "category"), AnyString, isUrl) == Valid(a.category)
      && CheckBool(Field(o, "openNewTab"), Some(true)) == Valid(a.openNewTab)
      && CheckTags(Field(o, "tags")) == Valid(a.tags)
  {
    IconRoundTrip(a.icon);
    TagsRoundTrip(a.tags);
  }

  lemma AppRoundTrip(a: SelfhostedApp, isUrl: string -> bool)
    requires AppOk(a, isUrl)
    ensures CheckApp(Some(AppToJson(a)), isUrl) == Valid(a)
  {
    AppJsonFields(a);
    AppFieldsAccepted(AppToJson(a).fields, a, isUrl);
  }

  /** The fields of a written-back bookmark, looked up. */
  lemma BookmarkJsonFields(b: Bookmark)
    ensures var o := BookmarkToJson(b).fields;
      && Field(o, "id") == Some(JString(b.id)) && Field(o, "name") == Some(JString(b.name))
      && Field(o, "description") == Some(JString(b.description)) && Field(o, "url") == Some(JString(b.url))
      && Field(o, "icon") == Some(IconToJson(b.icon))
      && Field(o, "openNewTab") == Some(JBool(b.openNewTab)) && Field(o, "tags") == Some(JArray(Strings(b.tags)))
  {
  }

  /** Each field of a written-back bookmark passes its own schema. */
  lemma BookmarkFieldsAccepted(o: map<string, Json>, b: Bookmark, isUrl: string -> bool)
    requires BookmarkOk(b, isUrl)
    requires && Field(o, "id") == Some(JString(b.id)) && Field(o, "name") == Some(JString(b.name))
      && Field(o, "description") == Some(JString(b.description)) && Field(o, "url") == Some(JString(b.url))
      && Field(o, "icon") == Some(IconToJson(b.icon))
      && Field(o, "openNewTab") == Some(JBool(b.openNewTab)) && Field(o, "tags") == Some(JArray(Strings(b.tags)))
    ensures && CheckString(Field(o, "id"), IdRule, isUrl) == Valid(b.id)
      && CheckString(Field(o, "name"), AppNameRule, isUrl) == Valid(b.name)
      && CheckString(Field(o, "description"), DescriptionRule, isUrl) == Valid(b.description)
      && CheckString(Field(o, "url"), UrlRule, isUrl) == Valid(b.url)
      && CheckIcon(Field(o, "icon")) == Valid(b.icon)
      && CheckBool(Field(o, "openNewTab"), Some(true)) == Valid(b.openNewTab)
      && CheckTags(Field(o, "tags")) == Valid(b.tags)
  {
    IconRoundTrip(b.icon);
    TagsRoundTrip(b.tags);
  }

  lemma BookmarkRoundTrip(b: Bookmark, isUrl: string -> bool)
    requires BookmarkOk(b, isUrl)
    ensures CheckBookmark(Some(BookmarkToJson(b)), isUrl) == Valid(b)
  {
    BookmarkJsonFields(b);
    BookmarkFieldsAccepted(BookmarkToJson(b).fields, b, isUrl);
  }

  /** The fields of written-back settings, looked up. */
  lemma SettingsJsonFields(s: DashboardSettings)
    ensures var o := SettingsToJson(s).fields;
      && Field(o, "theme") == Some(JString(ThemeModeName(s.theme)))
      && "dateFormat" in o && Field(o, "dateFormat") == Some(JString(s.dateFormat))
      && Field(o, "itemsPerRow") == Some(JNumber(s.itemsPerRow as real))
      && Field(o, "allowBookmarks") == Some(JBool(s.allowBookmarks))
      && Field(o, "showAllCategory") == Some(JBool(s.showAllCategory))
      && Field(o, "showDescriptions") == Some(JBool(s.showDescriptions))
      && Field(o, "showLabels") == Some(JBool(s.showLabels))
  {
  }

  /** Each field of written-back settings passes its own schema. */
  lemma SettingsFieldsAccepted(o: map<string, Json>, s: DashboardSettings)
    requires SettingsOk(s)
    requires && Field(o, "theme") == Some(JString(ThemeModeName(s.theme)))
      && Field(o, "dateFormat") == Some(JString(s.dateFormat))
      && Field(o, "itemsPerRow") == Some(JNumber(s.itemsPerRow as real))
      && Field(o, "allowBookmarks") == Some(JBool(s.allowBookmarks))
      && Field(o, "showAllCategory") == Some(JBool(s.showAllCategory))
      && Field(o, "showDescriptions") == Some(JBool(s.showDescriptions))
      && Field(o, "showLabels") == Some(JBool(s.showLabels))
    ensures && CheckEnum(Field(o, "theme"), ThemeModeNames, Some(2)) == Valid(ThemeIndex(s.theme))
      && CheckString(Field(o, "dateFormat"), AnyString, _ => true) == Valid(s.dateFormat)
      && CheckIntRange(Field(o, "itemsPerRow"), 1, 10, Some(4)) == Valid(s.itemsPerRow)
      && CheckBool(Field(o, "allowBookmarks"), Some(false)) == Valid(s.allowBookmarks)
      && CheckBool(Field(o, "showAllCategory"), Some(true)) == Valid(s.showAllCategory)
      && CheckBool(Field(o, "showDescriptions"), Some(true)) == Valid(s.showDescriptions)
      && CheckBool(Field(o, "showLabels"), Some(true)) == Valid(s.showLabels)
  {
    assert (s.itemsPerRow as real).Floor == s.itemsPerRow;
  }

  function ThemeIndex(m: ThemeMode): (k: nat)
    ensures k < |ThemeModeNames| && ThemeModeNames[k] == ThemeModeName(m)
    ensures [Light, Dark, Auto][k] == m
  {
    match m
    case Light => 0
    case Dark => 1
    case Auto => 2
  }

  lemma SettingsRoundTrip(s: DashboardSettings)
    requires SettingsOk(s)
    ensures CheckSettings(Some(SettingsToJson(s))) == Valid(s)
  {
    SettingsJsonFields(s);
    SettingsFieldsAccepted(SettingsToJson(s).fields, s);
  }

  /** An array of well-formed elements, each written back, is accepted as is. */
  lemma ArrayRoundTrip<T>(xs: seq<T>, lo: nat, enc: T -> Json, f: Json -> Checked<T>)
    requires forall x :: Reasoned(f(x))
    requires |xs| >= lo
    requires forall k :: 0 <= k < |xs| ==> f(enc(xs[k])) == Valid(xs[k])
    ensures CheckArray(Some(JArray(Encode(xs, enc))), lo, None, f) == Valid(xs)
  {
    var r := CheckArray(Some(JArray(Encode(xs, enc))), lo, None, f);
    assert r.value == xs;
  }

  lemma AppsRoundTrip(apps: seq<SelfhostedApp>, isUrl: string -> bool)
    requires |apps| >= 1 && forall k :: 0 <= k < |apps| ==> AppOk(apps[k], isUrl)
    ensures CheckApps(Some(JArray(Encode(apps, AppToJson))), isUrl) == Valid(apps)
  {
    forall k | 0 <= k < |apps| { AppRoundTrip(apps[k], isUrl); }
    ArrayRoundTrip(apps, 1, AppToJson, AppElement(isUrl));
  }

  lemma BookmarksRoundTrip(bookmarks: seq<Bookmark>, isUrl: string -> bool)
    requires forall k :: 0 <= k < |bookmarks| ==> BookmarkOk(bookmarks[k], isUrl)
    ensures CheckBookmarks(Some(JArray(Encode(bookmarks, BookmarkToJson))), isUrl) == Valid(bookmarks)
  {
    forall k | 0 <= k < |bookmarks| { BookmarkRoundTrip(bookmarks[k], isUrl); }
    ArrayRoundTrip(bookmarks, 0, BookmarkToJson, BookmarkElement(isUrl));
  }

  lemma EnginesRoundTrip(engines: seq<SearchEngine>, isUrl: string -> bool)
    requires |engines| >= 1 && forall k :: 0 <= k < |engines| ==> EngineOk(engines[k], isUrl)
    ensures CheckEngines(Some(JArray(Encode(engines, EngineToJson))), isUrl) == Valid(engines)
  {
    forall k | 0 <= k < |engines| { EngineRoundTrip(engines[k], isUrl); }
    ArrayRoundTrip(engines, 1, EngineToJson, EngineElement(isUrl));
  }

  lemma CategoriesRoundTrip(categories: seq<Category>)
    requires |categories| >= 1 && forall k :: 0 <= k < |categories| ==> CategoryOk(categories[k])
    ensures CheckCategories(Some(JArray(Encode(categories, CategoryToJson)))) == Valid(categories)
  {
    ArrayRoundTrip(categories, 1, CategoryToJson, CategoryElement);
  }

  // Each field of a written-back configuration, looked up and checked.

  lemma MetadataFieldAccepted(c: DashboardConfig)
    requires MetadataOk(c.metadata)
    ensures CheckMetadata(Field(ConfigToJson(c).fields, "metadata")) == Valid(c.metadata)
  {
    assert Field(ConfigToJson(c).fields, "metadata") == Some(MetadataToJson(c.metadata));
  }

  lemma CategoriesFieldAccepted(c: DashboardConfig)
    requires |c.categories| >= 1 && forall k :: 0 <= k < |c.categories| ==> CategoryOk(c.categories[k])
    ensures CheckCategories(Field(ConfigToJson(c).fields, "categories")) == Valid(c.categories)
  {
    assert Field(ConfigToJson(c).fields, "categories") == Some(JArray(Encode(c.categories, CategoryToJson)));
    CategoriesRoundTrip(c.categories);
  }

  lemma AppsFieldAccepted(c: DashboardConfig, isUrl: string -> bool)
    requires |c.applications| >= 1 && forall k :: 0 <= k < |c.applications| ==> AppOk(c.applications[k], isUrl)
    ensures CheckApps(Field(ConfigToJson(c).fields, "applications"), isUrl) == Valid(c.applications)
  {
    assert Field(ConfigToJson(c).fields, "applications") == Some(JArray(Encode(c.applications, AppToJson)));
    AppsRoundTrip(c.applications, isUrl);
  }

  lemma BookmarksFieldAccepted(c: DashboardConfig, isUrl: string -> bool)
    requires forall k :: 0 <= k < |c.bookmarks| ==> BookmarkOk(c.bookmarks[k], isUrl)
    ensures CheckBookmarks(Field(ConfigToJson(c).fields, "bookmarks"), isUrl) == Valid(c.bookmarks)
  {
    assert Field(ConfigToJson(c).fields, "bookmarks") == Some(JArray(Encode(c.bookmarks, BookmarkToJson)));
    BookmarksRoundTrip(c.bookmarks, isUrl);
  }

  lemma EnginesFieldAccepted(c: DashboardConfig, isUrl: string -> bool)
    requires |c.searchEngines| >= 1 && forall k :: 0 <= k < |c.searchEngines| ==> EngineOk(c.searchEngines[k], isUrl)
    ensures CheckEngines(Field(ConfigToJson(c).fields, "searchEngines"), isUrl) == Valid(c.searchEngines)
  {
    assert Field(ConfigToJson(c).fields, "searchEngines") == Some(JArray(Encode(c.searchEngines, EngineToJson)));
    EnginesRoundTrip(c.searchEngines, isUrl);
  }

  lemma SettingsFieldAccepted(c: DashboardConfig)
    requires SettingsOk(c.settings)
    ensures CheckSettings(Field(ConfigToJson(c).fields, "settings")) == Valid(c.settings)
  {
    assert Field(ConfigToJson(c).fields, "settings") == Some(SettingsToJson(c.settings));
    SettingsRoundTrip(c.settings);
  }

  lemma EngineRoundTrip(e: SearchEngine, isUrl: string -> bool)
    requires EngineOk(e, isUrl)
    ensures CheckEngine(Some(EngineToJson(e)), isUrl) == Valid(e)
  {
    assert Field(EngineToJson(e).fields, "icon") == if e.icon.Some? then Some(JString(e.icon.value)) else None;
  }

  /** A document whose every field passes is accepted, as those fields. */
  lemma ConfigOfAcceptedFields(o: map<string, Json>, isUrl: string -> bool)
    requires CheckMetadata(Field(o, "metadata")).Valid?
    requires CheckCategories(Field(o, "categories")).Valid?
    requires CheckApps(Field(o, "applications"), isUrl).Valid?
    requires CheckBookmarks(Field(o, "bookmarks"), isUrl).Valid?
    requires CheckEngines(Field(o, "searchEngines"), isUrl).Valid?
    requires CheckSettings(Field(o, "settings")).Valid?
    ensures CheckConfig(Some(JObject(o)), isUrl) == Valid(DashboardConfig(
              CheckMetadata(Field(o, "metadata")).value,
              CheckCategories(Field(o, "categories")).value,
              CheckApps(Field(o, "applications"), isUrl).value,
              CheckBookmarks(Field(o, "bookmarks"), isUrl).value,
              CheckEngines(Field(o, "searchEngines"), isUrl).value,
              CheckSettings(Field(o, "settings")).value))
  {
  }

  /** When the application list is the only field that fails, its issues,
      moved under `applications`, are all that is reported. */
  lemma ConfigOnlyAppsRejected(o: map<string, Json>, isUrl: string -> bool)
    requires CheckMetadata(Field(o, "metadata")).Valid?
    requires CheckCategories(Field(o, "categories")).Valid?
    requires CheckApps(Field(o, "applications"), isUrl).Invalid?
    requires CheckBookmarks(Field(o, "bookmarks"), isUrl).Valid?
    requires CheckEngines(Field(o, "searchEngines"), isUrl).Valid?
    requires CheckSettings(Field(o, "settings")).Valid?
    ensures CheckConfig(Some(JObject(o)), isUrl)
            == Invalid(CheckApps(Field(o, "applications"), isUrl).Within(Key("applications")).Issues())
  {
    OnlyApplicationsRejected(CheckMetadata(Field(o, "metadata")), CheckCategories(Field(o, "categories")),
                             CheckApps(Field(o, "applications"), isUrl), CheckBookmarks(Field(o, "bookmarks"), isUrl),
                             CheckEngines(Field(o, "searchEngines"), isUrl), CheckSettings(Field(o, "settings")));
  }

  /** The configuration object rejects with the application list's issues
      alone when that list is its only failing field. */
  lemma OnlyApplicationsRejected(m: Checked<DashboardMetadata>, c: Checked<seq<Category>>,
                                 a: Checked<seq<SelfhostedApp>>, b: Checked<seq<Bookmark>>,
                                 e: Checked<seq<SearchEngine>>, s: Checked<DashboardSettings>)
    requires m.Valid? && c.Valid? && a.Invalid? && b.Valid? && e.Valid? && s.Valid?
    ensures ConfigOf(m, c, a, b, e, s) == Invalid(a.Within(Key("applications")).Issues())
  {
    var issues := a.Within(Key("applications")).Issues();
    assert [] + [] + issues + [] + [] + [] == issues;
  }

  /** Writing a well-formed configuration back as a document and checking it
      again gives the same configuration. */
  lemma {:induction false} ConfigRoundTrip(c: DashboardConfig, isUrl: string -> bool)
    requires ConfigOk(c, isUrl)
    ensures CheckConfig(Some(ConfigToJson(c)), isUrl) == Valid(c)
  {
    MetadataFieldAccepted(c);
    CategoriesFieldAccepted(c);
    AppsFieldAccepted(c, isUrl);
    BookmarksFieldAccepted(c, isUrl);
    EnginesFieldAccepted(c, isUrl);
    SettingsFieldAccepted(c);
    ConfigOfAcceptedFields(ConfigToJson(c).fields, isUrl);
  }

  /** An empty application list is too short, and says so under `applications`. */
  lemma EmptyAppsField(v: Option<Json>, isUrl: string -> bool)
    requires v == Some(JArray([]))
    ensures CheckApps(v, isUrl).Invalid?
    ensures CheckApps(v, isUrl).Within(Key("applications")).Issues()
            == [Issue([Key("applications")], TooSmall(Elements, 1))]
  {
    assert [Key("applications")] + [] == [Key("applications")];
  }

  lemma AppsFieldEncoded(c: DashboardConfig)
    ensures Field(ConfigToJson(c).fields, "applications") == Some(JArray(Encode(c.applications, AppToJson)))
  {
  }

  /** A configuration that is well formed except for an empty application
      list is rejected with exactly one issue: the list is too short. */
  lemma NoAppsRejected(c: DashboardConfig, isUrl: string -> bool)
    requires MetadataOk(c.metadata)
    requires |c.categories| >= 1 && forall k :: 0 <= k < |c.categories| ==> CategoryOk(c.categories[k])
    requires c.applications == []
    requires forall k :: 0 <= k < |c.bookmarks| ==> BookmarkOk(c.bookmarks[k], isUrl)
    requires |c.searchEngines| >= 1 && forall k :: 0 <= k < |c.searchEngines| ==> EngineOk(c.searchEngines[k], isUrl)
    requires SettingsOk(c.settings)
    ensures CheckConfig(Some(ConfigToJson(c)), isUrl)
            == Invalid([Issue([Key("applications")], TooSmall(Elements, 1))])
  {
    var o := ConfigToJson(c).fields;
    MetadataFieldAccepted(c);
    CategoriesFieldAccepted(c);
    BookmarksFieldAccepted(c, isUrl);
    EnginesFieldAccepted(c, isUrl);
    SettingsFieldAccepted(c);
    AppsFieldEncoded(c);
    EmptyAppsField(Field(o, "applications"), isUrl);
    ConfigOnlyAppsRejected(o, isUrl);
  }

  /** The shipped default does not pass its own schema: its application list
      is empty, against the schema's minimum of one, and that is the only
      issue reported. */
  lemma DefaultConfigRejected(isUrl: string -> bool)
    requires isUrl(GoogleSearchUrl)
    ensures CheckConfig(Some(ConfigToJson(DefaultDashboardConfig)), isUrl)
            == Invalid([Issue([Key("applications")], TooSmall(Elements, 1))])
    ensures !ConfigOk(DefaultDashboardConfig, isUrl)
    ensures DefaultDashboardConfig.settings == DefaultSettings
    ensures AppCategory.id == "apps" && BookmarksCategory.id == "bookmarks" && AppCategory.id != BookmarksCategory.id
  {
    var d := DefaultDashboardConfig;
    assert CategoryOk(d.categories[0]);
    assert EngineOk(d.searchEngines[0], isUrl);
    NoAppsRejected(d, isUrl);
  }

  /** Leaving out the `settings` object is an error: only its fields have
      defaults. */
  lemma MissingSettingsRejected(o: map<string, Json>, isUrl: string -> bool)
    requires "settings" !in o
    ensures CheckConfig(Some(JObject(o)), isUrl).Invalid?
    ensures Issue([Key("settings")], InvalidType("object", "undefined")) in CheckConfig(Some(JObject(o)), isUrl).issues
    ensures Message(InvalidType("object", "undefined")) == "Required"
  {
    var settings := CheckSettings(Field(o, "settings")).Within(Key("settings"));
    assert [Key("settings")] + [] == [Key("settings")];
    assert settings.Issues() == [Issue([Key("settings")], InvalidType("object", "undefined"))];
  }

  /** Leaving out the `bookmarks` array is an error: it has no default. */
  lemma MissingBookmarksRejected(o: map<string, Json>, isUrl: string -> bool)
    requires "bookmarks" !in o
    ensures CheckConfig(Some(JObject(o)), isUrl).Invalid?
    ensures Issue([Key("bookmarks")], InvalidType("array", "undefined")) in CheckConfig(Some(JObject(o)), isUrl).issues
  {
    var bookmarks := CheckBookmarks(Field(o, "bookmarks"), isUrl);
    assert [Key("bookmarks")] + [] == [Key("bookmarks")];
    assert bookmarks.Within(Key("bookmarks")).Issues()[0] == Issue([Key("bookmarks")], InvalidType("array", "undefined"));
    ConfigOfReportsEveryIssue(CheckMetadata(Field(o, "metadata")), CheckCategories(Field(o, "categories")),
                              CheckApps(Field(o, "applications"), isUrl), bookmarks,
                              CheckEngines(Field(o, "searchEngines"), isUrl), CheckSettings(Field(o, "settings")));
  }

  /** A settings object with none of its fields becomes the default settings. */
  lemma EmptySettingsFilled()
    ensures CheckSettings(Some(JObject(map[]))) == Valid(DefaultSettings)
  {
  }

  /** Every issue of a part is reported, one level down, by `Within`. */
  lemma WithinKeepsIssue<T>(r: Checked<T>, seg: Segment, k: nat)
    requires k < |r.Issues()|
    ensures r.Within(seg).Invalid?
    ensures Issue([seg] + r.Issues()[k].path, r.Issues()[k].problem) in r.Within(seg).issues
  {
    assert r.Within(seg).Issues()[k] == Issue([seg] + r.Issues()[k].path, r.Issues()[k].problem);
  }

  /** A rejected settings object rejects the whole document, which reports
      the settings' own issues (under `settings`) last. */
  lemma SettingsIssuesSurface(o: map<string, Json>, isUrl: string -> bool)
    requires CheckSettings(Field(o, "settings")).Invalid?
    ensures CheckConfig(Some(JObject(o)), isUrl).Invalid?
    ensures var lifted := CheckSettings(Field(o, "settings")).Within(Key("settings")).Issues();
            var all := CheckConfig(Some(JObject(o)), isUrl).issues;
            |lifted| <= |all| && all[|all| - |lifted|..] == lifted
  {
  }

  /** A settings object with a bad `itemsPerRow` is rejected with an issue
      at `itemsPerRow`. */
  lemma ItemsPerRowIssue(s: map<string, Json>, n: real)
    requires Field(s, "itemsPerRow") == Some(JNumber(n))
    requires !(IsInteger(n) && 1.0 <= n <= 10.0)
    ensures CheckSettings(Some(JObject(s))).Invalid?
    ensures exists k :: 0 <= k < |CheckSettings(Some(JObject(s))).issues|
                        && CheckSettings(Some(JObject(s))).issues[k].path == [Key("itemsPerRow")]
  {
    var inner := CheckIntRange(Field(s, "itemsPerRow"), 1, 10, Some(4));
    assert inner.issues[0].path == [];
    assert [Key("itemsPerRow")] + [] == [Key("itemsPerRow")];
    SettingsOfKeepsItemsPerRow(
      CheckEnum(Field(s, "theme"), ThemeModeNames, Some(2)),
      if "dateFormat" in s then CheckString(Field(s, "dateFormat"), AnyString, _ => true)
      else Valid(DefaultSettings.dateFormat),
      inner,
      CheckBool(Field(s, "allowBookmarks"), Some(false)),
      CheckBool(Field(s, "showAllCategory"), Some(true)),
      CheckBool(Field(s, "showDescriptions"), Some(true)),
      CheckBool(Field(s, "showLabels"), Some(true)));
  }

  /** A rejected `itemsPerRow` rejects the settings object, which reports its
      first issue under `itemsPerRow`. */
  lemma SettingsOfKeepsItemsPerRow(theme: Checked<nat>, dateFormat: Checked<string>, itemsPerRow: Checked<int>,
                                   allowBookmarks: Checked<bool>, showAllCategory: Checked<bool>,
                                   showDescriptions: Checked<bool>, showLabels: Checked<bool>)
    requires theme.Valid? ==> theme.value < |ThemeModeNames|
    requires itemsPerRow.Invalid? && itemsPerRow.issues != []
    ensures var r := SettingsOf(theme, dateFormat, itemsPerRow, allowBookmarks, showAllCategory,
                                showDescriptions, showLabels);
      && r.Invalid?
      && exists k :: 0 <= k < |r.issues|
                     && r.issues[k] == Issue([Key("itemsPerRow")] + itemsPerRow.issues[0].path, itemsPerRow.issues[0].problem)
  {
    var field := itemsPerRow.Within(Key("itemsPerRow")).Issues();
    assert field[0] == Issue([Key("itemsPerRow")] + itemsPerRow.issues[0].path, itemsPerRow.issues[0].problem);
    var head := theme.Within(Key("theme")).Issues() + dateFormat.Within(Key("dateFormat")).Issues();
    var upTo := head + field;
    assert upTo[|head|] == field[0];
    var r := SettingsOf(theme, dateFormat, itemsPerRow, allowBookmarks, showAllCategory,
                        showDescriptions, showLabels);
    assert r.issues[|head|] == upTo[|head|];
  }

  /** Each issue of the settings object appears in the document's report,
      under `settings`. */
  lemma SettingsIssueReported(o: map<string, Json>, isUrl: string -> bool, k: nat)
    requires k < |CheckSettings(Field(o, "settings")).Issues()|
    ensures CheckConfig(Some(JObject(o)), isUrl).Invalid?
    ensures var p := CheckSettings(Field(o, "settings")).Issues()[k];
            Issue([Key("settings")] + p.path, p.problem) in CheckConfig(Some(JObject(o)), isUrl).issues
  {
    var settings := CheckSettings(Field(o, "settings"));
    WithinKeepsIssue(settings, Key("settings"), k);
    ConfigOfReportsEveryIssue(CheckMetadata(Field(o, "metadata")), CheckCategories(Field(o, "categories")),
                              CheckApps(Field(o, "applications"), isUrl), CheckBookmarks(Field(o, "bookmarks"), isUrl),
                              CheckEngines(Field(o, "searchEngines"), isUrl), settings);
  }

  /** An `itemsPerRow` that is not an integer in [1, 10] is reported under
      `settings.itemsPerRow`, and the document is rejected. */
  lemma ItemsPerRowOutOfRangeRejected(o: map<string, Json>, n: real, isUrl: string -> bool)
    requires "settings" in o && o["settings"].JObject?
    requires Field(o["settings"].fields, "itemsPerRow") == Some(JNumber(n))
    requires !(IsInteger(n) && 1.0 <= n <= 10.0)
    ensures CheckConfig(Some(JObject(o)), isUrl).Invalid?
    ensures exists i :: i in CheckConfig(Some(JObject(o)), isUrl).issues
                        && i.path == [Key("settings"), Key("itemsPerRow")]
  {
    assert Field(o, "settings") == Some(JObject(o["settings"].fields));
    ItemsPerRowIssue(o["settings"].fields, n);
    var issues := CheckSettings(Field(o, "settings")).issues;
    var k :| 0 <= k < |issues| && issues[k].path == [Key("itemsPerRow")];
    SettingsIssueReported(o, isUrl, k);
    assert [Key("settings")] + issues[k].path == [Key("settings"), Key("itemsPerRow")];
  }
}
