# Self-hosted dashboard core, modelled in Dafny

This project models the core of a self-hosted start-page dashboard. A YAML
file describes the dashboard: metadata, categories, applications, bookmarks,
search engines and display settings. The dashboard loads that file, checks it
against a schema, and turns the accepted configuration into the tiles and
category tabs it shows. Each tile gets an icon, which is a URL, a
dashboard-icons CDN image or a generated picture of initials. A theme service
keeps track of the light, dark or automatic mode.

The modules follow the source files:

| module | file | source |
|---|---|---|
| `Text` | text.dfy | the JavaScript string and array built-ins the core relies on (`trim`, `toLowerCase`, `includes`, `split(/\s+/)`, `replace(/\s+/g, …)`, `find`, `filter`, `sort`) |
| `DashboardModels` | models.dfy | `src/app/core/models/dashboard.models.ts`: the schema as a checker over a JSON-like document, the typed configuration and the defaults |
| `YamlParser` | yaml_parser.dfy | `src/app/core/services/yaml-parser.service.ts` |
| `AppService` | app_service.dfy | `src/app/core/services/app.service.ts` |
| `SearchService` | search_service.dfy | `src/app/core/services/search.service.ts` |
| `CategoryService` | category_service.dfy | `src/app/core/services/category.service.ts` |
| `ConfigService` | config_service.dfy | `src/app/core/services/config.service.ts` |
| `IconService` | icon_service.dfy | `src/app/core/services/icon.service.ts` |
| `ThemeService` | theme_service.dfy | `src/app/core/services/theme.service.ts` |

Pure code is written as datatypes, functions and lemmas. Services whose
methods update fields are classes whose methods have `modifies` clauses:
- the application, search and category services hold the query, the selected
  tab and the configuration;
- the configuration store holds the current value, and as ghost state the history of values;
- the icon service holds its cache as a `map`;
- the theme service holds the mode and the theme shown.

The hash loop of `getColorFromString` is a method with a `for` loop. The
method is proved against the function `Hash`.

A schema check produces `Valid(value)` or `Invalid(issues)`, following Zod's
`safeParse`. Each issue has a path, a Zod issue code and Zod's default
message.

## Model

| member | source | states |
|---|---|---|
| `DashboardModels.CheckString` | src/app/core/models/dashboard.models.ts:15-19 | A string field is accepted exactly when it is a string within its length bounds (and is a URL when the rule asks for one). The value accepted is the string given. Anything that is not a string gets a single invalid-type issue naming "string" and the type received. |
| `DashboardModels.CheckOptionalString` | src/app/core/models/dashboard.models.ts:53 | An absent optional string is accepted as absent, and a present string is accepted as it is. An accepted present value was a string. |
| `DashboardModels.CheckBool` | src/app/core/models/dashboard.models.ts:21 | A boolean with a default: absent gives the default, and a present value is accepted exactly when it is a boolean. A required boolean that is absent is reported as missing. |
| `DashboardModels.Position` | src/app/core/models/dashboard.models.ts:7 | Finds an enum option: found exactly when the text is one of the options, at an index holding that text. |
| `DashboardModels.CheckEnum` | src/app/core/models/dashboard.models.ts:68 | An enum field is accepted exactly when it is one of the option strings. Absent gives the default. Any other string gets one invalid-enum-value issue that lists the options. |
| `DashboardModels.CheckIntRange` | src/app/core/models/dashboard.models.ts:70 | `itemsPerRow` is accepted exactly when it is an integer number in [lo, hi]. Absent gives the default. A number that is not an integer, or is out of range, is rejected with issues at the field itself. |
| `DashboardModels.CheckEach` | src/app/core/models/dashboard.models.ts:82-85 | An array's elements are accepted exactly when every element is, with each checked element in its place. |
| `DashboardModels.CheckArray` | src/app/core/models/dashboard.models.ts:82-85 | An array field is accepted exactly when it is an array of at least the minimum length whose elements all pass. A short array gets a too-small issue first. A value that is not an array gets an invalid-type issue. |
| `DashboardModels.CheckStringElement` | src/app/core/models/dashboard.models.ts:22 | A tag is accepted exactly when it is a string. |
| `DashboardModels.CheckTags` | src/app/core/models/dashboard.models.ts:22 | `tags` defaults to []. When present, it is accepted exactly when it is an array of strings, and the accepted tags are those strings. |
| `DashboardModels.CheckIcon` | src/app/core/models/dashboard.models.ts:6-9 | An accepted icon was an object whose `type` is the accepted kind's name and whose `value` is the accepted value. |
| `DashboardModels.CheckApp` | src/app/core/models/dashboard.models.ts:14-23 | An accepted application has a non-empty id, a name of 1-100 characters, a description of at most 255 characters and a URL. Its id, name, description, url and category are the strings the document holds, its icon is what the icon check accepts for the document's `icon`, and its tags are what the tags check accepts. A present `openNewTab` is the document's boolean; an absent one becomes true, and absent `tags` become []. |
| `DashboardModels.CheckBookmark` | src/app/core/models/dashboard.models.ts:36-44 | An accepted bookmark meets the same bounds as an application. Its id, name, description and url are the document's strings, its icon and tags are what their checks accept for the document's fields, and a present `openNewTab` is the document's boolean. An absent `openNewTab` becomes true and absent `tags` become []. |
| `DashboardModels.CheckCategory` | src/app/core/models/dashboard.models.ts:28-31 | An accepted category has a non-empty id and a name of 1-50 characters, and both are the strings the document holds. |
| `DashboardModels.CheckEngine` | src/app/core/models/dashboard.models.ts:49-54 | An accepted search engine has a non-empty id, a name of 1-50 characters and a URL, each the document's string. Its icon is the document's string when present and absent when the document has none. |
| `DashboardModels.CheckMetadata` | src/app/core/models/dashboard.models.ts:59-62 | Accepted metadata has a title of 1-100 characters and a description of at most 255, both the strings the document holds. |
| `DashboardModels.CheckSettings` | src/app/core/models/dashboard.models.ts:67-75 | Absent settings are reported as a missing object. Accepted settings came from an object and have `itemsPerRow` in 1..10. Every absent field takes its default ('auto', 'dd-MM-yyyy', 4, false, true, true, true). Every present field (theme, `dateFormat`, `itemsPerRow` and the four booleans) is the value the document gives. |
| `DashboardModels.CheckCategories` | src/app/core/models/dashboard.models.ts:82 | Accepted categories form a non-empty list of accepted categories. |
| `DashboardModels.CheckApps` | src/app/core/models/dashboard.models.ts:83 | Accepted applications form a non-empty list of accepted applications. An empty array gets exactly one issue: "at least 1 element". |
| `DashboardModels.CheckBookmarks` | src/app/core/models/dashboard.models.ts:84 | Every accepted bookmark is valid, and the list may be empty. An absent `bookmarks` is reported as a missing array. |
| `DashboardModels.CheckEngines` | src/app/core/models/dashboard.models.ts:85 | Accepted search engines form a non-empty list of accepted engines. |
| `DashboardModels.CheckConfig` | src/app/core/models/dashboard.models.ts:80-87 | The whole schema: every rejection carries at least one issue, and an accepted configuration satisfies every bound above. Each of its six parts is what that part's check accepts for the document's field. A document that is not an object gets one invalid-type issue. |
| `DashboardModels.Checked.Within` | src/app/core/models/dashboard.models.ts:80-87 | Nesting a result under a key keeps its verdict, its value and its issues in order, each issue's path prefixed with the key. |
| `DashboardModels.TypeIssue` | src/app/core/models/dashboard.models.ts:80-87 | A type mismatch is one issue at the value itself, naming the expected and the received type. |
| `DashboardModels.ThemeIndex` | src/app/core/models/dashboard.models.ts:68 | Each theme mode has an index in the theme enum's options, and that option is the mode's name. |
| `DashboardModels.IconRoundTrip` | src/app/core/models/dashboard.models.ts:6-9 | Writing an icon and checking it gives it back. |
| `DashboardModels.TagsRoundTrip` | src/app/core/models/dashboard.models.ts:22 | Writing a list of tags and checking it gives it back. |
| `DashboardModels.AppFieldsAccepted` | src/app/core/models/dashboard.models.ts:14-23 | Every field of a written valid application passes its own rule with its own value. |
| `DashboardModels.AppRoundTrip` | src/app/core/models/dashboard.models.ts:14-23 | Writing a valid application and checking it gives it back. |
| `DashboardModels.BookmarkFieldsAccepted` | src/app/core/models/dashboard.models.ts:36-44 | Every field of a written valid bookmark passes its own rule with its own value. |
| `DashboardModels.BookmarkRoundTrip` | src/app/core/models/dashboard.models.ts:36-44 | Writing a valid bookmark and checking it gives it back. |
| `DashboardModels.SettingsFieldsAccepted` | src/app/core/models/dashboard.models.ts:67-75 | Every field of written valid settings passes its own rule with its own value. |
| `DashboardModels.SettingsRoundTrip` | src/app/core/models/dashboard.models.ts:67-75 | Writing valid settings and checking them gives them back. |
| `DashboardModels.EngineRoundTrip` | src/app/core/models/dashboard.models.ts:49-54 | Writing a valid search engine and checking it gives it back. |
| `DashboardModels.ArrayRoundTrip` | src/app/core/models/dashboard.models.ts:82-85 | An array of long-enough, element-wise round-tripping values round-trips as a whole. |
| `DashboardModels.AppsRoundTrip` | src/app/core/models/dashboard.models.ts:83 | A non-empty list of valid applications round-trips. |
| `DashboardModels.BookmarksRoundTrip` | src/app/core/models/dashboard.models.ts:84 | A list of valid bookmarks round-trips, including an empty one. |
| `DashboardModels.EnginesRoundTrip` | src/app/core/models/dashboard.models.ts:85 | A non-empty list of valid engines round-trips. |
| `DashboardModels.CategoriesRoundTrip` | src/app/core/models/dashboard.models.ts:82 | A non-empty list of valid categories round-trips. |
| `DashboardModels.MetadataFieldAccepted` | src/app/core/models/dashboard.models.ts:81 | The `metadata` field of a written configuration is accepted as the configuration's metadata. |
| `DashboardModels.CategoriesFieldAccepted` | src/app/core/models/dashboard.models.ts:82 | The `categories` field of a written configuration is accepted as its categories. |
| `DashboardModels.AppsFieldAccepted` | src/app/core/models/dashboard.models.ts:83 | The `applications` field of a written configuration is accepted as its applications. |
| `DashboardModels.BookmarksFieldAccepted` | src/app/core/models/dashboard.models.ts:84 | The `bookmarks` field of a written configuration is accepted as its bookmarks. |
| `DashboardModels.EnginesFieldAccepted` | src/app/core/models/dashboard.models.ts:85 | The `searchEngines` field of a written configuration is accepted as its engines. |
| `DashboardModels.SettingsFieldAccepted` | src/app/core/models/dashboard.models.ts:86 | The `settings` field of a written configuration is accepted as its settings. |
| `DashboardModels.ConfigOf` | src/app/core/models/dashboard.models.ts:80-87 | The configuration is accepted exactly when its six fields are, and is then made of their six values. A rejection carries at least one issue when each rejected field does. |
| `DashboardModels.SettingsOf` | src/app/core/models/dashboard.models.ts:67-75 | Settings are accepted exactly when their seven fields are, and are then made of those values, with the theme name mapped to its mode. A rejection carries at least one issue when each rejected field does. |
| `DashboardModels.ConfigOfReportsEveryIssue` | src/app/core/models/dashboard.models.ts:80-87 | Every issue of each of the six fields, placed under the field's key, is among the configuration's issues. |
| `DashboardModels.ConfigOfAcceptedFields` | src/app/core/models/dashboard.models.ts:80-87 | When all six fields pass, the configuration is accepted, and it is made of exactly the six checked values. |
| `DashboardModels.ConfigOnlyAppsRejected` | src/app/core/models/dashboard.models.ts:80-87 | When only `applications` fails, the configuration's issues are exactly that field's issues placed under "applications". |
| `DashboardModels.ConfigRoundTrip` | src/app/core/models/dashboard.models.ts:80-87 | Any configuration satisfying the schema's bounds, once written, is accepted unchanged. |
| `DashboardModels.EmptyAppsField` | src/app/core/models/dashboard.models.ts:83 | A written empty application list gives exactly the issue "applications: at least 1 element". |
| `DashboardModels.NoAppsRejected` | src/app/core/models/dashboard.models.ts:83 | A configuration that is valid except for having no applications is rejected with that single issue. |
| `DashboardModels.DefaultConfigRejected` | src/app/core/models/dashboard.models.ts:104-139 | The default configuration fails its own schema, with the single issue that `applications` is empty. Its settings are the schema defaults. The synthetic ids are "apps" and "bookmarks", and they differ. |
| `DashboardModels.MissingSettingsRejected` | src/app/core/models/dashboard.models.ts:86 | A configuration without `settings` is rejected with a "Required" issue at "settings". |
| `DashboardModels.MissingBookmarksRejected` | src/app/core/models/dashboard.models.ts:84 | A configuration without `bookmarks` is rejected with a missing-array issue at "bookmarks". |
| `DashboardModels.EmptySettingsFilled` | src/app/core/models/dashboard.models.ts:67-75 | An empty settings object is accepted as the default settings. |
| `DashboardModels.WithinKeepsIssue` | src/app/core/models/dashboard.models.ts:80-87 | Every nested issue survives, with the key in front of its path. |
| `DashboardModels.SettingsIssuesSurface` | src/app/core/models/dashboard.models.ts:86 | Rejected settings reject the configuration, and the settings issues, placed under "settings", end its issue list. |
| `DashboardModels.ItemsPerRowIssue` | src/app/core/models/dashboard.models.ts:70 | An `itemsPerRow` that is not an integer in [1, 10] rejects the settings with an issue at "itemsPerRow". |
| `DashboardModels.SettingsIssueReported` | src/app/core/models/dashboard.models.ts:86 | Every settings issue appears among the configuration's issues, under "settings". |
| `DashboardModels.ItemsPerRowOutOfRangeRejected` | src/app/core/models/dashboard.models.ts:70 | An out-of-range or fractional `itemsPerRow` rejects the configuration with an issue at "settings.itemsPerRow". |
| `YamlParser.PathText` | src/app/core/services/yaml-parser.service.ts:63 | The path of an error is the issue's path with each segment as text, in order. |
| `YamlParser.ToParseError` | src/app/core/services/yaml-parser.service.ts:62-66 | One issue becomes one parse error with the issue's message, its code, and its path segment by segment as text. |
| `YamlParser.ToParseErrors` | src/app/core/services/yaml-parser.service.ts:62-66 | There is one parse error per issue, in issue order. |
| `YamlParser.ParseYaml` | src/app/core/services/yaml-parser.service.ts:39-83 | `success` holds exactly when there is data, and exactly when there are no errors. It holds exactly when the document loaded and the schema accepts it, and the data then satisfies the schema. For a document that passes the object guard, the result is the schema's verdict as `FromChecked` converts it: its value as the data, or its issues as the errors. A failure always carries at least one error. |
| `YamlParser.FromChecked` | src/app/core/services/yaml-parser.service.ts:52-71 | A schema verdict becomes a result: accepted gives the data and no errors; rejected gives no data and the converted issues. |
| `YamlParser.NotAnObjectRejected` | src/app/core/services/yaml-parser.service.ts:44-49 | A document that is empty, a scalar or null fails with exactly one error: empty path, "YAML content is empty or invalid", no code. |
| `YamlParser.IssuesReported` | src/app/core/services/yaml-parser.service.ts:62-70 | A schema failure gives one error per issue, in order, carrying the issue's message, its code and its path with each segment as text. |
| `YamlParser.ThrowCaught` | src/app/core/services/yaml-parser.service.ts:72-81 | A loader exception becomes one error with an empty path and no code. Its message is the error's message, or "Unknown parsing error" for a thrown non-Error. |
| `YamlParser.ParseWrittenConfig` | src/app/core/services/yaml-parser.service.ts:54-59 | Parsing a written valid configuration succeeds with that configuration and no errors. |
| `YamlParser.DefaultDocumentRejected` | src/app/core/services/yaml-parser.service.ts:62-70 | Parsing the written default configuration fails with exactly one error at "applications", code "too_small". |
| `YamlParser.TooFewAppsMessage` | src/app/core/services/yaml-parser.service.ts:62-70 | That error's message is "Array must contain at least 1 element(s)". |
| `YamlParser.IsValidYaml` | src/app/core/services/yaml-parser.service.ts:117-119 | True exactly when parsing succeeds. Equivalently: the document loaded, is an object or array, and passes the schema. |
| `YamlParser.ThrowLine` | src/app/core/services/yaml-parser.service.ts:96 | The line is the path joined with ".", then ": ", then the message, and nothing else; each part can be read back. A root error's line is ": " and the message. |
| `YamlParser.ThrowLines` | src/app/core/services/yaml-parser.service.ts:96 | There is one thrown line per error, in order. |
| `YamlParser.ThrowBody` | src/app/core/services/yaml-parser.service.ts:95-97 | The text after the prefix: the error lines joined by "\n" when there are errors, and "Unknown error" when the list is missing or empty. |
| `YamlParser.OrThrow` | src/app/core/services/yaml-parser.service.ts:91-102 | It returns exactly on success, with the result's data. Otherwise it throws "Failed to parse YAML:\n" followed by one line per error joined by "\n", or by "Unknown error" when there are no errors. |
| `YamlParser.ParseYamlOrThrow` | src/app/core/services/yaml-parser.service.ts:91-102 | It returns exactly when `parseYaml` succeeds, and returns its data, which satisfies the schema. Otherwise it throws what `OrThrow` throws for the parse result: the prefix and the error lines. |
| `YamlParser.ThrownMessageListsEveryError` | src/app/core/services/yaml-parser.service.ts:95-98 | Every error's line appears in the thrown message. |
| `YamlParser.ThrownMessageLayout` | src/app/core/services/yaml-parser.service.ts:95-98 | In the thrown message, the line of error k starts after the prefix, the earlier lines and one line break each. A line break follows it unless it is the last line, which ends the message. |
| `YamlParser.ThrownLinesInOrder` | src/app/core/services/yaml-parser.service.ts:95-97 | The line of an earlier error ends, followed by its line break, before the line of a later error starts. |
| `YamlParser.ThrownMessage` | src/app/core/services/yaml-parser.service.ts:95-98 | A failure with errors throws the prefix followed by the error lines joined by "\n". |
| `YamlParser.ThrowLinesJoinNonEmpty` | src/app/core/services/yaml-parser.service.ts:95-97 | The joined error lines are empty only when there are no errors, so "Unknown error" is used exactly then. |
| `YamlParser.NotAnObjectThrows` | src/app/core/services/yaml-parser.service.ts:91-98 | An empty or scalar document throws exactly "Failed to parse YAML:\n: YAML content is empty or invalid". |
| `YamlParser.RootErrorThrown` | src/app/core/services/yaml-parser.service.ts:95-98 | A single root error throws the prefix, ": " and its message. |
| `YamlParser.FormatLine` | src/app/core/services/yaml-parser.service.ts:131-134 | The line is "  - ", the path joined with "." (or "root" when it is empty), ": " and the message. " (code)" follows exactly when the code is present and not empty; otherwise the line ends with the message. |
| `YamlParser.LinesOf` | src/app/core/services/yaml-parser.service.ts:96 | For an error with a path and a non-empty code, the thrown line is "path: message" and the diagnostic line is "  - path: message (code)". |
| `YamlParser.TooFewAppsLines` | src/app/core/services/yaml-parser.service.ts:131-134 | The shipped default's single error gives the thrown line "applications: " plus the message, and the diagnostic line "  - applications: " plus the message plus " (too_small)". |
| `YamlParser.NotAnObjectFormatted` | src/app/core/services/yaml-parser.service.ts:131-134 | A document that is not an object is diagnosed as exactly "  - root: YAML content is empty or invalid", with no code after it. |
| `YamlParser.FormatLines` | src/app/core/services/yaml-parser.service.ts:131-134 | There is one formatted line per error, in order. |
| `YamlParser.FormatErrorMessage` | src/app/core/services/yaml-parser.service.ts:126-137 | "No errors" exactly on success. Otherwise "YAML Validation Failed:\n" followed by the error lines joined by "\n", or by "  - Unknown error" when the result has no error list. |
| `YamlParser.FormattedMessageListsEveryError` | src/app/core/services/yaml-parser.service.ts:126-137 | Every error's formatted line appears in the diagnostic. |
| `YamlParser.FormattedMessageLayout` | src/app/core/services/yaml-parser.service.ts:131-136 | In the diagnostic, the line of error k starts after the heading, the earlier lines and one line break each. A line break follows it unless it is the last line, which ends the text. |
| `YamlParser.FormattedLinesInOrder` | src/app/core/services/yaml-parser.service.ts:131-136 | The diagnostic line of an earlier error ends, followed by its line break, before the line of a later error starts. |
| `YamlParser.FormattedMessage` | src/app/core/services/yaml-parser.service.ts:131-136 | A failure with an error list gives the heading followed by the error lines joined by "\n". |
| `YamlParser.CodeShownForSchemaIssues` | src/app/core/services/yaml-parser.service.ts:133 | The line for a schema issue ends in " (code)". |
| `YamlParser.GetDefaultConfig` | src/app/core/services/yaml-parser.service.ts:108-110 | The default configuration: no applications, only the "Apps" category, default settings. |
| `AppService.BookmarkAsApp` | src/app/core/services/app.service.ts:48-51 | A bookmark shown as a tile keeps every field it has (id, name, description, URL, icon, new-tab flag and tags) and is put in the "bookmarks" category. |
| `AppService.BookmarkTiles` | src/app/core/services/app.service.ts:48-51 | There is one tile per bookmark, in order. |
| `AppService.MergedApps` | src/app/core/services/app.service.ts:45-54 | The tiles are the authored applications in order, followed by tiles sorted by name. With bookmarks allowed, those tiles are the retagged bookmarks (as a multiset). Otherwise there are only the applications. |
| `AppService.MergedTailIsBookmarks` | src/app/core/services/app.service.ts:45-54 | Every tile after the applications is some bookmark, retagged "bookmarks". |
| `AppService.EveryBookmarkShown` | src/app/core/services/app.service.ts:45-54 | With bookmarks allowed, every bookmark appears among the tiles. |
| `AppService.FilterApps` | src/app/core/services/app.service.ts:171-199 | The filter returns a subsequence of its input: order kept, nothing duplicated or invented. For a query that is not blank, each tile occurs as often as among the candidates when it matches the lower-cased query, and not at all otherwise. |
| `AppService.CandidatesAreSubsequence` | src/app/core/services/app.service.ts:179-185 | The candidates of a tab are a subsequence of the tiles. |
| `AppService.Candidates` | src/app/core/services/app.service.ts:179-186 | Each tile occurs among the candidates as often as among all tiles when `searchAll` is set or the tile belongs to the tab, and not at all otherwise. |
| `AppService.SearchAllIgnoresCategory` | src/app/core/services/app.service.ts:179-180 | With `searchAll`, every tile is a candidate, whatever the tab. |
| `AppService.CategoryPartition` | src/app/core/services/app.service.ts:182-185 | Without `searchAll`, the "apps" tab has exactly the tiles outside "bookmarks", and any other tab exactly the tiles of that category. |
| `AppService.BlankQueryKeepsCandidates` | src/app/core/services/app.service.ts:188-190 | A whitespace-only query returns the candidates unchanged. |
| `AppService.QueryMatch` | src/app/core/services/app.service.ts:192-198 | For any other query, a tile is kept exactly when it is a candidate and its lower-cased name, description or a tag contains the lower-cased, untrimmed query. |
| `AppService.Matches` | src/app/core/services/app.service.ts:192-198 | The empty text is included in every text, so an empty lower-cased query matches every tile. |
| `AppService.QueryPrefixMatches` | src/app/core/services/app.service.ts:192-198 | A tile that matches a query matches every prefix of it: typing more characters never brings a tile back. |
| `AppService.FilterAppsIdempotent` | src/app/core/services/app.service.ts:171-199 | Filtering the result again with the same query and tab changes nothing. |
| `AppService.FilteredApps` | src/app/core/services/app.service.ts:86-93 | The tiles shown are a subsequence of all tiles. A blank query shows exactly the candidates of the selected tab. Any other query shows, from every tile whatever the tab, exactly those whose name, description or a tag contains it, ignoring case, each as often as it occurs among all tiles. |
| `AppService.SearchMatchesEveryTile` | src/app/core/services/app.service.ts:86-93 | A search over every tile keeps exactly the tiles that match the query. |
| `AppService.SearchBypassesTabs` | src/app/core/services/app.service.ts:86-93 | While a non-blank search is on, the selected tab does not matter. |
| `AppService.AppsTabExample` | src/app/core/services/app.service.ts:182-190 | The "apps" tab with an empty query shows the two applications and not the bookmark tile. |
| `AppService.TabCandidates` | src/app/core/services/app.service.ts:182-185 | Example shape: for the three tiles a1, a2, b1 where a1 and a2 are in the tab and b1 is not, the candidates are [a1, a2]. |
| `AppService.SearchBypassExample` | src/app/core/services/app.service.ts:86-93 | Searching a bookmark's tag from the "apps" tab finds the bookmark tile. |
| `AppService.CaseInsensitiveExample` | src/app/core/services/app.service.ts:192-198 | Queries match name, description and tags regardless of ASCII case. |
| `AppService.UntrimmedQueryExample` | src/app/core/services/app.service.ts:192 | A query with a leading space is not trimmed before matching, so " grafana" does not find "Grafana". |
| `AppService.UnmatchedTileHidden` | src/app/core/services/app.service.ts:192-198 | A tile that does not match a non-blank query is hidden. |
| `AppService.SubsequenceTransitive` | src/app/core/services/app.service.ts:171-199 | A subsequence of a subsequence is a subsequence. |
| `AppService.SubsequenceRefl` | src/app/core/services/app.service.ts:179-180 | Every sequence is a subsequence of itself. |
| `AppService.SubsequenceLength` | src/app/core/services/app.service.ts:206-208 | A subsequence is no longer than the sequence. |
| `AppService.AppService.constructor` | src/app/core/services/app.service.ts:26-31 | At first there is no configuration, the query is empty, no search is on, the "apps" tab is selected and the settings are the defaults. |
| `AppService.AppService.InitializeConfig` | src/app/core/services/app.service.ts:106-109 | The configuration and its settings are stored. Without `showAllCategory`, the first configured category is selected; otherwise the selection stays. The query is untouched. |
| `AppService.AppService.SetSearchQuery` | src/app/core/services/app.service.ts:115-118 | The query is stored as typed, a search is on exactly when it is not blank, and nothing else changes. |
| `AppService.AppService.SetSelectedCategory` | src/app/core/services/app.service.ts:124-126 | The tab is set to the id given, unchecked, and nothing else changes. |
| `AppService.AppService.Tiles` | src/app/core/services/app.service.ts:86-93 | Tiles exist exactly when a configuration does. They are the merged tiles filtered by the current query and tab, as `FilteredApps` states, so a subsequence of the merged tiles. |
| `AppService.AppService.Tabs` | src/app/core/services/app.service.ts:57-71 | Tabs exist exactly when a configuration does, and there are at least as many as configured categories. |
| `AppService.AppService.GetAppById` | src/app/core/services/app.service.ts:133-137 | Returns the first application with the id, or absent exactly when none has it or there is no configuration. |
| `AppService.AppService.GetSearchEngineById` | src/app/core/services/app.service.ts:144-148 | Returns the first configured engine with the id, or absent exactly when none has it or there is no configuration. |
| `AppService.AppService.GetAppsByCategory` | src/app/core/services/app.service.ts:155-162 | [] without a configuration, and all applications for "apps". For any other id: a subsequence of the applications holding each application of that category as often as the configuration does, and no other. |
| `AppService.AppService.GetAppCountByCategory` | src/app/core/services/app.service.ts:206-208 | 0 without a configuration, and all applications for "apps". For any other id: the number of applications of that category, as `Text.Count` counts them. Never more than the applications. |
| `SearchService.GetSearchEngineById` | src/app/core/services/search.service.ts:41-43 | Returns the first catalogue engine with the id, or absent exactly when none has it. |
| `SearchService.SearchEngines` | src/app/core/services/search.service.ts:26-29 | One entry per configured id, in order, each the lookup of that id; an unknown id stays as an absent entry. |
| `SearchService.PresentEnginesMatchIds` | src/app/core/services/search.service.ts:26-29 | A present entry is a catalogue engine with the id asked for. An entry is absent exactly when no engine has that id. |
| `SearchService.FilterApps` | src/app/core/services/search.service.ts:62-90 | The result is a subsequence of the tiles. It is the application service's filter, with `searchAll` taken as given and as false when left out. |
| `SearchService.OmittedSearchAllKeepsTab` | src/app/core/services/search.service.ts:66-89 | Without `searchAll`, every tile returned belongs to the tab. |
| `SearchService.SearchService.constructor` | src/app/core/services/search.service.ts:22-24 | The query starts empty and no search is on. |
| `SearchService.SearchService.SetSearchQuery` | src/app/core/services/search.service.ts:49-52 | The query is stored as typed, and a search is on exactly when it is not blank. |
| `CategoryService.Categories` | src/app/core/services/category.service.ts:15-29 | The tabs are sorted by name and are exactly the synthetic tabs asked for plus the configured categories, as a multiset. |
| `CategoryService.SyntheticTabsListed` | src/app/core/services/category.service.ts:19-25 | "Apps" is listed when `showAllCategory` is set, and "Bookmarks" when `allowBookmarks` is set. |
| `CategoryService.Synthetic` | src/app/core/services/category.service.ts:17-25 | "Apps" is among the synthetic tabs exactly when `showAllCategory` is set, and "Bookmarks" exactly when `allowBookmarks` is set; there is one tab per flag set, and "Apps" comes first when both are. |
| `CategoryService.ConfiguredTabsListed` | src/app/core/services/category.service.ts:27 | Every configured category is listed. |
| `CategoryService.TabCount` | src/app/core/services/category.service.ts:19-27 | The number of tabs is the number of synthetic tabs plus the number of configured categories: nothing is de-duplicated. |
| `CategoryService.CategoryService.constructor` | src/app/core/services/category.service.ts:13 | The "apps" tab is selected at first. |
| `CategoryService.CategoryService.SetSelectedCategory` | src/app/core/services/category.service.ts:36-38 | The selection becomes exactly the id given. |
| `ConfigService.Present` | src/app/core/services/config.service.ts:11 | What `config$` emits is the present values of the history, and no more of them than the history holds. |
| `ConfigService.PresentSnoc` | src/app/core/services/config.service.ts:11-19 | A new present value is emitted after everything emitted so far; an absent one emits nothing. |
| `ConfigService.ConfigService.Emitted` | src/app/core/services/config.service.ts:11 | Everything emitted was held by the subject. |
| `ConfigService.ConfigService.constructor` | src/app/core/services/config.service.ts:9 | The value starts absent and nothing has been emitted. |
| `ConfigService.ConfigService.FireNewSubject` | src/app/core/services/config.service.ts:17-19 | The configuration replaces the value and is appended to what `config$` has emitted. |
| `ConfigService.LatestWins` | src/app/core/services/config.service.ts:17-19 | After two calls the second value is held, and both were emitted in order. |
| `IconService.CacheKeyInjective` | src/app/core/services/icon.service.ts:56 | Two icons share a cache key exactly when they are the same icon. |
| `IconService.CacheKey` | src/app/core/services/icon.service.ts:56 | The key is the icon's type name, a dash and the icon's value, and each part can be read back. |
| `IconService.IconSlug` | src/app/core/services/icon.service.ts:99 | The CDN file name has no whitespace and no capital letter. A name without whitespace is only lower-cased. |
| `IconService.IconSlugIsJoin` | src/app/core/services/icon.service.ts:99 | The slug is the lower-cased name split at its whitespace runs, the pieces joined by "-". |
| `IconService.TwoWordsSlug` | src/app/core/services/icon.service.ts:99 | Two words around one whitespace character become the two lower-cased words joined by "-". |
| `IconService.HomeAssistantSlug` | src/app/core/services/icon.service.ts:99 | Example: "Home Assistant" is looked up as "home-assistant". |
| `IconService.IconSlugIdempotent` | src/app/core/services/icon.service.ts:99 | A slug is its own slug. |
| `IconService.IconFromCdn` | src/app/core/services/icon.service.ts:98-103 | The CDN URL is the dashboard-icons base, "/", the slug and ".png", and each part can be read back. |
| `IconService.InitialsIn` | src/app/core/services/icon.service.ts:163-171 | At most two initials, for any word separator. |
| `IconService.OneWordInitialsIn` | src/app/core/services/icon.service.ts:166-168 | A single word gives its first two characters, upper-cased. |
| `IconService.SeveralWordsInitialsIn` | src/app/core/services/icon.service.ts:170 | Several words give the first letter of the first word and of the last word, upper-cased. |
| `IconService.SeveralWordsAt` | src/app/core/services/icon.service.ts:164-170 | With a separator inside the trimmed text, the initials are its first character and the character right after a separator, past which no separator follows, both upper-cased. |
| `IconService.ExtractInitials` | src/app/core/services/icon.service.ts:163-171 | A name gives at most two initials. |
| `IconService.OneWordInitials` | src/app/core/services/icon.service.ts:164-168 | A trimmed name without whitespace gives its first two characters upper-cased (fewer if it is shorter). |
| `IconService.LongWordInitials` | src/app/core/services/icon.service.ts:164-168 | A word of two or more characters without whitespace gives its first two characters, upper-cased. |
| `IconService.SeveralWordsInitials` | src/app/core/services/icon.service.ts:164-170 | A trimmed name with whitespace gives two initials: its first character, and the first character of the word after the last whitespace, both upper-cased. |
| `IconService.InitialsEmptyIffBlank` | src/app/core/services/icon.service.ts:163-171 | The initials are empty exactly when the name is blank. |
| `IconService.DisplayInitials` | src/app/core/services/icon.service.ts:126 | Given initials are used when non-empty. Otherwise the name's initials are used: at most two, empty exactly for a blank name. |
| `IconService.TwoWordsInitialsIn` | src/app/core/services/icon.service.ts:163-171 | Two words joined by one separator give their first letters, upper-cased. |
| `IconService.TwoWordsInitials` | src/app/core/services/icon.service.ts:163-171 | Two space-free words joined by one whitespace give their first letters, upper-cased. |
| `IconService.GrafanaInitials` | src/app/core/services/icon.service.ts:166-168 | "Grafana" gives "GR". |
| `IconService.BlankNameInitials` | src/app/core/services/icon.service.ts:164-168 | A blank name gives empty initials. |
| `IconService.LetterIsNotSpace` | src/app/core/services/icon.service.ts:164 | No ASCII letter is whitespace. |
| `IconService.ToInt32` | src/app/core/services/icon.service.ts:181 | JavaScript's conversion to a 32-bit integer: in range, equal modulo 2^32, and the identity on the int32 range. |
| `IconService.ShiftLeft5` | src/app/core/services/icon.service.ts:181 | `x << 5` is in the int32 range and equals 32·ToInt32(x) modulo 2^32. |
| `IconService.JsRem` | src/app/core/services/icon.service.ts:184 | JavaScript's `%`: smaller in magnitude than the divisor, with the sign of the dividend, and differing from the dividend by a multiple of the divisor. |
| `IconService.Hue` | src/app/core/services/icon.service.ts:184 | The hue is a whole number in [0, 359]: the magnitude of the hash modulo 360. |
| `IconService.HslInjective` | src/app/core/services/icon.service.ts:188 | The colour text `hsl(h, 70%, 55%)` names its hue: two hues give the same text exactly when they are equal. |
| `IconService.ColorDeterminedByHue` | src/app/core/services/icon.service.ts:184-188 | Two strings get the same colour text exactly when they get the same hue. |
| `IconService.GetColorFromString` | src/app/core/services/icon.service.ts:178-189 | The loop computes the colour `hsl(h, 70%, 55%)` of the string's hash. |
| `IconService.HashStepWraps` | src/app/core/services/icon.service.ts:179-182 | Modulo 2^32, each step of the hash loop computes `31 * hash + charCode`. |
| `IconService.ShiftIsTimes32` | src/app/core/services/icon.service.ts:181 | Modulo 2^32, the 32-bit `hash << 5` equals `32 * hash`. |
| `IconService.PolynomialHashBound` | src/app/core/services/icon.service.ts:180-182 | The base-31 hash of an ASCII string is below 128·32^n. |
| `IconService.ShortAsciiHash` | src/app/core/services/icon.service.ts:180-182 | For ASCII strings of up to four characters no wrap-around happens, and the hash is the plain base-31 polynomial. |
| `IconService.Resolve` | src/app/core/services/icon.service.ts:65-77 | A "url" icon is its value. A "name" icon is the CDN URL of its value. An "initials" icon is the initials picture of the app name with the given initials. |
| `IconService.CachedUrlOrNameIsResolved` | src/app/core/services/icon.service.ts:55-82 | A cached "url" or "name" icon holds what resolving it gives, for any app name. |
| `IconService.CachedInitialsFromSomeName` | src/app/core/services/icon.service.ts:55-82 | A cached initials icon is the picture for some app name. |
| `IconService.IconService.constructor` | src/app/core/services/icon.service.ts:34 | The cache starts empty. |
| `IconService.IconService.GenerateInitialsIcon` | src/app/core/services/icon.service.ts:125-140 | The picture of the displayed initials on the name's colour. |
| `IconService.IconService.GetIconUrlFromConfig` | src/app/core/services/icon.service.ts:55-82 | On a hit the cached URL is returned and the cache is unchanged. On a miss the resolved URL is returned and stored under the key, with nothing else changed. The cache keeps agreeing with resolution. |
| `IconService.IconService.GetIconUrl` | src/app/core/services/icon.service.ts:45-47 | The same, for an application's icon and name. |
| `IconService.IconService.ClearCache` | src/app/core/services/icon.service.ts:194-196 | The cache becomes empty. |
| `IconService.FirstNameWins` | src/app/core/services/icon.service.ts:59-61 | Two apps with the same initials icon get the same picture: the one made for the first app's name. |
| `IconService.LookupAgreesWithResolve` | src/app/core/services/icon.service.ts:59-72 | For "url" and "name" icons, a repeated lookup returns what resolving gives, whatever the name. |
| `ThemeService.IsDarkMode` | src/app/core/services/theme.service.ts:135-143 | An explicit mode is dark exactly when it is "dark", ignoring the system. "auto" follows the system preference. |
| `ThemeService.Shown` | src/app/core/services/theme.service.ts:149-151 | The theme shown is dark exactly when the mode resolves to dark. |
| `ThemeService.ToggledMode` | src/app/core/services/theme.service.ts:98-113 | Never "auto". From "auto", dark exactly when the theme shown is not dark. From an explicit mode, the other explicit mode. |
| `ThemeService.ToggleTwiceRestores` | src/app/core/services/theme.service.ts:107-110 | Toggling an explicit mode twice restores it. |
| `ThemeService.ToggleFlipsShown` | src/app/core/services/theme.service.ts:98-113 | When the theme shown matches the mode, toggling always changes it. |
| `ThemeService.ThemeService.constructor` | src/app/core/services/theme.service.ts:54-66 | The stored mode is set, and the theme it resolves to is shown. |
| `ThemeService.ThemeService.IsDark` | src/app/core/services/theme.service.ts:52 | True exactly when the theme shown is dark. |
| `ThemeService.ThemeService.IsDarkModeOf` | src/app/core/services/theme.service.ts:135-143 | Resolves the mode given, or the service's own mode when none is given. |
| `ThemeService.ThemeService.ApplyTheme` | src/app/core/services/theme.service.ts:149-153 | The theme shown becomes the one the mode resolves to. The mode is untouched. |
| `ThemeService.ThemeService.SetThemeMode` | src/app/core/services/theme.service.ts:88-92 | The mode is set, and the theme shown is dark exactly when the mode is "dark", or "auto" with a dark system. |
| `ThemeService.ThemeService.ToggleTheme` | src/app/core/services/theme.service.ts:98-113 | The new mode is explicit. From "auto" it is the opposite of the theme shown; otherwise the other explicit mode. The theme shown then matches it, and changes if it matched before. |
| `ThemeService.ThemeService.ResetTheme` | src/app/core/services/theme.service.ts:196-198 | Back to "auto", showing the system preference. |
| `ThemeService.ThemeService.OnSystemChange` | src/app/core/services/theme.service.ts:74-79 | The mode never changes. In "auto" the theme shown follows the system; otherwise it stays. |
| `Text.Lower` | src/app/core/services/app.service.ts:192-197 | `toLowerCase`: the same length, each character lower-cased. |
| `Text.Upper` | src/app/core/services/icon.service.ts:167-170 | `toUpperCase`: the same length, each character upper-cased. |
| `Text.Trim` | src/app/core/services/app.service.ts:188 | `trim`: the result is a slice of the input that neither starts nor ends with whitespace, and everything cut off before and after it is whitespace. |
| `Text.TrimStart` | src/app/core/services/app.service.ts:188 | Leading whitespace only is removed: the result is a suffix, and what was removed is whitespace. |
| `Text.TrimEnd` | src/app/core/services/app.service.ts:188 | Trailing whitespace only is removed: the result is a prefix, and what was removed is whitespace. |
| `Text.BlankIffAllSpace` | src/app/core/services/app.service.ts:188 | A string trims to empty exactly when it is all whitespace. |
| `Text.TrimKeepsTrimmed` | src/app/core/services/app.service.ts:188 | A text with no whitespace at either end is its own trim. |
| `Text.SplitSpaces` | src/app/core/services/icon.service.ts:164 | `split(/\s+/)` gives at least one piece, and exactly one when there is no whitespace. |
| `Text.SplitRunsPieces` | src/app/core/services/icon.service.ts:164 | A split on runs of a character class (whitespace for `/\s+/`): no piece holds a character of the class. The first piece is the text before the first such character. The last piece is a suffix of the text; unless it is the whole text, a class character comes right before it; it is not empty when the text does not end in a class character. |
| `Text.OnePieceIffNoneIn` | src/app/core/services/icon.service.ts:164 | The split on a character class has exactly one piece when no character of the text is in the class. |
| `Text.ReplaceSpaceRuns` | src/app/core/services/icon.service.ts:99 | `replace(/\s+/g, sep)` leaves no whitespace when the separator has none and changes nothing without whitespace. Every character comes from the text or the separator. |
| `Text.ReplaceSpaceRunsIsJoin` | src/app/core/services/icon.service.ts:99 | `s.replace(/\s+/g, sep)` equals `s.split(/\s+/).join(sep)`. |
| `Text.ReplaceFromIsJoin` | src/app/core/services/icon.service.ts:99 | Replacing each run of a character class by `sep` equals splitting at the runs and joining with `sep`. |
| `Text.ReplaceRunsOneBreak` | src/app/core/services/icon.service.ts:99 | A single class character between two pieces without any is replaced by `sep`. |
| `Text.LowerKeepsNoSpace` | src/app/core/services/icon.service.ts:99 | Lower-casing a text without whitespace gives a text without whitespace. |
| `Text.LowerAround` | src/app/core/services/icon.service.ts:99 | Lower-casing goes character by character over a concatenation. |
| `Text.NatToString` | src/app/core/services/icon.service.ts:188 | The decimal text of a number: digits only, reading back to the number, and no leading zero. |
| `Text.FindIndex` | src/app/core/services/app.service.ts:133-137 | `findIndex`: the first index satisfying the test, or -1 when none does. |
| `Text.IncludesPrefix` | src/app/core/services/app.service.ts:195-197 | A text that includes a string includes every prefix of it. |
| `Text.Filter` | src/app/core/services/app.service.ts:182-185 | `filter`: no longer than the input, and only elements that pass. |
| `Text.FilterMembers` | src/app/core/services/app.service.ts:182-185 | An element is kept exactly when it is in the input and passes. |
| `Text.FilterIsSubsequence` | src/app/core/services/app.service.ts:182-185 | The filtered list is a subsequence of the input. |
| `Text.FilterIdempotent` | src/app/core/services/app.service.ts:182-185 | Filtering twice is filtering once. |
| `Text.FilterMultiplicity` | src/app/core/services/app.service.ts:182-185 | Each value occurs in the filtered list as often as in the input when it passes the test, and not at all otherwise. |
| `Text.FilterLength` | src/app/core/services/app.service.ts:206-208 | The filtered list is as long as the count of elements that pass, counted independently from the back. |
| `Text.FilterSnoc` | src/app/core/services/app.service.ts:182-185 | Filtering a list with one more element at the end adds that element exactly when it passes. |
| `Text.NameLeTotal` | src/app/core/services/category.service.ts:27 | Any two names are ordered one way or the other. |
| `Text.NameLeTransitive` | src/app/core/services/category.service.ts:27 | The name order is transitive. |
| `Text.InsertBy` | src/app/core/services/category.service.ts:27 | Inserting into a sorted list keeps it sorted and adds exactly that element. |
| `Text.SortBy` | src/app/core/services/category.service.ts:27 | `sort` by name: sorted, and a permutation of the input. |
| `Text.JoinContains` | src/app/core/services/yaml-parser.service.ts:96 | `join`: every part appears in the joined text. |
| `Text.JoinLayout` | src/app/core/services/yaml-parser.service.ts:96 | `join`: part k sits at its offset (the earlier parts plus one separator each), followed by the separator, or by the end of the text when it is the last part. |
| `Text.JoinAfterPrefix` | src/app/core/services/yaml-parser.service.ts:96 | The same layout for a prefix followed by the joined parts, shifted by the prefix length. |
| `Text.JoinOffsetStep` | src/app/core/services/yaml-parser.service.ts:96 | Each part starts one part and one separator after the one before it. |
| `Text.JoinOrder` | src/app/core/services/yaml-parser.service.ts:96 | An earlier part ends, followed by a separator, before a later part starts. |
| `Text.JoinSnoc` | src/app/core/services/yaml-parser.service.ts:96 | Joining one more part appends the separator and the part. |

## Left out

- YAML loading (js-yaml) is not modelled. Each parser operation receives what the loader produced: a document, which may be absent, or the value it threw. `yaml-loader.service.ts` and `dashboard.initializer.ts` (HTTP loading and start-up) are not part of this model.
- Zod is modelled only through the schema's own rules. Issue messages are Zod 3's defaults; the Zod version is not pinned in the files modelled. Issue order within an object follows the schema's field order.
- The URL check itself (`z.string().url()`) is a parameter, because it is a foreign library routine with no rules in the source.
- JSON numbers are `real`s. NaN, Infinity and YAML timestamps (Date values) are not modelled.
- `settings` is required by the schema (src/app/core/models/dashboard.models.ts:86), even though every field inside it has a default. `DashboardModels.MissingSettingsRejected` states that a configuration without it is rejected.
- Ids are not checked for uniqueness, because the schema does not check them either.
- `localeCompare` is replaced by code-point lexicographic order (`Text.NameLe`). The sort is the insertion sort `Text.SortBy`. Locale collation is foreign to the core.
- `toLowerCase` and `toUpperCase` map ASCII letters only. Unicode case mapping, including one-to-many mappings, is not modelled.
- String lengths and `charCodeAt` count Unicode scalar values, not UTF-16 code units. A character outside the Basic Multilingual Plane counts as one unit and has its full code.
- RxJS scheduling, `combineLatest`, `distinctUntilChanged` and subscription order are not modelled. The streams are functions of the current state (`Tiles`, `Tabs`). The `apps$` side effect, which resets the selected tab, is applied inside `AppService.AppService.InitializeConfig`. The settings subscription copies the settings there too. The console message is not modelled.
- `getDefaultConfig`'s deep copy is value semantics here: datatypes share nothing mutable.
- `Text.SortBy`: states that the result is sorted and a permutation, not that elements with equal names keep their relative order as `Array.prototype.sort` promises. The insertion it performs does keep that order, but no contract states it.
- `AppService.AppService.InitializeConfig`: requires `showAllCategory` or at least one category. When neither holds, the source reads `config.categories[0].id` from an empty array and throws a TypeError (src/app/core/services/app.service.ts:41-42). That cannot happen for the configurations it receives: the schema demands at least one category, and the default configuration has categories.
- `AppService.AppService.Tabs`: only counts the tabs; their order and content are stated by `CategoryService.Categories`, which computes the same list.
- The search service's engine catalogue constant and its `settings.searchEngines` id list are parameters of `SearchService.SearchEngines` and `SearchService.GetSearchEngineById`, because neither is defined by the configuration model.
- The SVG template and `encodeURIComponent` are a parameter `render` of the icon service: it takes the initials and the colour and returns the data URL. They are browser string templating with no stated rules.
- `getIconUrlSafe` (DomSanitizer), `getGoogleFavicon` (`new URL`), `generateDefaultIcon`, `preloadIcon` and `getIconElement` are browser APIs and are not modelled.
- The `default` branch of the icon-type switch cannot be reached once the schema has accepted the icon: the icon type is a closed datatype.
- `IconService.Hash`: JavaScript keeps `hash` as a double, and the model keeps it as an exact integer, wrapping only at each shift as JavaScript does. The two agree while the magnitude of `hash` stays below 2^53. Each step adds less than 2^32 to that magnitude, so they agree for strings of fewer than about two million characters.
- The theme service's `localStorage`, `document.documentElement` class and attribute writes, `window.matchMedia`, the storage-event stream (`themeMode$`, `isDark$`), `watchSystemTheme`, `getSystemPreference` and the plain getters are not modelled. The system preference is a boolean parameter. The stored mode, which the source reads from the settings service, is a constructor parameter.
- `settings.service.ts`, `metadata.service.ts`, `bookmark.service.ts` and the components are passthroughs or UI, and are not part of this model.
