# block_myoverviewcustom — a Dafny model of the course overview block's core

This project models the core of the Moodle block `block_myoverviewcustom`. That block is the
"Course overview" on a user's dashboard, customised from Moodle's `block_myoverview`. The model
has three parts.

- **`Lib`** (`lib.dfy`) holds the block's constants: the eight course groupings, the sort,
  view, paging and category-display values, and the table of user preferences the block
  declares. Each preference in the table has a default, its allowed choices, and whether null
  is allowed. The table includes the per-course "hidden" preference, whose name is a pattern.
- **`Output`** (`output_main.dfy`) models the block's main renderable (`main`). The class
  `Output.Main` holds the resolved grouping, sort, view, paging, layouts and display flags. Its
  constructor resolves the stored user preferences against the admin configuration.
  `ExportForTemplate` runs the custom-field check, which may replace the grouping, and builds
  the template context. The decisions are written as functions on values, and the class
  methods are proved against them:
  - the fallback grouping;
  - sort, view and paging resolution;
  - the available layouts;
  - whether the grouping selector is shown;
  - the template's sort key;
  - the preference flags;
  - the merge of defaults and preferences.
- **`TimelineClassification`** (`timeline.dfy`) models the web-service function
  `get_enrolled_courses_by_timeline_classification::execute`. It covers the steps below; the
  course fetch, the course filters, the favourites service and text cleaning are functions held
  in a `Host` value.
  - Validating the classification.
  - Choosing the exporter fields to fetch.
  - Routing to the right course fetch and course filter.
  - Flagging favourites.
  - Dropping null courses.
  - Computing the next offset.

  The module `TimelineOffsetExample` works through the documented example: five enrolled
  courses, "future" courses requested at offset 1.

`Strings` (`strings.dfy`) gives PHP string truthiness (`""` and `"0"` are false) and models
`explode`/`join` as `Split`/`Join`, with both round trips proved. `Wrappers` (`wrappers.dfy`)
holds `Option` and `Result`.

Configuration and user preferences are inputs rather than lookups:
- the plugin configuration is a `Config` value;
- `$CFG->courselistshortnames` is a boolean parameter;
- the stored preferences are the constructor's parameters.

A configuration flag is modelled as its truth value. An absent flag is false, so a stored
grouping name that does not name one of the eight groupings is never kept.

## Model

| member | source | states |
|---|---|---|
| Lib.GroupingName | lib.php:30-37 | Gives the stored name of each of the eight groupings. `ParseGrouping` and `GroupingNameInjective` state its properties. |
| Lib.ParseGrouping | lib.php:30-37 | The stored names of the eight groupings: parsing a grouping's name gives back that grouping, and a string that parses is that grouping's name. |
| Lib.GroupingNameInjective | lib.php:30-37 | Two groupings with the same stored name are the same grouping, so the eight constants are pairwise distinct. |
| Lib.UserPreferences | lib.php:81-154 | The preference table: the grouping, custom-field value, sort, view, hidden-course pattern and paging entries, each with its null rule, default and choices. The lemmas below state what it holds. |
| Lib.DefaultsAdmitted | lib.php:81-154 | Every entry of the preference table has a default that entry admits. |
| Lib.GroupingPreferenceChoices | lib.php:82-97 | The grouping preference defaults to "all" and admits exactly the eight grouping names, each listed once. |
| Lib.SortAndViewChoices | lib.php:106-128 | Sort admits title, lastaccessed and shortname and defaults to lastaccessed. View admits card, list and summary and defaults to card. |
| Lib.PagingChoices | lib.php:139-151 | Paging admits 12, 24, 48, 96 and 0 ("all") and defaults to 12. |
| Lib.HiddenCourseChoices | lib.php:130-137 | The hidden-course entry is a pattern entry that does not allow null. It admits exactly 0 and 1 and defaults to 0. |
| Lib.DecimalDigits | lib.php:130 | A course id's decimal form is a non-empty string of digits. |
| Lib.DecimalRoundTrip | lib.php:130 | Reading back the decimal digits of a course id gives back that id. |
| Lib.HiddenCourseNameMatches | lib.php:130 | The hidden-flag preference name of every course matches the table's pattern, and its digits read back as that course's id. |
| Strings.Truthy | classes/output/main.php:177 | PHP truthiness of a string: false exactly for "" and "0". The constructor, the layouts setting and the custom-field check all test strings this way. |
| Strings.Join | classes/external/get_enrolled_courses_by_timeline_classification.php:168 | `join(d, parts)`: the parts with the delimiter between neighbours. `JoinSplit` and `SplitJoin` tie it to `Split`. |
| Strings.Split | classes/output/main.php:301 | `explode` yields at least one piece, and no piece contains the delimiter. |
| Strings.JoinSplit | classes/output/main.php:301 | Joining the pieces of an `explode` with the delimiter gives back the original string. |
| Strings.SplitJoin | classes/external/get_enrolled_courses_by_timeline_classification.php:168 | Splitting a `join` of comma-free parts gives back those parts. |
| Strings.SplitNoDelimiter | classes/output/main.php:301 | A string without the delimiter explodes into itself. |
| Strings.SplitAppend | classes/output/main.php:301 | Exploding `p,rest`, where `p` has no delimiter, puts `p` in front of the pieces of `rest`. |
| Output.FallbackRank | classes/output/main.php:261-289 | Gives each grouping's position in the fallback order. |
| Output.FallbackGrouping | classes/output/main.php:261-289 | The fallback grouping is enabled. The one exception is when no grouping is enabled, and then the fallback is allincludinghidden. |
| Output.FallbackIsFirstEnabled | classes/output/main.php:261-289 | When the fallback is enabled, every grouping earlier in the order all, allincludinghidden, inprogress, future, past, favourites, hidden, customfield is disabled. So the fallback is the first enabled grouping in that order. |
| Output.NoneEnabledMeansNoGrouping | classes/output/main.php:286-288 | The test that all eight options are off holds exactly when no grouping is enabled. |
| Output.ResolveGrouping | classes/output/main.php:174-185 | A stored grouping that names an enabled grouping is kept. Otherwise the fallback is used. The result is enabled whenever any grouping is. |
| Output.ResolveSort | classes/output/main.php:191-203 | A stored sort is kept. Without one, the sort is shortname or title depending on `courselistshortnames`. Shortname becomes title when that setting is off. The result is never empty. |
| Output.ResolveSortIdempotent | classes/output/main.php:191-203 | Resolving a resolved sort again changes nothing. |
| Output.ResolvePaging | classes/output/main.php:208-214 | A stored 0 ("all") stays 0, no stored value gives 12, and any other stored value is kept. |
| Output.ResolvedPagingAdmitted | classes/output/main.php:208-214 | A page size the preference table admits, or none, resolves to a page size the table admits. Resolution is idempotent. |
| Output.AvailableLayouts | classes/output/main.php:298-305 | There is always at least one layout. |
| Output.AvailableLayoutsFromSetting | classes/output/main.php:298-305 | No layout contains a comma. A set layouts setting is exactly the layouts joined with commas. An unset or falsy setting gives only the card layout. |
| Output.ResolveView | classes/output/main.php:223-225 | A stored view is kept. Without one, the view is the first available layout. |
| Output.EffectiveView | classes/output/main.php:316-321 | The view the preferences and template use is always an available layout. It is the block's view when that is available, and the first layout otherwise. |
| Output.ResolvedViewShown | classes/output/main.php:465-472 | When the stored view is empty or available, the template shows exactly the view the constructor chose. |
| Output.CountTrue | classes/output/main.php:247 | `count(array_filter(...))` over flags is at most the number of flags. |
| Output.CountTruePositive | classes/output/main.php:247 | The count is positive exactly when some flag is true. |
| Output.CountTrueMoreThanOne | classes/output/main.php:247-248 | The count exceeds one exactly when two distinct flags are true. |
| Output.SelectorShown | classes/output/main.php:247-252 | The selector rule as written: more than one of the seven option flags counted true, or grouping by custom field. `SelectorShownWhenTwoEnabled` states what it means. |
| Output.SelectorShownWhenTwoEnabled | classes/output/main.php:238-251 | The selector shows exactly when two distinct options among the seven grouping options are enabled, or grouping by custom field is. |
| Output.TwoOfSevenWithThreeOff | classes/output/main.php:230-232 | Three options that are off (inprogress, future, past) do not change whether two options are enabled. |
| Output.SelectorCountsEnabledOptions | classes/output/main.php:228-252 | With inprogress, future, past and custom field always off, the selector shows exactly when two of the options allincludinghidden, all, favourites and hidden are enabled. |
| Output.TemplateSortKey | classes/output/main.php:458-463 | The key is "shortname" exactly for the shortname sort and "fullname" exactly for the title sort. Every other sort gives "ul.timeaccess desc". |
| Output.NoShortNameSortWhenOff | classes/output/main.php:458-463 | With `courselistshortnames` off, the template never sorts by short name. |
| Output.PreferencesAsBooleans | classes/output/main.php:312-324 | The keys are exactly the sort, the grouping's name and the effective view, and every value is true. |
| Output.FormatLayout | classes/output/main.php:334-343 | An exported layout carries its name as id and is active exactly when it is the block's view. |
| Output.FormattedLayouts | classes/output/main.php:350-353 | One exported layout per available layout, in the same order. |
| Output.ExportedLayoutsMarkView | classes/output/main.php:334-353 | The exported layouts keep the layouts' order and ids, each is active exactly when it is the view, and some layout is active exactly when the view is available. |
| Output.ValueMatches | classes/output/main.php:437 | PHP `==` between an option value and the stored custom-field value. Null equals only "". |
| Output.FirstMatch | classes/output/main.php:436-441 | Finds the first custom-field option whose value equals the selection, where null equals only "". All earlier options differ. When there is no match, every option differs. |
| Output.FindSelectedCustomField | classes/output/main.php:436-441 | The loop with `break` returns the name of the first matching option, or "" when none matches. |
| Output.SelectCustomField | classes/output/main.php:433-455 | A grouping other than customfield passes through unchanged with no selection. For customfield: (1) when the first option matching the stored value (`FirstMatch`) has a truthy name, the grouping stays, the value is kept and that option's name is selected; (2) otherwise the grouping becomes the fallback; (3) if the fallback is still customfield and there are options, the first option's name is selected and its value stored; (4) any other fallback keeps the stored value and the falsy name found ("" or "0"), so a selection "0" can come with a fallback grouping. A truthy selection (neither "" nor "0") implies the grouping is customfield and names an option matching the stored value. |
| Output.SelectionKeepsGroupingEnabled | classes/output/main.php:444-445 | The custom-field check keeps the grouping enabled whenever some grouping is enabled. |
| Output.ContextOf | classes/output/main.php:465-491 | The default variables as the keyed array the template receives: one key per variable, null for an unset custom-field value. |
| Output.MergeContext | classes/output/main.php:492 | `array_merge` of the defaults and the preferences: the keys are the union, preference keys map to true, and the other defaults are kept. |
| Output.InitialState | classes/output/main.php:169-254 | The state the constructor builds, field by field, from the resolution functions and the configuration. The lemmas below state its properties. |
| Output.InitialStateValid | classes/output/main.php:169-254 | The state the constructor builds has at least one layout, and its selector flag agrees with the enabled options. |
| Output.InitialSelector | classes/output/main.php:228-252 | In the constructed state, the selector shows exactly when two of the allincludinghidden, all, favourites and hidden options are enabled. |
| Output.InitialStateChoices | classes/output/main.php:169-254 | In the constructed state, the grouping is enabled unless none is. The sort is never shortname with `courselistshortnames` off. An empty stored view becomes an available layout. Inprogress, future, past and custom field are off. |
| Output.Main.constructor | classes/output/main.php:169-254 | The fields are exactly the state `InitialState` builds from the stored preferences, the configuration and `courselistshortnames`, so the three lemmas above hold of the object. The object satisfies `Valid`. |
| Output.Main.SetAvailableLayouts | classes/output/main.php:298-305 | Stores the layouts `AvailableLayouts` computes from the setting and changes nothing else. It keeps `Valid` when that held before. |
| Output.Main.GetPreferencesAsBooleans | classes/output/main.php:312-324 | The map built step by step is `PreferencesAsBooleans` of the current sort, grouping, view and layouts. |
| Output.Main.GetCustomfieldValuesForExport | classes/output/main.php:359-363 | With the custom-field grouping off, there are no values. Otherwise the values are what the database lookup yields. |
| Output.Main.DefaultVariables | classes/output/main.php:465-491 | The template's 24 default variables from the object's fields, the custom-field values and the selection. `ExportedViewAndDropdown` states its properties. |
| Output.Main.ExportedViewAndDropdown | classes/output/main.php:465-476 | The template's view is an available layout and one of the preference keys. The layout dropdown shows exactly when there is more than one layout. There is one exported layout per layout, and one is active when the view is available. |
| Output.Main.CheckCustomFieldSelection | classes/output/main.php:433-455 | The grouping, custom-field value and selected name after the check are those of `SelectCustomField` applied to the previous state. |
| Output.Main.ExportForTemplate | classes/output/main.php:422-493 | Keeps `Valid`. The grouping and custom-field value follow `SelectCustomField`. The context is the 24 default variables merged with the preference flags. |
| TimelineClassification.ClassificationName | classes/external/get_enrolled_courses_by_timeline_classification.php:136-157 | The name of each of the nine classifications the switch accepts. |
| TimelineClassification.ParseClassification | classes/external/get_enrolled_courses_by_timeline_classification.php:136-157 | Exactly the nine classification names are accepted, each as its own classification. |
| TimelineClassification.Intersect | classes/external/get_enrolled_courses_by_timeline_classification.php:162 | `array_intersect` keeps exactly the entries of the first list that occur in the second. |
| TimelineClassification.IntersectAll | classes/external/get_enrolled_courses_by_timeline_classification.php:162 | Intersecting with a list that contains every entry changes nothing. |
| TimelineClassification.IntersectSingle | classes/external/get_enrolled_courses_by_timeline_classification.php:162 | A single entry is kept exactly when it occurs in the second list. |
| TimelineClassification.IntersectAppend | classes/external/get_enrolled_courses_by_timeline_classification.php:162 | `array_intersect` distributes over concatenation, so it keeps the order and repetitions of the first list. |
| TimelineClassification.RequiredProperties | classes/external/get_enrolled_courses_by_timeline_classification.php:160-166 | The fetched properties are never empty and are exporter properties. They are exactly the requested ones when any requested field is an exporter property, and all exporter properties otherwise. |
| TimelineClassification.RequestAllFields | classes/external/get_enrolled_courses_by_timeline_classification.php:160-166 | Asking for every exporter property fetches all of them, in the exporter's order. |
| TimelineClassification.ExporterFieldsHaveNoComma | classes/external/course_summary_exporter.php:92-137 | No exporter property name contains a comma. |
| TimelineClassification.FetchedFieldsNonEmpty | classes/external/get_enrolled_courses_by_timeline_classification.php:160-168 | The comma-joined field list is never empty and splits back into exactly the chosen properties. |
| TimelineClassification.FetchRequestFor | classes/external/get_enrolled_courses_by_timeline_classification.php:171-210 | The fetch passes the offset, sort and fields through. Search and only search uses the search fetch, and it carries the cleaned search value. Hidden fetches only the hidden courses. Allincludinghidden excludes nothing. Every other classification excludes the hidden courses. |
| TimelineClassification.FilterRequestFor | classes/external/get_enrolled_courses_by_timeline_classification.php:225-244 | Favourites and only favourites uses the favourites filter, and customfield and only customfield uses the custom-field filter. Everything else uses the timeline filter with its classification. Each gets the request's limit. |
| TimelineClassification.FavouriteCourseIds | classes/external/get_enrolled_courses_by_timeline_classification.php:212-223 | The favourite course ids are the favourites' item ids, in order. |
| TimelineClassification.Summarise | classes/external/get_enrolled_courses_by_timeline_classification.php:252-258 | A course is flagged as favourite exactly when its id is a favourite id. |
| TimelineClassification.FormatCourses | classes/external/get_enrolled_courses_by_timeline_classification.php:247-259 | The map keeps nulls as nulls and summarises every course, position by position. |
| TimelineClassification.DropNulls | classes/external/get_enrolled_courses_by_timeline_classification.php:261-265 | The filter keeps exactly the non-null entries, is never longer than its input, and is empty for an empty input. |
| TimelineClassification.DropNullsCons | classes/external/get_enrolled_courses_by_timeline_classification.php:261-265 | Dropping nulls works entry by entry from the front: a null is dropped, a course is kept in front. |
| TimelineClassification.DropNullsAppend | classes/external/get_enrolled_courses_by_timeline_classification.php:261-265 | Dropping nulls distributes over concatenation, so the kept courses stay in order and none is merged or repeated. |
| TimelineClassification.SummariseAll | classes/external/get_enrolled_courses_by_timeline_classification.php:247-259 | Every course of a list is summarised, in order. |
| TimelineClassification.FormatThenDrop | classes/external/get_enrolled_courses_by_timeline_classification.php:247-265 | Formatting and then dropping nulls equals summarising the non-null filtered courses, in order. |
| TimelineClassification.Execute | classes/external/get_enrolled_courses_by_timeline_classification.php:102-271 | Succeeds exactly when the classification is one of the nine names. Otherwise it fails with "Invalid classification". |
| TimelineClassification.UnknownClassificationRejected | classes/external/get_enrolled_courses_by_timeline_classification.php:155-156 | An unknown classification gives the same "Invalid classification" error whatever the host, so no host service is consulted. |
| TimelineClassification.ExecuteAsWritten | classes/external/get_enrolled_courses_by_timeline_classification.php:136-157 | The endpoint as written: an unknown classification fails with a class-not-found Error for `block_myoverviewcustom\external\invalid_parameter_exception`, because the unqualified class name at line 156 resolves against the file's namespace. It fails exactly on unknown classifications and otherwise answers as `Execute`. |
| TimelineClassification.UnknownClassificationThrowsMissingClass | classes/external/get_enrolled_courses_by_timeline_classification.php:156 | For the classification "foo", the endpoint as written fails with the class-not-found Error, while the intended endpoint fails with "Invalid classification". The two answers differ. |
| TimelineClassification.ExecuteResponse | classes/external/get_enrolled_courses_by_timeline_classification.php:225-270 | An accepted request returns the courses the filter kept, without nulls and in the filter's order, each summarised against the favourite ids. The next offset is the offset plus the filter's processed count, so it never moves backwards. |
| TimelineClassification.ExecuteReturnsKeptCourses | classes/external/get_enrolled_courses_by_timeline_classification.php:212-265 | Every returned course came from the filter, and it is flagged as favourite exactly when some favourite of the user has its id. |
| TimelineOffsetExample.OffsetCountsUnfilteredCourses | classes/external/get_enrolled_courses_by_timeline_classification.php:81-90 | Take a host whose fetch at offset 1 skips c1 and whose future filter keeps c4 and c5 after looking at c2..c5. Asking it for future courses at offset 1 returns c4 and c5 and gives 5 as the next offset. |
| TimelineOffsetExample.FutureRequestFiltered | classes/external/get_enrolled_courses_by_timeline_classification.php:171-244 | For such a host, a future request at offset 1 is routed to the offset-1 fetch and the timeline filter. The filter keeps c4 and c5 and reports four processed courses. |
| TimelineOffsetExample.FiveCourseHostSkipsOne | classes/external/get_enrolled_courses_by_timeline_classification.php:81-90 | The five-course host, whose fetch skips the offset and whose filter keeps the courses from c4 on, answers a future request at offset 1 with c4, c5 and next offset 5. |
| TimelineOffsetExample.FetchSkipsOne | classes/external/get_enrolled_courses_by_timeline_classification.php:81-90 | In the example, fetching at offset 1 yields c2..c5. |
| TimelineOffsetExample.FutureFilterKeeps | classes/external/get_enrolled_courses_by_timeline_classification.php:81-90 | In the example, the filter nulls c2 and c3 and keeps c4 and c5. |
| TimelineOffsetExample.DropTwoNulls | classes/external/get_enrolled_courses_by_timeline_classification.php:261-265 | Dropping the nulls from [null, null, c4, c5] gives [c4, c5]. |
| TimelineOffsetExample.SummariseNoFavourites | classes/external/get_enrolled_courses_by_timeline_classification.php:247-259 | With no favourites, two courses are returned in order, neither flagged as favourite. |

## Left out

- Database access, `get_string` localisation and the renderer are not modelled.
  - The custom-field values that `get_customfield_values_for_export` reads from the database
    (main.php:366-411) are a parameter of `ExportForTemplate`.
  - So are the total course count, the "no courses" image URL and the new-course URL.
  - The localised `name` and `arialabel` of an exported layout are left out; `LayoutExport`
    keeps `id` and `active`.
- Output.Main.constructor: the layouts are computed in the constructor itself, with the same
  `AvailableLayouts` that `SetAvailableLayouts` stores. `SetAvailableLayouts` reads the setting
  from its parameter, not from the configuration store.
- Output.Main.constructor: the intermediate assignment of the view at main.php:206 is
  overwritten at main.php:225 and is not modelled separately.
- Output.ResolvePaging: only null and integer page sizes are modelled. PHP loose comparison of
  a non-numeric string with 0 is not modelled.
- Output.Main.ExportForTemplate: the export for the zero state (main.php:495 onward) is left
  out.
- Output.MergeContext: only string keys are modelled. A numeric preference key, which
  `array_merge` would renumber, cannot arise from the block's sort, grouping and view values.
- Output.SelectCustomField takes the option's value and the stored value as strings compared
  exactly. PHP `==` between two numeric strings compares them as numbers; that is not modelled.
- TimelineClassification.Execute:
  - Parameter validation and cleaning by the external API (`validate_parameters`,
    `validate_context`, `PARAM_*` cleaning) is left out; `clean_param` on the search value is
    the host's `cleanText`.
  - `customfieldname` is passed to the custom-field filter as received, as the source does; it
    is not among the validated parameters.
  - Three constant arguments of the course fetches are not part of `FetchRequest`:
    - the leading `0` passed to every fetch (for example, endpoint lines 173 and 192);
    - the constant `COURSE_DB_QUERY_LIMIT`;
    - the search fetch's options `['idonly' => true]` (lines 190-198).
  - The course fetches and filters of Moodle core (`course_get_enrolled_courses_for_logged_in_user`,
    its search variant and the three `course_filter_courses_by_*` functions) are
    uninterpreted host functions. The model proves what the endpoint does with their results,
    not what they compute.
  - The result's array keys are left out. PHP `array_filter` keeps the keys of the kept
    entries; the model returns a plain list.
- TimelineClassification.Execute: an unknown classification gives the intended
  `InvalidParameter("Invalid classification")` failure. As written, the `throw` at line 156 names a class
  that does not resolve in the file's namespace and raises a class-not-found Error. That behaviour is
  `ExecuteAsWritten` (see Findings).
- TimelineClassification.UnknownClassificationRejected: states the intended error, like `Execute`.
  The source as written raises the class-not-found Error instead.
- TimelineClassification.CourseSummary: the course summary exporter (course_summary_exporter.php)
  is not part of this model.
  - A returned course carries the fetched course and its favourite flag only. The exporter's
    other computed values (image, progress, category, view URL, hidden flag) are left out.
  - That exporter reads each course's hidden flag from preferences named
    `block_myoverview_hidden_course_<id>` (course_summary_exporter.php:85). The preference table
    declares `block_myoverviewcustom_hidden_course_<id>` (lib.php:130).
- The course-delete hook `block_myoverviewcustom_pre_course_delete` (lib.php:161-165) only calls
  the favourites service and is not modelled.
- The preference table's `permissioncallback` entries are not modelled.
- settings.php, the language strings, renderer.php and amd/src/main.js are outside the modelled
  core.

## Findings

| source | as written | input that shows it | evidently intended | confidence | as-written member | corrected member |
|---|---|---|---|---|---|---|
| classes/external/get_enrolled_courses_by_timeline_classification.php:156 | `throw new invalid_parameter_exception(...)` inside namespace `block_myoverviewcustom\external` (line 17). The class is not imported (lines 21-26), so the name resolves to a class that does not exist, and PHP raises a class-not-found Error. | classification "foo" | the global `\invalid_parameter_exception` with message "Invalid classification" | high; not executed | TimelineClassification.UnknownClassificationThrowsMissingClass | TimelineClassification.UnknownClassificationRejected |
