# AInything Workflow Optimizer: result summary and view-state controller

This project models the decision logic in the application controller `app.js` of a browser-side AI model
catalog. The controller loads a list of model descriptors and keeps three globals: the search query, the
filter settings object and the loaded catalog. Each user or URL event updates these globals and then
recomputes the displayed results. Above the results, the controller writes a heading and a count line.

The model is in six modules:

- `Wrappers`: `Option` and `Result`.
- `JsValues`: the JavaScript values a filter-settings object can hold. A settings object is a map from its
  own keys to values, so `Object.keys(o).length` is the map's size and a missing key reads as `undefined`.
  The module also gives truthiness, `typeof … === 'number'` with `<` on doubles, and `.length > 0`.
- `JsText`: `String.prototype.trim`, which removes ECMAScript white space and line terminators at both
  ends, and the decimal rendering of a count in a template literal, with its inverse.
- `ResultSummary`: `updateResultSummary`. It decides whether any filter is active and picks one of the
  four headings. It also builds the "Showing N model(s)" line. Each rendered text has a parser, and the
  lemmas prove that parsing gives back what was rendered.
- `Session`: the globals and the last output to the presentation layer, as a value. There is one
  transition function per event. All events end in the recomputation of `updateDisplayedResults`.
  Lemmas state what each event changes and what it keeps.
- `AppController`: class `Controller`. The globals are its fields, and each event handler is a method that
  updates them in place. Each method is proved to reach the state the matching `Session` function gives.

The collaborators that `app.js` calls but does not define are the fields of a `Collaborators` value:
`filterModelsBySearchQuery`, `applyAllActiveFilters` and `escapeHTML`. The model therefore proves only
the orchestration the controller performs itself. An error thrown by either filter is a `Failure` that
carries its message. Reading the filter controls (`readCurrentFilterSettings`), the search box value, the
sort select value and the parsed URL hash are all method parameters.

## Model

| member | source | states |
|---|---|---|
| `JsText.Trim` | app.js:168 | the query set on submit is the input without its surrounding ECMAScript white space, and it neither starts nor ends with white space |
| `JsText.TrimIdempotent` | app.js:177 | trimming an already trimmed query changes nothing |
| `JsText.TrimOfSurrounded` | app.js:168 | `trim` removes exactly the white space around the text and nothing inside it |
| `JsText.DecimalString` | app.js:330 | the count is rendered as non-empty decimal digits with no leading zero |
| `JsText.DecimalRoundTrip` | app.js:330 | the rendered digits denote the count |
| `JsText.DecimalInjective` | app.js:330 | different counts give different digit strings |
| `JsText.CanonicalDecimal` | app.js:330 | every digit string without a leading zero is the rendering of the number it denotes |
| `ResultSummary.HasActiveFilters` | app.js:314-319 | the definition of `hasActiveFilters` in the source's JavaScript terms; `ActiveFiltersIff` and the budget lemmas state what it means |
| `ResultSummary.ActiveFiltersIff` | app.js:314-319 | filters are active iff `freeOnly` or `freeTrials` is truthy, or a facet list is a non-empty array or string, or `maxBudget` is a number strictly below 50 |
| `ResultSummary.BudgetAloneInactive` | app.js:319 | a budget that is absent, not a number, NaN, +Infinity or at least 50 does not make the filters active on its own |
| `ResultSummary.BudgetAloneActive` | app.js:319 | a numeric budget below 50 makes the filters active |
| `ResultSummary.OtherKeysIrrelevant` | app.js:314-319 | keys other than the six filter keys, `sortBy` included, never change whether filters are active |
| `ResultSummary.EmptyFiltersInactive` | app.js:93 | the empty object passed at start-up has no active filter |
| `ResultSummary.ChooseHeading` | app.js:312-327 | exactly one of four headings: a query with active filters, a query alone, filters alone, or all models; the search headings carry the escaped query |
| `ResultSummary.HeadingText` | app.js:321-327 | the definition of the four heading texts; `HeadingRoundTrip` and `HeadingExact` are about it |
| `ResultSummary.HeadingRoundTrip` | app.js:321-327 | every heading text parses back to the heading it renders, so the four texts never coincide, whatever the escaped query is |
| `ResultSummary.HeadingExact` | app.js:321-327 | a text that parses as a heading is exactly that heading's text |
| `ResultSummary.HeadingDeterminesCase` | app.js:312-327 | equal heading texts imply the same query emptiness and the same filter activity |
| `ResultSummary.CountText` | app.js:330 | the definition of the count line; `CountTextPlural`, `CountTextRoundTrip` and `CountTextExact` are about it |
| `ResultSummary.CountTextPlural` | app.js:330 | the line reads `Showing 1 model` exactly when the count is 1, and `Showing N models` for every other count, including 0 |
| `ResultSummary.CountTextRoundTrip` | app.js:330 | the count line parses back to its count |
| `ResultSummary.CountTextExact` | app.js:330 | a text that parses to a count is exactly the line written for that count: canonical digits, `model` for one and `models` otherwise |
| `ResultSummary.Summarize` | app.js:305-331 | the heading written parses to the chosen heading, and the count line parses to the count; with `HeadingExact` and `CountTextExact` this fixes both texts exactly |
| `Session.Recompute` | app.js:267-297 | the definition of `updateDisplayedResults` on the state value; the lemmas below are about it |
| `Session.RecomputeFrame` | app.js:267-297 | recomputing keeps the query, the catalog and the view; it keeps non-empty settings, and empty settings become the controls unless the text search fails first, in which case they stay empty |
| `Session.EmptyQuerySkipsSearch` | app.js:272-283 | with an empty query the text search is not consulted, and the facet filter receives the whole catalog with the backfilled settings |
| `Session.QuerySearchesFirst` | app.js:274-283 | with a query, the facet filter receives what the text search kept; if the text search fails, the error is shown and the settings stay as they were |
| `Session.SummaryDescribesResults` | app.js:286-289 | when results are shown, the summary counts them and its heading matches the query and the settings in force |
| `Session.ErrorKeepsSummary` | app.js:291-293 | a failed recomputation shows the error and leaves the previous summary in place |
| `Session.RecomputeIdempotent` | app.js:267-297 | recomputing twice with the same controls gives the same state as recomputing once |
| `Session.SearchSubmitted` | app.js:166-180 | the definition of a search submission; `SearchSetsTrimmedQuery` is about it |
| `Session.FiltersApplied` | app.js:186-189 | the definition of apply-filters; `ApplyReplacesSettings` is about it |
| `Session.SortChanged` | app.js:195-198 | the definition of a sort change; `SortChangesOnlySortBy` and `SortKeepsActiveFilters` are about it |
| `Session.UrlProcessed` | app.js:239-262 | the definition of `processUrlParameters`; the `Url` lemmas are about it |
| `Session.DetailClosed` | app.js:204 | the definition of the back action; `DetailClosedOnlyView` is about it |
| `Session.InitialSummary` | app.js:93 | the definition of the first summary; `InitialSummaryAllModels` is about it |
| `Session.Started` | app.js:21-35 | the definition of start-up after the load; `StartWithoutHash` is about it |
| `Session.SearchSetsTrimmedQuery` | app.js:166-180 | submitting sets the query to the trimmed input and keeps the catalog, the view and non-empty settings |
| `Session.ApplyReplacesSettings` | app.js:186-189 | applying the filters sets the settings to the controls' read-out, whatever they were, and keeps the query and the catalog |
| `Session.SortChangesOnlySortBy` | app.js:195-198 | a sort change sets `sortBy`, leaves every other key and the query unchanged, and never backfills from the controls |
| `Session.SortKeepsActiveFilters` | app.js:196 | a sort change never changes whether filters count as active |
| `Session.UrlWithoutKeysChangesNothing` | app.js:240-261 | an empty hash, or empty or missing `model` and `search` values, change nothing |
| `Session.UrlModelOpensDetail` | app.js:245-249 | a non-empty `model` opens its detail view and changes nothing else, even when `search` is present |
| `Session.UrlSearchSetsQuery` | app.js:252-259 | otherwise a non-empty `search` becomes the query unchanged and the results are recomputed |
| `Session.UrlSearchUntrimmed` | app.js:166-180 | for every search text with surrounding white space, restoring it from the URL keeps the text as it is, while submitting it from the box trims it, so the two queries differ |
| `Session.UrlSearchUntrimmedExample` | app.js:252-258 | for instance, ` gpt ` from the URL stays ` gpt `, and submitted from the box it becomes `gpt` |
| `Session.DetailClosedOnlyView` | app.js:204 | going back to the results changes only the view |
| `Session.InitialSummaryAllModels` | app.js:93 | the first summary reads `All AI Models` and counts the whole catalog |
| `Session.StartWithoutHash` | app.js:21-35 | started without a hash, the facet filter runs on the whole catalog with the controls' settings and an empty query |
| `AppController.Controller.constructor` | app.js:7-9 | the globals start as an empty query and empty settings, with the loaded catalog |
| `AppController.Controller.ShowSummary` | app.js:305-331 | writes the summary for the given count, query and filters, and nothing else |
| `AppController.Controller.InitializeUIComponents` | app.js:85-94 | writes the first summary, for the catalog size, an empty query and `{}` |
| `AppController.Controller.UpdateDisplayedResults` | app.js:267-297 | the in-place recomputation reaches `Session.Recompute` of the old state |
| `AppController.Controller.SubmitSearch` | app.js:166-180 | reaches `Session.SearchSubmitted` |
| `AppController.Controller.ApplyFilters` | app.js:186-189 | reaches `Session.FiltersApplied` |
| `AppController.Controller.ChangeSort` | app.js:195-198 | assigns `sortBy` in place and reaches `Session.SortChanged` |
| `AppController.Controller.ProcessUrlParameters` | app.js:239-262 | returns early after opening a detail view and reaches `Session.UrlProcessed` |
| `AppController.Controller.HideModelDetail` | app.js:204 | reaches `Session.DetailClosed` |
| `AppController.Controller.Start` | app.js:26-35 | runs the initial summary, then the URL processing, then a recomputation, and reaches `Session.Started` |

## Left out

- Loading the catalog and the About content is asynchronous I/O (`loadAiModels`, `fetchMarkdownWithYAML`,
  app.js:14-41, 62-80). The constructor receives the loaded catalog, and a failed load is not modelled.
- The retry handler (app.js:358-367) is asynchronous reloading, so it is left out. The catalog therefore
  never changes after construction.
- DOM presentation has no statable logic and is left out: the mobile menu, the checkbox population, the
  budget slider, nav scrolling, the loading indicator and the HTML of the error state. The model keeps only
  what was handed to the presentation layer: the results, the error message, the summary and the view.
- Missing elements are not modelled. The model assumes the search input, the buttons and the summary
  elements all exist, so the early returns for missing elements (app.js:165, 167, 174, 255, 309) never fire.
- `filterModelsBySearchQuery`, `applyAllActiveFilters`, `escapeHTML`, `readCurrentFilterSettings`,
  `displaySearchResults` and the `getUnique*` facet extractors are not part of this model. The filters and the escape function are opaque parameters. Nothing is claimed
  about filtering soundness, sort order or facet semantics.
- The model assumes `readCurrentFilterSettings` returns an object, never `null`, and that the object is not
  shared with other code. So the `!currentFilterSettings` test at app.js:279 is always false in the model.
- `displayModelDetail` is modelled only as a request for the detail view of a name. Whether the name exists
  in the catalog is decided by that unseen function.
- `hideModelDetail` is modelled only as a return to the list view that changes nothing else.
- Writing the restored search into the search box (app.js:256) is presentation. The model sets the query
  to the decoded value directly, and the input element's value sanitisation is not modelled.
- URL parsing by `URLSearchParams` and the extra `decodeURIComponent` are library calls. The hash is given
  already parsed and decoded, each key mapped to its first value. A `URIError` from malformed percent
  escapes is not modelled.
- Exceptions from `displaySearchResults` or the summary writes are not modelled. Only the two filter
  functions can fail.
- Numbers are compared as reals plus NaN and the two infinities. Double rounding is not modelled. Plain
  objects used as filter values are treated as having no `length` property.
