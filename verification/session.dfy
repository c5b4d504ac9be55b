/** The controller's session state as a value, and one function per event
    that changes it: search submission, applying the filters, changing the
    sort order, processing the URL hash, leaving the detail view, and the
    recomputation every one of them ends with. */
module Session {
  import opened Wrappers
  import opened JsValues
  import opened JsText
  import opened ResultSummary

  /** The functions the controller calls but that are defined elsewhere in
      the application. They are total; a thrown error is a `Failure`
      carrying the error's message. */
  datatype Collaborators<!M> = Collaborators(
    searchFilter: (seq<M>, string) -> Result<seq<M>, string>,
    facetFilter: (seq<M>, JsObject) -> Result<seq<M>, string>,
    escape: string -> string)

  /** The list of results, or the detail view requested for a model name. */
  datatype View = ListView | DetailView(modelName: string)

  /** What the results grid was last asked to show. */
  datatype ResultsArea<M> = NothingShown | ModelsShown(models: seq<M>) | ErrorShown(message: string)

  /** The three globals (`currentSearchQuery`, `currentFilterSettings`,
      `loadedModels`) and what was last handed to the presentation layer. */
  datatype State<M> = State(
    query: string,
    settings: JsObject,
    models: seq<M>,
    view: View,
    results: ResultsArea<M>,
    summary: Option<SummaryText>)

  /** `window.location.hash`: empty, or the fragment's parameters, each key
      mapped to its first value, already percent-decoded. */
  datatype UrlHash = NoHash | Hash(params: map<string, string>)

  const FilterErrorPrefix: string := "Error filtering results: "

  /** The globals once the catalog has been loaded. */
  function Loaded<M>(catalog: seq<M>): State<M> {
    State("", map[], catalog, ListView, NothingShown, None)
  }

  /** The summary shown as soon as the controls are built: the catalog size,
      an empty query and the empty filter object `{}`. */
  function InitialSummary<M>(c: Collaborators<M>, s: State<M>): State<M> {
    s.(summary := Some(Summarize(|s.models|, "", map[], c.escape)))
  }

  /** The settings the facet filter runs with: empty settings are replaced
      by what the controls currently read. */
  function Backfilled(settings: JsObject, controls: JsObject): JsObject {
    if |settings| == 0 then controls else settings
  }

  /** `updateDisplayedResults`: the text search runs only for a non-empty
      query, then the settings are backfilled, then the facet filter runs;
      either filter failing shows the error and skips the summary. */
  function Recompute<M>(c: Collaborators<M>, s: State<M>, controls: JsObject): State<M> {
    var searched := if s.query != "" then c.searchFilter(s.models, s.query) else Success(s.models);
    if searched.Failure? then
      s.(results := ErrorShown(FilterErrorPrefix + searched.error))
    else
      var settings := Backfilled(s.settings, controls);
      var filtered := c.facetFilter(searched.value, settings);
      if filtered.Failure? then
        s.(settings := settings, results := ErrorShown(FilterErrorPrefix + filtered.error))
      else
        s.(settings := settings, results := ModelsShown(filtered.value),
           summary := Some(Summarize(|filtered.value|, s.query, settings, c.escape)))
  }

  /** Search button click or Enter in the search box. */
  function SearchSubmitted<M>(c: Collaborators<M>, s: State<M>, input: string, controls: JsObject): State<M> {
    Recompute(c, s.(query := Trim(input)), controls)
  }

  /** Apply-filters click: the settings are replaced by a fresh read-out. */
  function FiltersApplied<M>(c: Collaborators<M>, s: State<M>, controls: JsObject): State<M> {
    Recompute(c, s.(settings := controls), controls)
  }

  /** Sort select change: only `sortBy` of the current settings is assigned. */
  function SortChanged<M>(c: Collaborators<M>, s: State<M>, sortBy: string, controls: JsObject): State<M> {
    Recompute(c, s.(settings := s.settings["sortBy" := Str(sortBy)]), controls)
  }

  /** `processUrlParameters`: a non-empty `model` opens its detail view and
      ends there; otherwise a non-empty `search` becomes the query as it is. */
  function UrlProcessed<M>(c: Collaborators<M>, s: State<M>, hash: UrlHash, controls: JsObject): State<M> {
    match hash
    case NoHash => s
    case Hash(params) =>
      if "model" in params && params["model"] != "" then
        s.(view := DetailView(params["model"]))
      else if "search" in params && params["search"] != "" then
        Recompute(c, s.(query := params["search"]), controls)
      else
        s
  }

  /** Back-to-results click. */
  function DetailClosed<M>(s: State<M>): State<M> {
    s.(view := ListView)
  }

  /** Start-up after a successful load: the initial summary, then the URL
      hash, then a first recomputation. */
  function Started<M>(c: Collaborators<M>, catalog: seq<M>, hash: UrlHash, controls: JsObject): State<M> {
    Recompute(c, UrlProcessed(c, InitialSummary(c, Loaded(catalog)), hash, controls), controls)
  }

  // ---------------------------------------------------------------------
  // Properties of the recomputation

  /** Recomputing never touches the query, the catalog or the view; the
      settings are kept unless they were empty, and then become the controls. */
  lemma RecomputeFrame<M>(c: Collaborators<M>, s: State<M>, controls: JsObject)
    ensures var s' := Recompute(c, s, controls);
      && s'.query == s.query && s'.models == s.models && s'.view == s.view
      && (|s.settings| != 0 ==> s'.settings == s.settings)
      && (s'.settings == s.settings || s'.settings == controls)
  {
  }

  /** With an empty query the text search is not consulted at all: the facet
      filter receives the whole catalog, and any other search function gives
      the same state. */
  lemma EmptyQuerySkipsSearch<M>(c: Collaborators<M>, s: State<M>, controls: JsObject,
                                 other: (seq<M>, string) -> Result<seq<M>, string>)
    requires s.query == ""
    ensures Recompute(c, s, controls) == Recompute(c.(searchFilter := other), s, controls)
    ensures var s' := Recompute(c, s, controls);
      && s'.settings == Backfilled(s.settings, controls)
      && match c.facetFilter(s.models, s'.settings)
         case Success(shown) => s'.results == ModelsShown(shown)
         case Failure(e) => s'.results == ErrorShown(FilterErrorPrefix + e)
  {
  }

  /** With a non-empty query the facet filter receives what the text search
      kept; if the text search fails, the settings are not backfilled. */
  lemma QuerySearchesFirst<M>(c: Collaborators<M>, s: State<M>, controls: JsObject)
    requires s.query != ""
    ensures var s' := Recompute(c, s, controls);
      match c.searchFilter(s.models, s.query)
      case Failure(e) => s' == s.(results := ErrorShown(FilterErrorPrefix + e))
      case Success(kept) =>
        && s'.settings == Backfilled(s.settings, controls)
        && match c.facetFilter(kept, s'.settings)
           case Success(shown) => s'.results == ModelsShown(shown)
           case Failure(e) => s'.results == ErrorShown(FilterErrorPrefix + e)
  {
  }

  /** Whenever results are shown, the summary beside them states their number,
      whether there is a query and whether the filters in force are active. */
  lemma SummaryDescribesResults<M>(c: Collaborators<M>, s: State<M>, controls: JsObject)
    ensures var s' := Recompute(c, s, controls);
      s'.results.ModelsShown? ==>
        && s'.summary.Some?
        && ParseCountText(s'.summary.value.countText) == Some(|s'.results.models|)
        && ParseHeading(s'.summary.value.heading) == Some(ChooseHeading(s.query, s'.settings, c.escape))
  {
  }

  /** A failed recomputation leaves the previous summary in place. */
  lemma ErrorKeepsSummary<M>(c: Collaborators<M>, s: State<M>, controls: JsObject)
    ensures var s' := Recompute(c, s, controls);
      s'.results.ErrorShown? ==> s'.summary == s.summary
  {
  }

  /** Recomputing twice with the same controls gives the same state as once. */
  lemma RecomputeIdempotent<M>(c: Collaborators<M>, s: State<M>, controls: JsObject)
    ensures Recompute(c, Recompute(c, s, controls), controls) == Recompute(c, s, controls)
  {
  }

  // ---------------------------------------------------------------------
  // Properties of the events

  /** Submitting a search sets the query to the trimmed input, which has no
      surrounding whitespace; the catalog is kept, and so are non-empty settings. */
  lemma SearchSetsTrimmedQuery<M>(c: Collaborators<M>, s: State<M>, input: string, controls: JsObject)
    ensures var s' := SearchSubmitted(c, s, input, controls);
      && s'.query == Trim(input)
      && Trim(s'.query) == s'.query
      && s'.models == s.models && s'.view == s.view
      && (|s.settings| != 0 ==> s'.settings == s.settings)
  {
    TrimIdempotent(input);
    RecomputeFrame(c, s.(query := Trim(input)), controls);
  }

  /** Applying the filters replaces the settings wholesale by the read-out,
      whatever they were and whatever the filters do. */
  lemma ApplyReplacesSettings<M>(c: Collaborators<M>, s: State<M>, controls: JsObject)
    ensures var s' := FiltersApplied(c, s, controls);
      && s'.settings == controls
      && s'.query == s.query && s'.models == s.models && s'.view == s.view
  {
  }

  /** A sort change assigns `sortBy` and nothing else: every other key keeps
      its value, the query is kept, and the controls are never read because
      the settings now have a key. */
  lemma SortChangesOnlySortBy<M>(c: Collaborators<M>, s: State<M>, sortBy: string, controls: JsObject)
    ensures var s' := SortChanged(c, s, sortBy, controls);
      && Get(s'.settings, "sortBy") == Str(sortBy)
      && (forall key :: key != "sortBy" ==> Get(s'.settings, key) == Get(s.settings, key))
      && s'.settings.Keys == s.settings.Keys + {"sortBy"}
      && s'.query == s.query && s'.models == s.models
  {
  }

  /** A sort change never alters whether filters count as active. */
  lemma SortKeepsActiveFilters<M>(c: Collaborators<M>, s: State<M>, sortBy: string, controls: JsObject)
    ensures HasActiveFilters(SortChanged(c, s, sortBy, controls).settings) == HasActiveFilters(s.settings)
  {
    OtherKeysIrrelevant(s.settings, "sortBy", Str(sortBy));
  }

  /** An empty hash, or one whose `model` and `search` are both missing or
      empty, changes nothing. */
  lemma UrlWithoutKeysChangesNothing<M>(c: Collaborators<M>, s: State<M>, hash: UrlHash, controls: JsObject)
    requires hash.Hash? ==>
      && ("model" !in hash.params || hash.params["model"] == "")
      && ("search" !in hash.params || hash.params["search"] == "")
    ensures UrlProcessed(c, s, hash, controls) == s
  {
  }

  /** A non-empty `model` opens that model's detail view and changes nothing
      else, even when a `search` value is present. */
  lemma UrlModelOpensDetail<M>(c: Collaborators<M>, s: State<M>, params: map<string, string>, controls: JsObject)
    requires "model" in params && params["model"] != ""
    ensures UrlProcessed(c, s, Hash(params), controls) == s.(view := DetailView(params["model"]))
  {
  }

  /** Otherwise a non-empty `search` becomes the query exactly, untrimmed, and
      the results are recomputed. */
  lemma UrlSearchSetsQuery<M>(c: Collaborators<M>, s: State<M>, params: map<string, string>, controls: JsObject)
    requires "model" !in params || params["model"] == ""
    requires "search" in params && params["search"] != ""
    ensures var s' := UrlProcessed(c, s, Hash(params), controls);
      && s'.query == params["search"]
      && s' == Recompute(c, s.(query := params["search"]), controls)
  {
    RecomputeFrame(c, s.(query := params["search"]), controls);
  }

  /** The two routes into the query differ: any search text with surrounding
      white space keeps it when restored from the URL, while the same text
      submitted from the search box is trimmed. */
  lemma UrlSearchUntrimmed<M>(c: Collaborators<M>, s: State<M>, t: string, controls: JsObject)
    requires t != "" && Trim(t) != t
    ensures UrlProcessed(c, s, Hash(map["search" := t]), controls).query == t
    ensures SearchSubmitted(c, s, t, controls).query == Trim(t)
    ensures UrlProcessed(c, s, Hash(map["search" := t]), controls).query
         != SearchSubmitted(c, s, t, controls).query
  {
    UrlSearchSetsQuery(c, s, map["search" := t], controls);
    SearchSetsTrimmedQuery(c, s, t, controls);
  }

  /** For instance, " gpt " from the URL stays " gpt ", submitted it becomes "gpt". */
  lemma UrlSearchUntrimmedExample<M>(c: Collaborators<M>, s: State<M>, controls: JsObject)
    ensures UrlProcessed(c, s, Hash(map["search" := " gpt "]), controls).query == " gpt "
    ensures SearchSubmitted(c, s, " gpt ", controls).query == "gpt"
  {
    assert " gpt " == " " + "gpt" + " ";
    TrimOfSurrounded(" ", "gpt", " ");
    UrlSearchUntrimmed(c, s, " gpt ", controls);
  }

  /** Leaving the detail view returns to the list and changes nothing else. */
  lemma DetailClosedOnlyView<M>(s: State<M>)
    ensures DetailClosed(s).view == ListView
    ensures DetailClosed(s).(view := s.view) == s
  {
  }

  /** The first summary reads "All AI Models" and counts the whole catalog. */
  lemma InitialSummaryAllModels<M>(c: Collaborators<M>, catalog: seq<M>)
    ensures var s := InitialSummary(c, Loaded(catalog));
      && s.summary.Some?
      && s.summary.value.heading == "All AI Models"
      && ParseCountText(s.summary.value.countText) == Some(|catalog|)
  {
    EmptyFiltersInactive();
    var h := ChooseHeading("", map[], c.escape);
    assert h == AllModels;
  }

  /** Started without a hash, the first recomputation runs the facet filter
      on the whole catalog with the controls' settings. */
  lemma StartWithoutHash<M>(c: Collaborators<M>, catalog: seq<M>, controls: JsObject)
    ensures var s := Started(c, catalog, NoHash, controls);
      && s.query == "" && s.settings == controls && s.models == catalog && s.view == ListView
      && match c.facetFilter(catalog, controls)
         case Success(shown) => s.results == ModelsShown(shown)
         case Failure(e) => s.results == ErrorShown(FilterErrorPrefix + e)
  {
  }
}
