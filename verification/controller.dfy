/** The application controller: the three globals become fields, each event
    handler a method that updates them step by step, proved to end in the
    state the corresponding function of `Session` describes. */
module AppController {
  import opened Wrappers
  import opened JsValues
  import opened JsText
  import opened ResultSummary
  import opened Session

  class Controller<!M> {
    var query: string          // currentSearchQuery
    var settings: JsObject     // currentFilterSettings
    var models: seq<M>         // loadedModels
    var view: View
    var results: ResultsArea<M>
    var summary: Option<SummaryText>
    const collaborators: Collaborators<M>

    /** The whole observable state as a value. */
    function Snapshot(): State<M>
      reads this
    {
      State(query, settings, models, view, results, summary)
    }

    /** The globals right after the catalog has been loaded. */
    constructor (catalog: seq<M>, c: Collaborators<M>)
      ensures Snapshot() == Loaded(catalog) && collaborators == c
    {
      query := "";
      settings := map[];
      models := catalog;
      view := ListView;
      results := NothingShown;
      summary := None;
      collaborators := c;
    }

    /** `updateResultSummary`, given the elements exist. */
    method ShowSummary(count: nat, searchQuery: string, filters: JsObject)
      modifies this
      ensures Snapshot() == old(Snapshot()).(summary := Some(Summarize(count, searchQuery, filters, collaborators.escape)))
    {
      summary := Some(Summarize(count, searchQuery, filters, collaborators.escape));
    }

    /** `initializeUIComponents`: the first summary, before any filtering. */
    method InitializeUIComponents()
      modifies this
      ensures Snapshot() == InitialSummary(collaborators, old(Snapshot()))
    {
      ShowSummary(|models|, "", map[]);
    }

    /** `updateDisplayedResults`, with `controls` what `readCurrentFilterSettings`
        returns during this call. */
    method UpdateDisplayedResults(controls: JsObject)
      modifies this
      ensures Snapshot() == Recompute(collaborators, old(Snapshot()), controls)
    {
      var filtered := models;
      if query != "" {
        var searched := collaborators.searchFilter(filtered, query);
        if searched.Failure? {
          results := ErrorShown(FilterErrorPrefix + searched.error);
          return;
        }
        filtered := searched.value;
      }
      if |settings| == 0 {
        settings := controls;
      }
      var faceted := collaborators.facetFilter(filtered, settings);
      if faceted.Failure? {
        results := ErrorShown(FilterErrorPrefix + faceted.error);
        return;
      }
      filtered := faceted.value;
      results := ModelsShown(filtered);
      ShowSummary(|filtered|, query, settings);
    }

    /** Search button click, or Enter in the search box holding `input`. */
    method SubmitSearch(input: string, controls: JsObject)
      modifies this
      ensures Snapshot() == SearchSubmitted(collaborators, old(Snapshot()), input, controls)
    {
      query := Trim(input);
      UpdateDisplayedResults(controls);
    }

    /** Apply-filters click. */
    method ApplyFilters(controls: JsObject)
      modifies this
      ensures Snapshot() == FiltersApplied(collaborators, old(Snapshot()), controls)
    {
      settings := controls;
      UpdateDisplayedResults(controls);
    }

    /** Sort select change to `sortBy`. */
    method ChangeSort(sortBy: string, controls: JsObject)
      modifies this
      ensures Snapshot() == SortChanged(collaborators, old(Snapshot()), sortBy, controls)
    {
      settings := settings["sortBy" := Str(sortBy)];
      UpdateDisplayedResults(controls);
    }

    /** `processUrlParameters`, on load and on every hash change. */
    method ProcessUrlParameters(hash: UrlHash, controls: JsObject)
      modifies this
      ensures Snapshot() == UrlProcessed(collaborators, old(Snapshot()), hash, controls)
    {
      if hash.Hash? {
        var params := hash.params;
        if "model" in params && params["model"] != "" {
          view := DetailView(params["model"]);
          return;
        }
        if "search" in params && params["search"] != "" {
          query := params["search"];
          UpdateDisplayedResults(controls);
        }
      }
    }

    /** Back-to-results click. */
    method HideModelDetail()
      modifies this
      ensures Snapshot() == DetailClosed(old(Snapshot()))
    {
      view := ListView;
    }

    /** The rest of start-up once the catalog is loaded. */
    method Start(hash: UrlHash, controls: JsObject)
      requires Snapshot() == Loaded(models)
      modifies this
      ensures Snapshot() == Started(collaborators, old(models), hash, controls)
    {
      InitializeUIComponents();
      ProcessUrlParameters(hash, controls);
      UpdateDisplayedResults(controls);
    }
  }
}
