/** The result summary above the result grid: whether any filter is active,
    which of the four headings to show, and the "Showing N model(s)" line. */
module ResultSummary {
  import opened Wrappers
  import opened JsValues
  import opened JsText

  /** `filters.key && filters.key.length > 0` for one facet list. */
  predicate FacetSelected(filters: JsObject, key: string) {
    var v := Get(filters, key);
    Truthy(v) && LengthAboveZero(v)
  }

  /** `typeof filters.maxBudget === 'number' && filters.maxBudget < 50`. */
  predicate BudgetCapped(filters: JsObject) {
    var v := Get(filters, "maxBudget");
    v.Number? && NumberBelow(v.n, 50.0)
  }

  /** The disjunction `hasActiveFilters` of the summary, in the source's order. */
  predicate HasActiveFilters(filters: JsObject) {
    || Truthy(Get(filters, "freeOnly"))
    || Truthy(Get(filters, "freeTrials"))
    || FacetSelected(filters, "capabilities")
    || FacetSelected(filters, "inputTypes")
    || FacetSelected(filters, "outputTypes")
    || BudgetCapped(filters)
  }

  /** A facet list counts when it is a non-empty array or a non-empty string. */
  predicate NonEmptyList(v: JsValue) {
    (v.Array? && v.items != []) || (v.Str? && v.s != "")
  }

  /** A budget caps when it is a number strictly below 50 (minus infinity included). */
  predicate NumberBelowFifty(v: JsValue) {
    || (v.Number? && v.n.Finite? && v.n.value < 50.0)
    || v == Number(NegativeInfinity)
  }

  /** Filters are active exactly when one of the two flags is set, one of the
      three facet lists is present and non-empty, or the budget is a number
      strictly below 50. */
  lemma ActiveFiltersIff(filters: JsObject)
    ensures HasActiveFilters(filters) <==>
      || Truthy(Get(filters, "freeOnly"))
      || Truthy(Get(filters, "freeTrials"))
      || NonEmptyList(Get(filters, "capabilities"))
      || NonEmptyList(Get(filters, "inputTypes"))
      || NonEmptyList(Get(filters, "outputTypes"))
      || NumberBelowFifty(Get(filters, "maxBudget"))
  {
  }

  /** A budget that is absent, not a number, NaN, or at least 50 never makes
      the filters active on its own. */
  lemma BudgetAloneInactive(filters: JsObject, budget: JsValue)
    requires forall key :: key in filters ==> key == "maxBudget"
    requires !budget.Number? || budget.n.NaN? || budget.n == PositiveInfinity
          || (budget.n.Finite? && budget.n.value >= 50.0)
    ensures !HasActiveFilters(filters["maxBudget" := budget])
  {
  }

  /** With nothing else set, a numeric budget below 50 does make them active. */
  lemma BudgetAloneActive(filters: JsObject, x: real)
    requires x < 50.0
    ensures HasActiveFilters(filters["maxBudget" := Number(Finite(x))])
  {
  }

  /** Only the six filter keys matter: `sortBy` or any other key never does. */
  lemma OtherKeysIrrelevant(filters: JsObject, key: string, v: JsValue)
    requires key !in {"freeOnly", "freeTrials", "capabilities", "inputTypes", "outputTypes", "maxBudget"}
    ensures HasActiveFilters(filters[key := v]) <==> HasActiveFilters(filters)
  {
  }

  /** The empty object `{}` passed by the initial summary has no active filter. */
  lemma EmptyFiltersInactive()
    ensures !HasActiveFilters(map[])
  {
  }

  /** The four headings; the search variants carry the already escaped query. */
  datatype Heading =
    | AllModels
    | FilteredModels
    | ResultsFor(escapedQuery: string, withFilters: bool)

  /** The heading choice: a non-empty query wins, with or without the
      "with filters" suffix; without a query, active filters give the
      filtered heading and otherwise all models are shown. */
  function ChooseHeading(query: string, filters: JsObject, escape: string -> string): (h: Heading)
    ensures h == AllModels <==> query == "" && !HasActiveFilters(filters)
    ensures h == FilteredModels <==> query == "" && HasActiveFilters(filters)
    ensures h.ResultsFor? <==> query != ""
    ensures h.ResultsFor? ==> h.escapedQuery == escape(query) && (h.withFilters <==> HasActiveFilters(filters))
  {
    if query != "" && HasActiveFilters(filters) then ResultsFor(escape(query), true)
    else if query != "" then ResultsFor(escape(query), false)
    else if HasActiveFilters(filters) then FilteredModels
    else AllModels
  }

  const ResultsPrefix: string := "Results for \""
  const WithFiltersSuffix: string := "\" with filters"

  function HeadingText(h: Heading): string {
    match h
    case AllModels => "All AI Models"
    case FilteredModels => "Filtered AI Models"
    case ResultsFor(q, withFilters) =>
      if withFilters then ResultsPrefix + q + WithFiltersSuffix else ResultsPrefix + q + "\""
  }

  /** Reads a heading text back into the case it shows. */
  function ParseHeading(t: string): Option<Heading> {
    var p := |ResultsPrefix|;
    if t == "All AI Models" then Some(AllModels)
    else if t == "Filtered AI Models" then Some(FilteredModels)
    else if |t| >= p + |WithFiltersSuffix| && t[..p] == ResultsPrefix
         && t[|t| - |WithFiltersSuffix|..] == WithFiltersSuffix then
      Some(ResultsFor(t[p..|t| - |WithFiltersSuffix|], true))
    else if |t| >= p + 1 && t[..p] == ResultsPrefix && t[|t| - 1] == '"' then
      Some(ResultsFor(t[p..|t| - 1], false))
    else None
  }

  /** Every heading text is read back as the heading it renders, so the four
      texts never coincide, whatever the escaped query contains. */
  lemma HeadingRoundTrip(h: Heading)
    ensures ParseHeading(HeadingText(h)) == Some(h)
  {
    var t := HeadingText(h);
    var p := |ResultsPrefix|;
    if h.ResultsFor? {
      assert t[0] == 'R';
      assert t[..p] == ResultsPrefix;
      if h.withFilters {
        assert t[|t| - |WithFiltersSuffix|..] == WithFiltersSuffix;
        assert t[p..|t| - |WithFiltersSuffix|] == h.escapedQuery;
      } else {
        assert t[|t| - 1] == '"';
        assert t[p..|t| - 1] == h.escapedQuery;
      }
    }
  }

  /** Two summaries with the same heading text agree on whether there was
      a query and on whether filters were active. */
  lemma HeadingDeterminesCase(q1: string, f1: JsObject, q2: string, f2: JsObject, escape: string -> string)
    requires HeadingText(ChooseHeading(q1, f1, escape)) == HeadingText(ChooseHeading(q2, f2, escape))
    ensures (q1 == "") == (q2 == "")
    ensures HasActiveFilters(f1) == HasActiveFilters(f2)
  {
    HeadingRoundTrip(ChooseHeading(q1, f1, escape));
    HeadingRoundTrip(ChooseHeading(q2, f2, escape));
  }

  const CountPrefix: string := "Showing "

  /** `Showing ${count} model${count !== 1 ? 's' : ''}`. */
  function CountText(count: nat): string {
    CountPrefix + DecimalString(count) + " model" + (if count != 1 then "s" else "")
  }

  /** Reads the count back from a count line, accepting only what the
      template writes: canonical digits, " model" for one and " models" for
      every other count. */
  function ParseCountText(t: string): Option<nat> {
    var p := |CountPrefix|;
    if |t| < p || t[..p] != CountPrefix then None
    else
      var rest := t[p..];
      if |rest| >= 7 && rest[|rest| - 7..] == " models" then
        var d := rest[..|rest| - 7];
        if CanonicalDigits(d) && DecimalValue(d) != 1 then Some(DecimalValue(d)) else None
      else if |rest| >= 6 && rest[|rest| - 6..] == " model" then
        var d := rest[..|rest| - 6];
        if CanonicalDigits(d) && DecimalValue(d) == 1 then Some(1) else None
      else None
  }

  /** The singular form appears exactly for one model; every other count,
      zero included, takes the plural. */
  lemma CountTextPlural(count: nat)
    ensures CountText(count) == "Showing 1 model" <==> count == 1
    ensures count != 1 ==> CountText(count) == "Showing " + DecimalString(count) + " models"
  {
    var t := CountText(count);
    if count != 1 {
      assert t[|t| - 1] == 's';
    }
  }

  /** The count line states the count it was built from. */
  lemma CountTextRoundTrip(count: nat)
    ensures ParseCountText(CountText(count)) == Some(count)
  {
    var d := DecimalString(count);
    var t := CountText(count);
    var rest := t[|CountPrefix|..];
    assert t[..|CountPrefix|] == CountPrefix;
    if count != 1 {
      assert rest == d + " models";
      assert rest[|rest| - 7..] == " models";
      assert rest[..|rest| - 7] == d;
    } else {
      assert rest == "1 model";
    }
    DecimalRoundTrip(count);
  }

  /** The only text read back as a count is the line written for that count,
      so a count line that parses is exactly the source's text. */
  lemma CountTextExact(t: string, count: nat)
    requires ParseCountText(t) == Some(count)
    ensures t == CountText(count)
  {
    var p := |CountPrefix|;
    var rest := t[p..];
    assert t == CountPrefix + rest;
    if |rest| >= 7 && rest[|rest| - 7..] == " models" {
      var d := rest[..|rest| - 7];
      CanonicalDecimal(d);
      assert rest == d + " models";
    } else {
      var d := rest[..|rest| - 6];
      CanonicalDecimal(d);
      assert rest == d + " model";
    }
  }

  /** The only text read back as a heading is the text of that heading. */
  lemma HeadingExact(t: string, h: Heading)
    requires ParseHeading(t) == Some(h)
    ensures t == HeadingText(h)
  {
    var p := |ResultsPrefix|;
    if h.ResultsFor? {
      if h.withFilters {
        assert t == t[..p] + t[p..|t| - |WithFiltersSuffix|] + t[|t| - |WithFiltersSuffix|..];
      } else {
        assert t == t[..p] + t[p..|t| - 1] + [t[|t| - 1]];
      }
    }
  }

  /** The two texts `updateResultSummary` writes. */
  datatype SummaryText = SummaryText(heading: string, countText: string)

  /** The summary for `count` shown results: its heading reads back as the
      heading chosen for the query and filters, its count line as `count`. */
  function Summarize(count: nat, query: string, filters: JsObject, escape: string -> string): (r: SummaryText)
    ensures ParseHeading(r.heading) == Some(ChooseHeading(query, filters, escape))
    ensures ParseCountText(r.countText) == Some(count)
  {
    HeadingRoundTrip(ChooseHeading(query, filters, escape));
    CountTextRoundTrip(count);
    SummaryText(HeadingText(ChooseHeading(query, filters, escape)), CountText(count))
  }
}
