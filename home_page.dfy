/** The home page (`src/pages/Index.tsx`): the search box that hands its
    choices to the tour list through the query string, and the featured tours. */
module HomePage {
  import opened Options
  import opened Database
  import opened QueryParams
  import ToursPage

  datatype SearchFilters = SearchFilters(departure: string, destination: string, month: string)

  /** The search box as the page first shows it. */
  const InitialSearch := SearchFilters("all", "all", "")

  /** A choice that the parameters carry: non-empty and not the `"all"` option. */
  predicate Chosen(v: string) { v != "" && v != "all" }

  /** The query `handleSearch` builds: `departure` iff a city is chosen,
      `destination` iff a destination is chosen, `month` iff a month is entered,
      each with the chosen value, and nothing else. */
  function SearchQuery(sf: SearchFilters): (q: Params)
    ensures Get(q, "departure") == if Chosen(sf.departure) then Some(sf.departure) else None
    ensures Get(q, "destination") == if Chosen(sf.destination) then Some(sf.destination) else None
    ensures Get(q, "month") == if sf.month != "" then Some(sf.month) else None
    ensures forall k :: k != "departure" && k != "destination" && k != "month" ==> Get(q, k).None?
  {
    var q0: Params := [];
    var q1 := if Chosen(sf.departure) then Set(q0, "departure", sf.departure) else q0;
    var q2 := if Chosen(sf.destination) then Set(q1, "destination", sf.destination) else q1;
    if sf.month != "" then Set(q2, "month", sf.month) else q2
  }

  /** `handleSearch`: fill a fresh parameter list by successive conditional `set` calls. */
  method HandleSearch(sf: SearchFilters) returns (params: Params)
    ensures params == SearchQuery(sf)
  {
    params := [];
    if sf.departure != "" && sf.departure != "all" {
      params := Set(params, "departure", sf.departure);
    }
    if sf.destination != "" && sf.destination != "all" {
      params := Set(params, "destination", sf.destination);
    }
    if sf.month != "" {
      params := Set(params, "month", sf.month);
    }
  }

  /** Searching from the untouched box navigates with no parameters at all. */
  lemma InitialSearchIsEmpty()
    ensures SearchQuery(InitialSearch) == []
  {
  }

  /** The hand-off: the tour list starts with the departure city and the
      destination chosen on the home page, `"all"` (or nothing) becomes the
      sentinel `"All"`, and the month is not carried over. */
  lemma SearchHandOff(sf: SearchFilters)
    ensures var q := SearchQuery(sf);
            ToursPage.InitialFilters(Get(q, "departure"), Get(q, "destination")) ==
            ToursPage.Filters("",
              if Chosen(sf.departure) then sf.departure else ToursPage.All,
              if Chosen(sf.destination) then sf.destination else ToursPage.All,
              ToursPage.All, ToursPage.All)
  {
  }

  /** `featuredTours.slice(0, 6)`: the first six tours, or all of them when fewer. */
  function Featured(tours: seq<Tour>): (r: seq<Tour>)
    ensures |r| <= 6 && |r| <= |tours|
    ensures r == tours[..|r|]
    ensures |tours| <= 6 ==> r == tours
    ensures |tours| > 6 ==> |r| == 6
  {
    if |tours| <= 6 then tours else tours[..6]
  }
}
