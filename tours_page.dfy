/** The public tour list (`src/pages/Tours.tsx`): the filter criteria the page
    keeps, seeded from the query string and changed one key at a time, and the
    multi-criteria filter applied to the fetched tours. */
module ToursPage {
  import opened Options
  import opened Sequences
  import opened Strings
  import opened Database

  /** The sentinel that switches a categorical criterion off. */
  const All := "All"

  datatype Filters = Filters(
    search: string,
    departureCity: string,
    destination: string,
    tourType: string,
    month: string)

  // ------------------------------------------------------- filter state

  /** `searchParams.get(k) || "All"`: an absent or empty parameter is `"All"`. */
  function ParamOrAll(p: Option<string>): string {
    match p
    case Some(v) => if v != "" then v else All
    case None => All
  }

  /** The state the page starts with, given the `departure` and `destination`
      query parameters. */
  function InitialFilters(departure: Option<string>, destination: Option<string>): (f: Filters)
    ensures f.search == "" && f.tourType == All && f.month == All
    ensures f.departureCity == All <==> departure.None? || departure.value in {"", All}
    ensures f.departureCity != All ==> departure == Some(f.departureCity)
    ensures f.destination == All <==> destination.None? || destination.value in {"", All}
    ensures f.destination != All ==> destination == Some(f.destination)
  {
    Filters("", ParamOrAll(departure), ParamOrAll(destination), All, All)
  }

  predicate IsFilterKey(k: string) {
    k == "search" || k == "departureCity" || k == "destination" || k == "tourType" || k == "month"
  }

  /** `filters[k]`: the value stored under a key, `None` for an unknown key. */
  function Field(f: Filters, k: string): Option<string> {
    if k == "search" then Some(f.search)
    else if k == "departureCity" then Some(f.departureCity)
    else if k == "destination" then Some(f.destination)
    else if k == "tourType" then Some(f.tourType)
    else if k == "month" then Some(f.month)
    else None
  }

  /** `{ ...prev, [key]: value }`: the named criterion takes the new value and
      every other criterion keeps its old one. */
  function SetFilter(f: Filters, key: string, value: string): (g: Filters)
    ensures forall k :: Field(g, k) == if k == key && IsFilterKey(key) then Some(value) else Field(f, k)
  {
    match key
    case "search" => f.(search := value)
    case "departureCity" => f.(departureCity := value)
    case "destination" => f.(destination := value)
    case "tourType" => f.(tourType := value)
    case "month" => f.(month := value)
    case _ => f
  }

  /** The page component's filter state. */
  class Tours {
    var filters: Filters

    constructor (departure: Option<string>, destination: Option<string>)
      ensures filters == InitialFilters(departure, destination)
    {
      filters := InitialFilters(departure, destination);
    }

    /** `handleFilterChange`. */
    method HandleFilterChange(key: string, value: string)
      modifies this
      ensures filters == SetFilter(old(filters), key, value)
    {
      filters := SetFilter(filters, key, value);
    }
  }

  // ---------------------------------------------------------- the filter

  /** The callback given to `tours.filter`, with its early returns in the
      source's order; `monthOf` is the long month name of a start date. */
  predicate Keep(t: Tour, f: Filters, monthOf: string -> string): (kept: bool)
    ensures kept ==> Meets(DepartureCity, t, f, monthOf) && Meets(TourType, t, f, monthOf) && Meets(Month, t, f, monthOf)
    ensures kept ==> f.search == "" || Contains(Lower(t.title), Lower(f.search)) ||
                     Contains(Lower(t.destination), Lower(f.search)) || Contains(Lower(t.departure_city), Lower(f.search))
    ensures kept ==> f.destination == All || Contains(t.destination, f.destination)
    ensures f.search == "" && f.departureCity == All && f.destination == All && f.tourType == All && f.month == All ==> kept
  {
    if f.search != "" &&
       !Contains(Lower(t.title), Lower(f.search)) &&
       !Contains(Lower(t.destination), Lower(f.search)) &&
       !Contains(Lower(t.departure_city), Lower(f.search)) then false
    else if f.departureCity != All && t.departure_city != f.departureCity then false
    else if f.destination != All && !Contains(t.destination, f.destination) then false
    else if f.tourType != All && t.tour_type != f.tourType then false
    else if f.month != All && monthOf(t.start_date) != f.month then false
    else true
  }

  /** The five criteria of the page, each stated on its own. */
  datatype Criterion = Search | DepartureCity | Destination | TourType | Month

  /** Some slice of `s` is `p`. */
  ghost predicate Occurs(s: string, p: string) {
    exists i :: OccursAt(s, p, i)
  }

  /** Whether `t` meets criterion `c` of `f`: search is a case-insensitive
      substring of the title, destination or departure city (or empty);
      departure city and tour type are equal; the destination contains the
      criterion, case-sensitively; the month name equals the criterion; `"All"`
      switches each categorical criterion off. */
  ghost predicate Meets(c: Criterion, t: Tour, f: Filters, monthOf: string -> string) {
    match c
    case Search =>
      f.search == "" ||
      Occurs(Lower(t.title), Lower(f.search)) ||
      Occurs(Lower(t.destination), Lower(f.search)) ||
      Occurs(Lower(t.departure_city), Lower(f.search))
    case DepartureCity => f.departureCity == All || t.departure_city == f.departureCity
    case Destination => f.destination == All || Occurs(t.destination, f.destination)
    case TourType => f.tourType == All || t.tour_type == f.tourType
    case Month => f.month == All || monthOf(t.start_date) == f.month
  }

  /** `t` meets every criterion: the criteria are ANDed. */
  ghost predicate Satisfies(t: Tour, f: Filters, monthOf: string -> string) {
    forall c :: Meets(c, t, f, monthOf)
  }

  /** The early-return callback keeps a tour exactly when it meets all five criteria. */
  lemma KeepIff(t: Tour, f: Filters, monthOf: string -> string)
    ensures Keep(t, f, monthOf) <==> Satisfies(t, f, monthOf)
  {
    ContainsIff(Lower(t.title), Lower(f.search));
    ContainsIff(Lower(t.destination), Lower(f.search));
    ContainsIff(Lower(t.departure_city), Lower(f.search));
    ContainsIff(t.destination, f.destination);
    if Keep(t, f, monthOf) {
      forall c ensures Meets(c, t, f, monthOf) {
      }
    } else {
      if f.search != "" && !Meets(Search, t, f, monthOf) {
      } else if !Meets(DepartureCity, t, f, monthOf) {
      } else if !Meets(Destination, t, f, monthOf) {
      } else if !Meets(TourType, t, f, monthOf) {
      } else {
        assert !Meets(Month, t, f, monthOf);
      }
    }
  }

  /** `filteredTours`: no tours yet gives no tours; otherwise the tours that
      meet every criterion, in the fetched order, each as often as fetched. */
  function FilteredTours(tours: Option<seq<Tour>>, f: Filters, monthOf: string -> string): (r: seq<Tour>)
    ensures tours.None? ==> r == []
    ensures IsSubsequence(r, tours.GetOr([]))
    ensures forall i :: 0 <= i < |r| ==> Satisfies(r[i], f, monthOf)
    ensures forall t :: multiset(r)[t] == if Satisfies(t, f, monthOf) then multiset(tours.GetOr([]))[t] else 0
  {
    match tours
    case None => []
    case Some(ts) =>
      var r := Filter(t => Keep(t, f, monthOf), ts);
      FilterIsSubsequence(t => Keep(t, f, monthOf), ts);
      forall t ensures Keep(t, f, monthOf) <==> Satisfies(t, f, monthOf) {
        KeepIff(t, f, monthOf);
      }
      r
  }

  /** Filtering the filtered list again with the same criteria changes nothing. */
  lemma FilterTwiceIsOnce(tours: Option<seq<Tour>>, f: Filters, monthOf: string -> string)
    ensures FilteredTours(Some(FilteredTours(tours, f, monthOf)), f, monthOf) == FilteredTours(tours, f, monthOf)
  {
    if tours.Some? {
      FilterIdempotent(t => Keep(t, f, monthOf), tours.value);
    }
  }

  /** A single tour is kept iff it meets every criterion. */
  lemma SingleTourKeptIff(t: Tour, f: Filters, monthOf: string -> string)
    ensures FilteredTours(Some([t]), f, monthOf) == if Satisfies(t, f, monthOf) then [t] else []
  {
    KeepIff(t, f, monthOf);
    assert [t][1..] == [];
  }

  /** The callback judges each tour on its own: the filter of two lists
      joined is the two filtered lists joined. */
  lemma FilterConcatenation(xs: seq<Tour>, ys: seq<Tour>, f: Filters, monthOf: string -> string)
    ensures FilteredTours(Some(xs + ys), f, monthOf) ==
            FilteredTours(Some(xs), f, monthOf) + FilteredTours(Some(ys), f, monthOf)
  {
    FilterConcat(t => Keep(t, f, monthOf), xs, ys);
  }

  /** `f` with criterion `c` switched off: the sentinel `"All"`, or the empty search. */
  function Relax(f: Filters, c: Criterion): (g: Filters) {
    match c
    case Search => f.(search := "")
    case DepartureCity => f.(departureCity := All)
    case Destination => f.(destination := All)
    case TourType => f.(tourType := All)
    case Month => f.(month := All)
  }

  /** Switching a criterion off removes exactly that criterion: the full
      result is the relaxed result filtered by that criterion alone, and the
      relaxed criterion holds of every tour. */
  lemma SentinelBypass(tours: seq<Tour>, f: Filters, monthOf: string -> string, c: Criterion)
    ensures forall t :: Meets(c, t, Relax(f, c), monthOf)
    ensures FilteredTours(Some(tours), f, monthOf) ==
            Filter(t => Meets(c, t, f, monthOf), FilteredTours(Some(tours), Relax(f, c), monthOf))
  {
    var g := Relax(f, c);
    forall t ensures (Keep(t, f, monthOf) == (Keep(t, g, monthOf) && Meets(c, t, f, monthOf))) {
      KeepIff(t, f, monthOf);
      KeepIff(t, g, monthOf);
      assert forall d :: d != c ==> (Meets(d, t, f, monthOf) <==> Meets(d, t, g, monthOf));
    }
    FilterFilter(t => Meets(c, t, f, monthOf), t => Keep(t, g, monthOf), t => Keep(t, f, monthOf), tours);
  }

  /** With an empty search and every criterion `"All"` the whole list shows. */
  lemma NoCriteriaKeepsAll(tours: seq<Tour>, monthOf: string -> string)
    ensures FilteredTours(Some(tours), Filters("", All, All, All, All), monthOf) == tours
  {
    FilterOfAllKept(t => Keep(t, Filters("", All, All, All, All), monthOf), tours);
  }

  /** A tour row with only the fields the filter reads set. */
  function SampleTour(title: string, departure: string, destination: string, tourType: string, start: string): Tour {
    Tour("", None, title, None, departure, destination, tourType, start, start, 1, 0, 40, 40,
         Upcoming, "", None, None, None)
  }

  /** Two fetched tours and the destination criterion "Kerala": only the first stays. */
  lemma KeralaExample(monthOf: string -> string)
    ensures var kerala := SampleTour("Kerala Backwaters", "Raipur", "Kerala", "Beach", "2025-03-10");
            var charDham := SampleTour("Char Dham Yatra", "Durg", "Char Dham", "Pilgrimage", "2025-05-02");
            FilteredTours(Some([kerala, charDham]), Filters("", All, "Kerala", All, All), monthOf) == [kerala]
  {
    var kerala := SampleTour("Kerala Backwaters", "Raipur", "Kerala", "Beach", "2025-03-10");
    var charDham := SampleTour("Char Dham Yatra", "Durg", "Char Dham", "Pilgrimage", "2025-05-02");
    var f := Filters("", All, "Kerala", All, All);
    assert StartsWith("Kerala", "Kerala");
    assert Keep(kerala, f, monthOf);
    FirstCharAbsent("Char Dham", "Kerala");
    FilterConcatenation([kerala], [charDham], f, monthOf);
    SingleTourKeptIff(kerala, f, monthOf);
    SingleTourKeptIff(charDham, f, monthOf);
    KeepIff(kerala, f, monthOf);
    KeepIff(charDham, f, monthOf);
    assert [kerala] + [charDham] == [kerala, charDham];
  }
}
