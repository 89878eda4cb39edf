/** The tour detail page (`src/pages/TourDetails.tsx`): which screen shows,
    the itinerary sorted in place by day, the hero image and the operator's
    WhatsApp link. */
module TourDetailsPage {
  import opened Options
  import opened Sequences
  import opened Strings
  import opened Database
  import WhatsApp

  // ------------------------------------------------------------ screens

  datatype Screen = Spinner | NotFound | Details(tour: Tour)

  /** Loading wins over everything; then an error or a missing row is "not found". */
  function ScreenFor(isLoading: bool, failed: bool, tour: Option<Tour>): (s: Screen)
    ensures s.Spinner? <==> isLoading
    ensures s.NotFound? <==> !isLoading && (failed || tour.None?)
    ensures s.Details? ==> tour == Some(s.tour)
  {
    if isLoading then Spinner
    else if failed || tour.None? then NotFound
    else Details(tour.value)
  }

  // ---------------------------------------------------------- itinerary

  predicate SortedByDay(s: seq<TourItinerary>) {
    forall i, j :: 0 <= i < j < |s| ==> s[i].day_number <= s[j].day_number
  }

  /** No entry of `s` is later than day `d`. */
  predicate NoLaterThan(s: seq<TourItinerary>, d: int) {
    forall i :: 0 <= i < |s| ==> s[i].day_number <= d
  }

  /** Place `x` after the last entry whose day is not later than its own,
      scanning from the back: the step of a stable insertion sort. */
  function InsertByDay(s: seq<TourItinerary>, x: TourItinerary): (r: seq<TourItinerary>)
    ensures |r| == |s| + 1
  {
    if s == [] || s[|s| - 1].day_number <= x.day_number then s + [x]
    else InsertByDay(s[..|s| - 1], x) + [s[|s| - 1]]
  }

  lemma {:induction false} InsertByDayPermutes(s: seq<TourItinerary>, x: TourItinerary)
    ensures multiset(InsertByDay(s, x)) == multiset(s) + multiset{x}
  {
    if !(s == [] || s[|s| - 1].day_number <= x.day_number) {
      var init, last := s[..|s| - 1], s[|s| - 1];
      assert s == init + [last];
      InsertByDayPermutes(init, x);
    }
  }

  lemma {:induction false} InsertByDayNoLater(s: seq<TourItinerary>, x: TourItinerary, d: int)
    requires NoLaterThan(s, d) && x.day_number <= d
    ensures NoLaterThan(InsertByDay(s, x), d)
  {
    if !(s == [] || s[|s| - 1].day_number <= x.day_number) {
      InsertByDayNoLater(s[..|s| - 1], x, d);
    }
  }

  lemma {:induction false} InsertByDaySorted(s: seq<TourItinerary>, x: TourItinerary)
    requires SortedByDay(s)
    ensures SortedByDay(InsertByDay(s, x))
  {
    if !(s == [] || s[|s| - 1].day_number <= x.day_number) {
      var init, last := s[..|s| - 1], s[|s| - 1];
      InsertByDaySorted(init, x);
      InsertByDayNoLater(init, x, last.day_number);
    }
  }

  /** The itinerary ordered by day, equal days kept in fetched order. */
  function SortByDay(s: seq<TourItinerary>): (r: seq<TourItinerary>)
    ensures |r| == |s|
  {
    if s == [] then [] else InsertByDay(SortByDay(s[..|s| - 1]), s[|s| - 1])
  }

  /** The sorted itinerary is ordered by day and holds exactly the fetched entries. */
  lemma {:induction false} SortByDayCorrect(s: seq<TourItinerary>)
    ensures SortedByDay(SortByDay(s))
    ensures multiset(SortByDay(s)) == multiset(s)
  {
    if s != [] {
      var init, last := s[..|s| - 1], s[|s| - 1];
      assert s == init + [last];
      SortByDayCorrect(init);
      InsertByDaySorted(SortByDay(init), last);
      InsertByDayPermutes(SortByDay(init), last);
    }
  }

  /** The entries of one day. */
  function OnDay(d: int): TourItinerary -> bool {
    (e: TourItinerary) => e.day_number == d
  }

  lemma OnDaySingleton(d: int, e: TourItinerary)
    ensures Filter(OnDay(d), [e]) == if e.day_number == d then [e] else []
  {
    assert [e][1..] == [];
  }

  /** Two entries on different days are not both on day `d`. */
  lemma NotBothOnDay(d: int, a: TourItinerary, b: TourItinerary)
    requires a.day_number != b.day_number
    ensures Filter(OnDay(d), [a]) == [] || Filter(OnDay(d), [b]) == []
  {
    OnDaySingleton(d, a);
    OnDaySingleton(d, b);
  }

  lemma SwapLastTwo<T>(u: seq<T>, v: seq<T>, w: seq<T>)
    requires v == [] || w == []
    ensures u + v + w == u + w + v
  {
    if v == [] {
      assert u + v == u;
    } else {
      assert u + w == u;
    }
  }

  /** The step of `InsertByDayStable` where `x` moves in front of `last`. */
  lemma InsertByDayStableStep(init: seq<TourItinerary>, last: TourItinerary, x: TourItinerary, d: int)
    requires x.day_number < last.day_number
    requires Filter(OnDay(d), InsertByDay(init, x)) == Filter(OnDay(d), init) + Filter(OnDay(d), [x])
    ensures Filter(OnDay(d), InsertByDay(init, x) + [last]) == Filter(OnDay(d), init + [last]) + Filter(OnDay(d), [x])
  {
    FilterConcat(OnDay(d), InsertByDay(init, x), [last]);
    FilterConcat(OnDay(d), init, [last]);
    NotBothOnDay(d, x, last);
    SwapLastTwo(Filter(OnDay(d), init), Filter(OnDay(d), [x]), Filter(OnDay(d), [last]));
  }

  lemma {:induction false} InsertByDayStable(s: seq<TourItinerary>, x: TourItinerary, d: int)
    ensures Filter(OnDay(d), InsertByDay(s, x)) == Filter(OnDay(d), s) + Filter(OnDay(d), [x])
  {
    if s == [] || s[|s| - 1].day_number <= x.day_number {
      FilterConcat(OnDay(d), s, [x]);
    } else {
      var init, last := s[..|s| - 1], s[|s| - 1];
      assert s == init + [last];
      InsertByDayStable(init, x, d);
      InsertByDayStableStep(init, last, x, d);
    }
  }

  /** The sort is stable: the entries of each day keep their fetched order. */
  lemma {:induction false} SortByDayStable(s: seq<TourItinerary>, d: int)
    ensures Filter(OnDay(d), SortByDay(s)) == Filter(OnDay(d), s)
  {
    if s != [] {
      var init, last := s[..|s| - 1], s[|s| - 1];
      assert s == init + [last];
      SortByDayStable(init, d);
      InsertByDayStable(SortByDay(init), last, d);
      FilterConcat(OnDay(d), init, [last]);
    }
  }

  /** Where insertion puts `x`: after the entries up to `j`, when everything
      from `j` on is later than `x` and the entry before `j` is not. */
  lemma {:induction false} InsertByDayAt(s: seq<TourItinerary>, x: TourItinerary, j: nat)
    requires j <= |s| && (j == 0 || s[j - 1].day_number <= x.day_number)
    requires forall k :: j <= k < |s| ==> s[k].day_number > x.day_number
    ensures InsertByDay(s, x) == s[..j] + [x] + s[j..]
    decreases |s|
  {
    if j == |s| {
      assert s[..j] == s && s[j..] == [];
    } else {
      var init, last := s[..|s| - 1], s[|s| - 1];
      InsertByDayAt(init, x, j);
      assert init[..j] == s[..j];
      assert init[j..] + [last] == s[j..];
    }
  }

  /** One pass of the insertion sort: move `a[i]` into the prefix before it. */
  method InsertAt(a: array<TourItinerary>, i: nat)
    requires i < a.Length
    modifies a
    ensures a[..i + 1] == InsertByDay(old(a[..i]), old(a[i]))
    ensures forall k :: i < k < a.Length ==> a[k] == old(a[k])
  {
    var x := a[i];
    ghost var s := a[..i];
    var j := i;
    while j > 0 && a[j - 1].day_number > x.day_number
      invariant 0 <= j <= i
      invariant forall k :: 0 <= k < j ==> a[k] == s[k]
      invariant forall k :: j < k <= i ==> a[k] == s[k - 1]
      invariant forall k :: i < k < a.Length ==> a[k] == old(a[k])
      invariant forall k :: j <= k < i ==> s[k].day_number > x.day_number
    {
      a[j] := a[j - 1];
      j := j - 1;
    }
    a[j] := x;
    InsertByDayAt(s, x, j);
    ghost var inserted := s[..j] + [x] + s[j..];
    assert forall k :: 0 <= k <= i ==> a[k] == inserted[k];
    assert a[..i + 1] == inserted;
  }

  /** Sorting one more entry of a prefix inserts that entry into the sorted prefix. */
  lemma SortByDayPrefix(s: seq<TourItinerary>, i: nat)
    requires i < |s|
    ensures SortByDay(s[..i + 1]) == InsertByDay(SortByDay(s[..i]), s[i])
  {
    assert s[..i + 1][..i] == s[..i];
  }

  /** `tour_itinerary?.sort((a, b) => a.day_number - b.day_number)`, done in
      place on the fetched array by insertion. */
  method SortItinerary(a: array<TourItinerary>)
    modifies a
    ensures a[..] == SortByDay(old(a[..]))
  {
    ghost var original := a[..];
    var i := 0;
    while i < a.Length
      invariant 0 <= i <= a.Length
      invariant a[..i] == SortByDay(original[..i])
      invariant forall k :: i <= k < a.Length ==> a[k] == original[k]
    {
      ghost var sorted, next := a[..i], a[i];
      InsertAt(a, i);
      SortByDayPrefix(original, i);
      assert a[..i + 1] == InsertByDay(sorted, next);
      i := i + 1;
    }
    assert a[..] == a[..a.Length] && original[..a.Length] == original;
  }

  /** The itinerary the page lists: sorted by day when fetched, empty when absent. */
  function Itinerary(tour: Tour): (r: seq<TourItinerary>)
    ensures tour.tour_itinerary.None? ==> r == []
    ensures tour.tour_itinerary.Some? ==> multiset(r) == multiset(tour.tour_itinerary.value)
    ensures SortedByDay(r)
  {
    match tour.tour_itinerary
    case None => []
    case Some(s) => SortByDayCorrect(s); SortByDay(s)
  }

  /** Day numbers 3, 1, 2 are listed as 1, 2, 3. */
  lemma ItineraryExample(x: TourItinerary)
    ensures var d1, d2, d3 := x.(day_number := 1), x.(day_number := 2), x.(day_number := 3);
            SortByDay([d3, d1, d2]) == [d1, d2, d3]
  {
    var d1, d2, d3 := x.(day_number := 1), x.(day_number := 2), x.(day_number := 3);
    assert [d3, d1, d2][..2] == [d3, d1] && [d3, d1][..1] == [d3] && [d3][..0] == [];
    assert SortByDay([d3]) == [d3];
    assert [d3][..0] == [] && InsertByDay([d3], d1) == InsertByDay([], d1) + [d3];
    assert SortByDay([d3, d1]) == [d1, d3];
    assert [d1, d3][..1] == [d1] && InsertByDay([d1], d2) == [d1, d2];
    assert InsertByDay([d1, d3], d2) == InsertByDay([d1], d2) + [d3];
  }

  // -------------------------------------------------------- image, link

  const DefaultImage := "https://images.unsplash.com/photo-1469474968028-56623f02e42e?w=1200&q=80"

  /** `images[0]?.image_url || default`: the first image's URL unless there is
      no image or that URL is empty. */
  function PrimaryImage(images: Option<seq<TourImage>>): (url: string)
    ensures url != ""
    ensures images.Some? && images.value != [] && images.value[0].image_url != "" ==>
              url == images.value[0].image_url
    ensures images.None? || images.value == [] || images.value[0].image_url == "" ==>
              url == DefaultImage
  {
    var imgs := images.GetOr([]);
    if imgs != [] && imgs[0].image_url != "" then imgs[0].image_url else DefaultImage
  }

  const TourGreeting := "Hi, I'm interested in the tour: "

  /** The operator's chat link, or `"#"` when there is no operator or no phone. */
  function TourWhatsAppLink(operator: Option<Operator>, title: string): (link: string)
    ensures link == "#" <==> operator.None? || operator.value.phone == ""
    ensures link != "#" ==>
              WhatsApp.ParseLink(link) == Some((Digits(operator.value.phone), TourGreeting + title))
  {
    if operator.Some? && operator.value.phone != "" then
      WhatsApp.LinkRoundTrip(Digits(operator.value.phone), TourGreeting + title);
      WhatsApp.Link(Digits(operator.value.phone), TourGreeting + title)
    else "#"
  }
}
