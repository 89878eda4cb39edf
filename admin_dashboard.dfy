/** The admin dashboard: three `select("id, status")` queries become five
    counts, and the cards show each count with a `|| 0` fallback while the
    statistics are missing. */
module AdminDashboardPage {
  import opened Options
  import opened Sequences

  /** A row of the `id, status` queries on tours, operators and enquiries. */
  datatype StatusRow = StatusRow(id: string, status: string)

  datatype Stats = Stats(
    totalTours: nat,
    upcomingTours: nat,
    activeOperators: nat,
    newEnquiries: nat,
    totalEnquiries: nat)

  function HasStatus(s: string): StatusRow -> bool {
    (r: StatusRow) => r.status == s
  }

  /** The status column of a result. */
  function Statuses(rows: seq<StatusRow>): (ss: seq<string>)
    ensures |ss| == |rows|
    ensures forall i :: 0 <= i < |rows| ==> ss[i] == rows[i].status
  {
    seq(|rows|, i requires 0 <= i < |rows| => rows[i].status)
  }

  /** `rows.filter((r) => r.status === s).length`. */
  function CountStatus(rows: seq<StatusRow>, s: string): (n: nat)
    ensures n <= |rows|
    ensures rows == [] ==> n == 0
  {
    |Filter(HasStatus(s), rows)|
  }

  /** The filtered length is the number of times `s` occurs in the status column. */
  lemma {:induction false} CountIsMultiplicity(rows: seq<StatusRow>, s: string)
    ensures CountStatus(rows, s) == multiset(Statuses(rows))[s]
  {
    if rows != [] {
      CountIsMultiplicity(rows[1..], s);
      assert Statuses(rows) == [rows[0].status] + Statuses(rows[1..]);
    }
  }

  lemma CountFirst(rows: seq<StatusRow>, s: string)
    requires rows != []
    ensures CountStatus(rows, s) == (if rows[0].status == s then 1 else 0) + CountStatus(rows[1..], s)
  {
  }

  /** When every status in a result is one of three names, the three counts
      add up to the length of the result. */
  lemma {:induction false} CountsPartition(rows: seq<StatusRow>, a: string, b: string, c: string)
    requires a != b && b != c && a != c
    requires forall i :: 0 <= i < |rows| ==> rows[i].status in [a, b, c]
    ensures CountStatus(rows, a) + CountStatus(rows, b) + CountStatus(rows, c) == |rows|
  {
    if rows != [] {
      CountsPartition(rows[1..], a, b, c);
      CountFirst(rows, a);
      CountFirst(rows, b);
      CountFirst(rows, c);
    }
  }

  /** The `queryFn`: a failed query (`data` null) counts as no rows. */
  function ComputeStats(tours: Option<seq<StatusRow>>,
                        operators: Option<seq<StatusRow>>,
                        enquiries: Option<seq<StatusRow>>): (st: Stats)
    ensures st.totalTours == |tours.GetOr([])|
    ensures st.totalEnquiries == |enquiries.GetOr([])|
    ensures st.upcomingTours == multiset(Statuses(tours.GetOr([])))["upcoming"]
    ensures st.activeOperators == multiset(Statuses(operators.GetOr([])))["active"]
    ensures st.newEnquiries == multiset(Statuses(enquiries.GetOr([])))["new"]
    ensures st.upcomingTours <= st.totalTours
    ensures st.newEnquiries <= st.totalEnquiries
  {
    var t := tours.GetOr([]);
    var o := operators.GetOr([]);
    var e := enquiries.GetOr([]);
    CountIsMultiplicity(t, "upcoming");
    CountIsMultiplicity(o, "active");
    CountIsMultiplicity(e, "new");
    Stats(|t|, CountStatus(t, "upcoming"), CountStatus(o, "active"), CountStatus(e, "new"), |e|)
  }

  /** `stats?.x || 0`: an absent statistic and a zero both show 0. */
  function Shown(v: Option<nat>): (n: nat)
    ensures n == v.GetOr(0)
  {
    if v.Some? && v.value != 0 then v.value else 0
  }

  /** The six numbers of the four cards, in reading order: total tours and
      its "upcoming" line, active operators, new enquiries and its "total"
      line, and upcoming tours. */
  datatype Cards = Cards(
    totalTours: nat,
    upcomingLine: nat,
    activeOperators: nat,
    newEnquiries: nat,
    totalLine: nat,
    upcomingTours: nat)

  function Field(stats: Option<Stats>, f: Stats -> nat): Option<nat> {
    if stats.Some? then Some(f(stats.value)) else None
  }

  function CardsFor(stats: Option<Stats>): (c: Cards)
    ensures stats.None? ==> c == Cards(0, 0, 0, 0, 0, 0)
    ensures stats.Some? ==>
              c == Cards(stats.value.totalTours, stats.value.upcomingTours, stats.value.activeOperators,
                         stats.value.newEnquiries, stats.value.totalEnquiries, stats.value.upcomingTours)
  {
    Cards(Shown(Field(stats, (s: Stats) => s.totalTours)),
          Shown(Field(stats, (s: Stats) => s.upcomingTours)),
          Shown(Field(stats, (s: Stats) => s.activeOperators)),
          Shown(Field(stats, (s: Stats) => s.newEnquiries)),
          Shown(Field(stats, (s: Stats) => s.totalEnquiries)),
          Shown(Field(stats, (s: Stats) => s.upcomingTours)))
  }

  /** On any query results the cards agree with each other: the upcoming
      count appears twice and is at most the total, and new enquiries are at
      most all enquiries. */
  lemma CardsConsistent(tours: Option<seq<StatusRow>>,
                        operators: Option<seq<StatusRow>>,
                        enquiries: Option<seq<StatusRow>>)
    ensures var c := CardsFor(Some(ComputeStats(tours, operators, enquiries)));
            c.upcomingLine == c.upcomingTours <= c.totalTours && c.newEnquiries <= c.totalLine
  {
  }
}
