/** The rows of the hosted tables as the client sees them. Every status is a
    closed enumeration; `T | null` and optional nested relations are `Option`. */
module Database {
  import opened Options

  datatype OperatorStatus = Active | Inactive
  datatype TourStatus = Draft | Upcoming | Ongoing | Completed
  datatype EnquiryStatus = New | Contacted | Closed

  datatype Operator = Operator(
    id: string,
    name: string,
    contact_person: Option<string>,
    phone: string,
    email: Option<string>,
    city: string,
    description: Option<string>,
    verified: bool,
    status: OperatorStatus,
    created_at: string)

  datatype TourItinerary = TourItinerary(
    id: string,
    tour_id: string,
    day_number: int,
    title: string,
    description: Option<string>)

  datatype TourImage = TourImage(id: string, tour_id: string, image_url: string)

  /** A tour row; `operator`, `tour_images` and `tour_itinerary` are present only
      when the query expands them. No relation between the two seat counts is
      declared. */
  datatype Tour = Tour(
    id: string,
    operator_id: Option<string>,
    title: string,
    description: Option<string>,
    departure_city: string,
    destination: string,
    tour_type: string,
    start_date: string,
    end_date: string,
    duration_days: int,
    price_per_person: int,
    seats_total: int,
    seats_available: int,
    status: TourStatus,
    created_at: string,
    operator: Option<Operator>,
    tour_images: Option<seq<TourImage>>,
    tour_itinerary: Option<seq<TourItinerary>>)

  datatype Enquiry = Enquiry(
    id: string,
    tour_id: string,
    name: string,
    phone: string,
    message: Option<string>,
    status: EnquiryStatus,
    created_at: string,
    tour: Option<Tour>)

  // ---------------------------------------------- status names on the wire

  function OperatorStatusName(s: OperatorStatus): string {
    match s
    case Active => "active"
    case Inactive => "inactive"
  }

  function TourStatusName(s: TourStatus): string {
    match s
    case Draft => "draft"
    case Upcoming => "upcoming"
    case Ongoing => "ongoing"
    case Completed => "completed"
  }

  function EnquiryStatusName(s: EnquiryStatus): string {
    match s
    case New => "new"
    case Contacted => "contacted"
    case Closed => "closed"
  }

  /** The operator status a column value denotes, if it is one of the union. */
  function ParseOperatorStatus(w: string): (r: Option<OperatorStatus>)
    ensures r.Some? <==> w == "active" || w == "inactive"
    ensures forall s :: r == Some(s) <==> w == OperatorStatusName(s)
  {
    if w == "active" then Some(Active)
    else if w == "inactive" then Some(Inactive)
    else None
  }

  function ParseTourStatus(w: string): (r: Option<TourStatus>)
    ensures r.Some? <==> w == "draft" || w == "upcoming" || w == "ongoing" || w == "completed"
    ensures forall s :: r == Some(s) <==> w == TourStatusName(s)
  {
    if w == "draft" then Some(Draft)
    else if w == "upcoming" then Some(Upcoming)
    else if w == "ongoing" then Some(Ongoing)
    else if w == "completed" then Some(Completed)
    else None
  }

  function ParseEnquiryStatus(w: string): (r: Option<EnquiryStatus>)
    ensures r.Some? <==> w == "new" || w == "contacted" || w == "closed"
    ensures forall s :: r == Some(s) <==> w == EnquiryStatusName(s)
  {
    if w == "new" then Some(New)
    else if w == "contacted" then Some(Contacted)
    else if w == "closed" then Some(Closed)
    else None
  }
}
