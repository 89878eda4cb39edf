/** The admin tours page: the create/edit dialog with its form state, the
    mapping between a stored tour and the form, the row written by insert
    and update, the numeric inputs, and the status badge of the table. */
module AdminToursPage {
  import opened Options
  import opened Strings
  import opened Database
  import opened Ui

  /** The dialog's form: the editable columns of a tour, with the nullable
      `operator_id` and `description` held as text. */
  datatype TourForm = TourForm(
    operator_id: string,
    title: string,
    description: string,
    departure_city: string,
    destination: string,
    tour_type: string,
    start_date: string,
    end_date: string,
    duration_days: int,
    price_per_person: int,
    seats_total: int,
    seats_available: int,
    status: TourStatus)

  /** The form the page starts with and `resetForm` restores. */
  const EmptyForm := TourForm("", "", "", "", "", "", "", "", 1, 0, 40, 40, Draft)

  /** The object passed to `insert` and `update`. */
  datatype TourWrite = TourWrite(
    operator_id: Option<string>,
    title: string,
    description: string,
    departure_city: string,
    destination: string,
    tour_type: string,
    start_date: string,
    end_date: string,
    duration_days: int,
    price_per_person: int,
    seats_total: int,
    seats_available: int,
    status: TourStatus)

  /** `{ ...data, operator_id: data.operator_id || null }`: every field is
      copied, except that no operator chosen is written as null. The
      description is copied as it is, so an empty one is written as "". */
  function Payload(f: TourForm): (w: TourWrite)
    ensures w.operator_id.None? <==> f.operator_id == ""
    ensures w.operator_id.Some? ==> w.operator_id.value == f.operator_id
    ensures w.operator_id != Some("")
    ensures w.title == f.title && w.description == f.description
    ensures w.departure_city == f.departure_city && w.destination == f.destination
    ensures w.tour_type == f.tour_type && w.start_date == f.start_date && w.end_date == f.end_date
    ensures w.duration_days == f.duration_days && w.price_per_person == f.price_per_person
    ensures w.seats_total == f.seats_total && w.seats_available == f.seats_available
    ensures w.status == f.status
  {
    TourWrite(if f.operator_id == "" then None else Some(f.operator_id),
              f.title, f.description, f.departure_city, f.destination, f.tour_type,
              f.start_date, f.end_date, f.duration_days, f.price_per_person,
              f.seats_total, f.seats_available, f.status)
  }

  /** `handleEdit`'s form: the tour's columns, with a null operator or
      description shown as "". */
  function FormOf(t: Tour): (f: TourForm)
    ensures f.operator_id == t.operator_id.GetOr("") && f.description == t.description.GetOr("")
    ensures f.title == t.title && f.departure_city == t.departure_city && f.destination == t.destination
    ensures f.tour_type == t.tour_type && f.start_date == t.start_date && f.end_date == t.end_date
    ensures f.duration_days == t.duration_days && f.price_per_person == t.price_per_person
    ensures f.seats_total == t.seats_total && f.seats_available == t.seats_available
    ensures f.status == t.status
  {
    TourForm(t.operator_id.GetOr(""), t.title, t.description.GetOr(""), t.departure_city,
             t.destination, t.tour_type, t.start_date, t.end_date, t.duration_days,
             t.price_per_person, t.seats_total, t.seats_available, t.status)
  }

  /** The stored row after `update(w).eq("id", t.id)`: the written columns
      take the written values (a text written into the nullable description
      is stored as that text), and the id, the creation time and the joined
      relations stay as they were. */
  function ApplyWrite(t: Tour, w: TourWrite): (u: Tour)
    ensures u.id == t.id && u.created_at == t.created_at
    ensures u.operator == t.operator && u.tour_images == t.tour_images && u.tour_itinerary == t.tour_itinerary
    ensures u.operator_id == w.operator_id && u.description == Some(w.description)
    ensures u.title == w.title && u.departure_city == w.departure_city && u.destination == w.destination
    ensures u.tour_type == w.tour_type && u.start_date == w.start_date && u.end_date == w.end_date
    ensures u.duration_days == w.duration_days && u.price_per_person == w.price_per_person
    ensures u.seats_total == w.seats_total && u.seats_available == w.seats_available
    ensures u.status == w.status
  {
    t.(operator_id := w.operator_id, title := w.title, description := Some(w.description),
       departure_city := w.departure_city, destination := w.destination, tour_type := w.tour_type,
       start_date := w.start_date, end_date := w.end_date, duration_days := w.duration_days,
       price_per_person := w.price_per_person, seats_total := w.seats_total,
       seats_available := w.seats_available, status := w.status)
  }

  /** Opening a tour for editing and saving it unchanged leaves it as it was
      exactly when it has a description and its operator is not stored as
      the empty string: a null description comes back as "", and an empty
      operator id comes back as null. A null operator id is reproduced. */
  lemma EditSaveRoundTrip(t: Tour)
    ensures ApplyWrite(t, Payload(FormOf(t))) == t <==> t.description.Some? && t.operator_id != Some("")
    ensures ApplyWrite(t, Payload(FormOf(t))).operator_id == if t.operator_id == Some("") then None else t.operator_id
  {
    if ApplyWrite(t, Payload(FormOf(t))) == t {
      assert ApplyWrite(t, Payload(FormOf(t))).description == t.description;
      assert ApplyWrite(t, Payload(FormOf(t))).operator_id == t.operator_id;
    }
  }

  /** In the other direction every form survives: whatever is saved,
      reopening the tour for editing shows that same form. */
  lemma SavedFormReopens(t: Tour, f: TourForm)
    ensures FormOf(ApplyWrite(t, Payload(f))) == f
  {
  }

  /** The four numeric inputs of the dialog. */
  datatype NumberField = Duration | Price | SeatsTotal | SeatsAvailable

  /** The value an input falls back to: `|| 1` for duration and total
      seats, `|| 0` for price and available seats. */
  function Fallback(field: NumberField): int {
    match field
    case Duration => 1
    case Price => 0
    case SeatsTotal => 1
    case SeatsAvailable => 0
  }

  /** `parseInt(raw) || fallback`: a number that does not parse (NaN) and a
      zero are both falsy and give the fallback. */
  function NumberInput(raw: string, fallback: int): (n: int)
    ensures ParseInt(raw).Some? && ParseInt(raw).value != 0 ==> n == ParseInt(raw).value
    ensures ParseInt(raw).None? || ParseInt(raw) == Some(0) ==> n == fallback
    ensures fallback != 0 ==> n != 0
  {
    match ParseInt(raw)
    case Some(v) => if v != 0 then v else fallback
    case None => fallback
  }

  /** A non-zero number typed in decimal is stored as it is, negative or
      not: the handlers check no range. Only the inputs' `min` attributes
      keep a negative number from being submitted (`NegativeNumberBlocksSubmit`),
      and nothing keeps available seats at or below the total. */
  lemma TypedNumberKept(k: nat, fallback: int)
    requires k != 0
    ensures NumberInput(Decimal(k), fallback) == k
    ensures NumberInput("-" + Decimal(k), fallback) == -(k as int)
  {
    ParseDecimal(k);
  }

  /** A cleared input and a typed zero both give the fallback, so zero days
      or zero total seats cannot be entered. */
  lemma ClearedOrZeroFallsBack(fallback: int)
    ensures NumberInput("", fallback) == fallback
    ensures NumberInput("0", fallback) == fallback
  {
    ParseDecimal(0);
    assert Decimal(0) == "0";
  }

  function NumberOf(f: TourForm, field: NumberField): int {
    match field
    case Duration => f.duration_days
    case Price => f.price_per_person
    case SeatsTotal => f.seats_total
    case SeatsAvailable => f.seats_available
  }

  /** The form after a numeric input's `onChange`. */
  function WithNumber(f: TourForm, field: NumberField, raw: string): (g: TourForm)
    ensures NumberOf(g, field) == NumberInput(raw, Fallback(field))
    ensures forall other :: other != field ==> NumberOf(g, other) == NumberOf(f, other)
    ensures g.(duration_days := f.duration_days, price_per_person := f.price_per_person,
               seats_total := f.seats_total, seats_available := f.seats_available) == f
  {
    var n := NumberInput(raw, Fallback(field));
    match field
    case Duration => f.(duration_days := n)
    case Price => f.(price_per_person := n)
    case SeatsTotal => f.(seats_total := n)
    case SeatsAvailable => f.(seats_available := n)
  }

  /** A form that starts with a non-zero duration and total keeps them
      non-zero through any sequence of numeric inputs; the empty form is
      such a form. */
  lemma WithNumberKeepsNonZero(f: TourForm, field: NumberField, raw: string)
    requires f.duration_days != 0 && f.seats_total != 0
    ensures WithNumber(f, field, raw).duration_days != 0 && WithNumber(f, field, raw).seats_total != 0
  {
    assert NumberOf(WithNumber(f, field, raw), Duration) == WithNumber(f, field, raw).duration_days;
    assert NumberOf(WithNumber(f, field, raw), SeatsTotal) == WithNumber(f, field, raw).seats_total;
  }

  /** The dialog's controls that store text: the title, destination and
      date inputs, the description textarea, and the operator, departure
      city and tour type selects. */
  datatype TextField = OperatorId | Title | Description | DepartureCity | Destination | TourType | StartDate | EndDate

  function TextOf(f: TourForm, field: TextField): string {
    match field
    case OperatorId => f.operator_id
    case Title => f.title
    case Description => f.description
    case DepartureCity => f.departure_city
    case Destination => f.destination
    case TourType => f.tour_type
    case StartDate => f.start_date
    case EndDate => f.end_date
  }

  /** The form after a text control's `onChange` or `onValueChange`,
      `{ ...formData, field: value }`: that field holds the value and the
      rest of the form is as it was. */
  function WithText(f: TourForm, field: TextField, value: string): (g: TourForm)
    ensures TextOf(g, field) == value
    ensures forall other :: other != field ==> TextOf(g, other) == TextOf(f, other)
    ensures forall n :: NumberOf(g, n) == NumberOf(f, n)
    ensures g.status == f.status
  {
    match field
    case OperatorId => f.(operator_id := value)
    case Title => f.(title := value)
    case Description => f.(description := value)
    case DepartureCity => f.(departure_city := value)
    case Destination => f.(destination := value)
    case TourType => f.(tour_type := value)
    case StartDate => f.(start_date := value)
    case EndDate => f.(end_date := value)
  }

  /** The inputs marked `required`. */
  predicate Required(field: TextField) {
    field.Title? || field.Destination? || field.StartDate? || field.EndDate?
  }

  /** The `min` attribute of each numeric input. */
  function Minimum(field: NumberField): int {
    match field
    case Duration => 1
    case Price => 0
    case SeatsTotal => 1
    case SeatsAvailable => 0
  }

  /** The browser's constraint validation, which runs before the `submit`
      event: every required input is non-empty and no number is below its
      input's `min`. A form that fails it never reaches `handleSubmit`. */
  predicate Submittable(f: TourForm) {
    (forall field :: Required(field) ==> TextOf(f, field) != "") &&
    (forall n :: NumberOf(f, n) >= Minimum(n))
  }

  /** Typing into the four required inputs, one after the other. */
  lemma WithRequiredTexts(f: TourForm, title: string, destination: string, startDate: string, endDate: string)
    ensures WithText(WithText(WithText(WithText(f, Title, title), Destination, destination), StartDate, startDate), EndDate, endDate)
         == f.(title := title, destination := destination, start_date := startDate, end_date := endDate)
  {
  }

  /** The empty form cannot be submitted, and filling in the title, the
      destination and the two dates is exactly what it lacks. */
  lemma EmptyFormNeedsRequiredFields(title: string, destination: string, startDate: string, endDate: string)
    ensures !Submittable(EmptyForm)
    ensures Submittable(EmptyForm.(title := title, destination := destination,
                                   start_date := startDate, end_date := endDate))
        <==> title != "" && destination != "" && startDate != "" && endDate != ""
  {
    assert TextOf(EmptyForm, Title) == "";
    var f := EmptyForm.(title := title, destination := destination, start_date := startDate, end_date := endDate);
    assert TextOf(f, Title) == title && TextOf(f, Destination) == destination;
    assert TextOf(f, StartDate) == startDate && TextOf(f, EndDate) == endDate;
  }

  /** A negative number typed into any numeric input is stored in the form
      by its `onChange`, and the form can then not be submitted: only the
      input's `min` keeps it out of the database. */
  lemma NegativeNumberBlocksSubmit(f: TourForm, field: NumberField, k: nat)
    requires k != 0
    ensures NumberOf(WithNumber(f, field, "-" + Decimal(k)), field) == -(k as int)
    ensures !Submittable(WithNumber(f, field, "-" + Decimal(k)))
  {
    TypedNumberKept(k, Fallback(field));
  }

  /** The fallbacks meet the minimums, so clearing an input or typing 0
      never makes a valid form invalid. */
  lemma FallbackKeepsSubmittable(f: TourForm, field: NumberField)
    requires Submittable(f)
    ensures Submittable(WithNumber(f, field, ""))
    ensures Submittable(WithNumber(f, field, "0"))
  {
    ClearedOrZeroFallsBack(Fallback(field));
    var g, h := WithNumber(f, field, ""), WithNumber(f, field, "0");
    forall t | Required(t) ensures TextOf(g, t) != "" && TextOf(h, t) != "" {
      assert TextOf(g, t) == TextOf(f, t) && TextOf(h, t) == TextOf(f, t);
    }
  }

  /** The table's `getStatusColor`. */
  function TourBadge(status: string): (v: BadgeVariant)
    ensures v == Default <==> status == "upcoming"
    ensures v == Secondary <==> status == "ongoing"
    ensures v == Outline <==> status !in ["upcoming", "ongoing"]
  {
    match status
    case "upcoming" => Default
    case "ongoing" => Secondary
    case "completed" => Outline
    case _ => Outline
  }

  /** A draft and a completed tour carry the same badge. */
  lemma DraftLooksCompleted()
    ensures TourBadge(TourStatusName(Draft)) == TourBadge(TourStatusName(Completed)) == Outline
  {
  }

  /** What a submit asks the backend to do. */
  datatype Request = Create(payload: TourWrite) | Update(id: string, payload: TourWrite)

  /** The page's state: the dialog, the form, the tour being edited and the
      pending flags of the create and update mutations. */
  class AdminTours {
    var isDialogOpen: bool
    var editingTour: Option<Tour>
    var formData: TourForm
    var createPending: bool
    var updatePending: bool

    constructor()
      ensures !isDialogOpen && editingTour == None && formData == EmptyForm
      ensures !createPending && !updatePending
    {
      isDialogOpen := false;
      editingTour := None;
      formData := EmptyForm;
      createPending := false;
      updatePending := false;
    }

    /** `isPending`: the submit button is disabled while either mutation runs. */
    predicate IsPending(): (pending: bool)
      reads this
      ensures pending <==> createPending || updatePending
    {
      createPending || updatePending
    }

    method ResetForm()
      modifies this`formData, this`editingTour
      ensures formData == EmptyForm && editingTour == None
    {
      formData := EmptyForm;
      editingTour := None;
    }

    method HandleEdit(t: Tour)
      modifies this`formData, this`editingTour, this`isDialogOpen
      ensures editingTour == Some(t) && formData == FormOf(t) && isDialogOpen
    {
      editingTour := Some(t);
      formData := FormOf(t);
      isDialogOpen := true;
    }

    /** The dialog's `onOpenChange`, fired by the "Create Tour" trigger, the
        close button, Escape and a click outside: closing resets the form. */
    method OpenChange(open: bool)
      modifies this`isDialogOpen, this`formData, this`editingTour
      ensures isDialogOpen == open
      ensures !open ==> formData == EmptyForm && editingTour == None
      ensures open ==> formData == old(formData) && editingTour == old(editingTour)
    {
      isDialogOpen := open;
      if !open {
        ResetForm();
      }
    }

    /** The Cancel button as written: it sets the dialog's state directly,
        which does not fire `onOpenChange`, so the form is not reset. */
    method Cancel()
      modifies this`isDialogOpen
      ensures !isDialogOpen
    {
      isDialogOpen := false;
    }

    /** Cancel as intended: closing the dialog the way its own close
        controls do, which clears the form and the tour being edited. */
    method CancelAndReset()
      modifies this`isDialogOpen, this`formData, this`editingTour
      ensures !isDialogOpen && formData == EmptyForm && editingTour == None
    {
      OpenChange(false);
    }

    method SetNumber(field: NumberField, raw: string)
      modifies this`formData
      ensures formData == WithNumber(old(formData), field, raw)
    {
      formData := WithNumber(formData, field, raw);
    }

    method SetText(field: TextField, value: string)
      modifies this`formData
      ensures formData == WithText(old(formData), field, value)
    {
      formData := WithText(formData, field, value);
    }

    /** The user types into the four required inputs, one after the other. */
    method FillRequired(title: string, destination: string, startDate: string, endDate: string)
      modifies this`formData
      ensures formData == old(formData).(title := title, destination := destination,
                                         start_date := startDate, end_date := endDate)
    {
      SetText(Title, title);
      SetText(Destination, destination);
      SetText(StartDate, startDate);
      SetText(EndDate, endDate);
      WithRequiredTexts(old(formData), title, destination, startDate, endDate);
    }

    /** `handleSubmit`: an update of the tour being edited, with its id, or
        else a create; either way the payload is built from the form and the
        matching mutation becomes pending. */
    method HandleSubmit() returns (req: Request)
      modifies this`createPending, this`updatePending
      ensures editingTour.Some? ==> req == Update(editingTour.value.id, Payload(formData))
      ensures editingTour.None? ==> req == Create(Payload(formData))
      ensures createPending == (old(createPending) || editingTour.None?)
      ensures updatePending == (old(updatePending) || editingTour.Some?)
      ensures IsPending()
    {
      if editingTour.Some? {
        req := Update(editingTour.value.id, Payload(formData));
        updatePending := true;
      } else {
        req := Create(Payload(formData));
        createPending := true;
      }
    }

    /** Pressing the submit button, or Enter in a field: nothing happens
        while a mutation is pending, since the button is disabled, or while
        the form fails the browser's validation; otherwise `handleSubmit`
        runs on the form. */
    method Submit() returns (req: Option<Request>)
      modifies this`createPending, this`updatePending
      ensures req.None? <==> old(IsPending()) || !Submittable(formData)
      ensures req.None? ==> createPending == old(createPending) && updatePending == old(updatePending)
      ensures req.Some? ==> req.value == if editingTour.Some? then Update(editingTour.value.id, Payload(formData))
                                         else Create(Payload(formData))
      ensures req.Some? ==> createPending == editingTour.None? && updatePending == editingTour.Some?
    {
      if IsPending() || !Submittable(formData) {
        req := None;
      } else {
        var r := HandleSubmit();
        req := Some(r);
      }
    }

    /** A mutation settles: on success the form is reset and the dialog
        closed; on error (a toast) the form stays as it was. */
    method Settle(req: Request, succeeded: bool)
      modifies this
      ensures req.Create? ==> !createPending && updatePending == old(updatePending)
      ensures req.Update? ==> !updatePending && createPending == old(createPending)
      ensures succeeded ==> formData == EmptyForm && editingTour == None && !isDialogOpen
      ensures !succeeded ==> formData == old(formData) && editingTour == old(editingTour)
                             && isDialogOpen == old(isDialogOpen)
    {
      if req.Create? {
        createPending := false;
      } else {
        updatePending := false;
      }
      if succeeded {
        ResetForm();
        isDialogOpen := false;
      }
    }
  }

  /** The Cancel button as written: edit a tour, cancel, then open the
      dialog with "Create Tour" and submit. The form still holds the edited
      tour, and when that form passes validation the submit updates the
      tour instead of creating one. */
  method CreateAfterCancel(t: Tour) returns (req: Option<Request>)
    ensures Submittable(FormOf(t)) ==> req == Some(Update(t.id, Payload(FormOf(t))))
    ensures !Submittable(FormOf(t)) ==> req == None
  {
    var page := new AdminTours();
    page.HandleEdit(t);
    page.Cancel();
    page.OpenChange(true);
    req := page.Submit();
  }

  /** The same steps with the intended cancel start from the empty form,
      which the browser refuses to submit; once the required fields are
      filled in, the submit creates a new tour. */
  method CreateAfterCancelAndReset(t: Tour, title: string, destination: string, startDate: string, endDate: string)
    returns (blocked: Option<Request>, req: Option<Request>)
    requires title != "" && destination != "" && startDate != "" && endDate != ""
    ensures blocked == None
    ensures req == Some(Create(Payload(EmptyForm.(title := title, destination := destination,
                                                  start_date := startDate, end_date := endDate))))
  {
    var page := new AdminTours();
    page.HandleEdit(t);
    page.CancelAndReset();
    page.OpenChange(true);
    EmptyFormNeedsRequiredFields(title, destination, startDate, endDate);
    blocked := page.Submit();
    page.FillRequired(title, destination, startDate, endDate);
    req := page.Submit();
  }
}
