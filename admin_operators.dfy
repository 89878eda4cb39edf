/** The admin operators page: the create/edit dialog with its form state,
    the mapping between a stored operator and the form, and the status
    badge of the table. Unlike the tours page, the form record is written
    to the `operators` table as it is. */
module AdminOperatorsPage {
  import opened Options
  import opened Database
  import opened Ui

  /** The dialog's form: the editable columns of an operator, with the
      nullable `contact_person`, `email` and `description` held as text. */
  datatype OperatorForm = OperatorForm(
    name: string,
    contact_person: string,
    phone: string,
    email: string,
    city: string,
    description: string,
    verified: bool,
    status: OperatorStatus)

  /** The form the page starts with and `resetForm` restores. */
  const EmptyForm := OperatorForm("", "", "", "", "", "", false, Active)

  /** `handleEdit`'s form: the operator's columns, with null contact person,
      email or description shown as "". */
  function FormOf(op: Operator): (f: OperatorForm)
    ensures f.contact_person == op.contact_person.GetOr("")
    ensures f.email == op.email.GetOr("")
    ensures f.description == op.description.GetOr("")
    ensures f.name == op.name && f.phone == op.phone && f.city == op.city
    ensures f.verified == op.verified && f.status == op.status
  {
    OperatorForm(op.name, op.contact_person.GetOr(""), op.phone, op.email.GetOr(""),
                 op.city, op.description.GetOr(""), op.verified, op.status)
  }

  /** The stored row after `update(form).eq("id", op.id)`: every column of
      the form takes the form's value, so the nullable ones hold text
      (possibly ""), and the id and creation time stay as they were. */
  function ApplyWrite(op: Operator, f: OperatorForm): (u: Operator)
    ensures u.id == op.id && u.created_at == op.created_at
    ensures u.name == f.name && u.phone == f.phone && u.city == f.city
    ensures u.verified == f.verified && u.status == f.status
    ensures u.contact_person == Some(f.contact_person)
    ensures u.email == Some(f.email)
    ensures u.description == Some(f.description)
  {
    op.(name := f.name, contact_person := Some(f.contact_person), phone := f.phone,
        email := Some(f.email), city := f.city, description := Some(f.description),
        verified := f.verified, status := f.status)
  }

  /** Opening an operator for editing and saving it unchanged leaves it as it
      was exactly when none of its three nullable columns is null; each null
      one is written back as "". */
  lemma EditSaveRoundTrip(op: Operator)
    ensures ApplyWrite(op, FormOf(op)) == op <==>
              op.contact_person.Some? && op.email.Some? && op.description.Some?
    ensures op.contact_person.None? ==> ApplyWrite(op, FormOf(op)).contact_person == Some("")
    ensures op.email.None? ==> ApplyWrite(op, FormOf(op)).email == Some("")
    ensures op.description.None? ==> ApplyWrite(op, FormOf(op)).description == Some("")
  {
    if ApplyWrite(op, FormOf(op)) == op {
      assert ApplyWrite(op, FormOf(op)).contact_person == op.contact_person;
      assert ApplyWrite(op, FormOf(op)).email == op.email;
      assert ApplyWrite(op, FormOf(op)).description == op.description;
    }
  }

  /** In the other direction every form survives: whatever is saved,
      reopening the operator for editing shows that same form. */
  lemma SavedFormReopens(op: Operator, f: OperatorForm)
    ensures FormOf(ApplyWrite(op, f)) == f
  {
  }

  /** A second save of an unchanged form writes nothing new: after the first
      save the row is a fixed point of edit-then-save. */
  lemma SecondSaveIsIdentity(op: Operator)
    ensures var once := ApplyWrite(op, FormOf(op));
            ApplyWrite(once, FormOf(once)) == once
  {
    var once := ApplyWrite(op, FormOf(op));
    EditSaveRoundTrip(once);
  }

  /** The dialog's text inputs and its description textarea. */
  datatype TextField = Name | ContactPerson | Phone | Email | City | Description

  function TextOf(f: OperatorForm, field: TextField): string {
    match field
    case Name => f.name
    case ContactPerson => f.contact_person
    case Phone => f.phone
    case Email => f.email
    case City => f.city
    case Description => f.description
  }

  /** The form after a text input's `onChange`, `{ ...formData, field: value }`:
      that field holds the value and the rest of the form is as it was. */
  function WithText(f: OperatorForm, field: TextField, value: string): (g: OperatorForm)
    ensures TextOf(g, field) == value
    ensures forall other :: other != field ==> TextOf(g, other) == TextOf(f, other)
    ensures g.verified == f.verified && g.status == f.status
  {
    match field
    case Name => f.(name := value)
    case ContactPerson => f.(contact_person := value)
    case Phone => f.(phone := value)
    case Email => f.(email := value)
    case City => f.(city := value)
    case Description => f.(description := value)
  }

  /** The inputs marked `required`. */
  predicate Required(field: TextField) {
    field.Name? || field.Phone? || field.City?
  }

  /** The browser's constraint validation, which runs before the `submit`
      event: every required input is non-empty. A form that fails it never
      reaches `handleSubmit`. */
  predicate Submittable(f: OperatorForm) {
    forall field :: Required(field) ==> TextOf(f, field) != ""
  }

  /** The user types into the three required inputs, one after the other. */
  lemma WithRequiredTexts(f: OperatorForm, name: string, phone: string, city: string)
    ensures WithText(WithText(WithText(f, Name, name), Phone, phone), City, city)
         == f.(name := name, phone := phone, city := city)
  {
  }

  /** The empty form cannot be submitted, and filling in the name, the
      phone and the city is exactly what it lacks. */
  lemma EmptyFormNeedsRequiredFields(name: string, phone: string, city: string)
    ensures !Submittable(EmptyForm)
    ensures Submittable(EmptyForm.(name := name, phone := phone, city := city))
        <==> name != "" && phone != "" && city != ""
  {
    assert TextOf(EmptyForm, Name) == "";
    var f := EmptyForm.(name := name, phone := phone, city := city);
    assert TextOf(f, Name) == name && TextOf(f, Phone) == phone && TextOf(f, City) == city;
  }

  /** Clearing a required input makes any form unsubmittable; the optional
      contact person, email and description may be left empty. */
  lemma ClearingRequiredBlocksSubmit(f: OperatorForm, field: TextField)
    ensures Required(field) ==> !Submittable(WithText(f, field, ""))
    ensures !Required(field) && Submittable(f) ==> Submittable(WithText(f, field, ""))
  {
    if !Required(field) && Submittable(f) {
      forall t | Required(t) ensures TextOf(WithText(f, field, ""), t) != "" {
        assert t != field;
      }
    }
  }

  /** The table's badge: `default` for an active operator, else `secondary`. */
  function OperatorBadge(status: OperatorStatus): (v: BadgeVariant)
    ensures v == Default <==> status == Active
    ensures v == Secondary <==> status.Inactive?
  {
    if status == Active then Default else Secondary
  }

  /** What a submit asks the backend to do: the form record, verbatim. */
  datatype Request = Create(data: OperatorForm) | Update(id: string, data: OperatorForm)

  /** The page's state: the dialog, the form, the operator being edited and
      the pending flags of the create and update mutations. */
  class AdminOperators {
    var isDialogOpen: bool
    var editingOperator: Option<Operator>
    var formData: OperatorForm
    var createPending: bool
    var updatePending: bool

    constructor()
      ensures !isDialogOpen && editingOperator == None && formData == EmptyForm
      ensures !createPending && !updatePending
    {
      isDialogOpen := false;
      editingOperator := None;
      formData := EmptyForm;
      createPending := false;
      updatePending := false;
    }

    /** `isPending`: the submit button is disabled while either mutation runs. */
    predicate IsPending(): (pending: bool)
      reads this
      ensures pending <==> createPending || updatePending
    {
      createPending || updatePending
    }

    method ResetForm()
      modifies this`formData, this`editingOperator
      ensures formData == EmptyForm && editingOperator == None
    {
      formData := EmptyForm;
      editingOperator := None;
    }

    method HandleEdit(op: Operator)
      modifies this`formData, this`editingOperator, this`isDialogOpen
      ensures editingOperator == Some(op) && formData == FormOf(op) && isDialogOpen
    {
      editingOperator := Some(op);
      formData := FormOf(op);
      isDialogOpen := true;
    }

    /** The dialog's `onOpenChange`: closing resets the form. */
    method OpenChange(open: bool)
      modifies this`isDialogOpen, this`formData, this`editingOperator
      ensures isDialogOpen == open
      ensures !open ==> formData == EmptyForm && editingOperator == None
      ensures open ==> formData == old(formData) && editingOperator == old(editingOperator)
    {
      isDialogOpen := open;
      if !open {
        ResetForm();
      }
    }

    /** The Cancel button as written: it sets the dialog's state directly,
        which does not fire `onOpenChange`, so the form is not reset. */
    method Cancel()
      modifies this`isDialogOpen
      ensures !isDialogOpen
    {
      isDialogOpen := false;
    }

    /** Cancel as intended: closing the dialog the way its own close
        controls do. */
    method CancelAndReset()
      modifies this`isDialogOpen, this`formData, this`editingOperator
      ensures !isDialogOpen && formData == EmptyForm && editingOperator == None
    {
      OpenChange(false);
    }

    method SetText(field: TextField, value: string)
      modifies this`formData
      ensures formData == WithText(old(formData), field, value)
    {
      formData := WithText(formData, field, value);
    }

    /** The user types into the three required inputs, one after the other. */
    method FillRequired(name: string, phone: string, city: string)
      modifies this`formData
      ensures formData == old(formData).(name := name, phone := phone, city := city)
    {
      SetText(Name, name);
      SetText(Phone, phone);
      SetText(City, city);
      WithRequiredTexts(old(formData), name, phone, city);
    }

    /** `handleSubmit`: an update of the operator being edited, with its id,
        or else a create, carrying the form as it is. */
    method HandleSubmit() returns (req: Request)
      modifies this`createPending, this`updatePending
      ensures editingOperator.Some? ==> req == Update(editingOperator.value.id, formData)
      ensures editingOperator.None? ==> req == Create(formData)
      ensures createPending == (old(createPending) || editingOperator.None?)
      ensures updatePending == (old(updatePending) || editingOperator.Some?)
      ensures IsPending()
    {
      if editingOperator.Some? {
        req := Update(editingOperator.value.id, formData);
        updatePending := true;
      } else {
        req := Create(formData);
        createPending := true;
      }
    }

    /** Pressing the submit button, or Enter in a field: nothing happens
        while a mutation is pending, since the button is disabled, or while
        the form fails the browser's validation; otherwise `handleSubmit`
        runs on the form. */
    method Submit() returns (req: Option<Request>)
      modifies this`createPending, this`updatePending
      ensures req.None? <==> old(IsPending()) || !Submittable(formData)
      ensures req.None? ==> createPending == old(createPending) && updatePending == old(updatePending)
      ensures req.Some? ==> req.value == if editingOperator.Some? then Update(editingOperator.value.id, formData)
                                         else Create(formData)
      ensures req.Some? ==> createPending == editingOperator.None? && updatePending == editingOperator.Some?
    {
      if IsPending() || !Submittable(formData) {
        req := None;
      } else {
        var r := HandleSubmit();
        req := Some(r);
      }
    }

    /** A mutation settles: on success the form is reset and the dialog
        closed; on error the form stays as it was. */
    method Settle(req: Request, succeeded: bool)
      modifies this
      ensures req.Create? ==> !createPending && updatePending == old(updatePending)
      ensures req.Update? ==> !updatePending && createPending == old(createPending)
      ensures succeeded ==> formData == EmptyForm && editingOperator == None && !isDialogOpen
      ensures !succeeded ==> formData == old(formData) && editingOperator == old(editingOperator)
                             && isDialogOpen == old(isDialogOpen)
    {
      if req.Create? {
        createPending := false;
      } else {
        updatePending := false;
      }
      if succeeded {
        ResetForm();
        isDialogOpen := false;
      }
    }
  }

  /** The Cancel button as written: edit an operator, cancel, then open
      the dialog with "Add Operator" and submit. When the operator's form
      passes validation, the submit updates that operator instead of
      creating one. */
  method CreateAfterCancel(op: Operator) returns (req: Option<Request>)
    ensures Submittable(FormOf(op)) ==> req == Some(Update(op.id, FormOf(op)))
    ensures !Submittable(FormOf(op)) ==> req == None
  {
    var page := new AdminOperators();
    page.HandleEdit(op);
    page.Cancel();
    page.OpenChange(true);
    req := page.Submit();
  }

  /** The same steps with the intended cancel start from the empty form,
      which the browser refuses to submit; once the required fields are
      filled in, the submit creates a new operator. */
  method CreateAfterCancelAndReset(op: Operator, name: string, phone: string, city: string)
    returns (blocked: Option<Request>, req: Option<Request>)
    requires name != "" && phone != "" && city != ""
    ensures blocked == None
    ensures req == Some(Create(EmptyForm.(name := name, phone := phone, city := city)))
  {
    var page := new AdminOperators();
    page.HandleEdit(op);
    page.CancelAndReset();
    page.OpenChange(true);
    EmptyFormNeedsRequiredFields(name, phone, city);
    blocked := page.Submit();
    page.FillRequired(name, phone, city);
    req := page.Submit();
  }
}
