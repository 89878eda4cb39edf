/** The public enquiry form (`src/components/tours/EnquiryForm.tsx`): three
    text fields and a `loading` flag, a presence check on the trimmed name and
    phone, the normalised insert request, and the backend's answer, which
    arrives later as success or failure. */
module EnquiryFormComponent {
  import opened Options
  import opened Strings

  /** The row the form asks the backend to insert. */
  datatype EnquiryInsert = EnquiryInsert(tour_id: string, name: string, phone: string, message: Option<string>)

  /** The presence check: both the trimmed name and the trimmed phone are non-empty. */
  predicate Accepts(name: string, phone: string) {
    Trim(name) != "" && Trim(phone) != ""
  }

  /** A submission is refused exactly when the name or the phone is blank. */
  lemma AcceptsIff(name: string, phone: string)
    ensures Accepts(name, phone) <==> !AllWhitespace(name) && !AllWhitespace(phone)
  {
  }

  /** The insert payload: the tour id, the trimmed name and phone, and the
      trimmed message, with a blank message sent as null. */
  function InsertPayload(tourId: string, name: string, phone: string, message: string): (p: EnquiryInsert)
    ensures p.tour_id == tourId && p.name == Trim(name) && p.phone == Trim(phone)
    ensures p.message.None? <==> AllWhitespace(message)
    ensures p.message.Some? ==> p.message.value == Trim(message) && p.message.value != ""
  {
    var m := Trim(message);
    EnquiryInsert(tourId, Trim(name), Trim(phone), if m != "" then Some(m) else None)
  }

  /** What an accepted submission sends: a non-empty name and phone that
      trimming leaves as they are. */
  lemma AcceptedPayload(tourId: string, name: string, phone: string, message: string)
    requires Accepts(name, phone)
    ensures InsertPayload(tourId, name, phone, message).name != ""
    ensures InsertPayload(tourId, name, phone, message).phone != ""
    ensures Trim(InsertPayload(tourId, name, phone, message).name) == InsertPayload(tourId, name, phone, message).name
    ensures Trim(InsertPayload(tourId, name, phone, message).phone) == InsertPayload(tourId, name, phone, message).phone
  {
    TrimIdempotent(name);
    TrimIdempotent(phone);
  }

  /** The form component's state. `requests` records the inserts issued. */
  class EnquiryForm {
    const tourId: string
    var name: string
    var phone: string
    var message: string
    var loading: bool
    var requests: seq<EnquiryInsert>

    constructor (tourId: string)
      ensures this.tourId == tourId
      ensures name == "" && phone == "" && message == "" && !loading && requests == []
    {
      this.tourId := tourId;
      name, phone, message := "", "", "";
      loading := false;
      requests := [];
    }

    /** The `onChange` handlers of the three inputs. */
    method SetName(v: string)
      modifies this`name
      ensures name == v
    {
      name := v;
    }

    method SetPhone(v: string)
      modifies this`phone
      ensures phone == v
    {
      phone := v;
    }

    method SetMessage(v: string)
      modifies this`message
      ensures message == v
    {
      message := v;
    }

    /** The part of `handleSubmit` before the `await`: refuse a blank name or
        phone without touching anything, otherwise raise `loading` and issue
        the insert. The submit button is disabled while `loading`. */
    method Submit() returns (request: Option<EnquiryInsert>)
      requires !loading
      modifies this`loading, this`requests
      ensures request.Some? <==> Accepts(name, phone)
      ensures request.None? ==> !loading && requests == old(requests)
      ensures request.Some? ==> request.value == InsertPayload(tourId, name, phone, message)
      ensures request.Some? ==> loading && requests == old(requests) + [request.value]
    {
      if Trim(name) == "" || Trim(phone) == "" {
        return None;
      }
      loading := true;
      var p := InsertPayload(tourId, name, phone, message);
      requests := requests + [p];
      request := Some(p);
    }

    /** The part after the `await`: on success clear the three fields, on
        failure keep them, and lower `loading` in either case. */
    method Settle(succeeded: bool)
      requires loading
      modifies this`name, this`phone, this`message, this`loading
      ensures !loading
      ensures succeeded ==> name == "" && phone == "" && message == ""
      ensures !succeeded ==> name == old(name) && phone == old(phone) && message == old(message)
    {
      if succeeded {
        name := "";
        phone := "";
        message := "";
      }
      loading := false;
    }

    /** The whole `handleSubmit` with the backend's answer `succeeded`. */
    method HandleSubmit(succeeded: bool) returns (request: Option<EnquiryInsert>)
      requires !loading
      modifies this
      ensures !loading
      ensures request.Some? <==> Accepts(old(name), old(phone))
      ensures request.Some? ==> request.value == InsertPayload(tourId, old(name), old(phone), old(message))
      ensures requests == old(requests) + if request.Some? then [request.value] else []
      ensures request.Some? && succeeded ==> name == "" && phone == "" && message == ""
      ensures request.None? || !succeeded ==>
                name == old(name) && phone == old(phone) && message == old(message)
    {
      request := Submit();
      if request.Some? {
        Settle(succeeded);
      }
    }
  }

  /** A name and a phone typed without surrounding blanks, and no message:
      accepted, and sent as typed with a null message. */
  lemma TypedCleanly(tourId: string, name: string, phone: string)
    requires name != [] && !IsJsWhitespace(name[0]) && !IsJsWhitespace(name[|name| - 1])
    requires phone != [] && !IsJsWhitespace(phone[0]) && !IsJsWhitespace(phone[|phone| - 1])
    ensures Accepts(name, phone)
    ensures InsertPayload(tourId, name, phone, "") == EnquiryInsert(tourId, name, phone, None)
  {
    TrimFixed(name);
    TrimFixed(phone);
  }

  /** A blank name is refused whatever the phone. */
  lemma BlankNameExample(phone: string)
    ensures !Accepts("", phone) && !Accepts(" \t", phone)
  {
    AcceptsIff("", phone);
    AcceptsIff(" \t", phone);
  }
}
