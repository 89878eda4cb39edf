/** The admin enquiries table: the status badge of each row, the reply link
    that opens a WhatsApp chat with the customer, the status change written
    back to the `enquiries` table, and the fallbacks of the tour and message
    cells. */
module AdminEnquiriesPage {
  import opened Options
  import opened Strings
  import opened Database
  import opened Ui
  import WhatsApp
  import EnquiryFormComponent
  import AdminToursPage

  /** `getStatusColor`: the badge variant for an enquiry's status string. */
  function EnquiryBadge(status: string): (v: BadgeVariant)
    ensures v == Destructive <==> status == "new"
    ensures v == Default <==> status == "contacted"
    ensures v == Secondary <==> status == "closed"
    ensures v == Outline <==> status !in ["new", "contacted", "closed"]
  {
    match status
    case "new" => Destructive
    case "contacted" => Default
    case "closed" => Secondary
    case _ => Outline
  }

  /** The three statuses an enquiry can have are told apart by their badges,
      and none of them falls through to the catch-all variant. */
  lemma StatusBadgesDistinct(a: EnquiryStatus, b: EnquiryStatus)
    ensures EnquiryBadge(EnquiryStatusName(a)) != Outline
    ensures a != b ==> EnquiryBadge(EnquiryStatusName(a)) != EnquiryBadge(EnquiryStatusName(b))
  {
  }

  const ReplyClosing := ", thank you for your enquiry about our tour. How can I help you?"

  /** The reply the admin sends: a greeting that names the customer,
      followed by the same closing for everyone. */
  function Reply(name: string): (r: string)
    ensures StartsWith(r, "Hi " + name)
    ensures |r| == 3 + |name| + |ReplyClosing|
    ensures r[3 + |name|..] == ReplyClosing
  {
    "Hi " + name + ReplyClosing
  }

  /** Different customers get different replies. */
  lemma ReplyNamesCustomer(a: string, b: string)
    requires Reply(a) == Reply(b)
    ensures a == b
  {
    assert |a| == |b|;
    assert ("Hi " + a)[3..] == a && ("Hi " + b)[3..] == b;
    assert Reply(a)[..3 + |a|] == "Hi " + a && Reply(b)[..3 + |b|] == "Hi " + b;
  }

  /** `handleWhatsApp`: the link opened for a customer. The phone keeps only
      its digits and the reply is passed through `encode`, the browser's
      `encodeURIComponent`. Unlike the tour page there is no `"#"` fallback:
      an empty phone still yields a link, to `https://wa.me/91`. */
  function EnquiryWhatsAppLink(phone: string, name: string, encode: string -> string): (link: string)
    ensures StartsWith(link, WhatsApp.Prefix)
    ensures WhatsApp.ParseLink(link) == Some((Digits(phone), encode(Reply(name))))
  {
    WhatsApp.LinkRoundTrip(Digits(phone), encode(Reply(name)));
    WhatsApp.Link(Digits(phone), encode(Reply(name)))
  }

  /** The status mutation: `update({ status }).eq("id", id)`. */
  datatype StatusUpdate = StatusUpdate(id: string, status: EnquiryStatus)

  /** The rows of the `enquiries` table after a status update: every row with
      the id gets the new status and nothing else about any row changes. */
  function ApplyStatusUpdate(rows: seq<Enquiry>, u: StatusUpdate): (r: seq<Enquiry>)
    ensures |r| == |rows|
    ensures forall i :: 0 <= i < |rows| && rows[i].id == u.id ==> r[i] == rows[i].(status := u.status)
    ensures forall i :: 0 <= i < |rows| && rows[i].id != u.id ==> r[i] == rows[i]
  {
    if rows == [] then []
    else
      var head := if rows[0].id == u.id then rows[0].(status := u.status) else rows[0];
      [head] + ApplyStatusUpdate(rows[1..], u)
  }

  /** Writing the same update twice leaves the table as one write does. */
  lemma {:induction false} StatusUpdateIdempotent(rows: seq<Enquiry>, u: StatusUpdate)
    ensures ApplyStatusUpdate(ApplyStatusUpdate(rows, u), u) == ApplyStatusUpdate(rows, u)
  {
    if rows != [] {
      StatusUpdateIdempotent(rows[1..], u);
      assert ApplyStatusUpdate(rows, u)[1..] == ApplyStatusUpdate(rows[1..], u);
    }
  }

  /** The select offers every status from every status: there is no
      workflow, so a closed enquiry can be reopened as new and a later
      update simply overwrites an earlier one. */
  lemma {:induction false} LastUpdateWins(rows: seq<Enquiry>, id: string, s: EnquiryStatus, t: EnquiryStatus)
    ensures ApplyStatusUpdate(ApplyStatusUpdate(rows, StatusUpdate(id, s)), StatusUpdate(id, t))
         == ApplyStatusUpdate(rows, StatusUpdate(id, t))
  {
    if rows != [] {
      LastUpdateWins(rows[1..], id, s, t);
      assert ApplyStatusUpdate(rows, StatusUpdate(id, s))[1..] == ApplyStatusUpdate(rows[1..], StatusUpdate(id, s));
    }
  }

  const UnknownTour := "Unknown Tour"
  const NoMessage := "No message"

  /** `value || placeholder` for a nullable text column: null and the empty
      string both show the placeholder. */
  function TextOr(value: Option<string>, placeholder: string): (text: string)
    ensures value.Some? && value.value != "" ==> text == value.value
    ensures value.None? || value.value == "" ==> text == placeholder
    ensures placeholder != "" ==> text != ""
  {
    if value.Some? && value.value != "" then value.value else placeholder
  }

  /** The tour cell, `enquiry.tour?.title || "Unknown Tour"`: the joined
      tour's title, or the placeholder when there is no joined tour or its
      title is empty. */
  function TourCell(tour: Option<Tour>): (text: string)
    ensures tour.Some? && tour.value.title != "" ==> text == tour.value.title
    ensures tour.None? || tour.value.title == "" ==> text == UnknownTour
  {
    TextOr(if tour.Some? then Some(tour.value.title) else None, UnknownTour)
  }

  /** The message cell, `enquiry.message || "No message"`: the message, or
      the placeholder when it is null or empty. */
  function MessageCell(message: Option<string>): (text: string)
    ensures message.Some? && message.value != "" ==> text == message.value
    ensures message.None? || message.value == "" ==> text == NoMessage
  {
    TextOr(message, NoMessage)
  }

  /** A tour saved through the admin dialog always has a title, which the
      browser's `required` check enforces, so its enquiries show that title
      and "Unknown Tour" appears only when the tour is not joined. */
  lemma SavedTourShowsTitle(t: Tour, f: AdminToursPage.TourForm)
    requires AdminToursPage.Submittable(f)
    ensures TourCell(Some(AdminToursPage.ApplyWrite(t, AdminToursPage.Payload(f)))) == f.title
    ensures f.title != UnknownTour ==> TourCell(Some(AdminToursPage.ApplyWrite(t, AdminToursPage.Payload(f)))) != UnknownTour
  {
    assert AdminToursPage.Required(AdminToursPage.Title);
    assert AdminToursPage.TextOf(f, AdminToursPage.Title) == f.title;
  }

  /** An enquiry sent from the tour page never shows an empty message as
      such: the form stores a blank message as null, and the table shows
      null as the placeholder. */
  lemma BlankMessageShowsPlaceholder(tourId: string, name: string, phone: string, message: string)
    ensures MessageCell(EnquiryFormComponent.InsertPayload(tourId, name, phone, message).message)
         == if AllWhitespace(message) then NoMessage else Trim(message)
  {
  }
}
