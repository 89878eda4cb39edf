# Tour booking front end — a Dafny model

This project models the client-side logic of a group-tour booking site.

- **Public tour list.** Filter criteria are seeded from the query string, changed one key at a time, and applied as a five-way conjunctive filter over the fetched tours.
- **Home page search.** The search box hands its choices to the tour list through URL query parameters.
- **Featured tours.** The home page shows the first six.
- **Enquiry form.** Submitting trims the fields, refuses a blank name or phone, stores a blank message as null, and clears the form only on success.
- **Tour detail page.** Covers the loading / not-found / details precedence and the in-place sort of the itinerary by day. Also the hero image fallback and the operator's WhatsApp link.
- **Admin enquiries table.** Status badges, the reply link, the status update, and the cell fallbacks.
- **Admin dashboard.** Counts over the three status lists, and the `|| 0` display fallbacks.
- **Admin tours and operators pages.** The dialog state (form, record being edited, open flag, pending flags), `resetForm`, `handleEdit`, `handleSubmit`, the rows sent to the backend, the text and numeric inputs, and the browser's `required` and `min` checks that decide whether a submit reaches `handleSubmit`.

The code is organised as follows:

- **Shared modules.** Options, Sequences, Strings, Database, Ui, QueryParams, WhatsApp.
- **Page modules.** There is one module per page: ToursPage, HomePage, EnquiryFormComponent, TourDetailsPage, AdminEnquiriesPage, AdminDashboardPage, AdminToursPage and AdminOperatorsPage.

Pure code is modelled as functions with lemmas. Components whose state fields are overwritten by handlers are classes with `modifies` clauses: the tour list's filters, the enquiry form, and the admin dialogs. The in-place `Array.prototype.sort` of the itinerary is an insertion sort on an `array`, proved equal to a stable functional sort.

The hosted database is never called. Rows fetched from it are inputs. A backend reply is a `succeeded: bool` parameter. The effect of an update on a row is modelled by `ApplyWrite` / `ApplyStatusUpdate`.

## Model

| member | source | states |
|---|---|---|
| Strings.Lower | src/pages/Tours.tsx:31-35 | `toLowerCase` keeps the length, maps each character to its lower-case form, and leaves no upper-case letter |
| Strings.LowerIdempotent | src/pages/Tours.tsx:31-35 | lowering twice is lowering once, so the search criterion and the fields compare in one case |
| Strings.ContainsIff | src/pages/Tours.tsx:33-47 | `includes` holds exactly when the pattern occurs at some index of the text |
| Strings.EmptyIsContained | src/pages/Tours.tsx:47 | every string includes the empty string |
| Strings.Trim | src/components/tours/EnquiryForm.tsx:25 | `trim` yields a contiguous slice with only whitespace removed on both sides; it is empty exactly when the input is all whitespace, and otherwise starts and ends with a non-whitespace character |
| Strings.TrimIdempotent | src/components/tours/EnquiryForm.tsx:40-42 | trimming a trimmed value changes nothing |
| Strings.TrimFixed | src/components/tours/EnquiryForm.tsx:40-42 | a value that neither starts nor ends with whitespace is sent unchanged |
| Strings.Digits | src/pages/admin/Enquiries.tsx:69 | `replace(/\D/g, "")` leaves only digits and never lengthens the phone |
| Strings.DigitsExactly | src/pages/admin/Enquiries.tsx:69 | the cleaned phone is a subsequence of the phone holding every digit it contains as often as it occurs, and no other character |
| Strings.DigitsIdempotent | src/pages/TourDetails.tsx:64 | cleaning an already cleaned number changes nothing |
| Strings.ParseInt | src/pages/admin/Tours.tsx:356 | `parseInt` of a blank string is NaN (`None`) |
| Strings.ParseDecimal | src/pages/admin/Tours.tsx:356-392 | `parseInt` reads every decimal numeral and its negation back as the number |
| Database.ParseTourStatus | src/types/database.ts:28 | a status string parses to a tour status exactly when it is one of the four names, and to a given status exactly when it is that status's name |
| Database.ParseOperatorStatus | src/types/database.ts:10 | the same for the two operator statuses |
| Database.ParseEnquiryStatus | src/types/database.ts:55 | the same for the three enquiry statuses |
| ToursPage.InitialFilters | src/pages/Tours.tsx:13-19 | search starts empty and type and month at `"All"`; departure and destination are `"All"` exactly when the parameter is absent, empty or `"All"`, and otherwise the parameter |
| ToursPage.SetFilter | src/pages/Tours.tsx:21-23 | the named criterion takes the value and every other criterion is unchanged; an unknown key changes no criterion |
| ToursPage.Tours.constructor | src/pages/Tours.tsx:13-19 | the page's filters start as `InitialFilters` of the departure and destination parameters |
| ToursPage.Tours.HandleFilterChange | src/pages/Tours.tsx:21-23 | the page's filters become `SetFilter` of the old filters |
| ToursPage.Keep | src/pages/Tours.tsx:28-65 | a kept tour matches the search in its title, destination or departure city, has the chosen departure city, tour type and month, and contains the chosen destination; with every criterion off each tour is kept |
| ToursPage.KeepIff | src/pages/Tours.tsx:28-65 | the early-return chain keeps a tour exactly when it meets all five criteria, each bypassed by its sentinel |
| ToursPage.FilteredTours | src/pages/Tours.tsx:25-66 | no tours gives `[]`; otherwise the result keeps input order (a subsequence), every kept tour meets every criterion, and every tour that meets them is kept as often as it occurs |
| ToursPage.FilterTwiceIsOnce | src/pages/Tours.tsx:25-66 | filtering a filtered list again changes nothing |
| ToursPage.SingleTourKeptIff | src/pages/Tours.tsx:28-65 | a one-tour list is kept exactly when the tour satisfies the criteria |
| ToursPage.FilterConcatenation | src/pages/Tours.tsx:28 | filtering two lists joined is joining their filtered lists |
| ToursPage.SentinelBypass | src/pages/Tours.tsx:42-61 | a criterion at its sentinel holds for every tour, and the full filter equals the filter with that criterion relaxed followed by that criterion alone |
| ToursPage.NoCriteriaKeepsAll | src/pages/Tours.tsx:26-65 | with empty search and every criterion at `"All"` all tours are listed |
| ToursPage.KeralaExample | src/pages/Tours.tsx:46-49 | destination `"Kerala"` over the Kerala and Char Dham tours keeps exactly the Kerala tour |
| QueryParams.Get | src/pages/Index.tsx:31-39 | `get` is absent exactly when no pair has the key |
| QueryParams.Set | src/pages/Index.tsx:33-39 | after `set(k, v)`, `get(k)` is `v` and every other key reads as before |
| HomePage.SearchQuery | src/pages/Index.tsx:30-41 | `departure` and `destination` are present exactly when chosen (non-empty and not `"all"`) and then hold that choice; `month` is present exactly when non-empty; no other key is set |
| HomePage.HandleSearch | src/pages/Index.tsx:30-43 | the parameters built by the three conditional `set` calls are `SearchQuery` of the search state |
| HomePage.InitialSearchIsEmpty | src/pages/Index.tsx:24-42 | the initial search produces no parameter at all |
| HomePage.SearchHandOff | src/pages/Index.tsx:30-43 | the tour list opened by a search starts with the chosen departure and destination, `"All"` for unchosen ones, and ignores the month |
| HomePage.Featured | src/pages/Index.tsx:147 | at most six tours are shown, the first ones in order, all of them when there are at most six |
| EnquiryFormComponent.AcceptsIff | src/components/tours/EnquiryForm.tsx:25-32 | a submission goes ahead exactly when neither the name nor the phone is all whitespace |
| EnquiryFormComponent.InsertPayload | src/components/tours/EnquiryForm.tsx:38-43 | the insert carries the tour id and the trimmed name and phone; the message is null exactly when it is blank, and otherwise its non-empty trimmed text |
| EnquiryFormComponent.AcceptedPayload | src/components/tours/EnquiryForm.tsx:38-43 | an accepted submission sends a non-empty, already trimmed name and phone |
| EnquiryFormComponent.EnquiryForm.constructor | src/components/tours/EnquiryForm.tsx:16-19 | the form starts with empty name, phone and message, not loading, and nothing sent, for the given tour |
| EnquiryFormComponent.EnquiryForm.SetName | src/components/tours/EnquiryForm.tsx:74 | typing sets the name to the input's value |
| EnquiryFormComponent.EnquiryForm.SetPhone | src/components/tours/EnquiryForm.tsx:86 | typing sets the phone to the input's value |
| EnquiryFormComponent.EnquiryForm.SetMessage | src/components/tours/EnquiryForm.tsx:97 | typing sets the message to the textarea's value |
| EnquiryFormComponent.EnquiryForm.Submit | src/components/tours/EnquiryForm.tsx:22-43 | an insert is issued and loading set exactly when the form is accepted, and the insert is the payload of the current fields; a refused form changes nothing |
| EnquiryFormComponent.EnquiryForm.Settle | src/components/tours/EnquiryForm.tsx:45-64 | loading ends; the three fields are cleared on success and kept on failure |
| EnquiryFormComponent.EnquiryForm.HandleSubmit | src/components/tours/EnquiryForm.tsx:22-65 | the whole handler: a request exactly when accepted, appended to the requests sent; fields cleared only when accepted and successful |
| EnquiryFormComponent.TypedCleanly | src/components/tours/EnquiryForm.tsx:25-43 | a name and phone typed without surrounding blanks, with no message, are accepted and sent as typed with a null message |
| EnquiryFormComponent.BlankNameExample | src/components/tours/EnquiryForm.tsx:25 | an empty or blank name is refused whatever the phone |
| WhatsApp.LinkRoundTrip | src/pages/TourDetails.tsx:64 | a link built from a digit string reads back as that number and that text |
| TourDetailsPage.ScreenFor | src/pages/TourDetails.tsx:31-54 | loading shows the spinner whatever else holds; otherwise an error or no tour shows not-found; otherwise the details of that tour |
| TourDetailsPage.InsertByDayPermutes | src/pages/TourDetails.tsx:57 | inserting an entry adds exactly that entry |
| TourDetailsPage.InsertByDaySorted | src/pages/TourDetails.tsx:57 | inserting into a day-sorted list keeps it day-sorted |
| TourDetailsPage.SortByDayCorrect | src/pages/TourDetails.tsx:57 | the sorted itinerary is ordered by day number and is a permutation of the fetched one |
| TourDetailsPage.SortByDayStable | src/pages/TourDetails.tsx:57 | entries sharing a day number keep their fetched order, as the stable `Array.prototype.sort` does |
| TourDetailsPage.InsertAt | src/pages/TourDetails.tsx:57 | one insertion pass leaves the prefix as `InsertByDay` of the old prefix and the old element, and the rest of the array untouched |
| TourDetailsPage.SortItinerary | src/pages/TourDetails.tsx:57 | sorting in place leaves the array equal to `SortByDay` of its old contents |
| TourDetailsPage.Itinerary | src/pages/TourDetails.tsx:57 | no itinerary lists nothing; otherwise the list is day-sorted and holds exactly the fetched entries |
| TourDetailsPage.ItineraryExample | src/pages/TourDetails.tsx:57 | days 3, 1, 2 are listed as 1, 2, 3 |
| TourDetailsPage.PrimaryImage | src/pages/TourDetails.tsx:56-61 | the hero image is the first image's URL when there is one and it is non-empty, else the default photo; never empty |
| TourDetailsPage.TourWhatsAppLink | src/pages/TourDetails.tsx:63-65 | the link is `"#"` exactly when there is no operator or an empty phone, and otherwise reads back as the phone's digits and the greeting with the tour title |
| AdminEnquiriesPage.EnquiryBadge | src/pages/admin/Enquiries.tsx:59-66 | new is destructive, contacted default, closed secondary, each exactly, and every other string outline |
| AdminEnquiriesPage.StatusBadgesDistinct | src/pages/admin/Enquiries.tsx:59-66 | the three enquiry statuses show three different badges, none of them outline |
| AdminEnquiriesPage.Reply | src/pages/admin/Enquiries.tsx:70 | the reply starts with "Hi " and the customer's name, and ends with the same closing sentence for every customer |
| AdminEnquiriesPage.ReplyNamesCustomer | src/pages/admin/Enquiries.tsx:70 | two customers get the same reply only when they have the same name |
| AdminEnquiriesPage.EnquiryWhatsAppLink | src/pages/admin/Enquiries.tsx:68-72 | the link starts with `https://wa.me/91` and reads back as the phone's digits and the encoded reply naming the customer |
| AdminEnquiriesPage.ApplyStatusUpdate | src/pages/admin/Enquiries.tsx:42-48 | the update changes only the status, only of rows with the selected id |
| AdminEnquiriesPage.StatusUpdateIdempotent | src/pages/admin/Enquiries.tsx:42-48 | applying the same status update twice is applying it once |
| AdminEnquiriesPage.LastUpdateWins | src/pages/admin/Enquiries.tsx:124-137 | status changes are unconstrained: a second update of an enquiry overrides the first, whatever either status |
| AdminEnquiriesPage.TextOr | src/pages/admin/Enquiries.tsx:109-113 | a null or empty value shows the placeholder, any other value shows itself; the cell is never empty |
| AdminEnquiriesPage.TourCell | src/pages/admin/Enquiries.tsx:109 | the joined tour's non-empty title, or "Unknown Tour" when no tour is joined or its title is empty |
| AdminEnquiriesPage.MessageCell | src/pages/admin/Enquiries.tsx:113 | the non-empty message, or "No message" when it is null or empty |
| AdminEnquiriesPage.SavedTourShowsTitle | src/pages/admin/Enquiries.tsx:109 | a tour saved through the admin dialog, whose title the browser requires, is listed by its title and never as "Unknown Tour" unless that is its title |
| AdminEnquiriesPage.BlankMessageShowsPlaceholder | src/pages/admin/Enquiries.tsx:113 | an enquiry sent with a blank message is listed with "No message", and otherwise with its trimmed text |
| AdminDashboardPage.CountStatus | src/pages/admin/Dashboard.tsx:25-27 | a filtered count never exceeds the number of rows, and no rows count 0 |
| AdminDashboardPage.CountIsMultiplicity | src/pages/admin/Dashboard.tsx:25-27 | a filtered count is the number of times the status occurs in the list |
| AdminDashboardPage.CountsPartition | src/pages/admin/Dashboard.tsx:27-28 | when every row has one of three distinct statuses, the three counts add up to the total |
| AdminDashboardPage.ComputeStats | src/pages/admin/Dashboard.tsx:19-29 | a missing list counts as empty; totals are list lengths, and the upcoming, active and new counts are occurrences of that status, each at most its total |
| AdminDashboardPage.Shown | src/pages/admin/Dashboard.tsx:61 | `stats?.x \|\| 0` is the count, or 0 when there are no statistics |
| AdminDashboardPage.CardsFor | src/pages/admin/Dashboard.tsx:61-104 | with no statistics every number shown is 0; otherwise each card shows its count |
| AdminDashboardPage.CardsConsistent | src/pages/admin/Dashboard.tsx:61-104 | the upcoming count appears twice and never exceeds the total, and new enquiries never exceed all enquiries |
| AdminToursPage.Payload | src/pages/admin/Tours.tsx:87-111 | the row written copies every form field, except that operator `""` is written as null; no empty operator id is ever written |
| AdminToursPage.FormOf | src/pages/admin/Tours.tsx:158-176 | the edit form copies the tour's columns, with null operator or description as `""` |
| AdminToursPage.ApplyWrite | src/pages/admin/Tours.tsx:106-113 | an update keeps the id, creation time and relations, stores every written column as written, and the written description as a non-null text |
| AdminToursPage.EditSaveRoundTrip | src/pages/admin/Tours.tsx:108-176 | edit then save unchanged reproduces the tour exactly when it has a description and an operator id that is not `""`; a null operator id is reproduced |
| AdminToursPage.SavedFormReopens | src/pages/admin/Tours.tsx:106-176 | any saved form shows again, unchanged, when the tour is reopened |
| AdminToursPage.NumberInput | src/pages/admin/Tours.tsx:356-392 | `parseInt(raw) \|\| fallback`: a non-zero parsed number is kept, NaN or 0 gives the fallback, and a non-zero fallback never yields 0 |
| AdminToursPage.TypedNumberKept | src/pages/admin/Tours.tsx:356-392 | a non-zero decimal, or its negation, is stored as typed: the handlers check no range |
| AdminToursPage.ClearedOrZeroFallsBack | src/pages/admin/Tours.tsx:356-392 | a cleared input and a typed `0` both give the fallback |
| AdminToursPage.WithNumber | src/pages/admin/Tours.tsx:356-392 | a numeric input sets its own field to `NumberInput` with its fallback (1, 0, 1, 0) and leaves every other field unchanged |
| AdminToursPage.WithNumberKeepsNonZero | src/pages/admin/Tours.tsx:356-381 | numeric inputs never make the duration or total seats 0 |
| AdminToursPage.WithText | src/pages/admin/Tours.tsx:228-346 | a text control's change sets its own field to the value and leaves every other field, number and the status unchanged |
| AdminToursPage.WithRequiredTexts | src/pages/admin/Tours.tsx:230-344 | typing into the title, destination and date inputs sets exactly those four fields |
| AdminToursPage.EmptyFormNeedsRequiredFields | src/pages/admin/Tours.tsx:224-393 | the empty form fails the browser's validation, and with the four required texts filled in it passes exactly when none of them is empty |
| AdminToursPage.NegativeNumberBlocksSubmit | src/pages/admin/Tours.tsx:353-393 | a negative number typed into any numeric input is stored, and the form then fails validation because of the input's `min` |
| AdminToursPage.FallbackKeepsSubmittable | src/pages/admin/Tours.tsx:353-393 | clearing a numeric input or typing 0 keeps a valid form valid: every fallback meets its `min` |
| AdminToursPage.TourBadge | src/pages/admin/Tours.tsx:187-194 | upcoming is default and ongoing secondary, each exactly, and everything else outline |
| AdminToursPage.DraftLooksCompleted | src/pages/admin/Tours.tsx:187-194 | draft and completed tours carry the same outline badge |
| AdminToursPage.AdminTours.constructor | src/pages/admin/Tours.tsx:41-60 | the page starts closed, with nothing being edited, the empty form, and no mutation pending |
| AdminToursPage.AdminTours.ResetForm | src/pages/admin/Tours.tsx:139-156 | the form becomes duration 1, price 0, seats 40/40, draft, empty text, and no tour is being edited |
| AdminToursPage.AdminTours.HandleEdit | src/pages/admin/Tours.tsx:158-176 | the tour is being edited, the form is its `FormOf`, and the dialog is open |
| AdminToursPage.AdminTours.OpenChange | src/pages/admin/Tours.tsx:207-210 | the dialog takes the new state; closing resets the form, opening keeps it |
| AdminToursPage.AdminTours.IsPending | src/pages/admin/Tours.tsx:196 | pending exactly when the create or the update mutation is pending |
| AdminToursPage.AdminTours.SetNumber | src/pages/admin/Tours.tsx:356-392 | the form becomes `WithNumber` of the old form |
| AdminToursPage.AdminTours.SetText | src/pages/admin/Tours.tsx:228-346 | the form becomes `WithText` of the old form |
| AdminToursPage.AdminTours.FillRequired | src/pages/admin/Tours.tsx:230-344 | after typing into the four required inputs the form holds those four values and is otherwise unchanged |
| AdminToursPage.AdminTours.Submit | src/pages/admin/Tours.tsx:224-402 | no request and no state change exactly when a mutation is pending or the form fails validation; otherwise the request of `handleSubmit`, with only the matching mutation pending |
| AdminToursPage.AdminTours.HandleSubmit | src/pages/admin/Tours.tsx:178-196 | an update with the edited tour's id exactly when a tour is being edited, else a create, both carrying the form's payload; the matching mutation becomes pending, so `isPending` holds |
| AdminToursPage.AdminTours.Settle | src/pages/admin/Tours.tsx:95-122 | the settled mutation stops pending; success resets the form and closes the dialog, failure keeps both |
| AdminToursPage.AdminTours.Cancel | src/pages/admin/Tours.tsx:399 | the Cancel button only closes the dialog |
| AdminToursPage.CreateAfterCancel | src/pages/admin/Tours.tsx:399 | edit, Cancel, "Create Tour", submit sends an update of the edited tour whenever its form passes validation, and nothing otherwise |
| AdminToursPage.AdminTours.CancelAndReset | src/pages/admin/Tours.tsx:207-210 | closing through `onOpenChange` resets the form and clears the tour being edited |
| AdminToursPage.CreateAfterCancelAndReset | src/pages/admin/Tours.tsx:178-185 | with a resetting cancel the same steps reach the empty form, whose submit the browser blocks; after the four required fields are typed the submit creates a tour from the empty form with those fields |
| AdminOperatorsPage.FormOf | src/pages/admin/Operators.tsx:127-140 | the edit form copies the operator's columns, with null contact person, email or description as `""` |
| AdminOperatorsPage.ApplyWrite | src/pages/admin/Operators.tsx:85 | the verbatim update stores every column of the form, the form's text in the three nullable columns, and keeps the id and creation time |
| AdminOperatorsPage.EditSaveRoundTrip | src/pages/admin/Operators.tsx:85-140 | edit then save unchanged reproduces the operator exactly when none of its three nullable columns is null, and each null one becomes `""` |
| AdminOperatorsPage.SavedFormReopens | src/pages/admin/Operators.tsx:85-140 | any saved form shows again, unchanged, when the operator is reopened |
| AdminOperatorsPage.SecondSaveIsIdentity | src/pages/admin/Operators.tsx:85-140 | after one save, editing and saving again reproduces the row |
| AdminOperatorsPage.WithText | src/pages/admin/Operators.tsx:183-236 | a text input's change sets its own field to the value and leaves every other field, the verified flag and the status unchanged |
| AdminOperatorsPage.WithRequiredTexts | src/pages/admin/Operators.tsx:186-226 | typing into the name, phone and city inputs sets exactly those three fields |
| AdminOperatorsPage.EmptyFormNeedsRequiredFields | src/pages/admin/Operators.tsx:183-228 | the empty form fails the browser's validation, and with name, phone and city filled in it passes exactly when none of them is empty |
| AdminOperatorsPage.ClearingRequiredBlocksSubmit | src/pages/admin/Operators.tsx:183-237 | clearing name, phone or city makes any form fail validation; clearing contact person, email or description keeps a valid form valid |
| AdminOperatorsPage.OperatorBadge | src/pages/admin/Operators.tsx:314 | active is default and inactive secondary |
| AdminOperatorsPage.AdminOperators.constructor | src/pages/admin/Operators.tsx:38-53 | the page starts closed, with nothing being edited, the empty form, and no mutation pending |
| AdminOperatorsPage.AdminOperators.ResetForm | src/pages/admin/Operators.tsx:113-125 | the form becomes empty text, not verified, active, and no operator is being edited |
| AdminOperatorsPage.AdminOperators.HandleEdit | src/pages/admin/Operators.tsx:127-140 | the operator is being edited, the form is its `FormOf`, and the dialog is open |
| AdminOperatorsPage.AdminOperators.OpenChange | src/pages/admin/Operators.tsx:162-165 | the dialog takes the new state; closing resets the form, opening keeps it |
| AdminOperatorsPage.AdminOperators.IsPending | src/pages/admin/Operators.tsx:151 | pending exactly when the create or the update mutation is pending |
| AdminOperatorsPage.AdminOperators.SetText | src/pages/admin/Operators.tsx:183-236 | the form becomes `WithText` of the old form |
| AdminOperatorsPage.AdminOperators.FillRequired | src/pages/admin/Operators.tsx:186-226 | after typing into the three required inputs the form holds those three values and is otherwise unchanged |
| AdminOperatorsPage.AdminOperators.Submit | src/pages/admin/Operators.tsx:179-275 | no request and no state change exactly when a mutation is pending or the form fails validation; otherwise the request of `handleSubmit`, with only the matching mutation pending |
| AdminOperatorsPage.AdminOperators.HandleSubmit | src/pages/admin/Operators.tsx:142-151 | an update of the edited operator's id exactly when one is being edited, else a create, both carrying the form verbatim; the matching mutation becomes pending, so `isPending` holds |
| AdminOperatorsPage.AdminOperators.Settle | src/pages/admin/Operators.tsx:72-96 | the settled mutation stops pending; success resets the form and closes the dialog, failure keeps both |
| AdminOperatorsPage.AdminOperators.Cancel | src/pages/admin/Operators.tsx:272 | the Cancel button only closes the dialog |
| AdminOperatorsPage.CreateAfterCancel | src/pages/admin/Operators.tsx:272 | edit, Cancel, "Add Operator", submit sends an update of the edited operator whenever its form passes validation, and nothing otherwise |
| AdminOperatorsPage.AdminOperators.CancelAndReset | src/pages/admin/Operators.tsx:162-165 | closing through `onOpenChange` resets the form and clears the operator being edited |
| AdminOperatorsPage.CreateAfterCancelAndReset | src/pages/admin/Operators.tsx:142-149 | with a resetting cancel the same steps reach the empty form, whose submit the browser blocks; after name, phone and city are typed the submit creates an operator from the empty form with those fields |

## Left out

- Hosted database calls are not modelled: selects, inserts, updates, deletes, their ordering and their errors. Fetched rows are inputs, a reply is a boolean, and only the row effect of an update is modelled.
- The delete buttons of the admin tables are not modelled. Each sends a remote delete of one id; nothing is checked on the client, and no client state changes.
- React Query caching, invalidation and refetching are not modelled. The dashboard's `Promise.all` is modelled only as its three settled lists. Toasts, `console.error`, `window.open` and navigation are also out.
- Authentication, routing and the presentational components are not modelled; they hold no logic of their own.
- Strings.Lower: lower-cases ASCII letters only. JavaScript's `toLowerCase` also folds non-ASCII letters.
- ToursPage.Keep: the start date's month name (`toLocaleString` with the default locale) is a parameter `monthOf`. Date parsing and locales are not modelled.
- AdminEnquiriesPage.EnquiryWhatsAppLink: `encodeURIComponent` is a parameter `encode`. The link from the tour page is built without encoding, as written, so its text is the raw greeting.
- QueryParams.Set: serialising the parameters with `toString` and parsing them back on the tour list are not modelled. The hand-off is stated on `get` after `set`.
- Strings.ParseInt: reads an optional sign, an optional `0x` prefix and a run of digits. It does not model JavaScript numbers: there are no doubles, no precision loss on very long numerals, and radix prefixes other than hexadecimal are absent.
- ToursPage.SetFilter: an unknown key leaves the five criteria unchanged. The extra property that JavaScript adds is never read, so it is not modelled.
- EnquiryFormComponent.EnquiryForm.Submit: requires the form not to be loading, because the submit button is disabled while a request runs. The HTML `required` attribute on the name and phone is not modelled separately: an empty value is blank, so the handler's own check refuses it as well.
- AdminToursPage.Submittable: the date inputs' format check is not modelled. A non-empty date text counts as present; the browser would show a malformed stored date as empty and block the submit.
- AdminToursPage.Submittable: browser number-input sanitising and the `step` check are not modelled. The numbers are the integers the handlers store.
- AdminOperatorsPage.Submittable: the email input's `type="email"` syntax check is not modelled. A non-empty email that is not a valid address blocks the submit in the browser, and the model submits it.
- The status selects of both dialogs, and the operator dialog's verified switch, are not modelled as handlers. Each stores its value in one field of the form.
- AdminToursPage.ApplyWrite: keeps the joined operator of the row. After an update the page refetches that relation, and that refetch is not modelled.
- AdminDashboardPage.ComputeStats: the loading spinner of the dashboard is not modelled.

## Findings

| source | as written | input that shows it | evidently intended | confidence | as-written member | corrected member |
|---|---|---|---|---|---|---|
| src/pages/admin/Tours.tsx:399 | Cancel sets `isDialogOpen` directly. A controlled dialog fires `onOpenChange` only for its own open and close events, so `resetForm` is skipped and `editingTour` stays set. | Edit a tour T whose form passes validation, press Cancel, press "Create Tour", submit: an update of T is sent, and the dialog is titled "Edit Tour" | Cancel resets the form as closing the dialog does, so "Create Tour" starts from the empty form and creates | medium; not executed; relies on the dialog component calling `onOpenChange` only for its own interactions | AdminToursPage.CreateAfterCancel | AdminToursPage.CreateAfterCancelAndReset |
| src/pages/admin/Operators.tsx:272 | The same Cancel button. `editingOperator` survives the cancel. | Edit an operator O with a name, phone and city, press Cancel, press "Add Operator", submit: an update of O is sent | Cancel resets the form | medium; not executed; same dependence on the dialog component | AdminOperatorsPage.CreateAfterCancel | AdminOperatorsPage.CreateAfterCancelAndReset |

## Notes on the code

- Every `x || fallback` follows JavaScript truthiness, and the model does the same. An empty first image URL shows the default photo. An empty tour title or message shows the placeholder. A typed `0` for duration or total seats becomes 1.
- The numeric handlers store any non-zero parsed value, negative ones included (`AdminToursPage.TypedNumberKept`). Only the inputs' `min` attributes keep a negative number from being submitted (`AdminToursPage.NegativeNumberBlocksSubmit`). Nothing relates available seats to total seats, so a submitted form can offer more seats than the tour has.
- The Active Operators card is labelled "Verified partners", but it counts operators whose status is `active` and ignores the `verified` flag.
- The destination criterion of the tour list is case-sensitive (`includes` without lowering), unlike the search box.
