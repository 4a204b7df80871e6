# Panel-shop back-office: a Dafny model

This project models the logic of a panel-beating shop's web front-end. It covers six screens:

- the **document editor**, which generates an invoice or a quote;
- the **invoice list**, with paging and status changes;
- the **quote-request dashboard**;
- the **printable document view**;
- the **invoice/quote conversion dialog**;
- the public **quote-request form**.

The editor holds an ordered list of repair items whose last entry is a fixed Labour line. Its properties are proved:

- Adding an item puts it just before Labour.
- Removing an item never drops Labour and never shrinks the list below two items.
- An edit through an enabled control keeps Labour last.
- The running total is the sum of the parsed amounts, with anything unparseable counted as 0.
- The posted payload says "Multiple" for more than two items, lists one "type: description" segment per item (split back at "; "), and carries the total.

Money is whole cents (`nat`). An amount typed into the editor is read by `Amounts.ParseAmount`, a narrow decimal parser. `Amounts.FormatCents` prints two decimals, and the two form a proved round trip.

The invoice list is modelled as a class holding the list and the current page. Paging arithmetic is proved:

- `ceil(n / 10)` pages;
- each page holds at most ten rows;
- pages 1..N partition the list in order;
- Previous and Next are clamped.

The status change follows the code as written: an optimistic update, then a "revert" map that changes nothing.

The dashboard updates a quote's status only after the backend accepts it. The printable view and the conversion dialog are modelled as functions over their input record. The quote form is the class `QuoteForm.QuoteFormState`, which holds the Formik values. Its setters stand for `handleChange` on the four inputs and for `setFieldValue` from the upload area. `Submit` posts only valid values and calls `resetForm` only on success. The body it posts is built by a loop method proved against the body's specification function.

Modules:

- `Common`: Option, document kind, stored auth, badge colour.
- `Text`: ASCII upper-casing, capitalisation, digits, join/split.
- `Amounts`: decimal cents.
- `ListOps`: the by-id `map`.
- `RepairItems`: the document editor.
- `InvoiceList`: the invoice list.
- `QuoteRequests`: the dashboard.
- `InvoiceRender`: the printable view.
- `Conversion`: the conversion dialog.
- `QuoteForm`: the quote-request form.

Backend calls appear only as their outcome: a `backendOk` or `postOk` flag, or the data a fetch returned. The stored login appears as a `StoredAuth` parameter. The current date is a `today` parameter.

## Model

| member | source | states |
|---|---|---|
| RepairItems.InitialItems | src/components/NewInvoiceModal.tsx:43-46 | the editor starts with two items, a blank one and then Labour; the list is well formed and its total is 0 |
| RepairItems.Total | src/components/NewInvoiceModal.tsx:79-81 | `calculateTotal` as a left fold over every item's parsed amount, an unparseable one adding 0 |
| RepairItems.TotalIsSumOfAmounts | src/components/NewInvoiceModal.tsx:79-81 | the folded total equals the sum of the parsed amounts taken from the front (an independent reference sum) |
| RepairItems.TotalAppend | src/components/NewInvoiceModal.tsx:79-81 | the total of two lists put together is the sum of their totals |
| RepairItems.TotalBoundsEachAmount | src/components/NewInvoiceModal.tsx:79-81 | every item's parsed amount is at most the total |
| RepairItems.ChangeItem | src/components/NewInvoiceModal.tsx:58-62 | an indexed field update: only field f of item i takes the new value; the length and all other items and fields are unchanged |
| RepairItems.ControlEnabled | src/components/NewInvoiceModal.tsx:267 | the type and description inputs are disabled exactly on the last (Labour) row; every amount input is enabled |
| RepairItems.WithField | src/components/NewInvoiceModal.tsx:60 | `{ ...item, [field]: value }` sets the named field and keeps the other two |
| RepairItems.EnabledChangeKeepsWellFormed | src/components/NewInvoiceModal.tsx:267-303 | an edit through an enabled control (any field of a non-Labour row, or Labour's amount) keeps Labour last and the length at least 2 |
| RepairItems.TextChangeKeepsTotal | src/components/NewInvoiceModal.tsx:58-62 | editing an item's type or description leaves the total unchanged |
| RepairItems.ReplaceTotal | src/components/NewInvoiceModal.tsx:58-62 | replacing one item changes the total by exactly the difference of the two parsed amounts |
| RepairItems.InsertBeforeLast | src/components/NewInvoiceModal.tsx:66-67 | `splice(length - 1, 0, x)`: one longer, x at index length-1 (0 for an empty list), earlier items in place, later ones shifted by one |
| RepairItems.SpliceIndex | src/components/NewInvoiceModal.tsx:67 | the start `length - 1` as `splice` clamps it: one before the end, or 0 on an empty list |
| RepairItems.AddKeepsLabourLast | src/components/NewInvoiceModal.tsx:64-69 | adding a blank item keeps the list well formed, keeps the items before Labour in order, and leaves Labour untouched and last |
| RepairItems.AddBlankKeepsTotal | src/components/NewInvoiceModal.tsx:64-81 | adding a blank item leaves the total unchanged |
| RepairItems.FilterOut | src/components/NewInvoiceModal.tsx:74 | filtering by index drops exactly item i when i is in range and otherwise returns the list unchanged |
| RepairItems.RemoveOffered | src/components/NewInvoiceModal.tsx:311 | the remove button shows exactly when there are more than two rows and the row is not the last |
| RepairItems.RemoveItem | src/components/NewInvoiceModal.tsx:71-77 | item i is deleted only when the length is over 2 and i is not the last index; otherwise the list is unchanged; the length never drops below 2 and the last item is kept |
| RepairItems.RemoveKeepsWellFormed | src/components/NewInvoiceModal.tsx:71-77 | removal keeps a well-formed list well formed |
| RepairItems.RemoveOfferedIffEffective | src/components/NewInvoiceModal.tsx:311 | the remove button appears on exactly the rows where pressing it changes the list |
| RepairItems.RemoveLowersTotal | src/components/NewInvoiceModal.tsx:71-81 | a removal lowers the total by exactly the removed item's parsed amount; a refused removal leaves it unchanged |
| RepairItems.TotalWithout | src/components/NewInvoiceModal.tsx:74-80 | dropping item i takes exactly its parsed amount off the total |
| RepairItems.SetFormValue | src/components/NewInvoiceModal.tsx:50-56 | `handleInputChange` sets the named key of the form record and leaves every other key unchanged |
| RepairItems.InitialForm | src/components/NewInvoiceModal.tsx:32-41 | the form starts with the quote's name, phone, car model and damage description (empty when there is no quote), the given date, and empty registration, type and total |
| RepairItems.BuildPayload | src/components/NewInvoiceModal.tsx:99-107 | the payload carries the quote id, the form's customer, vehicle and date fields, the items and the document kind unchanged |
| RepairItems.Segment | src/components/NewInvoiceModal.tsx:103 | one description segment: the row's type, ": ", its description |
| RepairItems.Segments | src/components/NewInvoiceModal.tsx:103 | the `map`: one segment per row, in order |
| Text.Join | src/components/NewInvoiceModal.tsx:103 | `join(sep)`: the segments with sep between consecutive ones, "" for none |
| RepairItems.PayloadRepairType | src/components/NewInvoiceModal.tsx:102 | when the first item's type is a drop-down option, the payload's repair type is "Multiple" iff there are more than two items, and otherwise the first item's type |
| RepairItems.PayloadDescriptionLists | src/components/NewInvoiceModal.tsx:103 | when no item text contains ';', splitting the description at "; " gives one "type: description" segment per item, in order |
| RepairItems.PayloadTotalIsSum | src/components/NewInvoiceModal.tsx:104 | the posted total equals the sum of the parsed amounts |
| RepairItems.KindLabel | src/components/NewInvoiceModal.tsx:139 | the heading word is the document kind's name capitalised |
| RepairItems.SubmitLabel | src/components/NewInvoiceModal.tsx:347 | the submit button reads "Creating..." while loading, and otherwise "Generate " with the capitalised kind |
| RepairItems.TotalLineReadsBack | src/components/NewInvoiceModal.tsx:329 | the two-decimal total line parses back to the total |
| RepairItems.NewInvoiceForm.constructor | src/components/NewInvoiceModal.tsx:31-48 | the initial state: invoice kind, the initial form, the initial items, not loading |
| RepairItems.NewInvoiceForm.ChangeInput | src/components/NewInvoiceModal.tsx:50-56 | the form becomes the old form with one key set |
| RepairItems.NewInvoiceForm.ChangeRepairItem | src/components/NewInvoiceModal.tsx:58-62 | the item list becomes the indexed update of the old list; on a well-formed list an edit through an enabled control keeps Labour last |
| RepairItems.NewInvoiceForm.AddRepairItem | src/components/NewInvoiceModal.tsx:64-69 | the list becomes the old list with a blank item spliced in before Labour (at index 0 when empty); a well-formed list stays well formed and the total is unchanged |
| RepairItems.NewInvoiceForm.RemoveRepairItem | src/components/NewInvoiceModal.tsx:71-77 | the list becomes the guarded removal of the old list; a well-formed list stays well formed |
| RepairItems.NewInvoiceForm.SubmissionPayload | src/components/NewInvoiceModal.tsx:99-107 | the submitted payload's total is `calculateTotal()`; its items and kind are the current state's |
| RepairItems.NewInvoiceForm.SetDocumentType | src/components/NewInvoiceModal.tsx:155-157 | the drop-down sets the document kind and nothing else |
| RepairItems.NewInvoiceForm.CalculateTotal | src/components/NewInvoiceModal.tsx:79-81 | `calculateTotal()` is the sum of every item's parsed amount, 0 for text that is no number |
| Amounts.ParseAmount | src/components/NewInvoiceModal.tsx:80 | a parsed amount comes from text that starts with a digit or a decimal point; anything else is no number |
| Amounts.LeadingPointAmounts | src/components/NewInvoiceModal.tsx:80 | ".5" reads as 50 cents, as `parseFloat` reads it as 0.5; a lone "." is no number |
| Amounts.AmountOf | src/components/NewInvoiceModal.tsx:80 | an item's contribution: the parsed cents, or 0 when the text is no number (`|| 0`) |
| Amounts.FormatCents | src/components/NewInvoiceModal.tsx:329 | `toFixed(2)` on cents: at least "0.00" long, with the decimal point third from the end |
| Amounts.ParseFormatRoundTrip | src/components/NewInvoiceModal.tsx:329 | printing cents with two decimals and parsing the result gives the cents back |
| Amounts.NatToDigitsRoundTrip | src/components/NewInvoiceModal.tsx:329 | the decimal digits of a number read back as that number |
| Text.SplitJoin | src/components/NewInvoiceModal.tsx:103 | joining ';'-free segments with "; " and splitting at "; " gives the segments back |
| Text.Capitalize | src/components/ConversionConfirmationModal.tsx:24 | `charAt(0).toUpperCase() + slice(1)`: the same length, the first character upper-cased, the rest as is |
| Text.CapitalizedKindWords | src/components/ConversionConfirmationModal.tsx:24 | "invoice" capitalises to "Invoice" and "quote" to "Quote" |
| Text.Upper | src/components/InvoicePDF.tsx:139 | `toUpperCase` on ASCII: the same length, each character upper-cased |
| Text.AllDigitsMeans | src/components/QuoteForm.tsx:19 | the digit predicate holds iff every character is 0-9 |
| Text.MatchesDigitsOnly | src/components/QuoteForm.tsx:19 | `^[0-9]+$`: at least one character, all of them ASCII digits |
| InvoiceList.TotalPages | src/pages/InvoiceManagement.tsx:32-35 | `ceil(n / 10)`: the least page count whose pages hold n rows; 0 iff there are no rows |
| InvoiceList.PageItems | src/pages/InvoiceManagement.tsx:36-37 | a page holds at most 10 rows |
| InvoiceList.StartIndex | src/pages/InvoiceManagement.tsx:36 | the first row of page p is row (p - 1) * 10 |
| InvoiceList.Slice | src/pages/InvoiceManagement.tsx:37 | `slice(start, end)`: within the list's bounds exactly the rows start up to end, and nothing when end <= start |
| InvoiceList.PageContents | src/pages/InvoiceManagement.tsx:36-37 | page p is exactly the rows (p-1)*10 up to min(n, p*10) |
| InvoiceList.PageNonEmptyIffInRange | src/pages/InvoiceManagement.tsx:35-37 | page p has rows iff 1 <= p <= TotalPages |
| InvoiceList.PagesUpToIsPrefix | src/pages/InvoiceManagement.tsx:36-37 | pages 1..k put together are the first min(n, 10k) rows |
| InvoiceList.PagesPartitionList | src/pages/InvoiceManagement.tsx:35-37 | pages 1..TotalPages put together are the whole list, in order |
| InvoiceList.PrevPage | src/pages/InvoiceManagement.tsx:274 | `max(p - 1, 1)`: never below 1 |
| InvoiceList.NextPage | src/pages/InvoiceManagement.tsx:281 | `min(p + 1, totalPages)`: never above the page count, one more while below it, the page count otherwise |
| InvoiceList.PageCountLabel | src/pages/InvoiceManagement.tsx:270 | the shown page count is TotalPages when positive, otherwise 1 |
| InvoiceList.PrevDisabled | src/pages/InvoiceManagement.tsx:275 | Previous is disabled exactly on page 1 |
| InvoiceList.NextDisabled | src/pages/InvoiceManagement.tsx:282 | Next is disabled exactly when the page equals the page count |
| InvoiceList.PagingStaysInRange | src/pages/InvoiceManagement.tsx:274-281 | with rows present, Previous and Next keep a page in 1..TotalPages |
| InvoiceList.NextOnEmptyListLeavesPageZero | src/pages/InvoiceManagement.tsx:270-282 | with no invoices, Next is enabled on page 1, leads to page 0, and that page shows no rows whatever the list later holds |
| InvoiceList.NextPageClamped | src/pages/InvoiceManagement.tsx:270-281 | Next clamped at the shown page count never leaves page 1 or later for a page below 1 |
| InvoiceList.NextPageClampedAgrees | src/pages/InvoiceManagement.tsx:281 | with at least one page, the clamped Next and the code's Next agree |
| InvoiceList.SetStatus | src/pages/InvoiceManagement.tsx:98-102 | the optimistic update gives exactly the invoices with that id the new status; the length, the order and all other fields are unchanged |
| InvoiceList.SetStatusLastWins | src/pages/InvoiceManagement.tsx:98-102 | of two status changes for one id, the later one wins |
| InvoiceList.RevertStatusAsWritten | src/pages/InvoiceManagement.tsx:120-124 | the "revert" map as written: each invoice with the id takes its own current status; the list keeps its length |
| InvoiceList.RevertAsWrittenKeepsOptimisticStatus | src/pages/InvoiceManagement.tsx:119-124 | the "revert" map is the identity, so after a failed update the optimistic status stays |
| InvoiceList.RevertAsWrittenDoesNotRollBack | src/pages/InvoiceManagement.tsx:98-124 | a concrete list on which a failed update is not rolled back |
| InvoiceList.RestoreStatus | src/pages/InvoiceManagement.tsx:119-124 | the intended rollback: matching invoices take back their earlier status; all others are unchanged |
| InvoiceList.RestoreUndoesSetStatus | src/pages/InvoiceManagement.tsx:98-124 | rolling back after the optimistic update gives exactly the list before it |
| InvoiceList.StatusBadge | src/pages/InvoiceManagement.tsx:226-232 | "paid" is green and "sent" is blue, each an iff; any other status is yellow |
| InvoiceList.StatusOptionsHaveDistinctBadges | src/pages/InvoiceManagement.tsx:226-236 | the three drop-down options get three different colours |
| InvoiceList.InvoiceManagementPage.ReceiveInvoices | src/pages/InvoiceManagement.tsx:67 | the list becomes the fetched data, or the empty list when there is none |
| InvoiceList.InvoiceManagementPage.Shown | src/pages/InvoiceManagement.tsx:36-37 | the rows shown for the current page, at most 10 |
| InvoiceList.InvoiceManagementPage.PageCount | src/pages/InvoiceManagement.tsx:35 | `totalPages`: the number of pages of the current list |
| InvoiceList.InvoiceManagementPage.Previous | src/pages/InvoiceManagement.tsx:274 | the page becomes PrevPage of the old page, at least 1 |
| InvoiceList.InvoiceManagementPage.Next | src/pages/InvoiceManagement.tsx:281 | the page becomes NextPage of the old page, at most the page count |
| InvoiceList.InvoiceManagementPage.ChangeStatus | src/pages/InvoiceManagement.tsx:82-127 | without a usable token nothing changes and the matching alert is returned; with one the list becomes the optimistic update, which stays even when the backend fails, and a failure is alerted |
| InvoiceList.InvoiceManagementPage.constructor | src/pages/InvoiceManagement.tsx:26-31 | the page starts with no invoices, on page 1 |
| QuoteRequests.StatusFromOption | src/pages/AdminDashboard.tsx:158-169 | a drop-down value names a status iff it is one of the three options |
| QuoteRequests.StatusOptionsRoundTrip | src/pages/AdminDashboard.tsx:5 | every status is an option, and reading its option back gives that status |
| QuoteRequests.StatusOptionsCoverStatuses | src/pages/AdminDashboard.tsx:167-169 | there are exactly three options, and each names a status whose name it is |
| QuoteRequests.SetQuoteStatus | src/pages/AdminDashboard.tsx:87-91 | exactly the quotes with that id get the new status; the length, the order and other fields are preserved |
| QuoteRequests.SetCurrentStatusIsNoOp | src/pages/AdminDashboard.tsx:87-91 | choosing the status the quote already has changes nothing |
| QuoteRequests.QuoteBadge | src/pages/AdminDashboard.tsx:159-165 | Completed is green, Contacted blue and Pending yellow, each an iff |
| QuoteRequests.ImageCount | src/pages/AdminDashboard.tsx:238 | the number of images when present, otherwise 0 |
| QuoteRequests.NoImagesNoticeIffCountZero | src/pages/AdminDashboard.tsx:238-254 | "No images uploaded" is shown iff the count is 0 |
| QuoteRequests.ShowsNoImagesNotice | src/pages/AdminDashboard.tsx:240-254 | "No images uploaded" is shown when the quote has no image list or an empty one |
| QuoteRequests.AdminDashboardPage.ReceiveQuotes | src/pages/AdminDashboard.tsx:51 | the list becomes the fetched data |
| QuoteRequests.AdminDashboardPage.ChangeStatus | src/pages/AdminDashboard.tsx:63-96 | the list changes only with a usable token and a backend success, and then becomes the by-id update; otherwise it is exactly as before, with the matching alert |
| QuoteRequests.AdminDashboardPage.constructor | src/pages/AdminDashboard.tsx:18 | the dashboard starts with no quotes |
| InvoiceRender.DocumentHeadings | src/components/InvoicePDF.tsx:122-135 | the "Quote" headings iff the document type is 'quote', the "Invoice" ones otherwise |
| InvoiceRender.HeadingsNameTheKind | src/components/InvoicePDF.tsx:122-135 | for a known kind every heading opens with that kind's capitalised name |
| InvoiceRender.StatusLine | src/components/InvoicePDF.tsx:138-140 | the status line appears iff the document is not a quote, and shows the status upper-cased |
| InvoiceRender.RegistrationLine | src/components/InvoicePDF.tsx:127-129 | the "Reg:" line appears iff the registration number is present and non-empty |
| InvoiceRender.Truthy | src/components/InvoicePDF.tsx:127 | a text as a JSX `&&` condition: missing and empty are false, anything else true |
| InvoiceRender.RepairTypeShownIsStored | src/components/InvoicePDF.tsx:137 | the repair-type conditional always shows the stored type |
| InvoiceRender.RepairTypeShown | src/components/InvoicePDF.tsx:137 | the repair-type line: "Multiple" for "Multiple", the stored type otherwise |
| InvoiceRender.DetailOf | src/components/InvoicePDF.tsx:162-175 | a description line appears iff the description is present and non-empty |
| InvoiceRender.ItemRows | src/components/InvoicePDF.tsx:158-168 | one row per item, in order, each built from that item |
| InvoiceRender.ItemRow | src/components/InvoicePDF.tsx:159-166 | an item's row: its repair type, its description line and its amount |
| InvoiceRender.HasItems | src/components/InvoicePDF.tsx:157 | the item table is used exactly when the item list is present and non-empty |
| InvoiceRender.TableRows | src/components/InvoicePDF.tsx:157-179 | a non-empty item list gives exactly one row per item, in order; otherwise exactly one fallback row of repair type, description and total |
| InvoiceRender.FallbackRow | src/components/InvoicePDF.tsx:170-177 | the single row shown without items: the document's repair type, its description line and its stored total |
| InvoiceRender.TotalShownIgnoresItems | src/components/InvoicePDF.tsx:189 | the total line shows the stored total, whatever the items |
| InvoiceRender.TotalShownMayDifferFromRows | src/components/InvoicePDF.tsx:157-189 | a document whose rows do not add up to the total it shows |
| InvoiceRender.TotalShown | src/components/InvoicePDF.tsx:189 | the "Total:" line shows the stored total amount |
| InvoiceRender.PaymentReference | src/components/InvoicePDF.tsx:216 | the payment reference is the document number |
| InvoiceRender.ExportFilename | src/components/InvoicePDF.tsx:33-47 | "Invoice-", then the document number, then ".pdf" |
| InvoiceRender.FilenameRoundTrip | src/components/InvoicePDF.tsx:216 | the number read back from the file name is the payment reference |
| InvoiceRender.FilenameIgnoresDocumentType | src/components/InvoicePDF.tsx:33-47 | a quote gets the same "Invoice-" file name as an invoice |
| InvoiceRender.ExportSettings | src/components/InvoicePDF.tsx:31-51 | Download and Print share one option set whose file name reads back as the document number |
| InvoiceRender.NumberFromFilename | src/components/InvoicePDF.tsx:33 | a number read from a file name rebuilds that file name |
| InvoiceRender.ViewerTitle | src/components/InvoicePDF.tsx:73 | the viewer's title is "Invoice PDF - " followed by the number |
| Conversion.Toggle | src/components/ConversionConfirmationModal.tsx:23 | the new kind is always the other kind |
| Conversion.ToggleInvolution | src/components/ConversionConfirmationModal.tsx:23 | toggling twice gives the original kind |
| Conversion.Title | src/components/ConversionConfirmationModal.tsx:24 | "Convert", the current kind capitalised, "to", the other kind capitalised |
| Conversion.Message | src/components/ConversionConfirmationModal.tsx:25 | the question naming the current kind and the other kind, in that order |
| Conversion.Note | src/components/ConversionConfirmationModal.tsx:64 | the note: a new document of the other kind is made from the current one, which stays unchanged |
| Conversion.TitleWording | src/components/ConversionConfirmationModal.tsx:24 | the titles are "Convert Invoice to Quote" and "Convert Quote to Invoice" |
| Conversion.TitleNamesDirection | src/components/ConversionConfirmationModal.tsx:24 | the two directions have different titles |
| Conversion.MessageWording | src/components/ConversionConfirmationModal.tsx:25 | the two confirmation messages, word for word |
| Conversion.Render | src/components/ConversionConfirmationModal.tsx:21-95 | nothing iff closed; close, cancel and confirm are disabled iff loading; the button reads "Converting..." while loading and otherwise "Convert" |
| QuoteForm.ValidIff | src/components/QuoteForm.tsx:15-22 | the form is valid iff name, phone, car model and description are non-empty and the phone is all ASCII digits |
| QuoteForm.NonDigitPhoneRejected | src/components/QuoteForm.tsx:17-19 | a phone with any non-digit character is rejected with "Must be numbers only" |
| QuoteForm.EmptyFieldsRequired | src/components/QuoteForm.tsx:16-21 | an empty field is rejected with "Required" |
| QuoteForm.ImagesNotValidated | src/components/QuoteForm.tsx:13-22 | the photos play no part in validation |
| QuoteForm.InitialValuesInvalid | src/components/QuoteForm.tsx:8-14 | the empty initial form cannot be submitted |
| QuoteForm.RequiredError | src/components/QuoteForm.tsx:16-21 | a required field has an error iff it is empty, and the error is "Required" |
| QuoteForm.PhoneError | src/components/QuoteForm.tsx:17-19 | the phone has no error iff it is non-empty and all ASCII digits; empty reads "Required" |
| QuoteForm.Validate | src/components/QuoteForm.tsx:15-22 | each field has no error iff its rule holds: the three text fields non-empty, the phone non-empty digits |
| QuoteForm.IsValid | src/components/QuoteForm.tsx:15-22 | the form may be submitted only when no field reports an error |
| QuoteForm.ImageEntries | src/components/QuoteForm.tsx:30-32 | one "images" entry per photo, in the photos' order |
| QuoteForm.TextEntries | src/components/QuoteForm.tsx:26-29 | the four text appends: name, phone, car model, description, in that order |
| QuoteForm.FormBody | src/components/QuoteForm.tsx:25-32 | four text entries, then one "images" entry per photo, in order |
| QuoteForm.BuildFormData | src/components/QuoteForm.tsx:25-32 | the appended body equals the four text fields in order followed by one "images" entry per photo |
| QuoteForm.ReadImagesRoundTrip | src/components/QuoteForm.tsx:30-32 | the photo entries read back as the photos, in order |
| QuoteForm.FormBodyRoundTrip | src/components/QuoteForm.tsx:25-32 | the body reads back as exactly the submitted values |
| QuoteForm.QuoteFormState.Submit | src/components/QuoteForm.tsx:23-50 | nothing is sent while invalid; otherwise the body is sent, and the form is reset only after a successful POST and kept on failure, with the matching alert |
| QuoteForm.QuoteFormState.constructor | src/components/QuoteForm.tsx:8-14 | the form starts with the empty initial values |
| QuoteForm.QuoteFormState.SetName | src/components/QuoteForm.tsx:60-66 | typing in the name input replaces the name; the other values stay |
| QuoteForm.QuoteFormState.SetPhone | src/components/QuoteForm.tsx:79-85 | typing in the phone input replaces the phone; the other values stay |
| QuoteForm.QuoteFormState.SetCarModel | src/components/QuoteForm.tsx:98-104 | typing in the car-model input replaces the car model; the other values stay |
| QuoteForm.QuoteFormState.SetDescription | src/components/QuoteForm.tsx:117-123 | typing in the description replaces it; the other values stay |
| QuoteForm.QuoteFormState.SetImages | src/components/QuoteForm.tsx:132-134 | the upload area replaces the photo list; the text values stay |
| ListOps.MapWhereIdentity | src/pages/InvoiceManagement.tsx:120-124 | a by-id map whose update returns its argument unchanged is the identity |
| ListOps.MapWhere | src/pages/InvoiceManagement.tsx:98-102 | the by-id `map` update: the same length, each matching element rewritten, every other element unchanged |

The code at src/pages/InvoiceManagement.tsx:119 is commented "Revert on error", but the map that follows it (lines 120-124) restores nothing: each matching invoice is given its own current status. `InvoiceList.InvoiceManagementPage.ChangeStatus` does what the code does; the rollback appears only as the corrected `InvoiceList.RestoreStatus`.

## Left out

- REST calls, URLs, bearer headers and `response.data.status` checks: the backend is reduced to a success flag, because these are network I/O.
- The document editor's `handleSubmit` side effects are left out, because they are I/O: the auth check, the alerts, the loading flag, and the hand-over of the created document to the viewer. Its payload is modelled by `RepairItems.BuildPayload`.
- Stored login (`localStorage`, `JSON.parse` of the token): a `StoredAuth` parameter stands for its three outcomes. Its token is a non-empty `Token`, so an empty token can only be `Unreadable`, as `if (!token)` rejects it.
- Fetching on mount and redirecting to the login page: only the resulting list assignment is modelled.
- `html2pdf`, `URL.createObjectURL`, `window.open` and printing are foreign-library output. Only the options they receive are modelled.
- `Intl.NumberFormat` currency and `toLocaleDateString` date formatting are locale-dependent.
- Amounts.ParseAmount: stands for `parseFloat(...) || 0` only on plain decimals (digits, an optional point, at most two fraction digits, at least one digit in all, as in "12", "12.", "12.5", ".5"). Signs, exponents, more fraction digits, surrounding blanks and `parseFloat`'s leading-number prefix parsing ("12abc") read as no number (0). Floating-point rounding is not modelled.
- Amounts.FormatCents: stands for `toFixed(2)` on whole cents only.
- `new Date()` for the default invoice date is clock-dependent. It appears as the `today` parameter.
- Yup and Formik internals: the schema's meaning is modelled directly. Touched-field display of errors and react-dropzone limits are library configuration.
- RepairItems.NewInvoiceForm.ChangeRepairItem: it takes only the three field names the inputs pass and an index inside the list. The source's untyped `field` string and a JavaScript write past the end are not modelled.
- Text.Upper: it upper-cases ASCII letters only. Unicode case mapping is not modelled.
- Opening and closing modals, deleting documents and the conversion request itself are modal plumbing and backend calls.
- Concurrent or late-arriving responses to overlapping status changes are about async ordering, not sequential logic.

## Findings

| source | as written | input that shows it | evidently intended | confidence | as-written member | corrected member |
|---|---|---|---|---|---|---|
| src/pages/InvoiceManagement.tsx:119-124 | the "revert on error" map sets each matching invoice's status to its own current status | change invoice "1" from "draft" to "paid" and let the backend fail: the list still shows "paid" | the status the invoice had before the optimistic update is restored | high (not executed) | InvoiceList.RevertAsWrittenDoesNotRollBack | InvoiceList.RestoreUndoesSetStatus |
| src/pages/InvoiceManagement.tsx:281-282 | Next is `min(p + 1, totalPages)` and is disabled only when `p == totalPages` | with no invoices (before the fetch returns), page 1 with 0 pages: Next is enabled and gives page 0, shown as "Page 0 of 1" with no rows | Next stays on page 1 when there are no pages | medium (not executed) | InvoiceList.NextOnEmptyListLeavesPageZero | InvoiceList.NextPageClamped |
