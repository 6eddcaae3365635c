# Order capture on a single-product landing page

This project models the order-capture state of the `Home` component of a
one-product storefront page (a "Limited Edition Mechanical Watch" at $299).
The component keeps a draft order: a quantity starting at 1, four contact
fields (name, email, phone, shipping address), an `isSubmitting` flag, an
`isDialogOpen` flag and the index of the gallery image on show. Its handlers
edit a field, press "-" (clamped at 1) or "+" (no ceiling), select an image,
open or close the order dialog, and submit. Submitting marks the page as
submitting, appends the eight order entries (`name`, `email`, `phone`,
`address`, `product`, `quantity`, `totalPrice`, `orderDate`) to a form body,
posts it once, and then either closes the dialog and resets the draft (the
post resolved) or keeps the draft and the dialog (the post threw), raising a
toast in both cases and clearing `isSubmitting` at the end.

Modules:

- `Decimal` (decimal.dfy): the decimal numeral `toString` gives a
  non-negative integer, its reading back, and both round trips.
- `Draft` (draft.dfy): the contact-field record, the field update a change
  event performs, the emptiness check the `required` inputs impose, and the
  quantity buttons, with lemmas over arbitrary runs of presses.
- `OrderForm` (order.dfy): the product constant, the total price, the
  eight-entry order record and a first-match lookup over it.
- `HomePage` (home.dfy): class `Home`, whose fields are the component's state
  hooks and whose methods are its handlers. Toasts and posted bodies are ghost
  logs (`notices`, `requests`). The submit handler is split at its `await`
  into `BeginSubmit` and `CompleteSubmit`, so that the in-flight state (where
  `isSubmitting` is true and the submit button is disabled) is a state of the
  model; `HandleSubmit` runs both back to back. The class invariant ties the
  two logs to the flag: there is one more post than toasts exactly while the
  page is submitting, so at most one post is ever unanswered.

The submit handler as written has no whitespace trimming, no check for a
missing endpoint address and no inspection of an HTTP status: the endpoint
URL is a constant, the request uses no-cors mode, and only a thrown error
leads to the failure branch. The model follows the code on each of these
points. Likewise the code does not block field edits or quantity presses
while a submission is in flight (only the submit button is disabled), so the
model's edit methods have no such precondition; an edit made in flight is
kept if the post fails and discarded by the reset if it succeeds.

The preconditions of the handlers are what the page's markup guarantees
before they can run: the inputs, the quantity buttons and the form exist only
inside the open dialog; the submit button is disabled while `isSubmitting`
holds; and the browser refuses to submit while a `required` input is the
empty string.

## Model

| member | source | states |
|---|---|---|
| Decimal.NatToString | app/page.tsx:69-70 | the numeral written for a quantity or total is non-empty, all digits, and starts with '0' exactly when the number is 0 |
| Decimal.ValueOfNatToString | app/page.tsx:69-70 | reading back the numeral of n gives n, so the posted quantity and total denote the numbers computed |
| Decimal.NatToStringOfValue | app/page.tsx:69-70 | every canonical numeral is the numeral of its own value (the other direction of the round trip) |
| Decimal.NatToStringInjective | app/page.tsx:69-70 | distinct numbers are posted as distinct numerals |
| Draft.FieldNamed | app/page.tsx:50-51 | a change event selects a field exactly when its `name` is one of the four input names |
| Draft.InputName | app/page.tsx:157-194 | the `name` attribute of each input selects that input's own field |
| Draft.FieldNamedInverse | app/page.tsx:50-55 | the field an event selects is the one whose input carries the event's name, so distinct inputs never update the same field |
| Draft.WithField | app/page.tsx:50-56 | a field update sets the named field to the new value and leaves the other three as they were |
| Draft.WithFieldLaws | app/page.tsx:50-56 | rewriting a field's current value changes nothing; a second write to a field overrides the first |
| Draft.WithFieldCommutes | app/page.tsx:50-56 | edits to two different fields give the same record in either order |
| Draft.AllFilled | app/page.tsx:157-195 | the `required` gate passes exactly when no field is the empty string; whitespace counts as content |
| Draft.EmptyContactNotFilled | app/page.tsx:41-46 | the empty draft (initial and after a reset) cannot pass the `required` gate: every field is empty |
| Draft.AllFilledAfterEdit | app/page.tsx:50-56 | after an edit the gate passes exactly when the new value is non-empty and every other field already was |
| Draft.Decremented | app/page.tsx:204 | "-" never yields less than 1: one less above 1, exactly 1 at or below 1 |
| Draft.Incremented | app/page.tsx:213 | "+" always yields a larger quantity |
| Draft.IncrementDecrementInverse | app/page.tsx:204-213 | "-" undoes "+" from any valid quantity, and "+" undoes "-" above the floor |
| Draft.QuantityFloor | app/page.tsx:204-213 | any run of "-" and "+" presses from a valid quantity ends at 1 or more |
| Draft.MinusRunsDownToOne | app/page.tsx:204 | n presses of "-" from q give q - n, stopping at 1 |
| Draft.PlusRunsUnbounded | app/page.tsx:213 | n presses of "+" add exactly n; no upper bound is ever reached |
| OrderForm.WatchProduct | app/page.tsx:18-32 | the product sold has a positive price and at least one gallery image, which the total and the initial image rely on |
| OrderForm.TotalPrice | app/page.tsx:70 | a quantity of at least one costs at least the unit price, and the total is zero only for a free product or a zero quantity |
| OrderForm.TotalPriceIsSumOfUnits | app/page.tsx:70 | the total equals one unit price added per unit ordered |
| OrderForm.TotalPriceStrictlyIncreasing | app/page.tsx:70 | with a positive unit price, a larger quantity always has a larger total |
| OrderForm.OrderRecord | app/page.tsx:63-71 | the order record has exactly the eight keys name, email, phone, address, product, quantity, totalPrice, orderDate, in that order |
| OrderForm.OrderKeysDistinct | app/page.tsx:64-71 | no key of the order record is repeated |
| OrderForm.OrderRecordValues | app/page.tsx:63-71 | each key carries its source: the draft's four fields, the product name, the quantity, unit price times quantity, and the timestamp; the two numerals read back as quantity and total |
| OrderForm.OrderRecordHasNoOtherKeys | app/page.tsx:63-71 | no key outside the eight is present in the record |
| OrderForm.OrderRecordSeparatesQuantities | app/page.tsx:69-70 | orders for different quantities differ in their quantity entry, and for a product that is not free also in their total entry |
| HomePage.Home.DisplayedTotal | app/page.tsx:221 | the on-screen total is unit price times the current quantity, never less than one unit price |
| HomePage.Home.SubmitEnabled | app/page.tsx:224-228 | single flight: the submit button is enabled exactly when every post made so far has been answered by a toast |
| HomePage.PostedTotalIsDisplayedTotal | app/page.tsx:221 | the total posted in an order is the total shown in the dialog, unit price times quantity |
| HomePage.Home.constructor | app/page.tsx:38-48 | the page mounts with quantity 1, empty fields, not submitting, dialog closed, first image, no toasts and no posts |
| HomePage.Home.HandleInputChange | app/page.tsx:50-56 | in the open dialog, exactly the named field takes the new value; other fields, quantity, flags and image are unchanged |
| HomePage.Home.DecrementQuantity | app/page.tsx:204 | in the open dialog, quantity drops by one above 1 and stays 1 at 1; nothing else changes |
| HomePage.Home.IncrementQuantity | app/page.tsx:213 | in the open dialog, quantity grows by exactly one; nothing else changes |
| HomePage.Home.SelectImage | app/page.tsx:115-118 | the clicked thumbnail's image becomes the one on show; nothing else changes |
| HomePage.Home.SetDialogOpen | app/page.tsx:142 | the dialog takes the requested open state; nothing else changes |
| HomePage.Home.BeginSubmit | app/page.tsx:58-77 | the page becomes submitting with the submit button disabled, and exactly one request is posted, carrying the order record of the current draft with the displayed total; draft, dialog and toasts are unchanged |
| HomePage.Home.CompleteSubmit | app/page.tsx:78-102 | a resolved post raises the success toast, closes the dialog and resets the draft; a rejected post raises the destructive toast and keeps draft and dialog; either way submitting ends |
| HomePage.Home.HandleSubmit | app/page.tsx:58-103 | a whole submit posts one request with the pre-submit draft, then resets (resolved) or preserves (rejected) the draft, and ends not submitting |

## Left out

- The `fetch` call and its no-cors semantics: network I/O. Its settling is the `FetchOutcome` parameter of `CompleteSubmit`; posting is recorded in the ghost `requests` log.
- `new Date().toISOString()`: the wall clock. The timestamp is the `orderDate` parameter, passed through unexamined.
- `toast` and `console.error`: toasts are recorded as ghost `notices` (title, description, destructive flag); the console log is dropped.
- The wire encoding of `FormData`: a browser library. A form body is a sequence of key/value string pairs read by first match.
- Rendering: the JSX markup, styling, icons, the dialog/button/input/card components, the product description and feature list display.
- The browser's checks behind `required` and `type="email"`: `required` appears only as the `AllFilled` precondition of `BeginSubmit`; email format checking is not modelled.
- React's state batching and closure capture, and the interleaving of other events with a pending submit beyond what `BeginSubmit`/`CompleteSubmit` expose.
- Decimal.NatToString: quantities and totals are unbounded integers; JavaScript numbers lose integer precision above 2^53 and `toString` switches to exponent notation from 10^21, which the model does not reproduce.
