# Little Lemon table booking: a Dafny model

Little Lemon is a restaurant booking page. Its `LittleLemonBooking` component
holds four pieces of state: the form being filled in (`bookingData`), the
bookings made in this session (`bookings`), a map from form field to error
message (`errors`) and the flag that opens the "Booking Confirmed!" dialog
(`showConfirmation`). Four pieces of logic act on this state:

- **Slot availability.** `getAvailableSlots` offers the 17 fixed time slots
  minus the times already booked on the selected date.
- **Validation.** `validateForm` applies independent per-field rules and
  builds the error map. The form is accepted when the map is empty.
- **Submission.** `handleSubmit` appends an accepted form to the bookings and
  resets the form.
- **Field edit.** `handleInputChange` sets one field and blanks that field's
  error message.

The project has four modules, one file each:

- `form.dfy`, module `BookingForm`: the form record, the field keys, reading
  and writing one field, and ECMAScript's `String.prototype.trim`.
- `slots.dfy`, module `Slots`: the slot list and `getAvailableSlots`, which is
  a pure filter.
- `validation.dfy`, module `Validation`: the per-field rules as a
  specification (`FieldError`, `Errors`). `ComputeErrors` builds the map
  imperatively, in the source's order, and is proved equal to the
  specification.
- `booking.dfy`, module `LittleLemon`: the component as a class with the four
  state fields. `ValidateForm`, `HandleSubmit`, `HandleInputChange` and
  `CloseConfirmation` are methods with frame clauses. The class invariant
  `Valid()` says that every stored booking passed validation.

Dates are day numbers. `DateInput` is either `NoDate`, for the empty string
of an untouched date input, or `On(day)`. The day of submission, `today`, is a
parameter. So are the booking id and timestamp, which the source takes from
the clock.

## Model

| member | source | states |
|---|---|---|
| BookingForm.Set | src/App.js:87-90 | writing field `f` makes it read back `v`, and every other field reads back what it held before |
| BookingForm.SetOwnValue | src/App.js:87-90 | an edit that writes the value a field already holds leaves the whole form unchanged |
| BookingForm.TrimStartRemovesLeadingWhitespace | src/App.js:42-45 | the start of `trim` removes a prefix made only of whitespace, and the result does not start with whitespace |
| BookingForm.TrimEndRemovesTrailingWhitespace | src/App.js:42-45 | the end of `trim` removes a suffix made only of whitespace, and the result does not end with whitespace |
| BookingForm.BlankIffAllWhitespace | src/App.js:42-45 | `!s.trim()` holds exactly when every character of `s` is ECMAScript whitespace, the empty string included |
| Slots.BookedTimes | src/App.js:32-34 | a time is in the booked list exactly when some booking has the selected date and that time |
| Slots.FreeSlots | src/App.js:36 | the filtered list is a subsequence of the slots (order kept), and it contains a slot exactly when that slot is not booked |
| Slots.AvailableSlots | src/App.js:31-37 | the result is a subsequence of the 17 master slots, and it contains `s` exactly when `s` is a master slot and no booking has the selected date and time `s` |
| Slots.TimeSlotsDistinct | src/App.js:20-24 | the master list has 17 entries, none repeated |
| Slots.AvailableSlotsBounded | src/App.js:20-37 | the available slots never repeat and number at most 17 |
| Slots.NoBookingOnDateAllSlots | src/App.js:32-36 | with no booking on the date, the result is the master list, unchanged and in order |
| Slots.OtherDateKeepsSlots | src/App.js:32-36 | a booking on another date, wherever it sits in the list, never removes a slot |
| Slots.BookedTimesAppend | src/App.js:32-34 | the booked times of two concatenated lists are the booked times of each, in order |
| Slots.FreeSlotsTwice | src/App.js:36 | filtering out `a` and then `b` is the same as filtering out `a + b` |
| Slots.NewBookingTakesItsSlot | src/App.js:32-36 | appending a booking on the date removes exactly its time from that date's slots, and keeps the order of the rest |
| Validation.RulesGiveErrors | src/App.js:40-54 | a map whose entries follow each rule as the source writes it (email and date messages overridden) is the per-field error map |
| Validation.ComputeErrors | src/App.js:40-54 | the successive conditional assignments, with the later email and date messages overriding the earlier ones, produce exactly the per-field error map |
| Validation.AtSignNotBlank | src/App.js:43-44 | an email containing '@' is never blank, so the "required" test can never fire on it |
| Validation.NoErrorsIffAcceptable | src/App.js:39-57 | the map is empty (validateForm returns true) exactly when the name and phone are not all whitespace, the email contains '@', a date is set and not before today, a time is set and guests are in 1..12 |
| Validation.NameRule | src/App.js:42 | the `name` key appears, with "Name is required", exactly when the name is all whitespace |
| Validation.EmailRule | src/App.js:43-44 | the `email` key appears exactly when the email lacks '@': "Email is required" when it is all whitespace, "Valid email is required" otherwise |
| Validation.PhoneRule | src/App.js:45 | the `phone` key appears, with "Phone number is required", exactly when the phone is all whitespace |
| Validation.DateRule | src/App.js:46-54 | an empty date gives "Date is required", a day before today gives "Date cannot be in the past", today or later gives no date error |
| Validation.TimeRule | src/App.js:47 | the `time` key appears, with "Time is required", exactly when no time is chosen |
| Validation.GuestsRule | src/App.js:48 | the `guests` key appears exactly when guests is outside 1..12, so 1 and 12 pass and 0 and 13 fail |
| Validation.UnvalidatedFields | src/App.js:40-54 | occasion and special requests never get an error |
| Validation.EditOnlyAffectsOwnError | src/App.js:40-54 | the rules are independent: changing one field changes no other field's rule outcome or error entry |
| Validation.DefaultFormErrors | src/App.js:40-54 | the untouched form is rejected on exactly name, email, phone, date and time; its default of 2 guests passes |
| LittleLemon.AcceptedIsStorable | src/App.js:60-69 | a form accepted on any day satisfies every rule that does not depend on the day, and such a form is accepted on its own date |
| LittleLemon.NoDateOffersAllSlots | src/App.js:107 | while no date is chosen, the time dropdown offers all 17 slots, because every stored booking has a date |
| LittleLemon.TakenSlotStillAccepted | src/App.js:60-84 | validation ignores the bookings: a form for a slot already taken on its date is still accepted |
| LittleLemon.LittleLemonBooking.constructor | src/App.js:5-18 | initial state: default form (empty strings, 2 guests), no bookings, no errors, dialog closed |
| LittleLemon.LittleLemonBooking.ValidateForm | src/App.js:39-58 | the error map becomes the per-field error map of the current form, and the result is true exactly when that map is empty |
| LittleLemon.LittleLemonBooking.HandleSubmit | src/App.js:60-84 | on a rejected form only `errors` changes. On an accepted form: one booking is appended with the form, id and timestamp; the form resets to its defaults; errors are cleared; the dialog opens. The invariant that every stored booking passed validation is kept |
| LittleLemon.LittleLemonBooking.HandleInputChange | src/App.js:86-99 | only field `f` of the form changes. A non-empty error for `f` becomes `''` and its key stays. Other errors, the bookings and the dialog flag are untouched |
| LittleLemon.LittleLemonBooking.CloseConfirmation | src/App.js:140 | the Close button closes the confirmation dialog and changes nothing else |

## Left out

- Rendering: the JSX of src/App.js (lines 109-408) and all of
  src/components/BookingPage.js. Both only display state and wire events to
  the handlers above.
- `getTomorrowDate` (src/App.js:101-105) and the date input's `min`
  attribute. They depend on the wall clock and only constrain the browser's
  date picker.
- Date parsing and time zones. The source compares `new Date("YYYY-MM-DD")`,
  which is UTC midnight, with local midnight. West of UTC this makes today's
  date count as past. The model compares abstract day numbers, so "before
  today" means an earlier calendar day.
- A non-empty date string that does not parse. The date input yields either
  `""` or a valid ISO date, so `DateInput` has no third case.
- `Date.now()` and `new Date().toISOString()` (src/App.js:65-66). The id and
  timestamp are parameters of `HandleSubmit`.
- The remote booking store, the loading state, insert failures and the guard
  against a second submit while one is in flight. None of these appears in
  src/App.js, which only appends to the local list. The model follows the
  code.
- Preventing two bookings for the same date and time. `handleSubmit` never
  checks this (see `TakenSlotStillAccepted`). Only the time dropdown, built
  from the available slots, keeps a guest from choosing a taken slot.
- React's asynchronous state updates and batching. Each handler's state
  changes are applied in order, and the model shows their combined effect.
  In `handleSubmit`, `validateForm` first sets the errors and the reset then
  clears them, so the model ends with an empty map.
- HandleInputChange: requires `Fits(f, v)`, meaning a text field gets text,
  the date gets a date and guests gets a number. Every change handler in the
  page passes that kind. The guest count comes from `parseInt` of an option
  value in 1..12, so it is never `NaN`.
- The `occasions` list (src/App.js:26-29), which only fills a dropdown.
- The booking list starts empty, as `useState([])` at src/App.js:16 makes it.
  It is not loaded from a store.
