# MindWell Therapy site: the logic of its interactive components

This project models, in Dafny, the logic of seven React components of a
therapy practice's web site, and proves properties of it.

- **Consultation request form** (`Contact.tsx`).
  - Validates name, e-mail and an optional US phone number.
  - Submits with a 2-second delay.
  - Self-pay requests go through a payment screen with a 3-second delay.
  - Shows a 5-second thank-you message.
  - Suggests therapists by gender preference.
- **"Share your story" form** (`TestimonialForm.tsx`).
  - Validates with the same name and e-mail rules.
  - The testimonial rule has two steps: a blank check, then a 50-unit length check that overrides it.
  - The treatment must be chosen.
  - The form is acknowledged, then cleared.
- **Booking dialog** (`BookingModal.tsx`).
  - Three steps, a Back button and a confirmation.
  - After three seconds the dialog returns to step 1 and asks its owner to close it.
  - The price summary comes from a `find` over the offered services.
- **Site search** (`SearchModal.tsx`).
  - A case-insensitive substring filter over an 18-entry catalog.
  - A query is searched only once it is two units long.
  - The search runs after a 300 ms pause, and a newer query cancels the pending one.
- **Card payment form** (`PaymentIntegration.tsx`).
  - The card number is shown in groups of four, at most 16 digits.
  - The expiry date is shown as `MM/YY`.
  - `billing.`-prefixed inputs update the nested address.
  - Submitting "processes" for three seconds, then reports success.
- **FAQ accordion** (`FAQ.tsx`): a list of open question indices, toggled one question at a time.
- **Review carousel** (`Testimonials.tsx`): five reviews, cyclic arrows, a forward-stepping interval, and dots.

## How the model is built

The components' state changes step by step: flags are flipped, timers started, records rewritten. Each component whose state changes this way is a class:
- `Contact.ContactForm`;
- `Testimonial.StoryForm`;
- `Booking.BookingWizard`;
- `Search.SearchBox`;
- `Payment.PaymentForm`.

How the classes are written:
- Each handler is a method with a `modifies` clause.
- Each class has a `Valid()` invariant that every method keeps.
- Each timer is a "pending" field plus an explicit `…Elapsed` method for the moment it fires.
- A button that is disabled or not on screen is a method that leaves the state unchanged.

The pure parts become functions, each with lemmas about it:
- validators;
- filters and search matching;
- formatters;
- the FAQ toggle;
- the carousel steps.

The one loop in the core, `formatCardNumber`'s grouping, is the method `Payment.FormatCardNumber`. It is proved equal to the specification function `Payment.CardText`, and the formatting properties are proved about that function.

Language details are written out explicitly:
- JavaScript's `.length` counts UTF-16 code units (`Text.JsLength`).
- `trim` removes the JavaScript white-space set (`Text.Trim`).
- `%` truncates toward zero (`Carousel.JsRem`).
- The three regular expressions are encoded as predicates over characters:
  - `\S+@\S+\.\S+` (`Validation.EmailLooksValid`);
  - the phone pattern (`Validation.PhoneValid`, proved equal to the pattern's template language `Validation.PhoneShaped`);
  - `\d{4,16}` (inside `Payment.CardText`).

Shared pieces:
- `Text`: strings.
- `Seqs`: `Array.prototype.filter` and the facts about order.
- `Validation`: the error messages and the name, e-mail and phone rules.

## Model

| member | source | states |
|---|---|---|
| `Validation.MessageText` | src/components/Contact.tsx:36-43 | the message texts of the forms; only a cleared entry (`''`, written by `handleChange`) is empty |
| `Validation.EmailLooksValidNotBlank` | src/components/Contact.tsx:37-41 | an e-mail that passes the pattern is never blank, so the "required" and "invalid" branches cannot both apply |
| `Validation.EmailExamplesValid` | src/components/Contact.tsx:39 | `\S+@\S+\.\S+` is unanchored: "a@b.co" and an address inside angle brackets pass |
| `Validation.EmailExamplesInvalid` | src/components/Contact.tsx:39 | "ann@example" (no dot after the `@`) and "ann@ example.org" (a space after the `@`) fail |
| `Validation.PhoneValid` | src/components/Contact.tsx:42 | the scanner accepts exactly the strings of the anchored phone pattern: optional "(", 3 digits, optional ")", optional separator, 3 digits, optional separator, 4 digits |
| `Validation.PhoneExampleParenthesised` | src/components/Contact.tsx:42 | "(123) 456-7890" is accepted |
| `Validation.PhoneExampleBare` | src/components/Contact.tsx:42 | "1234567890" is accepted |
| `Validation.PhoneExampleDotted` | src/components/Contact.tsx:42 | "123.456.7890" is accepted |
| `Validation.PhoneExampleBlank` | src/components/Contact.tsx:42 | a lone space is rejected (a non-empty phone is checked even when blank) |
| `Validation.PhoneExampleMisgrouped` | src/components/Contact.tsx:42 | "123-45-67890" is rejected: the groups must be three, three and four digits |
| `Validation.SetIf` | src/components/Contact.tsx:36-43 | one conditional assignment into `newErrors`: the key is present afterwards when a message was assigned or it was present before, and holds the new message or else its old one; every other key keeps its presence and its message |
| `Validation.NameRule` | src/components/Contact.tsx:36 | the name is reported missing exactly when it is all white space |
| `Validation.EmailRule` | src/components/Contact.tsx:37-41 | a blank e-mail is "required"; a non-blank one is "invalid" exactly when it fails the pattern; no error exactly when it passes |
| `Validation.NameEmailErrors` | src/components/Contact.tsx:36-41 | the first two checks record errors only under the name and e-mail keys |
| `Validation.CheckNameEmail` | src/components/Contact.tsx:34-41 | the successive assignments build exactly the map of both rules |
| `Validation.NameEmailRules` | src/components/TestimonialForm.tsx:34-39 | both forms' name/e-mail rules: each key is present exactly when its rule fails, with the message of the branch taken |
| `Validation.NameEmailOther` | src/components/TestimonialForm.tsx:34-39 | the first two checks write no other key |
| `Validation.ClearError` | src/components/Contact.tsx:83-88 | editing a field with an error keeps its key with the empty message and leaves all other errors untouched |
| `Contact.InitialDataFields` | src/components/Contact.tsx:5-16 | every field starts present and empty except urgency "routine" and payment method "insurance" |
| `Contact.TherapistIdsDistinct` | src/components/Contact.tsx:24-31 | the six therapists have distinct ids |
| `Contact.FilterByGenderMembers` | src/components/Contact.tsx:91-96 | the suggestions are exactly the therapists of the chosen gender |
| `Contact.FilterByGenderOrdered` | src/components/Contact.tsx:91-96 | the suggestions keep catalog order and repeat nobody |
| `Contact.MaleTherapists` | src/components/Contact.tsx:24-31 | "male" suggests Michael Rodriguez, James Thompson and Robert Williams, in that order |
| `Contact.FemaleTherapists` | src/components/Contact.tsx:24-31 | "female" suggests Sarah Mitchell, Emily Chen and Lisa Park, in that order |
| `Contact.NoSuchGender` | src/components/Contact.tsx:91-96 | any other non-empty value suggests nobody |
| `Contact.ValidationErrors` | src/components/Contact.tsx:33-47 | only name, e-mail and phone can carry errors |
| `Contact.ValidationErrorsRules` | src/components/Contact.tsx:36-47 | name, e-mail and phone errors each present exactly when their rule fails, with its message; the map is empty exactly when all three pass |
| `Contact.ContactForm.constructor` | src/components/Contact.tsx:5-21 | the initial record, no errors, no flags, no suggestions, no timers |
| `Contact.ContactForm.HandleChange` | src/components/Contact.tsx:74-97 | on the form screen: only the named field changes; its error is cleared; a non-empty gender preference replaces the suggestions, an empty one keeps them |
| `Contact.ContactForm.ValidateForm` | src/components/Contact.tsx:33-48 | records the rule errors and returns true exactly when there are none; nothing else changes |
| `Contact.ContactForm.Submit` | src/components/Contact.tsx:50-56 | an invalid form only records its errors; a valid one sets loading and starts the 2-second delay with the payment method read now |
| `Contact.ContactForm.SubmitDelayElapsed` | src/components/Contact.tsx:59-71 | self-pay opens the payment screen; any other method shows the thank-you message and starts its 5-second timer; loading ends |
| `Contact.ContactForm.Pay` | src/components/Contact.tsx:99-103 | on the payment screen, sets loading and starts the 3-second delay |
| `Contact.ContactForm.PaymentDelayElapsed` | src/components/Contact.tsx:103-111 | the payment screen closes, the thank-you message and its timer start, loading ends |
| `Contact.ContactForm.BackToForm` | src/components/Contact.tsx:181 | only the payment flag drops; the data typed is kept |
| `Contact.ContactForm.ResetElapsed` | src/components/Contact.tsx:65 | the thank-you message goes; the data is not cleared |
| `Contact.SelfPayJourney` | src/components/Contact.tsx:50-111 | a valid self-pay request shows form, payment, payment, thanks, form |
| `Contact.ChangeDuringSubmitDelay` | src/components/Contact.tsx:59-65 | a payment method changed during the delay does not change the outcome chosen at submit |
| `Contact.BlankSubmit` | src/components/Contact.tsx:36-53 | a blank form records exactly the name and e-mail "required" errors and does not start loading |
| `Testimonial.ApplyChange` | src/components/TestimonialForm.tsx:80-88 | the target input takes the value (the checked state for a check box); every other input and the rating keep theirs |
| `Testimonial.ApplyChangeSameValue` | src/components/TestimonialForm.tsx:80-88 | re-entering an input's current value changes nothing |
| `Testimonial.ApplyChangeLastWins` | src/components/TestimonialForm.tsx:80-88 | of two changes to one input, the later wins |
| `Testimonial.Rate` | src/components/TestimonialForm.tsx:98-100 | the rating becomes the star clicked; every input keeps its value |
| `Testimonial.StoryErrors` | src/components/TestimonialForm.tsx:31-45 | only name, e-mail, testimonial and treatment can carry errors |
| `Testimonial.StoryErrorsContact` | src/components/TestimonialForm.tsx:34-39 | the name and e-mail entries follow the shared rules |
| `Testimonial.StoryErrorsTestimonial` | src/components/TestimonialForm.tsx:40-41 | under 50 units is "too short" even when blank; a blank text of 50 units or more is "share"; otherwise no error |
| `Testimonial.StoryErrorsTreatment` | src/components/TestimonialForm.tsx:42 | the treatment error is present exactly when none is chosen |
| `Testimonial.TreatmentPicker` | src/components/TestimonialForm.tsx:19-29 | the picker lists nine treatments, none empty, and choosing any of them leaves no treatment error |
| `Testimonial.StoryErrorsEmpty` | src/components/TestimonialForm.tsx:31-45 | the form is accepted exactly when all four rules pass |
| `Testimonial.EmptyTestimonialIsTooShort` | src/components/TestimonialForm.tsx:40-41 | an empty testimonial is reported as too short, not as missing |
| `Testimonial.ShareOnlyForLongBlank` | src/components/TestimonialForm.tsx:40-41 | "share your experience" appears exactly for white space of 50 units or more |
| `Testimonial.LengthBoundary` | src/components/TestimonialForm.tsx:41 | for text without astral characters the bound is exactly 50 characters |
| `Testimonial.AstralTextCountsDouble` | src/components/TestimonialForm.tsx:41 | 25 astral characters count as 50 units and pass the length rule |
| `Testimonial.StoryForm.HandleChange` | src/components/TestimonialForm.tsx:80-96 | the change is applied and the input's error cleared, while the form is on screen |
| `Testimonial.StoryForm.RateChange` | src/components/TestimonialForm.tsx:98-100 | the star sets the rating; errors and flags are kept |
| `Testimonial.StoryForm.ValidateForm` | src/components/TestimonialForm.tsx:31-46 | records exactly the rule errors, the testimonial's second assignment overriding the first, and reports whether there are none |
| `Testimonial.StoryForm.Submit` | src/components/TestimonialForm.tsx:48-55 | an invalid story only records errors; a valid one starts loading and the 2-second delay |
| `Testimonial.StoryForm.SubmitDelayElapsed` | src/components/TestimonialForm.tsx:57-59 | the thank-you message appears and its 5-second timer starts |
| `Testimonial.StoryForm.ResetElapsed` | src/components/TestimonialForm.tsx:59-72 | the message goes and the record returns to its initial value |
| `Testimonial.SubmitAndReset` | src/components/TestimonialForm.tsx:48-77 | a valid story, submitted and left to its timers, leaves a cleared form |
| `Booking.FindIn` | src/components/BookingModal.tsx:61 | `find` gives nothing exactly when no entry has the id, otherwise an entry with that id |
| `Booking.FindInFirst` | src/components/BookingModal.tsx:61 | the entry `find` gives is the first with that id: every entry before it has another id |
| `Booking.ServiceIdsDistinct` | src/components/BookingModal.tsx:30-35 | the four service ids are distinct |
| `Booking.SelectedServiceUnique` | src/components/BookingModal.tsx:30-61 | the summary's service is the one offer with the chosen id, and there is none for any other value |
| `Booking.Totals` | src/components/BookingModal.tsx:30-35 | the totals are 150, 180, 200 and 120; no offer is selected for the empty choice |
| `Booking.InitialBookingFields` | src/components/BookingModal.tsx:16-22 | every booking field starts present |
| `Booking.TimePicker` | src/components/BookingModal.tsx:25-28 | the time picker offers eight different slots, none of them the empty initial time |
| `Booking.BookingWizard.constructor` | src/components/BookingModal.tsx:15-23 | step 1, the initial booking, not booked |
| `Booking.BookingWizard.SetOpen` | src/components/BookingModal.tsx:59 | opening and closing keep the step, data and confirmation |
| `Booking.BookingWizard.CloseButton` | src/components/BookingModal.tsx:71 | the header's close button calls `onClose` once, and changes nothing else |
| `Booking.BookingWizard.Submit` | src/components/BookingModal.tsx:37-44 | steps 1 and 2 advance by one; step 3 confirms and starts the 3-second timer; the data plays no part |
| `Booking.BookingWizard.Back` | src/components/BookingModal.tsx:275-283 | from step 2 or 3, back by one |
| `Booking.BookingWizard.HandleChange` | src/components/BookingModal.tsx:52-57 | an input on the current step sets exactly its own entry |
| `Booking.BookingWizard.ConfirmElapsed` | src/components/BookingModal.tsx:44-48 | back to step 1 with one more `onClose` call; the data is kept |
| `Booking.BookWith` | src/components/BookingModal.tsx:37-57 | with any payment method, three submits and the timer return to step 1 with one `onClose` call |
| `Search.ResultsIn` | src/components/SearchModal.tsx:171-185 | a query under two units gives no results; there are never more results than entries searched |
| `Search.Results` | src/components/SearchModal.tsx:171-185 | the same over the site's catalog |
| `Search.ResultsMembers` | src/components/SearchModal.tsx:177-185 | an entry is a result exactly when the query is long enough and its title, description or category contains the query, case ignored |
| `Search.SearchDataDistinct` | src/components/SearchModal.tsx:23-161 | the catalog lists no entry twice |
| `Search.ResultsOrdered` | src/components/SearchModal.tsx:181-185 | the results keep catalog order and repeat nothing |
| `Search.CaseInsensitive` | src/components/SearchModal.tsx:181-185 | queries equal up to case give the same results |
| `Search.Narrowing` | src/components/SearchModal.tsx:181-185 | extending a searchable query can only drop results |
| `Search.FaqEntryMatches` | src/components/SearchModal.tsx:125-160 | every question entry matches "faq" through its category |
| `Search.MichaelRodriguezMatchesCouples` | src/components/SearchModal.tsx:34-41 | his description mentions couples |
| `Search.CouplesTherapyMatchesCouples` | src/components/SearchModal.tsx:67-73 | the service's title is "Couples Therapy" |
| `Search.TherapistsMissFaq` | src/components/SearchModal.tsx:24-57 | no therapist entry matches "faq" |
| `Search.ServicesMissFaq` | src/components/SearchModal.tsx:58-101 | no service entry matches "faq" |
| `Search.LocationsMissFaq` | src/components/SearchModal.tsx:102-124 | no office entry matches "faq" |
| `Search.FaqsMatchFaq` | src/components/SearchModal.tsx:125-160 | all questions match "faq" |
| `Search.FaqExample` | src/components/SearchModal.tsx:23-185 | searching "faq" finds exactly the five questions, in order |
| `Search.TherapistsCouples` | src/components/SearchModal.tsx:24-57 | among therapists, only Michael Rodriguez matches "couples" |
| `Search.ServicesCouples` | src/components/SearchModal.tsx:58-101 | among services, only Couples Therapy matches "couples" |
| `Search.LocationsMissCouples` | src/components/SearchModal.tsx:102-124 | no office matches "couples" |
| `Search.FaqsMissCouples` | src/components/SearchModal.tsx:125-160 | no question matches "couples" |
| `Search.CouplesExample` | src/components/SearchModal.tsx:23-185 | searching "couples" finds Michael Rodriguez, then Couples Therapy |
| `Search.SearchBox.View` | src/components/SearchModal.tsx:241-260 | a result list is shown only when results exist, and it shows those results |
| `Search.SearchBox.constructor` | src/components/SearchModal.tsx:19-21 | searches the site's catalog; empty query, no results, not loading, no timer |
| `Search.SearchBox.Type` | src/components/SearchModal.tsx:171-230 | a new short query clears the results and any timer; a new long one sets loading and restarts the 300 ms timer for itself; the same query does nothing |
| `Search.SearchBox.TimerElapsed` | src/components/SearchModal.tsx:179-188 | the results become those of the current query and loading ends |
| `Search.SettledView` | src/components/SearchModal.tsx:241-260 | with no timer running, the dialog shows the prompt, the no-results notice, or exactly the query's matches |
| `Search.TypeFaq` | src/components/SearchModal.tsx:171-191 | typing "f", "fa", "faq" quickly searches once and lists the five questions |
| `Payment.GroupsSpec` | src/components/PaymentIntegration.tsx:68-71 | the groups concatenate back to the digits, are of four except perhaps the last, and number ⌈n/4⌉ |
| `Payment.FormatCardNumber` | src/components/PaymentIntegration.tsx:63-76 | the loop's output is `CardText` of the input |
| `Payment.CardTextShape` | src/components/PaymentIntegration.tsx:63-145 | the output is digits with single interior spaces, at most 19 characters |
| `Payment.CardTextContent` | src/components/PaymentIntegration.tsx:64-75 | fewer than four digits are returned as they are; from four on, the first sixteen at most, in groups of four of which only the last may be short |
| `Payment.CardTextIdempotent` | src/components/PaymentIntegration.tsx:63-147 | formatting the shown text again changes nothing |
| `Payment.CardTextCap` | src/components/PaymentIntegration.tsx:65-66 | text typed after the sixteenth digit is not shown |
| `Payment.CardShortExample` | src/components/PaymentIntegration.tsx:73-75 | "123" is shown as it is |
| `Payment.CardExample` | src/components/PaymentIntegration.tsx:63-76 | "12 345" is shown as "1234 5" |
| `Payment.ExpiryTextShape` | src/components/PaymentIntegration.tsx:78-163 | under two digits, the digits; otherwise two digits, a slash and up to two more, at most 5 characters |
| `Payment.ExpiryTextDigits` | src/components/PaymentIntegration.tsx:78-84 | the digits shown are the first four typed |
| `Payment.ExpiryTextIdempotent` | src/components/PaymentIntegration.tsx:78-165 | formatting the shown date again changes nothing |
| `Payment.ExpiryExamples` | src/components/PaymentIntegration.tsx:78-84 | "1" stays "1", "12" becomes "12/" |
| `Payment.ExpiryFullExamples` | src/components/PaymentIntegration.tsx:78-84 | "12/25" and "122599" are shown as "12/25" |
| `Payment.BeforeDot` | src/components/PaymentIntegration.tsx:47 | the first segment of a split on "." is a dot-free prefix ending at the first dot |
| `Payment.ApplyChange` | src/components/PaymentIntegration.tsx:43-60 | a `billing.` name sets that address field and nothing else; any other name sets that top-level field and nothing else |
| `Payment.BillingFieldSegment` | src/components/PaymentIntegration.tsx:46-47 | the address field is the text after the prefix up to any further dot |
| `Payment.ApplyChangeExamples` | src/components/PaymentIntegration.tsx:43-60 | "billing.zipCode" writes the address's zipCode; "cvv" writes the top-level cvv |
| `Payment.ApplyChangeLastWins` | src/components/PaymentIntegration.tsx:43-60 | of two changes through one name, the later wins |
| `Payment.ApplyChangeCommutes` | src/components/PaymentIntegration.tsx:43-60 | changes through different fields commute |
| `Payment.PaymentForm.constructor` | src/components/PaymentIntegration.tsx:17-30 | the empty record, not processing |
| `Payment.PaymentForm.TypeCard` | src/components/PaymentIntegration.tsx:147 | the card field stores the raw text typed |
| `Payment.PaymentForm.TypeExpiry` | src/components/PaymentIntegration.tsx:165 | the date field stores the raw text typed |
| `Payment.PaymentForm.HandleChange` | src/components/PaymentIntegration.tsx:43-60 | other inputs go through the `billing.` rule |
| `Payment.PaymentForm.Submit` | src/components/PaymentIntegration.tsx:32-35 | processing starts |
| `Payment.PaymentForm.ProcessingElapsed` | src/components/PaymentIntegration.tsx:37-40 | processing ends with one `onSuccess` call |
| `Payment.PaymentForm.Cancel` | src/components/PaymentIntegration.tsx:292-297 | Cancel calls `onCancel` unless processing |
| `Payment.RetypeShownCard` | src/components/PaymentIntegration.tsx:144-147 | storing the shown card text back shows the same text |
| `Faq.ToggleClosed` | src/components/FAQ.tsx:58-64 | opening an answer appends its index and keeps the rest in order |
| `Faq.ToggleOpen` | src/components/FAQ.tsx:58-64 | closing removes every copy of the index and keeps the rest in order |
| `Faq.ToggleFlips` | src/components/FAQ.tsx:58-64 | a toggle flips that question only; several can be open |
| `Faq.ToggleNoDuplicates` | src/components/FAQ.tsx:58-64 | a list without repeats keeps none |
| `Faq.ToggleTwiceClosed` | src/components/FAQ.tsx:58-64 | opening then closing restores the exact list |
| `Faq.ToggleTwiceOpen` | src/components/FAQ.tsx:58-64 | closing then opening restores which answers are open, the index moving to the end |
| `Faq.ToggleKeepsRange` | src/components/FAQ.tsx:58-91 | only the twelve questions' indices are ever open |
| `Faq.ToggleExample` | src/components/FAQ.tsx:5-64 | from nothing open, opening 0 and 2 and closing 0 leaves [2] |
| `Carousel.JsRem` | src/components/Testimonials.tsx:45-51 | JavaScript's `%` takes the dividend's sign |
| `Carousel.PrevNeedsOffset` | src/components/Testimonials.tsx:50 | without the added length, stepping back from 0 would give -1 |
| `Carousel.StepsStayInRange` | src/components/Testimonials.tsx:45-51 | the index starts at 0 and stays in [0, 5) under next, prev and dots |
| `Carousel.Steps` | src/components/Testimonials.tsx:45-51 | the arrows step by one, wrapping from 4 to 0 and from 0 to 4 |
| `Carousel.NextPrevInverse` | src/components/Testimonials.tsx:45-51 | each arrow undoes the other |
| `Carousel.NextNIsRotation` | src/components/Testimonials.tsx:45-56 | n forward steps add n modulo 5 |
| `Carousel.FullCycle` | src/components/Testimonials.tsx:45-56 | five forward steps return to the start |
| `Carousel.SelectShows` | src/components/Testimonials.tsx:122-128 | dot k shows review k |
| `Carousel.AllFiveStars` | src/components/Testimonials.tsx:7-43 | every review is rated five stars |
| `Seqs.FilterMembers` | src/components/SearchModal.tsx:181 | `filter` keeps exactly the elements that pass |
| `Seqs.FilterIsSubsequence` | src/components/FAQ.tsx:61 | `filter` keeps the order |
| `Seqs.FilterNoDuplicates` | src/components/FAQ.tsx:61 | `filter` introduces no repeats |
| `Text.TrimEmptyIffAllSpace` | src/components/Contact.tsx:36-37 | `trim()` is empty exactly when the text is all white space |
| `Text.JsLengthLower` | src/components/SearchModal.tsx:172 | lower-casing keeps `.length` |
| `Text.ContainsLower` | src/components/SearchModal.tsx:181-184 | containment survives lower-casing both sides |

## Left out

- Rendering: JSX, styling and icons are not modelled. Conditional rendering appears only as the flags it reads: `ContactForm.Screen`, `SearchBox.View`, and the guards on each method. The stars drawn for a rating and the step labels are not modelled, and neither is the review quotes' text.
- Browser constraint validation is not modelled: `required` attributes, `maxLength` truncation while typing, and the booking date's `min`, which comes from today's date. These are enforced by the browser, not by the components. A submission the browser would block is therefore let through.
- Real time: the 300, 2000, 3000, 5000 and 6000 ms delays are explicit "elapsed" events. Their order is the order in which the caller invokes them.
- Promises and `catch` branches: the promises never reject, so the `catch` paths are unreachable and not modelled.
- Overlapping asynchronous handlers: only one submission is pending at a time, because the buttons are disabled while loading.
- Unicode case mapping: `toLowerCase` is modelled for ASCII letters only. Text outside ASCII keeps its case.
- Regular expressions in general: only the three patterns used are encoded.
- Payment processing: there is no card network or Stripe call. "Processing" is a delay followed by `onSuccess`, so there is no decline path.
- `Payment.ApplyChange`: a top-level input named `billingAddress` would replace the nested record in the source. The model stores it as a text field instead. No input has that name.
- `Search.Results`: the catalog's titles and descriptions are stored as word lists joined with single spaces. Each word list was built from the source's text, and the text matched is the joined string.
- The search results' buttons (`scrollToSection`) and the booking dialog's date, time and therapist display call into the DOM or are only displayed. They are not modelled.
- `SearchBox`: a query shortened while a search is pending leaves `isLoading` set; this is kept in the model. The prompt hides it (`SettledView`), so it is not claimed as a defect.
- `Contact.ContactForm.HandleChange`: an emptied gender preference leaves the previous suggestions (Contact.tsx:91-96), and the model keeps them.
- Therapists.tsx, Header.tsx, Footer.tsx, Hero.tsx, About.tsx, Services.tsx, InsuranceInfo.tsx and App.tsx hold static content and navigation only. They are not part of this model.
