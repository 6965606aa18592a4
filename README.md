# Event organiser dashboard, modelled in Dafny

This project models the logic of a Next.js dashboard for event organisers.
The dashboard has six parts:

- **The event-creation wizard.** Its four steps edit one draft event. On the
  last step the draft is validated, and any error sends the user back to the
  earliest step that shows it. The draft is restored from browser storage on
  mount.
- **The wizard's sub-forms.** These are ticketing, sponsorship and contact
  details, and the final requirements.
- **The clock-face time picker.**
- **The stall approval page and the approved-stalls card.**
- **The artist-requests carousel and the manage-events table.** Both hand a
  draft event to the wizard.
- **The analytics views.** These are the chart's query parameters, the event
  header and the chart container's CSS builder. The sidebar's active-route
  rule is modelled alongside them.

## How the model is built

- **Values.** The browser's JavaScript values are the datatype
  `Values.Value`. It covers undefined, null, booleans, integers, strings,
  arrays, objects and files. The module also holds JavaScript's truthiness,
  property reads, spread and `||`.
- **Functions.** A `setFormData(prev => f(prev))` update becomes the function
  `f` on that value.
- **Classes.** Component state that handlers change step by step becomes a
  class whose methods have `modifies` clauses: the wizard's page, the time
  picker, the stalls page, the carousel, the pager and so on. A React effect
  is a method of that class, and a mount is the effects called in their
  order.
- **Built-ins.** `trim()`, `\s`, `split`, `join`, `padStart`, `parseInt` and
  `Number(string)` are defined in the modules `Text` and `JsNumbers`, with
  the JavaScript semantics the code depends on.
- **Proofs.** The validator is a specification function `Validation.Errors`.
  The method `Validation.ValidateEventForm` computes it with the source's
  loops. `ValidationFacts` proves each rule as "key present if and only if
  the rule is broken". `WizardFacts` proves that every key the validator
  reports belongs to a step, and that Next jumps to the earliest such step.

## Model

| member | source | states |
|---|---|---|
| Validation.ValidateEventForm | src/components/event-org/validateEventform.ts:76-182 | The error record built rule by rule, with its loops over the audience categories and the stall prices, is the specification `Errors(d)` |
| Validation.CheckAudience | src/components/event-org/validateEventform.ts:100-104 | The loop over the audience categories adds the keys `audienceCategory.i.*` of every entry, in index order |
| Validation.CheckStalls | src/components/event-org/validateEventform.ts:168-175 | The loop over the stall prices adds the keys `requirements.stallsPrices.i.*` of every entry |
| Validation.ErrorsInOrder | src/components/event-org/validateEventform.ts:79-179 | An unfolding of `Errors`, used by the method's proof: the six sections applied one after another in source order |
| ValidationFacts.ErrorKeys | src/components/event-org/validateEventform.ts:76-182 | A key is in the result if and only if one of the rules flags it |
| ValidationFacts.DescriptionRules | src/components/event-org/validateEventform.ts:80-84 | Name, category, tagline, description and personnel each get an error if and only if they are missing or white space only |
| ValidationFacts.ScheduleRules | src/components/event-org/validateEventform.ts:85-89 | Date, time and end time get an error only when falsy (no trim); venue and entry side when missing or white space only |
| ValidationFacts.TicketRules | src/components/event-org/validateEventform.ts:92-109 | `ticketType` errs if and only if it is neither "paid" nor "free"; `refundPolicy` only for paid tickets; `ticketName` and a numeric `ticketQuantity` of at least 1 whatever the type |
| ValidationFacts.AudienceRules | src/components/event-org/validateEventform.ts:95-105 | For paid tickets, an absent or empty list gives only `audienceCategory.0.category`; otherwise entry i gets a key per blank field, with the price only checked for emptiness; free tickets get none |
| ValidationFacts.UnpaidNoAudienceKeys | src/components/event-org/validateEventform.ts:95-107 | A ticket type other than "paid" yields no key under `audienceCategory.` |
| ValidationFacts.OfferRules | src/components/event-org/validateEventform.ts:110-114 | Discount type, amount and code are checked if and only if offers are enabled |
| ValidationFacts.ExtrasRules | src/components/event-org/validateEventform.ts:115-119 | Guidelines are always required; the gift-hamper description if and only if gift hampers are chosen |
| ValidationFacts.SponsorshipRules | src/components/event-org/validateEventform.ts:122-127 | Mobile and email are required, and a missing contact record flags both |
| ValidationFacts.FinalRules | src/components/event-org/validateEventform.ts:161-179 | Artists, stall availability and the thank-you note are required, and a missing parent record flags them |
| ValidationFacts.StallRules | src/components/event-org/validateEventform.ts:167-176 | Stall entry i gets a key for a blank stall type, and one for a falsy or non-numeric price |
| ValidationFacts.NoSponsorKeys | src/components/event-org/validateEventform.ts:128-158 | No key under `sponsors.` is ever produced |
| ValidationFacts.EmptyIffValid | src/components/event-org/validateEventform.ts:181 | The result is empty if and only if the draft keeps every active rule |
| JsNumbers.BlankIsZero | src/components/event-org/validateEventform.ts:109 | `Number` of an empty or white-space-only string is 0, not NaN |
| JsNumbers.NatToStringToNumber | src/components/event-org/validateEventform.ts:109 | `Number` of a decimal integer's text is that integer |
| Text.TrimEmptyIffBlank | src/components/event-org/validateEventform.ts:80 | `s.trim() === ""` holds if and only if every character is white space |
| EventWizard.FindJumpStep | src/components/event-org/EventPage.tsx:313-319 | The search loop with its early exit returns the jump target: the first step whose prefixes start an error key, or 1 |
| EventWizard.JumpTargetIsFirstOwner | src/components/event-org/EventPage.tsx:313-319 | The jump target owns an error key, and no earlier step does |
| EventWizard.Review | src/components/event-org/EventPage.tsx:304-329 | On the last step the errors are the validator's, and the next step is the jump target when there are errors and step 4 otherwise |
| EventWizard.EventPage.constructor | src/components/event-org/EventPage.tsx:33-139 | A new wizard is on step 1 with the default draft, all sections open and no errors |
| EventWizard.EventPage.HandleNext | src/components/event-org/EventPage.tsx:304-336 | Steps 1-3 advance one step and clear the errors; step 4 stores the validator's errors and jumps to the earliest owning step, or submits when there are none |
| EventWizard.EventPage.HandlePrevious | src/components/event-org/EventPage.tsx:338-344 | Moves back one step only above step 1, and leaves the errors as they are |
| EventWizard.EventPage.Restore | src/components/event-org/EventPage.tsx:158-191 | A stored draft is spread over the current one; a stored step is taken only if it parses to 1-4; stored sections replace the current ones |
| EventWizard.RestoredStep | src/components/event-org/EventPage.tsx:173-182 | A restored step is accepted only when `parseInt` gives an integer in 1..4 |
| EventWizard.SavedStepParses | src/components/event-org/EventPage.tsx:173-177 | A step saved with `toString()` parses back to the same step |
| EventWizard.MergeDraft | src/components/event-org/EventPage.tsx:166-168 | Stored top-level keys win, and every other key keeps its current value |
| EventWizard.Toggled | src/components/event-org/EventPage.tsx:141-146 | Flips exactly one section flag and keeps every other one |
| EventWizard.ToggleTwice | src/components/event-org/EventPage.tsx:141-146 | Toggling a section twice restores the map |
| EventWizard.EventPage.ToggleSection | src/components/event-org/EventPage.tsx:141-146 | The sections become the toggled map |
| EventWizard.CheckPhoto | src/components/event-org/EventPage.tsx:367-378 | A photo is accepted if and only if its type is JPEG, PNG or GIF and its size is at most 5 MiB; the type is checked first, so a file of another type is `WrongType` whatever its size, and `TooLarge` only ever means an oversized accepted type |
| EventWizard.EventPage.HandleEventPhoto | src/components/event-org/EventPage.tsx:364-386 | An accepted photo is stored; a rejected one stores null with its message; no file stores null and clears the message |
| EventWizard.AcceptedPhotos | src/components/event-org/EventPage.tsx:387-410 | The additional photos kept are exactly the accepted ones, and no more of them than files given |
| EventWizard.LastPhotoError | src/components/event-org/EventPage.tsx:393-404 | The error is empty if and only if every file is accepted; otherwise it is the message of the last rejected file |
| EventWizard.EventPage.HandleAdditionalPhotos | src/components/event-org/EventPage.tsx:387-410 | The loop keeps the accepted photos in order and leaves the last rejection's message |
| EventWizard.AllAcceptedKeepsAll | src/components/event-org/EventPage.tsx:387-410 | When every file passes, all of them are kept in order |
| EventWizard.AcceptedPhotosAppend | src/components/event-org/EventPage.tsx:395-406 | Keeping the accepted photos distributes over concatenation, so the kept photos stay in input order with their repeats |
| EventWizard.UpdateNestedState | src/components/event-org/EventPage.tsx:347-356 | The value reads back at the path, and top-level keys off the path are unchanged |
| EventWizard.UpdateNestedCreatesObjects | src/components/event-org/EventPage.tsx:352-355 | Every object along the path exists after the update, created as `{}` when missing |
| EventWizard.UpdateNestedOffPath | src/components/event-org/EventPage.tsx:347-356 | A path that leaves the updated path reads what it read before |
| EventWizard.EventPage.InputValue | src/components/event-org/EventPage.tsx:411-431 | Inputs named "transport.*" or "addOns.*" store their checked state whatever their type, as do checkboxes; any other input stores its text |
| EventWizard.EventPage.HandleInputChange | src/components/event-org/EventPage.tsx:411-431 | For any name but the two photo inputs, which are dispatched first, the dotted name is the path, and the stored value reads back there |
| EventWizard.AddArrayItem | src/components/event-org/EventPage.tsx:444-456 | Appends the template chosen by the list's name and keeps the other keys |
| EventWizard.UpdateAt | src/components/event-org/EventPage.tsx:458-465 | Only element `index` gets the field; length and other elements are unchanged |
| EventWizard.UpdateArrayField | src/components/event-org/EventPage.tsx:458-465 | Only the named field of element `index` changes; length, other elements and other keys are unchanged |
| EventWizard.RemoveAt | src/components/event-org/EventPage.tsx:467-472 | Drops exactly element `index`; an out-of-range index drops nothing |
| EventWizard.RemoveArrayItem | src/components/event-org/EventPage.tsx:467-472 | The list, or `[]` when missing, loses element `index`; other keys are unchanged |
| EventWizard.AddNestedArrayItem | src/components/event-org/EventPage.tsx:474-491 | `parent[arrayKey]` gains the item at the end; other parent keys and draft keys are unchanged |
| EventWizard.RemoveNestedArrayItem | src/components/event-org/EventPage.tsx:493-504 | `parent[arrayKey]` loses element `index`; other parent keys and draft keys are unchanged |
| WizardFacts.ErrorKeyOwned | src/components/event-org/EventPage.tsx:20-25 | Every key the validator reports has a prefix on its own step and on no earlier step |
| WizardFacts.JumpToEarliestError | src/components/event-org/EventPage.tsx:304-320 | With errors, Next on step 4 goes to the lowest step showing one of them |
| WizardFacts.JumpTargetIsEarliest | src/components/event-org/EventPage.tsx:313-319 | For a non-empty set of reportable keys, the target is the minimum of their steps |
| WizardFacts.ThankYouNoteOnlyStays | src/components/event-org/EventPage.tsx:313-320 | A draft whose only error is the thank-you note stays on step 4 |
| WizardFacts.BlankNameJumpsToStart | src/components/event-org/EventPage.tsx:304-320 | A draft with no event name is sent back to step 1 |
| TicketingForm.SetDotted | src/components/event-org/TicketingForm.tsx:46-56 | Succeeds if and only if no truthy primitive lies on the path, and then changes nothing; on success the walk follows the existing references, so a shared nested object is written in place, and then hangs a chain of new `{}` objects ending at `target`, which receives the value; only the object where the walk leaves the existing references changes, `prev` and every other object keep their properties |
| TicketingForm.TwoSegmentsInPlace | src/components/event-org/TicketingForm.tsx:46-56 | A two-segment name whose first segment holds an object writes the value into that shared object and changes no other object |
| TicketingForm.HamperNameSegments | src/components/event-org/TicketingForm.tsx:688-690 | The form's one dotted name, "addOns.giftHampersDescription", has the two segments `addOns` and `giftHampersDescription` |
| TicketingForm.SelectAudience | src/components/event-org/TicketingForm.tsx:62-73 | Negates only the chosen audience flag |
| TicketingForm.SelectAudienceTwice | src/components/event-org/TicketingForm.tsx:62-73 | Selecting an audience twice restores a flag that was a boolean |
| TicketingForm.ToggleOffers | src/components/event-org/TicketingForm.tsx:75-83 | Negates `enableOffers`; turning offers off clears the five offer fields; turning them on changes nothing else |
| TicketingForm.ChangeTicketType | src/components/event-org/TicketingForm.tsx:85-96 | Sets the type; "free" resets the audience list to one empty entry and the refund policy to ""; nothing else changes |
| TicketingForm.ChangeAddOn | src/components/event-org/TicketingForm.tsx:98-108 | Sets `addOns[second segment of name]` and keeps the other add-ons and keys |
| TicketingForm.ShownAudienceCategories | src/components/event-org/TicketingForm.tsx:132 | A missing audience list shows as one empty entry |
| TicketingForm.Clamp | src/components/event-org/TicketingForm.tsx:1192-1194 | The result lies in [lo, hi] when lo <= hi, is lo otherwise, and is v when v is in range |
| TicketingForm.DragMin | src/components/event-org/TicketingForm.tsx:1228-1230 | The lower thumb stays in [min, max value - 10], and the upper thumb is kept |
| TicketingForm.DragMax | src/components/event-org/TicketingForm.tsx:1231-1233 | The upper thumb stays in [min value + 10, max], and the lower thumb is kept |
| TicketingForm.DragKeepsGap | src/components/event-org/TicketingForm.tsx:1228-1234 | A gap of at least 10 inside the track is kept by either drag |
| SponsorshipForm.AddSponsor | src/components/event-org/SponsorshipForm.tsx:35-46 | Appends one blank sponsor to the category, creating the list if missing; other categories and keys are unchanged |
| SponsorshipForm.RemoveSponsor | src/components/event-org/SponsorshipForm.tsx:48-59 | Removes exactly element `index` of the category; other categories and keys are unchanged |
| SponsorshipForm.AddThenRemoveLast | src/components/event-org/SponsorshipForm.tsx:35-59 | Removing the sponsor just added restores the list |
| SponsorshipForm.ChangeSponsor | src/components/event-org/SponsorshipForm.tsx:61-76 | The copied list keeps its length; only an existing entry at `index` gets the field; otherwise the contents are unchanged |
| SponsorshipForm.UpdateContactInfo | src/components/event-org/SponsorshipForm.tsx:79-87 | Changes exactly one contact field and keeps the rest |
| SponsorshipForm.MobileUpdate | src/components/event-org/SponsorshipForm.tsx:439-456 | Every accepted update stores "+91 " and at most 10 digits; with the prefix intact, bad input is rejected; with the prefix damaged, the update is accepted if and only if at most 10 digits remain after stripping "+91" and non-digits, and it stores "+91 " followed by those digits |
| SponsorshipForm.HandleMobileInput | src/components/event-org/SponsorshipForm.tsx:439-456 | The handler's step-by-step narrowing gives `MobileUpdate` |
| SponsorshipForm.StripCountryCode | src/components/event-org/SponsorshipForm.tsx:446 | Removes a leading "+91" and one optional white-space character |
| SponsorshipForm.KeepDigits | src/components/event-org/SponsorshipForm.tsx:446 | Keeps only the digits, and leaves an all-digit string as it is |
| SponsorshipForm.MobileUpdateFixpoint | src/components/event-org/SponsorshipForm.tsx:438-456 | A stored number shown again is stored unchanged |
| SponsorshipForm.LetterAfterPrefixIgnored | src/components/event-org/SponsorshipForm.tsx:442-449 | A non-digit typed after "+91 " is ignored |
| SponsorshipForm.MissingSpaceSalvaged | src/components/event-org/SponsorshipForm.tsx:445-453 | Deleting the space after "+91" keeps the digits |
| SponsorshipForm.DisplayedMobile | src/components/event-org/SponsorshipForm.tsx:438 | An empty mobile number displays as "+91 " |
| FinalForm.AddStallPrice | src/components/event-org/FinalForm.tsx:42-53 | Appends one blank stall price, creating the list if missing; other requirement fields and draft keys are unchanged |
| FinalForm.RemoveStallPrice | src/components/event-org/FinalForm.tsx:55-63 | Removes exactly element `index`; other requirement fields and draft keys are unchanged |
| FinalForm.AddThenRemoveLastStallPrice | src/components/event-org/FinalForm.tsx:42-63 | Removing the stall price just added restores the list |
| FinalForm.ChangeStallPrice | src/components/event-org/FinalForm.tsx:65-77 | Only entry `index` gets the field; other entries are unchanged; an index past the end grows the list with `undefined` gaps |
| FinalForm.ChangeRequirement | src/components/event-org/FinalForm.tsx:79-90 | The value lands under the name's second segment in `requirements`, and nothing else changes |
| FinalForm.ChangePostEvent | src/components/event-org/FinalForm.tsx:92-103 | The value lands under the name's second segment in `postEventFollowUp`, and nothing else changes |
| FinalForm.Sections.ToggleSection | src/components/event-org/FinalForm.tsx:30-40 | Flips only the named section flag |
| TimePicker.ParseTime | src/components/ui/TimePicker.tsx:17-28 | No match gives 07:00 AM; whenever some position matches, the result is the value of the leftmost match; hour and minute are below 100 |
| TimePicker.FirstMatch | src/components/ui/TimePicker.tsx:18-19 | Finds the leftmost position where the pattern matches, if any |
| TimePicker.ParseFormatted | src/components/ui/TimePicker.tsx:17-182 | Parsing the OK text gives back the state whenever hour and minute are below 100 |
| TimePicker.NoRangeCheck | src/components/ui/TimePicker.tsx:17-28 | "99:99 pm" parses to 99:99 PM: neither value is range-checked, and the period is upper-cased |
| TimePicker.OneDigitHour | src/components/ui/TimePicker.tsx:18 | A one-digit hour inside other text, with no space before the period, is found |
| TimePicker.NoDigitsReadsDefault | src/components/ui/TimePicker.tsx:27 | Text without digits parses to the default |
| TimePicker.DefaultInitialTimeParses | src/components/ui/TimePicker.tsx:12-28 | The default initial time "07:00 AM" parses to the default state |
| TimePicker.FormatTime | src/components/ui/TimePicker.tsx:177-182 | For values below 100 the text is "HH:MM " followed by the period, 8 characters long |
| TimePicker.Pad2 | src/components/ui/TimePicker.tsx:178-179 | A number below 100 is padded to two digits |
| TimePicker.HourFromAngle | src/components/ui/TimePicker.tsx:73-76 | For an angle in [0, 360) the hour is in 1..12 and within 15 degrees of the angle |
| TimePicker.MinuteFromAngle | src/components/ui/TimePicker.tsx:80-83 | For an angle in [0, 360) the minute is in 0..59 and within 3 degrees of the angle |
| TimePicker.HourSnapsToHand | src/components/ui/TimePicker.tsx:73-113 | Clicking where the hour hand points gives that hour back |
| TimePicker.MinuteSnapsToHand | src/components/ui/TimePicker.tsx:80-113 | Clicking where the minute hand points gives that minute back |
| TimePicker.Picker.constructor | src/components/ui/TimePicker.tsx:30-32 | Starts from the parsed initial time, in the hours view, not dragging |
| TimePicker.Picker.Interact | src/components/ui/TimePicker.tsx:64-85 | Sets the hour or the minute from the angle; ending a drag in the hours view switches to minutes |
| TimePicker.Picker.MouseDown | src/components/ui/TimePicker.tsx:87-90 | Starts dragging and applies the angle |
| TimePicker.Picker.MouseMove | src/components/ui/TimePicker.tsx:92-96 | Applies the angle only while dragging |
| TimePicker.Picker.MouseUp | src/components/ui/TimePicker.tsx:98-103 | Ends a drag, applies the angle and moves to the minutes view; without a drag nothing changes |
| TimePicker.Picker.SetPeriod | src/components/ui/TimePicker.tsx:262-278 | The AM/PM buttons change only the period |
| TimePicker.Picker.ShowView | src/components/ui/TimePicker.tsx:221-237 | Clicking the digits selects the view |
| TimePicker.Picker.Ok | src/components/ui/TimePicker.tsx:177-182 | The emitted text is the formatted state, and it parses back to that state |
| TimePicker.PickHour | src/components/ui/TimePicker.tsx:73-103 | A click in the hours view sets an hour in 1..12, keeps minute and period, and moves to the minutes view |
| Stalls.Select | src/app/stalls/page.tsx:200 | The filtered stalls are exactly those whose approval matches, in fixture order |
| Stalls.SelectSplits | src/app/stalls/page.tsx:200 | The approved and the unapproved stalls together are the fixture, counted with multiplicity |
| Stalls.Approved | src/app/stalls/page.tsx:148-157 | Adds the title only when absent, and keeps the list duplicate-free |
| Stalls.ApproveTwice | src/app/stalls/page.tsx:148-157 | Approving twice equals approving once |
| Stalls.Revoked | src/app/stalls/page.tsx:159-166 | Removes every occurrence of the title and keeps every other title with its multiplicity (multiset minus the title); a non-member leaves the list unchanged |
| Stalls.RevokeUndoesApprove | src/app/stalls/page.tsx:148-166 | Revoking a freshly approved title restores the list |
| Stalls.RevokeKeepsDistinct | src/app/stalls/page.tsx:159-166 | Revoking keeps the list duplicate-free |
| Stalls.StallsPage.LoadEffect | src/app/stalls/page.tsx:116-126 | The stored list is loaded when it parses, and the page is marked loaded |
| Stalls.StallsPage.SaveEffect | src/app/stalls/page.tsx:129-133 | The list is written only after loading |
| Stalls.StallsPage.ShownStalls | src/app/stalls/page.tsx:200 | The grid shows exactly the fixture stalls not approved |
| Stalls.StallsPage.ViewMore | src/app/stalls/page.tsx:135-142 | Selecting the selected stall closes the panel; any other stall is selected |
| Stalls.StallsPage.Approve | src/app/stalls/page.tsx:148-157 | The list becomes `Approved` of the old list |
| Stalls.StallsPage.Revoke | src/app/stalls/page.tsx:159-166 | The list becomes `Revoked` of the old list |
| Stalls.StallsPage.PanelApprove | src/app/stalls/page.tsx:169-174 | Approves only with a selection, and always clears the selection |
| Stalls.StallsPage.PanelRevoke | src/app/stalls/page.tsx:176-181 | Revokes only with a selection, and always clears the selection |
| Stalls.Mount | src/app/stalls/page.tsx:115-133 | A parsed stored list is kept; otherwise the empty list is written only after the load, so the initial `[]` never overwrites stored data |
| ApprovedStalls.Card | src/components/analytics/approved-stalls.tsx:58-62 | Nothing is shown before mount or for an empty list; otherwise exactly the fixture stalls with a stored title are shown |
| ApprovedStalls.UnknownTitlesShowEmptyCard | src/components/analytics/approved-stalls.tsx:60-62 | Unknown stored titles are ignored, leaving an empty card |
| ApprovedStalls.CardIgnoresOrder | src/components/analytics/approved-stalls.tsx:62 | The card depends only on which titles are stored |
| ApprovedStalls.CardAndGridSplitStalls | src/components/analytics/approved-stalls.tsx:62 | The card and the stalls page grid split the fixture between them |
| ApprovedStalls.ApprovedStallsSection.MountEffect | src/components/analytics/approved-stalls.tsx:46-56 | Marks mounted and loads the stored list when it parses |
| ApprovedStalls.MountUnparseable | src/components/analytics/approved-stalls.tsx:47-60 | An unparseable stored value shows nothing |
| Carousel.Position | src/components/artist-request/artist-requests-carousel.tsx:52-57 | The offset is index - active shifted by at most one turn into [-n/2, n/2], and 0 for the active card |
| Carousel.PositionLocatesCard | src/components/artist-request/artist-requests-carousel.tsx:52-57 | Going `Position` steps from the active card reaches the card |
| Carousel.NextIndex | src/components/artist-request/artist-requests-carousel.tsx:89 | Right moves to the next card, wrapping to 0, and stays in range |
| Carousel.PrevIndex | src/components/artist-request/artist-requests-carousel.tsx:91 | Left moves to the previous card, wrapping to n - 1, and stays in range |
| Carousel.RightThenLeft | src/components/artist-request/artist-requests-carousel.tsx:87-93 | Right then left, or left then right, returns to the same card |
| Carousel.Swipe | src/components/artist-request/artist-requests-carousel.tsx:105-112 | A swipe counts if and only if it is longer than 50 pixels, and goes right if and only if the finger moved left |
| Carousel.ClickDirection | src/components/artist-request/artist-requests-carousel.tsx:116 | The move goes right if and only if the card's position is positive |
| Carousel.ClickBringsCardForward | src/components/artist-request/artist-requests-carousel.tsx:114-117 | With three cards, one click brings the clicked card to the front |
| Carousel.ShownOnDesktopIffNeighbour | src/components/artist-request/artist-requests-carousel.tsx:186-190 | The desktop view draws exactly the active card and its two neighbours |
| Carousel.RequestsCarousel.Navigate | src/components/artist-request/artist-requests-carousel.tsx:82-86 | Ignored while animating; otherwise drops the hover and schedules the move |
| Carousel.RequestsCarousel.TimerFires | src/components/artist-request/artist-requests-carousel.tsx:87-94 | The scheduled step is made and input is accepted again |
| Carousel.RequestsCarousel.TouchEnd | src/components/artist-request/artist-requests-carousel.tsx:105-112 | Navigates only for a counted swipe, in its direction |
| Carousel.RequestsCarousel.CardClick | src/components/artist-request/artist-requests-carousel.tsx:114-117 | Does nothing for the active card or while animating; otherwise moves towards the card |
| Carousel.ClickAndWait | src/components/artist-request/artist-requests-carousel.tsx:82-117 | A click on a card, once the timer has run, makes that card active |
| Carousel.HostEventDraft | src/components/artist-request/artist-requests-carousel.tsx:59-76 | The draft carries the title, story and place, with category "Entertainment" and an empty date and times |
| Carousel.HostEventDraftRestored | src/components/artist-request/artist-requests-carousel.tsx:63-78 | The wizard restoring that draft shows the request and keeps its own ticket type |
| ManageEvents.PageEvents | src/components/manage-events/all-events-section.tsx:14-28 | Page 1 shows the first list, and any other page the second |
| ManageEvents.PreviousPage | src/components/manage-events/all-events-section.tsx:172 | The previous arrow never goes below 1 |
| ManageEvents.NextPage | src/components/manage-events/all-events-section.tsx:196 | The next arrow never goes above 2 |
| ManageEvents.ArrowsUndo | src/components/manage-events/all-events-section.tsx:172-196 | On either page, next leads to page 2 and previous to page 1 |
| ManageEvents.AllEventsSection.Previous | src/components/manage-events/all-events-section.tsx:172 | The page stays in 1..2 |
| ManageEvents.AllEventsSection.Next | src/components/manage-events/all-events-section.tsx:196 | The page stays in 1..2 |
| ManageEvents.AllEventsSection.GoTo | src/components/manage-events/all-events-section.tsx:180-191 | The numbered buttons select page 1 or 2 |
| ManageEvents.ActionDraft | src/components/manage-events/all-events-section.tsx:30-57 | The draft carries the row's name and category; Repeat clears the date and both times, and Edit keeps the date |
| ManageEvents.EditAndRepeatDifferInDate | src/components/manage-events/all-events-section.tsx:52-57 | Edit and Repeat drafts of an event differ only in the date |
| ManageEvents.RowClickData | src/components/manage-events/all-events-section.tsx:67-74 | The stored summary has exactly the name, date, category and status |
| EventOverview.Merge | src/components/analytics/event-overview.tsx:21-28 | A truthy stored name, date or status replaces the current one, and a falsy one keeps it; time and location are kept; a parsed `null`, whose property read throws, is outside its domain |
| EventOverview.MergeIdempotent | src/components/analytics/event-overview.tsx:21-28 | Merging the same non-null value twice equals merging it once |
| EventOverview.MergeIgnoresOtherKeys | src/components/analytics/event-overview.tsx:21-28 | Any stored key other than the three is ignored |
| EventOverview.RowClickShown | src/components/analytics/event-overview.tsx:8-28 | A clicked row with name, date and status shows them, under the default time and place |
| EventOverview.EventOverviewPanel.LoadEffect | src/components/analytics/event-overview.tsx:16-33 | A present, parseable, non-null value is merged; a parsed `null` crashes the panel, because the updater throws when React runs it during render, outside the `try`; otherwise nothing changes |
| EventOverview.MountWithout | src/components/analytics/event-overview.tsx:8-33 | With no entry, or one that does not parse, the header shows the defaults and does not crash |
| EventOverview.MountNull | src/components/analytics/event-overview.tsx:16-33 | A stored "null" crashes the panel |
| AnalyticsChart.Lookup | src/components/dashboard/analytics-chart.tsx:96-97 | `get` returns none if and only if no pair has the name; otherwise the value of a pair with the name that no earlier pair shares, i.e. the first one |
| AnalyticsChart.SetParamSpec | src/components/dashboard/analytics-chart.tsx:102-103 | `set` makes the name read the value, keeps every pair with another name, and keeps other lookups |
| AnalyticsChart.SearchParams.Set | src/components/dashboard/analytics-chart.tsx:102-103 | The pairs become `SetParam` of the old pairs |
| AnalyticsChart.UpdateRoute | src/components/dashboard/analytics-chart.tsx:99-106 | A non-empty metric or period is set and an empty one is kept; every other parameter is kept |
| AnalyticsChart.Metric | src/components/dashboard/analytics-chart.tsx:96 | The metric defaults to "revenue" when absent or empty; a non-empty value is used as is |
| AnalyticsChart.Period | src/components/dashboard/analytics-chart.tsx:97 | The period defaults to "monthly" when absent or empty; a non-empty value is used as is |
| AnalyticsChart.ChartData | src/components/dashboard/analytics-chart.tsx:109-115 | "weekly" and "yearly" pick their data; anything else picks the monthly data |
| AnalyticsChart.DataKeyOf | src/components/dashboard/analytics-chart.tsx:118 | The tickets series is plotted if and only if the metric is "tickets" |
| AnalyticsChart.TooltipText | src/components/dashboard/analytics-chart.tsx:208-209 | Revenue shows "₹" and the value times 1000; other metrics show the plain value |
| AnalyticsChart.UnknownMetricPlainRevenue | src/components/dashboard/analytics-chart.tsx:118-209 | An unknown metric plots revenue but shows it without the currency scaling |
| AnalyticsChart.MinWidth | src/components/dashboard/analytics-chart.tsx:123 | Only the yearly view is 300px wide |
| AnalyticsChart.ChoosingPeriodPlotsIt | src/components/dashboard/analytics-chart.tsx:97-115 | Choosing a period plots that period and keeps the metric and the other parameters |
| Sidebar.ExtensionIsActive | src/components/layout/Sidebar.tsx:98 | A path under an item's link marks that item active |
| Sidebar.ActiveNeedsPrefix | src/components/layout/Sidebar.tsx:98 | An active item's link is a prefix of the current path |
| Sidebar.AtMostOneActive | src/components/layout/Sidebar.tsx:34-98 | At most one menu item is active at a time |
| Sidebar.NonEmpty | src/components/layout/Sidebar.tsx:22-24 | `filter(Boolean)` keeps exactly the non-empty class names |
| Sidebar.ClassNamesSplit | src/components/layout/Sidebar.tsx:22-24 | Splitting the joined class names at spaces gives back the non-empty ones |
| Sidebar.ClassNamesPair | src/components/layout/Sidebar.tsx:22-24 | Two names are joined by one space, and an empty one is dropped |
| Sidebar.WidthClass | src/components/layout/Sidebar.tsx:54 | The open sidebar is 260px wide, the closed one 80px |
| Sidebar.LabelVisibility | src/components/layout/Sidebar.tsx:113-115 | Labels are visible if and only if the sidebar is open |
| Sidebar.ToggleWidth | src/components/layout/Sidebar.tsx:85 | The toggle always changes the width, and toggling twice restores it |
| Chart.ColoredEntriesMembers | src/components/ui/chart.tsx:61-62 | The filter keeps exactly the entries with a theme or a colour, and is empty if and only if no entry has one |
| Chart.ColoredEntriesAppend | src/components/ui/chart.tsx:61 | The filter keeps the order: the kept entries of `a + b` are those of `a` followed by those of `b` |
| Chart.ColoredEntriesOne | src/components/ui/chart.tsx:61 | A single entry is kept if and only if it has a theme or a colour |
| Chart.ColorFor | src/components/ui/chart.tsx:68 | The theme's colour when set, otherwise the plain colour |
| Chart.Declaration | src/components/ui/chart.tsx:69 | A line is empty if and only if the series has no colour for the theme |
| Chart.Block | src/components/ui/chart.tsx:72 | A theme's rule starts with its header, and is closed if and only if its lines are non-empty |
| Chart.ChartStyle | src/components/ui/chart.tsx:60-77 | Nothing is output if and only if no series is coloured; otherwise the light block, a newline and the dark block, each opening with its theme's `[data-chart=id]` header (`.dark` for the second) and closed if and only if its own lines are non-empty |
| Chart.SingleUncolouredSeriesUnclosed | src/components/ui/chart.tsx:66-72 | One coloured series without a colour for a theme leaves that rule unclosed |
| Chart.SeveralSeriesClosed | src/components/ui/chart.tsx:66-72 | With two or more coloured series every rule is closed |
| Chart.DeclarationShape | src/components/ui/chart.tsx:68-69 | A series with a colour declares `--color-<key>` on its own line |
| Chart.ChartId | src/components/ui/chart.tsx:41 | The id is "chart-" and the given id, or the generated id without colons |
| Chart.LegendKey | src/components/ui/chart.tsx:127 | The key is the first truthy of `nameKey`, `dataKey` and `name`, otherwise "value" |
| Chart.MissingItemKey | src/components/ui/chart.tsx:127 | A missing entry still gets the key "value" |

## Left out

- I/O: `localStorage` reads and writes, `JSON.parse` and `JSON.stringify`, and router navigation. A stored item is given already parsed: the `Stored` and `StoredData` datatypes, or `Option` values in `EventPage.Restore`.
- Timers: the carousel's 100 ms timer is a separate `TimerFires` step, and the wizard's scroll timers are left out. React's batching of state updates is not modelled.
- The time picker's `getAngle` (atan2 on pointer coordinates): the angle is an integer parameter in [0, 360). Floating-point rounding of `Math.round(deg / 30)` is not modelled.
- Rendering, styles, toasts, `alert`, `console` output, object URLs for previews, and the random item list of the stall panel.
- JavaScript numbers are exact: `Number(string)` yields an exact rational, and rounding to binary64 is left out.
- The URL encoding of the analytics query string: parameters are name/value pairs.
- The order in which `Object.entries` lists integer-like keys: chart configs are ordered pairs.
- `useChart`'s error outside a chart container, and the icon and label rendering of the legend.
- TicketingForm.SetDotted: the 200 ms debounce is left out. Inherited properties are not modelled: a property a plain object or a primitive gets from its prototype (`constructor`, `length`, methods) reads as missing, so a truthy primitive on the path always makes the update fail, although in JavaScript a path through such a property can end at a function object and succeed. An array, object or File stored as a plain value (`Slot.Prim`) rather than behind a reference is treated like any other truthy primitive: a path through it fails, and nothing is written. In JavaScript those values are objects, so the write into them would succeed in place. The form's only dotted name, `addOns.giftHampersDescription`, goes through an object reference and never meets this case.
- Values.Spread: in JavaScript, spreading an array or a string copies its indices as keys (`{...[a, b]}` is `{0: a, 1: b}`, `{..."ab"}` is `{0: "a", 1: "b"}`); the model copies nothing from them. Values.With, EventWizard.MergeDraft, EventWizard.UpdateNestedState, TicketingForm.SelectAudience and TicketingForm.ChangeAddOn inherit this when a spread operand is an array or a string.
- FinalForm.ChangeStallPrice: holes of a sparse array are modelled as stored `undefined` entries.
- SponsorshipForm.AddSponsor: requires `sponsors` to be non-nullish, because the source reads `currentSponsors[typeId]` without a guard and throws on a missing `sponsors`. A truthy sponsor list that is not an array is also excluded; in the source, spreading it would throw or spread its characters.
- TicketingForm.SelectAudience: requires `targetAudience` to be non-nullish, because the source reads `prev.targetAudience[audience]` without a guard and throws on a missing `targetAudience`.
- EventWizard.AddArrayItem: requires the named list to be an array, as the source's spread of a missing list throws.
- EventWizard.UpdateArrayField: requires the named list to be an array; the source calls `.map` on it directly, which throws on a missing list or a non-array. Like every wizard handler it also requires the form state to be an object, which it always is.
- EventWizard.RemoveArrayItem: requires a truthy named list to be an array; the source's `.filter` throws on a truthy non-array (a falsy list is defaulted to `[]` and is modelled).
- EventWizard.AddNestedArrayItem: requires a truthy `parent[arrayKey]` to be an array; in the source, spreading a truthy string copies its characters and spreading another non-array throws.
- EventWizard.RemoveNestedArrayItem: requires a truthy `parent[arrayKey]` to be an array, as the source's `.filter` throws on anything else.
- SponsorshipForm.RemoveSponsor: requires `sponsors` to be non-nullish and the category's list to be an array; the source reads `currentSponsors[typeId].filter` with no default, which throws otherwise.
- SponsorshipForm.ChangeSponsor: requires `sponsors` to be non-nullish and a truthy category list to be an array; in the source, indexing a nullish `sponsors` throws, and spreading a truthy string copies its characters.
- FinalForm.AddStallPrice: requires a truthy `stallsPrices` to be an array; in the source, a truthy string is spread into its characters, and another non-array throws.
- FinalForm.RemoveStallPrice: requires `requirements` to be non-nullish and `stallsPrices` to be an array, because the source calls `.filter` on it with no default and throws otherwise.
- FinalForm.ChangeStallPrice: requires `requirements` to be non-nullish and `stallsPrices` to be an array, because the source spreads it with no default and throws on a missing list.
- EventWizard.EventPage.HandleNext: requires on step 4 a draft whose fields have the types the validator reads, since other shapes make `trim()` throw.
- Validation.ValidateEventForm: requires the same typed draft; the specification `Errors` only needs the values passed to `Number` to be primitive.
- EventWizard.EventPage.HandleInputChange: `checked` is a boolean parameter; a text area, whose `checked` is `undefined`, is not distinguished from an unchecked input.
- The draft fields the validator does not read (transport options, photos beyond `eventPhoto`, audience range) are carried as plain values only.
