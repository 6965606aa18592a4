/** The event-draft validator: a map from dotted field path to error message,
    filled rule by rule. The rules follow the wizard's four forms (event
    details, ticketing, sponsorship and contact, final requirements). */
module Validation {
  import opened Text
  import opened JsNumbers
  import opened Values

  type ErrorMap = map<string, string>

  /** The properties of the draft the validator reads; a property the draft
      lacks reads as `Undefined`. */
  datatype EventFormData = EventFormData(
    eventName: Value, category: Value, tagline: Value, description: Value,
    personnel: Value, date: Value, time: Value, endTime: Value, venue: Value,
    entrySide: Value, ticketType: Value, audienceCategory: Value,
    refundPolicy: Value, ticketName: Value, ticketQuantity: Value,
    enableOffers: Value, discountType: Value, discountAmount: Value,
    discountCode: Value, guidelines: Value, addOns: Value, contactInfo: Value,
    requirements: Value, postEventFollowUp: Value)

  /** The properties the validator reads, taken from a draft object. */
  function FormDataOf(v: Value): EventFormData {
    EventFormData(
      Get(v, "eventName"), Get(v, "category"), Get(v, "tagline"), Get(v, "description"),
      Get(v, "personnel"), Get(v, "date"), Get(v, "time"), Get(v, "endTime"), Get(v, "venue"),
      Get(v, "entrySide"), Get(v, "ticketType"), Get(v, "audienceCategory"),
      Get(v, "refundPolicy"), Get(v, "ticketName"), Get(v, "ticketQuantity"),
      Get(v, "enableOffers"), Get(v, "discountType"), Get(v, "discountAmount"),
      Get(v, "discountCode"), Get(v, "guidelines"), Get(v, "addOns"), Get(v, "contactInfo"),
      Get(v, "requirements"), Get(v, "postEventFollowUp"))
  }

  const AudiencePrefix: string := "audienceCategory."
  const StallsPrefix: string := "requirements.stallsPrices."

  /** `audienceCategory.${idx}.<field>` */
  function AudienceKey(i: nat, field: string): string {
    AudiencePrefix + NatToString(i) + "." + field
  }

  /** `requirements.stallsPrices.${idx}.<field>` */
  function StallKey(i: nat, field: string): string {
    StallsPrefix + NatToString(i) + "." + field
  }

  // ---------------------------------------------------------------------
  // The drafts the validator can read without a TypeError: every value on
  // which it calls `.trim()` is a string or falsy, every value it converts
  // with `Number` is a primitive, and every list entry it reads a field of
  // is not null or undefined.

  /** The audience categories, when the source walks them. */
  function AudienceList(d: EventFormData): seq<Value> {
    if d.ticketType == Str("paid") && d.audienceCategory.Arr? then d.audienceCategory.items else []
  }

  /** The stall prices, when the source walks them. */
  function StallList(d: EventFormData): seq<Value> {
    var stalls := Get(d.requirements, "stallsPrices");
    if Truthy(d.requirements) && stalls.Arr? then stalls.items else []
  }

  predicate PricesConvertible(stalls: seq<Value>) {
    forall i :: 0 <= i < |stalls| ==> NumberLike(Get(stalls[i], "stallPrice"))
  }

  /** Every value passed to `Number` is a primitive. */
  predicate Convertible(d: EventFormData) {
    NumberLike(d.ticketQuantity)
    && (Truthy(d.enableOffers) ==> NumberLike(d.discountAmount))
    && PricesConvertible(StallList(d))
  }

  predicate AudienceEntryShaped(cat: Value) {
    !Nullish(cat) && TextLike(Get(cat, "category")) && TextLike(Get(cat, "description"))
  }

  predicate StallEntryShaped(stall: Value) {
    !Nullish(stall) && TextLike(Get(stall, "stallType"))
  }

  predicate Shaped(d: EventFormData) {
    Convertible(d)
    && TextLike(d.eventName) && TextLike(d.category) && TextLike(d.tagline)
    && TextLike(d.description) && TextLike(d.personnel) && TextLike(d.venue) && TextLike(d.entrySide)
    && (d.ticketType == Str("paid") ==> TextLike(d.refundPolicy))
    && (forall i :: 0 <= i < |AudienceList(d)| ==> AudienceEntryShaped(AudienceList(d)[i]))
    && TextLike(d.ticketName)
    && (Truthy(d.enableOffers) ==> TextLike(d.discountCode))
    && TextLike(d.guidelines)
    && (Truthy(Get(d.addOns, "giftHampers")) ==> TextLike(Get(d.addOns, "giftHampersDescription")))
    && (Truthy(d.contactInfo) ==>
          TextLike(Get(d.contactInfo, "mobile")) && TextLike(Get(d.contactInfo, "email")))
    && (Truthy(d.requirements) ==>
          TextLike(Get(d.requirements, "artists")) && TextLike(Get(d.requirements, "stallsAvailability")))
    && (forall i :: 0 <= i < |StallList(d)| ==> StallEntryShaped(StallList(d)[i]))
    && (Truthy(d.postEventFollowUp) ==> TextLike(Get(d.postEventFollowUp, "thankYouNote")))
  }

  // ---------------------------------------------------------------------
  // The specification: the map the validator returns, rule by rule.

  /** `!q || isNaN(Number(q)) || Number(q) < 1` */
  predicate BadQuantity(q: Value)
    requires NumberLike(q)
  {
    !Truthy(q) || IsNaN(NumberOf(q)) || LessThanOne(NumberOf(q))
  }

  /** `!a || isNaN(Number(a))` */
  predicate BadAmount(a: Value)
    requires NumberLike(a)
  {
    !Truthy(a) || IsNaN(NumberOf(a))
  }

  /** `!p || p === ""` */
  predicate BadPrice(p: Value) {
    !Truthy(p) || p == Str("")
  }

  /** `!t || (t !== a && t !== b)`: a missing or unlisted choice. */
  predicate NotOneOf(t: Value, a: string, b: string) {
    !Truthy(t) || (t != Str(a) && t != Str(b))
  }

  /** `Array.isArray(a) && a.length > 0` */
  predicate HasEntries(a: Value) {
    a.Arr? && |a.items| > 0
  }

  /** The event-details rules on what the event is. */
  function DescriptionErrors(d: EventFormData, e: ErrorMap): ErrorMap {
    var e := if Blank(d.eventName) then e["eventName" := "Event Name is required"] else e;
    var e := if Blank(d.category) then e["category" := "Category is required"] else e;
    var e := if Blank(d.tagline) then e["tagline" := "Tagline is required"] else e;
    var e := if Blank(d.description) then e["description" := "Description is required"] else e;
    if Blank(d.personnel) then e["personnel" := "Personnel is required"] else e
  }

  /** The event-details rules on when and where; the date and times are only
      checked for being empty. */
  function ScheduleErrors(d: EventFormData, e: ErrorMap): ErrorMap {
    var e := if !Truthy(d.date) then e["date" := "Date is required"] else e;
    var e := if !Truthy(d.time) then e["time" := "Start time is required"] else e;
    var e := if !Truthy(d.endTime) then e["endTime" := "End time is required"] else e;
    var e := if Blank(d.venue) then e["venue" := "Venue is required"] else e;
    if Blank(d.entrySide) then e["entrySide" := "Entry Side is required"] else e
  }

  /** The three checks on audience category `i`; the price is only checked
      for being empty. */
  function AudienceEntryErrors(e: ErrorMap, i: nat, cat: Value): ErrorMap {
    var e := if Blank(Get(cat, "category"))
      then e[AudienceKey(i, "category") := "Category is required"] else e;
    var e := if BadPrice(Get(cat, "price"))
      then e[AudienceKey(i, "price") := "Price is required"] else e;
    if Blank(Get(cat, "description"))
    then e[AudienceKey(i, "description") := "Description is required"] else e
  }

  /** The audience-category checks on the first `n` entries. */
  function AudienceErrors(e: ErrorMap, cats: seq<Value>, n: nat): ErrorMap
    requires n <= |cats|
  {
    if n == 0 then e else AudienceEntryErrors(AudienceErrors(e, cats, n - 1), n - 1, cats[n - 1])
  }

  /** The paid-ticket rules: audience categories and the refund policy. */
  function PaidErrors(d: EventFormData, e: ErrorMap): ErrorMap {
    var e :=
      if !HasEntries(d.audienceCategory)
      then e[AudienceKey(0, "category") := "At least one audience category is required"]
      else AudienceErrors(e, d.audienceCategory.items, |d.audienceCategory.items|);
    if Blank(d.refundPolicy) then e["refundPolicy" := "Refund policy is required"] else e
  }

  /** The ticket-type rule, and the paid-ticket rules when the type is "paid". */
  function TicketTypeErrors(d: EventFormData, e: ErrorMap): ErrorMap {
    var e := if NotOneOf(d.ticketType, "paid", "free") then e["ticketType" := "Ticket type is required"] else e;
    if d.ticketType == Str("paid") then PaidErrors(d, e) else e
  }

  /** The ticket rules: type, paid-ticket details, name and quantity. The
      name and quantity are required whatever the ticket type. */
  function TicketErrors(d: EventFormData, e: ErrorMap): ErrorMap
    requires NumberLike(d.ticketQuantity)
  {
    var e := TicketTypeErrors(d, e);
    var e := if Blank(d.ticketName) then e["ticketName" := "Ticket name is required"] else e;
    if BadQuantity(d.ticketQuantity) then e["ticketQuantity" := "Ticket quantity is required"] else e
  }

  /** The offer rules, checked when `enableOffers` is set. */
  function OfferErrors(d: EventFormData, e: ErrorMap): ErrorMap
    requires NumberLike(d.discountAmount)
  {
    var e := if NotOneOf(d.discountType, "flat", "percentage")
      then e["discountType" := "Discount type is required"] else e;
    var e := if BadAmount(d.discountAmount) then e["discountAmount" := "Discount amount is required"] else e;
    if Blank(d.discountCode) then e["discountCode" := "Discount code is required"] else e
  }

  /** The offer rules when offers are enabled. */
  function EnabledOfferErrors(d: EventFormData, e: ErrorMap): ErrorMap
    requires Truthy(d.enableOffers) ==> NumberLike(d.discountAmount)
  {
    if Truthy(d.enableOffers) then OfferErrors(d, e) else e
  }

  /** The offer, guideline and add-on rules. */
  function ExtrasErrors(d: EventFormData, e: ErrorMap): ErrorMap
    requires Truthy(d.enableOffers) ==> NumberLike(d.discountAmount)
  {
    var e := EnabledOfferErrors(d, e);
    var e := if Blank(d.guidelines) then e["guidelines" := "Guidelines are required"] else e;
    if Truthy(Get(d.addOns, "giftHampers")) && Blank(Get(d.addOns, "giftHampersDescription"))
    then e["addOns.giftHampersDescription" := "Gift hampers description is required"] else e
  }

  /** The contact rules; sponsor entries are not checked. */
  function SponsorshipErrors(d: EventFormData, e: ErrorMap): ErrorMap {
    var e := if !Truthy(d.contactInfo) || Blank(Get(d.contactInfo, "mobile"))
      then e["contactInfo.mobile" := "Mobile number is required"] else e;
    if !Truthy(d.contactInfo) || Blank(Get(d.contactInfo, "email"))
    then e["contactInfo.email" := "Email is required"] else e
  }

  /** The two checks on stall price `i`. */
  function StallEntryErrors(e: ErrorMap, i: nat, stall: Value): ErrorMap
    requires NumberLike(Get(stall, "stallPrice"))
  {
    var e := if Blank(Get(stall, "stallType"))
      then e[StallKey(i, "stallType") := "Stall type is required"] else e;
    if BadAmount(Get(stall, "stallPrice"))
    then e[StallKey(i, "stallPrice") := "Stall price is required"] else e
  }

  /** The stall-price checks on the first `n` entries. */
  function StallErrors(e: ErrorMap, stalls: seq<Value>, n: nat): ErrorMap
    requires n <= |stalls| && PricesConvertible(stalls)
  {
    if n == 0 then e else StallEntryErrors(StallErrors(e, stalls, n - 1), n - 1, stalls[n - 1])
  }

  /** The artist and stall-availability rules; a missing `requirements`
      object counts as missing fields. */
  function RequirementsErrors(d: EventFormData, e: ErrorMap): ErrorMap {
    var e := if !Truthy(d.requirements) || Blank(Get(d.requirements, "artists"))
      then e["requirements.artists" := "Artists/Singers field is required"] else e;
    if !Truthy(d.requirements) || Blank(Get(d.requirements, "stallsAvailability"))
    then e["requirements.stallsAvailability" := "Stalls availability is required"] else e
  }

  /** The requirements, stall-price and follow-up rules. */
  function FinalErrors(d: EventFormData, e: ErrorMap): ErrorMap
    requires PricesConvertible(StallList(d))
  {
    var e := StallErrors(RequirementsErrors(d, e), StallList(d), |StallList(d)|);
    if !Truthy(d.postEventFollowUp) || Blank(Get(d.postEventFollowUp, "thankYouNote"))
    then e["postEventFollowUp.thankYouNote" := "Thank you note is required"] else e
  }

  /** Section `i` of the six, in the order the validator applies them. */
  function Section(d: EventFormData, i: nat, e: ErrorMap): ErrorMap
    requires Convertible(d) && 1 <= i <= 6
  {
    if i == 1 then DescriptionErrors(d, e)
    else if i == 2 then ScheduleErrors(d, e)
    else if i == 3 then TicketErrors(d, e)
    else if i == 4 then ExtrasErrors(d, e)
    else if i == 5 then SponsorshipErrors(d, e)
    else FinalErrors(d, e)
  }

  /** The errors after the first `n` sections have run. */
  function ErrorsThrough(d: EventFormData, n: nat): ErrorMap
    requires Convertible(d) && n <= 6
  {
    if n == 0 then map[] else Section(d, n, ErrorsThrough(d, n - 1))
  }

  /** What `validateEventForm(d)` returns. */
  function Errors(d: EventFormData): ErrorMap
    requires Convertible(d)
  {
    ErrorsThrough(d, 6)
  }

  /** The six sections, each applied to the record the one before left. */
  lemma ErrorsInOrder(d: EventFormData)
    requires Convertible(d)
    ensures Errors(d) == FinalErrors(d, SponsorshipErrors(d, ExtrasErrors(d, TicketErrors(d,
                           ScheduleErrors(d, DescriptionErrors(d, map[]))))))
  {
    assert ErrorsThrough(d, 1) == DescriptionErrors(d, map[]);
    assert ErrorsThrough(d, 2) == ScheduleErrors(d, ErrorsThrough(d, 1));
    assert ErrorsThrough(d, 3) == TicketErrors(d, ErrorsThrough(d, 2));
    assert ErrorsThrough(d, 4) == ExtrasErrors(d, ErrorsThrough(d, 3));
    assert ErrorsThrough(d, 5) == SponsorshipErrors(d, ErrorsThrough(d, 4));
  }

  // ---------------------------------------------------------------------
  // The validator as the source runs it: a run of guarded assignments to a
  // local record of errors, with a loop over each list. It is split below
  // along the source's own sections.

  method ValidateEventForm(d: EventFormData) returns (errors: ErrorMap)
    requires Shaped(d)
    ensures errors == Errors(d)
  {
    errors := map[];
    errors := CheckDescription(d, errors);
    errors := CheckSchedule(d, errors);
    errors := CheckTicket(d, errors);
    errors := CheckExtras(d, errors);
    errors := CheckSponsorship(d, errors);
    errors := CheckFinal(d, errors);
    ErrorsInOrder(d);
  }

  method CheckDescription(d: EventFormData, e: ErrorMap) returns (errors: ErrorMap)
    ensures errors == DescriptionErrors(d, e)
  {
    errors := e;
    if Blank(d.eventName) { errors := errors["eventName" := "Event Name is required"]; }
    if Blank(d.category) { errors := errors["category" := "Category is required"]; }
    if Blank(d.tagline) { errors := errors["tagline" := "Tagline is required"]; }
    if Blank(d.description) { errors := errors["description" := "Description is required"]; }
    if Blank(d.personnel) { errors := errors["personnel" := "Personnel is required"]; }
  }

  method CheckSchedule(d: EventFormData, e: ErrorMap) returns (errors: ErrorMap)
    ensures errors == ScheduleErrors(d, e)
  {
    errors := e;
    if !Truthy(d.date) { errors := errors["date" := "Date is required"]; }
    if !Truthy(d.time) { errors := errors["time" := "Start time is required"]; }
    if !Truthy(d.endTime) { errors := errors["endTime" := "End time is required"]; }
    if Blank(d.venue) { errors := errors["venue" := "Venue is required"]; }
    if Blank(d.entrySide) { errors := errors["entrySide" := "Entry Side is required"]; }
  }

  method CheckTicket(d: EventFormData, e: ErrorMap) returns (errors: ErrorMap)
    requires NumberLike(d.ticketQuantity)
    ensures errors == TicketErrors(d, e)
  {
    errors := e;
    if NotOneOf(d.ticketType, "paid", "free") {
      errors := errors["ticketType" := "Ticket type is required"];
    }
    if d.ticketType == Str("paid") {
      errors := CheckPaid(d, errors);
    }
    if Blank(d.ticketName) { errors := errors["ticketName" := "Ticket name is required"]; }
    if BadQuantity(d.ticketQuantity) { errors := errors["ticketQuantity" := "Ticket quantity is required"]; }
  }

  method CheckPaid(d: EventFormData, e: ErrorMap) returns (errors: ErrorMap)
    ensures errors == PaidErrors(d, e)
  {
    errors := e;
    if !d.audienceCategory.Arr? || |d.audienceCategory.items| == 0 {
      errors := errors[AudienceKey(0, "category") := "At least one audience category is required"];
    } else {
      errors := CheckAudience(d.audienceCategory.items, errors);
    }
    if Blank(d.refundPolicy) { errors := errors["refundPolicy" := "Refund policy is required"]; }
  }

  /** `formData.audienceCategory.forEach(...)` */
  method CheckAudience(cats: seq<Value>, e: ErrorMap) returns (errors: ErrorMap)
    ensures errors == AudienceErrors(e, cats, |cats|)
  {
    errors := e;
    var idx := 0;
    while idx < |cats|
      invariant 0 <= idx <= |cats|
      invariant errors == AudienceErrors(e, cats, idx)
    {
      var cat := cats[idx];
      assert AudienceErrors(e, cats, idx + 1) == AudienceEntryErrors(errors, idx, cat);
      if Blank(Get(cat, "category")) { errors := errors[AudienceKey(idx, "category") := "Category is required"]; }
      if BadPrice(Get(cat, "price")) { errors := errors[AudienceKey(idx, "price") := "Price is required"]; }
      if Blank(Get(cat, "description")) {
        errors := errors[AudienceKey(idx, "description") := "Description is required"];
      }
      idx := idx + 1;
    }
  }

  method CheckExtras(d: EventFormData, e: ErrorMap) returns (errors: ErrorMap)
    requires Truthy(d.enableOffers) ==> NumberLike(d.discountAmount)
    ensures errors == ExtrasErrors(d, e)
  {
    errors := e;
    if Truthy(d.enableOffers) {
      errors := CheckOffers(d, errors);
    }
    if Blank(d.guidelines) { errors := errors["guidelines" := "Guidelines are required"]; }
    if Truthy(Get(d.addOns, "giftHampers")) && Blank(Get(d.addOns, "giftHampersDescription")) {
      errors := errors["addOns.giftHampersDescription" := "Gift hampers description is required"];
    }
  }

  method CheckOffers(d: EventFormData, e: ErrorMap) returns (errors: ErrorMap)
    requires NumberLike(d.discountAmount)
    ensures errors == OfferErrors(d, e)
  {
    errors := e;
    if NotOneOf(d.discountType, "flat", "percentage") {
      errors := errors["discountType" := "Discount type is required"];
    }
    if BadAmount(d.discountAmount) { errors := errors["discountAmount" := "Discount amount is required"]; }
    if Blank(d.discountCode) { errors := errors["discountCode" := "Discount code is required"]; }
  }

  method CheckSponsorship(d: EventFormData, e: ErrorMap) returns (errors: ErrorMap)
    ensures errors == SponsorshipErrors(d, e)
  {
    errors := e;
    if !Truthy(d.contactInfo) || Blank(Get(d.contactInfo, "mobile")) {
      errors := errors["contactInfo.mobile" := "Mobile number is required"];
    }
    if !Truthy(d.contactInfo) || Blank(Get(d.contactInfo, "email")) {
      errors := errors["contactInfo.email" := "Email is required"];
    }
  }

  method CheckFinal(d: EventFormData, e: ErrorMap) returns (errors: ErrorMap)
    requires PricesConvertible(StallList(d))
    ensures errors == FinalErrors(d, e)
  {
    errors := e;
    if !Truthy(d.requirements) || Blank(Get(d.requirements, "artists")) {
      errors := errors["requirements.artists" := "Artists/Singers field is required"];
    }
    if !Truthy(d.requirements) || Blank(Get(d.requirements, "stallsAvailability")) {
      errors := errors["requirements.stallsAvailability" := "Stalls availability is required"];
    }
    if Truthy(d.requirements) && Get(d.requirements, "stallsPrices").Arr? {
      errors := CheckStalls(Get(d.requirements, "stallsPrices").items, errors);
    }
    if !Truthy(d.postEventFollowUp) || Blank(Get(d.postEventFollowUp, "thankYouNote")) {
      errors := errors["postEventFollowUp.thankYouNote" := "Thank you note is required"];
    }
  }

  /** `formData.requirements.stallsPrices.forEach(...)` */
  method CheckStalls(stalls: seq<Value>, e: ErrorMap) returns (errors: ErrorMap)
    requires PricesConvertible(stalls)
    ensures errors == StallErrors(e, stalls, |stalls|)
  {
    errors := e;
    var idx := 0;
    while idx < |stalls|
      invariant 0 <= idx <= |stalls|
      invariant errors == StallErrors(e, stalls, idx)
    {
      var stall := stalls[idx];
      assert StallErrors(e, stalls, idx + 1) == StallEntryErrors(errors, idx, stall);
      if Blank(Get(stall, "stallType")) { errors := errors[StallKey(idx, "stallType") := "Stall type is required"]; }
      if BadAmount(Get(stall, "stallPrice")) {
        errors := errors[StallKey(idx, "stallPrice") := "Stall price is required"];
      }
      idx := idx + 1;
    }
  }
}
