/** What the draft validator promises: each error key is present exactly when
    its rule is broken, the result is empty exactly when every active rule
    holds, and no sponsor key is ever produced. */
module ValidationFacts {
  import opened Text
  import opened Values
  import opened Validation

  // ---------------------------------------------------------------------
  // The rule table, stated key by key: `XFlags(d, k)` holds when section X
  // reports key `k` for draft `d`.

  predicate DescriptionFlags(d: EventFormData, k: string) {
    (k == "eventName" && Blank(d.eventName))
    || (k == "category" && Blank(d.category))
    || (k == "tagline" && Blank(d.tagline))
    || (k == "description" && Blank(d.description))
    || (k == "personnel" && Blank(d.personnel))
  }

  predicate ScheduleFlags(d: EventFormData, k: string) {
    (k == "date" && !Truthy(d.date))
    || (k == "time" && !Truthy(d.time))
    || (k == "endTime" && !Truthy(d.endTime))
    || (k == "venue" && Blank(d.venue))
    || (k == "entrySide" && Blank(d.entrySide))
  }

  predicate AudienceEntryFlags(i: nat, cat: Value, k: string) {
    (k == AudienceKey(i, "category") && Blank(Get(cat, "category")))
    || (k == AudienceKey(i, "price") && BadPrice(Get(cat, "price")))
    || (k == AudienceKey(i, "description") && Blank(Get(cat, "description")))
  }

  /** Some of the first `n` audience categories reports `k`. */
  predicate AudienceListFlags(cats: seq<Value>, n: nat, k: string)
    requires n <= |cats|
  {
    n > 0 && (AudienceListFlags(cats, n - 1, k) || AudienceEntryFlags(n - 1, cats[n - 1], k))
  }

  predicate PaidFlags(d: EventFormData, k: string) {
    (if HasEntries(d.audienceCategory)
     then AudienceListFlags(d.audienceCategory.items, |d.audienceCategory.items|, k)
     else k == AudienceKey(0, "category"))
    || (k == "refundPolicy" && Blank(d.refundPolicy))
  }

  predicate TicketFlags(d: EventFormData, k: string)
    requires NumberLike(d.ticketQuantity)
  {
    (k == "ticketType" && NotOneOf(d.ticketType, "paid", "free"))
    || (d.ticketType == Str("paid") && PaidFlags(d, k))
    || (k == "ticketName" && Blank(d.ticketName))
    || (k == "ticketQuantity" && BadQuantity(d.ticketQuantity))
  }

  predicate OfferFlags(d: EventFormData, k: string)
    requires NumberLike(d.discountAmount)
  {
    (k == "discountType" && NotOneOf(d.discountType, "flat", "percentage"))
    || (k == "discountAmount" && BadAmount(d.discountAmount))
    || (k == "discountCode" && Blank(d.discountCode))
  }

  predicate ExtrasFlags(d: EventFormData, k: string)
    requires Truthy(d.enableOffers) ==> NumberLike(d.discountAmount)
  {
    (Truthy(d.enableOffers) && OfferFlags(d, k))
    || (k == "guidelines" && Blank(d.guidelines))
    || (k == "addOns.giftHampersDescription"
        && Truthy(Get(d.addOns, "giftHampers")) && Blank(Get(d.addOns, "giftHampersDescription")))
  }

  predicate SponsorshipFlags(d: EventFormData, k: string) {
    (k == "contactInfo.mobile" && (!Truthy(d.contactInfo) || Blank(Get(d.contactInfo, "mobile"))))
    || (k == "contactInfo.email" && (!Truthy(d.contactInfo) || Blank(Get(d.contactInfo, "email"))))
  }

  predicate StallEntryFlags(i: nat, stall: Value, k: string)
    requires NumberLike(Get(stall, "stallPrice"))
  {
    (k == StallKey(i, "stallType") && Blank(Get(stall, "stallType")))
    || (k == StallKey(i, "stallPrice") && BadAmount(Get(stall, "stallPrice")))
  }

  /** Some of the first `n` stall prices reports `k`. */
  predicate StallListFlags(stalls: seq<Value>, n: nat, k: string)
    requires n <= |stalls| && PricesConvertible(stalls)
  {
    n > 0 && (StallListFlags(stalls, n - 1, k) || StallEntryFlags(n - 1, stalls[n - 1], k))
  }

  predicate FinalFlags(d: EventFormData, k: string)
    requires PricesConvertible(StallList(d))
  {
    (k == "requirements.artists" && (!Truthy(d.requirements) || Blank(Get(d.requirements, "artists"))))
    || (k == "requirements.stallsAvailability"
        && (!Truthy(d.requirements) || Blank(Get(d.requirements, "stallsAvailability"))))
    || StallListFlags(StallList(d), |StallList(d)|, k)
    || (k == "postEventFollowUp.thankYouNote"
        && (!Truthy(d.postEventFollowUp) || Blank(Get(d.postEventFollowUp, "thankYouNote"))))
  }

  /** The keys some rule reports for `d`. */
  predicate Flagged(d: EventFormData, k: string)
    requires Convertible(d)
  {
    DescriptionFlags(d, k) || ScheduleFlags(d, k) || TicketFlags(d, k)
    || ExtrasFlags(d, k) || SponsorshipFlags(d, k) || FinalFlags(d, k)
  }

  // ---------------------------------------------------------------------
  // Each section adds exactly its own flagged keys to the record it is given.

  /** One guarded assignment adds its key exactly when its guard holds. */
  lemma GuardedKey(m: ErrorMap, c: bool, k1: string, v: string, k: string)
    ensures k in (if c then m[k1 := v] else m) <==> k in m || (c && k == k1)
  {
  }

  lemma DescriptionKeys(d: EventFormData, e: ErrorMap, k: string)
    ensures k in DescriptionErrors(d, e) <==> k in e || DescriptionFlags(d, k)
  {
  }

  lemma ScheduleKeys(d: EventFormData, e: ErrorMap, k: string)
    ensures k in ScheduleErrors(d, e) <==> k in e || ScheduleFlags(d, k)
  {
  }

  lemma AudienceEntryKeys(e: ErrorMap, i: nat, cat: Value, k: string)
    ensures k in AudienceEntryErrors(e, i, cat) <==> k in e || AudienceEntryFlags(i, cat, k)
  {
  }

  lemma {:induction false} AudienceKeys(e: ErrorMap, cats: seq<Value>, n: nat, k: string)
    requires n <= |cats|
    ensures k in AudienceErrors(e, cats, n) <==> k in e || AudienceListFlags(cats, n, k)
  {
    if n > 0 {
      AudienceKeys(e, cats, n - 1, k);
      AudienceEntryKeys(AudienceErrors(e, cats, n - 1), n - 1, cats[n - 1], k);
    }
  }

  lemma PaidKeys(d: EventFormData, e: ErrorMap, k: string)
    ensures k in PaidErrors(d, e) <==> k in e || PaidFlags(d, k)
  {
    var e1 :=
      if !HasEntries(d.audienceCategory)
      then e[AudienceKey(0, "category") := "At least one audience category is required"]
      else AudienceErrors(e, d.audienceCategory.items, |d.audienceCategory.items|);
    if HasEntries(d.audienceCategory) {
      AudienceKeys(e, d.audienceCategory.items, |d.audienceCategory.items|, k);
    }
  }

  lemma TicketTypeKeys(d: EventFormData, e: ErrorMap, k: string)
    ensures k in TicketTypeErrors(d, e)
      <==> (k in e || (NotOneOf(d.ticketType, "paid", "free") && k == "ticketType")
            || (d.ticketType == Str("paid") && PaidFlags(d, k)))
  {
    var e1 := if NotOneOf(d.ticketType, "paid", "free") then e["ticketType" := "Ticket type is required"] else e;
    GuardedKey(e, NotOneOf(d.ticketType, "paid", "free"), "ticketType", "Ticket type is required", k);
    PaidKeys(d, e1, k);
  }

  lemma TicketSteps(d: EventFormData, e: ErrorMap, k: string)
    requires NumberLike(d.ticketQuantity)
    ensures k in TicketErrors(d, e)
      <==> (k in TicketTypeErrors(d, e)
            || (Blank(d.ticketName) && k == "ticketName")
            || (BadQuantity(d.ticketQuantity) && k == "ticketQuantity"))
  {
  }

  lemma TicketKeys(d: EventFormData, e: ErrorMap, k: string)
    requires NumberLike(d.ticketQuantity)
    ensures k in TicketErrors(d, e) <==> k in e || TicketFlags(d, k)
  {
    TicketTypeKeys(d, e, k);
    TicketSteps(d, e, k);
  }

  lemma OfferKeys(d: EventFormData, e: ErrorMap, k: string)
    requires NumberLike(d.discountAmount)
    ensures k in OfferErrors(d, e) <==> k in e || OfferFlags(d, k)
  {
  }

  lemma ExtrasKeys(d: EventFormData, e: ErrorMap, k: string)
    requires Truthy(d.enableOffers) ==> NumberLike(d.discountAmount)
    ensures k in ExtrasErrors(d, e) <==> k in e || ExtrasFlags(d, k)
  {
    if Truthy(d.enableOffers) {
      OfferKeys(d, e, k);
    }
    assert k in EnabledOfferErrors(d, e) <==> k in e || (Truthy(d.enableOffers) && OfferFlags(d, k));
  }

  lemma SponsorshipKeys(d: EventFormData, e: ErrorMap, k: string)
    ensures k in SponsorshipErrors(d, e) <==> k in e || SponsorshipFlags(d, k)
  {
  }

  lemma StallEntryKeys(e: ErrorMap, i: nat, stall: Value, k: string)
    requires NumberLike(Get(stall, "stallPrice"))
    ensures k in StallEntryErrors(e, i, stall) <==> k in e || StallEntryFlags(i, stall, k)
  {
  }

  lemma {:induction false} StallKeys(e: ErrorMap, stalls: seq<Value>, n: nat, k: string)
    requires n <= |stalls| && PricesConvertible(stalls)
    ensures k in StallErrors(e, stalls, n) <==> k in e || StallListFlags(stalls, n, k)
  {
    if n > 0 {
      StallKeys(e, stalls, n - 1, k);
      StallEntryKeys(StallErrors(e, stalls, n - 1), n - 1, stalls[n - 1], k);
    }
  }

  lemma RequirementsKeys(d: EventFormData, e: ErrorMap, k: string)
    ensures k in RequirementsErrors(d, e)
      <==> (k in e
            || (k == "requirements.artists" && (!Truthy(d.requirements) || Blank(Get(d.requirements, "artists"))))
            || (k == "requirements.stallsAvailability"
                && (!Truthy(d.requirements) || Blank(Get(d.requirements, "stallsAvailability")))))
  {
  }

  lemma FinalKeys(d: EventFormData, e: ErrorMap, k: string)
    requires PricesConvertible(StallList(d))
    ensures k in FinalErrors(d, e) <==> k in e || FinalFlags(d, k)
  {
    RequirementsKeys(d, e, k);
    StallKeys(RequirementsErrors(d, e), StallList(d), |StallList(d)|, k);
  }

  /** The keys of `validateEventForm(d)` are exactly the flagged keys. */
  lemma ErrorKeys(d: EventFormData, k: string)
    requires Convertible(d)
    ensures k in Errors(d) <==> Flagged(d, k)
  {
    ErrorsInOrder(d);
    var e1 := DescriptionErrors(d, map[]);
    DescriptionKeys(d, map[], k);
    var e2 := ScheduleErrors(d, e1);
    ScheduleKeys(d, e1, k);
    var e3 := TicketErrors(d, e2);
    TicketKeys(d, e2, k);
    var e4 := ExtrasErrors(d, e3);
    ExtrasKeys(d, e3, k);
    var e5 := SponsorshipErrors(d, e4);
    SponsorshipKeys(d, e4, k);
    FinalKeys(d, e5, k);
  }

  // ---------------------------------------------------------------------
  // The shape of the keys: the fixed top-level keys, and the per-index keys
  // under the two list prefixes, which never collide.

  const DescriptionKeySet: set<string> := {"eventName", "category", "tagline", "description", "personnel"}
  const ScheduleKeySet: set<string> := {"date", "time", "endTime", "venue", "entrySide"}
  const TicketKeySet: set<string> := {"ticketType", "refundPolicy", "ticketName", "ticketQuantity"}
  const ExtrasKeySet: set<string> :=
    {"discountType", "discountAmount", "discountCode", "guidelines", "addOns.giftHampersDescription"}
  const SponsorshipKeySet: set<string> := {"contactInfo.mobile", "contactInfo.email"}
  const FinalKeySet: set<string> :=
    {"requirements.artists", "requirements.stallsAvailability", "postEventFollowUp.thankYouNote"}

  /** The keys that are not per-index list keys. */
  const TopLevelKeys: set<string> := {
    "eventName", "category", "tagline", "description", "personnel",
    "date", "time", "endTime", "venue", "entrySide",
    "ticketType", "refundPolicy", "ticketName", "ticketQuantity",
    "discountType", "discountAmount", "discountCode", "guidelines", "addOns.giftHampersDescription",
    "contactInfo.mobile", "contactInfo.email",
    "requirements.artists", "requirements.stallsAvailability", "postEventFollowUp.thankYouNote"
  }

  lemma StartsWithAt(k: string, p: string, i: nat)
    requires StartsWith(k, p) && i < |p|
    ensures k[i] == p[i]
  {
    assert k[..|p|][i] == k[i];
  }

  /** No fixed key lies under either list prefix. */
  lemma TopLevelNotListed(k: string)
    requires k in TopLevelKeys
    ensures !StartsWith(k, AudiencePrefix) && !StartsWith(k, StallsPrefix)
  {
    if StartsWith(k, AudiencePrefix) {
      StartsWithAt(k, AudiencePrefix, 0);
      StartsWithAt(k, AudiencePrefix, 1);
    }
    if StartsWith(k, StallsPrefix) {
      StartsWithAt(k, StallsPrefix, 0);
      StartsWithAt(k, StallsPrefix, 19);
    }
  }

  /** No key lies under both list prefixes. */
  lemma PrefixesDisjoint(k: string)
    ensures !(StartsWith(k, AudiencePrefix) && StartsWith(k, StallsPrefix))
  {
    if StartsWith(k, AudiencePrefix) && StartsWith(k, StallsPrefix) {
      StartsWithAt(k, AudiencePrefix, 0);
      StartsWithAt(k, StallsPrefix, 0);
    }
  }

  lemma AudienceKeyPrefix(i: nat, f: string)
    ensures StartsWith(AudienceKey(i, f), AudiencePrefix)
  {
    assert AudienceKey(i, f) == AudiencePrefix + (NatToString(i) + "." + f);
  }

  lemma StallKeyPrefix(i: nat, f: string)
    ensures StartsWith(StallKey(i, f), StallsPrefix)
  {
    assert StallKey(i, f) == StallsPrefix + (NatToString(i) + "." + f);
  }

  /** `prefix + digits + "." + field` determines the digits and the field. */
  lemma IndexedKeyInjective(p: string, i: nat, f: string, j: nat, g: string)
    requires p + NatToString(i) + "." + f == p + NatToString(j) + "." + g
    ensures i == j && f == g
  {
    var a, b := NatToString(i), NatToString(j);
    var x, y := "." + f, "." + g;
    assert p + a + "." + f == p + (a + x);
    assert p + b + "." + g == p + (b + y);
    assert a + x == (p + (a + x))[|p|..];
    assert b + y == (p + (b + y))[|p|..];
    DigitsThenSeparator(a, x, b, y);
    NatToStringInjective(i, j);
    assert f == x[1..] && g == y[1..];
  }

  lemma AudienceKeyInjective(i: nat, f: string, j: nat, g: string)
    requires AudienceKey(i, f) == AudienceKey(j, g)
    ensures i == j && f == g
  {
    IndexedKeyInjective(AudiencePrefix, i, f, j, g);
  }

  lemma StallKeyInjective(i: nat, f: string, j: nat, g: string)
    requires StallKey(i, f) == StallKey(j, g)
    ensures i == j && f == g
  {
    IndexedKeyInjective(StallsPrefix, i, f, j, g);
  }

  lemma {:induction false} AudienceListPrefix(cats: seq<Value>, n: nat, k: string)
    requires n <= |cats| && AudienceListFlags(cats, n, k)
    ensures StartsWith(k, AudiencePrefix)
  {
    if AudienceListFlags(cats, n - 1, k) {
      AudienceListPrefix(cats, n - 1, k);
    } else {
      AudienceKeyPrefix(n - 1, "category");
      AudienceKeyPrefix(n - 1, "price");
      AudienceKeyPrefix(n - 1, "description");
    }
  }

  lemma {:induction false} StallListPrefix(stalls: seq<Value>, n: nat, k: string)
    requires n <= |stalls| && PricesConvertible(stalls) && StallListFlags(stalls, n, k)
    ensures StartsWith(k, StallsPrefix)
  {
    if StallListFlags(stalls, n - 1, k) {
      StallListPrefix(stalls, n - 1, k);
    } else {
      StallKeyPrefix(n - 1, "stallType");
      StallKeyPrefix(n - 1, "stallPrice");
    }
  }

  // ---------------------------------------------------------------------
  // Which section can report which key.

  lemma TicketOwns(d: EventFormData, k: string)
    requires NumberLike(d.ticketQuantity) && TicketFlags(d, k)
    ensures k in TicketKeySet || StartsWith(k, AudiencePrefix)
  {
    var cats := d.audienceCategory;
    if HasEntries(cats) && AudienceListFlags(cats.items, |cats.items|, k) {
      AudienceListPrefix(cats.items, |cats.items|, k);
    }
    AudienceKeyPrefix(0, "category");
  }

  lemma FinalOwns(d: EventFormData, k: string)
    requires PricesConvertible(StallList(d)) && FinalFlags(d, k)
    ensures k in FinalKeySet || StartsWith(k, StallsPrefix)
  {
    if StallListFlags(StallList(d), |StallList(d)|, k) {
      StallListPrefix(StallList(d), |StallList(d)|, k);
    }
  }

  /** Every reported key is a fixed key or lies under one of the list prefixes. */
  lemma FlaggedShape(d: EventFormData, k: string)
    requires Convertible(d) && Flagged(d, k)
    ensures k in TopLevelKeys || StartsWith(k, AudiencePrefix) || StartsWith(k, StallsPrefix)
  {
    if TicketFlags(d, k) {
      TicketOwns(d, k);
    }
    if FinalFlags(d, k) {
      FinalOwns(d, k);
    }
  }

  // A section leaves alone every key it cannot report.

  lemma DescriptionPreserves(d: EventFormData, e: ErrorMap, k: string)
    requires k !in DescriptionKeySet
    ensures k in DescriptionErrors(d, e) <==> k in e
  {
    DescriptionKeys(d, e, k);
  }

  lemma SchedulePreserves(d: EventFormData, e: ErrorMap, k: string)
    requires k !in ScheduleKeySet
    ensures k in ScheduleErrors(d, e) <==> k in e
  {
    ScheduleKeys(d, e, k);
  }

  lemma TicketPreserves(d: EventFormData, e: ErrorMap, k: string)
    requires NumberLike(d.ticketQuantity)
    requires k !in TicketKeySet && !StartsWith(k, AudiencePrefix)
    ensures k in TicketErrors(d, e) <==> k in e
  {
    TicketKeys(d, e, k);
    if TicketFlags(d, k) {
      TicketOwns(d, k);
    }
  }

  lemma ExtrasPreserves(d: EventFormData, e: ErrorMap, k: string)
    requires Truthy(d.enableOffers) ==> NumberLike(d.discountAmount)
    requires k !in ExtrasKeySet
    ensures k in ExtrasErrors(d, e) <==> k in e
  {
    ExtrasKeys(d, e, k);
  }

  lemma SponsorshipPreserves(d: EventFormData, e: ErrorMap, k: string)
    requires k !in SponsorshipKeySet
    ensures k in SponsorshipErrors(d, e) <==> k in e
  {
    SponsorshipKeys(d, e, k);
  }

  lemma FinalPreserves(d: EventFormData, e: ErrorMap, k: string)
    requires PricesConvertible(StallList(d))
    requires k !in FinalKeySet && !StartsWith(k, StallsPrefix)
    ensures k in FinalErrors(d, e) <==> k in e
  {
    FinalKeys(d, e, k);
    if FinalFlags(d, k) {
      FinalOwns(d, k);
    }
  }

  // Each fixed key, and each list key, is present exactly when the one
  // section that can report it does.

  lemma OwnedByDescription(d: EventFormData, k: string)
    requires Convertible(d)
    requires k !in ScheduleKeySet && k !in TicketKeySet && k !in ExtrasKeySet
    requires k !in SponsorshipKeySet && k !in FinalKeySet
    requires !StartsWith(k, AudiencePrefix) && !StartsWith(k, StallsPrefix)
    ensures k in Errors(d) <==> DescriptionFlags(d, k)
  {
    ErrorsInOrder(d);
    var e1 := DescriptionErrors(d, map[]);
    DescriptionKeys(d, map[], k);
    var e2 := ScheduleErrors(d, e1);
    SchedulePreserves(d, e1, k);
    var e3 := TicketErrors(d, e2);
    TicketPreserves(d, e2, k);
    var e4 := ExtrasErrors(d, e3);
    ExtrasPreserves(d, e3, k);
    var e5 := SponsorshipErrors(d, e4);
    SponsorshipPreserves(d, e4, k);
    FinalPreserves(d, e5, k);
  }

  lemma OwnedBySchedule(d: EventFormData, k: string)
    requires Convertible(d)
    requires k !in DescriptionKeySet && k !in TicketKeySet && k !in ExtrasKeySet
    requires k !in SponsorshipKeySet && k !in FinalKeySet
    requires !StartsWith(k, AudiencePrefix) && !StartsWith(k, StallsPrefix)
    ensures k in Errors(d) <==> ScheduleFlags(d, k)
  {
    ErrorsInOrder(d);
    var e1 := DescriptionErrors(d, map[]);
    DescriptionPreserves(d, map[], k);
    var e2 := ScheduleErrors(d, e1);
    ScheduleKeys(d, e1, k);
    var e3 := TicketErrors(d, e2);
    TicketPreserves(d, e2, k);
    var e4 := ExtrasErrors(d, e3);
    ExtrasPreserves(d, e3, k);
    var e5 := SponsorshipErrors(d, e4);
    SponsorshipPreserves(d, e4, k);
    FinalPreserves(d, e5, k);
  }

  lemma OwnedByTicket(d: EventFormData, k: string)
    requires Convertible(d)
    requires k !in DescriptionKeySet && k !in ScheduleKeySet && k !in ExtrasKeySet
    requires k !in SponsorshipKeySet && k !in FinalKeySet
    requires !StartsWith(k, StallsPrefix)
    ensures k in Errors(d) <==> TicketFlags(d, k)
  {
    ErrorsInOrder(d);
    var e1 := DescriptionErrors(d, map[]);
    DescriptionPreserves(d, map[], k);
    var e2 := ScheduleErrors(d, e1);
    SchedulePreserves(d, e1, k);
    var e3 := TicketErrors(d, e2);
    TicketKeys(d, e2, k);
    var e4 := ExtrasErrors(d, e3);
    ExtrasPreserves(d, e3, k);
    var e5 := SponsorshipErrors(d, e4);
    SponsorshipPreserves(d, e4, k);
    FinalPreserves(d, e5, k);
  }

  lemma OwnedByExtras(d: EventFormData, k: string)
    requires Convertible(d)
    requires k !in DescriptionKeySet && k !in ScheduleKeySet && k !in TicketKeySet
    requires k !in SponsorshipKeySet && k !in FinalKeySet
    requires !StartsWith(k, AudiencePrefix) && !StartsWith(k, StallsPrefix)
    ensures k in Errors(d) <==> ExtrasFlags(d, k)
  {
    ErrorsInOrder(d);
    var e1 := DescriptionErrors(d, map[]);
    DescriptionPreserves(d, map[], k);
    var e2 := ScheduleErrors(d, e1);
    SchedulePreserves(d, e1, k);
    var e3 := TicketErrors(d, e2);
    TicketPreserves(d, e2, k);
    var e4 := ExtrasErrors(d, e3);
    ExtrasKeys(d, e3, k);
    var e5 := SponsorshipErrors(d, e4);
    SponsorshipPreserves(d, e4, k);
    FinalPreserves(d, e5, k);
  }

  lemma OwnedBySponsorship(d: EventFormData, k: string)
    requires Convertible(d)
    requires k !in DescriptionKeySet && k !in ScheduleKeySet && k !in TicketKeySet
    requires k !in ExtrasKeySet && k !in FinalKeySet
    requires !StartsWith(k, AudiencePrefix) && !StartsWith(k, StallsPrefix)
    ensures k in Errors(d) <==> SponsorshipFlags(d, k)
  {
    ErrorsInOrder(d);
    var e1 := DescriptionErrors(d, map[]);
    DescriptionPreserves(d, map[], k);
    var e2 := ScheduleErrors(d, e1);
    SchedulePreserves(d, e1, k);
    var e3 := TicketErrors(d, e2);
    TicketPreserves(d, e2, k);
    var e4 := ExtrasErrors(d, e3);
    ExtrasPreserves(d, e3, k);
    var e5 := SponsorshipErrors(d, e4);
    SponsorshipKeys(d, e4, k);
    FinalPreserves(d, e5, k);
  }

  lemma OwnedByFinal(d: EventFormData, k: string)
    requires Convertible(d)
    requires k !in DescriptionKeySet && k !in ScheduleKeySet && k !in TicketKeySet
    requires k !in ExtrasKeySet && k !in SponsorshipKeySet
    requires !StartsWith(k, AudiencePrefix)
    ensures k in Errors(d) <==> FinalFlags(d, k)
  {
    ErrorsInOrder(d);
    var e1 := DescriptionErrors(d, map[]);
    DescriptionPreserves(d, map[], k);
    var e2 := ScheduleErrors(d, e1);
    SchedulePreserves(d, e1, k);
    var e3 := TicketErrors(d, e2);
    TicketPreserves(d, e2, k);
    var e4 := ExtrasErrors(d, e3);
    ExtrasPreserves(d, e3, k);
    var e5 := SponsorshipErrors(d, e4);
    SponsorshipPreserves(d, e4, k);
    FinalKeys(d, e5, k);
  }

  // The key sets are pairwise disjoint and lie outside the list prefixes.

  lemma DescriptionKeyApart(k: string)
    requires k in DescriptionKeySet
    ensures k !in ScheduleKeySet && k !in TicketKeySet && k !in ExtrasKeySet
    ensures k !in SponsorshipKeySet && k !in FinalKeySet
    ensures !StartsWith(k, AudiencePrefix) && !StartsWith(k, StallsPrefix)
  {
    TopLevelNotListed(k);
  }

  lemma ScheduleKeyApart(k: string)
    requires k in ScheduleKeySet
    ensures k !in DescriptionKeySet && k !in TicketKeySet && k !in ExtrasKeySet
    ensures k !in SponsorshipKeySet && k !in FinalKeySet
    ensures !StartsWith(k, AudiencePrefix) && !StartsWith(k, StallsPrefix)
  {
    TopLevelNotListed(k);
  }

  lemma TicketKeyApart(k: string)
    requires k in TicketKeySet
    ensures k !in DescriptionKeySet && k !in ScheduleKeySet && k !in ExtrasKeySet
    ensures k !in SponsorshipKeySet && k !in FinalKeySet
    ensures !StartsWith(k, AudiencePrefix) && !StartsWith(k, StallsPrefix)
  {
    TopLevelNotListed(k);
  }

  lemma ExtrasKeyApart(k: string)
    requires k in ExtrasKeySet
    ensures k !in DescriptionKeySet && k !in ScheduleKeySet && k !in TicketKeySet
    ensures k !in SponsorshipKeySet && k !in FinalKeySet
    ensures !StartsWith(k, AudiencePrefix) && !StartsWith(k, StallsPrefix)
  {
    TopLevelNotListed(k);
  }

  lemma SponsorshipKeyApart(k: string)
    requires k in SponsorshipKeySet
    ensures k !in DescriptionKeySet && k !in ScheduleKeySet && k !in TicketKeySet
    ensures k !in ExtrasKeySet && k !in FinalKeySet
    ensures !StartsWith(k, AudiencePrefix) && !StartsWith(k, StallsPrefix)
  {
    TopLevelNotListed(k);
  }

  lemma FinalKeyApart(k: string)
    requires k in FinalKeySet
    ensures k !in DescriptionKeySet && k !in ScheduleKeySet && k !in TicketKeySet
    ensures k !in ExtrasKeySet && k !in SponsorshipKeySet
    ensures !StartsWith(k, AudiencePrefix) && !StartsWith(k, StallsPrefix)
  {
    TopLevelNotListed(k);
  }

  /** A key under a list prefix is none of the fixed keys. */
  lemma ListedKeyApart(k: string)
    requires StartsWith(k, AudiencePrefix) || StartsWith(k, StallsPrefix)
    ensures k !in DescriptionKeySet && k !in ScheduleKeySet && k !in TicketKeySet
    ensures k !in ExtrasKeySet && k !in SponsorshipKeySet && k !in FinalKeySet
    ensures StartsWith(k, AudiencePrefix) ==> !StartsWith(k, StallsPrefix)
  {
    if k in TopLevelKeys {
      TopLevelNotListed(k);
    }
    PrefixesDisjoint(k);
  }

  // ---------------------------------------------------------------------
  // The rules, key by key.

  lemma DescriptionFixedKey(d: EventFormData, k: string)
    requires Convertible(d) && k in DescriptionKeySet
    ensures k in Errors(d) <==> DescriptionFlags(d, k)
  {
    DescriptionKeyApart(k);
    OwnedByDescription(d, k);
  }

  lemma ScheduleFixedKey(d: EventFormData, k: string)
    requires Convertible(d) && k in ScheduleKeySet
    ensures k in Errors(d) <==> ScheduleFlags(d, k)
  {
    ScheduleKeyApart(k);
    OwnedBySchedule(d, k);
  }

  lemma ExtrasFixedKey(d: EventFormData, k: string)
    requires Convertible(d) && k in ExtrasKeySet
    ensures k in Errors(d) <==> ExtrasFlags(d, k)
  {
    ExtrasKeyApart(k);
    OwnedByExtras(d, k);
  }

  lemma SponsorshipFixedKey(d: EventFormData, k: string)
    requires Convertible(d) && k in SponsorshipKeySet
    ensures k in Errors(d) <==> SponsorshipFlags(d, k)
  {
    SponsorshipKeyApart(k);
    OwnedBySponsorship(d, k);
  }

  /** The event-details fields must be present and not white space only. */
  lemma DescriptionRules(d: EventFormData)
    requires Convertible(d)
    ensures "eventName" in Errors(d) <==> Blank(d.eventName)
    ensures "category" in Errors(d) <==> Blank(d.category)
    ensures "tagline" in Errors(d) <==> Blank(d.tagline)
    ensures "description" in Errors(d) <==> Blank(d.description)
    ensures "personnel" in Errors(d) <==> Blank(d.personnel)
  {
    DescriptionFixedKey(d, "eventName");
    DescriptionFixedKey(d, "category");
    DescriptionFixedKey(d, "tagline");
    DescriptionFixedKey(d, "description");
    DescriptionFixedKey(d, "personnel");
  }

  /** The date and the two times are only checked for being empty; the
      venue and entry side must not be white space only either. */
  lemma ScheduleRules(d: EventFormData)
    requires Convertible(d)
    ensures "date" in Errors(d) <==> !Truthy(d.date)
    ensures "time" in Errors(d) <==> !Truthy(d.time)
    ensures "endTime" in Errors(d) <==> !Truthy(d.endTime)
    ensures "venue" in Errors(d) <==> Blank(d.venue)
    ensures "entrySide" in Errors(d) <==> Blank(d.entrySide)
  {
    ScheduleFixedKey(d, "date");
    ScheduleFixedKey(d, "time");
    ScheduleFixedKey(d, "endTime");
    ScheduleFixedKey(d, "venue");
    ScheduleFixedKey(d, "entrySide");
  }

  /** Outside the audience prefix, the paid-ticket checks report only the
      refund policy. */
  lemma PaidFixedKey(d: EventFormData, k: string)
    requires !StartsWith(k, AudiencePrefix)
    ensures PaidFlags(d, k) <==> k == "refundPolicy" && Blank(d.refundPolicy)
  {
    var cats := d.audienceCategory;
    if HasEntries(cats) && AudienceListFlags(cats.items, |cats.items|, k) {
      AudienceListPrefix(cats.items, |cats.items|, k);
    }
    AudienceKeyPrefix(0, "category");
  }

  lemma TicketFixedKey(d: EventFormData, k: string)
    requires Convertible(d) && k in TicketKeySet
    ensures k in Errors(d) <==> TicketFlags(d, k)
    ensures PaidFlags(d, k) <==> k == "refundPolicy" && Blank(d.refundPolicy)
  {
    TicketKeyApart(k);
    OwnedByTicket(d, k);
    PaidFixedKey(d, k);
  }

  /** The ticket type must be "paid" or "free"; the refund policy is
      required for paid tickets only; the ticket name and a quantity of at
      least one are required whatever the type. */
  lemma TicketRules(d: EventFormData)
    requires Convertible(d)
    ensures "ticketType" in Errors(d) <==> d.ticketType != Str("paid") && d.ticketType != Str("free")
    ensures "refundPolicy" in Errors(d) <==> d.ticketType == Str("paid") && Blank(d.refundPolicy)
    ensures "ticketName" in Errors(d) <==> Blank(d.ticketName)
    ensures "ticketQuantity" in Errors(d) <==> BadQuantity(d.ticketQuantity)
  {
    TicketFixedKey(d, "ticketType");
    TicketFixedKey(d, "refundPolicy");
    TicketFixedKey(d, "ticketName");
    TicketFixedKey(d, "ticketQuantity");
  }

  /** With offers enabled, the discount type must be "flat" or
      "percentage", the amount neither falsy nor `NaN`, and the code
      present; with offers off none of them is checked. */
  lemma OfferRules(d: EventFormData)
    requires Convertible(d)
    ensures "discountType" in Errors(d)
      <==> Truthy(d.enableOffers) && d.discountType != Str("flat") && d.discountType != Str("percentage")
    ensures "discountAmount" in Errors(d) <==> Truthy(d.enableOffers) && BadAmount(d.discountAmount)
    ensures "discountCode" in Errors(d) <==> Truthy(d.enableOffers) && Blank(d.discountCode)
  {
    ExtrasFixedKey(d, "discountType");
    ExtrasFixedKey(d, "discountAmount");
    ExtrasFixedKey(d, "discountCode");
  }

  /** The guidelines are always required, and the gift-hamper description
      whenever gift hampers are chosen. */
  lemma ExtrasRules(d: EventFormData)
    requires Convertible(d)
    ensures "guidelines" in Errors(d) <==> Blank(d.guidelines)
    ensures "addOns.giftHampersDescription" in Errors(d)
      <==> Truthy(Get(d.addOns, "giftHampers")) && Blank(Get(d.addOns, "giftHampersDescription"))
  {
    ExtrasFixedKey(d, "guidelines");
    ExtrasFixedKey(d, "addOns.giftHampersDescription");
  }

  /** Both contact details are required, and both are reported when the
      contact record itself is missing. */
  lemma SponsorshipRules(d: EventFormData)
    requires Convertible(d)
    ensures "contactInfo.mobile" in Errors(d)
      <==> !Truthy(d.contactInfo) || Blank(Get(d.contactInfo, "mobile"))
    ensures "contactInfo.email" in Errors(d)
      <==> !Truthy(d.contactInfo) || Blank(Get(d.contactInfo, "email"))
  {
    SponsorshipFixedKey(d, "contactInfo.mobile");
    SponsorshipFixedKey(d, "contactInfo.email");
  }

  lemma FinalFixedKey(d: EventFormData, k: string)
    requires Convertible(d) && k in FinalKeySet
    ensures k in Errors(d) <==> FinalFlags(d, k)
    ensures !StallListFlags(StallList(d), |StallList(d)|, k)
  {
    FinalKeyApart(k);
    OwnedByFinal(d, k);
    if StallListFlags(StallList(d), |StallList(d)|, k) {
      StallListPrefix(StallList(d), |StallList(d)|, k);
    }
  }

  /** The artists, the stall availability and the thank-you note are
      required, and each is reported when its parent record is missing. */
  lemma FinalRules(d: EventFormData)
    requires Convertible(d)
    ensures "requirements.artists" in Errors(d)
      <==> !Truthy(d.requirements) || Blank(Get(d.requirements, "artists"))
    ensures "requirements.stallsAvailability" in Errors(d)
      <==> !Truthy(d.requirements) || Blank(Get(d.requirements, "stallsAvailability"))
    ensures "postEventFollowUp.thankYouNote" in Errors(d)
      <==> !Truthy(d.postEventFollowUp) || Blank(Get(d.postEventFollowUp, "thankYouNote"))
  {
    FinalFixedKey(d, "requirements.artists");
    FinalFixedKey(d, "requirements.stallsAvailability");
    FinalFixedKey(d, "postEventFollowUp.thankYouNote");
  }

  // ---------------------------------------------------------------------
  // The per-index rules of the two lists.

  lemma OtherAudienceEntry(j: nat, cat: Value, i: nat, f: string)
    requires j != i
    ensures !AudienceEntryFlags(j, cat, AudienceKey(i, f))
  {
    if AudienceKey(i, f) == AudienceKey(j, "category") {
      AudienceKeyInjective(i, f, j, "category");
    }
    if AudienceKey(i, f) == AudienceKey(j, "price") {
      AudienceKeyInjective(i, f, j, "price");
    }
    if AudienceKey(i, f) == AudienceKey(j, "description") {
      AudienceKeyInjective(i, f, j, "description");
    }
  }

  lemma AudienceEntryAt(i: nat, cat: Value)
    ensures AudienceEntryFlags(i, cat, AudienceKey(i, "category")) <==> Blank(Get(cat, "category"))
    ensures AudienceEntryFlags(i, cat, AudienceKey(i, "price")) <==> BadPrice(Get(cat, "price"))
    ensures AudienceEntryFlags(i, cat, AudienceKey(i, "description")) <==> Blank(Get(cat, "description"))
  {
    if AudienceKey(i, "category") == AudienceKey(i, "price") {
      AudienceKeyInjective(i, "category", i, "price");
    }
    if AudienceKey(i, "category") == AudienceKey(i, "description") {
      AudienceKeyInjective(i, "category", i, "description");
    }
    if AudienceKey(i, "price") == AudienceKey(i, "description") {
      AudienceKeyInjective(i, "price", i, "description");
    }
  }

  /** Only entry `i` of the list can report a key of index `i`. */
  lemma {:induction false} AudienceListAt(cats: seq<Value>, n: nat, i: nat, f: string)
    requires n <= |cats|
    ensures AudienceListFlags(cats, n, AudienceKey(i, f))
      <==> i < n && AudienceEntryFlags(i, cats[i], AudienceKey(i, f))
  {
    if n > 0 {
      AudienceListAt(cats, n - 1, i, f);
      if i != n - 1 {
        OtherAudienceEntry(n - 1, cats[n - 1], i, f);
      }
    }
  }

  lemma AudienceKeyOwned(d: EventFormData, i: nat, f: string)
    requires Convertible(d)
    ensures AudienceKey(i, f) in Errors(d)
      <==> d.ticketType == Str("paid") && PaidFlags(d, AudienceKey(i, f))
  {
    AudienceKeyPrefix(i, f);
    ListedKeyApart(AudienceKey(i, f));
    OwnedByTicket(d, AudienceKey(i, f));
  }

  /** For paid tickets every audience category needs a name, a price and a
      description; an absent or empty list is reported once, as a missing
      name at index 0. Free tickets report no audience key. */
  lemma AudienceRules(d: EventFormData, i: nat)
    requires Convertible(d)
    ensures AudienceKey(i, "category") in Errors(d)
      <==> d.ticketType == Str("paid")
           && if HasEntries(d.audienceCategory)
              then i < |d.audienceCategory.items| && Blank(Get(d.audienceCategory.items[i], "category"))
              else i == 0
    ensures AudienceKey(i, "price") in Errors(d)
      <==> d.ticketType == Str("paid") && HasEntries(d.audienceCategory)
           && i < |d.audienceCategory.items| && BadPrice(Get(d.audienceCategory.items[i], "price"))
    ensures AudienceKey(i, "description") in Errors(d)
      <==> d.ticketType == Str("paid") && HasEntries(d.audienceCategory)
           && i < |d.audienceCategory.items| && Blank(Get(d.audienceCategory.items[i], "description"))
  {
    var cats := d.audienceCategory;
    AudienceKeyOwned(d, i, "category");
    AudienceKeyOwned(d, i, "price");
    AudienceKeyOwned(d, i, "description");
    if HasEntries(cats) {
      AudienceListAt(cats.items, |cats.items|, i, "category");
      AudienceListAt(cats.items, |cats.items|, i, "price");
      AudienceListAt(cats.items, |cats.items|, i, "description");
      if i < |cats.items| {
        AudienceEntryAt(i, cats.items[i]);
      }
    } else {
      if AudienceKey(i, "category") == AudienceKey(0, "category") {
        AudienceKeyInjective(i, "category", 0, "category");
      }
      if AudienceKey(i, "price") == AudienceKey(0, "category") {
        AudienceKeyInjective(i, "price", 0, "category");
      }
      if AudienceKey(i, "description") == AudienceKey(0, "category") {
        AudienceKeyInjective(i, "description", 0, "category");
      }
    }
  }

  lemma OtherStallEntry(j: nat, stall: Value, i: nat, f: string)
    requires j != i && NumberLike(Get(stall, "stallPrice"))
    ensures !StallEntryFlags(j, stall, StallKey(i, f))
  {
    if StallKey(i, f) == StallKey(j, "stallType") {
      StallKeyInjective(i, f, j, "stallType");
    }
    if StallKey(i, f) == StallKey(j, "stallPrice") {
      StallKeyInjective(i, f, j, "stallPrice");
    }
  }

  lemma StallEntryAt(i: nat, stall: Value)
    requires NumberLike(Get(stall, "stallPrice"))
    ensures StallEntryFlags(i, stall, StallKey(i, "stallType")) <==> Blank(Get(stall, "stallType"))
    ensures StallEntryFlags(i, stall, StallKey(i, "stallPrice")) <==> BadAmount(Get(stall, "stallPrice"))
  {
    if StallKey(i, "stallType") == StallKey(i, "stallPrice") {
      StallKeyInjective(i, "stallType", i, "stallPrice");
    }
  }

  /** Only entry `i` of the list can report a key of index `i`. */
  lemma {:induction false} StallListAt(stalls: seq<Value>, n: nat, i: nat, f: string)
    requires n <= |stalls| && PricesConvertible(stalls)
    ensures StallListFlags(stalls, n, StallKey(i, f))
      <==> i < n && StallEntryFlags(i, stalls[i], StallKey(i, f))
  {
    if n > 0 {
      StallListAt(stalls, n - 1, i, f);
      if i != n - 1 {
        OtherStallEntry(n - 1, stalls[n - 1], i, f);
      }
    }
  }

  lemma StallKeyOwned(d: EventFormData, i: nat, f: string)
    requires Convertible(d)
    ensures StallKey(i, f) in Errors(d) <==> StallListFlags(StallList(d), |StallList(d)|, StallKey(i, f))
  {
    StallKeyPrefix(i, f);
    ListedKeyApart(StallKey(i, f));
    OwnedByFinal(d, StallKey(i, f));
  }

  /** Every stall price entry needs a stall type and a numeric price; the
      list is only walked when the requirements record holds an array. */
  lemma StallRules(d: EventFormData, i: nat)
    requires Convertible(d)
    ensures StallKey(i, "stallType") in Errors(d)
      <==> i < |StallList(d)| && Blank(Get(StallList(d)[i], "stallType"))
    ensures StallKey(i, "stallPrice") in Errors(d)
      <==> i < |StallList(d)| && BadAmount(Get(StallList(d)[i], "stallPrice"))
  {
    var stalls := StallList(d);
    StallKeyOwned(d, i, "stallType");
    StallKeyOwned(d, i, "stallPrice");
    StallListAt(stalls, |stalls|, i, "stallType");
    StallListAt(stalls, |stalls|, i, "stallPrice");
    if i < |stalls| {
      StallEntryAt(i, stalls[i]);
    }
  }

  /** Free (or unset) ticket types report no audience key at all. */
  lemma UnpaidNoAudienceKeys(d: EventFormData)
    requires Convertible(d) && d.ticketType != Str("paid")
    ensures forall k :: k in Errors(d) ==> !StartsWith(k, AudiencePrefix)
  {
    forall k | k in Errors(d) && StartsWith(k, AudiencePrefix)
      ensures false
    {
      ListedKeyApart(k);
      OwnedByTicket(d, k);
    }
  }

  // ---------------------------------------------------------------------
  // No sponsor key.

  const SponsorPrefix: string := "sponsors."

  lemma TopLevelNotSponsor(k: string)
    requires k in TopLevelKeys
    ensures !StartsWith(k, SponsorPrefix)
  {
    if StartsWith(k, SponsorPrefix) {
      StartsWithAt(k, SponsorPrefix, 0);
    }
  }

  /** The sponsor entries are never checked: no error key lies under
      `sponsors.`, whatever the draft holds. */
  lemma NoSponsorKeys(d: EventFormData)
    requires Convertible(d)
    ensures forall k :: k in Errors(d) ==> !StartsWith(k, SponsorPrefix)
  {
    forall k | k in Errors(d)
      ensures !StartsWith(k, SponsorPrefix)
    {
      ErrorKeys(d, k);
      FlaggedShape(d, k);
      if k in TopLevelKeys {
        TopLevelNotSponsor(k);
      } else if StartsWith(k, SponsorPrefix) {
        StartsWithAt(k, SponsorPrefix, 0);
        if StartsWith(k, AudiencePrefix) {
          StartsWithAt(k, AudiencePrefix, 0);
        } else {
          StartsWithAt(k, StallsPrefix, 0);
        }
      }
    }
  }

  // ---------------------------------------------------------------------
  // An empty result means a draft that keeps every rule.

  predicate AudienceEntryValid(cat: Value) {
    !Blank(Get(cat, "category")) && !BadPrice(Get(cat, "price")) && !Blank(Get(cat, "description"))
  }

  predicate StallEntryValid(stall: Value)
    requires NumberLike(Get(stall, "stallPrice"))
  {
    !Blank(Get(stall, "stallType")) && !BadAmount(Get(stall, "stallPrice"))
  }

  predicate DescriptionValid(d: EventFormData) {
    !Blank(d.eventName) && !Blank(d.category) && !Blank(d.tagline)
    && !Blank(d.description) && !Blank(d.personnel)
  }

  predicate ScheduleValid(d: EventFormData) {
    Truthy(d.date) && Truthy(d.time) && Truthy(d.endTime) && !Blank(d.venue) && !Blank(d.entrySide)
  }

  predicate TicketValid(d: EventFormData)
    requires NumberLike(d.ticketQuantity)
  {
    (d.ticketType == Str("paid") || d.ticketType == Str("free"))
    && (d.ticketType == Str("paid") ==>
          HasEntries(d.audienceCategory)
          && (forall i :: 0 <= i < |d.audienceCategory.items| ==> AudienceEntryValid(d.audienceCategory.items[i]))
          && !Blank(d.refundPolicy))
    && !Blank(d.ticketName) && !BadQuantity(d.ticketQuantity)
  }

  predicate ExtrasValid(d: EventFormData)
    requires Truthy(d.enableOffers) ==> NumberLike(d.discountAmount)
  {
    (Truthy(d.enableOffers) ==>
       (d.discountType == Str("flat") || d.discountType == Str("percentage"))
       && !BadAmount(d.discountAmount) && !Blank(d.discountCode))
    && !Blank(d.guidelines)
    && (Truthy(Get(d.addOns, "giftHampers")) ==> !Blank(Get(d.addOns, "giftHampersDescription")))
  }

  predicate SponsorshipValid(d: EventFormData) {
    Truthy(d.contactInfo) && !Blank(Get(d.contactInfo, "mobile")) && !Blank(Get(d.contactInfo, "email"))
  }

  predicate FinalValid(d: EventFormData)
    requires PricesConvertible(StallList(d))
  {
    Truthy(d.requirements)
    && !Blank(Get(d.requirements, "artists")) && !Blank(Get(d.requirements, "stallsAvailability"))
    && (forall i :: 0 <= i < |StallList(d)| ==> StallEntryValid(StallList(d)[i]))
    && Truthy(d.postEventFollowUp) && !Blank(Get(d.postEventFollowUp, "thankYouNote"))
  }

  /** Every rule the validator applies to `d` holds. */
  predicate Valid(d: EventFormData)
    requires Convertible(d)
  {
    DescriptionValid(d) && ScheduleValid(d) && TicketValid(d)
    && ExtrasValid(d) && SponsorshipValid(d) && FinalValid(d)
  }

  lemma {:induction false} ValidAudienceList(cats: seq<Value>, n: nat, k: string)
    requires n <= |cats| && forall i :: 0 <= i < n ==> AudienceEntryValid(cats[i])
    ensures !AudienceListFlags(cats, n, k)
  {
    if n > 0 {
      ValidAudienceList(cats, n - 1, k);
    }
  }

  lemma {:induction false} ValidStallList(stalls: seq<Value>, n: nat, k: string)
    requires n <= |stalls| && PricesConvertible(stalls)
    requires forall i :: 0 <= i < n ==> StallEntryValid(stalls[i])
    ensures !StallListFlags(stalls, n, k)
  {
    if n > 0 {
      ValidStallList(stalls, n - 1, k);
    }
  }

  lemma TicketValidNotFlagged(d: EventFormData, k: string)
    requires NumberLike(d.ticketQuantity) && TicketValid(d)
    ensures !TicketFlags(d, k)
  {
    if d.ticketType == Str("paid") {
      ValidAudienceList(d.audienceCategory.items, |d.audienceCategory.items|, k);
    }
  }

  lemma FinalValidNotFlagged(d: EventFormData, k: string)
    requires PricesConvertible(StallList(d)) && FinalValid(d)
    ensures !FinalFlags(d, k)
  {
    ValidStallList(StallList(d), |StallList(d)|, k);
  }

  lemma ValidNotFlagged(d: EventFormData, k: string)
    requires Convertible(d) && Valid(d)
    ensures !Flagged(d, k)
  {
    TicketValidNotFlagged(d, k);
    FinalValidNotFlagged(d, k);
  }

  lemma ValidEmpty(d: EventFormData)
    requires Convertible(d) && Valid(d)
    ensures Errors(d) == map[]
  {
    forall k
      ensures k !in Errors(d)
    {
      ErrorKeys(d, k);
      ValidNotFlagged(d, k);
    }
  }

  lemma EmptyTicketValid(d: EventFormData)
    requires Convertible(d) && Errors(d) == map[]
    ensures TicketValid(d)
  {
    TicketRules(d);
    AudienceRules(d, 0);
    var cats := d.audienceCategory;
    forall i | d.ticketType == Str("paid") && 0 <= i < |cats.items|
      ensures AudienceEntryValid(cats.items[i])
    {
      AudienceRules(d, i);
    }
  }

  lemma EmptyFinalValid(d: EventFormData)
    requires Convertible(d) && Errors(d) == map[]
    ensures FinalValid(d)
  {
    FinalRules(d);
    forall i | 0 <= i < |StallList(d)|
      ensures StallEntryValid(StallList(d)[i])
    {
      StallRules(d, i);
    }
  }

  /** The validator returns an empty record exactly when the draft keeps
      every rule it applies. */
  lemma EmptyIffValid(d: EventFormData)
    requires Convertible(d)
    ensures Errors(d) == map[] <==> Valid(d)
  {
    if Errors(d) == map[] {
      DescriptionRules(d);
      ScheduleRules(d);
      EmptyTicketValid(d);
      OfferRules(d);
      ExtrasRules(d);
      SponsorshipRules(d);
      EmptyFinalValid(d);
    }
    if Valid(d) {
      ValidEmpty(d);
    }
  }
}
