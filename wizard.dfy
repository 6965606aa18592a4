/** The event-creation wizard: the draft it edits, the four steps it walks
    through, and the handlers that move between steps and change the draft.
    A `setFormData(prev => f(prev))` update is modelled as the function `f`
    on the draft; the component state the wizard updates step by step lives
    in the class `EventPage`. */
module EventWizard {
  import opened Text
  import opened Optional
  import opened Values
  import opened Validation

  // ---------------------------------------------------------------------
  // Steps and the error keys they own.

  /** For each step, the error-key prefixes it shows. */
  const StepFields: seq<seq<string>> := [
    ["eventName", "category", "tagline", "description", "personnel", "date", "time", "endTime",
     "venue", "googleMapsUrl", "transportToEvent", "entrySide"],
    ["ticketType", "ticketName", "ticketQuantity", "audienceCategory", "refundPolicy",
     "discountType", "discountAmount", "discountCode", "guidelines", "addOns.giftHampersDescription"],
    ["contactInfo.mobile", "contactInfo.email", "sponsors.titleSponsors", "sponsors.coPartners",
     "sponsors.mediaPartners"],
    ["requirements.artists", "requirements.stallsAvailability", "requirements.stallsPrices",
     "postEventFollowUp.thankYouNote"]
  ]

  /** Step `i + 1` owns key `k`: some prefix of step `i + 1` starts `k`. */
  predicate Owns(i: nat, k: string)
    requires i < |StepFields|
  {
    exists p :: p in StepFields[i] && StartsWith(k, p)
  }

  /** Some key of `keys` belongs to step `i + 1`. */
  predicate OwnsSome(i: nat, keys: set<string>)
    requires i < |StepFields|
  {
    exists k :: k in keys && Owns(i, k)
  }

  /** The first step, from index `i` on, that owns one of `keys`; step 1
      when none does. */
  function FirstOwner(keys: set<string>, i: nat): (step: nat)
    requires i <= |StepFields|
    ensures 1 <= step <= |StepFields|
    ensures step == 1 || (i < step && OwnsSome(step - 1, keys))
    ensures forall j :: i <= j < step - 1 ==> !OwnsSome(j, keys)
    ensures step == 1 && !(i == 0 && OwnsSome(0, keys)) ==>
              forall j :: i <= j < |StepFields| ==> !OwnsSome(j, keys)
    decreases |StepFields| - i
  {
    if i == |StepFields| then 1
    else if OwnsSome(i, keys) then i + 1
    else FirstOwner(keys, i + 1)
  }

  /** The step that Next on the last step jumps back to when validation
      reports the error keys `keys`: the lowest step owning one of them, or
      step 1 when no step owns any. */
  function JumpTarget(keys: set<string>): (step: nat)
    ensures 1 <= step <= 4
  {
    FirstOwner(keys, 0)
  }

  /** The jump target is the lowest step owning an error key. */
  lemma JumpTargetIsFirstOwner(keys: set<string>)
    ensures JumpTarget(keys) > 1 ==> OwnsSome(JumpTarget(keys) - 1, keys)
    ensures forall j :: 0 <= j < JumpTarget(keys) - 1 ==> !OwnsSome(j, keys)
    ensures JumpTarget(keys) == 1 ==>
              OwnsSome(0, keys) || forall j :: 0 <= j < |StepFields| ==> !OwnsSome(j, keys)
  {
  }

  /** The search loop of the Next handler, with its early exit. */
  method FindJumpStep(keys: set<string>) returns (jumpStep: nat)
    ensures jumpStep == JumpTarget(keys)
  {
    jumpStep := 1;
    for i := 0 to |StepFields|
      invariant jumpStep == 1
      invariant FirstOwner(keys, i) == FirstOwner(keys, 0)
    {
      if OwnsSome(i, keys) {
        jumpStep := i + 1;
        return;
      }
    }
  }

  // ---------------------------------------------------------------------
  // The initial state.

  function Pair(k1: string, v1: Value, k2: string, v2: Value): Value {
    Obj(map[k1 := v1, k2 := v2])
  }

  /** The draft a new wizard starts from. */
  const DefaultDraft: Value := Obj(map[
    "eventName" := Str(""), "category" := Str(""), "description" := Str(""),
    "tagline" := Str(""), "eventPhoto" := Null, "personnel" := Str(""),
    "date" := Str(""), "endDate" := Str(""), "time" := Str(""), "endTime" := Str(""),
    "venue" := Str(""), "googleMapsUrl" := Str(""),
    "artists" := Arr([Pair("name", Str(""), "genre", Str(""))]),
    "chefGuests" := Arr([Pair("name", Str(""), "specialty", Str(""))]),
    "attractions" := Arr([Pair("name", Str(""), "description", Str(""))]),
    "media" := Str(""),
    "transportOptions" := Obj(map[
      "publicTransport" := Bool(false), "ownVehicles" := Bool(false),
      "thirdPartyApp" := Bool(false), "localPrivateTransport" := Bool(false)]),
    "transportToEvent" := Str(""), "entrySide" := Str(""), "guidelines" := Str(""),
    "idleness" := Str(""), "ticketName" := Str(""), "ticketPrice" := Str(""),
    "ticketType" := Str("paid"), "ticketQuantity" := Str(""), "discountType" := Str(""),
    "discountCode" := Str(""), "discountAmount" := Str(""), "type" := Str("flat"),
    "enableOffers" := Bool(false),
    "audienceCategory" := Arr([Obj(map["category" := Str(""), "price" := Str(""), "description" := Str("")])]),
    "refundPolicy" := Str(""),
    "addOns" := Obj(map[
      "freebies" := Bool(false), "giftHampers" := Bool(false), "merchandise" := Bool(false),
      "addOther" := Bool(false), "giftHampersDescription" := Str("")]),
    "audienceRange" := Pair("min", Num(13), "max", Num(86)),
    "targetAudience" := Obj(map[
      "Entrepreneurs" := Bool(false), "High School Learners" := Bool(false),
      "University Scholars" := Bool(true), "Artists" := Bool(false), "Singers" := Bool(false),
      "General Public" := Bool(true)]),
    "sponsors" := Obj(map[
      "titleSponsors" := Arr([Pair("name", Str(""), "website", Str(""))]),
      "coPartners" := Arr([Pair("name", Str(""), "website", Str(""))]),
      "mediaPartners" := Arr([Pair("name", Str(""), "website", Str(""))])]),
    "contactInfo" := Obj(map[
      "mobile" := Str(""), "email" := Str(""), "website" := Str(""), "additionalLinks" := Str("")]),
    "requirements" := Obj(map[
      "artists" := Str(""), "stallsAvailability" := Str(""),
      "stallsPrices" := Arr([Pair("stallType", Str(""), "stallPrice", Str("")),
                             Pair("stallType", Str(""), "stallPrice", Str(""))])]),
    "postEventFollowUp" := Obj(map["thankYouNote" := Str("")])
  ])

  /** Every collapsible section starts open. */
  const DefaultSections: map<string, bool> := map[
    "event-info" := true, "date-time" := true, "event-highlights" := true, "photo-media" := true,
    "ticketing" := true, "sponsorship" := true, "requirements" := true, "postEvent" := true,
    "contactInfo" := true, "audience" := true, "guidelines" := true, "addOns" := true,
    "discounts" := true
  ]

  // ---------------------------------------------------------------------
  // Restoring a saved wizard.

  /** `parseInt(s, 10)`: leading white space, an optional sign, then the
      longest run of decimal digits; `None` (NaN) when there is no digit. */
  function ParseInt(s: string): (r: Option<int>)
    ensures r.Some? ==> exists u :: |u| >= 1 && AllDigits(u) && (r.value == DigitsValue(u) || r.value == -(DigitsValue(u) as int))
  {
    var t := TrimStart(s);
    var neg := t != [] && t[0] == '-';
    var u := if t != [] && (t[0] == '-' || t[0] == '+') then t[1..] else t;
    var n := DigitPrefixLength(u);
    DigitPrefixAllDigits(u);
    if n == 0 then None
    else
      var v: int := DigitsValue(u[..n]);
      Some(if neg then -v else v)
  }

  lemma {:induction false} DigitPrefixAllDigits(s: string)
    ensures AllDigits(s[..DigitPrefixLength(s)])
    ensures DigitPrefixLength(s) < |s| ==> !IsDigit(s[DigitPrefixLength(s)])
  {
    if s != [] && IsDigit(s[0]) {
      DigitPrefixAllDigits(s[1..]);
      assert s[..DigitPrefixLength(s)] == [s[0]] + s[1..][..DigitPrefixLength(s[1..])];
    }
  }

  /** A step saved with `toString()` is restored as the same step. */
  lemma SavedStepParses(n: nat)
    ensures ParseInt(NatToString(n)) == Some(n)
  {
    var s := NatToString(n);
    assert TrimStart(s) == s by {
      assert s != [] && !IsWhitespace(s[0]) by {
        assert IsDigit(s[0]);
      }
    }
    DigitPrefixOfAllDigits(s);
    assert s[..|s|] == s;
  }

  lemma {:induction false} DigitPrefixOfAllDigits(s: string)
    requires AllDigits(s)
    ensures DigitPrefixLength(s) == |s|
  {
    if s != [] {
      DigitPrefixOfAllDigits(s[1..]);
    }
  }

  /** The step a saved step string restores to, if it is accepted. */
  function RestoredStep(saved: string): (r: Option<int>)
    ensures r.Some? ==> 1 <= r.value <= 4 && ParseInt(saved) == Some(r.value)
    ensures r.None? ==> saved == [] || ParseInt(saved).None? || !(1 <= ParseInt(saved).value <= 4)
  {
    if saved == [] then None
    else match ParseInt(saved)
      case Some(n) => if 1 <= n <= 4 then Some(n) else None
      case None => None
  }

  /** `{ ...prev, ...stored }`: the stored top-level keys win, every other
      key keeps its current value. */
  function MergeDraft(prev: Value, stored: Value): (r: Value)
    ensures r.Obj?
    ensures forall k :: k in Spread(stored) ==> Get(r, k) == Spread(stored)[k]
    ensures forall k :: k !in Spread(stored) ==> Get(r, k) == (if prev.Obj? then Get(prev, k) else Undefined)
  {
    Obj(Spread(prev) + Spread(stored))
  }

  // ---------------------------------------------------------------------
  // Sections.

  /** `!!openSections[section]` */
  predicate IsOpen(sections: map<string, bool>, section: string) {
    section in sections && sections[section]
  }

  /** `{ ...prev, [section]: !prev[section] }` */
  function Toggled(sections: map<string, bool>, section: string): (r: map<string, bool>)
    ensures section in r && (IsOpen(r, section) <==> !IsOpen(sections, section))
    ensures forall s :: s != section ==> (s in r <==> s in sections) && (s in r ==> r[s] == sections[s])
  {
    sections[section := !IsOpen(sections, section)]
  }

  lemma ToggleTwice(sections: map<string, bool>, section: string)
    requires section in sections
    ensures Toggled(Toggled(sections, section), section) == sections
  {
    var twice := Toggled(Toggled(sections, section), section);
    assert twice.Keys == sections.Keys;
  }

  // ---------------------------------------------------------------------
  // Photos.

  datatype PhotoVerdict = Accepted | WrongType | TooLarge

  const MaxPhotoSize: nat := 5 * 1024 * 1024

  /** The type check comes first, then the size check. */
  function CheckPhoto(f: PhotoFile): (v: PhotoVerdict)
    ensures v == Accepted <==> f.mimeType in ["image/jpeg", "image/png", "image/gif"] && f.size <= MaxPhotoSize
    ensures v == TooLarge ==> f.size > MaxPhotoSize
    ensures f.mimeType !in ["image/jpeg", "image/png", "image/gif"] ==> v == WrongType
  {
    if f.mimeType !in ["image/jpeg", "image/png", "image/gif"] then WrongType
    else if f.size > MaxPhotoSize then TooLarge
    else Accepted
  }

  function EventPhotoMessage(v: PhotoVerdict): string {
    match v
    case Accepted => ""
    case WrongType => "Please upload a JPG, PNG, or GIF file."
    case TooLarge => "File size must be less than 5MB."
  }

  function AdditionalPhotoMessage(v: PhotoVerdict): string {
    match v
    case Accepted => ""
    case WrongType => "Please upload only JPG, PNG, or GIF files."
    case TooLarge => "Each file size must be less than 5MB."
  }

  /** The additional photos that pass both checks, in their order. */
  function AcceptedPhotos(files: seq<PhotoFile>): (kept: seq<PhotoFile>)
    ensures |kept| <= |files|
    ensures forall f :: f in kept ==> f in files && CheckPhoto(f) == Accepted
    ensures forall f :: f in files && CheckPhoto(f) == Accepted ==> f in kept
  {
    if files == [] then []
    else
      var last := files[|files| - 1];
      assert files == files[..|files| - 1] + [last];
      AcceptedPhotos(files[..|files| - 1]) + (if CheckPhoto(last) == Accepted then [last] else [])
  }

  /** Filtering distributes over concatenation: the kept photos keep the
      order, and the repeats, of the files they come from. */
  lemma {:induction false} AcceptedPhotosAppend(a: seq<PhotoFile>, b: seq<PhotoFile>)
    ensures AcceptedPhotos(a + b) == AcceptedPhotos(a) + AcceptedPhotos(b)
    decreases |b|
  {
    if b == [] {
      assert a + b == a;
    } else {
      var init := b[..|b| - 1];
      var last := b[|b| - 1];
      assert (a + b)[..|a + b| - 1] == a + init;
      assert (a + b)[|a + b| - 1] == last;
      AcceptedPhotosAppend(a, init);
    }
  }

  /** The error left by the loop over the additional photos: that of the
      last rejected file, or "" when every file passes. */
  function LastPhotoError(files: seq<PhotoFile>): (error: string)
    ensures error == "" <==> forall f :: f in files ==> CheckPhoto(f) == Accepted
    ensures error != "" ==> exists j :: (0 <= j < |files| && CheckPhoto(files[j]) != Accepted
              && error == AdditionalPhotoMessage(CheckPhoto(files[j]))
              && forall m :: j < m < |files| ==> CheckPhoto(files[m]) == Accepted)
  {
    if files == [] then ""
    else
      var last := files[|files| - 1];
      assert files == files[..|files| - 1] + [last];
      if CheckPhoto(last) != Accepted then AdditionalPhotoMessage(CheckPhoto(last))
      else LastPhotoError(files[..|files| - 1])
  }

  lemma AllAcceptedKeepsAll(files: seq<PhotoFile>)
    requires forall f :: f in files ==> CheckPhoto(f) == Accepted
    ensures AcceptedPhotos(files) == files
  {
    if files != [] {
      AllAcceptedKeepsAll(files[..|files| - 1]);
      assert files == files[..|files| - 1] + [files[|files| - 1]];
    }
  }

  // ---------------------------------------------------------------------
  // Paths into the draft.

  /** The value at a dotted path, each step a property read. */
  function GetPath(v: Value, path: seq<string>): Value
    decreases |path|
  {
    if path == [] then v else GetPath(Get(v, path[0]), path[1..])
  }

  /** `updateNestedState(s, path, v)`: a copy of `s` with `v` at `path`,
      copying every object on the way and starting a missing (falsy) one
      as `{}`. */
  function UpdateNestedState(s: Value, path: seq<string>, v: Value): (r: Value)
    requires |path| >= 1
    ensures r.Obj?
    ensures GetPath(r, path) == v
    ensures forall k :: k != path[0] ==> Get(r, k) == (if s.Obj? then Get(s, k) else Undefined)
    decreases |path|
  {
    if |path| == 1 then With(s, path[0], v)
    else With(s, path[0], UpdateNestedState(Or(Get(s, path[0]), Obj(map[])), path[1..], v))
  }

  /** Every object on the path exists after the update. */
  lemma {:induction false} UpdateNestedCreatesObjects(s: Value, path: seq<string>, v: Value, j: nat)
    requires 0 <= j < |path|
    ensures GetPath(UpdateNestedState(s, path, v), path[..j]).Obj?
    decreases |path|
  {
    if j > 0 {
      var inner := Or(Get(s, path[0]), Obj(map[]));
      UpdateNestedCreatesObjects(inner, path[1..], v, j - 1);
      assert path[..j][1..] == path[1..][..j - 1];
    }
  }

  /** A value the update descends through without losing a property: an
      object, or a falsy value other than the empty string. */
  predicate Plain(v: Value) {
    v.Obj? || v.Undefined? || v.Null? || v == Bool(false) || v == Num(0)
  }

  lemma {:induction false} GetPathUndefined(q: seq<string>)
    ensures GetPath(Undefined, q) == Undefined
    decreases |q|
  {
    if q != [] {
      GetPathUndefined(q[1..]);
    }
  }

  /** A path that leaves the updated path at position `i` reads the same
      value before and after the update, provided the draft holds plain
      objects (or nothing) along the shared part. */
  lemma {:induction false} UpdateNestedOffPath(s: Value, path: seq<string>, v: Value, q: seq<string>, i: nat)
    requires i < |path| && i < |q| && q[..i] == path[..i] && q[i] != path[i]
    requires forall j :: 0 <= j <= i ==> Plain(GetPath(s, path[..j]))
    ensures GetPath(UpdateNestedState(s, path, v), q) == GetPath(s, q)
    decreases |path|
  {
    var r := UpdateNestedState(s, path, v);
    assert GetPath(s, path[..0]) == s;
    if i == 0 {
      assert Get(r, q[0]) == Get(s, q[0]);
    } else {
      assert q[0] == path[..i][0] == path[0];
      var head := Get(s, path[0]);
      var inner := Or(head, Obj(map[]));
      assert Get(r, path[0]) == UpdateNestedState(inner, path[1..], v);
      forall j | 0 <= j <= i - 1
        ensures Plain(GetPath(inner, path[1..][..j]))
      {
        assert GetPath(s, path[..j + 1]) == GetPath(head, path[1..][..j]) by {
          assert path[..j + 1][1..] == path[1..][..j];
        }
        if !Truthy(head) {
          if j == 0 {
            assert GetPath(inner, path[1..][..j]) == inner;
          } else {
            assert GetPath(inner, path[1..][..j]) == GetPath(Undefined, path[1..][..j][1..]);
            GetPathUndefined(path[1..][..j][1..]);
          }
        }
      }
      assert q[1..][..i - 1] == path[1..][..i - 1] by {
        assert q[1..][..i - 1] == q[..i][1..];
        assert path[1..][..i - 1] == path[..i][1..];
      }
      UpdateNestedOffPath(inner, path[1..], v, q[1..], i - 1);
      if !Truthy(head) {
        assert GetPath(s, path[..1]) == head;
        assert GetPath(inner, q[1..]) == GetPath(Undefined, q[1..][1..]);
        assert GetPath(head, q[1..]) == GetPath(Undefined, q[1..][1..]);
        GetPathUndefined(q[1..][1..]);
      }
    }
  }

  // ---------------------------------------------------------------------
  // List fields of the draft.

  /** The entry `addArrayItem` appends to each list. */
  function ArrayTemplate(arrayName: string): Value {
    if arrayName == "artists" then Pair("name", Str(""), "genre", Str(""))
    else if arrayName == "chefGuests" then Pair("name", Str(""), "specialty", Str(""))
    else if arrayName == "attractions" then Pair("name", Str(""), "description", Str(""))
    else if arrayName == "audienceCategory" then
      Obj(map["category" := Str(""), "price" := Str(""), "description" := Str("")])
    else Obj(map["name" := Str(""), "logo" := Null, "details" := Str("")])
  }

  /** `addArrayItem(arrayName)` */
  function AddArrayItem(d: Value, arrayName: string): (r: Value)
    requires d.Obj?
    requires Get(d, arrayName).Arr?
    ensures Get(r, arrayName).Arr?
    ensures |Get(r, arrayName).items| == |Get(d, arrayName).items| + 1
    ensures Get(r, arrayName).items[..|Get(d, arrayName).items|] == Get(d, arrayName).items
    ensures Get(r, arrayName).items[|Get(d, arrayName).items|] == ArrayTemplate(arrayName)
    ensures forall k :: k != arrayName ==> Get(r, k) == Get(d, k)
  {
    var items := Get(d, arrayName).items;
    assert (items + [ArrayTemplate(arrayName)])[..|items|] == items;
    With(d, arrayName, Arr(items + [ArrayTemplate(arrayName)]))
  }

  /** `items.map((item, i) => i === index ? { ...item, [field]: value } : item)` */
  function UpdateAt(items: seq<Value>, index: int, field: string, value: Value): (r: seq<Value>)
    ensures |r| == |items|
    ensures forall i :: 0 <= i < |items| && i != index ==> r[i] == items[i]
    ensures 0 <= index < |items| ==> r[index] == With(items[index], field, value)
  {
    seq(|items|, i requires 0 <= i < |items| => if i == index then With(items[i], field, value) else items[i])
  }

  /** `updateArrayField(arrayName, index, field, value)` */
  function UpdateArrayField(d: Value, arrayName: string, index: int, field: string, value: string): (r: Value)
    requires d.Obj?
    requires Get(d, arrayName).Arr?
    ensures Get(r, arrayName).Arr?
    ensures |Get(r, arrayName).items| == |Get(d, arrayName).items|
    ensures forall i :: 0 <= i < |Get(d, arrayName).items| && i != index ==>
              Get(r, arrayName).items[i] == Get(d, arrayName).items[i]
    ensures 0 <= index < |Get(d, arrayName).items| ==>
              var before := Get(d, arrayName).items[index];
              var after := Get(r, arrayName).items[index];
              Get(after, field) == Str(value)
              && forall f :: f != field ==> Get(after, f) == (if before.Obj? then Get(before, f) else Undefined)
    ensures forall k :: k != arrayName ==> Get(r, k) == Get(d, k)
  {
    With(d, arrayName, Arr(UpdateAt(Get(d, arrayName).items, index, field, Str(value))))
  }

  /** `items.filter((_, i) => i !== index)` */
  function RemoveAt(items: seq<Value>, index: int): (r: seq<Value>)
    ensures 0 <= index < |items| ==> |r| == |items| - 1
    ensures !(0 <= index < |items|) ==> r == items
    ensures forall i :: 0 <= i < |r| ==> r[i] == (if 0 <= index <= i then items[i + 1] else items[i])
  {
    if 0 <= index < |items| then items[..index] + items[index + 1..] else items
  }

  /** `x || []` for a list-valued property. */
  function ListOf(x: Value): seq<Value>
    requires Truthy(x) ==> x.Arr?
  {
    if Truthy(x) then x.items else []
  }

  /** `removeArrayItem(arrayName, index)` */
  function RemoveArrayItem(d: Value, arrayName: string, index: int): (r: Value)
    requires d.Obj?
    requires Truthy(Get(d, arrayName)) ==> Get(d, arrayName).Arr?
    ensures Get(r, arrayName) == Arr(RemoveAt(ListOf(Get(d, arrayName)), index))
    ensures forall k :: k != arrayName ==> Get(r, k) == Get(d, k)
  {
    With(d, arrayName, Arr(RemoveAt(ListOf(Get(d, arrayName)), index)))
  }

  /** `addNestedArrayItem(parentKey, arrayKey, newItem)` */
  function AddNestedArrayItem(d: Value, parentKey: string, arrayKey: string, newItem: Value): (r: Value)
    requires d.Obj?
    requires Truthy(Get(Get(d, parentKey), arrayKey)) ==> Get(Get(d, parentKey), arrayKey).Arr?
    ensures Get(Get(r, parentKey), arrayKey) == Arr(ListOf(Get(Get(d, parentKey), arrayKey)) + [newItem])
    ensures forall k :: k != arrayKey ==>
              Get(Get(r, parentKey), k) == (if Get(d, parentKey).Obj? then Get(Get(d, parentKey), k) else Undefined)
    ensures forall k :: k != parentKey ==> Get(r, k) == Get(d, k)
  {
    var parent := Get(d, parentKey);
    With(d, parentKey, With(parent, arrayKey, Arr(ListOf(Get(parent, arrayKey)) + [newItem])))
  }

  /** `removeNestedArrayItem(parentKey, arrayKey, index)` */
  function RemoveNestedArrayItem(d: Value, parentKey: string, arrayKey: string, index: int): (r: Value)
    requires d.Obj?
    requires Truthy(Get(Get(d, parentKey), arrayKey)) ==> Get(Get(d, parentKey), arrayKey).Arr?
    ensures Get(Get(r, parentKey), arrayKey) == Arr(RemoveAt(ListOf(Get(Get(d, parentKey), arrayKey)), index))
    ensures forall k :: k != arrayKey ==>
              Get(Get(r, parentKey), k) == (if Get(d, parentKey).Obj? then Get(Get(d, parentKey), k) else Undefined)
    ensures forall k :: k != parentKey ==> Get(r, k) == Get(d, k)
  {
    var parent := Get(d, parentKey);
    With(d, parentKey, With(parent, arrayKey, Arr(RemoveAt(ListOf(Get(parent, arrayKey)), index))))
  }

  /** Validation on the last step: the errors, and the step to show next. */
  method Review(draft: Value) returns (errors: ErrorMap, jumpStep: nat)
    requires Shaped(FormDataOf(draft))
    ensures errors == Errors(FormDataOf(draft))
    ensures errors != map[] ==> jumpStep == JumpTarget(errors.Keys)
    ensures errors == map[] ==> jumpStep == 4
  {
    errors := ValidateEventForm(FormDataOf(draft));
    jumpStep := 4;
    if |errors| > 0 {
      jumpStep := FindJumpStep(errors.Keys);
    }
  }

  // ---------------------------------------------------------------------
  // The wizard component.

  class EventPage {
    var currentStep: int
    var showCreateEvent: bool
    var formData: Value
    var openSections: map<string, bool>
    var formErrors: ErrorMap
    var submitted: bool
    var photoError: string
    var additionalPhotos: seq<PhotoFile>
    var additionalPhotosError: string

    /** The wizard is always on one of its four steps. */
    predicate Valid()
      reads this
    {
      1 <= currentStep <= 4
    }

    constructor(startDirectly: bool)
      ensures Valid() && currentStep == 1
      ensures showCreateEvent == startDirectly
      ensures formData == DefaultDraft && openSections == DefaultSections
      ensures formErrors == map[] && !submitted
      ensures photoError == "" && additionalPhotos == [] && additionalPhotosError == ""
    {
      currentStep := 1;
      showCreateEvent := startDirectly;
      formData := DefaultDraft;
      openSections := DefaultSections;
      formErrors := map[];
      submitted := false;
      photoError := "";
      additionalPhotos := [];
      additionalPhotosError := "";
    }

    /** The mount-time restore. Each stored item is given already parsed;
        `None` stands for an item that is absent, empty or fails to parse. */
    method Restore(savedData: Option<Value>, savedStep: Option<string>, savedSections: Option<map<string, bool>>)
      requires Valid()
      modifies this`formData, this`currentStep, this`openSections
      ensures Valid()
      ensures formData == (if savedData.Some? then MergeDraft(old(formData), savedData.value) else old(formData))
      ensures currentStep == (if savedStep.Some? && RestoredStep(savedStep.value).Some?
                              then RestoredStep(savedStep.value).value else old(currentStep))
      ensures openSections == (if savedSections.Some? then savedSections.value else old(openSections))
    {
      if savedData.Some? {
        formData := MergeDraft(formData, savedData.value);
      }
      if savedStep.Some? {
        var step := RestoredStep(savedStep.value);
        if step.Some? {
          currentStep := step.value;
        }
      }
      if savedSections.Some? {
        openSections := savedSections.value;
      }
    }

    /** Next: steps 1 to 3 advance and clear the errors; the last step
        validates the draft and either jumps back to the first step owning
        an error or submits. */
    method HandleNext()
      requires Valid()
      requires currentStep == 4 ==> Shaped(FormDataOf(formData))
      modifies this`currentStep, this`formErrors, this`submitted
      ensures Valid()
      ensures old(currentStep) < 4 ==>
                currentStep == old(currentStep) + 1 && formErrors == map[] && submitted == old(submitted)
      ensures old(currentStep) == 4 ==> formErrors == Errors(FormDataOf(formData))
      ensures old(currentStep) == 4 && formErrors != map[] ==>
                currentStep == JumpTarget(formErrors.Keys) && submitted == old(submitted)
      ensures old(currentStep) == 4 && formErrors == map[] ==> currentStep == 4 && submitted
    {
      if currentStep == 4 {
        var errors, jumpStep := Review(formData);
        formErrors := errors;
        if errors != map[] {
          currentStep := jumpStep;
          return;
        }
        submitted := true;
      } else {
        currentStep := currentStep + 1;
        formErrors := map[];
      }
    }

    /** Previous: back one step unless on the first; the errors stay. */
    method HandlePrevious()
      requires Valid()
      modifies this`currentStep
      ensures Valid()
      ensures currentStep == (if old(currentStep) > 1 then old(currentStep) - 1 else old(currentStep))
    {
      if currentStep > 1 {
        currentStep := currentStep - 1;
      }
    }

    method ToggleSection(section: string)
      modifies this`openSections
      ensures openSections == Toggled(old(openSections), section)
    {
      openSections := openSections[section := !IsOpen(openSections, section)];
    }

    /** A change of the event-photo input; `None` is an empty selection. */
    method HandleEventPhoto(file: Option<PhotoFile>)
      modifies this`formData, this`photoError
      ensures file.Some? && CheckPhoto(file.value) == Accepted ==>
                formData == With(old(formData), "eventPhoto", File(file.value)) && photoError == ""
      ensures file.Some? && CheckPhoto(file.value) != Accepted ==>
                formData == With(old(formData), "eventPhoto", Null)
                && photoError == EventPhotoMessage(CheckPhoto(file.value)) && photoError != ""
      ensures file.None? ==> formData == With(old(formData), "eventPhoto", Null) && photoError == ""
    {
      if file.Some? {
        var verdict := CheckPhoto(file.value);
        if verdict != Accepted {
          photoError := EventPhotoMessage(verdict);
          formData := With(formData, "eventPhoto", Null);
          return;
        }
        photoError := "";
        formData := With(formData, "eventPhoto", File(file.value));
      } else {
        photoError := "";
        formData := With(formData, "eventPhoto", Null);
      }
    }

    /** A change of the additional-photos input: keep the files that pass
        both checks, and the message of the last one that does not. */
    method HandleAdditionalPhotos(files: seq<PhotoFile>)
      modifies this`additionalPhotos, this`additionalPhotosError
      ensures additionalPhotos == AcceptedPhotos(files)
      ensures additionalPhotosError == LastPhotoError(files)
    {
      var filtered: seq<PhotoFile> := [];
      var error := "";
      for i := 0 to |files|
        invariant filtered == AcceptedPhotos(files[..i])
        invariant error == LastPhotoError(files[..i])
      {
        assert files[..i + 1][..i] == files[..i];
        var verdict := CheckPhoto(files[i]);
        if verdict != Accepted {
          error := AdditionalPhotoMessage(verdict);
        } else {
          filtered := filtered + [files[i]];
        }
      }
      assert files[..|files|] == files;
      additionalPhotos := filtered;
      additionalPhotosError := error;
    }

    /** The value any other input stores: an input whose name starts with
        "transport." or "addOns." stores its checked state whatever its
        type, a checkbox stores its checked state, any other its text. */
    static function InputValue(name: string, value: string, isCheckbox: bool, checked: bool): (v: Value)
      ensures StartsWith(name, "transport.") || StartsWith(name, "addOns.") || isCheckbox <==> v == Bool(checked)
      ensures !(StartsWith(name, "transport.") || StartsWith(name, "addOns.") || isCheckbox) ==> v == Str(value)
    {
      if StartsWith(name, "transport.") || StartsWith(name, "addOns.") || isCheckbox then Bool(checked)
      else Str(value)
    }

    /** Any other input: its dotted name is the path. The two photo inputs
        are dispatched to their own handlers before this branch. */
    method HandleInputChange(name: string, value: string, isCheckbox: bool, checked: bool)
      requires name != "eventPhoto" && name != "additionalPhotos"
      modifies this`formData
      ensures formData == UpdateNestedState(old(formData), Split(name, '.'), InputValue(name, value, isCheckbox, checked))
      ensures GetPath(formData, Split(name, '.')) == InputValue(name, value, isCheckbox, checked)
    {
      var path := Split(name, '.');
      formData := UpdateNestedState(formData, path, InputValue(name, value, isCheckbox, checked));
    }
  }
}
