/** The sponsorship step of the wizard: the three sponsor lists, the contact
    details, and the mobile-number field that keeps the "+91 " country code
    in front of at most ten digits. */
module SponsorshipForm {
  import opened Text
  import opened Optional
  import opened Values
  import opened EventWizard

  // ---------------------------------------------------------------------
  // Sponsor lists.

  /** The entry a new sponsor starts as. */
  const BlankSponsor: Value := Pair("name", Str(""), "website", Str(""))

  /** The sponsor list of category `typeId` (`prev.sponsors[typeId]`). */
  function Sponsors(d: Value, typeId: string): Value {
    Get(Get(d, "sponsors"), typeId)
  }

  /** The sponsor categories of `d` other than `typeId` as a spread of
      `prev.sponsors` keeps them. */
  ghost predicate OtherCategoriesKept(d: Value, r: Value, typeId: string) {
    forall t :: t != typeId ==>
      Sponsors(r, t) == (if Get(d, "sponsors").Obj? then Sponsors(d, t) else Undefined)
  }

  /** The draft keys other than `sponsors` as a spread of `prev` keeps them. */
  ghost predicate OtherKeysKept(d: Value, r: Value, key: string) {
    forall k :: k != key ==> Get(r, k) == (if d.Obj? then Get(d, k) else Undefined)
  }

  /** `handleAddSponsor(typeId)`. Reading a category of a missing `sponsors`
      object throws, and a list must be an array to be spread. */
  function AddSponsor(d: Value, typeId: string): (r: Value)
    requires !Nullish(Get(d, "sponsors"))
    requires Truthy(Sponsors(d, typeId)) ==> Sponsors(d, typeId).Arr?
    ensures Sponsors(r, typeId).Arr?
    ensures |Sponsors(r, typeId).items| == |ListOf(Sponsors(d, typeId))| + 1
    ensures Sponsors(r, typeId).items[..|ListOf(Sponsors(d, typeId))|] == ListOf(Sponsors(d, typeId))
    ensures Sponsors(r, typeId).items[|ListOf(Sponsors(d, typeId))|] == BlankSponsor
    ensures OtherCategoriesKept(d, r, typeId) && OtherKeysKept(d, r, "sponsors")
  {
    var sponsors := Get(d, "sponsors");
    var list := ListOf(Get(sponsors, typeId));
    assert (list + [BlankSponsor])[..|list|] == list;
    With(d, "sponsors", With(sponsors, typeId, Arr(list + [BlankSponsor])))
  }

  /** `handleRemoveSponsor(typeId, index)`: the list must exist, since it is
      filtered in place of being defaulted. */
  function RemoveSponsor(d: Value, typeId: string, index: int): (r: Value)
    requires !Nullish(Get(d, "sponsors"))
    requires Sponsors(d, typeId).Arr?
    ensures Sponsors(r, typeId) == Arr(RemoveAt(Sponsors(d, typeId).items, index))
    ensures OtherCategoriesKept(d, r, typeId) && OtherKeysKept(d, r, "sponsors")
  {
    var sponsors := Get(d, "sponsors");
    With(d, "sponsors", With(sponsors, typeId, Arr(RemoveAt(Get(sponsors, typeId).items, index))))
  }

  /** Removing the sponsor just added gives back the list as it was. */
  lemma AddThenRemoveLast(d: Value, typeId: string)
    requires !Nullish(Get(d, "sponsors"))
    requires Sponsors(d, typeId).Arr?
    ensures var added := AddSponsor(d, typeId);
      Sponsors(RemoveSponsor(added, typeId, |Sponsors(d, typeId).items|), typeId) == Sponsors(d, typeId)
  {
    var items := Sponsors(d, typeId).items;
    var added := AddSponsor(d, typeId);
    assert Sponsors(added, typeId).items == items + [BlankSponsor];
    assert (items + [BlankSponsor])[..|items|] == items;
  }

  /** `handleSponsorChange(typeId, index, field, value)`: copy the list, then
      assign a changed copy of the entry at `index` when that entry exists. */
  method ChangeSponsor(d: Value, typeId: string, index: int, field: string, value: string) returns (r: Value)
    requires !Nullish(Get(d, "sponsors"))
    requires Truthy(Sponsors(d, typeId)) ==> Sponsors(d, typeId).Arr?
    ensures Sponsors(r, typeId).Arr?
    ensures var before := ListOf(Sponsors(d, typeId)); var after := Sponsors(r, typeId).items;
      |after| == |before| && forall i :: 0 <= i < |before| && i != index ==> after[i] == before[i]
    ensures var before := ListOf(Sponsors(d, typeId)); var after := Sponsors(r, typeId).items;
      0 <= index < |before| && Truthy(before[index]) ==> after[index] == With(before[index], field, Str(value))
    ensures var before := ListOf(Sponsors(d, typeId)); var after := Sponsors(r, typeId).items;
      !(0 <= index < |before| && Truthy(before[index])) ==> after == before
    ensures OtherCategoriesKept(d, r, typeId) && OtherKeysKept(d, r, "sponsors")
  {
    var sponsors := Get(d, "sponsors");
    var list := ListOf(Get(sponsors, typeId));
    var updated := new Value[|list|](i requires 0 <= i < |list| => list[i]);
    if 0 <= index < updated.Length && Truthy(updated[index]) {
      updated[index] := With(updated[index], field, Str(value));
    }
    r := With(d, "sponsors", With(sponsors, typeId, Arr(updated[..])));
  }

  // ---------------------------------------------------------------------
  // Contact details.

  /** `updateContactInfo(field, value)` */
  function UpdateContactInfo(d: Value, field: string, value: string): (r: Value)
    ensures Get(Get(r, "contactInfo"), field) == Str(value)
    ensures var before := Get(d, "contactInfo");
      forall f :: f != field ==>
        Get(Get(r, "contactInfo"), f) == (if before.Obj? then Get(before, f) else Undefined)
    ensures OtherKeysKept(d, r, "contactInfo")
  {
    With(d, "contactInfo", With(Get(d, "contactInfo"), field, Str(value)))
  }

  /** The country code the mobile field keeps in front. */
  const CountryPrefix: string := "+91 "

  /** `s.replace(/^\+91\s?/, '')` */
  function StripCountryCode(s: string): (r: string)
    ensures StartsWith(s, "+91") ==> r == s[3..] || (|s| > 3 && IsWhitespace(s[3]) && r == s[4..])
    ensures !StartsWith(s, "+91") ==> r == s
  {
    if StartsWith(s, "+91") then
      var rest := s[3..];
      if rest != [] && IsWhitespace(rest[0]) then rest[1..] else rest
    else s
  }

  /** `s.replace(/[^0-9]/g, '')` */
  function KeepDigits(s: string): (r: string)
    ensures AllDigits(r) && |r| <= |s|
    ensures AllDigits(s) ==> r == s
  {
    if s == [] then [] else (if IsDigit(s[0]) then [s[0]] else []) + KeepDigits(s[1..])
  }

  /** A mobile number the field stores: the country code, then at most ten
      digits. */
  predicate WellFormedMobile(m: string) {
    StartsWith(m, CountryPrefix) && AllDigits(m[4..]) && |m| <= 14
  }

  /** The mobile number stored after the field shows `val`, or `None` when
      the keystroke is ignored. */
  function MobileUpdate(val: string): (r: Option<string>)
    ensures r.Some? ==> WellFormedMobile(r.value)
    ensures StartsWith(val, CountryPrefix) ==> (r.Some? <==> WellFormedMobile(val))
    ensures StartsWith(val, CountryPrefix) && r.Some? ==> r.value == val
    ensures !StartsWith(val, CountryPrefix) ==>
              (r.Some? <==> |KeepDigits(StripCountryCode(val))| <= 10)
    ensures !StartsWith(val, CountryPrefix) && r.Some? ==>
              r.value == CountryPrefix + KeepDigits(StripCountryCode(val))
  {
    var digits := if StartsWith(val, CountryPrefix) then val[4..] else KeepDigits(StripCountryCode(val));
    if AllDigits(digits) && |digits| <= 10 then
      assert (CountryPrefix + digits)[4..] == digits;
      Some(CountryPrefix + digits)
    else None
  }

  /** The mobile field's change handler, which narrows its local copy of
      the input step by step. */
  method HandleMobileInput(val: string) returns (update: Option<string>)
    ensures update == MobileUpdate(val)
  {
    var inputWithoutPrefix := if StartsWith(val, CountryPrefix) then val[4..] else val;
    if !StartsWith(val, CountryPrefix) {
      inputWithoutPrefix := KeepDigits(StripCountryCode(val));
    }
    update := None;
    if AllDigits(inputWithoutPrefix) {
      if |inputWithoutPrefix| <= 10 {
        update := Some(CountryPrefix + inputWithoutPrefix);
      }
    }
  }

  /** A stored number shown again and left as it is stays stored. */
  lemma MobileUpdateFixpoint(val: string)
    requires MobileUpdate(val).Some?
    ensures MobileUpdate(MobileUpdate(val).value) == MobileUpdate(val)
  {
    var m := MobileUpdate(val).value;
    assert StartsWith(m, CountryPrefix);
  }

  /** Typing a letter after the country code is ignored. */
  lemma LetterAfterPrefixIgnored(digits: string, c: char)
    requires !IsDigit(c)
    ensures MobileUpdate(CountryPrefix + digits + [c]) == None
  {
    var val := CountryPrefix + digits + [c];
    assert val[..4] == CountryPrefix;
    assert val[4..][|digits|] == c;
  }

  /** Deleting the space after "+91" keeps the digits that follow. */
  lemma MissingSpaceSalvaged(digits: string)
    requires AllDigits(digits) && |digits| <= 10
    ensures MobileUpdate("+91" + digits) == Some(CountryPrefix + digits)
  {
    var val := "+91" + digits;
    assert val[..3] == "+91" && val[3..] == digits;
    if |digits| > 0 {
      assert val[3] == digits[0];
      assert CountryPrefix[3] == ' ';
    }
    assert StripCountryCode(val) == digits;
  }

  /** The field shows "+91 " while no number is stored. */
  function DisplayedMobile(stored: Value): (shown: Value)
    ensures !Truthy(stored) ==> shown == Str(CountryPrefix)
    ensures Truthy(stored) ==> shown == stored
  {
    if Truthy(stored) then stored else Str(CountryPrefix)
  }
}
