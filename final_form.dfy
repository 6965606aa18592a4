/** The last step of the wizard: the stall-price list under `requirements`,
    the requirement and follow-up fields, and the step's own pair of
    collapsible sections. */
module FinalForm {
  import opened Text
  import opened Values
  import opened EventWizard

  /** The entry a new stall price starts as. */
  const BlankStallPrice: Value := Pair("stallType", Str(""), "stallPrice", Str(""))

  /** `prev.requirements?.stallsPrices` */
  function StallPrices(d: Value): Value {
    Get(Get(d, "requirements"), "stallsPrices")
  }

  /** The requirement fields other than `key` as a spread of
      `prev.requirements` keeps them. */
  ghost predicate OtherRequirementsKept(d: Value, r: Value, key: string) {
    var before := Get(d, "requirements");
    forall f :: f != key ==> Get(Get(r, "requirements"), f) == (if before.Obj? then Get(before, f) else Undefined)
  }

  /** The draft keys other than `key` as a spread of `prev` keeps them. */
  ghost predicate OtherKeysKept(d: Value, r: Value, key: string) {
    forall k :: k != key ==> Get(r, k) == (if d.Obj? then Get(d, k) else Undefined)
  }

  /** `handleAddStallPrice()`: a missing list, or a missing `requirements`
      object, starts empty. */
  function AddStallPrice(d: Value): (r: Value)
    requires Truthy(StallPrices(d)) ==> StallPrices(d).Arr?
    ensures StallPrices(r).Arr?
    ensures |StallPrices(r).items| == |ListOf(StallPrices(d))| + 1
    ensures StallPrices(r).items[..|ListOf(StallPrices(d))|] == ListOf(StallPrices(d))
    ensures StallPrices(r).items[|ListOf(StallPrices(d))|] == BlankStallPrice
    ensures OtherRequirementsKept(d, r, "stallsPrices") && OtherKeysKept(d, r, "requirements")
  {
    var req := Get(d, "requirements");
    var list := ListOf(Get(req, "stallsPrices"));
    assert (list + [BlankStallPrice])[..|list|] == list;
    With(d, "requirements", With(req, "stallsPrices", Arr(list + [BlankStallPrice])))
  }

  /** `handleRemoveStallPrice(index)`: the list is filtered without a
      default, so it must exist. */
  function RemoveStallPrice(d: Value, index: int): (r: Value)
    requires !Nullish(Get(d, "requirements")) && StallPrices(d).Arr?
    ensures StallPrices(r) == Arr(RemoveAt(StallPrices(d).items, index))
    ensures OtherRequirementsKept(d, r, "stallsPrices") && OtherKeysKept(d, r, "requirements")
  {
    var req := Get(d, "requirements");
    With(d, "requirements", With(req, "stallsPrices", Arr(RemoveAt(Get(req, "stallsPrices").items, index))))
  }

  /** Removing the stall price just added gives back the list as it was. */
  lemma AddThenRemoveLastStallPrice(d: Value)
    requires !Nullish(Get(d, "requirements")) && StallPrices(d).Arr?
    ensures StallPrices(RemoveStallPrice(AddStallPrice(d), |StallPrices(d).items|)) == StallPrices(d)
  {
    var items := StallPrices(d).items;
    assert StallPrices(AddStallPrice(d)).items == items + [BlankStallPrice];
    assert (items + [BlankStallPrice])[..|items|] == items;
  }

  /** `handleStallPriceChange(index, field, value)`: copy the list, then
      assign at `index` a copy of the entry there with `field` set. An index
      past the end grows the list; the gap reads as `undefined`. */
  method ChangeStallPrice(d: Value, index: nat, field: string, value: string) returns (r: Value)
    requires !Nullish(Get(d, "requirements")) && StallPrices(d).Arr?
    ensures StallPrices(r).Arr?
    ensures var before := StallPrices(d).items; var after := StallPrices(r).items;
      |after| == (if index < |before| then |before| else index + 1)
      && (forall i :: 0 <= i < |before| && i != index ==> after[i] == before[i])
      && (forall i :: |before| <= i < |after| && i != index ==> after[i] == Undefined)
    ensures var before := StallPrices(d).items; var after := StallPrices(r).items;
      var old_ := if index < |before| then before[index] else Undefined;
      Get(after[index], field) == Str(value)
      && forall f :: f != field ==> Get(after[index], f) == (if old_.Obj? then Get(old_, f) else Undefined)
    ensures OtherRequirementsKept(d, r, "stallsPrices") && OtherKeysKept(d, r, "requirements")
  {
    var req := Get(d, "requirements");
    var list := Get(req, "stallsPrices").items;
    var size := if index < |list| then |list| else index + 1;
    var prices := new Value[size](i requires 0 <= i < size => if i < |list| then list[i] else Undefined);
    prices[index] := With(prices[index], field, Str(value));
    r := With(d, "requirements", With(req, "stallsPrices", Arr(prices[..])));
  }

  /** `handleRequirementChange` for an input named `name`: the value goes
      under the second dotted segment, inside `requirements`. */
  function ChangeRequirement(d: Value, name: string, value: string): (r: Value)
    ensures Get(Get(r, "requirements"), SecondSegment(name)) == Str(value)
    ensures OtherRequirementsKept(d, r, SecondSegment(name)) && OtherKeysKept(d, r, "requirements")
  {
    With(d, "requirements", With(Get(d, "requirements"), SecondSegment(name), Str(value)))
  }

  /** `handlePostEventChange` for an input named `name`, inside
      `postEventFollowUp`. */
  function ChangePostEvent(d: Value, name: string, value: string): (r: Value)
    ensures Get(Get(r, "postEventFollowUp"), SecondSegment(name)) == Str(value)
    ensures var before := Get(d, "postEventFollowUp");
      forall f :: f != SecondSegment(name) ==>
        Get(Get(r, "postEventFollowUp"), f) == (if before.Obj? then Get(before, f) else Undefined)
    ensures OtherKeysKept(d, r, "postEventFollowUp")
  {
    With(d, "postEventFollowUp", With(Get(d, "postEventFollowUp"), SecondSegment(name), Str(value)))
  }

  /** The step's own collapsible sections. */
  class Sections {
    var openSections: map<string, bool>

    constructor()
      ensures openSections == map["requirements" := true, "postEvent" := true]
    {
      openSections := map["requirements" := true, "postEvent" := true];
    }

    /** `toggleSection(section)` */
    method ToggleSection(section: string)
      modifies this
      ensures openSections == Toggled(old(openSections), section)
    {
      openSections := openSections[section := !IsOpen(openSections, section)];
    }
  }
}
