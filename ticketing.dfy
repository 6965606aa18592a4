/** The ticketing step of the wizard: its own dotted-path setter, which
    copies only the top level of the draft and writes into the nested
    objects it shares with the previous draft, and the handlers for the
    audience checkboxes, the offers switch, the ticket type, the add-ons
    and the two-thumb age slider. */
module TicketingForm {
  import opened Text
  import opened Values

  // ---------------------------------------------------------------------
  // Mutable objects, for the setter that writes in place.

  /** A property of a mutable object: a plain value, or a reference to
      another mutable object. */
  datatype Slot = Prim(v: Value) | Ref(obj: JsObject)

  predicate SlotTruthy(s: Slot) {
    s.Ref? || Truthy(s.v)
  }

  /** Reading a property; a missing one is `undefined`. */
  function SlotOf(props: map<string, Slot>, k: string): Slot {
    if k in props then props[k] else Prim(Undefined)
  }

  class JsObject {
    var props: map<string, Slot>

    /** `{}` */
    constructor Empty()
      ensures props == map[]
    {
      props := map[];
    }

    /** `{ ...o }`: a new object holding the same properties, and so the
        same references, as `o`. */
    constructor CopyOf(m: map<string, Slot>)
      ensures props == m
    {
      props := m;
    }
  }

  /** Every reference held by an object of `objs` points into `objs`. */
  ghost predicate Closed(objs: set<JsObject>)
    reads objs
  {
    forall o, k :: o in objs && k in o.props && o.props[k].Ref? ==> o.props[k].obj in objs
  }

  /** The slots met when following `path` from an object whose properties
      are `props`, through the objects of `objs` as they are: one slot per
      segment, ending early at the first slot that is not a reference. */
  ghost function Along(props: map<string, Slot>, path: seq<string>, objs: set<JsObject>): (r: seq<Slot>)
    requires Closed(objs)
    requires forall k :: k in props && props[k].Ref? ==> props[k].obj in objs
    reads objs
    ensures |r| <= |path| && (|path| > 0 ==> |r| > 0)
    ensures forall i :: 0 <= i < |r| && r[i].Ref? ==> r[i].obj in objs
    ensures forall i :: 0 <= i < |r| - 1 ==> r[i].Ref?
    ensures |r| < |path| ==> !r[|r| - 1].Ref?
    decreases |path|
  {
    if path == [] then []
    else
      var s := SlotOf(props, path[0]);
      if s.Ref? then [s] + Along(s.obj.props, path[1..], objs) else [s]
  }

  /** Each slot `Along` meets is the property of the object the previous
      slot refers to. */
  lemma {:induction false} AlongSteps(props: map<string, Slot>, path: seq<string>, objs: set<JsObject>)
    requires Closed(objs)
    requires forall k :: k in props && props[k].Ref? ==> props[k].obj in objs
    ensures var r := Along(props, path, objs);
      (|r| > 0 ==> r[0] == SlotOf(props, path[0]))
      && forall i :: 0 < i < |r| ==> r[i] == SlotOf(r[i - 1].obj.props, path[i])
    decreases |path|
  {
    if path != [] {
      var s := SlotOf(props, path[0]);
      if s.Ref? {
        AlongSteps(s.obj.props, path[1..], objs);
        var r := Along(props, path, objs);
        var rest := Along(s.obj.props, path[1..], objs);
        assert r == [s] + rest;
        forall i | 0 < i < |r|
          ensures r[i] == SlotOf(r[i - 1].obj.props, path[i])
        {
          assert r[i] == rest[i - 1];
        }
      }
    }
  }

  /** No slot met is a truthy primitive, whose properties cannot be
      assigned. */
  predicate NoTruthyPrimitive(r: seq<Slot>) {
    forall i :: 0 <= i < |r| ==> r[i].Ref? || !Truthy(r[i].v)
  }

  /** The number of references at the head of `r`. */
  function RefPrefix(r: seq<Slot>): (w: nat)
    ensures w <= |r|
    ensures w < |r| ==> !r[w].Ref?
  {
    if |r| > 0 && !r[|r| - 1].Ref? then |r| - 1 else |r|
  }

  /** `made` is a chain of new objects along `path`: each holds only the
      reference to the next, and the last holds only `value`. */
  ghost predicate Chain(made: seq<JsObject>, path: seq<string>, value: Value)
    reads made
  {
    |made| == |path| > 0
    && (forall j :: 0 <= j < |path| - 1 ==> made[j].props == map[path[j] := Ref(made[j + 1])])
    && made[|path| - 1].props == map[path[|path| - 1] := Prim(value)]
  }

  /** The ticketing form's `handleInputChange(name, value)` update: copy the
      top level of the draft, walk the dotted path replacing each falsy
      property by a new `{}`, and assign `value` to the last segment of the
      object reached. Let `r` be the slots the walk meets in the heap as it
      was, and `w` the number of references at its head.
      - A truthy primitive on the way makes a later property assignment
        throw a `TypeError` (the module is strict). `ok` is false exactly
        then, and nothing has been written: no object is changed before
        the walk leaves the existing objects.
      - Otherwise `visited` lists the existing objects the walk passes
        through, from `next` on: the first `w` steps follow the references
        the objects held, so a shared nested object is written in place.
        If the path is longer, `made` is the chain of new `{}` objects that
        hangs from `visited[w]` and ends at `target`.
      - Exactly one existing object changes: `visited[w]`, which gets
        `value` or the first new object. Every other object of `objs`,
        `prev` included, keeps its properties.
      `objs` is the heap the draft lives in. */
  method SetDotted(prev: JsObject, name: string, value: Value, ghost objs: set<JsObject>)
      returns (parts: seq<string>, next: JsObject, target: JsObject, ok: bool,
               ghost r: seq<Slot>, ghost visited: seq<JsObject>, ghost made: seq<JsObject>)
    requires prev in objs && Closed(objs)
    modifies objs
    ensures parts == Split(name, '.')
    ensures r == old(Along(prev.props, parts[..|parts| - 1], objs))
    ensures fresh(next)
    ensures ok <==> NoTruthyPrimitive(r)
    ensures !ok ==> next.props == old(prev.props) && forall o :: o in objs ==> o.props == old(o.props)
    ensures var w := RefPrefix(r);
      ok ==> |visited| == w + 1 && visited[0] == next
             && forall k :: 0 < k <= w ==> r[k - 1].Ref? && visited[k] == r[k - 1].obj
    ensures ok ==> forall o :: o in objs && o != visited[|visited| - 1] ==> o.props == old(o.props)
    ensures ok && 0 < RefPrefix(r) ==> next.props == old(prev.props)
    ensures var w := RefPrefix(r);
      ok && w == |parts| - 1 ==>
        made == [] && target == visited[w]
        && target.props == (if w == 0 then old(prev.props) else old(target.props))[parts[w] := Prim(value)]
    ensures var w := RefPrefix(r);
      ok && w < |parts| - 1 ==>
        (forall j :: 0 <= j < |made| ==> fresh(made[j]))
        && Chain(made, parts[w + 1..], value) && target == made[|made| - 1]
        && visited[w].props == (if w == 0 then old(prev.props) else old(visited[w].props))[parts[w] := Ref(made[0])]
  {
    parts := Split(name, '.');
    r := Along(prev.props, parts[..|parts| - 1], objs);
    next := new JsObject.CopyOf(prev.props);
    var current, i;
    current, i, visited := Walk(next, parts[..|parts| - 1], objs);
    if i < |parts| - 1 && Truthy(SlotOf(current.props, parts[i]).v) {
      assert i == RefPrefix(r) && SlotOf(current.props, parts[i]) == r[i];
      ok := false;
      target := current;
      made := [];
      return;
    }
    assert i < |parts| - 1 ==> forall k :: 0 <= k < |r| ==> r[k].Ref? || k == i;
    assert i == |parts| - 1 ==> |r| == i;
    target, made := Place(current, parts[i], parts[i + 1..], value);
    ok := true;
  }

  /** A name of two segments whose first names an object, as the form's
      one dotted name "addOns.giftHampersDescription" does once `addOns` is
      set: the value is written into that object, which the previous draft
      shares, and every other object keeps its properties. */
  method TwoSegmentsInPlace(prev: JsObject, name: string, value: Value, ghost objs: set<JsObject>)
      returns (next: JsObject)
    requires prev in objs && Closed(objs)
    requires |Split(name, '.')| == 2 && SlotOf(prev.props, Split(name, '.')[0]).Ref?
    modifies objs
    ensures var parts := Split(name, '.'); var shared := SlotOf(old(prev.props), parts[0]).obj;
      shared.props == old(shared.props)[parts[1] := Prim(value)]
      && SlotOf(next.props, parts[0]) == Ref(shared)
      && forall o :: o in objs && o != shared ==> o.props == old(o.props)
  {
    AlongOneReference(prev.props, Split(name, '.')[0], objs);
    var parts, target, ok;
    ghost var r, visited, made;
    parts, next, target, ok, r, visited, made := SetDotted(prev, name, value, objs);
    assert parts[..1] == [parts[0]];
    assert r == [SlotOf(old(prev.props), parts[0])] && RefPrefix(r) == 1 && NoTruthyPrimitive(r);
  }

  /** The form's dotted name has two segments. */
  lemma HamperNameSegments()
    ensures Split("addOns.giftHampersDescription", '.') == ["addOns", "giftHampersDescription"]
  {
    var segments := ["addOns", "giftHampersDescription"];
    assert Join(segments, ".") == "addOns.giftHampersDescription";
    JoinSplit(segments, '.');
  }

  lemma AlongOneReference(props: map<string, Slot>, key: string, objs: set<JsObject>)
    requires Closed(objs)
    requires forall k :: k in props && props[k].Ref? ==> props[k].obj in objs
    requires SlotOf(props, key).Ref?
    ensures Along(props, [key], objs) == [SlotOf(props, key)]
  {
    assert Along(SlotOf(props, key).obj.props, [key][1..], objs) == [];
  }

  /** The end of the walk at `holder`, whose property `key` is not a
      reference: with no segment left, `value` is assigned to it; otherwise
      it is falsy and the rest of the path hangs from it as new objects. */
  method Place(holder: JsObject, key: string, rest: seq<string>, value: Value)
      returns (last: JsObject, ghost made: seq<JsObject>)
    modifies holder
    ensures rest == [] ==> made == [] && last == holder && holder.props == old(holder.props)[key := Prim(value)]
    ensures rest != [] ==>
      (forall j :: 0 <= j < |made| ==> fresh(made[j])) && Chain(made, rest, value)
      && last == made[|made| - 1] && holder.props == old(holder.props)[key := Ref(made[0])]
  {
    if rest == [] {
      holder.props := holder.props[key := Prim(value)];
      last := holder;
      made := [];
    } else {
      last, made := Attach(holder, key, rest, value);
    }
  }

  /** The first part of the walk: from `start`, follow `path` for as long
      as the properties met are references. It only reads; it stops at the
      end of the path or at the first property that is not a reference,
      whose index `i` is the number of references at the head of the slots
      `Along` meets. */
  method Walk(start: JsObject, path: seq<string>, ghost objs: set<JsObject>)
      returns (current: JsObject, i: nat, ghost visited: seq<JsObject>)
    requires Closed(objs)
    requires forall k :: k in start.props && start.props[k].Ref? ==> start.props[k].obj in objs
    ensures var r := Along(start.props, path, objs);
      i == RefPrefix(r) && (i < |path| ==> SlotOf(current.props, path[i]) == r[i])
    ensures |visited| == i + 1 && visited[0] == start && visited[i] == current
    ensures var r := Along(start.props, path, objs);
      forall k :: 0 < k <= i ==> r[k - 1].Ref? && visited[k] == r[k - 1].obj
    ensures current == start || current in objs
  {
    ghost var r := Along(start.props, path, objs);
    ghost var w := RefPrefix(r);
    AlongSteps(start.props, path, objs);
    current := start;
    visited := [start];
    i := 0;
    while i < |path| && SlotOf(current.props, path[i]).Ref?
      invariant 0 <= i <= w
      invariant |visited| == i + 1 && visited[0] == start && visited[i] == current
      invariant forall k :: 0 < k <= i ==> r[k - 1].Ref? && visited[k] == r[k - 1].obj
      invariant current == start || current in objs
    {
      current := SlotOf(current.props, path[i]).obj;
      visited := visited + [current];
      i := i + 1;
    }
  }

  /** The rest of the walk once it has met a falsy property `key` of
      `holder`: it becomes a new `{}`, and so does every later property
      met, since the new objects have none; `value` is assigned in the last
      one. */
  method Attach(holder: JsObject, key: string, path: seq<string>, value: Value)
      returns (last: JsObject, ghost made: seq<JsObject>)
    requires |path| > 0
    modifies holder
    ensures (forall j :: 0 <= j < |made| ==> fresh(made[j])) && Chain(made, path, value)
    ensures last == made[|made| - 1]
    ensures holder.props == old(holder.props)[key := Ref(made[0])]
  {
    var first := new JsObject.Empty();
    holder.props := holder.props[key := Ref(first)];
    last, made := Hang(first, path[..|path| - 1]);
    last.props := last.props[path[|path| - 1] := Prim(value)];
  }

  /** The rest of the walk once it has reached a new `{}` `o`: every
      property met is missing, hence falsy, so each is set to a new `{}` in
      turn. `chain` lists the objects from `o` to `last`. */
  method Hang(o: JsObject, path: seq<string>) returns (last: JsObject, ghost chain: seq<JsObject>)
    requires o.props == map[]
    modifies o
    ensures |chain| == |path| + 1 && chain[0] == o && chain[|path|] == last
    ensures forall k :: 0 < k <= |path| ==> fresh(chain[k])
    ensures forall k :: 0 <= k < |path| ==> chain[k].props == map[path[k] := Ref(chain[k + 1])]
    ensures forall k :: 0 <= k < |path| ==> chain[k] != last
    ensures last.props == map[]
  {
    last := o;
    chain := [o];
    var i := 0;
    while i < |path|
      invariant 0 <= i <= |path|
      invariant |chain| == i + 1 && chain[0] == o && chain[i] == last
      invariant forall k :: 0 < k <= i ==> fresh(chain[k])
      invariant forall k :: 0 <= k < i ==> chain[k].props == map[path[k] := Ref(chain[k + 1])]
      invariant forall k :: 0 <= k < i ==> chain[k] != last
      invariant last.props == map[]
    {
      var child := new JsObject.Empty();
      last.props := last.props[path[i] := Ref(child)];
      chain := chain + [child];
      last := child;
      i := i + 1;
    }
  }

  // ---------------------------------------------------------------------
  // The draft-level handlers, each a `setFormData(prev => ...)` update.

  /** `handleAudienceSelection(audience)`: flip one target-audience flag.
      Reading the flag of a missing `targetAudience` would throw. */
  function SelectAudience(d: Value, audience: string): (r: Value)
    requires !Nullish(Get(d, "targetAudience"))
    ensures forall k :: k != "targetAudience" ==> Get(r, k) == (if d.Obj? then Get(d, k) else Undefined)
    ensures Get(Get(r, "targetAudience"), audience) == Bool(!Truthy(Get(Get(d, "targetAudience"), audience)))
    ensures var before := Get(d, "targetAudience");
      forall a :: a != audience ==> Get(Get(r, "targetAudience"), a) == (if before.Obj? then Get(before, a) else Undefined)
  {
    var audiences := Get(d, "targetAudience");
    With(d, "targetAudience", With(audiences, audience, Bool(!Truthy(Get(audiences, audience)))))
  }

  /** Selecting the same audience twice restores a flag that was a boolean. */
  lemma SelectAudienceTwice(d: Value, audience: string)
    requires Get(d, "targetAudience").Obj?
    requires Get(Get(d, "targetAudience"), audience).Bool?
    ensures Get(Get(SelectAudience(SelectAudience(d, audience), audience), "targetAudience"), audience)
            == Get(Get(d, "targetAudience"), audience)
  {
    var once := SelectAudience(d, audience);
    assert Get(Get(once, "targetAudience"), audience) == Bool(!Get(Get(d, "targetAudience"), audience).b);
  }

  /** The fields the offers switch clears when it turns offers off. */
  const OfferFields: set<string> := {"ticketName", "ticketQuantity", "discountType", "discountAmount", "discountCode"}

  /** `handleEnableOffersToggle()` */
  function ToggleOffers(d: Value): (r: Value)
    ensures Get(r, "enableOffers") == Bool(!Truthy(Get(d, "enableOffers")))
    ensures Truthy(Get(d, "enableOffers")) ==> forall k :: k in OfferFields ==> Get(r, k) == Str("")
    ensures forall k :: k != "enableOffers" && (k !in OfferFields || !Truthy(Get(d, "enableOffers"))) ==>
              Get(r, k) == (if d.Obj? then Get(d, k) else Undefined)
  {
    var on := Truthy(Get(d, "enableOffers"));
    var fields := Spread(d)["enableOffers" := Bool(!on)];
    if on then
      Obj(fields["ticketName" := Str("")]["ticketQuantity" := Str("")]["discountType" := Str("")]
                ["discountAmount" := Str("")]["discountCode" := Str("")])
    else Obj(fields)
  }

  /** The one audience category a free event is reset to. */
  const EmptyAudienceCategory: Value :=
    Obj(map["category" := Str(""), "price" := Str(""), "description" := Str("")])

  /** `handleTicketTypeChange(type)` */
  function ChangeTicketType(d: Value, ticketType: string): (r: Value)
    ensures Get(r, "ticketType") == Str(ticketType)
    ensures ticketType == "free" ==>
              Get(r, "audienceCategory") == Arr([EmptyAudienceCategory]) && Get(r, "refundPolicy") == Str("")
    ensures forall k :: k != "ticketType" && (ticketType != "free" || k !in {"audienceCategory", "refundPolicy"}) ==>
              Get(r, k) == (if d.Obj? then Get(d, k) else Undefined)
  {
    var fields := Spread(d)["ticketType" := Str(ticketType)];
    if ticketType == "free" then
      Obj(fields["audienceCategory" := Arr([EmptyAudienceCategory])]["refundPolicy" := Str("")])
    else Obj(fields)
  }

  /** `handleAddOnChange({ name, checked })` */
  function ChangeAddOn(d: Value, name: string, checked: bool): (r: Value)
    ensures Get(Get(r, "addOns"), SecondSegment(name)) == Bool(checked)
    ensures var before := Get(d, "addOns");
      forall a :: a != SecondSegment(name) ==> Get(Get(r, "addOns"), a) == (if before.Obj? then Get(before, a) else Undefined)
    ensures forall k :: k != "addOns" ==> Get(r, k) == (if d.Obj? then Get(d, k) else Undefined)
  {
    With(d, "addOns", With(Get(d, "addOns"), SecondSegment(name), Bool(checked)))
  }

  /** The audience categories the form lists: a missing list shows as one
      empty category. */
  function ShownAudienceCategories(d: Value): (r: Value)
    ensures !Truthy(Get(d, "audienceCategory")) ==> r == Arr([EmptyAudienceCategory])
    ensures Truthy(Get(d, "audienceCategory")) ==> r == Get(d, "audienceCategory")
  {
    var cats := Get(d, "audienceCategory");
    if Truthy(cats) then cats else Arr([EmptyAudienceCategory])
  }

  // ---------------------------------------------------------------------
  // The two-thumb slider.

  /** `clamp(v, lo, hi)` */
  function Clamp(v: int, lo: int, hi: int): (r: int)
    ensures lo <= hi ==> lo <= r <= hi
    ensures lo > hi ==> r == lo
    ensures lo <= v <= hi ==> r == v
  {
    var m := if v < hi then v else hi;
    if lo > m then lo else m
  }

  /** The least distance the two thumbs keep. */
  const MinGap: int := 10

  datatype Range = Range(lo: int, hi: int)

  /** Dragging the lower thumb to `value`. */
  function DragMin(value: int, min: int, current: Range): (r: Range)
    ensures r.hi == current.hi
    ensures min <= current.hi - MinGap ==> min <= r.lo <= current.hi - MinGap
    ensures min > current.hi - MinGap ==> r.lo == min
  {
    Range(Clamp(value, min, current.hi - MinGap), current.hi)
  }

  /** Dragging the upper thumb to `value`. */
  function DragMax(value: int, max: int, current: Range): (r: Range)
    ensures r.lo == current.lo
    ensures current.lo + MinGap <= max ==> current.lo + MinGap <= r.hi <= max
    ensures current.lo + MinGap > max ==> r.hi == current.lo + MinGap
  {
    Range(current.lo, Clamp(value, current.lo + MinGap, max))
  }

  /** A drag keeps the thumbs at least `MinGap` apart when the track is
      wide enough for it. */
  lemma DragKeepsGap(value: int, min: int, max: int, current: Range)
    requires min <= current.lo && current.hi <= max && current.lo + MinGap <= current.hi
    ensures DragMin(value, min, current).lo + MinGap <= DragMin(value, min, current).hi
    ensures DragMax(value, max, current).lo + MinGap <= DragMax(value, max, current).hi
    ensures min <= DragMin(value, min, current).lo && DragMax(value, max, current).hi <= max
  {
  }
}
