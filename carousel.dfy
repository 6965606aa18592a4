/** The artist-requests carousel: a ring of request cards around an active
    one, moved left or right by the arrows, by a swipe or by a click on a
    side card, and the draft event its "Host the Event" button hands to the
    event wizard. */
module Carousel {
  import opened Optional
  import opened Values
  import opened EventWizard

  datatype Request = Request(title: string, interest: nat, tag: string, image: string,
                             month: string, location: string, about: string)

  /** `requests` */
  const Requests: seq<Request> := [
    Request("Art and Music Collaboration at beach", 110, "Fest and Gathering", "/party.svg", "June", "Novotel",
            "Get ready for an electrifying night filled with powerful performances and soul-stirring melodies. From heart-thumping beats to soothing harmonies, this concert promises a musical journey like no other."),
    Request("Beach Music Night", 220, "Popular", "/party.svg", "July", "Beach Arena",
            "An open-air music celebration featuring live bands and DJs."),
    Request("Art Expo 2025", 90, "Trending", "/party.svg", "August", "Vizag",
            "A creative gathering of artists and performers from across the country.")
  ]

  /** `totalCards` */
  const TotalCards: nat := |Requests|

  datatype Direction = Left | Right

  // ---------------------------------------------------------------------
  // Positions on the ring.

  /** `getPosition(index)`: the offset of card `index` from the active card,
      taken the short way round the ring of `total` cards. The comparisons
      with `total / 2` are on halves, so they are doubled here. */
  function Position(index: int, active: int, total: nat): (diff: int)
    requires 0 <= index < total && 0 <= active < total
    ensures -(total as int) <= 2 * diff <= total
    ensures diff == index - active || diff == index - active - total || diff == index - active + total
    ensures index == active ==> diff == 0
  {
    var d := index - active;
    var d' := if 2 * d > total then d - total else d;
    if 2 * d' < -(total as int) then d' + total else d'
  }

  /** The card `diff` places from the active one is card `index`. */
  lemma PositionLocatesCard(index: int, active: int, total: nat)
    requires 0 <= index < total && 0 <= active < total
    ensures (active + Position(index, active, total)) % total == index
  {
    var p := Position(index, active, total);
    if p == index - active - total {
      assert active + p == index - total;
    } else if p == index - active + total {
      assert active + p == index + total;
    }
  }

  /** The active card moved right: `(prev + 1) % totalCards`. */
  function NextIndex(active: int, total: nat): (r: int)
    requires 0 <= active < total
    ensures 0 <= r < total
    ensures r == (if active == total - 1 then 0 else active + 1)
  {
    (active + 1) % total
  }

  /** The active card moved left: `(prev - 1 + totalCards) % totalCards`. */
  function PrevIndex(active: int, total: nat): (r: int)
    requires 0 <= active < total
    ensures 0 <= r < total
    ensures r == (if active == 0 then total - 1 else active - 1)
  {
    (active - 1 + total) % total
  }

  function Step(active: int, total: nat, dir: Direction): (r: int)
    requires 0 <= active < total
    ensures 0 <= r < total
  {
    match dir
    case Right => NextIndex(active, total)
    case Left => PrevIndex(active, total)
  }

  /** Right then left, or left then right, comes back to the same card. */
  lemma RightThenLeft(active: int, total: nat)
    requires 0 <= active < total
    ensures PrevIndex(NextIndex(active, total), total) == active
    ensures NextIndex(PrevIndex(active, total), total) == active
  {
  }

  /** A swipe from `start` to `end`: only one longer than 50 pixels
      counts, towards the right when the finger moved left. */
  function Swipe(start: int, end: int): (r: Option<Direction>)
    ensures r.Some? <==> start - end > MinSwipeDistance || end - start > MinSwipeDistance
    ensures r == Some(Right) <==> start - end > MinSwipeDistance
  {
    var diff := start - end;
    if (if diff < 0 then -diff else diff) > MinSwipeDistance then
      (if diff > 0 then Some(Right) else Some(Left))
    else None
  }

  const MinSwipeDistance: int := 50

  /** The way `handleCardClick(index)` moves: towards the card's side. */
  function ClickDirection(index: int, active: int, total: nat): (dir: Direction)
    requires 0 <= index < total && 0 <= active < total
    ensures dir == Right <==> Position(index, active, total) > 0
  {
    if Position(index, active, total) > 0 then Right else Left
  }

  /** With three cards every other card sits right next to the active one,
      so one click brings it to the front. */
  lemma ClickBringsCardForward(index: int, active: int)
    requires 0 <= index < TotalCards && 0 <= active < TotalCards && index != active
    ensures Step(active, TotalCards, ClickDirection(index, active, TotalCards)) == index
  {
    assert TotalCards == 3;
  }

  /** On wide screens only the active card and its two neighbours are
      drawn. */
  predicate ShownOnDesktop(index: int, active: int, total: nat)
    requires 0 <= index < total && 0 <= active < total
  {
    -1 <= Position(index, active, total) <= 1
  }

  /** The cards drawn on wide screens are the active card and the ones
      one step away from it, whatever the number of cards. */
  lemma ShownOnDesktopIffNeighbour(index: int, active: int, total: nat)
    requires 0 <= index < total && 0 <= active < total
    ensures ShownOnDesktop(index, active, total) <==>
      index == active || index == NextIndex(active, total) || index == PrevIndex(active, total)
  {
    var p := Position(index, active, total);
    if index == NextIndex(active, total) && index != active {
      if active == total - 1 {
        assert index == 0;
      }
    }
    if index == PrevIndex(active, total) && index != active {
      if active == 0 {
        assert index == total - 1;
      }
    }
  }

  // ---------------------------------------------------------------------
  // The carousel's state.

  class RequestsCarousel {
    var activeIndex: int
    var hovered: bool
    var isAnimating: bool
    /** The move the 100 ms timer will make when it fires. */
    var pending: Option<Direction>
    var touchStartX: int
    var touchEndX: int

    ghost predicate Valid()
      reads this
    {
      0 <= activeIndex < TotalCards && (pending.Some? <==> isAnimating)
    }

    constructor()
      ensures Valid() && activeIndex == 0 && !hovered && !isAnimating && touchStartX == 0 && touchEndX == 0
    {
      activeIndex := 0;
      hovered := false;
      isAnimating := false;
      pending := None;
      touchStartX := 0;
      touchEndX := 0;
    }

    /** `navigate(direction)`: ignored while a move is under way; otherwise
        the hover is dropped and the move waits for the timer. */
    method Navigate(dir: Direction)
      requires Valid()
      modifies this`isAnimating, this`hovered, this`pending
      ensures Valid()
      ensures old(isAnimating) ==> isAnimating && hovered == old(hovered) && pending == old(pending)
      ensures !old(isAnimating) ==> isAnimating && !hovered && pending == Some(dir)
    {
      if isAnimating {
        return;
      }
      isAnimating := true;
      hovered := false;
      pending := Some(dir);
    }

    /** The timer set by `navigate` fires: the active card moves one step
        and the carousel takes input again. */
    method TimerFires()
      requires Valid() && isAnimating
      modifies this`activeIndex, this`isAnimating, this`pending
      ensures Valid() && !isAnimating
      ensures activeIndex == Step(old(activeIndex), TotalCards, old(pending).value)
    {
      activeIndex := Step(activeIndex, TotalCards, pending.value);
      isAnimating := false;
      pending := None;
    }

    /** `handleTouchStart` and `handleTouchMove` record the finger. */
    method TouchStart(x: int)
      modifies this`touchStartX
      ensures touchStartX == x
    {
      touchStartX := x;
    }

    method TouchMove(x: int)
      modifies this`touchEndX
      ensures touchEndX == x
    {
      touchEndX := x;
    }

    /** `handleTouchEnd()` */
    method TouchEnd()
      requires Valid()
      modifies this`isAnimating, this`hovered, this`pending
      ensures Valid()
      ensures Swipe(touchStartX, touchEndX).None? || old(isAnimating) ==>
        isAnimating == old(isAnimating) && hovered == old(hovered) && pending == old(pending)
      ensures Swipe(touchStartX, touchEndX).Some? && !old(isAnimating) ==>
        isAnimating && !hovered && pending == Swipe(touchStartX, touchEndX)
    {
      var dir := Swipe(touchStartX, touchEndX);
      if dir.Some? {
        Navigate(dir.value);
      }
    }

    /** `handleCardClick(index)`: nothing for the active card or while
        moving; otherwise a move towards the card. */
    method CardClick(index: int)
      requires Valid() && 0 <= index < TotalCards
      modifies this`isAnimating, this`hovered, this`pending
      ensures Valid()
      ensures index == old(activeIndex) || old(isAnimating) ==>
        isAnimating == old(isAnimating) && hovered == old(hovered) && pending == old(pending)
      ensures index != old(activeIndex) && !old(isAnimating) ==>
        isAnimating && !hovered && pending == Some(ClickDirection(index, activeIndex, TotalCards))
    {
      if index == activeIndex || isAnimating {
        return;
      }
      Navigate(ClickDirection(index, activeIndex, TotalCards));
    }
  }

  /** A click on a side card, once its move has run, makes that card the
      active one. */
  method ClickAndWait(c: RequestsCarousel, index: int)
    requires c.Valid() && !c.isAnimating && 0 <= index < TotalCards
    modifies c
    ensures c.Valid() && !c.isAnimating && c.activeIndex == index
  {
    c.CardClick(index);
    if c.isAnimating {
      ClickBringsCardForward(index, c.activeIndex);
      c.TimerFires();
    }
  }

  // ---------------------------------------------------------------------
  // Hosting a requested event.

  /** `handleHostEvent(e, item)`: the draft stored for the wizard. */
  function HostEventDraft(item: Request): (d: Value)
    ensures d.Obj?
    ensures Get(d, "eventName") == Str(item.title) && Get(d, "description") == Str(item.about)
    ensures Get(d, "venue") == Str(item.location) && Get(d, "category") == Str("Entertainment")
    ensures Get(d, "date") == Str("") && Get(d, "time") == Str("") && Get(d, "endTime") == Str("")
  {
    Obj(map[
      "eventName" := Str(item.title),
      "category" := Str("Entertainment"),
      "description" := Str(item.about),
      "venue" := Str(item.location),
      "date" := Str(""),
      "time" := Str(""),
      "endTime" := Str(""),
      "googleMapsUrl" := Str(""),
      "personnel" := Str(""),
      "tagline" := Str(""),
      "contactInfo" := Obj(map["mobile" := Str(""), "email" := Str(""), "website" := Str(""), "additionalLinks" := Str("")])
    ])
  }

  /** The wizard restoring that draft shows the request's title, story and
      place, and keeps its own defaults for every field the draft lacks. */
  lemma HostEventDraftRestored(item: Request, prev: Value)
    ensures var d := MergeDraft(prev, HostEventDraft(item));
      Get(d, "eventName") == Str(item.title) && Get(d, "description") == Str(item.about)
      && Get(d, "venue") == Str(item.location)
      && Get(d, "ticketType") == Get(prev, "ticketType")
  {
    var draft := HostEventDraft(item);
    assert "ticketType" !in Spread(draft);
    assert "eventName" in Spread(draft) && "description" in Spread(draft) && "venue" in Spread(draft);
  }
}
