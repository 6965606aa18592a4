/** The stalls page: the fixed list of stalls, the titles the organiser has
    approved (kept in the browser's store under "approvedStalls"), the grid
    of stalls still waiting for approval, and the details panel of the
    selected stall. */
module Stalls {
  import opened Optional

  datatype Stall = Stall(title: string, category: string, image: string)

  /** `STALLS_DATA` */
  const StallsData: seq<Stall> := [
    Stall("Twinkle Tales", "Accessories", "/jewelry-and-accessories-shop.jpg"),
    Stall("Taste Town", "Food", "/delicious-street-food-stall.jpg"),
    Stall("Handmade Haven", "Crafts", "/handmade-crafts-and-plushies.jpg"),
    Stall("Melody Makers", "Live Music", "/band-on-stage.png"),
    Stall("Fun Zone", "Gaming", "/colorful-board-game-or-carnival-game.jpg"),
    Stall("LEGENDS of hip-Hop", "Music", "/hip-hop-concert-poster.jpg")
  ]

  /** What reading "approvedStalls" from the store gives: nothing (no entry,
      or an empty one), text that does not parse, or a parsed list. */
  datatype Stored = Missing | Unparseable | Parsed(titles: seq<string>)

  // ---------------------------------------------------------------------
  // Filtering the fixed list by title.

  /** `stalls.filter(s => titles.includes(s.title) == approved)`, in order. */
  function Select(stalls: seq<Stall>, titles: seq<string>, approved: bool): (r: seq<Stall>)
    ensures forall s :: s in r <==> s in stalls && (s.title in titles) == approved
    ensures |r| <= |stalls|
  {
    if stalls == [] then []
    else
      var rest := Select(stalls[..|stalls| - 1], titles, approved);
      var last := stalls[|stalls| - 1];
      assert forall s :: s in stalls <==> s in stalls[..|stalls| - 1] || s == last;
      if (last.title in titles) == approved then rest + [last] else rest
  }

  /** Filtering keeps the order of the list: it distributes over
      concatenation. */
  lemma {:induction false} SelectAppend(a: seq<Stall>, b: seq<Stall>, titles: seq<string>, approved: bool)
    ensures Select(a + b, titles, approved) == Select(a, titles, approved) + Select(b, titles, approved)
    decreases |b|
  {
    if b == [] {
      assert a + b == a;
    } else {
      var b' := b[..|b| - 1];
      assert (a + b)[..|a + b| - 1] == a + b';
      SelectAppend(a, b', titles, approved);
    }
  }

  /** Only which titles are listed matters, not their order or how often
      they appear. */
  lemma {:induction false} SelectSameTitles(stalls: seq<Stall>, t1: seq<string>, t2: seq<string>, approved: bool)
    requires forall t :: t in t1 <==> t in t2
    ensures Select(stalls, t1, approved) == Select(stalls, t2, approved)
    decreases |stalls|
  {
    if stalls != [] {
      SelectSameTitles(stalls[..|stalls| - 1], t1, t2, approved);
    }
  }

  /** With no listed title, no stall is approved. */
  lemma {:induction false} SelectNoneListed(stalls: seq<Stall>, titles: seq<string>)
    requires forall s :: s in stalls ==> s.title !in titles
    ensures Select(stalls, titles, true) == []
    decreases |stalls|
  {
    if stalls != [] {
      var init := stalls[..|stalls| - 1];
      assert forall s :: s in init ==> s in stalls;
      SelectNoneListed(init, titles);
      assert stalls[|stalls| - 1] in stalls;
    }
  }

  /** Every stall is either approved or waiting, never both. */
  lemma {:induction false} SelectSplits(stalls: seq<Stall>, titles: seq<string>)
    ensures multiset(Select(stalls, titles, true)) + multiset(Select(stalls, titles, false)) == multiset(stalls)
    decreases |stalls|
  {
    if stalls != [] {
      var init := stalls[..|stalls| - 1];
      SelectSplits(init, titles);
      assert stalls == init + [stalls[|stalls| - 1]];
    }
  }

  // ---------------------------------------------------------------------
  // The approved titles.

  predicate Distinct(s: seq<string>) {
    forall i, j :: 0 <= i < j < |s| ==> s[i] != s[j]
  }

  /** `handleApprove(title)`'s new list: the title is appended only when
      it is not there yet. */
  function Approved(list: seq<string>, title: string): (r: seq<string>)
    ensures title in r
    ensures forall t :: t in r <==> t in list || t == title
    ensures Distinct(list) ==> Distinct(r)
    ensures title in list ==> r == list
    ensures title !in list ==> r == list + [title]
  {
    if title in list then list else list + [title]
  }

  /** `handleRevoke(title)`'s new list: every occurrence goes. */
  function Revoked(list: seq<string>, title: string): (r: seq<string>)
    ensures title !in r
    ensures forall t :: t != title ==> (t in r <==> t in list)
    ensures title !in list ==> r == list
    ensures |r| <= |list|
    ensures multiset(r) == multiset(list)[title := 0]
  {
    if list == [] then []
    else
      var rest := Revoked(list[..|list| - 1], title);
      var last := list[|list| - 1];
      assert forall t :: t in list <==> t in list[..|list| - 1] || t == last;
      assert list == list[..|list| - 1] + [last];
      if last == title then rest else rest + [last]
  }

  /** Approving twice is approving once. */
  lemma ApproveTwice(list: seq<string>, title: string)
    ensures Approved(Approved(list, title), title) == Approved(list, title)
  {
  }

  /** Revoking a title just approved gives back the list as it was. */
  lemma RevokeUndoesApprove(list: seq<string>, title: string)
    requires title !in list
    ensures Revoked(Approved(list, title), title) == list
  {
    var added := list + [title];
    assert added[..|added| - 1] == list;
  }

  /** Revoking keeps a list without repeats free of repeats. */
  lemma {:induction false} RevokeKeepsDistinct(list: seq<string>, title: string)
    requires Distinct(list)
    ensures Distinct(Revoked(list, title))
    decreases |list|
  {
    if list != [] {
      var init := list[..|list| - 1];
      RevokeKeepsDistinct(init, title);
      assert list[|list| - 1] !in init;
    }
  }

  // ---------------------------------------------------------------------
  // The page.

  class StallsPage {
    var selectedStall: Option<Stall>
    var approvedStalls: seq<string>
    var isLoaded: bool
    /** The store's "approvedStalls" entry. */
    var storage: Stored

    /** The first render: nothing selected, nothing approved yet, the
        store not read. */
    constructor(stored: Stored)
      ensures selectedStall == None && approvedStalls == [] && !isLoaded && storage == stored
    {
      selectedStall := None;
      approvedStalls := [];
      isLoaded := false;
      storage := stored;
    }

    /** The loading effect: a parsed entry replaces the list; the page is
        loaded whether or not there was one. */
    method LoadEffect()
      modifies this`approvedStalls, this`isLoaded
      ensures isLoaded
      ensures approvedStalls == (if storage.Parsed? then storage.titles else old(approvedStalls))
    {
      if storage.Parsed? {
        approvedStalls := storage.titles;
      }
      isLoaded := true;
    }

    /** The saving effect: the list is written back only once loaded. */
    method SaveEffect()
      modifies this`storage
      ensures storage == (if isLoaded then Parsed(approvedStalls) else old(storage))
    {
      if isLoaded {
        storage := Parsed(approvedStalls);
      }
    }

    /** The stalls shown in the grid: those not approved yet. */
    function ShownStalls(): (r: seq<Stall>)
      reads this
      ensures forall s :: s in r <==> s in StallsData && s.title !in approvedStalls
    {
      Select(StallsData, approvedStalls, false)
    }

    /** `handleViewMore(stall)`: the selected stall's button closes the
        panel, any other stall's opens it on that stall. */
    method ViewMore(stall: Stall)
      modifies this`selectedStall
      ensures old(selectedStall).Some? && old(selectedStall).value.title == stall.title ==> selectedStall == None
      ensures !(old(selectedStall).Some? && old(selectedStall).value.title == stall.title) ==> selectedStall == Some(stall)
    {
      if selectedStall.Some? && selectedStall.value.title == stall.title {
        selectedStall := None;
      } else {
        selectedStall := Some(stall);
      }
    }

    /** `handleClose()` */
    method Close()
      modifies this`selectedStall
      ensures selectedStall == None
    {
      selectedStall := None;
    }

    /** `handleApprove(title)` */
    method Approve(title: string)
      modifies this`approvedStalls
      ensures approvedStalls == Approved(old(approvedStalls), title)
    {
      if title !in approvedStalls {
        approvedStalls := approvedStalls + [title];
      }
    }

    /** `handleRevoke(title)` */
    method Revoke(title: string)
      modifies this`approvedStalls
      ensures approvedStalls == Revoked(old(approvedStalls), title)
    {
      approvedStalls := Revoked(approvedStalls, title);
    }

    /** `handlePanelApprove()`: approves the selected stall, if any, and
        closes the panel. */
    method PanelApprove()
      modifies this`approvedStalls, this`selectedStall
      ensures old(selectedStall).Some? ==> approvedStalls == Approved(old(approvedStalls), old(selectedStall).value.title)
      ensures old(selectedStall).None? ==> approvedStalls == old(approvedStalls)
      ensures selectedStall == None
    {
      if selectedStall.Some? {
        Approve(selectedStall.value.title);
        Close();
      }
    }

    /** `handlePanelRevoke()` */
    method PanelRevoke()
      modifies this`approvedStalls, this`selectedStall
      ensures old(selectedStall).Some? ==> approvedStalls == Revoked(old(approvedStalls), old(selectedStall).value.title)
      ensures old(selectedStall).None? ==> approvedStalls == old(approvedStalls)
      ensures selectedStall == None
    {
      if selectedStall.Some? {
        Revoke(selectedStall.value.title);
        Close();
      }
    }
  }

  /** Mounting the page. Both effects run after the first render and see
      its state, so the saving effect runs before the loaded list is in
      place, and again once it is. A stored list is therefore never
      overwritten by the empty initial one. */
  method Mount(stored: Stored) returns (page: StallsPage)
    ensures page.isLoaded && page.selectedStall == None
    ensures stored.Parsed? ==> page.approvedStalls == stored.titles && page.storage == stored
    ensures !stored.Parsed? ==> page.approvedStalls == [] && page.storage == Parsed([])
  {
    page := new StallsPage(stored);
    page.SaveEffect();
    page.LoadEffect();
    page.SaveEffect();
  }
}
