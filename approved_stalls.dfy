/** The analytics page's "Approved Stalls" card: the stalls whose titles
    the stalls page stored as approved. It carries its own copy of the
    stall list, equal to the stalls page's. */
module ApprovedStalls {
  import opened Optional
  import opened Stalls

  /** What the card renders: nothing before mount or while no title is
      stored, otherwise the listed stalls in list order. The emptiness
      test is on the stored titles, not on the stalls found for them. */
  function Card(mounted: bool, approved: seq<string>): (r: Option<seq<Stall>>)
    ensures r.None? <==> !mounted || approved == []
    ensures r.Some? ==> forall s :: s in r.value <==> s in StallsData && s.title in approved
  {
    if !mounted || approved == [] then None else Some(Select(StallsData, approved, true))
  }

  /** Titles that name no stall still show the card, empty. */
  lemma UnknownTitlesShowEmptyCard(approved: seq<string>)
    requires approved != []
    requires forall s :: s in StallsData ==> s.title !in approved
    ensures Card(true, approved) == Some([])
  {
    SelectNoneListed(StallsData, approved);
  }

  /** The card depends only on which titles are stored. */
  lemma CardIgnoresOrder(a: seq<string>, b: seq<string>)
    requires a != [] && b != []
    requires forall t :: t in a <==> t in b
    ensures Card(true, a) == Card(true, b)
  {
    SelectSameTitles(StallsData, a, b, true);
  }

  /** The stalls on the card and the stalls on the stalls page's grid
      together are the whole list, each stall once. */
  lemma CardAndGridSplitStalls(approved: seq<string>)
    requires approved != []
    ensures multiset(Card(true, approved).value) + multiset(Select(StallsData, approved, false)) == multiset(StallsData)
  {
    SelectSplits(StallsData, approved);
  }

  class ApprovedStallsSection {
    var approvedStalls: seq<string>
    var mounted: bool

    constructor()
      ensures approvedStalls == [] && !mounted
    {
      approvedStalls := [];
      mounted := false;
    }

    /** The mount effect: mounted, and a parsed entry replaces the list;
        a missing or unparseable one leaves it empty. */
    method MountEffect(stored: Stored)
      modifies this
      ensures mounted
      ensures approvedStalls == (if stored.Parsed? then stored.titles else old(approvedStalls))
    {
      mounted := true;
      if stored.Parsed? {
        approvedStalls := stored.titles;
      }
    }

    function Rendered(): (r: Option<seq<Stall>>)
      reads this
      ensures r == Card(mounted, approvedStalls)
    {
      Card(mounted, approvedStalls)
    }
  }

  /** Mounting with an unparseable entry renders nothing. */
  method MountUnparseable() returns (section: ApprovedStallsSection)
    ensures section.mounted && section.Rendered() == None
  {
    section := new ApprovedStallsSection();
    section.MountEffect(Unparseable);
  }
}
