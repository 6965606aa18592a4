/** How the step table of the wizard and the validator fit together: every
    key the validator can report is shown on exactly one step, and Next on
    the last step jumps back to the earliest step showing an error. */
module WizardFacts {
  import opened Text
  import opened Values
  import opened Validation
  import opened ValidationFacts
  import opened EventWizard

  // ---------------------------------------------------------------------
  // The step that shows each validator key.

  /** A key of the shape the validator reports: a fixed key, or a per-index
      key of one of the two lists. */
  predicate ReportableKey(k: string) {
    k in TopLevelKeys || StartsWith(k, AudiencePrefix) || StartsWith(k, StallsPrefix)
  }

  /** The step whose form holds the field a reportable key names:
      description and schedule on step 1, tickets and extras on step 2,
      contacts on step 3, requirements and follow-up on step 4. */
  function KeyStep(k: string): (step: nat)
    ensures 1 <= step <= 4
  {
    if k in DescriptionKeySet || k in ScheduleKeySet then 1
    else if k in TicketKeySet || k in ExtrasKeySet || StartsWith(k, AudiencePrefix) then 2
    else if k in SponsorshipKeySet then 3
    else 4
  }

  /** The first three characters of a key. */
  function Head(s: string): (char, char, char)
    requires |s| >= 3
  {
    (s[0], s[1], s[2])
  }

  /** The heads of each step's prefixes. No key of a later step has the
      head of an earlier step's prefix. */
  const StepHeads: seq<set<(char, char, char)>> := [
    {('e', 'v', 'e'), ('c', 'a', 't'), ('t', 'a', 'g'), ('d', 'e', 's'), ('p', 'e', 'r'), ('d', 'a', 't'),
     ('t', 'i', 'm'), ('e', 'n', 'd'), ('v', 'e', 'n'), ('g', 'o', 'o'), ('t', 'r', 'a'), ('e', 'n', 't')},
    {('t', 'i', 'c'), ('a', 'u', 'd'), ('r', 'e', 'f'), ('d', 'i', 's'), ('g', 'u', 'i'), ('a', 'd', 'd')},
    {('c', 'o', 'n'), ('s', 'p', 'o')},
    {('r', 'e', 'q'), ('p', 'o', 's')}
  ]

  lemma HeadsCover(i: nat, p: string)
    requires i < 4 && p in StepFields[i]
    ensures |p| >= 3 && Head(p) in StepHeads[i]
  {
  }

  lemma StartsWithHead(k: string, p: string)
    requires StartsWith(k, p) && |p| >= 3
    ensures |k| >= 3 && Head(k) == Head(p)
  {
    assert k[..|p|][0] == k[0] && k[..|p|][1] == k[1] && k[..|p|][2] == k[2];
  }

  /** A key whose head is no head of step `i + 1`'s prefixes is not shown
      there. */
  lemma NotOwnedByHead(i: nat, k: string)
    requires i < 4 && |k| >= 3 && Head(k) !in StepHeads[i]
    ensures !Owns(i, k)
  {
    if Owns(i, k) {
      var p :| p in StepFields[i] && StartsWith(k, p);
      HeadsCover(i, p);
      StartsWithHead(k, p);
    }
  }

  lemma StartsWithLonger(k: string, p: string, q: string)
    requires StartsWith(k, p) && StartsWith(p, q)
    ensures StartsWith(k, q)
  {
    assert k[..|q|] == k[..|p|][..|q|];
  }

  lemma Step1Keys(k: string)
    requires k in DescriptionKeySet || k in ScheduleKeySet
    ensures Owns(0, k)
  {
    assert k in StepFields[0] && StartsWith(k, k);
  }

  lemma Step2FixedKeys(k: string)
    requires k in TicketKeySet || k in ExtrasKeySet
    ensures Owns(1, k) && !Owns(0, k)
  {
    assert k in StepFields[1] && StartsWith(k, k);
    NotOwnedByHead(0, k);
  }

  lemma Step2ListKeys(k: string)
    requires StartsWith(k, AudiencePrefix)
    ensures Owns(1, k) && !Owns(0, k)
  {
    StartsWithLonger(k, AudiencePrefix, "audienceCategory");
    assert "audienceCategory" in StepFields[1];
    StartsWithHead(k, AudiencePrefix);
    NotOwnedByHead(0, k);
  }

  lemma Step3Keys(k: string)
    requires k in SponsorshipKeySet
    ensures Owns(2, k) && !Owns(0, k) && !Owns(1, k)
  {
    assert k in StepFields[2] && StartsWith(k, k);
    NotOwnedByHead(0, k);
    NotOwnedByHead(1, k);
  }

  lemma Step4FixedKeys(k: string)
    requires k in FinalKeySet
    ensures Owns(3, k) && !Owns(0, k) && !Owns(1, k) && !Owns(2, k)
  {
    assert k in StepFields[3] && StartsWith(k, k);
    NotOwnedByHead(0, k);
    NotOwnedByHead(1, k);
    NotOwnedByHead(2, k);
  }

  lemma Step4ListKeys(k: string)
    requires StartsWith(k, StallsPrefix)
    ensures Owns(3, k) && !Owns(0, k) && !Owns(1, k) && !Owns(2, k)
  {
    StartsWithLonger(k, StallsPrefix, "requirements.stallsPrices");
    assert "requirements.stallsPrices" in StepFields[3];
    StartsWithHead(k, StallsPrefix);
    NotOwnedByHead(0, k);
    NotOwnedByHead(1, k);
    NotOwnedByHead(2, k);
  }

  /** A reportable key is shown on step `KeyStep(k)` and on no earlier step. */
  lemma KeyStepOwns(k: string)
    requires ReportableKey(k)
    ensures Owns(KeyStep(k) - 1, k)
    ensures forall j :: 0 <= j < KeyStep(k) - 1 ==> !Owns(j, k)
  {
    PrefixesDisjoint(k);
    if k in TopLevelKeys {
      TopLevelNotListed(k);
    }
    if k in DescriptionKeySet || k in ScheduleKeySet {
      Step1Keys(k);
    } else if k in TicketKeySet || k in ExtrasKeySet {
      Step2FixedKeys(k);
    } else if StartsWith(k, AudiencePrefix) {
      Step2ListKeys(k);
    } else if k in SponsorshipKeySet {
      Step3Keys(k);
    } else if k in FinalKeySet {
      Step4FixedKeys(k);
    } else {
      Step4ListKeys(k);
    }
  }

  /** Every key the validator reports is shown on step `KeyStep(k)` and on no
      earlier step; in particular every such key has a prefix in the table. */
  lemma ErrorKeyOwned(d: EventFormData, k: string)
    requires Convertible(d) && k in Errors(d)
    ensures Owns(KeyStep(k) - 1, k)
    ensures forall j :: 0 <= j < KeyStep(k) - 1 ==> !Owns(j, k)
  {
    ErrorKeys(d, k);
    FlaggedShape(d, k);
    KeyStepOwns(k);
  }

  // ---------------------------------------------------------------------
  // The jump back.

  /** For a non-empty set of reportable keys, the jump target is the
      smallest step that shows one of them. */
  lemma JumpTargetIsEarliest(keys: set<string>)
    requires keys != {}
    requires forall k :: k in keys ==> ReportableKey(k)
    ensures exists k :: k in keys && KeyStep(k) == JumpTarget(keys)
    ensures forall k :: k in keys ==> JumpTarget(keys) <= KeyStep(k)
  {
    var t := JumpTarget(keys);
    JumpTargetIsFirstOwner(keys);
    forall k | k in keys
      ensures t <= KeyStep(k)
    {
      KeyStepOwns(k);
      assert OwnsSome(KeyStep(k) - 1, keys);
    }
    var k0 :| k0 in keys;
    KeyStepOwns(k0);
    assert OwnsSome(KeyStep(k0) - 1, keys);
    if t > 1 || OwnsSome(0, keys) {
      var w :| w in keys && Owns(t - 1, w);
      KeyStepOwns(w);
      assert KeyStep(w) == t;
    } else {
      assert false;
    }
  }

  /** Next on the last step jumps to the earliest step showing one of the
      reported errors. */
  lemma JumpToEarliestError(d: EventFormData)
    requires Convertible(d) && Errors(d) != map[]
    ensures exists k :: k in Errors(d) && KeyStep(k) == JumpTarget(Errors(d).Keys)
    ensures forall k :: k in Errors(d) ==> JumpTarget(Errors(d).Keys) <= KeyStep(k)
  {
    var keys := Errors(d).Keys;
    forall k | k in keys
      ensures ReportableKey(k)
    {
      ErrorKeys(d, k);
      FlaggedShape(d, k);
    }
    var k0 :| k0 in Errors(d);
    assert k0 in keys;
    JumpTargetIsEarliest(keys);
  }

  /** A draft whose only error is the missing thank-you note stays on the
      last step. */
  lemma ThankYouNoteOnlyStays()
    ensures JumpTarget({"postEventFollowUp.thankYouNote"}) == 4
  {
    var keys := {"postEventFollowUp.thankYouNote"};
    assert "postEventFollowUp.thankYouNote" in keys;
    assert "postEventFollowUp.thankYouNote" in TopLevelKeys;
    TopLevelNotListed("postEventFollowUp.thankYouNote");
    assert KeyStep("postEventFollowUp.thankYouNote") == 4;
    JumpTargetIsEarliest(keys);
  }

  /** A draft with no event name jumps back to the first step. */
  lemma BlankNameJumpsToStart(d: EventFormData)
    requires Convertible(d) && Blank(d.eventName)
    ensures Errors(d) != map[] && JumpTarget(Errors(d).Keys) == 1
  {
    DescriptionRules(d);
    assert "eventName" in Errors(d);
    JumpToEarliestError(d);
  }
}
