/**
 The authorization review flow over every run (kernel/commit.py, `_require_structural_proof`).
 */
module Review {
  import opened Canon
  import opened Types
  import opened Ledgers
  import opened Gate
  import opened History
  import opened Ancestry

  /** The history before position i holds a request for review of this Command. */
  predicate RequestedBefore(s: Ledger, i: nat, command: Text)
    requires WellFormed(s) && i <= |s.order|
  {
    exists k | 0 <= k < i :: IsRequestFor(At(s, k), command)
  }

  /** Position k, before i, is linked from the Act at i. */
  predicate LinksBack(s: Ledger, i: nat, k: nat)
    requires WellFormed(s) && i < |s.order|
  {
    k < i && s.order[k] in At(s, i).authChain
  }

  lemma IndexOf(s: Ledger, i: nat, h: Text) returns (k: nat)
    requires WellFormed(s) && i <= |s.order| && h in s.order[..i]
    ensures k < i && s.order[k] == h && At(s, k) == s.acts[h]
  {
    k :| 0 <= k < i && s.order[..i][k] == h;
  }

  /** A resolution at position i rests on its Command's request, on a review, and on no review whose
      payload names anything but that Command. */
  predicate RestsOnReview(s: Ledger, i: nat)
    requires WellFormed(s) && i < |s.order|
  {
    var command := At(s, i).commandHash;
    && IsResolutionOf(At(s, i), command)
    && (exists k | 0 <= k < i :: LinksBack(s, i, k) && IsRequestFor(At(s, k), command))
    && (exists k | 0 <= k < i :: LinksBack(s, i, k) && IsReview(At(s, k)))
    && (forall k | 0 <= k < i && LinksBack(s, i, k) && IsReview(At(s, k)) ::
          ReviewedCommand(s.objects, At(s, k).payloadHash) == Some(command))
  }

  lemma LawfulResolution(s: Ledger, n: nat, i: nat)
    requires Lawful(s, n) && n <= i < |s.order| && At(s, i).actType == "AuthorizationResolved"
    ensures RestsOnReview(s, i)
  {
    GroundedByPosition(s, i);
  }

  lemma GroundedByPosition(s: Ledger, i: nat)
    requires WellFormed(s) && i < |s.order| && At(s, i).actType == "AuthorizationResolved"
    requires ResolutionGrounded(s.objects, s.acts, s.order[..i], At(s, i))
    ensures RestsOnReview(s, i)
  {
    hide ReviewedCommand;
    var a, before := At(s, i), s.order[..i];
    var g :| g in before && g in a.authChain && g in s.acts && IsRequestFor(s.acts[g], a.commandHash);
    var j := IndexOf(s, i, g);
    assert LinksBack(s, i, j);
    var h :| h in before && h in a.authChain && h in s.acts && IsReview(s.acts[h]);
    var m := IndexOf(s, i, h);
    assert LinksBack(s, i, m);
    forall k | 0 <= k < i && LinksBack(s, i, k) && IsReview(At(s, k))
      ensures ReviewedCommand(s.objects, At(s, k).payloadHash) == Some(a.commandHash)
    {
      assert before[k] == s.order[k];
    }
  }

  lemma LawfulConsequence(s: Ledger, n: nat, i: nat) returns (k: nat)
    requires Lawful(s, n) && n <= i < |s.order| && !IsLifecycle(At(s, i).actType)
    requires RequestedBefore(s, i, At(s, i).commandHash)
    ensures k < i && LinksBack(s, i, k) && IsResolutionOf(At(s, k), At(s, i).commandHash)
  {
    var a, before := At(s, i), s.order[..i];
    var r :| 0 <= r < i && IsRequestFor(At(s, r), a.commandHash);
    assert before[r] == s.order[r];
    assert UnderReview(s.acts, before, a.commandHash);
    assert ReviewResolved(s.acts, before, a);
    var h :| h in before && h in a.authChain && h in s.acts && IsResolutionOf(s.acts[h], a.commandHash);
    k := IndexOf(s, i, h);
  }

  /** Over every run, every placed resolution rests on review. */
  lemma ResolutionRestsOnReview(ed: Verifier, s0: Ledger, steps: seq<Step>, i: nat)
    requires WellFormed(s0)
    ensures var s := Execute(ed, s0, steps);
            && WellFormed(s)
            && (|s0.order| <= i < |s.order| && At(s, i).actType == "AuthorizationResolved" ==> RestsOnReview(s, i))
  {
    RunLawful(ed, s0, steps, |s0.order|);
    var s := Execute(ed, s0, steps);
    if |s0.order| <= i < |s.order| && At(s, i).actType == "AuthorizationResolved" {
      LawfulResolution(s, |s0.order|, i);
    }
  }

  /** Position k, linked from the Act at i, holds a placed resolution of the same Command that itself
      rests on review. */
  predicate ResolvedBy(s: Ledger, n: nat, i: nat, k: nat)
    requires WellFormed(s) && i < |s.order|
  {
    n <= k < i && LinksBack(s, i, k) && IsResolutionOf(At(s, k), At(s, i).commandHash) && RestsOnReview(s, k)
  }

  /** Over every run, no consequence steps over a review: a placed consequential Act whose Command
      was put under review before it links an earlier resolution of that Command, and that
      resolution rests on review.  No seed may pose as a resolution of the Command. */
  lemma ReviewNotSteppedOver(ed: Verifier, s0: Ledger, steps: seq<Step>, i: nat)
    requires WellFormed(s0)
    ensures var s, n := Execute(ed, s0, steps), |s0.order|;
            && WellFormed(s)
            && (n <= i < |s.order| && !IsLifecycle(At(s, i).actType)
                && RequestedBefore(s, i, At(s, i).commandHash)
                && (forall h | h in s0.acts :: !IsResolutionOf(s0.acts[h], At(s, i).commandHash)) ==>
                  exists k :: ResolvedBy(s, n, i, k))
  {
    RunLawful(ed, s0, steps, |s0.order|);
    var s, n := Execute(ed, s0, steps), |s0.order|;
    if && n <= i < |s.order| && !IsLifecycle(At(s, i).actType)
       && RequestedBefore(s, i, At(s, i).commandHash)
       && forall h | h in s0.acts :: !IsResolutionOf(s0.acts[h], At(s, i).commandHash)
    {
      var k := LawfulConsequence(s, n, i);
      forall j | 0 <= j < n ensures At(s, j) != At(s, k) {
        assert s0.order[j] == s.order[j] && s0.order[j] in ToSet(s0.order);
      }
      LawfulResolution(s, n, k);
      assert ResolvedBy(s, n, i, k);
    }
  }

  // --- nobody reviews their own Command ---

  /** The payload at this hash, where it is stored, is stored under its own content hash. */
  predicate TrulyAddressed(objects: map<Text, Record>, payload: Text) {
    payload in objects ==>
      && objects[payload].canon.Canonical?
      && payload == ObjectHash(objects[payload].kind, objects[payload].canon.value)
  }

  /** A Command hash contains its payload hash, and a review payload contains the hash of the
      Command reviewed; content hashes being acyclic, the two Commands differ. */
  lemma ReviewOwnedElsewhere(objects: map<Text, Record>, review: Act, command: Text)
    requires CommandOnRecord(objects, review)
    requires TrulyAddressed(objects, review.payloadHash)
    requires ReviewedCommand(objects, review.payloadHash) == Some(command)
    ensures review.commandHash != command
  {
    DigestNotInside(review.commandHash, "payload_hash", review.payloadHash);
    DigestNotInside(review.payloadHash, "reviewed_command_hash", command);
  }

  /** Over every run, an earlier review that a placed resolution links belongs to another Command than
      the one resolved, when its payload is stored under its true hash.  A review placed by the gate
      has its Command on record; a seeded one must. */
  lemma NoCommandReviewsItself(ed: Verifier, s0: Ledger, steps: seq<Step>, i: nat, k: nat)
    requires WellFormed(s0)
    ensures var s, n := Execute(ed, s0, steps), |s0.order|;
            && WellFormed(s)
            && (n <= i < |s.order| && k < i && At(s, i).actType == "AuthorizationResolved"
                && LinksBack(s, i, k) && IsReview(At(s, k))
                && (n <= k || CommandOnRecord(s.objects, At(s, k)))
                && TrulyAddressed(s.objects, At(s, k).payloadHash) ==>
                  At(s, k).commandHash != At(s, i).commandHash)
  {
    RunLawful(ed, s0, steps, |s0.order|);
    var s, n := Execute(ed, s0, steps), |s0.order|;
    if && n <= i < |s.order| && k < i && At(s, i).actType == "AuthorizationResolved"
       && LinksBack(s, i, k) && IsReview(At(s, k))
       && (n <= k || CommandOnRecord(s.objects, At(s, k)))
       && TrulyAddressed(s.objects, At(s, k).payloadHash)
    {
      LawfulResolution(s, n, i);
      assert n <= k ==> Justified(s.objects, s.acts, s.order[..k], At(s, k));
      ReviewOwnedElsewhere(s.objects, At(s, k), At(s, i).commandHash);
    }
  }
}
