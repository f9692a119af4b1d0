/**
 Runs of the ledger: any sequence of commits, object writes and administrative changes, each
 with arbitrary arguments, and what the gate's guards keep true of history throughout.

 The first `n` Acts of the order are seeds: they are present before the run begins and were
 not placed by the gate.
 */
module History {
  import opened Canon
  import opened Types
  import opened Ledgers
  import opened Gate

  datatype Step =
    | Submit(q: Submission)
    | Put(hash: Text, record: Record)
    | Administer(registry: seq<Entry>, identities: map<Text, Identity>, bindings: map<(Text, Text), Text>)

  function Apply(ed: Verifier, s: Ledger, step: Step): Ledger {
    match step
    case Submit(q) => Commit(ed, s, q).0
    case Put(h, record) => PutObject(s, h, record).GetOr(s)
    case Administer(registry, identities, bindings) =>
      s.(registry := registry, identities := identities, bindings := bindings)
  }

  function Execute(ed: Verifier, s: Ledger, steps: seq<Step>): Ledger {
    if steps == [] then s
    else Apply(ed, Execute(ed, s, steps[..|steps| - 1]), steps[|steps| - 1])
  }

  // --- what placement establishes about one Act, given the hashes before it ---

  predicate SelfCertified(objects: map<Text, Record>, a: Act) {
    && a.hash == RecordedHash(a)
    && a.hash in objects
    && objects[a.hash] == Record(Canonical(RecordedValue(a)), "act")
  }

  /** The Command of an Act is stored under its own hash, and says what the Act says of it. */
  predicate CommandOnRecord(objects: map<Text, Record>, a: Act) {
    && IsCommandHash(a.commandHash)
    && a.commandHash in objects
    && objects[a.commandHash] == Record(Canonical(a.commandHash.value), "command")
    && a.commandHash.value.Obj?
    && var fields := a.commandHash.value.fields;
    && "identity_hash" in fields && fields["identity_hash"] == Str(a.identityHash)
    && "parents" in fields && fields["parents"] == Strs(a.parents)
    && "payload_hash" in fields && fields["payload_hash"] == Str(a.payloadHash)
  }

  predicate ContextOnRecord(objects: map<Text, Record>, a: Act) {
    && a.contextHash.Digest? && a.contextHash.kind == "context"
    && a.contextHash in objects
    && objects[a.contextHash] == Record(Canonical(a.contextHash.value), "context")
  }

  /** Its cut is exactly the earlier history, and its parents lie in that history. */
  predicate AtItsCut(before: seq<Text>, a: Act) {
    && a.decisionCut == ToSet(before)
    && forall p | p in a.parents :: p in before
  }

  predicate OnlyConsequence(acts: map<Text, Act>, before: seq<Text>, a: Act) {
    !IsLifecycle(a.actType) ==>
      forall h | h in before && h in acts && acts[h].commandHash == a.commandHash :: IsLifecycle(acts[h].actType)
  }

  predicate UnderReview(acts: map<Text, Act>, before: seq<Text>, command: Text) {
    exists h | h in before :: h in acts && IsRequestFor(acts[h], command)
  }

  /** A consequence of a Command under review links an earlier resolution of that Command. */
  predicate ReviewResolved(acts: map<Text, Act>, before: seq<Text>, a: Act) {
    !IsLifecycle(a.actType) && UnderReview(acts, before, a.commandHash) ==>
      exists h | h in before :: h in a.authChain && h in acts && IsResolutionOf(acts[h], a.commandHash)
  }

  /** A resolution links an earlier request of its Command and an earlier review, and every
      earlier review it links carries a payload naming that Command. */
  predicate ResolutionGrounded(objects: map<Text, Record>, acts: map<Text, Act>, before: seq<Text>, a: Act) {
    a.actType == "AuthorizationResolved" ==>
      && (exists h | h in before :: h in a.authChain && h in acts && IsRequestFor(acts[h], a.commandHash))
      && (exists h | h in before :: h in a.authChain && h in acts && IsReview(acts[h]))
      && (forall h | h in before && h in a.authChain && h in acts && IsReview(acts[h]) ::
            ReviewedCommand(objects, acts[h].payloadHash) == Some(a.commandHash))
  }

  predicate ReviewTargeted(objects: map<Text, Record>, a: Act) {
    IsReview(a) ==> ReviewedCommand(objects, a.payloadHash).Some?
  }

  predicate Justified(objects: map<Text, Record>, acts: map<Text, Act>, before: seq<Text>, a: Act) {
    && SelfCertified(objects, a)
    && CommandOnRecord(objects, a)
    && ContextOnRecord(objects, a)
    && a.payloadHash in objects
    && a.ruleHashes != []
    && AtItsCut(before, a)
    && OnlyConsequence(acts, before, a)
    && ReviewResolved(acts, before, a)
    && ResolutionGrounded(objects, acts, before, a)
    && ReviewTargeted(objects, a)
  }

  /** Every Act after the first `n` is justified by the history before it. */
  predicate Lawful(s: Ledger, n: nat) {
    && WellFormed(s)
    && n <= |s.order|
    && forall i | n <= i < |s.order| :: Justified(s.objects, s.acts, s.order[..i], s.acts[s.order[i]])
  }

  // --- the placement of one Act ---

  lemma ActMatchesItsValue(q: Submission)
    ensures CanonicalValue(q) == RecordedValue(ActOf(q))
    ensures ActHash(q) == RecordedHash(ActOf(q))
  {
  }

  lemma CommandFields(c: Command)
    ensures var fields := SigningValue(c).fields;
            fields["identity_hash"] == Str(c.identityHash) && fields["parents"] == Strs(c.parents) &&
            fields["payload_hash"] == Str(c.payloadHash)
  {
  }

  lemma JustifiedGrows(objects: map<Text, Record>, objects': map<Text, Record>,
                       acts: map<Text, Act>, acts': map<Text, Act>, before: seq<Text>, a: Act)
    requires Justified(objects, acts, before, a)
    requires SameOn(objects, objects') && SameOn(acts, acts')
    requires ToSet(before) <= acts.Keys
    ensures Justified(objects', acts', before, a)
  {
    forall h | h in before ensures h in acts && h in acts' && acts[h] == acts'[h] {
      assert h in ToSet(before);
    }
  }

  lemma ConsequenceMembers(s: Ledger, command: Text)
    requires WellFormed(s)
    ensures HasConsequence(s, command)
       <==> exists h :: h in s.acts && s.acts[h].commandHash == command && !IsLifecycle(s.acts[h].actType)
  {
    if HasConsequence(s, command) {
      var a :| a in ActsForCommand(s, command) && !IsLifecycle(a.actType);
      OwnedMembers(s.acts, s.order, command, a);
    }
    if h :| h in s.acts && s.acts[h].commandHash == command && !IsLifecycle(s.acts[h].actType) {
      OwnedMembers(s.acts, s.order, command, s.acts[h]);
      assert h in ToSet(s.order);
    }
  }

  lemma RequestMembers(s: Ledger, command: Text)
    requires WellFormed(s)
    ensures (exists a :: a in ActsForCommand(s, command) && a.actType == "ReviewRequested")
       <==> UnderReview(s.acts, s.order, command)
  {
    if a :| a in ActsForCommand(s, command) && a.actType == "ReviewRequested" {
      OwnedMembers(s.acts, s.order, command, a);
    }
    if UnderReview(s.acts, s.order, command) {
      var h :| h in s.order && h in s.acts && IsRequestFor(s.acts[h], command);
      OwnedMembers(s.acts, s.order, command, s.acts[h]);
    }
  }

  lemma LinkMember(s: Ledger, chain: seq<Text>, a: Act) returns (h: Text)
    requires WellFormed(s) && a in Linked(s.acts, chain)
    ensures h in chain && h in s.order && h in s.acts && s.acts[h] == a
  {
    LinkedMembers(s.acts, chain, a);
    h :| h in chain && h in s.acts && s.acts[h] == a;
    assert h in ToSet(s.order);
  }

  /** What an accepted authorization chain shows about the Act it supports. */
  lemma ProofEstablishes(s: Ledger, q: Submission)
    requires WellFormed(s)
    requires ProofFlaw(s, q).None?
    ensures ReviewResolved(s.acts, s.order, ActOf(q))
    ensures ResolutionGrounded(s.objects, s.acts, s.order, ActOf(q))
    ensures ReviewTargeted(s.objects, ActOf(q))
  {
    var command, linked := CommandHash(q.command), Linked(s.acts, q.authChain);
    if q.actType == "AuthorizationResolved" {
      var request :| request in linked && IsRequestFor(request, command);
      var _ := LinkMember(s, q.authChain, request);
      var review :| review in linked && IsReview(review);
      var _ := LinkMember(s, q.authChain, review);
      forall h | h in s.order && h in q.authChain && h in s.acts && IsReview(s.acts[h])
        ensures ReviewedCommand(s.objects, s.acts[h].payloadHash) == Some(command)
      {
        LinkedMembers(s.acts, q.authChain, s.acts[h]);
      }
    } else if !IsLifecycle(q.actType) && UnderReview(s.acts, s.order, command) {
      RequestMembers(s, command);
      var resolution :| resolution in linked && IsResolutionOf(resolution, command);
      var _ := LinkMember(s, q.authChain, resolution);
    }
  }

  /** The two supporting objects and the Act's own bytes, at three different hashes. */
  predicate Stored(objects: map<Text, Record>, commandHash: Text, command: Record, contextHash: Text,
                   context: Record, actHash: Text, canon: Blob) {
    && commandHash in objects && objects[commandHash] == command
    && contextHash in objects && objects[contextHash] == context
    && actHash in objects && objects[actHash] == Record(canon, "act")
  }

  lemma PutEffect(s: Ledger, h: Text, record: Record)
    ensures var t := PutObject(s, h, record);
            t.Some? ==> t.value == s.(objects := s.objects[h := record]) && SameOn(s.objects, t.value.objects)
  {
  }

  lemma PlaceWithEffect(s: Ledger, commandHash: Text, command: Record, contextHash: Text, context: Record,
                        act: Act, canon: Blob)
    requires act.hash !in s.acts
    requires commandHash != contextHash && commandHash != act.hash && contextHash != act.hash
    ensures var (t, r) := PlaceWith(s, commandHash, command, contextHash, context, act, canon);
            && SameOn(s.objects, t.objects)
            && t.registry == s.registry && t.identities == s.identities && t.bindings == s.bindings
            && (r.Err? ==> t.acts == s.acts && t.order == s.order)
            && (r.Ok? ==> r.value == act && t.acts == s.acts[act.hash := act] && t.order == s.order + [act.hash]
                          && Stored(t.objects, commandHash, command, contextHash, context, act.hash, canon))
  {
    PutEffect(s, commandHash, command);
    var s1 := PutObject(s, commandHash, command);
    if s1.Some? {
      PutEffect(s1.value, contextHash, context);
      var s2 := PutObject(s1.value, contextHash, context);
      if s2.Some? {
        PutEffect(s2.value, act.hash, Record(canon, "act"));
      }
    }
  }

  lemma HashesDiffer(q: Submission)
    ensures CommandHash(q.command) != ContextHash(q.context)
    ensures CommandHash(q.command) != ActHash(q)
    ensures ContextHash(q.context) != ActHash(q)
  {
    assert |"command"| == |"context"| && "command"[2] != "context"[2];
  }

  /** Placement, given that the Act fits the objects stored beside it. */
  lemma PlacementWellFormed(s: Ledger, t: Ledger, a: Act)
    requires WellFormed(s) && a.hash !in s.acts
    requires t.acts == s.acts[a.hash := a] && t.order == s.order + [a.hash] && SameOn(s.objects, t.objects)
    ensures WellFormed(t) && Extends(s, t)
  {
    ToSetAppend(s.order, a.hash);
    assert a.hash !in ToSet(s.order);
  }

  lemma ProofGrows(objects: map<Text, Record>, objects': map<Text, Record>,
                   acts: map<Text, Act>, acts': map<Text, Act>, before: seq<Text>, a: Act)
    requires ReviewResolved(acts, before, a)
    requires ResolutionGrounded(objects, acts, before, a)
    requires ReviewTargeted(objects, a)
    requires SameOn(objects, objects') && SameOn(acts, acts') && acts.Keys == ToSet(before)
    ensures ReviewResolved(acts', before, a)
    ensures ResolutionGrounded(objects', acts', before, a)
    ensures ReviewTargeted(objects', a)
  {
    forall h | h in before ensures h in acts && h in acts' && acts[h] == acts'[h] {
      assert h in ToSet(before);
    }
  }

  lemma RecordsFit(q: Submission, objects: map<Text, Record>)
    requires q.identity.hash == q.command.identityHash
    requires Stored(objects, CommandHash(q.command), CommandRecord(q), ContextHash(q.context), ContextRecord(q),
                    ActHash(q), Canonical(CanonicalValue(q)))
    ensures SelfCertified(objects, ActOf(q))
    ensures CommandOnRecord(objects, ActOf(q))
    ensures ContextOnRecord(objects, ActOf(q))
  {
    ActMatchesItsValue(q);
    CommandFields(q.command);
  }

  lemma PlacementJustified(s: Ledger, q: Submission, t: Ledger)
    requires WellFormed(s)
    requires ActHash(q) !in s.acts && Refusal(s, q).None?
    requires SameOn(s.objects, t.objects)
    requires t.acts == s.acts[ActHash(q) := ActOf(q)]
    requires SelfCertified(t.objects, ActOf(q)) && CommandOnRecord(t.objects, ActOf(q))
    requires ContextOnRecord(t.objects, ActOf(q))
    ensures Justified(t.objects, t.acts, s.order, ActOf(q))
  {
    var a := ActOf(q);
    ConsequenceMembers(s, a.commandHash);
    ProofEstablishes(s, q);
    ProofGrows(s.objects, t.objects, s.acts, t.acts, s.order, a);
    assert AtItsCut(s.order, a);
    assert OnlyConsequence(t.acts, s.order, a) by {
      forall h | h in s.order ensures h in s.acts && t.acts[h] == s.acts[h] {
        assert h in ToSet(s.order);
      }
    }
  }

  /** One commit: on success with a new hash, the history grows by exactly that justified Act. */
  lemma CommitEffect(ed: Verifier, s: Ledger, q: Submission)
    requires WellFormed(s)
    ensures var (t, r) := Commit(ed, s, q);
            && WellFormed(t) && Extends(s, t)
            && t.registry == s.registry && t.identities == s.identities && t.bindings == s.bindings
            && (r.Err? || ActHash(q) in s.acts ==> t.acts == s.acts && t.order == s.order)
            && (r.Ok? && ActHash(q) in s.acts ==> t == s && r.value == s.acts[ActHash(q)])
            && (r.Ok? && ActHash(q) !in s.acts ==>
                  && r.value == ActOf(q) && t.order == s.order + [ActHash(q)]
                  && t.acts == s.acts[ActHash(q) := ActOf(q)]
                  && Justified(t.objects, t.acts, s.order, ActOf(q)))
  {
    if AuthenticityFlaw(ed, q).None? && ActHash(q) !in s.acts && Refusal(s, q).None? {
      var t, r := Place(s, q).0, Place(s, q).1;
      HashesDiffer(q);
      PlaceWithEffect(s, CommandHash(q.command), CommandRecord(q), ContextHash(q.context), ContextRecord(q),
                      ActOf(q), Canonical(CanonicalValue(q)));
      if r.Ok? {
        PlacementWellFormed(s, t, ActOf(q));
        RecordsFit(q, t.objects);
        PlacementJustified(s, q, t);
      }
    }
  }

  /** A lawful history stays lawful when its objects grow and at most one justified Act is added. */
  lemma LawfulGrows(s: Ledger, t: Ledger, n: nat)
    requires Lawful(s, n) && WellFormed(t) && Extends(s, t)
    requires t.order == s.order
          || (|t.order| == |s.order| + 1 && Justified(t.objects, t.acts, s.order, t.acts[t.order[|s.order|]]))
    ensures Lawful(t, n)
  {
    hide Justified;
    forall i | n <= i < |t.order| ensures Justified(t.objects, t.acts, t.order[..i], t.acts[t.order[i]]) {
      if i < |s.order| {
        assert t.order[..i] == s.order[..i] && t.order[i] == s.order[i];
        assert s.order[i] in ToSet(s.order);
        forall h | h in s.order[..i] ensures h in s.acts {
          assert h in ToSet(s.order);
        }
        JustifiedGrows(s.objects, t.objects, s.acts, t.acts, s.order[..i], s.acts[s.order[i]]);
      } else {
        assert t.order[..i] == s.order;
      }
    }
  }

  /** Every step is append-only and keeps history lawful. */
  lemma StepLawful(ed: Verifier, s: Ledger, step: Step, n: nat)
    requires Lawful(s, n)
    ensures var t := Apply(ed, s, step); Lawful(t, n) && Extends(s, t)
  {
    if step.Submit? {
      CommitEffect(ed, s, step.q);
    }
    LawfulGrows(s, Apply(ed, s, step), n);
  }

  /** Over every run from a lawful start, history stays lawful and only grows. */
  lemma {:induction false} RunLawful(ed: Verifier, s: Ledger, steps: seq<Step>, n: nat)
    requires Lawful(s, n)
    ensures Lawful(Execute(ed, s, steps), n)
    ensures Extends(s, Execute(ed, s, steps))
  {
    if steps != [] {
      var init := steps[..|steps| - 1];
      RunLawful(ed, s, init, n);
      StepLawful(ed, Execute(ed, s, init), steps[|steps| - 1], n);
    }
  }
}
