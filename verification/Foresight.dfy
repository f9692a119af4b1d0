/**
 Cuts that name what is still to come.  The service lets a commit begin only at a cut history already
 contains; here is what happens to the review flow when the gate is given any other, and which Act
 types can do without that rule.
 */
module Foresight {
  import opened Canon
  import opened Types
  import opened Ledgers
  import opened Gate
  import opened History
  import opened Consequence
  import opened Postgres
  import opened Workers
  import opened Concurrency
  import opened Schedules
  import opened Founding

  // --- one worker overtakes another ---

  /** Submission `a` meets nothing to refuse it now, and nothing once `b` is placed, which its cut
      already counts. */
  ghost predicate Overtakes(ed: Verifier, s: Ledger, a: Submission, b: Submission) {
    && AuthenticityFlaw(ed, a).None? && AuthenticityFlaw(ed, b).None?
    && Presentable(s, a) && Presentable(s, b) && Placeable(s, b) && Placeable(AfterPlacing(s, b), a)
  }

  /** Where `a` need not begin at a known cut, worker A reads its review guards before worker B places
      `b`, and the cut check and the RPC after. */
  lemma OvertakenRun(ed: Verifier, d: Discipline, s: Ledger, a: Submission, b: Submission) returns (y: System)
    requires Overtakes(ed, s, a, b) && a.actType in d.types
    ensures Reaches(ed, d, System(s, []), y) && y.db == AfterPlacing(AfterPlacing(s, b), a)
  {
    hide AuthenticityFlaw, Presentable, GovernanceFlaw, Unobstructed, RpcAccepts, AfterPlacing, ActOf, ActHash;
    var t := AfterPlacing(s, b);
    var x0, x1 := System(s, []), System(s, [Worker(a, CurrentCut)]);
    var x2 := System(s, [Worker(a, CurrentCut), Worker(b, CurrentCut)]);
    var x3 := System(t, [Worker(a, CurrentCut), Worker(b, Done(Ok(ActOf(b))))]);
    y := System(AfterPlacing(t, a), [Worker(a, Done(Ok(ActOf(a)))), Worker(b, Done(Ok(ActOf(b))))]);
    Begins(ed, d, x0, a);
    assert x0.workers + [Worker(a, CurrentCut)] == x1.workers;
    Begins(ed, d, x1, b);
    assert x1.workers + [Worker(b, CurrentCut)] == x2.workers;
    CarriesOn(ed, d, x2, 1, b);
    assert x2.workers[1 := Worker(b, Done(Ok(ActOf(b))))] == x3.workers;
    CarriesOn(ed, d, x3, 0, a);
    assert x3.workers[0 := Worker(a, Done(Ok(ActOf(a))))] == y.workers;
    ReachesOn(ed, d, x0, x1, x2);
    ReachesOn(ed, d, x0, x2, x3);
    ReachesOn(ed, d, x0, x3, y);
  }

  lemma Unlawful(t: Ledger, before: seq<Text>, a: Act, n: nat)
    requires t.order == before + [a.hash] && a.hash in t.acts && t.acts[a.hash] == a && n <= |before|
    requires !ReviewResolved(t.acts, before, a) || !ResolutionGrounded(t.objects, t.acts, before, a)
    ensures !Lawful(t, n)
  {
    hide SelfCertified, CommandOnRecord, ContextOnRecord, ReviewResolved, ResolutionGrounded, WellFormed;
    assert t.order[..|before|] == before && t.order[|before|] == a.hash;
  }

  /** What history looks like after both. */
  predicate BothPlaced(s: Ledger, a: Submission, b: Submission, t: Ledger) {
    && t.order == s.order + [ActHash(b)] + [ActHash(a)]
    && ActHash(a) in t.acts && t.acts[ActHash(a)] == ActOf(a)
    && ActHash(b) in t.acts && t.acts[ActHash(b)] == ActOf(b)
    && SameOn(s.acts, t.acts) && SameOn(s.objects, t.objects)
  }

  lemma OvertakenHistory(ed: Verifier, s: Ledger, a: Submission, b: Submission)
    requires WellFormed(s) && Overtakes(ed, s, a, b)
    ensures BothPlaced(s, a, b, AfterPlacing(AfterPlacing(s, b), a)) && ActHash(b) !in s.acts
    ensures !(a.decision.cut <= HistoryCut(s))
  {
    hide AuthenticityFlaw, Presentable, GovernanceFlaw, RpcRefusal, CanonicalValue, CommandHash, ContextHash, ActHash;
    hide AfterPlacing;
    var t := AfterPlacing(s, b);
    PlacedGrows(s, b);
    PlacedGrows(t, a);
    PlaceableKeeps(s, b);
    PlaceableKeeps(t, a);
  }

  lemma PlaceableKeeps(s: Ledger, q: Submission)
    requires Placeable(s, q)
    ensures SameOn(s.objects, AfterPlacing(s, q).objects)
  {
    hide GovernanceFlaw, RpcRefusal, CanonicalValue, CommandHash, ContextHash, ActHash, CommandRecord, ContextRecord;
    HashesDiffer(q);
    var cut, registryCut :| RpcAcceptsAs(Lodged(s, q), q, cut, registryCut);
    RpcChecksObject(Lodged(s, q), RpcArgsOf(q, cut, registryCut));
  }

  // --- stepping over a review ---

  /** `a` asks for the consequence of a Command, `b` for its review, and `a` links no resolution. */
  ghost predicate ForeseesRequest(ed: Verifier, s: Ledger, a: Submission, b: Submission) {
    && Overtakes(ed, s, a, b)
    && a.command == b.command && !IsLifecycle(a.actType) && b.actType == "ReviewRequested"
    && forall h | h in a.authChain && h in s.acts :: !IsResolutionOf(s.acts[h], CommandHash(a.command))
  }

  /** Every consequence that may begin at such a cut steps over the review: worker A looks for a request
      and finds none, worker B places it, and A's cut check and RPC find the history that A named. */
  lemma UnknownCutStepsOver(ed: Verifier, d: Discipline, s: Ledger, a: Submission, b: Submission) returns (y: System)
    requires WellFormed(s) && ForeseesRequest(ed, s, a, b) && a.actType in d.types
    ensures Reaches(ed, d, System(s, []), y) && BothPlaced(s, a, b, y.db)
    ensures !ReviewResolved(y.db.acts, s.order + [ActHash(b)], ActOf(a))
    ensures !Lawful(y.db, |s.order|)
  {
    hide Overtakes, Lawful, AfterPlacing, ActHash, CommandHash;
    y := OvertakenRun(ed, d, s, a, b);
    OvertakenHistory(ed, s, a, b);
    SteppedOver(s, a, b, y.db);
    PlacedUnderHash(a);
    Unlawful(y.db, s.order + [ActHash(b)], ActOf(a), |s.order|);
  }

  lemma PlacedUnderHash(q: Submission)
    ensures ActOf(q).hash == ActHash(q)
  {
  }

  lemma SteppedOver(s: Ledger, a: Submission, b: Submission, t: Ledger)
    requires WellFormed(s) && BothPlaced(s, a, b, t)
    requires a.command == b.command && !IsLifecycle(a.actType) && b.actType == "ReviewRequested"
    requires forall h | h in a.authChain && h in s.acts :: !IsResolutionOf(s.acts[h], CommandHash(a.command))
    ensures !ReviewResolved(t.acts, s.order + [ActHash(b)], ActOf(a))
  {
    hide ActHash, CommandHash, ContextHash;
    var before, h := s.order + [ActHash(b)], ActHash(b);
    assert h in before && IsRequestFor(t.acts[h], CommandHash(a.command));
    forall g | g in before && g in a.authChain && g in t.acts
      ensures !IsResolutionOf(t.acts[g], CommandHash(a.command))
    {
      if g != h {
        assert g in s.order && g in ToSet(s.order);
      }
    }
  }

  // --- resolving upon a review of something else ---

  /** `a` resolves a Command and links, besides its review, the review `b` of some other Command. */
  ghost predicate ForeseesReview(ed: Verifier, s: Ledger, a: Submission, b: Submission) {
    && Overtakes(ed, s, a, b)
    && a.actType == "AuthorizationResolved" && b.actType == "AuthorizationReviewed" && ActHash(b) in a.authChain
    && ReviewedCommand(s.objects, b.command.payloadHash) != Some(CommandHash(a.command))
  }

  /** Every resolution that may begin at such a cut rests on a review of another Command: worker A reads
      its links while that review is still missing, and a missing link is passed over. */
  lemma UnknownCutMisgrounds(ed: Verifier, d: Discipline, s: Ledger, a: Submission, b: Submission) returns (y: System)
    requires WellFormed(s) && ForeseesReview(ed, s, a, b) && a.actType in d.types
    ensures Reaches(ed, d, System(s, []), y) && BothPlaced(s, a, b, y.db)
    ensures !ResolutionGrounded(y.db.objects, y.db.acts, s.order + [ActHash(b)], ActOf(a))
    ensures !Lawful(y.db, |s.order|)
  {
    hide Overtakes, Lawful, AfterPlacing, ActHash, CommandHash, ReviewedCommand;
    y := OvertakenRun(ed, d, s, a, b);
    OvertakenHistory(ed, s, a, b);
    ReviewsAnother(ed, s, a, b, y.db);
    PlacedUnderHash(a);
    Unlawful(y.db, s.order + [ActHash(b)], ActOf(a), |s.order|);
  }

  lemma ReviewsAnother(ed: Verifier, s: Ledger, a: Submission, b: Submission, t: Ledger)
    requires BothPlaced(s, a, b, t) && ForeseesReview(ed, s, a, b)
    ensures !ResolutionGrounded(t.objects, t.acts, s.order + [ActHash(b)], ActOf(a))
  {
    hide ActHash, CommandHash, ContextHash, AuthenticityFlaw, Placeable;
    var before, h := s.order + [ActHash(b)], ActHash(b);
    hide Presentable, AfterPlacing;
    ReviewHasPayload(s, b);
    assert h in before && h in a.authChain && IsReview(t.acts[h]);
    assert t.acts[h].payloadHash == b.command.payloadHash;
  }

  lemma ReviewHasPayload(s: Ledger, b: Submission)
    requires Presentable(s, b) && b.actType == "AuthorizationReviewed"
    ensures b.command.payloadHash in s.objects
  {
  }

  // --- ordinary ledgers on which both happen ---

  /** An Identity that has signed a review Command, over a stored payload that names something. */
  predicate Signatory(ed: Verifier, identity: Identity, command: Command, payload: Value) {
    && Founder(ed, identity, command, payload) && command.commandType == "ReviewAuthorization"
    && payload.Obj? && "reviewed_command_hash" in payload.fields && payload.fields["reviewed_command_hash"].Str?
  }

  /** A ledger on which a signatory's Command can still be submitted under these Act types. */
  predicate Awaits(s: Ledger, command: Command, identity: Identity, actTypes: seq<string>) {
    && WellFormed(s) && Speaks(s, [command.commandType], actTypes, []) && (forall h | h in s.order :: IsHash(h))
    && identity.hash in s.identities && command.payloadHash in s.objects
    && !ConsequenceIndexHolds(s, CommandHash(command))
  }

  lemma PlaceableAt(ed: Verifier, s: Ledger, identity: Identity, command: Command, payload: Value,
                    actTypes: seq<string>, q: Submission)
    requires Founder(ed, identity, command, payload) && Awaits(s, command, identity, actTypes) && q.actType in actTypes
    requires q == Ask(identity, command, q.actType, q.decision.outcome, HistoryCut(s), q.authChain)
    requires IsHashArray(q.authChain) && forall h | h in q.authChain :: h in s.acts
    requires ActHash(q) !in s.acts && ActHash(q) !in s.objects && Unobstructed(s, q)
    ensures Placeable(s, q)
  {
    hide CanonicalValue, SigningValue, ContextValue, Vocabulary, GovernanceFlaw, RpcAccepts, Registered, ActHash;
    hide CommandHash, ContextHash, IsHashArray;
    var t := Lodged(s, q);
    HashesDiffer(q);
    Governs(s, identity, command, actTypes, q.actType, q.decision.outcome, HistoryCut(s), q.authChain);
    assert WellFormed(t) && Speaks(t, [command.commandType], actTypes, []);
    OneItem(GENESIS);
    assert command.commandType in [command.commandType];
    RpcAcceptsKnown(t, q, [command.commandType], actTypes, [], [GENESIS]);
  }

  lemma DifferentTypesDifferentHashes(a: Submission, b: Submission)
    requires a.actType != b.actType
    ensures ActHash(a) != ActHash(b)
  {
    hide CanonicalValue, RecordedValue;
    ActMatchesItsValue(a);
    ActMatchesItsValue(b);
    if ActHash(a) == ActHash(b) {
      RecordedHashInjective(ActOf(a), ActOf(b));
    }
  }

  /** With a submission placed, its own supporting objects are no obstacle to another of the same
      Command in the same Context. */
  lemma FreeAfter(s: Ledger, b: Submission, a: Submission)
    requires a.command == b.command && a.context == b.context && ActHash(a) != ActHash(b)
    requires Unobstructed(s, b) && ActHash(a) !in s.objects && ActHash(a) !in s.acts
    ensures Unobstructed(AfterPlacing(s, b), a)
    ensures ActHash(a) !in AfterPlacing(s, b).objects && ActHash(a) !in AfterPlacing(s, b).acts
  {
    hide CanonicalValue, SigningValue, ContextValue, ActHash, CommandHash, ContextHash;
    HashesDiffer(a);
    HashesDiffer(b);
    PlacedGrows(s, b);
  }

  lemma StillAwaits(s: Ledger, identity: Identity, command: Command, actTypes: seq<string>, b: Submission)
    requires Awaits(s, command, identity, actTypes) && ActHash(b) !in s.acts && IsLifecycle(b.actType)
    requires Unobstructed(s, b) && ActHash(b) !in s.objects
    ensures Awaits(AfterPlacing(s, b), command, identity, actTypes)
  {
    hide CanonicalValue, Vocabulary, CommandHash, ContextHash;
    PlacedGrows(s, b);
    PlacementWellFormed(s, AfterPlacing(s, b), ActOf(b));
  }

  /** On a ledger that awaits both, `b` and then `a` of one Command are placeable. */
  lemma OvertakesOn(ed: Verifier, s: Ledger, identity: Identity, command: Command, payload: Value,
                    actTypes: seq<string>, a: Submission, b: Submission)
    requires Founder(ed, identity, command, payload) && Awaits(s, command, identity, actTypes) && OnlyPayloads(s)
    requires a.actType in actTypes && b.actType in actTypes && a.actType != b.actType && IsLifecycle(b.actType)
    requires b == Ask(identity, command, b.actType, b.decision.outcome, HistoryCut(s), [])
    requires a == Ask(identity, command, a.actType, a.decision.outcome, HistoryCut(s) + {ActHash(b)}, a.authChain)
    requires IsHashArray(a.authChain) && forall h | h in a.authChain :: h in s.acts || h == ActHash(b)
    requires Presentable(s, a) && Presentable(s, b)
    ensures Overtakes(ed, s, a, b)
  {
    hide CanonicalValue, SigningValue, ContextValue, Vocabulary, Presentable, ActHash, Awaits, IsHashArray, Placeable;
    hide Unobstructed, OnlyPayloads;
    var t := AfterPlacing(s, b);
    FreeAmongPayloads(s, a);
    FreeAmongPayloads(s, b);
    NoItems();
    PlaceableAt(ed, s, identity, command, payload, actTypes, b);
    DifferentTypesDifferentHashes(a, b);
    StillAwaits(s, identity, command, actTypes, b);
    FreeAfter(s, b, a);
    PlacedGrows(s, b);
    assert HistoryCut(t) == a.decision.cut;
    PlaceableAt(ed, t, identity, command, payload, actTypes, a);
    FounderIsAuthentic(ed, identity, command, payload, a);
    FounderIsAuthentic(ed, identity, command, payload, b);
  }

  lemma FounderIsAuthentic(ed: Verifier, identity: Identity, command: Command, payload: Value, q: Submission)
    requires Founder(ed, identity, command, payload) && q.identity == identity && q.command == command
    ensures AuthenticityFlaw(ed, q).None?
  {
    hide SigningValue;
  }

  // --- a consequence before its review ---

  function RequestedTypes(consequence: string): seq<string> {
    ["ReviewRequested", consequence]
  }

  function Founded(identity: Identity, command: Command, payload: Value, consequence: string): Ledger {
    FoundedLedger(identity, payload, [command.commandType], RequestedTypes(consequence), [])
  }

  function RequestFor(identity: Identity, command: Command): Submission {
    Ask(identity, command, "ReviewRequested", RequireReview, {GENESIS}, [])
  }

  /** The consequence, at a cut that counts the request in advance. */
  function ConsequenceOf(identity: Identity, command: Command, consequence: string): Submission {
    Ask(identity, command, consequence, Allow, {GENESIS} + {ActHash(RequestFor(identity, command))}, [])
  }

  lemma FoundedPresents(identity: Identity, command: Command, payload: Value, consequence: string, q: Submission)
    requires !IsLifecycle(consequence)
    requires q == RequestFor(identity, command) || q == ConsequenceOf(identity, command, consequence)
    ensures Presentable(Founded(identity, command, payload, consequence), q)
  {
    hide CanonicalValue, SigningValue, Vocabulary;
    var s := Founded(identity, command, payload, consequence);
    FoundedOwnsNothing(identity, payload, [command.commandType], RequestedTypes(consequence), [], CommandHash(command));
    assert |"act"| != |"genesis_act"|;
    assert Linked(s.acts, []) == [];
    assert consequence != "ReviewRequested" && consequence != "AuthorizationReviewed" by {
      assert IsLifecycle("ReviewRequested") && IsLifecycle("AuthorizationReviewed");
    }
    assert consequence != "AuthorizationResolved" && consequence != "CommandDenied" by {
      assert IsLifecycle("AuthorizationResolved") && IsLifecycle("CommandDenied");
    }
  }

  lemma FoundedAwaits(identity: Identity, command: Command, payload: Value, consequence: string)
    requires command.payloadHash == ObjectHash("payload", payload)
    ensures var s := Founded(identity, command, payload, consequence);
            Awaits(s, command, identity, RequestedTypes(consequence)) && OnlyPayloads(s)
  {
    hide Vocabulary, Speaks, CommandHash;
    FoundedSpeaks(identity, payload, [command.commandType], RequestedTypes(consequence), []);
    assert CommandHash(command) != Plain("genesis-command") by {
      HashIsDigest(command);
    }
  }

  lemma HashIsDigest(command: Command)
    ensures CommandHash(command).Digest?
  {
  }

  /** Every signed Command over a stored payload is such a case, for every consequential Act type, on a
      ledger as the ceremony leaves it. */
  lemma FoundedForesees(ed: Verifier, identity: Identity, command: Command, payload: Value, consequence: string)
    requires Founder(ed, identity, command, payload) && !IsLifecycle(consequence)
    ensures WellFormed(Founded(identity, command, payload, consequence))
    ensures ForeseesRequest(ed, Founded(identity, command, payload, consequence),
                            ConsequenceOf(identity, command, consequence), RequestFor(identity, command))
  {
    hide Presentable, CanonicalValue, Vocabulary, Awaits, ActHash, OnlyPayloads, Overtakes, Founder, IsHashArray;
    var s := Founded(identity, command, payload, consequence);
    var a, b := ConsequenceOf(identity, command, consequence), RequestFor(identity, command);
    FounderNames(ed, identity, command, payload);
    FoundedAwaits(identity, command, payload, consequence);
    FoundedPresents(identity, command, payload, consequence, a);
    FoundedPresents(identity, command, payload, consequence, b);
    NoItems();
    assert IsLifecycle("ReviewRequested");
    OvertakesOn(ed, s, identity, command, payload, RequestedTypes(consequence), a, b);
    FoundedSpeaks(identity, payload, [command.commandType], RequestedTypes(consequence), []);
  }

  lemma FounderNames(ed: Verifier, identity: Identity, command: Command, payload: Value)
    requires Founder(ed, identity, command, payload)
    ensures command.payloadHash == ObjectHash("payload", payload)
  {
  }

  // --- a resolution before one of its reviews ---

  const VERDICT_TYPES: seq<string> := ["AuthorizationReviewed", "AuthorizationResolved"]
  const SEEDED_REQUEST: Text := ObjectHash("genesis_act", Str(Plain("request")))
  const SEEDED_REVIEW: Text := ObjectHash("genesis_act", Str(Plain("review")))

  /** The payload of a review of this Command. */
  function VerdictOn(command: Command): Value {
    Obj(map["reviewed_command_hash" := Str(CommandHash(command))])
  }

  function SeedOf(hash: Text, actType: string, identity: Identity, commandHash: Text, payloadHash: Text): Act {
    Act(hash, actType, identity.hash, [], {}, commandHash, [], {}, [], Plain("context"), payloadHash, None)
  }

  /** A founded ledger on which the Command is under review, and has been reviewed once. */
  function Reviewed(identity: Identity, command: Command, payload: Value): Ledger {
    var f, verdict := FoundedLedger(identity, payload, [command.commandType], VERDICT_TYPES, []),
                      ObjectHash("payload", VerdictOn(command));
    f.(objects := f.objects[verdict := Record(Canonical(VerdictOn(command)), "payload")],
       acts := map[
         GENESIS := Seed(identity),
         SEEDED_REQUEST := SeedOf(SEEDED_REQUEST, "ReviewRequested", identity, CommandHash(command), Plain("payload")),
         SEEDED_REVIEW := SeedOf(SEEDED_REVIEW, "AuthorizationReviewed", identity, Plain("review-command"), verdict)],
       order := [GENESIS, SEEDED_REQUEST, SEEDED_REVIEW])
  }

  const SEEDED: set<Text> := {GENESIS, SEEDED_REQUEST, SEEDED_REVIEW}

  /** The Command's own review, of whatever its payload names. */
  function OwnReview(identity: Identity, command: Command): Submission {
    Ask(identity, command, "AuthorizationReviewed", Allow, SEEDED, [])
  }

  /** The Command's resolution, which links that review besides its own request and review. */
  function ResolutionOf(identity: Identity, command: Command): Submission {
    var other := ActHash(OwnReview(identity, command));
    Ask(identity, command, "AuthorizationResolved", Allow, SEEDED + {other}, [SEEDED_REQUEST, SEEDED_REVIEW, other])
  }

  lemma SeedsDiffer()
    ensures GENESIS != SEEDED_REQUEST && GENESIS != SEEDED_REVIEW && SEEDED_REQUEST != SEEDED_REVIEW
  {
    assert Plain("GenesisClosed") != Plain("request") && Plain("GenesisClosed") != Plain("review") by {
      assert |"GenesisClosed"| == 13 && |"request"| == 7 && |"review"| == 6;
    }
    assert Plain("request") != Plain("review") by {
      assert |"request"| != |"review"|;
    }
  }

  lemma ReviewedAwaits(identity: Identity, command: Command, payload: Value)
    requires command.payloadHash == ObjectHash("payload", payload)
    ensures var s := Reviewed(identity, command, payload);
            Awaits(s, command, identity, VERDICT_TYPES) && OnlyPayloads(s) && HistoryCut(s) == SEEDED
  {
    hide Vocabulary, Speaks, CommandHash;
    var s := Reviewed(identity, command, payload);
    var f := FoundedLedger(identity, payload, [command.commandType], VERDICT_TYPES, []);
    SeedsDiffer();
    HashIsDigest(command);
    FoundedSpeaks(identity, payload, [command.commandType], VERDICT_TYPES, []);
    SpeaksWith(f, s, command);
    assert IsLifecycle("ReviewRequested") && IsLifecycle("AuthorizationReviewed");
  }

  lemma SpeaksWith(s: Ledger, t: Ledger, command: Command)
    requires Speaks(s, [command.commandType], VERDICT_TYPES, []) && t.registry == s.registry && GENESIS in t.acts
    ensures Speaks(t, [command.commandType], VERDICT_TYPES, [])
  {
  }

  /** What the seeds of the reviewed ledger say. */
  lemma SeedsSay(identity: Identity, command: Command, payload: Value)
    ensures var s := Reviewed(identity, command, payload);
            && SEEDED_REQUEST in s.acts && IsRequestFor(s.acts[SEEDED_REQUEST], CommandHash(command))
            && SEEDED_REVIEW in s.acts && IsReview(s.acts[SEEDED_REVIEW])
            && ReviewedCommand(s.objects, s.acts[SEEDED_REVIEW].payloadHash) == Some(CommandHash(command))
  {
    hide Vocabulary, CommandHash, FoundedLedger;
    SeedsDiffer();
    assert VerdictOn(command).fields["reviewed_command_hash"] == Str(CommandHash(command));
  }

  lemma PayloadIsStored(identity: Identity, command: Command, payload: Value)
    ensures var s, h := Reviewed(identity, command, payload), ObjectHash("payload", payload);
            h in s.objects && s.objects[h] == Record(Canonical(payload), "payload")
  {
    hide Vocabulary, CommandHash;
  }

  lemma ReviewPresentable(s: Ledger, q: Submission, payload: Value)
    requires q.actType == "AuthorizationReviewed" && q.decision.outcome == Allow && ActHash(q) !in s.acts
    requires q.command.commandType == "ReviewAuthorization" && q.command.payloadHash in s.objects
    requires s.objects[q.command.payloadHash] == Record(Canonical(payload), "payload")
    requires payload.Obj? && "reviewed_command_hash" in payload.fields && payload.fields["reviewed_command_hash"].Str?
    ensures Presentable(s, q)
  {
    hide CommandHash, ActHash;
    assert IsLifecycle("AuthorizationReviewed");
  }

  lemma ResolutionPresentable(s: Ledger, q: Submission, request: Text, review: Text, missing: Text)
    requires q.actType == "AuthorizationResolved" && q.decision.outcome == Allow && ActHash(q) !in s.acts
    requires q.authChain == [request, review, missing] && missing !in s.acts
    requires request in s.acts && IsRequestFor(s.acts[request], CommandHash(q.command))
    requires review in s.acts && IsReview(s.acts[review])
    requires ReviewedCommand(s.objects, s.acts[review].payloadHash) == Some(CommandHash(q.command))
    ensures Presentable(s, q)
  {
    hide CommandHash, ActHash, ReviewedCommand;
    var chain, both := q.authChain, [s.acts[request], s.acts[review]];
    assert chain[..2] == [request, review] && chain[..2][..1] == [request] && chain[..1][..0] == [];
    assert Linked(s.acts, [request]) == [s.acts[request]];
    assert Linked(s.acts, chain[..2]) == both && Linked(s.acts, chain) == both;
    assert both[0] in both && both[1] in both;
    assert IsLifecycle("AuthorizationResolved");
  }

  lemma VerdictsPresent(ed: Verifier, identity: Identity, command: Command, payload: Value)
    requires Signatory(ed, identity, command, payload)
    ensures var s := Reviewed(identity, command, payload);
            Presentable(s, OwnReview(identity, command)) && Presentable(s, ResolutionOf(identity, command))
  {
    hide Presentable, CommandHash, ActHash, Reviewed, Awaits, OnlyPayloads, ReviewedCommand;
    var s, b := Reviewed(identity, command, payload), OwnReview(identity, command);
    ReviewedAwaits(identity, command, payload);
    PayloadIsStored(identity, command, payload);
    SeedsSay(identity, command, payload);
    FreeAmongPayloads(s, b);
    FreeAmongPayloads(s, ResolutionOf(identity, command));
    ReviewPresentable(s, b, payload);
    ResolutionPresentable(s, ResolutionOf(identity, command), SEEDED_REQUEST, SEEDED_REVIEW, ActHash(b));
  }

  /** And so is every signed review Command a case of the other kind. */
  lemma ReviewedForesees(ed: Verifier, identity: Identity, command: Command, payload: Value)
    requires Signatory(ed, identity, command, payload)
    ensures WellFormed(Reviewed(identity, command, payload))
    ensures ForeseesReview(ed, Reviewed(identity, command, payload), ResolutionOf(identity, command),
                           OwnReview(identity, command))
  {
    hide Presentable, CanonicalValue, OnlyPayloads, Overtakes, ActHash, CommandHash, Reviewed, Awaits, IsHashArray;
    var s, a, b := Reviewed(identity, command, payload), ResolutionOf(identity, command), OwnReview(identity, command);
    ReviewedAwaits(identity, command, payload);
    PayloadIsStored(identity, command, payload);
    VerdictsPresent(ed, identity, command, payload);
    SeedsSay(identity, command, payload);
    WellFormedIs(s, command, identity);
    FreeAmongPayloads(s, b);
    SeedsDiffer();
    ThreeItems(SEEDED_REQUEST, SEEDED_REVIEW, ActHash(b));
    OvertakesOn(ed, s, identity, command, payload, VERDICT_TYPES, a, b);
    NamesAnother(s.objects, command, payload);
  }

  lemma WellFormedIs(s: Ledger, command: Command, identity: Identity)
    requires Awaits(s, command, identity, VERDICT_TYPES)
    ensures WellFormed(s)
  {
  }

  lemma ThreeItems(a: Text, b: Text, c: Text)
    requires IsHash(a) && IsHash(b) && IsHash(c) && a != b && a != c && b != c
    ensures IsHashArray([a, b, c])
  {
    DistinctByCount([a, b, c]);
  }

  /** A truly stored payload never names the Command that carries it. */
  lemma NamesAnother(objects: map<Text, Record>, command: Command, payload: Value)
    requires command.payloadHash == ObjectHash("payload", payload) && command.payloadHash in objects
    requires objects[command.payloadHash] == Record(Canonical(payload), "payload")
    ensures ReviewedCommand(objects, command.payloadHash) != Some(CommandHash(command))
  {
    CommandFields(command);
    DigestNotInside(CommandHash(command), "payload_hash", command.payloadHash);
    if ReviewedCommand(objects, command.payloadHash) == Some(CommandHash(command)) {
      DigestNotInside(command.payloadHash, "reviewed_command_hash", CommandHash(command));
    }
  }

  // --- the rule that history needs ---

  /** Interleaved runs under a discipline keep the laws of history. */
  ghost predicate KeepsLaw(ed: Verifier, d: Discipline) {
    forall x: System, y: System | WellFormed(x.db) && x.workers == [] && Reaches(ed, d, x, y) ::
      Lawful(y.db, |x.db.order|)
  }

  lemma SafeDisciplineKeepsLaw(ed: Verifier, d: Discipline, x: System, y: System)
    requires IsSafe(d) && WellFormed(x.db) && x.workers == [] && Reaches(ed, d, x, y)
    ensures Lawful(y.db, |x.db.order|)
  {
    hide Moves;
    var xs, es :| Connects(ed, d, xs, es, x, y);
    RunLinearizes(ed, d, xs, es);
    RunLawful(ed, x.db, Linearization(xs, es), |x.db.order|);
  }

  lemma UnsafeDisciplineBreaksLaw(ed: Verifier, d: Discipline, identity: Identity, command: Command, payload: Value,
                                  t: string) returns (x: System, y: System)
    requires Signatory(ed, identity, command, payload) && t in d.types && !IsSteady(t)
    ensures WellFormed(x.db) && x.workers == [] && Reaches(ed, d, x, y) && !Lawful(y.db, |x.db.order|)
  {
    hide Lawful, Reaches, WellFormed, ForeseesRequest, ForeseesReview, BothPlaced, ReviewResolved, ResolutionGrounded;
    if !IsLifecycle(t) {
      var s := Founded(identity, command, payload, t);
      FoundedForesees(ed, identity, command, payload, t);
      x := System(s, []);
      y := UnknownCutStepsOver(ed, d, s, ConsequenceOf(identity, command, t), RequestFor(identity, command));
    } else {
      var s := Reviewed(identity, command, payload);
      ReviewedForesees(ed, identity, command, payload);
      x := System(s, []);
      y := UnknownCutMisgrounds(ed, d, s, ResolutionOf(identity, command), OwnReview(identity, command));
    }
  }

  /** As soon as anybody can sign a review Command, the laws of history hold over every interleaving
      exactly when every Act type that may begin at a cut still unknown is a lifecycle stage other than
      AuthorizationResolved: consequences and resolutions have to begin at known cuts. */
  lemma LawNeedsKnownCuts(ed: Verifier, d: Discipline, identity: Identity, command: Command, payload: Value)
    requires Signatory(ed, identity, command, payload)
    ensures KeepsLaw(ed, d) <==> forall t | t in d.types :: IsLifecycle(t) && t != "AuthorizationResolved"
  {
    hide Lawful, Reaches, WellFormed, Signatory;
    if IsSafe(d) {
      forall x: System, y: System | WellFormed(x.db) && x.workers == [] && Reaches(ed, d, x, y)
        ensures Lawful(y.db, |x.db.order|)
      {
        SafeDisciplineKeepsLaw(ed, d, x, y);
      }
    } else {
      var t :| t in d.types && !IsSteady(t);
      var x, y := UnsafeDisciplineBreaksLaw(ed, d, identity, command, payload, t);
    }
  }
}
