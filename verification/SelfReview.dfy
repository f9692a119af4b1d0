/**
 When a Command can review itself (kernel/commit.py, kernel/memory.py): exactly when the string it
 names its payload by still holds nothing, or holds bytes that name that very Command.
 */
module SelfReview {
  import opened Canon
  import opened Types
  import opened Ledgers
  import opened Gate
  import opened History
  import opened Ancestry
  import opened Consequence
  import opened Review
  import opened Idempotence
  import opened Founding

  /** Someone with a Command, and the Context and rules they submit it under. */
  datatype Party = Party(
    identity: Identity,
    command: Command,
    context: Context,
    ruleHashes: seq<Text>,
    registryCut: set<Text>)

  function Submits(c: Party, actType: string, outcome: DecisionKind, cut: set<Text>, chain: seq<Text>): Submission {
    Submission(c.identity, c.command, Decision(outcome, cut, c.ruleHashes, c.registryCut, ""), c.context, actType,
               chain, None)
  }

  const STAGES: seq<string> := ["ReviewRequested", "AuthorizationReviewed", "AuthorizationResolved"]

  /** History after position n holds a resolution of the Command that links an earlier review which the
      same Command owns. */
  predicate ReviewedByItself(s: Ledger, n: nat, command: Text) {
    WellFormed(s) && exists k, i :: n <= k < i < |s.order| && SelfResolution(s, k, i, command)
  }

  predicate SelfResolution(s: Ledger, k: nat, i: nat, command: Text)
    requires WellFormed(s) && k < i < |s.order|
  {
    && IsResolutionOf(At(s, i), command) && LinksBack(s, i, k)
    && IsReview(At(s, k)) && At(s, k).commandHash == command
  }

  // --- when the slot is taken ---

  lemma PayloadOfCommand(objects: map<Text, Record>, a: Act, c: Command)
    requires CommandOnRecord(objects, a) && a.commandHash == CommandHash(c)
    ensures a.payloadHash == c.payloadHash
  {
    CommandFields(c);
  }

  lemma ResolutionNamesItself(t: Ledger, n: nat, k: nat, i: nat, c: Command)
    requires Lawful(t, n) && n <= k < i < |t.order| && SelfResolution(t, k, i, CommandHash(c))
    ensures ReviewedCommand(t.objects, c.payloadHash) == Some(CommandHash(c))
  {
    hide CommandHash, ReviewedCommand, SigningValue;
    LawfulResolution(t, n, i);
    assert CommandOnRecord(t.objects, At(t, k)) by {
      assert Justified(t.objects, t.acts, t.order[..k], At(t, k));
    }
    PayloadOfCommand(t.objects, At(t, k), c);
  }

  lemma SelfReviewNamesItself(ed: Verifier, s: Ledger, c: Command, steps: seq<Step>)
    requires WellFormed(s) && ReviewedByItself(Execute(ed, s, steps), |s.order|, CommandHash(c))
    ensures c.payloadHash in s.objects ==> ReviewedCommand(s.objects, c.payloadHash) == Some(CommandHash(c))
  {
    hide CommandHash, SelfResolution, Justified, Execute;
    RunLawful(ed, s, steps, |s.order|);
    var t := Execute(ed, s, steps);
    var k, i :| |s.order| <= k < i < |t.order| && SelfResolution(t, k, i, CommandHash(c));
    ResolutionNamesItself(t, |s.order|, k, i, c);
  }

  // --- when it is free ---

  function SelfPayload(c: Command): Record {
    Record(Canonical(Obj(map["reviewed_command_hash" := Str(CommandHash(c))])), "payload")
  }

  predicate NamesItself(objects: map<Text, Record>, c: Command) {
    c.payloadHash in objects && ReviewedCommand(objects, c.payloadHash) == Some(CommandHash(c))
  }

  /** What the gate asks of a party besides its payload and the order of its stages. */
  predicate Qualified(ed: Verifier, s: Ledger, c: Party) {
    && c.identity.hash == c.command.identityHash
    && ed(c.identity.publicKey, c.command.signature, SigningValue(c.command))
    && c.command.commandType == "ReviewAuthorization"
    && Registered(s, "command_type", Plain(c.command.commandType), c.registryCut)
    && (forall stage | stage in STAGES :: Registered(s, "act_type", Plain(stage), c.registryCut))
    && c.ruleHashes != [] && (forall r | r in c.ruleHashes :: Registered(s, "rule", r, c.registryCut))
    && (forall key | key in c.context.values :: Registered(s, "context_type", Plain(key), c.registryCut))
    && (forall p | p in c.command.parents :: p in s.acts)
  }

  /** The hashes the gate writes to are honest, but for the slot the payload is named by. */
  predicate HonestBeside(s: Ledger, slot: Text) {
    forall h | h in s.objects && h != slot && h.Digest? && h.kind in {"command", "context", "act"} ::
      s.objects[h] == Record(Canonical(h.value), h.kind)
  }

  predicate Sane(s: Ledger, slot: Text) {
    WellFormed(s) && HonestBeside(s, slot)
  }

  /** A payload hash is a smaller term than the hashes of the Command and of the Acts that name it. */
  lemma SlotIsNoWriteOf(q: Submission)
    ensures q.command.payloadHash != CommandHash(q.command) && q.command.payloadHash != ActHash(q)
  {
    CommandFields(q.command);
    DigestNotInside(CommandHash(q.command), "payload_hash", q.command.payloadHash);
    ActMatchesItsValue(q);
    RecordedTexts(ActOf(q));
    DigestNotInside(ActHash(q), "payload_hash", q.command.payloadHash);
  }

  lemma Unhindered(s: Ledger, q: Submission)
    requires HonestBeside(s, q.command.payloadHash) && q.command.payloadHash != ContextHash(q.context)
    ensures Unobstructed(s, q) && Free(s.objects, ActHash(q), Record(Canonical(CanonicalValue(q)), "act"))
  {
    hide CanonicalValue, SigningValue, ContextValue;
    SlotIsNoWriteOf(q);
  }

  lemma Unrefused(ed: Verifier, s: Ledger, c: Party, q: Submission)
    requires Qualified(ed, s, c) && c.command.payloadHash in s.objects && q.actType in STAGES
    requires q == Submits(c, q.actType, q.decision.outcome, HistoryCut(s), q.authChain)
    requires q.decision.outcome in PermittedOutcomes(q.actType) && ProofFlaw(s, q).None?
    ensures AuthenticityFlaw(ed, q).None? && Refusal(s, q).None?
  {
    hide Registered, ProofFlaw, HasConsequence;
    assert IsLifecycle(q.actType);
  }

  /** One stage is placed, and the party stays as qualified as it was. */
  lemma StagePlaced(ed: Verifier, s: Ledger, c: Party, q: Submission) returns (t: Ledger)
    requires Sane(s, c.command.payloadHash) && Qualified(ed, s, c) && NamesItself(s.objects, c.command)
    requires c.command.payloadHash != ContextHash(c.context) && q.actType in STAGES
    requires q == Submits(c, q.actType, q.decision.outcome, HistoryCut(s), q.authChain)
    requires q.decision.outcome in PermittedOutcomes(q.actType) && ProofFlaw(s, q).None?
    ensures t == Apply(ed, s, Submit(q)) && Sane(t, c.command.payloadHash) && Qualified(ed, t, c)
    ensures NamesItself(t.objects, c.command) && WellFormed(t) && c.command.commandType == "ReviewAuthorization"
    ensures t.order == s.order + [ActHash(q)] && t.acts == s.acts[ActHash(q) := ActOf(q)] && ActHash(q) !in s.acts
    ensures SameOn(s.objects, t.objects)
  {
    hide Refusal, ProofFlaw, AuthenticityFlaw, CanonicalValue, SigningValue, ContextValue, Registered;
    PresentIsUnplaced(s, q);
    Unhindered(s, q);
    Unrefused(ed, s, c, q);
    UnobstructedCommit(ed, s, q);
    t := AfterPlacing(s, q);
    PlacedGrows(s, q);
    CommitLeavesAddressed(ed, s, q);
    PlacementWellFormed(s, t, ActOf(q));
    QualifiedStays(ed, s, t, c);
  }

  lemma QualifiedStays(ed: Verifier, s: Ledger, t: Ledger, c: Party)
    requires Qualified(ed, s, c) && t.registry == s.registry && s.acts.Keys <= t.acts.Keys
    ensures Qualified(ed, t, c)
  {
  }

  function StageOf(c: Party, i: nat, cut: set<Text>, chain: seq<Text>): Submission
    requires i < 3
  {
    Submits(c, STAGES[i], if i == 0 then RequireReview else Allow, cut, chain)
  }

  /** The bytes are stored, and the Command runs through its own review. */
  lemma RunsItsOwnReview(ed: Verifier, s: Ledger, c: Party) returns (steps: seq<Step>)
    requires Sane(s, c.command.payloadHash) && Qualified(ed, s, c) && NamesItself(s.objects, c.command)
    requires c.command.payloadHash != ContextHash(c.context)
    ensures ReviewedByItself(Execute(ed, s, steps), |s.order|, CommandHash(c.command))
  {
    hide Sane, Qualified, CommandHash, NamesItself, Apply, ActHash, WellFormed, ReviewedByItself;
    var n, command := |s.order|, CommandHash(c.command);
    var q0 := StageOf(c, 0, HistoryCut(s), []);
    NoChain(s, q0);
    var s1 := StagePlaced(ed, s, c, q0);
    var q1 := StageOf(c, 1, HistoryCut(s1), []);
    ReviewHasTarget(s1, c, q1);
    var s2 := StagePlaced(ed, s1, c, q1);
    var q2 := StageOf(c, 2, HistoryCut(s2), [ActHash(q0), ActHash(q1)]);
    ResolutionLinks(s2, c, q0, q1, q2);
    var s3 := StagePlaced(ed, s2, c, q2);
    steps := [Submit(q0), Submit(q1), Submit(q2)];
    ExecuteThree(ed, s, steps[0], steps[1], steps[2]);
    Resolved(s, s3, q0, q1, q2, n);
  }

  lemma NoChain(s: Ledger, q: Submission)
    requires q.actType == STAGES[0]
    ensures ProofFlaw(s, q).None?
  {
  }

  lemma ReviewHasTarget(s: Ledger, c: Party, q: Submission)
    requires q.actType == STAGES[1] && q.command == c.command && c.command.commandType == "ReviewAuthorization"
    requires NamesItself(s.objects, c.command)
    ensures ProofFlaw(s, q).None?
  {
  }

  lemma ResolutionLinks(s: Ledger, c: Party, q0: Submission, q1: Submission, q: Submission)
    requires q.actType == STAGES[2] && q.command == c.command && q.authChain == [ActHash(q0), ActHash(q1)]
    requires q0.command == c.command && q0.actType == STAGES[0] && q1.command == c.command && q1.actType == STAGES[1]
    requires ActHash(q0) in s.acts && s.acts[ActHash(q0)] == ActOf(q0)
    requires ActHash(q1) in s.acts && s.acts[ActHash(q1)] == ActOf(q1)
    requires NamesItself(s.objects, c.command)
    ensures ProofFlaw(s, q).None?
  {
    hide CanonicalValue, SigningValue, ReviewedCommand, ActHash, CommandHash;
    var chain := q.authChain;
    assert chain[..1] == [ActHash(q0)] && chain[..1][..0] == [];
    assert Linked(s.acts, chain[..1]) == [ActOf(q0)];
    assert Linked(s.acts, chain) == [ActOf(q0), ActOf(q1)];
    assert ActOf(q0) in Linked(s.acts, chain) && ActOf(q1) in Linked(s.acts, chain);
  }

  lemma ExecuteThree(ed: Verifier, s: Ledger, a: Step, b: Step, c: Step)
    ensures Execute(ed, s, [a, b, c]) == Apply(ed, Apply(ed, Apply(ed, s, a), b), c)
  {
    hide Apply;
    assert [a, b, c][..2] == [a, b] && [a, b][..1] == [a] && [a][..0] == [];
    assert Execute(ed, s, [a]) == Apply(ed, s, a);
    assert Execute(ed, s, [a, b]) == Apply(ed, Apply(ed, s, a), b);
  }

  lemma Resolved(s: Ledger, t: Ledger, q0: Submission, q1: Submission, q2: Submission, n: nat)
    requires WellFormed(t) && n == |s.order| && t.order == s.order + [ActHash(q0)] + [ActHash(q1)] + [ActHash(q2)]
    requires ActHash(q1) in t.acts && t.acts[ActHash(q1)] == ActOf(q1)
    requires ActHash(q2) in t.acts && t.acts[ActHash(q2)] == ActOf(q2)
    requires q1.actType == STAGES[1] && q2.actType == STAGES[2] && q1.command == q2.command
    requires q2.authChain == [ActHash(q0), ActHash(q1)]
    ensures ReviewedByItself(t, n, CommandHash(q1.command))
  {
    hide CanonicalValue, CommandHash, ActHash;
    assert t.order[n + 1] == ActHash(q1) && t.order[n + 2] == ActHash(q2);
    assert q2.authChain[1] == ActHash(q1);
    assert SelfResolution(t, n + 1, n + 2, CommandHash(q1.command));
  }

  /** Whoever may store bytes can fill the slot, as long as it is free. */
  lemma SlotFilled(ed: Verifier, s: Ledger, c: Party) returns (step: Step)
    requires Sane(s, c.command.payloadHash) && Qualified(ed, s, c)
    requires c.command.payloadHash in s.objects ==> NamesItself(s.objects, c.command)
    ensures var t := Apply(ed, s, step);
            && Sane(t, c.command.payloadHash) && Qualified(ed, t, c) && NamesItself(t.objects, c.command)
            && t.acts == s.acts && t.order == s.order
  {
    hide CommandHash, Registered, CanonicalValue;
    var p, record := c.command.payloadHash, SelfPayload(c.command);
    step := Put(p, record);
    var t := Apply(ed, s, step);
    assert record.canon.value.fields["reviewed_command_hash"] == Str(CommandHash(c.command));
    assert p !in s.objects ==> t.objects == s.objects[p := record];
    QualifiedStays(ed, s, t, c);
  }

  /** On any ledger in order, a Command that its party may submit for review can be brought to review
      itself, whatever stages it has been through, exactly when its payload hash is
      still free there, or names that Command already.  Bytes stored under their true hash never do. */
  lemma SelfReviewExactly(ed: Verifier, s: Ledger, c: Party)
    requires WellFormed(s) && HonestBeside(s, c.command.payloadHash) && Qualified(ed, s, c)
    requires c.command.payloadHash != ContextHash(c.context)
    ensures (exists steps :: ReviewedByItself(Execute(ed, s, steps), |s.order|, CommandHash(c.command)))
       <==> (c.command.payloadHash !in s.objects || NamesItself(s.objects, c.command))
    ensures c.command.payloadHash in s.objects && NamesItself(s.objects, c.command) ==>
              !TrulyAddressed(s.objects, c.command.payloadHash)
  {
    hide CommandHash, Qualified, Execute, ReviewedByItself, ReviewedCommand;
    var p, command := c.command.payloadHash, CommandHash(c.command);
    if steps :| ReviewedByItself(Execute(ed, s, steps), |s.order|, command) {
      SelfReviewNamesItself(ed, s, c.command, steps);
    }
    if p !in s.objects || NamesItself(s.objects, c.command) {
      var fill := SlotFilled(ed, s, c);
      var t := Apply(ed, s, fill);
      var stages := RunsItsOwnReview(ed, t, c);
      ExecuteAfter(ed, s, fill, stages);
      assert ReviewedByItself(Execute(ed, s, [fill] + stages), |s.order|, command);
    }
    if NamesItself(s.objects, c.command) && TrulyAddressed(s.objects, p) {
      TrueBytesNameOthers(s.objects, c.command, command);
    }
  }

  lemma {:induction false} ExecuteAfter(ed: Verifier, s: Ledger, step: Step, steps: seq<Step>)
    ensures Execute(ed, s, [step] + steps) == Execute(ed, Apply(ed, s, step), steps)
  {
    hide Apply;
    var all := [step] + steps;
    if steps == [] {
      assert all[..0] == [] && Execute(ed, s, all[..0]) == s;
    } else {
      var n := |steps| - 1;
      ExecuteAfter(ed, s, step, steps[..n]);
      assert all[..|all| - 1] == [step] + steps[..n];
    }
  }

  lemma TrueBytesNameOthers(objects: map<Text, Record>, c: Command, target: Text)
    requires TrulyAddressed(objects, c.payloadHash) && ReviewedCommand(objects, c.payloadHash) == Some(target)
    ensures target != CommandHash(c)
  {
    CommandFields(c);
    DigestNotInside(CommandHash(c), "payload_hash", c.payloadHash);
    DigestNotInside(c.payloadHash, "reviewed_command_hash", target);
  }

  // --- an ordinary ledger on which it happens ---

  function Founded(identity: Identity, payload: Value): Ledger {
    FoundedLedger(identity, payload, ["ReviewAuthorization"], STAGES, [])
  }

  function FounderParty(identity: Identity, command: Command): Party {
    Party(identity, command, Context(map[], map[]), [RULE], {GENESIS})
  }

  lemma FoundedInOrder(ed: Verifier, identity: Identity, command: Command, payload: Value)
    requires identity.hash == command.identityHash && ed(identity.publicKey, command.signature, SigningValue(command))
    requires command.commandType == "ReviewAuthorization" && command.parents == []
    ensures var s := Founded(identity, payload);
            && WellFormed(s) && HonestBeside(s, command.payloadHash)
            && Qualified(ed, s, FounderParty(identity, command))
  {
    hide Registered, Vocabulary, Speaks;
    FoundedSpeaks(identity, payload, ["ReviewAuthorization"], STAGES, []);
    Spoken(Founded(identity, payload), ["ReviewAuthorization"], STAGES, [], {GENESIS});
    assert "ReviewAuthorization" in ["ReviewAuthorization"];
    assert "genesis_act"[0] != "act"[0] && "payload"[0] !in {'c', 'a'};
  }

  /** Where one payload is truly stored, every signed review Command but those over that very payload
      can be brought to review itself. */
  lemma FoundedSelfReview(ed: Verifier, identity: Identity, command: Command, payload: Value)
    requires identity.hash == command.identityHash && ed(identity.publicKey, command.signature, SigningValue(command))
    requires command.commandType == "ReviewAuthorization" && command.parents == []
    requires command.payloadHash != ContextHash(Context(map[], map[]))
    ensures (exists steps :: ReviewedByItself(Execute(ed, Founded(identity, payload), steps), 1, CommandHash(command)))
       <==> command.payloadHash != ObjectHash("payload", payload)
  {
    hide Qualified, Execute, ReviewedByItself, CommandHash, ContextHash, Vocabulary, NamesItself, HonestBeside;
    var s := Founded(identity, payload);
    FoundedInOrder(ed, identity, command, payload);
    SelfReviewExactly(ed, s, FounderParty(identity, command));
    assert |s.order| == 1;
  }
}
