/**
 Idempotence, failure atomicity and the single consequence of a Command, over every run
 (kernel/commit.py, kernel/memory.py).
 */
module Consequence {
  import opened Canon
  import opened Types
  import opened Ledgers
  import opened Gate
  import opened History

  /** No two Acts outside the lifecycle set belong to one Command. */
  predicate SingleConsequence(s: Ledger) {
    forall g, h | g in s.acts && h in s.acts
               && s.acts[g].commandHash == s.acts[h].commandHash
               && !IsLifecycle(s.acts[g].actType) && !IsLifecycle(s.acts[h].actType) :: g == h
  }

  lemma StepSingleConsequence(ed: Verifier, s: Ledger, step: Step)
    requires WellFormed(s) && SingleConsequence(s)
    ensures SingleConsequence(Apply(ed, s, step))
  {
    hide Commit, RecordedValue, CanonicalValue;
    if step.Submit? {
      CommitEffect(ed, s, step.q);
      var t := Apply(ed, s, step);
      if t.acts != s.acts {
        var a := ActOf(step.q);
        assert OnlyConsequence(t.acts, s.order, a);
        forall h | h in s.acts && s.acts[h].commandHash == a.commandHash && !IsLifecycle(a.actType)
          ensures IsLifecycle(s.acts[h].actType)
        {
          assert h in ToSet(s.order) && t.acts[h] == s.acts[h];
        }
      }
    }
  }

  /** Over every run a Command reaches consequence at most once. */
  lemma {:induction false} RunSingleConsequence(ed: Verifier, s0: Ledger, steps: seq<Step>)
    requires WellFormed(s0) && SingleConsequence(s0)
    ensures SingleConsequence(Execute(ed, s0, steps))
  {
    if steps != [] {
      var init := steps[..|steps| - 1];
      RunSingleConsequence(ed, s0, init);
      RunLawful(ed, s0, init, |s0.order|);
      StepSingleConsequence(ed, Execute(ed, s0, init), steps[|steps| - 1]);
    }
  }

  /** An accepted commit, repeated with the same arguments in any later state, returns the
      equal Act and writes nothing. */
  lemma GateReplay(ed: Verifier, s: Ledger, q: Submission, steps: seq<Step>)
    requires WellFormed(s) && Commit(ed, s, q).1.Ok?
    ensures var (t, r) := Commit(ed, s, q);
            var later := Execute(ed, t, steps);
            Commit(ed, later, q) == (later, r)
  {
    CommitEffect(ed, s, q);
    var t := Commit(ed, s, q).0;
    RunLawful(ed, t, steps, |t.order|);
    assert ActHash(q) in t.acts;
  }

  /** Over every run, each placed Act certifies itself: its hash is the hash of what it records,
      those bytes are stored under it, and so are its Command and its Context under theirs. */
  lemma PlacedActsSelfCertify(ed: Verifier, s0: Ledger, steps: seq<Step>, h: Text)
    requires WellFormed(s0)
    ensures var s := Execute(ed, s0, steps);
            h in s.acts && h !in s0.acts ==>
              && h == RecordedHash(s.acts[h])
              && SelfCertified(s.objects, s.acts[h])
              && CommandOnRecord(s.objects, s.acts[h])
              && ContextOnRecord(s.objects, s.acts[h])
              && s.acts[h].payloadHash in s.objects
  {
    hide Execute, RecordedValue, ReviewResolved, ResolutionGrounded, OnlyConsequence;
    RunLawful(ed, s0, steps, |s0.order|);
    var s := Execute(ed, s0, steps);
    if h in s.acts && h !in s0.acts {
      assert h in ToSet(s.order);
      var i :| 0 <= i < |s.order| && s.order[i] == h;
      forall k | 0 <= k < |s0.order| ensures s0.order[k] in s0.acts {
        assert s0.order[k] in ToSet(s0.order);
      }
      assert Justified(s.objects, s.acts, s.order[..i], s.acts[h]);
    }
  }

  /** An Act found under a submission's hash is that submission's Act in every field, so returning it
      unexamined is safe; only a seed that is stored at a hash other than its own could differ. */
  lemma ReplayedActIsExact(ed: Verifier, s0: Ledger, steps: seq<Step>, q: Submission)
    requires WellFormed(s0)
    ensures var s, h := Execute(ed, s0, steps), ActHash(q);
            h in s.acts ==> (s.acts[h] == ActOf(q) <==> (h in s0.acts ==> RecordedHash(s0.acts[h]) == h))
  {
    hide Execute, RecordedValue, CanonicalValue;
    RunLawful(ed, s0, steps, |s0.order|);
    var s, h := Execute(ed, s0, steps), ActHash(q);
    ActMatchesItsValue(q);
    if h in s.acts {
      if h !in s0.acts {
        PlacedActsSelfCertify(ed, s0, steps, h);
      }
      if RecordedHash(s.acts[h]) == h {
        RecordedHashInjective(s.acts[h], ActOf(q));
      }
    }
  }

  // --- what a commit leaves behind ---

  /** An object stored at the hash of its own kind and canonical value. */
  predicate Addressed(h: Text, record: Record) {
    record.canon.Canonical? && h == ObjectHash(record.kind, record.canon.value)
  }

  /** Rejected or not, a commit never touches an existing object, and whatever it adds is
      addressed by its own content; rejected, it leaves history as it was. */
  lemma CommitLeavesAddressed(ed: Verifier, s: Ledger, q: Submission)
    requires WellFormed(s)
    ensures var (t, r) := Commit(ed, s, q);
            && SameOn(s.objects, t.objects)
            && (forall h | h in t.objects && h !in s.objects :: Addressed(h, t.objects[h]))
            && (r.Err? ==> t.acts == s.acts && t.order == s.order && HistoryCut(t) == HistoryCut(s))
  {
    CommitEffect(ed, s, q);
    if AuthenticityFlaw(ed, q).None? && ActHash(q) !in s.acts && Refusal(s, q).None? {
      PlaceAdds(s, CommandHash(q.command), CommandRecord(q), ContextHash(q.context), ContextRecord(q),
                ActOf(q), Canonical(CanonicalValue(q)));
    }
  }

  lemma PlaceAdds(s: Ledger, commandHash: Text, command: Record, contextHash: Text, context: Record,
                  act: Act, canon: Blob)
    ensures var t := PlaceWith(s, commandHash, command, contextHash, context, act, canon).0;
            forall h | h in t.objects && h !in s.objects ::
              || (h == commandHash && t.objects[h] == command)
              || (h == contextHash && t.objects[h] == context)
              || (h == act.hash && t.objects[h] == Record(canon, "act"))
  {
    PutEffect(s, commandHash, command);
    var s1 := PutObject(s, commandHash, command);
    if s1.Some? {
      PutEffect(s1.value, contextHash, context);
      var s2 := PutObject(s1.value, contextHash, context);
      if s2.Some? {
        var t := CommitAct(s2.value, act, canon).0;
        assert t == s2.value || t.objects == s2.value.objects[act.hash := Record(canon, "act")];
      }
    }
  }

  /** The hashes the gate writes to hold nothing but their own content. */
  predicate Honest(s: Ledger) {
    forall h | h in s.objects && h.Digest? && h.kind in {"command", "context", "act"} ::
      s.objects[h] == Record(Canonical(h.value), h.kind)
  }

  /** In an honest store the gate accepts exactly the submissions under the Command's own Identity, with its
      valid signature, that either repeat a placed Act or are refused by no guard. */
  lemma HonestAcceptance(ed: Verifier, s: Ledger, q: Submission)
    requires WellFormed(s) && Honest(s)
    ensures Commit(ed, s, q).1.Ok?
       <==> && q.identity.hash == q.command.identityHash
            && ed(q.identity.publicKey, q.command.signature, SigningValue(q.command))
            && (ActHash(q) in s.acts || Refusal(s, q).None?)
    ensures Honest(Commit(ed, s, q).0)
  {
    CommitLeavesAddressed(ed, s, q);
    if AuthenticityFlaw(ed, q).None? && ActHash(q) !in s.acts && Refusal(s, q).None? {
      HashesDiffer(q);
      PutEffect(s, CommandHash(q.command), CommandRecord(q));
      var s1 := PutObject(s, CommandHash(q.command), CommandRecord(q)).value;
      PutEffect(s1, ContextHash(q.context), ContextRecord(q));
      var s2 := PutObject(s1, ContextHash(q.context), ContextRecord(q)).value;
      assert ActHash(q) in s2.objects ==> s2.objects[ActHash(q)] == Record(Canonical(CanonicalValue(q)), "act");
    }
  }

  // --- placement, said outright ---

  predicate Free(objects: map<Text, Record>, h: Text, record: Record) {
    h in objects ==> objects[h] == record
  }

  predicate Unobstructed(s: Ledger, q: Submission) {
    && Free(s.objects, CommandHash(q.command), CommandRecord(q))
    && Free(s.objects, ContextHash(q.context), ContextRecord(q))
  }

  /** The ledger with the two supporting objects of a submission stored. */
  function Lodged(s: Ledger, q: Submission): Ledger {
    s.(objects := s.objects[CommandHash(q.command) := CommandRecord(q)][ContextHash(q.context) := ContextRecord(q)])
  }

  /** The ledger once a submission is carried out. */
  function AfterPlacing(s: Ledger, q: Submission): Ledger {
    Append(Lodged(s, q), ActOf(q), Canonical(CanonicalValue(q)))
  }

  /** Authentic, new, refused by no guard and with no other object in the way, a submission is placed. */
  lemma UnobstructedCommit(ed: Verifier, s: Ledger, q: Submission)
    requires AuthenticityFlaw(ed, q).None? && ActHash(q) !in s.acts && Refusal(s, q).None?
    requires Unobstructed(s, q) && Free(s.objects, ActHash(q), Record(Canonical(CanonicalValue(q)), "act"))
    ensures Commit(ed, s, q) == (AfterPlacing(s, q), Ok(ActOf(q)))
  {
    hide Refusal, AuthenticityFlaw, CanonicalValue, CommandHash, ContextHash, CommandRecord, ContextRecord;
    HashesDiffer(q);
  }

  lemma PlacedGrows(s: Ledger, q: Submission)
    ensures AfterPlacing(s, q).acts == s.acts[ActHash(q) := ActOf(q)]
    ensures AfterPlacing(s, q).order == s.order + [ActHash(q)]
  {
    hide CanonicalValue;
    assert ActOf(q).hash == ActHash(q);
  }
}
