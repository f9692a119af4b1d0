/**
 Repeating a consequential request, in any later state (service/authority.py, `_settled_consequence`).
 */
module Idempotence {
  import opened Canon
  import opened Types
  import opened Ledgers
  import opened Gate
  import opened History
  import opened Consequence
  import opened Requests
  import opened Authority
  import opened ServiceLaws

  /** No Act is stored at the content hash of another.  A seed may have any other hash. */
  predicate SelfNamed(s: Ledger) {
    forall h | h in s.acts && IsActHash(h) :: h == RecordedHash(s.acts[h])
  }

  lemma StepSelfNamed(ed: Verifier, s: Ledger, step: Step)
    requires WellFormed(s) && SelfNamed(s)
    ensures SelfNamed(Apply(ed, s, step))
  {
    if step.Submit? {
      CommitEffect(ed, s, step.q);
    }
  }

  lemma {:induction false} RunSelfNamed(ed: Verifier, s0: Ledger, steps: seq<Step>)
    requires WellFormed(s0) && SelfNamed(s0)
    ensures SelfNamed(Execute(ed, s0, steps))
  {
    if steps != [] {
      var init := steps[..|steps| - 1];
      RunSelfNamed(ed, s0, init);
      RunLawful(ed, s0, init, |s0.order|);
      StepSelfNamed(ed, Execute(ed, s0, init), steps[|steps| - 1]);
    }
  }

  /** No cut contains the hash of an Act that records it. */
  lemma CutMissesItsAct(a: Act, h: Text)
    requires h in a.decisionCut
    ensures h != RecordedHash(a)
  {
    RecordedLists(a);
    var hash := RecordedHash(a);
    assert hash.value.fields["decision_cut"] == Sorted(a.decisionCut);
    assert Sorted(a.decisionCut) < hash.value;
    assert Sorted(a.decisionCut) decreases to h;
    assert hash decreases to h;
  }

  /** At the present history nothing has been placed yet: its hash would have to lie in its own cut. */
  lemma PresentIsUnplaced(s: Ledger, q: Submission)
    requires q.decision.cut == HistoryCut(s)
    ensures ActHash(q) !in s.acts
  {
    ActMatchesItsValue(q);
    if ActHash(q) in s.acts {
      CutMissesItsAct(ActOf(q), ActHash(q));
    }
  }

  /** The Act is in history, belongs to the evaluated Command, and is the consequence it asked for. */
  predicate Answers(s: Ledger, e: Evaluated, a: Act) {
    && a.hash in s.acts && s.acts[a.hash] == a
    && a.commandHash == CommandHash(e.command) && !IsLifecycle(a.actType)
    && SameConsequence(a, e)
  }

  /** The Command of this request has reached consequence: what the service looks up before anything else. */
  predicate AlreadySettled(s: Ledger, r: ActionRequest) {
    CommandOf(r).Ok? && HasConsequence(s, CommandHash(CommandOf(r).value))
  }

  lemma {:induction false} SettledIfAny(acts: seq<Act>, e: Evaluated)
    ensures Settled(acts, e) == Ok(None) <==> forall a | a in acts :: IsLifecycle(a.actType)
  {
    if acts != [] {
      SettledIfAny(acts[1..], e);
      assert acts == [acts[0]] + acts[1..];
    }
  }

  lemma AdmittedIsFresh(v: Service, s: Ledger, r: ActionRequest, e: Evaluated)
    requires WellFormed(s) && PayloadFlaw(s, r).None? && Admit(v, s, r, e).1.Ok?
    requires e.decision.cut == HistoryCut(s) && e.decision.outcome in PermittedOutcomes(e.actType)
    ensures Admit(v, s, r, e).1.value.1.hash !in s.acts
  {
    hide Admit, Placed;
    AdmitPlaces(v, s, r, e);
    PresentIsUnplaced(s, SubmissionOf(e, r));
  }

  /** A consequential request that is accepted is given a fresh Act exactly when its Command has no
      consequence yet. */
  lemma FreshUnlessSettled(v: Service, s: Ledger, r: ActionRequest, p: Option<Principal>)
    requires WellFormed(s) && !IsLifecycle(r.actType) && Authority.Commit(v, s, r, p).1.Ok?
    ensures Authority.Commit(v, s, r, p).1.value.1.hash in s.acts <==> AlreadySettled(s, r)
  {
    hide Evaluate, Admit, Settled, Authority.Commit, Governed, Attributed, ActsForCommand, CommandHash;
    var e := CommitWasEvaluated(v, s, r, p);
    SettledIfAny(ActsForCommand(s, CommandHash(e.command)), e);
    match SettledBefore(s, e)
    case Ok(Some(act)) => SettledWasPlaced(s, e, act);
    case Ok(None) => AdmittedIsFresh(v, s, r, e);
    case Err(_) =>
  }

  lemma AdmittedAnswers(v: Service, s: Ledger, r: ActionRequest, e: Evaluated)
    requires WellFormed(s) && PayloadFlaw(s, r).None? && Admit(v, s, r, e).1.Ok?
    requires e.decision.cut == HistoryCut(s) && e.decision.outcome in PermittedOutcomes(e.actType)
    requires !IsLifecycle(e.actType)
    ensures Answers(Admit(v, s, r, e).0, e, Admit(v, s, r, e).1.value.1)
  {
    hide Admit, CanonicalValue, Justified;
    AdmitPlaces(v, s, r, e);
    AdmittedIsFresh(v, s, r, e);
  }

  /** Whatever consequential Act the service returns, it is the one asked for, and it is in history. */
  lemma ReturnedActAnswers(v: Service, s: Ledger, r: ActionRequest, p: Option<Principal>) returns (e: Evaluated)
    requires WellFormed(s) && !IsLifecycle(r.actType)
    requires Authority.Commit(v, s, r, p).1.Ok?
    ensures Evaluate(v, s, r, p) == Ok(e)
    ensures Answers(Authority.Commit(v, s, r, p).0, e, Authority.Commit(v, s, r, p).1.value.1)
  {
    e := CommitWasEvaluated(v, s, r, p);
    match SettledBefore(s, e)
    case Ok(Some(act)) => SettledWasPlaced(s, e, act);
    case Ok(None) => AdmittedAnswers(v, s, r, e);
    case Err(_) =>
  }

  lemma {:induction false} OnlyOneToSettle(acts: seq<Act>, e: Evaluated, a: Act)
    requires a in acts && !IsLifecycle(a.actType)
    requires forall b | b in acts && !IsLifecycle(b.actType) :: b == a
    ensures Settled(acts, e) == if SameConsequence(a, e) then Ok(Some(a)) else Err(Conflict)
  {
    if IsLifecycle(acts[0].actType) {
      assert a in acts[1..];
      OnlyOneToSettle(acts[1..], e, a);
    } else {
      assert acts[0] in acts;
    }
  }

  lemma SettledIsTheConsequence(s: Ledger, e: Evaluated, a: Act)
    requires WellFormed(s) && SingleConsequence(s) && !IsLifecycle(e.actType)
    requires a.hash in s.acts && s.acts[a.hash] == a
    requires a.commandHash == CommandHash(e.command) && !IsLifecycle(a.actType)
    ensures SettledBefore(s, e) == if SameConsequence(a, e) then Ok(Some(a)) else Err(Conflict)
  {
    var acts := ActsForCommand(s, CommandHash(e.command));
    assert a.hash in ToSet(s.order);
    OwnedMembers(s.acts, s.order, CommandHash(e.command), a);
    forall b | b in acts && !IsLifecycle(b.actType) ensures b == a {
      OwnedMembers(s.acts, s.order, CommandHash(e.command), b);
    }
    OnlyOneToSettle(acts, e, a);
  }

  lemma SameCommandSameParts(e: Evaluated, e': Evaluated)
    requires CommandHash(e'.command) == CommandHash(e.command)
    requires e.identity.hash == e.command.identityHash && e'.identity.hash == e'.command.identityHash
    ensures e'.identity.hash == e.identity.hash && e'.command.parents == e.command.parents
    ensures e'.command.payloadHash == e.command.payloadHash
  {
    CommandHashInjective(e.command, e'.command);
  }

  /** After the service returned a consequential Act for a Command, any later allowed consequential
      request for that Command leaves the ledger exactly as it is, whatever was committed in between:
      it is given that very Act if it asks for the same Act type in the same Context, and is refused
      as a conflict if it asks for anything else. */
  lemma ServiceIdempotent(v: Service, s: Ledger, r: ActionRequest, p: Option<Principal>, steps: seq<Step>,
                          r': ActionRequest, p': Option<Principal>)
    requires WellFormed(s) && SingleConsequence(s) && !IsLifecycle(r.actType)
    requires Authority.Commit(v, s, r, p).1.Ok?
    requires var later := Execute(v.ed, Authority.Commit(v, s, r, p).0, steps);
             && Evaluate(v, later, r', p').Ok? && Evaluate(v, s, r, p).Ok?
             && var (e, e') := (Evaluate(v, s, r, p).value, Evaluate(v, later, r', p').value);
             && e'.decision.outcome == Allow && !IsLifecycle(e'.actType)
             && CommandHash(e'.command) == CommandHash(e.command)
    ensures var (t, result) := Authority.Commit(v, s, r, p);
            var later := Execute(v.ed, t, steps);
            var (e, e') := (Evaluate(v, s, r, p).value, Evaluate(v, later, r', p').value);
            var act := result.value.1;
            Authority.Commit(v, later, r', p') ==
              (later, if e'.actType == e.actType && e'.context == e.context
                      then Ok((Replay(e', Allow, act), act)) else Err(Conflict))
  {
    var e := ReturnedActAnswers(v, s, r, p);
    var t, act := Authority.Commit(v, s, r, p).0, Authority.Commit(v, s, r, p).1.value.1;
    var later := Execute(v.ed, t, steps);
    var e' := Evaluate(v, later, r', p').value;
    EvaluationEstablishes(v, s, r, p);
    EvaluationEstablishes(v, later, r', p');
    LaterLedger(v, s, r, p, steps);
    SameCommandSameParts(e, e');
    SettledIsTheConsequence(later, e', act);
    SameConsequenceExactly(act, e, e');
    SettledDecides(v, later, r', e', act);
  }

  lemma SameConsequenceExactly(a: Act, e: Evaluated, e': Evaluated)
    requires SameConsequence(a, e)
    requires e'.identity.hash == e.identity.hash && e'.command.parents == e.command.parents
    requires e'.command.payloadHash == e.command.payloadHash
    ensures SameConsequence(a, e') <==> e'.actType == e.actType && e'.context == e.context
  {
    if ContextHash(e'.context) == ContextHash(e.context) {
      ContextHashInjective(e'.context, e.context);
    }
  }

  lemma SettledDecides(v: Service, s: Ledger, r: ActionRequest, e: Evaluated, a: Act)
    requires e.decision.outcome == Allow && !IsLifecycle(e.actType)
    requires SettledBefore(s, e) == if SameConsequence(a, e) then Ok(Some(a)) else Err(Conflict)
    ensures CommitEvaluated(v, s, r, e) ==
              (s, if SameConsequence(a, e) then Ok((Replay(e, Allow, a), a)) else Err(Conflict))
  {
  }

  /** Between the first answer and the second, history is a run. */
  lemma LaterLedger(v: Service, s: Ledger, r: ActionRequest, p: Option<Principal>, steps: seq<Step>)
    requires WellFormed(s) && SingleConsequence(s)
    ensures var t := Authority.Commit(v, s, r, p).0;
            var later := Execute(v.ed, t, steps);
            WellFormed(later) && SingleConsequence(later) && Extends(t, later)
  {
    CommitIsRun(v, s, r, p);
    var t := Authority.Commit(v, s, r, p).0;
    RunLawful(v.ed, s, StepsOf(v, s, r, p), |s.order|);
    RunSingleConsequence(v.ed, s, StepsOf(v, s, r, p));
    RunLawful(v.ed, t, steps, |t.order|);
    RunSingleConsequence(v.ed, t, steps);
  }

  /** History and existing objects are as they were; what was added is addressed by its content. */
  predicate LeavesHistory(s: Ledger, t: Ledger) {
    && t.acts == s.acts && t.order == s.order && SameOn(s.objects, t.objects)
    && forall h | h in t.objects && h !in s.objects :: Addressed(h, t.objects[h])
  }

  /** A request the service refuses leaves history as it was; only well-addressed objects may remain. */
  lemma RefusalLeavesHistory(v: Service, s: Ledger, r: ActionRequest, p: Option<Principal>)
    requires WellFormed(s) && Authority.Commit(v, s, r, p).1.Err?
    ensures LeavesHistory(s, Authority.Commit(v, s, r, p).0)
  {
    if Evaluate(v, s, r, p).Ok? {
      var e := Evaluate(v, s, r, p).value;
      EvaluationEstablishes(v, s, r, p);
      RefusedEvaluated(v, s, r, e);
    }
  }

  /** What two writes leave when both only add well-addressed objects, the second refused. */
  lemma RefusedAfterPayload(s: Ledger, s1: Ledger, t: Ledger)
    requires s1.acts == s.acts && s1.order == s.order && SameOn(s.objects, s1.objects)
    requires forall h | h in s1.objects && h !in s.objects :: Addressed(h, s1.objects[h])
    requires t.acts == s1.acts && t.order == s1.order && SameOn(s1.objects, t.objects)
    requires forall h | h in t.objects && h !in s1.objects :: Addressed(h, t.objects[h])
    ensures LeavesHistory(s, t)
  {
  }

  lemma RefusedAdmission(v: Service, s: Ledger, r: ActionRequest, e: Evaluated)
    requires WellFormed(s) && PayloadFlaw(s, r).None? && Admit(v, s, r, e).1.Err?
    ensures LeavesHistory(s, Admit(v, s, r, e).0)
  {
    hide Gate.Commit, SubmissionOf, Addressed, LeavesHistory;
    if WithPayload(s, r).Some? {
      PayloadStored(s, r);
      var s1, q := WithPayload(s, r).value, SubmissionOf(e, r);
      CommitLeavesAddressed(v.ed, s1, q);
      assert Admit(v, s, r, e).0 == Gate.Commit(v.ed, s1, q).0 && Gate.Commit(v.ed, s1, q).1.Err?;
      RefusedAfterPayload(s, s1, Gate.Commit(v.ed, s1, q).0);
    } else {
      assert Admit(v, s, r, e).0 == s;
      LeavesItself(s);
    }
  }

  lemma LeavesItself(s: Ledger)
    ensures LeavesHistory(s, s)
  {
  }

  lemma RefusedEvaluated(v: Service, s: Ledger, r: ActionRequest, e: Evaluated)
    requires WellFormed(s) && PayloadFlaw(s, r).None? && CommitEvaluated(v, s, r, e).1.Err?
    ensures LeavesHistory(s, CommitEvaluated(v, s, r, e).0)
  {
    hide Admit, Settled, LeavesHistory;
    if CommitEvaluated(v, s, r, e) == Admit(v, s, r, e) {
      RefusedAdmission(v, s, r, e);
    } else {
      LeavesItself(s);
    }
  }
}
