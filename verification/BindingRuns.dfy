/**
 Runs of the principal service: the two projections and history never disagree.
 */
module BindingRuns {
  import opened Canon
  import opened Types
  import opened Ledgers
  import opened Gate
  import opened History
  import opened Requests
  import opened Authority
  import opened ServiceLaws
  import opened Idempotence
  import opened Principals

  /** One call: a link, a revocation, or any other step of the ledger. */
  datatype Call =
    | LinkCall(r: ActionRequest, p: Option<Principal>)
    | RevokeCall(r: ActionRequest, p: Option<Principal>)
    | OtherStep(step: Step)

  datatype World = World(ledger: Ledger, rows: seq<Row>)

  /** The call and its projection, in memory and in the table; a refused call projects nothing. */
  function Next(v: Service, w: World, call: Call): World {
    match call
    case LinkCall(r, p) =>
      var (t, result) := Link(v, w.ledger, r, p);
      if result.Err? then World(t, w.rows)
      else World(t, LinkRow(w.rows, TargetOf(r), LinkedIdentity(r), result.value.1.hash).GetOr(w.rows))
    case RevokeCall(r, p) =>
      var (t, result) := Revoke(v, w.ledger, r, p);
      if result.Err? then World(t, w.rows)
      else World(t, UnlinkRows(w.rows, TargetOf(r), result.value.1.hash))
    case OtherStep(step) => World(Apply(v.ed, w.ledger, step), w.rows)
  }

  /** A link that binds a principal as it is bound already, or binds an unbound one for a Command that
      has not been settled. */
  predicate BindsCleanly(s: Ledger, r: ActionRequest)
    requires IsLink(r)
  {
    if TargetOf(r) in s.bindings then s.bindings[TargetOf(r)] == LinkedIdentity(r) else !AlreadySettled(s, r)
  }

  /** A revocation of a principal that is not bound, or for a Command that has not been settled. */
  predicate RevokesCleanly(s: Ledger, r: ActionRequest)
    requires IsRevoke(r)
  {
    TargetOf(r) !in s.bindings || !AlreadySettled(s, r)
  }

  /** Accepted links and revocations are clean, and bindings change in no other way. */
  predicate Regular(v: Service, w: World, call: Call) {
    match call
    case LinkCall(r, p) => IsLink(r) && Link(v, w.ledger, r, p).1.Ok? ==> BindsCleanly(w.ledger, r)
    case RevokeCall(r, p) => IsRevoke(r) && Revoke(v, w.ledger, r, p).1.Ok? ==> RevokesCleanly(w.ledger, r)
    case OtherStep(Submit(q)) => q.actType != "PrincipalLinked" && q.actType != "PrincipalRevoked"
    case OtherStep(Administer(_, _, bindings)) => bindings == w.ledger.bindings
    case OtherStep(Put(_, _)) => true
  }

  function Run(v: Service, w0: World, calls: seq<Call>): World {
    if calls == [] then w0 else Next(v, Run(v, w0, calls[..|calls| - 1]), calls[|calls| - 1])
  }

  predicate IsRegularRun(v: Service, w0: World, calls: seq<Call>) {
    forall k | 0 <= k < |calls| :: Regular(v, Run(v, w0, calls[..k]), calls[k])
  }

  /** The memory map, the live rows and the projection of history say the same; no principal has two
      live rows; and every row was made by an Act in history. */
  predicate Agree(w: World, n: nat, base: map<Key, Text>) {
    && Lawful(w.ledger, n)
    && w.ledger.bindings == ProjectedBindings(w.ledger, n, base)
    && Shows(w.rows, w.ledger.bindings)
    && SingleLive(w.rows)
    && forall row | row in w.rows :: row.linkedAct in w.ledger.acts
  }

  lemma SingleLiveAppend(rows: seq<Row>, bindings: map<Key, Text>, row: Row)
    requires SingleLive(rows) && Shows(rows, bindings) && (row.issuer, row.subject) !in bindings
    ensures SingleLive(rows + [row])
  {
    assert forall i | 0 <= i < |rows| :: rows[i] in rows;
  }

  lemma SingleLiveUnlink(rows: seq<Row>, key: Key, act: Text)
    requires SingleLive(rows)
    ensures SingleLive(UnlinkRows(rows, key, act))
  {
  }

  /** A fresh Act of the service carries the request's payload, stored as it was sent. */
  lemma FreshEffect(v: Service, s: Ledger, r: ActionRequest, p: Option<Principal>, n: nat, base: map<Key, Text>)
    requires Lawful(s, n) && (IsLink(r) || IsRevoke(r))
    requires Authority.Commit(v, s, r, p).1.Ok? && Authority.Commit(v, s, r, p).1.value.1.hash !in s.acts
    ensures var t := Authority.Commit(v, s, r, p).0;
            && Lawful(t, n) && Extends(s, t) && t.bindings == s.bindings
            && Authority.Commit(v, s, r, p).1.value.1.hash in t.acts
            && ProjectedBindings(t, n, base) ==
                 if IsLink(r) then ProjectedBindings(s, n, base)[TargetOf(r) := LinkedIdentity(r)]
                 else ProjectedBindings(s, n, base) - {TargetOf(r)}
  {
    var t, act := Authority.Commit(v, s, r, p).0, Authority.Commit(v, s, r, p).1.value.1;
    var e := FreshActEvaluated(v, s, r, p);
    CommitKeepsLaw(v, s, r, p, n);
    FormFields(r);
    ProjectionExtends(s, t, n, base, act);
    PayloadAsSent(v, s, t, r, e, act);
    EffectAsSent(t.objects, ProjectedBindings(s, n, base), r, act);
  }

  lemma PayloadAsSent(v: Service, s: Ledger, t: Ledger, r: ActionRequest, e: Evaluated, act: Act)
    requires Placed(s, t, r, e, act) && Prepared(v, s, r, e) && r.payload.Some?
    ensures act.payloadHash in t.objects && t.objects[act.payloadHash].canon == Canonical(r.payload.value)
    ensures act.actType == r.actType
  {
  }

  lemma EffectAsSent(objects: map<Text, Record>, bindings: map<Key, Text>, r: ActionRequest, act: Act)
    requires IsLink(r) || IsRevoke(r)
    requires r.payload.Some? && act.payloadHash in objects && act.actType == r.actType
    requires objects[act.payloadHash].canon == Canonical(r.payload.value)
    ensures BindingEffect(objects, bindings, act) ==
              if IsLink(r) then bindings[TargetOf(r) := LinkedIdentity(r)] else bindings - {TargetOf(r)}
  {
    FormFields(r);
  }

  lemma CommitKeepsLaw(v: Service, s: Ledger, r: ActionRequest, p: Option<Principal>, n: nat)
    requires Lawful(s, n)
    ensures var t := Authority.Commit(v, s, r, p).0;
            Lawful(t, n) && Extends(s, t) && t.bindings == s.bindings
  {
    CommitIsRun(v, s, r, p);
    RunLawful(v.ed, s, StepsOf(v, s, r, p), n);
    BindingsUntouched(v, s, r, p);
  }

  lemma {:induction false} OnlyAdministerBinds(ed: Verifier, s: Ledger, steps: seq<Step>)
    requires forall step | step in steps :: !step.Administer?
    ensures Execute(ed, s, steps).bindings == s.bindings
  {
    if steps != [] {
      var last := steps[|steps| - 1];
      assert last in steps;
      OnlyAdministerBinds(ed, s, steps[..|steps| - 1]);
      StepKeepsBindings(ed, Execute(ed, s, steps[..|steps| - 1]), last);
    }
  }

  lemma StepKeepsBindings(ed: Verifier, s: Ledger, step: Step)
    requires !step.Administer?
    ensures Apply(ed, s, step).bindings == s.bindings
  {
    hide Refusal, CanonicalValue, ActOf, SigningValue, ContextValue;
  }

  lemma BindingsUntouched(v: Service, s: Ledger, r: ActionRequest, p: Option<Principal>)
    ensures Authority.Commit(v, s, r, p).0.bindings == s.bindings
  {
    hide Authority.Commit, Evaluate, Execute, SubmissionOf;
    CommitIsRun(v, s, r, p);
    OnlyAdministerBinds(v.ed, s, StepsOf(v, s, r, p));
  }

  // --- every call keeps the agreement ---

  /** History after a fresh Act, with what the Act did to the projected bindings. */
  predicate Rebinds(s: Ledger, t: Ledger, act: Text, n: nat, base: map<Key, Text>, bindings: map<Key, Text>) {
    && Lawful(s, n) && Lawful(t, n) && Extends(s, t) && t.bindings == s.bindings
    && act !in s.acts && act in t.acts
    && ProjectedBindings(t, n, base) == bindings
  }

  /** History after a call that placed nothing. */
  predicate Quiet(s: Ledger, t: Ledger, n: nat) {
    Lawful(t, n) && t.acts == s.acts && t.order == s.order && SameOn(s.objects, t.objects) && t.bindings == s.bindings
  }

  function AfterLink(w: World, t: Ledger, key: Key, identity: Text, act: Text): World {
    World(t.(bindings := t.bindings[key := identity]), LinkRow(w.rows, key, identity, act).GetOr(w.rows))
  }

  function AfterUnlink(w: World, t: Ledger, key: Key, act: Text): World {
    World(t.(bindings := t.bindings - {key}), UnlinkRows(w.rows, key, act))
  }

  lemma LinkOfUnbound(w: World, t: Ledger, key: Key, identity: Text, act: Text, n: nat, base: map<Key, Text>)
    requires Agree(w, n, base) && key !in w.ledger.bindings
    requires Rebinds(w.ledger, t, act, n, base, w.ledger.bindings[key := identity])
    ensures Agree(AfterLink(w, t, key, identity, act), n, base)
  {
    hide Lawful, ProjectedBindings, LinkRow, Shows, SingleLive;
    LinkShown(w.rows, w.ledger.bindings, key, identity, act);
    SingleLiveAppend(w.rows, w.ledger.bindings, Row(key.0, key.1, identity, act, None));
    Rebound(t, t.(bindings := t.bindings[key := identity]), n, base);
  }

  /** Linking a bound principal leaves the table as it is; the map agrees with it only if nothing changes. */
  lemma LinkOfBound(rows: seq<Row>, bindings: map<Key, Text>, key: Key, identity: Text, act: Text)
    requires Shows(rows, bindings) && key in bindings
    ensures LinkRow(rows, key, identity, act).GetOr(rows) == rows
    ensures Shows(rows, bindings[key := identity]) <==> bindings[key] == identity
  {
    var row :| row in rows && row.LiveFor(key);
    if bindings[key] == identity {
      assert bindings[key := identity] == bindings;
    }
  }

  lemma FreshLinkExactly(w: World, t: Ledger, key: Key, identity: Text, act: Text, n: nat, base: map<Key, Text>)
    requires Agree(w, n, base) && Rebinds(w.ledger, t, act, n, base, w.ledger.bindings[key := identity])
    ensures Agree(AfterLink(w, t, key, identity, act), n, base)
       <==> key !in w.ledger.bindings || w.ledger.bindings[key] == identity
  {
    if key !in w.ledger.bindings {
      LinkOfUnbound(w, t, key, identity, act, n, base);
    } else {
      hide Lawful, ProjectedBindings, LinkRow, Shows, SingleLive;
      LinkOfBound(w.rows, w.ledger.bindings, key, identity, act);
      Rebound(t, t.(bindings := t.bindings[key := identity]), n, base);
    }
  }

  lemma ReplayedLinkExactly(w: World, t: Ledger, key: Key, identity: Text, act: Text, n: nat, base: map<Key, Text>)
    requires Agree(w, n, base) && Quiet(w.ledger, t, n) && act in w.ledger.acts
    ensures Agree(AfterLink(w, t, key, identity, act), n, base)
       <==> key in w.ledger.bindings && w.ledger.bindings[key] == identity
  {
    hide Lawful, ProjectedBindings, LinkRow, Shows, SingleLive;
    LawfulIsWellFormed(t, n);
    ProjectionStable(w.ledger, t, n, base);
    Rebound(t, t.(bindings := t.bindings[key := identity]), n, base);
    if key in w.ledger.bindings {
      LinkOfBound(w.rows, w.ledger.bindings, key, identity, act);
    } else {
      assert key in w.ledger.bindings[key := identity];
    }
  }

  lemma UnlinkedAgrees(w: World, t: Ledger, key: Key, act: Text, n: nat, base: map<Key, Text>)
    requires Agree(w, n, base) && Lawful(t, n) && t.bindings == w.ledger.bindings && w.ledger.acts.Keys <= t.acts.Keys
    ensures Agree(AfterUnlink(w, t, key, act), n, base) <==> ProjectedBindings(t, n, base) == w.ledger.bindings - {key}
  {
    hide Lawful, ProjectedBindings, UnlinkRows, Shows, SingleLive;
    UnlinkShown(w.rows, w.ledger.bindings, key, act);
    SingleLiveUnlink(w.rows, key, act);
    Rebound(t, t.(bindings := t.bindings - {key}), n, base);
    UnlinkKeepsMakers(w.rows, key, act, t.acts.Keys);
  }

  lemma CommitReplays(v: Service, s: Ledger, r: ActionRequest, p: Option<Principal>, n: nat)
    requires Lawful(s, n) && Authority.Commit(v, s, r, p).1.Ok? && Authority.Commit(v, s, r, p).1.value.1.hash in s.acts
    ensures Quiet(s, Authority.Commit(v, s, r, p).0, n)
  {
    hide Lawful, Evaluate, Admit, Settled;
    CommitKeepsLaw(v, s, r, p, n);
    var e := CommitWasEvaluated(v, s, r, p);
    if CommitEvaluated(v, s, r, e) == Admit(v, s, r, e) && e.decision.outcome in PermittedOutcomes(e.actType)
       && e.decision.cut == HistoryCut(s)
    {
      LawfulIsWellFormed(s, n);
      AdmitPlaces(v, s, r, e);
    }
  }

  lemma LawfulIsWellFormed(s: Ledger, n: nat)
    requires Lawful(s, n)
    ensures WellFormed(s)
  {
  }

  lemma FreshOrSettled(v: Service, s: Ledger, r: ActionRequest, p: Option<Principal>, n: nat)
    requires Lawful(s, n) && (IsLink(r) || IsRevoke(r)) && Authority.Commit(v, s, r, p).1.Ok?
    ensures Authority.Commit(v, s, r, p).1.value.1.hash in s.acts <==> AlreadySettled(s, r)
  {
    hide Lawful, Authority.Commit, AlreadySettled;
    LawfulIsWellFormed(s, n);
    ConsequentialForms(r);
    FreshUnlessSettled(v, s, r, p);
  }

  lemma ConsequentialForms(r: ActionRequest)
    requires IsLink(r) || IsRevoke(r)
    ensures !IsLifecycle(r.actType)
  {
    assert !IsLifecycle("PrincipalLinked") && !IsLifecycle("PrincipalRevoked");
  }

  /** An accepted link keeps map, rows and projection in agreement exactly when it is clean. */
  lemma LinkAgreesExactly(v: Service, w: World, r: ActionRequest, p: Option<Principal>, n: nat, base: map<Key, Text>)
    requires Agree(w, n, base) && IsLink(r) && Authority.Commit(v, w.ledger, r, p).1.Ok?
    ensures Agree(Next(v, w, LinkCall(r, p)), n, base) <==> BindsCleanly(w.ledger, r)
  {
    hide Lawful, ProjectedBindings, LinkRow, Shows, SingleLive, Authority.Commit, IsLink, TargetOf, LinkedIdentity;
    hide Quiet, AlreadySettled;
    FreshOrSettled(v, w.ledger, r, p, n);
    var s, t, act := w.ledger, Authority.Commit(v, w.ledger, r, p).0, Authority.Commit(v, w.ledger, r, p).1.value.1;
    if act.hash in s.acts {
      CommitReplays(v, s, r, p, n);
      ReplayedLinkExactly(w, t, TargetOf(r), LinkedIdentity(r), act.hash, n, base);
    } else {
      FreshEffect(v, s, r, p, n, base);
      FreshLinkExactly(w, t, TargetOf(r), LinkedIdentity(r), act.hash, n, base);
    }
  }

  lemma NotBoth(r: ActionRequest)
    ensures !(IsLink(r) && IsRevoke(r))
  {
    assert "LinkPrincipal"[0] != "RevokePrincipal"[0];
  }

  /** And so does an accepted revocation. */
  lemma RevokeAgreesExactly(v: Service, w: World, r: ActionRequest, p: Option<Principal>, n: nat, base: map<Key, Text>)
    requires Agree(w, n, base) && IsRevoke(r) && Authority.Commit(v, w.ledger, r, p).1.Ok?
    ensures Agree(Next(v, w, RevokeCall(r, p)), n, base) <==> RevokesCleanly(w.ledger, r)
  {
    hide Lawful, ProjectedBindings, UnlinkRows, Shows, SingleLive, Authority.Commit, IsRevoke, TargetOf, AlreadySettled;
    FreshOrSettled(v, w.ledger, r, p, n);
    var s, t, act := w.ledger, Authority.Commit(v, w.ledger, r, p).0, Authority.Commit(v, w.ledger, r, p).1.value.1;
    NotBoth(r);
    CommitKeepsLaw(v, s, r, p, n);
    UnlinkedAgrees(w, t, TargetOf(r), act.hash, n, base);
    if act.hash in s.acts {
      CommitReplays(v, s, r, p, n);
      ProjectionStable(s, t, n, base);
      assert s.bindings == s.bindings - {TargetOf(r)} <==> TargetOf(r) !in s.bindings;
    } else {
      FreshEffect(v, s, r, p, n, base);
    }
  }

  lemma UnlinkKeepsMakers(rows: seq<Row>, key: Key, act: Text, known: set<Text>)
    requires forall row | row in rows :: row.linkedAct in known
    ensures forall row | row in UnlinkRows(rows, key, act) :: row.linkedAct in known
  {
    forall row | row in UnlinkRows(rows, key, act) ensures row.linkedAct in known {
      var i :| 0 <= i < |rows| && UnlinkRows(rows, key, act)[i] == row;
      assert rows[i] in rows;
    }
  }

  /** Changing bindings changes neither the law nor the projection of history. */
  lemma Rebound(s: Ledger, t: Ledger, n: nat, base: map<Key, Text>)
    requires Lawful(s, n) && t == s.(bindings := t.bindings)
    ensures Lawful(t, n) && ProjectedBindings(t, n, base) == ProjectedBindings(s, n, base)
  {
    ProjectionStable(s, t, n, base);
  }

  /** A refused call, like any step that places no Act, moves nothing. */
  lemma QuietKeepsAgreement(w: World, t: Ledger, n: nat, base: map<Key, Text>)
    requires Agree(w, n, base) && Lawful(t, n)
    requires t.acts == w.ledger.acts && t.order == w.ledger.order && SameOn(w.ledger.objects, t.objects)
    requires t.bindings == w.ledger.bindings
    ensures Agree(World(t, w.rows), n, base)
  {
    ProjectionStable(w.ledger, t, n, base);
  }

  lemma RefusedKeepsAgreement(v: Service, w: World, r: ActionRequest, p: Option<Principal>, n: nat,
                              base: map<Key, Text>)
    requires Agree(w, n, base) && Authority.Commit(v, w.ledger, r, p).1.Err?
    ensures Agree(World(Authority.Commit(v, w.ledger, r, p).0, w.rows), n, base)
  {
    CommitKeepsLaw(v, w.ledger, r, p, n);
    RefusalLeavesHistory(v, w.ledger, r, p);
    QuietKeepsAgreement(w, Authority.Commit(v, w.ledger, r, p).0, n, base);
  }

  lemma OtherKeepsAgreement(v: Service, w: World, step: Step, n: nat, base: map<Key, Text>)
    requires Agree(w, n, base) && Regular(v, w, OtherStep(step))
    ensures Agree(Next(v, w, OtherStep(step)), n, base)
  {
    hide Gate.Commit, ProjectedBindings, Shows, SingleLive, CanonicalValue, Justified;
    var s, t := w.ledger, Apply(v.ed, w.ledger, step);
    StepLawful(v.ed, s, step, n);
    if step.Submit? {
      CommitEffect(v.ed, s, step.q);
    }
    if t.order == s.order {
      assert t.acts == s.acts;
      QuietKeepsAgreement(w, t, n, base);
    } else {
      var act := ActOf(step.q);
      ProjectionExtends(s, t, n, base, act);
      assert BindingEffect(t.objects, s.bindings, act) == s.bindings;
    }
  }

  lemma CallKeepsAgreement(v: Service, w: World, call: Call, n: nat, base: map<Key, Text>)
    requires Agree(w, n, base) && Regular(v, w, call)
    ensures Agree(Next(v, w, call), n, base)
  {
    match call
    case LinkCall(r, p) =>
      if IsLink(r) && Authority.Commit(v, w.ledger, r, p).1.Ok? {
        LinkAgreesExactly(v, w, r, p, n, base);
      } else if IsLink(r) {
        RefusedKeepsAgreement(v, w, r, p, n, base);
      }
    case RevokeCall(r, p) =>
      if IsRevoke(r) && Authority.Commit(v, w.ledger, r, p).1.Ok? {
        RevokeAgreesExactly(v, w, r, p, n, base);
      } else if IsRevoke(r) {
        RefusedKeepsAgreement(v, w, r, p, n, base);
      }
    case OtherStep(step) => OtherKeepsAgreement(v, w, step, n, base);
  }

  /** Over every regular run: memory, table and history agree on who is bound to what. */
  lemma {:induction false} BindingsAgree(v: Service, w0: World, calls: seq<Call>, n: nat, base: map<Key, Text>)
    requires Agree(w0, n, base) && IsRegularRun(v, w0, calls)
    ensures Agree(Run(v, w0, calls), n, base)
  {
    if calls != [] {
      var k := |calls| - 1;
      assert IsRegularRun(v, w0, calls[..k]) by {
        forall j | 0 <= j < k ensures Regular(v, Run(v, w0, calls[..k][..j]), calls[..k][j]) {
          assert calls[..k][..j] == calls[..j];
          assert Regular(v, Run(v, w0, calls[..j]), calls[j]);
        }
      }
      BindingsAgree(v, w0, calls[..k], n, base);
      assert Regular(v, Run(v, w0, calls[..k]), calls[k]);
      CallKeepsAgreement(v, Run(v, w0, calls[..k]), calls[k], n, base);
    }
  }

  /** A fresh ledger with no rows agrees to begin with, whatever seeds it holds. */
  lemma EmptyTableAgrees(s: Ledger)
    requires WellFormed(s) && s.bindings == map[]
    ensures Agree(World(s, []), |s.order|, map[])
  {
  }
}
