/**
 Binding and unbinding on a founded ledger: where map, table and history agree, and where they part.
 */
module BindingScenario {
  import opened Canon
  import opened Types
  import opened Ledgers
  import opened History
  import opened Consequence
  import opened MemoryLedgers
  import opened Authority
  import opened Idempotence
  import opened Principals
  import opened Founding
  import opened Scenario
  import BindingRuns
  import BindingOrder

  // --- memory and table, one call after the other ---

  /** The root's link binds the principal, in memory, in the table and in the projection of history. */
  lemma LinkBindsPrincipal(c: Case)
    requires Stands(c) && c.bound == map[]
    ensures var w := BindingRuns.Next(Config(c), BindingRuns.World(FoundedFor(c), []),
                                      BindingRuns.LinkCall(Request(c, Linking), None));
            && BindingRuns.Agree(w, 1, map[])
            && c.key in w.ledger.bindings && w.ledger.bindings[c.key] == c.root.hash
  {
    hide Authority.Commit, Hosts, BindingRuns.Agree, Config, FoundedFor, Stands, Ready, Places;
    StartReady(c, Linking);
    StartWellFormed(c);
    var act := FirstRequestPlaces(c);
    BindingRuns.EmptyTableAgrees(FoundedFor(c));
    FormMet(c);
    FormTargets(c);
    BindingRuns.LinkAgreesExactly(Config(c), BindingRuns.World(FoundedFor(c), []), Request(c, Linking), None, 1, map[]);
    NewIsUnsettled(c, Linking, FoundedFor(c));
  }

  lemma StartWellFormed(c: Case)
    ensures WellFormed(FoundedFor(c))
  {
    hide Honest;
    StartReady(c, Linking);
  }

  lemma NewIsUnsettled(c: Case, kind: Kind, s: Ledger)
    requires Stands(c) && Ready(c, kind, s)
    ensures !AlreadySettled(s, Request(c, kind))
  {
    hide Stands, Hosts, Honest, WellFormed, Request, Signed, ActsForCommand, CommandHash;
    CommandDecodes(c, kind);
  }

  /** The founded ledger with the principal bound to somebody else before. */
  function BoundStart(c: Case, other: Text): BindingRuns.World {
    BindingRuns.World(FoundedFor(c), [Row(c.key.0, c.key.1, other, GENESIS, None)])
  }

  lemma BoundStartAgrees(c: Case, other: Text)
    requires c.bound == map[c.key := other]
    ensures BindingRuns.Agree(BoundStart(c, other), 1, c.bound)
  {
    hide Vocabulary;
    var w := BoundStart(c, other);
    StartWellFormed(c);
    assert w.rows[0].LiveFor(c.key) && w.rows[0] in w.rows;
  }

  /** Binding a bound principal to another Identity: the link is accepted, and map and table part. */
  lemma RelinkParts(c: Case, other: Text)
    requires Stands(c) && c.bound == map[c.key := other] && other != c.root.hash
    ensures BindingRuns.Agree(BoundStart(c, other), 1, c.bound)
    ensures Authority.Commit(Config(c), FoundedFor(c), Request(c, Linking), None).1.Ok?
    ensures !BindingRuns.Agree(BindingRuns.Next(Config(c), BoundStart(c, other),
                                                BindingRuns.LinkCall(Request(c, Linking), None)), 1, c.bound)
  {
    hide Authority.Commit, Hosts, BindingRuns.Agree, Config, FoundedFor, Stands, Ready, Places;
    StartReady(c, Linking);
    var act := FirstRequestPlaces(c);
    BoundStartAgrees(c, other);
    FormMet(c);
    FormTargets(c);
    BindingRuns.LinkAgreesExactly(Config(c), BoundStart(c, other), Request(c, Linking), None, 1, c.bound);
  }

  // --- a link, a revocation, and the link again ---

  lemma KindsDiffer(c: Case)
    ensures CommandHash(Signed(c, Linking)) != CommandHash(Signed(c, Revoking))
  {
    hide Payload, SigningValue;
    assert CommandType(Linking)[0] != CommandType(Revoking)[0];
    if CommandHash(Signed(c, Linking)) == CommandHash(Signed(c, Revoking)) {
      CommandHashInjective(Signed(c, Linking), Signed(c, Revoking));
    }
  }

  /** One kind of request leaves the other as new as it was. */
  lemma OtherStaysReady(c: Case, kind: Kind, other: Kind, s: Ledger, t: Ledger, act: Act)
    requires Ready(c, other, s) && Places(c, kind, s, t, act) && Hosts(c, t) && kind != other
    ensures Ready(c, other, t)
  {
    hide Hosts, Honest, Payload, SigningValue, DerivedContext, CommandHash, Signed;
    KindsDiffer(c);
    OwnedAppend(s.acts, s.order, act, CommandHash(Signed(c, other)));
    PlacedHash(c, kind, s, t, act);
  }

  lemma PlacedHash(c: Case, kind: Kind, s: Ledger, t: Ledger, act: Act)
    requires Places(c, kind, s, t, act)
    ensures act.commandHash == CommandHash(Signed(c, kind))
  {
    hide Honest, Payload, SigningValue, DerivedContext;
  }

  /** Whom principals are bound to plays no part in what the root is answered. */
  lemma RebindingKeeps(c: Case, kind: Kind, s: Ledger, t: Ledger)
    requires t == s.(bindings := t.bindings)
    ensures Hosts(c, s) ==> Hosts(c, t)
    ensures Ready(c, kind, s) ==> Ready(c, kind, t)
    ensures PayloadFree(c, s) ==> PayloadFree(c, t)
  {
    hide CommandHash, Payload, FoundedFor;
  }

  /** The link's Act is in a history that hosts the root, with single consequences. */
  predicate HoldsLink(c: Case, s: Ledger, act: Act) {
    && Hosts(c, s) && WellFormed(s) && SingleConsequence(s) && act.hash in s.acts && s.acts[act.hash] == act
    && act.actType == ActTypeOf(Linking) && act.commandHash == CommandHash(Signed(c, Linking)) && act.parents == []
    && act.payloadHash == ObjectHash("payload", Payload(c)) && act.identityHash == c.root.hash
    && act.contextHash == ContextHash(DerivedContext(c))
  }

  lemma SettledAnswer(c: Case, s: Ledger, act: Act)
    requires Stands(c) && HoldsLink(c, s, act)
    ensures var (t, r) := Authority.Commit(Config(c), s, Request(c, Linking), None);
            t == s && r.Ok? && r.value.1 == act
    ensures AlreadySettled(s, Request(c, Linking))
  {
    hide Evaluate, Config, DerivedContext, Hosts, Stands, Payload, Settled, ContextHash, WellFormed, SingleConsequence;
    hide SigningValue, SettledBefore;
    var e := RequestAllowed(c, Linking, s);
    KindsNamed(Linking);
    assert Request(c, Linking).actType == ActTypeOf(Linking);
    SettledIsTheConsequence(s, e, act);
    SettledDecides(Config(c), s, Request(c, Linking), e, act);
    CommandDecodes(c, Linking);
    ConsequenceMembers(s, CommandHash(Signed(c, Linking)));
  }

  lemma PlacedIsLinked(c: Case, s: Ledger, t: Ledger, act: Act)
    requires Places(c, Linking, s, t, act) && Hosts(c, t) && SingleConsequence(t)
    ensures HoldsLink(c, t, act)
  {
    hide Hosts, Honest, Payload, DerivedContext, SingleConsequence, CommandHash, ContextHash;
  }

  lemma LinkedStays(c: Case, s: Ledger, t: Ledger, act: Act)
    requires HoldsLink(c, s, act) && Hosts(c, t) && WellFormed(t) && SingleConsequence(t) && SameOn(s.acts, t.acts)
    ensures HoldsLink(c, t, act)
  {
    hide Hosts, Payload, DerivedContext, SingleConsequence, CommandHash, ContextHash, WellFormed;
  }

  /** The root's link and then its revocation, with anything done to bindings after each. */
  lemma LinkThenRevoke(c: Case, bindings1: map<Key, Text>) returns (s: Ledger, t: Ledger, link: Act, revoke: Act)
    requires Stands(c)
    ensures var (t1, r1) := Authority.Commit(Config(c), FoundedFor(c), Request(c, Linking), None);
            && s == t1.(bindings := bindings1) && r1.Ok? && r1.value.1 == link && link.hash !in FoundedFor(c).acts
            && !AlreadySettled(FoundedFor(c), Request(c, Linking))
    ensures var (t2, r2) := Authority.Commit(Config(c), s, Request(c, Revoking), None);
            && t == t2 && r2.Ok? && r2.value.1 == revoke && revoke.hash !in s.acts
            && !AlreadySettled(s, Request(c, Revoking))
    ensures HoldsLink(c, s, link) && HoldsLink(c, t, link)
  {
    hide Authority.Commit, Hosts, Config, FoundedFor, Stands, Ready, Places, HoldsLink, SingleConsequence, PayloadFree;
    StartReady(c, Linking);
    StartReady(c, Revoking);
    link := FirstRequestPlaces(c);
    NewIsUnsettled(c, Linking, FoundedFor(c));
    var t1 := Authority.Commit(Config(c), FoundedFor(c), Request(c, Linking), None).0;
    s := t1.(bindings := bindings1);
    StartWellFormed(c);
    LaterSingle(c, Linking, FoundedFor(c));
    PlacedIsLinked(c, FoundedFor(c), t1, link);
    OtherStaysReady(c, Linking, Revoking, FoundedFor(c), t1, link);
    PlacedFacts(c, Linking, FoundedFor(c), t1, link);
    RebindingKeeps(c, Revoking, t1, s);
    SameSingle(t1, s);
    LinkedStays(c, t1, s, link);
    NewIsUnsettled(c, Revoking, s);
    revoke := RequestPlaces(c, Revoking, s);
    t := Authority.Commit(Config(c), s, Request(c, Revoking), None).0;
    PlacedFacts(c, Revoking, s, t, revoke);
    LaterSingle(c, Revoking, s);
    LinkedStays(c, s, t, link);
  }

  lemma PlacedFacts(c: Case, kind: Kind, s: Ledger, t: Ledger, act: Act)
    requires Places(c, kind, s, t, act)
    ensures act.hash !in s.acts && WellFormed(t) && PayloadFree(c, t) && SameOn(s.acts, t.acts)
  {
    hide Honest, Payload, DerivedContext, PayloadFree, SigningValue;
  }

  lemma LaterSingle(c: Case, kind: Kind, s: Ledger)
    requires WellFormed(s) && SingleConsequence(s)
    ensures SingleConsequence(Authority.Commit(Config(c), s, Request(c, kind), None).0)
  {
    hide Authority.Commit, Config, Request;
    LaterLedger(Config(c), s, Request(c, kind), None, []);
  }

  lemma SameSingle(s: Ledger, t: Ledger)
    requires t.acts == s.acts && t.order == s.order
    ensures SingleConsequence(s) ==> SingleConsequence(t)
    ensures WellFormed(s) ==> WellFormed(t)
  {
  }

  /** HoldsLink, revoked and linked again by the same request: all three calls are accepted, the third as a
      replay.  Up to the second everything agrees; after it the principal is bound in memory and unbound
      in history. */
  lemma ReplayedLinkParts(c: Case)
    requires Stands(c) && c.bound == map[]
    ensures var v, link, revoke := Config(c), BindingRuns.LinkCall(Request(c, Linking), None),
                                   BindingRuns.RevokeCall(Request(c, Revoking), None);
            var w2 := BindingRuns.Run(v, BindingRuns.World(FoundedFor(c), []), [link, revoke]);
            && BindingRuns.Agree(w2, 1, map[])
            && Authority.Commit(v, w2.ledger, Request(c, Linking), None).1.Ok?
            && !BindingRuns.Agree(BindingRuns.Next(v, w2, link), 1, map[])
  {
    hide Authority.Commit, Hosts, BindingRuns.Agree, Config, FoundedFor, Stands, Ready, HoldsLink, AlreadySettled;
    hide Request;
    hide Places, IsLink, IsRevoke, TargetOf, LinkedIdentity;
    var v, link := Config(c), BindingRuns.LinkCall(Request(c, Linking), None);
    var revoke := BindingRuns.RevokeCall(Request(c, Revoking), None);
    var w0 := BindingRuns.World(FoundedFor(c), []);
    FormMet(c);
    FormTargets(c);
    LinkBindsPrincipal(c);
    var w1 := BindingRuns.Next(v, w0, link);
    var w2 := BindingRuns.Next(v, w1, revoke);
    RunOfTwo(v, w0, link, revoke);
    var s, t, act, other := LinkThenRevoke(c, w1.ledger.bindings);
    assert w1.ledger == s;
    BindingRuns.RevokeAgreesExactly(v, w1, Request(c, Revoking), None, 1, map[]);
    assert w2.ledger == t.(bindings := t.bindings - {c.key});
    Unbinding(c, t, w2.ledger, act);
    SettledAnswer(c, w2.ledger, act);
    BindingRuns.LinkAgreesExactly(v, w2, Request(c, Linking), None, 1, map[]);
  }

  lemma Unbinding(c: Case, s: Ledger, t: Ledger, act: Act)
    requires HoldsLink(c, s, act) && t == s.(bindings := t.bindings)
    ensures HoldsLink(c, t, act)
  {
    hide Payload, DerivedContext, CommandHash, ContextHash, FoundedFor;
    SameSingle(s, t);
  }

  lemma RunOfTwo(v: Service, w: BindingRuns.World, a: BindingRuns.Call, b: BindingRuns.Call)
    ensures BindingRuns.Run(v, w, [a, b]) == BindingRuns.Next(v, BindingRuns.Next(v, w, a), b)
  {
    hide BindingRuns.Next;
    assert [a, b][..1] == [a] && [a][..0] == [];
    assert BindingRuns.Run(v, w, [a]) == BindingRuns.Next(v, w, a);
  }

  // --- the table, with overlapping calls ---

  /** Both Acts committed, neither projection written. */
  lemma BothCommitted(c: Case) returns (w: BindingOrder.World, link: Act, revoke: Act)
    requires Stands(c) && c.bound == map[]
    ensures var v, w0 := Config(c), BindingOrder.World(FoundedFor(c), [], []);
            && BindingOrder.Sound(w0, 1, map[])
            && w == BindingOrder.Next(v, BindingOrder.Next(v, w0, BindingOrder.LinkCommit(Request(c, Linking), None)),
                                      BindingOrder.RevokeCommit(Request(c, Revoking), None))
    ensures BindingOrder.Sound(w, 1, map[]) && w.rows == []
    ensures w.pending == [BindingOrder.Bind(c.key, c.root.hash, link.hash), BindingOrder.Unbind(c.key, revoke.hash)]
  {
    hide Authority.Commit, Hosts, Config, FoundedFor, Stands, Ready, HoldsLink, AlreadySettled, Request;
    hide BindingOrder.Sound;
    hide IsLink, IsRevoke, TargetOf, LinkedIdentity, ProjectedBindings;
    var v, w0 := Config(c), BindingOrder.World(FoundedFor(c), [], []);
    FormMet(c);
    FormTargets(c);
    FoundedInTurn(c);
    StartReady(c, Linking);
    var s, t;
    s, t, link, revoke := LinkThenRevoke(c, map[]);
    NothingResolved(FoundedFor(c));
    BindingOrder.CommittedInTurn(v, w0, Request(c, Linking), None, 1, map[]);
    var w1 := BindingOrder.Next(v, w0, BindingOrder.LinkCommit(Request(c, Linking), None));
    assert BindingOrder.View(w1) == s;
    BindingOrder.SameSettled(w1.ledger, s, Request(c, Revoking));
    BindingRuns.NotBoth(Request(c, Revoking));
    BindingOrder.CommittedInTurn(v, w1, Request(c, Revoking), None, 1, map[]);
    w := BindingOrder.Next(v, w1, BindingOrder.RevokeCommit(Request(c, Revoking), None));
  }

  lemma NothingResolved(s: Ledger)
    ensures BindingOrder.View(BindingOrder.World(s, [], [])) == s.(bindings := map[])
  {
  }

  lemma FoundedInTurn(c: Case)
    ensures BindingOrder.Sound(BindingOrder.World(FoundedFor(c), [], []), 1, map[])
    ensures WellFormed(FoundedFor(c)) && 1 <= |FoundedFor(c).order|
    ensures ProjectedBindings(FoundedFor(c), 1, map[]) == map[]
  {
    hide FoundedFor;
    StartReady(c, Linking);
    StartWellFormed(c);
    BindingOrder.StartInTurn(FoundedFor(c), [], 1, map[]);
  }

  /** Two calls overlap: the link commits, the revocation commits and writes, the link writes.  Then no
      projection is left to be written, history has unbound the principal, and the table resolves it to
      the root for good.  Had the two been written in the order of their Acts, the table would agree. */
  lemma OverlappingCallsPart(c: Case)
    requires Stands(c) && c.bound == map[]
    ensures var v, w0 := Config(c), BindingOrder.World(FoundedFor(c), [], []);
            var commits := [BindingOrder.LinkCommit(Request(c, Linking), None),
                            BindingOrder.RevokeCommit(Request(c, Revoking), None)];
            var w := BindingOrder.Run(v, w0, commits + [BindingOrder.Write(1), BindingOrder.Write(0)]);
            && BindingOrder.Sound(w0, 1, map[])
            && w.pending == [] && WellFormed(w.ledger) && 1 <= |w.ledger.order|
            && c.key !in ProjectedBindings(w.ledger, 1, map[])
            && BindingOrder.LiveOf(w.rows, c.key) == Some(c.root.hash)
            && !Shows(w.rows, ProjectedBindings(w.ledger, 1, map[]))
    ensures var v, w0 := Config(c), BindingOrder.World(FoundedFor(c), [], []);
            var commits := [BindingOrder.LinkCommit(Request(c, Linking), None),
                            BindingOrder.RevokeCommit(Request(c, Revoking), None)];
            var w := BindingOrder.Run(v, w0, commits + [BindingOrder.Write(0), BindingOrder.Write(0)]);
            && w.pending == [] && WellFormed(w.ledger) && 1 <= |w.ledger.order|
            && Shows(w.rows, ProjectedBindings(w.ledger, 1, map[]))
  {
    hide Config, FoundedFor, Stands, Request, BindingOrder.Sound, ProjectedBindings, Shows, BindingOrder.Written;
    hide WellFormed;
    hide BindingOrder.Committed;
    var v, w0 := Config(c), BindingOrder.World(FoundedFor(c), [], []);
    var a := BindingOrder.LinkCommit(Request(c, Linking), None);
    var b := BindingOrder.RevokeCommit(Request(c, Revoking), None);
    var w, link, revoke := BothCommitted(c);
    BindingOrder.OvertakenWrites(w, 1, map[], c.key, c.root.hash, link.hash, revoke.hash);
    RunOfFour(v, w0, a, b, BindingOrder.Write(1), BindingOrder.Write(0));
    RunOfFour(v, w0, a, b, BindingOrder.Write(0), BindingOrder.Write(0));
    TwoWrites(v, w);
    var first, second := BindingOrder.Write(0), BindingOrder.Write(1);
    assert [a, b] + [second, first] == [a, b, second, first] && [a, b] + [first, first] == [a, b, first, first];
  }

  lemma TwoWrites(v: Service, w: BindingOrder.World)
    requires |w.pending| == 2
    ensures BindingOrder.Next(v, BindingOrder.Next(v, w, BindingOrder.Write(1)), BindingOrder.Write(0)) ==
              BindingOrder.World(w.ledger,
                                 BindingOrder.Written(BindingOrder.Written(w.rows, w.pending[1]), w.pending[0]), [])
    ensures BindingOrder.Next(v, BindingOrder.Next(v, w, BindingOrder.Write(0)), BindingOrder.Write(0)) ==
              BindingOrder.World(w.ledger,
                                 BindingOrder.Written(BindingOrder.Written(w.rows, w.pending[0]), w.pending[1]), [])
  {
    hide BindingOrder.Written;
    var p := w.pending;
    assert BindingOrder.Without(p, 1) == [p[0]] && BindingOrder.Without(p, 0) == [p[1]];
    assert BindingOrder.Without([p[0]], 0) == [] && BindingOrder.Without([p[1]], 0) == [];
  }

  lemma RunOfFour(v: Service, w: BindingOrder.World, a: BindingOrder.Move, b: BindingOrder.Move, d: BindingOrder.Move,
                  e: BindingOrder.Move)
    ensures BindingOrder.Run(v, w, [a, b, d, e]) ==
              BindingOrder.Next(v, BindingOrder.Next(v, BindingOrder.Next(v, BindingOrder.Next(v, w, a), b), d), e)
  {
    hide BindingOrder.Next;
    assert [a, b, d, e][..3] == [a, b, d] && [a, b, d][..2] == [a, b] && [a, b][..1] == [a] && [a][..0] == [];
    assert BindingOrder.Run(v, w, [a]) == BindingOrder.Next(v, w, a);
    assert BindingOrder.Run(v, w, [a, b]) == BindingOrder.Next(v, BindingOrder.Next(v, w, a), b);
    assert BindingOrder.Run(v, w, [a, b, d]) == BindingOrder.Next(v, BindingOrder.Run(v, w, [a, b]), d);
  }
}
