/**
 The root's requests among concurrent workers: there are runs that serve them.
 */
module ServiceScenario {
  import opened Canon
  import opened Types
  import opened Ledgers
  import opened Gate
  import opened History
  import opened Consequence
  import opened Postgres
  import opened Authority
  import opened Concurrency
  import opened Founding
  import opened Scenario
  import opened Interleaving
  import Schedules

  /** The founded ledger with the payload stored. */
  function Stocked(c: Case, kind: Kind): Ledger {
    WithPayload(FoundedFor(c), Request(c, kind)).GetOr(FoundedFor(c))
  }

  lemma PreparedReady(c: Case, kind: Kind)
    ensures Ready(c, kind, Stocked(c, kind)) && Signed(c, kind).payloadHash in Stocked(c, kind).objects
    ensures Stocked(c, kind).order == [GENESIS] && HistoryCut(Stocked(c, kind)) == {GENESIS}
    ensures OnlyPayloads(Stocked(c, kind))
  {
    hide Ready, Payload, Signed;
    StartReady(c, kind);
    StartFree(c);
    FreeIsAdmitted(c, kind, FoundedFor(c));
    PayloadAdmitted(c, kind, FoundedFor(c));
    PreparedHolds(c, kind);
  }

  lemma PreparedHolds(c: Case, kind: Kind)
    ensures HistoryCut(Stocked(c, kind)) == {GENESIS} && OnlyPayloads(Stocked(c, kind))
  {
    hide Vocabulary, Payload;
  }

  lemma RootIsKnown(c: Case, kind: Kind, s: Ledger, q: Submission)
    requires Stands(c) && Ready(c, kind, s) && Asks(c, kind, q, HistoryCut(s))
    requires s.order == [GENESIS] && Signed(c, kind).payloadHash in s.objects
    requires ActHash(q) !in s.objects
    ensures Known(Lodged(s, q), q)
  {
    hide CanonicalValue, DerivedContext, ContextValue, SigningValue, Payload, Honest, ActHash, IsClosedCut;
    HashesDiffer(q);
    NoItems();
    KindsNamed(kind);
    var t := Lodged(s, q);
    SeedIsNobodys(c, kind, s);
    assert !ConsequenceIndexHolds(t, CommandHash(q.command));
  }

  lemma SeedIsNobodys(c: Case, kind: Kind, s: Ledger)
    requires Ready(c, kind, s)
    ensures !ConsequenceIndexHolds(s, CommandHash(Signed(c, kind)))
  {
    hide Hosts, Honest, Payload, SigningValue;
    var command := CommandHash(Signed(c, kind));
    forall h | h in s.order && h in s.acts ensures s.acts[h].commandHash != command {
      OwnedMembers(s.acts, s.order, command, s.acts[h]);
    }
  }

  /** Every request of the root is servable on the founded ledger with its payload stored. */
  lemma RootIsServable(c: Case, kind: Kind) returns (e: Evaluated)
    requires Stands(c)
    ensures Servable(Config(c), Stocked(c, kind), Request(c, kind), None, e)
  {
    hide Evaluate, Stands, Asks, Favours, Stocked, Config, Request, ActsForCommand, CommandHash, Signed, Known, Refusal;
    hide GovernanceFlaw, Unobstructed, Schedules.RpcAccepts, ActHash, Honest, Speaks, OnlyPayloads, DerivedContext;
    hide Hosts, CommandType, ActTypeOf;
    var s, r := Stocked(c, kind), Request(c, kind);
    PreparedReady(c, kind);
    e := RequestAllowed(c, kind, s);
    var q := SubmissionOf(e, r);
    Authentic(c, kind, s, e);
    RequestGoverned(c, kind, s, q);
    Unowned(c, kind, s, q);
    PresentAsked(c, kind, s, q);
    FreeAmongPayloads(s, q);
    RootIsKnown(c, kind, s, q);
    RpcServesRoot(c, kind, s, q);
    AskedCut(c, kind, q, HistoryCut(s));
  }

  lemma AskedCut(c: Case, kind: Kind, q: Submission, cut: set<Text>)
    requires Asks(c, kind, q, cut)
    ensures q.decision.cut == cut && q.decision.registryCut == cut
  {
  }

  lemma RpcServesRoot(c: Case, kind: Kind, s: Ledger, q: Submission)
    requires Ready(c, kind, s) && Asks(c, kind, q, HistoryCut(s)) && HistoryCut(s) == {GENESIS}
    requires Known(Lodged(s, q), q)
    ensures Schedules.RpcAccepts(Lodged(s, q), q)
  {
    hide CanonicalValue, DerivedContext, ContextValue, SigningValue, Payload, Honest, Known, Vocabulary, ActHash;
    VocabularyKnown(c, s, kind);
    KindsNamed(kind);
    OneItem(GENESIS);
    SpeaksStill(s, Lodged(s, q));
    RpcAcceptsKnown(Lodged(s, q), q, COMMAND_TYPES, BINDING_ACT_TYPES, CONTEXT_KEYS, [GENESIS]);
  }

  lemma SpeaksStill(s: Ledger, t: Ledger)
    requires Speaks(s, COMMAND_TYPES, BINDING_ACT_TYPES, CONTEXT_KEYS) && t.registry == s.registry && t.acts == s.acts
    ensures Speaks(t, COMMAND_TYPES, BINDING_ACT_TYPES, CONTEXT_KEYS)
  {
  }

  /** So there are interleaved runs that serve it. */
  lemma RootIsServed(c: Case, kind: Kind) returns (e: Evaluated, xs: seq<System>, es: seq<Event>, k: nat)
    requires Stands(c)
    ensures ServesRequest(Config(c), xs, es, AtOnce(), 0, k, Request(c, kind), None, e)
  {
    hide ServesRequest, Servable, Stands;
    e := RootIsServable(c, kind);
    xs, es, k := ServableIsServed(Config(c), Stocked(c, kind), Request(c, kind), None, e);
  }
}
