/**
 The commit gate driving a store step by step (kernel/commit.py).
 */
module CommitGates {
  import opened Canon
  import opened Types
  import opened Ledgers
  import opened Gate
  import opened MemoryLedgers

  class CommitGate {
    const store: MemoryLedger
    const ed: Verifier

    constructor (store: MemoryLedger, ed: Verifier)
      ensures this.store == store && this.ed == ed
    {
      this.store, this.ed := store, ed;
    }

    /** The Acts the authorization chain resolves to. */
    method LinkedActs(authChain: seq<Text>) returns (linked: seq<Act>)
      ensures linked == Linked(store.acts, authChain)
    {
      linked := [];
      for i := 0 to |authChain|
        invariant linked == Linked(store.acts, authChain[..i])
      {
        assert authChain[..i + 1][..i] == authChain[..i];
        var act := store.GetAct(authChain[i]);
        if act.Some? {
          linked := linked + [act.value];
        }
      }
      assert authChain[..|authChain|] == authChain;
    }

    method RequireStructuralProof(q: Submission) returns (flaw: Option<CommitError>)
      requires store.Valid()
      ensures flaw == ProofFlaw(store.View(), q)
    {
      var command := CommandHash(q.command);
      if q.actType == "AuthorizationReviewed" {
        if q.command.commandType != "ReviewAuthorization" {
          return Some(NotAReviewCommand);
        }
        if ReviewedCommand(store.objects, q.command.payloadHash).None? {
          return Some(NoReviewTarget);
        }
        return None;
      }
      var linked := LinkedActs(q.authChain);
      if q.actType == "AuthorizationResolved" {
        if !exists a :: a in linked && IsRequestFor(a, command) {
          return Some(MissingReviewRequest);
        }
        if !exists a :: a in linked && IsReview(a) {
          return Some(MissingReview);
        }
        if exists a :: a in linked && IsReview(a) && ReviewedCommand(store.objects, a.payloadHash) != Some(command) {
          return Some(ReviewsDifferentCommand);
        }
        return None;
      }
      if IsLifecycle(q.actType) {
        return None;
      }
      var owned := store.GetActsForCommand(command);
      var underReview := exists a :: a in owned && a.actType == "ReviewRequested";
      if underReview && !exists a :: a in linked && IsResolutionOf(a, command) {
        return Some(UnresolvedReview);
      }
      return None;
    }

    method AllRegistered(kind: string, names: seq<Text>, cut: set<Text>) returns (all: bool)
      ensures all <==> forall name | name in names :: Registered(store.View(), kind, name, cut)
    {
      for i := 0 to |names|
        invariant forall k | 0 <= k < i :: Registered(store.View(), kind, names[k], cut)
      {
        if !Registered(store.View(), kind, names[i], cut) {
          return false;
        }
      }
      return true;
    }

    method KeysRegistered(keys: set<string>, cut: set<Text>) returns (all: bool)
      ensures all <==> forall key | key in keys :: Registered(store.View(), "context_type", Plain(key), cut)
    {
      var left := keys;
      while left != {}
        invariant left <= keys
        invariant forall key | key in keys && key !in left :: Registered(store.View(), "context_type", Plain(key), cut)
        decreases |left|
      {
        var key :| key in left;
        if !Registered(store.View(), "context_type", Plain(key), cut) {
          return false;
        }
        left := left - {key};
      }
      return true;
    }

    method ActsKnown(hashes: seq<Text>) returns (all: bool)
      ensures all <==> forall h | h in hashes :: h in store.acts
    {
      for i := 0 to |hashes|
        invariant forall k | 0 <= k < i :: hashes[k] in store.acts
      {
        if store.GetAct(hashes[i]).None? {
          return false;
        }
      }
      return true;
    }

    /** The guards asked of the registry, the store and the parents. */
    method RequireGoverned(q: Submission) returns (refusal: Option<CommitError>)
      requires store.Valid()
      ensures refusal == GovernanceFlaw(store.View(), q)
    {
      var registryCut := q.decision.registryCut;
      if !Registered(store.View(), "command_type", Plain(q.command.commandType), registryCut) {
        return Some(UnregisteredCommandType);
      }
      if !Registered(store.View(), "act_type", Plain(q.actType), registryCut) {
        return Some(UnregisteredActType);
      }
      if q.decision.ruleHashes == [] {
        return Some(NoRule);
      }
      var ok := AllRegistered("rule", q.decision.ruleHashes, registryCut);
      if !ok {
        return Some(UnregisteredRule);
      }
      ok := KeysRegistered(q.context.values.Keys, registryCut);
      if !ok {
        return Some(UnregisteredContextType);
      }
      if q.command.payloadHash !in store.objects {
        return Some(MissingPayload);
      }
      ok := ActsKnown(q.command.parents);
      return if ok then None else Some(MissingParent);
    }

    /** Place the Command, the Context and the Act, stopping at the first collision. */
    method PlaceAct(q: Submission) returns (r: Result<Act, CommitError>)
      requires store.Valid()
      modifies store
      ensures store.Valid()
      ensures (store.View(), r) == Place(old(store.View()), q)
      ensures store.commandIndex ==
                if r.Ok? && ActHash(q) !in old(store.acts) then Indexed(old(store.commandIndex), ActOf(q))
                else old(store.commandIndex)
    {
      var ok := store.PutObject(CommandHash(q.command), Canonical(SigningValue(q.command)), "command");
      if !ok {
        return Err(CasCollision);
      }
      ok := store.PutObject(ContextHash(q.context), Canonical(ContextValue(q.context)), "context");
      if !ok {
        return Err(CasCollision);
      }
      r := store.CommitAct(ActOf(q), Canonical(CanonicalValue(q)));
    }

    method Commit(q: Submission) returns (r: Result<Act, CommitError>)
      requires store.Valid()
      modifies store
      ensures store.Valid()
      ensures (store.View(), r) == Gate.Commit(ed, old(store.View()), q)
      ensures r.Ok? ==>
                && q.identity.hash == q.command.identityHash
                && ed(q.identity.publicKey, q.command.signature, SigningValue(q.command))
      ensures store.commandIndex ==
                if r.Ok? && ActHash(q) !in old(store.acts) then Indexed(old(store.commandIndex), ActOf(q))
                else old(store.commandIndex)
    {
      if q.identity.hash != q.command.identityHash {
        return Err(IdentityMismatch);
      }
      if !ed(q.identity.publicKey, q.command.signature, SigningValue(q.command)) {
        return Err(InvalidSignature);
      }
      var existing := store.GetAct(ActHash(q));
      if existing.Some? {
        return Ok(existing.value);
      }
      if q.decision.outcome !in PermittedOutcomes(q.actType) {
        return Err(OutcomeNotPermitted);
      }
      var owned := store.GetActsForCommand(CommandHash(q.command));
      if !IsLifecycle(q.actType) && exists a :: a in owned && !IsLifecycle(a.actType) {
        return Err(AlreadyConsequential);
      }
      var flaw := RequireStructuralProof(q);
      if flaw.Some? {
        return Err(flaw.value);
      }
      if HistoryCut(store.View()) != q.decision.cut {
        return Err(HistoryAdvanced);
      }
      var refusal := RequireGoverned(q);
      if refusal.Some? {
        return Err(refusal.value);
      }
      r := PlaceAct(q);
    }
  }
}
