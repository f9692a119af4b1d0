/**
 The authority service driving a ledger (service/authority.py).
 */
module AuthorityServices {
  import opened Canon
  import opened Types
  import opened Ledgers
  import opened History
  import opened MemoryLedgers
  import opened CommitGates
  import opened Rules
  import opened Requests
  import opened Authority
  import opened ServiceLaws

  class AuthorityService {
    const ledger: MemoryLedger
    const config: Service

    constructor (ledger: MemoryLedger, config: Service)
      ensures this.ledger == ledger && this.config == config
    {
      this.ledger, this.config := ledger, config;
    }

    method ResolveRules(registryCut: set<Text>) returns (r: Result<seq<Rule>, ServiceError>)
      ensures r == Resolve(config, ledger.registry, config.ruleNames, registryCut)
    {
      hide ResolveOne;
      var names := config.ruleNames;
      var resolved := [];
      for i := 0 to |names|
        invariant Resolve(config, ledger.registry, names[..i], registryCut) == Ok(resolved)
      {
        assert names[..i + 1][..i] == names[..i];
        var one := ResolveOne(config, ledger.registry, names[i], registryCut);
        if one.Err? {
          ResolveStops(config, ledger.registry, names, registryCut, i + 1);
          return Err(one.error);
        }
        resolved := resolved + [one.value];
      }
      assert names[..|names|] == names;
      return Ok(resolved);
    }

    method EvaluateAction(request: ActionRequest, principal: Option<Principal>)
      returns (r: Result<Evaluated, ServiceError>)
      ensures r == Evaluate(config, ledger.View(), request, principal)
    {
      var s := ledger.View();
      var parsed := CommandOf(request);
      if parsed.Err? {
        return Err(parsed.error);
      }
      var command := parsed.value;
      var historyCut, registryCut := HistoryCutOf(s, request), RegistryCutOf(s, request);
      if !IsClosedCut(s, historyCut) || !IsClosedCut(s, registryCut) || !(registryCut <= historyCut) {
        return Err(Validation);
      }
      if command.identityHash !in ledger.identities {
        return Err(NotFound);
      }
      var identity := ledger.identities[command.identityHash];
      if !config.ed(identity.publicKey, command.signature, SigningValue(command)) {
        return Err(Unauthorized);
      }
      var requester := ResolveRequester(s, config.allowSigned, identity, principal);
      if requester.Err? {
        return Err(requester.error);
      }
      var layered := ContextOf(request, DerivedKeys(identity, requester.value.0, requester.value.1, principal));
      if layered.Err? {
        return Err(layered.error);
      }
      r := Deliberate(request, identity, command, layered.value, historyCut, registryCut);
    }

    method Deliberate(request: ActionRequest, identity: Identity, command: Command, context: Context,
                      historyCut: set<Text>, registryCut: set<Text>) returns (r: Result<Evaluated, ServiceError>)
      ensures r == Judge(config, ledger.View(), request, identity, command, context, historyCut, registryCut)
    {
      var s := ledger.View();
      var payloadFlaw := PayloadFlaw(s, request);
      if payloadFlaw.Some? {
        return Err(payloadFlaw.value);
      }
      var registryFlaw := RegistryFlaw(s, request, context, registryCut);
      if registryFlaw.Some? {
        return Err(registryFlaw.value);
      }
      var resolved := ResolveRules(registryCut);
      if resolved.Err? {
        return Err(resolved.error);
      }
      var rules := resolved.value;
      if |rules| == 0 {
        return Err(Unauthorized);
      }
      for i := 0 to |rules|
        invariant forall k | 0 <= k < i :: Registered(s, "rule", rules[k].hash, registryCut)
      {
        if !Registered(s, "rule", rules[i].hash, registryCut) {
          assert RuleHashes(rules)[i] in RuleHashes(rules);
          return Err(Validation);
        }
      }
      var decision := Authorize(identity, command, context, historyCut, registryCut, rules);
      if decision.Err? {
        return Err(RuleFailure(decision.error));
      }
      return Ok(Evaluated(identity, command, context, decision.value, request.actType, request.authChain,
                          request.payload));
    }

    /** The consequential Act this Command already produced, if any. */
    method SettledConsequence(e: Evaluated) returns (r: Result<Option<Act>, ServiceError>)
      requires ledger.Valid()
      ensures r == Settled(ActsForCommand(ledger.View(), CommandHash(e.command)), e)
    {
      var acts := ledger.GetActsForCommand(CommandHash(e.command));
      for i := 0 to |acts|
        invariant Settled(acts, e) == Settled(acts[i..], e)
      {
        assert acts[i..][1..] == acts[i + 1..];
        if !IsLifecycle(acts[i].actType) {
          if !SameConsequence(acts[i], e) {
            return Err(Conflict);
          }
          return Ok(Some(acts[i]));
        }
      }
      return Ok(None);
    }

    /** Store the payload, then submit to the gate. */
    method AdmitAction(request: ActionRequest, e: Evaluated) returns (r: Result<(Evaluated, Act), ServiceError>)
      requires ledger.Valid()
      modifies ledger
      ensures ledger.Valid()
      ensures (ledger.View(), r) == Admit(config, old(ledger.View()), request, e)
      ensures ledger.commandIndex ==
                if r.Ok? && r.value.1.hash !in old(ledger.acts) then Indexed(old(ledger.commandIndex), r.value.1)
                else old(ledger.commandIndex)
    {
      var before := HistoryCut(ledger.View());
      if request.payload.Some? {
        var ok := ledger.PutObject(request.payloadHash, Canonical(request.payload.value), "payload");
        if !ok {
          return Err(PayloadCollision);
        }
      }
      var gate := new CommitGate(ledger, config.ed);
      ghost var s, q := ledger.View(), SubmissionOf(e, request);
      CommitEffect(config.ed, s, q);
      var answer := gate.Commit(SubmissionOf(e, request));
      if answer.Err? {
        return Err(Refused(answer.error));
      }
      var act := answer.value;
      return Ok((if act.hash in before then Replay(e, e.decision.outcome, act) else e, act));
    }

    method Commit(request: ActionRequest, principal: Option<Principal>)
      returns (r: Result<(Evaluated, Act), ServiceError>)
      requires ledger.Valid()
      modifies ledger
      ensures ledger.Valid()
      ensures (ledger.View(), r) == Authority.Commit(config, old(ledger.View()), request, principal)
      ensures ledger.commandIndex ==
                if r.Ok? && r.value.1.hash !in old(ledger.acts) then Indexed(old(ledger.commandIndex), r.value.1)
                else old(ledger.commandIndex)
    {
      var evaluation := EvaluateAction(request, principal);
      if evaluation.Err? {
        return Err(evaluation.error);
      }
      var e := evaluation.value;
      if e.decision.outcome !in PermittedOutcomes(e.actType) {
        return Err(Unauthorized);
      }
      if !IsLifecycle(e.actType) {
        var settled := SettledConsequence(e);
        if settled.Err? {
          return Err(settled.error);
        }
        if settled.value.Some? {
          SettledWasPlaced(ledger.View(), e, settled.value.value);
          return Ok((Replay(e, Allow, settled.value.value), settled.value.value));
        }
      }
      if e.decision.cut != HistoryCut(ledger.View()) {
        return Err(Conflict);
      }
      r := AdmitAction(request, e);
    }
  }

  /** The first name that does not resolve decides the outcome. */
  lemma {:induction false} ResolveStops(v: Service, registry: seq<Entry>, names: seq<Text>, cut: set<Text>, i: nat)
    requires i <= |names| && Resolve(v, registry, names[..i], cut).Err?
    ensures Resolve(v, registry, names, cut) == Resolve(v, registry, names[..i], cut)
  {
    if i == |names| {
      assert names[..i] == names;
    } else {
      assert names[..|names| - 1][..i] == names[..i];
      ResolveStops(v, registry, names[..|names| - 1], cut, i);
    }
  }
}
