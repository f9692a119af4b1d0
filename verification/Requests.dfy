/**
 Requests and their server-derived Context (service/models.py, service/identity.py).
 */
module Requests {
  import opened Canon
  import opened Types
  import opened Ledgers
  import opened Gate
  import opened Rules
  import Base64

  const REQUESTED_BY := "request.requested_by"
  const PERFORMED_BY := "request.performed_by"
  const REQUESTER_KIND := "request.requester_kind"
  const OAUTH_CLIENT := "request.oauth_client"

  const DERIVED_CONTEXT_KEYS: set<string> := {REQUESTED_BY, PERFORMED_BY, REQUESTER_KIND, OAUTH_CLIENT}

  datatype ServiceError =
    | Validation
    | Unauthorized
    | NotFound
    | Conflict
    | ContextKeysDiffer
    | RuleFailure(rule: RuleError)
    | PayloadCollision
    | Refused(gate: CommitError)

  datatype Principal = Principal(issuer: Text, subject: Text, clientId: Text)

  datatype ActionRequest = ActionRequest(
    commandType: string,
    identityHash: Text,
    payloadHash: Text,
    parents: seq<Text>,
    nonce: Text,
    signature: string,
    contextValues: map<string, Value>,
    contextTypes: map<string, Text>,
    actType: string,
    payload: Option<Value>,
    historyCut: Option<set<Text>>,
    registryCut: Option<set<Text>>,
    authChain: seq<Text>,
    claimedWhen: Option<Text>)

  function CommandOf(r: ActionRequest): Result<Command, ServiceError> {
    if !IsHash(r.identityHash) || !IsHash(r.payloadHash) || exists p :: p in r.parents && !IsHash(p)
    then Err(Validation)
    else
      match Base64.DecodeSignature(r.signature)
      case None => Err(Validation)
      case Some(signature) =>
        Ok(Command(r.commandType, r.identityHash, r.payloadHash, r.parents, r.nonce, signature))
  }

  /** A well-formed request, and the Command it makes. */
  predicate Commands(r: ActionRequest, c: Command) {
    && IsHash(r.identityHash) && IsHash(r.payloadHash) && (forall h | h in r.parents :: IsHash(h))
    && Base64.DecodeSignature(r.signature) == Some(c.signature)
    && c.commandType == r.commandType && c.identityHash == r.identityHash && c.payloadHash == r.payloadHash
    && c.parents == r.parents && c.nonce == r.nonce
  }

  lemma CommandExactly(r: ActionRequest, c: Command)
    ensures CommandOf(r) == Ok(c) <==> Commands(r, c)
  {
    hide Base64.DecodeSignature, IsHash;
  }

  /** The client's Context with the derived keys layered on top; supplying one of them is refused. */
  function ContextOf(r: ActionRequest, derived: map<string, Text>): Result<Context, ServiceError> {
    if DERIVED_CONTEXT_KEYS * r.contextValues.Keys != {} then Err(Validation)
    else
      var values := r.contextValues + map key | key in derived :: Str(derived[key]);
      var types := r.contextTypes + map key | key in derived :: Plain(key);
      if values.Keys != types.Keys then Err(ContextKeysDiffer) else Ok(Context(values, types))
  }

  function ResolvePrincipal(s: Ledger, issuer: Text, subject: Text): Option<Text> {
    if issuer == Plain("") || subject == Plain("") || (issuer, subject) !in s.bindings then None
    else Some(s.bindings[(issuer, subject)])
  }

  /** Who asked, and of what kind: resolved from the binding, never asserted by the caller. */
  function ResolveRequester(s: Ledger, allowSigned: bool, performer: Identity, p: Option<Principal>):
    Result<(Text, string), ServiceError>
  {
    match p
    case None => if allowSigned then Ok((performer.hash, performer.kind)) else Err(Unauthorized)
    case Some(principal) =>
      match ResolvePrincipal(s, principal.issuer, principal.subject)
      case None => Err(Unauthorized)
      case Some(requester) =>
        if requester == performer.hash then Ok((requester, performer.kind))
        else if requester !in s.identities then Err(Unauthorized)
        else Ok((requester, s.identities[requester].kind))
  }

  function DerivedKeys(performer: Identity, requestedBy: Text, kind: string, p: Option<Principal>): map<string, Text> {
    map[
      REQUESTED_BY := requestedBy,
      PERFORMED_BY := performer.hash,
      REQUESTER_KIND := Plain(kind),
      OAUTH_CLIENT := if p.Some? then p.value.clientId else performer.hash]
  }

  /** A Context that carries the derived facts, each typed by its own key. */
  predicate Truthful(context: Context, derived: map<string, Text>) {
    forall key | key in derived ::
      && key in context.values && context.values[key] == Str(derived[key])
      && key in context.types && context.types[key] == Plain(key)
  }

  /** Derived facts enter exactly as derived; everything else, values and types alike, is exactly what
      the caller sent, and nothing sent is lost.  A caller who supplies a derived fact is refused. */
  lemma ContextIsTruthful(r: ActionRequest, derived: map<string, Text>)
    requires derived.Keys == DERIVED_CONTEXT_KEYS
    ensures var c := ContextOf(r, derived);
            && (c.Ok? ==> Truthful(c.value, derived)
                          && c.value.values.Keys == r.contextValues.Keys + DERIVED_CONTEXT_KEYS)
            && (c.Ok? ==> forall key | key in r.contextValues :: c.value.values[key] == r.contextValues[key])
            && (c.Ok? ==> forall key | key in r.contextValues ::
                  key in r.contextTypes && c.value.types[key] == r.contextTypes[key])
            && (c == Err(Validation) <==> exists key :: key in r.contextValues && key in DERIVED_CONTEXT_KEYS)
  {
    if key :| key in r.contextValues && key in DERIVED_CONTEXT_KEYS {
      assert key in DERIVED_CONTEXT_KEYS * r.contextValues.Keys;
    }
    var c := ContextOf(r, derived);
    if c.Ok? {
      assert c.value.types.Keys == r.contextTypes.Keys + derived.Keys;
      forall key | key in r.contextValues
        ensures key in r.contextTypes && c.value.types[key] == r.contextTypes[key]
      {
        assert key in c.value.values && key !in DERIVED_CONTEXT_KEYS;
      }
    }
  }
}
