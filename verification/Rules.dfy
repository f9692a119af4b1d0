/**
 Fail-closed combination of authorization rules (kernel/rules.py).
 */
module Rules {
  import opened Canon
  import opened Types

  datatype RuleResult = RuleResult(outcome: DecisionKind, reason: string)

  /** A rule is any deterministic judgement, with the Context keys it declares. */
  datatype Rule = Rule(
    hash: Text,
    contextKeys: set<string>,
    evaluate: (Identity, Command, Context, set<Text>) -> RuleResult)

  datatype RuleError = ForeignCommand | MissingContextKeys(rule: Text) | NoApplicableRules

  function Results(identity: Identity, command: Command, context: Context, cut: set<Text>, rules: seq<Rule>):
    seq<RuleResult>
  {
    seq(|rules|, i requires 0 <= i < |rules| => rules[i].evaluate(identity, command, context, cut))
  }

  predicate Gives(results: seq<RuleResult>, outcome: DecisionKind) {
    exists r :: r in results && r.outcome == outcome
  }

  function Combine(results: seq<RuleResult>): DecisionKind {
    if Gives(results, Deny) then Deny
    else if Gives(results, RequireReview) then RequireReview
    else Allow
  }

  function Join(results: seq<RuleResult>): string {
    if results == [] then ""
    else if |results| == 1 then results[0].reason
    else Join(results[..|results| - 1]) + "; " + results[|results| - 1].reason
  }

  /** Reasons stand in the order of their rules, parted by semicolons. */
  lemma {:induction false} ReasonsInOrder(a: seq<RuleResult>, b: seq<RuleResult>)
    requires a != [] && b != []
    ensures Join(a + b) == Join(a) + "; " + Join(b)
    ensures Join([a[0]]) == a[0].reason
  {
    var init, last := b[..|b| - 1], b[|b| - 1];
    assert (a + b)[..|a + b| - 1] == a + init && (a + b)[|a + b| - 1] == last;
    if init == [] {
      assert a + init == a && b == [last];
      assert Join(a + b) == Join(a) + "; " + last.reason;
    } else {
      ReasonsInOrder(a, init);
      assert Join(a + b) == Join(a + init) + "; " + last.reason;
      assert Join(b) == Join(init) + "; " + last.reason;
    }
  }

  /** The first rule whose declared keys the Context lacks. */
  function FirstStarved(context: Context, rules: seq<Rule>): Option<Text> {
    if rules == [] then None
    else if !(rules[0].contextKeys <= context.values.Keys) then Some(rules[0].hash)
    else FirstStarved(context, rules[1..])
  }

  function RuleHashes(rules: seq<Rule>): seq<Text> {
    seq(|rules|, i requires 0 <= i < |rules| => rules[i].hash)
  }

  function Authorized(identity: Identity, command: Command, context: Context, cut: set<Text>, registryCut: set<Text>,
                      rules: seq<Rule>): Result<Decision, RuleError> {
    if identity.hash != command.identityHash then Err(ForeignCommand)
    else
      match FirstStarved(context, rules)
      case Some(rule) => Err(MissingContextKeys(rule))
      case None =>
        if rules == [] then Err(NoApplicableRules)
        else
          var results := Results(identity, command, context, cut, rules);
          Ok(Decision(Combine(results), cut, RuleHashes(rules), registryCut, Join(results)))
  }

  method Authorize(identity: Identity, command: Command, context: Context, cut: set<Text>, registryCut: set<Text>,
                   rules: seq<Rule>) returns (r: Result<Decision, RuleError>)
    ensures r == Authorized(identity, command, context, cut, registryCut, rules)
  {
    if identity.hash != command.identityHash {
      return Err(ForeignCommand);
    }
    var outcomes := [];
    for i := 0 to |rules|
      invariant outcomes == Results(identity, command, context, cut, rules)[..i]
      invariant FirstStarved(context, rules) == FirstStarved(context, rules[i..])
    {
      if !(rules[i].contextKeys <= context.values.Keys) {
        return Err(MissingContextKeys(rules[i].hash));
      }
      outcomes := outcomes + [rules[i].evaluate(identity, command, context, cut)];
      assert rules[i..][1..] == rules[i + 1..];
    }
    if outcomes == [] {
      return Err(NoApplicableRules);
    }
    assert outcomes == Results(identity, command, context, cut, rules);
    var outcome := if Gives(outcomes, Deny) then Deny
                   else if Gives(outcomes, RequireReview) then RequireReview else Allow;
    return Ok(Decision(outcome, cut, RuleHashes(rules), registryCut, Join(outcomes)));
  }

  function Severity(outcome: DecisionKind): nat {
    match outcome
    case Allow => 0
    case RequireReview => 1
    case Deny => 2
  }

  /** Some rule gave the decision, and no rule gave a more severe one. */
  predicate IsMostSevere(outcome: DecisionKind, identity: Identity, command: Command, context: Context,
                         cut: set<Text>, rules: seq<Rule>) {
    && (exists i :: 0 <= i < |rules| && rules[i].evaluate(identity, command, context, cut).outcome == outcome)
    && (forall i :: 0 <= i < |rules| ==>
          Severity(rules[i].evaluate(identity, command, context, cut).outcome) <= Severity(outcome))
  }

  /** A decision is the most severe judgement of its rules, and names exactly those rules; there is
      none without rules, or where a rule's declared keys are missing. */
  lemma DecisionIsMostSevere(identity: Identity, command: Command, context: Context, cut: set<Text>,
                             registryCut: set<Text>, rules: seq<Rule>)
    ensures var r := Authorized(identity, command, context, cut, registryCut, rules);
            && (r.Ok? <==> identity.hash == command.identityHash && rules != []
                           && forall rule | rule in rules :: rule.contextKeys <= context.values.Keys)
            && (r == Err(ForeignCommand) <==> identity.hash != command.identityHash)
            && (r.Err? && r.error.MissingContextKeys? ==>
                  exists i | 0 <= i < |rules| ::
                    && rules[i].hash == r.error.rule && !(rules[i].contextKeys <= context.values.Keys)
                    && forall k | 0 <= k < i :: rules[k].contextKeys <= context.values.Keys)
            && (r.Ok? ==> IsMostSevere(r.value.outcome, identity, command, context, cut, rules))
            && (r.Ok? ==> r.value.cut == cut && r.value.registryCut == registryCut
                          && r.value.ruleHashes == RuleHashes(rules)
                          && r.value.reason == Join(Results(identity, command, context, cut, rules)))
  {
    StarvedIsSome(context, rules);
    var _ := StarvedIsFirst(context, rules);
    if rules != [] {
      var results := Results(identity, command, context, cut, rules);
      var outcome := Combine(results);
      forall i | 0 <= i < |rules|
        ensures Severity(rules[i].evaluate(identity, command, context, cut).outcome) <= Severity(outcome)
      {
        assert results[i] in results;
      }
      var judged := if outcome.Allow? then results[0] else var r :| r in results && r.outcome == outcome; r;
      assert results[0] in results;
      assert judged in results;
      var i :| 0 <= i < |results| && results[i] == judged;
      assert rules[i].evaluate(identity, command, context, cut).outcome == outcome;
    }
  }

  lemma {:induction false} StarvedIsFirst(context: Context, rules: seq<Rule>) returns (i: nat)
    ensures FirstStarved(context, rules).Some? ==>
              && i < |rules| && rules[i].hash == FirstStarved(context, rules).value
              && !(rules[i].contextKeys <= context.values.Keys)
              && forall k | 0 <= k < i :: rules[k].contextKeys <= context.values.Keys
  {
    i := 0;
    if rules != [] && rules[0].contextKeys <= context.values.Keys {
      var j := StarvedIsFirst(context, rules[1..]);
      i := j + 1;
      assert forall k | 1 <= k < i && k < |rules| :: rules[k] == rules[1..][k - 1];
    }
  }

  lemma {:induction false} StarvedIsSome(context: Context, rules: seq<Rule>)
    ensures FirstStarved(context, rules).None?
       <==> forall rule | rule in rules :: rule.contextKeys <= context.values.Keys
  {
    if rules != [] {
      StarvedIsSome(context, rules[1..]);
      assert rules == [rules[0]] + rules[1..];
    }
  }

  /** A larger body of rules never decides more loosely, wherever the new rules stand; so two
      orders of the same rules decide alike. */
  lemma MoreRulesNeverLoosen(identity: Identity, command: Command, context: Context, cut: set<Text>,
                             registryCut: set<Text>, rules: seq<Rule>, more: seq<Rule>)
    requires forall rule | rule in rules :: rule in more
    requires Authorized(identity, command, context, cut, registryCut, rules).Ok?
    requires Authorized(identity, command, context, cut, registryCut, more).Ok?
    ensures var d, d' := Authorized(identity, command, context, cut, registryCut, rules).value,
                         Authorized(identity, command, context, cut, registryCut, more).value;
            && Severity(d.outcome) <= Severity(d'.outcome)
            && ((forall rule | rule in more :: rule in rules) ==> d.outcome == d'.outcome)
  {
    DecisionIsMostSevere(identity, command, context, cut, registryCut, rules);
    DecisionIsMostSevere(identity, command, context, cut, registryCut, more);
    var d, d' := Authorized(identity, command, context, cut, registryCut, rules).value,
                 Authorized(identity, command, context, cut, registryCut, more).value;
    var i :| 0 <= i < |rules| && rules[i].evaluate(identity, command, context, cut).outcome == d.outcome;
    assert rules[i] in more;
    var j :| 0 <= j < |more| && more[j] == rules[i];
    if forall rule | rule in more :: rule in rules {
      var k :| 0 <= k < |more| && more[k].evaluate(identity, command, context, cut).outcome == d'.outcome;
      assert more[k] in rules;
      var m :| 0 <= m < |rules| && rules[m] == more[k];
    }
  }
}
