/**
 The bash command policy (internal/agent/policy.go): validation, rule compilation, first-match
 evaluation over command segments, and what a decision means.
 Regular expressions are given by two functions: which patterns compile and what they match.
 */
module BashPolicy {
  import opened Text
  import opened ShellScan

  datatype Regex = Regex(compiles: string -> bool, matches: (string, string) -> bool)

  datatype RuleAction = AllowMatch | DenyMatch | OtherAction(text: string)
  datatype Rule = Rule(name: string, pattern: string, action: RuleAction, enabled: Option<bool>)

  datatype DefaultBehavior = UnsetDefault | Allow | Deny | OtherDefault(text: string)
  datatype DenyBehavior = UnsetDeny | AskUser | Block | OtherDeny(text: string)

  /** No rule list at all is different from an empty one. */
  datatype Policy = Policy(
    tools: map<string, bool>, rules: Option<seq<Rule>>, defaultBehavior: DefaultBehavior, denyBehavior: DenyBehavior)

  datatype Resolved = Resolved(
    tools: map<string, bool>, rules: seq<Rule>, defaultBehavior: DefaultBehavior, denyBehavior: DenyBehavior)

  const BASH := "bash"

  /** The policy with the defaults filled in; the registry says which tools are on by default. */
  function Resolve(policy: Policy, registry: map<string, bool>): Resolved {
    Resolved(
      registry + policy.tools,
      if policy.rules.Some? then policy.rules.value else [],
      if policy.defaultBehavior.UnsetDefault? then Allow else policy.defaultBehavior,
      if policy.denyBehavior.UnsetDeny? then AskUser else policy.denyBehavior)
  }

  predicate ToolEnabled(resolved: Resolved, tool: string) { tool in resolved.tools && resolved.tools[tool] }

  predicate IsEnabled(rule: Rule) { rule.enabled.None? || rule.enabled.value }

  // ----- meaning

  predicate Applies(regex: Regex, rule: Rule, segment: string) {
    IsEnabled(rule) && regex.matches(rule.pattern, segment)
  }

  /** Rule i is the first enabled one that matches. */
  predicate Decides(regex: Regex, rules: seq<Rule>, segment: string, i: nat) {
    i < |rules| && Applies(regex, rules[i], segment) && forall j :: 0 <= j < i ==> !Applies(regex, rules[j], segment)
  }

  predicate NoneApplies(regex: Regex, rules: seq<Rule>, segment: string) {
    forall j :: 0 <= j < |rules| ==> !Applies(regex, rules[j], segment)
  }

  ghost predicate SegmentAllowed(regex: Regex, resolved: Resolved, segment: string) {
    (exists i: nat :: Decides(regex, resolved.rules, segment, i) && resolved.rules[i].action == AllowMatch) ||
    (NoneApplies(regex, resolved.rules, segment) && resolved.defaultBehavior == Allow)
  }

  ghost predicate AllAllowed(regex: Regex, resolved: Resolved, segments: seq<string>) {
    forall k :: 0 <= k < |segments| ==> SegmentAllowed(regex, resolved, segments[k])
  }

  /** Rule i is the first enabled one whose pattern does not compile. */
  predicate Broken(regex: Regex, rules: seq<Rule>, i: nat) {
    i < |rules| && IsEnabled(rules[i]) && !regex.compiles(rules[i].pattern) &&
    forall j :: 0 <= j < i ==> IsEnabled(rules[j]) ==> regex.compiles(rules[j].pattern)
  }

  predicate AllCompile(regex: Regex, rules: seq<Rule>) {
    forall j :: 0 <= j < |rules| ==> IsEnabled(rules[j]) ==> regex.compiles(rules[j].pattern)
  }

  // ----- compiling and matching

  /** A rule reports under its name, or by its position. */
  datatype RuleName = Given(name: string) | ByIndex(index: nat)

  datatype CompiledRule = CompiledRule(name: RuleName, action: RuleAction, pattern: string)

  function NameOf(rule: Rule, i: nat): RuleName { if rule.name != "" then Given(rule.name) else ByIndex(i) }

  /** The enabled rules from position `from` on, in order. */
  function Compiled(rules: seq<Rule>, from: nat): seq<CompiledRule>
    requires from <= |rules|
    decreases |rules| - from
  {
    if from == |rules| then []
    else
      (if IsEnabled(rules[from])
       then [CompiledRule(NameOf(rules[from], from), rules[from].action, rules[from].pattern)] else [])
      + Compiled(rules, from + 1)
  }

  datatype Compilation = InvalidRegex(index: nat) | Rules(rules: seq<CompiledRule>)

  method CompileEnabledBashRules(regex: Regex, rules: seq<Rule>) returns (r: Compilation)
    ensures r.InvalidRegex? ==> Broken(regex, rules, r.index)
    ensures r.Rules? ==> AllCompile(regex, rules) && r.rules == Compiled(rules, 0)
  {
    var out := [];
    for i := 0 to |rules|
      invariant forall j :: 0 <= j < i ==> IsEnabled(rules[j]) ==> regex.compiles(rules[j].pattern)
      invariant out + Compiled(rules, i) == Compiled(rules, 0)
    {
      var rule := rules[i];
      if IsEnabled(rule) {
        if !regex.compiles(rule.pattern) { return InvalidRegex(i); }
        var compiled := CompiledRule(NameOf(rule, i), rule.action, rule.pattern);
        assert out + ([compiled] + Compiled(rules, i + 1)) == out + [compiled] + Compiled(rules, i + 1);
        out := out + [compiled];
      } else {
        assert [] + Compiled(rules, i + 1) == Compiled(rules, i + 1);
      }
    }
    return Rules(out);
  }

  datatype Match = NoMatch | Match(name: RuleName, action: RuleAction)

  function FirstMatch(regex: Regex, rules: seq<CompiledRule>, segment: string): Match {
    if rules == [] then NoMatch
    else if regex.matches(rules[0].pattern, segment) then Match(rules[0].name, rules[0].action)
    else FirstMatch(regex, rules[1..], segment)
  }

  method MatchCompiledBashRule(regex: Regex, rules: seq<CompiledRule>, segment: string) returns (m: Match)
    ensures m == FirstMatch(regex, rules, segment)
  {
    for k := 0 to |rules|
      invariant FirstMatch(regex, rules, segment) == FirstMatch(regex, rules[k..], segment)
    {
      assert rules[k..][0] == rules[k] && rules[k..][1..] == rules[k + 1..];
      if regex.matches(rules[k].pattern, segment) { return Match(rules[k].name, rules[k].action); }
    }
    return NoMatch;
  }

  /** Matching against the compiled rules is finding the deciding rule. */
  lemma {:induction false} FirstMatchDecides(regex: Regex, rules: seq<Rule>, segment: string, from: nat)
    requires from <= |rules| && forall j :: 0 <= j < from ==> !Applies(regex, rules[j], segment)
    ensures var m := FirstMatch(regex, Compiled(rules, from), segment);
      && (m.NoMatch? ==> NoneApplies(regex, rules, segment))
      && (m.Match? ==> exists i: nat :: Decides(regex, rules, segment, i) && m == Match(NameOf(rules[i], i), rules[i].action))
    decreases |rules| - from
  {
    if from < |rules| {
      var rest := Compiled(rules, from + 1);
      if Applies(regex, rules[from], segment) {
        assert Decides(regex, rules, segment, from);
      } else {
        FirstMatchDecides(regex, rules, segment, from + 1);
        if IsEnabled(rules[from]) {
          assert Compiled(rules, from)[1..] == rest;
        } else {
          assert Compiled(rules, from) == rest;
        }
      }
    }
  }

  lemma DecidesUnique(regex: Regex, rules: seq<Rule>, segment: string, i: nat, k: nat)
    requires Decides(regex, rules, segment, i) && Decides(regex, rules, segment, k)
    ensures i == k
  {
  }

  // ----- evaluation

  datatype Reason = NoReason | ToolDisabled | UnsupportedConstruct | DeniedByRule | DeniedByDefault
  datatype Decision = Decision(
    allowed: bool, denyBehavior: DenyBehavior, reason: Reason, command: string, segment: string, rule: Option<RuleName>)
  datatype Evaluation = BadInput | BadRegex(index: nat) | Decided(decision: Decision)

  function Permitted(command: string): Decision { Decision(true, UnsetDeny, NoReason, command, "", None) }

  method EvaluateBashPolicyResolved(regex: Regex, resolved: Resolved, input: Option<string>) returns (r: Evaluation)
    ensures Explains(regex, resolved, input, r)
  {
    if !ToolEnabled(resolved, BASH) { return Decided(Decision(false, Block, ToolDisabled, "", "", None)); }
    if input.None? { return BadInput; }
    var command := Trim(input.value);
    if command == "" { return Decided(Permitted("")); }
    var unsupported := HasUnsupportedShellConstructs(command);
    if unsupported { return Decided(Decision(false, resolved.denyBehavior, UnsupportedConstruct, command, "", None)); }
    var compilation := CompileEnabledBashRules(regex, resolved.rules);
    if compilation.InvalidRegex? { return BadRegex(compilation.index); }
    var segments := SplitShellCommandSegments(command);
    if |segments| == 0 { return Decided(Permitted("")); }
    var decision := JudgeSegments(regex, resolved, compilation.rules, command, segments);
    return Decided(decision);
  }

  /** Goes through the segments until one is denied. */
  method JudgeSegments(regex: Regex, resolved: Resolved, compiled: seq<CompiledRule>, command: string, segments: seq<string>)
    returns (d: Decision)
    requires compiled == Compiled(resolved.rules, 0)
    ensures Judged(regex, resolved, command, segments, d)
  {
    for k := 0 to |segments|
      invariant AllAllowed(regex, resolved, segments[..k])
    {
      var m := MatchCompiledBashRule(regex, compiled, segments[k]);
      SegmentAllowedIff(regex, resolved, segments[k], m);
      if m.Match? && m.action != AllowMatch {
        d := Decision(false, resolved.denyBehavior, DeniedByRule, command, segments[k], Some(m.name));
        SegmentDenied(regex, resolved, segments, d, k, m);
        return;
      }
      if m.NoMatch? && resolved.defaultBehavior != Allow {
        d := Decision(false, resolved.denyBehavior, DeniedByDefault, command, segments[k], None);
        SegmentDenied(regex, resolved, segments, d, k, m);
        return;
      }
      AllowedSnoc(regex, resolved, segments, k);
    }
    assert segments[..|segments|] == segments;
    return Permitted(command);
  }

  lemma SegmentDenied(regex: Regex, resolved: Resolved, segments: seq<string>, d: Decision, k: nat, m: Match)
    requires k < |segments| && m == FirstMatch(regex, Compiled(resolved.rules, 0), segments[k])
    requires AllAllowed(regex, resolved, segments[..k]) && !SegmentAllowed(regex, resolved, segments[k])
    requires d.segment == segments[k] && !d.allowed && d.denyBehavior == resolved.denyBehavior
    requires if m.Match? then d.reason == DeniedByRule && d.rule == Some(m.name) else d.reason == DeniedByDefault && d.rule.None?
    ensures Judged(regex, resolved, d.command, segments, d)
  {
    FirstMatchDecides(regex, resolved.rules, segments[k], 0);
    assert CulpritAt(regex, resolved, segments, d, k);
  }

  lemma AllowedSnoc(regex: Regex, resolved: Resolved, segments: seq<string>, k: nat)
    requires k < |segments| && AllAllowed(regex, resolved, segments[..k]) && SegmentAllowed(regex, resolved, segments[k])
    ensures AllAllowed(regex, resolved, segments[..k + 1])
  {
    assert segments[..k + 1] == segments[..k] + [segments[k]];
  }

  lemma SegmentAllowedIff(regex: Regex, resolved: Resolved, segment: string, m: Match)
    requires m == FirstMatch(regex, Compiled(resolved.rules, 0), segment)
    ensures SegmentAllowed(regex, resolved, segment) <==>
      if m.Match? then m.action == AllowMatch else resolved.defaultBehavior == Allow
  {
    FirstMatchDecides(regex, resolved.rules, segment, 0);
    if m.Match? {
      var rules := resolved.rules;
      var i: nat :| Decides(regex, rules, segment, i) && m == Match(NameOf(rules[i], i), rules[i].action);
      forall k: nat | Decides(regex, rules, segment, k) ensures k == i { DecidesUnique(regex, rules, segment, i, k); }
    }
  }

  /** Segment k is the first not allowed, and the decision names it and the rule that says so, if one does. */
  ghost predicate CulpritAt(regex: Regex, resolved: Resolved, segments: seq<string>, d: Decision, k: nat) {
    && k < |segments| && d.segment == segments[k] && !SegmentAllowed(regex, resolved, segments[k])
    && AllAllowed(regex, resolved, segments[..k])
    && (d.reason == DeniedByRule || d.reason == DeniedByDefault)
    && (d.reason == DeniedByDefault ==> NoneApplies(regex, resolved.rules, d.segment) && d.rule.None?)
    && (d.reason == DeniedByRule ==>
          exists i: nat :: Decides(regex, resolved.rules, d.segment, i) && d.rule == Some(NameOf(resolved.rules[i], i)))
  }

  ghost predicate Judged(regex: Regex, resolved: Resolved, command: string, segments: seq<string>, d: Decision) {
    && (d.allowed <==> AllAllowed(regex, resolved, segments))
    && (!d.allowed ==> d.command == command && d.denyBehavior == resolved.denyBehavior &&
                       exists k: nat :: CulpritAt(regex, resolved, segments, d, k))
  }

  /** What each outcome of an evaluation says about the command. */
  ghost predicate Explains(regex: Regex, resolved: Resolved, input: Option<string>, r: Evaluation) {
    if !ToolEnabled(resolved, BASH) then
      r.Decided? && !r.decision.allowed && r.decision.reason == ToolDisabled && r.decision.denyBehavior == Block
    else if input.None? then r.BadInput?
    else
      var command := Trim(input.value);
      if command == "" then r.Decided? && r.decision.allowed
      else if Unsupported(command, PLAIN) then
        && r.Decided? && !r.decision.allowed
        && r.decision.reason == UnsupportedConstruct && r.decision.denyBehavior == resolved.denyBehavior
      else if !AllCompile(regex, resolved.rules) then r.BadRegex? && Broken(regex, resolved.rules, r.index)
      else
        r.Decided? && Judged(regex, resolved, command, Segments(command), r.decision)
  }

  // ----- disabled rules

  function EnabledOnly(rules: seq<Rule>): seq<Rule> {
    if rules == [] then []
    else EnabledOnly(rules[..|rules| - 1]) + if IsEnabled(rules[|rules| - 1]) then [rules[|rules| - 1]] else []
  }

  /** The position of rule i once the disabled rules are gone. */
  function Shifted(rules: seq<Rule>, i: nat): nat
    requires i <= |rules|
  {
    |EnabledOnly(rules[..i])|
  }

  lemma {:induction false} ShiftedAt(rules: seq<Rule>, i: nat)
    requires i < |rules|
    ensures IsEnabled(rules[i]) ==> Shifted(rules, i) < |EnabledOnly(rules)| && EnabledOnly(rules)[Shifted(rules, i)] == rules[i]
    ensures Shifted(rules, i + 1) == Shifted(rules, i) + if IsEnabled(rules[i]) then 1 else 0
  {
    assert rules[..i + 1][..i] == rules[..i];
    var init := rules[..|rules| - 1];
    if i < |init| {
      ShiftedAt(init, i);
      assert init[..i] == rules[..i];
    }
  }

  lemma {:induction false} ShiftedRises(rules: seq<Rule>, i: nat, k: nat)
    requires i <= k <= |rules|
    ensures Shifted(rules, i) <= Shifted(rules, k) && Shifted(rules, k) - Shifted(rules, i) <= k - i
    decreases k - i
  {
    if i < k {
      ShiftedAt(rules, i);
      ShiftedRises(rules, i + 1, k);
    }
  }

  lemma {:induction false} Unshifted(rules: seq<Rule>, c: nat) returns (i: nat)
    requires c < |EnabledOnly(rules)|
    ensures i < |rules| && IsEnabled(rules[i]) && Shifted(rules, i) == c && EnabledOnly(rules)[c] == rules[i]
  {
    var init := rules[..|rules| - 1];
    if c < |EnabledOnly(init)| {
      i := Unshifted(init, c);
      assert init[..i] == rules[..i];
    } else {
      i := |rules| - 1;
    }
  }

  lemma DecidesShifted(regex: Regex, rules: seq<Rule>, segment: string, i: nat)
    requires Decides(regex, rules, segment, i)
    ensures Decides(regex, EnabledOnly(rules), segment, Shifted(rules, i)) && EnabledOnly(rules)[Shifted(rules, i)] == rules[i]
  {
    ShiftedAt(rules, i);
    forall c | 0 <= c < Shifted(rules, i) ensures !Applies(regex, EnabledOnly(rules)[c], segment) {
      var j := Unshifted(rules, c);
      if j >= i { ShiftedRises(rules, i, j); assert false; }
    }
  }

  lemma NoneAppliesIff(regex: Regex, rules: seq<Rule>, segment: string)
    ensures NoneApplies(regex, rules, segment) <==> NoneApplies(regex, EnabledOnly(rules), segment)
  {
    var only := EnabledOnly(rules);
    if NoneApplies(regex, rules, segment) {
      forall c | 0 <= c < |only| ensures !Applies(regex, only[c], segment) { var j := Unshifted(rules, c); }
    }
    if NoneApplies(regex, only, segment) {
      forall j | 0 <= j < |rules| ensures !Applies(regex, rules[j], segment) { ShiftedAt(rules, j); }
    }
  }

  lemma {:induction false} FirstApplies(regex: Regex, rules: seq<Rule>, segment: string) returns (i: nat)
    requires !NoneApplies(regex, rules, segment)
    ensures Decides(regex, rules, segment, i)
  {
    var init := rules[..|rules| - 1];
    if NoneApplies(regex, init, segment) {
      assert forall j :: 0 <= j < |init| ==> init[j] == rules[j];
      i := |rules| - 1;
    } else {
      i := FirstApplies(regex, init, segment);
    }
  }

  /** A disabled rule has no say in whether a segment is allowed or a rule fails to compile. */
  lemma DisabledRulesDoNotMatter(regex: Regex, resolved: Resolved, segment: string)
    ensures SegmentAllowed(regex, resolved, segment) <==>
            SegmentAllowed(regex, resolved.(rules := EnabledOnly(resolved.rules)), segment)
    ensures AllCompile(regex, resolved.rules) <==> AllCompile(regex, EnabledOnly(resolved.rules))
  {
    var rules, only := resolved.rules, EnabledOnly(resolved.rules);
    CompileIff(regex, rules);
    NoneAppliesIff(regex, rules, segment);
    if !NoneApplies(regex, rules, segment) {
      var i := FirstApplies(regex, rules, segment);
      DecidesShifted(regex, rules, segment, i);
      forall k: nat | Decides(regex, rules, segment, k) ensures k == i { DecidesUnique(regex, rules, segment, i, k); }
      forall k: nat | Decides(regex, only, segment, k) ensures k == Shifted(rules, i) {
        DecidesUnique(regex, only, segment, Shifted(rules, i), k);
      }
    }
  }

  lemma CompileIff(regex: Regex, rules: seq<Rule>)
    ensures AllCompile(regex, rules) <==> AllCompile(regex, EnabledOnly(rules))
  {
    var only := EnabledOnly(rules);
    if AllCompile(regex, rules) {
      forall c | 0 <= c < |only| ensures regex.compiles(only[c].pattern) { var j := Unshifted(rules, c); }
    }
    if AllCompile(regex, only) {
      forall j | 0 <= j < |rules| && IsEnabled(rules[j]) ensures regex.compiles(rules[j].pattern) { ShiftedAt(rules, j); }
    }
  }

  lemma {:induction false} AllBeforeEnabled(rules: seq<Rule>, i: nat)
    requires i <= |rules|
    ensures Shifted(rules, i) == i <==> forall j :: 0 <= j < i ==> IsEnabled(rules[j])
  {
    ShiftedRises(rules, 0, i);
    assert rules[..0] == [];
    if i > 0 {
      AllBeforeEnabled(rules, i - 1);
      ShiftedAt(rules, i - 1);
      ShiftedRises(rules, 0, i - 1);
    }
  }

  /** But it can change the name a denial reports: exactly that of an unnamed rule behind it. */
  lemma ReportedNameIff(regex: Regex, rules: seq<Rule>, segment: string, i: nat)
    requires Decides(regex, rules, segment, i)
    ensures Decides(regex, EnabledOnly(rules), segment, Shifted(rules, i))
    ensures NameOf(rules[i], i) == NameOf(EnabledOnly(rules)[Shifted(rules, i)], Shifted(rules, i)) <==>
            rules[i].name != "" || forall j :: 0 <= j < i ==> IsEnabled(rules[j])
  {
    DecidesShifted(regex, rules, segment, i);
    AllBeforeEnabled(rules, i);
  }

  // ----- validation

  datatype Problem = BadDefault | BadDeny | PatternRequired(rule: nat) | BadAction(rule: nat) | BadPattern(rule: nat)

  predicate RuleValid(regex: Regex, rule: Rule) {
    !Blank(rule.pattern) && !rule.action.OtherAction? && regex.compiles(rule.pattern)
  }

  predicate Valid(regex: Regex, resolved: Resolved) {
    && (resolved.defaultBehavior == Allow || resolved.defaultBehavior == Deny)
    && (resolved.denyBehavior == AskUser || resolved.denyBehavior == Block)
    && forall i :: 0 <= i < |resolved.rules| ==> RuleValid(regex, resolved.rules[i])
  }

  /** What each problem says, of the first `upTo` rules. A rule without a pattern is not looked at further. */
  predicate Wrong(regex: Regex, resolved: Resolved, p: Problem, upTo: nat)
    requires upTo <= |resolved.rules|
  {
    match p
    case BadDefault => resolved.defaultBehavior != Allow && resolved.defaultBehavior != Deny
    case BadDeny => resolved.denyBehavior != AskUser && resolved.denyBehavior != Block
    case PatternRequired(i) => i < upTo && Blank(resolved.rules[i].pattern)
    case BadAction(i) => i < upTo && !Blank(resolved.rules[i].pattern) && resolved.rules[i].action.OtherAction?
    case BadPattern(i) => i < upTo && !Blank(resolved.rules[i].pattern) && !regex.compiles(resolved.rules[i].pattern)
  }

  /** Drops unknown tools from the policy and lists everything wrong with the rest. */
  method ValidateToolPolicy(regex: Regex, policy: Policy, registry: map<string, bool>)
    returns (kept: Policy, problems: seq<Problem>)
    ensures kept == policy.(tools := map tool | tool in policy.tools && tool in registry :: policy.tools[tool])
    ensures problems == [] <==> Valid(regex, Resolve(kept, registry))
    ensures forall p :: p in problems <==> Wrong(regex, Resolve(kept, registry), p, |Resolve(kept, registry).rules|)
  {
    kept := policy.(tools := map tool | tool in policy.tools && tool in registry :: policy.tools[tool]);
    var resolved := Resolve(kept, registry);
    problems := [];
    if resolved.defaultBehavior != Allow && resolved.defaultBehavior != Deny { problems := problems + [BadDefault]; }
    if resolved.denyBehavior != AskUser && resolved.denyBehavior != Block { problems := problems + [BadDeny]; }
    ghost var settings := problems == [];
    for i := 0 to |resolved.rules|
      invariant problems == [] <==> settings && forall j :: 0 <= j < i ==> RuleValid(regex, resolved.rules[j])
      invariant forall p :: p in problems <==> Wrong(regex, resolved, p, i)
    {
      var rule := resolved.rules[i];
      if Trim(rule.pattern) == "" {
        problems := problems + [PatternRequired(i)];
        continue;
      }
      if rule.action.OtherAction? { problems := problems + [BadAction(i)]; }
      if !regex.compiles(rule.pattern) { problems := problems + [BadPattern(i)]; }
    }
  }

  /** A policy that passed validation never makes an evaluation fail on a pattern. */
  lemma ValidPolicyNeverFails(regex: Regex, resolved: Resolved, input: Option<string>, r: Evaluation)
    requires Valid(regex, resolved) && Explains(regex, resolved, input, r)
    ensures !r.BadRegex?
  {
    assert AllCompile(regex, resolved.rules);
  }
}
