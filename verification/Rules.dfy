/** The constitution's rule engine: parsing, default evaluators, verdicts. */
module Rules {
  import opened Prelude
  import opened Ordering
  import opened Events

  /** Sentences the components compose. What they say is fixed by what they are about. */
  datatype Phrase =
    | NoConstitution | NoBudget | NoResearchPolicy | WithinResearchBudget | OwnerApproved
    | Shortfall(attentionOk: bool, capitalOk: bool)
    | WithinPolicyAndBudget(support: seq<string>)
    | Enforced(knowledgeId: Id, summary: string) | NotEnforced(knowledgeId: Id)
    | Supported(knowledgeId: Id, summary: string) | NotSupported(knowledgeId: Id)
    | Episode(actionId: Id, success: bool, text: string)
    | Calibration(meanError: real, considered: nat) | Consolidation(consensus: real, considered: nat)
    | NoTool(actionType: string) | NoCredential(actionType: string) | Revoked(actionType: string)
    | Novel | Duplicate | NotNovel | Stale
    | Investigate(opportunityId: Id) | ActOn(opportunityId: Id)
    | Funded | Unfunded(attentionOk: bool, capitalOk: bool) | Estimated
    | ShortOf(shortfall: string, estimate: real) | Outranked(winner: Id, estimate: real) | NoneExecutable(estimate: real)

  /**
   How Python writes numbers and sentences, and reads numbers (`None` is a ValueError); `requestId` is the
   digest a research request is known by.
   */
  datatype Notation = Notation(
    showReal: real -> string, showInt: int -> string, say: Phrase -> string, requestId: (string, string, int) -> string,
    parseReal: string -> Option<real>, parseInt: string -> Option<int>
  )

  /** What a rule can read off a plan or a research request; a missing attribute is None. */
  datatype Facts = Facts(attention: Option<real>, capital: Option<real>, depth: Option<int>, searches: Option<int>,
      spend: Option<real>)

  /** `Malformed` is an evaluator raising on its arguments. */
  datatype Finding = Satisfied | Violated(text: string) | Malformed

  type Evaluator = (Facts, seq<string>) -> Finding
  type Library = map<string, Evaluator>

  datatype Verdict = Verdict(passed: bool, reason: string) | Raises

  function IndexOf(s: string, c: char): (i: nat)
    ensures i <= |s| && (i < |s| ==> s[i] == c) && forall j :: 0 <= j < i ==> s[j] != c
  {
    if s == "" || s[0] == c then 0 else 1 + IndexOf(s[1..], c)
  }

  /** `[arg for arg in s.split(",") if arg]` */
  function SplitArgs(s: string): seq<string>
    decreases |s|
  {
    var i := IndexOf(s, ',');
    (if i > 0 then [s[..i]] else []) + (if i < |s| then SplitArgs(s[i + 1..]) else [])
  }

  /** "max_capital_cost:500" names `max_capital_cost` with arguments ["500"]. */
  function ParseRule(rule: string): (string, seq<string>) {
    var i := IndexOf(rule, ':');
    (rule[..i], if i < |rule| then SplitArgs(rule[i + 1..]) else [])
  }

  function RuleName(rule: string): string {
    ParseRule(rule).0
  }

  /** The arguments of the first rule of that name. */
  function FindRuleArgs(rules: seq<string>, name: string): Option<seq<string>> {
    if rules == [] then None
    else if RuleName(rules[0]) == name then Some(ParseRule(rules[0]).1)
    else FindRuleArgs(rules[1..], name)
  }

  // ---------------------------------------------------------------- the default rules

  function NonNegativeCosts(n: Notation, f: Facts): Finding {
    if (f.attention.Some? && f.attention.value < 0.0) || (f.capital.Some? && f.capital.value < 0.0)
    then Violated("attention_cost=" + ShowCost(n, f.attention) + " capital_cost=" + ShowCost(n, f.capital) + " must be >= 0")
    else Satisfied
  }

  function ShowCost(n: Notation, cost: Option<real>): string {
    match cost case None => "None" case Some(x) => n.showReal(x)
  }

  function AtMostReal(n: Notation, value: Option<real>, attribute: string, limitName: string,
        args: seq<string>): Finding {
    if value.None? then Satisfied
    else if args == [] then Malformed
    else match n.parseReal(args[0])
         case None => Malformed
         case Some(limit) =>
           if value.value > limit then Violated(attribute + "=" + n.showReal(value.value) + " exceeds " + limitName + "=" + n.showReal(limit))
           else Satisfied
  }

  function AtMostInt(n: Notation, value: Option<int>, attribute: string, args: seq<string>): Finding {
    if value.None? then Satisfied
    else if args == [] then Malformed
    else match n.parseInt(args[0])
         case None => Malformed
         case Some(limit) =>
           if value.value > limit then Violated(attribute + "=" + n.showInt(value.value) + " exceeds limit=" + n.showInt(limit))
           else Satisfied
  }

  const NON_NEGATIVE_COSTS := "non_negative_costs"
  const RESEARCH_BUDGET := "research_budget"

  function DefaultRules(n: Notation): Library {
    map[
      NON_NEGATIVE_COSTS := (f: Facts, args: seq<string>) => NonNegativeCosts(n, f),
      "max_capital_cost" := (f: Facts, args: seq<string>) => AtMostReal(n, f.capital, "capital_cost", "limit", args),
      "max_attention_cost" := (f: Facts, args: seq<string>) => AtMostReal(n, f.attention, "attention_cost", "limit", args),
      "max_search_depth" := (f: Facts, args: seq<string>) => AtMostInt(n, f.depth, "search_depth", args),
      "max_searches_per_deliberation" := (f: Facts, args: seq<string>) => AtMostInt(n, f.searches, "searches_this_deliberation", args),
      RESEARCH_BUDGET := (f: Facts, args: seq<string>) => AtMostReal(n, f.spend, "research_spend_in_window", "research_budget", args)
    ]
  }

  /** The research budget rule, as the default library judges it. */
  lemma ResearchBudgetRule(n: Notation, f: Facts, args: seq<string>)
    ensures RESEARCH_BUDGET in DefaultRules(n)
    ensures DefaultRules(n)[RESEARCH_BUDGET](f, args) == AtMostReal(n, f.spend, "research_spend_in_window", "research_budget", args)
  {
  }

  lemma NonNegativeCostsRule(n: Notation, f: Facts, args: seq<string>)
    ensures NON_NEGATIVE_COSTS in DefaultRules(n)
    ensures DefaultRules(n)[NON_NEGATIVE_COSTS](f, args) == NonNegativeCosts(n, f)
  {
    assert NON_NEGATIVE_COSTS[0] == 'n' && RESEARCH_BUDGET[0] == 'r';
    assert "max_attention_cost"[0] == 'm' && "max_capital_cost"[0] == 'm';
    assert "max_search_depth"[0] == 'm' && "max_searches_per_deliberation"[0] == 'm';
  }

  // ---------------------------------------------------------------- the registry

  /** An unknown rule name is ignored. */
  function FindingFor(library: Library, f: Facts, rule: string): Finding {
    var (name, args) := ParseRule(rule);
    if name in library then library[name](f, args) else Satisfied
  }

  function Complaint(rule: string, text: string): string {
    RuleName(rule) + ": " + text
  }

  function Violation(library: Library, f: Facts): string -> Option<string> {
    rule => match FindingFor(library, f, rule)
            case Violated(text) => Some(Complaint(rule, text))
            case _ => None
  }

  predicate AnyMalformed(library: Library, rules: seq<string>, f: Facts) {
    exists rule <- rules :: FindingFor(library, f, rule).Malformed?
  }

  function Report(violations: seq<string>): Verdict {
    if violations != [] then Verdict(false, Join(Sort(violations, StringLe), "; ")) else Verdict(true, "all rules satisfied")
  }

  /** Every rule is weighed on its own; the reasons are sorted before they are joined. */
  function Evaluate(library: Library, rules: seq<string>, f: Facts): Verdict {
    if AnyMalformed(library, rules, f) then Raises else Report(Project(rules, Violation(library, f)))
  }

  lemma ProjectStep<T, U>(s: seq<T>, i: nat, f: T -> Option<U>, found: seq<U>)
    requires i < |s| && found + Project(s[i..], f) == Project(s, f)
    ensures found + Image(f, s[i]) + Project(s[i + 1..], f) == Project(s, f)
  {
    assert s[i..][1..] == s[i + 1..];
    Associates(found, Image(f, s[i]), Project(s[i + 1..], f));
  }

  lemma MalformedStep(library: Library, rules: seq<string>, i: nat, f: Facts)
    requires i < |rules| && !AnyMalformed(library, rules[..i], f)
    ensures FindingFor(library, f, rules[i]).Malformed? ==> AnyMalformed(library, rules, f)
    ensures !FindingFor(library, f, rules[i]).Malformed? ==> !AnyMalformed(library, rules[..i + 1], f)
  {
    assert rules[..i + 1] == rules[..i] + [rules[i]];
    assert rules[i] in rules;
  }

  lemma JudgeDone(library: Library, rules: seq<string>, f: Facts, violations: seq<string>)
    requires !AnyMalformed(library, rules[..|rules|], f)
    requires violations + Project(rules[|rules|..], Violation(library, f)) == Project(rules, Violation(library, f))
    ensures Report(violations) == Evaluate(library, rules, f)
  {
    assert rules[..|rules|] == rules && rules[|rules|..] == [];
    assert violations == Project(rules, Violation(library, f));
  }

  class RuleRegistry {
    var rules: Library

    constructor (rules: Library)
      ensures this.rules == rules
    {
      this.rules := rules;
    }

    method Register(name: string, evaluator: Evaluator)
      modifies this
      ensures rules == old(rules)[name := evaluator]
    {
      rules := rules[name := evaluator];
    }

    method Judge(declared: seq<string>, f: Facts) returns (verdict: Verdict)
      ensures verdict == Evaluate(rules, declared, f)
    {
      hide Project, Report, ParseRule;
      var violation := Violation(rules, f);
      var violations: seq<string> := [];
      var i := 0;
      assert declared[0..] == declared;
      while i < |declared|
        invariant 0 <= i <= |declared|
        invariant !AnyMalformed(rules, declared[..i], f)
        invariant violations + Project(declared[i..], violation) == Project(declared, violation)
      {
        MalformedStep(rules, declared, i, f);
        var finding := FindingFor(rules, f, declared[i]);
        if finding.Malformed? {
          return Raises;
        }
        ProjectStep(declared, i, violation, violations);
        violations := violations + Image(violation, declared[i]);
        i := i + 1;
      }
      JudgeDone(rules, declared, f, violations);
      verdict := Report(violations);
    }
  }

  // ---------------------------------------------------------------- order independence

  /** Permuting the declared rules changes neither the verdict nor the reported reason. */
  lemma DeclarationOrderIsIrrelevant(library: Library, rules: seq<string>, permuted: seq<string>, f: Facts)
    requires multiset(rules) == multiset(permuted)
    ensures Evaluate(library, rules, f) == Evaluate(library, permuted, f)
  {
    MalformedForgetsOrder(library, rules, permuted, f);
    ReasonForgetsOrder(rules, permuted, Violation(library, f));
  }

  lemma MalformedForgetsOrder(library: Library, rules: seq<string>, permuted: seq<string>, f: Facts)
    requires multiset(rules) == multiset(permuted)
    ensures AnyMalformed(library, rules, f) == AnyMalformed(library, permuted, f)
  {
    SameMembers(rules, permuted);
  }

  lemma ReasonForgetsOrder(rules: seq<string>, permuted: seq<string>, violation: string -> Option<string>)
    requires multiset(rules) == multiset(permuted)
    ensures Report(Project(rules, violation)) == Report(Project(permuted, violation))
  {
    ProjectPermutes(rules, permuted, violation);
    StringOrder();
    SortForgetsOrder(Project(rules, violation), Project(permuted, violation), StringLe);
    assert |multiset(Project(rules, violation))| == |multiset(Project(permuted, violation))|;
  }

  /** The verdict is the conjunction of the known rules. */
  lemma PassesIffEveryRuleIsSatisfied(library: Library, rules: seq<string>, f: Facts)
    ensures Evaluate(library, rules, f).Verdict? && Evaluate(library, rules, f).passed
            <==> forall rule <- rules :: FindingFor(library, f, rule).Satisfied?
  {
    var violations := Project(rules, Violation(library, f));
    if forall rule <- rules :: FindingFor(library, f, rule).Satisfied? {
      ProjectNothing(rules, Violation(library, f));
    } else {
      var i :| 0 <= i < |rules| && !FindingFor(library, f, rules[i]).Satisfied?;
      assert rules[i] in rules;
      if FindingFor(library, f, rules[i]).Violated? { ProjectMember(rules, Violation(library, f), i); }
    }
  }

  /** Adding a rule can turn a pass into a fail, never a fail into a pass. */
  lemma MoreRulesPassLess(library: Library, rules: seq<string>, extra: seq<string>, f: Facts)
    requires Evaluate(library, rules + extra, f).Verdict? && Evaluate(library, rules + extra, f).passed
    ensures Evaluate(library, rules, f).Verdict? && Evaluate(library, rules, f).passed
  {
    PassesIffEveryRuleIsSatisfied(library, rules + extra, f);
    PassesIffEveryRuleIsSatisfied(library, rules, f);
    assert forall rule <- rules :: rule in rules + extra;
  }

  lemma {:induction false} FoundRuleIsDeclared(rules: seq<string>, name: string) returns (rule: string)
    requires FindRuleArgs(rules, name).Some?
    ensures rule in rules && ParseRule(rule) == (name, FindRuleArgs(rules, name).value)
  {
    if RuleName(rules[0]) == name {
      rule := rules[0];
    } else {
      rule := FoundRuleIsDeclared(rules[1..], name);
    }
  }

  // ---------------------------------------------------------------- how a declared rule is read

  predicate Without(s: string, c: char) {
    forall i :: 0 <= i < |s| ==> s[i] != c
  }

  lemma {:induction false} IndexInFront(front: string, c: char, rest: string)
    requires Without(front, c)
    ensures IndexOf(front, c) == |front| && IndexOf(front + [c] + rest, c) == |front|
  {
    if front != "" {
      assert Without(front[1..], c);
      IndexInFront(front[1..], c, rest);
      assert (front + [c] + rest)[1..] == front[1..] + [c] + rest;
    }
  }

  predicate Plain(arg: string) {
    arg != "" && Without(arg, ',')
  }

  lemma SplitFirst(first: string, rest: string)
    requires Plain(first)
    ensures SplitArgs(first) == [first] && SplitArgs(first + "," + rest) == [first] + SplitArgs(rest)
  {
    IndexInFront(first, ',', rest);
    var text := first + "," + rest;
    assert text == first + [','] + rest;
    assert text[..|first|] == first && text[|first| + 1..] == rest && first[..|first|] == first;
  }

  lemma {:induction false} ListReads(args: seq<string>)
    requires forall arg <- args :: Plain(arg)
    ensures SplitArgs(Join(args, ",")) == args
  {
    hide SplitArgs, Plain;
    if args == [] {
      assert SplitArgs("") == [] by { NothingSplits(); }
    } else {
      var first, rest := args[0], args[1..];
      assert args == [first] + rest && first in args && forall arg <- rest :: arg in args;
      SplitFirst(first, Join(rest, ","));
      ListReads(rest);
    }
  }

  lemma NothingSplits()
    ensures SplitArgs("") == []
  {
  }

  /** "name" and "name:a,b" are read as they are written. */
  lemma RuleReads(name: string, args: seq<string>)
    requires Without(name, ':') && forall arg <- args :: Plain(arg)
    ensures ParseRule(name) == (name, []) && ParseRule(name + ":" + Join(args, ",")) == (name, args)
  {
    hide SplitArgs;
    IndexInFront(name, ':', Join(args, ","));
    ListReads(args);
    var rule := name + ":" + Join(args, ",");
    assert rule == name + [':'] + Join(args, ",");
    assert rule[..|name|] == name && rule[|name| + 1..] == Join(args, ",") && name[..|name|] == name;
  }

  // ---------------------------------------------------------------- what the default rules ask for

  /** The first argument is a limit the amount keeps. */
  predicate KeepsReal(n: Notation, amount: real, args: seq<string>) {
    args != [] && n.parseReal(args[0]).Some? && amount <= n.parseReal(args[0]).value
  }

  predicate KeepsInt(n: Notation, amount: int, args: seq<string>) {
    args != [] && n.parseInt(args[0]).Some? && amount <= n.parseInt(args[0]).value
  }

  /** What each default rule asks of a plan, by its name. */
  predicate PlanKeeps(n: Notation, rule: string, attention: real, capital: real) {
    var (name, args) := ParseRule(rule);
    && (name == "non_negative_costs" ==> attention >= 0.0 && capital >= 0.0)
    && (name == "max_attention_cost" ==> KeepsReal(n, attention, args))
    && (name == "max_capital_cost" ==> KeepsReal(n, capital, args))
  }

  /** What each default rule asks of a research request. */
  predicate ResearchKeeps(n: Notation, rule: string, depth: int, searches: int, spend: real) {
    var (name, args) := ParseRule(rule);
    && (name == "max_search_depth" ==> KeepsInt(n, depth, args))
    && (name == "max_searches_per_deliberation" ==> KeepsInt(n, searches, args))
    && (name == "research_budget" ==> KeepsReal(n, spend, args))
  }

  function DefaultNames(): seq<string> {
    ["non_negative_costs", "max_capital_cost", "max_attention_cost", "max_search_depth", "max_searches_per_deliberation", "research_budget"]
  }

  lemma NamesDiffer()
    ensures forall i, j :: 0 <= i < j < |DefaultNames()| ==> DefaultNames()[i] != DefaultNames()[j]
  {
    assert "non_negative_costs"[0] == 'n' && "research_budget"[0] == 'r';
    assert "max_capital_cost"[4] == 'c' && "max_attention_cost"[4] == 'a';
    assert "max_search_depth"[10] == '_' && "max_searches_per_deliberation"[10] == 'e';
    assert "max_search_depth"[4] == 's' && "max_searches_per_deliberation"[4] == 's';
  }

  lemma PlanRuleMeans(n: Notation, rule: string, attention: real, capital: real)
    ensures FindingFor(DefaultRules(n), Facts(Some(attention), Some(capital), None, None, None), rule).Satisfied?
            <==> PlanKeeps(n, rule, attention, capital)
  {
    hide ParseRule;
    NamesDiffer();
    var name := ParseRule(rule).0;
    assert name in DefaultRules(n) <==> name in DefaultNames();
  }

  lemma ResearchRuleMeans(n: Notation, rule: string, depth: int, searches: int, spend: real)
    ensures FindingFor(DefaultRules(n), Facts(None, None, Some(depth), Some(searches), Some(spend)), rule).Satisfied?
            <==> ResearchKeeps(n, rule, depth, searches, spend)
  {
    hide ParseRule;
    NamesDiffer();
    var name := ParseRule(rule).0;
    assert name in DefaultRules(n) <==> name in DefaultNames();
  }

  /** Under the default rules a plan passes exactly when it keeps every cap declared on either of its costs. */
  lemma PlanPassesIff(n: Notation, rules: seq<string>, attention: real, capital: real)
    ensures var v := Evaluate(DefaultRules(n), rules, Facts(Some(attention), Some(capital), None, None, None));
            v.Verdict? && v.passed <==> forall rule <- rules :: PlanKeeps(n, rule, attention, capital)
  {
    hide DefaultRules, PlanKeeps, Evaluate;
    var f := Facts(Some(attention), Some(capital), None, None, None);
    PassesIffEveryRuleIsSatisfied(DefaultRules(n), rules, f);
    forall rule ensures FindingFor(DefaultRules(n), f, rule).Satisfied? <==> PlanKeeps(n, rule, attention, capital) {
      PlanRuleMeans(n, rule, attention, capital);
    }
  }

  /** And a research request when it keeps every cap declared on its depth, on its deliberation's searches and on spending. */
  lemma ResearchPassesIff(n: Notation, rules: seq<string>, depth: int, searches: int, spend: real)
    ensures var v := Evaluate(DefaultRules(n), rules, Facts(None, None, Some(depth), Some(searches), Some(spend)));
            v.Verdict? && v.passed <==> forall rule <- rules :: ResearchKeeps(n, rule, depth, searches, spend)
  {
    hide DefaultRules, ResearchKeeps, Evaluate;
    var f := Facts(None, None, Some(depth), Some(searches), Some(spend));
    PassesIffEveryRuleIsSatisfied(DefaultRules(n), rules, f);
    forall rule ensures FindingFor(DefaultRules(n), f, rule).Satisfied? <==> ResearchKeeps(n, rule, depth, searches, spend) {
      ResearchRuleMeans(n, rule, depth, searches, spend);
    }
  }
}
