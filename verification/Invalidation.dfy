/** Invalidation rules of the heads (invalidation_formatter.py): checking, merging and the latch around them. */
module Invalidation {
  import opened SharedTypes
  import opened Numerics
  import opened Sequences
  import opened Text

  datatype Severity = Hard | Soft | Warning

  /** A rule as a head writes it; absent keys are `None`. */
  datatype RawRule = RawRule(
    condition: Option<string>,
    priceLevel: Option<real>,
    reason: Option<string>,
    severity: Option<Severity>)

  datatype Rule = Rule(condition: string, priceLevel: real, reason: string, severity: Severity)

  /** An invalidation dict without its generated summary. */
  datatype InvalidationDict = InvalidationDict(rules: seq<Rule>, triggered: bool)

  datatype MarketData = MarketData(
    price: Option<real>,
    low: Option<real>,
    high: Option<real>,
    structureBroken: bool,
    structureBias: string)

  // ----- One rule -----

  datatype RuleKind = AboveRule | BelowRule | StructureRule | MitigationRule | TextRule

  /** The order of the tests matters: a text that mentions both words is an "above" rule. */
  function KindOf(condition: string): RuleKind {
    var text := Lower(condition);
    if Mentions(text, "above") then AboveRule
    else if Mentions(text, "break") || Mentions(text, "below") then BelowRule
    else if Mentions(text, "structure") then StructureRule
    else if Mentions(text, "mitigated") || Mentions(text, "closed") then MitigationRule
    else TextRule
  }

  predicate Broken(rule: Rule, market: MarketData) {
    var price := Or(market.price, 0.0);
    match KindOf(rule.condition)
    case AboveRule => rule.priceLevel > 0.0 && MaxR(price, Or(market.high, price)) >= rule.priceLevel
    case BelowRule => rule.priceLevel > 0.0 && MinR(price, Or(market.low, price)) <= rule.priceLevel
    case StructureRule => market.structureBroken
    case MitigationRule => rule.priceLevel > 0.0 && price >= rule.priceLevel
    case TextRule => false
  }

  function ReasonText(rule: Rule): string {
    rule.reason + " (" + rule.condition + ")"
  }

  method RuleTriggered(rule: Rule, market: MarketData) returns (triggered: bool)
    ensures triggered <==> Broken(rule, market)
  {
    triggered := false;
    var price := Or(market.price, 0.0);
    var low := Or(market.low, price);
    var high := Or(market.high, price);
    var text := Lower(rule.condition);
    if Mentions(text, "above") {
      if rule.priceLevel > 0.0 && price >= rule.priceLevel {
        triggered := true;
      } else if rule.priceLevel > 0.0 && high >= rule.priceLevel {
        triggered := true;
      }
    } else if Mentions(text, "break") || Mentions(text, "below") {
      if rule.priceLevel > 0.0 && price <= rule.priceLevel {
        triggered := true;
      } else if rule.priceLevel > 0.0 && low <= rule.priceLevel {
        triggered := true;
      }
    } else if Mentions(text, "structure") {
      if market.structureBroken {
        triggered := true;
      } else if Mentions(text, "flip") && market.structureBias != "" && market.structureBroken {
        triggered := true;
      }
    } else if Mentions(text, "mitigated") || Mentions(text, "closed") {
      if rule.priceLevel > 0.0 && price >= rule.priceLevel {
        triggered := true;
      }
    }
  }

  /** Some market breaks a rule exactly when it is about structure, or about price at a positive level. */
  lemma WatchableRules(rule: Rule)
    ensures (exists market: MarketData :: Broken(rule, market)) <==>
            KindOf(rule.condition).StructureRule? || (!KindOf(rule.condition).TextRule? && rule.priceLevel > 0.0)
  {
    hide KindOf;
    var atLevel := MarketData(Some(rule.priceLevel), None, None, true, "");
    assert !KindOf(rule.condition).TextRule? && rule.priceLevel > 0.0 ==> Broken(rule, atLevel);
    assert KindOf(rule.condition).StructureRule? ==> Broken(rule, atLevel);
  }

  /** Which rules a market breaks, by the words of the rule and by numbers. */
  lemma BrokenCases(rule: Rule, market: MarketData)
    ensures var text, level, price := Lower(rule.condition), rule.priceLevel, Or(market.price, 0.0);
            var above, below := Mentions(text, "above"), Mentions(text, "break") || Mentions(text, "below");
            var structure := Mentions(text, "structure");
            var closed := Mentions(text, "mitigated") || Mentions(text, "closed");
            && (above ==> (Broken(rule, market) <==>
                             level > 0.0 && (price >= level || (market.high.Some? && market.high.value >= level))))
            && (!above && below ==>
                  (Broken(rule, market) <==>
                     level > 0.0 && (price <= level || (market.low.Some? && market.low.value <= level))))
            && (!above && !below && structure ==> (Broken(rule, market) <==> market.structureBroken))
            && (!above && !below && !structure && closed ==> (Broken(rule, market) <==> level > 0.0 && price >= level))
            && (!above && !below && !structure && !closed ==> !Broken(rule, market))
  {
    hide Mentions, Lower;
  }

  // ----- Checking -----

  datatype CheckResult = CheckResult(
    triggered: bool,
    reasons: seq<string>,
    triggeredRules: seq<Rule>,
    pendingRules: seq<Rule>,
    totalRules: nat)

  function Reasons(rules: seq<Rule>): seq<string> {
    seq(|rules|, i requires 0 <= i < |rules| => ReasonText(rules[i]))
  }

  /** The positions of the rules whose verdict is `broken`, in rule order. */
  function Positions(rules: seq<Rule>, market: MarketData, broken: bool): (p: seq<nat>)
    ensures forall k :: 0 <= k < |p| ==> p[k] < |rules|
  {
    if rules == [] then []
    else
      var n := |rules| - 1;
      Positions(rules[..n], market, broken) + (if Broken(rules[n], market) == broken then [n] else [])
  }

  function At(rules: seq<Rule>, positions: seq<nat>): seq<Rule>
    requires forall k :: 0 <= k < |positions| ==> positions[k] < |rules|
  {
    seq(|positions|, k requires 0 <= k < |positions| => rules[positions[k]])
  }

  function Check(rules: seq<Rule>, market: MarketData): CheckResult {
    var broken := At(rules, Positions(rules, market, true));
    CheckResult(broken != [], Reasons(broken), broken, At(rules, Positions(rules, market, false)), |rules|)
  }

  method CheckInvalidation(invalidation: InvalidationDict, market: MarketData) returns (r: CheckResult)
    ensures r == Check(invalidation.rules, market)
  {
    var rules := invalidation.rules;
    if rules == [] {
      return CheckResult(false, [], [], [], 0);
    }
    var triggeredRules, pendingRules, reasons := [], [], [];
    assert rules[..0] == [] && At(rules, Positions([], market, true)) == At(rules, Positions([], market, false)) == [];
    hide Broken, ReasonText, Positions, At;
    for i := 0 to |rules|
      invariant triggeredRules == At(rules, Positions(rules[..i], market, true))
      invariant pendingRules == At(rules, Positions(rules[..i], market, false))
      invariant reasons == Reasons(triggeredRules)
    {
      AtOneMore(rules, market, i, true);
      AtOneMore(rules, market, i, false);
      var triggered := RuleTriggered(rules[i], market);
      if triggered {
        triggeredRules := triggeredRules + [rules[i]];
        reasons := reasons + [ReasonText(rules[i])];
      } else {
        pendingRules := pendingRules + [rules[i]];
      }
    }
    assert rules[..|rules|] == rules;
    r := CheckResult(|triggeredRules| > 0, reasons, triggeredRules, pendingRules, |rules|);
  }

  lemma AtOneMore(rules: seq<Rule>, market: MarketData, i: nat, broken: bool)
    requires i < |rules|
    ensures At(rules, Positions(rules[..i + 1], market, broken)) ==
            At(rules, Positions(rules[..i], market, broken))
              + (if Broken(rules[i], market) == broken then [rules[i]] else [])
  {
    assert rules[..i + 1][..i] == rules[..i];
  }

  lemma {:induction false} PositionsAreExact(rules: seq<Rule>, market: MarketData, broken: bool)
    ensures Increasing(Positions(rules, market, broken))
    ensures forall k :: k in Positions(rules, market, broken) <==>
                        0 <= k < |rules| && Broken(rules[k], market) == broken
  {
    hide Broken;
    if rules != [] {
      var n := |rules| - 1;
      PositionsAreExact(rules[..n], market, broken);
      assert forall k :: 0 <= k < n ==> rules[..n][k] == rules[k];
    }
  }

  lemma {:induction false} PositionsCount(rules: seq<Rule>, market: MarketData)
    ensures |Positions(rules, market, true)| + |Positions(rules, market, false)| == |rules|
  {
    if rules != [] {
      PositionsCount(rules[..|rules| - 1], market);
    }
  }

  /**
   A check splits the rules in two and loses none: each position goes to exactly one side, both sides keep the
   rules' order, the broken rules are those the market breaks, and there is one reason for each.
  */
  lemma CheckIsPartition(rules: seq<Rule>, market: MarketData)
    ensures var r := Check(rules, market);
            var hit, rest := Positions(rules, market, true), Positions(rules, market, false);
            && r.triggeredRules == At(rules, hit) && r.pendingRules == At(rules, rest)
            && Increasing(hit) && Increasing(rest)
            && (forall k :: 0 <= k < |rules| ==> (k in hit <==> Broken(rules[k], market)) && (k in rest <==> k !in hit))
            && |r.triggeredRules| + |r.pendingRules| == |rules| == r.totalRules
            && |r.reasons| == |r.triggeredRules|
            && (r.triggered <==> exists k :: 0 <= k < |rules| && Broken(rules[k], market))
  {
    hide Broken;
    PositionsAreExact(rules, market, true);
    PositionsAreExact(rules, market, false);
    PositionsCount(rules, market);
    var hit := Positions(rules, market, true);
    if k :| 0 <= k < |rules| && Broken(rules[k], market) {
      assert k in hit;
    }
    if hit != [] {
      assert hit[0] in hit;
    }
  }

  // ----- Merging -----

  const PLACEHOLDER := Rule("No invalidation", 0.0, "No invalidation rules defined", Hard)


  predicate Knows(rules: seq<Rule>, condition: string) {
    exists i :: 0 <= i < |rules| && rules[i].condition == condition
  }

  /** The first rule of each condition, in order. */
  function FirstOfEach(rules: seq<Rule>): seq<Rule> {
    if rules == [] then []
    else
      var init, last := FirstOfEach(rules[..|rules| - 1]), rules[|rules| - 1];
      if Knows(init, last.condition) then init else init + [last]
  }

  function AllRules(list: seq<InvalidationDict>): seq<Rule> {
    if list == [] then [] else AllRules(list[..|list| - 1]) + list[|list| - 1].rules
  }

  predicate AnyTriggered(list: seq<InvalidationDict>) {
    exists i :: 0 <= i < |list| && list[i].triggered
  }

  function Merge(list: seq<InvalidationDict>): InvalidationDict {
    if list == [] then InvalidationDict([PLACEHOLDER], false)
    else InvalidationDict(FirstOfEach(AllRules(list)), AnyTriggered(list))
  }

  ghost predicate Seen(seen: set<string>, rules: seq<Rule>) {
    forall c :: c in seen <==> Knows(rules, c)
  }

  /** The inner loop: one dict's rules join the merged ones unless their condition was seen. */
  method AbsorbRules(merged: seq<Rule>, seen: set<string>, more: seq<Rule>, ghost done: seq<Rule>)
    returns (rules: seq<Rule>, nowSeen: set<string>)
    requires merged == FirstOfEach(done) && Seen(seen, merged)
    ensures rules == FirstOfEach(done + more) && Seen(nowSeen, rules)
  {
    hide FirstOfEach, Knows, Seen;
    rules, nowSeen := merged, seen;
    assert done + more[..0] == done;
    for j := 0 to |more|
      invariant rules == FirstOfEach(done + more[..j])
      invariant Seen(nowSeen, rules)
    {
      var rule := more[j];
      FirstOfOneMore(done + more[..j], rule);
      assert done + more[..j + 1] == done + more[..j] + [rule];
      SeenOneMore(nowSeen, rules, rule);
      if rule.condition !in nowSeen {
        nowSeen := nowSeen + {rule.condition};
        rules := rules + [rule];
      }
    }
    assert more[..|more|] == more;
  }

  lemma SeenOneMore(seen: set<string>, rules: seq<Rule>, rule: Rule)
    requires Seen(seen, rules)
    ensures rule.condition in seen <==> Knows(rules, rule.condition)
    ensures Seen(seen + {rule.condition}, rules + [rule])
  {
    KnowsOneMore(rules, rule);
    hide Knows;
  }

  method MergeInvalidations(list: seq<InvalidationDict>) returns (merged: InvalidationDict)
    ensures merged == Merge(list)
  {
    if list == [] {
      return InvalidationDict([PLACEHOLDER], false);
    }
    var seen: set<string> := {};
    var rules: seq<Rule> := [];
    var triggered := false;
    assert list[..0] == [] && FirstOfEach(AllRules([])) == [] && !AnyTriggered([]);
    assert Seen(seen, rules);
    hide FirstOfEach, Seen, AnyTriggered;
    for i := 0 to |list|
      invariant rules == FirstOfEach(AllRules(list[..i]))
      invariant Seen(seen, rules)
      invariant triggered <==> AnyTriggered(list[..i])
    {
      assert list[..i + 1][..i] == list[..i];
      assert AllRules(list[..i + 1]) == AllRules(list[..i]) + list[i].rules;
      rules, seen := AbsorbRules(rules, seen, list[i].rules, AllRules(list[..i]));
      AnyTriggeredOneMore(list, i);
      if list[i].triggered {
        triggered := true;
      }
    }
    assert list[..|list|] == list;
    merged := InvalidationDict(rules, triggered);
  }

  lemma AnyTriggeredOneMore(list: seq<InvalidationDict>, i: nat)
    requires i < |list|
    ensures AnyTriggered(list[..i + 1]) <==> AnyTriggered(list[..i]) || list[i].triggered
  {
  }

  lemma FirstOfOneMore(rules: seq<Rule>, rule: Rule)
    ensures FirstOfEach(rules + [rule]) ==
            if Knows(FirstOfEach(rules), rule.condition) then FirstOfEach(rules) else FirstOfEach(rules) + [rule]
  {
  }

  lemma KnowsOneMore(rules: seq<Rule>, rule: Rule)
    ensures forall c :: Knows(rules + [rule], c) <==> Knows(rules, c) || c == rule.condition
  {
    forall c ensures Knows(rules + [rule], c) <==> Knows(rules, c) || c == rule.condition {
      if Knows(rules, c) {
        var i :| 0 <= i < |rules| && rules[i].condition == c;
        assert (rules + [rule])[i].condition == c;
      }
      assert (rules + [rule])[|rules|].condition == rule.condition;
    }
  }

  lemma KnowsConcat(a: seq<Rule>, b: seq<Rule>, c: string)
    ensures Knows(a + b, c) <==> Knows(a, c) || Knows(b, c)
  {
    if Knows(a, c) {
      var i :| 0 <= i < |a| && a[i].condition == c;
      assert (a + b)[i].condition == c;
    }
    if Knows(b, c) {
      var i :| 0 <= i < |b| && b[i].condition == c;
      assert (a + b)[|a| + i].condition == c;
    }
  }

  ghost predicate DistinctConditions(rules: seq<Rule>) {
    forall i, j :: 0 <= i < j < |rules| ==> rules[i].condition != rules[j].condition
  }

  lemma {:induction false} FirstOfEachKnows(rules: seq<Rule>, c: string)
    ensures Knows(FirstOfEach(rules), c) <==> Knows(rules, c)
  {
    if rules != [] {
      var n := |rules| - 1;
      FirstOfEachKnows(rules[..n], c);
      KnowsOneMore(rules[..n], rules[n]);
      KnowsOneMore(FirstOfEach(rules[..n]), rules[n]);
      assert rules == rules[..n] + [rules[n]];
    }
  }

  /** Each merged rule is the first of its condition, and the merged order is the order of those first rules. */
  ghost predicate IsFirstAt(rules: seq<Rule>, i: int) {
    0 <= i < |rules| && forall j :: 0 <= j < i ==> rules[j].condition != rules[i].condition
  }

  function FirstPositions(rules: seq<Rule>): (p: seq<nat>)
    ensures forall k :: 0 <= k < |p| ==> p[k] < |rules|
  {
    if rules == [] then []
    else
      var n := |rules| - 1;
      FirstPositions(rules[..n]) + (if Knows(rules[..n], rules[n].condition) then [] else [n])
  }

  lemma {:induction false} FirstPositionsAreExact(rules: seq<Rule>)
    ensures Increasing(FirstPositions(rules))
    ensures forall i :: i in FirstPositions(rules) <==> IsFirstAt(rules, i)
  {
    if rules != [] {
      var n := |rules| - 1;
      FirstPositionsAreExact(rules[..n]);
      FirstInPrefix(rules);
      hide Knows, IsFirstAt;
      assert FirstPositions(rules) ==
             FirstPositions(rules[..n]) + (if IsFirstAt(rules, n) then [n] else []);
    }
  }

  lemma {:induction false} FirstOfEachIsExact(rules: seq<Rule>)
    ensures FirstOfEach(rules) == At(rules, FirstPositions(rules))
    ensures Increasing(FirstPositions(rules))
    ensures forall i :: i in FirstPositions(rules) <==> IsFirstAt(rules, i)
  {
    FirstPositionsAreExact(rules);
    hide Increasing, IsFirstAt, Knows;
    if rules != [] {
      var n := |rules| - 1;
      FirstOfEachIsExact(rules[..n]);
      FirstOfEachKnows(rules[..n], rules[n].condition);
    }
  }

  lemma FirstInPrefix(rules: seq<Rule>)
    requires rules != []
    ensures var n := |rules| - 1;
            && (forall i :: 0 <= i < n ==> (IsFirstAt(rules, i) <==> IsFirstAt(rules[..n], i)))
            && (IsFirstAt(rules, n) <==> !Knows(rules[..n], rules[n].condition))
  {
  }

  lemma FirstOfEachIsDistinct(rules: seq<Rule>)
    ensures DistinctConditions(FirstOfEach(rules))
  {
  }

  lemma {:induction false} FirstOfDistinct(rules: seq<Rule>)
    requires DistinctConditions(rules)
    ensures FirstOfEach(rules) == rules
  {
    if rules != [] {
      var n := |rules| - 1;
      FirstOfDistinct(rules[..n]);
      assert rules == rules[..n] + [rules[n]];
    }
  }

  /** Merging a merged prefix or a merged suffix changes nothing. */
  lemma {:induction false} FirstOfPrefix(a: seq<Rule>, b: seq<Rule>)
    ensures FirstOfEach(FirstOfEach(a) + b) == FirstOfEach(a + b)
  {
    if b == [] {
      assert a + b == a && FirstOfEach(a) + b == FirstOfEach(a);
      FirstOfEachIsDistinct(a);
      FirstOfDistinct(FirstOfEach(a));
    } else {
      var n := |b| - 1;
      FirstOfPrefix(a, b[..n]);
      assert a + b == a + b[..n] + [b[n]];
      assert FirstOfEach(a) + b == FirstOfEach(a) + b[..n] + [b[n]];
      FirstOfOneMore(a + b[..n], b[n]);
      FirstOfOneMore(FirstOfEach(a) + b[..n], b[n]);
    }
  }

  lemma {:induction false} FirstOfSuffix(a: seq<Rule>, b: seq<Rule>)
    ensures FirstOfEach(a + FirstOfEach(b)) == FirstOfEach(a + b)
  {
    if b != [] {
      var n := |b| - 1;
      var init, last := b[..n], b[n];
      assert FirstOfEach(b) ==
             if Knows(FirstOfEach(init), last.condition) then FirstOfEach(init) else FirstOfEach(init) + [last];
      hide FirstOfEach, Knows;
      FirstOfSuffix(a, init);
      assert a + b == a + init + [last];
      FirstOfOneMore(a + init, last);
      if Knows(FirstOfEach(init), last.condition) {
        FirstOfEachKnows(a + init, last.condition);
        KnowsConcat(a, init, last.condition);
        FirstOfEachKnows(init, last.condition);
      } else {
        assert a + FirstOfEach(b) == a + FirstOfEach(init) + [last];
        FirstOfOneMore(a + FirstOfEach(init), last);
      }
    }
  }

  lemma {:induction false} AllRulesConcat(a: seq<InvalidationDict>, b: seq<InvalidationDict>)
    ensures AllRules(a + b) == AllRules(a) + AllRules(b)
  {
    if b == [] {
      assert a + b == a;
    } else {
      var n := |b| - 1;
      AllRulesConcat(a, b[..n]);
      assert (a + b)[..|a| + n] == a + b[..n];
      AllRulesOneMore(b);
      AllRulesOneMore(a + b);
      hide AllRules;
    }
  }

  lemma AllRulesOneMore(list: seq<InvalidationDict>)
    requires list != []
    ensures AllRules(list) == AllRules(list[..|list| - 1]) + list[|list| - 1].rules
  {
  }

  lemma AnyTriggeredConcat(a: seq<InvalidationDict>, b: seq<InvalidationDict>)
    ensures AnyTriggered(a + b) <==> AnyTriggered(a) || AnyTriggered(b)
  {
    if AnyTriggered(a) {
      var i :| 0 <= i < |a| && a[i].triggered;
      assert (a + b)[i].triggered;
    }
    if AnyTriggered(b) {
      var i :| 0 <= i < |b| && b[i].triggered;
      assert (a + b)[|a| + i].triggered;
    }
  }

  lemma MergeOfOne(x: InvalidationDict)
    ensures Merge([x]) == InvalidationDict(FirstOfEach(x.rules), x.triggered)
  {
    assert AllRules([x]) == AllRules([x][..0]) + x.rules == x.rules;
    assert [x][0] == x;
  }

  lemma MergeOfTwo(x: InvalidationDict, y: InvalidationDict)
    ensures Merge([x, y]) == InvalidationDict(FirstOfEach(x.rules + y.rules), x.triggered || y.triggered)
  {
    var list := [x, y];
    assert list[..1] == [x] && [x][..0] == [];
    assert AllRules([x]) == AllRules([]) + x.rules == x.rules;
    assert AllRules(list) == AllRules([x]) + y.rules;
    assert list[0] == x && list[1] == y;
  }

  function PartRules(list: seq<InvalidationDict>): seq<Rule> {
    if list == [] then [PLACEHOLDER] else AllRules(list)
  }

  lemma MergeOfMerges(a: seq<InvalidationDict>, b: seq<InvalidationDict>)
    ensures Merge([Merge(a), Merge(b)]) ==
            InvalidationDict(FirstOfEach(PartRules(a) + PartRules(b)), AnyTriggered(a) || AnyTriggered(b))
  {
    MergeOfTwo(Merge(a), Merge(b));
    FirstOfDistinct([PLACEHOLDER]);
    FirstOfPrefix(PartRules(a), Merge(b).rules);
    FirstOfSuffix(PartRules(a), PartRules(b));
  }

  /** A placeholder joins the rules of a merge exactly when it is not shadowed by a rule of the same condition. */
  lemma PlaceholderLast(rules: seq<Rule>)
    ensures FirstOfEach(rules + [PLACEHOLDER]) == FirstOfEach(rules) <==> Knows(rules, PLACEHOLDER.condition)
  {
    FirstOfOneMore(rules, PLACEHOLDER);
    FirstOfEachKnows(rules, PLACEHOLDER.condition);
  }

  lemma {:induction false} FirstRuleStays(rules: seq<Rule>)
    requires rules != []
    ensures FirstOfEach(rules) != [] && FirstOfEach(rules)[0] == rules[0]
  {
    var n := |rules| - 1;
    if n > 0 {
      FirstRuleStays(rules[..n]);
    } else {
      assert FirstOfEach(rules[..0]) == [];
    }
  }

  lemma TwiceTheSame(rule: Rule)
    ensures FirstOfEach([rule] + [rule]) == [rule] == FirstOfEach([rule])
  {
    FirstOfDistinct([rule]);
    FirstOfOneMore([rule], rule);
    assert Knows([rule], rule.condition) by {
      assert [rule][0].condition == rule.condition;
    }
    hide FirstOfEach, Knows;
  }

  lemma RepeatedFirstRule(rule: Rule, rest: seq<Rule>)
    ensures FirstOfEach([rule] + ([rule] + rest)) == FirstOfEach([rule] + rest)
  {
    TwiceTheSame(rule);
    hide FirstOfEach, Knows;
    FirstOfPrefix([rule] + [rule], rest);
    assert [rule] + ([rule] + rest) == [rule] + [rule] + rest;
  }

  lemma PlaceholderFirst(rules: seq<Rule>)
    ensures FirstOfEach([PLACEHOLDER] + rules) == FirstOfEach(rules) <==> rules != [] && rules[0] == PLACEHOLDER
  {
    FirstRuleStays([PLACEHOLDER] + rules);
    if rules == [] {
      assert FirstOfEach(rules) == [];
    } else {
      hide FirstOfEach;
      FirstRuleStays(rules);
      RepeatedFirstRule(PLACEHOLDER, rules[1..]);
      assert rules == [rules[0]] + rules[1..];
    }
  }

  /**
   Merging two merges is merging everything at once, except that an empty side contributes its placeholder: this
   holds exactly if no side is empty, or both are, or the placeholder is already where it would go.
  */
  lemma MergingMergesIff(a: seq<InvalidationDict>, b: seq<InvalidationDict>)
    ensures Merge([Merge(a), Merge(b)]) == Merge(a + b) <==>
            && (a == [] && b != [] ==> AllRules(b) != [] && AllRules(b)[0] == PLACEHOLDER)
            && (b == [] && a != [] ==> Knows(AllRules(a), PLACEHOLDER.condition))
  {
    MergeOfMerges(a, b);
    AllRulesConcat(a, b);
    AnyTriggeredConcat(a, b);
    if a == [] && b == [] {
      FirstOfOneMore([PLACEHOLDER], PLACEHOLDER);
      FirstOfDistinct([PLACEHOLDER]);
    } else if a == [] {
      assert a + b == b;
      PlaceholderFirst(AllRules(b));
    } else if b == [] {
      assert a + b == a;
      PlaceholderLast(AllRules(a));
    }
  }

  /** Merging is idempotent, and a merge has pairwise distinct conditions. */
  lemma MergeIsIdempotent(list: seq<InvalidationDict>)
    ensures Merge([Merge(list)]) == Merge(list)
    ensures DistinctConditions(Merge(list).rules)
  {
    var m := Merge(list);
    FirstOfEachIsDistinct(PartRules(list));
    FirstOfDistinct([PLACEHOLDER]);
    FirstOfDistinct(m.rules);
    MergeOfOne(m);
  }

  // ----- The manager -----

  function Processed(rule: RawRule): Rule {
    Rule(Or(rule.condition, "No condition specified"), Or(rule.priceLevel, 0.0),
         Or(rule.reason, "No reason specified"), Or(rule.severity, Hard))
  }

  function ProcessedAll(rules: seq<RawRule>): seq<Rule> {
    seq(|rules|, i requires 0 <= i < |rules| => Processed(rules[i]))
  }

  datatype ManagerState = ManagerState(
    rules: seq<RawRule>,
    triggered: bool,
    triggeredAt: Option<int>,
    reasons: seq<string>)

  datatype ManagerEvent =
    | CheckAt(market: MarketData, now: int)
    | MarkAt(given: seq<string>, now: int)
    | ResetAll
    | AddRule(rule: RawRule)

  function ManagerStep(s: ManagerState, e: ManagerEvent): ManagerState {
    match e
    case CheckAt(market, now) =>
      var r := Check(ProcessedAll(s.rules), market);
      if r.triggered && !s.triggered then s.(triggered := true, triggeredAt := Some(now), reasons := r.reasons) else s
    case MarkAt(given, now) =>
      s.(triggered := true, triggeredAt := Some(now), reasons := if given == [] then s.reasons else given)
    case ResetAll => s.(triggered := false, triggeredAt := None, reasons := [])
    case AddRule(rule) => s.(rules := s.rules + [rule])
  }

  /** A head's rule without a price can be broken through the market's structure alone. */
  lemma UnpricedRules(rule: RawRule, market: MarketData)
    requires rule.priceLevel == None
    ensures Broken(Processed(rule), market) <==>
            KindOf(Processed(rule).condition).StructureRule? && market.structureBroken
  {
    hide KindOf;
  }

  /** What is written is kept, and a rule without a severity is a hard one. */
  lemma ProcessedKeeps(rule: RawRule)
    ensures var p := Processed(rule);
            && (rule.condition.Some? ==> p.condition == rule.condition.value)
            && (rule.priceLevel.Some? ==> p.priceLevel == rule.priceLevel.value)
            && (rule.reason.Some? ==> p.reason == rule.reason.value)
            && p.severity == (if rule.severity.Some? then rule.severity.value else Hard)
  {
  }

  /** After any events a mark holds whatever was checked before, and a reset leaves only the rules. */
  lemma MarkAndReset(s: ManagerState, given: seq<string>, now: int)
    ensures var m := ManagerStep(s, MarkAt(given, now));
            && m.triggered && m.triggeredAt == Some(now) && m.rules == s.rules
            && (given != [] ==> m.reasons == given) && (given == [] ==> m.reasons == s.reasons)
    ensures var r := ManagerStep(s, ResetAll);
            !r.triggered && r.triggeredAt == None && r.reasons == [] && r.rules == s.rules
    ensures forall rule :: ManagerStep(s, AddRule(rule))
                           == ManagerState(s.rules + [rule], s.triggered, s.triggeredAt, s.reasons)
  {
  }

  class InvalidationManager {
    var rawRules: seq<RawRule>
    var triggered: bool
    var triggeredAt: Option<int>
    var triggerReasons: seq<string>
    var invalidation: InvalidationDict

    /** The dict a check reads always carries the current rules, even right after one was added. */
    ghost predicate Valid()
      reads this
    {
      invalidation.rules == ProcessedAll(rawRules)
    }

    ghost function View(): ManagerState
      reads this
    {
      ManagerState(rawRules, triggered, triggeredAt, triggerReasons)
    }

    constructor (rules: seq<RawRule>)
      ensures Valid() && View() == ManagerState(rules, false, None, [])
    {
      rawRules := rules;
      triggered, triggeredAt, triggerReasons := false, None, [];
      invalidation := InvalidationDict(ProcessedAll(rules), false);
    }

    method GetInvalidation() returns (d: InvalidationDict)
      requires Valid()
      modifies this`invalidation
      ensures Valid() && d == invalidation == InvalidationDict(ProcessedAll(rawRules), triggered)
    {
      invalidation := invalidation.(triggered := triggered);
      d := invalidation;
    }

    method CheckMarket(market: MarketData, now: int) returns (r: CheckResult)
      requires Valid()
      modifies this
      ensures Valid() && View() == ManagerStep(old(View()), CheckAt(market, now))
      ensures r == Check(ProcessedAll(rawRules), market)
    {
      r := CheckInvalidation(invalidation, market);
      if r.triggered && !triggered {
        triggered := true;
        triggeredAt := Some(now);
        triggerReasons := r.reasons;
      }
    }

    method MarkTriggered(given: seq<string>, now: int)
      requires Valid()
      modifies this
      ensures Valid() && View() == ManagerStep(old(View()), MarkAt(given, now))
    {
      triggered := true;
      triggeredAt := Some(now);
      if given != [] {
        triggerReasons := given;
      }
    }

    method Reset()
      modifies this
      ensures Valid() && View() == ManagerStep(old(View()), ResetAll)
    {
      triggered, triggeredAt, triggerReasons := false, None, [];
      invalidation := InvalidationDict(ProcessedAll(rawRules), false);
    }

    method Add(rule: RawRule)
      modifies this
      ensures Valid() && View() == ManagerStep(old(View()), AddRule(rule))
    {
      rawRules := rawRules + [rule];
      invalidation := InvalidationDict(ProcessedAll(rawRules), false);
    }
  }

  // ----- The latch over whole runs -----

  function ManagerRun(s: ManagerState, events: seq<ManagerEvent>): ManagerState {
    if events == [] then s
    else ManagerStep(ManagerRun(s, events[..|events| - 1]), events[|events| - 1])
  }

  /** No reset and no manual mark. */
  ghost predicate OnlyChecks(events: seq<ManagerEvent>) {
    forall i :: 0 <= i < |events| ==> events[i].CheckAt? || events[i].AddRule?
  }

  /** The check at `i` fires against the rules known by then. */
  ghost predicate Fires(s: ManagerState, events: seq<ManagerEvent>, i: int) {
    && 0 <= i < |events| && events[i].CheckAt?
    && Check(ProcessedAll(ManagerRun(s, events[..i]).rules), events[i].market).triggered
  }

  ghost predicate FiresFirst(s: ManagerState, events: seq<ManagerEvent>, i: int) {
    Fires(s, events, i) && forall j :: 0 <= j < i ==> !Fires(s, events, j)
  }

  function FiringReasons(s: ManagerState, events: seq<ManagerEvent>, i: nat): seq<string>
    requires i < |events| && events[i].CheckAt?
  {
    Check(ProcessedAll(ManagerRun(s, events[..i]).rules), events[i].market).reasons
  }

  ghost predicate SomeFires(s: ManagerState, events: seq<ManagerEvent>) {
    exists i :: Fires(s, events, i)
  }

  lemma FiresInPrefix(s: ManagerState, events: seq<ManagerEvent>, i: int)
    requires 0 <= i < |events| - 1
    ensures Fires(s, events, i) <==> Fires(s, events[..|events| - 1], i)
    ensures events[i].CheckAt? ==> FiringReasons(s, events, i) == FiringReasons(s, events[..|events| - 1], i)
  {
    hide Check, ManagerRun;
    assert events[..|events| - 1][..i] == events[..i];
  }

  lemma SomeFiresByLast(s: ManagerState, events: seq<ManagerEvent>)
    requires events != []
    ensures SomeFires(s, events) <==> SomeFires(s, events[..|events| - 1]) || Fires(s, events, |events| - 1)
  {
    hide ManagerRun, Check;
    var init := events[..|events| - 1];
    if SomeFires(s, init) {
      var i :| Fires(s, init, i);
      FiresInPrefix(s, events, i);
      hide Fires;
    }
    if SomeFires(s, events) {
      var i :| Fires(s, events, i);
      if i < |init| {
        FiresInPrefix(s, events, i);
        hide Fires;
      }
    }
  }

  lemma FirstFiringInPrefix(s: ManagerState, events: seq<ManagerEvent>, i: int)
    requires i < |events| - 1 && FiresFirst(s, events, i)
    ensures FiresFirst(s, events[..|events| - 1], i)
  {
    hide ManagerRun, Check;
    var init := events[..|events| - 1];
    FiresInPrefix(s, events, i);
    forall j | 0 <= j < i ensures !Fires(s, init, j) {
      FiresInPrefix(s, events, j);
    }
  }

  lemma LastEvent(s: ManagerState, events: seq<ManagerEvent>)
    requires events != [] && OnlyChecks(events)
    ensures var n := |events| - 1;
            var before, after := ManagerRun(s, events[..n]), ManagerRun(s, events);
            && (before.triggered ==> after == before.(rules := after.rules))
            && (!before.triggered ==> (after.triggered <==> Fires(s, events, n)))
            && (!before.triggered && after.triggered ==>
                  events[n].CheckAt? && after.triggeredAt == Some(events[n].now)
                  && after.reasons == FiringReasons(s, events, n))
  {
    hide Check;
  }

  lemma {:induction false} SetTriggerStays(s: ManagerState, events: seq<ManagerEvent>)
    requires OnlyChecks(events) && s.triggered
    ensures ManagerRun(s, events) == s.(rules := ManagerRun(s, events).rules)
  {
    if events != [] {
      SetTriggerStays(s, events[..|events| - 1]);
      LastEvent(s, events);
      hide ManagerRun, Fires, FiringReasons;
    }
  }

  lemma {:induction false} TriggersOnceOneFires(s: ManagerState, events: seq<ManagerEvent>)
    requires OnlyChecks(events) && !s.triggered
    ensures ManagerRun(s, events).triggered <==> SomeFires(s, events)
  {
    if events != [] {
      TriggersOnceOneFires(s, events[..|events| - 1]);
      LastEvent(s, events);
      SomeFiresByLast(s, events);
      hide ManagerRun, Fires, FiringReasons, SomeFires;
    }
  }

  lemma {:induction false} FirstFiringIsKept(s: ManagerState, events: seq<ManagerEvent>, i: int)
    requires OnlyChecks(events) && !s.triggered && FiresFirst(s, events, i)
    ensures ManagerRun(s, events).triggeredAt == Some(events[i].now)
    ensures ManagerRun(s, events).reasons == FiringReasons(s, events, i)
  {
    var n := |events| - 1;
    var init := events[..n];
    LastEvent(s, events);
    TriggersOnceOneFires(s, init);
    if i < n {
      FiresInPrefix(s, events, i);
      FirstFiringInPrefix(s, events, i);
      FirstFiringIsKept(s, init, i);
      assert SomeFires(s, init);
      hide ManagerRun, FiringReasons, Fires;
    } else {
      assert !SomeFires(s, init) by {
        forall j ensures !Fires(s, init, j) {
          if 0 <= j < n {
            FiresInPrefix(s, events, j);
          }
        }
      }
      hide ManagerRun, FiringReasons;
    }
  }

  /**
   Between resets and manual marks the trigger latches: a set trigger keeps its time and reasons through any checks
   and new rules; an unset one is set by the first check that fires, with that check's time and reasons.
  */
  lemma TriggerLatches(s: ManagerState, events: seq<ManagerEvent>)
    requires OnlyChecks(events)
    ensures s.triggered ==> ManagerRun(s, events) == s.(rules := ManagerRun(s, events).rules)
    ensures !s.triggered ==> (ManagerRun(s, events).triggered <==> exists i :: Fires(s, events, i))
    ensures !s.triggered ==> forall i :: FiresFirst(s, events, i) ==>
              && ManagerRun(s, events).triggeredAt == Some(events[i].now)
              && ManagerRun(s, events).reasons == FiringReasons(s, events, i)
  {
    if s.triggered {
      SetTriggerStays(s, events);
    } else {
      TriggersOnceOneFires(s, events);
      forall i | FiresFirst(s, events, i)
        ensures ManagerRun(s, events).triggeredAt == Some(events[i].now)
        ensures ManagerRun(s, events).reasons == FiringReasons(s, events, i)
      {
        FirstFiringIsKept(s, events, i);
      }
    }
  }
}
