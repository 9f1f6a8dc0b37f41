/**
 * The pure list operations of the pricing administration screen: grouping the
 * rule table by service and, within a service, by category; and replacing the
 * value of one rule after a successful save.
 */
module PricingManager {
  import opened Wrappers
  import opened PricingRules

  /** The field a grouping is keyed by. */
  datatype Field = ServiceType | Category

  function FieldOf(r: PricingRule, f: Field): string {
    match f
    case ServiceType => r.serviceType
    case Category => r.category
  }

  /** One group: a key and its rules, as the accumulator object holds them. */
  datatype RuleGroup = RuleGroup(key: string, rules: seq<PricingRule>)

  /** The rules whose field equals `key`, in their original order. */
  function Select(rules: seq<PricingRule>, f: Field, key: string): seq<PricingRule> {
    if |rules| == 0 then []
    else Select(rules[..|rules| - 1], f, key)
         + (if FieldOf(rules[|rules| - 1], f) == key then [rules[|rules| - 1]] else [])
  }

  function TotalSize(groups: seq<RuleGroup>): nat {
    if |groups| == 0 then 0 else |groups[0].rules| + TotalSize(groups[1..])
  }

  predicate DistinctKeys(groups: seq<RuleGroup>) {
    forall i, j :: 0 <= i < j < |groups| ==> groups[i].key != groups[j].key
  }

  /**
   * One step of the `reduce`: push `r` onto the group of its key, opening a
   * new group at the end when the key has not been seen.
   */
  function AddToGroup(groups: seq<RuleGroup>, r: PricingRule, f: Field): (res: seq<RuleGroup>)
    requires DistinctKeys(groups)
    ensures DistinctKeys(res)
    ensures |res| == |groups| || |res| == |groups| + 1
    ensures forall i :: 0 <= i < |groups| ==>
              res[i].key == groups[i].key
              && res[i].rules == groups[i].rules + (if groups[i].key == FieldOf(r, f) then [r] else [])
    ensures |res| == |groups| + 1 <==> forall i :: 0 <= i < |groups| ==> groups[i].key != FieldOf(r, f)
    ensures |res| == |groups| + 1 ==> res[|groups|] == RuleGroup(FieldOf(r, f), [r])
    ensures TotalSize(res) == TotalSize(groups) + 1
  {
    if |groups| == 0 then [RuleGroup(FieldOf(r, f), [r])]
    else if groups[0].key == FieldOf(r, f) then
      [RuleGroup(groups[0].key, groups[0].rules + [r])] + groups[1..]
    else
      var rest := AddToGroup(groups[1..], r, f);
      assert ([groups[0]] + rest)[1..] == rest;
      [groups[0]] + rest
  }

  /**
   * `groups` is a grouping of `rules` by `f`: the keys are distinct, each
   * group is exactly the rules of its key in their original order (and so is
   * never empty), and every rule's key has a group.
   */
  predicate GroupedBy(groups: seq<RuleGroup>, rules: seq<PricingRule>, f: Field) {
    && DistinctKeys(groups)
    && SelectsExactly(groups, rules, f)
    && Covers(groups, rules, f)
  }

  /** Each group holds exactly the rules of its key, in order, and at least one. */
  predicate SelectsExactly(groups: seq<RuleGroup>, rules: seq<PricingRule>, f: Field) {
    forall i :: 0 <= i < |groups| ==> groups[i].rules == Select(rules, f, groups[i].key) && |groups[i].rules| > 0
  }

  /** Every rule's key is the key of some group. */
  predicate Covers(groups: seq<RuleGroup>, rules: seq<PricingRule>, f: Field) {
    forall j :: 0 <= j < |rules| ==> exists i :: 0 <= i < |groups| && groups[i].key == FieldOf(rules[j], f)
  }

  /**
   * `rules.reduce(...)` keyed by `f`: the groups in order of first appearance
   * of their key, together holding every rule once.
   */
  function GroupRules(rules: seq<PricingRule>, f: Field): (groups: seq<RuleGroup>)
    ensures GroupedBy(groups, rules, f)
    ensures TotalSize(groups) == |rules|
  {
    if |rules| == 0 then []
    else
      var init := rules[..|rules| - 1];
      var last := rules[|rules| - 1];
      var before := GroupRules(init, f);
      GroupStep(rules, f, before);
      AddToGroup(before, last, f)
  }

  /** One `reduce` step keeps the grouping invariant. */
  lemma GroupStep(rules: seq<PricingRule>, f: Field, before: seq<RuleGroup>)
    requires |rules| > 0 && GroupedBy(before, rules[..|rules| - 1], f)
    ensures GroupedBy(AddToGroup(before, rules[|rules| - 1], f), rules, f)
  {
    var init := rules[..|rules| - 1];
    var last := rules[|rules| - 1];
    var after := AddToGroup(before, last, f);
    GroupStepSelects(rules, f, before);
    GroupStepCovers(rules, f, before);
  }

  lemma GroupStepSelects(rules: seq<PricingRule>, f: Field, before: seq<RuleGroup>)
    requires |rules| > 0 && GroupedBy(before, rules[..|rules| - 1], f)
    ensures SelectsExactly(AddToGroup(before, rules[|rules| - 1], f), rules, f)
  {
    var init := rules[..|rules| - 1];
    var last := rules[|rules| - 1];
    var k := FieldOf(last, f);
    var after := AddToGroup(before, last, f);
    forall i | 0 <= i < |after|
      ensures after[i].rules == Select(rules, f, after[i].key) && |after[i].rules| > 0
    {
      assert Select(rules, f, after[i].key)
             == Select(init, f, after[i].key) + (if k == after[i].key then [last] else []);
      if i == |before| {
        SelectMissingKey(init, f, k, before);
      }
    }
    assert SelectsExactly(after, rules, f);
  }

  lemma GroupStepCovers(rules: seq<PricingRule>, f: Field, before: seq<RuleGroup>)
    requires |rules| > 0 && GroupedBy(before, rules[..|rules| - 1], f)
    ensures Covers(AddToGroup(before, rules[|rules| - 1], f), rules, f)
  {
    var init := rules[..|rules| - 1];
    var last := rules[|rules| - 1];
    var after := AddToGroup(before, last, f);
    forall j | 0 <= j < |rules|
      ensures exists i :: 0 <= i < |after| && after[i].key == FieldOf(rules[j], f)
    {
      if j < |rules| - 1 {
        assert rules[j] == init[j];
        var i :| 0 <= i < |before| && before[i].key == FieldOf(init[j], f);
        assert after[i].key == before[i].key;
      } else if |after| == |before| + 1 {
        assert after[|before|].key == FieldOf(last, f);
      } else {
        var i :| 0 <= i < |before| && before[i].key == FieldOf(last, f);
        assert after[i].key == before[i].key;
      }
    }
    assert Covers(after, rules, f);
  }

  /** A key that no group carries selects nothing. */
  lemma SelectMissingKey(rules: seq<PricingRule>, f: Field, key: string, groups: seq<RuleGroup>)
    requires Covers(groups, rules, f)
    requires forall i :: 0 <= i < |groups| ==> groups[i].key != key
    ensures Select(rules, f, key) == []
  {
    SelectNone(rules, f, key);
  }

  lemma {:induction false} SelectNone(rules: seq<PricingRule>, f: Field, key: string)
    requires forall j :: 0 <= j < |rules| ==> FieldOf(rules[j], f) != key
    ensures Select(rules, f, key) == []
  {
    if |rules| > 0 {
      SelectNone(rules[..|rules| - 1], f, key);
    }
  }

  /** Membership in a selection: exactly the rules of the list with that key. */
  lemma {:induction false} SelectMembers(rules: seq<PricingRule>, f: Field, key: string, x: PricingRule)
    ensures x in Select(rules, f, key) <==> x in rules && FieldOf(x, f) == key
  {
    if |rules| > 0 {
      var init := rules[..|rules| - 1];
      SelectMembers(init, f, key, x);
      assert rules == init + [rules[|rules| - 1]];
    }
  }

  /** `x` sits in a group whose key is its own. */
  predicate InOwnGroup(groups: seq<RuleGroup>, f: Field, x: PricingRule) {
    exists i :: 0 <= i < |groups| && groups[i].key == FieldOf(x, f) && x in groups[i].rules
  }

  /** In a grouping, a rule of the list sits in the group of its own key. */
  lemma RuleInOwnGroup(groups: seq<RuleGroup>, rules: seq<PricingRule>, f: Field, x: PricingRule)
    requires GroupedBy(groups, rules, f) && x in rules
    ensures InOwnGroup(groups, f, x)
  {
    var j :| 0 <= j < |rules| && rules[j] == x;
    var i :| 0 <= i < |groups| && groups[i].key == FieldOf(rules[j], f);
    SelectMembers(rules, f, groups[i].key, x);
    assert groups[i].rules == Select(rules, f, groups[i].key);
    assert x in groups[i].rules;
  }

  /** In a grouping, a group only holds rules of its own key. */
  lemma RuleOnlyInOwnGroup(groups: seq<RuleGroup>, rules: seq<PricingRule>, f: Field, x: PricingRule)
    requires GroupedBy(groups, rules, f)
    ensures forall i :: 0 <= i < |groups| && x in groups[i].rules ==> groups[i].key == FieldOf(x, f) && x in rules
  {
    forall k | 0 <= k < |groups| && x in groups[k].rules
      ensures groups[k].key == FieldOf(x, f) && x in rules
    {
      assert groups[k].rules == Select(rules, f, groups[k].key);
      SelectMembers(rules, f, groups[k].key, x);
    }
  }

  /** Every rule lands in exactly one group of `GroupRules`: the group of its own key. */
  lemma EachRuleInExactlyOneGroup(rules: seq<PricingRule>, f: Field, x: PricingRule)
    requires x in rules
    ensures InOwnGroup(GroupRules(rules, f), f, x)
    ensures var groups := GroupRules(rules, f);
            forall i :: 0 <= i < |groups| && x in groups[i].rules ==> groups[i].key == FieldOf(x, f)
  {
    var groups := GroupRules(rules, f);
    RuleInOwnGroup(groups, rules, f, x);
    RuleOnlyInOwnGroup(groups, rules, f, x);
  }

  /**
   * The map in `handleSave`: every rule with id `id` takes `newValue`; all
   * other rules, and every other field, are kept; length and order are kept.
   */
  method UpdateValue(rules: seq<PricingRule>, id: string, newValue: real) returns (updated: seq<PricingRule>)
    ensures |updated| == |rules|
    ensures forall i :: 0 <= i < |rules| && rules[i].id != id ==> updated[i] == rules[i]
    ensures forall i :: 0 <= i < |rules| && rules[i].id == id ==> updated[i] == rules[i].(value := newValue)
  {
    updated := [];
    var k := 0;
    while k < |rules|
      invariant 0 <= k <= |rules|
      invariant |updated| == k
      invariant forall i :: 0 <= i < k && rules[i].id != id ==> updated[i] == rules[i]
      invariant forall i :: 0 <= i < k && rules[i].id == id ==> updated[i] == rules[i].(value := newValue)
    {
      var r := rules[k];
      updated := updated + [if r.id == id then r.(value := newValue) else r];
      k := k + 1;
    }
  }

  /**
   * `handleSave` for the rule `id`. `parsed` is the edit box read as a number
   * (`None` when it does not parse), `saved` whether the store accepted it.
   * The table changes only after a number was read and the store accepted it.
   */
  method HandleSave(rules: seq<PricingRule>, id: string, parsed: Option<real>, saved: bool)
    returns (next: seq<PricingRule>)
    ensures parsed.None? || !saved ==> next == rules
    ensures parsed.Some? && saved ==>
              |next| == |rules|
              && forall i :: 0 <= i < |rules| ==>
                   next[i].id == rules[i].id && next[i].serviceType == rules[i].serviceType
                   && next[i].category == rules[i].category && next[i].key == rules[i].key
                   && next[i].value == (if rules[i].id == id then parsed.value else rules[i].value)
  {
    if parsed.None? {
      return rules;
    }
    if !saved {
      return rules;
    }
    next := UpdateValue(rules, id, parsed.value);
  }
}
