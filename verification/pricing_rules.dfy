/**
 * Pricing rules: named unit prices that an administrator can override at
 * runtime. The calculators receive the whole table as an optional, read-only
 * list and look prices up by (service type, category, key), falling back to a
 * hard-coded default whenever no rule matches. A lookup never fails.
 */
module PricingRules {
  import opened Wrappers

  /** One row of the pricing table. Only the fields the core reads are kept. */
  datatype PricingRule = PricingRule(
    id: string,
    serviceType: string,
    category: string,
    key: string,
    value: real
  )

  /** Which rows a lookup accepts. */
  datatype RuleQuery =
    /** `service_type`, `category` and `key` all equal. */
    | Exact(service: string, category: string, key: string)
    /** `service_type` and `key` equal, `category` any of `categories`. */
    | AnyCategory(service: string, categories: seq<string>, key: string)

  predicate Matches(q: RuleQuery, r: PricingRule) {
    match q
    case Exact(s, c, k) => r.serviceType == s && r.category == c && r.key == k
    case AnyCategory(s, cs, k) => r.serviceType == s && r.category in cs && r.key == k
  }

  /** Row `i` is the first row of `rules` that the query accepts. */
  predicate IsFirstMatch(rules: seq<PricingRule>, q: RuleQuery, i: int) {
    && 0 <= i < |rules|
    && Matches(q, rules[i])
    && forall j :: 0 <= j < i ==> !Matches(q, rules[j])
  }

  /** No row of `rules` is accepted by the query. */
  predicate NoMatch(rules: seq<PricingRule>, q: RuleQuery) {
    forall j :: 0 <= j < |rules| ==> !Matches(q, rules[j])
  }

  /** Index of the first row that the query accepts, as `Array.prototype.find` picks it. */
  function FindFirst(rules: seq<PricingRule>, q: RuleQuery): (r: Option<nat>)
    ensures r.Some? ==> IsFirstMatch(rules, q, r.value)
    ensures r.None? <==> NoMatch(rules, q)
  {
    if |rules| == 0 then None
    else if Matches(q, rules[0]) then Some(0)
    else
      match FindFirst(rules[1..], q)
      case None => None
      case Some(i) => Some(i + 1)
  }

  /**
   * The value of the first accepted row, or `fallback` when the table is
   * absent or holds no accepted row.
   */
  function Lookup(rules: Option<seq<PricingRule>>, q: RuleQuery, fallback: real): (price: real)
    ensures rules.None? ==> price == fallback
    ensures rules.Some? && NoMatch(rules.value, q) ==> price == fallback
    ensures forall i :: rules.Some? && IsFirstMatch(rules.value, q, i) ==> price == rules.value[i].value
  {
    match rules
    case None => fallback
    case Some(rs) =>
      match FindFirst(rs, q)
      case None => fallback
      case Some(i) => rs[i].value
  }

  /** A table whose first row the query accepts yields that row's value. */
  lemma LookupFirstRowMatches(rs: seq<PricingRule>, q: RuleQuery, fallback: real)
    requires |rs| > 0 && Matches(q, rs[0])
    ensures Lookup(Some(rs), q, fallback) == rs[0].value
  {
    assert IsFirstMatch(rs, q, 0);
  }

  /** A first row the query does not accept is skipped. */
  lemma LookupSkipsFirstRow(rs: seq<PricingRule>, q: RuleQuery, fallback: real)
    requires |rs| > 0 && !Matches(q, rs[0])
    ensures Lookup(Some(rs), q, fallback) == Lookup(Some(rs[1..]), q, fallback)
  {
  }

  /**
   * A lookup only ever sees rows the query accepts: a row it does not accept,
   * inserted anywhere in the table, never changes the price.
   */
  lemma {:induction false} LookupIgnoresOtherRows(front: seq<PricingRule>, other: PricingRule, back: seq<PricingRule>,
                                                  q: RuleQuery, fallback: real)
    requires !Matches(q, other)
    ensures Lookup(Some(front + [other] + back), q, fallback) == Lookup(Some(front + back), q, fallback)
  {
    var ext := front + [other] + back;
    if |front| == 0 {
      assert ext[1..] == back;
      assert front + back == back;
      LookupSkipsFirstRow(ext, q, fallback);
    } else if Matches(q, front[0]) {
      LookupFirstRowMatches(ext, q, fallback);
      LookupFirstRowMatches(front + back, q, fallback);
    } else {
      LookupIgnoresOtherRows(front[1..], other, back, q, fallback);
      assert ext[1..] == front[1..] + [other] + back;
      assert (front + back)[1..] == front[1..] + back;
      LookupSkipsFirstRow(ext, q, fallback);
      LookupSkipsFirstRow(front + back, q, fallback);
    }
  }

  /** A single-row table that accepts the query overrides the default with its own value. */
  lemma SingleRuleOverrides(r: PricingRule, q: RuleQuery, fallback: real)
    requires Matches(q, r)
    ensures Lookup(Some([r]), q, fallback) == r.value
  {
  }
}
