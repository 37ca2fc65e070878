/** The discount-rule resolver of the discount_policy add-on.

    A rule belongs to a policy and restricts three independent optional axes
    (client type, product, product category) plus a minimum quantity.  The
    resolver keeps the rules that match a (partner, product, quantity)
    context and returns the largest percentage among them, or 0.0 when none
    matches.  The ORM query `search(domain, order='discount_percentage desc',
    limit=1)` is modelled as a filter (Eligible) followed by a maximum
    (MaxPercentage). */
module DiscountRules {

  datatype Option<T> = None | Some(value: T)

  /** Database identifiers of client types, products, categories, policies. */
  type Id = nat

  /** A discount policy: only its id and its `active` flag matter here. */
  datatype Policy = Policy(id: Id, active: bool)

  /** A customer; the resolver only looks at its (optional) client type.
      An unset partner behaves exactly like a partner without a type. */
  datatype Partner = Partner(clientType: Option<Id>)

  /** A product variant; every product has a category. */
  datatype Product = Product(id: Id, category: Id)

  /** One `discount.policy.rule` record. Quantities and percentages are only
      compared, never computed with, so they are modelled as reals. */
  datatype Rule = Rule(
    policy: Option<Policy>,
    clientType: Option<Id>,
    product: Option<Id>,
    category: Option<Id>,
    minQuantity: real,
    percentage: real)

  /** Outcome of the write-time constraint. */
  datatype Outcome = Pass | Fail(error: string)

  const PercentageError: string := "El porcentaje de descuento debe estar entre 0 y 100."

  // ---------------------------------------------------------------------
  // The percentage constraint

  /** A percentage the constraint accepts: within [0,100]. */
  predicate ValidPercentage(pct: real)
  {
    !(pct < 0.0 || pct > 100.0)
  }

  /** The constraint check run over a recordset: the first rule with a
      percentage outside [0,100] raises the validation error. */
  function CheckDiscountPercentage(rules: seq<Rule>): (o: Outcome)
    ensures o.Pass? <==> forall r :: r in rules ==> ValidPercentage(r.percentage)
    ensures o.Fail? ==> o.error == PercentageError
  {
    if rules == [] then Pass
    else if !ValidPercentage(rules[0].percentage) then Fail(PercentageError)
    else CheckDiscountPercentage(rules[1..])
  }

  // ---------------------------------------------------------------------
  // Matching

  /** The client-type axis is asymmetric: a typed partner accepts untyped
      rules and rules of its own type; an untyped partner only untyped rules. */
  predicate ClientTypeMatches(ruleType: Option<Id>, partnerType: Option<Id>)
  {
    match partnerType
    case Some(t) => ruleType.None? || ruleType == Some(t)
    case None => ruleType.None?
  }

  /** The product and category axes: unset, or equal to the given value. */
  predicate AxisMatches(axis: Option<Id>, given: Id)
  {
    axis.None? || axis == Some(given)
  }

  /** The conjunction of the search domain built by the resolver. */
  predicate Matches(r: Rule, partner: Partner, product: Product, quantity: real)
  {
    && r.policy.Some? && r.policy.value.active
    && r.minQuantity <= quantity
    && ClientTypeMatches(r.clientType, partner.clientType)
    && AxisMatches(r.product, product.id)
    && AxisMatches(r.category, product.category)
  }

  /** The rules the search domain selects, in their original order. */
  function Eligible(rules: seq<Rule>, partner: Partner, product: Product, quantity: real): (e: seq<Rule>)
    ensures forall r :: r in e <==> r in rules && Matches(r, partner, product, quantity)
  {
    if rules == [] then []
    else
      (if Matches(rules[0], partner, product, quantity) then [rules[0]] else [])
      + Eligible(rules[1..], partner, product, quantity)
  }

  /** The percentage of the first record of a search ordered by descending
      percentage: the largest percentage in a non-empty sequence. */
  function MaxPercentage(s: seq<Rule>): (m: real)
    requires s != []
    ensures exists r :: r in s && r.percentage == m
    ensures forall r :: r in s ==> r.percentage <= m
  {
    if |s| == 1 then s[0].percentage
    else
      var rest := MaxPercentage(s[1..]);
      if s[0].percentage >= rest then s[0].percentage else rest
  }

  /** `get_best_discount(partner, product, quantity)`. */
  function BestDiscount(rules: seq<Rule>, partner: Partner, product: Option<Product>, quantity: real): (d: real)
    ensures product.None? ==> d == 0.0
    ensures product.Some? && (forall r :: r in rules ==> !Matches(r, partner, product.value, quantity)) ==> d == 0.0
    ensures product.Some? ==>
      forall r :: r in rules && Matches(r, partner, product.value, quantity) ==> r.percentage <= d
    ensures product.Some? && (exists r :: r in rules && Matches(r, partner, product.value, quantity)) ==>
      exists r :: r in rules && Matches(r, partner, product.value, quantity) && r.percentage == d
  {
    if product.None? then 0.0
    else
      var e := Eligible(rules, partner, product.value, quantity);
      if e == [] then 0.0 else MaxPercentage(e)
  }

  // ---------------------------------------------------------------------
  // Properties of the resolver

  /** The result depends only on which rules match: neither the order of the
      rule records nor rules that do not match can change it. */
  lemma SameMatchesSameDiscount(rules1: seq<Rule>, rules2: seq<Rule>, partner: Partner, product: Product, quantity: real)
    requires forall r :: r in rules1 && Matches(r, partner, product, quantity) <==> r in rules2 && Matches(r, partner, product, quantity)
    ensures BestDiscount(rules1, partner, Some(product), quantity) == BestDiscount(rules2, partner, Some(product), quantity)
  {
    var d1 := BestDiscount(rules1, partner, Some(product), quantity);
    var d2 := BestDiscount(rules2, partner, Some(product), quantity);
    if exists r :: r in rules1 && Matches(r, partner, product, quantity) {
      var r1 :| r1 in rules1 && Matches(r1, partner, product, quantity) && r1.percentage == d1;
      var r2 :| r2 in rules2 && Matches(r2, partner, product, quantity) && r2.percentage == d2;
      assert d1 <= d2 && d2 <= d1;
    }
  }

  /** A rule that does not match the context, wherever it sits among the
      others, never contributes to the result. */
  lemma NonMatchingRuleIgnored(before: seq<Rule>, r: Rule, after: seq<Rule>, partner: Partner, product: Product, quantity: real)
    requires !Matches(r, partner, product, quantity)
    ensures BestDiscount(before + [r] + after, partner, Some(product), quantity)
         == BestDiscount(before + after, partner, Some(product), quantity)
  {
    SameMatchesSameDiscount(before + [r] + after, before + after, partner, product, quantity);
  }

  /** A rule whose minimum quantity exceeds the ordered quantity never contributes. */
  lemma BelowMinQuantityIgnored(before: seq<Rule>, r: Rule, after: seq<Rule>, partner: Partner, product: Product, quantity: real)
    requires r.minQuantity > quantity
    ensures BestDiscount(before + [r] + after, partner, Some(product), quantity)
         == BestDiscount(before + after, partner, Some(product), quantity)
  {
    NonMatchingRuleIgnored(before, r, after, partner, product, quantity);
  }

  /** A rule whose policy is inactive, or that has no policy, never contributes. */
  lemma InactivePolicyIgnored(before: seq<Rule>, r: Rule, after: seq<Rule>, partner: Partner, product: Product, quantity: real)
    requires r.policy.None? || !r.policy.value.active
    ensures BestDiscount(before + [r] + after, partner, Some(product), quantity)
         == BestDiscount(before + after, partner, Some(product), quantity)
  {
    NonMatchingRuleIgnored(before, r, after, partner, product, quantity);
  }

  /** A rule typed for another client type, or any typed rule when the partner
      has no type (a retail buyer never gets the wholesale rule), never contributes. */
  lemma ClientTypeMismatchIgnored(before: seq<Rule>, r: Rule, after: seq<Rule>, partner: Partner, product: Product, quantity: real)
    requires r.clientType.Some? && r.clientType != partner.clientType
    ensures BestDiscount(before + [r] + after, partner, Some(product), quantity)
         == BestDiscount(before + after, partner, Some(product), quantity)
  {
    NonMatchingRuleIgnored(before, r, after, partner, product, quantity);
  }

  /** A rule naming another product, or another category, never contributes;
      the two axes are checked independently of each other. */
  lemma ProductOrCategoryMismatchIgnored(before: seq<Rule>, r: Rule, after: seq<Rule>, partner: Partner, product: Product, quantity: real)
    requires (r.product.Some? && r.product.value != product.id) || (r.category.Some? && r.category.value != product.category)
    ensures BestDiscount(before + [r] + after, partner, Some(product), quantity)
         == BestDiscount(before + after, partner, Some(product), quantity)
  {
    NonMatchingRuleIgnored(before, r, after, partner, product, quantity);
  }

  /** Every axis left unset is a wildcard: a rule of an active policy with no
      axis set and a reached minimum bounds the result from below for every
      partner and product, however specific the competing rules are. */
  lemma WildcardRuleBoundsResult(rules: seq<Rule>, w: Rule, partner: Partner, product: Product, quantity: real)
    requires w in rules
    requires w.policy.Some? && w.policy.value.active && w.minQuantity <= quantity
    requires w.clientType.None? && w.product.None? && w.category.None?
    ensures BestDiscount(rules, partner, Some(product), quantity) >= w.percentage
  {
    assert Matches(w, partner, product, quantity);
  }

  /** With every rule satisfying the percentage constraint, the resolver's
      result lies in [0,100]. */
  lemma BestDiscountInRange(rules: seq<Rule>, partner: Partner, product: Option<Product>, quantity: real)
    requires CheckDiscountPercentage(rules).Pass?
    ensures 0.0 <= BestDiscount(rules, partner, product, quantity) <= 100.0
  {
    var d := BestDiscount(rules, partner, product, quantity);
    if product.Some? && exists r :: r in rules && Matches(r, partner, product.value, quantity) {
      var r :| r in rules && Matches(r, partner, product.value, quantity) && r.percentage == d;
    }
  }

  // ---------------------------------------------------------------------
  // Deactivating a policy

  function DeactivateRule(r: Rule, pid: Id): Rule
  {
    if r.policy.Some? && r.policy.value.id == pid then r.(policy := Some(r.policy.value.(active := false))) else r
  }

  /** The rule set after policy `pid` has its `active` flag cleared. */
  function Deactivate(rules: seq<Rule>, pid: Id): seq<Rule>
  {
    seq(|rules|, i requires 0 <= i < |rules| => DeactivateRule(rules[i], pid))
  }

  predicate InPolicy(r: Rule, pid: Id)
  {
    r.policy.Some? && r.policy.value.id == pid
  }

  /** The rules that do not belong to policy `pid`. */
  function OtherPolicies(rules: seq<Rule>, pid: Id): (s: seq<Rule>)
    ensures forall r :: r in s <==> r in rules && !InPolicy(r, pid)
  {
    if rules == [] then []
    else (if InPolicy(rules[0], pid) then [] else [rules[0]]) + OtherPolicies(rules[1..], pid)
  }

  /** Deactivating a policy removes all its rules from eligibility: the result
      is the one computed from the other policies' rules alone, hence 0.0 when
      none of those matches. */
  lemma DeactivatedPolicyIgnored(rules: seq<Rule>, pid: Id, partner: Partner, product: Product, quantity: real)
    ensures BestDiscount(Deactivate(rules, pid), partner, Some(product), quantity)
         == BestDiscount(OtherPolicies(rules, pid), partner, Some(product), quantity)
  {
    var d := Deactivate(rules, pid);
    var o := OtherPolicies(rules, pid);
    forall r | r in d && Matches(r, partner, product, quantity)
      ensures r in o
    {
      var i :| 0 <= i < |d| && d[i] == r;
      assert !InPolicy(rules[i], pid);
    }
    forall r | r in o && Matches(r, partner, product, quantity)
      ensures r in d
    {
      var i :| 0 <= i < |rules| && rules[i] == r;
      assert d[i] == r;
    }
    SameMatchesSameDiscount(d, o, partner, product, quantity);
  }
}
