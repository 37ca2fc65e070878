/** The discount_policy test fixtures replayed on the model: one active
    policy with a retail rule (product A, from 10 units, 10%), a wholesale
    rule (product A, from 5 units, 20%) and an any-customer rule (product B,
    from 1 unit, 5%). */
module DiscountScenarios {
  import opened DiscountRules
  import opened Invoicing
  import opened SaleOrders

  const AllCategory: Id := 1
  const ProductA: Product := Product(1, AllCategory)
  const ProductB: Product := Product(2, AllCategory)

  const RetailType: Id := 1
  const WholesaleType: Id := 2
  const RetailPartner: Partner := Partner(Some(RetailType))
  const WholesalePartner: Partner := Partner(Some(WholesaleType))
  const TypelessPartner: Partner := Partner(None)

  const GeneralPolicy: Policy := Policy(1, true)

  const RetailRule: Rule := Rule(Some(GeneralPolicy), Some(RetailType), Some(ProductA.id), None, 10.0, 10.0)
  const WholesaleRule: Rule := Rule(Some(GeneralPolicy), Some(WholesaleType), Some(ProductA.id), None, 5.0, 20.0)
  const ProductBRule: Rule := Rule(Some(GeneralPolicy), None, Some(ProductB.id), None, 1.0, 5.0)
  const FixtureRules: seq<Rule> := [RetailRule, WholesaleRule, ProductBRule]

  /** The extra rule of the best-selection test: product B from 10 units, 15%. */
  const ProductBBulkRule: Rule := Rule(Some(GeneralPolicy), None, Some(ProductB.id), None, 10.0, 15.0)

  /** Retail buying 5 of A gets nothing: the quantity is below its own
      rule's minimum, and the wholesale rule is not theirs. */
  lemma RetailBuysFive()
    ensures BestDiscount(FixtureRules, RetailPartner, Some(ProductA), 5.0) == 0.0
  {
    forall r | r in FixtureRules ensures !Matches(r, RetailPartner, ProductA, 5.0) {
    }
  }

  /** Retail buying 10 of A gets its own 10% rule. */
  lemma RetailBuysTen()
    ensures BestDiscount(FixtureRules, RetailPartner, Some(ProductA), 10.0) == 10.0
  {
    assert Matches(RetailRule, RetailPartner, ProductA, 10.0);
  }

  /** Wholesale buying 5 of A gets 20%. */
  lemma WholesaleBuysFive()
    ensures BestDiscount(FixtureRules, WholesalePartner, Some(ProductA), 5.0) == 20.0
  {
    assert Matches(WholesaleRule, WholesalePartner, ProductA, 5.0);
  }

  /** A typeless partner buying 1 of B gets the any-customer 5% rule. */
  lemma TypelessBuysOneB()
    ensures BestDiscount(FixtureRules, TypelessPartner, Some(ProductB), 1.0) == 5.0
  {
    assert Matches(ProductBRule, TypelessPartner, ProductB, 1.0);
  }

  /** With a second product-B rule, 12 units get the better 15%. */
  lemma BestRuleSelected()
    ensures BestDiscount(FixtureRules + [ProductBBulkRule], TypelessPartner, Some(ProductB), 12.0) == 15.0
  {
    var rules := FixtureRules + [ProductBBulkRule];
    assert ProductBBulkRule in rules && Matches(ProductBBulkRule, TypelessPartner, ProductB, 12.0);
    assert forall r :: r in rules ==> r == RetailRule || r == WholesaleRule || r == ProductBRule || r == ProductBBulkRule;
  }

  /** With the general policy switched off, nothing applies. */
  lemma InactivePolicyGivesNothing()
    ensures BestDiscount(Deactivate(FixtureRules, GeneralPolicy.id), RetailPartner, Some(ProductA), 10.0) == 0.0
  {
    var rules := Deactivate(FixtureRules, GeneralPolicy.id);
    forall r | r in rules ensures !Matches(r, RetailPartner, ProductA, 10.0) {
      var i :| 0 <= i < |rules| && rules[i] == r;
    }
  }

  /** Posts a one-line customer invoice and returns the line's discount. */
  method PostOneLine(partner: Partner, product: Product, quantity: real, discount: real, rules: seq<Rule>)
    returns (posted: real)
    ensures posted == PostedLine(InvoiceLine(Some(product), quantity, discount), partner, rules).discount
  {
    var move := new AccountMove(OutInvoice, partner, [InvoiceLine(Some(product), quantity, discount)]);
    ActionPost([move], rules);
    posted := move.lines[0].discount;
  }

  /** The invoice tests, posted through `action_post`, and a line already at
      12% that keeps it when the policy only offers 10%. */
  method InvoiceScenarios() returns (discounts: seq<real>)
    ensures discounts == [0.0, 10.0, 20.0, 5.0, 15.0, 0.0, 0.0, 12.0]
  {
    RetailBuysFive();
    RetailBuysTen();
    WholesaleBuysFive();
    TypelessBuysOneB();
    BestRuleSelected();
    InactivePolicyGivesNothing();
    var d1 := PostOneLine(RetailPartner, ProductA, 5.0, 0.0, FixtureRules);
    var d2 := PostOneLine(RetailPartner, ProductA, 10.0, 0.0, FixtureRules);
    var d3 := PostOneLine(WholesalePartner, ProductA, 5.0, 0.0, FixtureRules);
    var d4 := PostOneLine(TypelessPartner, ProductB, 1.0, 0.0, FixtureRules);
    var d5 := PostOneLine(TypelessPartner, ProductB, 12.0, 0.0, FixtureRules + [ProductBBulkRule]);
    var d6 := PostOneLine(RetailPartner, ProductA, 10.0, 0.0, Deactivate(FixtureRules, GeneralPolicy.id));
    var d7 := PostOneLine(RetailPartner, ProductA, 5.0, 0.0, FixtureRules);
    var d8 := PostOneLine(RetailPartner, ProductA, 10.0, 12.0, FixtureRules);
    discounts := [d1, d2, d3, d4, d5, d6, d7, d8];
  }

  /** A typeless partner gets nothing on product A: both A rules are typed. */
  lemma TypelessGetsNothingOnA(quantity: real)
    ensures BestDiscount(FixtureRules, TypelessPartner, Some(ProductA), quantity) == 0.0
  {
    forall r | r in FixtureRules ensures !Matches(r, TypelessPartner, ProductA, quantity) {
    }
  }

  /** First half of the sale-order test: a wholesale order for 5 units of A
      gets 20%; switching the order to the retail partner drops it to 0%. */
  method WholesaleThenRetail() returns (order: SaleOrder, line: SaleOrderLine, d1: real, d2: real)
    ensures fresh(order) && fresh(line) && order.Valid() && order.orderLines == [line]
    ensures order.partner == Some(RetailPartner)
    ensures line.product == Some(ProductA) && line.quantity == 5.0 && line.discount == 0.0
    ensures d1 == 20.0 && d2 == 0.0
  {
    order := new SaleOrder(Some(WholesalePartner));
    line := order.AddLine(Some(ProductA), 5.0);
    WholesaleBuysFive();
    line.OnchangeDiscountPolicy(FixtureRules);
    d1 := line.discount;

    order.partner := Some(RetailPartner);
    RetailBuysFive();
    order.OnchangePartnerDiscountPolicy(FixtureRules);
    assert line in order.orderLines;
    d2 := line.discount;
  }

  /** Sale-order test: wholesale, 5 units of A gives 20%; switching to the
      retail partner drops it to 0%; raising the quantity to 10 gives 10%;
      switching to a typeless partner drops it to 0% again. */
  method SaleOrderScenario() returns (discounts: seq<real>)
    ensures discounts == [20.0, 0.0, 10.0, 0.0]
  {
    var order, line, d1, d2 := WholesaleThenRetail();

    line.quantity := 10.0;
    RetailBuysTen();
    line.OnchangeDiscountPolicy(FixtureRules);
    var d3 := line.discount;

    order.partner := Some(TypelessPartner);
    TypelessGetsNothingOnA(10.0);
    order.OnchangePartnerDiscountPolicy(FixtureRules);
    assert line in order.orderLines;
    var d4 := line.discount;

    discounts := [d1, d2, d3, d4];
  }
}
