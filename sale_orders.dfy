/** Sale-order editing in the discount_policy add-on: changing a line's
    product or quantity, or the order's partner, overwrites each affected
    line's discount with the resolver's value, even when that lowers it. */
module SaleOrders {
  import opened DiscountRules

  /** The discount a line holds after its onchange ran, given the discount it
      held before: unchanged when the line has no product or the order has no
      partner, otherwise exactly the resolver's value. */
  function OnchangeDiscount(current: real, product: Option<Product>, quantity: real,
                            partner: Option<Partner>, rules: seq<Rule>): real
  {
    if product.None? || partner.None? then current
    else BestDiscount(rules, partner.value, product, quantity)
  }

  /** Re-running the onchange with unchanged inputs changes nothing. */
  lemma OnchangeIdempotent(current: real, product: Option<Product>, quantity: real,
                           partner: Option<Partner>, rules: seq<Rule>)
    ensures OnchangeDiscount(OnchangeDiscount(current, product, quantity, partner, rules), product, quantity, partner, rules)
         == OnchangeDiscount(current, product, quantity, partner, rules)
  {
  }

  /** The onchange result forgets the previous discount whenever the line is
      eligible: two lines that differ only in their old discount end with the
      same one. */
  lemma OnchangeOverwrites(c1: real, c2: real, product: Product, quantity: real, partner: Partner, rules: seq<Rule>)
    ensures OnchangeDiscount(c1, Some(product), quantity, Some(partner), rules)
         == OnchangeDiscount(c2, Some(product), quantity, Some(partner), rules)
  {
  }

  /** A `sale.order` record: its partner and its lines. */
  class SaleOrder {
    var partner: Option<Partner>
    var orderLines: seq<SaleOrderLine>

    /** Every line of the order points back to it. */
    ghost predicate Valid()
      reads this
    {
      forall l :: l in orderLines ==> l.order == this
    }

    constructor (partner: Option<Partner>)
      ensures Valid() && this.partner == partner && orderLines == []
    {
      this.partner := partner;
      orderLines := [];
    }

    /** Creates a new line of this order, starting with no discount. */
    method AddLine(product: Option<Product>, quantity: real) returns (line: SaleOrderLine)
      requires Valid()
      modifies this`orderLines
      ensures Valid() && fresh(line)
      ensures orderLines == old(orderLines) + [line]
      ensures line.order == this && line.product == product && line.quantity == quantity && line.discount == 0.0
    {
      line := new SaleOrderLine(this, product, quantity);
      orderLines := orderLines + [line];
    }

    /** `_onchange_partner_discount_policy`: re-run the line onchange on every
        line of the order. Only the lines' discounts change. */
    method OnchangePartnerDiscountPolicy(rules: seq<Rule>)
      requires Valid()
      modifies (set l | l in orderLines)`discount
      ensures forall l :: l in orderLines ==>
        l.discount == OnchangeDiscount(old(l.discount), l.product, l.quantity, partner, rules)
    {
      var i := 0;
      while i < |orderLines|
        invariant 0 <= i <= |orderLines|
        invariant forall l :: l in orderLines ==>
          l.discount == if l in orderLines[..i]
                        then OnchangeDiscount(old(l.discount), l.product, l.quantity, partner, rules)
                        else old(l.discount)
      {
        var line := orderLines[i];
        if line in orderLines[..i] {
          OnchangeIdempotent(old(line.discount), line.product, line.quantity, partner, rules);
        }
        line.OnchangeDiscountPolicy(rules);
        assert orderLines[..i + 1] == orderLines[..i] + [line];
        i := i + 1;
      }
    }
  }

  /** A `sale.order.line` record. */
  class SaleOrderLine {
    const order: SaleOrder
    var product: Option<Product>
    var quantity: real
    var discount: real

    constructor (order: SaleOrder, product: Option<Product>, quantity: real)
      ensures this.order == order && this.product == product && this.quantity == quantity && discount == 0.0
    {
      this.order := order;
      this.product := product;
      this.quantity := quantity;
      discount := 0.0;
    }

    /** `_onchange_discount_policy`: with a product and a partner, the
        discount becomes the resolver's value, lowering it if need be; only
        the discount field is written. */
    method OnchangeDiscountPolicy(rules: seq<Rule>)
      modifies this`discount
      ensures discount == OnchangeDiscount(old(discount), product, quantity, order.partner, rules)
    {
      if product.None? || order.partner.None? {
        return;
      }
      var best := BestDiscount(rules, order.partner.value, product, quantity);
      if discount != best {
        discount := best;
      }
    }
  }
}
