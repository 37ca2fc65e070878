/** The two places that write the resolver's value onto a document line
    follow different policies: invoice posting only raises a discount, while
    sale-order editing overwrites it. */
module DiscountApplication {
  import opened DiscountRules
  import opened Invoicing
  import opened SaleOrders

  /** For a line with a product, under a partner: the order onchange never
      yields more than posting does; the two agree exactly when the old
      discount does not exceed the resolver's value; otherwise posting keeps
      the old discount while the onchange lowers it. */
  lemma RaiseOnlyVersusOverwrite(current: real, product: Product, quantity: real, partner: Partner, rules: seq<Rule>)
    ensures
      var posted := PostedLine(InvoiceLine(Some(product), quantity, current), partner, rules).discount;
      var edited := OnchangeDiscount(current, Some(product), quantity, Some(partner), rules);
      && edited <= posted
      && (edited == posted <==> current <= edited)
      && (current > edited ==> posted == current && edited < current)
  {
  }
}
