/** Invoice posting in the discount_policy add-on: before a customer invoice
    or receipt is posted, every line with a product has its discount raised
    to the resolver's value, and never lowered. */
module Invoicing {
  import opened DiscountRules

  /** The journal-entry kinds an `account.move` can have. */
  datatype MoveType = OutInvoice | OutReceipt | OutRefund | InInvoice | InReceipt | InRefund | Entry

  /** Only sales invoices and sales receipts go through the discount policy. */
  predicate AppliesDiscountPolicy(t: MoveType)
  {
    t == OutInvoice || t == OutReceipt
  }

  /** One invoice line: only the fields the policy reads or writes. */
  datatype InvoiceLine = InvoiceLine(product: Option<Product>, quantity: real, discount: real)

  /** What posting does to one line. */
  function PostedLine(line: InvoiceLine, partner: Partner, rules: seq<Rule>): (l: InvoiceLine)
    ensures l.product == line.product && l.quantity == line.quantity
    ensures line.product.None? ==> l == line
    ensures l.discount >= line.discount
    ensures line.product.Some? ==>
      var best := BestDiscount(rules, partner, line.product, line.quantity);
      l.discount >= best && (l.discount == line.discount || l.discount == best)
  {
    if line.product.None? then line
    else
      var best := BestDiscount(rules, partner, line.product, line.quantity);
      if best > line.discount then line.(discount := best) else line
  }

  /** What posting does to the line list of one move. */
  function PostedLines(lines: seq<InvoiceLine>, partner: Partner, rules: seq<Rule>): seq<InvoiceLine>
  {
    seq(|lines|, i requires 0 <= i < |lines| => PostedLine(lines[i], partner, rules))
  }

  /** Posting never removes, adds or reorders lines, never changes a product
      or a quantity, and never lowers a discount. */
  lemma PostedLinesPreserveShape(lines: seq<InvoiceLine>, partner: Partner, rules: seq<Rule>)
    ensures |PostedLines(lines, partner, rules)| == |lines|
    ensures forall i :: 0 <= i < |lines| ==>
      var l := PostedLines(lines, partner, rules)[i];
      && l.product == lines[i].product
      && l.quantity == lines[i].quantity
      && l.discount >= lines[i].discount
  {
    forall i | 0 <= i < |lines|
      ensures PostedLines(lines, partner, rules)[i] == PostedLine(lines[i], partner, rules)
    {
    }
  }

  /** Applying the policy a second time changes nothing. */
  lemma PostingIdempotent(lines: seq<InvoiceLine>, partner: Partner, rules: seq<Rule>)
    ensures PostedLines(PostedLines(lines, partner, rules), partner, rules) == PostedLines(lines, partner, rules)
  {
    var once := PostedLines(lines, partner, rules);
    forall i | 0 <= i < |lines|
      ensures PostedLine(once[i], partner, rules) == once[i]
    {
      assert once[i] == PostedLine(lines[i], partner, rules);
    }
  }

  /** An `account.move` record. Its type and partner are not changed by
      posting; an unset partner is represented as Partner(None). */
  class AccountMove {
    const moveType: MoveType
    const partner: Partner
    var lines: seq<InvoiceLine>

    constructor (moveType: MoveType, partner: Partner, lines: seq<InvoiceLine>)
      ensures this.moveType == moveType && this.partner == partner && this.lines == lines
    {
      this.moveType := moveType;
      this.partner := partner;
      this.lines := lines;
    }

    /** `_apply_discount_policy`: walk the lines, skip those without a
        product, and write the resolver's value only when it beats the
        current discount. */
    method ApplyDiscountPolicy(rules: seq<Rule>)
      modifies this
      ensures lines == PostedLines(old(lines), partner, rules)
    {
      var i := 0;
      while i < |lines|
        invariant 0 <= i <= |lines| == |old(lines)|
        invariant lines[..i] == PostedLines(old(lines), partner, rules)[..i]
        invariant lines[i..] == old(lines)[i..]
      {
        var line := lines[i];
        if line.product.Some? {
          var best := BestDiscount(rules, partner, line.product, line.quantity);
          if best > line.discount {
            lines := lines[i := line.(discount := best)];
          }
        }
        assert lines[i] == PostedLine(old(lines)[i], partner, rules);
        i := i + 1;
      }
    }
  }

  /** The lines a move holds after `action_post`, given the lines it held before. */
  function LinesAfterPost(m: AccountMove, before: seq<InvoiceLine>, rules: seq<Rule>): seq<InvoiceLine>
  {
    if AppliesDiscountPolicy(m.moveType) then PostedLines(before, m.partner, rules) else before
  }

  /** `action_post` on a recordset of moves (before the platform's own
      posting): sales invoices and receipts get the policy, every other move
      type is left as it was. A move listed twice is still posted once in
      effect, since posting is idempotent. */
  method ActionPost(moves: seq<AccountMove>, rules: seq<Rule>)
    modifies set m | m in moves
    ensures forall m :: m in moves ==> m.lines == LinesAfterPost(m, old(m.lines), rules)
  {
    var i := 0;
    while i < |moves|
      invariant 0 <= i <= |moves|
      invariant forall m :: m in moves ==>
        m.lines == if m in moves[..i] then LinesAfterPost(m, old(m.lines), rules) else old(m.lines)
    {
      var move := moves[i];
      if AppliesDiscountPolicy(move.moveType) {
        if move in moves[..i] {
          PostingIdempotent(old(move.lines), move.partner, rules);
        }
        move.ApplyDiscountPolicy(rules);
      }
      assert moves[..i + 1] == moves[..i] + [move];
      i := i + 1;
    }
  }
}
