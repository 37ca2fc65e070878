# Discount policy and low-stock flag: a Dafny model

This project models the two business-rule add-ons of an ERP installation:

- **discount_policy.** A discount rule belongs to a policy. It restricts three optional axes (client type, product, product category) and has a minimum quantity and a percentage. `get_best_discount` keeps the rules that match a partner, a product and a quantity, and returns the largest percentage among them, or 0.0 when none matches. Two call sites write that value onto document lines:
  - Posting a customer invoice or receipt **raises** each product line's discount to the value. It never lowers it.
  - Editing a sale order **overwrites** the line's discount with the value, even when that means 0.0.
- **inventory_alerts.** A product template is low on stock when its minimum is positive and its on-hand quantity is strictly below that minimum. The flag is computed per record and can also be searched.

The modules follow the source files:

| file | module | form |
|---|---|---|
| `discount_rules.dfy` | `DiscountRules` | datatypes, functions and lemmas. The ORM search (filter by the domain, order by percentage descending, limit 1) is `Eligible` followed by `MaxPercentage`. |
| `invoicing.dfy` | `Invoicing` | an `AccountMove` class. `ApplyDiscountPolicy` loops over its lines and is proved against the function `PostedLines`. `ActionPost` loops over moves. |
| `sale_orders.dfy` | `SaleOrders` | `SaleOrder` and `SaleOrderLine` classes. The onchanges update `discount` in place and are proved against the function `OnchangeDiscount`. |
| `discount_application.dfy` | `DiscountApplication` | the raise-only versus overwrite contrast between the two call sites. |
| `stock_alerts.dfy` | `StockAlerts` | a `ProductTemplate` class. `ComputeIsLowStock` is a loop. The search is a function returning a domain. |
| `discount_scenarios.dfy` | `DiscountScenarios` | the fixtures and expectations of the discount_policy tests, replayed through the methods above. |

Modelling choices:

- Each rule carries its policy as `Option<Policy(id, active)>`. A rule without a policy never matches, because `policy_id.active = True` cannot hold for it.
- The resolver reads only the partner's client type. An unset partner behaves exactly like a partner without a type, so an invoice's partner is a `Partner` whose type may be `None`.
- Quantities, minimums and percentages are `real`. The code only compares them and never does arithmetic on them.
- Ties between rules with the same maximal percentage are not resolved. Only the returned percentage is specified, and `SameMatchesSameDiscount` proves it depends only on which rules match.
- When matching rules break the percentage constraint, the code returns their maximum, even if it is negative. The model does the same. The result is only proved to lie in [0,100] when every rule passes the constraint (`BestDiscountInRange`).

## Model

| member | source | states |
|---|---|---|
| `DiscountRules.CheckDiscountPercentage` | src/custom/modules_aaron/discount_policy/models/discount_rule.py:21-25 | The check passes iff every rule's percentage lies in [0,100]. Otherwise it fails with the validation message. |
| `DiscountRules.Eligible` | src/custom/modules_aaron/discount_policy/models/discount_rule.py:39-54 | A rule is selected iff it is in the rule set and satisfies the whole domain: active policy, `min_quantity <= quantity`, and the client-type, product and category axes. |
| `DiscountRules.MaxPercentage` | src/custom/modules_aaron/discount_policy/models/discount_rule.py:57 | The first record of the search ordered by descending percentage: a percentage of some selected rule, and at least every selected rule's percentage. |
| `DiscountRules.BestDiscount` | src/custom/modules_aaron/discount_policy/models/discount_rule.py:27-59 | No product gives 0.0. No matching rule gives 0.0. Otherwise the result is the percentage of some matching rule and is at least every matching rule's percentage, i.e. it is the maximum. |
| `DiscountRules.SameMatchesSameDiscount` | src/custom/modules_aaron/discount_policy/models/discount_rule.py:57-59 | Two rule sets with the same matching rules give the same result, whatever their order, duplicates or non-matching members. |
| `DiscountRules.NonMatchingRuleIgnored` | src/custom/modules_aaron/discount_policy/models/discount_rule.py:39-57 | Inserting a rule that does not match, anywhere, leaves the result unchanged. |
| `DiscountRules.BelowMinQuantityIgnored` | src/custom/modules_aaron/discount_policy/models/discount_rule.py:41 | A rule with `min_quantity > quantity` never contributes. |
| `DiscountRules.InactivePolicyIgnored` | src/custom/modules_aaron/discount_policy/models/discount_rule.py:40 | A rule whose policy is inactive or unset never contributes. |
| `DiscountRules.ClientTypeMismatchIgnored` | src/custom/modules_aaron/discount_policy/models/discount_rule.py:44-48 | A typed rule contributes only to a partner of exactly that type. A partner without a type gets only untyped rules. |
| `DiscountRules.ProductOrCategoryMismatchIgnored` | src/custom/modules_aaron/discount_policy/models/discount_rule.py:50-54 | A rule naming another product, or another category, never contributes. Each axis is checked on its own. |
| `DiscountRules.WildcardRuleBoundsResult` | src/custom/modules_aaron/discount_policy/models/discount_rule.py:44-57 | An active rule with all three axes unset and a reached minimum bounds the result from below, for every partner and product. Specificity earns no priority. |
| `DiscountRules.BestDiscountInRange` | src/custom/modules_aaron/discount_policy/models/discount_rule.py:21-25 | If every rule passes the percentage constraint, the resolver's result lies in [0,100]. |
| `DiscountRules.OtherPolicies` | src/custom/modules_aaron/discount_policy/models/discount_rule.py:40 | The rules outside a given policy: exactly the members not belonging to it. |
| `DiscountRules.DeactivatedPolicyIgnored` | src/custom/modules_aaron/discount_policy/models/discount_rule.py:40 | After a policy is switched off, the result equals the one computed from the other policies' rules alone. |
| `Invoicing.PostedLine` | src/custom/modules_aaron/discount_policy/models/account_move.py:22-30 | A line without a product is unchanged. Otherwise the new discount is at least both the old discount and the resolver's value, and equals one of them (their maximum). Product and quantity never change. |
| `Invoicing.PostedLinesPreserveShape` | src/custom/modules_aaron/discount_policy/models/account_move.py:22-30 | Posting keeps the number and order of lines and every product and quantity, and never lowers a discount. |
| `Invoicing.PostingIdempotent` | src/custom/modules_aaron/discount_policy/models/account_move.py:29-30 | Applying the policy twice gives the same lines as applying it once. |
| `Invoicing.AccountMove.ApplyDiscountPolicy` | src/custom/modules_aaron/discount_policy/models/account_move.py:14-30 | The loop over the lines leaves exactly `PostedLines` of the old lines. |
| `Invoicing.ActionPost` | src/custom/modules_aaron/discount_policy/models/account_move.py:6-12 | Customer invoices and receipts get their lines posted. Every other move type keeps its lines. Nothing outside the listed moves changes. |
| `SaleOrders.OnchangeIdempotent` | src/custom/modules_aaron/discount_policy/models/sale_order.py:29-30 | Re-running the onchange with unchanged inputs changes nothing. |
| `SaleOrders.OnchangeOverwrites` | src/custom/modules_aaron/discount_policy/models/sale_order.py:24-30 | For a line with a product on an order with a partner, the new discount does not depend on the old one. |
| `SaleOrders.SaleOrderLine.OnchangeDiscountPolicy` | src/custom/modules_aaron/discount_policy/models/sale_order.py:15-30 | The line is unchanged without a product or a partner. Otherwise its discount becomes exactly the resolver's value. Only `discount` is written. |
| `SaleOrders.SaleOrder.OnchangePartnerDiscountPolicy` | src/custom/modules_aaron/discount_policy/models/sale_order.py:6-10 | Every line of the order gets the line onchange for the order's current partner. Only the lines' discounts change. |
| `DiscountApplication.RaiseOnlyVersusOverwrite` | src/custom/modules_aaron/discount_policy/models/sale_order.py:26-30 | For the same line, the order onchange never yields more than posting does. The two agree iff the old discount does not exceed the resolver's value; otherwise posting keeps the old discount and the onchange lowers it. |
| `StockAlerts.LowStockBoundaries` | src/custom/modules_aaron/inventory_alerts/models/products.py:7-18 | With a minimum of zero or less (the default), no quantity is low. A quantity equal to the minimum is not low. |
| `StockAlerts.ProductTemplate.constructor` | src/custom/modules_aaron/inventory_alerts/models/products.py:7-13 | A new template has minimum 0.0 and is not flagged. |
| `StockAlerts.ComputeIsLowStock` | src/custom/modules_aaron/inventory_alerts/models/products.py:15-21 | Each record's flag equals `minimal_stock > 0 and qty_available < minimal_stock` of that record. Only the flags of the listed records are written. |
| `StockAlerts.WithPositiveMinimum` | src/custom/modules_aaron/inventory_alerts/models/products.py:25 | Exactly the products with a positive minimum are kept. |
| `StockAlerts.BelowMinimum` | src/custom/modules_aaron/inventory_alerts/models/products.py:26 | Exactly the products with quantity strictly below their minimum are kept. |
| `StockAlerts.SearchIsLowStock` | src/custom/modules_aaron/inventory_alerts/models/products.py:23-28 | `=` with a true value restricts to exactly the ids of low-stock products. Any other operator or value gives the empty domain. |
| `StockAlerts.SearchAgreesWithCompute` | src/custom/modules_aaron/inventory_alerts/models/products.py:15-27 | With distinct ids and computed flags, searching `is_low_stock = True` selects exactly the records whose flag is set. |
| `StockAlerts.OtherSearchesSelectAll` | src/custom/modules_aaron/inventory_alerts/models/products.py:28 | Every other search on the flag, including `= False`, selects every record. |
| `DiscountScenarios.RetailBuysFive` | src/custom/modules_aaron/discount_policy/tests/test_discount_policy.py:76-82 | Retail buying 5 of A gets 0: below its own rule's minimum, and the wholesale rule is not theirs. |
| `DiscountScenarios.RetailBuysTen` | src/custom/modules_aaron/discount_policy/tests/test_discount_policy.py:84-90 | Retail buying 10 of A gets 10. |
| `DiscountScenarios.WholesaleBuysFive` | src/custom/modules_aaron/discount_policy/tests/test_discount_policy.py:92-98 | Wholesale buying 5 of A gets 20. |
| `DiscountScenarios.TypelessBuysOneB` | src/custom/modules_aaron/discount_policy/tests/test_discount_policy.py:100-106 | A typeless partner buying 1 of B gets the any-customer 5%. |
| `DiscountScenarios.BestRuleSelected` | src/custom/modules_aaron/discount_policy/tests/test_discount_policy.py:108-123 | When 5% and 15% rules both match, the result is 15%. |
| `DiscountScenarios.InactivePolicyGivesNothing` | src/custom/modules_aaron/discount_policy/tests/test_discount_policy.py:125-132 | With the only policy inactive, the result is 0. |
| `DiscountScenarios.PostOneLine` | src/custom/modules_aaron/discount_policy/tests/test_discount_policy.py:60-74 | A one-line customer invoice posted through `ActionPost` ends with the line `PostedLine` computes. |
| `DiscountScenarios.InvoiceScenarios` | src/custom/modules_aaron/discount_policy/tests/test_discount_policy.py:76-143 | The seven invoice tests give 0, 10, 20, 5, 15, 0 and 0. A line already at 12% keeps 12% when only 10% is offered. |
| `DiscountScenarios.TypelessGetsNothingOnA` | src/custom/modules_aaron/discount_policy/tests/test_discount_policy.py:178-182 | A typeless partner gets 0 on product A at any quantity, because both A rules are typed. |
| `DiscountScenarios.WholesaleThenRetail` | src/custom/modules_aaron/discount_policy/tests/test_discount_policy.py:145-170 | A wholesale order line for 5 of A gets 20. After switching the order to the retail partner and re-running the partner onchange, it holds 0. |
| `DiscountScenarios.SaleOrderScenario` | src/custom/modules_aaron/discount_policy/tests/test_discount_policy.py:145-182 | The sale-order test's discounts are 20, then 0 after switching to retail, then 10 at 10 units, then 0 for a typeless partner. |

## Left out

- `inventory.py` (the low-stock notification on stock-move completion) is not part of this model. It consists of the bus push, the chatter messages on the picking, variant and template, HTML formatting and the `_action_done` override. Its decisions are the stockable-product gate (`detailed_type == 'product'`), the low-stock condition that `IsLowStock` models, and whether the move has a picking. None of them is modelled here. "Exactly one alert per transaction" depends on the platform's transactions and messaging.
- `discount_policy.py` and `client_type.py` only declare fields. The policy's `active` flag and the client-type identity are folded into the datatypes.
- ORM semantics are not modelled:
  - evaluation of domain lists;
  - `search` ordering and `limit` (replaced by filter and maximum);
  - `ondelete='cascade'`;
  - the `_order = 'min_quantity'` display order;
  - `ensure_one` (`ApplyDiscountPolicy` is a method of a single move);
  - the call to the platform's own `action_post`;
  - `write` versus in-memory assignment.
- Which rule record is returned among equal maxima is not fixed by the code, so only the percentage is specified.
- `qty_available` is computed by the platform's stock bookkeeping and is taken as an input field.
- Float rounding and NaN: values are `real`.
- `_search_is_low_stock`'s `value` is any Python value, and only its truthiness decides the branch. It is modelled as a `bool`.
- Field defaults other than `minimal_stock` (for instance `min_quantity = 1.0`) are not modelled. Rules are given with explicit values. A new sale-order line starts with discount 0.0 only to seed the scenarios; the onchange overwrites it.
- The onchange trigger wiring is not modelled: which field edits on an unsaved form fire the partner onchange (`partner_id`) or the line onchange (`product_id`, `product_uom_qty`). The scenarios call the handlers directly.
- Transactions and concurrency belong to the platform.
