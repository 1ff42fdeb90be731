# Odoo sales and purchase business rules, modelled in Dafny

This project models five small components from a set of Odoo addons and proves properties of them.

- **Purchase approval workflow** (`PurchaseApproval.dfy`):
  - a per-company `purchase.approval.config` with an auto-approve limit and a level-1 limit;
  - the approval level a purchase order's total requires;
  - the four transitions of `purchase.order`: `button_confirm`, `action_approve_level1`, `action_approve_level2` and `action_reject`;
  - the notification key each transition emits.
- **Discount rule resolver** (`DiscountRules.dfy`):
  - the write-time constraints of `sale.discount.rule`;
  - `is_applicable`, which checks the active flag, the amount range, the validity window and the customer group;
  - `calculate_discount`;
  - `find_applicable_rules`, which picks the rule with the largest discount, the first one in `(sequence, id)` order on a tie.
- **Order-level discount application** (`DiscountOrders.dfy`):
  - `_apply_discount_rules` on a `sale.order`. It removes every discount line, totals the remaining lines, and adds one line at minus the discount when a rule gives a positive discount.
  - the `create`, `write` and `action_reapply_discount` triggers;
  - get-or-create of the `DISCOUNT` product.
- **Advance payment poster** (`AdvancePayments.dfy`):
  - the `none / pending / recorded` state of an order's advance payment;
  - the bound `0 <= advance <= amount_total`;
  - get-or-create of the liability account `2010`;
  - the journal fallback (first general journal, else first journal, else an error);
  - the balanced two-line journal entry that confirmation posts once and links to the order.
- **Profitability report** (`Profitability.dfy`):
  - the wizard's search domain;
  - the optional category filter on lines, which skips orders left without lines;
  - per-line, per-order and total revenue, cost, margin and margin percent, where a zero revenue gives a percent of 0;
  - the spreadsheet layout of the export.

`Wrappers.dfy` holds `Option`, `Result` and `Outcome`.

## Modelling choices

- **Pure rules** are functions. The lemmas about them state what the source promises.
- **Records the source changes in place** are classes with `modifies` methods:
  - the purchase order and the config store;
  - the sales order and the product catalogue;
  - the sales order's advance fields and the ledger.
- **Each such method is specified by a pure step function on values.** Examples are `Confirm`, `ApproveLevel1`, `DiscountToApply`/`Recomputed` and `CreateEntry`. The invariants and other properties are proved about those step functions.
- **Loops are methods proved against the function that specifies them:**
  - `find_applicable_rules` becomes `FindApplicableRules`;
  - `_get_report_data` becomes `GetReportData`;
  - `_get_order_lines_data` becomes `GetOrderLinesData`;
  - the header and row loops of `_generate_excel_report` become `WriteHeaders` and `GenerateExcelReport`.
- **Numbers and dates:**
  - Money, quantities and percentages are exact `real`s.
  - Dates and datetimes are `int` day or tick numbers.
  - A float field tested for truth (`rule.max_amount`, `order_revenue`) is "non-zero".
- **Errors:**
  - `UserError`, `AccessError` and `ValueError` become `Result`/`Outcome` error values.
  - An error leaves every record as it was, as the rollback of the transaction does.
- **What the environment provides becomes parameters:**
  - the current user's group membership (`canApprove`);
  - the user id;
  - "now" and "today";
  - whether a mail template could be dispatched (`delivered`);
  - the records in store order.
- **Store order:**
  - Discount rules are searched in `(sequence, id)` order and sale orders in `date_order desc` order. The model takes the record sequence in the order the store returns it.
  - The tie-break and ordering lemmas state that ordering as a precondition.
- **The manifest of the approval addon describes a flow through `approved_level2`.** The code never enters that state. The model follows the code; `NoTransitionReachesApprovedLevel2` states it.

## Model

| member | source | states |
|---|---|---|
| PurchaseApproval.DefaultConfig | purchase_approval_workflow/models/purchase_order.py:10-33 | A new configuration for a company is active and its default limits 5000 and 20000 satisfy the limit constraint |
| PurchaseApproval.CheckApprovalLimits | purchase_approval_workflow/models/purchase_order.py:35-41 | A configuration passes exactly when `0 <= auto < level1` (both limits non-negative). The negative-limit error implies a negative auto limit, because it is raised only after the ordering check |
| PurchaseApproval.FindActiveConfig | purchase_approval_workflow/models/purchase_order.py:49-52 | The search with limit 1 finds the first active configuration of the company, and finds none exactly when no configuration of the company is active |
| PurchaseApproval.LookupIsGetOrCreate | purchase_approval_workflow/models/purchase_order.py:43-61 | After one lookup an active configuration of the company exists. A second lookup creates nothing and returns the same configuration |
| PurchaseApproval.CurrentConfigValid | purchase_approval_workflow/models/purchase_order.py:43-61 | When every stored configuration passed the constraint, the configuration a lookup returns (found or newly created) satisfies the limit constraint |
| PurchaseApproval.CurrentConfig | purchase_approval_workflow/models/purchase_order.py:43-61 | The configuration a lookup yields is active and belongs to the company. It is the first active stored configuration of the company when there is one, and the default configuration otherwise |
| PurchaseApproval.ConfigsAfterLookup | purchase_approval_workflow/models/purchase_order.py:54-59 | A lookup keeps every stored configuration and adds at most one; it adds none exactly when an active configuration of the company exists |
| PurchaseApproval.ConfigStore.Create | purchase_approval_workflow/models/purchase_order.py:35-41 | A configuration is stored only when it passes `_check_approval_limits`; a refused one leaves the store unchanged; the store stays valid |
| PurchaseApproval.ConfigStore.Update | purchase_approval_workflow/models/purchase_order.py:35-41 | Rewriting a configuration takes effect only when the new values pass the constraint, else the store is unchanged |
| PurchaseApproval.ConfigStore.GetCurrentConfig | purchase_approval_workflow/models/purchase_order.py:43-61 | Without a company id, or with id 0, the environment's company is used. Returns the active configuration found, or creates and returns the default one |
| PurchaseApproval.ApprovalLevelRequired | purchase_approval_workflow/models/purchase_order.py:91-101 | The level is auto iff amount <= auto limit and level1 iff auto limit < amount <= level1 limit. Under a valid configuration it is level2 iff amount > level1 limit |
| PurchaseApproval.ApprovalLevelMonotone | purchase_approval_workflow/models/purchase_order.py:91-101 | A larger amount never requires a lower approval level |
| PurchaseApproval.Confirm | purchase_approval_workflow/models/purchase_order.py:103-124 | Confirmation is skipped outside draft/sent. Otherwise the order goes to purchase iff its level is auto, else to to_approve, with the approval fields untouched and the notice of its level, which is in the template table |
| PurchaseApproval.ApproveLevel1 | purchase_approval_workflow/models/purchase_order.py:126-147 | Without the level-1 permission the result is an access error, checked first. With it, outside to_approve, a state error. Otherwise the approver and date are recorded: the state is purchase with notice level1_approved_final iff amount <= level1 limit, else approved_level1 with notice level1_approved_pending_level2 |
| PurchaseApproval.ApproveLevel2 | purchase_approval_workflow/models/purchase_order.py:149-161 | Without the level-2 permission the result is an access error. Outside to_approve/approved_level1 it is a state error. Otherwise the level-2 approver and date are recorded, the order always ends in purchase, and the notice is level2_approved_final |
| PurchaseApproval.Reject | purchase_approval_workflow/models/purchase_order.py:163-174 | Rejection succeeds exactly from to_approve/approved_level1. It returns the order to draft with all four approver/date fields cleared, and the notice is rejected |
| PurchaseApproval.TransitionsPreserveWellTracked | purchase_approval_workflow/models/purchase_order.py:103-174 | Every transition keeps the invariant tying the state to the approval fields (no approvals before approval, a level-1 approval and no level-2 in approved_level1) |
| PurchaseApproval.NoTransitionReachesApprovedLevel2 | purchase_approval_workflow/models/purchase_order.py:103-174 | No transition ever puts an order into approved_level2 |
| PurchaseApproval.ApprovalRoutes | purchase_approval_workflow/models/purchase_order.py:103-161 | From draft under a valid configuration, the route to purchase takes no approval (auto), one level-1 approval (level1), or a level-1 and then a level-2 approval, with both approvers recorded (level2) |
| PurchaseApproval.RejectForgetsHistory | purchase_approval_workflow/models/purchase_order.py:163-174 | Rejecting from either pending state gives the same result whatever approvals were recorded |
| PurchaseApproval.DefaultLimitExamples | purchase_approval_workflow/models/purchase_order.py:12-24 | With the default limits an order of 15000 is purchased after one level-1 approval, and one of 25000 waits in approved_level1 |
| PurchaseApproval.PurchaseOrder.constructor | purchase_approval_workflow/models/purchase_order.py:68-101 | A new order is in draft with no approver or date recorded and no notification sent. Its stored approval level is computed from the current configuration of its company, and that lookup creates the default configuration when none is active |
| PurchaseApproval.PurchaseOrder.ComputeApprovalLevel | purchase_approval_workflow/models/purchase_order.py:91-101 | The stored level is the level the amount requires under the company's current configuration. The lookup may create that configuration. Nothing else changes |
| PurchaseApproval.PurchaseOrder.SendApprovalNotification | purchase_approval_workflow/models/purchase_order.py:176-198 | The key is recorded. The template is sent only when the key is in the table and dispatch succeeds, and a failure changes no field of the order |
| PurchaseApproval.PurchaseOrder.ButtonConfirm | purchase_approval_workflow/models/purchase_order.py:103-124 | Returns true. Outside draft/sent nothing changes; otherwise the fields take the state of `Confirm` under the current configuration and its notice is sent, whatever the mail delivery does |
| PurchaseApproval.PurchaseOrder.ActionApproveLevel1 | purchase_approval_workflow/models/purchase_order.py:126-147 | On an error nothing changes and the error is returned; otherwise the fields take the state of `ApproveLevel1` and its notice (final or pending level 2, by the level-1 limit) is sent |
| PurchaseApproval.PurchaseOrder.ActionApproveLevel2 | purchase_approval_workflow/models/purchase_order.py:149-161 | On an error nothing changes and the error is returned; otherwise the fields take the state of `ApproveLevel2` and the level2_approved_final notice is sent |
| PurchaseApproval.PurchaseOrder.ActionReject | purchase_approval_workflow/models/purchase_order.py:163-174 | On an error nothing changes; otherwise the order is back in draft with the approval fields cleared and the rejection notice sent |
| DiscountRules.CheckAmounts | sales_discount_engine/models/sale_discount_rule.py:64-70 | Passes iff the minimum is not negative and a non-zero maximum exceeds it. A passing rule's maximum is not negative |
| DiscountRules.CheckDiscountPercent | sales_discount_engine/models/sale_discount_rule.py:72-76 | Passes iff the percentage lies in [0, 100] |
| DiscountRules.CheckValidityDates | sales_discount_engine/models/sale_discount_rule.py:78-82 | Passes iff the rule is open-ended or its start is not after its end |
| DiscountRules.ValidateRule | sales_discount_engine/models/sale_discount_rule.py:64-82 | A rule is accepted iff all three constraints pass |
| DiscountRules.ValidRuleMeans | sales_discount_engine/models/sale_discount_rule.py:64-82 | A valid rule is exactly one with min >= 0, a non-zero max above min, a percent in [0, 100] and valid_from <= valid_to when an end is set |
| DiscountRules.IsApplicable | sales_discount_engine/models/sale_discount_rule.py:84-107 | Applicability is exactly: active, amount >= min, amount <= max when max is non-zero, date (the order date, else today) within the validity window, and no mismatch between two set customer groups |
| DiscountRules.InactiveNeverApplicable | sales_discount_engine/models/sale_discount_rule.py:86-87 | An inactive rule applies to no amount, group or date |
| DiscountRules.CalculateDiscount | sales_discount_engine/models/sale_discount_rule.py:109-111 | The discount is the rule's percentage of the amount (`d * 100 == amount * percent`) |
| DiscountRules.DiscountWithinAmount | sales_discount_engine/models/sale_discount_rule.py:72-111 | With a percentage in [0, 100] and a non-negative amount, the discount lies in [0, amount] |
| DiscountRules.LargerDiscountLargerPercent | sales_discount_engine/models/sale_discount_rule.py:109-111 | On a positive amount one rule's discount is at most another's iff its percentage is |
| DiscountRules.Candidates | sales_discount_engine/models/sale_discount_rule.py:119-123 | The collected list has no more entries than there are rules |
| DiscountRules.CandidatesMeans | sales_discount_engine/models/sale_discount_rule.py:119-123 | Every collected candidate is an applicable rule paired with its discount, and every applicable rule is collected with its discount |
| DiscountRules.MaxFirst | sales_discount_engine/models/sale_discount_rule.py:128-130 | `max` with a key picks an entry whose discount is the largest and strictly larger than that of every earlier entry (the first maximum) |
| DiscountRules.FindNoneIffNoneApplicable | sales_discount_engine/models/sale_discount_rule.py:113-130 | The search returns no rule iff no rule is applicable |
| DiscountRules.FoundRuleIsBest | sales_discount_engine/models/sale_discount_rule.py:113-130 | A returned rule is one of the rules, is applicable, and gives a discount at least as large as every applicable rule's |
| DiscountRules.CandidatesSorted | sales_discount_engine/models/sale_discount_rule.py:117-123 | Collecting the applicable rules keeps the store's `(sequence, id)` order |
| DiscountRules.TieGoesToEarliest | sales_discount_engine/models/sale_discount_rule.py:113-130 | With rules in `(sequence, id)` order, any other applicable rule giving the same discount as the returned one comes after it in that order |
| DiscountRules.FindApplicableRules | sales_discount_engine/models/sale_discount_rule.py:113-130 | The collecting loop followed by `max` returns exactly the rule `FindApplicableRule` specifies |
| DiscountRules.FindApplicableRule | sales_discount_engine/models/sale_discount_rule.py:113-130 | A rule is returned only if it is one of the stored rules and applies to the amount, group and date |
| DiscountRules.TwoRuleExample | sales_discount_engine/models/sale_discount_rule.py:109-130 | At 800 a 5% rule on [0, 1000] gives 40 and a 10% rule on [500, 2000] gives 80. The 10% rule is returned |
| DiscountOrders.NonDiscountLines | sales_discount_engine/models/sale_order.py:47-48 | Removing discount lines leaves no discount line and never adds lines |
| DiscountOrders.NonDiscountLinesMeans | sales_discount_engine/models/sale_order.py:46-48 | A line survives the removal iff it is a line of the order and not a discount line |
| DiscountOrders.NonDiscountLinesHaveNoDiscountLine | sales_discount_engine/models/sale_order.py:47-48 | After the unlink the order has no discount line |
| DiscountOrders.NonDiscountLinesIdempotent | sales_discount_engine/models/sale_order.py:47-48 | Removing discount lines a second time removes nothing |
| DiscountOrders.DiscountToApply | sales_discount_engine/models/sale_order.py:54-73 | A discount is applied only on a positive order total and only when it is positive |
| DiscountOrders.Recomputed | sales_discount_engine/models/sale_order.py:46-85 | The recomputed lines are the non-discount lines plus, when a discount applies, one last line: a discount line of the discount product with quantity 1 and unit price minus the discount |
| DiscountOrders.AppliedFromMeans | sales_discount_engine/models/sale_order.py:39-89 | After the recomputation the non-discount lines are unchanged and there is one discount line iff a discount applies; the tracking fields hold that rule and its positive amount, or are reset with no product created when none applies; the product id counter advances by at most one |
| DiscountOrders.DiscountToApplyMeans | sales_discount_engine/models/sale_order.py:54-73 | An applied discount comes from an applicable rule, is its discount on the total of the non-discount lines, and is at least every applicable rule's. None is applied iff the total is not positive, no rule applies, or the best rule's discount is not positive |
| DiscountOrders.ComputeDiscount | sales_discount_engine/models/sale_order.py:54-73 | The computation in `_apply_discount_rules` (total, early returns, rule search, positive-discount test) yields exactly `DiscountToApply` |
| DiscountOrders.RecomputeKeepsOtherLines | sales_discount_engine/models/sale_order.py:46-85 | The non-discount lines after an application are those before it, unchanged and in order |
| DiscountOrders.AtMostOneDiscountLine | sales_discount_engine/models/sale_order.py:46-85 | After an application there is exactly one discount line when a discount was applied and none otherwise |
| DiscountOrders.TotalIgnoresDiscountLines | sales_discount_engine/models/sale_order.py:54-55 | The order total the rules see is the same after an application as before it |
| DiscountOrders.SubtotalsAfterDiscount | sales_discount_engine/models/sale_order.py:74-85 | With a discount applied, all line subtotals together equal the non-discount total minus the discount |
| DiscountOrders.ApplyIsIdempotent | sales_discount_engine/models/sale_order.py:39-89 | Applying a second time with unchanged lines picks the same discount and gives the same lines: the discount is not compounded |
| DiscountOrders.DiscountAtMostTotal | sales_discount_engine/models/sale_order.py:70-73 | With rules that passed their constraints, the applied discount never exceeds the order total |
| DiscountOrders.FindDiscountProduct | sales_discount_engine/models/sale_order.py:93-96 | The search finds the first product coded DISCOUNT of the order's company or of no company, and none exactly when there is no such product |
| DiscountOrders.DiscountProductIsGetOrCreate | sales_discount_engine/models/sale_order.py:91-110 | After one lookup a discount product exists, and a second lookup creates nothing |
| DiscountOrders.ProductCatalog.GetDiscountProduct | sales_discount_engine/models/sale_order.py:91-110 | Returns a DISCOUNT product for the company, creating one (and using one id) only when the search finds none; distinct ids below the counter stay so |
| DiscountOrders.ProductCatalog.constructor | sales_discount_engine/models/sale_order.py:91-110 | The catalogue holds the given products and counter, whose ids are distinct and below the counter, as the store's are |
| DiscountOrders.LookupKeepsProductIdsFresh | sales_discount_engine/models/sale_order.py:91-110 | A lookup keeps the product ids distinct and below the counter, which advances exactly when the product is created |
| DiscountOrders.DiscountProductIdIsUnique | sales_discount_engine/models/sale_order.py:91-110 | With fresh ids, the id a lookup returns names exactly the product it found |
| DiscountOrders.SaleOrder.Create | sales_discount_engine/models/sale_order.py:18-23 | A new order in draft/sent has its discount applied to its lines. In any other state its lines are stored as given and its tracking fields are empty (no rule, amount 0). The discount product and the id counter change only when a discount applies and no product exists; the counter then advances by one |
| DiscountOrders.SaleOrder.ApplyDiscountRules | sales_discount_engine/models/sale_order.py:39-89 | Outside draft/sent nothing changes. Otherwise the lines become the non-discount lines plus the line of `DiscountToApply`, the tracking fields hold the applied rule and amount (reset when none applies), and the catalogue gains the discount product only when one is needed, its id counter then advancing by one and otherwise unchanged |
| DiscountOrders.SaleOrder.Write | sales_discount_engine/models/sale_order.py:25-32 | The written values are stored; the discount is re-applied exactly when the lines were written and the order is in draft/sent, with the catalogue and its id counter changing as for `ApplyDiscountRules` |
| DiscountOrders.SaleOrder.ActionReapplyDiscount | sales_discount_engine/models/sale_order.py:34-37 | The button performs the same recomputation as `_apply_discount_rules`, including the catalogue and its id counter |
| AdvancePayments.OnchangeState | sale_advance_payment_entries/models/sale_order.py:27-35 | The state is none iff the advance is not positive. A positive advance gives pending unless the state was recorded, which it keeps |
| AdvancePayments.OnchangeIsIdempotent | sale_advance_payment_entries/models/sale_order.py:27-35 | Running the onchange a second time on the same amount changes nothing more |
| AdvancePayments.CheckAdvancePayment | sale_advance_payment_entries/models/sale_order.py:166-173 | Passes iff `0 <= advance <= amount_total`; the negative check comes first, then the bound by the total |
| AdvancePayments.FindAccountByCode | sale_advance_payment_entries/models/sale_order.py:121-123 | The search finds the first account with the code, and none exactly when no account has it |
| AdvancePayments.LookupAdvanceAccount | sale_advance_payment_entries/models/sale_order.py:118-133 | The account returned has code 2010 and is the first such account afterwards. Existing accounts are left as they are; when none existed, one liability account is created under the next id |
| AdvancePayments.AdvanceAccountIsGetOrCreate | sale_advance_payment_entries/models/sale_order.py:118-133 | A second lookup finds the same account and creates nothing |
| AdvancePayments.FindJournalByType | sale_advance_payment_entries/models/sale_order.py:138-140 | The search finds the first journal of the type, and none exactly when there is none |
| AdvancePayments.ChooseJournal | sale_advance_payment_entries/models/sale_order.py:135-149 | An error iff there is no journal. Otherwise the first general journal when there is one, else the first journal of any type |
| AdvancePayments.AdvanceLinesBalance | sale_advance_payment_entries/models/sale_order.py:72-89 | The entry has exactly two lines: debit the receivable by the advance, credit the advance account by the advance. Total debit and total credit both equal the advance |
| AdvancePayments.WriteAdvance | sale_advance_payment_entries/models/sale_order.py:166-173 | A write of the advance is kept iff it lies in [0, amount_total], and changes only the advance |
| AdvancePayments.CreateEntry | sale_advance_payment_entries/models/sale_order.py:47-100 | A no-op without a positive advance. With a positive advance, a missing receivable account or journal is an error, and with both present the entry is always created: exactly one posted, dated entry is appended, with the chosen journal and the two advance lines, and the order is linked to it and recorded |
| AdvancePayments.Confirm | sale_advance_payment_entries/models/sale_order.py:37-45 | Without a positive advance, or with an entry already linked, confirmation changes nothing. For an unlinked order with a positive advance it succeeds whenever the receivable account and a journal exist, recording the advance and adding one move, and it fails only for a missing receivable account or a missing journal |
| AdvancePayments.ConfirmPostsAtMostOnce | sale_advance_payment_entries/models/sale_order.py:41-43 | Confirmation keeps the existing entries. It appends one entry iff there is a positive advance and no linked entry, and otherwise changes nothing |
| AdvancePayments.ConfirmNeverDoublePosts | sale_advance_payment_entries/models/sale_order.py:41-43 | Confirming an order a second time posts nothing and changes nothing |
| AdvancePayments.NewOrderWellLinked | sale_advance_payment_entries/models/sale_order.py:9-25 | A new order has no advance and no entry, and satisfies the link invariant over books whose ids are fresh |
| AdvancePayments.StepsPreserveWellLinked | sale_advance_payment_entries/models/sale_order.py:27-100 | The onchange, a write of the advance, entry creation and confirmation all keep the link invariant. The invariant: account and entry ids are distinct and below their counters, a recorded order is linked, and a linked entry is a posted, balanced move in the books |
| AdvancePayments.LinkedEntryIsUnique | sale_advance_payment_entries/models/sale_order.py:93-100 | Under the link invariant the linked entry is the only move with its id, and it is posted and balanced |
| AdvancePayments.CreateEntryKeepsIdsFresh | sale_advance_payment_entries/models/sale_order.py:47-100 | Entry creation and confirmation keep the account and entry ids distinct and below their counters |
| AdvancePayments.LookupKeepsAccountIdsFresh | sale_advance_payment_entries/models/sale_order.py:118-133 | Finding or creating account 2010 keeps the account ids distinct and below the counter |
| AdvancePayments.AppendKeepsMoveIdsFresh | sale_advance_payment_entries/models/sale_order.py:93 | An entry stored under the next free id, the counter then advancing, keeps the entry ids distinct and below it |
| AdvancePayments.Ledger.GetAdvancePaymentAccount | sale_advance_payment_entries/models/sale_order.py:118-133 | Returns the account of `LookupAdvanceAccount` and updates the accounts as it says, touching nothing else; fresh ids stay fresh |
| AdvancePayments.Ledger.CreateMove | sale_advance_payment_entries/models/sale_order.py:93 | Stores the entry as a draft under the next free id and returns that id; fresh ids stay fresh |
| AdvancePayments.Ledger.ActionPost | sale_advance_payment_entries/models/sale_order.py:100 | Marks that one entry posted and changes nothing else; fresh ids stay fresh |
| AdvancePayments.Ledger.constructor | sale_advance_payment_entries/models/sale_order.py:93-100 | The ledger holds the given records and counters, whose ids are distinct and below the counters, as the store's are |
| AdvancePayments.SaleOrder.constructor | sale_advance_payment_entries/models/sale_order.py:9-25 | A new order has advance 0, state none and no linked entry |
| AdvancePayments.SaleOrder.OnchangeAdvancePayment | sale_advance_payment_entries/models/sale_order.py:27-35 | Only the state changes, to `OnchangeState` of the advance |
| AdvancePayments.SaleOrder.WriteAdvancePayment | sale_advance_payment_entries/models/sale_order.py:166-173 | A write outside [0, amount_total] is refused with its error and rolled back; otherwise only the advance changes |
| AdvancePayments.SaleOrder.CreateAdvancePaymentEntry | sale_advance_payment_entries/models/sale_order.py:47-100 | The order and the ledger take the state of `CreateEntry`; on an error both are left exactly as they were |
| AdvancePayments.SaleOrder.ActionConfirm | sale_advance_payment_entries/models/sale_order.py:37-45 | The entry is created only for a positive advance with no linked entry; order and ledger take the state of `Confirm` |
| Profitability.BuildDomain | sales_profitability_report/wizard/sales_profitability_wizard.py:90-103 | An order matches the domain iff its date is in [date_from, date_to], its company is the wizard's, its partner is among the chosen ones (if any), and its state is the chosen one, or not cancelled when none is chosen |
| Profitability.SearchMeans | sales_profitability_report/wizard/sales_profitability_wizard.py:106 | The search returns exactly the stored orders that match the domain |
| Profitability.Search | sales_profitability_report/wizard/sales_profitability_wizard.py:106 | The search returns no more orders than are stored, and every one it returns matches the domain |
| Profitability.CategoryLinesMeans | sales_profitability_report/wizard/sales_profitability_wizard.py:116-119 | With a category filter a line counts iff it is a line of the order whose category is chosen |
| Profitability.MarginPercent | sales_profitability_report/wizard/sales_profitability_wizard.py:128 | The margin percent is exactly 0 when the revenue is 0, and otherwise the margin as a percentage of the revenue. The same guard is used for lines, orders and the total |
| Profitability.MarginPercentAtMostHundred | sales_profitability_report/wizard/sales_profitability_wizard.py:125-128 | With a positive revenue and a non-negative cost, the margin percent is at most 100 |
| Profitability.LinesData | sales_profitability_report/wizard/sales_profitability_wizard.py:158-177 | There is one line entry per line |
| Profitability.LinesDataMeans | sales_profitability_report/wizard/sales_profitability_wizard.py:158-177 | Entry k holds line k's product, category, quantity and unit price, its subtotal as revenue, quantity times standard price as cost, their difference as margin, and the zero-guarded margin percent |
| Profitability.ReportRowsMeans | sales_profitability_report/wizard/sales_profitability_wizard.py:112-143 | Every row is a selected order's figures over the lines it kept, and has lines. Every selected order that kept a line has its row, so an order left without lines is absent |
| Profitability.LineDataAddsUp | sales_profitability_report/wizard/sales_profitability_wizard.py:158-177 | The line entries' revenues, costs and margins sum to the order's revenue (sum of subtotals), cost (sum of quantity times standard price) and margin |
| Profitability.RowLinesAddUp | sales_profitability_report/wizard/sales_profitability_wizard.py:125-142 | In every report row the line margins sum to the row's margin, and likewise the revenues and the costs |
| Profitability.TotalMarginIsSumOfMargins | sales_profitability_report/wizard/sales_profitability_wizard.py:130-145 | When each row's margin is its revenue minus its cost, the sum of the margins is total revenue minus total cost |
| Profitability.RowMarginsConsistent | sales_profitability_report/wizard/sales_profitability_wizard.py:125-127 | Every report row's margin is its revenue minus its cost |
| Profitability.ReportOf | sales_profitability_report/wizard/sales_profitability_wizard.py:108-153 | Proved: every row's margin is its revenue minus its cost, and the total margin is the sum of the row margins. By definition: total revenue and total cost are the sums over the rows |
| Profitability.SearchKeepsOrder | sales_profitability_report/wizard/sales_profitability_wizard.py:106 | Filtering keeps the store's `date_order desc` order |
| Profitability.ReportRowsNewestFirst | sales_profitability_report/wizard/sales_profitability_wizard.py:106-143 | Rows built from orders newest first come out newest first |
| Profitability.ReportNewestFirst | sales_profitability_report/wizard/sales_profitability_wizard.py:106-150 | The report lists its orders newest first |
| Profitability.GetOrderLinesData | sales_profitability_report/wizard/sales_profitability_wizard.py:158-177 | The appending loop yields the line data `LinesData` specifies |
| Profitability.OrderRow | sales_profitability_report/wizard/sales_profitability_wizard.py:124-143 | The figures computed for one order are `OrderDataOf` of the lines it kept |
| Profitability.AccumulateOrders | sales_profitability_report/wizard/sales_profitability_wizard.py:108-143 | The loop over the orders found yields the rows of `ReportRows`, and its running totals are the sums of their revenues and costs |
| Profitability.GetReportData | sales_profitability_report/wizard/sales_profitability_wizard.py:87-156 | `_get_report_data` returns exactly `ReportOf`, the report of the orders the wizard selects |
| Profitability.WriteOrderRow | sales_profitability_report/wizard/sales_profitability_wizard.py:219-225 | Row r holds the order's name, date, customer, revenue, cost, margin and percent divided by 100, and other rows are untouched |
| Profitability.WriteTotalsRow | sales_profitability_report/wizard/sales_profitability_wizard.py:229-233 | The totals row holds "TOTAL:" and the four totals from column 2 on, with the percent divided by 100, and other rows untouched |
| Profitability.WriteHeaders | sales_profitability_report/wizard/sales_profitability_wizard.py:209-214 | Row 0 holds the seven headers in order and nothing else is written |
| Profitability.GenerateExcelReport | sales_profitability_report/wizard/sales_profitability_wizard.py:179-233 | Headers are in row 0, order k in row k+1, and the totals in row n+2 after one blank row. No other cell is written |

## Left out

- **Email sending** (`env.ref`, `template.send_mail`) and `get_approval_users`. A notification is the recorded key, plus the template id from the table when dispatch succeeds. Dispatch success is a parameter.
- **`has_group`** permission checks are given as a boolean parameter. The current user's id, `fields.Datetime.now()` and `context_today` are also parameters.
- **ORM search order.**
  - The model takes the records in the order the store returns them.
  - The `(sequence, id)` and `date_order desc` orders appear only as preconditions of the ordering lemmas.
  - The company condition on `account.account` and the company default of new records are not modelled.
- **Multi-record loops** (`for order in self`) are modelled one record per call. The rollback of a failed transaction is modelled as "an error changes nothing". Concurrency is not modelled.
- **`super().action_confirm()`** and the sale-order state change it performs.
- **`create` in the discount addon** stores the order in the store's own way. Only the fields the discount engine reads are modelled.
- **DiscountOrders.SaleOrder.ApplyDiscountRules** appends the discount line at the end of the lines. The position the store gives a newly created line is not modelled. The store's computation of the line subtotal is taken to be quantity times unit price, with no taxes.
- **AdvancePayments.SaleOrder.CreateAdvancePaymentEntry** resolves the journal before it looks up the account. The source creates account 2010 before it fails for want of a journal. Under rollback the two orders of work leave the same records.
- **AdvancePayments.Ledger.ActionPost** always succeeds. The validation errors the store can raise on creating or posting a move (lock date, company mismatch, deprecated account), and the rollback they cause, are not modelled.
- **DiscountOrders.SaleOrder.Write** takes the written `order_line` value as the new, complete line list. The store's one2many commands (create, update, unlink, link one line at a time) are not modelled.
- **AdvancePayments.CreateEntry** leaves out the entry's sequence name, which the store assigns on posting. It also leaves out the chatter `message_post` and the line `name` translations.
- **UI actions**: `action_view_advance_journal_entry`, `action_generate_report`, `action_generate_excel`, the attachment, base64 and the missing-xlsxwriter error.
- **Profitability.GenerateExcelReport** keeps cell contents and positions. It leaves out formats, column widths, bytes output and date `strftime`: a date is written as a day number.
- **Profitability.GetReportData** does not model the report entries `order`, `wizard` and `currency`. The order record itself is not carried in a row.
- **Profitability.ReportOf** states the totals of revenue, cost and margin. The total margin percent is `MarginPercent` of those totals by definition, and `MarginPercent`'s own contract states its meaning.
- **Dates and datetimes** are modelled at one granularity, as integers. The comparison of a datetime `date_order` with the wizard's dates is taken to be by day.
- **Float rounding** is not modelled; amounts are exact reals.
- **The report model glue** (`sales_profitability_report/models/sales_profitability_report.py`) and the manifests are not part of this model.
