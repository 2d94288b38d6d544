/**
  The ground-truth projection of a statement: metadata, company and
  customer summaries, balances copied through, the transaction list, and the
  derived labels (credit items, debit and credit totals, per-type counts).
 */
module Projection {
  import opened Transactions
  import opened Synthesis
  import opened Aging
  import opened Statements

  datatype CreditItem = CreditItem(reference: Reference, date: int, amount: int, txType: TxType, description: string)

  datatype Metadata = Metadata(statementNumber: string, statementDate: string, pdfStyle: string, generatedAt: string)

  datatype CompanySummary = CompanySummary(name: string, address: string, phone: string, email: string)

  datatype CustomerSummary = CustomerSummary(name: string, address: string, account: string)

  datatype Balances = Balances(totalDue: int, aging: AgingBuckets)

  datatype TypeCounts = TypeCounts(invoices: nat, creditNotes: nat, payments: nat, debitNotes: nat)

  datatype Labels = Labels(
    creditItems: seq<CreditItem>,
    numCredits: nat,
    totalCreditAmount: int,
    totalDebitAmount: int,
    numTransactions: nat,
    transactionTypes: TypeCounts)

  datatype GroundTruth = GroundTruth(
    metadata: Metadata,
    company: CompanySummary,
    customer: CustomerSummary,
    balances: Balances,
    transactions: seq<Transaction>,
    labels: Labels)

  /** A credit item is flagged credit and not flagged debit. */
  predicate IsCreditItem(t: Transaction)
  {
    t.isCredit && !t.isDebit
  }

  function ItemOf(t: Transaction): CreditItem
  {
    CreditItem(t.reference, t.date, t.amount, t.txType, t.description)
  }

  /** The credit items, in transaction order. */
  function CreditItemsOf(txs: seq<Transaction>): seq<CreditItem>
  {
    if txs == [] then []
    else
      var t := txs[|txs| - 1];
      CreditItemsOf(txs[..|txs| - 1]) + (if IsCreditItem(t) then [ItemOf(t)] else [])
  }

  /** Sum of the amounts of the transactions that are credit items. */
  function CreditTotal(txs: seq<Transaction>): int
  {
    if txs == [] then 0
    else
      var t := txs[|txs| - 1];
      CreditTotal(txs[..|txs| - 1]) + (if IsCreditItem(t) then t.amount else 0)
  }

  /** Number of transactions of type ty. */
  function CountType(txs: seq<Transaction>, ty: TxType): nat
  {
    if txs == [] then 0
    else CountType(txs[..|txs| - 1], ty) + (if txs[|txs| - 1].txType == ty then 1 else 0)
  }

  function SumItems(items: seq<CreditItem>): int
  {
    if items == [] then 0 else SumItems(items[..|items| - 1]) + items[|items| - 1].amount
  }

  function OrEmpty(o: Option<string>): string
  {
    match o
    case Some(s) => s
    case None => ""
  }

  function TypeCountsOf(txs: seq<Transaction>): TypeCounts
  {
    TypeCounts(CountType(txs, Invoice), CountType(txs, CreditNote), CountType(txs, Payment), CountType(txs, DebitNote))
  }

  function CountSum(c: TypeCounts): nat
  {
    c.invoices + c.creditNotes + c.payments + c.debitNotes
  }

  /** The record `_create_ground_truth` returns for a statement, a style label and the generation timestamp. */
  function GroundTruthOf(st: Statement, style: string, generatedAt: string): GroundTruth
  {
    var items := CreditItemsOf(st.transactions);
    GroundTruth(
      Metadata(st.statementNumber, st.statementDate, style, generatedAt),
      CompanySummary(st.company.name, st.company.address, OrEmpty(st.company.phone), OrEmpty(st.company.email)),
      CustomerSummary(st.customer.name, st.customer.address, st.customer.account),
      Balances(st.totalDue, st.aging),
      st.transactions,
      Labels(items, |items|, CreditTotal(st.transactions), DebitTotal(st.transactions), |st.transactions|,
             TypeCountsOf(st.transactions)))
  }

  /** `_create_ground_truth`: one pass collecting the credit items, then the sums and counts. */
  method CreateGroundTruth(st: Statement, style: string, generatedAt: string) returns (gt: GroundTruth)
    ensures gt == GroundTruthOf(st, style, generatedAt)
    ensures gt.labels.numCredits == |gt.labels.creditItems| && gt.labels.numTransactions == |st.transactions|
  {
    var txs := st.transactions;
    var items: seq<CreditItem> := [];
    var i := 0;
    while i < |txs|
      invariant 0 <= i <= |txs|
      invariant items == CreditItemsOf(txs[..i])
    {
      var t := txs[i];
      assert txs[..i + 1][..i] == txs[..i];
      if t.isCredit && !t.isDebit {
        items := items + [ItemOf(t)];
      }
      i := i + 1;
    }
    assert txs[..i] == txs;
    gt := GroundTruth(
      Metadata(st.statementNumber, st.statementDate, style, generatedAt),
      CompanySummary(st.company.name, st.company.address, OrEmpty(st.company.phone), OrEmpty(st.company.email)),
      CustomerSummary(st.customer.name, st.customer.address, st.customer.account),
      Balances(st.totalDue, st.aging),
      txs,
      Labels(items, |items|, CreditTotal(txs), DebitTotal(txs), |txs|, TypeCountsOf(txs)));
  }

  /** The credit items are an order-preserving filter: the filter of a concatenation is the concatenation of the filters. */
  lemma {:induction false} CreditItemsAppend(a: seq<Transaction>, b: seq<Transaction>)
    ensures CreditItemsOf(a + b) == CreditItemsOf(a) + CreditItemsOf(b)
    decreases |b|
  {
    if b == [] {
      assert a + b == a;
    } else {
      var b' := b[..|b| - 1];
      assert (a + b)[..|a + b| - 1] == a + b';
      CreditItemsAppend(a, b');
    }
  }

  /** A credit item comes from a credit transaction of the list, and every credit transaction yields one. */
  lemma {:induction false} CreditItemsMembers(txs: seq<Transaction>, t: Transaction)
    ensures t in txs && IsCreditItem(t) ==> ItemOf(t) in CreditItemsOf(txs)
    ensures forall c :: c in CreditItemsOf(txs) ==> exists k :: 0 <= k < |txs| && IsCreditItem(txs[k]) && c == ItemOf(txs[k])
    decreases |txs|
  {
    if txs != [] {
      var init := txs[..|txs| - 1];
      CreditItemsMembers(init, t);
      if t in txs && t != txs[|txs| - 1] {
        var k :| 0 <= k < |txs| && txs[k] == t;
        assert init[k] == t;
      }
      forall c | c in CreditItemsOf(txs) ensures exists k :: 0 <= k < |txs| && IsCreditItem(txs[k]) && c == ItemOf(txs[k]) {
        if c in CreditItemsOf(init) {
          var k :| 0 <= k < |init| && IsCreditItem(init[k]) && c == ItemOf(init[k]);
          assert txs[k] == init[k];
        } else {
          assert IsCreditItem(txs[|txs| - 1]) && c == ItemOf(txs[|txs| - 1]);
        }
      }
    }
  }

  /** `total_credit_amount` is the sum of the credit items' amounts. */
  lemma {:induction false} CreditTotalIsItemSum(txs: seq<Transaction>)
    ensures CreditTotal(txs) == SumItems(CreditItemsOf(txs))
    decreases |txs|
  {
    if txs != [] {
      var init, t := txs[..|txs| - 1], txs[|txs| - 1];
      CreditTotalIsItemSum(init);
      var items := CreditItemsOf(init);
      if IsCreditItem(t) {
        assert (items + [ItemOf(t)])[..|items|] == items;
      } else {
        assert items + [] == items;
      }
    }
  }

  /**
    When every transaction carries at least one flag, debit total minus credit
    total is the signed total: a transaction flagged both ways counts as a debit
    on both sides.
   */
  lemma {:induction false} TotalsReconcile(txs: seq<Transaction>)
    requires forall i :: 0 <= i < |txs| ==> txs[i].isDebit || txs[i].isCredit
    ensures DebitTotal(txs) - CreditTotal(txs) == SumSigned(txs)
    decreases |txs|
  {
    if txs != [] {
      TotalsReconcile(txs[..|txs| - 1]);
    }
  }

  /** Without adjustments, the four type counts add up to the number of transactions. */
  lemma {:induction false} TypeCountsComplete(txs: seq<Transaction>)
    requires forall i :: 0 <= i < |txs| ==> txs[i].txType != Adjustment
    ensures CountSum(TypeCountsOf(txs)) == |txs|
    decreases |txs|
  {
    if txs != [] {
      TypeCountsComplete(txs[..|txs| - 1]);
    }
  }

  /**
    An adjustment flagged neither debit nor credit, appended to any list,
    lowers the signed total by its amount yet leaves the debit total, the
    credit total, the credit items and the four type counts unchanged.
   */
  lemma UnflaggedAdjustmentEscapesLabels(txs: seq<Transaction>, t: Transaction)
    requires t.txType == Adjustment && !t.isDebit && !t.isCredit
    ensures SumSigned(txs + [t]) == SumSigned(txs) - t.amount
    ensures DebitTotal(txs + [t]) == DebitTotal(txs)
    ensures CreditTotal(txs + [t]) == CreditTotal(txs)
    ensures CreditItemsOf(txs + [t]) == CreditItemsOf(txs)
    ensures TypeCountsOf(txs + [t]) == TypeCountsOf(txs)
  {
    assert (txs + [t])[..|txs|] == txs;
  }

  /**
    The labels reconcile with the balances: debit total minus credit total is
    the total due minus the opening balance, the aging buckets hold the debit
    total with nothing over 90 days, the four type counts add up to the n
    transactions, and the credit total is the sum of the credit items.
   */
  predicate Reconciled(gt: GroundTruth, opening: int, n: int)
  {
    && gt.labels.totalDebitAmount - gt.labels.totalCreditAmount == gt.balances.totalDue - opening
    && Total(gt.balances.aging) == gt.labels.totalDebitAmount
    && gt.balances.aging.days90Plus == 0
    && CountSum(gt.labels.transactionTypes) == gt.labels.numTransactions == n
    && gt.labels.totalCreditAmount == SumItems(gt.labels.creditItems)
  }

  /**
    The ground truth of any statement whose ledger has exclusive flags, no
    adjustment, no transaction over 90 days old, a total due equal to the
    opening balance plus the signed total and its own aging report
    reconciles: debit total minus credit total is the total due minus the
    opening balance, the aging buckets hold the debit total with nothing over
    90 days, the type counts add up to the number of transactions, and the
    credit total is the sum of the credit items.
   */
  lemma LabelsReconcile(st: Statement, opening: int, today: int, style: string, generatedAt: string)
    requires st.totalDue == opening + SumSigned(st.transactions)
    requires st.aging == AgingOf(st.transactions, today)
    requires forall i :: 0 <= i < |st.transactions| ==>
      st.transactions[i].txType != Adjustment && st.transactions[i].isCredit == !st.transactions[i].isDebit
    requires forall i :: 0 <= i < |st.transactions| ==> today - st.transactions[i].date <= 90
    ensures Reconciled(GroundTruthOf(st, style, generatedAt), opening, |st.transactions|)
  {
    var txs := st.transactions;
    AgingComplete(txs, today);
    NoAgeBeyondNinety(txs, today);
    TotalsReconcile(txs);
    TypeCountsComplete(txs);
    CreditTotalIsItemSum(txs);
  }

  /** The ground truth of a statement built from in-range draws reconciles, with one transaction per draw. */
  lemma GroundTruthReconciles(company: Company, customer: Customer, statementNumber: string, statementDate: string,
                              opening: int, draws: seq<Draw>, today: int, style: string, generatedAt: string)
    requires ValidDraws(draws, opening)
    ensures Reconciled(GroundTruthOf(StatementOf(company, customer, statementNumber, statementDate, opening, draws, today), style, generatedAt), opening, |draws|)
  {
    var st := StatementOf(company, customer, statementNumber, statementDate, opening, draws, today);
    var txs := LedgerOf(draws, opening, today);
    assert st.transactions == txs && st.aging == AgingOf(txs, today);
    assert |txs| == |draws|;
    assert st.totalDue == opening + SumSigned(txs) by {
      assert st.totalDue == ClosingOf(draws, opening, today);
      ClosingIsOrderFree(draws, opening, today);
    }
    assert forall i :: 0 <= i < |txs| ==> txs[i].txType != Adjustment && txs[i].isCredit == !txs[i].isDebit by {
      LedgerFlagsExclusive(draws, opening, today);
    }
    assert forall i :: 0 <= i < |txs| ==> today - txs[i].date <= 90 by {
      LedgerAges(draws, opening, today);
    }
    LabelsReconcile(st, opening, today, style, generatedAt);
  }
}
