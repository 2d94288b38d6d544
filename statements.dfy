/**
  Statement assembly: one statement's ledger, its closing balance as the
  total due, and its aging report. Company, customer, statement number and
  statement date are opaque values chosen outside the ledger.
 */
module Statements {
  import opened Transactions
  import opened Synthesis
  import opened Aging

  datatype Company = Company(name: string, address: string, phone: Option<string>, email: Option<string>, website: Option<string>)

  datatype Customer = Customer(name: string, address: string, account: string)

  datatype Statement = Statement(
    company: Company,
    customer: Customer,
    statementNumber: string,
    statementDate: string,
    transactions: seq<Transaction>,
    totalDue: int,
    aging: AgingBuckets)

  /** The statement `_generate_statement_data` assembles from these draws. */
  function StatementOf(company: Company, customer: Customer, statementNumber: string, statementDate: string,
                       opening: int, draws: seq<Draw>, today: int): Statement
  {
    var txs := LedgerOf(draws, opening, today);
    Statement(company, customer, statementNumber, statementDate, txs, ClosingOf(draws, opening, today), AgingOf(txs, today))
  }

  /** `_generate_statement_data`: generate the ledger, then age it. */
  method GenerateStatementData(company: Company, customer: Customer, statementNumber: string, statementDate: string,
                               opening: int, draws: seq<Draw>, today: int) returns (st: Statement)
    ensures st == StatementOf(company, customer, statementNumber, statementDate, opening, draws, today)
    ensures st.totalDue == if st.transactions == [] then opening else st.transactions[|st.transactions| - 1].balanceAfter
    ensures Total(st.aging) == DebitTotal(st.transactions)
  {
    var txs, closing := GenerateTransactions(draws, opening, today);
    var aging := CalculateAging(txs, today);
    st := Statement(company, customer, statementNumber, statementDate, txs, closing, aging);
  }

  /**
    Every statement built from in-range draws is a valid fixture: its
    transactions are date-ordered, each running balance is the opening
    balance plus the signed prefix sum, the total due is the opening balance
    plus the signed total, and the aging buckets hold the debit total with
    nothing in the 90+ bucket.
   */
  lemma StatementIsConsistent(company: Company, customer: Customer, statementNumber: string, statementDate: string,
                              opening: int, draws: seq<Draw>, today: int)
    requires ValidDraws(draws, opening)
    ensures var st := StatementOf(company, customer, statementNumber, statementDate, opening, draws, today);
      && |st.transactions| == |draws|
      && SortedByDate(st.transactions)
      && BalancesFold(st.transactions, opening)
      && st.totalDue == opening + SumSigned(st.transactions)
      && Total(st.aging) == DebitTotal(st.transactions)
      && st.aging.days90Plus == 0
  {
    var st := StatementOf(company, customer, statementNumber, statementDate, opening, draws, today);
    var txs := LedgerOf(draws, opening, today);
    assert st.transactions == txs && st.totalDue == ClosingOf(draws, opening, today) && st.aging == AgingOf(txs, today);
    assert SortedByDate(txs) && BalancesFold(txs, opening) by {
      LedgerSortedAndBalanced(draws, opening, today);
    }
    assert st.totalDue == opening + SumSigned(txs) by {
      ClosingIsOrderFree(draws, opening, today);
    }
    assert Total(st.aging) == DebitTotal(txs) by {
      AgingComplete(txs, today);
    }
    assert st.aging.days90Plus == 0 by {
      LedgerAges(draws, opening, today);
      NoAgeBeyondNinety(txs, today);
    }
  }

  /**
    One invoice of 100.00 drawn k days after the base date, from a zero
    opening balance: a one-line ledger whose running balance and total due
    are 100.00, all of it aged into the bucket of age 90 - k.
   */
  lemma SingleInvoiceStatement(company: Company, customer: Customer, statementNumber: string, statementDate: string,
                               d: Draw, today: int)
    requires d.txType == Invoice && d.amount == 10000 && 1 <= d.dayOffset <= Horizon
    ensures var st := StatementOf(company, customer, statementNumber, statementDate, 0, [d], today);
      && |st.transactions| == 1
      && st.transactions[0].txType == Invoice && st.transactions[0].isDebit && !st.transactions[0].isCredit
      && st.transactions[0].amount == 10000 && st.transactions[0].balanceAfter == 10000
      && st.totalDue == 10000
      && (forall b :: Get(st.aging, b) == if b == BucketOf(Horizon - d.dayOffset) then 10000 else 0)
  {
    var tx := MakeTx(d, 0, today).(balanceAfter := 10000);
    SingleInvoiceLedger(d, today);
    assert [] + [tx] == [tx];
    AgingStep([], tx, today);
  }

  /** A statement with no draws: an empty ledger, the opening balance as total due, empty buckets. */
  lemma EmptyStatement(company: Company, customer: Customer, statementNumber: string, statementDate: string,
                       opening: int, today: int)
    ensures var st := StatementOf(company, customer, statementNumber, statementDate, opening, [], today);
      st.transactions == [] && st.totalDue == opening && st.aging == Empty
  {
  }

  lemma SingleInvoiceLedger(d: Draw, today: int)
    requires d.txType == Invoice && d.amount == 10000
    ensures LedgerOf([d], 0, today) == [MakeTx(d, 0, today).(balanceAfter := 10000)]
    ensures ClosingOf([d], 0, today) == 10000
  {
    var t := MakeTx(d, 0, today);
    assert t.isDebit;
    assert [d][..0] == [] && [t][..0] == [];
    assert Generated([d], 0, today) == [t];
    assert SortByDate([t]) == [t];
    assert SumSigned([t]) == 10000;
  }
}
