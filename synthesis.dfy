/**
  Transaction synthesis: draw the transactions in generation order, sizing
  each amount off a provisional running balance; then sort the list by date
  (stably, in place) and recompute every running balance from the opening
  balance with one left fold over the sorted list.

  The random draws are an input sequence; `ValidDraws` states the ranges the
  random generator keeps to.
 */
module Synthesis {
  import opened Transactions

  /** The random draws behind one transaction, in the order the generator makes them. */
  datatype Draw = Draw(
    dayOffset: int,       // days after the base date, drawn in 1..90
    txType: TxType,       // weighted choice among invoice, credit note, payment, debit note
    serial: int,          // five-digit serial of the reference
    amount: int,          // the uniform amount quantized half-up to the cent, in cents
    description: string,
    creditCoin: bool,     // consulted for an adjustment only
    debitCoin: bool,      // consulted for an adjustment only
    po: Option<int>)      // six-digit PO serial, when one is drawn

  /** The base date lies this many days before today. */
  const Horizon: int := 90
  /** Payment term: the due date is this many days after the posting date. */
  const TermDays: int := 30

  function BaseDate(today: int): int
  {
    today - Horizon
  }

  function Min(a: int, b: int): int
  {
    if a <= b then a else b
  }

  function Max(a: int, b: int): int
  {
    if a >= b then a else b
  }

  /**
    Inclusive bounds, in cents, of a transaction's amount given the
    provisional balance: the source's uniform range with both ends rounded
    half up to the cent. Anything that is not an invoice, credit note or
    payment falls to the debit-note branch.
   */
  function AmountBounds(t: TxType, balance: int): (r: (int, int))
    ensures 0 <= r.0 <= r.1
  {
    match t
    case Invoice => (10000, 2500000)
    case CreditNote =>
      if balance > 0 then (1000, Max(5000, Min((3 * balance + 5) / 10, 500000)))
      else (1000, 50000)
    case Payment =>
      if balance > 0 then ((balance + 5) / 10, (8 * balance + 5) / 10)
      else (10000, 500000)
    case _ => (1000, 50000)
  }

  /** The provisional balance after one draw: invoices and the fall-through branch add, credit notes and payments subtract. */
  function ProvisionalStep(balance: int, d: Draw): int
  {
    match d.txType
    case Invoice => balance + d.amount
    case CreditNote => balance - d.amount
    case Payment => balance - d.amount
    case _ => balance + d.amount
  }

  /** The provisional balance after a sequence of draws, in generation order. */
  function ProvisionalBalance(draws: seq<Draw>, opening: int): int
  {
    if draws == [] then opening
    else ProvisionalStep(ProvisionalBalance(draws[..|draws| - 1], opening), draws[|draws| - 1])
  }

  /** One draw lies within the ranges the random generator keeps to, given the provisional balance before it. */
  predicate DrawInRange(d: Draw, balance: int)
  {
    && 1 <= d.dayOffset <= Horizon
    && d.txType != Adjustment
    && 10000 <= d.serial <= 99999
    && AmountBounds(d.txType, balance).0 <= d.amount <= AmountBounds(d.txType, balance).1
    && (d.po.Some? ==> 100000 <= d.po.value <= 999999)
  }

  /** Every draw lies within range, each sized off the provisional balance of the draws before it. */
  predicate ValidDraws(draws: seq<Draw>, opening: int)
  {
    draws == [] ||
    (ValidDraws(draws[..|draws| - 1], opening) &&
     DrawInRange(draws[|draws| - 1], ProvisionalBalance(draws[..|draws| - 1], opening)))
  }

  /** The transaction record built from one draw, carrying the provisional balance after it. */
  function MakeTx(d: Draw, balance: int, today: int): (t: Transaction)
    ensures t.txType == d.txType && t.amount == d.amount
    ensures FlagsFixedByType(t)
  {
    var date := BaseDate(today) + d.dayOffset;
    Transaction(
      date, d.txType, Reference(Prefix(d.txType), d.serial), d.description, d.amount,
      ProvisionalStep(balance, d),
      IsCreditFor(d.txType, d.creditCoin), IsDebitFor(d.txType, d.debitCoin),
      d.po, date + TermDays)
  }

  /** The list in generation order, before sorting. */
  function Generated(draws: seq<Draw>, opening: int, today: int): (g: seq<Transaction>)
    ensures |g| == |draws|
  {
    if draws == [] then []
    else
      var init := draws[..|draws| - 1];
      Generated(init, opening, today) + [MakeTx(draws[|draws| - 1], ProvisionalBalance(init, opening), today)]
  }

  /** Inserts t after every element whose date is not later than t's. */
  function InsertByDate(sorted: seq<Transaction>, t: Transaction): (r: seq<Transaction>)
    ensures |r| == |sorted| + 1
  {
    if sorted == [] || sorted[|sorted| - 1].date <= t.date then sorted + [t]
    else InsertByDate(sorted[..|sorted| - 1], t) + [sorted[|sorted| - 1]]
  }

  /** Stable sort by date (insertion sort); the same list Python's stable sort yields. */
  function SortByDate(s: seq<Transaction>): (r: seq<Transaction>)
    ensures |r| == |s|
  {
    if s == [] then []
    else InsertByDate(SortByDate(s[..|s| - 1]), s[|s| - 1])
  }

  /** The running balances recomputed from the opening balance, in list order. */
  function Rebalance(s: seq<Transaction>, opening: int): (r: seq<Transaction>)
    ensures |r| == |s|
  {
    if s == [] then []
    else Rebalance(s[..|s| - 1], opening) + [s[|s| - 1].(balanceAfter := opening + SumSigned(s))]
  }

  /** The transaction list `generate_transactions` returns. */
  function LedgerOf(draws: seq<Draw>, opening: int, today: int): seq<Transaction>
  {
    Rebalance(SortByDate(Generated(draws, opening, today)), opening)
  }

  /** The closing balance `generate_transactions` returns. */
  function ClosingOf(draws: seq<Draw>, opening: int, today: int): int
  {
    opening + SumSigned(SortByDate(Generated(draws, opening, today)))
  }

  /** The transactions posted on day d, in list order. */
  function OnDate(s: seq<Transaction>, d: int): seq<Transaction>
  {
    if s == [] then []
    else OnDate(s[..|s| - 1], d) + (if s[|s| - 1].date == d then [s[|s| - 1]] else [])
  }

  // ---------------------------------------------------------------------
  // Sorting

  lemma {:induction false} InsertByDatePermutes(sorted: seq<Transaction>, t: Transaction)
    ensures multiset(InsertByDate(sorted, t)) == multiset(sorted) + multiset{t}
    decreases |sorted|
  {
    if sorted != [] && sorted[|sorted| - 1].date > t.date {
      var init, last := sorted[..|sorted| - 1], sorted[|sorted| - 1];
      assert sorted == init + [last];
      InsertByDatePermutes(init, t);
    }
  }

  /** The sort neither adds nor loses a transaction. */
  lemma {:induction false} SortByDatePermutes(s: seq<Transaction>)
    ensures multiset(SortByDate(s)) == multiset(s)
    decreases |s|
  {
    if s != [] {
      assert s == s[..|s| - 1] + [s[|s| - 1]];
      SortByDatePermutes(s[..|s| - 1]);
      InsertByDatePermutes(SortByDate(s[..|s| - 1]), s[|s| - 1]);
    }
  }

  lemma SortedSnoc(s: seq<Transaction>, x: Transaction)
    requires SortedByDate(s)
    requires forall k :: 0 <= k < |s| ==> s[k].date <= x.date
    ensures SortedByDate(s + [x])
  {
    var r := s + [x];
    forall i, j | 0 <= i < j < |r| ensures r[i].date <= r[j].date {
      assert r[i] == s[i];
      if j < |s| {
        assert r[j] == s[j];
      }
    }
  }

  lemma {:induction false} InsertByDateBelow(sorted: seq<Transaction>, t: Transaction, bound: int)
    requires forall k :: 0 <= k < |sorted| ==> sorted[k].date <= bound
    requires t.date <= bound
    ensures forall k :: 0 <= k < |InsertByDate(sorted, t)| ==> InsertByDate(sorted, t)[k].date <= bound
    decreases |sorted|
  {
    if sorted != [] && sorted[|sorted| - 1].date > t.date {
      var init := sorted[..|sorted| - 1];
      InsertByDateBelow(init, t, bound);
    }
  }

  lemma {:induction false} InsertByDateSorted(sorted: seq<Transaction>, t: Transaction)
    requires SortedByDate(sorted)
    ensures SortedByDate(InsertByDate(sorted, t))
    decreases |sorted|
  {
    if sorted == [] || sorted[|sorted| - 1].date <= t.date {
      SortedSnoc(sorted, t);
    } else {
      var init, last := sorted[..|sorted| - 1], sorted[|sorted| - 1];
      assert SortedByDate(init);
      InsertByDateSorted(init, t);
      InsertByDateBelow(init, t, last.date);
      SortedSnoc(InsertByDate(init, t), last);
    }
  }

  /** The sort yields a date-ordered list. */
  lemma {:induction false} SortByDateSorted(s: seq<Transaction>)
    ensures SortedByDate(SortByDate(s))
    decreases |s|
  {
    if s != [] {
      SortByDateSorted(s[..|s| - 1]);
      InsertByDateSorted(SortByDate(s[..|s| - 1]), s[|s| - 1]);
    }
  }

  lemma OnDateSnoc(s: seq<Transaction>, x: Transaction, d: int)
    ensures OnDate(s + [x], d) == OnDate(s, d) + (if x.date == d then [x] else [])
  {
    assert (s + [x])[..|s|] == s;
  }

  /** The filter for one date of a list with t inserted: t joins that date's run at its end, if t has that date. */
  lemma {:induction false} InsertByDateOnDate(sorted: seq<Transaction>, t: Transaction, d: int)
    ensures OnDate(InsertByDate(sorted, t), d) == OnDate(sorted, d) + (if t.date == d then [t] else [])
    decreases |sorted|
  {
    if sorted == [] || sorted[|sorted| - 1].date <= t.date {
      OnDateSnoc(sorted, t, d);
    } else {
      var init, last := sorted[..|sorted| - 1], sorted[|sorted| - 1];
      var r := InsertByDate(init, t);
      assert InsertByDate(sorted, t) == r + [last];
      assert init + [last] == sorted;
      InsertByDateOnDate(init, t, d);
      OnDateSnoc(r, last, d);
      OnDateSnoc(init, last, d);
      SwapFilters(OnDate(init, d), t, last, d);
    }
  }

  lemma SwapFilters(on: seq<Transaction>, t: Transaction, last: Transaction, d: int)
    requires t.date != last.date
    ensures on + (if t.date == d then [t] else []) + (if last.date == d then [last] else [])
         == on + (if last.date == d then [last] else []) + (if t.date == d then [t] else [])
  {
  }

  /**
    The sort is stable: the transactions of any one date keep their relative
    order. With sortedness and the permutation property this fixes the sorted
    list uniquely.
   */
  lemma {:induction false} SortByDateStable(s: seq<Transaction>, d: int)
    ensures OnDate(SortByDate(s), d) == OnDate(s, d)
    decreases |s|
  {
    if s != [] {
      SortByDateStable(s[..|s| - 1], d);
      InsertByDateOnDate(SortByDate(s[..|s| - 1]), s[|s| - 1], d);
    }
  }

  lemma {:induction false} InsertByDateSumSigned(sorted: seq<Transaction>, t: Transaction)
    ensures SumSigned(InsertByDate(sorted, t)) == SumSigned(sorted) + Signed(t)
    decreases |sorted|
  {
    if sorted == [] || sorted[|sorted| - 1].date <= t.date {
      assert (sorted + [t])[..|sorted|] == sorted;
    } else {
      var init, last := sorted[..|sorted| - 1], sorted[|sorted| - 1];
      InsertByDateSumSigned(init, t);
      var r' := InsertByDate(init, t);
      assert (r' + [last])[..|r'|] == r';
    }
  }

  /** Sorting does not change the signed total. */
  lemma {:induction false} SortByDateSumSigned(s: seq<Transaction>)
    ensures SumSigned(SortByDate(s)) == SumSigned(s)
    decreases |s|
  {
    if s != [] {
      SortByDateSumSigned(s[..|s| - 1]);
      InsertByDateSumSigned(SortByDate(s[..|s| - 1]), s[|s| - 1]);
    }
  }

  // ---------------------------------------------------------------------
  // Balance recomputation

  /** Each recomputed balance is the opening balance plus the signed sum of the prefix ending there; nothing else changes. */
  lemma {:induction false} RebalanceAt(s: seq<Transaction>, opening: int, i: int)
    requires 0 <= i < |s|
    ensures Rebalance(s, opening)[i] == s[i].(balanceAfter := opening + SumSigned(s[..i + 1]))
    decreases |s|
  {
    var init := s[..|s| - 1];
    if i < |s| - 1 {
      RebalanceAt(init, opening, i);
      assert init[..i + 1] == s[..i + 1];
    } else {
      assert s[..i + 1] == s;
    }
  }

  /** Recomputing the balances keeps the date order. */
  lemma RebalanceSorted(s: seq<Transaction>, opening: int)
    requires SortedByDate(s)
    ensures SortedByDate(Rebalance(s, opening))
  {
    var r := Rebalance(s, opening);
    forall i, j | 0 <= i < j < |r| ensures r[i].date <= r[j].date {
      RebalanceAt(s, opening, i);
      RebalanceAt(s, opening, j);
    }
  }

  /** Recomputing the balances keeps every amount and flag, so every signed total. */
  lemma {:induction false} RebalanceSumSigned(s: seq<Transaction>, opening: int)
    ensures SumSigned(Rebalance(s, opening)) == SumSigned(s)
    decreases |s|
  {
    if s != [] {
      var init := s[..|s| - 1];
      RebalanceSumSigned(init, opening);
      var r := Rebalance(s, opening);
      assert r[..|r| - 1] == Rebalance(init, opening);
    }
  }

  /** Every running balance is the opening balance plus the signed sum of the transactions up to and including it. */
  predicate BalancesFold(txs: seq<Transaction>, opening: int)
  {
    forall i :: 0 <= i < |txs| ==> txs[i].balanceAfter == opening + SumSigned(txs[..i + 1])
  }

  lemma RebalanceFolds(s: seq<Transaction>, opening: int)
    ensures BalancesFold(Rebalance(s, opening), opening)
  {
    var r := Rebalance(s, opening);
    forall k | 0 <= k < |r| ensures r[k].balanceAfter == opening + SumSigned(r[..k + 1]) {
      RebalanceFoldsAt(s, opening, k);
    }
  }

  lemma RebalanceFoldsAt(s: seq<Transaction>, opening: int, k: int)
    requires 0 <= k < |s|
    ensures Rebalance(s, opening)[k].balanceAfter == opening + SumSigned(Rebalance(s, opening)[..k + 1])
  {
    var r := Rebalance(s, opening);
    RebalanceAt(s, opening, k);
    assert r[k].balanceAfter == opening + SumSigned(s[..k + 1]);
    RebalancePrefix(s, opening, k + 1);
    assert r[..k + 1] == Rebalance(s[..k + 1], opening);
    RebalanceSumSigned(s[..k + 1], opening);
  }

  /** The returned list is date-ordered and its running balances are the left fold from the opening balance. */
  lemma LedgerSortedAndBalanced(draws: seq<Draw>, opening: int, today: int)
    ensures SortedByDate(LedgerOf(draws, opening, today))
    ensures BalancesFold(LedgerOf(draws, opening, today), opening)
  {
    var sorted := SortByDate(Generated(draws, opening, today));
    SortByDateSorted(Generated(draws, opening, today));
    RebalanceSorted(sorted, opening);
    RebalanceFolds(sorted, opening);
  }

  /** The closing balance is the last recomputed balance, or the opening balance when there are no transactions. */
  lemma ClosingIsLastBalance(draws: seq<Draw>, opening: int, today: int)
    ensures ClosingOf(draws, opening, today) ==
      (if draws == [] then opening else LedgerOf(draws, opening, today)[|draws| - 1].balanceAfter)
  {
    var sorted := SortByDate(Generated(draws, opening, today));
    if draws != [] {
      RebalanceAt(sorted, opening, |sorted| - 1);
      assert sorted[..|sorted|] == sorted;
    }
  }

  /** The closing balance does not depend on the order: it is the opening balance plus the signed total of what was generated. */
  lemma ClosingIsOrderFree(draws: seq<Draw>, opening: int, today: int)
    ensures ClosingOf(draws, opening, today) == opening + SumSigned(Generated(draws, opening, today))
    ensures ClosingOf(draws, opening, today) == opening + SumSigned(LedgerOf(draws, opening, today))
  {
    var g := Generated(draws, opening, today);
    SortByDateSumSigned(g);
    RebalanceSumSigned(SortByDate(g), opening);
  }

  /** The list with every running balance cleared, for comparing lists up to their balances. */
  function WithoutBalances(s: seq<Transaction>): (r: seq<Transaction>)
    ensures |r| == |s|
  {
    seq(|s|, k requires 0 <= k < |s| => s[k].(balanceAfter := 0))
  }

  lemma WithoutBalancesSnoc(a: seq<Transaction>, x: Transaction)
    ensures WithoutBalances(a + [x]) == WithoutBalances(a) + [x.(balanceAfter := 0)]
  {
  }

  lemma {:induction false} InsertByDateWithoutBalances(sorted: seq<Transaction>, t: Transaction)
    ensures multiset(WithoutBalances(InsertByDate(sorted, t))) == multiset(WithoutBalances(sorted)) + multiset{t.(balanceAfter := 0)}
    decreases |sorted|
  {
    if sorted == [] || sorted[|sorted| - 1].date <= t.date {
      WithoutBalancesSnoc(sorted, t);
    } else {
      var init, last := sorted[..|sorted| - 1], sorted[|sorted| - 1];
      assert sorted == init + [last];
      InsertByDateWithoutBalances(init, t);
      WithoutBalancesSnoc(InsertByDate(init, t), last);
      WithoutBalancesSnoc(init, last);
    }
  }

  lemma {:induction false} SortByDateWithoutBalances(s: seq<Transaction>)
    ensures multiset(WithoutBalances(SortByDate(s))) == multiset(WithoutBalances(s))
    decreases |s|
  {
    if s != [] {
      var init, x := s[..|s| - 1], s[|s| - 1];
      assert s == init + [x];
      SortByDateWithoutBalances(init);
      InsertByDateWithoutBalances(SortByDate(init), x);
      WithoutBalancesSnoc(init, x);
    }
  }

  /** The refold changes nothing but the running balances. */
  lemma RebalanceWithoutBalances(s: seq<Transaction>, opening: int)
    ensures WithoutBalances(Rebalance(s, opening)) == WithoutBalances(s)
  {
    forall k | 0 <= k < |s| ensures WithoutBalances(Rebalance(s, opening))[k] == WithoutBalances(s)[k] {
      RebalanceAt(s, opening, k);
    }
  }

  /** The returned list is the generated list reordered, with only the running balances changed. */
  lemma LedgerPermutes(draws: seq<Draw>, opening: int, today: int)
    ensures multiset(WithoutBalances(LedgerOf(draws, opening, today))) == multiset(WithoutBalances(Generated(draws, opening, today)))
  {
    var g := Generated(draws, opening, today);
    RebalanceWithoutBalances(SortByDate(g), opening);
    SortByDateWithoutBalances(g);
  }

  // ---------------------------------------------------------------------
  // Facts about each generated transaction

  /** What every generated transaction satisfies, whatever the draws were. */
  predicate GeneratedShape(t: Transaction, today: int)
  {
    && 0 <= t.amount
    && BaseDate(today) + 1 <= t.date <= BaseDate(today) + Horizon
    && t.dueDate == t.date + TermDays
    && t.txType != Adjustment
    && FlagsFixedByType(t)
    && t.isCredit == !t.isDebit
    && t.reference.prefix == Prefix(t.txType)
    && 10000 <= t.reference.serial <= 99999
  }

  lemma {:induction false} GeneratedAt(draws: seq<Draw>, opening: int, today: int, k: int)
    requires 0 <= k < |draws|
    ensures Generated(draws, opening, today)[k] == MakeTx(draws[k], ProvisionalBalance(draws[..k], opening), today)
    decreases |draws|
  {
    var init := draws[..|draws| - 1];
    if k < |draws| - 1 {
      GeneratedAt(init, opening, today, k);
      assert init[..k] == draws[..k];
    }
  }

  lemma {:induction false} ValidDrawsAt(draws: seq<Draw>, opening: int, k: int)
    requires ValidDraws(draws, opening) && 0 <= k < |draws|
    ensures DrawInRange(draws[k], ProvisionalBalance(draws[..k], opening))
    decreases |draws|
  {
    var init := draws[..|draws| - 1];
    if k < |draws| - 1 {
      ValidDrawsAt(init, opening, k);
      assert init[..k] == draws[..k];
    }
  }

  /** Every generated transaction, in generation order, has the generated shape. */
  lemma GeneratedWellShaped(draws: seq<Draw>, opening: int, today: int)
    requires ValidDraws(draws, opening)
    ensures forall k :: 0 <= k < |Generated(draws, opening, today)| ==> GeneratedShape(Generated(draws, opening, today)[k], today)
  {
    var g := Generated(draws, opening, today);
    forall k | 0 <= k < |g| ensures GeneratedShape(g[k], today) {
      GeneratedAt(draws, opening, today, k);
      ValidDrawsAt(draws, opening, k);
    }
  }

  /** A permutation of a list of well-shaped transactions is well shaped. */
  lemma ShapedPermutation(a: seq<Transaction>, b: seq<Transaction>, today: int)
    requires multiset(a) == multiset(b)
    requires forall k :: 0 <= k < |b| ==> GeneratedShape(b[k], today)
    ensures forall i :: 0 <= i < |a| ==> GeneratedShape(a[i], today)
  {
    forall i | 0 <= i < |a| ensures GeneratedShape(a[i], today) {
      assert a[i] in multiset(a);
      var k :| 0 <= k < |b| && b[k] == a[i];
    }
  }

  /** The refold keeps every transaction's shape, which does not involve its balance. */
  lemma RebalanceShaped(s: seq<Transaction>, opening: int, today: int)
    requires forall k :: 0 <= k < |s| ==> GeneratedShape(s[k], today)
    ensures forall i :: 0 <= i < |Rebalance(s, opening)| ==> GeneratedShape(Rebalance(s, opening)[i], today)
  {
    forall i | 0 <= i < |s| ensures GeneratedShape(Rebalance(s, opening)[i], today) {
      RebalanceAt(s, opening, i);
    }
  }

  /**
    Every transaction of the returned list has a non-negative amount, a date
    `base_date + k` with k in 1..90, a due date 30 days later, and the flags
    and reference prefix its (non-adjustment) type fixes.
   */
  lemma LedgerWellShaped(draws: seq<Draw>, opening: int, today: int)
    requires ValidDraws(draws, opening)
    ensures forall i :: 0 <= i < |LedgerOf(draws, opening, today)| ==> GeneratedShape(LedgerOf(draws, opening, today)[i], today)
  {
    var g := Generated(draws, opening, today);
    var sorted := SortByDate(g);
    GeneratedWellShaped(draws, opening, today);
    SortByDatePermutes(g);
    ShapedPermutation(sorted, g, today);
    RebalanceShaped(sorted, opening, today);
  }

  /** Each transaction of the returned list is 0..89 days old today. */
  lemma LedgerAges(draws: seq<Draw>, opening: int, today: int)
    requires ValidDraws(draws, opening)
    ensures forall i :: 0 <= i < |LedgerOf(draws, opening, today)| ==> 0 <= today - LedgerOf(draws, opening, today)[i].date < Horizon
  {
    var txs := LedgerOf(draws, opening, today);
    LedgerWellShaped(draws, opening, today);
    forall i | 0 <= i < |txs| ensures 0 <= today - txs[i].date < Horizon {
      assert GeneratedShape(txs[i], today);
    }
  }

  /** No returned transaction is an adjustment, so each is exactly one of debit and credit. */
  lemma LedgerFlagsExclusive(draws: seq<Draw>, opening: int, today: int)
    requires ValidDraws(draws, opening)
    ensures forall i :: 0 <= i < |LedgerOf(draws, opening, today)| ==>
      LedgerOf(draws, opening, today)[i].txType != Adjustment &&
      LedgerOf(draws, opening, today)[i].isCredit == !LedgerOf(draws, opening, today)[i].isDebit
  {
    var txs := LedgerOf(draws, opening, today);
    LedgerWellShaped(draws, opening, today);
    forall i | 0 <= i < |txs| ensures txs[i].txType != Adjustment && txs[i].isCredit == !txs[i].isDebit {
      assert GeneratedShape(txs[i], today);
    }
  }

  // ---------------------------------------------------------------------
  // The imperative procedure

  /** Inserting t into a list puts it just before the trailing run of later-dated elements. */
  lemma {:induction false} InsertByDateSplit(sorted: seq<Transaction>, t: Transaction, j: int)
    requires 0 <= j <= |sorted|
    requires j == 0 || sorted[j - 1].date <= t.date
    requires forall k :: j <= k < |sorted| ==> sorted[k].date > t.date
    ensures InsertByDate(sorted, t) == sorted[..j] + [t] + sorted[j..]
    decreases |sorted|
  {
    if j == |sorted| {
      assert sorted[..j] == sorted && sorted[j..] == [];
    } else {
      var init := sorted[..|sorted| - 1];
      InsertByDateSplit(init, t, j);
      assert init[..j] == sorted[..j];
      assert init[j..] + [sorted[|sorted| - 1]] == sorted[j..];
    }
  }

  /**
    The inner loop of the insertion: shifts the elements of a[..i] dated
    later than key one place right, from the back, and returns the gap j
    left behind, just after the last element not later than key.
   */
  method ShiftLater(a: array<Transaction>, i: int, key: Transaction) returns (j: int)
    requires 0 <= i < a.Length
    modifies a
    ensures 0 <= j <= i
    ensures forall k :: 0 <= k < j ==> a[k] == old(a[k])
    ensures forall k :: j < k <= i ==> a[k] == old(a[k - 1])
    ensures forall k :: i < k < a.Length ==> a[k] == old(a[k])
    ensures j == 0 || old(a[j - 1]).date <= key.date
    ensures forall k :: j <= k < i ==> old(a[k]).date > key.date
  {
    j := i;
    while j > 0 && a[j - 1].date > key.date
      invariant 0 <= j <= i
      invariant forall k :: 0 <= k < j ==> a[k] == old(a[k])
      invariant forall k :: j < k <= i ==> a[k] == old(a[k - 1])
      invariant forall k :: i < k < a.Length ==> a[k] == old(a[k])
      invariant forall k :: j <= k < i ==> old(a[k]).date > key.date
    {
      a[j] := a[j - 1];
      j := j - 1;
    }
  }

  /** Moves a[i] left past the later-dated elements of the prefix a[..i]. */
  method InsertInPlace(a: array<Transaction>, i: int)
    requires 0 <= i < a.Length
    modifies a
    ensures a[..i + 1] == InsertByDate(old(a[..i]), old(a[i]))
    ensures a[i + 1..] == old(a[i + 1..])
  {
    ghost var sorted := a[..i];
    ghost var rest := a[i + 1..];
    var key := a[i];
    var j := ShiftLater(a, i, key);
    a[j] := key;
    InsertByDateSplit(sorted, key, j);
    Spliced(a[..], sorted, key, j, i);
    forall k | 0 <= k < |rest| ensures a[i + 1..][k] == rest[k] {
      assert a[i + 1 + k] == old(a[i + 1 + k]);
    }
    assert a[i + 1..] == rest;
  }

  /** A list that agrees with sorted before j, holds key at j and sorted shifted by one after j, up to i, is the splice. */
  lemma Spliced(s: seq<Transaction>, sorted: seq<Transaction>, key: Transaction, j: int, i: int)
    requires 0 <= j <= i < |s| && |sorted| == i
    requires forall k :: 0 <= k < j ==> s[k] == sorted[k]
    requires s[j] == key
    requires forall k :: j < k <= i ==> s[k] == sorted[k - 1]
    ensures s[..i + 1] == sorted[..j] + [key] + sorted[j..]
  {
    var inserted := sorted[..j] + [key] + sorted[j..];
    forall k | 0 <= k <= i ensures s[k] == inserted[k] {
      if k < j {
        assert inserted[k] == sorted[k];
      } else if j < k {
        assert inserted[k] == sorted[k - 1];
      }
    }
  }

  /** Stable in-place insertion sort by date. */
  method SortByDateInPlace(a: array<Transaction>)
    modifies a
    ensures a[..] == SortByDate(old(a[..]))
  {
    ghost var input := a[..];
    var i := 0;
    while i < a.Length
      invariant 0 <= i <= a.Length
      invariant a[..i] == SortByDate(input[..i])
      invariant a[i..] == input[i..]
    {
      assert a[i] == input[i];
      SortByDateSnoc(input, i);
      ghost var rest := a[i + 1..];
      assert rest == input[i + 1..];
      InsertInPlace(a, i);
      assert a[i + 1..] == input[i + 1..];
      i := i + 1;
    }
    assert input[..a.Length] == input;
  }

  /** Sorting one more element of a list is inserting it into the sorted prefix. */
  lemma SortByDateSnoc(s: seq<Transaction>, i: int)
    requires 0 <= i < |s|
    ensures SortByDate(s[..i + 1]) == InsertByDate(SortByDate(s[..i]), s[i])
  {
    assert s[..i + 1][..i] == s[..i];
  }

  /** Refolds the running balances over the array from the opening balance; returns the closing balance. */
  method RecomputeBalances(a: array<Transaction>, opening: int) returns (closing: int)
    modifies a
    ensures a[..] == Rebalance(old(a[..]), opening)
    ensures closing == opening + SumSigned(old(a[..]))
  {
    ghost var input := a[..];
    ghost var rebalanced := Rebalance(input, opening);
    closing := opening;
    var i := 0;
    while i < a.Length
      invariant 0 <= i <= a.Length
      invariant forall k :: 0 <= k < i ==> a[k] == rebalanced[k]
      invariant forall k :: i <= k < a.Length ==> a[k] == input[k]
      invariant closing == opening + SumSigned(input[..i])
    {
      var t := a[i];
      RebalanceAt(input, opening, i);
      SumSignedSnoc(input, i);
      if t.isDebit {
        closing := closing + t.amount;
      } else {
        closing := closing - t.amount;
      }
      a[i] := t.(balanceAfter := closing);
      i := i + 1;
    }
    assert input[..a.Length] == input;
  }

  lemma SumSignedSnoc(s: seq<Transaction>, i: int)
    requires 0 <= i < |s|
    ensures SumSigned(s[..i + 1]) == SumSigned(s[..i]) + Signed(s[i])
  {
    assert s[..i + 1][..i] == s[..i];
  }

  /** The first loop of `generate_transactions`: the transactions in generation order, with provisional balances. */
  method DrawTransactions(draws: seq<Draw>, opening: int, today: int) returns (generated: seq<Transaction>, balance: int)
    ensures generated == Generated(draws, opening, today)
    ensures balance == ProvisionalBalance(draws, opening)
  {
    generated := [];
    balance := opening;
    var i := 0;
    while i < |draws|
      invariant 0 <= i <= |draws|
      invariant generated == Generated(draws[..i], opening, today)
      invariant balance == ProvisionalBalance(draws[..i], opening)
    {
      var t := MakeTx(draws[i], balance, today);
      generated := generated + [t];
      balance := ProvisionalStep(balance, draws[i]);
      assert draws[..i + 1][..i] == draws[..i];
      i := i + 1;
    }
    assert draws[..i] == draws;
  }

  /**
    `generate_transactions`: build the list in generation order with
    provisional balances, sort it by date in place, recompute the balances
    and return the list with the closing balance. What the result satisfies
    is proved about `LedgerOf` and `ClosingOf` (LedgerSortedAndBalanced,
    ClosingIsLastBalance, ClosingIsOrderFree, LedgerWellShaped).
   */
  method GenerateTransactions(draws: seq<Draw>, opening: int, today: int) returns (txs: seq<Transaction>, closing: int)
    ensures txs == LedgerOf(draws, opening, today) && closing == ClosingOf(draws, opening, today)
    ensures |txs| == |draws|
  {
    var generated, _ := DrawTransactions(draws, opening, today);
    var a := new Transaction[|generated|](k requires 0 <= k < |generated| => generated[k]);
    assert a[..] == generated;
    SortByDateInPlace(a);
    closing := RecomputeBalances(a, opening);
    txs := a[..];
  }

  lemma {:induction false} RebalancePrefix(s: seq<Transaction>, opening: int, n: int)
    requires 0 <= n <= |s|
    ensures Rebalance(s, opening)[..n] == Rebalance(s[..n], opening)
    decreases |s|
  {
    if n < |s| {
      var init := s[..|s| - 1];
      RebalancePrefix(init, opening, n);
      assert init[..n] == s[..n];
    } else {
      assert s[..n] == s;
    }
  }
}
