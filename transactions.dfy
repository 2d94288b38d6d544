/**
  The ledger's value types: transaction types and their table of reference
  prefixes and debit flags, the transaction record, and the signed and
  per-side sums that the balance, aging and ground-truth computations share.

  Money is exact integer cents; a date is an integer day number.
 */
module Transactions {

  datatype Option<T> = None | Some(value: T)

  /** The five types of the type table; the generator only draws the first four. */
  datatype TxType = Invoice | CreditNote | Payment | DebitNote | Adjustment

  /** Reference prefix of each type in the type table. */
  function Prefix(t: TxType): string
  {
    match t
    case Invoice => "INV"
    case CreditNote => "CN"
    case Payment => "PY"
    case DebitNote => "DN"
    case Adjustment => "ADJ"
  }

  /** The table's fixed debit flag; an adjustment has none. */
  function DebitFlag(t: TxType): Option<bool>
  {
    match t
    case Invoice => Some(true)
    case CreditNote => Some(false)
    case Payment => Some(false)
    case DebitNote => Some(true)
    case Adjustment => None
  }

  /** `is_debit` of a new transaction: the table's flag, or a coin toss for an adjustment. */
  function IsDebitFor(t: TxType, coin: bool): (r: bool)
    ensures t == Invoice || t == DebitNote ==> r
    ensures t == CreditNote || t == Payment ==> !r
  {
    match DebitFlag(t)
    case Some(d) => d
    case None => coin
  }

  /** `is_credit` of a new transaction: the negated table flag, or its own coin toss for an adjustment. */
  function IsCreditFor(t: TxType, coin: bool): (r: bool)
    ensures t != Adjustment ==> r == !IsDebitFor(t, coin)
  {
    match DebitFlag(t)
    case Some(d) => !d
    case None => coin
  }

  /** A reference is the type's prefix followed by a five-digit serial. */
  datatype Reference = Reference(prefix: string, serial: int)

  datatype Transaction = Transaction(
    date: int,            // posting day
    txType: TxType,
    reference: Reference,
    description: string,
    amount: int,          // cents
    balanceAfter: int,    // cents
    isCredit: bool,
    isDebit: bool,
    poNumber: Option<int>,
    dueDate: int)         // day

  /** The transaction's flags are the ones the type table fixes (anything goes for an adjustment). */
  predicate FlagsFixedByType(t: Transaction)
  {
    match t.txType
    case Invoice => t.isDebit && !t.isCredit
    case DebitNote => t.isDebit && !t.isCredit
    case CreditNote => !t.isDebit && t.isCredit
    case Payment => !t.isDebit && t.isCredit
    case Adjustment => true
  }

  predicate SortedByDate(s: seq<Transaction>)
  {
    forall i, j :: 0 <= i < j < |s| ==> s[i].date <= s[j].date
  }

  /** A debit adds its amount to the balance; anything else subtracts it. */
  function Signed(t: Transaction): int
  {
    if t.isDebit then t.amount else -t.amount
  }

  /** Sum of the signed amounts, in list order. */
  function SumSigned(s: seq<Transaction>): int
  {
    if s == [] then 0 else SumSigned(s[..|s| - 1]) + Signed(s[|s| - 1])
  }

  /** Sum of the amounts of the transactions flagged `is_debit`. */
  function DebitTotal(s: seq<Transaction>): int
  {
    if s == [] then 0
    else DebitTotal(s[..|s| - 1]) + (if s[|s| - 1].isDebit then s[|s| - 1].amount else 0)
  }
}
