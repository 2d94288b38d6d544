/**
  The aging report: every debit amount goes into one of five buckets by the
  age of its posting date against today; everything that is not a debit is
  left out.
 */
module Aging {
  import opened Transactions

  datatype Bucket = Current | Days1To30 | Days31To60 | Days61To90 | Days90Plus

  /** The age range a bucket covers, as the report's column headings name it. */
  predicate InBucket(daysOld: int, b: Bucket)
  {
    match b
    case Current => daysOld <= 0
    case Days1To30 => 1 <= daysOld <= 30
    case Days31To60 => 31 <= daysOld <= 60
    case Days61To90 => 61 <= daysOld <= 90
    case Days90Plus => 91 <= daysOld
  }

  /** The bucket the cascade of comparisons picks; the one whose range holds the age. */
  function BucketOf(daysOld: int): (b: Bucket)
    ensures InBucket(daysOld, b)
  {
    if daysOld <= 0 then Current
    else if daysOld <= 30 then Days1To30
    else if daysOld <= 60 then Days31To60
    else if daysOld <= 90 then Days61To90
    else Days90Plus
  }

  datatype AgingBuckets = AgingBuckets(current: int, days1To30: int, days31To60: int, days61To90: int, days90Plus: int)

  function Get(a: AgingBuckets, b: Bucket): int
  {
    match b
    case Current => a.current
    case Days1To30 => a.days1To30
    case Days31To60 => a.days31To60
    case Days61To90 => a.days61To90
    case Days90Plus => a.days90Plus
  }

  /** The buckets with `amount` added to bucket b. */
  function Add(a: AgingBuckets, b: Bucket, amount: int): AgingBuckets
  {
    match b
    case Current => a.(current := a.current + amount)
    case Days1To30 => a.(days1To30 := a.days1To30 + amount)
    case Days31To60 => a.(days31To60 := a.days31To60 + amount)
    case Days61To90 => a.(days61To90 := a.days61To90 + amount)
    case Days90Plus => a.(days90Plus := a.days90Plus + amount)
  }

  function Total(a: AgingBuckets): int
  {
    a.current + a.days1To30 + a.days31To60 + a.days61To90 + a.days90Plus
  }

  const Empty := AgingBuckets(0, 0, 0, 0, 0)

  /** Sum of the debit amounts whose age against today falls in bucket b. */
  function BucketTotal(txs: seq<Transaction>, today: int, b: Bucket): int
  {
    if txs == [] then 0
    else
      var t := txs[|txs| - 1];
      BucketTotal(txs[..|txs| - 1], today, b) + (if t.isDebit && BucketOf(today - t.date) == b then t.amount else 0)
  }

  /** The report: each bucket's debit total. */
  function AgingOf(txs: seq<Transaction>, today: int): AgingBuckets
  {
    AgingBuckets(
      BucketTotal(txs, today, Current), BucketTotal(txs, today, Days1To30),
      BucketTotal(txs, today, Days31To60), BucketTotal(txs, today, Days61To90),
      BucketTotal(txs, today, Days90Plus))
  }

  /** Any age lies in exactly one bucket. */
  lemma BucketUnique(daysOld: int, b: Bucket)
    ensures InBucket(daysOld, b) <==> BucketOf(daysOld) == b
  {
  }

  /**
    One more transaction: a debit adds its amount to the one bucket its age
    falls in and leaves the other four alone; anything else changes nothing.
   */
  lemma AgingStep(txs: seq<Transaction>, t: Transaction, today: int)
    ensures AgingOf(txs + [t], today) ==
      if t.isDebit then Add(AgingOf(txs, today), BucketOf(today - t.date), t.amount) else AgingOf(txs, today)
  {
    assert (txs + [t])[..|txs|] == txs;
  }

  /** The five buckets together hold exactly the debit total. */
  lemma {:induction false} AgingComplete(txs: seq<Transaction>, today: int)
    ensures Total(AgingOf(txs, today)) == DebitTotal(txs)
    decreases |txs|
  {
    if txs != [] {
      var init, t := txs[..|txs| - 1], txs[|txs| - 1];
      assert txs == init + [t];
      AgingComplete(init, today);
      AgingStep(init, t, today);
    }
  }

  /** When every transaction is at most 90 days old, the 90+ bucket stays empty. */
  lemma {:induction false} NoAgeBeyondNinety(txs: seq<Transaction>, today: int)
    requires forall i :: 0 <= i < |txs| ==> today - txs[i].date <= 90
    ensures AgingOf(txs, today).days90Plus == 0
    decreases |txs|
  {
    if txs != [] {
      NoAgeBeyondNinety(txs[..|txs| - 1], today);
    }
  }

  /** `calculate_aging`: five counters accumulated over one pass. */
  method CalculateAging(txs: seq<Transaction>, today: int) returns (aging: AgingBuckets)
    ensures aging == AgingOf(txs, today)
    ensures Total(aging) == DebitTotal(txs)
    ensures txs == [] ==> aging == Empty
  {
    var current, days1To30, days31To60, days61To90, days90Plus := 0, 0, 0, 0, 0;
    var i := 0;
    while i < |txs|
      invariant 0 <= i <= |txs|
      invariant AgingBuckets(current, days1To30, days31To60, days61To90, days90Plus) == AgingOf(txs[..i], today)
    {
      var t := txs[i];
      assert txs[..i + 1] == txs[..i] + [t];
      AgingStep(txs[..i], t, today);
      if t.isDebit {
        var daysOld := today - t.date;
        if daysOld <= 0 {
          current := current + t.amount;
        } else if daysOld <= 30 {
          days1To30 := days1To30 + t.amount;
        } else if daysOld <= 60 {
          days31To60 := days31To60 + t.amount;
        } else if daysOld <= 90 {
          days61To90 := days61To90 + t.amount;
        } else {
          days90Plus := days90Plus + t.amount;
        }
      }
      i := i + 1;
    }
    assert txs[..i] == txs;
    aging := AgingBuckets(current, days1To30, days31To60, days61To90, days90Plus);
    AgingComplete(txs, today);
  }
}
