/**
 Spending policy and budget-period arithmetic. Three places of the program compute the
 start of the current budget period, each with its own overflow checks and errors:
 the import of a legacy authorization, the usage reading and the payment reservation.
 */
module Budget {
  import opened Types

  datatype Interval = Never | Hourly | Daily | Weekly | Monthly | Yearly

  datatype FeePolicy = CountTowardBudget(maximumFeeSat: nat) | ExcludeForCompatibility

  datatype Policy = Policy(limitSat: nat, interval: Interval, feePolicy: FeePolicy)

  datatype PeriodError = BeforeCreation | OutOfRange

  /** Seconds in one renewable interval. */
  function Duration(interval: Interval): Option<nat> {
    match interval
    case Never => None
    case Hourly => Some(3_600)
    case Daily => Some(86_400)
    case Weekly => Some(604_800)
    case Monthly => Some(2_592_000)
    case Yearly => Some(31_536_000)
  }

  /** The fee held back before a payment starts. */
  function FeeReserve(policy: Policy): nat {
    match policy.feePolicy
    case CountTowardBudget(maximum) => maximum
    case ExcludeForCompatibility => 0
  }

  /** Import and reservation: every step is an overflow-checked u64 operation. */
  function CheckedPeriodStart(interval: Interval, createdAt: nat, now: nat): Result<nat, PeriodError> {
    if now < createdAt then Err(BeforeCreation)
    else match Duration(interval)
      case None => Ok(createdAt)
      case Some(d) =>
        var elapsed := (now - createdAt) / d * d;
        if elapsed > U64_MAX then Err(OutOfRange)
        else if createdAt + elapsed > U64_MAX then Err(OutOfRange)
        else Ok(createdAt + elapsed)
  }

  /** Usage reading: the product is not checked, and wraps as u64 multiplication does. */
  function ReadPeriodStart(interval: Interval, createdAt: nat, now: nat): Result<nat, PeriodError> {
    if now < createdAt then Err(BeforeCreation)
    else match Duration(interval)
      case None => Ok(createdAt)
      case Some(d) =>
        var elapsed := ((now - createdAt) / d * d) % (U64_MAX + 1);
        if createdAt + elapsed > U64_MAX then Err(OutOfRange) else Ok(createdAt + elapsed)
  }

  /** What a period start means: the unique multiple of the interval that covers `now`. */
  ghost predicate StartsPeriod(interval: Interval, createdAt: nat, now: nat, start: nat) {
    match Duration(interval)
    case None => start == createdAt <= now
    case Some(d) => createdAt <= start <= now < start + d && (start - createdAt) % d == 0
  }

  lemma {:induction false} MultipleIsLarge(d: nat, k: nat)
    requires k > 0
    ensures d * k >= d
    decreases k
  {
    if k > 1 {
      MultipleIsLarge(d, k - 1);
      assert d * k == d * (k - 1) + d;
    }
  }

  /** Different multiples are a whole interval apart. */
  lemma MultiplesApart(d: nat, i: int, j: int)
    ensures i < j ==> d * i + d <= d * j
  {
    if i < j {
      MultipleIsLarge(d, j - i);
      assert d * j == d * i + d * (j - i);
    }
  }

  lemma MultipleIsWhole(q: int, d: nat)
    requires d > 0
    ensures q * d % d == 0
  {
    var k, r := q * d / d, q * d % d;
    assert d * q == d * k + r && 0 <= r < d;
    MultiplesApart(d, k, q);
    MultiplesApart(d, q, k);
  }

  /** Two covering multiples of the same interval are the same multiple. */
  lemma PeriodIsUnique(interval: Interval, createdAt: nat, now: nat, a: nat, b: nat)
    requires StartsPeriod(interval, createdAt, now, a)
    requires StartsPeriod(interval, createdAt, now, b)
    ensures a == b
  {
    if interval != Never {
      var d := Duration(interval).value;
      var i, j := (a - createdAt) / d, (b - createdAt) / d;
      assert a - createdAt == d * i && b - createdAt == d * j;
      MultiplesApart(d, i, j);
      MultiplesApart(d, j, i);
    }
  }

  /** Rounding down to whole intervals. */
  lemma RoundDown(x: nat, interval: Interval)
    requires interval != Never
    ensures var d := Duration(interval).value; x / d * d <= x < x / d * d + d && (x / d * d) % d == 0
  {
    var d := Duration(interval).value;
    MultipleIsWhole(x / d, d);
  }

  /**
   For every pair of u64 times with `now` not before creation, all computations return the
   one start that covers `now`, and none of the overflow branches is taken.
   */
  lemma PeriodStartsAgree(interval: Interval, createdAt: nat, now: nat)
    requires now <= U64_MAX
    ensures now < createdAt ==>
      CheckedPeriodStart(interval, createdAt, now) == ReadPeriodStart(interval, createdAt, now) == Err(BeforeCreation)
    ensures createdAt <= now ==>
      CheckedPeriodStart(interval, createdAt, now).Ok?
      && ReadPeriodStart(interval, createdAt, now) == CheckedPeriodStart(interval, createdAt, now)
      && StartsPeriod(interval, createdAt, now, CheckedPeriodStart(interval, createdAt, now).value)
  {
    if createdAt <= now && interval != Never {
      var d := Duration(interval).value;
      var elapsed := (now - createdAt) / d * d;
      RoundDown(now - createdAt, interval);
      assert elapsed <= now - createdAt <= U64_MAX && elapsed % (U64_MAX + 1) == elapsed;
      assert CheckedPeriodStart(interval, createdAt, now) == ReadPeriodStart(interval, createdAt, now) == Ok(createdAt + elapsed);
    }
  }

  /** Two reading times share a period start exactly while the later one is inside the first period. */
  lemma PeriodBoundary(interval: Interval, createdAt: nat, now: nat, later: nat)
    requires createdAt <= now <= later <= U64_MAX
    ensures CheckedPeriodStart(interval, createdAt, now).Ok? && CheckedPeriodStart(interval, createdAt, later).Ok?
    ensures CheckedPeriodStart(interval, createdAt, now).value <= CheckedPeriodStart(interval, createdAt, later).value
    ensures CheckedPeriodStart(interval, createdAt, now) == CheckedPeriodStart(interval, createdAt, later)
       <==> (interval == Never
             || later < CheckedPeriodStart(interval, createdAt, now).value + Duration(interval).value)
  {
    PeriodStartsAgree(interval, createdAt, now);
    PeriodStartsAgree(interval, createdAt, later);
    if interval != Never {
      var d := Duration(interval).value;
      var a, b := CheckedPeriodStart(interval, createdAt, now).value, CheckedPeriodStart(interval, createdAt, later).value;
      if later < a + d {
        PeriodIsUnique(interval, createdAt, later, a, b);
      }
    }
  }
}
