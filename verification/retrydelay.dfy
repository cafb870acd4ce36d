/** The queue's capped exponential delivery delay, over real numbers. */
module RetryDelay {
  import opened Options

  const MAX_RETRY_DELAY := 86_400.0
  const MAX_WAIT := 86_400_000_000

  function Pow(b: real, n: nat): real {
    if n == 0 then 1.0 else b * Pow(b, n - 1)
  }

  function Ceil(x: real): int {
    if x.Floor as real == x then x.Floor else x.Floor + 1
  }

  predicate TakesProduct(log: real -> real, x: real, y: real) {
    x > 0.0 && y > 0.0 ==> log(x * y) == log(x) + log(y)
  }

  predicate KeepsOrder(log: real -> real, x: real, y: real) {
    0.0 < x < y ==> log(x) < log(y)
  }

  /** What the code relies on of `math.log`: products become sums, and order is kept. */
  ghost predicate IsLog(log: real -> real) {
    && (forall x: real, y: real :: TakesProduct(log, x, y))
    && forall x: real, y: real :: KeepsOrder(log, x, y)
  }

  /** The delay in seconds before retry `n`, bounded by its logarithm before it is computed. */
  function Seconds(log: real -> real, delay: real, backoff: real, n: nat): real
    requires n >= 1
  {
    if log(delay) + (n - 1) as real * log(backoff) >= log(MAX_RETRY_DELAY) then MAX_RETRY_DELAY
    else delay * Pow(backoff, n - 1)
  }

  function WaitFor(seconds: real): int {
    var w := Ceil(seconds * 1_000_000.0);
    if w < 1 then 1 else w
  }

  /** `retry_available_at`: the deadline in microseconds, none for a zero delay. */
  function RetryAvailableAt(log: real -> real, now: int, n: nat, delay: real, backoff: real): Option<int>
    requires n >= 1
  {
    if delay == 0.0 then None else Some(now + WaitFor(Seconds(log, delay, backoff, n)))
  }

  /** The delay without the detour through logarithms. */
  function Capped(delay: real, backoff: real, n: nat): real
    requires n >= 1
  {
    var raw := delay * Pow(backoff, n - 1);
    if raw >= MAX_RETRY_DELAY then MAX_RETRY_DELAY else raw
  }

  predicate ValidPolicy(delay: real, backoff: real) {
    0.0 < delay <= MAX_RETRY_DELAY && backoff >= 1.0
  }

  // ---------- Powers ----------

  lemma {:induction false} PowAtLeastOne(b: real, n: nat)
    requires b >= 1.0
    ensures Pow(b, n) >= 1.0
  {
    if n > 0 {
      PowAtLeastOne(b, n - 1);
      assert b * Pow(b, n - 1) >= 1.0 * Pow(b, n - 1);
    }
  }

  lemma PowGrows(b: real, n: nat)
    requires b >= 1.0
    ensures Pow(b, n) <= Pow(b, n + 1)
  {
    PowAtLeastOne(b, n);
    assert b * Pow(b, n) >= 1.0 * Pow(b, n);
  }

  /** Bernoulli's inequality. */
  lemma {:induction false} Bernoulli(b: real, n: nat)
    requires b >= 1.0
    ensures Pow(b, n) >= 1.0 + n as real * (b - 1.0)
  {
    if n > 0 {
      Bernoulli(b, n - 1);
      PowAtLeastOne(b, n - 1);
      var p := Pow(b, n - 1);
      assert (b - 1.0) * p >= (b - 1.0) * 1.0;
      assert b * p == p + (b - 1.0) * p;
      assert n as real * (b - 1.0) == (n - 1) as real * (b - 1.0) + (b - 1.0);
    }
  }

  lemma {:induction false} LogOfPow(log: real -> real, b: real, n: nat)
    requires IsLog(log) && b >= 1.0
    ensures log(Pow(b, n)) == n as real * log(b)
  {
    if n == 0 {
      assert TakesProduct(log, 1.0, 1.0);
    } else {
      LogOfPow(log, b, n - 1);
      PowAtLeastOne(b, n - 1);
      assert TakesProduct(log, b, Pow(b, n - 1));
      assert n as real * log(b) == (n - 1) as real * log(b) + log(b);
    }
  }

  // ---------- The logarithmic cap ----------

  lemma LogOfRaw(log: real -> real, delay: real, p: real, power: real)
    requires IsLog(log) && delay > 0.0 && p >= 1.0 && log(p) == power
    ensures delay * p > 0.0 && log(delay * p) == log(delay) + power
  {
    assert TakesProduct(log, delay, p);
  }

  /** The early cap is exact: it applies just when the delay reaches the cap, so it never cuts
      a delay that is below it. */
  lemma LogCapIsExact(log: real -> real, delay: real, backoff: real, n: nat)
    requires IsLog(log) && ValidPolicy(delay, backoff) && n >= 1
    ensures Seconds(log, delay, backoff, n) == Capped(delay, backoff, n)
  {
    var m: nat := n - 1;
    var p, power := Pow(backoff, m), m as real * log(backoff);
    PowAtLeastOne(backoff, m);
    LogOfPow(log, backoff, m);
    LogOfRaw(log, delay, p, power);
    LogOrder(log, delay * p, MAX_RETRY_DELAY);
    assert log(delay) + (n - 1) as real * log(backoff) == log(delay * p);
  }

  lemma LogOrder(log: real -> real, x: real, y: real)
    requires IsLog(log) && x > 0.0 && y > 0.0
    ensures log(x) >= log(y) <==> x >= y
  {
    assert KeepsOrder(log, x, y) && KeepsOrder(log, y, x);
  }

  // ---------- The wait ----------

  /** The least whole number that is not below. */
  lemma CeilMeans(x: real)
    ensures Ceil(x) as real - 1.0 < x <= Ceil(x) as real
  {
  }

  lemma {:induction false} PowAdds(b: real, m: nat, n: nat)
    ensures Pow(b, m + n) == Pow(b, m) * Pow(b, n) && Pow(b, 1) == b
  {
    assert Pow(b, 1) == b * Pow(b, 0);
    if m > 0 {
      PowAdds(b, m - 1, n);
    }
  }

  /** The scheduled retry in numbers: none exactly for a zero delay, and otherwise the first whole
      microsecond, at least one, that is not before the delay or the day-long cap is over. */
  lemma RetryIsDue(log: real -> real, now: int, delay: real, backoff: real, n: nat)
    requires IsLog(log) && 0.0 <= delay <= 86_400.0 && backoff >= 1.0 && n >= 1
    ensures RetryAvailableAt(log, now, n, delay, backoff).None? <==> delay == 0.0
    ensures delay > 0.0 ==>
              var wait := RetryAvailableAt(log, now, n, delay, backoff).value - now;
              var raw := delay * Pow(backoff, n - 1);
              var seconds := if raw >= 86_400.0 then 86_400.0 else raw;
              && 1 <= wait <= 86_400_000_000
              && seconds * 1_000_000.0 <= wait as real
              && (wait > 1 ==> (wait - 1) as real < seconds * 1_000_000.0)
  {
    if delay > 0.0 {
      WaitIsCapped(log, now, delay, backoff, n);
      CeilMeans(Capped(delay, backoff, n) * 1_000_000.0);
    }
  }

  lemma CeilMonotone(x: real, y: real)
    requires x <= y
    ensures Ceil(x) <= Ceil(y)
  {
  }

  lemma CappedGrows(delay: real, backoff: real, n: nat)
    requires ValidPolicy(delay, backoff) && n >= 1
    ensures 0.0 < Capped(delay, backoff, n) <= Capped(delay, backoff, n + 1) <= MAX_RETRY_DELAY
  {
    var p, q := Pow(backoff, n - 1), Pow(backoff, n);
    PowAtLeastOne(backoff, n - 1);
    PowGrows(backoff, n - 1);
    assert delay * p <= delay * q;
    assert delay * p > 0.0;
  }

  /** The scheduled wait is max(1, ceil(10^6 * min(86400, delay * backoff^(n-1)))) microseconds. */
  lemma WaitIsCapped(log: real -> real, now: int, delay: real, backoff: real, n: nat)
    requires IsLog(log) && ValidPolicy(delay, backoff) && n >= 1
    ensures RetryAvailableAt(log, now, n, delay, backoff) == Some(now + WaitFor(Capped(delay, backoff, n)))
    ensures 1 <= WaitFor(Capped(delay, backoff, n)) <= MAX_WAIT
  {
    LogCapIsExact(log, delay, backoff, n);
    CappedGrows(delay, backoff, n);
    CeilMonotone(Capped(delay, backoff, n) * 1_000_000.0, MAX_RETRY_DELAY * 1_000_000.0);
    assert Ceil(MAX_RETRY_DELAY * 1_000_000.0) == MAX_WAIT;
  }

  /** Later retries never wait less. */
  lemma {:induction false} WaitGrows(delay: real, backoff: real, m: nat, n: nat)
    requires ValidPolicy(delay, backoff) && 1 <= m <= n
    ensures WaitFor(Capped(delay, backoff, m)) <= WaitFor(Capped(delay, backoff, n))
    decreases n
  {
    if m < n {
      WaitGrows(delay, backoff, m, n - 1);
      CappedGrows(delay, backoff, n - 1);
      CeilMonotone(Capped(delay, backoff, n - 1) * 1_000_000.0, Capped(delay, backoff, n) * 1_000_000.0);
    }
  }

  lemma RawReachesCap(delay: real, backoff: real) returns (n: nat)
    requires ValidPolicy(delay, backoff) && backoff > 1.0
    ensures n >= 1 && Capped(delay, backoff, n) == MAX_RETRY_DELAY
  {
    var step := delay * (backoff - 1.0);
    assert step > 0.0;
    var k: nat := (MAX_RETRY_DELAY / step).Floor + 1;
    assert k as real >= MAX_RETRY_DELAY / step;
    assert k as real * step >= MAX_RETRY_DELAY / step * step;
    Bernoulli(backoff, k);
    assert delay * Pow(backoff, k) >= delay * (1.0 + k as real * (backoff - 1.0));
    assert delay * (1.0 + k as real * (backoff - 1.0)) == delay + k as real * step;
    n := k + 1;
  }

  /** With a growing backoff the wait is at the cap from some retry on. */
  lemma WaitEndsAtCap(delay: real, backoff: real) returns (first: nat)
    requires ValidPolicy(delay, backoff) && backoff > 1.0
    ensures first >= 1 && forall n :: n >= first ==> WaitFor(Capped(delay, backoff, n)) == MAX_WAIT
  {
    first := RawReachesCap(delay, backoff);
    assert WaitFor(MAX_RETRY_DELAY) == MAX_WAIT;
    forall n: nat | n >= first ensures WaitFor(Capped(delay, backoff, n)) == MAX_WAIT {
      WaitGrows(delay, backoff, first, n);
      CappedGrows(delay, backoff, n);
      CeilMonotone(Capped(delay, backoff, n) * 1_000_000.0, MAX_RETRY_DELAY * 1_000_000.0);
    }
  }

  // ---------- The configured policy ----------

  /** A configured number as it may turn up. */
  datatype Setting = Missing | NotNumeric | NotFinite | Number(value: real)

  datatype PolicyError = WrongType(key: nat) | OutOfRange(key: nat)

  predicate SettingOk(s: Setting, key: nat) {
    s.Missing? || (s.Number? && s.value >= (if key == 0 then 0.0 else 1.0) && (key == 0 ==> s.value <= MAX_RETRY_DELAY))
  }

  /** `retry_policy`: the delay (key 0) and the backoff (key 1), defaulted and range-checked
      in that order. */
  method RetryPolicy(settings: seq<Setting>) returns (r: Result<(real, real), PolicyError>)
    requires |settings| == 2
    ensures r.Success? <==>
            && (settings[0].Missing? || (settings[0].Number? && 0.0 <= settings[0].value <= 86_400.0))
            && (settings[1].Missing? || (settings[1].Number? && settings[1].value >= 1.0))
    ensures r.Success? ==> (r.value.0 == 0.0 || ValidPolicy(r.value.0, r.value.1)) && r.value.1 >= 1.0
    ensures r.Success? ==> r.value == (if settings[0].Missing? then 1.0 else settings[0].value,
                                       if settings[1].Missing? then 2.0 else settings[1].value)
    ensures r.Failure? ==> r.error.key == (if SettingOk(settings[0], 0) then 1 else 0)
    ensures r.Failure? ==> (r.error.WrongType? <==> settings[r.error.key].NotNumeric?)
  {
    var values: seq<real> := [];
    var defaults, minimums := [1.0, 2.0], [0.0, 1.0];
    for key := 0 to 2
      invariant |values| == key
      invariant forall k :: 0 <= k < key ==> SettingOk(settings[k], k)
      invariant forall k :: 0 <= k < key ==> values[k] == if settings[k].Missing? then defaults[k] else settings[k].value
    {
      var value := settings[key];
      if value.NotNumeric? {
        return Failure(WrongType(key));
      }
      if value.NotFinite? {
        return Failure(OutOfRange(key));
      }
      var number := if value.Missing? then defaults[key] else value.value;
      if number < minimums[key] {
        return Failure(OutOfRange(key));
      }
      if key == 0 && number > MAX_RETRY_DELAY {
        return Failure(OutOfRange(key));
      }
      values := values + [number];
    }
    r := Success((values[0], values[1]));
  }
}
