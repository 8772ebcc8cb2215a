/**
 * `stopAndWait` of the Windows controller: ask the service to stop, then poll its state
 * every 50 ms until it is stopped or the timeout expires. Durations are nanoseconds in
 * 64-bit integers, as in Go. Queries take no time and timers fire when they are due.
 */
module ServiceStop {
  import opened Wrappers
  import opened Text

  const MILLISECOND: int := 1000000
  const POLL: int := 50 * MILLISECOND
  const DEFAULT_TIMEOUT: int := 20000 * MILLISECOND

  datatype ServiceState = Stopped | StartPending | StopPending | Running | OtherState(code: nat)

  /** What a call to the service manager answers. */
  datatype Answer = State(state: ServiceState) | Error(code: nat)

  datatype Outcome = Nil | ServiceError(code: nat) | TimedOut

  // ----- the timeout -----

  /** `WaitToKillServiceTimeout` from the registry; `None` when the key or the value cannot be read. */
  type RegistryValue = Option<string>

  /** `defaultServiceStopTimeout`. The product is a 64-bit multiplication. */
  function DefaultServiceStopTimeout(registry: RegistryValue): int {
    match registry
    case None => 0
    case Some(text) =>
      match Atoi(text)
      case None => 0
      case Some(v) => WrapToInt64(MILLISECOND * v)
  }

  /** The timeout that is used, and the duration after which the polling loop gives up. */
  function Timeout(registry: RegistryValue): int {
    var t := DefaultServiceStopTimeout(registry);
    if t == 0 then DEFAULT_TIMEOUT else t
  }

  function GiveUpAfter(registry: RegistryValue): int {
    WrapToInt64(Timeout(registry) + POLL * 2)
  }

  /** The largest number of milliseconds for which no 64-bit operation overflows. */
  const MAX_MILLISECONDS: int := 9223372036754
  const MIN_MILLISECONDS: int := -9223372036854

  lemma WrapIsExact(n: int)
    ensures WrapToInt64(n) == n <==> -TWO_TO_THE_63 <= n < TWO_TO_THE_63
  {
  }

  /** The registry values for which neither the product nor the sum overflows. */
  lemma NoOverflowExactly(v: int)
    ensures (WrapToInt64(MILLISECOND * v) == MILLISECOND * v &&
             WrapToInt64(MILLISECOND * v + POLL * 2) == MILLISECOND * v + POLL * 2)
            <==> MIN_MILLISECONDS <= v <= MAX_MILLISECONDS
  {
  }

  /** In that range the loop gives up exactly 100 ms after the configured timeout, or after 20.1 s for none. */
  lemma GiveUpAfterInRange(registry: RegistryValue)
    ensures match registry
            case None => GiveUpAfter(registry) == 20100 * MILLISECOND
            case Some(text) =>
              match Atoi(text)
              case None => GiveUpAfter(registry) == 20100 * MILLISECOND
              case Some(v) =>
                MIN_MILLISECONDS <= v <= MAX_MILLISECONDS ==>
                  GiveUpAfter(registry) == (if v == 0 then 20100 else v + 100) * MILLISECOND
  {
  }

  const TWO_TO_THE_58: int := 0x400_0000_0000_0000

  /** 15625 is 10^6 / 2^6, which has no factor in common with a power of two. */
  lemma ProductWrapsToZero(v: int)
    ensures WrapToInt64(MILLISECOND * v) == 0 <==> v % TWO_TO_THE_58 == 0
  {
    var product := MILLISECOND * v;
    if WrapToInt64(product) == 0 {
      var k := (product + TWO_TO_THE_63) / TWO_TO_THE_64;
      assert product == k * TWO_TO_THE_64;
      assert 15625 * v == k * TWO_TO_THE_58;
      var m := 76480200929599801 * k - 4146 * v;
      assert v == m * TWO_TO_THE_58;
    }
    if v % TWO_TO_THE_58 == 0 {
      var m := v / TWO_TO_THE_58;
      assert v == m * TWO_TO_THE_58;
      assert product == 15625 * m * TWO_TO_THE_64;
    }
  }

  /** The 20 s default replaces a missing or unreadable value, a zero, and what overflows to zero. */
  lemma DefaultAppliesExactly(registry: RegistryValue)
    ensures DefaultServiceStopTimeout(registry) == 0 <==>
            registry.None? || Atoi(registry.value).None? || Atoi(registry.value).value % TWO_TO_THE_58 == 0
    ensures DefaultServiceStopTimeout(registry) == 0 ==> Timeout(registry) == DEFAULT_TIMEOUT
  {
    if registry.Some? && Atoi(registry.value).Some? {
      ProductWrapsToZero(Atoi(registry.value).value);
    }
  }

  lemma WrapIsIdempotent(a: int, b: int)
    ensures WrapToInt64(WrapToInt64(a) + b) == WrapToInt64(a + b)
  {
    var k := (a + TWO_TO_THE_63) / TWO_TO_THE_64;
    assert WrapToInt64(a) == a - k * TWO_TO_THE_64;
    var q := (a + b + TWO_TO_THE_63) / TWO_TO_THE_64;
    assert WrapToInt64(a) + b + TWO_TO_THE_63 == (q - k) * TWO_TO_THE_64 + (a + b + TWO_TO_THE_63) % TWO_TO_THE_64;
  }

  /**
   * The loop gives up at the configured time plus 100 ms exactly when that sum fits 64 bits
   * and the value is not taken for an absent one. A product that overflows does no harm when
   * the sum overflows back.
   */
  lemma TimeoutIsHonouredExactly(registry: RegistryValue, v: int)
    requires registry.Some? && Atoi(registry.value) == Some(v)
    ensures GiveUpAfter(registry) == (v + 100) * MILLISECOND <==>
            v % TWO_TO_THE_58 != 0 && -TWO_TO_THE_63 <= (v + 100) * MILLISECOND < TWO_TO_THE_63
  {
    DefaultAppliesExactly(registry);
    if v % TWO_TO_THE_58 != 0 {
      WrapIsIdempotent(MILLISECOND * v, POLL * 2);
      WrapIsExact(MILLISECOND * v + POLL * 2);
    }
  }

  /** For a printed positive number this is the range of `NoOverflowExactly`. */
  lemma PositiveTimeoutIsHonouredExactly(v: nat)
    requires 0 < v < TWO_TO_THE_63
    ensures GiveUpAfter(Some(Dec(v))) == (v + 100) * MILLISECOND <==> v <= MAX_MILLISECONDS
  {
    AtoiOfDec(v);
    TimeoutIsHonouredExactly(Some(Dec(v)), v);
  }

  // ----- the loop -----

  /** `time.After` of a duration that is not positive fires at once. */
  function FiresAt(duration: int): nat {
    if duration > 0 then duration else 0
  }

  /**
   * How many ticks are taken before the timeout is. When a tick and the timeout are due at
   * the same moment, `select` takes either of them first: `tickFirst` says which.
   */
  function TicksBefore(duration: int, tickFirst: bool): nat {
    if duration <= 0 then 0
    else if duration % POLL == 0 && !tickFirst then duration / POLL - 1
    else duration / POLL
  }

  /**
   * `stopAndWait`. `control` answers the request to stop, `query(i)` the i-th query; the time
   * counts from the moment the timers are set up. The last answer decides the outcome, all
   * others were states other than Stopped, and a timeout means that all of them were.
   */
  method StopAndWait(control: Answer, query: nat -> Answer, registry: RegistryValue, tickFirst: bool)
    returns (r: Outcome, queries: nat, elapsed: nat)
    ensures var last := if queries == 0 then control else query(queries - 1);
            && (r == Nil <==> last == State(Stopped))
            && (forall code :: r == ServiceError(code) <==> last == Error(code))
            && (r == TimedOut <==> last.State? && last.state != Stopped)
    ensures queries > 0 ==> control.State? && control.state != Stopped
    ensures forall i: nat :: i < queries - 1 ==> query(i).State? && query(i).state != Stopped
    ensures queries <= TicksBefore(GiveUpAfter(registry), tickFirst)
    ensures r != TimedOut ==> elapsed == 50 * MILLISECOND * queries
    ensures r == TimedOut ==>
              queries == TicksBefore(GiveUpAfter(registry), tickFirst) && elapsed == FiresAt(GiveUpAfter(registry))
  {
    queries, elapsed := 0, 0;
    if control.Error? {
      return ServiceError(control.code), 0, 0;
    }
    var status := control.state;
    var giveUp := GiveUpAfter(registry);
    var onTimeout := FiresAt(giveUp);
    while status != Stopped
      invariant queries <= TicksBefore(giveUp, tickFirst)
      invariant elapsed == POLL * queries
      invariant State(status) == if queries == 0 then control else query(queries - 1)
      invariant queries > 0 ==> control.State? && control.state != Stopped
      invariant forall i: nat :: i < queries - 1 ==> query(i).State? && query(i).state != Stopped
      decreases TicksBefore(giveUp, tickFirst) - queries
    {
      var nextTick := POLL * (queries + 1);
      if nextTick < onTimeout || (nextTick == onTimeout && tickFirst) {
        TickIsBefore(giveUp, tickFirst, queries);
        elapsed := nextTick;
        var answer := query(queries);
        queries := queries + 1;
        if answer.Error? {
          return ServiceError(answer.code), queries, elapsed;
        }
        status := answer.state;
      } else {
        TickIsNotBefore(giveUp, tickFirst, queries);
        elapsed := onTimeout;
        return TimedOut, queries, elapsed;
      }
    }
    return Nil, queries, elapsed;
  }

  lemma TickIsBefore(duration: int, tickFirst: bool, n: nat)
    requires POLL * (n + 1) < FiresAt(duration) || (POLL * (n + 1) == FiresAt(duration) && tickFirst)
    ensures n < TicksBefore(duration, tickFirst)
  {
    assert duration / POLL >= n + 1;
  }

  lemma TickIsNotBefore(duration: int, tickFirst: bool, n: nat)
    requires n <= TicksBefore(duration, tickFirst)
    requires !(POLL * (n + 1) < FiresAt(duration) || (POLL * (n + 1) == FiresAt(duration) && tickFirst))
    ensures n == TicksBefore(duration, tickFirst)
  {
  }

  /**
   * The most queries there can be: for a timeout in the range that does not overflow, and for
   * the default.
   */
  lemma PollingBound(registry: RegistryValue, tickFirst: bool)
    ensures DefaultServiceStopTimeout(registry) == 0 ==>
              TicksBefore(GiveUpAfter(registry), tickFirst) == if tickFirst then 402 else 401
    ensures registry.Some? && Atoi(registry.value).Some? ==>
              var v, most := Atoi(registry.value).value, TicksBefore(GiveUpAfter(registry), tickFirst);
              v != 0 && MIN_MILLISECONDS <= v <= MAX_MILLISECONDS ==>
                && most == (if v <= -100 then 0 else if (v + 100) % 50 == 0 && !tickFirst then (v + 100) / 50 - 1
                            else (v + 100) / 50)
                && FiresAt(GiveUpAfter(registry)) == if v < -100 then 0 else (v + 100) * MILLISECOND
  {
    GiveUpAfterInRange(registry);
  }

  lemma AtoiOfDec(v: nat)
    requires v < TWO_TO_THE_63
    ensures Atoi(Dec(v)) == Some(v)
  {
    DecimalValueOfDec(v);
    assert IsDigit(Dec(v)[0]);
  }

  /** A sign changes the value and not what is taken: 2^63 itself only with a minus. */
  lemma AtoiOfSigned(v: int)
    requires v >= 0
    ensures Atoi("-" + Dec(v)) == if v <= TWO_TO_THE_63 then Some(-v) else None
    ensures Atoi("+" + Dec(v)) == Atoi(Dec(v)) == if v < TWO_TO_THE_63 then Some(v) else None
  {
    hide Atoi;
    DecimalValueOfDec(v);
    AtoiWithSign("-", Dec(v));
    AtoiWithSign("+", Dec(v));
    AtoiWithoutSign(Dec(v));
  }

  lemma AtoiWithSign(sign: string, digits: string)
    requires (sign == "-" || sign == "+") && digits != [] && AllDigits(digits)
    ensures var magnitude: int := DecimalValue(digits);
            var value := if sign == "-" then -magnitude else magnitude;
            Atoi(sign + digits) == if -TWO_TO_THE_63 <= value < TWO_TO_THE_63 then Some(value) else None
  {
    hide DecimalValue;
    assert (sign + digits)[1..] == digits;
  }

  lemma AtoiWithoutSign(digits: string)
    requires digits != [] && AllDigits(digits)
    ensures Atoi(digits) == if DecimalValue(digits) < TWO_TO_THE_63 then Some(DecimalValue(digits)) else None
  {
    hide DecimalValue;
    assert IsDigit(digits[0]);
  }

  /**
   * Above the range, up to twice its size, the sum overflows to a negative duration: the loop
   * gives up at once, without a query, although the configured timeout is a very long one.
   */
  lemma OverflowGivesUpAtOnce(v: nat)
    requires MAX_MILLISECONDS < v && (v + 100) * MILLISECOND <= TWO_TO_THE_64
    ensures GiveUpAfter(Some(Dec(v))) < 0
    ensures TicksBefore(GiveUpAfter(Some(Dec(v))), true) == 0 && FiresAt(GiveUpAfter(Some(Dec(v)))) == 0
  {
    AtoiOfDec(v);
    DefaultAppliesExactly(Some(Dec(v)));
    WrapIsIdempotent(MILLISECOND * v, POLL * 2);
    var sum := MILLISECOND * v + POLL * 2;
    assert WrapToInt64(sum) == sum - TWO_TO_THE_64;
  }
}
