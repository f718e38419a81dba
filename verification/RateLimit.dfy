/**
 The per-user rate limiter (services/api/app/core/rate_limit.py): a Lua script that
 keeps one theoretical arrival time (TAT) per key, the virtual-scheduling form of the
 Generic Cell Rate Algorithm of section 4.4.2 of the ATM Forum Traffic Management
 Specification 4.0.  The period is any positive real number of milliseconds, because
 the callers divide a window by a request count; the clock is in whole milliseconds.
 */
module RateLimit {
  import opened Options

  // ---------- the script ----------

  /** Admit carries the new TAT and the PX argument, Refuse the integer reply. */
  datatype Verdict = Admit(tat: real, px: int) | Refuse(wait: int)

  function Ceil(x: real): int {
    -(-x).Floor
  }

  /** k * period, as repeated addition so that proofs about runs stay linear. */
  function Times(k: int, period: real): real
    decreases if k < 0 then -k else k
  {
    if k == 0 then 0.0
    else if k > 0 then Times(k - 1, period) + period
    else Times(k + 1, period) - period
  }

  lemma {:induction false} TimesIsProduct(k: int, period: real)
    ensures Times(k, period) == k as real * period
    decreases if k < 0 then -k else k
  {
    if k > 0 {
      TimesIsProduct(k - 1, period);
      assert k as real * period == (k - 1) as real * period + period;
    } else if k < 0 {
      TimesIsProduct(k + 1, period);
      assert k as real * period == (k + 1) as real * period - period;
    }
  }

  function Product(k: int, period: real): (r: real)
    ensures r == Times(k, period)
  {
    TimesIsProduct(k, period);
    k as real * period
  }

  lemma {:induction false} TimesSum(j: int, k: int, period: real)
    ensures Times(j + k, period) == Times(j, period) + Times(k, period)
    decreases if k < 0 then -k else k
  {
    if k > 0 {
      TimesSum(j, k - 1, period);
    } else if k < 0 {
      TimesSum(j, k + 1, period);
    }
  }

  lemma {:induction false} TimesSign(k: int, period: real)
    requires period > 0.0
    ensures k > 0 ==> Times(k, period) >= period
    ensures k < 0 ==> Times(k, period) <= -period
    decreases if k < 0 then -k else k
  {
    if k > 1 {
      TimesSign(k - 1, period);
    } else if k < -1 {
      TimesSign(k + 1, period);
    }
  }

  function Clamped(stored: Option<real>, now: int): real {
    if stored.Some? && stored.value >= now as real then stored.value else now as real
  }

  /** How far the key is from admitting, as the unrounded allow_at - now of the script. */
  function Shortfall(stored: Option<real>, now: int, period: real, burst: int): real {
    Clamped(stored, now) - Times(burst - 1, period) - now as real
  }

  function Script(stored: Option<real>, now: int, period: real, burst: int): Verdict {
    if Shortfall(stored, now, period, burst) > 0.0 then
      Refuse(Shortfall(stored, now, period, burst).Floor)
    else
      var tat := Clamped(stored, now) + period;
      Admit(tat, Ceil(tat - now as real))
  }

  /** One Redis key: the stored TAT and the time from which Redis may drop it. */
  class RateKey {
    var stored: Option<real>
    var deadline: int

    constructor ()
      ensures stored == None
    {
      stored, deadline := None, 0;
    }

    /** The Lua script, run atomically.  A refusal changes nothing. */
    method Attempt(now: int, period: real, burst: int) returns (allowed: bool, wait: int)
      modifies this
      ensures allowed == Script(old(stored), now, period, burst).Admit?
      ensures allowed ==>
                && wait == 0
                && stored == Some(Script(old(stored), now, period, burst).tat)
                && deadline == now + Script(old(stored), now, period, burst).px
                && deadline as real - 1.0 < stored.value <= deadline as real
      ensures !allowed ==>
                && wait == Script(old(stored), now, period, burst).wait
                && stored == old(stored)
                && deadline == old(deadline)
    {
      var tat: real := now as real;
      if stored.Some? {
        tat := stored.value;
      }
      if tat < now as real {
        tat := now as real;
      }
      var allowAt := tat - Product(burst - 1, period);
      if (now as real) < allowAt {
        return false, (allowAt - now as real).Floor;
      }
      var newTat := tat + period;
      stored := Some(newTat);
      deadline := now + Ceil(newTat - now as real);
      return true, 0;
    }

    /** Redis may drop the key at any moment from its deadline on. */
    method Lapse(now: int)
      requires deadline <= now
      modifies this
      ensures stored == None && deadline == old(deadline)
    {
      stored := None;
    }
  }

  /** Seconds promised in the Retry-After header for a refusal of `wait` milliseconds. */
  function RetryAfter(wait: int): int {
    var seconds := Ceil(wait as real / 1000.0);
    if seconds > 1 then seconds else 1
  }

  // ---------- runs of one key that never lapses ----------

  ghost predicate Chronological(times: seq<int>) {
    forall i, j :: 0 <= i <= j < |times| ==> times[i] <= times[j]
  }

  function Advance(stored: Option<real>, now: int, period: real, burst: int): Option<real> {
    match Script(stored, now, period, burst)
    case Admit(tat, _) => Some(tat)
    case Refuse(_) => stored
  }

  /** The stored TAT after the first n requests, starting from `start`. */
  function After(start: Option<real>, times: seq<int>, n: nat, period: real, burst: int): Option<real>
    requires n <= |times|
  {
    if n == 0 then start
    else Advance(After(start, times, n - 1, period, burst), times[n - 1], period, burst)
  }

  predicate Allowed(start: Option<real>, times: seq<int>, i: nat, period: real, burst: int)
    requires i < |times|
  {
    Script(After(start, times, i, period, burst), times[i], period, burst).Admit?
  }

  /** The number of admitted requests among those numbered lo to hi - 1. */
  function Count(start: Option<real>, times: seq<int>, lo: nat, hi: nat, period: real, burst: int): nat
    requires lo <= hi <= |times|
  {
    if lo == hi then 0
    else Count(start, times, lo, hi - 1, period, burst)
         + if Allowed(start, times, hi - 1, period, burst) then 1 else 0
  }

  // ---------- window bound ----------

  lemma {:induction false} CountBuildsDebt(start: Option<real>, times: seq<int>, lo: nat, hi: nat, period: real,
                                           burst: int)
    requires Chronological(times) && period > 0.0 && burst >= 1
    requires lo < hi <= |times|
    ensures var c := Count(start, times, lo, hi, period, burst);
            && (c > 0 ==> After(start, times, hi, period, burst).Some?
                          && After(start, times, hi, period, burst).value >= times[lo] as real + Times(c, period))
            && Times(c - burst, period) <= (times[hi - 1] - times[lo]) as real
  {
    var c := Count(start, times, lo, hi - 1, period, burst);
    if lo < hi - 1 {
      CountBuildsDebt(start, times, lo, hi - 1, period, burst);
    } else {
      TimesSign(-burst, period);
    }
    if Allowed(start, times, hi - 1, period, burst) {
      AdmissionNeedsRoom(After(start, times, hi - 1, period, burst), c, times[lo], times[hi - 1], period, burst);
    }
  }

  lemma AdmissionNeedsRoom(stored: Option<real>, c: nat, first: int, now: int, period: real, burst: int)
    requires period > 0.0 && first <= now
    requires c > 0 ==> stored.Some? && stored.value >= first as real + Times(c, period)
    requires Script(stored, now, period, burst).Admit?
    ensures Advance(stored, now, period, burst).value >= first as real + Times(c + 1, period)
    ensures Times(c + 1 - burst, period) <= (now - first) as real
  {
    TimesSum(c, 1, period);
    TimesSum(c + 1 - burst, burst - 1, period);
  }

  /** In every window of length L at most burst + floor(L / period) requests are admitted. */
  lemma WindowBound(start: Option<real>, times: seq<int>, lo: nat, hi: nat, length: int, period: real, burst: int)
    requires Chronological(times) && period > 0.0 && burst >= 1
    requires lo < hi <= |times| && times[hi - 1] - times[lo] <= length
    ensures Count(start, times, lo, hi, period, burst) <= burst + (length as real / period).Floor
  {
    CountBuildsDebt(start, times, lo, hi, period, burst);
    FloorCovers(Count(start, times, lo, hi, period, burst) - burst, period, length as real);
  }

  lemma FloorCovers(k: int, period: real, length: real)
    requires period > 0.0 && Times(k, period) <= length
    ensures k <= (length / period).Floor
  {
    TimesIsProduct(k, period);
    QuotientCovers(k as real, period, length);
  }

  lemma QuotientCovers(x: real, period: real, length: real)
    requires period > 0.0 && x * period <= length
    ensures x <= length / period
  {
    var q := length / period;
    assert q * period == length;
    assert (q - x) * period >= 0.0;
  }

  // ---------- which request streams are admitted whole ----------

  /** Every window of the stream keeps to the bound, counted in whole periods. */
  ghost predicate Conforms(times: seq<int>, period: real, burst: int) {
    forall i, j :: 0 <= i <= j < |times| ==> Times(j - i + 1 - burst, period) <= (times[j] - times[i]) as real
  }

  ghost predicate AllAllowed(times: seq<int>, n: nat, period: real, burst: int)
    requires n <= |times|
  {
    forall i :: 0 <= i < n ==> Allowed(None, times, i, period, burst)
  }

  /** While everything is admitted, the TAT is the latest time a served request still owes. */
  lemma {:induction false} TatIsLatestDebt(times: seq<int>, n: nat, period: real, burst: int) returns (k: nat)
    requires Chronological(times) && period > 0.0 && 0 < n <= |times|
    requires AllAllowed(times, n, period, burst)
    ensures k < n && After(None, times, n, period, burst) == Some(times[k] as real + Times(n - k, period))
    ensures forall i :: 0 <= i < n ==>
                          times[i] as real + Times(n - i, period) <= After(None, times, n, period, burst).value
  {
    k := n - 1;
    assert Allowed(None, times, n - 1, period, burst);
    var tat := After(None, times, n, period, burst).value;
    if n > 1 {
      var k' := TatIsLatestDebt(times, n - 1, period, burst);
      if Clamped(After(None, times, n - 1, period, burst), times[n - 1]) != times[n - 1] as real {
        k := k';
      }
      TimesSum(n - 1 - k', 1, period);
      forall i | 0 <= i < n
        ensures times[i] as real + Times(n - i, period) <= tat
      {
        TimesSum(n - 1 - i, 1, period);
      }
    }
  }

  /** From an empty key a stream is admitted in full exactly when it conforms. */
  lemma AdmittedWholeIffConforms(times: seq<int>, period: real, burst: int)
    requires Chronological(times) && period > 0.0
    ensures AllAllowed(times, |times|, period, burst) <==> Conforms(times, period, burst)
  {
    if AllAllowed(times, |times|, period, burst) {
      forall i, j | 0 <= i <= j < |times|
        ensures Times(j - i + 1 - burst, period) <= (times[j] - times[i]) as real
      {
        AllowedLeavesRoom(times, i, j, period, burst);
      }
    }
    if Conforms(times, period, burst) {
      ConformingIsAllowed(times, |times|, period, burst);
    }
  }

  lemma AllowedLeavesRoom(times: seq<int>, i: nat, j: nat, period: real, burst: int)
    requires Chronological(times) && period > 0.0 && i <= j < |times|
    requires AllAllowed(times, |times|, period, burst)
    ensures Times(j - i + 1 - burst, period) <= (times[j] - times[i]) as real
  {
    assert Allowed(None, times, j, period, burst);
    if i < j {
      var _ := TatIsLatestDebt(times, j, period, burst);
    }
    TimesSum(j - i + 1 - burst, burst - 1, period);
  }

  lemma ConformsAt(times: seq<int>, i: nat, j: nat, period: real, burst: int)
    requires Conforms(times, period, burst) && i <= j < |times|
    ensures Times(j - i + 1 - burst, period) <= (times[j] - times[i]) as real
  {
  }

  lemma {:induction false} ConformingIsAllowed(times: seq<int>, n: nat, period: real, burst: int)
    requires Chronological(times) && period > 0.0 && n <= |times|
    requires Conforms(times, period, burst)
    ensures AllAllowed(times, n, period, burst)
  {
    if n > 0 {
      var j := n - 1;
      ConformingIsAllowed(times, j, period, burst);
      ConformsAt(times, j, j, period, burst);
      var k := j;
      if j > 0 {
        k := TatIsLatestDebt(times, j, period, burst);
        ConformsAt(times, k, j, period, burst);
      }
      RoomAdmits(After(None, times, j, period, burst), times[k], j - k, times[j], period, burst);
    }
  }

  lemma RoomAdmits(stored: Option<real>, first: int, k: nat, now: int, period: real, burst: int)
    requires period > 0.0 && Times(1 - burst, period) <= 0.0
    requires stored.Some? ==> stored.value == first as real + Times(k, period)
    requires Times(k + 1 - burst, period) <= (now - first) as real
    ensures Script(stored, now, period, burst).Admit?
  {
    TimesSum(1 - burst, burst - 1, period);
    TimesSum(k + 1 - burst, burst - 1, period);
  }

  // ---------- the wait a refusal reports ----------

  /** A refused request, retried with nothing admitted meanwhile, is admitted exactly from the shortfall on. */
  lemma AdmittedFromShortfallOn(stored: Option<real>, now: int, later: int, period: real, burst: int)
    requires period > 0.0 && burst >= 1 && now <= later
    requires Script(stored, now, period, burst).Refuse?
    ensures Script(stored, later, period, burst).Admit?
            <==> (later - now) as real >= Shortfall(stored, now, period, burst)
  {
    TimesSign(burst - 1, period);
  }

  /** For periods of whole milliseconds the reported wait is the exact least wait. */
  lemma ReportedWaitIsLeast(times: seq<int>, now: int, later: int, period: int, burst: int)
    requires period > 0 && burst >= 1 && now <= later
    requires Script(After(None, times, |times|, period as real, burst), now, period as real, burst).Refuse?
    ensures var stored := After(None, times, |times|, period as real, burst);
            Script(stored, later, period as real, burst).Admit?
            <==> later >= now + Script(stored, now, period as real, burst).wait
  {
    var stored := After(None, times, |times|, period as real, burst);
    var tat := WholeTat(times, |times|, period, burst);
    var credit := WholeTimes(burst - 1, period);
    assert Shortfall(stored, now, period as real, burst)
        == ((if stored.Some? && tat >= now then tat else now) - credit - now) as real;
    AdmittedFromShortfallOn(stored, now, later, period as real, burst);
  }

  lemma {:induction false} WholeTimes(k: int, period: int) returns (product: int)
    ensures Times(k, period as real) == product as real
    decreases if k < 0 then -k else k
  {
    product := 0;
    if k > 0 {
      product := WholeTimes(k - 1, period);
      product := product + period;
    } else if k < 0 {
      product := WholeTimes(k + 1, period);
      product := product - period;
    }
  }

  lemma {:induction false} WholeTat(times: seq<int>, n: nat, period: int, burst: int) returns (tat: int)
    requires n <= |times|
    ensures var stored := After(None, times, n, period as real, burst);
            stored.Some? ==> stored.value == tat as real
  {
    tat := 0;
    if n > 0 {
      tat := WholeTat(times, n - 1, period, burst);
      var before := After(None, times, n - 1, period as real, burst);
      if Script(before, times[n - 1], period as real, burst).Admit? {
        tat := (if before.Some? && tat >= times[n - 1] then tat else times[n - 1]) + period;
      }
    }
  }

  /**
   The Retry-After header covers the wait unless the shortfall was cut down to a
   positive multiple of a second: the script truncates before the caller rounds up.
   */
  lemma RetryAfterCoversIff(stored: Option<real>, now: int, period: real, burst: int)
    requires period > 0.0 && burst >= 1
    requires Script(stored, now, period, burst).Refuse?
    ensures var wait := Script(stored, now, period, burst).wait;
            Script(stored, now + 1000 * RetryAfter(wait), period, burst).Admit?
            <==> wait == 0 || wait % 1000 != 0 || Shortfall(stored, now, period, burst) == wait as real
  {
    var wait := Script(stored, now, period, burst).wait;
    WholeSeconds(wait);
    AdmittedFromShortfallOn(stored, now, now + 1000 * RetryAfter(wait), period, burst);
  }

  lemma WholeSeconds(wait: int)
    requires wait >= 0
    ensures if wait > 0 && wait % 1000 == 0 then 1000 * RetryAfter(wait) == wait
            else 1000 * RetryAfter(wait) > wait
  {
    var seconds := Ceil(wait as real / 1000.0);
    assert wait <= 1000 * seconds < wait + 1000;
  }

  /** Waiting out the header is enough, whatever requests came before and whenever the refusal comes. */
  ghost predicate HeaderAlwaysCovers(period: real, burst: int) {
    forall times: seq<int>, now: int | Chronological(times) && (times != [] ==> times[|times| - 1] <= now) ::
      CoversAt(After(None, times, |times|, period, burst), now, period, burst)
  }

  predicate CoversAt(stored: Option<real>, now: int, period: real, burst: int) {
    match Script(stored, now, period, burst)
    case Admit(_, _) => true
    case Refuse(wait) => Script(stored, now + 1000 * RetryAfter(wait), period, burst).Admit?
  }

  /**
   The header can be trusted exactly for settings whose period is at most a second or a whole number
   of milliseconds: the script cuts its reply to whole milliseconds before the caller rounds up.
   */
  lemma HeaderCoversIffPeriodFits(period: real, burst: int)
    requires period > 0.0 && burst >= 1
    ensures HeaderAlwaysCovers(period, burst) <==> period <= 1000.0 || period == period.Floor as real
  {
    if period <= 1000.0 || period == period.Floor as real {
      forall times: seq<int>, now: int | Chronological(times) && (times != [] ==> times[|times| - 1] <= now)
        ensures CoversAt(After(None, times, |times|, period, burst), now, period, burst)
      {
        if period <= 1000.0 {
          ShortPeriodCovers(times, now, period, burst);
        } else {
          WholePeriodCovers(times, now, period.Floor, burst);
        }
      }
    } else {
      var times := FullBurst(period, burst);
      assert !CoversAt(After(None, times, |times|, period, burst), period.Floor - 1000, period, burst);
    }
  }

  /** No stored value is ever more than a full burst ahead of the last request. */
  lemma {:induction false} AtMostABurstAhead(times: seq<int>, n: nat, period: real, burst: int)
    requires Chronological(times) && period > 0.0 && burst >= 1 && 0 < n <= |times|
    ensures After(None, times, n, period, burst).Some?
    ensures After(None, times, n, period, burst).value <= times[n - 1] as real + Times(burst, period)
  {
    TimesSum(burst - 1, 1, period);
    TimesSign(burst, period);
    if n > 1 {
      AtMostABurstAhead(times, n - 1, period, burst);
    } else {
      assert After(None, times, 0, period, burst) == None;
      TimesSign(burst - 1, period);
    }
  }

  lemma ShortfallIsAtMostAPeriod(times: seq<int>, now: int, period: real, burst: int)
    requires Chronological(times) && (times != [] ==> times[|times| - 1] <= now)
    requires period > 0.0 && burst >= 1
    ensures Shortfall(After(None, times, |times|, period, burst), now, period, burst) <= period
  {
    TimesSum(burst - 1, 1, period);
    TimesSign(burst - 1, period);
    if times != [] {
      AtMostABurstAhead(times, |times|, period, burst);
    }
  }

  lemma ShortPeriodCovers(times: seq<int>, now: int, period: real, burst: int)
    requires Chronological(times) && (times != [] ==> times[|times| - 1] <= now)
    requires 0.0 < period <= 1000.0 && burst >= 1
    ensures CoversAt(After(None, times, |times|, period, burst), now, period, burst)
  {
    var stored := After(None, times, |times|, period, burst);
    ShortfallIsAtMostAPeriod(times, now, period, burst);
    if Script(stored, now, period, burst).Refuse? {
      RetryAfterCoversIff(stored, now, period, burst);
    }
  }

  lemma WholePeriodCovers(times: seq<int>, now: int, period: int, burst: int)
    requires period > 0 && burst >= 1
    ensures CoversAt(After(None, times, |times|, period as real, burst), now, period as real, burst)
  {
    var stored := After(None, times, |times|, period as real, burst);
    if Script(stored, now, period as real, burst).Refuse? {
      var tat := WholeTat(times, |times|, period, burst);
      var credit := WholeTimes(burst - 1, period);
      assert Shortfall(stored, now, period as real, burst)
          == ((if stored.Some? && tat >= now then tat else now) - credit - now) as real;
      RetryAfterCoversIff(stored, now, period as real, burst);
    }
  }

  /** A burst at time 0, and a refusal just over a second before the next admission. */
  lemma FullBurst(period: real, burst: int) returns (times: seq<int>)
    requires period > 1000.0 && period != period.Floor as real && burst >= 1
    ensures Chronological(times) && times != [] && times[|times| - 1] <= period.Floor - 1000
    ensures !CoversAt(After(None, times, |times|, period, burst), period.Floor - 1000, period, burst)
  {
    times := seq(burst, _ => 0);
    BurstIsAdmitted(times, burst, period, burst);
    TimesSum(burst - 1, 1, period);
    TimesSign(burst - 1, period);
    var now := period.Floor - 1000;
    var stored := After(None, times, |times|, period, burst);
    assert Shortfall(stored, now, period, burst) == period - now as real;
    assert Script(stored, now, period, burst) == Refuse(1000);
    assert RetryAfter(1000) == 1;
  }

  lemma {:induction false} BurstIsAdmitted(times: seq<int>, n: nat, period: real, burst: int)
    requires period > 0.0 && 0 < n <= |times| == burst && forall i :: 0 <= i < |times| ==> times[i] == 0
    ensures After(None, times, n, period, burst) == Some(Times(n, period))
  {
    if n > 1 {
      BurstIsAdmitted(times, n - 1, period, burst);
      TimesSum(burst - n, n - 1, period);
      TimesSign(burst - n, period);
      TimesSign(n - 1, period);
    } else {
      assert After(None, times, 0, period, burst) == None && Times(0, period) == 0.0;
      TimesSign(burst - 1, period);
    }
  }

  /** The header never promises a whole second more than the wait, except that it promises at least one. */
  lemma HeaderIsTight(wait: int)
    requires wait >= 0
    ensures RetryAfter(wait) >= 1 && 1000 * RetryAfter(wait) >= wait
    ensures RetryAfter(wait) > 1 ==> 1000 * RetryAfter(wait) < wait + 1000
  {
    WholeSeconds(wait);
    var seconds := Ceil(wait as real / 1000.0);
    assert wait <= 1000 * seconds < wait + 1000;
  }

  /** With 7 requests a minute and no burst, waiting out the header can be refused again. */
  lemma RetryAfterCanFallShort()
    ensures var period := 60000.0 / 7.0;
            var stored := After(None, [0], 1, period, 1);
            && Script(stored, 571, period, 1) == Refuse(8000)
            && RetryAfter(8000) == 8
            && Script(stored, 571 + 8000, period, 1).Refuse?
  {
    var period := 60000.0 / 7.0;
    assert After(None, [0], 0, period, 1) == None;
    assert Times(0, period) == 0.0;
    assert After(None, [0], 1, period, 1) == Some(period);
  }

  // ---------- expiry of the key cannot be seen ----------

  datatype Key = Key(stored: Option<real>, deadline: int)

  datatype Event = Request(now: int) | Drop(now: int)

  /** The key after an event, as the methods of RateKey leave it; Redis keeps keys before their deadline. */
  function Next(key: Key, e: Event, period: real, burst: int): Key {
    match e
    case Drop(now) => if key.deadline <= now then key.(stored := None) else key
    case Request(now) =>
      match Script(key.stored, now, period, burst)
      case Admit(tat, px) => Key(Some(tat), now + px)
      case Refuse(_) => key
  }

  function Verdicts(key: Key, events: seq<Event>, period: real, burst: int): seq<Verdict>
    decreases |events|
  {
    if events == [] then []
    else
      var rest := Verdicts(Next(key, events[0], period, burst), events[1..], period, burst);
      match events[0]
      case Drop(_) => rest
      case Request(now) => [Script(key.stored, now, period, burst)] + rest
  }

  function Requests(events: seq<Event>): seq<Event> {
    if events == [] then []
    else if events[0].Drop? then Requests(events[1..])
    else [events[0]] + Requests(events[1..])
  }

  predicate Ordered(events: seq<Event>, clock: int) {
    events == [] || (clock <= events[0].now && Ordered(events[1..], events[0].now))
  }

  /** From `clock` on both stored values clamp alike, and the key is due only once its TAT has passed. */
  ghost predicate SameFrom(key: Key, kept: Option<real>, clock: int) {
    && (forall t :: t >= clock ==> Clamped(key.stored, t) == Clamped(kept, t))
    && (key.stored.Some? ==> key.stored.value <= key.deadline as real)
  }

  lemma {:induction false} ExpiryInvisible(key: Key, kept: Key, events: seq<Event>, clock: int, period: real,
                                           burst: int)
    requires period > 0.0 && SameFrom(key, kept.stored, clock) && Ordered(events, clock)
    ensures Verdicts(key, events, period, burst) == Verdicts(kept, Requests(events), period, burst)
    decreases |events|
  {
    if events != [] {
      var now := events[0].now;
      var key' := Next(key, events[0], period, burst);
      if events[0].Drop? {
        ExpiryInvisible(key', kept, events[1..], now, period, burst);
      } else {
        assert Clamped(key.stored, now) == Clamped(kept.stored, now);
        var kept' := Next(kept, events[0], period, burst);
        ExpiryInvisible(key', kept', events[1..], now, period, burst);
        assert Requests(events)[1..] == Requests(events[1..]);
      }
    }
  }

  /** Whenever Redis drops a key it may drop, every reply is the one a key that never expires would give. */
  lemma ExpiryNeverChangesAReply(events: seq<Event>, clock: int, period: real, burst: int)
    requires period > 0.0 && Ordered(events, clock)
    ensures Verdicts(Key(None, clock), events, period, burst)
            == Verdicts(Key(None, clock), Requests(events), period, burst)
  {
    ExpiryInvisible(Key(None, clock), Key(None, clock), events, clock, period, burst);
  }

  // ---------- the script is a token bucket ----------

  /** A bucket of capacity `burst` that gains one token per period. */
  datatype Bucket = Bucket(tokens: real, at: int)

  function Level(b: Bucket, now: int, period: real, burst: int): real
    requires period > 0.0
  {
    var level := b.tokens + (now - b.at) as real / period;
    if level < burst as real then level else burst as real
  }

  function BucketAfter(start: Bucket, times: seq<int>, n: nat, period: real, burst: int): Bucket
    requires period > 0.0 && n <= |times|
  {
    if n == 0 then start
    else
      var level := Level(BucketAfter(start, times, n - 1, period, burst), times[n - 1], period, burst);
      Bucket(if level >= 1.0 then level - 1.0 else level, times[n - 1])
  }

  predicate BucketAllows(start: Bucket, times: seq<int>, i: nat, period: real, burst: int)
    requires period > 0.0 && i < |times|
  {
    Level(BucketAfter(start, times, i, period, burst), times[i], period, burst) >= 1.0
  }

  /** The time in which the bucket fills up. */
  function Debt(tokens: real, period: real, burst: int): real {
    (burst as real - tokens) * period
  }

  /** The TAT runs ahead of the clock by exactly the time in which the bucket fills up. */
  ghost predicate Mirrors(stored: Option<real>, b: Bucket, period: real, burst: int) {
    b.tokens <= burst as real && Clamped(stored, b.at) - b.at as real == Debt(b.tokens, period, burst)
  }

  /** The script admits exactly the requests a token bucket admits. */
  lemma {:induction false} TokenBucketDecidesAlike(times: seq<int>, n: nat, start: int, period: real, burst: int)
    requires period > 0.0 && Chronological(times) && n <= |times|
    requires forall i :: 0 <= i < |times| ==> start <= times[i]
    ensures Mirrors(After(None, times, n, period, burst),
                    BucketAfter(Bucket(burst as real, start), times, n, period, burst), period, burst)
    ensures n < |times| ==>
              (Allowed(None, times, n, period, burst)
               <==> BucketAllows(Bucket(burst as real, start), times, n, period, burst))
  {
    var full := Bucket(burst as real, start);
    if n > 0 {
      TokenBucketDecidesAlike(times, n - 1, start, period, burst);
      MirrorStep(After(None, times, n - 1, period, burst), BucketAfter(full, times, n - 1, period, burst),
                 times[n - 1], period, burst);
    }
    if n < |times| {
      assert n > 0 ==> times[n - 1] <= times[n];
      MirrorStep(After(None, times, n, period, burst), BucketAfter(full, times, n, period, burst),
                 times[n], period, burst);
    }
  }

  lemma MirrorStep(stored: Option<real>, b: Bucket, now: int, period: real, burst: int)
    requires period > 0.0 && b.at <= now && Mirrors(stored, b, period, burst)
    ensures var level := Level(b, now, period, burst);
            && (Script(stored, now, period, burst).Admit? <==> level >= 1.0)
            && Mirrors(Advance(stored, now, period, burst),
                       Bucket(if level >= 1.0 then level - 1.0 else level, now), period, burst)
  {
    var level := Level(b, now, period, burst);
    var debt, owed := Debt(b.tokens, period, burst), Debt(level, period, burst);
    FillingPaysDebt(b, now, period, burst, debt, owed);
    OneTokenSuffices(level, period, burst, owed);
    ScriptOnDebt(stored, b.at, now, period, burst, debt, owed, level >= 1.0);
  }

  /** One step with every product named, so that only linear reasoning is left. */
  lemma ScriptOnDebt(stored: Option<real>, at: int, now: int, period: real, burst: int,
                     debt: real, owed: real, enough: bool)
    requires period > 0.0 && at <= now
    requires Clamped(stored, at) - at as real == debt
    requires owed == if debt > (now - at) as real then debt - (now - at) as real else 0.0
    requires enough <==> owed <= Times(burst - 1, period)
    ensures Script(stored, now, period, burst).Admit? <==> enough
    ensures Clamped(Advance(stored, now, period, burst), now) - now as real
         == if enough then owed + period else owed
  {
  }

  lemma OneTokenSuffices(level: real, period: real, burst: int, owed: real)
    requires period > 0.0 && owed == Debt(level, period, burst)
    ensures owed <= Times(burst - 1, period) <==> level >= 1.0
    ensures Debt(level - 1.0, period, burst) == owed + period
  {
    TimesIsProduct(burst - 1, period);
    Scale(burst as real - level, (burst - 1) as real, period);
    assert burst as real - level <= (burst - 1) as real <==> level >= 1.0;
  }

  lemma FillingPaysDebt(b: Bucket, now: int, period: real, burst: int, debt: real, owed: real)
    requires period > 0.0 && b.at <= now
    requires debt == Debt(b.tokens, period, burst)
    requires owed == Debt(Level(b, now, period, burst), period, burst)
    ensures owed == if debt > (now - b.at) as real then debt - (now - b.at) as real else 0.0
  {
    var gained := (now - b.at) as real / period;
    assert gained * period == (now - b.at) as real;
    Scale(gained, burst as real - b.tokens, period);
    assert Debt(b.tokens + gained, period, burst) == debt - gained * period;
  }

  lemma Scale(x: real, y: real, period: real)
    requires period > 0.0
    ensures x <= y <==> x * period <= y * period
    ensures x < y <==> x * period < y * period
  {
    assert (y - x) * period == y * period - x * period;
    assert y - x > 0.0 ==> (y - x) * period > 0.0;
    assert y - x < 0.0 ==> (y - x) * period < 0.0;
  }
}
