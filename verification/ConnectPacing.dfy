/**
 The connect pacing of the web client (apps/web/lib/websocket/backoff.ts), and what it
 means for the limiter that guards WebSocket upgrades (services/api/app/core/rate_limit.py).
 */
module ConnectPacing {
  import opened Powers
  import RateLimit

  const BASE_DELAY_MS := 500
  const MAX_DELAY_MS := 30_000
  const MIN_DELAY_MS := 1_000
  const GLOBAL_SPACING_MS := 2_000
  const MAX_ATTEMPTS := 12

  // 60 seconds shared by 30 upgrades
  const UPGRADE_PERIOD_MS := 60.0 * 1000.0 / 30.0

  function Max(x: int, y: int): int {
    if x < y then y else x
  }

  function Min(x: int, y: int): int {
    if x < y then x else y
  }

  function Ceiling(attempt: nat): int {
    Min(MAX_DELAY_MS, BASE_DELAY_MS * Pow2(attempt))
  }

  /** `random` is a number of [0, 1), rounding is to the nearest whole millisecond. */
  function BackoffDelay(attempt: nat, random: real): (delay: int)
    requires 0.0 <= random < 1.0
    ensures MIN_DELAY_MS <= delay <= MAX_DELAY_MS
  {
    Scaled(random, Ceiling(attempt) as real);
    Max(MIN_DELAY_MS, (random * Ceiling(attempt) as real + 0.5).Floor)
  }

  lemma Scaled(random: real, most: real)
    requires 0.0 <= random < 1.0 && 0.0 <= most
    ensures 0.0 <= random * most <= most
  {
    assert (1.0 - random) * most >= 0.0;
  }

  /** With the same random draw, a later attempt never waits less. */
  lemma BackoffNeverShrinks(earlier: nat, later: nat, random: real)
    requires earlier <= later && 0.0 <= random < 1.0
    ensures BackoffDelay(earlier, random) <= BackoffDelay(later, random)
  {
    Pow2Grows(earlier, later);
    Scaled(random, (Ceiling(later) - Ceiling(earlier)) as real);
  }

  /** The ceiling of the draw starts at half a second and doubles with every attempt up to 30 seconds. */
  lemma CeilingDoublesToItsCap(attempt: nat)
    ensures Ceiling(0) == 500
    ensures Ceiling(attempt + 1) == if 2 * Ceiling(attempt) < 30_000 then 2 * Ceiling(attempt) else 30_000
  {
    Pow2Grows(0, attempt);
  }

  /** A delay is its share of the ceiling to the nearest millisecond, or the least delay when that is less. */
  lemma DelayIsDrawnBelowCeiling(attempt: nat, random: real)
    requires 0.0 <= random < 1.0
    ensures var share := random * Ceiling(attempt) as real;
            if share < 999.5 then BackoffDelay(attempt, random) == 1_000
            else share - 0.5 < BackoffDelay(attempt, random) as real <= share + 0.5
  {
  }

  function Slot(last: int, delayMs: int, now: int): int {
    Max(now + delayMs, last + GLOBAL_SPACING_MS)
  }

  /** The module variable lastScheduledAt with the two functions that change it. */
  class ConnectSpacing {
    var lastScheduledAt: int

    constructor ()
      ensures lastScheduledAt == 0
    {
      lastScheduledAt := 0;
    }

    method ReserveConnectSlot(delayMs: int, now: int) returns (wait: int)
      modifies this
      ensures lastScheduledAt == Slot(old(lastScheduledAt), delayMs, now)
      ensures now + wait == lastScheduledAt
    {
      var earliest := Max(now + delayMs, lastScheduledAt + GLOBAL_SPACING_MS);
      lastScheduledAt := earliest;
      return earliest - now;
    }

    method ResetConnectSpacing()
      modifies this
      ensures lastScheduledAt == 0
    {
      lastScheduledAt := 0;
    }
  }

  datatype Reservation = Reservation(delayMs: int, now: int)

  /** The connect times handed out by successive reservations with no reset between them. */
  function Slots(last: int, asked: seq<Reservation>): (slots: seq<int>)
    ensures |slots| == |asked|
    decreases |asked|
  {
    if asked == [] then []
    else
      var slot := Slot(last, asked[0].delayMs, asked[0].now);
      [slot] + Slots(slot, asked[1..])
  }

  /** Slots are at least the spacing apart, never earlier than the backoff asked for, and no later than both require. */
  lemma {:induction false} SlotsKeepTheirDistance(last: int, asked: seq<Reservation>, i: nat, j: nat)
    requires i <= j < |asked|
    ensures var slots := Slots(last, asked);
            && slots[j] >= asked[j].now + asked[j].delayMs
            && slots[j] - slots[i] >= (j - i) * GLOBAL_SPACING_MS
            && slots[i] >= last + GLOBAL_SPACING_MS
            && slots[i] == Max(asked[i].now + asked[i].delayMs, (if i == 0 then last else slots[i - 1]) + 2_000)
    decreases |asked|
  {
    var slot := Slot(last, asked[0].delayMs, asked[0].now);
    var rest := Slots(slot, asked[1..]);
    if i > 0 {
      SlotsKeepTheirDistance(slot, asked[1..], i - 1, j - 1);
    } else if j > 0 {
      SlotsKeepTheirDistance(slot, asked[1..], 0, j - 1);
    }
  }

  /**
   Upgrades sent on reserved slots, arriving in order and each at most
   (burst - 1) periods late, are all admitted by a limiter that starts empty.
   */
  lemma PacedUpgradesAreNeverRefused(last: int, asked: seq<Reservation>, arrivals: seq<int>, burst: int)
    requires |arrivals| == |asked| && RateLimit.Chronological(arrivals)
    requires forall i :: 0 <= i < |asked| ==>
                           0 <= arrivals[i] - Slots(last, asked)[i] <= (burst - 1) * GLOBAL_SPACING_MS
    ensures RateLimit.AllAllowed(arrivals, |arrivals|, UPGRADE_PERIOD_MS, burst)
  {
    forall i, j | 0 <= i <= j < |arrivals|
      ensures RateLimit.Times(j - i + 1 - burst, UPGRADE_PERIOD_MS) <= (arrivals[j] - arrivals[i]) as real
    {
      SlotsKeepTheirDistance(last, asked, i, j);
      RateLimit.TimesIsProduct(j - i + 1 - burst, UPGRADE_PERIOD_MS);
    }
    RateLimit.AdmittedWholeIffConforms(arrivals, UPGRADE_PERIOD_MS, burst);
  }
}
