/**
 The lease around a migration run (services/api/app/migrations/runner.py, lines 76 to 161):
 one lock document, runners that claim it, a heartbeat that renews it every 30 seconds and
 cancels the guarded body when a renewal fails, and a delete that names its owner.
 */
module MigrationLock {
  import opened Options

  type Owner = nat

  const LEASE_MS := 120_000
  const RENEW_MS := 30_000

  datatype Lock = Lock(owner: Owner, expiresAt: int)

  predicate Free(lock: Option<Lock>, owner: Owner, now: int) {
    lock.None? || lock.value.expiresAt < now || lock.value.owner == owner
  }

  function Claimed(lock: Option<Lock>, owner: Owner, now: int): Option<Lock> {
    if Free(lock, owner, now) then Some(Lock(owner, now + LEASE_MS)) else lock
  }

  function Deleted(lock: Option<Lock>, owner: Owner): Option<Lock> {
    if lock.Some? && lock.value.owner == owner then None else lock
  }

  /** The lock document of the collection, absent before the first claim and after a release. */
  class LockDocument {
    var lock: Option<Lock>

    /** The update pipeline, run atomically: every field keeps its value unless the claim succeeds. */
    method ClaimLock(owner: Owner, now: int) returns (claimed: bool)
      modifies this
      ensures lock == Claimed(old(lock), owner, now)
      ensures claimed == Free(old(lock), owner, now)
    {
      var claim := true;
      var heldBy, expiresAt := owner, now;
      if lock.Some? {
        heldBy, expiresAt := lock.value.owner, lock.value.expiresAt;
        claim := expiresAt < now || heldBy == owner;
      }
      if claim {
        heldBy := owner;
        expiresAt := now + LEASE_MS;
      }
      lock := Some(Lock(heldBy, expiresAt));
      return heldBy == owner;
    }

    method Delete(owner: Owner)
      modifies this
      ensures lock == Deleted(old(lock), owner)
    {
      if lock.Some? && lock.value.owner == owner {
        lock := None;
      }
    }
  }

  // ---------- all interleavings of runners ----------

  /** The heartbeat; `heard` is the reply to a renewal that reached the server or failed. */
  datatype Beat = Sleeping(since: int) | Calling(since: int, heard: Option<bool>)

  /**
   A runner.  `granted` is when its last successful claim took effect on the server; the guarded
   body runs in Guarded, and in Stopping until the cancellation lands.
   */
  datatype Runner =
    | Waiting
    | Entering(granted: int)
    | Guarded(granted: int, beat: Beat)
    | Stopping(granted: int, since: int)
    | Leaving
    | Out

  datatype World = World(clock: int, lock: Option<Lock>, runners: map<Owner, Runner>)

  datatype Event =
    | Tick(elapsed: nat)
    | Start(o: Owner)
    | TryAcquire(o: Owner)
    | Enter(o: Owner)
    | Wake(o: Owner)
    | Renew(o: Owner, applied: bool, heard: bool)  // a call can fail before or after its effect
    | Reply(o: Owner)
    | Finish(o: Owner)                             // the body returned, raised or was cancelled
    | Delete(o: Owner)
    | Crash(o: Owner)
    | Stray(o: Owner)                              // a claim sent earlier lands after its runner stopped waiting for it

  predicate InBody(w: World, o: Owner) {
    o in w.runners && (w.runners[o].Guarded? || w.runners[o].Stopping?)
  }

  predicate Holding(w: World, o: Owner) {
    o in w.runners && (w.runners[o].Entering? || w.runners[o].Guarded? || w.runners[o].Stopping?)
  }

  predicate Beating(w: World, o: Owner, p: Beat -> bool) {
    o in w.runners && w.runners[o].Guarded? && p(w.runners[o].beat)
  }

  predicate Enabled(w: World, e: Event) {
    match e
    case Tick(_) => true
    case Start(o) => o !in w.runners
    case TryAcquire(o) => o in w.runners && w.runners[o].Waiting?
    case Enter(o) => o in w.runners && w.runners[o].Entering?
    case Wake(o) => Beating(w, o, (b: Beat) => b.Sleeping? && b.since + RENEW_MS <= w.clock)
    case Renew(o, _, _) => Beating(w, o, (b: Beat) => b.Calling? && b.heard.None?)
    case Reply(o) => Beating(w, o, (b: Beat) => b.Calling? && b.heard.Some?)
    case Finish(o) => InBody(w, o)
    case Delete(o) => o in w.runners && w.runners[o].Leaving?
    case Crash(o) => o in w.runners
    case Stray(o) => o in w.runners && !Holding(w, o)
  }

  function Becomes(w: World, o: Owner, r: Runner): World {
    w.(runners := w.runners[o := r])
  }

  function Step(w: World, e: Event): World
    requires Enabled(w, e)
  {
    match e
    case Tick(elapsed) => w.(clock := w.clock + elapsed)
    case Start(o) => Becomes(w, o, Waiting)
    case TryAcquire(o) =>
      Becomes(w, o, if Free(w.lock, o, w.clock) then Entering(w.clock) else Waiting)
      .(lock := Claimed(w.lock, o, w.clock))
    case Enter(o) => Becomes(w, o, Guarded(w.runners[o].granted, Sleeping(w.clock)))
    case Wake(o) => Becomes(w, o, Guarded(w.runners[o].granted, Calling(w.clock, None)))
    case Renew(o, applied, heard) =>
      var renewed := applied && Free(w.lock, o, w.clock);
      Becomes(w, o, Guarded(if renewed then w.clock else w.runners[o].granted,
                            Calling(w.runners[o].beat.since, Some(renewed && heard))))
      .(lock := if applied then Claimed(w.lock, o, w.clock) else w.lock)
    case Reply(o) =>
      Becomes(w, o, if w.runners[o].beat.heard.value then Guarded(w.runners[o].granted, Sleeping(w.clock))
                    else Stopping(w.runners[o].granted, w.clock))
    case Finish(o) => Becomes(w, o, Leaving)
    case Delete(o) => Becomes(w, o, Out).(lock := Deleted(w.lock, o))
    case Crash(o) => Becomes(w, o, Out)
    case Stray(o) => w.(lock := Claimed(w.lock, o, w.clock))
  }

  ghost predicate Run(worlds: seq<World>, events: seq<Event>) {
    && |worlds| == |events| + 1
    && forall i :: 0 <= i < |events| ==> Enabled(worlds[i], events[i]) && worlds[i + 1] == Step(worlds[i], events[i])
  }

  /** Upper bounds on a call with its reply (and a late wake-up), and on a cancellation. */
  datatype Latency = Latency(call: nat, cancel: nat)

  function LongestHold(l: Latency): int {
    RENEW_MS + 2 * l.call + l.cancel
  }

  predicate Due(r: Runner, clock: int, l: Latency) {
    match r
    case Entering(granted) => clock <= granted + l.call
    case Guarded(_, Sleeping(since)) => clock <= since + RENEW_MS
    case Guarded(_, Calling(since, _)) => clock <= since + l.call
    case Stopping(_, since) => clock <= since + l.cancel
    case _ => true
  }

  /** Time passes only as far as every pending reply, wake-up and cancellation allows. */
  ghost predicate Timely(w: World, e: Event, l: Latency) {
    e.Tick? ==> forall o :: o in w.runners ==> Due(w.runners[o], w.clock + e.elapsed, l)
  }

  // ---------- mutual exclusion ----------

  predicate OnTime(r: Runner, clock: int, l: Latency) {
    match r
    case Entering(granted) => granted <= clock <= granted + l.call
    case Guarded(granted, Sleeping(since)) =>
      granted <= clock && since <= granted + l.call && clock <= since + RENEW_MS
    case Guarded(granted, Calling(since, heard)) =>
      && granted <= clock && since <= clock <= since + l.call
      && since <= granted + if heard == Some(true) then 0 else RENEW_MS + l.call
    case Stopping(granted, since) =>
      granted <= clock && since <= granted + RENEW_MS + 2 * l.call && clock <= since + l.cancel
    case _ => true
  }

  /** A holder is on time, and the document says that it holds. */
  predicate Secure(w: World, o: Owner, l: Latency)
    requires Holding(w, o)
  {
    && OnTime(w.runners[o], w.clock, l)
    && w.lock == Some(Lock(o, w.runners[o].granted + LEASE_MS))
  }

  ghost predicate Safe(w: World, l: Latency) {
    forall o :: Holding(w, o) ==> Secure(w, o, l)
  }

  /** What anyone else does leaves a holder's runner and its lock alone. */
  lemma OthersCannotTakeOver(w: World, e: Event, l: Latency, o: Owner)
    requires LongestHold(l) <= LEASE_MS
    requires Holding(w, o) && Secure(w, o, l) && Enabled(w, e) && !e.Tick? && e.o != o
    ensures Step(w, e).runners[o] == w.runners[o] && Step(w, e).lock == w.lock && Step(w, e).clock == w.clock
  {
    assert w.clock <= w.lock.value.expiresAt;
  }

  lemma HolderStaysSecure(w: World, e: Event, l: Latency, o: Owner)
    requires Holding(w, o) && Secure(w, o, l) && Enabled(w, e) && !e.Tick? && e.o == o
    ensures Holding(Step(w, e), o) ==> Secure(Step(w, e), o, l)
  {
  }

  lemma StepKeepsSafe(w: World, e: Event, l: Latency)
    requires LongestHold(l) <= LEASE_MS
    requires Safe(w, l) && Enabled(w, e) && Timely(w, e, l)
    ensures Safe(Step(w, e), l)
  {
    forall o | Holding(Step(w, e), o)
      ensures Secure(Step(w, e), o, l)
    {
      if Holding(w, o) && !e.Tick? {
        if e.o == o {
          HolderStaysSecure(w, e, l, o);
        } else {
          OthersCannotTakeOver(w, e, l, o);
        }
      }
    }
  }

  lemma {:induction false} RunKeepsSafe(worlds: seq<World>, events: seq<Event>, l: Latency, n: nat)
    requires LongestHold(l) <= LEASE_MS
    requires Run(worlds, events) && worlds[0].runners == map[] && n < |worlds|
    requires forall i :: 0 <= i < |events| ==> Timely(worlds[i], events[i], l)
    ensures Safe(worlds[n], l)
  {
    if n > 0 {
      RunKeepsSafe(worlds, events, l, n - 1);
      StepKeepsSafe(worlds[n - 1], events[n - 1], l);
    }
  }

  ghost predicate Exclusive(w: World) {
    forall o, p :: InBody(w, o) && InBody(w, p) ==> o == p
  }

  /** No timely run has two runners in the guarded body. */
  ghost predicate AlwaysExclusive(l: Latency) {
    forall worlds: seq<World>, events: seq<Event>, n: nat ::
      Run(worlds, events) && worlds[0].runners == map[] && n < |worlds|
      && (forall i :: 0 <= i < |events| ==> Timely(worlds[i], events[i], l))
      ==> Exclusive(worlds[n])
  }

  /**
   The guarded body is exclusive in every timely run exactly when renewal interval,
   two calls and one cancellation fit into the lease.
   */
  lemma ExclusiveIffHoldFitsLease(l: Latency)
    ensures AlwaysExclusive(l) <==> 30_000 + 2 * l.call + l.cancel <= 120_000
  {
    if LongestHold(l) <= LEASE_MS {
      forall worlds: seq<World>, events: seq<Event>, n: nat |
        Run(worlds, events) && worlds[0].runners == map[] && n < |worlds|
        && (forall i :: 0 <= i < |events| ==> Timely(worlds[i], events[i], l))
        ensures Exclusive(worlds[n])
      {
        RunKeepsSafe(worlds, events, l, n);
        forall o, p | InBody(worlds[n], o) && InBody(worlds[n], p)
          ensures o == p
        {
          assert Holding(worlds[n], o) && Holding(worlds[n], p);
        }
      }
    } else {
      var worlds, events := SlowHeartbeatOverlaps(l);
      assert InBody(worlds[13], 1) && InBody(worlds[13], 2);
    }
  }

  /** A renewal that fails at the last moment, and a body that stops at the last moment after it. */
  lemma SlowHeartbeatOverlaps(l: Latency) returns (worlds: seq<World>, events: seq<Event>)
    requires LongestHold(l) > LEASE_MS
    ensures Run(worlds, events) && worlds[0].runners == map[] && |events| == 13
    ensures forall i :: 0 <= i < |events| ==> Timely(worlds[i], events[i], l)
    ensures InBody(worlds[13], 1) && InBody(worlds[13], 2)
  {
    var before, first := LateRenewal(l);
    var after, second := LateStop(l, before[7]);
    worlds, events := before + after[1..], first + second;
    forall i | 0 <= i < 13
      ensures Enabled(worlds[i], events[i]) && worlds[i + 1] == Step(worlds[i], events[i])
      ensures Timely(worlds[i], events[i], l)
    {
      if i >= 7 {
        assert worlds[i] == after[i - 7] && events[i] == second[i - 7];
      }
    }
  }

  lemma LateRenewal(l: Latency) returns (worlds: seq<World>, events: seq<Event>)
    ensures Run(worlds, events) && worlds[0].runners == map[] && |events| == 7
    ensures forall i :: 0 <= i < |events| ==> Timely(worlds[i], events[i], l)
    ensures worlds[7] == World(l.call + RENEW_MS, Some(Lock(1, LEASE_MS)),
                               map[1 := Guarded(0, Calling(l.call + RENEW_MS, None)), 2 := Waiting])
  {
    var start := World(0, None, map[]);
    var two := Step(Step(start, Start(1)), Start(2));
    var taken := Step(two, TryAcquire(1));
    assert taken == World(0, Some(Lock(1, LEASE_MS)), map[1 := Entering(0), 2 := Waiting]);
    var after, second := LateWake(l, taken);
    worlds, events := [start, Step(start, Start(1)), two] + after, [Start(1), Start(2), TryAcquire(1)] + second;
    forall i | 0 <= i < 7
      ensures Enabled(worlds[i], events[i]) && worlds[i + 1] == Step(worlds[i], events[i])
      ensures Timely(worlds[i], events[i], l)
    {
      if i >= 3 {
        assert worlds[i] == after[i - 3] && events[i] == second[i - 3];
      }
    }
  }

  lemma LateWake(l: Latency, start: World) returns (worlds: seq<World>, events: seq<Event>)
    requires start == World(0, Some(Lock(1, LEASE_MS)), map[1 := Entering(0), 2 := Waiting])
    ensures Run(worlds, events) && worlds[0] == start && |events| == 4
    ensures forall i :: 0 <= i < |events| ==> Timely(worlds[i], events[i], l)
    ensures worlds[4] == World(l.call + RENEW_MS, Some(Lock(1, LEASE_MS)),
                               map[1 := Guarded(0, Calling(l.call + RENEW_MS, None)), 2 := Waiting])
  {
    events := [Tick(l.call), Enter(1), Tick(RENEW_MS), Wake(1)];
    var w1 := Step(start, events[0]);
    var w2 := Step(w1, events[1]);
    var w3 := Step(w2, events[2]);
    worlds := [start, w1, w2, w3, Step(w3, events[3])];
  }

  lemma LateStop(l: Latency, start: World) returns (worlds: seq<World>, events: seq<Event>)
    requires LongestHold(l) > LEASE_MS
    requires start == World(l.call + RENEW_MS, Some(Lock(1, LEASE_MS)),
                            map[1 := Guarded(0, Calling(l.call + RENEW_MS, None)), 2 := Waiting])
    ensures Run(worlds, events) && worlds[0] == start && |events| == 6
    ensures forall i :: 0 <= i < |events| ==> Timely(worlds[i], events[i], l)
    ensures InBody(worlds[6], 1) && InBody(worlds[6], 2)
  {
    events := [Renew(1, false, false), Tick(l.call), Reply(1), Tick(l.cancel), TryAcquire(2), Enter(2)];
    var w1 := Step(start, events[0]);
    var w2 := Step(w1, events[1]);
    var w3 := Step(w2, events[2]);
    var w4 := Step(w3, events[3]);
    var w5 := Step(w4, events[4]);
    worlds := [start, w1, w2, w3, w4, w5, Step(w5, events[5])];
  }

  // ---------- what holds without any timing assumption ----------

  predicate OwnedBy(w: World, o: Owner) {
    w.lock.Some? && w.lock.value.owner == o
  }

  /** A claim that reaches the server, as a first claim, a renewal, or one whose sender has given up on it. */
  predicate Claims(e: Event) {
    e.TryAcquire? || e.Stray? || (e.Renew? && e.applied)
  }

  /** The owner's own delete, or another's claim after the lease has run out. */
  predicate TakesFrom(w: World, e: Event, o: Owner)
    requires w.lock.Some?
  {
    e == Delete(o) || (Claims(e) && e.o != o && w.lock.value.expiresAt < w.clock)
  }

  lemma LockIsLostIffTaken(w: World, e: Event, o: Owner)
    requires OwnedBy(w, o) && Enabled(w, e)
    ensures OwnedBy(Step(w, e), o) <==> !TakesFrom(w, e, o)
  {
  }

  ghost predicate OwnedThroughout(worlds: seq<World>, i: nat, j: nat, o: Owner)
    requires i <= j < |worlds|
  {
    forall k :: i <= k <= j ==> OwnedBy(worlds[k], o)
  }

  /** No step from i to j takes the lock from the owner it then has. */
  ghost predicate NeverTaken(worlds: seq<World>, events: seq<Event>, i: nat, j: nat, o: Owner)
    requires i <= j <= |events| < |worlds|
  {
    forall k :: i <= k < j && OwnedBy(worlds[k], o) ==> !TakesFrom(worlds[k], events[k], o)
  }

  /**
   With any timing and from any lock document: an owner keeps the lock from i to j exactly as long as it does not
   delete it and nobody else claims it after its lease ran out.  No other runner's leaving ever takes it.
   */
  lemma {:induction false} LockStaysWithItsOwnerIff(worlds: seq<World>, events: seq<Event>, i: nat, j: nat, o: Owner)
    requires Run(worlds, events) && i <= j < |worlds| && OwnedBy(worlds[i], o)
    ensures OwnedThroughout(worlds, i, j, o) <==> NeverTaken(worlds, events, i, j, o)
  {
    if i < j {
      LockStaysWithItsOwnerIff(worlds, events, i, j - 1, o);
      if OwnedBy(worlds[j - 1], o) {
        LockIsLostIffTaken(worlds[j - 1], events[j - 1], o);
        assert worlds[j] == Step(worlds[j - 1], events[j - 1]);
      }
    }
  }
}
