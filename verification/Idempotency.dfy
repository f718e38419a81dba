/**
 Idempotency keys (services/api/app/core/idempotency.py): the first request with a key
 claims it in Redis, and either stores its response for a day or releases the claim.
 One key is modelled; requests with different keys never meet.
 */
module Idempotency {
  import opened Options

  type Body = string
  type Hash = string

  const DAY_MS := 24 * 60 * 60 * 1000

  /** The two JSON documents kept under a key; the token is random, so no two claims are equal. */
  datatype Value = Pending(hash: Hash, token: nat) | Done(body: Body, hash: Hash)

  datatype Entry = Entry(value: Value, expiresAt: int)

  datatype Answer = Replay(body: Body) | Conflict | InProgress

  function Look(found: Option<Entry>): Option<Value> {
    if found.None? then None else Some(found.value.value)
  }

  /** SET with NX and EX. */
  function ClaimedIfFree(found: Option<Entry>, claim: Value, now: int, ttl: int): Option<Entry> {
    if found.None? then Some(Entry(claim, now + ttl)) else found
  }

  /** The release script: delete the key only while it holds exactly this claim. */
  function ReleasedIfMine(found: Option<Entry>, claim: Value): Option<Entry> {
    if Look(found) == Some(claim) then None else found
  }

  function AnswerTo(hash: Hash, raw: Option<Value>): Answer {
    if raw.None? then InProgress
    else if raw.value.hash != hash then Conflict
    else if raw.value.Pending? then InProgress
    else Replay(raw.value.body)
  }

  // ---------- the program ----------

  class RedisKey {
    var found: Option<Entry>

    method SetIfAbsent(claim: Value, now: int, ttl: int) returns (claimed: bool)
      modifies this
      ensures claimed == old(found).None?
      ensures found == ClaimedIfFree(old(found), claim, now, ttl)
    {
      if found.Some? {
        return false;
      }
      found := Some(Entry(claim, now + ttl));
      return true;
    }

    method Set(value: Value, now: int, ttl: int)
      modifies this
      ensures found == Some(Entry(value, now + ttl))
    {
      found := Some(Entry(value, now + ttl));
    }

    method Release(claim: Value) returns (deleted: bool)
      modifies this
      ensures deleted == (Look(old(found)) == Some(claim))
      ensures found == ReleasedIfMine(old(found), claim)
    {
      if found.None? || found.value.value != claim {
        return false;
      }
      found := None;
      return true;
    }
  }

  /** What a request handler is given; `redis` is null for replays and requests without the header. */
  class IdempotencyState {
    const cachedResponse: Option<Body>
    const bodyHash: Hash
    const redis: RedisKey?
    const claim: Option<Value>
    var stored: bool

    constructor (cachedResponse: Option<Body>, bodyHash: Hash, redis: RedisKey?, claim: Option<Value>)
      ensures this.cachedResponse == cachedResponse && this.bodyHash == bodyHash
      ensures this.redis == redis && this.claim == claim && !stored
    {
      this.cachedResponse, this.bodyHash := cachedResponse, bodyHash;
      this.redis, this.claim := redis, claim;
      stored := false;
    }

    method Store(body: Body, now: int)
      modifies this, if redis == null then {} else {redis}
      ensures redis == null ==> stored == old(stored)
      ensures redis != null ==> stored && redis.found == Some(Entry(Done(body, bodyHash), now + DAY_MS))
    {
      if redis == null {
        return;
      }
      redis.Set(Done(body, bodyHash), now, DAY_MS);
      stored := true;
    }

    method Release()
      modifies if redis == null then {} else {redis}
      ensures redis != null ==>
                redis.found == if old(stored) || claim.None? then old(redis.found)
                               else ReleasedIfMine(old(redis.found), claim.value)
    {
      if stored || claim.None? || redis == null {
        return;
      }
      var _ := redis.Release(claim.value);
    }
  }

  /**
   What happens before the handler runs.  Between the failed SET and the GET the key can
   change, so `later` is the value the GET finds; on success it is not read.  `pending` is the
   setting IDEMPOTENCY_PENDING_SECONDS in milliseconds.
   */
  method Begin(redis: RedisKey, hash: Hash, token: nat, now: int, pending: nat, later: Option<Value>)
    returns (state: IdempotencyState?, refusal: Answer)
    modifies redis
    ensures redis.found == ClaimedIfFree(old(redis.found), Pending(hash, token), now, pending)
    ensures old(redis.found).None? ==>
              && state != null && fresh(state) && state.claim == Some(Pending(hash, token))
              && state.redis == redis && state.bodyHash == hash && state.cachedResponse == None && !state.stored
    ensures old(redis.found).Some? ==>
              && refusal == AnswerTo(hash, later)
              && (state == null <==> !refusal.Replay?)
              && (state != null ==> state.cachedResponse == Some(refusal.body)
                                    && state.redis == null && state.claim == None)
  {
    state, refusal := null, InProgress;
    var claim := Pending(hash, token);
    var claimed := redis.SetIfAbsent(claim, now, pending);
    if claimed {
      state := new IdempotencyState(None, hash, redis, Some(claim));
      return;
    }
    if later.None? {
      return;
    }
    if later.value.hash != hash {
      refusal := Conflict;
      return;
    }
    if later.value.Pending? {
      return;
    }
    refusal := Replay(later.value.body);
    state := new IdempotencyState(Some(later.value.body), hash, null, None);
  }

  // ---------- all interleavings of requests with one key ----------

  /** Working runs the handler; Failing has raised and still has to release its claim. */
  datatype Phase =
    | Arrived
    | Refused
    | Working(claimedAt: int)
    | Failing(claimedAt: int)
    | Answered(answer: Answer)
    | Stored
    | Gone

  datatype Request = Request(hash: Hash, phase: Phase)

  datatype Response = Response(body: Body, hash: Hash, at: int)

  /** `pending` is the lifetime of a claim, the same all through a run. */
  datatype World = World(pending: nat, clock: int, found: Option<Entry>, requests: map<nat, Request>,
                         responses: seq<Response>)

  datatype Event =
    | Tick(elapsed: nat)
    | Expire
    | Arrive(r: nat, hash: Hash)
    | Claim(r: nat)
    | ClaimFails(r: nat, applied: bool)                  // the reply to SET is lost, the request ends
    | Lookup(r: nat)
    | Finish(r: nat, body: Body)                         // store succeeds
    | StoreFails(r: nat, body: Body, applied: bool)      // its reply is lost, or it never took effect
    | HandlerFails(r: nat)
    | Release(r: nat, applied: bool)
    | Crash(r: nat)

  predicate InFlight(w: World, r: nat) {
    r in w.requests && (w.requests[r].phase.Working? || w.requests[r].phase.Failing?)
  }

  predicate PhaseIs(w: World, r: nat, p: Phase -> bool) {
    r in w.requests && p(w.requests[r].phase)
  }

  predicate Enabled(w: World, e: Event) {
    match e
    case Tick(_) => true
    case Expire => w.found.Some? && w.found.value.expiresAt <= w.clock
    case Arrive(r, _) => r !in w.requests
    case Claim(r) => PhaseIs(w, r, (p: Phase) => p.Arrived?)
    case ClaimFails(r, _) => PhaseIs(w, r, (p: Phase) => p.Arrived?)
    case Lookup(r) => PhaseIs(w, r, (p: Phase) => p.Refused?)
    case Finish(r, _) => PhaseIs(w, r, (p: Phase) => p.Working?)
    case StoreFails(r, _, _) => PhaseIs(w, r, (p: Phase) => p.Working?)
    case HandlerFails(r) => PhaseIs(w, r, (p: Phase) => p.Working?)
    case Release(r, _) => PhaseIs(w, r, (p: Phase) => p.Failing?)
    case Crash(r) => InFlight(w, r)
  }

  function Move(w: World, r: nat, phase: Phase): World
    requires r in w.requests
  {
    w.(requests := w.requests[r := w.requests[r].(phase := phase)])
  }

  function Respond(w: World, body: Body, hash: Hash): World {
    w.(found := Some(Entry(Done(body, hash), w.clock + DAY_MS)),
       responses := w.responses + [Response(body, hash, w.clock)])
  }

  function Step(w: World, e: Event): World
    requires Enabled(w, e)
  {
    match e
    case Tick(elapsed) => w.(clock := w.clock + elapsed)
    case Expire => w.(found := None)
    case Arrive(r, hash) => w.(requests := w.requests[r := Request(hash, Arrived)])
    case Claim(r) =>
      Move(w, r, if w.found.None? then Working(w.clock) else Refused)
      .(found := ClaimedIfFree(w.found, Pending(w.requests[r].hash, r), w.clock, w.pending))
    case ClaimFails(r, applied) =>
      var gone := Move(w, r, Gone);
      if applied then gone.(found := ClaimedIfFree(w.found, Pending(w.requests[r].hash, r), w.clock, w.pending))
      else gone
    case Lookup(r) => Move(w, r, Answered(AnswerTo(w.requests[r].hash, Look(w.found))))
    case Finish(r, body) => Respond(Move(w, r, Stored), body, w.requests[r].hash)
    case StoreFails(r, body, applied) =>
      var failing := Move(w, r, Failing(w.requests[r].phase.claimedAt));
      if applied then Respond(failing, body, w.requests[r].hash) else failing
    case HandlerFails(r) => Move(w, r, Failing(w.requests[r].phase.claimedAt))
    case Release(r, applied) =>
      var gone := Move(w, r, Gone);
      if applied then gone.(found := ReleasedIfMine(w.found, Pending(w.requests[r].hash, r))) else gone
    case Crash(r) => Move(w, r, Gone)
  }

  ghost predicate Run(worlds: seq<World>, events: seq<Event>) {
    && |worlds| == |events| + 1
    && forall i :: 0 <= i < |events| ==> Enabled(worlds[i], events[i]) && worlds[i + 1] == Step(worlds[i], events[i])
  }

  predicate Initial(w: World) {
    w.found == None && w.requests == map[] && w.responses == []
  }

  /** Every handler stores, releases or dies within `hold` milliseconds of its claim. */
  ghost predicate Timely(w: World, e: Event, hold: nat) {
    e.Tick? ==> forall r :: InFlight(w, r) ==> w.clock + e.elapsed <= w.requests[r].phase.claimedAt + hold
  }

  ghost predicate TimelyRun(worlds: seq<World>, events: seq<Event>, pending: nat, hold: nat) {
    && Run(worlds, events) && Initial(worlds[0]) && worlds[0].pending == pending
    && forall i :: 0 <= i < |events| ==> Timely(worlds[i], events[i], hold)
  }

  // ---------- what holds with timely handlers ----------

  /** The key still speaks for a handler in flight: its claim, or the response it tried to store. */
  predicate Guards(w: World, r: nat, hold: nat)
    requires InFlight(w, r)
  {
    && w.found.Some?
    && (w.found.value.value == Pending(w.requests[r].hash, r)
        || (w.found.value.value.Done? && w.requests[r].phase.Failing?))
    && w.requests[r].phase.claimedAt <= w.clock <= w.requests[r].phase.claimedAt + hold < w.found.value.expiresAt
  }

  ghost predicate OneHandler(w: World) {
    forall r, s :: InFlight(w, r) && InFlight(w, s) ==> r == s
  }

  ghost predicate Guarded(w: World, hold: nat) {
    OneHandler(w) && forall r :: InFlight(w, r) ==> Guards(w, r, hold)
  }

  function Last(w: World): Response
    requires w.responses != []
  {
    w.responses[|w.responses| - 1]
  }

  ghost predicate ResponsesADayApart(w: World) {
    forall i, j :: 0 <= i < j < |w.responses| ==> w.responses[i].at + DAY_MS <= w.responses[j].at
  }

  /** A stored response is there for a day, and the next one comes a day later at the earliest. */
  ghost predicate OneResponseADay(w: World) {
    && (w.responses != [] && w.clock < Last(w).at + DAY_MS ==>
          w.found == Some(Entry(Done(Last(w).body, Last(w).hash), Last(w).at + DAY_MS)))
    && ResponsesADayApart(w)
  }

  lemma StepKeepsGuarded(w: World, e: Event, hold: nat)
    requires hold < w.pending && hold < DAY_MS
    requires Guarded(w, hold) && Enabled(w, e) && Timely(w, e, hold)
    ensures Guarded(Step(w, e), hold)
  {
    var w' := Step(w, e);
    assert e.Finish? || e.StoreFails? || e.HandlerFails? || e.Release? || e.Crash? ==> InFlight(w, e.r);
    forall r | InFlight(w', r)
      ensures Guards(w', r, hold)
    {
      assert InFlight(w, r) || e == Claim(r);
    }
    forall r, s | InFlight(w', r) && InFlight(w', s)
      ensures r == s
    {
      assert InFlight(w, r) || e == Claim(r);
      assert InFlight(w, s) || e == Claim(s);
    }
  }

  lemma StepKeepsOneResponse(w: World, e: Event, hold: nat)
    requires Guarded(w, hold) && OneResponseADay(w) && Enabled(w, e)
    ensures OneResponseADay(Step(w, e))
  {
    if e.Finish? || e.StoreFails? {
      assert InFlight(w, e.r) && Guards(w, e.r, hold);
    }
  }

  lemma {:induction false} RunKeepsGuarded(worlds: seq<World>, events: seq<Event>, pending: nat, hold: nat, n: nat)
    requires hold < pending && hold < DAY_MS
    requires TimelyRun(worlds, events, pending, hold) && n < |worlds|
    ensures worlds[n].pending == pending && Guarded(worlds[n], hold) && OneResponseADay(worlds[n])
  {
    if n > 0 {
      RunKeepsGuarded(worlds, events, pending, hold, n - 1);
      StepKeepsGuarded(worlds[n - 1], events[n - 1], hold);
      StepKeepsOneResponse(worlds[n - 1], events[n - 1], hold);
    }
  }

  /** In no timely run are there two handlers in flight, or two stored responses less than a day apart. */
  ghost predicate AlwaysOne(pending: nat, hold: nat) {
    forall worlds: seq<World>, events: seq<Event>, n: nat |
      TimelyRun(worlds, events, pending, hold) && n < |worlds| ::
      OneHandler(worlds[n]) && ResponsesADayApart(worlds[n])
  }

  /** At most one execution, exactly when handlers end before their claim, and before what they stored, can lapse. */
  lemma AtMostOneExecutionIff(pending: nat, hold: nat)
    ensures AlwaysOne(pending, hold) <==> hold < pending && hold < DAY_MS
  {
    if hold < pending && hold < DAY_MS {
      forall worlds: seq<World>, events: seq<Event>, n: nat |
        TimelyRun(worlds, events, pending, hold) && n < |worlds|
        ensures OneHandler(worlds[n]) && ResponsesADayApart(worlds[n])
      {
        RunKeepsGuarded(worlds, events, pending, hold, n);
      }
    } else if hold >= pending {
      var worlds, events := LateHandlersOverlap(1, 2, "", "", "", pending, hold);
      assert InFlight(worlds[6], 1) && InFlight(worlds[6], 2);
    } else {
      var worlds, events := LateReleaseOverlaps(pending, hold);
      assert InFlight(worlds[7], 1) && InFlight(worlds[7], 2);
    }
  }

  /**
   During that day no other request runs the handler, and each gets that response or, for another body, a
   conflict.
   */
  lemma EveryoneElseGetsThatResponse(worlds: seq<World>, events: seq<Event>, pending: nat, hold: nat, n: nat, r: nat)
    requires hold < pending && hold < DAY_MS
    requires TimelyRun(worlds, events, pending, hold)
    requires n < |worlds| && worlds[n].responses != [] && worlds[n].clock < Last(worlds[n]).at + DAY_MS
    ensures Enabled(worlds[n], Claim(r)) ==> !InFlight(Step(worlds[n], Claim(r)), r)
    ensures Enabled(worlds[n], Lookup(r)) ==>
              Step(worlds[n], Lookup(r)).requests[r].phase
              == Answered(if worlds[n].requests[r].hash == Last(worlds[n]).hash then Replay(Last(worlds[n]).body)
                          else Conflict)
  {
    RunKeepsGuarded(worlds, events, pending, hold, n);
  }

  /** A handler that outlives its claim runs beside its successor, and both store. */
  lemma LateHandlersOverlap(r: nat, s: nat, hash: Hash, one: Body, two: Body, pending: nat, hold: nat)
    returns (worlds: seq<World>, events: seq<Event>)
    requires r != s && hold >= pending
    ensures TimelyRun(worlds, events, pending, hold)
    ensures |events| == 8 && InFlight(worlds[6], r) && InFlight(worlds[6], s)
    ensures worlds[8].responses == [Response(one, hash, pending), Response(two, hash, pending)]
  {
    var before, first := ClaimLapses(r, s, hash, pending, hold);
    var after, second := BothStore(r, s, hash, one, two, before[5]);
    worlds, events := before + after[1..], first + second;
    forall i | 0 <= i < 8
      ensures Enabled(worlds[i], events[i]) && worlds[i + 1] == Step(worlds[i], events[i])
      ensures Timely(worlds[i], events[i], hold)
    {
      if i >= 5 {
        assert worlds[i] == after[i - 5] && events[i] == second[i - 5];
      }
    }
  }

  function Lapsed(r: nat, s: nat, hash: Hash, pending: nat): World {
    World(pending, pending, None, map[r := Request(hash, Working(0)), s := Request(hash, Arrived)], [])
  }

  lemma ClaimLapses(r: nat, s: nat, hash: Hash, pending: nat, hold: nat)
    returns (worlds: seq<World>, events: seq<Event>)
    requires r != s && hold >= pending
    ensures TimelyRun(worlds, events, pending, hold) && |events| == 5 && worlds[5] == Lapsed(r, s, hash, pending)
  {
    events := [Arrive(r, hash), Arrive(s, hash), Claim(r), Tick(pending), Expire];
    var w0 := World(pending, 0, None, map[], []);
    var w1 := Step(w0, events[0]);
    var w2 := Step(w1, events[1]);
    var w3 := Step(w2, events[2]);
    var w4 := Step(w3, events[3]);
    worlds := [w0, w1, w2, w3, w4, Step(w4, events[4])];
  }

  lemma BothStore(r: nat, s: nat, hash: Hash, one: Body, two: Body, start: World)
    returns (worlds: seq<World>, events: seq<Event>)
    requires r != s && start == Lapsed(r, s, hash, start.pending)
    ensures Run(worlds, events) && worlds[0] == start && |events| == 3 && forall i :: 0 <= i < 3 ==> !events[i].Tick?
    ensures InFlight(worlds[1], r) && InFlight(worlds[1], s)
    ensures worlds[3].responses == [Response(one, hash, start.pending), Response(two, hash, start.pending)]
  {
    events := [Claim(s), Finish(s, one), Finish(r, two)];
    var w1 := Step(start, events[0]);
    var w2 := Step(w1, events[1]);
    worlds := [start, w1, w2, Step(w2, events[2])];
  }

  /** A handler whose store went through unheard, and that takes a day to release, meets its successor too. */
  lemma LateReleaseOverlaps(pending: nat, hold: nat) returns (worlds: seq<World>, events: seq<Event>)
    requires hold >= DAY_MS
    ensures TimelyRun(worlds, events, pending, hold) && |events| == 7
    ensures InFlight(worlds[7], 1) && InFlight(worlds[7], 2)
  {
    var before, first := UnheardStore(pending, hold);
    var after, second := DayLater(before[4], hold);
    worlds, events := before + after[1..], first + second;
    forall i | 0 <= i < 7
      ensures Enabled(worlds[i], events[i]) && worlds[i + 1] == Step(worlds[i], events[i])
      ensures Timely(worlds[i], events[i], hold)
    {
      if i >= 4 {
        assert worlds[i] == after[i - 4] && events[i] == second[i - 4];
      }
    }
  }

  predicate StoredUnheard(w: World) {
    && w.clock == 0 && w.found == Some(Entry(Done("", ""), DAY_MS))
    && w.requests == map[1 := Request("", Failing(0)), 2 := Request("", Arrived)]
  }

  lemma UnheardStore(pending: nat, hold: nat) returns (worlds: seq<World>, events: seq<Event>)
    ensures TimelyRun(worlds, events, pending, hold) && |events| == 4 && StoredUnheard(worlds[4])
  {
    events := [Arrive(1, ""), Arrive(2, ""), Claim(1), StoreFails(1, "", true)];
    var w0 := World(pending, 0, None, map[], []);
    var w1 := Step(w0, events[0]);
    var w2 := Step(w1, events[1]);
    var w3 := Step(w2, events[2]);
    worlds := [w0, w1, w2, w3, Step(w3, events[3])];
  }

  lemma DayLater(start: World, hold: nat) returns (worlds: seq<World>, events: seq<Event>)
    requires StoredUnheard(start) && hold >= DAY_MS
    ensures Run(worlds, events) && worlds[0] == start && |events| == 3
    ensures forall i :: 0 <= i < 3 ==> Timely(worlds[i], events[i], hold)
    ensures InFlight(worlds[3], 1) && InFlight(worlds[3], 2)
  {
    events := [Tick(DAY_MS), Expire, Claim(2)];
    var w1 := Step(start, events[0]);
    var w2 := Step(w1, events[1]);
    worlds := [start, w1, w2, Step(w2, events[2])];
  }

  // ---------- what a lookup answers ----------

  /**
   A conflict exactly when the key holds a value for another body, claimed or stored; a replay exactly of a response
   stored for this body; in progress exactly when the key is empty again or holds a claim for this body.
   */
  lemma LookupAnswers(w: World, r: nat)
    requires Enabled(w, Lookup(r))
    ensures var hash := w.requests[r].hash;
            && Step(w, Lookup(r)) == Move(w, r, Answered(Step(w, Lookup(r)).requests[r].phase.answer))
            && var answer := Step(w, Lookup(r)).requests[r].phase.answer;
               && (answer == Conflict <==> w.found.Some? && w.found.value.value.hash != hash)
               && (forall body :: answer == Replay(body) <==>
                                    w.found.Some? && w.found.value.value == Done(body, hash))
               && (answer == InProgress <==>
                     w.found.None? || (w.found.value.value.Pending? && w.found.value.value.hash == hash))
  {
  }

  /** No store by h has taken effect during the first n events. */
  predicate HasNotStored(events: seq<Event>, h: nat, n: nat)
    requires n <= |events|
  {
    forall k :: 0 <= k < n ==> !(events[k].StoreFails? && events[k].r == h && events[k].applied)
  }

  lemma StepLeavesClaim(w: World, e: Event, hold: nat, h: nat)
    requires Guarded(w, hold) && Enabled(w, e)
    requires InFlight(w, h) && w.found.value.value == Pending(w.requests[h].hash, h)
    requires InFlight(Step(w, e), h) && !(e.StoreFails? && e.r == h && e.applied)
    ensures Step(w, e).found == w.found && Step(w, e).requests[h].hash == w.requests[h].hash
  {
    if e.Finish? || e.StoreFails? || e.HandlerFails? || e.Release? || e.Crash? {
      assert InFlight(w, e.r);
      assert e.r == h;
    }
  }

  lemma {:induction false} ClaimStaysWhileWorking(worlds: seq<World>, events: seq<Event>, pending: nat, hold: nat,
                                                  h: nat, n: nat)
    requires hold < pending && hold < DAY_MS && TimelyRun(worlds, events, pending, hold) && n < |worlds|
    requires InFlight(worlds[n], h) && HasNotStored(events, h, n)
    ensures worlds[n].found.Some? && worlds[n].found.value.value == Pending(worlds[n].requests[h].hash, h)
  {
    RunKeepsGuarded(worlds, events, pending, hold, n);
    if n > 0 && InFlight(worlds[n - 1], h) {
      RunKeepsGuarded(worlds, events, pending, hold, n - 1);
      ClaimStaysWhileWorking(worlds, events, pending, hold, h, n - 1);
      StepLeavesClaim(worlds[n - 1], events[n - 1], hold, h);
    }
  }

  /**
   In timely runs, while a handler is in flight and has stored nothing, a lookup for the same body is told that it is
   in progress, and one for any other body that it conflicts.
   */
  lemma OthersWaitOrConflict(worlds: seq<World>, events: seq<Event>, pending: nat, hold: nat, h: nat, n: nat, r: nat)
    requires hold < pending && hold < DAY_MS && TimelyRun(worlds, events, pending, hold) && n < |worlds|
    requires InFlight(worlds[n], h) && HasNotStored(events, h, n) && Enabled(worlds[n], Lookup(r))
    ensures Step(worlds[n], Lookup(r)).requests[r].phase
            == Answered(if worlds[n].requests[r].hash == worlds[n].requests[h].hash then InProgress else Conflict)
  {
    ClaimStaysWhileWorking(worlds, events, pending, hold, h, n);
  }

  /** A failed handler that releases its claim leaves the key free for the next request; a crashed one does not. */
  lemma ReleaseFreesTheKey(worlds: seq<World>, events: seq<Event>, pending: nat, hold: nat, h: nat, n: nat)
    requires hold < pending && hold < DAY_MS && TimelyRun(worlds, events, pending, hold) && n < |worlds|
    requires Enabled(worlds[n], Release(h, true)) && HasNotStored(events, h, n)
    ensures Step(worlds[n], Release(h, true)).found == None
    ensures Step(worlds[n], Crash(h)).found == worlds[n].found != None
  {
    ClaimStaysWhileWorking(worlds, events, pending, hold, h, n);
  }

  /** A request that finds the key free runs; its response is then in the key for a day. */
  lemma FreeKeyIsTaken(w: World, r: nat, body: Body)
    requires Enabled(w, Claim(r))
    ensures InFlight(Step(w, Claim(r)), r) <==> w.found.None?
    ensures w.found.None? ==>
              && Step(w, Claim(r)).found == Some(Entry(Pending(w.requests[r].hash, r), w.clock + w.pending))
              && Enabled(Step(w, Claim(r)), Finish(r, body))
              && Step(Step(w, Claim(r)), Finish(r, body)).found
                 == Some(Entry(Done(body, w.requests[r].hash), w.clock + 86_400_000))
  {
  }

  // ---------- what holds without any timing assumption ----------

  predicate Matches(response: Response, body: Body, hash: Hash) {
    response.body == body && response.hash == hash
  }

  /**
   A claim in the key is that of a request that took it and has not answered; stored and replayed bodies are
   logged.
   */
  ghost predicate Accounted(w: World) {
    && (w.found.Some? && w.found.value.value.Pending? ==>
          ClaimedBy(w, w.found.value.value.token, w.found.value.value.hash))
    && (w.found.Some? && w.found.value.value.Done? ==>
          exists i :: 0 <= i < |w.responses|
                      && Matches(w.responses[i], w.found.value.value.body, w.found.value.value.hash))
    && (forall r :: r in w.requests && w.requests[r].phase.Answered? && w.requests[r].phase.answer.Replay? ==>
          exists i :: 0 <= i < |w.responses|
                      && Matches(w.responses[i], w.requests[r].phase.answer.body, w.requests[r].hash))
  }

  predicate ClaimedBy(w: World, r: nat, hash: Hash) {
    && r in w.requests && w.requests[r].hash == hash
    && (w.requests[r].phase.Working? || w.requests[r].phase.Failing? || w.requests[r].phase.Gone?)
  }

  lemma StepKeepsAccounted(w: World, e: Event)
    requires Accounted(w) && Enabled(w, e)
    ensures Accounted(Step(w, e))
  {
    var w' := Step(w, e);
    assert |w.responses| <= |w'.responses| && w'.responses[..|w.responses|] == w.responses;
    if |w'.responses| > |w.responses| {
      assert Matches(w'.responses[|w.responses|], e.body, w.requests[e.r].hash);
    }
    forall r | r in w'.requests && w'.requests[r].phase.Answered? && w'.requests[r].phase.answer.Replay?
      ensures exists i :: 0 <= i < |w'.responses|
                          && Matches(w'.responses[i], w'.requests[r].phase.answer.body, w'.requests[r].hash)
    {
      assert e == Lookup(r) || w'.requests[r] == w.requests[r];
      var i :| 0 <= i < |w.responses|
               && Matches(w.responses[i], w'.requests[r].phase.answer.body, w'.requests[r].hash);
      assert w'.responses[i] == w.responses[i];
    }
  }

  /** A replayed body was stored by a request with the same body hash, timely or not. */
  lemma {:induction false} ReplaysAreStoredResponses(worlds: seq<World>, events: seq<Event>, n: nat)
    requires Run(worlds, events) && Initial(worlds[0]) && n < |worlds|
    ensures Accounted(worlds[n])
  {
    if n > 0 {
      ReplaysAreStoredResponses(worlds, events, n - 1);
      StepKeepsAccounted(worlds[n - 1], events[n - 1]);
    }
  }

  /** A store that takes effect, or a release by the very request whose claim this is. */
  predicate Displaces(e: Event, v: Value) {
    match e
    case Finish(_, _) => true
    case StoreFails(_, _, applied) => applied
    case Release(r, applied) => applied && v.Pending? && v.token == r
    case _ => false
  }

  /** Nothing else but its lapse takes a value out of the key. */
  lemma OnlyItsOwnRequestDisplaces(w: World, e: Event)
    requires Accounted(w) && Enabled(w, e)
    requires w.found.Some? && w.clock < w.found.value.expiresAt && !Displaces(e, w.found.value.value)
    ensures Step(w, e).found == w.found
  {
  }

  /**
   With any timing: while it has not lapsed, a claim stays until its own request releases it or a handler stores,
   and a response stays until a handler stores, whatever every other request does.
   */
  lemma {:induction false} ValuesStayUntilDisplaced(worlds: seq<World>, events: seq<Event>, i: nat, j: nat)
    requires Run(worlds, events) && Initial(worlds[0]) && i <= j < |worlds|
    requires worlds[i].found.Some? && worlds[j].clock < worlds[i].found.value.expiresAt
    requires forall k :: i <= k < j ==> !Displaces(events[k], worlds[i].found.value.value)
    ensures worlds[j].found == worlds[i].found
  {
    if i < j {
      assert worlds[j - 1].clock <= worlds[j].clock;
      ValuesStayUntilDisplaced(worlds, events, i, j - 1);
      ReplaysAreStoredResponses(worlds, events, j - 1);
      OnlyItsOwnRequestDisplaces(worlds[j - 1], events[j - 1]);
    }
  }
}
