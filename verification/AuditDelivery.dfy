/**
 Several drainers on one outbox: every database call of services/api/app/repositories/audit_outbox_repository.py
 and every append of services/api/app/services/audit_drain.py is a step, and a drainer can die between any two.
 */
module AuditDelivery {
  import opened Options
  import opened AuditOutbox
  import opened AuditDrain

  /** A drainer between its claim and its last write for the claimed event. */
  datatype Drainer =
    | Idle
    | Sending(p: PendingEvent, claimedAt: int)
    | Resolving(p: PendingEvent, claimedAt: int, outcome: Outcome)
    | Burying(p: PendingEvent, claimedAt: int)   // inserted as dead, not yet deleted

  datatype World = World(
    clock: int,
    docs: Documents,
    nextId: nat,
    dead: seq<Dead>,
    committed: set<Event>,   // enqueued so far
    accepted: set<Event>,    // persisted by the audit service
    drainers: map<nat, Drainer>)

  datatype Action =
    | Tick(elapsed: nat)
    | Enqueue(event: Event)
    | Claim(d: nat, id: nat)
    | ClaimUnheard(d: nat, id: nat)                          // the lease is taken, its reply lost
    | Send(d: nat, persisted: bool, outcome: Outcome)
    | Settle(d: nat, retryAt: int)
    | DeleteBuried(d: nat)
    | Crash(d: nat)                                          // or any exception of the cycle

  predicate Busy(w: World, d: nat) {
    d in w.drainers && !w.drainers[d].Idle?
  }

  predicate Free(w: World, d: nat) {
    d in w.drainers ==> w.drainers[d].Idle?
  }

  ghost predicate Enabled(w: World, a: Action) {
    match a
    case Tick(_) => true
    case Enqueue(event) => event !in w.committed
    case Claim(d, id) => Free(w, d) && FirstDue(w.docs, id, w.clock, CLAIM_LEASE_MS)
    case ClaimUnheard(d, id) => Free(w, d) && FirstDue(w.docs, id, w.clock, CLAIM_LEASE_MS)
    case Send(d, persisted, outcome) =>
      d in w.drainers && w.drainers[d].Sending? && (outcome == Reply(ACCEPTED) ==> persisted)
    case Settle(d, _) => d in w.drainers && w.drainers[d].Resolving?
    case DeleteBuried(d) => d in w.drainers && w.drainers[d].Burying?
    case Crash(d) => Busy(w, d)
  }

  function Becomes(w: World, d: nat, drainer: Drainer): World {
    w.(drainers := w.drainers[d := drainer])
  }

  ghost function Step(w: World, a: Action): World
    requires Enabled(w, a)
  {
    match a
    case Tick(elapsed) => w.(clock := w.clock + elapsed)
    case Enqueue(event) =>
      w.(docs := w.docs[w.nextId := Document(event, 0, w.clock, None)], nextId := w.nextId + 1,
         committed := w.committed + {event})
    case Claim(d, id) =>
      Becomes(w, d, Sending(PendingEvent(id, w.docs[id].event, w.docs[id].attempts), w.clock))
      .(docs := WithClaim(w.docs, id, w.clock))
    case ClaimUnheard(d, id) => w.(docs := WithClaim(w.docs, id, w.clock))
    case Send(d, persisted, outcome) =>
      var p := w.drainers[d].p;
      Becomes(w, d, Resolving(p, w.drainers[d].claimedAt, outcome))
      .(accepted := if persisted then w.accepted + {p.event} else w.accepted)
    case Settle(d, retryAt) =>
      var p := w.drainers[d].p;
      var outcome := w.drainers[d].outcome;
      (match Resolve(p.attempts, outcome)
       case Accepted => Becomes(w, d, Idle).(docs := w.docs - {p.id})
       case Postponed => Becomes(w, d, Idle).(docs := Deferred(w.docs, p.id, retryAt))
       case Buried => Becomes(w, d, Burying(p, w.drainers[d].claimedAt)).(dead := w.dead + [Grave(p, outcome.status)]))
    case DeleteBuried(d) => Becomes(w, d, Idle).(docs := w.docs - {w.drainers[d].p.id})
    case Crash(d) => Becomes(w, d, Idle)
  }

  ghost predicate Run(worlds: seq<World>, actions: seq<Action>) {
    && |worlds| == |actions| + 1
    && forall i :: 0 <= i < |actions| ==> Enabled(worlds[i], actions[i]) && worlds[i + 1] == Step(worlds[i], actions[i])
  }

  predicate Initial(w: World) {
    w.docs == map[] && w.dead == [] && w.committed == {} && w.accepted == {} && w.drainers == map[]
  }

  // ---------- nothing is lost ----------

  ghost predicate InOutbox(w: World, e: Event) {
    exists id :: id in w.docs && w.docs[id].event == e
  }

  ghost predicate InGraveyard(w: World, e: Event) {
    exists k :: 0 <= k < |w.dead| && w.dead[k].event == e
  }

  ghost predicate Safe(w: World, e: Event) {
    InOutbox(w, e) || InGraveyard(w, e) || e in w.accepted
  }

  /** Documents keep their event, have ids of their own and were committed. */
  ghost predicate Tidy(w: World) {
    && (forall id :: id in w.docs ==> id < w.nextId && w.docs[id].event in w.committed)
    && (forall i, j :: i in w.docs && j in w.docs && w.docs[i].event == w.docs[j].event ==> i == j)
  }

  /** What a busy drainer remembers still describes its document, and justifies its next write. */
  ghost predicate Informed(w: World, d: nat)
    requires Busy(w, d)
  {
    var r := w.drainers[d];
    && r.p.id < w.nextId
    && (r.p.id in w.docs ==> w.docs[r.p.id].event == r.p.event)
    && r.p.event in w.committed
    && (r.Resolving? && r.outcome == Reply(ACCEPTED) ==> r.p.event in w.accepted)
    && (r.Burying? ==> InGraveyard(w, r.p.event))
  }

  ghost predicate Conserving(w: World) {
    && Tidy(w)
    && (forall d :: Busy(w, d) ==> Informed(w, d))
    && (forall e :: e in w.committed <==> Safe(w, e))
  }

  lemma GraveyardOnlyGrows(w: World, a: Action, e: Event)
    requires Enabled(w, a) && InGraveyard(w, e)
    ensures InGraveyard(Step(w, a), e)
  {
    var k :| 0 <= k < |w.dead| && w.dead[k].event == e;
    assert Step(w, a).dead[k].event == e;
  }

  lemma StepKeepsTidy(w: World, a: Action)
    requires Tidy(w) && Enabled(w, a)
    ensures Tidy(Step(w, a))
  {
  }

  lemma StepKeepsInformed(w: World, a: Action)
    requires Tidy(w) && (forall d :: Busy(w, d) ==> Informed(w, d)) && Enabled(w, a)
    ensures forall d :: Busy(Step(w, a), d) ==> Informed(Step(w, a), d)
  {
    var w' := Step(w, a);
    forall d | Busy(w', d)
      ensures Informed(w', d)
    {
      if Busy(w, d) {
        var p := w.drainers[d].p;
        if w.drainers[d].Burying? {
          GraveyardOnlyGrows(w, a, p.event);
        } else if a.Settle? && a.d == d {
          assert w'.dead[|w.dead|].event == p.event;
        }
      }
    }
  }

  /** A document is deleted only once its event is accepted or dead. */
  lemma StepLosesNothing(w: World, a: Action, e: Event)
    requires Conserving(w) && Enabled(w, a) && e in Step(w, a).committed
    ensures Safe(Step(w, a), e)
  {
    var w' := Step(w, a);
    if a == Enqueue(e) {
      assert w'.docs[w.nextId].event == e;
    } else if InGraveyard(w, e) {
      GraveyardOnlyGrows(w, a, e);
    } else if InOutbox(w, e) {
      var id :| id in w.docs && w.docs[id].event == e;
      if a.Settle? || a.DeleteBuried? {
        assert Busy(w, a.d) && Informed(w, a.d);
      }
      assert id in w'.docs ==> w'.docs[id].event == e;
    }
  }

  lemma StepInventsNothing(w: World, a: Action, e: Event)
    requires Conserving(w) && Enabled(w, a) && Safe(Step(w, a), e)
    ensures e in Step(w, a).committed
  {
    var w' := Step(w, a);
    if a.Settle? || a.Send? {
      assert Busy(w, a.d) && Informed(w, a.d);
    }
    if InGraveyard(w', e) {
      var k :| 0 <= k < |w'.dead| && w'.dead[k].event == e;
      assert k < |w.dead| ==> w.dead[k].event == e;
    } else if InOutbox(w', e) {
      var id :| id in w'.docs && w'.docs[id].event == e;
      assert id in w.docs ==> w.docs[id].event == e;
    }
  }

  /**
   At every moment of every run, the committed events are exactly those in the outbox,
   in the dead-letter collection or accepted by the audit service.
   */
  lemma {:induction false} NoEventIsLost(worlds: seq<World>, actions: seq<Action>, n: nat)
    requires Run(worlds, actions) && Initial(worlds[0]) && n < |worlds|
    ensures Conserving(worlds[n])
  {
    if n > 0 {
      NoEventIsLost(worlds, actions, n - 1);
      StepKeepsTidy(worlds[n - 1], actions[n - 1]);
      StepKeepsInformed(worlds[n - 1], actions[n - 1]);
      forall e: Event
        ensures e in worlds[n].committed <==> Safe(worlds[n], e)
      {
        if e in worlds[n].committed {
          StepLosesNothing(worlds[n - 1], actions[n - 1], e);
        }
        if Safe(worlds[n], e) {
          StepInventsNothing(worlds[n - 1], actions[n - 1], e);
        }
      }
    }
  }

  // ---------- claims are exclusive while drainers keep to their lease ----------

  /** Every drainer is done with its event, or dead, within `hold` milliseconds of its claim. */
  ghost predicate Timely(w: World, a: Action, hold: nat) {
    a.Tick? ==> forall d :: Busy(w, d) ==> w.clock + a.elapsed <= w.drainers[d].claimedAt + hold
  }

  ghost predicate TimelyRun(worlds: seq<World>, actions: seq<Action>, hold: nat) {
    && Run(worlds, actions) && Initial(worlds[0])
    && forall i :: 0 <= i < |actions| ==> Timely(worlds[i], actions[i], hold)
  }

  predicate HoldsLease(w: World, d: nat, hold: nat)
    requires Busy(w, d)
  {
    var r := w.drainers[d];
    && r.p.id in w.docs
    && w.docs[r.p.id].claimedAt == Some(r.claimedAt)
    && w.clock <= r.claimedAt + hold
  }

  ghost predicate Leased(w: World, hold: nat) {
    && (forall d :: Busy(w, d) ==> HoldsLease(w, d, hold))
    && (forall d, d' :: Busy(w, d) && Busy(w, d') && w.drainers[d].p.id == w.drainers[d'].p.id ==> d == d')
  }

  lemma StepKeepsLeased(w: World, a: Action, hold: nat)
    requires hold < CLAIM_LEASE_MS
    requires Leased(w, hold) && Enabled(w, a) && Timely(w, a, hold)
    requires forall id :: id in w.docs ==> id < w.nextId
    ensures Leased(Step(w, a), hold)
  {
    var w' := Step(w, a);
    if a.Settle? || a.DeleteBuried? || a.Send? {
      assert Busy(w, a.d);
    }
    forall d | Busy(w', d)
      ensures HoldsLease(w', d, hold)
      ensures a.Claim? && d != a.d ==> w.drainers[d].p.id != a.id
    {
      assert Busy(w, d) || (a.Claim? && a.d == d);
    }
  }

  lemma {:induction false} RunKeepsLeased(worlds: seq<World>, actions: seq<Action>, hold: nat, n: nat)
    requires hold < CLAIM_LEASE_MS && TimelyRun(worlds, actions, hold) && n < |worlds|
    ensures Leased(worlds[n], hold)
  {
    if n > 0 {
      RunKeepsLeased(worlds, actions, hold, n - 1);
      NoEventIsLost(worlds, actions, n - 1);
      StepKeepsLeased(worlds[n - 1], actions[n - 1], hold);
    }
  }

  /** No two drainers work on the same event. */
  ghost predicate Exclusive(w: World) {
    forall d, d' | Busy(w, d) && Busy(w, d') :: w.drainers[d].p.event == w.drainers[d'].p.event ==> d == d'
  }

  lemma LeasedIsExclusive(w: World, hold: nat)
    requires Leased(w, hold) && Conserving(w)
    ensures Exclusive(w)
  {
    forall d, d' | Busy(w, d) && Busy(w, d') && w.drainers[d].p.event == w.drainers[d'].p.event
      ensures d == d'
    {
      assert Informed(w, d) && Informed(w, d') && HoldsLease(w, d, hold) && HoldsLease(w, d', hold);
    }
  }

  ghost predicate AlwaysExclusive(hold: nat) {
    forall worlds: seq<World>, actions: seq<Action>, n: nat |
      TimelyRun(worlds, actions, hold) && n < |worlds| :: Exclusive(worlds[n])
  }

  /** Claims are exclusive in every timely run exactly when drainers are done before their lease runs out. */
  lemma ClaimsAreExclusiveIff(hold: nat)
    ensures AlwaysExclusive(hold) <==> hold < 60_000
  {
    if hold < CLAIM_LEASE_MS {
      forall worlds: seq<World>, actions: seq<Action>, n: nat | TimelyRun(worlds, actions, hold) && n < |worlds|
        ensures Exclusive(worlds[n])
      {
        RunKeepsLeased(worlds, actions, hold, n);
        NoEventIsLost(worlds, actions, n);
        LeasedIsExclusive(worlds[n], hold);
      }
    } else {
      var worlds, actions := SecondClaim("", hold);
      assert Busy(worlds[5], 1) && Busy(worlds[5], 2);
    }
  }

  /** A lease that just ran out is claimed again while the first drainer still works. */
  lemma SecondClaim(e: Event, hold: nat) returns (worlds: seq<World>, actions: seq<Action>)
    requires hold >= CLAIM_LEASE_MS
    ensures TimelyRun(worlds, actions, hold) && |actions| == 5
    ensures Busy(worlds[5], 1) && Busy(worlds[5], 2)
    ensures worlds[5].drainers[1].p.event == worlds[5].drainers[2].p.event == e
  {
    worlds, actions := LeaseRunsOut(e, hold);
    var last := worlds[4];
    worlds, actions := worlds + [Step(last, Claim(2, 0))], actions + [Claim(2, 0)];
  }

  /** And the first one's late defer even frees the second's claim for a third. */
  lemma LateDeferFreesAnothersClaim(e: Event) returns (worlds: seq<World>, actions: seq<Action>)
    ensures TimelyRun(worlds, actions, CLAIM_LEASE_MS) && |actions| == 7
    ensures Busy(worlds[7], 2) && Busy(worlds[7], 3)
    ensures worlds[7].drainers[2].p.event == worlds[7].drainers[3].p.event == e
    ensures worlds[7].drainers[2].claimedAt == worlds[7].clock
  {
    var before, first := LeaseRunsOut(e, CLAIM_LEASE_MS);
    var after, second := LateDefer(e, before[4]);
    worlds, actions := before + after[1..], first + second;
    forall i | 0 <= i < 7
      ensures Enabled(worlds[i], actions[i]) && worlds[i + 1] == Step(worlds[i], actions[i])
      ensures Timely(worlds[i], actions[i], CLAIM_LEASE_MS)
    {
      if i >= 4 {
        assert worlds[i] == after[i - 4] && actions[i] == second[i - 4];
      }
    }
  }

  predicate Overdue(w: World, e: Event) {
    && w.clock == CLAIM_LEASE_MS && w.docs == map[0 := Document(e, 0, 0, Some(0))]
    && w.drainers == map[1 := Resolving(PendingEvent(0, e, 0), 0, Unreachable)]
  }

  lemma LeaseRunsOut(e: Event, hold: nat) returns (worlds: seq<World>, actions: seq<Action>)
    requires hold >= CLAIM_LEASE_MS
    ensures TimelyRun(worlds, actions, hold) && |actions| == 4 && Overdue(worlds[4], e)
  {
    actions := [Enqueue(e), Claim(1, 0), Send(1, false, Unreachable), Tick(CLAIM_LEASE_MS)];
    var w0 := World(0, map[], 0, [], {}, {}, map[]);
    var w1 := Step(w0, actions[0]);
    var w2 := Step(w1, actions[1]);
    var w3 := Step(w2, actions[2]);
    worlds := [w0, w1, w2, w3, Step(w3, actions[3])];
  }

  lemma LateDefer(e: Event, w0: World) returns (worlds: seq<World>, actions: seq<Action>)
    requires Overdue(w0, e)
    ensures Run(worlds, actions) && worlds[0] == w0 && |actions| == 3
    ensures forall i :: 0 <= i < 3 ==> !actions[i].Tick?
    ensures Busy(worlds[3], 2) && Busy(worlds[3], 3)
    ensures worlds[3].drainers[2].p.event == worlds[3].drainers[3].p.event == e
    ensures worlds[3].drainers[2].claimedAt == worlds[3].clock
  {
    actions := [Claim(2, 0), Settle(1, CLAIM_LEASE_MS), Claim(3, 0)];
    var w1 := Step(w0, actions[0]);
    var w2 := Step(w1, actions[1]);
    worlds := [w0, w1, w2, Step(w2, actions[2])];
  }

  // ---------- attempts are counted ----------

  /** A write that gives the event another try: no reply, or one that is unknown and not the twelfth. */
  predicate Postpones(w: World, a: Action, id: nat) {
    && a.Settle? && a.d in w.drainers && w.drainers[a.d].Resolving?
    && var r := w.drainers[a.d];
       && r.p.id == id
       && (r.outcome.Unreachable? || (Unrecognised(r.outcome) && r.p.attempts + 1 < 12))
  }

  function Postponements(worlds: seq<World>, actions: seq<Action>, id: nat, n: nat): nat
    requires n <= |actions| && n < |worlds|
  {
    if n == 0 then 0
    else
      var before := Postponements(worlds, actions, id, n - 1);
      if Postpones(worlds[n - 1], actions[n - 1], id) then before + 1 else before
  }

  /** Such a write counts one more attempt, and frees the event for the time drawn. */
  lemma PostponedIsDueAgain(w: World, a: Action, id: nat)
    requires Enabled(w, a) && Postpones(w, a, id) && id in w.docs
    ensures Step(w, a).docs == w.docs[id := Document(w.docs[id].event, w.docs[id].attempts + 1, a.retryAt, None)]
  {
  }

  /** A claim comes no earlier than that, not while a lease is running, and takes an event none is due before. */
  lemma ClaimsWaitTheirTurn(w: World, a: Action)
    requires Enabled(w, a) && (a.Claim? || a.ClaimUnheard?)
    ensures a.id in w.docs && w.docs[a.id].nextAttemptAt <= w.clock
    ensures w.docs[a.id].claimedAt.Some? ==> w.clock >= w.docs[a.id].claimedAt.value + 60_000
    ensures forall other :: other in w.docs && w.docs[other].nextAttemptAt < w.docs[a.id].nextAttemptAt ==>
                              w.docs[other].claimedAt.Some? && w.clock < w.docs[other].claimedAt.value + 60_000
    ensures Step(w, a).docs[a.id] == w.docs[a.id].(claimedAt := Some(w.clock))
  {
  }

  lemma StepCounts(w: World, a: Action, id: nat)
    requires Tidy(w) && Enabled(w, a) && (forall d :: Busy(w, d) ==> Informed(w, d))
    ensures id >= w.nextId ==> !Postpones(w, a, id)
    ensures id in Step(w, a).docs && id in w.docs ==>
              Step(w, a).docs[id].attempts == w.docs[id].attempts + if Postpones(w, a, id) then 1 else 0
    ensures id in Step(w, a).docs && id !in w.docs ==> id == w.nextId && Step(w, a).docs[id].attempts == 0
  {
    assert a.Settle? ==> Busy(w, a.d);
  }

  /** In every run, a document's attempts are the postponing writes on it since it was enqueued. */
  lemma {:induction false} AttemptsAreCounted(worlds: seq<World>, actions: seq<Action>, id: nat, n: nat)
    requires Run(worlds, actions) && Initial(worlds[0]) && n < |worlds|
    ensures id in worlds[n].docs ==> worlds[n].docs[id].attempts == Postponements(worlds, actions, id, n)
    ensures id >= worlds[n].nextId ==> Postponements(worlds, actions, id, n) == 0
  {
    if n > 0 {
      AttemptsAreCounted(worlds, actions, id, n - 1);
      NoEventIsLost(worlds, actions, n - 1);
      StepCounts(worlds[n - 1], actions[n - 1], id);
    }
  }

  /** While drainers keep to their lease, each knows the attempts of its event. */
  ghost predicate UpToDate(w: World) {
    forall d :: Busy(w, d) ==> w.drainers[d].p.id in w.docs
                               && w.docs[w.drainers[d].p.id].attempts == w.drainers[d].p.attempts
  }

  lemma StepKeepsUpToDate(w: World, a: Action, hold: nat)
    requires Leased(w, hold) && hold < CLAIM_LEASE_MS && UpToDate(w) && Enabled(w, a)
    requires forall id :: id in w.docs ==> id < w.nextId
    ensures UpToDate(Step(w, a))
  {
    var w' := Step(w, a);
    forall d | Busy(w', d)
      ensures w'.drainers[d].p.id in w'.docs
      ensures w'.docs[w'.drainers[d].p.id].attempts == w'.drainers[d].p.attempts
    {
      assert Busy(w, d) || (a.Claim? && a.d == d);
      if a.Settle? || a.DeleteBuried? {
        assert Busy(w, a.d);
      }
    }
  }

  lemma {:induction false} RunKeepsUpToDate(worlds: seq<World>, actions: seq<Action>, hold: nat, n: nat)
    requires TimelyRun(worlds, actions, hold) && hold < CLAIM_LEASE_MS && n < |worlds|
    ensures UpToDate(worlds[n])
  {
    if n > 0 {
      RunKeepsUpToDate(worlds, actions, hold, n - 1);
      RunKeepsLeased(worlds, actions, hold, n - 1);
      NoEventIsLost(worlds, actions, n - 1);
      StepKeepsUpToDate(worlds[n - 1], actions[n - 1], hold);
    }
  }

  /**
   In every run of drainers that keep to their lease, an unrecognised reply buries the event if and only if eleven
   attempts on it were postponed before.
   */
  lemma UnrecognisedBuriesAfterEleven(worlds: seq<World>, actions: seq<Action>, hold: nat, n: nat, d: nat, retryAt: int)
    requires TimelyRun(worlds, actions, hold) && hold < CLAIM_LEASE_MS && n < |worlds|
    requires d in worlds[n].drainers && worlds[n].drainers[d].Resolving? && Unrecognised(worlds[n].drainers[d].outcome)
    ensures Step(worlds[n], Settle(d, retryAt)).drainers[d].Burying?
            <==> Postponements(worlds, actions, worlds[n].drainers[d].p.id, n) >= 11
  {
    RunKeepsUpToDate(worlds, actions, hold, n);
    AttemptsAreCounted(worlds, actions, worlds[n].drainers[d].p.id, n);
    assert Busy(worlds[n], d);
  }
}
