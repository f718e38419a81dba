/** Draining the audit outbox (services/api/app/services/audit_drain.py). */
module AuditDrain {
  import opened Options
  import opened AuditOutbox
  import opened Powers

  const BATCH_SIZE := 32
  const BASE_BACKOFF_SECONDS := 2.0
  const MAX_BACKOFF_SECONDS := 300.0
  const MAX_BACKOFF_EXPONENT := 8
  const MAX_UNKNOWN_STATUS_ATTEMPTS := 12
  const CLAIM_LEASE_MS := 60_000

  const ACCEPTED := 1
  const REJECTED := 2
  const SCHEMA_UNSUPPORTED := 4

  datatype Outcome = Unreachable | Reply(status: int)

  datatype Resolution = Accepted | Postponed | Buried

  function Resolve(attempts: nat, outcome: Outcome): Resolution {
    if outcome.Unreachable? then Postponed
    else if outcome.status == ACCEPTED then Accepted
    else if outcome.status == REJECTED || outcome.status == SCHEMA_UNSUPPORTED then Buried
    else if attempts + 1 >= MAX_UNKNOWN_STATUS_ATTEMPTS then Buried
    else Postponed
  }

  /** By status number: accepted, terminal, or kept for at most eleven more tries. */
  lemma StatusesDecide(attempts: nat, status: int)
    ensures Resolve(attempts, Unreachable) == Postponed
    ensures Resolve(attempts, Reply(status)) == Accepted <==> status == 1
    ensures Resolve(attempts, Reply(status)) == Buried <==>
              status == 2 || status == 4 || (status != 1 && attempts >= 11)
  {
  }

  /** `retryAt` is the time _next_attempt_at would draw. */
  method ResolvePending(outbox: Outbox, p: PendingEvent, outcome: Outcome, retryAt: int) returns (r: Resolution)
    modifies outbox`docs, outbox`dead
    ensures r == Resolve(p.attempts, outcome)
    ensures outbox.docs == if r.Postponed? then Deferred(old(outbox.docs), p.id, retryAt)
                           else old(outbox.docs) - {p.id}
    ensures outbox.dead == if r.Buried? then old(outbox.dead) + [Grave(p, outcome.status)] else old(outbox.dead)
  {
    if outcome.Unreachable? {
      outbox.Defer(p.id, retryAt);
      return Postponed;
    }
    if outcome.status == ACCEPTED {
      outbox.Release(p.id);
      return Accepted;
    }
    if outcome.status in {REJECTED, SCHEMA_UNSUPPORTED} {
      outbox.Bury(p, outcome.status);
      return Buried;
    }
    if p.attempts + 1 >= MAX_UNKNOWN_STATUS_ATTEMPTS {
      outbox.Bury(p, outcome.status);
      return Buried;
    }
    outbox.Defer(p.id, retryAt);
    return Postponed;
  }

  // ---------- one drainer, nothing enqueued meanwhile ----------

  /** What the environment answers at the i-th event of a batch. */
  datatype Surroundings = Surroundings(now: nat -> int, outcome: nat -> Outcome, retryAt: nat -> int)

  /** Every event of a batch leaves the outbox, except a last one that is postponed. */
  method DrainOnce(outbox: Outbox, env: Surroundings) returns (handled: nat, postponed: bool)
    modifies outbox`docs, outbox`dead
    ensures handled <= BATCH_SIZE && (postponed ==> handled > 0)
    ensures |outbox.docs| + handled == |old(outbox.docs)| + if postponed then 1 else 0
    ensures outbox.docs.Keys <= old(outbox.docs.Keys)
    ensures old(outbox.dead) <= outbox.dead
    ensures handled < BATCH_SIZE && !postponed ==>
              forall id :: id in outbox.docs ==> !Claimable(outbox.docs[id], env.now(handled), CLAIM_LEASE_MS)
  {
    handled, postponed := 0, false;
    for i := 0 to BATCH_SIZE
      invariant handled == i && !postponed
      invariant |outbox.docs| + handled == |old(outbox.docs)|
      invariant outbox.docs.Keys <= old(outbox.docs.Keys)
      invariant old(outbox.dead) <= outbox.dead
    {
      ghost var before := outbox.docs;
      var claimed := outbox.Claim(CLAIM_LEASE_MS, env.now(i));
      if claimed == None {
        return handled, false;
      }
      ghost var held := outbox.docs;
      var p := claimed.value;
      assert held.Keys == before.Keys;
      SameKeysSameSize(before, held);
      var resolution := ResolvePending(outbox, p, env.outcome(i), env.retryAt(i));
      handled := handled + 1;
      if resolution == Postponed {
        assert outbox.docs.Keys == held.Keys;
        SameKeysSameSize(outbox.docs, held);
        return handled, true;
      }
      assert outbox.docs.Keys == held.Keys - {p.id};
      OneKeyLess(outbox.docs, held, p.id);
    }
  }

  lemma SameKeysSameSize(m: Documents, n: Documents)
    requires m.Keys == n.Keys
    ensures |m| == |n|
  {
    assert |m| == |m.Keys| && |n| == |n.Keys|;
  }

  lemma OneKeyLess(m: Documents, n: Documents, id: nat)
    requires m.Keys == n.Keys - {id} && id in n
    ensures |m| + 1 == |n|
  {
    assert |m| == |m.Keys| && |n| == |n.Keys|;
  }

  /** A full batch is followed by another without waiting; each takes at least 31 events away, so this ends. */
  method DrainFullBatches(outbox: Outbox, env: nat -> Surroundings) returns (batches: nat, handled: nat)
    modifies outbox`docs, outbox`dead
    ensures 31 * batches + |outbox.docs| <= |old(outbox.docs)|
    ensures handled < BATCH_SIZE
  {
    batches := 0;
    var postponed;
    handled, postponed := DrainOnce(outbox, env(0));
    while handled == BATCH_SIZE
      invariant 31 * batches + |outbox.docs| <= |old(outbox.docs)| - if handled == BATCH_SIZE then 31 else 0
      invariant handled <= BATCH_SIZE
      decreases |outbox.docs|, handled
    {
      batches := batches + 1;
      handled, postponed := DrainOnce(outbox, env(batches));
    }
  }

  // ---------- the fate of one event ----------

  datatype Fate = Waiting(attempts: nat) | Delivered | GivenUp

  function FateAfter(outcomes: seq<Outcome>): Fate {
    if outcomes == [] then Waiting(0)
    else
      var before := FateAfter(outcomes[..|outcomes| - 1]);
      if !before.Waiting? then before
      else
        match Resolve(before.attempts, outcomes[|outcomes| - 1])
        case Accepted => Delivered
        case Buried => GivenUp
        case Postponed => Waiting(before.attempts + 1)
  }

  predicate Unrecognised(outcome: Outcome) {
    outcome.Reply? && outcome.status !in {ACCEPTED, REJECTED, SCHEMA_UNSUPPORTED}
  }

  /** Attempt number i (from 0) ends the event's stay in the outbox. */
  predicate Final(outcomes: seq<Outcome>, i: nat)
    requires i < |outcomes|
  {
    outcomes[i].Reply? && (Unrecognised(outcomes[i]) ==> i + 1 >= MAX_UNKNOWN_STATUS_ATTEMPTS)
  }

  /**
   An event waits exactly while every attempt was unreachable or an unrecognised reply before
   the twelfth; the first other attempt decides, and only an accepting one delivers.
   */
  lemma {:induction false} FirstFinalAttemptDecides(outcomes: seq<Outcome>)
    ensures FateAfter(outcomes).Waiting? <==> forall i :: 0 <= i < |outcomes| ==> !Final(outcomes, i)
    ensures FateAfter(outcomes).Waiting? ==> FateAfter(outcomes).attempts == |outcomes|
    ensures forall i :: 0 <= i < |outcomes| && Final(outcomes, i) && (forall k :: 0 <= k < i ==> !Final(outcomes, k))
                        ==> FateAfter(outcomes) == if outcomes[i] == Reply(ACCEPTED) then Delivered else GivenUp
  {
    if outcomes != [] {
      var n := |outcomes| - 1;
      var before := outcomes[..n];
      FirstFinalAttemptDecides(before);
      assert forall i :: 0 <= i < n ==> before[i] == outcomes[i] && (Final(before, i) <==> Final(outcomes, i));
      assert FateAfter(outcomes).Waiting? <==> FateAfter(before).Waiting? && !Final(outcomes, n);
    }
  }

  /** An attempt that by itself decides nothing: unreachable, or an unrecognised reply. */
  predicate Undecided(outcome: Outcome) {
    outcome.Unreachable? || Unrecognised(outcome)
  }

  /**
   Attempts that all decide nothing by themselves bury the event exactly when one of them from the twelfth on is a
   reply, and leave it waiting otherwise; so unreachability alone never buries, and eleven replies never do.
   */
  lemma {:induction false} TwelfthUnrecognisedBuries(outcomes: seq<Outcome>)
    requires forall i :: 0 <= i < |outcomes| ==> Undecided(outcomes[i])
    ensures FateAfter(outcomes) == if exists i :: 11 <= i < |outcomes| && outcomes[i].Reply? then GivenUp
                                   else Waiting(|outcomes|)
  {
    FirstFinalAttemptDecides(outcomes);
    if i :| 11 <= i < |outcomes| && outcomes[i].Reply? {
      assert Final(outcomes, i);
      var first := FirstFinal(outcomes, i);
      assert Undecided(outcomes[first]);
    } else {
      assert forall i :: 0 <= i < |outcomes| ==> Undecided(outcomes[i]) && !Final(outcomes, i);
    }
  }

  lemma {:induction false} FirstFinal(outcomes: seq<Outcome>, i: nat) returns (first: nat)
    requires i < |outcomes| && Final(outcomes, i)
    ensures first <= i && Final(outcomes, first) && forall k :: 0 <= k < first ==> !Final(outcomes, k)
  {
    first := i;
    if k: nat :| k < i && Final(outcomes, k) {
      first := FirstFinal(outcomes, k);
    }
  }

  /** Outcome number k is the first that decides. */
  ghost predicate Decides(outcomes: seq<Outcome>, k: nat) {
    k < |outcomes| && Final(outcomes, k) && forall i :: 0 <= i < k ==> !Final(outcomes, i)
  }

  /** An outbox that one event went through, with the given outcomes of its attempts so far. */
  ghost predicate WentThrough(outbox: Outbox, event: Event, outcomes: seq<Outcome>, due: int)
    reads outbox
  {
    if forall i :: 0 <= i < |outcomes| ==> !Final(outcomes, i) then
      outbox.docs == map[0 := Document(event, |outcomes|, due, None)] && outbox.dead == []
    else
      && outbox.docs == map[]
      && exists k: nat :: EndedBy(outbox.dead, event, outcomes, k)
  }

  ghost predicate EndedBy(dead: seq<Dead>, event: Event, outcomes: seq<Outcome>, k: nat) {
    && Decides(outcomes, k)
    && dead == if outcomes[k] == Reply(ACCEPTED) then [] else [Dead(event, k + 1, outcomes[k].status)]
  }

  /**
   A drainer alone with one event, woken whenever it is due: claims and resolutions on the outbox have the fate that
   the outcomes decide.
   */
  method DeliverAlone(event: Event, outcomes: seq<Outcome>, now: int, retryAt: nat -> int)
    returns (outbox: Outbox, due: int)
    ensures fresh(outbox) && WentThrough(outbox, event, outcomes, due)
    ensures due == if outcomes == [] then now else retryAt(|outcomes| - 1)
  {
    outbox := new Outbox();
    var id := outbox.Enqueue(event, now);
    due := now;
    for n := 0 to |outcomes|
      invariant fresh(outbox) && WentThrough(outbox, event, outcomes[..n], due)
      invariant due == if n == 0 then now else retryAt(n - 1)
    {
      AttemptOnce(outbox, event, outcomes[..n], outcomes[n], due, retryAt(n));
      assert outcomes[..n + 1] == outcomes[..n] + [outcomes[n]];
      due := retryAt(n);
    }
    assert outcomes[..|outcomes|] == outcomes;
  }

  method AttemptOnce(outbox: Outbox, event: Event, ghost before: seq<Outcome>, outcome: Outcome, due: int, retryAt: int)
    requires WentThrough(outbox, event, before, due)
    modifies outbox`docs, outbox`dead
    ensures WentThrough(outbox, event, before + [outcome], retryAt)
  {
    OneMoreOutcome(before, outcome);
    ghost var after := before + [outcome];
    assert 0 in outbox.docs ==> Claimable(outbox.docs[0], due, CLAIM_LEASE_MS);
    assert 0 in outbox.docs || exists k: nat :: EndedBy(outbox.dead, event, before, k);
    var claimed := outbox.Claim(CLAIM_LEASE_MS, due);
    if claimed.Some? {
      var _ := ResolvePending(outbox, claimed.value, outcome, retryAt);
      assert Final(after, |before|) ==> EndedBy(outbox.dead, event, after, |before|);
    } else {
      ghost var k: nat :| EndedBy(outbox.dead, event, before, k);
      assert EndedBy(outbox.dead, event, after, k);
    }
  }

  lemma OneMoreOutcome(before: seq<Outcome>, outcome: Outcome)
    ensures var after := before + [outcome];
            && (forall i :: 0 <= i < |before| ==> (Final(after, i) <==> Final(before, i)))
            && (forall k: nat :: Decides(before, k) ==> Decides(after, k) && after[k] == before[k])
            && ((forall i :: 0 <= i < |before| ==> !Final(before, i)) && Final(after, |before|) ==>
                  Decides(after, |before|))
  {
    var after := before + [outcome];
    assert forall i :: 0 <= i < |before| ==> after[i] == before[i];
  }

  // ---------- backoff ----------

  function Delay(attempts: nat): real {
    var exponent := if attempts < MAX_BACKOFF_EXPONENT then attempts else MAX_BACKOFF_EXPONENT;
    var delay := BASE_BACKOFF_SECONDS * Pow2(exponent) as real;
    if delay < MAX_BACKOFF_SECONDS then delay else MAX_BACKOFF_SECONDS
  }

  /**
   Before jitter the delay never shrinks with more attempts; a jitter of at most a fifth keeps it within 1.6 to
   360 seconds.
   */
  lemma BackoffIsMonotoneAndBounded(attempts: nat, more: nat, jitter: real)
    requires attempts <= more && 0.8 <= jitter <= 1.2
    ensures Delay(attempts) <= Delay(more)
    ensures 1.6 <= Delay(attempts) * jitter <= 360.0
  {
    Pow2Grows(if attempts < MAX_BACKOFF_EXPONENT then attempts else MAX_BACKOFF_EXPONENT,
              if more < MAX_BACKOFF_EXPONENT then more else MAX_BACKOFF_EXPONENT);
    Within(Delay(attempts), jitter);
  }

  /** The delay starts at two seconds and doubles with every attempt up to five minutes. */
  lemma DelayDoublesToItsCap(attempts: nat)
    ensures Delay(0) == 2.0
    ensures Delay(attempts + 1) == if 2.0 * Delay(attempts) < 300.0 then 2.0 * Delay(attempts) else 300.0
  {
    assert Pow2(8) == 256 by {
      assert Pow2(4) == 16;
    }
    assert attempts < 8 ==> Pow2(attempts + 1) == 2 * Pow2(attempts);
  }

  lemma Within(delay: real, jitter: real)
    requires 2.0 <= delay <= 300.0 && 0.8 <= jitter <= 1.2
    ensures 1.6 <= delay * jitter <= 360.0
  {
    Nonnegative(delay - 2.0, jitter);
    Nonnegative(300.0 - delay, jitter);
  }

  lemma Nonnegative(x: real, y: real)
    requires 0.0 <= x && 0.0 <= y
    ensures 0.0 <= x * y
  {
  }
}
