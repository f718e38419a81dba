/**
 The camera health register (services/api/app/services/camera_reconcile.py).  Every pod
 offers the states it observed, with the time of the observation, to one Redis script.
 */
module CameraTransitions {
  import opened Options

  type Health = string

  /** The value under the key: `state|milliseconds`, or something without the separator. */
  datatype Stored = Pair(state: Health, seen: Option<int>) | Unseparated

  function Fresh(current: Option<Stored>, observed: int): bool {
    current.Some? && current.value.Pair? && current.value.seen.Some? ==> current.value.seen.value < observed
  }

  function Previous(current: Option<Stored>): Option<Health> {
    if current.Some? && current.value.Pair? then Some(current.value.state) else None
  }

  /** One camera's key with the time from which Redis may drop it, and the states published for it so far. */
  class HealthKey {
    var current: Option<Stored>
    var deadline: int
    var published: seq<Health>

    constructor ()
      ensures current == None && published == []
    {
      current, deadline, published := None, 0, [];
    }

    /** The transition script, run atomically at `now`; `ttl` is its EX argument in milliseconds. */
    method Transition(state: Health, observed: int, now: int, ttl: nat) returns (announced: bool)
      modifies this
      ensures deadline == if Fresh(old(current), observed) then now + ttl else old(deadline)
      ensures current == (if Fresh(old(current), observed) then Some(Pair(state, Some(observed))) else old(current))
      ensures announced == (Fresh(old(current), observed) && Previous(old(current)) != Some(state))
      ensures published == if announced then old(published) + [state] else old(published)
    {
      var previous: Option<Health> := None;
      if current.Some? && current.value.Pair? {
        if current.value.seen.Some? && observed <= current.value.seen.value {
          return false;
        }
        previous := Some(current.value.state);
      }
      current, deadline := Some(Pair(state, Some(observed))), now + ttl;
      if previous == Some(state) {
        return false;
      }
      published := published + [state];
      return true;
    }

    method Lapse(now: int)
      requires deadline <= now
      modifies this
      ensures current == None && published == old(published) && deadline == old(deadline)
    {
      current := None;
    }
  }

  // ---------- runs from an empty key that does not lapse ----------

  datatype Observation = Observation(state: Health, at: int)

  datatype Register = Register(current: Option<Stored>, published: seq<Health>)

  /** The key after the first n observations in order of arrival, as Transition leaves it. */
  function After(arrivals: seq<Observation>, n: nat): Register
    requires n <= |arrivals|
  {
    if n == 0 then Register(None, [])
    else
      var before := After(arrivals, n - 1);
      var o := arrivals[n - 1];
      if !Fresh(before.current, o.at) then before
      else
        Register(Some(Pair(o.state, Some(o.at))),
                 if Previous(before.current) == Some(o.state) then before.published
                 else before.published + [o.state])
  }

  /** Driving the key through the script gives the register the lemmas below are about. */
  method Replay(arrivals: seq<Observation>, now: nat -> int, ttl: nat) returns (key: HealthKey)
    ensures Register(key.current, key.published) == After(arrivals, |arrivals|)
  {
    key := new HealthKey();
    for n := 0 to |arrivals|
      invariant fresh(key)
      invariant Register(key.current, key.published) == After(arrivals, n)
    {
      var _ := key.Transition(arrivals[n].state, arrivals[n].at, now(n), ttl);
    }
  }

  /** Of the first n, observation m has the greatest time and was the first of that time to arrive. */
  ghost predicate Latest(arrivals: seq<Observation>, n: nat, m: nat)
    requires n <= |arrivals|
  {
    && m < n
    && (forall i :: 0 <= i < n ==> arrivals[i].at <= arrivals[m].at)
    && (forall i :: 0 <= i < m ==> arrivals[i].at < arrivals[m].at)
  }

  ghost predicate SetsRecord(arrivals: seq<Observation>, i: nat)
    requires i < |arrivals|
  {
    forall k :: 0 <= k < i ==> arrivals[k].at < arrivals[i].at
  }

  ghost function RecordStates(arrivals: seq<Observation>, n: nat): seq<Health>
    requires n <= |arrivals|
  {
    if n == 0 then []
    else if SetsRecord(arrivals, n - 1) then RecordStates(arrivals, n - 1) + [arrivals[n - 1].state]
    else RecordStates(arrivals, n - 1)
  }

  function WithoutRepeats(states: seq<Health>): seq<Health> {
    if |states| < 2 then states
    else
      var rest := WithoutRepeats(states[..|states| - 1]);
      if states[|states| - 1] == states[|states| - 2] then rest else rest + [states[|states| - 1]]
  }

  lemma {:induction false} RegisterAfter(arrivals: seq<Observation>, n: nat) returns (m: nat)
    requires 0 < n <= |arrivals|
    ensures Latest(arrivals, n, m)
    ensures After(arrivals, n).current == Some(Pair(arrivals[m].state, Some(arrivals[m].at)))
    ensures After(arrivals, n).published == WithoutRepeats(RecordStates(arrivals, n))
    ensures var s := RecordStates(arrivals, n);
            s != [] && s[|s| - 1] == arrivals[m].state
  {
    m := n - 1;
    if n == 1 {
      assert After(arrivals, 0) == Register(None, []) && RecordStates(arrivals, 0) == [];
      assert SetsRecord(arrivals, 0);
      assert RecordStates(arrivals, 1) == [arrivals[0].state];
    } else {
      var earlier := RegisterAfter(arrivals, n - 1);
      if Fresh(After(arrivals, n - 1).current, arrivals[n - 1].at) {
        assert SetsRecord(arrivals, n - 1);
        AppendState(RecordStates(arrivals, n - 1), arrivals[n - 1].state);
      } else {
        assert !SetsRecord(arrivals, n - 1);
        m := earlier;
      }
    }
  }

  lemma AppendState(states: seq<Health>, state: Health)
    requires states != []
    ensures WithoutRepeats(states + [state])
         == if states[|states| - 1] == state then WithoutRepeats(states) else WithoutRepeats(states) + [state]
  {
    assert (states + [state])[..|states|] == states;
  }

  /**
   The stored pair is the latest observation, the published states are the record-setting
   ones with consecutive repeats removed, and so the last event tells the stored state.
   */
  lemma LatestObservationWins(arrivals: seq<Observation>, m: nat)
    requires Latest(arrivals, |arrivals|, m)
    ensures var r := After(arrivals, |arrivals|);
            && r.current == Some(Pair(arrivals[m].state, Some(arrivals[m].at)))
            && r.published == WithoutRepeats(RecordStates(arrivals, |arrivals|))
            && r.published != [] && r.published[|r.published| - 1] == arrivals[m].state
  {
    var winner := RegisterAfter(arrivals, |arrivals|);
    LastSurvives(RecordStates(arrivals, |arrivals|));
  }

  lemma {:induction false} LastSurvives(states: seq<Health>)
    requires states != []
    ensures var kept := WithoutRepeats(states);
            kept != [] && kept[|kept| - 1] == states[|states| - 1]
  {
    if |states| >= 2 {
      LastSurvives(states[..|states| - 1]);
    }
  }

  /** Two pods' arrivals in any other order leave the same time, and the same pair unless two observations tie. */
  lemma ArrivalOrderIsIrrelevant(one: seq<Observation>, other: seq<Observation>, m: nat, m': nat)
    requires multiset(one) == multiset(other)
    requires Latest(one, |one|, m) && Latest(other, |other|, m')
    ensures one[m].at == other[m'].at
    ensures (forall i, j :: 0 <= i < |one| && 0 <= j < |one| && one[i].at == one[j].at ==> one[i] == one[j])
            ==> After(one, |one|).current == After(other, |other|).current
  {
    LatestObservationWins(one, m);
    LatestObservationWins(other, m');
    assert one[m] in multiset(other) && other[m'] in multiset(one);
    var i :| 0 <= i < |other| && other[i] == one[m];
    var j :| 0 <= j < |one| && one[j] == other[m'];
  }
}
