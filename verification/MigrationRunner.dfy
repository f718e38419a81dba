/**
 Applying and reverting migrations (services/api/app/migrations/runner.py): one runner at a
 time, working through a fixed list of distinct versions, and able to die between any two calls.
 */
module MigrationRunner {
  import opened Options

  datatype Call = Up(version: int) | Down(version: int)

  predicate Ascending(versions: seq<int>) {
    forall i, j :: 0 <= i < j < |versions| ==> versions[i] < versions[j]
  }

  function Elements(s: seq<int>): set<int> {
    set v | v in s
  }

  function Reverse(s: seq<int>): seq<int> {
    if s == [] then [] else Reverse(s[1..]) + [s[0]]
  }

  predicate AtMost(version: int, target: Option<int>) {
    target.Some? ==> version <= target.value
  }

  predicate AtLeast(version: int, target: Option<int>) {
    target.Some? ==> target.value <= version
  }

  function Pending(versions: seq<int>, applied: set<int>, target: Option<int>): seq<int> {
    if versions == [] then []
    else
      var rest := Pending(versions[1..], applied, target);
      if versions[0] !in applied && AtMost(versions[0], target) then [versions[0]] + rest
      else rest
  }

  function Reversible(versions: seq<int>, applied: set<int>, target: Option<int>): seq<int> {
    if versions == [] then []
    else
      var rest := Reversible(versions[1..], applied, target);
      if versions[0] in applied && AtLeast(versions[0], target) then rest + [versions[0]]
      else rest
  }

  // ---------- the program ----------

  /** The tracking collection, and the calls of up and down made on the migration modules. */
  class Database {
    var recorded: set<int>
    var calls: seq<Call>

    method CallModule(call: Call)
      modifies this
      ensures calls == old(calls) + [call] && recorded == old(recorded)
    {
      calls := calls + [call];
    }

    method Record(version: int, up: bool)
      modifies this
      ensures recorded == (if up then old(recorded) + {version} else old(recorded) - {version})
      ensures calls == old(calls)
    {
      if up {
        recorded := recorded + {version};
      } else {
        recorded := recorded - {version};
      }
    }
  }

  /** Versions whose module was called, and versions recorded, when the process dies after `budget` calls. */
  function Called(todo: seq<int>, budget: nat): seq<int> {
    if |todo| <= (budget + 1) / 2 then todo else todo[..(budget + 1) / 2]
  }

  function Completed(todo: seq<int>, budget: nat): seq<int> {
    if |todo| <= budget / 2 then todo else todo[..budget / 2]
  }

  function UpCalls(versions: seq<int>): seq<Call> {
    seq(|versions|, i requires 0 <= i < |versions| => Up(versions[i]))
  }

  function DownCalls(versions: seq<int>): seq<Call> {
    seq(|versions|, i requires 0 <= i < |versions| => Down(versions[i]))
  }

  method ApplyUp(db: Database, pending: seq<int>, budget: nat)
    modifies db
    ensures db.recorded == old(db.recorded) + Elements(Completed(pending, budget))
    ensures db.calls == old(db.calls) + UpCalls(Called(pending, budget))
  {
    for i := 0 to |pending|
      invariant 2 * i <= budget
      invariant db.recorded == old(db.recorded) + Elements(pending[..i])
      invariant db.calls == old(db.calls) + UpCalls(pending[..i])
    {
      if budget == 2 * i {
        return;
      }
      db.CallModule(Up(pending[i]));
      assert UpCalls(pending[..i + 1]) == UpCalls(pending[..i]) + [Up(pending[i])];
      if budget == 2 * i + 1 {
        return;
      }
      db.Record(pending[i], true);
      assert pending[..i + 1] == pending[..i] + [pending[i]];
    }
    assert pending[..|pending|] == pending;
  }

  method ApplyDown(db: Database, reversible: seq<int>, budget: nat)
    modifies db
    ensures db.recorded == old(db.recorded) - Elements(Completed(reversible, budget))
    ensures db.calls == old(db.calls) + DownCalls(Called(reversible, budget))
  {
    for i := 0 to |reversible|
      invariant 2 * i <= budget
      invariant db.recorded == old(db.recorded) - Elements(reversible[..i])
      invariant db.calls == old(db.calls) + DownCalls(reversible[..i])
    {
      if budget == 2 * i {
        return;
      }
      db.CallModule(Down(reversible[i]));
      assert DownCalls(reversible[..i + 1]) == DownCalls(reversible[..i]) + [Down(reversible[i])];
      if budget == 2 * i + 1 {
        return;
      }
      db.Record(reversible[i], false);
      assert reversible[..i + 1] == reversible[..i] + [reversible[i]];
    }
    assert reversible[..|reversible|] == reversible;
  }

  datatype Command = Command(up: bool, target: Option<int>, budget: nat)

  datatype State = State(recorded: set<int>, calls: seq<Call>)

  function Todo(recorded: set<int>, versions: seq<int>, c: Command): seq<int> {
    if c.up then Pending(versions, recorded, c.target) else Reversible(versions, recorded, c.target)
  }

  function After(s: State, versions: seq<int>, c: Command): State {
    var todo := Todo(s.recorded, versions, c);
    if c.up then
      State(s.recorded + Elements(Completed(todo, c.budget)), s.calls + UpCalls(Called(todo, c.budget)))
    else
      State(s.recorded - Elements(Completed(todo, c.budget)), s.calls + DownCalls(Called(todo, c.budget)))
  }

  // ---------- what one invocation does, in plain terms ----------

  predicate Descending(versions: seq<int>) {
    forall i, j :: 0 <= i < j < |versions| ==> versions[i] > versions[j]
  }

  /** The listed versions an up is for: not recorded, and at most the target if there is one. */
  predicate DueUp(v: int, recorded: set<int>, versions: seq<int>, target: Option<int>) {
    v in versions && v !in recorded && (target.Some? ==> v <= target.value)
  }

  /** The listed versions a down is for: recorded, and at least the target if there is one. */
  predicate DueDown(v: int, recorded: set<int>, versions: seq<int>, target: Option<int>) {
    v in versions && v in recorded && (target.Some? ==> v >= target.value)
  }

  lemma {:induction false} PendingIsDue(versions: seq<int>, recorded: set<int>, target: Option<int>)
    ensures forall v :: v in Pending(versions, recorded, target) <==> DueUp(v, recorded, versions, target)
    ensures Ascending(versions) ==> Ascending(Pending(versions, recorded, target))
  {
    if versions != [] {
      var rest := versions[1..];
      PendingIsDue(rest, recorded, target);
      assert versions == [versions[0]] + rest;
      if Ascending(versions) {
        assert forall v :: v in rest ==> versions[0] < v;
        assert forall i :: 0 <= i < |Pending(rest, recorded, target)| ==>
            Pending(rest, recorded, target)[i] in Pending(rest, recorded, target);
      }
    }
  }

  lemma {:induction false} ReversibleIsDue(versions: seq<int>, recorded: set<int>, target: Option<int>)
    ensures forall v :: v in Reversible(versions, recorded, target) <==> DueDown(v, recorded, versions, target)
    ensures Ascending(versions) ==> Descending(Reversible(versions, recorded, target))
  {
    if versions != [] {
      var rest := versions[1..];
      ReversibleIsDue(rest, recorded, target);
      assert versions == [versions[0]] + rest;
      if Ascending(versions) {
        assert forall v :: v in rest ==> versions[0] < v;
        assert forall i :: 0 <= i < |Reversible(rest, recorded, target)| ==>
            Reversible(rest, recorded, target)[i] in Reversible(rest, recorded, target);
      }
    }
  }

  /**
   An up of ascending versions, cut off after `budget` database calls: it calls up on the versions it is for, in
   ascending order, and records each right after its call; every second call is a record.
   */
  lemma UpIsExact(s: State, versions: seq<int>, c: Command) returns (work: seq<int>)
    requires Ascending(versions) && c.up
    ensures Ascending(work) && forall v :: v in work <==> DueUp(v, s.recorded, versions, c.target)
    ensures var called := if |work| <= (c.budget + 1) / 2 then |work| else (c.budget + 1) / 2;
            var done := if |work| <= c.budget / 2 then |work| else c.budget / 2;
            && After(s, versions, c).calls == s.calls + seq(called, i requires 0 <= i < called => Up(work[i]))
            && forall v :: v in After(s, versions, c).recorded <==> v in s.recorded || v in work[..done]
  {
    work := Pending(versions, s.recorded, c.target);
    PendingIsDue(versions, s.recorded, c.target);
  }

  /** A down likewise, in descending order, deleting the record of each version right after its call. */
  lemma DownIsExact(s: State, versions: seq<int>, c: Command) returns (work: seq<int>)
    requires Ascending(versions) && !c.up
    ensures Descending(work) && forall v :: v in work <==> DueDown(v, s.recorded, versions, c.target)
    ensures var called := if |work| <= (c.budget + 1) / 2 then |work| else (c.budget + 1) / 2;
            var done := if |work| <= c.budget / 2 then |work| else c.budget / 2;
            && After(s, versions, c).calls == s.calls + seq(called, i requires 0 <= i < called => Down(work[i]))
            && forall v :: v in After(s, versions, c).recorded <==> v in s.recorded && v !in work[..done]
  {
    work := Reversible(versions, s.recorded, c.target);
    ReversibleIsDue(versions, s.recorded, c.target);
  }

  lemma CompletedRecords(recorded: set<int>, versions: seq<int>, c: Command)
    requires 2 * |versions| <= c.budget
    ensures Completed(Todo(recorded, versions, c), c.budget) == Todo(recorded, versions, c)
    ensures forall v :: v in Todo(recorded, versions, c) <==>
              if c.up then DueUp(v, recorded, versions, c.target) else DueDown(v, recorded, versions, c.target)
  {
    TodoIsNoLonger(recorded, versions, c);
    PendingIsDue(versions, recorded, c.target);
    ReversibleIsDue(versions, recorded, c.target);
  }

  lemma {:induction false} TodoIsNoLonger(recorded: set<int>, versions: seq<int>, c: Command)
    ensures |Todo(recorded, versions, c)| <= |versions|
  {
    if versions != [] {
      TodoIsNoLonger(recorded, versions[1..], c);
    }
  }

  /**
   One invocation of the runner, with the lock held: read what is applied, select, work.  Not cut short, an up adds
   every listed version up to the target, and a down takes away every one from the target on.
   */
  method Run(db: Database, versions: seq<int>, c: Command)
    modifies db
    ensures State(db.recorded, db.calls) == After(State(old(db.recorded), old(db.calls)), versions, c)
    ensures c.up && 2 * |versions| <= c.budget ==>
              forall v :: v in db.recorded <==>
                            v in old(db.recorded) || (v in versions && (c.target.Some? ==> v <= c.target.value))
    ensures !c.up && 2 * |versions| <= c.budget ==>
              forall v :: v in db.recorded <==>
                            v in old(db.recorded) && !(v in versions && (c.target.Some? ==> v >= c.target.value))
  {
    var applied := db.recorded;
    if c.up {
      ApplyUp(db, Pending(versions, applied, c.target), c.budget);
    } else {
      ApplyDown(db, Reversible(versions, applied, c.target), c.budget);
    }
    if 2 * |versions| <= c.budget {
      CompletedRecords(applied, versions, c);
    }
  }

  function AfterAll(s: State, versions: seq<int>, commands: seq<Command>): State {
    if commands == [] then s
    else After(AfterAll(s, versions, commands[..|commands| - 1]), versions, commands[|commands| - 1])
  }

  // ---------- the recorded versions are a prefix ----------

  ghost predicate Prefix(recorded: set<int>, versions: seq<int>) {
    exists k :: 0 <= k <= |versions| && recorded == Elements(versions[..k])
  }

  lemma ShiftSlice(s: seq<int>, i: nat, j: nat)
    requires 1 <= i <= j <= |s|
    ensures s[i..j] == s[1..][i - 1..j - 1]
  {
    assert |s[i..j]| == |s[1..][i - 1..j - 1]|;
    assert forall k :: 0 <= k < j - i ==> s[i..j][k] == s[1..][i - 1..j - 1][k];
  }

  /** If exactly the first k versions are applied, the pending ones are those from k up to some m. */
  lemma {:induction false} PendingIsTheNextBlock(versions: seq<int>, applied: set<int>, k: nat, target: Option<int>)
    returns (m: nat)
    requires Ascending(versions) && k <= |versions|
    requires forall i :: 0 <= i < |versions| ==> (versions[i] in applied <==> i < k)
    ensures k <= m <= |versions| && Pending(versions, applied, target) == versions[k..m]
    ensures forall i :: k <= i < |versions| ==> (AtMost(versions[i], target) <==> i < m)
  {
    m := k;
    if versions != [] {
      var rest := PendingIsTheNextBlock(versions[1..], applied, if k == 0 then 0 else k - 1, target);
      m := rest + 1;
      if k == 0 && !AtMost(versions[0], target) {
        m := 0;
        assert rest > 0 ==> versions[1..][0] == versions[1];
      } else {
        if k == 0 {
          assert versions[0..m] == [versions[0]] + versions[1..][0..rest];
        } else {
          ShiftSlice(versions, k, m);
        }
        forall i | k <= i < |versions|
          ensures AtMost(versions[i], target) <==> i < m
        {
          assert i > 0 ==> versions[i] == versions[1..][i - 1];
        }
      }
    }
  }

  /** And the reversible ones are those from some m up to k, last first. */
  lemma {:induction false} ReversibleIsTheLastBlock(versions: seq<int>, applied: set<int>, k: nat, target: Option<int>)
    returns (m: nat)
    requires Ascending(versions) && k <= |versions|
    requires forall i :: 0 <= i < |versions| ==> (versions[i] in applied <==> i < k)
    ensures m <= k && Reversible(versions, applied, target) == Reverse(versions[m..k])
    ensures forall i :: 0 <= i < k ==> (AtLeast(versions[i], target) <==> m <= i)
  {
    m := 0;
    if versions != [] {
      var k' := if k == 0 then 0 else k - 1;
      var rest := ReversibleIsTheLastBlock(versions[1..], applied, k', target);
      if k > 0 {
        if !AtLeast(versions[0], target) {
          m := rest + 1;
          assert versions[m..k] == versions[1..][rest..k'];
        } else {
          assert versions[0..k][1..] == versions[1..][rest..k'];
        }
      }
    }
  }

  lemma {:induction false} ReverseTakes(s: seq<int>, n: nat)
    requires n <= |s|
    ensures |Reverse(s)| == |s| && Reverse(s)[..n] == Reverse(s[|s| - n..])
  {
    if s != [] {
      if n == |s| {
        ReverseTakes(s[1..], |s| - 1);
        assert s[0..] == s;
        assert Reverse(s)[..n] == Reverse(s);
      } else {
        ReverseTakes(s[1..], n);
        assert s[1..][|s| - 1 - n..] == s[|s| - n..];
        assert Reverse(s)[..n] == Reverse(s[1..])[..n];
      }
    }
  }

  lemma {:induction false} ReverseKeepsElements(s: seq<int>)
    ensures Elements(Reverse(s)) == Elements(s)
  {
    if s != [] {
      ReverseKeepsElements(s[1..]);
      assert s == [s[0]] + s[1..];
      assert Elements(s) == {s[0]} + Elements(s[1..]);
    }
  }

  lemma MembersOfAPrefix(versions: seq<int>, k: nat)
    requires Ascending(versions) && k <= |versions|
    ensures forall i :: 0 <= i < |versions| ==> (versions[i] in Elements(versions[..k]) <==> i < k)
  {
    forall i | 0 <= i < k
      ensures versions[i] in Elements(versions[..k])
    {
      assert versions[..k][i] == versions[i];
    }
  }

  /** An up from the first k versions records those up to some n, m when it is not cut short. */
  lemma UpExtends(versions: seq<int>, recorded: set<int>, k: nat, c: Command) returns (n: nat, m: nat)
    requires Ascending(versions) && k <= |versions| && recorded == Elements(versions[..k]) && c.up
    ensures k <= n <= m <= |versions| && Todo(recorded, versions, c) == versions[k..m]
    ensures recorded + Elements(Completed(versions[k..m], c.budget)) == Elements(versions[..n])
    ensures forall i :: k <= i < |versions| ==> (AtMost(versions[i], c.target) <==> i < m)
  {
    MembersOfAPrefix(versions, k);
    m := PendingIsTheNextBlock(versions, recorded, k, c.target);
    n := k + |Completed(versions[k..m], c.budget)|;
    assert Completed(versions[k..m], c.budget) == versions[k..n];
    assert versions[..n] == versions[..k] + versions[k..n];
  }

  /** A down from the first k versions leaves the first n, m when it is not cut short. */
  lemma DownShortens(versions: seq<int>, recorded: set<int>, k: nat, c: Command) returns (n: nat, m: nat)
    requires Ascending(versions) && k <= |versions| && recorded == Elements(versions[..k]) && !c.up
    ensures m <= n <= k && Todo(recorded, versions, c) == Reverse(versions[m..k])
    ensures recorded - Elements(Completed(Reverse(versions[m..k]), c.budget)) == Elements(versions[..n])
    ensures forall i :: 0 <= i < k ==> (AtLeast(versions[i], c.target) <==> m <= i)
  {
    MembersOfAPrefix(versions, k);
    m := ReversibleIsTheLastBlock(versions, recorded, k, c.target);
    n := CompletedReverse(versions, m, k, c.budget);
    RemovingTheTail(versions, n, k);
  }

  lemma CompletedReverse(versions: seq<int>, m: nat, k: nat, budget: nat) returns (n: nat)
    requires m <= k <= |versions|
    ensures m <= n <= k && Elements(Completed(Reverse(versions[m..k]), budget)) == Elements(versions[n..k])
  {
    var block := versions[m..k];
    ReverseTakes(block, 0);
    var done := |Completed(Reverse(block), budget)|;
    n := k - done;
    ReverseTakes(block, done);
    assert Completed(Reverse(block), budget) == Reverse(block)[..done];
    assert block[|block| - done..] == versions[n..k];
    ReverseKeepsElements(versions[n..k]);
  }

  lemma CommandKeepsPrefix(s: State, versions: seq<int>, c: Command)
    requires Ascending(versions) && Prefix(s.recorded, versions)
    ensures Prefix(After(s, versions, c).recorded, versions)
  {
    var k :| 0 <= k <= |versions| && s.recorded == Elements(versions[..k]);
    if c.up {
      var n, m := UpExtends(versions, s.recorded, k, c);
      assert After(s, versions, c).recorded == Elements(versions[..n]);
    } else {
      var n, m := DownShortens(versions, s.recorded, k, c);
      assert After(s, versions, c).recorded == Elements(versions[..n]);
    }
  }

  lemma RemovingTheTail(versions: seq<int>, j: nat, k: nat)
    requires Ascending(versions) && j <= k <= |versions|
    ensures Elements(versions[..k]) - Elements(versions[j..k]) == Elements(versions[..j])
  {
    assert versions[..k] == versions[..j] + versions[j..k];
    assert forall v :: v in versions[..j] ==> v !in versions[j..k];
  }

  /** Whatever up and down runs with whatever targets came before, wherever each of them died. */
  lemma {:induction false} RecordedIsAlwaysAPrefix(start: State, versions: seq<int>, commands: seq<Command>)
    requires Ascending(versions) && Prefix(start.recorded, versions)
    ensures Prefix(AfterAll(start, versions, commands).recorded, versions)
  {
    if commands != [] {
      var c := commands[|commands| - 1];
      RecordedIsAlwaysAPrefix(start, versions, commands[..|commands| - 1]);
      CommandKeepsPrefix(AfterAll(start, versions, commands[..|commands| - 1]), versions, c);
    }
  }

  // ---------- down undoes up ----------

  /** A command that runs to its end. */
  predicate Completes(c: Command, versions: seq<int>) {
    2 * |versions| <= c.budget
  }

  lemma CompletesAll(todo: seq<int>, versions: seq<int>, c: Command)
    requires Completes(c, versions) && |todo| <= |versions|
    ensures Completed(todo, c.budget) == todo && Called(todo, c.budget) == todo
  {
  }

  ghost predicate ExactlyBelow(recorded: set<int>, versions: seq<int>, t: int) {
    forall v :: v in recorded <==> v in versions && v < t
  }

  /**
   From exactly the versions below T, a completed up and a completed down to T restore the
   recorded versions, and down is called on the modules in the exact reverse order of up.
   */
  lemma UpThenDownRestores(s: State, versions: seq<int>, t: int, up: Command, down: Command)
    requires Ascending(versions)
    requires ExactlyBelow(s.recorded, versions, t)
    requires up.up && !down.up && down.target == Some(t)
    requires Completes(up, versions) && Completes(down, versions)
    ensures var todo := Pending(versions, s.recorded, up.target);
            var end := After(After(s, versions, up), versions, down);
            && end.recorded == s.recorded
            && end.calls == s.calls + UpCalls(todo) + DownCalls(Reverse(todo))
  {
    var k := Below(versions, t);
    BelowIsPrefix(s.recorded, versions, t, k);
    var n, m := UpExtends(versions, s.recorded, k, up);
    CompletesAll(versions[k..m], versions, up);
    assert n == m by {
      assert versions[..k] + versions[k..m] == versions[..m];
      SamePrefix(versions, n, m);
    }
    DownAgain(State(Elements(versions[..m]), s.calls + UpCalls(versions[k..m])), versions, t, k, m, down);
  }

  lemma SamePrefix(versions: seq<int>, n: nat, m: nat)
    requires Ascending(versions) && n <= m <= |versions|
    requires Elements(versions[..n]) == Elements(versions[..m])
    ensures n == m
  {
    MembersOfAPrefix(versions, n);
    MembersOfAPrefix(versions, m);
    if n < |versions| {
      assert versions[n] in Elements(versions[..m]) <==> n < m;
    }
  }

  lemma DownAgain(s: State, versions: seq<int>, t: int, k: nat, m: nat, down: Command)
    requires Ascending(versions) && k <= m <= |versions| && s.recorded == Elements(versions[..m])
    requires forall i :: 0 <= i < |versions| ==> (versions[i] < t <==> i < k)
    requires !down.up && down.target == Some(t) && Completes(down, versions)
    ensures After(s, versions, down)
         == State(Elements(versions[..k]), s.calls + DownCalls(Reverse(versions[k..m])))
  {
    var n, j := DownShortens(versions, s.recorded, m, down);
    assert j < m ==> AtLeast(versions[j], down.target);
    assert k < m ==> (AtLeast(versions[k], down.target) <==> j <= k);
    assert j == k;
    ReverseTakes(versions[k..m], 0);
    CompletesAll(Reverse(versions[k..m]), versions, down);
    ReverseKeepsElements(versions[k..m]);
    RemovingTheTail(versions, k, m);
  }

  /** The number of versions below t. */
  lemma {:induction false} Below(versions: seq<int>, t: int) returns (k: nat)
    requires Ascending(versions)
    ensures k <= |versions|
    ensures forall i :: 0 <= i < |versions| ==> (versions[i] < t <==> i < k)
  {
    k := 0;
    if versions != [] && versions[0] < t {
      k := Below(versions[1..], t);
      k := k + 1;
    }
  }

  lemma BelowIsPrefix(recorded: set<int>, versions: seq<int>, t: int, k: nat)
    requires ExactlyBelow(recorded, versions, t) && k <= |versions|
    requires forall i :: 0 <= i < |versions| ==> (versions[i] < t <==> i < k)
    ensures recorded == Elements(versions[..k])
  {
    forall v
      ensures v in recorded <==> v in Elements(versions[..k])
    {
      if v in recorded {
        var i :| 0 <= i < |versions| && versions[i] == v;
        assert versions[..k][i] == v;
      }
      if v in versions[..k] {
        var i :| 0 <= i < k && versions[..k][i] == v;
        assert versions[i] == v;
      }
    }
  }
}
