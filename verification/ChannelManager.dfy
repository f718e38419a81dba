/**
 The WebSocket channels of the web client (apps/web/lib/websocket/manager.ts): one channel per
 topic, driven by subscribers, sockets, timers, probes and reachability changes.
 Close codes are those of section 7.4.1 of RFC 6455.
 */
module ChannelManager {
  import opened Options

  const MAX_ATTEMPTS := 12
  const NORMAL := 1000
  const ABNORMAL := 1006
  const POLICY := 1008

  datatype Reachability = Online | Offline | Unknown

  datatype Status = Idle | Connecting | Open | Waiting | OfflineNow | Stopped

  /** A browser socket: whether its handlers are set, whether it can still fire, and the generation they captured. */
  datatype Socket = Socket(handlers: bool, alive: bool, generation: nat)

  /** Marks in the order in which a channel resets `attempt` and schedules reconnects. */
  datatype Mark = Reset | Scheduled

  /** A message handed to the listeners: the socket that received it, and the channel's socket then. */
  datatype Delivery = Delivery(from: nat, current: Option<nat>)

  /** `timers` holds every pending reconnect timer, also one the channel no longer remembers. */
  datatype State = State(
    socket: Option<nat>,
    status: Status,
    attempt: nat,
    refcount: nat,
    timer: Option<nat>,
    watchdog: bool,
    generation: nat,
    sockets: seq<Socket>,
    timers: set<nat>,
    nextTimer: nat,
    probes: nat,            // diagnose calls in flight
    marks: seq<Mark>,
    deliveries: seq<Delivery>)

  // ---------- what each function of the source does to a channel ----------

  function ClearedTimers(c: State): State {
    c.(timer := None, watchdog := false, timers := if c.timer.Some? then c.timers - {c.timer.value} else c.timers)
  }

  function TornDown(c: State): State {
    var t := ClearedTimers(c.(generation := c.generation + 1)).(socket := None);
    if c.socket.Some? && c.socket.value < |c.sockets| then
      t.(sockets := c.sockets[c.socket.value := c.sockets[c.socket.value].(handlers := false, alive := false)])
    else t
  }

  function Parked(c: State): State {
    ClearedTimers(c).(status := OfflineNow)
  }

  function Rescheduled(c: State, reach: Reachability): State {
    if c.refcount == 0 then c.(status := Idle)
    else if reach == Offline then Parked(c)
    else if c.attempt >= MAX_ATTEMPTS then c.(status := Stopped)
    else
      c.(attempt := c.attempt + 1, status := Waiting, timer := Some(c.nextTimer), timers := c.timers + {c.nextTimer},
         nextTimer := c.nextTimer + 1, marks := c.marks + [Scheduled])
  }

  /** `created` is false when the WebSocket constructor throws. */
  function Connected(c: State, reach: Reachability, created: bool): State {
    if c.refcount == 0 || c.socket.Some? then c
    else if reach == Offline then Parked(c)
    else if !created then Rescheduled(c, reach)
    else
      c.(socket := Some(|c.sockets|), sockets := c.sockets + [Socket(true, true, c.generation)], status := Connecting)
  }

  function WithReset(c: State): State {
    c.(attempt := 0, marks := c.marks + [Reset])
  }

  predicate Stale(c: State, s: nat)
    requires s < |c.sockets|
  {
    c.sockets[s].generation != c.generation
  }

  function Opened(c: State, s: nat): State
    requires s < |c.sockets|
  {
    if Stale(c, s) then c else WithReset(c).(status := Open, watchdog := true)
  }

  function Received(c: State, s: nat, ping: bool): State
    requires s < |c.sockets|
  {
    if Stale(c, s) then c
    else
      var c' := c.(watchdog := true);
      if ping then c' else c'.(deliveries := c.deliveries + [Delivery(s, c.socket)])
  }

  /** `terminal` tells whether the reason is one after which the client gives up. */
  function Closed(c: State, s: nat, code: int, terminal: bool, reach: Reachability): State
    requires s < |c.sockets|
  {
    var dead := c.(sockets := c.sockets[s := c.sockets[s].(alive := false)]);
    if Stale(c, s) then dead
    else
      var gone := ClearedTimers(dead.(socket := None));
      if code == NORMAL then gone.(status := Idle)
      else if code == POLICY && terminal then gone.(status := Stopped)
      else if code == ABNORMAL then gone.(status := Waiting, probes := gone.probes + 1)
      else Rescheduled(gone, reach)
  }

  datatype Probe = NeedsLogin | NetworkError | Reached

  function Diagnosed(c: State, result: Probe, reach: Reachability): State
    requires c.probes > 0
  {
    var done := c.(probes := c.probes - 1);
    match result
    case NeedsLogin => done.(status := Stopped)
    case NetworkError => Parked(done)
    case Reached => Rescheduled(done, reach)
  }

  function TimerFired(c: State, t: nat, reach: Reachability, created: bool): State {
    Connected(c.(timer := None, timers := c.timers - {t}), reach, created)
  }

  function Notified(c: State, reach: Reachability, created: bool): State {
    if c.refcount == 0 then c
    else if reach == Offline then Parked(TornDown(c))
    else if c.socket.Some? || c.status == Stopped then c
    else Connected(WithReset(ClearedTimers(c)), reach, created)
  }

  function Subscribed(c: State, reach: Reachability, created: bool): State {
    var more := c.(refcount := c.refcount + 1);
    if c.socket == None && c.timer == None && c.status != Stopped then Connected(more, reach, created) else more
  }

  function Unsubscribed(c: State): State
    requires c.refcount > 0
  {
    var less := c.(refcount := c.refcount - 1);
    if less.refcount > 0 then less else TornDown(less).(status := Idle)
  }

  function Retried(c: State, reach: Reachability, created: bool): State {
    if c.refcount == 0 then c
    else
      var fresh' := WithReset(TornDown(c));
      if reach == Offline then Parked(fresh') else Connected(fresh'.(status := Idle), reach, created)
  }

  // ---------- the channel object ----------

  class Channel {
    var socket: Option<nat>
    var status: Status
    var attempt: nat
    var refcount: nat
    var timer: Option<nat>
    var watchdog: bool
    var generation: nat
    var sockets: seq<Socket>
    var timers: set<nat>
    var nextTimer: nat
    var probes: nat
    ghost var marks: seq<Mark>
    ghost var deliveries: seq<Delivery>

    ghost function View(): State
      reads this
    {
      State(socket, status, attempt, refcount, timer, watchdog, generation, sockets, timers, nextTimer, probes,
            marks, deliveries)
    }

    constructor ()
      ensures View() == NewChannel()
    {
      socket, status, attempt, refcount := None, Idle, 0, 0;
      timer, watchdog, generation := None, false, 0;
      sockets, timers, nextTimer, probes := [], {}, 0, 0;
      marks, deliveries := [], [];
    }

    method ClearTimers()
      modifies this
      ensures View() == ClearedTimers(old(View()))
    {
      if timer.Some? {
        timers := timers - {timer.value};
        timer := None;
      }
      if watchdog {
        watchdog := false;
      }
    }

    method Teardown()
      modifies this
      ensures View() == TornDown(old(View()))
    {
      generation := generation + 1;
      ClearTimers();
      var closing := socket;
      socket := None;
      if closing == None {
        return;
      }
      if closing.value < |sockets| {
        sockets := sockets[closing.value := sockets[closing.value].(handlers := false)];
        sockets := sockets[closing.value := sockets[closing.value].(alive := false)];
      }
    }

    method Park()
      modifies this
      ensures View() == Parked(old(View()))
    {
      ClearTimers();
      status := OfflineNow;
    }

    method ScheduleReconnect(reach: Reachability)
      modifies this
      ensures View() == Rescheduled(old(View()), reach)
    {
      if refcount == 0 {
        status := Idle;
        return;
      }
      if reach == Offline {
        Park();
        return;
      }
      if attempt >= MAX_ATTEMPTS {
        status := Stopped;
        return;
      }
      attempt := attempt + 1;
      marks := marks + [Scheduled];
      status := Waiting;
      timer := Some(nextTimer);
      timers := timers + {nextTimer};
      nextTimer := nextTimer + 1;
    }

    method Connect(reach: Reachability, created: bool)
      modifies this
      ensures View() == Connected(old(View()), reach, created)
    {
      if refcount == 0 || socket.Some? {
        return;
      }
      if reach == Offline {
        Park();
        return;
      }
      if !created {
        ScheduleReconnect(reach);
        return;
      }
      sockets := sockets + [Socket(true, true, generation)];
      socket := Some(|sockets| - 1);
      status := Connecting;
    }

    method OnOpen(s: nat)
      requires s < |sockets|
      modifies this
      ensures View() == Opened(old(View()), s)
    {
      if sockets[s].generation != generation {
        return;
      }
      attempt := 0;
      marks := marks + [Reset];
      status := Open;
      watchdog := true;
    }

    method OnMessage(s: nat, ping: bool)
      requires s < |sockets|
      modifies this
      ensures View() == Received(old(View()), s, ping)
    {
      if sockets[s].generation != generation {
        return;
      }
      watchdog := true;
      if ping {
        return;
      }
      deliveries := deliveries + [Delivery(s, socket)];
    }

    method OnClose(s: nat, code: int, terminal: bool, reach: Reachability)
      requires s < |sockets|
      modifies this
      ensures View() == Closed(old(View()), s, code, terminal, reach)
    {
      sockets := sockets[s := sockets[s].(alive := false)];
      if sockets[s].generation != generation {
        return;
      }
      socket := None;
      ClearTimers();
      if code == NORMAL {
        status := Idle;
        return;
      }
      if code == POLICY && terminal {
        status := Stopped;
        return;
      }
      if code == ABNORMAL {
        status := Waiting;
        probes := probes + 1;
        return;
      }
      ScheduleReconnect(reach);
    }

    /** The part of diagnose after its request; the generation is not looked at. */
    method Diagnose(result: Probe, reach: Reachability)
      requires probes > 0
      modifies this
      ensures View() == Diagnosed(old(View()), result, reach)
    {
      probes := probes - 1;
      if result == NeedsLogin {
        status := Stopped;
        return;
      }
      if result == NetworkError {
        Park();
        return;
      }
      ScheduleReconnect(reach);
    }

    method OnTimer(t: nat, reach: Reachability, created: bool)
      modifies this
      ensures View() == TimerFired(old(View()), t, reach, created)
    {
      timers := timers - {t};
      timer := None;
      Connect(reach, created);
    }

    method OnReachability(reach: Reachability, created: bool)
      modifies this
      ensures View() == Notified(old(View()), reach, created)
    {
      if refcount == 0 {
        return;
      }
      if reach == Offline {
        Teardown();
        Park();
        return;
      }
      if socket.Some? || status == Stopped {
        return;
      }
      ClearTimers();
      attempt := 0;
      marks := marks + [Reset];
      Connect(reach, created);
    }

    method Subscribe(reach: Reachability, created: bool)
      modifies this
      ensures View() == Subscribed(old(View()), reach, created)
    {
      refcount := refcount + 1;
      if socket == None && timer == None && status != Stopped {
        Connect(reach, created);
      }
    }

    method Unsubscribe()
      requires refcount > 0
      modifies this
      ensures View() == Unsubscribed(old(View()))
    {
      refcount := refcount - 1;
      if refcount > 0 {
        return;
      }
      Teardown();
      status := Idle;
    }

    method Retry(reach: Reachability, created: bool)
      modifies this
      ensures View() == Retried(old(View()), reach, created)
    {
      if refcount == 0 {
        return;
      }
      Teardown();
      attempt := 0;
      marks := marks + [Reset];
      if reach == Offline {
        Park();
        return;
      }
      status := Idle;
      Connect(reach, created);
    }
  }

  /** The reachability listener tells every channel in turn. */
  method HandleReachabilityChange(channels: seq<Channel>, reach: Reachability, created: nat -> bool)
    requires forall i, j :: 0 <= i < j < |channels| ==> channels[i] != channels[j]
    modifies channels
    ensures forall i :: 0 <= i < |channels| ==>
                          channels[i].View() == Notified(old(channels[i].View()), reach, created(i))
  {
    for n := 0 to |channels|
      invariant forall i :: 0 <= i < n ==> channels[i].View() == Notified(old(channels[i].View()), reach, created(i))
      invariant forall i :: n <= i < |channels| ==> channels[i].View() == old(channels[i].View())
    {
      channels[n].OnReachability(reach, created(n));
    }
  }

  function NewChannel(): State {
    State(None, Idle, 0, 0, None, false, 0, [], {}, 0, 0, [], [])
  }

  // ---------- all interleavings on all channels ----------

  type Topic = string

  datatype World = World(reach: Reachability, channels: map<Topic, State>)

  /**
   `offline` on the watchdog and on a network error says that the transport failure reported in
   the middle of that callback finds the browser offline, which notifies every channel at once.
   */
  datatype Event =
    | Use(topic: Topic)
    | Join(topic: Topic, created: bool)
    | Leave(topic: Topic)
    | TryAgain(topic: Topic, created: bool)
    | SocketOpens(topic: Topic, s: nat)
    | SocketReceives(topic: Topic, s: nat, ping: bool)
    | SocketCloses(topic: Topic, s: nat, code: int, terminal: bool)
    | TimerFires(topic: Topic, t: nat, created: bool)
    | WatchdogFires(topic: Topic, offline: bool)
    | ProbeEnds(topic: Topic, result: Probe, offline: bool)
    | ReachabilityChanges(reach: Reachability, opening: set<Topic>)

  predicate CanFire(c: State, s: nat) {
    s < |c.sockets| && c.sockets[s].handlers && c.sockets[s].alive
  }

  predicate Enabled(w: World, e: Event) {
    match e
    case Use(topic) => topic !in w.channels
    case ReachabilityChanges(reach, _) => reach != w.reach
    case Join(topic, _) => topic in w.channels
    case TryAgain(topic, _) => topic in w.channels
    case Leave(topic) => topic in w.channels && w.channels[topic].refcount > 0
    case SocketOpens(topic, s) => topic in w.channels && CanFire(w.channels[topic], s)
    case SocketReceives(topic, s, _) => topic in w.channels && CanFire(w.channels[topic], s)
    case SocketCloses(topic, s, _, _) => topic in w.channels && CanFire(w.channels[topic], s)
    case TimerFires(topic, t, _) => topic in w.channels && t in w.channels[topic].timers
    case WatchdogFires(topic, _) => topic in w.channels && w.channels[topic].watchdog
    case ProbeEnds(topic, _, _) => topic in w.channels && w.channels[topic].probes > 0
  }

  function Becomes(w: World, topic: Topic, c: State): World {
    w.(channels := w.channels[topic := c])
  }

  function Notify(w: World, reach: Reachability, opening: set<Topic>): World {
    World(reach, map topic | topic in w.channels :: Notified(w.channels[topic], reach, topic in opening))
  }

  function Reported(w: World, offline: bool): World {
    if offline && w.reach != Offline then Notify(w, Offline, {}) else w
  }

  function Step(w: World, e: Event): World
    requires Enabled(w, e)
  {
    match e
    case Use(topic) => Becomes(w, topic, NewChannel())
    case ReachabilityChanges(reach, opening) => Notify(w, reach, opening)
    case Join(topic, created) => Becomes(w, topic, Subscribed(w.channels[topic], w.reach, created))
    case TryAgain(topic, created) => Becomes(w, topic, Retried(w.channels[topic], w.reach, created))
    case Leave(topic) => Becomes(w, topic, Unsubscribed(w.channels[topic]))
    case SocketOpens(topic, s) => Becomes(w, topic, Opened(w.channels[topic], s))
    case SocketReceives(topic, s, ping) => Becomes(w, topic, Received(w.channels[topic], s, ping))
    case SocketCloses(topic, s, code, terminal) =>
      Becomes(w, topic, Closed(w.channels[topic], s, code, terminal, w.reach))
    case TimerFires(topic, t, created) => Becomes(w, topic, TimerFired(w.channels[topic], t, w.reach, created))
    case WatchdogFires(topic, offline) =>
      var w' := Reported(Becomes(w, topic, TornDown(w.channels[topic])), offline);
      Becomes(w', topic, Rescheduled(w'.channels[topic], w'.reach))
    case ProbeEnds(topic, result, offline) =>
      var w' := Reported(w, offline && result == NetworkError);
      Becomes(w', topic, Diagnosed(w'.channels[topic], result, w'.reach))
  }

  ghost predicate Run(worlds: seq<World>, events: seq<Event>) {
    && |worlds| == |events| + 1
    && forall i :: 0 <= i < |events| ==> Enabled(worlds[i], events[i]) && worlds[i + 1] == Step(worlds[i], events[i])
  }

  // ---------- safety ----------

  /**
   The only socket that can fire is the channel's own, of the current generation; idle or offline channels have
   none.
   */
  ghost predicate OneSocket(c: State, reach: Reachability) {
    && (forall s: nat :: CanFire(c, s) ==> c.socket == Some(s))
    && (c.socket.Some? ==> CanFire(c, c.socket.value) && !Stale(c, c.socket.value)
                           && c.refcount > 0 && reach != Offline)
    && (forall i :: 0 <= i < |c.deliveries| ==> c.deliveries[i].current == Some(c.deliveries[i].from))
  }

  predicate NoReset(marks: seq<Mark>, i: nat, j: nat)
    requires i <= j <= |marks|
  {
    forall k :: i <= k < j ==> marks[k] == Scheduled
  }

  /** Between two resets at most 12 reconnects are scheduled, `attempt` of them since the last. */
  ghost predicate FewReconnects(c: State) {
    && c.attempt <= MAX_ATTEMPTS
    && (forall i :: 0 <= i <= |c.marks| && NoReset(c.marks, i, |c.marks|) ==> |c.marks| - i <= c.attempt)
    && (forall i, j :: 0 <= i <= j <= |c.marks| && NoReset(c.marks, i, j) ==> j - i <= 12)
  }

  /** What a channel has to keep while reachability stays as it is. */
  ghost predicate Good(c: State, reach: Reachability) {
    OneSocket(c, reach) && FewReconnects(c)
  }

  ghost predicate Safe(w: World) {
    forall topic :: topic in w.channels ==> Good(w.channels[topic], w.reach)
  }

  lemma TearingDownSilences(c: State, reach: Reachability, after: Reachability)
    requires Good(c, reach)
    ensures Good(TornDown(c), after) && TornDown(c).socket == None
  {
    forall s: nat
      ensures !CanFire(TornDown(c), s)
    {
      assert CanFire(c, s) ==> c.socket == Some(s);
    }
  }

  lemma NoResetBefore(marks: seq<Mark>, mark: Mark, i: nat, j: nat)
    requires i <= |marks| && i <= j <= |marks| + 1 && NoReset(marks + [mark], i, j)
    ensures NoReset(marks, i, if j <= |marks| then j else |marks|)
  {
    assert forall k :: 0 <= k < |marks| ==> (marks + [mark])[k] == marks[k];
  }

  lemma ReschedulingIsGood(c: State, reach: Reachability)
    requires Good(c, reach)
    ensures Good(Rescheduled(c, reach), reach)
  {
    var c' := Rescheduled(c, reach);
    if c'.marks != c.marks {
      forall i, j | 0 <= i <= j <= |c'.marks| && NoReset(c'.marks, i, j)
        ensures j - i <= 12
        ensures j == |c'.marks| ==> j - i <= c'.attempt
      {
        if i <= |c.marks| {
          NoResetBefore(c.marks, Scheduled, i, j);
        }
      }
    }
  }

  lemma ResettingIsGood(c: State, reach: Reachability)
    requires Good(c, reach)
    ensures Good(WithReset(c), reach)
  {
    var c' := WithReset(c);
    assert c'.marks[|c.marks|] == Reset;
    forall i, j | 0 <= i <= j <= |c'.marks| && NoReset(c'.marks, i, j)
      ensures j - i <= 12
      ensures j == |c'.marks| ==> j - i <= 0
    {
      if j <= |c.marks| {
        NoResetBefore(c.marks, Reset, i, j);
      }
    }
  }

  lemma ConnectingIsGood(c: State, reach: Reachability, created: bool)
    requires Good(c, reach)
    ensures Good(Connected(c, reach, created), reach)
  {
    ReschedulingIsGood(c, reach);
    var c' := Connected(c, reach, created);
    if |c'.sockets| > |c.sockets| {
      forall s: nat | CanFire(c', s)
        ensures c'.socket == Some(s)
      {
        assert s < |c.sockets| ==> CanFire(c, s);
      }
    }
  }

  lemma NotifyingIsGood(c: State, before: Reachability, reach: Reachability, created: bool)
    requires Good(c, before)
    ensures Good(Notified(c, reach, created), reach)
  {
    if reach == Offline {
      TearingDownSilences(c, before, reach);
    } else if c.refcount > 0 && c.socket == None && c.status != Stopped {
      var idle := ClearedTimers(c);
      assert Good(idle, reach);
      ResettingIsGood(idle, reach);
      ConnectingIsGood(WithReset(idle), reach, created);
    }
  }

  lemma JoiningIsGood(c: State, reach: Reachability, created: bool)
    requires Good(c, reach)
    ensures Good(Subscribed(c, reach, created), reach)
  {
    ConnectingIsGood(c.(refcount := c.refcount + 1), reach, created);
  }

  lemma RetryingIsGood(c: State, reach: Reachability, created: bool)
    requires Good(c, reach)
    ensures Good(Retried(c, reach, created), reach)
  {
    TearingDownSilences(c, reach, reach);
    ResettingIsGood(TornDown(c), reach);
    ConnectingIsGood(WithReset(TornDown(c)).(status := Idle), reach, created);
  }

  lemma LeavingIsGood(c: State, reach: Reachability)
    requires Good(c, reach) && c.refcount > 0
    ensures Good(Unsubscribed(c), reach)
  {
    if c.refcount == 1 {
      forall s: nat
        ensures !CanFire(Unsubscribed(c), s)
      {
        assert CanFire(c, s) ==> c.socket == Some(s);
      }
    }
  }

  lemma SocketEventsKeepItGood(c: State, s: nat, ping: bool, code: int, terminal: bool, reach: Reachability)
    requires Good(c, reach) && CanFire(c, s)
    ensures Good(Opened(c, s), reach)
    ensures Good(Received(c, s, ping), reach)
    ensures Good(Closed(c, s, code, terminal, reach), reach)
  {
    ResettingIsGood(c, reach);
    var gone := ClearedTimers(c.(sockets := c.sockets[s := c.sockets[s].(alive := false)]).(socket := None));
    forall x: nat
      ensures !CanFire(gone, x)
    {
      assert CanFire(c, x) ==> c.socket == Some(x);
    }
    ReschedulingIsGood(gone, reach);
  }

  lemma TimersKeepItGood(c: State, t: nat, created: bool, reach: Reachability, result: Probe)
    requires Good(c, reach)
    ensures Good(TimerFired(c, t, reach, created), reach)
    ensures c.probes > 0 ==> Good(Diagnosed(c, result, reach), reach)
  {
    ConnectingIsGood(c.(timer := None, timers := c.timers - {t}), reach, created);
    if c.probes > 0 {
      ReschedulingIsGood(c.(probes := c.probes - 1), reach);
    }
  }

  lemma NotifyingAllIsSafe(w: World, reach: Reachability, created: set<Topic>)
    requires Safe(w)
    ensures Safe(Notify(w, reach, created))
  {
    forall topic | topic in w.channels
      ensures Good(Notified(w.channels[topic], reach, topic in created), reach)
    {
      NotifyingIsGood(w.channels[topic], w.reach, reach, topic in created);
    }
  }

  predicate OnOneChannel(e: Event) {
    !e.Use? && !e.ReachabilityChanges? && !e.WatchdogFires? && !e.ProbeEnds?
  }

  lemma OneChannelStepIsGood(w: World, e: Event)
    requires Safe(w) && Enabled(w, e) && OnOneChannel(e)
    ensures Good(Step(w, e).channels[e.topic], w.reach)
  {
    var c := w.channels[e.topic];
    match e
    case Join(_, created) => JoiningIsGood(c, w.reach, created);
    case TryAgain(_, created) => RetryingIsGood(c, w.reach, created);
    case Leave(_) => LeavingIsGood(c, w.reach);
    case SocketOpens(_, s) => SocketEventsKeepItGood(c, s, false, 0, false, w.reach);
    case SocketReceives(_, s, ping) => SocketEventsKeepItGood(c, s, ping, 0, false, w.reach);
    case SocketCloses(_, s, code, terminal) => SocketEventsKeepItGood(c, s, false, code, terminal, w.reach);
    case TimerFires(_, t, created) => TimersKeepItGood(c, t, created, w.reach, Reached);
  }

  lemma WatchdogIsSafe(w: World, topic: Topic, offline: bool)
    requires Safe(w) && topic in w.channels
    ensures var w' := Reported(Becomes(w, topic, TornDown(w.channels[topic])), offline);
            Safe(w') && topic in w'.channels && Good(Rescheduled(w'.channels[topic], w'.reach), w'.reach)
  {
    TearingDownSilences(w.channels[topic], w.reach, w.reach);
    var torn := Becomes(w, topic, TornDown(w.channels[topic]));
    NotifyingAllIsSafe(torn, Offline, {});
    var w' := Reported(torn, offline);
    ReschedulingIsGood(w'.channels[topic], w'.reach);
  }

  lemma ProbeIsSafe(w: World, topic: Topic, result: Probe, offline: bool)
    requires Safe(w) && Enabled(w, ProbeEnds(topic, result, offline))
    ensures Safe(Step(w, ProbeEnds(topic, result, offline)))
  {
    NotifyingAllIsSafe(w, Offline, {});
    var w' := Reported(w, offline && result == NetworkError);
    TimersKeepItGood(w'.channels[topic], 0, false, w'.reach, result);
  }

  lemma StepKeepsSafe(w: World, e: Event)
    requires Safe(w) && Enabled(w, e)
    ensures Safe(Step(w, e))
  {
    if OnOneChannel(e) {
      OneChannelStepIsGood(w, e);
      assert Step(w, e) == Becomes(w, e.topic, Step(w, e).channels[e.topic]);
    } else if e.ReachabilityChanges? {
      NotifyingAllIsSafe(w, e.reach, e.opening);
    } else if e.WatchdogFires? {
      WatchdogIsSafe(w, e.topic, e.offline);
    } else if e.ProbeEnds? {
      ProbeIsSafe(w, e.topic, e.result, e.offline);
    }
  }

  /**
   In every interleaving every channel has at most one socket that can still fire, its own; none without
   subscribers or while offline; hears messages only from it; and schedules at most 12 reconnects between resets.
   */
  lemma {:induction false} ChannelsStaySafe(worlds: seq<World>, events: seq<Event>, n: nat)
    requires Run(worlds, events) && worlds[0].channels == map[] && n < |worlds|
    ensures Safe(worlds[n])
  {
    if n > 0 {
      ChannelsStaySafe(worlds, events, n - 1);
      StepKeepsSafe(worlds[n - 1], events[n - 1]);
    }
  }

  // ---------- what each event does, in plain terms ----------

  function Own(c: State): set<nat> {
    if c.timer.Some? then {c.timer.value} else {}
  }

  /** No reconnect is scheduled, and one that was is cancelled. */
  predicate Unarmed(c: State, c': State) {
    && c'.timer == None && c'.timers == c.timers - Own(c) && c'.nextTimer == c.nextTimer
    && c'.marks == c.marks && c'.attempt == c.attempt
  }

  /** Exactly one reconnect is scheduled, as one more attempt, in place of one that was. */
  predicate Armed(c: State, c': State) {
    && c'.timer == Some(c.nextTimer) && c'.timers == c.timers - Own(c) + {c.nextTimer}
    && c'.nextTimer == c.nextTimer + 1
    && c'.marks == c.marks + [Scheduled] && c'.attempt == c.attempt + 1
  }

  /** A new socket, with its handlers set. */
  predicate Dials(c: State, c': State) {
    && c'.socket == Some(|c.sockets|) && |c'.sockets| == |c.sockets| + 1 && CanFire(c', |c.sockets|)
    && c'.status == Connecting
  }

  /** Where rescheduling leads with subscribers and while not offline. */
  predicate RetriesLater(c: State, c': State) {
    if c.attempt < 12 then Armed(c, c') && c'.status == Waiting else Unarmed(c, c') && c'.status == Stopped
  }

  /** A normal close and one for a terminal reason are final, an abnormal one starts one probe, any other one timer. */
  lemma ClosesByCode(w: World, topic: Topic, s: nat, code: int, terminal: bool)
    requires Safe(w) && Enabled(w, SocketCloses(topic, s, code, terminal))
    ensures var c := w.channels[topic];
            var c' := Step(w, SocketCloses(topic, s, code, terminal)).channels[topic];
            && c'.socket == None && !c'.watchdog && c'.refcount == c.refcount && c'.generation == c.generation
            && c'.deliveries == c.deliveries
            && c'.probes == (if code == 1006 then c.probes + 1 else c.probes)
            && (code == 1000 ==> Unarmed(c, c') && c'.status == Idle)
            && (code == 1008 && terminal ==> Unarmed(c, c') && c'.status == Stopped)
            && (code == 1006 ==> Unarmed(c, c') && c'.status == Waiting)
            && (code != 1000 && code != 1006 && !(code == 1008 && terminal) ==> RetriesLater(c, c'))
    ensures forall other :: other in w.channels && other != topic ==>
              Step(w, SocketCloses(topic, s, code, terminal)).channels[other] == w.channels[other]
  {
    var c := w.channels[topic];
    assert c.socket == Some(s);
  }

  lemma OpeningStartsOver(w: World, topic: Topic, s: nat)
    requires Safe(w) && Enabled(w, SocketOpens(topic, s))
    ensures var c, c' := w.channels[topic], Step(w, SocketOpens(topic, s)).channels[topic];
            c' == c.(attempt := 0, marks := c.marks + [Reset], status := Open, watchdog := true)
  {
    assert w.channels[topic].socket == Some(s);
  }

  lemma MessagesAreDelivered(w: World, topic: Topic, s: nat, ping: bool)
    requires Safe(w) && Enabled(w, SocketReceives(topic, s, ping))
    ensures var c, c' := w.channels[topic], Step(w, SocketReceives(topic, s, ping)).channels[topic];
            c' == c.(watchdog := true,
                     deliveries := if ping then c.deliveries else c.deliveries + [Delivery(s, Some(s))])
  {
    assert w.channels[topic].socket == Some(s);
  }

  /** A subscriber more brings up a channel that has no socket, waits for no timer and was not given up. */
  lemma JoiningConnects(w: World, topic: Topic, created: bool)
    requires Enabled(w, Join(topic, created))
    ensures var c, c' := w.channels[topic], Step(w, Join(topic, created)).channels[topic];
            && c'.refcount == c.refcount + 1
            && (c.socket.Some? || c.timer.Some? || c.status == Stopped ==> c' == c.(refcount := c.refcount + 1))
            && (c.socket == None && c.timer == None && c.status != Stopped ==>
                  if w.reach == Offline then c'.socket == None && c'.status == OfflineNow && Unarmed(c, c')
                  else if created then Dials(c, c') && Unarmed(c, c')
                  else c'.socket == None && RetriesLater(c, c'))
  {
  }

  /** Only the last subscriber's leaving disconnects. */
  lemma LeavingDisconnects(w: World, topic: Topic)
    requires Enabled(w, Leave(topic))
    ensures var c, c' := w.channels[topic], Step(w, Leave(topic)).channels[topic];
            if c.refcount > 1 then c' == c.(refcount := c.refcount - 1)
            else
              && c'.refcount == 0 && c'.socket == None && c'.status == Idle && !c'.watchdog && Unarmed(c, c')
              && c'.generation == c.generation + 1
  {
  }

  /** A retry drops everything and connects anew, with all attempts before it. */
  lemma RetryingStartsOver(w: World, topic: Topic, created: bool)
    requires Enabled(w, TryAgain(topic, created)) && w.channels[topic].refcount > 0
    ensures var c, c' := w.channels[topic], Step(w, TryAgain(topic, created)).channels[topic];
            && c'.refcount == c.refcount && c'.generation == c.generation + 1 && !c'.watchdog
            && (c.socket.Some? && c.socket.value < |c.sockets| ==> !CanFire(c', c.socket.value))
            && (if w.reach == Offline then c'.socket == None && c'.timer == None && c'.status == OfflineNow
                else if created then Dials(c, c') && c'.timer == None && c'.attempt == 0
                else c'.socket == None && c'.timer == Some(c.nextTimer) && c'.attempt == 1)
  {
  }

  /** A reconnect timer connects, if there still are subscribers and no other socket has come up. */
  lemma TimersConnect(w: World, topic: Topic, t: nat, created: bool)
    requires Enabled(w, TimerFires(topic, t, created))
    ensures var c, c' := w.channels[topic], Step(w, TimerFires(topic, t, created)).channels[topic];
            && t !in c'.timers - {c.nextTimer}
            && (c.refcount == 0 || c.socket.Some? ==> c'.socket == c.socket && c'.timer == None)
            && (c.refcount > 0 && c.socket == None ==>
                  if w.reach == Offline then c'.socket == None && c'.timer == None && c'.status == OfflineNow
                  else if created then Dials(c, c') && c'.timer == None
                  else c'.socket == None && (c.attempt < 12 ==> c'.timer == Some(c.nextTimer)))
  {
  }

  /** A silent socket is dropped and a reconnect scheduled, unless the browser turns out to be offline. */
  lemma WatchdogsReconnect(w: World, topic: Topic, offline: bool)
    requires Safe(w) && Enabled(w, WatchdogFires(topic, offline)) && w.channels[topic].refcount > 0
    ensures var c, c' := w.channels[topic], Step(w, WatchdogFires(topic, offline)).channels[topic];
            && c'.socket == None && !c'.watchdog && (c.socket.Some? ==> !CanFire(c', c.socket.value))
            && (if w.reach == Offline || offline then c'.timer == None && c'.status == OfflineNow
                else RetriesLater(c, c'))
  {
  }

  /** A probe gives up, waits for the network, or tries again. */
  lemma ProbesDecide(w: World, topic: Topic, result: Probe, offline: bool)
    requires Enabled(w, ProbeEnds(topic, result, offline)) && w.channels[topic].refcount > 0
    ensures var c, c' := w.channels[topic], Step(w, ProbeEnds(topic, result, offline)).channels[topic];
            && c'.probes == c.probes - 1
            && (result == NeedsLogin ==> c' == c.(probes := c.probes - 1, status := Stopped))
            && (result == NetworkError ==> c'.timer == None && c'.status == OfflineNow)
            && (result == Reached && w.reach == Offline ==> Unarmed(c, c') && c'.status == OfflineNow)
            && (result == Reached && w.reach != Offline && c.timer == None ==>
                  c'.socket == c.socket && RetriesLater(c, c'))
  {
  }

  /** Going offline drops every channel; coming back connects those with subscribers that were not given up. */
  lemma ReachabilityDropsAndRestores(w: World, reach: Reachability, opening: set<Topic>, topic: Topic)
    requires Enabled(w, ReachabilityChanges(reach, opening)) && topic in w.channels
    ensures var c, c' := w.channels[topic], Step(w, ReachabilityChanges(reach, opening)).channels[topic];
            if c.refcount == 0 then c' == c
            else if reach == Offline then
              c'.socket == None && c'.timer == None && !c'.watchdog && c'.status == OfflineNow
            else if c.socket.Some? || c.status == Stopped then c' == c
            else if topic in opening then Dials(c, c') && c'.timer == None && c'.attempt == 0
            else c'.socket == None && c'.timer == Some(c.nextTimer) && c'.attempt == 1
  {
  }

  // ---------- what a terminal close means ----------

  /** What ends a stop: a retry, the last subscriber's leaving, and also any loss of the network. */
  predicate Ends(w: World, e: Event, topic: Topic)
    requires Enabled(w, e)
  {
    || (e.TryAgain? && e.topic == topic)
    || (e == Leave(topic) && w.channels[topic].refcount == 1)
    || (w.reach != Offline && Step(w, e).reach == Offline)
  }

  /** Stopped, with nothing left that could start it. */
  predicate StoppedForGood(c: State) {
    && c.status == Stopped && c.refcount > 0 && c.socket == None && c.timer == None && !c.watchdog
    && c.timers == {} && c.probes == 0
  }

  lemma StepKeepsStopped(w: World, e: Event, topic: Topic)
    requires Safe(w) && Enabled(w, e) && !Ends(w, e, topic)
    requires topic in w.channels && StoppedForGood(w.channels[topic])
    ensures topic in Step(w, e).channels && StoppedForGood(Step(w, e).channels[topic])
  {
    if e.SocketOpens? || e.SocketReceives? || e.SocketCloses? {
      assert w.channels[e.topic].socket == Some(e.s);
    }
  }

  /** No run from here gives the channel a socket or a timer before its stop is ended. */
  ghost predicate KeptOut(w: World, topic: Topic) {
    forall worlds: seq<World>, events: seq<Event>, n: nat | Unended(worlds, events, n, w, topic) ::
      topic in worlds[n].channels && worlds[n].channels[topic].socket == None && worlds[n].channels[topic].timer == None
  }

  ghost predicate Unended(worlds: seq<World>, events: seq<Event>, n: nat, w: World, topic: Topic) {
    && Run(worlds, events) && worlds[0] == w && n < |worlds|
    && forall i :: 0 <= i < n ==> !Ends(worlds[i], events[i], topic)
  }

  lemma {:induction false} RunKeepsStopped(worlds: seq<World>, events: seq<Event>, n: nat, w: World, topic: Topic)
    requires topic in w.channels && StoppedForGood(w.channels[topic]) && Unended(worlds, events, n, w, topic) && Safe(w)
    ensures topic in worlds[n].channels && StoppedForGood(worlds[n].channels[topic]) && Safe(worlds[n])
  {
    if n > 0 {
      RunKeepsStopped(worlds, events, n - 1, w, topic);
      StepKeepsSafe(worlds[n - 1], events[n - 1]);
      StepKeepsStopped(worlds[n - 1], events[n - 1], topic);
    }
  }

  /**
   After a socket closed for a terminal reason the channel gets no socket and no timer until a retry, the last
   subscriber's leaving or a loss of the network, if and only if no earlier probe is in flight and no forgotten
   timer is pending.
   */
  lemma TerminalCloseIsFinalIff(before: World, topic: Topic, s: nat)
    requires Safe(before) && Enabled(before, SocketCloses(topic, s, 1008, true))
    ensures var w := Step(before, SocketCloses(topic, s, 1008, true));
            KeptOut(w, topic) <==> w.channels[topic].timers == {} && w.channels[topic].probes == 0
  {
    ClosesByCode(before, topic, s, 1008, true);
    StepKeepsSafe(before, SocketCloses(topic, s, 1008, true));
    assert before.channels[topic].socket == Some(s);
    var w := Step(before, SocketCloses(topic, s, 1008, true));
    if w.channels[topic].timers == {} && w.channels[topic].probes == 0 {
      forall worlds: seq<World>, events: seq<Event>, n: nat | Unended(worlds, events, n, w, topic)
        ensures topic in worlds[n].channels
        ensures worlds[n].channels[topic].socket == None && worlds[n].channels[topic].timer == None
      {
        RunKeepsStopped(worlds, events, n, w, topic);
      }
    } else {
      LeftoverRevives(w, topic);
    }
  }

  lemma LeftoverRevives(w: World, topic: Topic)
    requires topic in w.channels && w.reach != Offline
    requires var c := w.channels[topic];
             && c.status == Stopped && c.refcount > 0 && c.socket == None && c.timer == None
             && (c.timers != {} || c.probes > 0)
    ensures !KeptOut(w, topic)
  {
    var c := w.channels[topic];
    if c.timers != {} {
      var t :| t in c.timers;
      var w1 := Step(w, TimerFires(topic, t, true));
      assert Unended([w, w1], [TimerFires(topic, t, true)], 1, w, topic);
      assert [w, w1][1].channels[topic].socket.Some?;
    } else {
      var w1 := Step(w, ProbeEnds(topic, NetworkError, false));
      var w2 := Step(w1, Join(topic, true));
      assert Unended([w, w1, w2], [ProbeEnds(topic, NetworkError, false), Join(topic, true)], 2, w, topic);
      assert [w, w1, w2][2].channels[topic].socket.Some?;
    }
  }

  /** A loss of the network does end it: once back, even a channel stopped for good connects again. */
  lemma OfflineRevives(w: World, topic: Topic)
    requires topic in w.channels && StoppedForGood(w.channels[topic]) && w.reach != Offline
    ensures var w1 := Step(w, ReachabilityChanges(Offline, {}));
            && Enabled(w1, ReachabilityChanges(Online, {topic}))
            && Step(w1, ReachabilityChanges(Online, {topic})).channels[topic].socket.Some?
  {
  }

  /** Such a probe can be there: one started by an abnormal close, outlived by a new subscriber's socket. */
  lemma LateProbeMeetsTerminalClose(topic: Topic) returns (worlds: seq<World>, events: seq<Event>)
    ensures Run(worlds, events) && worlds[0].channels == map[] && |events| == 5
    ensures events[4] == SocketCloses(topic, 1, 1008, true)
    ensures topic in worlds[5].channels && worlds[5].channels[topic].probes == 1
    ensures worlds[5].channels[topic].status == Stopped && !KeptOut(worlds[5], topic)
  {
    events := [Use(topic), Join(topic, true), SocketCloses(topic, 0, 1006, false), Join(topic, true),
               SocketCloses(topic, 1, 1008, true)];
    var w0 := World(Online, map[]);
    var w1 := Step(w0, events[0]);
    var w2 := Step(w1, events[1]);
    var w3 := Step(w2, events[2]);
    var w4 := Step(w3, events[3]);
    worlds := [w0, w1, w2, w3, w4, Step(w4, events[4])];
    LeftoverRevives(worlds[5], topic);
  }
}
