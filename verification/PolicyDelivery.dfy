/**
 Detection policies from the API to the detector: the newer-wins publishing script
 (services/api/app/services/policy_sync.py) and the watcher that follows it across
 reconnects (services/ai/app/policy_watcher.py).
 */
module PolicyDelivery {
  import opened Options

  type Policy = string

  datatype Doc = Doc(version: int, policy: Policy)

  /** A stored value or message: a document, one with a version whose policy cannot be applied, or unreadable text. */
  datatype Raw = Good(doc: Doc) | Malformed(version: int) | Junk

  function VersionOf(raw: Option<Raw>): Option<int> {
    match raw
    case Some(Good(doc)) => Some(doc.version)
    case Some(Malformed(version)) => Some(version)
    case _ => None
  }

  predicate Supersedes(version: int, current: Option<Raw>) {
    VersionOf(current).Some? ==> VersionOf(current).value < version
  }

  /** The key after a writer offered a body of that version. */
  function Offer(current: Option<Raw>, version: int, body: Raw): Option<Raw> {
    if Supersedes(version, current) then Some(body) else current
  }

  // ---------- the two programs ----------

  /** The stream's key, and the messages its channel delivered since some subscription. */
  class PolicyStream {
    var current: Option<Raw>
    var channel: seq<Raw>

    /** PUBLISH_NEWER_LUA, run atomically: store and publish together, or do nothing. */
    method PublishPolicy(version: int, body: Raw) returns (published: bool)
      modifies this
      ensures published == Supersedes(version, old(current))
      ensures current == Offer(old(current), version, body)
      ensures channel == if published then old(channel) + [body] else old(channel)
    {
      if current.Some? {
        var held: Option<int> := None;
        match current.value {
          case Good(doc) => held := Some(doc.version);
          case Malformed(v) => held := Some(v);
          case Junk =>
        }
        if held.Some? && held.value >= version {
          return false;
        }
      }
      current := Some(body);
      channel := channel + [body];
      return true;
    }
  }

  class Detector {
    var policy: Policy

    constructor (defaults: Policy)
      ensures policy == defaults
    {
      policy := defaults;
    }

    method ApplyPolicy(next: Policy)
      modifies this
      ensures policy == next
    {
      policy := next;
    }

    /** A policy without all of its fields raises after some of them were taken over; `left` is what that leaves. */
    method FailToApply(left: Policy)
      modifies this
      ensures policy == left
    {
      policy := left;
    }
  }

  predicate Newer(raw: Option<Raw>, version: int) {
    VersionOf(raw).Some? && VersionOf(raw).value > version
  }

  class PolicyWatcher {
    const detector: Detector
    var version: int

    constructor (detector: Detector)
      ensures this.detector == detector && version == 0
    {
      this.detector := detector;
      version := 0;
    }

    /** The detector first, the version after it; documents that are not newer are skipped. */
    method Apply(doc: Doc)
      modifies this, detector
      ensures version == if doc.version > old(version) then doc.version else old(version)
      ensures detector.policy == if doc.version > old(version) then doc.policy else old(detector.policy)
    {
      if doc.version <= version {
        return;
      }
      detector.ApplyPolicy(doc.policy);
      version := doc.version;
    }

    /** Handles the reply to GET, or a message; whatever raises is logged and dropped. */
    method Handle(raw: Option<Raw>, left: Policy)
      modifies this, detector
      ensures version == HandledVersion(old(version), raw)
      ensures detector.policy == if !Newer(raw, old(version)) then old(detector.policy)
                                 else if raw.value.Good? then raw.value.doc.policy else left
    {
      match raw
      case Some(Good(doc)) =>
        Apply(doc);
      case Some(Malformed(v)) =>
        if v > version {
          detector.FailToApply(left);
        }
      case _ =>
    }
  }

  function HandledVersion(version: int, raw: Option<Raw>): (handled: int)
    ensures version <= handled
    ensures handled != version ==> raw.Some? && raw.value.Good?
  {
    if Newer(raw, version) && raw.value.Good? then raw.value.doc.version else version
  }

  // ---------- all interleavings ----------

  /** What the watcher is working on; Installing is the moment between detector and version. */
  datatype Hand = Empty | Read(raw: Option<Raw>) | Installing(doc: Doc)

  datatype World = World(
    current: Option<Raw>,
    queue: Option<seq<Raw>>,  // messages not yet read, while subscribed
    caughtUp: bool,
    hand: Hand,
    version: int,
    detector: Policy,
    spoiled: bool,            // an apply has failed since the last one that went through
    applied: seq<int>)        // versions applied so far

  datatype Event =
    | Publish(body: Raw)   // by any writer
    | Damage               // the key is overwritten with unreadable text
    | Lose                 // the key is lost
    | Subscribe
    | Fetch                // GET of the stored document, on start or to catch up
    | Take                 // the next message
    | Settle               // the document in hand is dropped as unreadable or not newer
    | Fail(left: Policy)   // the detector raises on the document in hand
    | Install              // the detector takes the document in hand
    | Commit               // the watcher's version follows
    | Disconnect

  predicate Enabled(w: World, e: Event) {
    match e
    case Publish(body) => VersionOf(Some(body)).Some?
    case Subscribe => w.queue.None? && w.hand.Empty?
    case Fetch => w.hand.Empty? && !w.caughtUp
    case Take => w.hand.Empty? && w.caughtUp && w.queue.Some? && w.queue.value != []
    case Settle => w.hand.Read? && !Newer(w.hand.raw, w.version)
    case Fail(_) => w.hand.Read? && Newer(w.hand.raw, w.version) && w.hand.raw.value.Malformed?
    case Install => w.hand.Read? && Newer(w.hand.raw, w.version) && w.hand.raw.value.Good?
    case Commit => w.hand.Installing?
    case _ => true
  }

  function Step(w: World, e: Event): World
    requires Enabled(w, e)
  {
    match e
    case Publish(body) =>
      var version := VersionOf(Some(body)).value;
      if Supersedes(version, w.current) then
        w.(current := Offer(w.current, version, body),
           queue := if w.queue.Some? then Some(w.queue.value + [body]) else None)
      else w
    case Damage => w.(current := Some(Junk))
    case Lose => w.(current := None)
    case Subscribe => w.(queue := Some([]), caughtUp := false)
    case Fetch => w.(hand := Read(w.current))
    case Take => w.(hand := Read(Some(w.queue.value[0])), queue := Some(w.queue.value[1..]))
    case Settle => w.(hand := Empty, caughtUp := w.queue.Some?)
    case Fail(left) => w.(hand := Empty, caughtUp := w.queue.Some?, detector := left, spoiled := true)
    case Install =>
      w.(hand := Installing(w.hand.raw.value.doc), detector := w.hand.raw.value.doc.policy, spoiled := false)
    case Commit =>
      w.(hand := Empty, caughtUp := w.queue.Some?, version := w.hand.doc.version,
         applied := w.applied + [w.hand.doc.version])
    case Disconnect => w.(queue := None, caughtUp := false)
  }

  ghost predicate Run(worlds: seq<World>, events: seq<Event>) {
    && |worlds| == |events| + 1
    && forall i :: 0 <= i < |events| ==> Enabled(worlds[i], events[i]) && worlds[i + 1] == Step(worlds[i], events[i])
  }

  /** A process that starts with nothing stored for it to have missed, running its defaults. */
  ghost predicate Initial(w: World, book: int -> Policy, bad: iset<int>) {
    && w.queue == None && !w.caughtUp && w.hand == Empty && w.applied == [] && !w.spoiled
    && w.version == 0 && w.detector == book(0) && Honest(w.current, book, bad)
  }

  /**
   The policy of a version is fixed once for all, as the unique version index of the policy collection has it;
   `bad` are the versions that may come with a malformed policy.
   */
  ghost predicate Honest(raw: Option<Raw>, book: int -> Policy, bad: iset<int>) {
    match raw
    case Some(Good(doc)) => doc.policy == book(doc.version)
    case Some(Malformed(version)) => version in bad
    case _ => true
  }

  ghost predicate HonestRun(worlds: seq<World>, events: seq<Event>, book: int -> Policy, bad: iset<int>) {
    && Run(worlds, events) && Initial(worlds[0], book, bad)
    && forall i :: 0 <= i < |events| && events[i].Publish? ==> Honest(Some(events[i].body), book, bad)
  }

  function InHand(w: World): Option<int> {
    match w.hand
    case Empty => None
    case Read(raw) => if raw.Some? && raw.value.Good? then VersionOf(raw) else None
    case Installing(doc) => Some(doc.version)
  }

  /** A well-formed stored version was applied, or is in hand, or waits in the queue. */
  ghost predicate Covered(w: World) {
    w.current.Some? && w.current.value.Good? ==>
      var stored := w.current.value.doc.version;
      || stored <= w.version
      || (InHand(w).Some? && stored <= InHand(w).value)
      || (w.queue.Some? && exists i :: 0 <= i < |w.queue.value| && QueuedFrom(w.queue.value[i], stored))
  }

  predicate QueuedFrom(raw: Raw, stored: int) {
    raw.Good? && stored <= raw.doc.version
  }

  ghost predicate NoGap(w: World) {
    && (w.queue.Some? && (w.caughtUp || !w.hand.Empty?) ==> Covered(w))
    && (w.caughtUp ==> w.queue.Some?)
    && (w.hand.Installing? ==> w.version < w.hand.doc.version)
  }

  lemma StepKeepsNoGap(w: World, e: Event)
    requires NoGap(w) && Enabled(w, e)
    ensures NoGap(Step(w, e))
  {
    if e.Publish? && e.body.Good? && Supersedes(e.body.doc.version, w.current) && w.queue.Some? {
      assert QueuedFrom(Step(w, e).queue.value[|w.queue.value|], e.body.doc.version);
    }
  }

  ghost predicate Faithful(w: World, book: int -> Policy, bad: iset<int>) {
    && Honest(w.current, book, bad)
    && (w.queue.Some? ==> forall i :: 0 <= i < |w.queue.value| ==> Honest(Some(w.queue.value[i]), book, bad))
    && (w.hand.Read? ==> Honest(w.hand.raw, book, bad))
    && (w.hand.Installing? ==> Honest(Some(Good(w.hand.doc)), book, bad) && !w.spoiled)
    && (!w.spoiled ==> w.detector == book(if w.hand.Installing? then w.hand.doc.version else w.version))
    && 0 <= w.version
    && (w.spoiled ==> exists v :: v in bad && v > 0)
  }

  lemma StepKeepsFaithful(w: World, e: Event, book: int -> Policy, bad: iset<int>)
    requires Faithful(w, book, bad) && NoGap(w) && Enabled(w, e)
    requires e.Publish? ==> Honest(Some(e.body), book, bad)
    ensures Faithful(Step(w, e), book, bad)
  {
    if e.Fail? {
      assert w.hand.raw.value.version in bad;
    }
  }

  ghost predicate Increasing(versions: seq<int>, last: int) {
    && (forall i, j :: 0 <= i < j < |versions| ==> versions[i] < versions[j])
    && (versions != [] ==> versions[|versions| - 1] == last)
    && (versions == [] ==> last == 0)
  }

  /** Subscribed, caught up, and nothing left to read. */
  predicate Drained(w: World) {
    w.caughtUp && w.queue == Some([]) && w.hand == Empty
  }

  /**
   In every run, at every moment: the applied versions strictly increase up to the watcher's; unless an apply has
   failed since, the detector runs that version's policy (or, during Installing, the next one's); and a drained
   watcher is behind the stored version exactly when that one came malformed and is newer.
   */
  lemma {:induction false} DeliveryHasNoGap(worlds: seq<World>, events: seq<Event>, book: int -> Policy,
                                            bad: iset<int>, n: nat)
    requires HonestRun(worlds, events, book, bad) && n < |worlds|
    ensures NoGap(worlds[n]) && Faithful(worlds[n], book, bad)
    ensures Increasing(worlds[n].applied, worlds[n].version)
    ensures worlds[n].hand == Empty && !worlds[n].spoiled ==> worlds[n].detector == book(worlds[n].version)
    ensures Drained(worlds[n]) ==>
              (Newer(worlds[n].current, worlds[n].version)
               <==> worlds[n].current.Some? && worlds[n].current.value.Malformed?
                    && worlds[n].current.value.version > worlds[n].version)
  {
    if n > 0 {
      DeliveryHasNoGap(worlds, events, book, bad, n - 1);
      StepKeepsNoGap(worlds[n - 1], events[n - 1]);
      StepKeepsFaithful(worlds[n - 1], events[n - 1], book, bad);
    }
  }

  // ---------- which publishers can be trusted ----------

  /** In no run does a drained watcher stay behind the stored version. */
  ghost predicate AlwaysDelivered(book: int -> Policy, bad: iset<int>) {
    forall worlds: seq<World>, events: seq<Event>, n: nat | HonestRun(worlds, events, book, bad) && n < |worlds| ::
      Drained(worlds[n]) ==> !Newer(worlds[n].current, worlds[n].version)
  }

  /** In no run does the detector, between two documents, run anything but the watcher's version. */
  ghost predicate AlwaysRunsItsVersion(book: int -> Policy, bad: iset<int>) {
    forall worlds: seq<World>, events: seq<Event>, n: nat | HonestRun(worlds, events, book, bad) && n < |worlds| ::
      worlds[n].hand == Empty ==> worlds[n].detector == book(worlds[n].version)
  }

  /** Both hold exactly when no positive version can come with a malformed policy. */
  lemma DeliveredIffWellFormed(book: int -> Policy, bad: iset<int>)
    ensures AlwaysDelivered(book, bad) <==> forall v :: v in bad ==> v <= 0
    ensures AlwaysRunsItsVersion(book, bad) <==> forall v :: v in bad ==> v <= 0
  {
    if forall v :: v in bad ==> v <= 0 {
      forall worlds: seq<World>, events: seq<Event>, n: nat | HonestRun(worlds, events, book, bad) && n < |worlds|
        ensures Drained(worlds[n]) ==> !Newer(worlds[n].current, worlds[n].version)
        ensures worlds[n].hand == Empty ==> worlds[n].detector == book(worlds[n].version)
      {
        DeliveryHasNoGap(worlds, events, book, bad, n);
      }
    } else {
      var v :| v in bad && v > 0;
      var worlds, events := MalformedSpoils(book, bad, v);
      assert Drained(worlds[4]) && Newer(worlds[4].current, worlds[4].version);
      assert worlds[4].hand == Empty && worlds[4].detector != book(worlds[4].version);
    }
  }

  /** One malformed document leaves a drained watcher behind it, and the detector with neither policy. */
  lemma MalformedSpoils(book: int -> Policy, bad: iset<int>, v: int) returns (worlds: seq<World>, events: seq<Event>)
    requires v in bad && v > 0
    ensures HonestRun(worlds, events, book, bad) && |events| == 4
    ensures Drained(worlds[4]) && worlds[4].version == 0 && worlds[4].current == Some(Malformed(v))
    ensures worlds[4].detector != book(0)
  {
    var left := book(0) + "!";
    assert |left| == |book(0)| + 1;
    events := [Publish(Malformed(v)), Subscribe, Fetch, Fail(left)];
    var w0 := World(None, None, false, Empty, 0, book(0), false, []);
    var w1 := Step(w0, events[0]);
    var w2 := Step(w1, events[1]);
    var w3 := Step(w2, events[2]);
    worlds := [w0, w1, w2, w3, Step(w3, events[3])];
  }

  /** The small steps on the document in hand add up to what Handle does to version and detector. */
  lemma StepsAddUpToHandle(w: World, left: Policy)
    requires w.hand.Read?
    ensures Enabled(w, Settle) || Enabled(w, Fail(left)) || Enabled(w, Install)
    ensures Enabled(w, Settle) ==> Step(w, Settle).version == HandledVersion(w.version, w.hand.raw)
                                   && Step(w, Settle).detector == w.detector
    ensures Enabled(w, Fail(left)) ==> Step(w, Fail(left)).version == HandledVersion(w.version, w.hand.raw)
                                       && Step(w, Fail(left)).detector == left
    ensures Enabled(w, Install) ==>
              && Enabled(Step(w, Install), Commit)
              && Step(Step(w, Install), Commit).version == HandledVersion(w.version, w.hand.raw)
              && Step(Step(w, Install), Commit).detector == w.hand.raw.value.doc.policy
              && Step(Step(w, Install), Commit).hand == Empty
  {
  }

  // ---------- the stored version ----------

  function OfferAll(docs: seq<Doc>): Option<Raw> {
    if docs == [] then None
    else Offer(OfferAll(docs[..|docs| - 1]), docs[|docs| - 1].version, Good(docs[|docs| - 1]))
  }

  /** Whatever the order in which publishers arrive, the newest offered document is the one stored. */
  lemma {:induction false} NewestOfferIsStored(docs: seq<Doc>) returns (k: nat)
    requires docs != []
    ensures k < |docs| && OfferAll(docs) == Some(Good(docs[k]))
    ensures forall i :: 0 <= i < |docs| ==> docs[i].version <= docs[k].version
    ensures forall i :: 0 <= i < k ==> docs[i].version < docs[k].version
  {
    var before := docs[..|docs| - 1];
    k := 0;
    if before != [] {
      k := NewestOfferIsStored(before);
      if docs[|docs| - 1].version > docs[k].version {
        k := |docs| - 1;
      }
    }
  }
}
