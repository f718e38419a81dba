/**
 Cameras do not interfere: one tracker object serves all of them, and still each camera gets the
 answers of a tracker of its own, up to the numbers that its items happen to get.
 */
module ConcealmentIsolation {
  import opened Options
  import opened Concealment
  import opened ConcealmentRuns

  /** `names[k]` is the number in the shared tracker of the item numbered k + 1 in a tracker of its own. */
  type Names = seq<int>

  ghost predicate Increasing(names: Names, below: int) {
    && (forall i :: 0 <= i < |names| ==> names[i] < below)
    && (forall i, j :: 0 <= i < j < |names| ==> names[i] < names[j])
  }

  predicate Known(names: Names, id: int) {
    1 <= id <= |names|
  }

  function Name(names: Names, id: int): int {
    if Known(names, id) then names[id - 1] else id
  }

  function NameItem(names: Names, item: Item): Item {
    item.(id := Name(names, item.id))
  }

  function NameItems(names: Names, items: seq<Item>): (r: seq<Item>)
    ensures |r| == |items|
  {
    seq(|items|, i requires 0 <= i < |items| => NameItem(names, items[i]))
  }

  function NameIds(names: Names, ids: seq<int>): (r: seq<int>)
    ensures |r| == |ids|
  {
    seq(|ids|, i requires 0 <= i < |ids| => Name(names, ids[i]))
  }

  function NameVerdict(names: Names, v: Verdict): Verdict {
    v.(objectId := Name(names, v.objectId))
  }

  function NameVerdicts(names: Names, vs: seq<Verdict>): (r: seq<Verdict>)
    ensures |r| == |vs|
  {
    seq(|vs|, i requires 0 <= i < |vs| => NameVerdict(names, vs[i]))
  }

  function NameCamera(names: Names, c: Camera): Camera {
    c.(items := NameItems(names, c.items))
  }

  ghost predicate KnownItems(names: Names, items: seq<Item>) {
    forall i :: 0 <= i < |items| ==> Known(names, items[i].id)
  }

  ghost predicate KnownIds(names: Names, ids: seq<int>) {
    forall i :: 0 <= i < |ids| ==> Known(names, ids[i])
  }

  // ---------- one frame never looks at the numbers ----------

  lemma {:induction false} BestMatchIgnoresNames(names: Names, s: Settings, items: seq<Item>, free: seq<nat>, n: nat,
                                                 d: Detection, bodies: map<int, Box>)
    requires n <= |free| && forall k :: 0 <= k < |free| ==> free[k] < |items|
    ensures BestMatch(s, NameItems(names, items), free, n, d, bodies) == BestMatch(s, items, free, n, d, bodies)
  {
    if n > 0 {
      BestMatchIgnoresNames(names, s, items, free, n - 1, d, bodies);
    }
  }

  /** The same loop state in a tracker of its own, `own`, and in the shared one. */
  ghost predicate SameLoop(names: Names, own: Matching, shared: Matching) {
    && own.nextId == |names| + 1 && Increasing(names, shared.nextId)
    && KnownItems(names, own.items) && KnownIds(names, own.ids)
    && shared.items == NameItems(names, own.items)
    && shared.free == own.free
    && shared.ids == NameIds(names, own.ids)
  }

  lemma TakeInIgnoresNames(names: Names, s: Settings, own: Matching, shared: Matching, d: Detection, f: Frame)
    returns (names': Names)
    requires InRange(own) && InRange(shared) && SameLoop(names, own, shared)
    ensures names <= names' && SameLoop(names', TakeIn(s, own, d, f), TakeIn(s, shared, d, f))
  {
    var bodies := Bodies(f.persons, |f.persons|);
    BestMatchIgnoresNames(names, s, own.items, own.free, |own.free|, d, bodies);
    if BestMatch(s, own.items, own.free, |own.free|, d, bodies) == None {
      names' := names + [shared.nextId];
      assert NameItems(names', own.items) == NameItems(names, own.items);
      assert NameIds(names', own.ids) == NameIds(names, own.ids);
    } else {
      names' := names;
    }
  }

  lemma {:induction false} TakeInAllIgnoresNames(names: Names, s: Settings, items: seq<Item>, sharedNext: int,
                                                 f: Frame, n: nat)
    returns (names': Names)
    requires n <= |f.objects| && KnownItems(names, items) && Increasing(names, sharedNext)
    ensures names <= names'
    ensures SameLoop(names', TakeInAll(s, items, |names| + 1, f, n),
                     TakeInAll(s, NameItems(names, items), sharedNext, f, n))
  {
    if n == 0 {
      names' := names;
    } else {
      names' := TakeInAllIgnoresNames(names, s, items, sharedNext, f, n - 1);
      names' := TakeInIgnoresNames(names', s, TakeInAll(s, items, |names| + 1, f, n - 1),
                                   TakeInAll(s, NameItems(names, items), sharedNext, f, n - 1), f.objects[n - 1], f);
    }
  }

  lemma {:induction false} SweepIgnoresNames(names: Names, s: Settings, items: seq<Item>, n: nat, f: Frame,
                                             persons: map<int, real>, muted: bool)
    requires n <= |items| && KnownItems(names, items)
    ensures var w := SweepItems(s, items, n, f, persons, muted);
            && SweepItems(s, NameItems(names, items), n, f, persons, muted)
               == Sweep(NameItems(names, w.kept), NameVerdicts(names, w.verdicts))
            && KnownItems(names, w.kept)
            && forall i :: 0 <= i < |w.verdicts| ==> Known(names, w.verdicts[i].objectId)
  {
    if n > 0 {
      SweepIgnoresNames(names, s, items, n - 1, f, persons, muted);
      var item := items[n - 1];
      assert NameItems(names, items)[n - 1] == NameItem(names, item);
    }
  }

  /** What a camera is told for one frame. */
  datatype Reply = Reply(ids: seq<int>, verdicts: seq<Verdict>)

  function NameReply(names: Names, r: Reply): Reply {
    Reply(NameIds(names, r.ids), NameVerdicts(names, r.verdicts))
  }

  predicate KnownReply(names: Names, r: Reply) {
    && (forall i :: 0 <= i < |r.ids| ==> Known(names, r.ids[i]))
    && (forall i :: 0 <= i < |r.verdicts| ==> Known(names, r.verdicts[i].objectId))
  }

  lemma ObserveIgnoresNames(names: Names, s: Settings, c: Camera, sharedNext: int, f: Frame) returns (names': Names)
    requires KnownItems(names, c.items) && Increasing(names, sharedNext)
    ensures names <= names'
    ensures var own, shared := Observe(s, c, |names| + 1, f), Observe(s, NameCamera(names, c), sharedNext, f);
            && own.nextId == |names'| + 1 && Increasing(names', shared.nextId)
            && KnownItems(names', own.camera.items) && shared.camera == NameCamera(names', own.camera)
            && KnownReply(names', Reply(own.ids, own.verdicts))
            && Reply(shared.ids, shared.verdicts) == NameReply(names', Reply(own.ids, own.verdicts))
  {
    names' := TakeInAllIgnoresNames(names, s, c.items, sharedNext, f, |f.objects|);
    var m := TakeInAll(s, c.items, |names| + 1, f, |f.objects|);
    SweepIgnoresNames(names', s, m.items, |m.items|, f, Sighted(c.persons, f, |f.persons|),
                      Muted(s, c.lastFired, f.at));
  }

  // ---------- whole runs ----------

  predicate Concerns(e: Event, camera: string) {
    e.Retune? || e.camera == camera
  }

  /** The frames of one camera among the first n events, and every retune. */
  function Only(events: seq<Event>, camera: string, n: nat): seq<Event>
    requires n <= |events|
  {
    if n == 0 then []
    else if Concerns(events[n - 1], camera) then Only(events, camera, n - 1) + [events[n - 1]]
    else Only(events, camera, n - 1)
  }

  /** What the camera has been told once the tracker has taken in one more event. */
  function Told(rs: seq<Reply>, t: Tracker, e: Event, camera: string): seq<Reply> {
    if e.Seen? && e.camera == camera then
      var o := Answer(t, e);
      rs + [Reply(o.ids, o.verdicts)]
    else rs
  }

  /** What the camera is told during the first n events. */
  function Replies(s: Settings, events: seq<Event>, camera: string, n: nat): seq<Reply>
    requires n <= |events|
  {
    if n == 0 then []
    else Told(Replies(s, events, camera, n - 1), After(s, events, n - 1), events[n - 1], camera)
  }

  function NameReplies(names: Names, rs: seq<Reply>): (r: seq<Reply>)
    ensures |r| == |rs|
  {
    seq(|rs|, i requires 0 <= i < |rs| => NameReply(names, rs[i]))
  }

  ghost predicate KnownReplies(names: Names, rs: seq<Reply>) {
    forall i :: 0 <= i < |rs| ==> KnownReply(names, rs[i])
  }

  lemma {:induction false} LaterEventsDoNotMatter(s: Settings, events: seq<Event>, more: seq<Event>, camera: string,
                                                  n: nat)
    requires n <= |events|
    ensures After(s, events + more, n) == After(s, events, n)
    ensures Replies(s, events + more, camera, n) == Replies(s, events, camera, n)
  {
    if n > 0 {
      LaterEventsDoNotMatter(s, events, more, camera, n - 1);
    }
  }

  lemma OneMoreEvent(s: Settings, events: seq<Event>, e: Event, camera: string)
    ensures After(s, events + [e], |events| + 1) == Next(After(s, events, |events|), e)
    ensures Replies(s, events + [e], camera, |events| + 1)
            == Told(Replies(s, events, camera, |events|), After(s, events, |events|), e, camera)
  {
    LaterEventsDoNotMatter(s, events, [e], camera, |events|);
  }

  /** The shared tracker shows the camera what a tracker of its own would, under the names. */
  ghost predicate Alike(names: Names, own: Tracker, shared: Tracker, camera: string) {
    && own.settings == shared.settings
    && own.nextId == |names| + 1 && Increasing(names, shared.nextId)
    && KnownItems(names, CameraOf(own, camera).items)
    && CameraOf(shared, camera) == NameCamera(names, CameraOf(own, camera))
  }

  lemma NextIsAlike(names: Names, own: Tracker, shared: Tracker, camera: string, e: Event) returns (names': Names)
    requires Alike(names, own, shared, camera) && Concerns(e, camera)
    ensures names <= names' && Alike(names', Next(own, e), Next(shared, e), camera)
    ensures e.Seen? ==>
              var o, o' := Answer(own, e), Answer(shared, e);
              && KnownReply(names', Reply(o.ids, o.verdicts))
              && Reply(o'.ids, o'.verdicts) == NameReply(names', Reply(o.ids, o.verdicts))
  {
    names' := names;
    if e.Seen? {
      names' := ObserveIgnoresNames(names, own.settings, CameraOf(own, camera), shared.nextId, e.frame);
    }
  }

  lemma {:induction false} NumbersOnlyGrow(s: Settings, items: seq<Item>, nextId: int, f: Frame, n: nat)
    requires n <= |f.objects|
    ensures nextId <= TakeInAll(s, items, nextId, f, n).nextId
  {
    if n > 0 {
      NumbersOnlyGrow(s, items, nextId, f, n - 1);
    }
  }

  lemma OthersAreNotNoticed(names: Names, own: Tracker, shared: Tracker, camera: string, e: Event)
    requires Alike(names, own, shared, camera) && !Concerns(e, camera)
    ensures Alike(names, own, Next(shared, e), camera)
  {
    NumbersOnlyGrow(shared.settings, CameraOf(shared, e.camera).items, shared.nextId, e.frame, |e.frame.objects|);
  }

  lemma NamingMoreChangesNothing(names: Names, names': Names, rs: seq<Reply>)
    requires names <= names' && KnownReplies(names, rs)
    ensures NameReplies(names', rs) == NameReplies(names, rs) && KnownReplies(names', rs)
  {
    forall i | 0 <= i < |rs|
      ensures NameReply(names', rs[i]) == NameReply(names, rs[i]) && KnownReply(names', rs[i])
    {
      assert NameIds(names', rs[i].ids) == NameIds(names, rs[i].ids);
      assert NameVerdicts(names', rs[i].verdicts) == NameVerdicts(names, rs[i].verdicts);
    }
  }

  /** Trackers alike that have told the camera alike, so far. */
  ghost predicate Accord(names: Names, own: Tracker, rs: seq<Reply>, shared: Tracker, rs': seq<Reply>, camera: string) {
    Alike(names, own, shared, camera) && KnownReplies(names, rs) && rs' == NameReplies(names, rs)
  }

  lemma OneMoreReply(names: Names, rs: seq<Reply>, r: Reply)
    requires KnownReplies(names, rs) && KnownReply(names, r)
    ensures KnownReplies(names, rs + [r])
    ensures NameReplies(names, rs + [r]) == NameReplies(names, rs) + [NameReply(names, r)]
  {
  }

  lemma NextAccords(names: Names, own: Tracker, rs: seq<Reply>, shared: Tracker, rs': seq<Reply>, camera: string,
                    e: Event)
    returns (names': Names)
    requires Accord(names, own, rs, shared, rs', camera) && Concerns(e, camera)
    ensures Accord(names', Next(own, e), Told(rs, own, e, camera),
                   Next(shared, e), Told(rs', shared, e, camera), camera)
  {
    names' := NextIsAlike(names, own, shared, camera, e);
    NamingMoreChangesNothing(names, names', rs);
    if e.Seen? {
      OneMoreReply(names', rs, Reply(Answer(own, e).ids, Answer(own, e).verdicts));
    }
  }

  /**
   For any interleaving of frames of many cameras and retunes, everything one camera is told equals,
   under an increasing (so injective) renaming of item numbers, what it is told in a run of its frames alone.
   */
  lemma {:induction false} CamerasDoNotInterfere(s: Settings, events: seq<Event>, camera: string, n: nat)
    returns (names: Names)
    requires n <= |events|
    ensures var own := Only(events, camera, n);
            Accord(names, After(s, own, |own|), Replies(s, own, camera, |own|),
                   After(s, events, n), Replies(s, events, camera, n), camera)
  {
    if n == 0 {
      names := [];
    } else {
      names := CamerasDoNotInterfere(s, events, camera, n - 1);
      var own, e := Only(events, camera, n - 1), events[n - 1];
      if Concerns(e, camera) {
        names := NextAccords(names, After(s, own, |own|), Replies(s, own, camera, |own|),
                             After(s, events, n - 1), Replies(s, events, camera, n - 1), camera, e);
        OneMoreEvent(s, own, e, camera);
      } else {
        OthersAreNotNoticed(names, After(s, own, |own|), After(s, events, n - 1), camera, e);
      }
    }
  }
}
