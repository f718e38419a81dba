/**
 The concealment tracker over whole runs (services/ai/app/concealment.py): frames of any number of
 cameras in any order, with any timestamps, and retunes in between.
 */
module ConcealmentRuns {
  import opened Options
  import opened Concealment

  datatype Tracker = Tracker(settings: Settings, cameras: map<string, Camera>, nextId: int)

  datatype Event =
    | Seen(camera: string, frame: Frame)
    | Retune(grabRatio: real, missingSeconds: real, keypointConfidence: real, expirySeconds: real)

  function Fresh(s: Settings): Tracker {
    Tracker(s, map[], 1)
  }

  function CameraOf(t: Tracker, camera: string): Camera {
    if camera in t.cameras then t.cameras[camera] else Camera([], map[], None)
  }

  function Retuned(s: Settings, e: Event): Settings
    requires e.Retune?
  {
    s.(grabRatio := e.grabRatio, missingSeconds := e.missingSeconds, keypointConfidence := e.keypointConfidence,
       expirySeconds := e.expirySeconds)
  }

  function Answer(t: Tracker, e: Event): Outcome
    requires e.Seen?
  {
    Observe(t.settings, CameraOf(t, e.camera), t.nextId, e.frame)
  }

  function Next(t: Tracker, e: Event): Tracker {
    if e.Retune? then t.(settings := Retuned(t.settings, e))
    else t.(cameras := t.cameras[e.camera := Answer(t, e).camera], nextId := Answer(t, e).nextId)
  }

  function After(s: Settings, events: seq<Event>, n: nat): Tracker
    requires n <= |events|
  {
    if n == 0 then Fresh(s) else Next(After(s, events, n - 1), events[n - 1])
  }

  // ---------- where the detections of a frame go ----------

  ghost predicate DistinctIds(items: seq<Item>, nextId: int) {
    && (forall i :: 0 <= i < |items| ==> 0 < items[i].id < nextId)
    && (forall i, j :: 0 <= i < j < |items| ==> items[i].id != items[j].id)
  }

  predicate Shows(item: Item, d: Detection, f: Frame) {
    && item.sight.class_ == d.class_ && item.sight.box == d.box
    && item.sight.seenAt == f.at && item.sight.seenFrame == f.index && !item.fired
  }

  ghost predicate Unrepeated(s: seq<nat>) {
    forall i, j :: 0 <= i < j < |s| ==> s[i] != s[j]
  }

  /** `at[k]` is the place of the item that took in detection k; free items are as they were. */
  ghost predicate Placed(items: seq<Item>, nextId: int, f: Frame, m: Matching, n: nat, at: seq<nat>)
    requires n <= |f.objects|
  {
    && |at| == n == |m.ids| && Unrepeated(at) && Unrepeated(m.free)
    && |items| <= |m.items| && m.nextId == nextId + |m.items| - |items|
    && (forall k :: 0 <= k < n ==> at[k] < |m.items| && at[k] !in m.free
                                   && m.items[at[k]].id == m.ids[k] && Shows(m.items[at[k]], f.objects[k], f))
    && (forall j :: 0 <= j < |m.items| ==> j in m.free || j in at)
    && (forall j :: j in m.free ==> j < |items| && m.items[j] == items[j])
    && (forall j :: 0 <= j < |items| ==> m.items[j].id == items[j].id
                                         && m.items[j].sight.class_ == items[j].sight.class_)
    && (forall j :: |items| <= j < |m.items| ==> m.items[j].id == nextId + j - |items|)
  }

  lemma {:induction false} BestMatchIsFree(s: Settings, items: seq<Item>, free: seq<nat>, n: nat, d: Detection,
                                           bodies: map<int, Box>)
    requires n <= |free| && forall k :: 0 <= k < |free| ==> free[k] < |items|
    ensures var best := BestMatch(s, items, free, n, d, bodies);
            best.Some? ==> best.value in free && items[best.value].sight.class_ == d.class_
  {
    if n > 0 {
      BestMatchIsFree(s, items, free, n - 1, d, bodies);
    }
  }

  lemma {:induction false} WithoutRemoves(free: seq<nat>, i: nat)
    requires Unrepeated(free) && i in free
    ensures Unrepeated(Without(free, i))
    ensures forall j :: j in Without(free, i) <==> j in free && j != i
  {
    var rest := free[1..];
    assert free == [free[0]] + rest;
    TailIsUnrepeated(free);
    if free[0] != i {
      WithoutRemoves(rest, i);
      assert free[0] !in Without(rest, i);
    }
  }

  lemma TailIsUnrepeated(free: seq<nat>)
    requires Unrepeated(free) && free != []
    ensures Unrepeated(free[1..]) && free[0] !in free[1..]
  {
    assert forall k :: 0 <= k < |free[1..]| ==> free[1..][k] == free[k + 1];
  }

  lemma NothingPlacedYet(s: Settings, items: seq<Item>, nextId: int, f: Frame)
    ensures Placed(items, nextId, f, TakeInAll(s, items, nextId, f, 0), 0, [])
  {
    var free: seq<nat> := TakeInAll(s, items, nextId, f, 0).free;
    forall j: nat | j < |items|
      ensures j in free
    {
      assert free[j] == j;
    }
  }

  lemma {:induction false} DetectionsArePlaced(s: Settings, items: seq<Item>, nextId: int, f: Frame, n: nat)
    returns (at: seq<nat>)
    requires n <= |f.objects|
    ensures Placed(items, nextId, f, TakeInAll(s, items, nextId, f, n), n, at)
  {
    if n == 0 {
      at := [];
      NothingPlacedYet(s, items, nextId, f);
    } else {
      at := DetectionsArePlaced(s, items, nextId, f, n - 1);
      at := NextIsPlaced(s, items, nextId, f, TakeInAll(s, items, nextId, f, n - 1), n, at);
    }
  }

  lemma NextIsPlaced(s: Settings, items: seq<Item>, nextId: int, f: Frame, m: Matching, n: nat, before: seq<nat>)
    returns (at: seq<nat>)
    requires 0 < n <= |f.objects| && InRange(m) && Placed(items, nextId, f, m, n - 1, before)
    ensures Placed(items, nextId, f, TakeIn(s, m, f.objects[n - 1], f), n, at)
    ensures var best := BestMatch(s, m.items, m.free, |m.free|, f.objects[n - 1], Bodies(f.persons, |f.persons|));
            at == before + [if best.Some? then best.value else |m.items|]
  {
    var bodies := Bodies(f.persons, |f.persons|);
    var best := BestMatch(s, m.items, m.free, |m.free|, f.objects[n - 1], bodies);
    if best.Some? {
      BestMatchIsFree(s, m.items, m.free, |m.free|, f.objects[n - 1], bodies);
      WithoutRemoves(m.free, best.value);
      MatchedIsPlaced(s, items, nextId, f, m, n, before, best.value);
      at := before + [best.value];
    } else {
      NewIsPlaced(s, items, nextId, f, m, n, before);
      at := before + [|m.items|];
    }
  }

  lemma MatchedIsPlaced(s: Settings, items: seq<Item>, nextId: int, f: Frame, m: Matching, n: nat, at: seq<nat>, i: nat)
    requires 0 < n <= |f.objects| && InRange(m) && Placed(items, nextId, f, m, n - 1, at)
    requires i in m.free && i < |m.items| && m.items[i].sight.class_ == f.objects[n - 1].class_
    requires Unrepeated(Without(m.free, i)) && forall j :: j in Without(m.free, i) <==> j in m.free && j != i
    ensures Placed(items, nextId, f,
                   Matching(m.items[i := Item(m.items[i].id, SeenAgain(s, m.items[i].sight, f.objects[n - 1], f),
                                              false)],
                            Without(m.free, i), m.nextId, m.ids + [m.items[i].id]), n, at + [i])
  {
    assert i !in at;
  }

  lemma NewIsPlaced(s: Settings, items: seq<Item>, nextId: int, f: Frame, m: Matching, n: nat, at: seq<nat>)
    requires 0 < n <= |f.objects| && InRange(m) && Placed(items, nextId, f, m, n - 1, at)
    ensures var d := f.objects[n - 1];
            Placed(items, nextId, f,
                   Matching(m.items + [Item(m.nextId, SeenAgain(s, NewSight(d, f), d, f), false)], m.free,
                            m.nextId + 1, m.ids + [m.nextId]), n, at + [|m.items|])
  {
    assert |m.items| !in m.free;
  }

  /** `from[k]` is the place before the sweep of the item kept in place k; the item of the verdict is kept as fired. */
  ghost predicate Swept(s: Settings, items: seq<Item>, n: nat, f: Frame, w: Sweep, from: seq<nat>)
    requires n <= |items|
  {
    && |from| == |w.kept|
    && (forall k :: 0 <= k < |from| ==> from[k] < n
                                        && (w.kept[k] == items[from[k]] || w.kept[k] == items[from[k]].(fired := true)))
    && (forall k, l :: 0 <= k < l < |from| ==> from[k] < from[l])
    && (w.verdicts != [] ==> exists k :: 0 <= k < |from| && JustFired(w.kept[k], items[from[k]], f, w.verdicts))
  }

  predicate JustFired(kept: Item, before: Item, f: Frame, verdicts: seq<Verdict>) {
    kept.fired && !before.fired && verdicts == [VerdictOn(before, f)]
  }

  lemma {:induction false} SweepKeeps(s: Settings, items: seq<Item>, n: nat, f: Frame, persons: map<int, real>,
                                      muted: bool)
    returns (from: seq<nat>)
    requires n <= |items|
    ensures Swept(s, items, n, f, SweepItems(s, items, n, f, persons, muted), from)
  {
    from := [];
    if n > 0 {
      from := SweepKeeps(s, items, n - 1, f, persons, muted);
      var w := SweepItems(s, items, n - 1, f, persons, muted);
      var w' := SweepItems(s, items, n, f, persons, muted);
      if w.verdicts != [] {
        var k :| 0 <= k < |from| && JustFired(w.kept[k], items[from[k]], f, w.verdicts);
        assert w'.kept[k] == w.kept[k];
      }
      if !Expired(s, items[n - 1], f) {
        from := from + [n - 1];
        assert w'.verdicts != w.verdicts ==> JustFired(w'.kept[|w.kept|], items[from[|w.kept|]], f, w'.verdicts);
      }
    }
  }

  // ---------- the ledger ----------

  /** The last sighting of an id, and whether a verdict on it came since. */
  datatype Entry = Entry(camera: string, sight: Sight, fired: bool)

  datatype Ledger = Ledger(entries: map<int, Entry>, lastVerdict: map<string, real>)

  function WithId(items: seq<Item>, id: int): Option<Item> {
    if items == [] then None else if items[0].id == id then Some(items[0]) else WithId(items[1..], id)
  }

  function Sightings(entries: map<int, Entry>, camera: string, items: seq<Item>, ids: seq<int>, n: nat): map<int, Entry>
    requires n <= |ids|
  {
    if n == 0 then entries
    else
      var before := Sightings(entries, camera, items, ids, n - 1);
      var item := WithId(items, ids[n - 1]);
      if item == None then before else before[ids[n - 1] := Entry(camera, item.value.sight, false)]
  }

  /** The items of the event's camera once its frame is matched, and the ledger with the sightings of that frame. */
  function Matched(t: Tracker, e: Event): seq<Item>
    requires e.Seen?
  {
    AfterMatching(t.settings, CameraOf(t, e.camera), t.nextId, e.frame)
  }

  function Sighted'(t: Tracker, l: Ledger, e: Event): map<int, Entry>
    requires e.Seen?
  {
    Sightings(l.entries, e.camera, Matched(t, e), Answer(t, e).ids, |Answer(t, e).ids|)
  }

  function MarkFired(entries: map<int, Entry>, id: int): map<int, Entry> {
    if id in entries then entries[id := entries[id].(fired := true)] else entries
  }

  function Noted(t: Tracker, l: Ledger, e: Event): Ledger {
    if e.Retune? then l
    else if Answer(t, e).verdicts == [] then Ledger(Sighted'(t, l, e), l.lastVerdict)
    else
      Ledger(MarkFired(Sighted'(t, l, e), Answer(t, e).verdicts[0].objectId), l.lastVerdict[e.camera := e.frame.at])
  }

  function LedgerAfter(s: Settings, events: seq<Event>, n: nat): Ledger
    requires n <= |events|
  {
    if n == 0 then Ledger(map[], map[])
    else Noted(After(s, events, n - 1), LedgerAfter(s, events, n - 1), events[n - 1])
  }

  /** Items of a camera against the ledger: nothing but `fired` changes between sightings. */
  predicate Agrees(item: Item, camera: string, entries: map<int, Entry>) {
    && item.id in entries
    && entries[item.id].camera == camera && entries[item.id].sight == item.sight
    && (entries[item.id].fired ==> item.fired)
  }

  ghost predicate ItemsAgree(items: seq<Item>, camera: string, entries: map<int, Entry>) {
    forall i :: 0 <= i < |items| ==> Agrees(items[i], camera, entries)
  }

  ghost predicate Honest(t: Tracker, l: Ledger) {
    && t.nextId > 0
    && (forall c :: c in t.cameras ==> DistinctIds(t.cameras[c].items, t.nextId)
                                       && ItemsAgree(t.cameras[c].items, c, l.entries))
    && (forall x :: x in l.entries ==> 0 < x < t.nextId)
    && (forall c :: CameraOf(t, c).lastFired == if c in l.lastVerdict then Some(l.lastVerdict[c]) else None)
  }

  lemma {:induction false} WithIdFinds(items: seq<Item>, i: nat, nextId: int)
    requires i < |items| && DistinctIds(items, nextId)
    ensures WithId(items, items[i].id) == Some(items[i])
  {
    if i > 0 {
      WithIdFinds(items[1..], i - 1, nextId);
    }
  }

  ghost predicate Answered(ids: seq<int>, n: nat, x: int)
    requires n <= |ids|
  {
    exists k :: 0 <= k < n && ids[k] == x
  }

  /** The sightings of a frame enter the ledger, and touch no other id. */
  lemma {:induction false} SightingsEnter(entries: map<int, Entry>, camera: string, items: seq<Item>, ids: seq<int>,
                                          n: nat, at: seq<nat>, nextId: int)
    requires n <= |ids| == |at| && DistinctIds(items, nextId)
    requires forall k :: 0 <= k < |ids| ==> at[k] < |items| && items[at[k]].id == ids[k]
    ensures var seen := Sightings(entries, camera, items, ids, n);
            && (forall k :: 0 <= k < n ==> ids[k] in seen && seen[ids[k]] == Entry(camera, items[at[k]].sight, false))
            && (forall x :: !Answered(ids, n, x) ==> (x in seen <==> x in entries)
                                                     && (x in seen ==> seen[x] == entries[x]))
  {
    if n > 0 {
      SightingsEnter(entries, camera, items, ids, n - 1, at, nextId);
      WithIdFinds(items, at[n - 1], nextId);
      var seen := Sightings(entries, camera, items, ids, n);
      forall k | 0 <= k < n
        ensures ids[k] in seen && seen[ids[k]] == Entry(camera, items[at[k]].sight, false)
      {
        assert ids[k] == ids[n - 1] ==> at[k] == at[n - 1];
      }
    }
  }

  lemma PlacedIdsAreDistinct(items: seq<Item>, nextId: int, f: Frame, m: Matching, at: seq<nat>)
    requires Placed(items, nextId, f, m, |f.objects|, at) && DistinctIds(items, nextId) && nextId > 0
    ensures DistinctIds(m.items, m.nextId) && nextId <= m.nextId
    ensures forall k :: 0 <= k < |m.ids| ==> 0 < m.ids[k] < m.nextId
    ensures forall k, l :: 0 <= k < l < |m.ids| ==> m.ids[k] != m.ids[l]
  {
  }

  /** After a frame is matched, every item of the camera agrees with the ledger. */
  lemma PlacedItemsAgree(items: seq<Item>, nextId: int, f: Frame, m: Matching, at: seq<nat>,
                         camera: string, entries: map<int, Entry>)
    requires Placed(items, nextId, f, m, |f.objects|, at) && DistinctIds(m.items, m.nextId)
    requires ItemsAgree(items, camera, entries)
    ensures ItemsAgree(m.items, camera, Sightings(entries, camera, m.items, m.ids, |m.ids|))
  {
    SightingsEnter(entries, camera, m.items, m.ids, |m.ids|, at, m.nextId);
    forall j | 0 <= j < |m.items|
      ensures Agrees(m.items[j], camera, Sightings(entries, camera, m.items, m.ids, |m.ids|))
    {
      if j in at {
        var k :| 0 <= k < |at| && at[k] == j;
      } else {
        assert Agrees(items[j], camera, entries);
        UnseenIdIsNotAnswered(items, nextId, f, m, at, j);
      }
    }
  }

  lemma UnseenIdIsNotAnswered(items: seq<Item>, nextId: int, f: Frame, m: Matching, at: seq<nat>, j: nat)
    requires Placed(items, nextId, f, m, |f.objects|, at) && DistinctIds(m.items, m.nextId)
    requires j < |m.items| && j !in at
    ensures !Answered(m.ids, |m.ids|, m.items[j].id)
  {
    forall k | 0 <= k < |m.ids|
      ensures m.ids[k] != m.items[j].id
    {
      assert at[k] in at;
    }
  }

  /** An answered id belongs to an old item of this camera and the same class, or is newer than every id before. */
  lemma AnsweredIdsAreOwn(items: seq<Item>, nextId: int, f: Frame, m: Matching, at: seq<nat>,
                          camera: string, entries: map<int, Entry>)
    requires Placed(items, nextId, f, m, |f.objects|, at) && ItemsAgree(items, camera, entries)
    requires forall x :: x in entries ==> x < nextId
    ensures forall k :: 0 <= k < |m.ids| && m.ids[k] in entries ==>
                          entries[m.ids[k]].camera == camera && entries[m.ids[k]].sight.class_ == f.objects[k].class_
    ensures forall k, x :: 0 <= k < |m.ids| && m.ids[k] !in entries && x in entries ==> x < m.ids[k]
  {
    forall k | 0 <= k < |m.ids|
      ensures if m.ids[k] in entries then
                entries[m.ids[k]].camera == camera && entries[m.ids[k]].sight.class_ == f.objects[k].class_
              else m.ids[k] >= nextId
    {
      if at[k] < |items| {
        assert Agrees(items[at[k]], camera, entries);
      }
    }
  }

  lemma SweptItemsAgree(s: Settings, items: seq<Item>, nextId: int, f: Frame, w: Sweep, from: seq<nat>,
                        camera: string, entries: map<int, Entry>)
    requires Swept(s, items, |items|, f, w, from) && DistinctIds(items, nextId) && ItemsAgree(items, camera, entries)
    ensures DistinctIds(w.kept, nextId)
    ensures ItemsAgree(w.kept, camera, if w.verdicts == [] then entries else MarkFired(entries, w.verdicts[0].objectId))
  {
    forall k | 0 <= k < |w.kept|
      ensures Agrees(w.kept[k], camera,
                     if w.verdicts == [] then entries else MarkFired(entries, w.verdicts[0].objectId))
    {
      assert Agrees(items[from[k]], camera, entries);
      if w.verdicts != [] {
        var l :| 0 <= l < |from| && JustFired(w.kept[l], items[from[l]], f, w.verdicts);
        assert l != k ==> items[from[l]].id != items[from[k]].id;
      }
    }
  }

  // ---------- what every frame of every run keeps ----------

  /** A verdict repeats the last sighting of its id, on this camera, with no verdict since, and is justified. */
  ghost predicate VerdictHolds(s: Settings, seen: map<int, Entry>, e: Event, v: Verdict)
    requires e.Seen?
  {
    && v.objectId in seen
    && var last := seen[v.objectId];
       && last.camera == e.camera && !last.fired
       && v == VerdictOn(Item(v.objectId, last.sight, false), e.frame)
       && Justified(s, Item(v.objectId, last.sight, false), e.frame)
  }

  /** One distinct id per detection: an id seen before keeps its camera and class, and a new one was never used. */
  ghost predicate IdsHold(l: Ledger, seen: map<int, Entry>, e: Event, ids: seq<int>)
    requires e.Seen?
  {
    && |ids| == |e.frame.objects|
    && (forall j, k :: 0 <= j < k < |ids| ==> ids[j] != ids[k])
    && (forall k :: 0 <= k < |ids| ==>
                      && ids[k] in seen && seen[ids[k]].camera == e.camera
                      && Shows(Item(ids[k], seen[ids[k]].sight, seen[ids[k]].fired), e.frame.objects[k], e.frame))
    && (forall k :: 0 <= k < |ids| && ids[k] in l.entries ==>
                      && l.entries[ids[k]].camera == e.camera
                      && l.entries[ids[k]].sight.class_ == e.frame.objects[k].class_)
    && (forall k, x :: 0 <= k < |ids| && ids[k] !in l.entries && x in l.entries ==> x < ids[k])
  }

  ghost predicate KeepsWord(t: Tracker, l: Ledger, e: Event)
    requires e.Seen?
  {
    var o := Answer(t, e);
    && IdsHold(l, Sighted'(t, l, e), e, o.ids)
    && |o.verdicts| <= 1
    && (o.verdicts != [] ==> VerdictHolds(t.settings, Sighted'(t, l, e), e, o.verdicts[0]))
    && (o.verdicts != [] && e.camera in l.lastVerdict ==>
          e.frame.at - l.lastVerdict[e.camera] >= t.settings.expirySeconds)
  }

  lemma PlacedIdsHold(items: seq<Item>, nextId: int, m: Matching, at: seq<nat>, l: Ledger, e: Event)
    requires e.Seen? && Placed(items, nextId, e.frame, m, |e.frame.objects|, at) && nextId > 0
    requires DistinctIds(items, nextId) && ItemsAgree(items, e.camera, l.entries)
    requires forall x :: x in l.entries ==> x < nextId
    ensures IdsHold(l, Sightings(l.entries, e.camera, m.items, m.ids, |m.ids|), e, m.ids)
  {
    PlacedIdsAreDistinct(items, nextId, e.frame, m, at);
    SightingsEnter(l.entries, e.camera, m.items, m.ids, |m.ids|, at, m.nextId);
    AnsweredIdsAreOwn(items, nextId, e.frame, m, at, e.camera, l.entries);
  }

  lemma FrameIdsHold(t: Tracker, l: Ledger, e: Event)
    requires Honest(t, l) && e.Seen?
    ensures IdsHold(l, Sighted'(t, l, e), e, Answer(t, e).ids)
  {
    var c := CameraOf(t, e.camera);
    var m := TakeInAll(t.settings, c.items, t.nextId, e.frame, |e.frame.objects|);
    var at := DetectionsArePlaced(t.settings, c.items, t.nextId, e.frame, |e.frame.objects|);
    PlacedIdsHold(c.items, t.nextId, m, at, l, e);
  }

  lemma FrameVerdictsHold(t: Tracker, l: Ledger, e: Event)
    requires Honest(t, l) && e.Seen? && Answer(t, e).verdicts != []
    ensures |Answer(t, e).verdicts| == 1 && VerdictHolds(t.settings, Sighted'(t, l, e), e, Answer(t, e).verdicts[0])
  {
    var c := CameraOf(t, e.camera);
    var m := TakeInAll(t.settings, c.items, t.nextId, e.frame, |e.frame.objects|);
    var at := DetectionsArePlaced(t.settings, c.items, t.nextId, e.frame, |e.frame.objects|);
    PlacedIdsAreDistinct(c.items, t.nextId, e.frame, m, at);
    PlacedItemsAgree(c.items, t.nextId, e.frame, m, at, e.camera, l.entries);
    VerdictsAreJustified(t.settings, c, t.nextId, e.frame);
    var i: nat :| FirstJustified(t.settings, m.items, e.frame, |m.items|, i)
                  && Answer(t, e).verdicts == [VerdictOn(m.items[i], e.frame)];
    assert Agrees(m.items[i], e.camera, Sighted'(t, l, e));
    assert m.items[i] == Item(m.items[i].id, m.items[i].sight, false);
  }

  lemma FrameKeepsWord(t: Tracker, l: Ledger, e: Event)
    requires Honest(t, l) && e.Seen?
    ensures KeepsWord(t, l, e)
  {
    FrameIdsHold(t, l, e);
    VerdictsAreJustified(t.settings, CameraOf(t, e.camera), t.nextId, e.frame);
    if Answer(t, e).verdicts != [] {
      FrameVerdictsHold(t, l, e);
    }
  }

  /** The camera of the frame agrees with the ledger afterwards. */
  lemma OwnCameraStaysHonest(t: Tracker, l: Ledger, e: Event)
    requires Honest(t, l) && e.Seen?
    ensures DistinctIds(Answer(t, e).camera.items, Answer(t, e).nextId)
    ensures ItemsAgree(Answer(t, e).camera.items, e.camera, Noted(t, l, e).entries)
    ensures t.nextId <= Answer(t, e).nextId
  {
    var c := CameraOf(t, e.camera);
    var f := e.frame;
    var m := TakeInAll(t.settings, c.items, t.nextId, f, |f.objects|);
    var at := DetectionsArePlaced(t.settings, c.items, t.nextId, f, |f.objects|);
    PlacedIdsAreDistinct(c.items, t.nextId, f, m, at);
    PlacedItemsAgree(c.items, t.nextId, f, m, at, e.camera, l.entries);
    var persons := Sighted(c.persons, f, |f.persons|);
    var muted := Muted(t.settings, c.lastFired, f.at);
    var from := SweepKeeps(t.settings, m.items, |m.items|, f, persons, muted);
    SweptItemsAgree(t.settings, m.items, m.nextId, f, SweepItems(t.settings, m.items, |m.items|, f, persons, muted),
                    from, e.camera, Sighted'(t, l, e));
  }

  /** What a frame writes into the ledger is about its own camera, so the others still agree. */
  lemma OtherCamerasStayHonest(t: Tracker, l: Ledger, e: Event, camera: string)
    requires Honest(t, l) && e.Seen? && camera in t.cameras && camera != e.camera
    ensures ItemsAgree(t.cameras[camera].items, camera, Noted(t, l, e).entries)
  {
    FrameKeepsWord(t, l, e);
    var items := t.cameras[camera].items;
    var seen := Sighted'(t, l, e);
    forall i | 0 <= i < |items|
      ensures Agrees(items[i], camera, Noted(t, l, e).entries)
    {
      assert Agrees(items[i], camera, l.entries);
      SightingsLeaveOthers(t, l, e, items[i].id);
    }
  }

  lemma SightingsLeaveOthers(t: Tracker, l: Ledger, e: Event, x: int)
    requires Honest(t, l) && e.Seen? && KeepsWord(t, l, e)
    requires x in l.entries && l.entries[x].camera != e.camera
    ensures x in Sighted'(t, l, e) && Sighted'(t, l, e)[x] == l.entries[x]
  {
    var c := CameraOf(t, e.camera);
    var m := TakeInAll(t.settings, c.items, t.nextId, e.frame, |e.frame.objects|);
    var at := DetectionsArePlaced(t.settings, c.items, t.nextId, e.frame, |e.frame.objects|);
    PlacedIdsAreDistinct(c.items, t.nextId, e.frame, m, at);
    SightingsEnter(l.entries, e.camera, m.items, m.ids, |m.ids|, at, m.nextId);
    assert !Answered(m.ids, |m.ids|, x);
  }

  lemma {:induction false} SightingsStayBelow(entries: map<int, Entry>, camera: string, items: seq<Item>, ids: seq<int>,
                                              n: nat, bound: int)
    requires n <= |ids|
    requires forall x :: x in entries ==> 0 < x < bound
    requires forall k :: 0 <= k < |ids| ==> 0 < ids[k] < bound
    ensures forall x :: x in Sightings(entries, camera, items, ids, n) ==> 0 < x < bound
  {
    if n > 0 {
      SightingsStayBelow(entries, camera, items, ids, n - 1, bound);
    }
  }

  lemma LedgerIdsAreOld(t: Tracker, l: Ledger, e: Event)
    requires Honest(t, l) && e.Seen?
    ensures forall x :: x in Noted(t, l, e).entries ==> 0 < x < Answer(t, e).nextId
  {
    var c := CameraOf(t, e.camera);
    var m := TakeInAll(t.settings, c.items, t.nextId, e.frame, |e.frame.objects|);
    var at := DetectionsArePlaced(t.settings, c.items, t.nextId, e.frame, |e.frame.objects|);
    PlacedIdsAreDistinct(c.items, t.nextId, e.frame, m, at);
    SightingsStayBelow(l.entries, e.camera, m.items, m.ids, |m.ids|, m.nextId);
  }

  lemma StepKeepsHonest(t: Tracker, l: Ledger, e: Event)
    requires Honest(t, l)
    ensures Honest(Next(t, e), Noted(t, l, e))
  {
    if e.Seen? {
      var t', l' := Next(t, e), Noted(t, l, e);
      OwnCameraStaysHonest(t, l, e);
      forall c | c in t'.cameras
        ensures DistinctIds(t'.cameras[c].items, t'.nextId) && ItemsAgree(t'.cameras[c].items, c, l'.entries)
      {
        if c != e.camera {
          OtherCamerasStayHonest(t, l, e, c);
        }
      }
      LedgerIdsAreOld(t, l, e);
    }
  }

  /**
   In every run, whatever the order of frames, timestamps and retunes, every frame keeps the promises
   about ids and verdicts, measured against the ledger of everything answered before it.
   */
  lemma {:induction false} TrackerKeepsItsWord(s: Settings, events: seq<Event>, n: nat)
    requires n <= |events|
    ensures Honest(After(s, events, n), LedgerAfter(s, events, n))
    ensures n < |events| && events[n].Seen? ==> KeepsWord(After(s, events, n), LedgerAfter(s, events, n), events[n])
  {
    if n > 0 {
      TrackerKeepsItsWord(s, events, n - 1);
      StepKeepsHonest(After(s, events, n - 1), LedgerAfter(s, events, n - 1), events[n - 1]);
    }
    if n < |events| && events[n].Seen? {
      FrameKeepsWord(After(s, events, n), LedgerAfter(s, events, n), events[n]);
    }
  }
}
