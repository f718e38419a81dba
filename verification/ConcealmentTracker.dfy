/**
 The concealment tracker as the object it is (services/ai/app/concealment.py): item records changed in
 place, shared between the camera's list and the list of those still free, and dictionaries that hold
 every camera.  Each method is proved against the one-frame functions of `Concealment`; the last ones
 connect the object to the runs of `ConcealmentRuns`.
 */
module ConcealmentTracking {
  import opened Options
  import opened Concealment
  import opened ConcealmentRuns

  class ItemRecord {
    ghost const camera: string
    const id: int
    const class_: string
    const restX: real
    const restY: real
    const restHeight: Length
    var box: Box
    var seenAt: real
    var seenFrame: int
    var held: bool
    var hold: Hold
    var fired: bool

    function Sight(): Sight
      reads this
    {
      Concealment.Sight(class_, box, restX, restY, restHeight, seenAt, seenFrame, held, hold)
    }

    function View(): Item
      reads this
    {
      Item(id, Sight(), fired)
    }

    constructor (id: int, d: Detection, f: Frame, ghost camera: string)
      ensures this.id == id && this.camera == camera && Sight() == NewSight(d, f) && !fired
    {
      this.id := id;
      this.camera := camera;
      class_ := d.class_;
      box, restX, restY, restHeight := d.box, CentreX(d.box), CentreY(d.box), Height(d.box);
      seenAt, seenFrame := f.at, f.index;
      held, hold, fired := false, NoHold(), false;
    }
  }

  ghost function Views(records: seq<ItemRecord>): (r: seq<Item>)
    reads records
    ensures |r| == |records|
  {
    seq(|records|, i requires 0 <= i < |records| reads records => records[i].View())
  }

  lemma OneMoreView(records: seq<ItemRecord>, record: ItemRecord)
    ensures Views(records + [record]) == Views(records) + [record.View()]
  {
  }

  ghost predicate Places(free: seq<nat>, records: seq<ItemRecord>) {
    forall k :: 0 <= k < |free| ==> free[k] < |records|
  }

  /** The free list of the source: the records at those places. */
  ghost function At(records: seq<ItemRecord>, places: seq<nat>): (r: seq<ItemRecord>)
    requires Places(places, records)
    ensures |r| == |places|
  {
    seq(|places|, k requires 0 <= k < |places| => records[places[k]])
  }

  lemma {:induction false} WithoutFirst(places: seq<nat>, i: nat, k: nat)
    requires k < |places| && places[k] == i && forall j :: 0 <= j < k ==> places[j] != i
    ensures Without(places, i) == places[..k] + places[k + 1..]
  {
    if k > 0 {
      WithoutFirst(places[1..], i, k - 1);
      assert places[..k] == [places[0]] + places[1..][..k - 1];
    }
  }

  ghost predicate Distinct(records: seq<ItemRecord>) {
    forall i, j :: 0 <= i < j < |records| ==> records[i] != records[j]
  }

  ghost function Tracks(persons: map<(string, int), real>): (tracks: set<int>)
    ensures forall key :: key in persons ==> key.1 in tracks
  {
    set key | key in persons :: key.1
  }

  /** The persons of one camera among those of all. */
  ghost function PersonsIn(persons: map<(string, int), real>, camera: string): (mine: map<int, real>)
    ensures forall t :: t in mine <==> (camera, t) in persons
    ensures forall t :: t in mine ==> mine[t] == persons[(camera, t)]
  {
    map t | t in Tracks(persons) && (camera, t) in persons :: persons[(camera, t)]
  }

  /** The dictionary of all persons after the first n persons of the frame are entered. */
  function Entered(persons: map<(string, int), real>, camera: string, f: Frame, n: nat): map<(string, int), real>
    requires n <= |f.persons|
  {
    if n == 0 then persons else Entered(persons, camera, f, n - 1)[(camera, f.persons[n - 1].track) := f.at]
  }

  lemma {:induction false} EnteredHere(persons: map<(string, int), real>, camera: string, f: Frame, n: nat)
    requires n <= |f.persons|
    ensures PersonsIn(Entered(persons, camera, f, n), camera) == Sighted(PersonsIn(persons, camera), f, n)
  {
    if n > 0 {
      EnteredHere(persons, camera, f, n - 1);
    }
  }

  lemma {:induction false} EntryElsewhere(persons: map<(string, int), real>, camera: string, f: Frame, n: nat,
                                          key: (string, int))
    requires n <= |f.persons| && key.0 != camera
    ensures key in Entered(persons, camera, f, n) <==> key in persons
    ensures key in persons ==> Entered(persons, camera, f, n)[key] == persons[key]
  {
    if n > 0 {
      EntryElsewhere(persons, camera, f, n - 1, key);
    }
  }

  lemma EnteredElsewhere(persons: map<(string, int), real>, camera: string, f: Frame, n: nat, other: string)
    requires n <= |f.persons| && other != camera
    ensures PersonsIn(Entered(persons, camera, f, n), other) == PersonsIn(persons, other)
  {
    forall t: int
      ensures (other, t) in Entered(persons, camera, f, n) <==> (other, t) in persons
      ensures (other, t) in persons ==> Entered(persons, camera, f, n)[(other, t)] == persons[(other, t)]
    {
      EntryElsewhere(persons, camera, f, n, (other, t));
    }
  }

  /** Entering the persons of a frame is sighting them on its camera, and nothing on the others. */
  lemma EnteredByCamera(persons: map<(string, int), real>, camera: string, f: Frame)
    ensures var entered := Entered(persons, camera, f, |f.persons|);
            && PersonsIn(entered, camera) == Sighted(PersonsIn(persons, camera), f, |f.persons|)
            && forall c :: c != camera ==> PersonsIn(entered, c) == PersonsIn(persons, c)
  {
    EnteredHere(persons, camera, f, |f.persons|);
    forall c | c != camera
      ensures PersonsIn(Entered(persons, camera, f, |f.persons|), c) == PersonsIn(persons, c)
    {
      EnteredElsewhere(persons, camera, f, |f.persons|, c);
    }
  }

  lemma NextCamera(t: Tracker, e: Event)
    requires e.Seen?
    ensures Next(t, e).settings == t.settings && Next(t, e).nextId == Answer(t, e).nextId
    ensures CameraOf(Next(t, e), e.camera) == Answer(t, e).camera
    ensures forall c :: c != e.camera ==> CameraOf(Next(t, e), c) == CameraOf(t, c)
  {
  }

  /** Some of the first n records. */
  ghost predicate KeptFrom(kept: seq<ItemRecord>, records: seq<ItemRecord>, n: nat)
    requires n <= |records|
  {
    && Distinct(kept)
    && (forall r :: r in kept ==> r in records)
    && (forall j :: n <= j < |records| ==> records[j] !in kept)
  }

  lemma OneMoreKept(kept: seq<ItemRecord>, records: seq<ItemRecord>, n: nat)
    requires n < |records| && Distinct(records) && KeptFrom(kept, records, n)
    ensures KeptFrom(kept, records, n + 1) && KeptFrom(kept + [records[n]], records, n + 1)
  {
  }

  class ConcealmentTracker {
    var settings: Settings
    var items: map<string, seq<ItemRecord>>
    var persons: map<(string, int), real>
    var lastFired: map<string, real>
    var nextId: int

    constructor (settings: Settings)
      ensures Valid() && Shows(Fresh(settings))
    {
      this.settings := settings;
      items, persons, lastFired, nextId := map[], map[], map[], 1;
    }

    // ---------- what the object stands for ----------

    function RecordsOf(camera: string): seq<ItemRecord>
      reads this`items
    {
      if camera in items then items[camera] else []
    }

    ghost function Records(camera: string): set<ItemRecord>
      reads this`items
    {
      set r | r in RecordsOf(camera)
    }

    ghost predicate Valid()
      reads this`items
    {
      && (forall c :: c in items ==> Distinct(items[c]))
      && (forall c, r :: c in items && r in items[c] ==> r.camera == c)
    }

    ghost function PersonsOf(camera: string): map<int, real>
      reads this`persons
    {
      PersonsIn(persons, camera)
    }

    ghost function LastFired(camera: string): Option<real>
      reads this`lastFired
    {
      if camera in lastFired then Some(lastFired[camera]) else None
    }

    ghost function View(camera: string): Camera
      reads this`items, this`persons, this`lastFired, Records(camera)
    {
      Camera(ItemsOf(camera), PersonsOf(camera), LastFired(camera))
    }

    ghost function AllRecords(): set<ItemRecord>
      reads this
    {
      set c, r | c in items && r in items[c] :: r
    }

    ghost predicate ShowsCamera(t: Tracker, c: string)
      reads this`items, this`persons, this`lastFired, Records(c)
    {
      View(c) == CameraOf(t, c)
    }

    /** The object is in the state that a run has reached. */
    ghost predicate Shows(t: Tracker)
      reads this, AllRecords()
    {
      && settings == t.settings && nextId == t.nextId
      && forall c :: assert forall r :: r in Records(c) ==> r in AllRecords(); ShowsCamera(t, c)
    }

    lemma CamerasShareNoRecord(camera: string, c: string)
      requires Valid() && c != camera
      ensures Records(c) !! Records(camera)
    {
      forall r | r in Records(c)
        ensures r !in Records(camera)
      {
        assert r.camera == c;
      }
    }

    ghost function ItemsOf(camera: string): seq<Item>
      reads this`items, Records(camera)
    {
      Views(RecordsOf(camera))
    }

    /** Records that are not touched look the same. */
    twostate lemma ItemsStay(new c: string, touched: set<ItemRecord>)
      requires old(Records(c)) !! touched && RecordsOf(c) == old(RecordsOf(c))
      requires forall r :: r in old(Records(c)) && r !in touched ==> unchanged(r)
      ensures ItemsOf(c) == old(ItemsOf(c))
    {
      var records := RecordsOf(c);
      forall i | 0 <= i < |records|
        ensures records[i].View() == old(records[i].View())
      {
        assert records[i] in old(Records(c));
      }
    }

    // ---------- holding ----------

    method ClosestWrist(box: Box, people: seq<Person>) returns (closest: Option<Hold>)
      ensures closest == Concealment.ClosestWrist(settings, people, |people|, box)
    {
      closest := None;
      for n := 0 to |people|
        invariant closest == Concealment.ClosestWrist(settings, people, n, box)
      {
        var p := people[n];
        if !HasTorso(settings, p.keypoints) {
          continue;
        }
        var reference := ReferenceLength(settings, p.keypoints);
        ghost var before := closest;
        for side := 0 to 2
          invariant side == 0 ==> closest == before
          invariant side == 1 ==> closest == TryWrist(settings, p, LEFT_WRIST, box, before)
          invariant side == 2 ==>
                      closest == TryWrist(settings, p, RIGHT_WRIST, box, TryWrist(settings, p, LEFT_WRIST, box, before))
        {
          var wrist := if side == 0 then LEFT_WRIST else RIGHT_WRIST;
          var point := p.keypoints[wrist];
          if point.confidence < settings.keypointConfidence {
            continue;
          }
          var distance := EdgeDistance(settings, point.x, point.y, box) / reference;
          if distance > settings.grabRatio {
            continue;
          }
          if closest == None || distance < closest.value.distance {
            closest := Some(Hold(distance, p.track, wrist, point.x, point.y));
          }
        }
      }
    }

    method UpdateHold(item: ItemRecord, f: Frame, bodies: map<int, Box>)
      requires bodies == Bodies(f.persons, |f.persons|)
      modifies item
      ensures item.Sight() == Concealment.UpdateHold(settings, old(item.Sight()), f)
      ensures item.fired == old(item.fired)
    {
      var x, y := CentreX(item.box), CentreY(item.box);
      var moved := settings.hypot(x - item.restX, y - item.restY) / item.restHeight;
      var closest := ClosestWrist(item.box, f.persons);
      if closest.Some? {
        item.held := true;
        item.hold := closest.value;
        return;
      }
      var onHolder := item.hold.track in bodies && Contains(x, y, bodies[item.hold.track]);
      item.held := item.held && moved >= settings.moveRatio && onHolder;
    }

    // ---------- matching ----------

    method Match(free: seq<ItemRecord>, d: Detection, bodies: map<int, Box>,
                 ghost records: seq<ItemRecord>, ghost places: seq<nat>)
      returns (best: ItemRecord?)
      requires Places(places, records) && free == At(records, places)
      ensures match BestMatch(settings, Views(records), places, |places|, d, bodies)
              case None => best == null
              case Some(i) => i in places && best == records[i]
    {
      best := null;
      var bestDistance := 0.0;
      for n := 0 to |free|
        invariant match BestMatch(settings, Views(records), places, n, d, bodies)
                  case None => best == null
                  case Some(i) => && i in places && best == records[i]
                                  && bestDistance == Distance(settings, d.box, records[i].box)
      {
        var item := free[n];
        if item.class_ != d.class_ {
          continue;
        }
        var distance := Distance(settings, d.box, item.box);
        var near := Near(settings, d.box, item.box);
        var onHolder := item.held && OnHolder(bodies, item.hold.track, d.box);
        if (near || onHolder) && (best == null || distance < bestDistance) {
          best, bestDistance := item, distance;
        }
      }
    }

    method Remove(free: seq<ItemRecord>, item: ItemRecord, ghost records: seq<ItemRecord>, ghost places: seq<nat>,
                  ghost i: nat)
      returns (rest: seq<ItemRecord>)
      requires Distinct(records) && Places(places, records) && free == At(records, places)
      requires i in places && i < |records| && item == records[i]
      ensures Places(Without(places, i), records) && rest == At(records, Without(places, i))
    {
      ghost var at :| 0 <= at < |places| && places[at] == i;
      var k := 0;
      while free[k] != item
        invariant 0 <= k <= at && forall j :: 0 <= j < k ==> places[j] != i
        decreases |free| - k
      {
        k := k + 1;
      }
      rest := free[..k] + free[k + 1..];
      WithoutFirst(places, i, k);
    }

    /** The item shows up in this frame. */
    method Refresh(item: ItemRecord, d: Detection, f: Frame, bodies: map<int, Box>)
      requires bodies == Bodies(f.persons, |f.persons|)
      modifies item
      ensures item.View() == Item(item.id, SeenAgain(settings, old(item.Sight()), d, f), false)
    {
      item.box, item.seenAt, item.seenFrame, item.fired := d.box, f.at, f.index, false;
      UpdateHold(item, f, bodies);
    }

    twostate lemma NoneChanged(records: seq<ItemRecord>)
      requires forall r :: r in records ==> unchanged(r)
      ensures Views(records) == old(Views(records))
    {
      forall j | 0 <= j < |records|
        ensures records[j].View() == old(records[j].View())
      {
        assert records[j] in records;
      }
    }

    twostate lemma OneChanged(records: seq<ItemRecord>, new i: nat)
      requires i < |records| && Distinct(records)
      requires forall r :: r in records && r != records[i] ==> unchanged(r)
      ensures Views(records) == old(Views(records))[i := records[i].View()]
    {
      forall j | 0 <= j < |records| && j != i
        ensures records[j].View() == old(records[j].View())
      {
        assert records[j] in records && records[j] != records[i];
      }
    }

    method Add(camera: string, d: Detection, f: Frame) returns (item: ItemRecord)
      requires Valid() && camera in items
      modifies this`items, this`nextId
      ensures Valid() && fresh(item)
      ensures items == old(items)[camera := old(items[camera]) + [item]] && nextId == old(nextId) + 1
      ensures item.View() == Item(old(nextId), NewSight(d, f), false)
      ensures ItemsOf(camera) == old(ItemsOf(camera)) + [item.View()]
    {
      item := new ItemRecord(nextId, d, f, camera);
      nextId := nextId + 1;
      OneMoreView(items[camera], item);
      items := items[camera := items[camera] + [item]];
    }

    /** The record a detection goes to, an old one that is free no more or a new one. */
    method FindOrAdd(camera: string, free: seq<ItemRecord>, d: Detection, f: Frame, bodies: map<int, Box>,
                     ghost m: Matching)
      returns (item: ItemRecord, stillFree: seq<ItemRecord>, ghost i: nat)
      requires Valid() && camera in items && bodies == Bodies(f.persons, |f.persons|)
      requires m.items == ItemsOf(camera) && m.nextId == nextId && InRange(m) && free == At(items[camera], m.free)
      modifies this`items, this`nextId
      ensures Valid() && camera in items && forall c :: c != camera ==> RecordsOf(c) == old(RecordsOf(c))
      ensures fresh(Records(camera) - old(Records(camera)))
      ensures i < |items[camera]| && item == items[camera][i]
      ensures var m' := Concealment.TakeIn(settings, m, d, f);
              && m'.items == ItemsOf(camera)[i := Item(item.id, SeenAgain(settings, item.Sight(), d, f), false)]
              && nextId == m'.nextId && stillFree == At(items[camera], m'.free) && m'.ids == m.ids + [item.id]
    {
      var best := Match(free, d, bodies, items[camera], m.free);
      if best == null {
        i := |items[camera]|;
        item := Add(camera, d, f);
        stillFree := free;
      } else {
        i := BestMatch(settings, m.items, m.free, |m.free|, d, bodies).value;
        item := best;
        stillFree := Remove(free, item, items[camera], m.free, i);
      }
    }

    /** The first n detections of the frame have been taken in; `free` are the records still free. */
    ghost predicate TookIn(camera: string, before: seq<Item>, firstId: int, f: Frame, n: nat,
                           free: seq<ItemRecord>, ids: seq<int>)
      requires n <= |f.objects|
      reads this, Records(camera)
    {
      var m := Concealment.TakeInAll(settings, before, firstId, f, n);
      && camera in items && ItemsOf(camera) == m.items && nextId == m.nextId && ids == m.ids
      && free == At(items[camera], m.free)
    }

    /** One round of the loop over the detections. */
    method TakeIn(camera: string, free: seq<ItemRecord>, f: Frame, n: nat, bodies: map<int, Box>, ids: seq<int>,
                  ghost before: seq<Item>, ghost firstId: int)
      returns (stillFree: seq<ItemRecord>, moreIds: seq<int>)
      requires Valid() && bodies == Bodies(f.persons, |f.persons|)
      requires n < |f.objects| && TookIn(camera, before, firstId, f, n, free, ids)
      modifies this`items, this`nextId, Records(camera)
      ensures Valid() && camera in items && forall c :: c != camera ==> RecordsOf(c) == old(RecordsOf(c))
      ensures fresh(Records(camera) - old(Records(camera)))
      ensures TookIn(camera, before, firstId, f, n + 1, stillFree, moreIds)
    {
      var item;
      ghost var i;
      ghost var m := Concealment.TakeInAll(settings, before, firstId, f, n);
      item, stillFree, i := FindOrAdd(camera, free, f.objects[n], f, bodies, m);
      ghost var records := items[camera];
      label found:
      Refresh(item, f.objects[n], f, bodies);
      OneChanged@found(records, i);
      moreIds := ids + [item.id];
    }

    // ---------- verdicts ----------

    method HandOnSpot(item: ItemRecord, people: seq<Person>) returns (on: bool)
      ensures on == Concealment.HandOnSpot(settings, item.Sight(), people)
    {
      for n := 0 to |people|
        invariant Find(people, item.hold.track) == Find(people[n..], item.hold.track)
      {
        var p := people[n];
        if p.track != item.hold.track {
          continue;
        }
        if !HasTorso(settings, p.keypoints) {
          return true;
        }
        var reference := ReferenceLength(settings, p.keypoints);
        var visible := false;
        for side := 0 to 2
          invariant visible <==> || (side > 0 && WristSeen(settings, p, LEFT_WRIST))
                                 || (side > 1 && WristSeen(settings, p, RIGHT_WRIST))
          invariant side > 0 ==> !WristOnSpot(settings, p, LEFT_WRIST, item.box)
          invariant side > 1 ==> !WristOnSpot(settings, p, RIGHT_WRIST, item.box)
        {
          var wrist := if side == 0 then LEFT_WRIST else RIGHT_WRIST;
          var point := p.keypoints[wrist];
          if point.confidence < settings.keypointConfidence {
            continue;
          }
          visible := true;
          if EdgeDistance(settings, point.x, point.y, item.box) / reference <= settings.grabRatio {
            return true;
          }
        }
        return !visible;
      }
      return true;
    }

    method Ready(camera: string, item: ItemRecord, f: Frame) returns (ready: bool)
      ensures ready == Concealment.Ready(settings, item.View(), f, PersonsOf(camera))
    {
      if item.fired || !item.held {
        return false;
      }
      if f.at - item.seenAt < settings.missingSeconds {
        return false;
      }
      if StillVisible(settings, item.Sight(), f.objects) {
        return false;
      }
      var onSpot := HandOnSpot(item, f.persons);
      if onSpot {
        return false;
      }
      var key := (camera, item.hold.track);
      return key in persons && f.at - persons[key] <= settings.missingSeconds;
    }

    /** One round of the loop over the items. */
    method Consider(camera: string, item: ItemRecord, f: Frame, kept: seq<ItemRecord>, muted: bool)
      returns (kept': seq<ItemRecord>, verdict: Option<Verdict>)
      modifies item`fired, this`lastFired
      ensures var before := old(item.View());
              var fires := !Expired(settings, before, f) && Concealment.Ready(settings, before, f, PersonsOf(camera));
              && kept' == (if Expired(settings, before, f) then kept else kept + [item])
              && item.View() == (if fires then before.(fired := true) else before)
              && verdict == (if fires && !muted then Some(VerdictOn(before, f)) else None)
      ensures lastFired == if verdict == None then old(lastFired) else old(lastFired)[camera := f.at]
    {
      kept', verdict := kept, None;
      if f.at - item.seenAt > settings.expirySeconds {
        return;
      }
      kept' := kept + [item];
      var ready := Ready(camera, item, f);
      if !ready {
        return;
      }
      item.fired := true;
      if muted {
        return;
      }
      lastFired := lastFired[camera := f.at];
      verdict := Some(VerdictOn(item.View(), f));
    }

    /** The loop over the items: which records are kept, and which verdict is given. */
    method Sweep(camera: string, f: Frame, records: seq<ItemRecord>)
      returns (kept: seq<ItemRecord>, verdicts: seq<Verdict>)
      requires Distinct(records)
      modifies this`lastFired, records
      ensures KeptFrom(kept, records, |records|)
      ensures lastFired == if verdicts == [] then old(lastFired) else old(lastFired)[camera := f.at]
      ensures SweepItems(settings, old(Views(records)), |records|, f, PersonsOf(camera),
                         Muted(settings, old(LastFired(camera)), f.at)) == Concealment.Sweep(Views(kept), verdicts)
    {
      kept, verdicts := [], [];
      var muted := camera in lastFired && f.at - lastFired[camera] < settings.expirySeconds;
      ghost var mutedBefore := muted;
      ghost var before := Views(records);
      for n := 0 to |records|
        invariant forall j :: n <= j < |records| ==> records[j].View() == before[j]
        invariant KeptFrom(kept, records, n)
        invariant SweepItems(settings, before, n, f, PersonsOf(camera), mutedBefore)
               == Concealment.Sweep(Views(kept), verdicts)
        invariant muted == (mutedBefore || verdicts != [])
        invariant lastFired == if verdicts == [] then old(lastFired) else old(lastFired)[camera := f.at]
      {
        ghost var keptBefore := kept;
        label considering:
        var verdict;
        kept, verdict := Consider(camera, records[n], f, kept, muted);
        NoneChanged@considering(keptBefore);
        OneMoreView(keptBefore, records[n]);
        OneMoreKept(keptBefore, records, n);
        if verdict.Some? {
          muted := true;
          verdicts := verdicts + [verdict.value];
        }
      }
    }

    /** Drops the camera's persons that have not been seen for long. */
    method Forget(camera: string, at: real)
      modifies this`persons
      ensures forall c :: c != camera ==> PersonsOf(c) == old(PersonsOf(c))
      ensures PersonsOf(camera) == Unstale(settings, old(PersonsOf(camera)), at)
    {
      persons := map key | key in persons && !(key.0 == camera && at - persons[key] > settings.expirySeconds)
        :: persons[key];
    }

    method Collect(camera: string, f: Frame) returns (verdicts: seq<Verdict>)
      requires Valid() && camera in items
      modifies this`items, this`lastFired, this`persons, Records(camera)
      ensures Valid()
      ensures forall c :: c != camera ==> ItemsOf(c) == old(ItemsOf(c))
      ensures forall c :: c != camera ==> PersonsOf(c) == old(PersonsOf(c)) && LastFired(c) == old(LastFired(c))
      ensures var w := SweepItems(settings, old(ItemsOf(camera)), |old(ItemsOf(camera))|, f, old(PersonsOf(camera)),
                                  Muted(settings, old(LastFired(camera)), f.at));
              && ItemsOf(camera) == w.kept && verdicts == w.verdicts
              && PersonsOf(camera) == Unstale(settings, old(PersonsOf(camera)), f.at)
              && LastFired(camera) == if w.verdicts == [] then old(LastFired(camera)) else Some(f.at)
    {
      forall c | c != camera
        ensures Records(c) !! Records(camera)
      {
        CamerasShareNoRecord(camera, c);
      }
      var kept;
      kept, verdicts := Sweep(camera, f, items[camera]);
      items := items[camera := kept];
      Forget(camera, f.at);
      forall c | c != camera
        ensures ItemsOf(c) == old(ItemsOf(c))
      {
        ItemsStay(c, old(Records(camera)));
      }
    }

    // ---------- one frame ----------

    /** The camera's list, made on first use. */
    method SetDefault(camera: string)
      requires Valid()
      modifies this`items
      ensures Valid() && camera in items
      ensures forall c :: RecordsOf(c) == old(RecordsOf(c)) && ItemsOf(c) == old(ItemsOf(c))
    {
      if camera !in items {
        items := items[camera := []];
      }
    }

    method SeePersons(camera: string, f: Frame) returns (bodies: map<int, Box>)
      modifies this`persons
      ensures bodies == Bodies(f.persons, |f.persons|)
      ensures persons == Entered(old(persons), camera, f, |f.persons|)
    {
      bodies := map[];
      for n := 0 to |f.persons|
        invariant bodies == Bodies(f.persons, n) && persons == Entered(old(persons), camera, f, n)
      {
        persons := persons[(camera, f.persons[n].track) := f.at];
        bodies := bodies[f.persons[n].track := f.persons[n].box];
      }
    }

    /** The loop over the detections. */
    method TakeInAll(camera: string, f: Frame, bodies: map<int, Box>) returns (ids: seq<int>)
      requires Valid() && camera in items && bodies == Bodies(f.persons, |f.persons|)
      modifies this`items, this`nextId, Records(camera)
      ensures Valid() && camera in items && forall c :: c != camera ==> RecordsOf(c) == old(RecordsOf(c))
      ensures fresh(Records(camera) - old(Records(camera)))
      ensures var m := Concealment.TakeInAll(settings, old(ItemsOf(camera)), old(nextId), f, |f.objects|);
              ItemsOf(camera) == m.items && nextId == m.nextId && ids == m.ids
    {
      var free := items[camera];
      ids := [];
      ghost var before, firstId := ItemsOf(camera), nextId;
      for n := 0 to |f.objects|
        invariant Valid() && camera in items && forall c :: c != camera ==> RecordsOf(c) == old(RecordsOf(c))
        invariant fresh(Records(camera) - old(Records(camera)))
        invariant TookIn(camera, before, firstId, f, n, free, ids)
      {
        free, ids := TakeIn(camera, free, f, n, bodies, ids, before, firstId);
      }
    }

    method EnterObjects(camera: string, f: Frame, bodies: map<int, Box>) returns (ids: seq<int>)
      requires Valid() && bodies == Bodies(f.persons, |f.persons|)
      modifies this`items, this`nextId, Records(camera)
      ensures Valid() && camera in items && fresh(Records(camera) - old(Records(camera)))
      ensures forall c :: c != camera ==> ItemsOf(c) == old(ItemsOf(c))
      ensures var m := Concealment.TakeInAll(settings, old(ItemsOf(camera)), old(nextId), f, |f.objects|);
              ItemsOf(camera) == m.items && nextId == m.nextId && ids == m.ids
    {
      forall c | c != camera
        ensures Records(c) !! Records(camera)
      {
        CamerasShareNoRecord(camera, c);
      }
      SetDefault(camera);
      ids := TakeInAll(camera, f, bodies);
      forall c | c != camera
        ensures ItemsOf(c) == old(ItemsOf(c))
      {
        ItemsStay(c, old(Records(camera)));
      }
    }

    twostate lemma SameView(c: string)
      requires ItemsOf(c) == old(ItemsOf(c)) && PersonsOf(c) == old(PersonsOf(c)) && LastFired(c) == old(LastFired(c))
      ensures View(c) == old(View(c))
    {
    }

    /** Persons and detections are entered. */
    method Enter(camera: string, f: Frame) returns (ids: seq<int>)
      requires Valid()
      modifies this`items, this`persons, this`nextId, Records(camera)
      ensures Valid() && camera in items && fresh(Records(camera) - old(Records(camera)))
      ensures forall c :: c != camera ==> ItemsOf(c) == old(ItemsOf(c))
      ensures persons == Entered(old(persons), camera, f, |f.persons|)
      ensures var m := Concealment.TakeInAll(settings, old(ItemsOf(camera)), old(nextId), f, |f.objects|);
              ItemsOf(camera) == m.items && nextId == m.nextId && ids == m.ids
    {
      var bodies := SeePersons(camera, f);
      ids := EnterObjects(camera, f, bodies);
    }

    method Observe(camera: string, f: Frame) returns (ids: seq<int>, verdicts: seq<Verdict>)
      requires Valid()
      modifies this`items, this`persons, this`lastFired, this`nextId, Records(camera)
      ensures Valid()
      ensures Outcome(View(camera), nextId, ids, verdicts)
           == Concealment.Observe(settings, old(View(camera)), old(nextId), f)
      ensures forall c :: c != camera ==> View(c) == old(View(c))
    {
      ids := Enter(camera, f);
      EnteredByCamera(old(persons), camera, f);
      verdicts := Collect(camera, f);
      forall c | c != camera
        ensures View(c) == old(View(c))
      {
        SameView(c);
      }
    }

    method Retune(grabRatio: real, missingSeconds: real, keypointConfidence: real, expirySeconds: real)
      modifies this`settings
      ensures settings == Retuned(old(settings),
                                  Event.Retune(grabRatio, missingSeconds, keypointConfidence, expirySeconds))
      ensures settings.grabRatio == grabRatio && settings.missingSeconds == missingSeconds
      ensures settings.keypointConfidence == keypointConfidence && settings.expirySeconds == expirySeconds
      ensures settings.moveRatio == old(settings.moveRatio) && settings.hypot == old(settings.hypot)
    {
      settings := settings.(grabRatio := grabRatio, missingSeconds := missingSeconds,
                            keypointConfidence := keypointConfidence, expirySeconds := expirySeconds);
    }

    // ---------- whole runs ----------

    twostate lemma StillShown(t: Tracker, new t': Tracker, new c: string)
      requires old(ShowsCamera(t, c)) && View(c) == old(View(c)) && CameraOf(t', c) == CameraOf(t, c)
      ensures ShowsCamera(t', c)
    {
    }

    /** One step of a run; as a new tracker shows the start of every run, what holds of the runs holds of the object. */
    method Handle(e: Event, ghost t: Tracker) returns (ids: seq<int>, verdicts: seq<Verdict>)
      requires Valid() && Shows(t)
      modifies this, AllRecords()
      ensures Valid() && Shows(Next(t, e))
      ensures e.Seen? ==> ids == Answer(t, e).ids && verdicts == Answer(t, e).verdicts
    {
      ids, verdicts := [], [];
      match e
      case Seen(camera, f) =>
        assert ShowsCamera(t, camera);
        ids, verdicts := Observe(camera, f);
        NextCamera(t, e);
        forall c
          ensures ShowsCamera(Next(t, e), c)
        {
          if c != camera {
            StillShown(t, Next(t, e), c);
          }
        }
      case Retune(grabRatio, missingSeconds, keypointConfidence, expirySeconds) =>
        Retune(grabRatio, missingSeconds, keypointConfidence, expirySeconds);
        forall c
          ensures ShowsCamera(Next(t, e), c)
        {
          StillShown(t, Next(t, e), c);
        }
    }
  }
}
