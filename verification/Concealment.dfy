/**
 One frame of the concealment tracker (services/ai/app/concealment.py): what it does to the items,
 persons and mute of one camera.  Coordinates and times are reals; `hypot` is left open, so
 everything holds for any distance the runtime computes.
 */
module Concealment {
  import opened Options

  const LEFT_SHOULDER := 5
  const RIGHT_SHOULDER := 6
  const LEFT_WRIST := 9
  const RIGHT_WRIST := 10
  const LEFT_HIP := 11
  const RIGHT_HIP := 12
  const MATCH_HEIGHTS := 1.5

  datatype Box = Box(x1: real, y1: real, x2: real, y2: real)

  datatype Keypoint = Keypoint(x: real, y: real, confidence: real)

  datatype Person = Person(track: int, keypoints: seq<Keypoint>, box: Box)

  datatype Detection = Detection(class_: string, box: Box)

  datatype Frame = Frame(index: int, at: real, persons: seq<Person>, objects: seq<Detection>)

  datatype Settings = Settings(
    hypot: (real, real) -> real,
    grabRatio: real,
    moveRatio: real,
    missingSeconds: real,
    keypointConfidence: real,
    expirySeconds: real)

  /** A length used as a divisor; every one in the source is at least one pixel. */
  type Length = x: real | x >= 1.0 witness 1.0

  datatype Hold = Hold(distance: real, track: int, wrist: int, wristX: real, wristY: real)

  /** What an item was last seen doing. */
  datatype Sight = Sight(class_: string, box: Box, restX: real, restY: real, restHeight: Length,
                         seenAt: real, seenFrame: int, held: bool, hold: Hold)

  datatype Item = Item(id: int, sight: Sight, fired: bool)

  datatype Verdict = Verdict(objectId: int, objectClass: string, lastSeenBox: Box, lastSeenFrame: int,
                             missingFrames: int, hold: Hold)

  datatype Camera = Camera(items: seq<Item>, persons: map<int, real>, lastFired: Option<real>)

  // ---------- geometry ----------

  function Max(x: real, y: real): real {
    if x < y then y else x
  }

  function CentreX(b: Box): real {
    (b.x1 + b.x2) / 2.0
  }

  function CentreY(b: Box): real {
    (b.y1 + b.y2) / 2.0
  }

  function Height(b: Box): Length {
    Max(b.y2 - b.y1, 1.0)
  }

  function EdgeDistance(s: Settings, x: real, y: real, b: Box): real {
    s.hypot(Max(Max(b.x1 - x, 0.0), x - b.x2), Max(Max(b.y1 - y, 0.0), y - b.y2))
  }

  predicate Contains(x: real, y: real, b: Box) {
    b.x1 <= x <= b.x2 && b.y1 <= y <= b.y2
  }

  function Distance(s: Settings, b: Box, other: Box): real {
    s.hypot(CentreX(b) - CentreX(other), CentreY(b) - CentreY(other))
  }

  predicate Near(s: Settings, b: Box, other: Box) {
    Distance(s, b, other) <= MATCH_HEIGHTS * Max(Height(b), Height(other))
  }

  predicate HasTorso(s: Settings, k: seq<Keypoint>) {
    && |k| > RIGHT_HIP
    && k[LEFT_SHOULDER].confidence >= s.keypointConfidence && k[RIGHT_SHOULDER].confidence >= s.keypointConfidence
    && k[LEFT_HIP].confidence >= s.keypointConfidence && k[RIGHT_HIP].confidence >= s.keypointConfidence
  }

  function ReferenceLength(s: Settings, k: seq<Keypoint>): Length
    requires |k| > RIGHT_HIP
  {
    var shoulderX := (k[LEFT_SHOULDER].x + k[RIGHT_SHOULDER].x) / 2.0;
    var shoulderY := (k[LEFT_SHOULDER].y + k[RIGHT_SHOULDER].y) / 2.0;
    var hipX := (k[LEFT_HIP].x + k[RIGHT_HIP].x) / 2.0;
    var hipY := (k[LEFT_HIP].y + k[RIGHT_HIP].y) / 2.0;
    Max(s.hypot(shoulderX - hipX, shoulderY - hipY), 1.0)
  }

  // ---------- what the geometry means ----------

  function Abs(x: real): real {
    if x < 0.0 then -x else x
  }

  /** The edge distance is that to the nearest point of the box. */
  lemma EdgeDistanceIsToNearestPoint(s: Settings, x: real, y: real, b: Box) returns (px: real, py: real)
    requires b.x1 <= b.x2 && b.y1 <= b.y2
    ensures b.x1 <= px <= b.x2 && b.y1 <= py <= b.y2
    ensures EdgeDistance(s, x, y, b) == s.hypot(Abs(x - px), Abs(y - py))
    ensures forall qx, qy :: Contains(qx, qy, b) ==> Abs(x - px) <= Abs(x - qx) && Abs(y - py) <= Abs(y - qy)
    ensures Contains(px, py, b)
  {
    px := if x < b.x1 then b.x1 else if x > b.x2 then b.x2 else x;
    py := if y < b.y1 then b.y1 else if y > b.y2 then b.y2 else y;
  }

  /** Boxes are near when their centres are within one and a half heights of either, or within a pixel and a half. */
  lemma NearIff(s: Settings, b: Box, other: Box)
    ensures var distance := s.hypot((b.x1 + b.x2 - other.x1 - other.x2) / 2.0,
                                    (b.y1 + b.y2 - other.y1 - other.y2) / 2.0);
            Near(s, b, other) <==>
              distance <= 1.5 * (b.y2 - b.y1) || distance <= 1.5 * (other.y2 - other.y1) || distance <= 1.5
  {
    assert CentreX(b) - CentreX(other) == (b.x1 + b.x2 - other.x1 - other.x2) / 2.0;
    assert CentreY(b) - CentreY(other) == (b.y1 + b.y2 - other.y1 - other.y2) / 2.0;
  }

  function SwapSides(k: seq<Keypoint>): seq<Keypoint>
    requires |k| > RIGHT_HIP
  {
    k[LEFT_SHOULDER := k[RIGHT_SHOULDER]][RIGHT_SHOULDER := k[LEFT_SHOULDER]]
     [LEFT_HIP := k[RIGHT_HIP]][RIGHT_HIP := k[LEFT_HIP]]
  }

  /** A torso is both shoulders and both hips; its length runs between their middles, so sides do not matter. */
  lemma TorsoIffAllFourAreSeen(s: Settings, k: seq<Keypoint>)
    ensures HasTorso(s, k) <==> |k| >= 13 && forall i :: i in {5, 6, 11, 12} ==> k[i].confidence >= s.keypointConfidence
    ensures HasTorso(s, k) ==>
              && HasTorso(s, SwapSides(k)) && ReferenceLength(s, SwapSides(k)) == ReferenceLength(s, k)
              && ReferenceLength(s, k) >= s.hypot((k[5].x + k[6].x - k[11].x - k[12].x) / 2.0,
                                                  (k[5].y + k[6].y - k[11].y - k[12].y) / 2.0)
  {
    if HasTorso(s, k) {
      assert (k[5].x + k[6].x) / 2.0 - (k[11].x + k[12].x) / 2.0 == (k[5].x + k[6].x - k[11].x - k[12].x) / 2.0;
      assert (k[5].y + k[6].y) / 2.0 - (k[11].y + k[12].y) / 2.0 == (k[5].y + k[6].y - k[11].y - k[12].y) / 2.0;
    }
  }

  // ---------- holding ----------

  predicate WristSeen(s: Settings, p: Person, wrist: int)
    requires HasTorso(s, p.keypoints) && wrist in {LEFT_WRIST, RIGHT_WRIST}
  {
    p.keypoints[wrist].confidence >= s.keypointConfidence
  }

  function Reach(s: Settings, p: Person, wrist: int, b: Box): real
    requires HasTorso(s, p.keypoints) && wrist in {LEFT_WRIST, RIGHT_WRIST}
  {
    EdgeDistance(s, p.keypoints[wrist].x, p.keypoints[wrist].y, b) / ReferenceLength(s, p.keypoints)
  }

  function TryWrist(s: Settings, p: Person, wrist: int, b: Box, closest: Option<Hold>): Option<Hold>
    requires HasTorso(s, p.keypoints) && wrist in {LEFT_WRIST, RIGHT_WRIST}
  {
    var distance := Reach(s, p, wrist, b);
    if !WristSeen(s, p, wrist) || distance > s.grabRatio then closest
    else if closest == None || distance < closest.value.distance then
      Some(Hold(distance, p.track, wrist, p.keypoints[wrist].x, p.keypoints[wrist].y))
    else closest
  }

  /** The closest grabbing wrist among the first n persons, the first one found among equals. */
  function ClosestWrist(s: Settings, persons: seq<Person>, n: nat, b: Box): Option<Hold>
    requires n <= |persons|
  {
    if n == 0 then None
    else
      var closest := ClosestWrist(s, persons, n - 1, b);
      var p := persons[n - 1];
      if !HasTorso(s, p.keypoints) then closest
      else TryWrist(s, p, RIGHT_WRIST, b, TryWrist(s, p, LEFT_WRIST, b, closest))
  }

  /** The dictionary from track to box; a later person of the same track wins. */
  function Bodies(persons: seq<Person>, n: nat): map<int, Box>
    requires n <= |persons|
  {
    if n == 0 then map[] else Bodies(persons, n - 1)[persons[n - 1].track := persons[n - 1].box]
  }

  predicate OnHolder(bodies: map<int, Box>, track: int, b: Box) {
    track in bodies && Contains(CentreX(b), CentreY(b), bodies[track])
  }

  function Moved(s: Settings, g: Sight): real {
    s.hypot(CentreX(g.box) - g.restX, CentreY(g.box) - g.restY) / g.restHeight
  }

  function UpdateHold(s: Settings, g: Sight, f: Frame): Sight {
    var closest := ClosestWrist(s, f.persons, |f.persons|, g.box);
    if closest.Some? then g.(held := true, hold := closest.value)
    else
      g.(held := g.held && Moved(s, g) >= s.moveRatio && OnHolder(Bodies(f.persons, |f.persons|), g.hold.track, g.box))
  }

  // ---------- matching ----------

  predicate Matches(s: Settings, item: Item, d: Detection, bodies: map<int, Box>) {
    && item.sight.class_ == d.class_
    && (Near(s, d.box, item.sight.box) || (item.sight.held && OnHolder(bodies, item.sight.hold.track, d.box)))
  }

  /** The nearest match among the first n free items, the first one found among equals. */
  function BestMatch(s: Settings, items: seq<Item>, free: seq<nat>, n: nat, d: Detection,
                     bodies: map<int, Box>)
    : (best: Option<nat>)
    requires n <= |free| && forall k :: 0 <= k < |free| ==> free[k] < |items|
    ensures best.Some? ==> best.value < |items|
  {
    if n == 0 then None
    else
      var best := BestMatch(s, items, free, n - 1, d, bodies);
      var i := free[n - 1];
      if Matches(s, items[i], d, bodies)
         && (best == None
             || Distance(s, d.box, items[i].sight.box) < Distance(s, d.box, items[best.value].sight.box)) then Some(i)
      else best
  }

  function Without(free: seq<nat>, i: nat): seq<nat> {
    if free == [] then [] else if free[0] == i then free[1..] else [free[0]] + Without(free[1..], i)
  }

  /** The loop over the detections: items so far, old items not yet matched, the id counter and the ids answered. */
  datatype Matching = Matching(items: seq<Item>, free: seq<nat>, nextId: int, ids: seq<int>)

  predicate InRange(m: Matching) {
    forall k :: 0 <= k < |m.free| ==> m.free[k] < |m.items|
  }

  function NoHold(): Hold {
    Hold(0.0, 0, -1, 0.0, 0.0)
  }

  function NewSight(d: Detection, f: Frame): Sight {
    Sight(d.class_, d.box, CentreX(d.box), CentreY(d.box), Height(d.box), f.at, f.index, false, NoHold())
  }

  function SeenAgain(s: Settings, g: Sight, d: Detection, f: Frame): Sight {
    UpdateHold(s, g.(box := d.box, seenAt := f.at, seenFrame := f.index), f)
  }

  lemma {:induction false} WithoutStaysIn(free: seq<nat>, i: nat)
    ensures forall j :: j in Without(free, i) ==> j in free
    ensures |Without(free, i)| <= |free|
  {
    if free != [] {
      WithoutStaysIn(free[1..], i);
    }
  }

  function TakeIn(s: Settings, m: Matching, d: Detection, f: Frame): (m': Matching)
    requires InRange(m)
    ensures InRange(m') && |m.items| <= |m'.items| && |m'.ids| == |m.ids| + 1
  {
    match BestMatch(s, m.items, m.free, |m.free|, d, Bodies(f.persons, |f.persons|))
    case None =>
      Matching(m.items + [Item(m.nextId, SeenAgain(s, NewSight(d, f), d, f), false)], m.free, m.nextId + 1,
               m.ids + [m.nextId])
    case Some(i) =>
      WithoutStaysIn(m.free, i);
      assert forall k :: 0 <= k < |Without(m.free, i)| ==> Without(m.free, i)[k] in m.free;
      var item := m.items[i];
      Matching(m.items[i := Item(item.id, SeenAgain(s, item.sight, d, f), false)], Without(m.free, i), m.nextId,
               m.ids + [item.id])
  }

  function TakeInAll(s: Settings, items: seq<Item>, nextId: int, f: Frame, n: nat): (m: Matching)
    requires n <= |f.objects|
    ensures InRange(m) && |items| <= |m.items| && |m.ids| == n
  {
    if n == 0 then Matching(items, seq(|items|, i => i), nextId, [])
    else TakeIn(s, TakeInAll(s, items, nextId, f, n - 1), f.objects[n - 1], f)
  }

  // ---------- verdicts ----------

  predicate StillVisible(s: Settings, g: Sight, objects: seq<Detection>) {
    exists k :: 0 <= k < |objects| && objects[k].class_ == g.class_ && Near(s, objects[k].box, g.box)
  }

  /** The first person of a track. */
  function Find(persons: seq<Person>, track: int): (found: Option<Person>)
    ensures found.Some? ==> found.value in persons && found.value.track == track
  {
    if persons == [] then None
    else if persons[0].track == track then Some(persons[0])
    else Find(persons[1..], track)
  }

  predicate WristOnSpot(s: Settings, p: Person, wrist: int, b: Box)
    requires HasTorso(s, p.keypoints) && wrist in {LEFT_WRIST, RIGHT_WRIST}
  {
    WristSeen(s, p, wrist) && Reach(s, p, wrist, b) <= s.grabRatio
  }

  predicate HandOnSpot(s: Settings, g: Sight, persons: seq<Person>) {
    var p := Find(persons, g.hold.track);
    if p == None || !HasTorso(s, p.value.keypoints) then true
    else
      || WristOnSpot(s, p.value, LEFT_WRIST, g.box)
      || WristOnSpot(s, p.value, RIGHT_WRIST, g.box)
      || (!WristSeen(s, p.value, LEFT_WRIST) && !WristSeen(s, p.value, RIGHT_WRIST))
  }

  predicate HolderPresent(s: Settings, g: Sight, at: real, persons: map<int, real>) {
    g.hold.track in persons && at - persons[g.hold.track] <= s.missingSeconds
  }

  predicate Concealed(s: Settings, item: Item, f: Frame) {
    && !item.fired && item.sight.held
    && !(f.at - item.sight.seenAt < s.missingSeconds)
    && !StillVisible(s, item.sight, f.objects)
    && !HandOnSpot(s, item.sight, f.persons)
  }

  predicate Ready(s: Settings, item: Item, f: Frame, persons: map<int, real>) {
    Concealed(s, item, f) && HolderPresent(s, item.sight, f.at, persons)
  }

  function VerdictOn(item: Item, f: Frame): Verdict {
    Verdict(item.id, item.sight.class_, item.sight.box, item.sight.seenFrame, f.index - item.sight.seenFrame,
            item.sight.hold)
  }

  predicate Expired(s: Settings, item: Item, f: Frame) {
    f.at - item.sight.seenAt > s.expirySeconds
  }

  predicate Muted(s: Settings, lastFired: Option<real>, at: real) {
    lastFired.Some? && at - lastFired.value < s.expirySeconds
  }

  datatype Sweep = Sweep(kept: seq<Item>, verdicts: seq<Verdict>)

  /** The loop over the items; a verdict mutes the rest of the frame. */
  function SweepItems(s: Settings, items: seq<Item>, n: nat, f: Frame, persons: map<int, real>, muted: bool): Sweep
    requires n <= |items|
  {
    if n == 0 then Sweep([], [])
    else
      var w := SweepItems(s, items, n - 1, f, persons, muted);
      var item := items[n - 1];
      if Expired(s, item, f) then w
      else if !Ready(s, item, f, persons) then Sweep(w.kept + [item], w.verdicts)
      else if muted || w.verdicts != [] then Sweep(w.kept + [item.(fired := true)], w.verdicts)
      else Sweep(w.kept + [item.(fired := true)], [VerdictOn(item, f)])
  }

  // ---------- one frame ----------

  function Sighted(persons: map<int, real>, f: Frame, n: nat): map<int, real>
    requires n <= |f.persons|
  {
    if n == 0 then persons else Sighted(persons, f, n - 1)[f.persons[n - 1].track := f.at]
  }

  function Unstale(s: Settings, persons: map<int, real>, at: real): map<int, real> {
    map track | track in persons && !(at - persons[track] > s.expirySeconds) :: persons[track]
  }

  datatype Outcome = Outcome(camera: Camera, nextId: int, ids: seq<int>, verdicts: seq<Verdict>)

  function Observe(s: Settings, c: Camera, nextId: int, f: Frame): Outcome {
    var m := TakeInAll(s, c.items, nextId, f, |f.objects|);
    var persons := Sighted(c.persons, f, |f.persons|);
    var w := SweepItems(s, m.items, |m.items|, f, persons, Muted(s, c.lastFired, f.at));
    Outcome(Camera(w.kept, Unstale(s, persons, f.at), if w.verdicts == [] then c.lastFired else Some(f.at)),
            m.nextId, m.ids, w.verdicts)
  }

  /** The items after the detections were taken in and before any is dropped. */
  function AfterMatching(s: Settings, c: Camera, nextId: int, f: Frame): seq<Item> {
    TakeInAll(s, c.items, nextId, f, |f.objects|).items
  }

  // ---------- which wrist and which item are chosen ----------

  /** A person's wrist that grabs the box. */
  predicate Grabs(s: Settings, p: Person, wrist: int, b: Box) {
    HasTorso(s, p.keypoints) && wrist in {LEFT_WRIST, RIGHT_WRIST} && WristOnSpot(s, p, wrist, b)
  }

  /** The hold names that wrist; no grabbing wrist of the first n persons is closer, and no earlier one as close. */
  ghost predicate HoldBy(s: Settings, persons: seq<Person>, n: nat, b: Box, h: Hold, k: nat)
    requires n <= |persons|
  {
    && k < n && Grabs(s, persons[k], h.wrist, b)
    && h == Hold(Reach(s, persons[k], h.wrist, b), persons[k].track, h.wrist,
                 persons[k].keypoints[h.wrist].x, persons[k].keypoints[h.wrist].y)
    && forall j, wrist :: 0 <= j < n && Grabs(s, persons[j], wrist, b) ==>
         && h.distance <= Reach(s, persons[j], wrist, b)
         && (j < k || (j == k && wrist < h.wrist) ==> h.distance < Reach(s, persons[j], wrist, b))
  }

  /** A hold is found exactly when some visible wrist grabs the box, and it is a closest one. */
  ghost predicate ClosestFound(s: Settings, persons: seq<Person>, n: nat, b: Box, closest: Option<Hold>)
    requires n <= |persons|
  {
    && (closest.Some? <==> exists k, wrist :: 0 <= k < n && Grabs(s, persons[k], wrist, b))
    && (closest.Some? ==> exists k :: HoldBy(s, persons, n, b, closest.value, k))
  }

  lemma {:induction false} ClosestWristIsClosest(s: Settings, persons: seq<Person>, n: nat, b: Box)
    requires n <= |persons|
    ensures ClosestFound(s, persons, n, b, ClosestWrist(s, persons, n, b))
  {
    if n > 0 {
      ClosestWristIsClosest(s, persons, n - 1, b);
      var before, closest := ClosestWrist(s, persons, n - 1, b), ClosestWrist(s, persons, n, b);
      if closest == before {
        if closest.Some? {
          var k :| HoldBy(s, persons, n - 1, b, closest.value, k);
          StillClosest(s, persons, n, b, before, k);
        }
      } else {
        NowClosest(s, persons, n, b, before);
      }
    }
  }

  lemma StillClosest(s: Settings, persons: seq<Person>, n: nat, b: Box, before: Option<Hold>, k: nat)
    requires 0 < n <= |persons| && before == ClosestWrist(s, persons, n - 1, b) == ClosestWrist(s, persons, n, b)
    requires before.Some? && HoldBy(s, persons, n - 1, b, before.value, k)
    ensures HoldBy(s, persons, n, b, before.value, k)
  {
    var p := persons[n - 1];
    assert forall wrist :: Grabs(s, p, wrist, b) ==> before.value.distance <= Reach(s, p, wrist, b);
  }

  lemma NowClosest(s: Settings, persons: seq<Person>, n: nat, b: Box, before: Option<Hold>)
    requires 0 < n <= |persons| && before == ClosestWrist(s, persons, n - 1, b) != ClosestWrist(s, persons, n, b)
    requires ClosestFound(s, persons, n - 1, b, before)
    ensures ClosestWrist(s, persons, n, b).Some?
    ensures HoldBy(s, persons, n, b, ClosestWrist(s, persons, n, b).value, n - 1)
  {
    var p, h := persons[n - 1], ClosestWrist(s, persons, n, b).value;
    assert Grabs(s, p, h.wrist, b) && (before.Some? ==> h.distance < before.value.distance);
    assert forall wrist :: Grabs(s, p, wrist, b) ==> h.distance <= Reach(s, p, wrist, b);
  }

  /** No match among the first n free items, or the nearest one and of equally near ones the first. */
  lemma {:induction false} BestMatchIsNearest(s: Settings, items: seq<Item>, free: seq<nat>, n: nat, d: Detection,
                                              bodies: map<int, Box>)
    requires n <= |free| && forall k :: 0 <= k < |free| ==> free[k] < |items|
    ensures match BestMatch(s, items, free, n, d, bodies)
            case None => forall j :: 0 <= j < n ==> !Matches(s, items[free[j]], d, bodies)
            case Some(i) => exists k :: 0 <= k < n && free[k] == i && Nearest(s, items, free, n, d, bodies, k)
  {
    if n > 0 {
      BestMatchIsNearest(s, items, free, n - 1, d, bodies);
      var before := BestMatch(s, items, free, n - 1, d, bodies);
      var item := items[free[n - 1]];
      if Matches(s, item, d, bodies)
         && (before == None || Distance(s, d.box, item.sight.box) < Distance(s, d.box, items[before.value].sight.box)) {
        assert Nearest(s, items, free, n, d, bodies, n - 1);
      } else if before.Some? {
        var k :| 0 <= k < n - 1 && free[k] == before.value && Nearest(s, items, free, n - 1, d, bodies, k);
        StillNearest(s, items, free, n, d, bodies, k);
      }
    }
  }

  lemma StillNearest(s: Settings, items: seq<Item>, free: seq<nat>, n: nat, d: Detection, bodies: map<int, Box>, k: nat)
    requires k < n - 1 < |free| && forall j :: 0 <= j < |free| ==> free[j] < |items|
    requires Nearest(s, items, free, n - 1, d, bodies, k)
    requires Matches(s, items[free[n - 1]], d, bodies) ==>
               Distance(s, d.box, items[free[k]].sight.box) <= Distance(s, d.box, items[free[n - 1]].sight.box)
    ensures Nearest(s, items, free, n, d, bodies, k)
  {
  }

  ghost predicate Nearest(s: Settings, items: seq<Item>, free: seq<nat>, n: nat, d: Detection, bodies: map<int, Box>,
                          k: nat)
    requires k < n <= |free| && forall j :: 0 <= j < |free| ==> free[j] < |items|
  {
    && Matches(s, items[free[k]], d, bodies)
    && (forall j :: 0 <= j < n && Matches(s, items[free[j]], d, bodies) ==>
                      Distance(s, d.box, items[free[k]].sight.box) <= Distance(s, d.box, items[free[j]].sight.box))
    && (forall j :: 0 <= j < k && Matches(s, items[free[j]], d, bodies) ==>
                      Distance(s, d.box, items[free[k]].sight.box) < Distance(s, d.box, items[free[j]].sight.box))
  }

  // ---------- what a verdict rests on ----------

  lemma {:induction false} SightedNow(persons: map<int, real>, f: Frame, n: nat, k: nat)
    requires k < n <= |f.persons|
    ensures f.persons[k].track in Sighted(persons, f, n) && Sighted(persons, f, n)[f.persons[k].track] == f.at
  {
    if k < n - 1 {
      SightedNow(persons, f, n - 1, k);
    }
  }

  /** Once the other checks pass, the check on the holder's presence passes too, unless the missing time is negative. */
  lemma HolderCheckIsRedundant(s: Settings, item: Item, f: Frame, persons: map<int, real>)
    requires Concealed(s, item, f)
    ensures HolderPresent(s, item.sight, f.at, Sighted(persons, f, |f.persons|)) <==> s.missingSeconds >= 0.0
  {
    var p := Find(f.persons, item.sight.hold.track);
    var k :| 0 <= k < |f.persons| && f.persons[k] == p.value;
    SightedNow(persons, f, |f.persons|, k);
  }

  ghost predicate FirstOf(persons: seq<Person>, track: int, k: nat) {
    k < |persons| && persons[k].track == track && forall j :: 0 <= j < k ==> persons[j].track != track
  }

  lemma {:induction false} FindIsFirst(persons: seq<Person>, track: int)
    ensures Find(persons, track).Some? <==> exists k: nat :: FirstOf(persons, track, k)
    ensures forall k: nat :: FirstOf(persons, track, k) ==> Find(persons, track) == Some(persons[k])
  {
    if persons != [] {
      var rest := persons[1..];
      FindIsFirst(rest, track);
      if persons[0].track == track {
        assert FirstOf(persons, track, 0);
      } else {
        forall k: nat | FirstOf(persons, track, k)
          ensures FirstOf(rest, track, k - 1) && persons[k] == rest[k - 1]
        {
        }
        if k: nat :| FirstOf(rest, track, k) {
          assert forall j :: 0 < j < k + 1 ==> persons[j] == rest[j - 1];
          assert FirstOf(persons, track, k + 1);
        }
      }
    }
  }

  /**
   Person k, the first of the holder's track in this frame, shows torso and a wrist, and every wrist to be seen is
   out of reach of the spot.
   */
  ghost predicate HandsElsewhere(s: Settings, g: Sight, f: Frame, k: nat) {
    && FirstOf(f.persons, g.hold.track, k)
    && var p := f.persons[k];
       && HasTorso(s, p.keypoints)
       && (WristSeen(s, p, LEFT_WRIST) || WristSeen(s, p, RIGHT_WRIST))
       && (WristSeen(s, p, LEFT_WRIST) ==> Reach(s, p, LEFT_WRIST, g.box) > s.grabRatio)
       && (WristSeen(s, p, RIGHT_WRIST) ==> Reach(s, p, RIGHT_WRIST, g.box) > s.grabRatio)
  }

  /** Everything a verdict claims of its item. */
  ghost predicate Justified(s: Settings, item: Item, f: Frame) {
    && item.sight.held && !item.fired
    && f.at - item.sight.seenAt >= s.missingSeconds
    && f.at - item.sight.seenAt <= s.expirySeconds
    && (forall k :: 0 <= k < |f.objects| && f.objects[k].class_ == item.sight.class_
                    ==> !Near(s, f.objects[k].box, item.sight.box))
    && exists k: nat :: HandsElsewhere(s, item.sight, f, k)
  }

  lemma FiresIffJustified(s: Settings, item: Item, f: Frame, before: map<int, real>)
    ensures Ready(s, item, f, Sighted(before, f, |f.persons|)) && !Expired(s, item, f)
            <==> Justified(s, item, f) && s.missingSeconds >= 0.0
  {
    FindIsFirst(f.persons, item.sight.hold.track);
    if Concealed(s, item, f) {
      HolderCheckIsRedundant(s, item, f, before);
      var k: nat :| FirstOf(f.persons, item.sight.hold.track, k);
      assert !Expired(s, item, f) ==> HandsElsewhere(s, item.sight, f, k);
    }
  }

  /** The item kept from place i; a justified one is kept as fired. */
  ghost predicate KeptAs(s: Settings, before: Item, f: Frame, after: Item) {
    && after.id == before.id && after.sight == before.sight
    && (after.fired <==> before.fired || (Justified(s, before, f) && s.missingSeconds >= 0.0))
  }

  ghost predicate FirstJustified(s: Settings, items: seq<Item>, f: Frame, n: nat, i: nat)
    requires n <= |items|
  {
    i < n && Justified(s, items[i], f) && forall j :: 0 <= j < i ==> !Justified(s, items[j], f)
  }

  /** Kept, in order, are just the items seen no longer ago than the expiry; justified ones as fired, muted or not. */
  ghost predicate KeptRight(s: Settings, items: seq<Item>, n: nat, f: Frame, kept: seq<Item>, from: seq<nat>)
    requires n <= |items|
  {
    && |from| == |kept|
    && (forall j, k :: 0 <= j < k < |from| ==> from[j] < from[k])
    && (forall i :: 0 <= i < n ==> (i in from <==> f.at - items[i].sight.seenAt <= s.expirySeconds))
    && (forall k :: 0 <= k < |from| ==> from[k] < n && KeptAs(s, items[from[k]], f, kept[k]))
  }

  lemma {:induction false} SweepKeepsUnexpired(s: Settings, items: seq<Item>, n: nat, f: Frame,
                                               before: map<int, real>, muted: bool)
    returns (from: seq<nat>)
    requires n <= |items|
    ensures KeptRight(s, items, n, f, SweepItems(s, items, n, f, Sighted(before, f, |f.persons|), muted).kept, from)
  {
    from := [];
    if n > 0 {
      from := SweepKeepsUnexpired(s, items, n - 1, f, before, muted);
      FiresIffJustified(s, items[n - 1], f, before);
      if !Expired(s, items[n - 1], f) {
        from := from + [n - 1];
      }
    }
  }

  lemma FrameKeepsUnexpired(s: Settings, c: Camera, nextId: int, f: Frame) returns (from: seq<nat>)
    ensures var items := AfterMatching(s, c, nextId, f);
            KeptRight(s, items, |items|, f, Observe(s, c, nextId, f).camera.items, from)
  {
    var items := AfterMatching(s, c, nextId, f);
    from := SweepKeepsUnexpired(s, items, |items|, f, c.persons, Muted(s, c.lastFired, f.at));
  }

  lemma {:induction false} SightedIsLatest(persons: map<int, real>, f: Frame, n: nat, track: int)
    requires n <= |f.persons|
    ensures var seen := exists k :: 0 <= k < n && f.persons[k].track == track;
            && (track in Sighted(persons, f, n) <==> seen || track in persons)
            && (track in Sighted(persons, f, n) ==>
                  Sighted(persons, f, n)[track] == if seen then f.at else persons[track])
  {
    if n > 0 {
      SightedIsLatest(persons, f, n - 1, track);
    }
  }

  /** After a frame a camera remembers when it last saw each person, unless that is longer ago than the expiry. */
  lemma FrameKeepsRecentPersons(s: Settings, c: Camera, nextId: int, f: Frame, track: int)
    ensures var seen := exists k :: 0 <= k < |f.persons| && f.persons[k].track == track;
            var after := Observe(s, c, nextId, f).camera.persons;
            && (track in after <==>
                  if seen then s.expirySeconds >= 0.0
                  else track in c.persons && f.at - c.persons[track] <= s.expirySeconds)
            && (track in after ==> after[track] == if seen then f.at else c.persons[track])
  {
    SightedIsLatest(c.persons, f, |f.persons|, track);
  }

  /** The first justified item gets the verdict, unless muted. */
  lemma {:induction false} SweepGivesFirstVerdict(s: Settings, items: seq<Item>, n: nat, f: Frame,
                                                  before: map<int, real>, muted: bool)
    requires n <= |items|
    ensures var verdicts := SweepItems(s, items, n, f, Sighted(before, f, |f.persons|), muted).verdicts;
            && (verdicts == [] <==>
                  muted || s.missingSeconds < 0.0 || forall i :: 0 <= i < n ==> !Justified(s, items[i], f))
            && (verdicts != [] ==>
                  exists i: nat :: FirstJustified(s, items, f, n, i) && verdicts == [VerdictOn(items[i], f)])
  {
    if n > 0 {
      var rest := n - 1;
      var persons := Sighted(before, f, |f.persons|);
      SweepGivesFirstVerdict(s, items, rest, f, before, muted);
      FiresIffJustified(s, items[rest], f, before);
      var w := SweepItems(s, items, rest, f, persons, muted);
      if w.verdicts != [] {
        var i: nat :| FirstJustified(s, items, f, rest, i) && w.verdicts == [VerdictOn(items[i], f)];
        assert FirstJustified(s, items, f, n, i);
      } else if !muted && Justified(s, items[rest], f) && s.missingSeconds >= 0.0 {
        assert FirstJustified(s, items, f, n, rest);
      }
    }
  }

  /**
   A verdict is about the first justified item, and comes exactly when there is one, the last verdict on the camera
   is at least the expiry ago, and the missing time is not negative.
   */
  lemma VerdictsAreJustified(s: Settings, c: Camera, nextId: int, f: Frame)
    ensures var verdicts, items := Observe(s, c, nextId, f).verdicts, AfterMatching(s, c, nextId, f);
            && (verdicts != [] ==>
                  exists i: nat :: FirstJustified(s, items, f, |items|, i) && verdicts == [VerdictOn(items[i], f)])
            && (verdicts != [] <==>
                  && s.missingSeconds >= 0.0
                  && (c.lastFired.Some? ==> f.at - c.lastFired.value >= s.expirySeconds)
                  && exists i :: 0 <= i < |items| && Justified(s, items[i], f))
  {
    var items := AfterMatching(s, c, nextId, f);
    SweepGivesFirstVerdict(s, items, |items|, f, c.persons, Muted(s, c.lastFired, f.at));
  }

  /** Both lookups of the person behind a verdict succeed, by search and by dictionary. */
  lemma VerdictPersonIsInFrame(s: Settings, c: Camera, nextId: int, f: Frame)
    requires Observe(s, c, nextId, f).verdicts != []
    ensures var track := Observe(s, c, nextId, f).verdicts[0].hold.track;
            Find(f.persons, track).Some? && track in Bodies(f.persons, |f.persons|)
  {
    VerdictsAreJustified(s, c, nextId, f);
    var items := AfterMatching(s, c, nextId, f);
    var i: nat :| FirstJustified(s, items, f, |items|, i)
                  && Observe(s, c, nextId, f).verdicts == [VerdictOn(items[i], f)];
    var k: nat :| HandsElsewhere(s, items[i].sight, f, k);
    FindFinds(f.persons, k);
    BodiesHas(f.persons, |f.persons|, k);
  }

  lemma {:induction false} FindFinds(persons: seq<Person>, k: nat)
    requires k < |persons|
    ensures Find(persons, persons[k].track).Some?
  {
    if k > 0 {
      FindFinds(persons[1..], k - 1);
    }
  }

  lemma {:induction false} BodiesHas(persons: seq<Person>, n: nat, k: nat)
    requires k < n <= |persons|
    ensures persons[k].track in Bodies(persons, n)
  {
    if k < n - 1 {
      BodiesHas(persons, n - 1, k);
    }
  }
}
