/**
 What the concealment tracker decides, said without its own functions: which item a detection goes to, when an
 item is held and by whom, and how both add up over a whole run (services/ai/app/concealment.py).
 */
module ConcealmentHolds {
  import opened Options
  import opened Concealment
  import opened ConcealmentRuns

  /** One sighting of an item: the detection, its frame, and the settings then. */
  datatype Glimpse = Glimpse(s: Settings, f: Frame, d: Detection)

  /** Some visible wrist of the frame is within reach of the detection. */
  ghost predicate Grabbed(g: Glimpse) {
    exists k, wrist :: 0 <= k < |g.f.persons| && Grabs(g.s, g.f.persons[k], wrist, g.d.box)
  }

  /** The hold names a closest such wrist. */
  ghost predicate TakenBy(g: Glimpse, h: Hold) {
    exists k :: HoldBy(g.s, g.f.persons, |g.f.persons|, g.d.box, h, k)
  }

  ghost predicate LastOf(persons: seq<Person>, n: nat, track: int, k: nat)
    requires n <= |persons|
  {
    k < n && persons[k].track == track && forall j :: k < j < n ==> persons[j].track != track
  }

  /** The centre of the box lies on the last person of that track. */
  ghost predicate OnPerson(persons: seq<Person>, track: int, b: Box) {
    exists k: nat :: LastOf(persons, |persons|, track, k) && Contains(CentreX(b), CentreY(b), persons[k].box)
  }

  /** The detection is at least the move ratio, in heights, away from where the item rested, and on its holder. */
  ghost predicate Carried(restX: real, restY: real, restHeight: Length, g: Glimpse, track: int) {
    && g.s.hypot(CentreX(g.d.box) - restX, CentreY(g.d.box) - restY) / restHeight >= g.s.moveRatio
    && OnPerson(g.f.persons, track, g.d.box)
  }

  lemma {:induction false} BodiesAreLast(persons: seq<Person>, n: nat, track: int)
    requires n <= |persons|
    ensures track in Bodies(persons, n) <==> exists k: nat :: LastOf(persons, n, track, k)
    ensures forall k: nat :: LastOf(persons, n, track, k) ==> Bodies(persons, n)[track] == persons[k].box
  {
    if n > 0 {
      BodiesAreLast(persons, n - 1, track);
      if persons[n - 1].track == track {
        assert LastOf(persons, n, track, n - 1);
      } else {
        if k: nat :| LastOf(persons, n, track, k) {
          assert LastOf(persons, n - 1, track, k);
        }
        var rest := n - 1;
        if k: nat :| LastOf(persons, rest, track, k) {
          assert LastOf(persons, n, track, k);
        }
      }
    }
  }

  lemma OnHolderIsOnPerson(persons: seq<Person>, track: int, b: Box)
    ensures OnHolder(Bodies(persons, |persons|), track, b) <==> OnPerson(persons, track, b)
  {
    BodiesAreLast(persons, |persons|, track);
  }

  // ---------- one sighting ----------

  /**
   What a sighting makes of an item: grabbed, it is held by a closest wrist; else it stays held only while it is
   carried, and its hold stays as it was.  A new item rests where it is.
   */
  ghost predicate Follows(before: Option<Sight>, after: Sight, g: Glimpse) {
    && after.class_ == g.d.class_ && after.box == g.d.box && after.seenAt == g.f.at && after.seenFrame == g.f.index
    && (match before
        case Some(b) => after.restX == b.restX && after.restY == b.restY && after.restHeight == b.restHeight
        case None =>
          && after.restX == CentreX(g.d.box) && after.restY == CentreY(g.d.box)
          && after.restHeight == Height(g.d.box))
    && (Grabbed(g) ==> after.held && TakenBy(g, after.hold))
    && (!Grabbed(g) ==>
          && (before.Some? ==> after.hold == before.value.hold)
          && (after.held <==> before.Some? && before.value.held
                              && Carried(after.restX, after.restY, after.restHeight, g, after.hold.track)))
  }

  lemma SeenAgainFollows(s: Settings, sight: Sight, d: Detection, f: Frame)
    requires sight.class_ == d.class_
    ensures Follows(Some(sight), SeenAgain(s, sight, d, f), Glimpse(s, f, d))
  {
    ClosestWristIsClosest(s, f.persons, |f.persons|, d.box);
    OnHolderIsOnPerson(f.persons, sight.hold.track, d.box);
  }

  lemma SeenFirstFollows(s: Settings, d: Detection, f: Frame)
    ensures Follows(None, SeenAgain(s, NewSight(d, f), d, f), Glimpse(s, f, d))
  {
    ClosestWristIsClosest(s, f.persons, |f.persons|, d.box);
  }

  // ---------- one frame ----------

  /** The item in place j went to one of the first k detections. */
  ghost predicate Given(at: seq<nat>, k: nat, j: nat)
    requires k <= |at|
  {
    exists i :: 0 <= i < k && at[i] == j
  }

  /** Item j can take detection k: not given to an earlier detection, of its class, and near or on its holder. */
  ghost predicate Candidate(s: Settings, items: seq<Item>, f: Frame, at: seq<nat>, k: nat, j: nat)
    requires k < |f.objects| && k <= |at|
  {
    && j < |items| && !Given(at, k, j)
    && items[j].sight.class_ == f.objects[k].class_
    && (Near(s, f.objects[k].box, items[j].sight.box)
        || (items[j].sight.held && OnPerson(f.persons, items[j].sight.hold.track, f.objects[k].box)))
  }

  function Gap(s: Settings, items: seq<Item>, f: Frame, k: nat, j: nat): real
    requires k < |f.objects| && j < |items|
  {
    var b, other := f.objects[k].box, items[j].sight.box;
    s.hypot(CentreX(b) - CentreX(other), CentreY(b) - CentreY(other))
  }

  /** Place x is that of the nearest candidate, the first among equals, and that of a new item if there is none. */
  ghost predicate GreedyPlace(s: Settings, items: seq<Item>, f: Frame, at: seq<nat>, k: nat, x: nat)
    requires k < |f.objects| && k <= |at|
  {
    && (x < |items| ==>
          && Candidate(s, items, f, at, k, x)
          && (forall j: nat :: Candidate(s, items, f, at, k, j) ==>
                            && Gap(s, items, f, k, x) <= Gap(s, items, f, k, j)
                            && (j < x ==> Gap(s, items, f, k, x) < Gap(s, items, f, k, j))))
    && (x >= |items| ==> forall j: nat :: !Candidate(s, items, f, at, k, j))
  }

  ghost predicate Greedy(s: Settings, items: seq<Item>, f: Frame, at: seq<nat>, k: nat)
    requires k < |f.objects| && k < |at|
  {
    GreedyPlace(s, items, f, at, k, at[k])
  }

  ghost predicate Rising(free: seq<nat>) {
    forall i, j :: 0 <= i < j < |free| ==> free[i] < free[j]
  }

  /** Detection k's item after the frame follows from what it was before. */
  ghost predicate Taken(s: Settings, items: seq<Item>, f: Frame, m: Matching, at: seq<nat>, k: nat)
    requires k < |f.objects| && k < |at|
  {
    && at[k] < |m.items|
    && Follows(if at[k] < |items| then Some(items[at[k]].sight) else None, m.items[at[k]].sight,
               Glimpse(s, f, f.objects[k]))
  }

  /** Places given so far decide; later ones do not matter. */
  lemma PlacesSoFarDecide(s: Settings, items: seq<Item>, f: Frame, at: seq<nat>, x: nat, k: nat)
    requires k < |f.objects| && k <= |at|
    ensures forall j: nat :: Candidate(s, items, f, at + [x], k, j) <==> Candidate(s, items, f, at, k, j)
  {
    forall j: nat
      ensures Given(at + [x], k, j) <==> Given(at, k, j)
    {
      if i :| 0 <= i < k && at[i] == j {
        assert (at + [x])[i] == j;
      }
    }
  }

  lemma LaterPlacesDoNotMatter(s: Settings, items: seq<Item>, f: Frame, at: seq<nat>, x: nat, k: nat, y: nat)
    requires k < |f.objects| && k <= |at| && GreedyPlace(s, items, f, at, k, y)
    ensures GreedyPlace(s, items, f, at + [x], k, y)
  {
    PlacesSoFarDecide(s, items, f, at, x, k);
  }

  lemma FreeMatchesAreCandidates(s: Settings, items: seq<Item>, nextId: int, f: Frame, m: Matching, k: nat,
                                 before: seq<nat>, j: nat)
    requires k < |f.objects| && InRange(m) && Placed(items, nextId, f, m, k, before)
    ensures Candidate(s, items, f, before, k, j)
            <==> j in m.free && Matches(s, m.items[j], f.objects[k], Bodies(f.persons, |f.persons|))
  {
    if j < |items| {
      OnHolderIsOnPerson(f.persons, items[j].sight.hold.track, f.objects[k].box);
      assert j in m.free <==> j !in before;
      assert Given(before, k, j) <==> j in before;
    }
  }

  lemma ChoiceIsGreedy(s: Settings, items: seq<Item>, nextId: int, f: Frame, m: Matching, k: nat, before: seq<nat>)
    requires k < |f.objects| && InRange(m) && Placed(items, nextId, f, m, k, before) && Rising(m.free)
    ensures var best := BestMatch(s, m.items, m.free, |m.free|, f.objects[k], Bodies(f.persons, |f.persons|));
            GreedyPlace(s, items, f, before, k, if best.Some? then best.value else |m.items|)
  {
    var d := f.objects[k];
    var bodies := Bodies(f.persons, |f.persons|);
    BestMatchIsNearest(s, m.items, m.free, |m.free|, d, bodies);
    var best := BestMatch(s, m.items, m.free, |m.free|, d, bodies);
    if best.Some? {
      var l :| 0 <= l < |m.free| && m.free[l] == best.value && Nearest(s, m.items, m.free, |m.free|, d, bodies, l);
      assert m.free[l] in m.free;
      NearestIsFirst(s, items, nextId, f, m, k, before, l);
    } else {
      NoneIsFree(s, items, nextId, f, m, k, before);
    }
  }

  lemma NoneIsFree(s: Settings, items: seq<Item>, nextId: int, f: Frame, m: Matching, k: nat, before: seq<nat>)
    requires k < |f.objects| && InRange(m) && Placed(items, nextId, f, m, k, before)
    requires forall l :: 0 <= l < |m.free| ==>
               !Matches(s, m.items[m.free[l]], f.objects[k], Bodies(f.persons, |f.persons|))
    ensures GreedyPlace(s, items, f, before, k, |m.items|)
  {
    forall j: nat
      ensures !Candidate(s, items, f, before, k, j)
    {
      FreeMatchesAreCandidates(s, items, nextId, f, m, k, before, j);
      if j in m.free {
        var l :| 0 <= l < |m.free| && m.free[l] == j;
      }
    }
  }

  lemma NearestIsFirst(s: Settings, items: seq<Item>, nextId: int, f: Frame, m: Matching, k: nat, before: seq<nat>,
                       l: nat)
    requires k < |f.objects| && InRange(m) && Placed(items, nextId, f, m, k, before) && Rising(m.free)
    requires l < |m.free| && Nearest(s, m.items, m.free, |m.free|, f.objects[k], Bodies(f.persons, |f.persons|), l)
    ensures GreedyPlace(s, items, f, before, k, m.free[l])
  {
    var x := m.free[l];
    assert x in m.free;
    FreeMatchesAreCandidates(s, items, nextId, f, m, k, before, x);
    forall j: nat | Candidate(s, items, f, before, k, j)
      ensures Gap(s, items, f, k, x) <= Gap(s, items, f, k, j)
      ensures j < x ==> Gap(s, items, f, k, x) < Gap(s, items, f, k, j)
    {
      FreeMatchesAreCandidates(s, items, nextId, f, m, k, before, j);
      var i :| 0 <= i < |m.free| && m.free[i] == j;
      NearerThan(s, items, nextId, f, m, k, before, l, i);
    }
  }

  lemma NearerThan(s: Settings, items: seq<Item>, nextId: int, f: Frame, m: Matching, k: nat, before: seq<nat>,
                   l: nat, i: nat)
    requires k < |f.objects| && InRange(m) && Placed(items, nextId, f, m, k, before) && Rising(m.free)
    requires l < |m.free| && i < |m.free|
    requires Nearest(s, m.items, m.free, |m.free|, f.objects[k], Bodies(f.persons, |f.persons|), l)
    requires Matches(s, m.items[m.free[i]], f.objects[k], Bodies(f.persons, |f.persons|))
    ensures m.free[l] < |items| && m.free[i] < |items|
    ensures Gap(s, items, f, k, m.free[l]) <= Gap(s, items, f, k, m.free[i])
    ensures m.free[i] < m.free[l] ==> Gap(s, items, f, k, m.free[l]) < Gap(s, items, f, k, m.free[i])
  {
    assert m.free[l] in m.free && m.free[i] in m.free;
    assert m.free[i] < m.free[l] ==> i < l;
  }

  lemma {:induction false} WithoutRises(free: seq<nat>, i: nat)
    requires Rising(free)
    ensures Rising(Without(free, i))
  {
    if free != [] {
      var rest := free[1..];
      WithoutRises(rest, i);
      WithoutStaysIn(rest, i);
      assert forall j :: j in rest ==> free[0] < j;
      assert forall j :: 0 <= j < |Without(rest, i)| ==> Without(rest, i)[j] in rest;
    }
  }

  /** The first n detections went where `at` says, greedily, and made of each item what a sighting makes of it. */
  ghost predicate TakenRight(s: Settings, items: seq<Item>, nextId: int, f: Frame, m: Matching, n: nat, at: seq<nat>)
    requires n <= |f.objects|
  {
    && Placed(items, nextId, f, m, n, at) && Rising(m.free)
    && forall k :: 0 <= k < n ==> RightlyTaken(s, items, f, m, at, k)
  }

  ghost predicate RightlyTaken(s: Settings, items: seq<Item>, f: Frame, m: Matching, at: seq<nat>, k: nat)
    requires k < |f.objects| && k < |at|
  {
    Greedy(s, items, f, at, k) && Taken(s, items, f, m, at, k)
  }

  lemma {:induction false} DetectionsAreTaken(s: Settings, items: seq<Item>, nextId: int, f: Frame, n: nat)
    returns (at: seq<nat>)
    requires n <= |f.objects|
    ensures TakenRight(s, items, nextId, f, TakeInAll(s, items, nextId, f, n), n, at)
  {
    if n == 0 {
      at := [];
      NothingPlacedYet(s, items, nextId, f);
    } else {
      at := DetectionsAreTaken(s, items, nextId, f, n - 1);
      at := NextIsTaken(s, items, nextId, f, TakeInAll(s, items, nextId, f, n - 1), n, at);
    }
  }

  lemma NextIsTaken(s: Settings, items: seq<Item>, nextId: int, f: Frame, m: Matching, n: nat, before: seq<nat>)
    returns (at: seq<nat>)
    requires 0 < n <= |f.objects| && InRange(m) && TakenRight(s, items, nextId, f, m, n - 1, before)
    ensures TakenRight(s, items, nextId, f, TakeIn(s, m, f.objects[n - 1], f), n, at)
  {
    at := NextIsPlaced(s, items, nextId, f, m, n, before);
    LatestIsTaken(s, items, nextId, f, m, n, before);
    var x := at[n - 1];
    assert at == before + [x];
    var m' := TakeIn(s, m, f.objects[n - 1], f);
    forall k | 0 <= k < n
      ensures RightlyTaken(s, items, f, m', at, k)
    {
      EachIsTaken(s, items, nextId, f, m, n, before, x, k);
    }
  }

  lemma EachIsTaken(s: Settings, items: seq<Item>, nextId: int, f: Frame, m: Matching, n: nat, before: seq<nat>,
                    x: nat, k: nat)
    requires 0 < n <= |f.objects| && InRange(m) && TakenRight(s, items, nextId, f, m, n - 1, before) && k < n
    requires var best := BestMatch(s, m.items, m.free, |m.free|, f.objects[n - 1], Bodies(f.persons, |f.persons|));
             x == if best.Some? then best.value else |m.items|
    ensures RightlyTaken(s, items, f, TakeIn(s, m, f.objects[n - 1], f), before + [x], k)
  {
    if k < n - 1 {
      assert RightlyTaken(s, items, f, m, before, k);
      LaterPlacesDoNotMatter(s, items, f, before, x, k, before[k]);
      EarlierStaysTaken(s, items, nextId, f, m, n, before, k);
    } else {
      ChoiceIsGreedy(s, items, nextId, f, m, k, before);
      LaterPlacesDoNotMatter(s, items, f, before, x, k, x);
      LatestIsTaken(s, items, nextId, f, m, n, before);
    }
  }

  lemma LatestIsTaken(s: Settings, items: seq<Item>, nextId: int, f: Frame, m: Matching, n: nat, before: seq<nat>)
    requires 0 < n <= |f.objects| && InRange(m) && Placed(items, nextId, f, m, n - 1, before) && Rising(m.free)
    ensures var best := BestMatch(s, m.items, m.free, |m.free|, f.objects[n - 1], Bodies(f.persons, |f.persons|));
            var m' := TakeIn(s, m, f.objects[n - 1], f);
            && Rising(m'.free)
            && Taken(s, items, f, m', before + [if best.Some? then best.value else |m.items|], n - 1)
  {
    var d := f.objects[n - 1];
    var bodies := Bodies(f.persons, |f.persons|);
    var best := BestMatch(s, m.items, m.free, |m.free|, d, bodies);
    if best.Some? {
      BestMatchIsFree(s, m.items, m.free, |m.free|, d, bodies);
      WithoutRises(m.free, best.value);
      SeenAgainFollows(s, m.items[best.value].sight, d, f);
    } else {
      SeenFirstFollows(s, d, f);
    }
  }

  lemma EarlierStaysTaken(s: Settings, items: seq<Item>, nextId: int, f: Frame, m: Matching, n: nat, before: seq<nat>,
                          k: nat)
    requires 0 < n <= |f.objects| && InRange(m) && Placed(items, nextId, f, m, n - 1, before) && k < n - 1
    requires Taken(s, items, f, m, before, k)
    ensures forall x: nat :: Taken(s, items, f, TakeIn(s, m, f.objects[n - 1], f), before + [x], k)
  {
    var d := f.objects[n - 1];
    var bodies := Bodies(f.persons, |f.persons|);
    var best := BestMatch(s, m.items, m.free, |m.free|, d, bodies);
    if best.Some? {
      BestMatchIsFree(s, m.items, m.free, |m.free|, d, bodies);
    }
    assert TakeIn(s, m, d, f).items[before[k]] == m.items[before[k]];
  }

  // ---------- whole runs ----------

  function PlaceOf(ids: seq<int>, id: int): (place: Option<nat>)
    ensures place.Some? ==> place.value < |ids| && ids[place.value] == id
    ensures place.None? ==> id !in ids
  {
    if ids == [] then None
    else if ids[0] == id then Some(0)
    else
      match PlaceOf(ids[1..], id)
      case None => None
      case Some(k) => Some(k + 1)
  }

  /** All sightings answered with this id among the first n events. */
  function History(s: Settings, events: seq<Event>, id: int, n: nat): seq<Glimpse>
    requires n <= |events|
  {
    if n == 0 then []
    else Seen'(History(s, events, id, n - 1), After(s, events, n - 1), events[n - 1], id)
  }

  function Seen'(h: seq<Glimpse>, t: Tracker, e: Event, id: int): seq<Glimpse> {
    if e.Retune? then h
    else
      match PlaceOf(Answer(t, e).ids, id)
      case Some(k) => if k < |e.frame.objects| then h + [Glimpse(t.settings, e.frame, e.frame.objects[k])] else h
      case None => h
  }

  /** Sighting m was a grab, and at every later one the item was no more grabbed but carried by that track. */
  ghost predicate HeldSince(h: seq<Glimpse>, m: nat, track: int) {
    && m < |h| && Grabbed(h[m])
    && forall i :: m < i < |h| ==>
         && !Grabbed(h[i])
         && Carried(CentreX(h[0].d.box), CentreY(h[0].d.box), Height(h[0].d.box), h[i], track)
  }

  ghost predicate LastGrab(h: seq<Glimpse>, m: nat) {
    m < |h| && Grabbed(h[m]) && forall i :: m < i < |h| ==> !Grabbed(h[i])
  }

  /** An item is what its sightings make of it: its hold is that of the last grab, and it has been carried since. */
  ghost predicate Tells(h: seq<Glimpse>, g: Sight) {
    && h != []
    && (var last := h[|h| - 1];
        g.class_ == last.d.class_ && g.box == last.d.box && g.seenAt == last.f.at && g.seenFrame == last.f.index)
    && g.restX == CentreX(h[0].d.box) && g.restY == CentreY(h[0].d.box) && g.restHeight == Height(h[0].d.box)
    && (g.held <==> exists m: nat :: HeldSince(h, m, g.hold.track))
    && (forall m: nat :: LastGrab(h, m) ==> TakenBy(h[m], g.hold))
  }

  lemma FirstTells(after: Sight, g: Glimpse)
    requires Follows(None, after, g)
    ensures Tells([g], after)
  {
    if Grabbed(g) {
      assert HeldSince([g], 0, after.hold.track);
    }
  }

  lemma OneMoreTells(h: seq<Glimpse>, before: Sight, after: Sight, g: Glimpse)
    requires Tells(h, before) && Follows(Some(before), after, g)
    ensures Tells(h + [g], after)
  {
    var h' := h + [g];
    if Grabbed(g) {
      assert h'[|h|] == g;
      assert HeldSince(h', |h|, after.hold.track);
      assert forall m: nat :: LastGrab(h', m) ==> m == |h|;
    } else {
      StillHeldSince(h, g, after.hold.track);
      assert forall i :: 0 <= i < |h| ==> h'[i] == h[i];
      forall m: nat | LastGrab(h', m)
        ensures TakenBy(h'[m], after.hold)
      {
        assert LastGrab(h, m);
      }
    }
  }

  lemma StillHeldSince(h: seq<Glimpse>, g: Glimpse, track: int)
    requires h != [] && !Grabbed(g)
    ensures (exists m: nat :: HeldSince(h + [g], m, track))
            <==> (exists m: nat :: HeldSince(h, m, track))
                 && Carried(CentreX(h[0].d.box), CentreY(h[0].d.box), Height(h[0].d.box), g, track)
  {
    var h' := h + [g];
    assert h'[|h|] == g && forall i :: 0 <= i < |h| ==> h'[i] == h[i];
    if m: nat :| HeldSince(h', m, track) {
      assert HeldSince(h, m, track);
    }
    if m: nat :| HeldSince(h, m, track) {
      assert Carried(CentreX(h[0].d.box), CentreY(h[0].d.box), Height(h[0].d.box), g, track) ==>
          HeldSince(h', m, track);
    }
  }

  /** The sightings so far of every id, against the ledger of last sightings. */
  ghost predicate Chronicled(s: Settings, events: seq<Event>, n: nat, entries: map<int, Entry>)
    requires n <= |events|
  {
    forall x: int :: ToldBy(History(s, events, x, n), x, entries)
  }

  ghost predicate ToldBy(h: seq<Glimpse>, x: int, entries: map<int, Entry>) {
    if x in entries then Tells(h, entries[x].sight) else h == []
  }

  lemma AnsweredIsTold(t: Tracker, l: Ledger, e: Event, m: Matching, at: seq<nat>, k: nat, h: seq<Glimpse>)
    requires e.Seen? && k < |e.frame.objects| && 0 < t.nextId
    requires var c := CameraOf(t, e.camera);
             && TakenRight(t.settings, c.items, t.nextId, e.frame, m, |e.frame.objects|, at)
             && ItemsAgree(c.items, e.camera, l.entries)
    requires forall x :: x in l.entries ==> x < t.nextId
    requires ToldBy(h, m.ids[k], l.entries)
    ensures Tells(h + [Glimpse(t.settings, e.frame, e.frame.objects[k])], m.items[at[k]].sight)
  {
    var c := CameraOf(t, e.camera);
    var g := Glimpse(t.settings, e.frame, e.frame.objects[k]);
    assert RightlyTaken(t.settings, c.items, e.frame, m, at, k);
    if at[k] < |c.items| {
      assert Agrees(c.items[at[k]], e.camera, l.entries);
      OneMoreTells(h, c.items[at[k]].sight, m.items[at[k]].sight, g);
    } else {
      FirstTells(m.items[at[k]].sight, g);
      assert h + [g] == [g];
    }
  }

  /** A frame as matched: its items, the places of its detections, and what the ledger knew before. */
  ghost predicate Framed(t: Tracker, l: Ledger, e: Event, m: Matching, at: seq<nat>) {
    && Honest(t, l) && e.Seen?
    && var c := CameraOf(t, e.camera);
       && m == TakeInAll(t.settings, c.items, t.nextId, e.frame, |e.frame.objects|)
       && TakenRight(t.settings, c.items, t.nextId, e.frame, m, |e.frame.objects|, at)
  }

  lemma AnsweredEnters(t: Tracker, l: Ledger, e: Event, m: Matching, at: seq<nat>, k: nat)
    requires Framed(t, l, e, m, at) && k < |m.ids|
    ensures k < |at| && at[k] < |m.items|
    ensures m.ids[k] in Sighted'(t, l, e) && Sighted'(t, l, e)[m.ids[k]].sight == m.items[at[k]].sight
  {
    var c := CameraOf(t, e.camera);
    PlacedIdsAreDistinct(c.items, t.nextId, e.frame, m, at);
    SightingsEnter(l.entries, e.camera, m.items, m.ids, |m.ids|, at, m.nextId);
  }

  lemma UnansweredStays(t: Tracker, l: Ledger, e: Event, m: Matching, at: seq<nat>, x: int)
    requires Framed(t, l, e, m, at) && x !in m.ids
    ensures x in Sighted'(t, l, e) <==> x in l.entries
    ensures x in l.entries ==> Sighted'(t, l, e)[x] == l.entries[x]
  {
    var c := CameraOf(t, e.camera);
    PlacedIdsAreDistinct(c.items, t.nextId, e.frame, m, at);
    SightingsEnter(l.entries, e.camera, m.items, m.ids, |m.ids|, at, m.nextId);
    assert !Answered(m.ids, |m.ids|, x);
  }

  lemma SightingTells(t: Tracker, l: Ledger, e: Event, m: Matching, at: seq<nat>, x: int, h: seq<Glimpse>)
    requires Framed(t, l, e, m, at) && ToldBy(h, x, l.entries)
    ensures ToldBy(Seen'(h, t, e, x), x, Sighted'(t, l, e))
  {
    assert Answer(t, e).ids == m.ids;
    match PlaceOf(m.ids, x)
    case Some(k) =>
      AnsweredEnters(t, l, e, m, at, k);
      AnsweredIsTold(t, l, e, m, at, k, h);
    case None =>
      UnansweredStays(t, l, e, m, at, x);
  }

  /** One frame: what the ledger notes of its sightings is what the longer histories tell. */
  lemma SightingsTell(s: Settings, events: seq<Event>, n: nat, next: nat)
    requires n < |events| && events[n].Seen? && next == n + 1
    requires var t, l := After(s, events, n), LedgerAfter(s, events, n);
             Honest(t, l) && Chronicled(s, events, n, l.entries)
    ensures Chronicled(s, events, next, Sighted'(After(s, events, n), LedgerAfter(s, events, n), events[n]))
  {
    var t, l, e := After(s, events, n), LedgerAfter(s, events, n), events[n];
    var c := CameraOf(t, e.camera);
    var m := TakeInAll(t.settings, c.items, t.nextId, e.frame, |e.frame.objects|);
    var at := DetectionsAreTaken(t.settings, c.items, t.nextId, e.frame, |e.frame.objects|);
    forall x: int
      ensures ToldBy(History(s, events, x, next), x, Sighted'(t, l, e))
    {
      assert ToldBy(History(s, events, x, n), x, l.entries);
      SightingTells(t, l, e, m, at, x, History(s, events, x, n));
    }
  }

  lemma FiringChangesNoSighting(t: Tracker, l: Ledger, e: Event, x: int, h: seq<Glimpse>)
    requires e.Seen? && ToldBy(h, x, Sighted'(t, l, e))
    ensures ToldBy(h, x, Noted(t, l, e).entries)
  {
  }

  lemma NotedTells(s: Settings, events: seq<Event>, n: nat, next: nat)
    requires n < |events| && next == n + 1
    requires var t, l := After(s, events, n), LedgerAfter(s, events, n);
             Honest(t, l) && Chronicled(s, events, n, l.entries)
    ensures Chronicled(s, events, next, Noted(After(s, events, n), LedgerAfter(s, events, n), events[n]).entries)
  {
    var t, l, e := After(s, events, n), LedgerAfter(s, events, n), events[n];
    if e.Seen? {
      SightingsTell(s, events, n, next);
    }
    forall x: int
      ensures ToldBy(History(s, events, x, next), x, Noted(t, l, e).entries)
    {
      if e.Seen? {
        FiringChangesNoSighting(t, l, e, x, History(s, events, x, next));
      } else {
        assert ToldBy(History(s, events, x, n), x, l.entries);
      }
    }
  }

  lemma {:induction false} RunIsChronicled(s: Settings, events: seq<Event>, n: nat)
    requires n <= |events|
    ensures Chronicled(s, events, n, LedgerAfter(s, events, n).entries)
  {
    if n > 0 {
      RunIsChronicled(s, events, n - 1);
      TrackerKeepsItsWord(s, events, n - 1);
      NotedTells(s, events, n - 1, n);
    } else {
      assert LedgerAfter(s, events, 0).entries == map[];
    }
  }

  /** What a verdict at a frame says of the history of its item. */
  ghost predicate Borne(s: Settings, f: Frame, h: seq<Glimpse>, v: Verdict) {
    && h != []
    && (var last := h[|h| - 1];
        && v.objectClass == last.d.class_ && v.lastSeenBox == last.d.box
        && v.lastSeenFrame == last.f.index && v.missingFrames == f.index - last.f.index
        && s.missingSeconds <= f.at - last.f.at <= s.expirySeconds)
    && exists m: nat :: HeldSince(h, m, v.hold.track) && TakenBy(h[m], v.hold)
  }

  lemma JustifiedIsBorne(s: Settings, f: Frame, h: seq<Glimpse>, id: int, g: Sight)
    requires Tells(h, g) && Justified(s, Item(id, g, false), f)
    ensures Borne(s, f, h, VerdictOn(Item(id, g, false), f))
  {
    var m: nat :| HeldSince(h, m, g.hold.track);
    assert LastGrab(h, m);
  }

  /**
   In every run: a verdict repeats the last of its item's sightings, which is as long ago as the settings ask and no
   longer than they allow; the item was grabbed at one of them, by a closest wrist that the verdict names, and from
   then on it was carried, moved and on its holder, at every sighting.
   */
  lemma VerdictsFollowHistory(s: Settings, events: seq<Event>, n: nat, next: nat, v: Verdict)
    requires n < |events| && next == n + 1
    requires events[n].Seen? && Answer(After(s, events, n), events[n]).verdicts == [v]
    ensures Borne(After(s, events, n).settings, events[n].frame, History(s, events, v.objectId, next), v)
  {
    var t, l, e := After(s, events, n), LedgerAfter(s, events, n), events[n];
    RunIsChronicled(s, events, n);
    TrackerKeepsItsWord(s, events, n);
    SightingsTell(s, events, n, next);
    VerdictIsBorne(t, l, e, v, History(s, events, v.objectId, next));
  }

  lemma VerdictIsBorne(t: Tracker, l: Ledger, e: Event, v: Verdict, h: seq<Glimpse>)
    requires e.Seen? && Answer(t, e).verdicts == [v] && KeepsWord(t, l, e)
    requires ToldBy(h, v.objectId, Sighted'(t, l, e))
    ensures Borne(t.settings, e.frame, h, v)
  {
    JustifiedIsBorne(t.settings, e.frame, h, v.objectId, Sighted'(t, l, e)[v.objectId].sight);
  }
}
