/**
 Keyset pagination of alerts: the queries of services/api/app/repositories/alert_repository.py, and
 the cursor that services/api/app/usecases/alert_usecase.py (lines 317 to 340) takes from each page.
 */
module AlertPages {
  import opened Options

  type Id = nat  // object ids, by their order

  /** created_at is an option because old documents lack it; decided_at is null until a decision. */
  datatype Alert = Alert(severity: string, acknowledged: bool, decision: string, camera: string,
                         created: Option<int>, decided: Option<int>)

  type Collection = map<Id, Alert>

  datatype Sort = ByCreated | ByDecided

  /** The filters of a request; an empty string filters nothing, as in the source. */
  datatype Filter = Filter(severity: Option<string>, acknowledged: Option<bool>, decision: Option<string>,
                           camera: Option<string>, start: Option<int>, end: Option<int>)

  /** A sort key; a missing date sorts below every date. */
  datatype Key = Key(at: Option<int>, id: Id)

  function DateOf(a: Alert, sort: Sort): Option<int> {
    if sort.ByDecided? then a.decided else a.created
  }

  function KeyOf(coll: Collection, id: Id, sort: Sort): Key
    requires id in coll
  {
    Key(DateOf(coll[id], sort), id)
  }

  predicate Above(k: Key, l: Key) {
    if k.at.Some? && l.at.Some? then k.at.value > l.at.value || (k.at.value == l.at.value && k.id > l.id)
    else if k.at == l.at then k.id > l.id
    else k.at.Some?
  }

  // ---------- queries ----------

  datatype Field = Severity | Acknowledged | Decision | Camera | Created | Decided

  datatype Value = Text(text: string) | Flag(flag: bool) | Date(date: int) | Null

  /** Range is the clause of a date field: $type, $gte and $lte, each when present. */
  datatype Clause = Is(value: Value) | Range(dated: bool, from: Option<int>, to: Option<int>)

  /** The keyset clause is the `$or` inside `$and`. */
  datatype Query = Query(clauses: map<Field, Clause>, keyset: Option<(Field, int, Id)>)

  function Read(a: Alert, field: Field): Value {
    match field
    case Severity => Text(a.severity)
    case Acknowledged => Flag(a.acknowledged)
    case Decision => Text(a.decision)
    case Camera => Text(a.camera)
    case Created => if a.created.Some? then Date(a.created.value) else Null
    case Decided => if a.decided.Some? then Date(a.decided.value) else Null
  }

  /** A comparison with a date matches dates only. */
  predicate Meets(v: Value, c: Clause) {
    match c
    case Is(value) => v == value
    case Range(dated, from, to) =>
      && (dated ==> v.Date?)
      && (from.Some? ==> v.Date? && from.value <= v.date)
      && (to.Some? ==> v.Date? && v.date <= to.value)
  }

  predicate Matches(q: Query, a: Alert, id: Id) {
    && (forall field :: field in q.clauses ==> Meets(Read(a, field), q.clauses[field]))
    && (q.keyset.Some? ==>
          var (field, boundary, last) := q.keyset.value;
          var v := Read(a, field);
          v.Date? && (v.date < boundary || (v.date == boundary && id < last)))
  }

  function Matching(coll: Collection, q: Query): set<Id> {
    set id | id in coll && Matches(q, coll[id], id)
  }

  /** What the request asks for, said directly. */
  predicate Wanted(a: Alert, f: Filter, sort: Sort) {
    && (f.severity.Some? && f.severity.value != "" ==> a.severity == f.severity.value)
    && (f.acknowledged.Some? ==> a.acknowledged == f.acknowledged.value)
    && (f.decision.Some? && f.decision.value != "" ==> a.decision == f.decision.value)
    && (f.camera.Some? && f.camera.value != "" ==> a.camera == f.camera.value)
    && (sort.ByDecided? ==> a.decided.Some?)
    && (f.start.Some? ==> DateOf(a, sort).Some? && f.start.value <= DateOf(a, sort).value)
    && (f.end.Some? ==> DateOf(a, sort).Some? && DateOf(a, sort).value <= f.end.value)
  }

  function Equals(text: Option<string>): Option<Clause> {
    if text.Some? && text.value != "" then Some(Is(Text(text.value))) else None
  }

  function DateRange(f: Filter, sort: Sort, field: Field): Option<Clause> {
    if (field == Decided) == sort.ByDecided? && (sort.ByDecided? || f.start.Some? || f.end.Some?) then
      Some(Range(sort.ByDecided?, f.start, f.end))
    else None
  }

  /** The clause a request puts on a field. */
  function ClauseOn(f: Filter, sort: Sort, field: Field): Option<Clause> {
    match field
    case Severity => Equals(f.severity)
    case Acknowledged => if f.acknowledged.Some? then Some(Is(Flag(f.acknowledged.value))) else None
    case Decision => Equals(f.decision)
    case Camera => Equals(f.camera)
    case Created => DateRange(f, sort, Created)
    case Decided => DateRange(f, sort, Decided)
  }

  predicate Says(clauses: map<Field, Clause>, field: Field, clause: Option<Clause>) {
    if clause.Some? then field in clauses && clauses[field] == clause.value else field !in clauses
  }

  method BuildQuery(f: Filter, sort: Sort) returns (q: Query)
    ensures q.keyset == None
    ensures forall a: Alert, id :: Matches(q, a, id) <==> Wanted(a, f, sort)
  {
    var clauses: map<Field, Clause> := map[];
    if f.severity.Some? && f.severity.value != "" {
      clauses := clauses[Severity := Is(Text(f.severity.value))];
    }
    if f.acknowledged.Some? {
      clauses := clauses[Acknowledged := Is(Flag(f.acknowledged.value))];
    }
    if f.decision.Some? && f.decision.value != "" {
      clauses := clauses[Decision := Is(Text(f.decision.value))];
    }
    if f.camera.Some? && f.camera.value != "" {
      clauses := clauses[Camera := Is(Text(f.camera.value))];
    }
    var range := Range(sort.ByDecided?, f.start, f.end);
    if range.dated || range.from.Some? || range.to.Some? {
      clauses := clauses[(if sort.ByDecided? then Decided else Created) := range];
    }
    q := Query(clauses, None);
    forall field: Field
      ensures Says(q.clauses, field, ClauseOn(f, sort, field))
    {
    }
    forall a: Alert, id: Id
      ensures Matches(q, a, id) <==> Wanted(a, f, sort)
    {
      FieldByField(q, a, id);
      ClausesSayWhatIsWanted(q, f, sort, a);
    }
  }

  lemma ClausesSayWhatIsWanted(q: Query, f: Filter, sort: Sort, a: Alert)
    requires forall field :: Says(q.clauses, field, ClauseOn(f, sort, field))
    ensures MeetsEach(q, a) <==> Wanted(a, f, sort)
  {
    assert Says(q.clauses, Severity, ClauseOn(f, sort, Severity));
    assert Says(q.clauses, Acknowledged, ClauseOn(f, sort, Acknowledged));
    assert Says(q.clauses, Decision, ClauseOn(f, sort, Decision));
    assert Says(q.clauses, Camera, ClauseOn(f, sort, Camera));
    assert Says(q.clauses, Created, ClauseOn(f, sort, Created));
    assert Says(q.clauses, Decided, ClauseOn(f, sort, Decided));
  }

  predicate MeetsEach(q: Query, a: Alert) {
    && (Severity in q.clauses ==> Meets(Text(a.severity), q.clauses[Severity]))
    && (Acknowledged in q.clauses ==> Meets(Flag(a.acknowledged), q.clauses[Acknowledged]))
    && (Decision in q.clauses ==> Meets(Text(a.decision), q.clauses[Decision]))
    && (Camera in q.clauses ==> Meets(Text(a.camera), q.clauses[Camera]))
    && (Created in q.clauses ==> Meets(Read(a, Created), q.clauses[Created]))
    && (Decided in q.clauses ==> Meets(Read(a, Decided), q.clauses[Decided]))
  }

  lemma FieldByField(q: Query, a: Alert, id: Id)
    requires q.keyset == None
    ensures Matches(q, a, id) <==> MeetsEach(q, a)
  {
    if MeetsEach(q, a) {
      forall field | field in q.clauses
        ensures Meets(Read(a, field), q.clauses[field])
      {
        match field
        case Severity =>
        case Acknowledged =>
        case Decision =>
        case Camera =>
        case Created =>
        case Decided =>
      }
    }
  }

  /** The rows a page query selects from: wanted, and after a cursor dated and below it. */
  predicate Selected(coll: Collection, id: Id, f: Filter, sort: Sort, after: Option<Key>) {
    && id in coll && Wanted(coll[id], f, sort)
    && (after.Some? ==> DateOf(coll[id], sort).Some? && Above(after.value, KeyOf(coll, id, sort)))
  }

  function Selection(coll: Collection, f: Filter, sort: Sort, after: Option<Key>): set<Id> {
    set id | id in coll && Selected(coll, id, f, sort, after)
  }

  ghost predicate Descending(coll: Collection, rows: seq<Id>, sort: Sort) {
    && (forall i :: 0 <= i < |rows| ==> rows[i] in coll)
    && (forall i, j :: 0 <= i < j < |rows| ==> Above(KeyOf(coll, rows[i], sort), KeyOf(coll, rows[j], sort)))
  }

  /** The first `limit` ids of a set in descending key order. */
  ghost predicate IsTop(coll: Collection, ids: set<Id>, sort: Sort, limit: nat, rows: seq<Id>) {
    && Descending(coll, rows, sort) && |rows| <= limit
    && (forall i :: 0 <= i < |rows| ==> rows[i] in ids)
    && (forall id :: id in ids && id !in rows ==>
                       && id in coll && |rows| == limit
                       && forall i :: 0 <= i < |rows| ==> Above(KeyOf(coll, rows[i], sort), KeyOf(coll, id, sort)))
  }

  /** find, sort and limit. */
  method Find(coll: Collection, q: Query, sort: Sort, limit: nat) returns (rows: seq<Id>)
    ensures IsTop(coll, Matching(coll, q), sort, limit, rows)
  {
    var ids := Matching(coll, q);
    var rest := ids;
    rows := [];
    while |rows| < limit && rest != {}
      invariant rest <= ids && |rows| <= limit
      invariant forall id :: id in ids ==> (id in rows <==> id !in rest)
      invariant forall i :: 0 <= i < |rows| ==> rows[i] in ids
      invariant Descending(coll, rows, sort)
      invariant forall i, id :: 0 <= i < |rows| && id in rest ==>
                                Above(KeyOf(coll, rows[i], sort), KeyOf(coll, id, sort))
      decreases |rest|
    {
      var top := Greatest(coll, rest, sort);
      rows := rows + [top];
      rest := rest - {top};
    }
  }

  method Greatest(coll: Collection, ids: set<Id>, sort: Sort) returns (top: Id)
    requires ids != {} && ids <= coll.Keys
    ensures top in ids
    ensures forall id :: id in ids && id != top ==> Above(KeyOf(coll, top, sort), KeyOf(coll, id, sort))
  {
    top :| top in ids;
    var rest := ids - {top};
    while rest != {}
      invariant rest <= ids && top in ids && top !in rest
      invariant forall id :: id in ids - rest && id != top ==> Above(KeyOf(coll, top, sort), KeyOf(coll, id, sort))
    {
      var id :| id in rest;
      if Above(KeyOf(coll, id, sort), KeyOf(coll, top, sort)) {
        top := id;
      }
      rest := rest - {id};
    }
  }

  /** `after` is the key of the last document shown; cursors are only made of dated ones. */
  method ListPage(coll: Collection, f: Filter, sort: Sort, limit: nat, after: Option<Key>) returns (rows: seq<Id>)
    requires after.Some? ==> after.value.at.Some?
    ensures IsTop(coll, Selection(coll, f, sort, after), sort, limit, rows)
  {
    var q := BuildQuery(f, sort);
    ghost var plain := q;
    if after.Some? {
      q := q.(keyset := Some((if sort.ByDecided? then Decided else Created, after.value.at.value, after.value.id)));
    }
    assert forall id :: id in coll ==> (Matches(plain, coll[id], id) <==> Wanted(coll[id], f, sort));
    rows := Find(coll, q, sort, limit);
    assert Matching(coll, q) == Selection(coll, f, sort, after);
  }

  method Count(coll: Collection, f: Filter, sort: Sort) returns (n: nat)
    ensures n == |Selection(coll, f, sort, None)|
  {
    var q := BuildQuery(f, sort);
    var ids := Matching(coll, q);
    assert ids == Selection(coll, f, sort, None);
    return |ids|;
  }

  lemma AboveIsTransitive(k: Key, l: Key, m: Key)
    requires Above(k, l) && Above(l, m)
    ensures Above(k, m)
  {
  }

  // ---------- following the cursor while the collection changes ----------

  /** One request fetches limit + 1 rows and shows the first `limit`. */
  function Shown(rows: seq<Id>, limit: nat): seq<Id> {
    if |rows| <= limit then rows else rows[..limit]
  }

  /** The cursor a page hands out: none when there is no more, or when its last document is undated. */
  function NextCursor(coll: Collection, rows: seq<Id>, sort: Sort, limit: nat): Option<Key>
    requires limit > 0 && forall i :: 0 <= i < |rows| ==> rows[i] in coll
  {
    if |rows| <= limit || DateOf(coll[rows[limit - 1]], sort) == None then None
    else Some(KeyOf(coll, rows[limit - 1], sort))
  }

  /** Requests that each follow the cursor of the one before; `colls[i]` is the collection at the time of the i-th. */
  ghost predicate Follows(colls: seq<Collection>, pages: seq<seq<Id>>, f: Filter, sort: Sort, limit: nat,
                          cursors: seq<Option<Key>>)
    requires limit > 0
  {
    && |colls| == |pages| > 0 && |cursors| == |pages| + 1
    && cursors[0] == None
    && (forall i :: 0 <= i < |pages| ==>
                      && IsTop(colls[i], Selection(colls[i], f, sort, cursors[i]), sort, limit + 1, pages[i])
                      && cursors[i + 1] == NextCursor(colls[i], pages[i], sort, limit))
    && (forall i :: 0 < i < |pages| ==> cursors[i].Some?)
  }

  /** A scan that was followed to its end. */
  ghost predicate Scan(colls: seq<Collection>, pages: seq<seq<Id>>, f: Filter, sort: Sort, limit: nat,
                       cursors: seq<Option<Key>>)
    requires limit > 0
  {
    Follows(colls, pages, f, sort, limit, cursors) && cursors[|pages|] == None
  }

  /** Request i shows the document in place a. */
  ghost predicate Shows(pages: seq<seq<Id>>, limit: nat, i: nat, a: nat, id: Id) {
    i < |pages| && a < |Shown(pages[i], limit)| && pages[i][a] == id
  }

  lemma ShownIsBetweenCursors(colls: seq<Collection>, pages: seq<seq<Id>>, f: Filter, sort: Sort, limit: nat,
                              cursors: seq<Option<Key>>, i: nat, a: nat)
    requires limit > 0 && Follows(colls, pages, f, sort, limit, cursors)
    requires i < |pages| && a < |Shown(pages[i], limit)|
    ensures pages[i][a] in colls[i]
    ensures var k := KeyOf(colls[i], pages[i][a], sort);
            && (cursors[i].Some? ==> Above(cursors[i].value, k))
            && (cursors[i + 1].Some? ==> k == cursors[i + 1].value || Above(k, cursors[i + 1].value))
  {
    assert pages[i][a] in Selection(colls[i], f, sort, cursors[i]);
    assert a < limit - 1 < |pages[i]| ==>
             Above(KeyOf(colls[i], pages[i][a], sort), KeyOf(colls[i], pages[i][limit - 1], sort));
  }

  lemma {:induction false} CursorsDescend(colls: seq<Collection>, pages: seq<seq<Id>>, f: Filter, sort: Sort,
                                          limit: nat,
                                          cursors: seq<Option<Key>>, i: nat, j: nat)
    requires limit > 0 && Follows(colls, pages, f, sort, limit, cursors)
    requires 0 < i < j <= |pages| && cursors[j].Some?
    ensures Above(cursors[i].value, cursors[j].value)
  {
    assert cursors[j] == NextCursor(colls[j - 1], pages[j - 1], sort, limit) && cursors[j].Some?;
    ShownIsBetweenCursors(colls, pages, f, sort, limit, cursors, j - 1, limit - 1);
    if i < j - 1 {
      CursorsDescend(colls, pages, f, sort, limit, cursors, i, j - 1);
      AboveIsTransitive(cursors[i].value, cursors[j - 1].value, cursors[j].value);
    }
  }

  /** All that a scan shows comes in strictly descending order of the keys the documents had when read. */
  lemma ScanDescends(colls: seq<Collection>, pages: seq<seq<Id>>, f: Filter, sort: Sort, limit: nat,
                     cursors: seq<Option<Key>>, i: nat, a: nat, j: nat, b: nat)
    requires limit > 0 && Follows(colls, pages, f, sort, limit, cursors)
    requires i < |pages| && a < |Shown(pages[i], limit)| && j < |pages| && b < |Shown(pages[j], limit)|
    requires i < j || (i == j && a < b)
    ensures pages[i][a] in colls[i] && pages[j][b] in colls[j]
    ensures Above(KeyOf(colls[i], pages[i][a], sort), KeyOf(colls[j], pages[j][b], sort))
  {
    ShownIsBetweenCursors(colls, pages, f, sort, limit, cursors, i, a);
    ShownIsBetweenCursors(colls, pages, f, sort, limit, cursors, j, b);
    if i < j {
      var k, l := KeyOf(colls[i], pages[i][a], sort), KeyOf(colls[j], pages[j][b], sort);
      if i + 1 < j {
        CursorsDescend(colls, pages, f, sort, limit, cursors, i + 1, j);
        AboveIsTransitive(cursors[i + 1].value, cursors[j].value, l);
      }
      if k != cursors[i + 1].value {
        AboveIsTransitive(k, cursors[i + 1].value, l);
      }
    }
  }

  /** Wanted all through the scan, with one and the same date or always without one. */
  ghost predicate Steady(colls: seq<Collection>, id: Id, f: Filter, sort: Sort, at: Option<int>) {
    forall i :: 0 <= i < |colls| ==> id in colls[i] && Wanted(colls[i][id], f, sort) && DateOf(colls[i][id], sort) == at
  }

  lemma {:induction false} SteadyIsShown(colls: seq<Collection>, pages: seq<seq<Id>>, f: Filter, sort: Sort, limit: nat,
                                         cursors: seq<Option<Key>>, id: Id, at: int, i: nat) returns (j: nat, a: nat)
    requires limit > 0 && Scan(colls, pages, f, sort, limit, cursors) && Steady(colls, id, f, sort, Some(at))
    requires i < |pages| && (cursors[i].Some? ==> Above(cursors[i].value, Key(Some(at), id)))
    ensures Shows(pages, limit, j, a, id)
    decreases |pages| - i
  {
    assert Selected(colls[i], id, f, sort, cursors[i]);
    if id in Shown(pages[i], limit) {
      j := i;
      a :| 0 <= a < |Shown(pages[i], limit)| && Shown(pages[i], limit)[a] == id;
    } else {
      SkippedStaysAhead(colls[i], pages[i], f, sort, limit, cursors[i], id);
      assert cursors[i + 1] == NextCursor(colls[i], pages[i], sort, limit);
      j, a := SteadyIsShown(colls, pages, f, sort, limit, cursors, id, at, i + 1);
    }
  }

  /** A dated document that a page selects but does not show is below the cursor the page hands out. */
  lemma SkippedStaysAhead(coll: Collection, rows: seq<Id>, f: Filter, sort: Sort, limit: nat, after: Option<Key>,
                          id: Id)
    requires limit > 0 && IsTop(coll, Selection(coll, f, sort, after), sort, limit + 1, rows)
    requires Selected(coll, id, f, sort, after) && DateOf(coll[id], sort).Some? && id !in Shown(rows, limit)
    ensures var next := NextCursor(coll, rows, sort, limit);
            next.Some? && Above(next.value, KeyOf(coll, id, sort))
  {
    assert id in Selection(coll, f, sort, after);
    forall i | 0 <= i < |Shown(rows, limit)|
      ensures rows[i] != id
    {
      assert Shown(rows, limit)[i] == rows[i];
    }
    assert |rows| > limit && Above(KeyOf(coll, rows[limit - 1], sort), KeyOf(coll, id, sort));
  }

  /** The wanted documents of a first request that come before the given one. */
  function Ahead(coll: Collection, f: Filter, sort: Sort, id: Id): set<Id>
    requires id in coll
  {
    set other | other in Selection(coll, f, sort, None) && Above(KeyOf(coll, other, sort), KeyOf(coll, id, sort))
  }

  /**
   A document that matches throughout with an unchanged sort key is shown at most once, whatever is inserted,
   changed or deleted between the requests.  It is shown exactly when it has a date, or else when fewer than
   `limit` documents come before it at the first request.
   */
  lemma SteadyIsShownOnceIff(colls: seq<Collection>, pages: seq<seq<Id>>, f: Filter, sort: Sort, limit: nat,
                             cursors: seq<Option<Key>>, id: Id, at: Option<int>)
    requires limit > 0 && Scan(colls, pages, f, sort, limit, cursors) && Steady(colls, id, f, sort, at)
    ensures forall i, a, j, b :: Shows(pages, limit, i, a, id) && Shows(pages, limit, j, b, id) ==> i == j && a == b
    ensures (exists j, a :: Shows(pages, limit, j, a, id)) <==> at.Some? || |Ahead(colls[0], f, sort, id)| < limit
  {
    forall i, a, j, b | Shows(pages, limit, i, a, id) && Shows(pages, limit, j, b, id)
      ensures i == j && a == b
    {
      if i < j || (i == j && a < b) {
        ScanDescends(colls, pages, f, sort, limit, cursors, i, a, j, b);
      } else if j < i || (i == j && b < a) {
        ScanDescends(colls, pages, f, sort, limit, cursors, j, b, i, a);
      }
    }
    if at.Some? {
      var j0, a0 := SteadyIsShown(colls, pages, f, sort, limit, cursors, id, at.value, 0);
    } else {
      UndatedIsShownIff(colls, pages, f, sort, limit, cursors, id);
    }
  }

  lemma UndatedIsShownIff(colls: seq<Collection>, pages: seq<seq<Id>>, f: Filter, sort: Sort, limit: nat,
                          cursors: seq<Option<Key>>, id: Id)
    requires limit > 0 && Follows(colls, pages, f, sort, limit, cursors) && Steady(colls, id, f, sort, None)
    ensures (exists j, a :: Shows(pages, limit, j, a, id)) <==> |Ahead(colls[0], f, sort, id)| < limit
  {
    TopShowsIff(colls[0], pages[0], f, sort, limit, id);
    if j: nat, a: nat :| Shows(pages, limit, j, a, id) {
      ShownIsBetweenCursors(colls, pages, f, sort, limit, cursors, j, a);
      assert pages[j][a] in Selection(colls[j], f, sort, cursors[j]);
      assert j == 0 && Shown(pages[0], limit)[a] == id;
    }
    if id in Shown(pages[0], limit) {
      var a :| 0 <= a < |Shown(pages[0], limit)| && Shown(pages[0], limit)[a] == id;
      assert Shows(pages, limit, 0, a, id);
    }
  }

  /** The first request shows a wanted document exactly when fewer than `limit` come before it. */
  lemma TopShowsIff(coll: Collection, rows: seq<Id>, f: Filter, sort: Sort, limit: nat, id: Id)
    requires limit > 0 && IsTop(coll, Selection(coll, f, sort, None), sort, limit + 1, rows)
    requires id in coll && Wanted(coll[id], f, sort)
    ensures id in Shown(rows, limit) <==> |Ahead(coll, f, sort, id)| < limit
  {
    assert id in Selection(coll, f, sort, None);
    if id in Shown(rows, limit) {
      var a :| 0 <= a < |Shown(rows, limit)| && Shown(rows, limit)[a] == id;
      FewComeFirst(coll, rows, f, sort, limit, a);
    } else {
      LimitComesFirst(coll, rows, f, sort, limit, id);
    }
  }

  lemma FewComeFirst(coll: Collection, rows: seq<Id>, f: Filter, sort: Sort, limit: nat, a: nat)
    requires limit > 0 && IsTop(coll, Selection(coll, f, sort, None), sort, limit + 1, rows) && a < |rows|
    ensures |Ahead(coll, f, sort, rows[a])| <= a
  {
    var before := DescendingCounts(coll, rows[..a], sort);
    forall other | other in Ahead(coll, f, sort, rows[a])
      ensures other in before
    {
      var b :| 0 <= b < |rows| && rows[b] == other;
      assert b < a && rows[..a][b] == other;
    }
    SubsetCount(Ahead(coll, f, sort, rows[a]), before);
  }

  lemma LimitComesFirst(coll: Collection, rows: seq<Id>, f: Filter, sort: Sort, limit: nat, id: Id)
    requires limit > 0 && IsTop(coll, Selection(coll, f, sort, None), sort, limit + 1, rows)
    requires id in Selection(coll, f, sort, None) && id !in Shown(rows, limit)
    ensures |Ahead(coll, f, sort, id)| >= limit
  {
    assert id !in rows ==> |rows| == limit + 1;
    assert |rows| <= limit ==> Shown(rows, limit) == rows;
    var top := Shown(rows, limit);
    var ids := DescendingCounts(coll, top, sort);
    forall other | other in ids
      ensures other in Ahead(coll, f, sort, id)
    {
      var i :| 0 <= i < limit && top[i] == other;
      assert rows[i] == other && forall k :: 0 <= k < limit ==> rows[k] == top[k] != id;
    }
    SubsetCount(ids, Ahead(coll, f, sort, id));
  }

  // ---------- scanning a collection that does not change ----------

  /** What the first n requests show, one page after the other. */
  function ShownBy(pages: seq<seq<Id>>, limit: nat, n: nat): seq<Id>
    requires n <= |pages|
  {
    if n == 0 then [] else ShownBy(pages, limit, n - 1) + Shown(pages[n - 1], limit)
  }

  ghost predicate StaticFollows(coll: Collection, pages: seq<seq<Id>>, f: Filter, sort: Sort, limit: nat,
                                cursors: seq<Option<Key>>)
    requires limit > 0
  {
    Follows(seq(|pages|, _ => coll), pages, f, sort, limit, cursors)
  }

  ghost predicate StaticScan(coll: Collection, pages: seq<seq<Id>>, f: Filter, sort: Sort, limit: nat,
                             cursors: seq<Option<Key>>)
    requires limit > 0
  {
    Scan(seq(|pages|, _ => coll), pages, f, sort, limit, cursors)
  }

  lemma {:induction false} PagesDescend(coll: Collection, pages: seq<seq<Id>>, f: Filter, sort: Sort, limit: nat,
                                        cursors: seq<Option<Key>>, n: nat)
    requires limit > 0 && StaticFollows(coll, pages, f, sort, limit, cursors) && n <= |pages|
    ensures Descending(coll, ShownBy(pages, limit, n), sort)
    ensures forall id :: id in ShownBy(pages, limit, n) ==>
                           && id in Selection(coll, f, sort, None)
                           && (cursors[n].Some? ==> KeyOf(coll, id, sort) == cursors[n].value
                                                    || Above(KeyOf(coll, id, sort), cursors[n].value))
  {
    if n > 0 {
      PagesDescend(coll, pages, f, sort, limit, cursors, n - 1);
      var colls := seq(|pages|, _ => coll);
      var before, page := ShownBy(pages, limit, n - 1), Shown(pages[n - 1], limit);
      forall a | 0 <= a < |page|
        ensures page[a] in Selection(coll, f, sort, cursors[n - 1])
        ensures cursors[n].Some? ==> KeyOf(coll, page[a], sort) == cursors[n].value
                                     || Above(KeyOf(coll, page[a], sort), cursors[n].value)
        ensures n > 1 ==> Above(cursors[n - 1].value, KeyOf(coll, page[a], sort))
      {
        ShownIsBetweenCursors(colls, pages, f, sort, limit, cursors, n - 1, a);
        assert pages[n - 1][a] in Selection(colls[n - 1], f, sort, cursors[n - 1]);
      }
      DescendingJoins(coll, before, page, sort, cursors[n - 1]);
      if cursors[n].Some? && n > 1 {
        CursorsDescend'(coll, pages, f, sort, limit, cursors, n);
      }
    }
  }

  lemma {:induction false} ShownIsInThere(pages: seq<seq<Id>>, limit: nat, i: nat, a: nat, id: Id, n: nat)
    requires i < n <= |pages| && Shows(pages, limit, i, a, id)
    ensures id in ShownBy(pages, limit, n)
  {
    if i < n - 1 {
      ShownIsInThere(pages, limit, i, a, id, n - 1);
    } else {
      assert Shown(pages[i], limit)[a] == id;
    }
  }

  lemma CursorsDescend'(coll: Collection, pages: seq<seq<Id>>, f: Filter, sort: Sort, limit: nat,
                        cursors: seq<Option<Key>>, n: nat)
    requires limit > 0 && StaticFollows(coll, pages, f, sort, limit, cursors)
    requires 1 < n <= |pages| && cursors[n].Some?
    ensures forall k :: (k == cursors[n - 1].value || Above(k, cursors[n - 1].value)) ==> Above(k, cursors[n].value)
  {
    CursorsDescend(seq(|pages|, _ => coll), pages, f, sort, limit, cursors, n - 1, n);
    forall k | Above(k, cursors[n - 1].value)
      ensures Above(k, cursors[n].value)
    {
      AboveIsTransitive(k, cursors[n - 1].value, cursors[n].value);
    }
  }

  lemma DescendingJoins(coll: Collection, before: seq<Id>, page: seq<Id>, sort: Sort, cursor: Option<Key>)
    requires Descending(coll, before, sort) && Descending(coll, page, sort)
    requires cursor == None ==> before == []
    requires cursor.Some? ==> forall id :: id in before ==> KeyOf(coll, id, sort) == cursor.value
                                                            || Above(KeyOf(coll, id, sort), cursor.value)
    requires cursor.Some? ==> forall a :: 0 <= a < |page| ==> Above(cursor.value, KeyOf(coll, page[a], sort))
    ensures Descending(coll, before + page, sort)
  {
    forall i, a | 0 <= i < |before| && 0 <= a < |page|
      ensures Above(KeyOf(coll, before[i], sort), KeyOf(coll, page[a], sort))
    {
      assert before[i] in before;
      if KeyOf(coll, before[i], sort) != cursor.value {
        AboveIsTransitive(KeyOf(coll, before[i], sort), cursor.value, KeyOf(coll, page[a], sort));
      }
    }
  }

  lemma {:induction false} DescendingCounts(coll: Collection, rows: seq<Id>, sort: Sort) returns (ids: set<Id>)
    requires Descending(coll, rows, sort)
    ensures ids == (set id | id in rows) && |ids| == |rows|
  {
    ids := {};
    if rows != [] {
      var last := rows[|rows| - 1];
      ids := DescendingCounts(coll, rows[..|rows| - 1], sort);
      assert last !in ids;
      ids := ids + {last};
      assert rows == rows[..|rows| - 1] + [last];
    }
  }

  ghost predicate AllDated(coll: Collection, ids: set<Id>, sort: Sort) {
    forall id :: id in ids ==> id in coll && DateOf(coll[id], sort).Some?
  }

  /**
   On a fixed collection the pages concatenate to the full result in order, as long as
   count says, exactly when every matching document is dated or one page holds them all.
   */
  lemma PagesAreCompleteIff(coll: Collection, pages: seq<seq<Id>>, f: Filter, sort: Sort, limit: nat,
                            cursors: seq<Option<Key>>)
    requires limit > 0 && StaticScan(coll, pages, f, sort, limit, cursors)
    ensures var all := Selection(coll, f, sort, None);
            var shown := ShownBy(pages, limit, |pages|);
            && (|shown| == |all| <==> AllDated(coll, all, sort) || |all| <= limit)
            && (|shown| == |all| ==> IsTop(coll, all, sort, |all|, shown))
  {
    var all := Selection(coll, f, sort, None);
    var shown := ShownBy(pages, limit, |pages|);
    PagesDescend(coll, pages, f, sort, limit, cursors, |pages|);
    var ids := DescendingCounts(coll, shown, sort);
    assert ids <= all;
    SubsetCount(ids, all);
    if AllDated(coll, all, sort) {
      forall id | id in all
        ensures id in shown
      {
        var colls := seq(|pages|, _ => coll);
        assert Steady(colls, id, f, sort, DateOf(coll[id], sort));
        var j, a := SteadyIsShown(colls, pages, f, sort, limit, cursors, id, DateOf(coll[id], sort).value, 0);
        ShownIsInThere(pages, limit, j, a, id, |pages|);
      }
      assert ids == all;
    } else if |all| <= limit {
      OnePageHoldsAll(coll, pages, f, sort, limit, cursors);
      assert ids == all;
    } else {
      UndatedAreCutOff(coll, pages, f, sort, limit, cursors);
    }
  }

  lemma SubsetCount(ids: set<Id>, all: set<Id>)
    requires ids <= all
    ensures |ids| <= |all| && (|ids| == |all| <==> ids == all)
  {
    assert all == ids + (all - ids);
    assert |all| == |ids| + |all - ids|;
  }

  lemma FirstPage(coll: Collection, rows: seq<Id>, ids: set<Id>, sort: Sort, limit: nat)
    requires IsTop(coll, ids, sort, limit + 1, rows)
    ensures |rows| <= limit <==> |ids| <= limit
    ensures |rows| <= limit ==> forall id :: id in ids ==> id in rows
  {
    var inRows := DescendingCounts(coll, rows, sort);
    SubsetCount(inRows, ids);
    if |rows| <= limit {
      assert inRows == ids;
    }
  }

  lemma OnePageHoldsAll(coll: Collection, pages: seq<seq<Id>>, f: Filter, sort: Sort, limit: nat,
                        cursors: seq<Option<Key>>)
    requires limit > 0 && StaticScan(coll, pages, f, sort, limit, cursors)
    requires |Selection(coll, f, sort, None)| <= limit
    ensures forall id :: id in Selection(coll, f, sort, None) ==> id in ShownBy(pages, limit, |pages|)
  {
    var colls := seq(|pages|, _ => coll);
    assert IsTop(colls[0], Selection(colls[0], f, sort, cursors[0]), sort, limit + 1, pages[0]);
    FirstPage(coll, pages[0], Selection(coll, f, sort, None), sort, limit);
    assert cursors[1] == NextCursor(colls[0], pages[0], sort, limit) == None;
    assert |pages| == 1;
    assert ShownBy(pages, limit, 1) == ShownBy(pages, limit, 0) + pages[0];
  }

  /** An undated document is missed after a first page that is full, or ends the scan when it is the last shown. */
  lemma UndatedAreCutOff(coll: Collection, pages: seq<seq<Id>>, f: Filter, sort: Sort, limit: nat,
                         cursors: seq<Option<Key>>)
    requires limit > 0 && StaticScan(coll, pages, f, sort, limit, cursors)
    requires !AllDated(coll, Selection(coll, f, sort, None), sort) && |Selection(coll, f, sort, None)| > limit
    ensures exists id :: id in Selection(coll, f, sort, None) && id !in ShownBy(pages, limit, |pages|)
  {
    var all := Selection(coll, f, sort, None);
    var u :| u in all && DateOf(coll[u], sort) == None;
    var colls := seq(|pages|, _ => coll);
    assert IsTop(colls[0], Selection(colls[0], f, sort, cursors[0]), sort, limit + 1, pages[0]);
    FirstPage(coll, pages[0], all, sort, limit);
    assert cursors[1] == NextCursor(colls[0], pages[0], sort, limit);
    if |pages| == 1 {
      assert ShownBy(pages, limit, 1) == ShownBy(pages, limit, 0) + Shown(pages[0], limit);
      PagesDescend(coll, pages, f, sort, limit, cursors, 1);
      var ids := DescendingCounts(coll, ShownBy(pages, limit, 1), sort);
      SubsetCount(ids, all);
      assert ids != all;
    } else {
      assert Above(KeyOf(coll, pages[0][limit - 1], sort), KeyOf(coll, u, sort));
      assert u !in ShownBy(pages, limit, |pages|) by {
        LaterPagesAreDated(coll, pages, f, sort, limit, cursors, u, |pages|);
      }
    }
  }

  lemma {:induction false} LaterPagesAreDated(coll: Collection, pages: seq<seq<Id>>, f: Filter, sort: Sort, limit: nat,
                                              cursors: seq<Option<Key>>, u: Id, n: nat)
    requires limit > 0 && StaticScan(coll, pages, f, sort, limit, cursors) && 1 < |pages| && n <= |pages|
    requires u in coll && DateOf(coll[u], sort) == None
    ensures u !in ShownBy(pages, limit, n)
  {
    if n > 0 {
      LaterPagesAreDated(coll, pages, f, sort, limit, cursors, u, n - 1);
      var page := Shown(pages[n - 1], limit);
      forall a | 0 <= a < |page|
        ensures page[a] != u
      {
        ShownIsDated(coll, pages, f, sort, limit, cursors, n - 1, a);
      }
    }
  }

  lemma ShownIsDated(coll: Collection, pages: seq<seq<Id>>, f: Filter, sort: Sort, limit: nat,
                     cursors: seq<Option<Key>>, i: nat, a: nat)
    requires limit > 0 && StaticScan(coll, pages, f, sort, limit, cursors) && 1 < |pages|
    requires i < |pages| && a < |Shown(pages[i], limit)|
    ensures pages[i][a] in coll && DateOf(coll[pages[i][a]], sort).Some?
  {
    var colls := seq(|pages|, _ => coll);
    ShownIsBetweenCursors(colls, pages, f, sort, limit, cursors, i, a);
    if i > 0 {
      assert pages[i][a] in Selection(colls[i], f, sort, cursors[i]);
    } else {
      assert cursors[1].Some? && cursors[1] == NextCursor(colls[0], pages[0], sort, limit);
    }
  }

  // ---------- scans end ----------

  /** The loader of a page: one row more than asked for is fetched, to see whether there is a next page. */
  method ServePage(coll: Collection, f: Filter, sort: Sort, limit: nat, after: Option<Key>)
    returns (page: seq<Id>, next: Option<Key>, ghost rows: seq<Id>)
    requires limit > 0 && (after.Some? ==> after.value.at.Some?)
    ensures IsTop(coll, Selection(coll, f, sort, after), sort, limit + 1, rows)
    ensures page == Shown(rows, limit) && next == NextCursor(coll, rows, sort, limit)
    ensures next.Some? ==> next.value.at.Some?
  {
    var fetched := ListPage(coll, f, sort, limit + 1, after);
    rows := fetched;
    var hasMore := |fetched| > limit;
    page := if hasMore then fetched[..limit] else fetched;
    next := None;
    if hasMore {
      var last := page[limit - 1];
      var boundary := DateOf(coll[last], sort);
      if boundary.Some? {
        next := Some(Key(boundary, last));
      }
    }
  }

  /** Every page but the last of those fetched shows `limit` documents, all different. */
  lemma {:induction false} FullPagesAddUp(coll: Collection, pages: seq<seq<Id>>, f: Filter, sort: Sort, limit: nat,
                                          cursors: seq<Option<Key>>, n: nat)
    requires limit > 0 && StaticFollows(coll, pages, f, sort, limit, cursors) && n < |pages|
    ensures |ShownBy(pages, limit, n)| == n * limit <= |Selection(coll, f, sort, None)|
  {
    if n > 0 {
      FullPagesAddUp(coll, pages, f, sort, limit, cursors, n - 1);
      assert cursors[n] == NextCursor(seq(|pages|, _ => coll)[n - 1], pages[n - 1], sort, limit);
      assert |ShownBy(pages, limit, n)| == (n - 1) * limit + limit == n * limit;
    }
    PagesDescend(coll, pages, f, sort, limit, cursors, n);
    var ids := DescendingCounts(coll, ShownBy(pages, limit, n), sort);
    SubsetCount(ids, Selection(coll, f, sort, None));
  }

  /** However far the cursor is followed, all pages but the last are full of documents not shown before. */
  lemma FollowingIsShort(coll: Collection, pages: seq<seq<Id>>, f: Filter, sort: Sort, limit: nat,
                         cursors: seq<Option<Key>>)
    requires limit > 0 && StaticFollows(coll, pages, f, sort, limit, cursors)
    ensures (|pages| - 1) * limit <= |Selection(coll, f, sort, None)|
  {
    FullPagesAddUp(coll, pages, f, sort, limit, cursors, |pages| - 1);
  }

  lemma FollowingEnds(coll: Collection, pages: seq<seq<Id>>, f: Filter, sort: Sort, limit: nat,
                      cursors: seq<Option<Key>>)
    requires limit > 0 && StaticFollows(coll, pages, f, sort, limit, cursors)
    ensures |pages| <= |Selection(coll, f, sort, None)| + 1
  {
    FollowingIsShort(coll, pages, f, sort, limit, cursors);
    AtLeastOneEach(|pages| - 1, limit);
  }

  lemma AtLeastOneEach(n: nat, limit: nat)
    requires limit > 0
    ensures n <= n * limit
  {
  }

  /** What a client knows after some pages: what it has shown, and the cursor for the next. */
  ghost predicate Reached(coll: Collection, pages: seq<seq<Id>>, f: Filter, sort: Sort, limit: nat,
                          cursors: seq<Option<Key>>, shown: seq<Id>, next: Option<Key>)
    requires limit > 0
  {
    && StaticFollows(coll, pages, f, sort, limit, cursors)
    && cursors[|pages|] == next && shown == ShownBy(pages, limit, |pages|)
  }

  /** A client that asks for the next page as long as there is one, on a collection that does not change. */
  method FollowCursor(coll: Collection, f: Filter, sort: Sort, limit: nat)
    returns (shown: seq<Id>, ghost pages: seq<seq<Id>>, ghost cursors: seq<Option<Key>>)
    requires limit > 0
    ensures StaticScan(coll, pages, f, sort, limit, cursors) && shown == ShownBy(pages, limit, |pages|)
    ensures |pages| <= |Selection(coll, f, sort, None)| + 1
    ensures Descending(coll, shown, sort) && forall id :: id in shown ==> id in Selection(coll, f, sort, None)
    ensures |shown| == |Selection(coll, f, sort, None)|
            <==> AllDated(coll, Selection(coll, f, sort, None), sort) || |Selection(coll, f, sort, None)| <= limit
  {
    ghost var rows;
    var next;
    shown, next, rows := ServePage(coll, f, sort, limit, None);
    pages, cursors := FirstPageFollows(coll, f, sort, limit, rows);
    while next.Some?
      invariant Reached(coll, pages, f, sort, limit, cursors, shown, next)
      invariant next.Some? ==> next.value.at.Some?
      invariant |pages| <= |Selection(coll, f, sort, None)| + 1
      decreases |Selection(coll, f, sort, None)| + 1 - |pages|
    {
      var page, after;
      page, after, rows := ServePage(coll, f, sort, limit, next);
      pages, cursors := OneMorePage(coll, pages, f, sort, limit, cursors, shown, next, rows);
      shown, next := shown + page, after;
    }
    PagesDescend(coll, pages, f, sort, limit, cursors, |pages|);
    PagesAreCompleteIff(coll, pages, f, sort, limit, cursors);
  }

  lemma FirstPageFollows(coll: Collection, f: Filter, sort: Sort, limit: nat, rows: seq<Id>)
    returns (pages: seq<seq<Id>>, cursors: seq<Option<Key>>)
    requires limit > 0 && IsTop(coll, Selection(coll, f, sort, None), sort, limit + 1, rows)
    ensures Reached(coll, pages, f, sort, limit, cursors, Shown(rows, limit), NextCursor(coll, rows, sort, limit))
    ensures |pages| <= |Selection(coll, f, sort, None)| + 1
  {
    pages, cursors := [rows], [None, NextCursor(coll, rows, sort, limit)];
    assert ShownBy([rows], limit, 0) == [];
  }

  lemma OneMoreFollows(coll: Collection, pages: seq<seq<Id>>, f: Filter, sort: Sort, limit: nat,
                       cursors: seq<Option<Key>>, rows: seq<Id>)
    requires limit > 0 && StaticFollows(coll, pages, f, sort, limit, cursors) && cursors[|pages|].Some?
    requires IsTop(coll, Selection(coll, f, sort, cursors[|pages|]), sort, limit + 1, rows)
    ensures StaticFollows(coll, pages + [rows], f, sort, limit, cursors + [NextCursor(coll, rows, sort, limit)])
  {
    var colls := seq(|pages|, _ => coll);
    forall i | 0 <= i < |pages|
      ensures IsTop(coll, Selection(coll, f, sort, cursors[i]), sort, limit + 1, pages[i])
      ensures cursors[i + 1] == NextCursor(coll, pages[i], sort, limit)
    {
      assert colls[i] == coll;
    }
  }

  lemma OneMorePage(coll: Collection, pages: seq<seq<Id>>, f: Filter, sort: Sort, limit: nat,
                    cursors: seq<Option<Key>>, shown: seq<Id>, next: Option<Key>, rows: seq<Id>)
    returns (pages': seq<seq<Id>>, cursors': seq<Option<Key>>)
    requires limit > 0 && Reached(coll, pages, f, sort, limit, cursors, shown, next) && next.Some?
    requires IsTop(coll, Selection(coll, f, sort, next), sort, limit + 1, rows)
    ensures Reached(coll, pages', f, sort, limit, cursors', shown + Shown(rows, limit),
                    NextCursor(coll, rows, sort, limit))
    ensures |pages| < |pages'| <= |Selection(coll, f, sort, None)| + 1
  {
    pages', cursors' := pages + [rows], cursors + [NextCursor(coll, rows, sort, limit)];
    OneMoreFollows(coll, pages, f, sort, limit, cursors, rows);
    LaterPagesDoNotMatter(pages, rows, limit, |pages|);
    FollowingEnds(coll, pages', f, sort, limit, cursors');
  }

  lemma {:induction false} LaterPagesDoNotMatter(pages: seq<seq<Id>>, rows: seq<Id>, limit: nat, n: nat)
    requires n <= |pages|
    ensures ShownBy(pages + [rows], limit, n) == ShownBy(pages, limit, n)
  {
    if n > 0 {
      LaterPagesDoNotMatter(pages, rows, limit, n - 1);
    }
  }

  /** Two alerts without created_at, one to a page: the scan ends with the first, and the other is never shown. */
  lemma UndatedAlertIsMissed(f: Filter, coll: Collection) returns (pages: seq<seq<Id>>, cursors: seq<Option<Key>>)
    requires f == Filter(None, None, None, None, None, None)
    requires coll == map[1 := Alert("low", false, "", "c", None, None), 2 := Alert("low", false, "", "c", None, None)]
    ensures StaticScan(coll, pages, f, ByCreated, 1, cursors)
    ensures Selection(coll, f, ByCreated, None) == {1, 2} && ShownBy(pages, 1, |pages|) == [2]
  {
    pages, cursors := [[2, 1]], [None, None];
    assert Selection(coll, f, ByCreated, None) == {1, 2};
    assert ShownBy(pages, 1, 1) == ShownBy(pages, 1, 0) + [2];
  }
}
