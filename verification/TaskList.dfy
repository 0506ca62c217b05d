/**
  Listing a project's tasks page by page (list_for_project in
  src/tasks/repository.py). A query's answer is any ordering of the joined rows
  that its ORDER BY allows, cut by LIMIT and OFFSET; each page is a query of
  its own and may order ties its own way.
*/
module TaskList {
  import opened Common

  datatype Row = Row(id: nat, project: nat, position: int, createdAt: int)
  datatype Project = Project(id: nat, organization: nat)
  datatype Member = Member(organization: nat, user: nat)
  datatype Db = Db(tasks: seq<Row>, projects: seq<Project>, members: seq<Member>)

  /** Primary keys, and one membership row per user and organization. */
  ghost predicate Keyed(db: Db) {
    && (forall i, j :: 0 <= i < j < |db.tasks| ==> db.tasks[i].id != db.tasks[j].id)
    && (forall i, j :: 0 <= i < j < |db.projects| ==> db.projects[i].id != db.projects[j].id)
    && Distinct(db.members)
  }

  function CountMember(members: seq<Member>, m: Member): nat {
    if members == [] then 0 else (if members[0] == m then 1 else 0) + CountMember(members[1..], m)
  }

  /** How many joined rows a task of the project gives for the user. */
  function Matches(projects: seq<Project>, members: seq<Member>, project: nat, user: nat): nat {
    if projects == [] then 0
    else
      (if projects[0].id == project then CountMember(members, Member(projects[0].organization, user)) else 0)
      + Matches(projects[1..], members, project, user)
  }

  function Repeat(r: Row, n: nat): seq<Row> {
    seq(n, _ => r)
  }

  /** Task JOIN Project JOIN OrganizationMember WHERE project and user. */
  function Join(tasks: seq<Row>, db: Db, project: nat, user: nat): seq<Row> {
    if tasks == [] then []
    else
      (if tasks[0].project == project
       then Repeat(tasks[0], Matches(db.projects, db.members, project, user)) else [])
      + Join(tasks[1..], db, project, user)
  }

  predicate Leq(a: Row, b: Row) {
    a.position < b.position
    || (a.position == b.position && (a.createdAt < b.createdAt || (a.createdAt == b.createdAt && a.id <= b.id)))
  }

  ghost predicate Sorted(rows: seq<Row>) {
    forall i, j :: 0 <= i < j < |rows| ==> Leq(rows[i], rows[j])
  }

  ghost predicate Arranges(order: seq<Row>, db: Db, project: nat, user: nat) {
    multiset(order) == multiset(Join(db.tasks, db, project, user)) && Sorted(order)
  }

  function Slice(rows: seq<Row>, offset: nat, limit: nat): seq<Row> {
    if offset >= |rows| then [] else Prefix(rows[offset..], limit)
  }

  /** An answer of the page query. */
  ghost predicate IsPage(page: seq<Row>, db: Db, project: nat, user: nat, offset: nat, limit: nat) {
    exists order: seq<Row> :: Arranges(order, db, project, user) && page == Slice(order, offset, limit)
  }

  /** The answer of the count query. */
  function Total(db: Db, project: nat, user: nat): nat {
    |Join(db.tasks, db, project, user)|
  }

  ghost predicate Access(db: Db, project: nat, user: nat) {
    exists p :: p in db.projects && p.id == project && Member(p.organization, user) in db.members
  }

  lemma {:induction false} MemberOnce(members: seq<Member>, m: Member)
    requires Distinct(members)
    ensures CountMember(members, m) == if m in members then 1 else 0
  {
    if members != [] {
      MemberOnce(members[1..], m);
    }
  }

  lemma {:induction false} MatchesOnce(projects: seq<Project>, members: seq<Member>, project: nat, user: nat)
    requires Distinct(members)
    requires forall i, j :: 0 <= i < j < |projects| ==> projects[i].id != projects[j].id
    ensures Matches(projects, members, project, user) ==
            if exists p :: p in projects && p.id == project && Member(p.organization, user) in members then 1 else 0
  {
    if projects != [] {
      var rest := projects[1..];
      MatchesOnce(rest, members, project, user);
      MemberOnce(members, Member(projects[0].organization, user));
      assert forall p :: p in projects <==> p == projects[0] || p in rest;
    }
  }

  lemma {:induction false} JoinRows(tasks: seq<Row>, db: Db, project: nat, user: nat)
    requires forall i, j :: 0 <= i < j < |tasks| ==> tasks[i].id != tasks[j].id
    requires Matches(db.projects, db.members, project, user) <= 1
    ensures var rows := Join(tasks, db, project, user);
            && (forall r :: r in rows <==>
                  r in tasks && r.project == project && Matches(db.projects, db.members, project, user) == 1)
            && (forall i, j :: 0 <= i < j < |rows| ==> rows[i].id != rows[j].id)
  {
    if tasks != [] {
      JoinRows(tasks[1..], db, project, user);
      assert forall r :: r in tasks <==> r == tasks[0] || r in tasks[1..];
      var rest := Join(tasks[1..], db, project, user);
      assert forall i :: 0 <= i < |rest| ==> rest[i] in rest;
      assert forall r :: r in tasks[1..] ==> r.id != tasks[0].id;
    }
  }

  lemma SameHead(a: seq<Row>, b: seq<Row>)
    requires a != [] && multiset(a) == multiset(b) && Sorted(a) && Sorted(b)
    requires forall r, q :: r in a && q in a && r.id == q.id ==> r == q
    ensures b != [] && a[0] == b[0]
  {
    assert a[0] in multiset(b);
    var i :| 0 <= i < |b| && b[i] == a[0];
    assert b[0] in multiset(a);
    var j :| 0 <= j < |a| && a[j] == b[0];
    assert Leq(a[0], b[0]) && Leq(b[0], a[0]);
  }

  lemma TailBags(a: seq<Row>, b: seq<Row>)
    requires a != [] && b != [] && a[0] == b[0] && multiset(a) == multiset(b)
    ensures multiset(a[1..]) == multiset(b[1..])
  {
    assert a == [a[0]] + a[1..] && b == [b[0]] + b[1..];
    assert multiset(a) == multiset{a[0]} + multiset(a[1..]);
    assert multiset(b) == multiset{a[0]} + multiset(b[1..]);
    assert multiset(a[1..]) == multiset(a) - multiset{a[0]};
    assert multiset(b[1..]) == multiset(b) - multiset{a[0]};
  }

  /** Two sortings of the same rows are the same sequence. */
  lemma {:induction false} SortedIsUnique(a: seq<Row>, b: seq<Row>)
    requires multiset(a) == multiset(b) && Sorted(a) && Sorted(b)
    requires forall r, q :: r in a && q in a && r.id == q.id ==> r == q
    ensures a == b
  {
    assert |multiset(a)| == |a| && |multiset(b)| == |b|;
    if a != [] {
      SameHead(a, b);
      TailBags(a, b);
      SortedIsUnique(a[1..], b[1..]);
      assert a == [a[0]] + a[1..] && b == [b[0]] + b[1..];
    }
  }

  /** The joined rows of a keyed database: its accessible tasks, each once. */
  lemma JoinIsExact(db: Db, project: nat, user: nat)
    requires Keyed(db)
    ensures var rows := Join(db.tasks, db, project, user);
            && Distinct(rows)
            && (forall r :: r in rows <==> r in db.tasks && r.project == project && Access(db, project, user))
            && (forall r, q :: r in rows && q in rows && r.id == q.id ==> r == q)
  {
    MatchesOnce(db.projects, db.members, project, user);
    JoinRows(db.tasks, db, project, user);
  }

  lemma SameBag(a: seq<Row>, b: seq<Row>)
    requires multiset(a) == multiset(b)
    ensures |a| == |b| && forall r :: r in a <==> r in b
  {
    assert |multiset(a)| == |a| && |multiset(b)| == |b|;
    assert forall r :: r in a <==> r in multiset(a);
    assert forall r :: r in b <==> r in multiset(b);
  }

  /** All arrangements of a keyed database are the same: its accessible tasks,
      each once. */
  lemma ArrangementIsUnique(order: seq<Row>, other: seq<Row>, db: Db, project: nat, user: nat)
    requires Keyed(db) && Arranges(order, db, project, user) && Arranges(other, db, project, user)
    ensures order == other && Distinct(order) && |order| == Total(db, project, user)
    ensures forall r :: r in order <==> r in db.tasks && r.project == project && Access(db, project, user)
  {
    var rows := Join(db.tasks, db, project, user);
    JoinIsExact(db, project, user);
    SameBag(order, rows);
    SortedIsUnique(order, other);
    DistinctBag(order, rows);
  }

  lemma DistinctBag(a: seq<Row>, b: seq<Row>)
    requires multiset(a) == multiset(b) && Distinct(b)
    ensures Distinct(a)
  {
    forall r <- b ensures multiset(b)[r] == 1 {
      OnceInBag(b, r);
    }
    forall i, j | 0 <= i < j < |a| ensures a[i] != a[j] {
      assert a[i] in multiset(a);
      assert a == a[..i] + [a[i]] + a[i + 1..j] + [a[j]] + a[j + 1..];
    }
  }

  lemma {:induction false} OnceInBag(b: seq<Row>, r: Row)
    requires Distinct(b) && r in b
    ensures multiset(b)[r] == 1
  {
    assert b == [b[0]] + b[1..];
    if b[0] == r {
      assert r !in b[1..];
    } else {
      OnceInBag(b[1..], r);
    }
  }

  function Inserted(r: Row, rows: seq<Row>): seq<Row> {
    if rows == [] || Leq(r, rows[0]) then [r] + rows else [rows[0]] + Inserted(r, rows[1..])
  }

  lemma {:induction false} InsertedBag(r: Row, rows: seq<Row>)
    ensures multiset(Inserted(r, rows)) == multiset{r} + multiset(rows)
  {
    if rows != [] && !Leq(r, rows[0]) {
      InsertedBag(r, rows[1..]);
      assert rows == [rows[0]] + rows[1..];
    }
  }

  lemma {:induction false} InsertedIsSorted(r: Row, rows: seq<Row>)
    requires Sorted(rows)
    ensures Sorted(Inserted(r, rows))
  {
    if rows != [] && !Leq(r, rows[0]) {
      var rest := Inserted(r, rows[1..]);
      InsertedIsSorted(r, rows[1..]);
      InsertedBag(r, rows[1..]);
      forall q <- rest ensures Leq(rows[0], q) {
        assert q in multiset(rest);
      }
    }
  }

  lemma {:induction false} SortingExists(rows: seq<Row>) returns (order: seq<Row>)
    ensures multiset(order) == multiset(rows) && Sorted(order)
  {
    if rows == [] {
      order := [];
    } else {
      var rest := SortingExists(rows[1..]);
      order := Inserted(rows[0], rest);
      InsertedIsSorted(rows[0], rest);
      InsertedBag(rows[0], rest);
      assert rows == [rows[0]] + rows[1..];
    }
  }

  /** The query has an answer for every offset and limit. */
  lemma EveryPageHasAnAnswer(db: Db, project: nat, user: nat, offset: nat, limit: nat)
    ensures exists page :: IsPage(page, db, project, user, offset, limit)
  {
    var order := SortingExists(Join(db.tasks, db, project, user));
    assert Arranges(order, db, project, user);
    assert IsPage(Slice(order, offset, limit), db, project, user, offset, limit);
  }

  /** The offset of the k-th page: 0, limit, limit + limit, ... */
  function Offset(k: nat, limit: nat): nat {
    if k == 0 then 0 else Offset(k - 1, limit) + limit
  }

  function Flatten(pages: seq<seq<Row>>): seq<Row> {
    if pages == [] then [] else Flatten(pages[..|pages| - 1]) + pages[|pages| - 1]
  }

  lemma NextSlice(order: seq<Row>, offset: nat, limit: nat)
    ensures Prefix(order, offset) + Slice(order, offset, limit) == Prefix(order, offset + limit)
  {
  }

  lemma {:induction false} SlicesConcatenate(order: seq<Row>, pages: seq<seq<Row>>, limit: nat)
    requires forall k :: 0 <= k < |pages| ==> pages[k] == Slice(order, Offset(k, limit), limit)
    ensures Flatten(pages) == Prefix(order, Offset(|pages|, limit))
  {
    if pages != [] {
      var n := |pages| - 1;
      var head := pages[..n];
      forall k | 0 <= k < n ensures head[k] == Slice(order, Offset(k, limit), limit) {
        assert head[k] == pages[k];
      }
      SlicesConcatenate(order, head, limit);
      NextSlice(order, Offset(n, limit), limit);
    }
  }

  /** A page is no longer than asked for. */
  lemma PageFits(page: seq<Row>, db: Db, project: nat, user: nat, offset: nat, limit: nat)
    requires IsPage(page, db, project, user, offset, limit)
    ensures |page| <= limit
  {
  }

  /** Different tasks stand in strict order of position, creation and id. */
  lemma StrictOrder(list: seq<Row>, db: Db)
    requires Keyed(db) && Sorted(list) && Distinct(list) && forall r :: r in list ==> r in db.tasks
    ensures forall i, j :: 0 <= i < j < |list| ==>
              || list[i].position < list[j].position
              || (list[i].position == list[j].position && list[i].createdAt < list[j].createdAt)
              || (list[i].position == list[j].position && list[i].createdAt == list[j].createdAt
                  && list[i].id < list[j].id)
  {
    forall i, j | 0 <= i < j < |list| ensures list[i].id != list[j].id && Leq(list[i], list[j]) {
      assert list[i] in list && list[j] in list;
      var a :| 0 <= a < |db.tasks| && db.tasks[a] == list[i];
      var b :| 0 <= b < |db.tasks| && db.tasks[b] == list[j];
    }
  }

  /** Separate queries, one ordering. */
  lemma PagesShareAnOrder(db: Db, project: nat, user: nat, limit: nat, pages: seq<seq<Row>>)
    returns (order: seq<Row>)
    requires Keyed(db) && pages != []
    requires forall k :: 0 <= k < |pages| ==> IsPage(pages[k], db, project, user, Offset(k, limit), limit)
    ensures Arranges(order, db, project, user)
    ensures forall k :: 0 <= k < |pages| ==> pages[k] == Slice(order, Offset(k, limit), limit)
  {
    assert IsPage(pages[0], db, project, user, Offset(0, limit), limit);
    order :| Arranges(order, db, project, user) && pages[0] == Slice(order, Offset(0, limit), limit);
    forall k | 0 <= k < |pages| ensures pages[k] == Slice(order, Offset(k, limit), limit) {
      var other: seq<Row> :| Arranges(other, db, project, user) && pages[k] == Slice(other, Offset(k, limit), limit);
      ArrangementIsUnique(order, other, db, project, user);
    }
  }

  /** On a fixed database the pages at offsets 0, limit, 2 * limit, ... put
      together are the project's tasks the user can access, each exactly once,
      in the order of position, creation and id; `total` is their number. */
  lemma PagesTileTheList(db: Db, project: nat, user: nat, limit: nat, pages: seq<seq<Row>>)
    requires Keyed(db) && pages != []
    requires forall k :: 0 <= k < |pages| ==> IsPage(pages[k], db, project, user, Offset(k, limit), limit)
    requires Offset(|pages|, limit) >= Total(db, project, user)
    ensures var list := Flatten(pages);
            && (forall i, j :: 0 <= i < j < |list| ==>
                  || list[i].position < list[j].position
                  || (list[i].position == list[j].position && list[i].createdAt < list[j].createdAt)
                  || (list[i].position == list[j].position && list[i].createdAt == list[j].createdAt
                      && list[i].id < list[j].id))
            && Distinct(list) && |list| == Total(db, project, user)
            && forall r :: r in list <==>
                 r in db.tasks && r.project == project &&
                 exists p :: p in db.projects && p.id == project && Member(p.organization, user) in db.members
  {
    var order := PagesShareAnOrder(db, project, user, limit, pages);
    SlicesConcatenate(order, pages, limit);
    ArrangementIsUnique(order, order, db, project, user);
    assert Flatten(pages) == order;
    StrictOrder(order, db);
  }
}
