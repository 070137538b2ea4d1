/** The read side of the intents table: newest-first order, filters and keyset pages. */
module Queries {
  import opened Wrappers
  import opened IntentState
  import opened Transactions
  import opened Intents

  /** The list position of an intent; also what a cursor carries. */
  datatype Position = Position(createdAt: nat, id: Id)

  function PositionOf(r: Row): Position {
    Position(r.createdAt, r.id)
  }

  /** `a` comes after `b` in the newest-first order: it is older, or tied with a lower id. */
  predicate Below(a: Position, b: Position) {
    a.createdAt < b.createdAt || (a.createdAt == b.createdAt && a.id < b.id)
  }

  /** No two rows share an id. */
  ghost predicate DistinctIds(rows: set<Row>) {
    forall a, b | a in rows && b in rows :: a.id == b.id ==> a == b
  }

  /** ORDER BY created_at DESC, id DESC. */
  ghost predicate Descending(s: seq<Row>) {
    forall i, j | 0 <= i < j < |s| :: Below(PositionOf(s[j]), PositionOf(s[i]))
  }

  /** Nothing in `rows` comes before `m`. */
  predicate IsNewest(m: Row, rows: set<Row>) {
    m in rows && forall r | r in rows :: !Below(PositionOf(m), PositionOf(r))
  }

  lemma {:induction false} NewestExists(rows: set<Row>)
    requires rows != {}
    ensures exists m :: IsNewest(m, rows)
    decreases |rows|
  {
    var pick :| pick in rows;
    var rest := rows - {pick};
    if rest == {} {
      assert rows == {pick};
      assert IsNewest(pick, rows);
    } else {
      NewestExists(rest);
      var m :| IsNewest(m, rest);
      NewerOfTwo(rows, rest, pick, m);
    }
  }

  lemma NewerOfTwo(rows: set<Row>, rest: set<Row>, pick: Row, m: Row)
    requires pick in rows && rest == rows - {pick} && IsNewest(m, rest)
    ensures exists top :: IsNewest(top, rows)
  {
    var top := if Below(PositionOf(m), PositionOf(pick)) then pick else m;
    forall r | r in rows ensures !Below(PositionOf(top), PositionOf(r)) {
      assert r == pick || r in rest;
    }
    assert IsNewest(top, rows);
  }

  lemma NewestIsUnique(rows: set<Row>, a: Row, b: Row)
    requires DistinctIds(rows) && IsNewest(a, rows) && IsNewest(b, rows)
    ensures a == b
  {
    assert !Below(PositionOf(a), PositionOf(b)) && !Below(PositionOf(b), PositionOf(a));
  }

  lemma NewestIsAbove(rows: set<Row>, m: Row, r: Row)
    requires DistinctIds(rows) && IsNewest(m, rows) && r in rows && r != m
    ensures Below(PositionOf(r), PositionOf(m))
  {
    assert !Below(PositionOf(m), PositionOf(r));
  }

  function Newest(rows: set<Row>): (m: Row)
    requires rows != {} && DistinctIds(rows)
    ensures IsNewest(m, rows)
  {
    NewestExists(rows);
    assert forall a, b | IsNewest(a, rows) && IsNewest(b, rows) :: a == b by {
      forall a, b | IsNewest(a, rows) && IsNewest(b, rows) ensures a == b {
        NewestIsUnique(rows, a, b);
      }
    }
    var m :| m in rows && IsNewest(m, rows);
    m
  }

  function NewestFirst(rows: set<Row>): seq<Row>
    requires DistinctIds(rows)
    decreases |rows|
  {
    if rows == {} then []
    else
      var m := Newest(rows);
      [m] + NewestFirst(rows - {m})
  }

  lemma {:induction false} NewestFirstSorts(rows: set<Row>)
    requires DistinctIds(rows)
    ensures var s := NewestFirst(rows); |s| == |rows| && Descending(s)
    ensures forall r :: r in NewestFirst(rows) <==> r in rows
    decreases |rows|
  {
    hide DistinctIds, IsNewest, Below;
    if rows != {} {
      var m := Newest(rows);
      var rest := rows - {m};
      assert m in rows by { NewestIsMember(rows, m); }
      assert DistinctIds(rest) by { SubsetIsDistinct(rows, rest); }
      NewestFirstSorts(rest);
      var tail := NewestFirst(rest);
      assert NewestFirst(rows) == [m] + tail;
      forall r | r in tail ensures Below(PositionOf(r), PositionOf(m)) {
        NewestIsAbove(rows, m, r);
      }
      var s := [m] + tail;
      forall i, j | 0 <= i < j < |s| ensures Below(PositionOf(s[j]), PositionOf(s[i])) {
        assert s[j] == tail[j - 1];
      }
    }
  }

  lemma NewestIsMember(rows: set<Row>, m: Row)
    requires IsNewest(m, rows)
    ensures m in rows
  {
  }

  lemma SubsetIsDistinct(rows: set<Row>, rest: set<Row>)
    requires DistinctIds(rows) && rest <= rows
    ensures DistinctIds(rest)
  {
  }

  datatype IntentType = PaymentIntent | TrustSetIntent

  function TypeOf(payload: Payload): IntentType {
    if payload.Payment? then PaymentIntent else TrustSetIntent
  }

  datatype ListFilter = ListFilter(
    intentType: Option<IntentType>, status: Option<Status>, account: Option<string>, before: Option<Position>)

  predicate Matches(r: Row, f: ListFilter) {
    && (f.intentType.Some? ==> TypeOf(r.payload) == f.intentType.value)
    && (f.status.Some? ==> r.status == f.status.value)
    && (f.account.Some? ==> r.sourceAccount == f.account.value)
    && (f.before.Some? ==> Below(PositionOf(r), f.before.value))
  }

  /** What a listing was asked for, column by column; a cursor asks for older rows, or tied ones with a lower id. */
  ghost predicate IsAskedFor(r: Row, f: ListFilter) {
    && (f.intentType == Some(PaymentIntent) ==> r.payload.Payment?)
    && (f.intentType == Some(TrustSetIntent) ==> r.payload.TrustSet?)
    && (f.status.Some? ==> f.status == Some(r.status))
    && (f.account.Some? ==> f.account == Some(r.sourceAccount))
    && (f.before.Some? ==>
          || r.createdAt < f.before.value.createdAt
          || (r.createdAt == f.before.value.createdAt && r.id < f.before.value.id))
  }

  /** Strictly newest first, ties by the higher id. */
  ghost predicate NewestComeFirst(s: seq<Row>) {
    forall i, j | 0 <= i < j < |s| ::
      s[j].createdAt < s[i].createdAt || (s[j].createdAt == s[i].createdAt && s[j].id < s[i].id)
  }

  ghost predicate LiesBelowAll(r: Row, s: seq<Row>) {
    forall i | 0 <= i < |s| :: r.createdAt < s[i].createdAt || (r.createdAt == s[i].createdAt && r.id < s[i].id)
  }

  lemma MatchesExactlyWhen(r: Row, f: ListFilter)
    ensures Matches(r, f) <==> IsAskedFor(r, f)
  {
  }

  lemma DescendingExactlyWhen(s: seq<Row>)
    ensures Descending(s) <==> NewestComeFirst(s)
  {
  }

  /**
   * `s` is the answer to a query of at most `limit` rows: only rows that were asked for, newest
   * first, and a row that was asked for is left out only by the limit and below every row of `s`.
   */
  ghost predicate Answers(s: seq<Row>, rows: map<Id, Row>, f: ListFilter, limit: nat) {
    && |s| <= limit && NewestComeFirst(s)
    && (forall r | r in s :: r.id in rows && rows[r.id] == r && IsAskedFor(r, f))
    && forall id | id in rows && IsAskedFor(rows[id], f) && rows[id] !in s :: |s| == limit && LiesBelowAll(rows[id], s)
  }

  lemma ListedAnswers(rows: map<Id, Row>, f: ListFilter, limit: nat)
    requires KeyedById(rows)
    ensures Answers(Listed(rows, f, limit), rows, f, limit)
  {
    hide Listed, Matches, IsAskedFor, Descending, NewestComeFirst;
    ListedFacts(rows, f, limit);
    MatchingIsExact(rows, f);
    var s := Listed(rows, f, limit);
    DescendingExactlyWhen(s);
    forall r: Row ensures Matches(r, f) <==> IsAskedFor(r, f) {
      MatchesExactlyWhen(r, f);
    }
  }

  function Matching(rows: map<Id, Row>, f: ListFilter): set<Row> {
    set id | id in rows && Matches(rows[id], f) :: rows[id]
  }

  lemma MatchingIsExact(rows: map<Id, Row>, f: ListFilter)
    requires KeyedById(rows)
    ensures forall r | r in Matching(rows, f) :: r.id in rows && rows[r.id] == r && Matches(r, f)
    ensures forall id | id in rows && Matches(rows[id], f) :: rows[id] in Matching(rows, f)
  {
    hide Matches;
  }

  lemma MatchingIsDistinct(rows: map<Id, Row>, f: ListFilter)
    requires KeyedById(rows)
    ensures DistinctIds(Matching(rows, f))
  {
  }

  /** The rows one query returns: the newest `limit` matches, newest first. */
  function Listed(rows: map<Id, Row>, f: ListFilter, limit: nat): seq<Row>
    requires KeyedById(rows)
  {
    MatchingIsDistinct(rows, f);
    var all := NewestFirst(Matching(rows, f));
    if |all| <= limit then all else all[..limit]
  }

  lemma ListedFacts(rows: map<Id, Row>, f: ListFilter, limit: nat)
    requires KeyedById(rows)
    ensures var s := Listed(rows, f, limit);
      && Descending(s) && |s| <= limit
      && (forall r | r in s :: r in Matching(rows, f))
      && (|s| < limit ==> forall r | r in Matching(rows, f) :: r in s)
      && (forall r, i | r in Matching(rows, f) && r !in s && 0 <= i < |s| :: Below(PositionOf(r), PositionOf(s[i])))
  {
    hide Matching, Below, PositionOf, DistinctIds;
    MatchingIsDistinct(rows, f);
    var m := Matching(rows, f);
    NewestFirstSorts(m);
    var all := NewestFirst(m);
    var s := Listed(rows, f, limit);
    forall r, i | r in m && r !in s && 0 <= i < |s| ensures Below(PositionOf(r), PositionOf(s[i])) {
      var k :| 0 <= k < |all| && all[k] == r;
      assert forall x | 0 <= x < |s| :: s[x] == all[x];
      assert k >= |s|;
      assert all[i] == s[i];
    }
  }

  function InStatus(rows: map<Id, Row>, statuses: set<Status>): set<Row> {
    set id | id in rows && rows[id].status in statuses :: rows[id]
  }

  function Backwards(s: seq<Row>): seq<Row> {
    seq(|s|, i requires 0 <= i < |s| => s[|s| - 1 - i])
  }

  lemma BackwardsAscends(s: seq<Row>)
    requires Descending(s)
    ensures |Backwards(s)| == |s|
    ensures forall i, j | 0 <= i < j < |s| :: Below(PositionOf(Backwards(s)[i]), PositionOf(Backwards(s)[j]))
    ensures forall r :: r in Backwards(s) <==> r in s
  {
    hide Below;
    forall r | r in s ensures r in Backwards(s) {
      var k :| 0 <= k < |s| && s[k] == r;
      assert Backwards(s)[|s| - 1 - k] == r;
    }
  }

  /** ORDER BY created_at, id over the rows in the given statuses. */
  function OldestFirst(rows: map<Id, Row>, statuses: set<Status>): seq<Row>
    requires KeyedById(rows)
  {
    InStatusIsDistinct(rows, statuses);
    Backwards(NewestFirst(InStatus(rows, statuses)))
  }

  lemma InStatusIsDistinct(rows: map<Id, Row>, statuses: set<Status>)
    requires KeyedById(rows)
    ensures DistinctIds(InStatus(rows, statuses))
  {
  }

  lemma OldestFirstIsExact(rows: map<Id, Row>, statuses: set<Status>)
    requires KeyedById(rows)
    ensures var s := OldestFirst(rows, statuses);
      && (forall r | r in s :: r.id in rows && rows[r.id] == r && r.status in statuses)
      && (forall id | id in rows && rows[id].status in statuses :: rows[id] in s)
      && (forall i, j | 0 <= i < j < |s| :: Below(PositionOf(s[i]), PositionOf(s[j])))
  {
    hide Below, DistinctIds, Descending, Backwards;
    InStatusIsDistinct(rows, statuses);
    NewestFirstSorts(InStatus(rows, statuses));
    BackwardsAscends(NewestFirst(InStatus(rows, statuses)));
    forall id | id in rows && rows[id].status in statuses ensures rows[id] in OldestFirst(rows, statuses) {
      assert rows[id] in InStatus(rows, statuses);
    }
  }

  datatype Page = Page(intents: seq<Row>, nextCursor: Option<Position>)

  /** One page: limit rows out of limit + 1 requested, and a cursor when there was one more. */
  function PageOf(rows: map<Id, Row>, f: ListFilter, limit: nat): Page
    requires KeyedById(rows)
  {
    var found := Listed(rows, f, limit + 1);
    var page := if |found| <= limit then found else found[..limit];
    Page(page, if |found| > limit && |page| > 0 then Some(PositionOf(page[|page| - 1])) else None)
  }

  /** A page answers the query; its cursor stands at its last row, exactly when something was left out. */
  ghost predicate PageAnswers(p: Page, rows: map<Id, Row>, f: ListFilter, limit: nat) {
    && Answers(p.intents, rows, f, limit)
    && (p.nextCursor.Some? ==>
          |p.intents| > 0 && p.nextCursor.value == Position(p.intents[|p.intents| - 1].createdAt, p.intents[|p.intents| - 1].id))
    && (limit > 0 ==> (p.nextCursor.Some? <==> exists id :: id in rows && IsAskedFor(rows[id], f) && rows[id] !in p.intents))
  }

  lemma PageIsAnswer(rows: map<Id, Row>, f: ListFilter, limit: nat)
    requires KeyedById(rows)
    ensures PageAnswers(PageOf(rows, f, limit), rows, f, limit)
  {
    hide Listed, IsAskedFor, Matches;
    ListedAnswers(rows, f, limit + 1);
    var found, p := Listed(rows, f, limit + 1), PageOf(rows, f, limit);
    if |found| > limit {
      var last := found[limit];
      assert last in found && p.intents == found[..limit];
      assert last !in p.intents;
      forall id | id in rows && IsAskedFor(rows[id], f) && rows[id] !in p.intents ensures LiesBelowAll(rows[id], p.intents) {
        LeftOutIsBelow(rows[id], found, limit);
      }
      assert last.id in rows && IsAskedFor(rows[last.id], f) && rows[last.id] !in p.intents;
    }
  }

  lemma LeftOutIsBelow(r: Row, found: seq<Row>, limit: nat)
    requires |found| == limit + 1 && NewestComeFirst(found) && r !in found[..limit]
    requires r !in found ==> LiesBelowAll(r, found)
    ensures LiesBelowAll(r, found[..limit])
  {
    if r in found {
      assert r == found[limit];
    }
  }

  // ---- following the cursors ---------------------------------------------------------------

  /** Rows only age and are never deleted. */
  ghost predicate Ages(a: map<Id, Row>, b: map<Id, Row>) {
    forall id | id in a :: id in b && Older(a[id], b[id])
  }

  /** The filter of page k: the client's filter, continued at the previous page's cursor. */
  ghost function PageFilter(f: ListFilter, pages: seq<Page>, k: nat): ListFilter
    requires k <= |pages|
  {
    if k == 0 then f.(before := None) else f.(before := pages[k - 1].nextCursor)
  }

  /**
   * A client that follows nextCursor: page k is read from the table as it stands at that moment,
   * `tables[k]`; between two pages rows may be inserted anywhere and existing rows may age.
   */
  ghost predicate Walk(tables: seq<map<Id, Row>>, f: ListFilter, limit: nat, pages: seq<Page>) {
    && |pages| == |tables| > 0 && limit >= 1
    && (forall k | 0 <= k < |tables| :: KeyedById(tables[k]))
    && (forall k | 0 < k < |tables| :: Ages(tables[k - 1], tables[k]))
    && (forall k | 0 <= k < |pages| :: pages[k] == PageOf(tables[k], PageFilter(f, pages, k), limit))
    && (forall k | 0 <= k < |pages| - 1 :: pages[k].nextCursor.Some?)
  }

  /** Everything the first `n` pages showed, in order. */
  ghost function Shown(pages: seq<Page>, n: nat): seq<Row>
    requires n <= |pages|
  {
    if n == 0 then [] else Shown(pages, n - 1) + pages[n - 1].intents
  }

  lemma PageFacts(rows: map<Id, Row>, f: ListFilter, limit: nat)
    requires KeyedById(rows) && limit >= 1
    ensures var p := PageOf(rows, f, limit);
      && Descending(p.intents)
      && (forall r | r in p.intents :: r in Matching(rows, f))
      && (p.nextCursor.Some? ==>
            && |p.intents| == limit
            && p.nextCursor.value == PositionOf(p.intents[limit - 1])
            && forall r | r in Matching(rows, f) && !Below(PositionOf(r), p.nextCursor.value) :: r in p.intents)
      && (p.nextCursor.None? ==> forall r | r in Matching(rows, f) :: r in p.intents)
  {
    hide Below, Matching;
    ListedFacts(rows, f, limit + 1);
    var found := Listed(rows, f, limit + 1);
    var p := PageOf(rows, f, limit);
    if |found| > limit {
      var last := found[limit - 1];
      assert p.intents == found[..limit] && p.intents[limit - 1] == last;
      forall r | r in Matching(rows, f) && !Below(PositionOf(r), PositionOf(last)) ensures r in p.intents {
        var i :| 0 <= i < |found| && found[i] == r;
        assert i < limit;
        assert p.intents[i] == r;
      }
    }
  }

  lemma WalkShape(tables: seq<map<Id, Row>>, f: ListFilter, limit: nat, pages: seq<Page>)
    requires Walk(tables, f, limit, pages)
    ensures |pages| == |tables| > 0
    ensures forall k | 0 <= k < |pages| - 1 :: pages[k].nextCursor.Some?
  {
  }

  lemma PositionIsKept(tables: seq<map<Id, Row>>, f: ListFilter, limit: nat, pages: seq<Page>, k: nat, id: Id)
    requires Walk(tables, f, limit, pages) && 0 < k < |tables| && id in tables[k - 1]
    ensures id in tables[k] && PositionOf(tables[k][id]) == PositionOf(tables[k - 1][id])
  {
    hide Matches, PageOf;
    assert Ages(tables[k - 1], tables[k]);
  }

  lemma {:induction false} TableAges(tables: seq<map<Id, Row>>, f: ListFilter, limit: nat, pages: seq<Page>, k: nat, id: Id)
    requires Walk(tables, f, limit, pages) && k < |tables| && id in tables[0]
    ensures id in tables[k] && Older(tables[0][id], tables[k][id])
  {
    hide Older;
    if k == 0 {
      RowIsOlder(tables[0][id]);
    } else {
      TableAges(tables, f, limit, pages, k - 1, id);
      assert Ages(tables[k - 1], tables[k]);
      OlderIsTransitive(tables[0][id], tables[k - 1][id], tables[k][id]);
    }
  }

  lemma RowIsOlder(r: Row)
    ensures Older(r, r)
  {
  }

  /** A page shows only rows below the cursor it was asked with, and the rest lies below its own. */
  lemma PageOfWalk(tables: seq<map<Id, Row>>, f: ListFilter, limit: nat, pages: seq<Page>, k: nat)
    requires Walk(tables, f, limit, pages) && k < |pages|
    ensures Descending(pages[k].intents)
    ensures forall r | r in pages[k].intents :: r.id in tables[k] && tables[k][r.id] == r
    ensures k > 0 ==> pages[k - 1].nextCursor.Some?
    ensures k > 0 ==> forall r | r in pages[k].intents :: Below(PositionOf(r), pages[k - 1].nextCursor.value)
    ensures pages[k].nextCursor.Some? ==>
      && |pages[k].intents| == limit && limit >= 1
      && pages[k].nextCursor.value == PositionOf(pages[k].intents[limit - 1])
    ensures forall id | id in tables[k] && Matches(tables[k][id], PageFilter(f, pages, k)) ::
      tables[k][id] in pages[k].intents
      || (pages[k].nextCursor.Some? && Below(PositionOf(tables[k][id]), pages[k].nextCursor.value))
  {
    hide Below, PageOf, Older, Descending;
    PageFacts(tables[k], PageFilter(f, pages, k), limit);
    assert k > 0 ==> pages[k - 1].nextCursor.Some?;
  }

  /** Everything shown so far is strictly descending and not below the next cursor. */
  lemma {:induction false} ShownDescends(tables: seq<map<Id, Row>>, f: ListFilter, limit: nat, pages: seq<Page>, n: nat)
    requires Walk(tables, f, limit, pages) && 1 <= n <= |pages|
    ensures Descending(Shown(pages, n))
    ensures forall r | r in Shown(pages, n) && pages[n - 1].nextCursor.Some? ::
      !Below(PositionOf(r), pages[n - 1].nextCursor.value)
  {
    hide Below, Matches, PageOf, Walk, Descending, PageFilter;
    PageOfWalk(tables, f, limit, pages, n - 1);
    var page := pages[n - 1].intents;
    if n > 1 {
      ShownDescends(tables, f, limit, pages, n - 1);
      AppendDescends(Shown(pages, n - 1), page, pages[n - 2].nextCursor.value);
    } else {
      assert Shown(pages, 0) + page == page;
    }
    if pages[n - 1].nextCursor.Some? {
      LastIsLowest(Shown(pages, n - 1), page);
    }
  }

  lemma AppendDescends(s: seq<Row>, t: seq<Row>, cursor: Position)
    requires Descending(s) && Descending(t)
    requires forall r | r in s :: !Below(PositionOf(r), cursor)
    requires forall r | r in t :: Below(PositionOf(r), cursor)
    ensures Descending(s + t)
  {
    forall i, j | 0 <= i < j < |s + t| ensures Below(PositionOf((s + t)[j]), PositionOf((s + t)[i])) {
      if j >= |s| && i < |s| {
        assert (s + t)[j] in t && (s + t)[i] in s;
      }
    }
  }

  lemma LastIsLowest(s: seq<Row>, t: seq<Row>)
    requires |t| > 0 && Descending(s + t)
    ensures forall r | r in s + t :: !Below(PositionOf(r), PositionOf(t[|t| - 1]))
  {
    var all := s + t;
    assert all[|all| - 1] == t[|t| - 1];
    forall r | r in all ensures !Below(PositionOf(r), PositionOf(t[|t| - 1])) {
      var i :| 0 <= i < |all| && all[i] == r;
    }
  }

  ghost predicate ShownId(s: seq<Row>, id: Id) {
    exists i :: 0 <= i < |s| && s[i].id == id
  }

  /** The intent matches the client's filter in each of the first `n` tables. */
  ghost predicate KeepsMatching(tables: seq<map<Id, Row>>, f: ListFilter, n: nat, id: Id)
    requires n <= |tables|
  {
    forall k | 0 <= k < n :: id in tables[k] && IsAskedFor(tables[k][id], f.(before := None))
  }

  lemma SameMatch(r: Row, f: ListFilter, before: Option<Position>)
    requires Matches(r, f.(before := None))
    requires before.Some? ==> Below(PositionOf(r), before.value)
    ensures Matches(r, f.(before := before))
  {
  }

  /** Type and account never change, so without a status filter a match is a match for good. */
  lemma MatchesForGood(tables: seq<map<Id, Row>>, f: ListFilter, limit: nat, pages: seq<Page>, id: Id)
    requires Walk(tables, f, limit, pages) && f.status.None?
    requires id in tables[0] && IsAskedFor(tables[0][id], f.(before := None))
    ensures KeepsMatching(tables, f, |tables|, id)
  {
    hide Walk;
    forall k | 0 <= k < |tables| ensures id in tables[k] && IsAskedFor(tables[k][id], f.(before := None)) {
      TableAges(tables, f, limit, pages, k, id);
    }
  }

  /** An intent that keeps matching is shown by page n or still lies below its cursor. */
  lemma {:induction false} NothingIsSkipped(tables: seq<map<Id, Row>>, f: ListFilter, limit: nat, pages: seq<Page>, n: nat, id: Id)
    requires Walk(tables, f, limit, pages) && 1 <= n <= |pages| == |tables|
    requires KeepsMatching(tables, f, n, id)
    ensures id in tables[0]
    ensures ShownId(Shown(pages, n), id)
      || (pages[n - 1].nextCursor.Some? && Below(PositionOf(tables[0][id]), pages[n - 1].nextCursor.value))
  {
    hide Below, Matches, PageOf, Walk, Descending, Older, PositionOf;
    WalkShape(tables, f, limit, pages);
    PositionForGood(tables, f, limit, pages, n - 1, id);
    PageOfWalk(tables, f, limit, pages, n - 1);
    KeyedRow(tables, f, limit, pages, n - 1, id);
    var r := tables[n - 1][id];
    if n > 1 {
      NothingIsSkipped(tables, f, limit, pages, n - 1, id);
    }
    if n > 1 && ShownId(Shown(pages, n - 1), id) {
      KeepsShown(Shown(pages, n - 1), pages[n - 1].intents, id);
    } else {
      MatchesExactlyWhen(r, f.(before := None));
      SameMatch(r, f, PageFilter(f, pages, n - 1).before);
      if r in pages[n - 1].intents {
        NowShown(Shown(pages, n - 1), pages[n - 1].intents, r);
      }
    }
  }

  lemma PositionForGood(tables: seq<map<Id, Row>>, f: ListFilter, limit: nat, pages: seq<Page>, k: nat, id: Id)
    requires Walk(tables, f, limit, pages) && k < |tables| && id in tables[0]
    ensures id in tables[k] && PositionOf(tables[k][id]) == PositionOf(tables[0][id])
  {
    hide Walk;
    TableAges(tables, f, limit, pages, k, id);
  }

  lemma KeepsShown(s: seq<Row>, t: seq<Row>, id: Id)
    requires ShownId(s, id)
    ensures ShownId(s + t, id)
  {
    var i :| 0 <= i < |s| && s[i].id == id;
    assert (s + t)[i].id == id;
  }

  lemma NowShown(s: seq<Row>, t: seq<Row>, r: Row)
    requires r in t
    ensures ShownId(s + t, r.id)
  {
    var i :| 0 <= i < |t| && t[i] == r;
    assert (s + t)[|s| + i].id == r.id;
  }

  lemma KeyedRow(tables: seq<map<Id, Row>>, f: ListFilter, limit: nat, pages: seq<Page>, k: nat, id: Id)
    requires Walk(tables, f, limit, pages) && k < |tables| && id in tables[k]
    ensures tables[k][id].id == id
  {
  }

  /** Every shown intent is still in the latest table, at the position it was shown at. */
  lemma {:induction false} ShownStaysInTable(tables: seq<map<Id, Row>>, f: ListFilter, limit: nat, pages: seq<Page>, n: nat, r: Row)
    requires Walk(tables, f, limit, pages) && 1 <= n <= |pages| && r in Shown(pages, n)
    ensures r.id in tables[n - 1] && PositionOf(tables[n - 1][r.id]) == PositionOf(r)
  {
    hide Walk, Matches, Descending, Below, PageFilter, PositionOf;
    WalkShape(tables, f, limit, pages);
    PageOfWalk(tables, f, limit, pages, n - 1);
    if r !in pages[n - 1].intents {
      ShownStaysInTable(tables, f, limit, pages, n - 1, r);
      PositionIsKept(tables, f, limit, pages, n - 1, r.id);
    }
  }

  /** Full pages: n pages that all had a cursor showed n * limit intents, all still in the table. */
  lemma {:induction false} FullPagesCount(tables: seq<map<Id, Row>>, f: ListFilter, limit: nat, pages: seq<Page>, n: nat)
    requires Walk(tables, f, limit, pages) && n <= |pages|
    requires n > 0 ==> pages[n - 1].nextCursor.Some?
    ensures |Shown(pages, n)| == n * limit
  {
    hide Walk, Matches, Descending, Below, PageFilter, PositionOf;
    WalkShape(tables, f, limit, pages);
    if n > 0 {
      PageOfWalk(tables, f, limit, pages, n - 1);
      FullPagesCount(tables, f, limit, pages, n - 1);
      OneMorePage(n - 1, limit);
    }
  }

  lemma OneMorePage(n: nat, limit: nat)
    ensures (n + 1) * limit == n * limit + limit
  {
  }

  lemma {:induction false} DistinctIdsCount(s: seq<Row>, ids: set<Id>)
    requires forall i, j | 0 <= i < j < |s| :: s[i].id != s[j].id
    requires forall r | r in s :: r.id in ids
    ensures |s| <= |ids|
  {
    if s != [] {
      var last := s[|s| - 1];
      forall r | r in s[..|s| - 1] ensures r.id in ids - {last.id} {
        var i :| 0 <= i < |s| - 1 && s[i] == r;
      }
      DistinctIdsCount(s[..|s| - 1], ids - {last.id});
    }
  }

  /** No intent is shown twice. */
  lemma NothingIsRepeated(tables: seq<map<Id, Row>>, f: ListFilter, limit: nat, pages: seq<Page>, n: nat)
    requires Walk(tables, f, limit, pages) && 1 <= n <= |pages|
    ensures forall i, j | 0 <= i < j < |Shown(pages, n)| :: Shown(pages, n)[i].id != Shown(pages, n)[j].id
  {
    hide Walk;
    ShownDescends(tables, f, limit, pages, n);
    var s := Shown(pages, n);
    forall i, j | 0 <= i < j < |s| ensures s[i].id != s[j].id {
      ShownStaysInTable(tables, f, limit, pages, n, s[i]);
      ShownStaysInTable(tables, f, limit, pages, n, s[j]);
      assert Below(PositionOf(s[j]), PositionOf(s[i]));
    }
  }

  lemma {:induction false} ShownWasAskedFor(tables: seq<map<Id, Row>>, f: ListFilter, limit: nat, pages: seq<Page>, n: nat)
    requires Walk(tables, f, limit, pages) && n <= |pages|
    ensures forall r | r in Shown(pages, n) :: IsAskedFor(r, f.(before := None))
  {
    hide Walk, IsAskedFor;
    if n > 0 {
      ShownWasAskedFor(tables, f, limit, pages, n - 1);
      PageWasAskedFor(tables, f, limit, pages, n - 1);
    }
  }

  lemma PageWasAskedFor(tables: seq<map<Id, Row>>, f: ListFilter, limit: nat, pages: seq<Page>, k: nat)
    requires Walk(tables, f, limit, pages) && k < |pages|
    ensures forall r | r in pages[k].intents :: IsAskedFor(r, f.(before := None))
  {
    hide PageOf, IsAskedFor, Ages, NewestComeFirst, LiesBelowAll;
    PageIsAnswer(tables[k], PageFilter(f, pages, k), limit);
    forall r | r in pages[k].intents ensures IsAskedFor(r, f.(before := None)) {
      AskedWithoutCursor(r, PageFilter(f, pages, k));
    }
  }

  lemma AskedWithoutCursor(r: Row, f: ListFilter)
    requires IsAskedFor(r, f)
    ensures IsAskedFor(r, f.(before := None))
  {
  }

  /**
   * Following nextCursor until it is null shows every intent that matches the filter throughout
   * exactly once, newest first, for any page size and any inserts between the pages. Without a
   * status filter those are all the matching intents that existed at the start.
   */
  lemma PagingIsComplete(tables: seq<map<Id, Row>>, f: ListFilter, limit: nat, pages: seq<Page>)
    requires Walk(tables, f, limit, pages) && pages[|pages| - 1].nextCursor.None?
    ensures NewestComeFirst(Shown(pages, |pages|))
    ensures forall r | r in Shown(pages, |pages|) :: IsAskedFor(r, f.(before := None))
    ensures forall i, j | 0 <= i < j < |Shown(pages, |pages|)| ::
      Shown(pages, |pages|)[i].id != Shown(pages, |pages|)[j].id
    ensures forall id | KeepsMatching(tables, f, |tables|, id) :: ShownId(Shown(pages, |pages|), id)
    ensures f.status.None? ==> forall id | id in tables[0] && IsAskedFor(tables[0][id], f.(before := None)) ::
      ShownId(Shown(pages, |pages|), id)
  {
    hide Walk, Matches, IsAskedFor, Descending, NewestComeFirst, KeepsMatching;
    WalkShape(tables, f, limit, pages);
    ShownDescends(tables, f, limit, pages, |pages|);
    DescendingExactlyWhen(Shown(pages, |pages|));
    ShownWasAskedFor(tables, f, limit, pages, |pages|);
    NothingIsRepeated(tables, f, limit, pages, |pages|);
    forall id | KeepsMatching(tables, f, |tables|, id) ensures ShownId(Shown(pages, |pages|), id) {
      NothingIsSkipped(tables, f, limit, pages, |pages|, id);
    }
    if f.status.None? {
      forall id | id in tables[0] && IsAskedFor(tables[0][id], f.(before := None))
        ensures ShownId(Shown(pages, |pages|), id)
      {
        MatchesForGood(tables, f, limit, pages, id);
      }
    }
  }

  /** The intents that lie below `cursor` in a table. */
  ghost function IdsBelow(rows: map<Id, Row>, cursor: Position): set<Id> {
    set id | id in rows && Below(PositionOf(rows[id]), cursor)
  }

  /** The intents inserted below `cursor` between two tables. */
  ghost function InsertedBelow(first: map<Id, Row>, last: map<Id, Row>, cursor: Position): set<Id> {
    IdsBelow(last, cursor) - first.Keys
  }

  /**
   * Paging ends. Beyond its first page a walk has no more cursors than full pages fit into the
   * intents that lay below the first cursor at the start or were inserted below it since; when
   * inserts are newer than the first cursor, the first table alone bounds the walk.
   */
  lemma PagingEnds(tables: seq<map<Id, Row>>, f: ListFilter, limit: nat, pages: seq<Page>)
    requires Walk(tables, f, limit, pages) && pages[|pages| - 1].nextCursor.Some?
    ensures |pages| * limit <= |tables[|pages| - 1]|
    ensures pages[0].nextCursor.Some?
    ensures var cursor := pages[0].nextCursor.value; var last := tables[|pages| - 1];
      && (|pages| - 1) * limit <= |IdsBelow(tables[0], cursor)| + |InsertedBelow(tables[0], last, cursor)|
      && ((forall id | id in last && id !in tables[0] :: !Below(PositionOf(last[id]), cursor)) ==>
            (|pages| - 1) * limit <= |IdsBelow(tables[0], cursor)|)
  {
    hide Walk, Below, IdsBelow, InsertedBelow, PositionOf;
    FitsIntoTable(tables, f, limit, pages);
    CursorsAreSome(tables, f, limit, pages);
    var cursor, n := pages[0].nextCursor.value, |pages|;
    BeyondTheFirstPage(tables, f, limit, pages);
    IdsBelowGrow(tables, f, limit, pages, cursor);
    NothingInserted(tables[0], tables[n - 1], cursor);
  }

  lemma CursorsAreSome(tables: seq<map<Id, Row>>, f: ListFilter, limit: nat, pages: seq<Page>)
    requires Walk(tables, f, limit, pages) && pages[|pages| - 1].nextCursor.Some?
    ensures |tables| == |pages| > 0 && pages[0].nextCursor.Some?
  {
    hide PageOf, PageFilter, Ages;
  }

  lemma NothingInserted(first: map<Id, Row>, last: map<Id, Row>, cursor: Position)
    ensures (forall id | id in last && id !in first :: !Below(PositionOf(last[id]), cursor)) ==>
      InsertedBelow(first, last, cursor) == {}
  {
    hide Below, PositionOf;
  }

  /** What lies below a cursor at the end lay there at the start or was inserted since. */
  lemma IdsBelowGrow(tables: seq<map<Id, Row>>, f: ListFilter, limit: nat, pages: seq<Page>, cursor: Position)
    requires Walk(tables, f, limit, pages)
    ensures |tables| > 0
    ensures var (first, last) := (tables[0], tables[|tables| - 1]);
      |IdsBelow(last, cursor)| == |IdsBelow(first, cursor)| + |InsertedBelow(first, last, cursor)|
  {
    hide Walk, Below, PositionOf;
    WalkShape(tables, f, limit, pages);
    var first, last := tables[0], tables[|tables| - 1];
    forall id | id in first ensures id in last && PositionOf(last[id]) == PositionOf(first[id]) {
      PositionForGood(tables, f, limit, pages, |tables| - 1, id);
    }
    assert IdsBelow(last, cursor) == IdsBelow(first, cursor) + InsertedBelow(first, last, cursor);
  }

  lemma {:induction false} FirstPageComesFirst(tables: seq<map<Id, Row>>, f: ListFilter, limit: nat, pages: seq<Page>, n: nat)
    requires Walk(tables, f, limit, pages) && 1 <= n <= |pages|
    ensures pages[0].intents <= Shown(pages, n)
  {
    hide Walk;
    if n > 1 {
      FirstPageComesFirst(tables, f, limit, pages, n - 1);
    }
  }

  lemma BeyondTheFirstPage(tables: seq<map<Id, Row>>, f: ListFilter, limit: nat, pages: seq<Page>)
    requires Walk(tables, f, limit, pages) && |pages| == |tables| > 0
    requires pages[0].nextCursor.Some? && pages[|pages| - 1].nextCursor.Some?
    ensures (|pages| - 1) * limit <= |IdsBelow(tables[|pages| - 1], pages[0].nextCursor.value)|
  {
    hide Walk, Below, PositionOf, Matches, PageFilter;
    var n := |pages|;
    var shown, last := Shown(pages, n), tables[n - 1];
    PageOfWalk(tables, f, limit, pages, 0);
    FirstPageComesFirst(tables, f, limit, pages, n);
    FullPagesCount(tables, f, limit, pages, n);
    NothingIsRepeated(tables, f, limit, pages, n);
    ShownDescends(tables, f, limit, pages, n);
    assert shown[limit - 1] == pages[0].intents[limit - 1];
    var rest := shown[limit..];
    forall r | r in rest ensures r.id in IdsBelow(last, pages[0].nextCursor.value) {
      var i :| 0 <= i < |rest| && rest[i] == r;
      assert r == shown[limit + i];
      ShownStaysInTable(tables, f, limit, pages, n, r);
    }
    DistinctIdsCount(rest, IdsBelow(last, pages[0].nextCursor.value));
    OneMorePage(n - 1, limit);
  }

  lemma FitsIntoTable(tables: seq<map<Id, Row>>, f: ListFilter, limit: nat, pages: seq<Page>)
    requires Walk(tables, f, limit, pages) && pages[|pages| - 1].nextCursor.Some?
    ensures |pages| * limit <= |tables[|pages| - 1]|
  {
    hide Descending, PageOf, Matches;
    var n := |pages|;
    FullPagesCount(tables, f, limit, pages, n);
    NothingIsRepeated(tables, f, limit, pages, n);
    forall r | r in Shown(pages, n) ensures r.id in tables[n - 1].Keys {
      ShownStaysInTable(tables, f, limit, pages, n, r);
    }
    DistinctIdsCount(Shown(pages, n), tables[n - 1].Keys);
  }
}
