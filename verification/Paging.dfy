/** Listing the recorded requests page by page while the table grows. */
module Paging {
  import opened Basics

  type Time = int

  /** Where a row stands in the listing: rows are ordered by time and then by id. */
  datatype Place = Place(at: Time, id: nat)

  datatype Row = Row(place: Place, key: nat)

  datatype Scope = NoScope | Master | OneKey(key: nat)

  datatype Query = Query(scope: Scope, from: Time, to: Time, limit: int, cursor: string, maxWindow: int)

  datatype Refusal = NotScoped | RangeTooWide | BadCursor

  datatype Page = Page(data: seq<Row>, next: Option<string>)

  datatype Result = Listed(page: Page) | Refused(why: Refusal)

  predicate Below(a: Place, b: Place) {
    a.at < b.at || (a.at == b.at && a.id < b.id)
  }

  // ----- cursors -----------------------------------------------------------

  /** How times and ids are written and read. */
  datatype Format = Format(
    time: Time -> string, readTime: string -> Option<Time>,
    id: nat -> string, readId: string -> Option<nat>)

  ghost predicate Faithful(f: Format) {
    && (forall t :: f.readTime(f.time(t)) == Some(t) && '|' !in f.time(t))
    && (forall n: nat :: f.readId(f.id(n)) == Some(n))
  }

  function EncodeCursor(f: Format, p: Place): string {
    f.time(p.at) + "|" + f.id(p.id)
  }

  function FirstBar(s: string): (i: nat)
    ensures i <= |s| && (i < |s| ==> s[i] == '|') && forall j :: 0 <= j < i ==> s[j] != '|'
  {
    if s == "" || s[0] == '|' then 0 else 1 + FirstBar(s[1..])
  }

  function DecodeCursor(f: Format, s: string): Option<Place> {
    var i := FirstBar(s);
    if i == |s| then None
    else if f.readTime(s[..i]).None? || f.readId(s[i + 1..]).None? then None
    else Some(Place(f.readTime(s[..i]).value, f.readId(s[i + 1..]).value))
  }

  lemma CursorReadsBack(f: Format, p: Place)
    requires Faithful(f)
    ensures DecodeCursor(f, EncodeCursor(f, p)) == Some(p) && EncodeCursor(f, p) != ""
  {
    var s, t := EncodeCursor(f, p), f.time(p.at);
    assert s[|t|] == '|' && forall j :: 0 <= j < |t| ==> s[j] == t[j];
    assert FirstBar(s) == |t|;
    assert s[..|t|] == t && s[|t| + 1..] == f.id(p.id);
  }

  // ----- one page ----------------------------------------------------------

  function LimitOf(q: Query): nat {
    if q.limit <= 0 || q.limit > 1000 then 100 else q.limit
  }

  predicate Wanted(scope: Scope, from: Time, to: Time, r: Row) {
    from <= r.place.at < to && (scope.Master? || (scope.OneKey? && r.key == scope.key))
  }

  predicate Past(cursor: Option<Place>, p: Place) {
    cursor.Some? ==> Below(p, cursor.value)
  }

  /** What a listing from `cursor` on is still to show. */
  function Remaining(table: set<Row>, q: Query, cursor: Option<Place>): set<Row> {
    set r | r in table && Wanted(q.scope, q.from, q.to, r) && Past(cursor, r.place)
  }

  predicate Descending(rows: seq<Row>) {
    forall i, j :: 0 <= i < j < |rows| ==> Below(rows[j].place, rows[i].place)
  }

  /** The first rows of what remains, in order, and where to go on if there are
      more. */
  ghost predicate Shows(table: set<Row>, q: Query, cursor: Option<Place>, data: seq<Row>, next: Option<Place>) {
    && Descending(data) && |data| <= LimitOf(q)
    && (forall r :: r in data ==> r in Remaining(table, q, cursor))
    && (forall r :: r in Remaining(table, q, cursor) && r !in data ==> next.Some? && Below(r.place, next.value))
    && (next.Some? ==>
          && |data| == LimitOf(q) && next.value == data[|data| - 1].place
          && exists r :: r in Remaining(table, q, cursor) && Below(r.place, next.value))
  }

  /** The primary key. */
  predicate Keyed(table: set<Row>) {
    forall a, b :: a in table && b in table && a.place == b.place ==> a == b
  }

  /** The SELECT: the greatest rows first, at most `count`. */
  method Select(rows: set<Row>, count: nat) returns (out: seq<Row>)
    requires Keyed(rows)
    ensures Descending(out) && |out| <= count
    ensures forall r :: r in out ==> r in rows
    ensures |out| < count ==> forall r :: r in rows ==> r in out
    ensures forall r, s :: r in rows && r !in out && s in out ==> Below(r.place, s.place)
  {
    out := [];
    var left := rows;
    while left != {} && |out| < count
      invariant left <= rows && |out| <= count && Descending(out)
      invariant forall r :: r in out ==> r in rows && r !in left
      invariant forall r :: r in rows ==> r in out || r in left
      invariant forall r, s :: r in left && s in out ==> Below(r.place, s.place)
      decreases left
    {
      var last := Greatest(left);
      assert forall i :: 0 <= i < |out| ==> out[i] in out;
      out := out + [last];
      left := left - {last};
    }
  }

  method Greatest(rows: set<Row>) returns (g: Row)
    requires rows != {} && Keyed(rows)
    ensures g in rows && forall r :: r in rows && r != g ==> Below(r.place, g.place)
  {
    g :| g in rows;
    var rest := rows - {g};
    while rest != {}
      invariant g in rows && rest <= rows && g !in rest
      invariant forall r :: r in rows && r !in rest && r != g ==> Below(r.place, g.place)
      decreases rest
    {
      var r :| r in rest;
      assert r.place != g.place;
      rest := rest - {r};
      if Below(g.place, r.place) {
        g := r;
      }
    }
  }

  predicate InScope(q: Query) {
    !q.scope.NoScope? && !(q.maxWindow > 0 && q.to - q.from > q.maxWindow)
  }

  /** The place a query starts from, if its cursor can be read. */
  function Start(f: Format, cursor: string): Option<Option<Place>> {
    if cursor == "" then Some(None)
    else if DecodeCursor(f, cursor).Some? then Some(DecodeCursor(f, cursor))
    else None
  }

  lemma StartIs(f: Format, cursor: string)
    ensures Start(f, cursor).None? <==> cursor != "" && DecodeCursor(f, cursor).None?
  {
  }

  function Continuation(f: Format, next: Option<Place>): Option<string> {
    if next.None? then None else Some(EncodeCursor(f, next.value))
  }

  /** Rows of the table, of the time asked for, of no other key unless the caller may
      see them all, latest first and the greater id first among those of one time, and
      no more of them than asked for, or a hundred. */
  ghost predicate Serves(table: set<Row>, q: Query, data: seq<Row>) {
    && (forall r :: r in data ==>
          && r in table && q.from <= r.place.at && r.place.at < q.to
          && match q.scope
             case NoScope => false
             case Master => true
             case OneKey(key) => r.key == key)
    && (forall i, j :: 0 <= i < j < |data| ==>
          || data[j].place.at < data[i].place.at
          || (data[j].place.at == data[i].place.at && data[j].place.id < data[i].place.id))
    && |data| <= if 0 < q.limit <= 1000 then q.limit else 100
  }

  lemma ShownAreServed(table: set<Row>, q: Query, cursor: Option<Place>, data: seq<Row>, next: Option<Place>)
    requires Shows(table, q, cursor, data, next)
    ensures Serves(table, q, data)
  {
  }

  /** A row that a listing is still to show is exactly one of the table, of the time and
      of the key asked for, that comes after where the listing stands. */
  lemma RemainingExactly(table: set<Row>, q: Query, cursor: Option<Place>, r: Row)
    ensures r in Remaining(table, q, cursor)
       <==> && r in table && q.from <= r.place.at < q.to
            && (q.scope.Master? || q.scope == OneKey(r.key))
            && (cursor.Some? ==>
                  || r.place.at < cursor.value.at
                  || (r.place.at == cursor.value.at && r.place.id < cursor.value.id))
  {
  }

  method QueryRequests(table: set<Row>, f: Format, q: Query) returns (r: Result, ghost next: Option<Place>)
    requires Keyed(table)
    ensures r.Listed? <==> InScope(q) && Start(f, q.cursor).Some?
    ensures r == Refused(NotScoped) <==> q.scope.NoScope?
    ensures r == Refused(RangeTooWide) <==> !q.scope.NoScope? && !InScope(q)
    ensures r == Refused(BadCursor) <==> InScope(q) && Start(f, q.cursor).None?
    ensures r.Listed? ==>
      && InScope(q) && Start(f, q.cursor).Some?
      && Shows(table, q, Start(f, q.cursor).value, r.page.data, next)
      && r.page.next == Continuation(f, next)
    ensures r.Listed? ==>
      !q.scope.NoScope? && (q.maxWindow > 0 ==> q.to - q.from <= q.maxWindow)
      && (q.cursor != "" ==> DecodeCursor(f, q.cursor).Some?)
    ensures r.Listed? ==> Serves(table, q, r.page.data)
  {
    hide Descending, Below, Keyed, Shows, Serves, Remaining, Start;
    next := None;
    if q.scope.NoScope? {
      return Refused(NotScoped), next;
    }
    if q.maxWindow > 0 && q.to - q.from > q.maxWindow {
      return Refused(RangeTooWide), next;
    }
    var limit := q.limit;
    if limit <= 0 || limit > 1000 {
      limit := 100;
    }
    var start := Start(f, q.cursor);
    StartIs(f, q.cursor);
    if start.None? {
      return Refused(BadCursor), next;
    }
    KeyedPart(table, q, start.value);
    var rows := Select(Remaining(table, q, start.value), limit + 1);
    SelectedShow(table, q, start.value, rows);
    if |rows| > limit {
      var last := rows[limit - 1];
      next := Some(last.place);
      r := Listed(Page(rows[..limit], Some(EncodeCursor(f, last.place))));
    } else {
      r := Listed(Page(rows, None));
    }
    ShownAreServed(table, q, start.value, r.page.data, next);
  }

  /** One row beyond the page says that there is more. */
  lemma SelectedShow(table: set<Row>, q: Query, cursor: Option<Place>, rows: seq<Row>)
    requires Descending(rows) && |rows| <= LimitOf(q) + 1
    requires forall r :: r in rows ==> r in Remaining(table, q, cursor)
    requires |rows| <= LimitOf(q) ==> forall r :: r in Remaining(table, q, cursor) ==> r in rows
    requires forall r, s :: r in Remaining(table, q, cursor) && r !in rows && s in rows ==> Below(r.place, s.place)
    ensures
      var limit := LimitOf(q);
      if |rows| > limit then Shows(table, q, cursor, rows[..limit], Some(rows[limit - 1].place))
      else Shows(table, q, cursor, rows, None)
  {
    hide Descending, Below, Remaining;
    var limit := LimitOf(q);
    if |rows| > limit {
      Truncated(rows, limit);
      assert rows[limit] in rows && rows[limit - 1] in rows;
    }
  }

  lemma KeyedPart(table: set<Row>, q: Query, cursor: Option<Place>)
    requires Keyed(table)
    ensures Keyed(Remaining(table, q, cursor))
  {
  }

  lemma Truncated(rows: seq<Row>, n: nat)
    requires Descending(rows) && 0 < n && |rows| == n + 1
    ensures Descending(rows[..n]) && Below(rows[n].place, rows[n - 1].place)
    ensures forall r :: r in rows[..n] ==> r in rows
    ensures forall r :: r in rows && r !in rows[..n] ==> r == rows[n]
  {
  }

  // ----- a walk ------------------------------------------------------------

  /** One page of a walk: the table as it was then, what was shown, and where the
      walk goes on. */
  datatype Leaf = Leaf(table: set<Row>, data: seq<Row>, next: Option<Place>)

  /** Following the cursor from page to page, over tables that only grow, to the
      page without one. */
  ghost predicate Walk(q: Query, cursor: Option<Place>, leaves: seq<Leaf>)
    decreases |leaves|
  {
    && leaves != []
    && Keyed(leaves[0].table)
    && Shows(leaves[0].table, q, cursor, leaves[0].data, leaves[0].next)
    && (if leaves[0].next.None? then |leaves| == 1
        else |leaves| > 1 && leaves[0].table <= leaves[1].table && Walk(q, leaves[0].next, leaves[1..]))
  }

  function Shown(leaves: seq<Leaf>): seq<Row> {
    if leaves == [] then [] else leaves[0].data + Shown(leaves[1..])
  }

  /** The table at the time when the walk passed a place. */
  ghost function TableAt(leaves: seq<Leaf>, p: Place): set<Row>
    requires leaves != []
    decreases |leaves|
  {
    if |leaves| == 1 || leaves[0].next.None? || !Below(p, leaves[0].next.value) then leaves[0].table
    else TableAt(leaves[1..], p)
  }

  /** What the walk shows is exactly each wanted row that was in the table when the
      walk passed its place. */
  lemma {:induction false} WalkShowsExactly(q: Query, cursor: Option<Place>, leaves: seq<Leaf>, r: Row)
    requires Walk(q, cursor, leaves)
    ensures r in Shown(leaves)
       <==> r in TableAt(leaves, r.place) && Wanted(q.scope, q.from, q.to, r) && Past(cursor, r.place)
    decreases |leaves|
  {
    var first := leaves[0];
    assert r in first.data ==> r in Remaining(first.table, q, cursor);
    if first.next.None? {
      assert leaves[1..] == [];
    } else {
      WalkShowsExactly(q, first.next, leaves[1..], r);
      DownToNext(q, cursor, first, r);
      assert first.data != [] && first.data[|first.data| - 1] in Remaining(first.table, q, cursor);
    }
  }

  /** The rows of a page are those down to its last one. */
  lemma DownToNext(q: Query, cursor: Option<Place>, leaf: Leaf, r: Row)
    requires Keyed(leaf.table) && Shows(leaf.table, q, cursor, leaf.data, leaf.next) && leaf.next.Some?
    ensures r in leaf.data ==> !Below(r.place, leaf.next.value)
    ensures r in Remaining(leaf.table, q, cursor) && !Below(r.place, leaf.next.value) ==> r in leaf.data
  {
    if r in leaf.data {
      var i :| 0 <= i < |leaf.data| && leaf.data[i] == r;
      if i < |leaf.data| - 1 {
        assert Below(leaf.data[|leaf.data| - 1].place, r.place);
      }
    }
  }

  /** The rows come in strictly descending order, so none comes twice. */
  lemma {:induction false} WalkDescends(q: Query, cursor: Option<Place>, leaves: seq<Leaf>)
    requires Walk(q, cursor, leaves)
    ensures Descending(Shown(leaves))
    ensures forall r :: r in Shown(leaves) ==> Past(cursor, r.place)
    decreases |leaves|
  {
    var first := leaves[0];
    assert forall r :: r in first.data ==> r in Remaining(first.table, q, cursor);
    if first.next.None? {
      assert leaves[1..] == [] && Shown(leaves) == first.data;
    } else {
      var rest := Shown(leaves[1..]);
      WalkDescends(q, first.next, leaves[1..]);
      DescendingJoin(first.data, rest, first.next.value);
      assert first.data[|first.data| - 1] in first.data;
      NextIsPast(cursor, first.next.value, rest);
    }
  }

  lemma NextIsPast(cursor: Option<Place>, next: Place, rows: seq<Row>)
    requires Past(cursor, next) && forall r :: r in rows ==> Below(r.place, next)
    ensures forall r :: r in rows ==> Past(cursor, r.place)
  {
  }

  lemma DescendingJoin(a: seq<Row>, b: seq<Row>, p: Place)
    requires Descending(a) && Descending(b) && a != [] && a[|a| - 1].place == p
    requires forall r :: r in b ==> Below(r.place, p)
    ensures Descending(a + b)
  {
    forall i, j | 0 <= i < j < |a + b|
      ensures Below((a + b)[j].place, (a + b)[i].place)
    {
      if i < |a| <= j {
        assert (a + b)[j] in b;
        assert i == |a| - 1 || Below(a[|a| - 1].place, a[i].place);
      }
    }
  }

  lemma {:induction false} TablesGrow(q: Query, cursor: Option<Place>, leaves: seq<Leaf>, p: Place)
    requires Walk(q, cursor, leaves)
    ensures leaves[0].table <= TableAt(leaves, p)
    decreases |leaves|
  {
    if leaves[0].next.Some? {
      TablesGrow(q, leaves[0].next, leaves[1..], p);
    }
  }

  /** Every wanted row that was there from the first page on is shown exactly once,
      whatever is inserted in the meantime. */
  lemma PresentRowsAreShownOnce(q: Query, leaves: seq<Leaf>, r: Row)
    requires Walk(q, None, leaves) && r in leaves[0].table && Wanted(q.scope, q.from, q.to, r)
    ensures exists i :: 0 <= i < |Shown(leaves)| && Shown(leaves)[i] == r
    ensures forall i, j :: 0 <= i < j < |Shown(leaves)| ==> Shown(leaves)[i] != Shown(leaves)[j]
  {
    TablesGrow(q, None, leaves, r.place);
    WalkShowsExactly(q, None, leaves, r);
    WalkDescends(q, None, leaves);
  }

  // ----- an unchanging table -----------------------------------------------

  function PagesNeeded(rows: nat, limit: nat): nat
    requires limit > 0
  {
    if rows <= limit then 1 else 1 + PagesNeeded(rows - limit, limit)
  }

  lemma {:induction false} SetOf(rows: seq<Row>, all: set<Row>)
    requires Descending(rows) && forall r :: r in rows <==> r in all
    ensures |all| == |rows|
  {
    if rows == [] {
      assert all == {};
    } else {
      var last := rows[|rows| - 1];
      var front := rows[..|rows| - 1];
      assert last !in front;
      assert rows == front + [last];
      SetOf(front, all - {last});
      assert all == (all - {last}) + {last};
    }
  }

  /** After a page as many rows fewer remain as it showed. */
  lemma PageShrinks(q: Query, cursor: Option<Place>, leaf: Leaf)
    requires Keyed(leaf.table) && Shows(leaf.table, q, cursor, leaf.data, leaf.next) && leaf.next.Some?
    ensures |Remaining(leaf.table, q, leaf.next)| == |Remaining(leaf.table, q, cursor)| - |leaf.data|
    ensures |Remaining(leaf.table, q, leaf.next)| > 0
  {
    hide Descending, Below, Keyed, Remaining;
    var before, after := Remaining(leaf.table, q, cursor), Remaining(leaf.table, q, leaf.next);
    var shown := set r | r in leaf.data;
    SetOf(leaf.data, shown);
    ShownOrLeft(q, cursor, leaf);
    assert leaf.data[|leaf.data| - 1] in shown;
    assert before == shown + after;
    assert shown !! after;
    SizeOfUnion(shown, after);
    SomeLeft(q, cursor, leaf);
  }

  lemma SizeOfUnion(a: set<Row>, b: set<Row>)
    requires a !! b
    ensures |a + b| == |a| + |b|
  {
  }

  lemma SomeLeft(q: Query, cursor: Option<Place>, leaf: Leaf)
    requires Shows(leaf.table, q, cursor, leaf.data, leaf.next) && leaf.next.Some?
    ensures Remaining(leaf.table, q, leaf.next) != {}
  {
    var r :| r in Remaining(leaf.table, q, cursor) && Below(r.place, leaf.next.value);
    assert r in Remaining(leaf.table, q, leaf.next);
  }

  lemma ShownOrLeft(q: Query, cursor: Option<Place>, leaf: Leaf)
    requires Keyed(leaf.table) && Shows(leaf.table, q, cursor, leaf.data, leaf.next) && leaf.next.Some?
    ensures forall r :: r in Remaining(leaf.table, q, leaf.next)
                   <==> r in Remaining(leaf.table, q, cursor) && r !in leaf.data
  {
    assert leaf.data[|leaf.data| - 1] in Remaining(leaf.table, q, cursor);
    forall r
      ensures r in Remaining(leaf.table, q, leaf.next) <==> r in Remaining(leaf.table, q, cursor) && r !in leaf.data
    {
      DownToNext(q, cursor, leaf, r);
    }
  }

  lemma LastPage(q: Query, cursor: Option<Place>, leaf: Leaf)
    requires Shows(leaf.table, q, cursor, leaf.data, leaf.next) && leaf.next.None?
    ensures |Remaining(leaf.table, q, cursor)| == |leaf.data| <= LimitOf(q)
  {
    SetOf(leaf.data, Remaining(leaf.table, q, cursor));
  }

  /** On a table that does not change, the walk ends, after exactly as many pages as
      the rows fill. */
  lemma {:induction false} FixedWalkEnds(q: Query, cursor: Option<Place>, leaves: seq<Leaf>, table: set<Row>)
    requires Walk(q, cursor, leaves) && forall l :: l in leaves ==> l.table == table
    ensures |leaves| == PagesNeeded(|Remaining(table, q, cursor)|, LimitOf(q))
    decreases |leaves|
  {
    assert leaves[0] in leaves;
    if leaves[0].next.None? {
      LastPage(q, cursor, leaves[0]);
    } else {
      PageShrinks(q, cursor, leaves[0]);
      FixedWalkEnds(q, leaves[0].next, leaves[1..], table);
    }
  }

  // ----- following the cursors ---------------------------------------------

  /** A page as the client receives it, and the table it was read from. */
  datatype Sheet = Sheet(table: set<Row>, page: Page)

  /** What QueryRequests answers to this cursor. */
  ghost predicate Answers(f: Format, q: Query, cursor: string, sheet: Sheet, next: Option<Place>) {
    && Start(f, cursor).Some? && Keyed(sheet.table)
    && Shows(sheet.table, q, Start(f, cursor).value, sheet.page.data, next)
    && sheet.page.next == Continuation(f, next)
  }

  /** A client that sends each next_cursor back as it came, until it is null, while
      the table only grows. */
  ghost predicate Listing(f: Format, q: Query, cursor: string, sheets: seq<Sheet>)
    decreases |sheets|
  {
    && sheets != []
    && (exists next :: Answers(f, q, cursor, sheets[0], next))
    && (if sheets[0].page.next.None? then |sheets| == 1
        else
          && |sheets| > 1 && sheets[0].table <= sheets[1].table
          && Listing(f, q, sheets[0].page.next.value, sheets[1..]))
  }

  function Rows(sheets: seq<Sheet>): seq<Row> {
    if sheets == [] then [] else sheets[0].page.data + Rows(sheets[1..])
  }

  /** Every next_cursor is read back as the place it stands for, so following the
      cursors is a walk. */
  lemma {:induction false} ListingIsWalk(f: Format, q: Query, cursor: string, sheets: seq<Sheet>)
      returns (leaves: seq<Leaf>)
    requires Faithful(f) && Listing(f, q, cursor, sheets)
    ensures Start(f, cursor).Some? && Walk(q, Start(f, cursor).value, leaves)
    ensures Shown(leaves) == Rows(sheets) && |leaves| == |sheets|
    ensures forall i :: 0 <= i < |leaves| ==> leaves[i].table == sheets[i].table
    decreases |sheets|
  {
    hide Shows, Faithful, Keyed, DecodeCursor, EncodeCursor;
    var next :| Answers(f, q, cursor, sheets[0], next);
    var first := Leaf(sheets[0].table, sheets[0].page.data, next);
    if next.None? {
      leaves := [first];
      assert leaves[1..] == [] && sheets[1..] == [];
    } else {
      CursorReadsBack(f, next.value);
      var rest := ListingIsWalk(f, q, sheets[0].page.next.value, sheets[1..]);
      leaves := [first] + rest;
      assert leaves[1..] == rest;
    }
  }

  /** So whoever follows the cursors from the first page on sees every wanted row
      that was there from the start exactly once, in strictly descending order,
      whatever is inserted between the pages. */
  lemma FollowedCursorsShowAll(f: Format, q: Query, sheets: seq<Sheet>, r: Row)
    requires Faithful(f) && Listing(f, q, "", sheets)
    requires r in sheets[0].table && Wanted(q.scope, q.from, q.to, r)
    ensures Descending(Rows(sheets))
    ensures exists i :: 0 <= i < |Rows(sheets)| && Rows(sheets)[i] == r
    ensures forall i, j :: 0 <= i < j < |Rows(sheets)| ==> Rows(sheets)[i] != Rows(sheets)[j]
  {
    var leaves := ListingIsWalk(f, q, "", sheets);
    WalkDescends(q, None, leaves);
    PresentRowsAreShownOnce(q, leaves, r);
  }

  /** On a table that does not change it ends after as many pages as the rows fill. */
  lemma FollowedCursorsEnd(f: Format, q: Query, sheets: seq<Sheet>, table: set<Row>)
    requires Faithful(f) && Listing(f, q, "", sheets) && forall s :: s in sheets ==> s.table == table
    ensures |sheets| == PagesNeeded(|Remaining(table, q, None)|, LimitOf(q))
  {
    var leaves := ListingIsWalk(f, q, "", sheets);
    assert forall i :: 0 <= i < |sheets| ==> sheets[i] in sheets;
    FixedWalkEnds(q, None, leaves, table);
  }

  /** Follows the cursors over a table that does not change: it comes to an end, with
      all the wanted rows in order. */
  method ListAll(table: set<Row>, f: Format, q: Query) returns (rows: seq<Row>)
    requires Keyed(table) && Faithful(f) && InScope(q)
    ensures Descending(rows) && forall r :: r in rows <==> r in Remaining(table, q, None)
  {
    hide Serves, Shows, Below, Keyed, Faithful, Remaining, DecodeCursor, EncodeCursor;
    hide Descending, Continuation, InScope;
    NothingShown(f);
    ScopeAside(q);
    rows := [];
    var cursor := "";
    ghost var place: Option<Place> := None;
    while true
      invariant Start(f, cursor) == Some(place)
      invariant Descending(rows)
      invariant if place.None? then rows == [] else rows != [] && rows[|rows| - 1].place == place.value
      invariant forall r :: r in rows || r in Remaining(table, q, place) <==> r in Remaining(table, q, None)
      decreases |Remaining(table, q, place)|
    {
      var answer, next := QueryRequests(table, f, q.(cursor := cursor));
      var page := answer.page;
      CursorAside(table, q, cursor, place, page.data, next);
      StartsThere(f, next);
      PageJoins(table, q, place, page.data, next, rows);
      rows := rows + page.data;
      if page.next.None? {
        return;
      }
      cursor, place := page.next.value, next;
    }
  }

  /** What a query shows depends on the place its cursor stands for, and nothing else of
      the cursor. */
  lemma CursorAside(table: set<Row>, q: Query, cursor: string, place: Option<Place>,
                    data: seq<Row>, next: Option<Place>)
    ensures Shows(table, q.(cursor := cursor), place, data, next) <==> Shows(table, q, place, data, next)
  {
  }

  lemma ScopeAside(q: Query)
    ensures forall cursor :: InScope(q.(cursor := cursor)) <==> InScope(q)
  {
  }

  lemma NothingShown(f: Format)
    ensures Start(f, "") == Some(None) && Descending([])
  {
  }

  /** The next cursor starts where the page ends. */
  lemma StartsThere(f: Format, next: Option<Place>)
    requires Faithful(f)
    ensures Continuation(f, next).Some? <==> next.Some?
    ensures next.Some? ==> Start(f, Continuation(f, next).value) == Some(next)
  {
    if next.Some? {
      CursorReadsBack(f, next.value);
    }
  }

  lemma PageJoins(table: set<Row>, q: Query, place: Option<Place>, data: seq<Row>, next: Option<Place>, rows: seq<Row>)
    requires Keyed(table) && Shows(table, q, place, data, next)
    requires Descending(rows)
    requires if place.None? then rows == [] else rows != [] && rows[|rows| - 1].place == place.value
    ensures Descending(rows + data)
    ensures next.Some? ==>
      && rows + data != [] && (rows + data)[|rows + data| - 1].place == next.value
      && |Remaining(table, q, next)| < |Remaining(table, q, place)|
      && (forall r :: r in data || r in Remaining(table, q, next) <==> r in Remaining(table, q, place))
    ensures next.None? ==> forall r :: r in data <==> r in Remaining(table, q, place)
  {
    var leaf := Leaf(table, data, next);
    assert forall r :: r in data ==> r in Remaining(table, q, place);
    if place.Some? {
      DescendingJoin(rows, data, place.value);
    } else {
      assert rows + data == data;
    }
    if next.Some? {
      ShownOrLeft(q, place, leaf);
      PageShrinks(q, place, leaf);
    }
  }
}
