/**
 * Conversation navigation: rows ordered by attention, activity and Thread id, served in pages that
 * continue from a position rather than from a retained row. Cursors are base64url text, section 5 of
 * RFC 4648.
 */
module Navigation {
  import opened Common

  /** UTF-16 code units. */
  type Unit = x: nat | x < 0x10000
  type Text = seq<Unit>

  datatype State = Working | NeedsYou | Idle

  datatype Position = Position(state: State, lastActivityAt: Text, thread: Text)

  datatype Row = Row(position: Position, activity: string, unread: nat)

  // ----- The order -----

  predicate Less(a: Text, b: Text) {
    b != [] && (a == [] || a[0] < b[0] || (a[0] == b[0] && Less(a[1..], b[1..])))
  }

  function CompareCodeUnits(left: Text, right: Text): int {
    if Less(left, right) then -1 else if Less(right, left) then 1 else 0
  }

  function Active(p: Position): int { if p.state.Idle? then 0 else 1 }

  /** Negative when `left` comes first: attention first, then later activity, then the greater Thread id. */
  function Compare(left: Position, right: Position): int {
    if Active(right) != Active(left) then Active(right) - Active(left)
    else if CompareCodeUnits(right.lastActivityAt, left.lastActivityAt) != 0 then
      CompareCodeUnits(right.lastActivityAt, left.lastActivityAt)
    else CompareCodeUnits(right.thread, left.thread)
  }

  lemma {:induction false} LessTotal(a: Text, b: Text)
    ensures Less(a, b) || Less(b, a) || a == b
    ensures !(Less(a, b) && Less(b, a)) && (a == b ==> !Less(a, b))
    decreases |a|
  {
    if a != [] && b != [] {
      LessTotal(a[1..], b[1..]);
      if a[0] == b[0] && a[1..] == b[1..] {
        assert a == [a[0]] + a[1..] && b == [b[0]] + b[1..];
      }
    }
  }

  lemma {:induction false} LessTransitive(a: Text, b: Text, c: Text)
    requires Less(a, b) && Less(b, c)
    ensures Less(a, c)
    decreases |a|
  {
    if a != [] && a[0] == b[0] && b[0] == c[0] {
      LessTransitive(a[1..], b[1..], c[1..]);
    }
  }

  /** The sign of a comparison is antisymmetric, and equality leaves only the same place. */
  lemma CompareTotal(l: Position, r: Position)
    ensures Compare(l, r) == -Compare(r, l)
    ensures Compare(l, r) == 0 <==>
            Active(l) == Active(r) && l.lastActivityAt == r.lastActivityAt && l.thread == r.thread
  {
    LessTotal(l.lastActivityAt, r.lastActivityAt);
    LessTotal(l.thread, r.thread);
  }

  lemma CompareTransitive(a: Position, b: Position, c: Position)
    requires Compare(a, b) < 0 && Compare(b, c) <= 0
    ensures Compare(a, c) < 0
  {
    CompareTotal(b, c);
    LessTotal(a.lastActivityAt, b.lastActivityAt);
    LessTotal(b.lastActivityAt, c.lastActivityAt);
    LessTotal(a.lastActivityAt, c.lastActivityAt);
    LessTotal(a.thread, b.thread);
    LessTotal(b.thread, c.thread);
    if Less(c.lastActivityAt, b.lastActivityAt) && Less(b.lastActivityAt, a.lastActivityAt) {
      LessTransitive(c.lastActivityAt, b.lastActivityAt, a.lastActivityAt);
    }
    if Less(c.thread, b.thread) && Less(b.thread, a.thread) { LessTransitive(c.thread, b.thread, a.thread); }
  }

  // ----- Sorting and paging -----

  predicate Before(a: Row, b: Row) { Compare(a.position, b.position) < 0 }

  predicate Sorted(rows: seq<Row>) {
    forall i, j | 0 <= i < j < |rows| :: Before(rows[i], rows[j])
  }

  predicate DistinctThreads(rows: seq<Row>) {
    forall i, j | 0 <= i < j < |rows| :: rows[i].position.thread != rows[j].position.thread
  }

  /** Inserts a row into sorted rows. */
  function Insert(row: Row, rows: seq<Row>): seq<Row> {
    if rows == [] then [row] else if Before(row, rows[0]) then [row] + rows else [rows[0]] + Insert(row, rows[1..])
  }

  function SortRows(rows: seq<Row>): seq<Row> {
    if rows == [] then [] else Insert(rows[0], SortRows(rows[1..]))
  }

  lemma {:induction false} InsertKeeps(row: Row, rows: seq<Row>)
    ensures multiset(Insert(row, rows)) == multiset(rows) + multiset{row}
    decreases |rows|
  {
    if rows != [] {
      InsertKeeps(row, rows[1..]);
      assert rows == [rows[0]] + rows[1..];
    }
  }

  lemma {:induction false} InsertSorts(row: Row, rows: seq<Row>)
    requires Sorted(rows) && forall r <- rows :: r.position.thread != row.position.thread
    ensures Sorted(Insert(row, rows))
    decreases |rows|
  {
    if rows == [] {
    } else if Before(row, rows[0]) {
      forall i | 0 < i < |rows| ensures Before(row, rows[i]) {
        CompareTransitive(row.position, rows[0].position, rows[i].position);
      }
    } else {
      var rest := Insert(row, rows[1..]);
      InsertSorts(row, rows[1..]);
      InsertKeeps(row, rows[1..]);
      CompareTotal(row.position, rows[0].position);
      forall r <- rest ensures Before(rows[0], r) {
        assert r in multiset(rest);
        assert r in multiset(rows[1..]) || r == row;
      }
    }
  }

  /** The other rows, in whatever order, belong to other Threads than the first. */
  lemma OthersDiffer(rows: seq<Row>, rest: seq<Row>)
    requires rows != [] && DistinctThreads(rows) && multiset(rest) == multiset(rows[1..])
    ensures forall r <- rest :: r.position.thread != rows[0].position.thread
  {
    forall r <- rest ensures r.position.thread != rows[0].position.thread {
      assert r in multiset(rest);
      assert r in rows[1..];
    }
  }

  /** Sorting rearranges the rows into the strict order. */
  lemma {:induction false} SortSorts(rows: seq<Row>)
    requires DistinctThreads(rows)
    ensures Sorted(SortRows(rows)) && multiset(SortRows(rows)) == multiset(rows)
    decreases |rows|
  {
    if rows != [] {
      var rest := SortRows(rows[1..]);
      SortSorts(rows[1..]);
      OthersDiffer(rows, rest);
      InsertSorts(rows[0], rest);
      InsertKeeps(rows[0], rest);
      assert rows == [rows[0]] + rows[1..];
    }
  }

  predicate After(row: Row, position: Option<Position>) {
    position.None? || Compare(row.position, position.value) > 0
  }

  function Filter(rows: seq<Row>, position: Option<Position>): seq<Row> {
    if rows == [] then [] else (if After(rows[0], position) then [rows[0]] else []) + Filter(rows[1..], position)
  }

  function Remaining(rows: seq<Row>, position: Option<Position>): seq<Row> { Filter(SortRows(rows), position) }

  function Take(rows: seq<Row>, limit: Option<nat>): seq<Row> {
    if limit.None? || |rows| <= limit.value then rows else rows[..limit.value]
  }

  datatype Page = Page(items: seq<Row>, next: Option<Position>)

  /** One page: what follows the position, and a continuation only when rows are left. */
  function ReadPage(rows: seq<Row>, position: Option<Position>, limit: Option<nat>): Page {
    var remaining := Remaining(rows, position);
    var items := Take(remaining, limit);
    Page(items, if items != [] && |items| < |remaining| then Some(items[|items| - 1].position) else None)
  }

  // ----- Continuation -----

  /** What follows a position in sorted rows is a suffix of them. */
  lemma {:induction false} FilterIsSuffix(rows: seq<Row>, position: Option<Position>) returns (m: nat)
    requires Sorted(rows)
    ensures m <= |rows| && Filter(rows, position) == rows[m..]
    decreases |rows|
  {
    if rows == [] {
      m := 0;
    } else if After(rows[0], position) {
      m := 0;
      FilterKeepsAll(rows, position);
    } else {
      m := FilterIsSuffix(rows[1..], position);
      m := m + 1;
    }
  }

  lemma {:induction false} FilterKeepsAll(rows: seq<Row>, position: Option<Position>)
    requires Sorted(rows) && (rows != [] ==> After(rows[0], position))
    ensures Filter(rows, position) == rows
    decreases |rows|
  {
    if rows != [] {
      if |rows| > 1 { AfterLater(rows[0], rows[1], position); }
      FilterKeepsAll(rows[1..], position);
    }
  }

  lemma AfterLater(a: Row, b: Row, position: Option<Position>)
    requires Before(a, b) && After(a, position)
    ensures After(b, position)
  {
    if position.Some? {
      CompareTotal(a.position, position.value);
      CompareTransitive(position.value, a.position, b.position);
      CompareTotal(b.position, position.value);
    }
  }

  /** The position of a row leaves exactly the rows after it. */
  lemma {:induction false} FilterFrom(rows: seq<Row>, k: nat)
    requires Sorted(rows) && k < |rows|
    ensures Filter(rows, Some(rows[k].position)) == rows[k + 1..]
    decreases |rows|
  {
    CompareTotal(rows[0].position, rows[k].position);
    if k == 0 {
      if |rows| > 1 { CompareTotal(rows[0].position, rows[1].position); }
      FilterKeepsAll(rows[1..], Some(rows[0].position));
    } else {
      FilterFrom(rows[1..], k - 1);
    }
  }

  /** A continuation resumes right after the last row of its page. */
  lemma NextContinues(rows: seq<Row>, position: Option<Position>, limit: Option<nat>)
    requires DistinctThreads(rows) && ReadPage(rows, position, limit).next.Some?
    ensures var page := ReadPage(rows, position, limit);
            Remaining(rows, page.next) == Remaining(rows, position)[|page.items|..]
  {
    SortSorts(rows);
    var m := FilterIsSuffix(SortRows(rows), position);
    FilterFrom(SortRows(rows), m + |ReadPage(rows, position, limit).items| - 1);
  }

  /** Follows continuations until there is none. */
  function Collect(rows: seq<Row>, position: Option<Position>, limit: nat): seq<Row>
    requires DistinctThreads(rows) && limit > 0
    decreases |Remaining(rows, position)|
  {
    var page := ReadPage(rows, position, Some(limit));
    if page.next.None? then page.items
    else
      NextContinues(rows, position, Some(limit));
      page.items + Collect(rows, page.next, limit)
  }

  /** Paging with any positive limit terminates and gives the unpaged list, without gap or repeat. */
  lemma {:induction false} PagesConcatenate(rows: seq<Row>, position: Option<Position>, limit: nat)
    requires DistinctThreads(rows) && limit > 0
    ensures Collect(rows, position, limit) == ReadPage(rows, position, None).items
    ensures position.None? ==> Collect(rows, position, limit) == SortRows(rows)
    decreases |Remaining(rows, position)|
  {
    var page := ReadPage(rows, position, Some(limit));
    if page.next.Some? {
      NextContinues(rows, position, Some(limit));
      PagesConcatenate(rows, page.next, limit);
    }
    if position.None? {
      SortSorts(rows);
      FilterKeepsAll(SortRows(rows), None);
    }
  }

  // ----- Changes between pages -----

  lemma SameFirst(a: seq<Row>, b: seq<Row>)
    requires Sorted(a) && Sorted(b) && multiset(a) == multiset(b) && a != [] && b != []
    ensures a[0] == b[0]
  {
    assert a[0] in multiset(b) && b[0] in multiset(a);
    CompareTotal(a[0].position, b[0].position);
  }

  lemma WithoutFirst(a: seq<Row>)
    requires a != []
    ensures multiset(a[1..]) == multiset(a) - multiset{a[0]}
  {
    assert a == [a[0]] + a[1..];
  }

  /** Rows have one strict order. */
  lemma {:induction false} SortedUnique(a: seq<Row>, b: seq<Row>)
    requires Sorted(a) && Sorted(b) && multiset(a) == multiset(b)
    ensures a == b
    decreases |a|
  {
    if a == [] || b == [] {
      assert |multiset(a)| == |multiset(b)|;
    } else {
      SameFirst(a, b);
      WithoutFirst(a);
      WithoutFirst(b);
      SortedUnique(a[1..], b[1..]);
      assert a == [a[0]] + a[1..] && b == [b[0]] + b[1..];
    }
  }

  lemma {:induction false} FilterCounts(rows: seq<Row>, position: Option<Position>, r: Row)
    ensures multiset(Filter(rows, position))[r] == if After(r, position) then multiset(rows)[r] else 0
    decreases |rows|
  {
    if rows != [] {
      FilterCounts(rows[1..], position, r);
      assert rows == [rows[0]] + rows[1..];
    }
  }

  lemma RemainingCounts(rows: seq<Row>, position: Option<Position>, r: Row)
    requires DistinctThreads(rows)
    ensures multiset(Remaining(rows, position))[r] == if After(r, position) then multiset(rows)[r] else 0
  {
    SortSorts(rows);
    FilterCounts(SortRows(rows), position, r);
  }

  lemma RemainingSorted(rows: seq<Row>, position: Option<Position>)
    requires DistinctThreads(rows)
    ensures Sorted(Remaining(rows, position))
  {
    SortSorts(rows);
    var m := FilterIsSuffix(SortRows(rows), position);
  }

  /** The two row lists agree on everything after the position. */
  ghost predicate AgreeAfter(rows: seq<Row>, changed: seq<Row>, position: Option<Position>) {
    forall r: Row :: After(r, position) ==> multiset(rows)[r] == multiset(changed)[r]
  }

  lemma SameRemaining(rows: seq<Row>, changed: seq<Row>, position: Option<Position>)
    requires DistinctThreads(rows) && DistinctThreads(changed) && AgreeAfter(rows, changed, position)
    ensures Remaining(rows, position) == Remaining(changed, position)
  {
    var a, b := Remaining(rows, position), Remaining(changed, position);
    forall r: Row ensures multiset(a)[r] == multiset(b)[r] {
      RemainingCounts(rows, position, r);
      RemainingCounts(changed, position, r);
    }
    RemainingSorted(rows, position);
    RemainingSorted(changed, position);
    SortedUnique(a, b);
  }

  /** Only rows after the position matter to what a continuation shows. */
  lemma ChangesBeforeDoNotShow(rows: seq<Row>, changed: seq<Row>, position: Option<Position>, limit: Option<nat>)
    requires DistinctThreads(rows) && DistinctThreads(changed) && AgreeAfter(rows, changed, position)
    ensures ReadPage(changed, position, limit) == ReadPage(rows, position, limit)
  {
    SameRemaining(rows, changed, position);
  }

  lemma WithoutStaysDistinct(rows: seq<Row>, i: nat)
    requires DistinctThreads(rows) && i < |rows|
    ensures DistinctThreads(rows[..i] + rows[i + 1..])
  {
    var rest := rows[..i] + rows[i + 1..];
    forall a, b | 0 <= a < b < |rest| ensures rest[a].position.thread != rest[b].position.thread {
      assert rest[a] == rows[if a < i then a else a + 1] && rest[b] == rows[if b < i then b else b + 1];
    }
  }

  lemma WithoutAgreesAfter(rows: seq<Row>, i: nat)
    requires i < |rows|
    ensures AgreeAfter(rows, rows[..i] + rows[i + 1..], Some(rows[i].position))
  {
    CompareTotal(rows[i].position, rows[i].position);
    assert rows == rows[..i] + [rows[i]] + rows[i + 1..];
  }

  /** Removing the anchor row between pages neither skips nor repeats another row. */
  lemma AnchorMayGo(rows: seq<Row>, i: nat, limit: Option<nat>)
    requires DistinctThreads(rows) && i < |rows|
    ensures var anchor := Some(rows[i].position);
            ReadPage(rows[..i] + rows[i + 1..], anchor, limit) == ReadPage(rows, anchor, limit)
  {
    var rest, anchor := rows[..i] + rows[i + 1..], Some(rows[i].position);
    WithoutStaysDistinct(rows, i);
    WithoutAgreesAfter(rows, i);
    ChangesBeforeDoNotShow(rows, rest, anchor, limit);
  }
}
