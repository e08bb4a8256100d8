/**
 Keyset pagination over the audit log. The table is append-only and listed in
 (occurred_at, id) descending order; a page is the first `limit` matching events
 below the cursor, and the next cursor is the last event of a full page. Events
 may be inserted anywhere in the order between two pages.
 */
module AuditPages {
  import opened Wrappers
  import Base64Url

  const DEFAULT_LIMIT: nat := 50
  const MAX_LIMIT: nat := 200

  datatype Event = Event(at: int, id: nat, tenant: nat, kind: string, actor: Option<nat>, outcome: string)

  datatype Position = Position(at: int, id: nat)

  function PositionOf(e: Event): Position { Position(e.at, e.id) }

  predicate Below(p: Position, q: Position) {
    p.at < q.at || (p.at == q.at && p.id < q.id)
  }

  /** `from` and `to` are inclusive; an absent field does not filter. */
  datatype Filter = Filter(
    tenant: nat, from: Option<int>, to: Option<int>, kind: Option<string>, actor: Option<nat>, outcome: Option<string>)

  predicate Matches(f: Filter, e: Event) {
    && e.tenant == f.tenant
    && (f.from.Some? ==> f.from.value <= e.at)
    && (f.to.Some? ==> e.at <= f.to.value)
    && (f.kind.Some? ==> e.kind == f.kind.value)
    && (f.actor.Some? ==> e.actor == f.actor)
    && (f.outcome.Some? ==> e.outcome == f.outcome.value)
  }

  predicate IsBelow(e: Event, cursor: Option<Position>) {
    cursor.Some? ==> Below(PositionOf(e), cursor.value)
  }

  /** The requested page size, brought into range. */
  function Clamp(limit: Option<nat>): (r: nat)
    ensures 1 <= r <= 200 && (limit.None? ==> r == 50)
    ensures limit.Some? && 1 <= limit.value <= 200 ==> r == limit.value
    ensures limit.Some? && 200 < limit.value ==> r == 200
  {
    var l := if limit.Some? then limit.value else DEFAULT_LIMIT;
    if l < 1 then 1 else if l > MAX_LIMIT then MAX_LIMIT else l
  }

  /** Strictly descending: events listed newest first, no two at one position. */
  ghost predicate Descending(es: seq<Event>) {
    forall i, j :: 0 <= i < j < |es| ==> Below(PositionOf(es[j]), PositionOf(es[i]))
  }

  // ── The query ────────────────────────────────────────────────────────────

  function Select(table: seq<Event>, f: Filter, cursor: Option<Position>): seq<Event> {
    if table == [] then []
    else (if Matches(f, table[0]) && IsBelow(table[0], cursor) then [table[0]] else []) + Select(table[1..], f, cursor)
  }

  function Page(table: seq<Event>, f: Filter, cursor: Option<Position>, limit: nat): seq<Event> {
    var all := Select(table, f, cursor);
    if |all| <= limit then all else all[..limit]
  }

  /** Present exactly when the page is full. */
  function NextCursor(page: seq<Event>, limit: nat): Option<Position> {
    if |page| == limit && page != [] then Some(PositionOf(page[|page| - 1])) else None
  }

  lemma {:induction false} SelectMembers(table: seq<Event>, f: Filter, cursor: Option<Position>, e: Event)
    ensures e in Select(table, f, cursor) <==> e in table && Matches(f, e) && IsBelow(e, cursor)
  {
    if table != [] {
      SelectMembers(table[1..], f, cursor, e);
      assert table == [table[0]] + table[1..];
    }
  }

  /** What is selected: the tenant's events within the given bounds, with the given fields, older than the cursor. */
  lemma SelectedExactly(table: seq<Event>, f: Filter, cursor: Option<Position>, e: Event)
    ensures e in Select(table, f, cursor) <==>
              && e in table && e.tenant == f.tenant
              && (f.from == None || f.from.value <= e.at) && (f.to == None || e.at <= f.to.value)
              && (f.kind == None || f.kind == Some(e.kind)) && (f.outcome == None || f.outcome == Some(e.outcome))
              && (f.actor == None || f.actor == e.actor)
              && (cursor == None || e.at < cursor.value.at || (e.at == cursor.value.at && e.id < cursor.value.id))
  {
    SelectMembers(table, f, cursor, e);
    hide Select;
  }

  lemma {:induction false} SelectDescending(table: seq<Event>, f: Filter, cursor: Option<Position>)
    requires Descending(table)
    ensures Descending(Select(table, f, cursor))
  {
    if table != [] {
      SelectDescending(table[1..], f, cursor);
      forall e | e in Select(table[1..], f, cursor)
        ensures Below(PositionOf(e), PositionOf(table[0]))
      {
        SelectMembers(table[1..], f, cursor, e);
        var k :| 0 <= k < |table[1..]| && table[1..][k] == e;
        assert table[k + 1] == e;
      }
    }
  }

  // ── A walk through the pages ─────────────────────────────────────────────

  /** Follows `next_cursor`, reading `tables[i]` for the i-th page, until a page is not full. */
  function Walk(tables: seq<seq<Event>>, f: Filter, limit: nat, cursor: Option<Position>): seq<Event> {
    if tables == [] then []
    else
      var page := Page(tables[0], f, cursor, limit);
      var next := NextCursor(page, limit);
      if next.None? then page else page + Walk(tables[1..], f, limit, next)
  }

  /** The walk reached a page without a next cursor. */
  predicate Finishes(tables: seq<seq<Event>>, f: Filter, limit: nat, cursor: Option<Position>) {
    tables != []
    && var next := NextCursor(Page(tables[0], f, cursor, limit), limit);
       next.None? || Finishes(tables[1..], f, limit, next)
  }

  ghost predicate AllDescending(tables: seq<seq<Event>>) {
    forall i :: 0 <= i < |tables| ==> Descending(tables[i])
  }

  /** Inserts only: every event of a table is in all later ones. */
  ghost predicate Grows(tables: seq<seq<Event>>) {
    forall i, j, e :: 0 <= i < j < |tables| && e in tables[i] ==> e in tables[j]
  }

  lemma PageMembers(table: seq<Event>, f: Filter, cursor: Option<Position>, limit: nat, e: Event)
    requires Descending(table) && 0 < limit
    ensures e in Page(table, f, cursor, limit) ==> e in table && Matches(f, e) && IsBelow(e, cursor)
    ensures e in table && Matches(f, e) && IsBelow(e, cursor) ==>
              || e in Page(table, f, cursor, limit)
              || (&& NextCursor(Page(table, f, cursor, limit), limit).Some?
                  && IsBelow(e, NextCursor(Page(table, f, cursor, limit), limit)))
    ensures Descending(Page(table, f, cursor, limit))
  {
    var all := Select(table, f, cursor);
    SelectMembers(table, f, cursor, e);
    SelectDescending(table, f, cursor);
    if |all| > limit && e in all {
      var k :| 0 <= k < |all| && all[k] == e;
      assert all[..limit][limit - 1] == all[limit - 1];
      assert k < limit ==> all[..limit][k] == e;
    }
  }

  /** A longer cursor list is never revisited: everything after a page lies below its last event. */
  lemma NextIsBelow(table: seq<Event>, f: Filter, cursor: Option<Position>, limit: nat, e: Event, x: Event)
    requires Descending(table) && 0 < limit && x in Page(table, f, cursor, limit)
    requires var next := NextCursor(Page(table, f, cursor, limit), limit); next.Some? && IsBelow(e, next)
    ensures Below(PositionOf(e), PositionOf(x)) && IsBelow(e, cursor)
  {
    var page := Page(table, f, cursor, limit);
    PageMembers(table, f, cursor, limit, x);
    PageMembers(table, f, cursor, limit, page[|page| - 1]);
  }

  /** Everything on a page is in the table, matches and lies below the cursor. */
  lemma PageFits(table: seq<Event>, f: Filter, cursor: Option<Position>, limit: nat)
    requires Descending(table) && 0 < limit
    ensures var page := Page(table, f, cursor, limit);
            Descending(page) && forall e :: e in page ==> e in table && Matches(f, e) && IsBelow(e, cursor)
  {
    SelectDescending(table, f, cursor);
    var page := Page(table, f, cursor, limit);
    forall e | e in page ensures e in table && Matches(f, e) && IsBelow(e, cursor) {
      PageMembers(table, f, cursor, limit, e);
    }
  }

  /** Everything a walk returns matches, lies below its cursor and was in one of the tables. */
  lemma {:induction false} WalkMembers(tables: seq<seq<Event>>, f: Filter, limit: nat, cursor: Option<Position>,
                                       e: Event)
    requires AllDescending(tables) && 0 < limit && e in Walk(tables, f, limit, cursor)
    ensures Matches(f, e) && IsBelow(e, cursor) && exists i :: 0 <= i < |tables| && e in tables[i]
    decreases tables
  {
    hide Page, Descending, Matches;
    var page := Page(tables[0], f, cursor, limit);
    var next := NextCursor(page, limit);
    PageFits(tables[0], f, cursor, limit);
    if e !in page {
      WalkMembers(tables[1..], f, limit, next, e);
      NextIsBelow(tables[0], f, cursor, limit, e, page[0]);
      var i :| 0 <= i < |tables[1..]| && e in tables[1..][i];
      assert e in tables[i + 1];
    }
  }

  lemma DescendingAppend(a: seq<Event>, b: seq<Event>)
    requires Descending(a) && Descending(b)
    requires forall x, e :: x in a && e in b ==> Below(PositionOf(e), PositionOf(x))
    ensures Descending(a + b)
  {
  }

  /** Pages never overlap and come in order, whatever is inserted between them. */
  lemma {:induction false} WalkDescends(tables: seq<seq<Event>>, f: Filter, limit: nat, cursor: Option<Position>)
    requires AllDescending(tables) && 0 < limit
    ensures Descending(Walk(tables, f, limit, cursor))
    decreases tables
  {
    hide Page, Descending, Below;
    if tables == [] {
      NothingDescends();
    } else {
      var page := Page(tables[0], f, cursor, limit);
      var next := NextCursor(page, limit);
      PageFits(tables[0], f, cursor, limit);
      if next.Some? {
        var rest := Walk(tables[1..], f, limit, next);
        WalkDescends(tables[1..], f, limit, next);
        forall x, e | x in page && e in rest ensures Below(PositionOf(e), PositionOf(x)) {
          WalkMembers(tables[1..], f, limit, next, e);
          NextIsBelow(tables[0], f, cursor, limit, e, x);
        }
        DescendingAppend(page, rest);
      }
    }
  }

  lemma NothingDescends()
    ensures Descending([])
  {
  }

  /** A finished walk returns every matching event that was there from the start. */
  lemma {:induction false} WalkCovers(tables: seq<seq<Event>>, f: Filter, limit: nat, cursor: Option<Position>,
                                      e: Event)
    requires AllDescending(tables) && Grows(tables) && 0 < limit && Finishes(tables, f, limit, cursor)
    requires e in tables[0] && Matches(f, e) && IsBelow(e, cursor)
    ensures e in Walk(tables, f, limit, cursor)
    decreases tables
  {
    var page := Page(tables[0], f, cursor, limit);
    var next := NextCursor(page, limit);
    PageMembers(tables[0], f, cursor, limit, e);
    if next.Some? && e !in page {
      assert e in tables[1];
      forall i, j, x | 0 <= i < j < |tables[1..]| && x in tables[1..][i]
        ensures x in tables[1..][j]
      {
        assert x in tables[i + 1] && tables[1..][j] == tables[j + 1];
      }
      WalkCovers(tables[1..], f, limit, next, e);
    }
  }

  /**
   With arbitrary inserts between pages, a finished walk returns no event twice,
   returns every matching event present throughout exactly once, nothing that does
   not match, and all in descending order.
   */
  lemma WalkIsExact(tables: seq<seq<Event>>, f: Filter, limit: Option<nat>)
    requires AllDescending(tables) && Grows(tables) && Finishes(tables, f, Clamp(limit), None)
    ensures var walk := Walk(tables, f, Clamp(limit), None);
            && Descending(walk)
            && (forall i, j :: 0 <= i < j < |walk| ==> walk[i] != walk[j])
            && (forall e :: e in tables[0] && Matches(f, e) ==> e in walk)
            && (forall e :: e in walk ==> Matches(f, e) && exists i :: 0 <= i < |tables| && e in tables[i])
  {
    var walk := Walk(tables, f, Clamp(limit), None);
    WalkDescends(tables, f, Clamp(limit), None);
    forall e | e in tables[0] && Matches(f, e)
      ensures e in walk
    {
      WalkCovers(tables, f, Clamp(limit), None, e);
    }
    forall e | e in walk
      ensures Matches(f, e) && exists i :: 0 <= i < |tables| && e in tables[i]
    {
      WalkMembers(tables, f, Clamp(limit), None, e);
    }
    forall i, j | 0 <= i < j < |walk|
      ensures walk[i] != walk[j]
    {
      assert Below(PositionOf(walk[j]), PositionOf(walk[i]));
    }
  }

  // ── A fixed table ────────────────────────────────────────────────────────

  /** What is left below the last event of a full page is the rest of the selection. */
  lemma {:induction false} SelectBelow(table: seq<Event>, f: Filter, cursor: Option<Position>, n: nat)
    requires Descending(table) && 0 < n <= |Select(table, f, cursor)|
    ensures Select(table, f, Some(PositionOf(Select(table, f, cursor)[n - 1]))) == Select(table, f, cursor)[n..]
  {
    hide Matches, IsBelow, Below, Select;
    if table == [] {
      NothingSelected(f, cursor);
    }
    var all := Select(table, f, cursor);
    var next := Some(PositionOf(all[n - 1]));
    var rest := table[1..];
    var kept := Select(rest, f, cursor);
    if Matches(f, table[0]) && IsBelow(table[0], cursor) {
      HeadKept(table, f, cursor);
      if n == 1 {
        AllBelowHead(table, f, cursor);
      } else {
        assert all[n - 1] == kept[n - 2];
        SelectBelow(rest, f, cursor, n - 1);
        InTail(table, f, cursor, n - 2);
        HeadSkipped(table, f, next);
        assert kept[n - 1..] == all[n..];
      }
    } else {
      HeadSkipped(table, f, cursor);
      SelectBelow(rest, f, cursor, n);
      InTail(table, f, cursor, n - 1);
      HeadSkipped(table, f, next);
    }
  }

  lemma NothingSelected(f: Filter, cursor: Option<Position>)
    ensures Select([], f, cursor) == []
  {
  }

  lemma HeadKept(table: seq<Event>, f: Filter, cursor: Option<Position>)
    requires table != [] && Matches(f, table[0]) && IsBelow(table[0], cursor)
    ensures Select(table, f, cursor) == [table[0]] + Select(table[1..], f, cursor)
  {
  }

  lemma HeadSkipped(table: seq<Event>, f: Filter, cursor: Option<Position>)
    requires table != [] && !(Matches(f, table[0]) && IsBelow(table[0], cursor))
    ensures Select(table, f, cursor) == Select(table[1..], f, cursor)
  {
  }

  /** Whatever is selected from the tail lies below the head. */
  lemma InTail(table: seq<Event>, f: Filter, cursor: Option<Position>, i: nat)
    requires Descending(table) && table != [] && i < |Select(table[1..], f, cursor)|
    ensures !IsBelow(table[0], Some(PositionOf(Select(table[1..], f, cursor)[i])))
  {
    var e := Select(table[1..], f, cursor)[i];
    SelectMembers(table[1..], f, cursor, e);
    var k :| 0 <= k < |table[1..]| && table[1..][k] == e;
    assert table[k + 1] == e;
  }

  /** Selecting below the first event of a table loses only that event. */
  lemma AllBelowHead(table: seq<Event>, f: Filter, cursor: Option<Position>)
    requires Descending(table) && table != [] && IsBelow(table[0], cursor)
    ensures Select(table, f, Some(PositionOf(table[0]))) == Select(table[1..], f, cursor)
  {
    SameSelection(table[1..], f, Some(PositionOf(table[0])), cursor);
    forall e | e in table[1..]
      ensures IsBelow(e, Some(PositionOf(table[0]))) && IsBelow(e, cursor)
    {
      var k :| 0 <= k < |table[1..]| && table[1..][k] == e;
      assert table[k + 1] == e;
    }
  }

  lemma {:induction false} SameSelection(table: seq<Event>, f: Filter, c: Option<Position>, d: Option<Position>)
    ensures (forall e :: e in table ==> IsBelow(e, c) && IsBelow(e, d)) ==> Select(table, f, c) == Select(table, f, d)
  {
    if table != [] {
      SameSelection(table[1..], f, c, d);
      assert forall e :: e in table[1..] ==> e in table;
      assert table[0] in table;
    }
  }

  /** A full page is a proper beginning of the selection, and the next cursor selects the rest. */
  lemma PageSplits(table: seq<Event>, f: Filter, cursor: Option<Position>, limit: nat)
    requires Descending(table) && 0 < limit
    ensures var all, page := Select(table, f, cursor), Page(table, f, cursor, limit);
            match NextCursor(page, limit)
            case None => page == all
            case Some(next) => all == page + Select(table, f, Some(next)) && page != []
  {
    hide Select;
    var all := Select(table, f, cursor);
    if |all| >= limit {
      SelectBelow(table, f, cursor, limit);
      assert all == all[..limit] + all[limit..];
    }
  }

  /** Over a fixed table the walk ends, having returned the whole selection page by page. */
  method WalkAll(table: seq<Event>, f: Filter, limit: Option<nat>) returns (all: seq<Event>)
    requires Descending(table)
    ensures all == Select(table, f, None)
  {
    hide Select, Page, NextCursor, Descending;
    var size := Clamp(limit);
    ghost var whole := Select(table, f, None);
    var cursor: Option<Position> := None;
    all := [];
    var page := Page(table, f, cursor, size);
    while NextCursor(page, size).Some?
      invariant page == Page(table, f, cursor, size)
      invariant whole == all + Select(table, f, cursor)
      decreases |Select(table, f, cursor)|
    {
      PageSplits(table, f, cursor, size);
      cursor := NextCursor(page, size);
      assert whole == all + (page + Select(table, f, cursor));
      all := all + page;
      page := Page(table, f, cursor, size);
    }
    PageSplits(table, f, cursor, size);
    all := all + page;
  }

  // ── The cursor codec ─────────────────────────────────────────────────────

  function SplitOnce(s: string, c: char): Option<(string, string)> {
    if s == [] then None
    else if s[0] == c then Some(("", s[1..]))
    else
      match SplitOnce(s[1..], c)
      case None => None
      case Some((a, b)) => Some(([s[0]] + a, b))
  }

  lemma {:induction false} SplitJoined(a: string, c: char, b: string)
    requires c !in a
    ensures SplitOnce(a + [c] + b, c) == Some((a, b))
  {
    var s := a + [c] + b;
    if a == [] {
      assert s[1..] == b;
    } else {
      SplitJoined(a[1..], c, b);
      assert s[1..] == a[1..] + [c] + b;
      assert a == [a[0]] + a[1..];
    }
  }

  /** Printers and parsers of timestamps and ids that undo each other. */
  ghost predicate Undoes<T(!new)>(show: T -> string, parse: string -> Option<T>) {
    forall x :: parse(show(x)) == Some(x)
  }

  predicate IsAscii(s: string) { forall i :: 0 <= i < |s| ==> s[i] < 128 as char }

  function BytesOf(s: string): seq<Base64Url.Byte>
    requires IsAscii(s)
  {
    seq(|s|, i requires 0 <= i < |s| => s[i] as int)
  }

  /** Timestamps and ids are ASCII, so bytes beyond it fail to parse one way or the other. */
  function TextOf(bytes: seq<Base64Url.Byte>): Option<string> {
    if exists i :: 0 <= i < |bytes| && bytes[i] >= 128 then None
    else Some(seq(|bytes|, i requires 0 <= i < |bytes| => bytes[i] as char))
  }

  lemma TextOfBytes(s: string)
    requires IsAscii(s)
    ensures TextOf(BytesOf(s)) == Some(s)
  {
    var text := TextOf(BytesOf(s)).value;
    assert forall i :: 0 <= i < |s| ==> text[i] == s[i];
    assert text == s;
  }

  /** The unpadded decoder takes canonical encodings only. */
  function CanonicalDecode(s: string): Option<seq<Base64Url.Byte>> {
    var bytes := Base64Url.Decode(s);
    if bytes.Some? && Base64Url.Encode(bytes.value) == s then bytes else None
  }

  function CursorText(p: Position, at: int -> string, id: nat -> string): string { at(p.at) + "|" + id(p.id) }

  function EncodeCursor(p: Position, at: int -> string, id: nat -> string): string
    requires IsAscii(CursorText(p, at, id))
  {
    Base64Url.Encode(BytesOf(CursorText(p, at, id)))
  }

  function ParseText(s: string, at: string -> Option<int>, id: string -> Option<nat>): Option<Position> {
    match SplitOnce(s, '|')
    case None => None
    case Some((a, b)) => if at(a).Some? && id(b).Some? then Some(Position(at(a).value, id(b).value)) else None
  }

  function DecodeCursor(cursor: string, at: string -> Option<int>, id: string -> Option<nat>): Option<Position> {
    match CanonicalDecode(cursor)
    case None => None
    case Some(bytes) => if TextOf(bytes).None? then None else ParseText(TextOf(bytes).value, at, id)
  }

  /** A cursor handed out comes back as the position it was made from; timestamps print without a bar. */
  lemma CursorRoundTrip(p: Position, showAt: int -> string, parseAt: string -> Option<int>,
                        showId: nat -> string, parseId: string -> Option<nat>)
    requires Undoes(showAt, parseAt) && Undoes(showId, parseId)
    requires '|' !in showAt(p.at) && IsAscii(CursorText(p, showAt, showId))
    ensures DecodeCursor(EncodeCursor(p, showAt, showId), parseAt, parseId) == Some(p)
  {
    var text := CursorText(p, showAt, showId);
    Base64Url.DecodeEncode(BytesOf(text));
    TextOfBytes(text);
    SplitJoined(showAt(p.at), '|', showId(p.id));
  }
}
