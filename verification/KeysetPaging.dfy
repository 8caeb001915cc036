/**
 Keyset paging of the scan history, the mail-job history and the two audit logs: newest first by (createdAt, id), one
 row more than the limit is fetched, and the last row of a full page becomes the cursor. A page is
 read from the table as it is at that moment, so a walk over the pages reads a sequence of
 snapshots. A snapshot is the set of rows that match the query's filter, each named by its key.
 */
module KeysetPaging {
  import opened Base
  import opened MailTables

  datatype Key = Key(createdAt: Ms, id: nat)

  /** Strictly earlier in the listing. */
  predicate Newer(a: Key, b: Key) {
    a.createdAt > b.createdAt || (a.createdAt == b.createdAt && a.id > b.id)
  }

  /** The WHERE clause of a cursor. */
  predicate Below(k: Key, cursor: Option<Key>) {
    cursor.None? || k.createdAt < cursor.value.createdAt || (k.createdAt == cursor.value.createdAt && k.id < cursor.value.id)
  }

  function After(rows: set<Key>, cursor: Option<Key>): set<Key> {
    set k | k in rows && Below(k, cursor)
  }

  ghost predicate IsNewest(k: Key, rows: set<Key>) {
    k in rows && forall l | l in rows && l != k :: Newer(k, l)
  }

  lemma {:induction false} NewestExists(rows: set<Key>) returns (k: Key)
    requires rows != {}
    ensures IsNewest(k, rows)
    decreases |rows|
  {
    k :| k in rows;
    var rest := rows - {k};
    if rest != {} {
      var l := NewestExists(rest);
      var best := if Newer(l, k) then l else k;
      forall m | m in rows && m != best ensures Newer(best, m) {
        if m != k && m != l { assert m in rest && Newer(l, m); }
      }
      k := best;
    }
  }

  /** ORDER BY created_at DESC, id DESC */
  ghost function Listing(rows: set<Key>): seq<Key>
    decreases |rows|
  {
    if rows == {} then []
    else
      assert exists k :: IsNewest(k, rows) by { var k := NewestExists(rows); }
      var k :| IsNewest(k, rows);
      [k] + Listing(rows - {k})
  }

  predicate Descending(s: seq<Key>) {
    forall i, j | 0 <= i < j < |s| :: Newer(s[i], s[j])
  }

  datatype Page = Page(items: seq<Key>, next: Option<Key>)

  /** listScanEvents, listMailJobs, listLogs, and the query of the platform audit list. */
  ghost function ReadPage(rows: set<Key>, cursor: Option<Key>, limit: nat): Page
    requires limit > 0
  {
    var found := Listing(After(rows, cursor));
    var fetched := if |found| > limit + 1 then found[..limit + 1] else found;
    var items := if |fetched| > limit then fetched[..limit] else fetched;
    Page(items, if |fetched| > limit then Some(items[limit - 1]) else None)
  }

  // ---- listings -------------------------------------------------------------------------------------

  lemma {:induction false} ListingStep(rows: set<Key>)
    requires rows != {}
    ensures var l := Listing(rows); l != [] && IsNewest(l[0], rows) && l == [l[0]] + Listing(rows - {l[0]})
    ensures |rows - {Listing(rows)[0]}| == |rows| - 1
  {
    var k := Listing(rows)[0];
    assert k in rows && Listing(rows) == [k] + Listing(rows - {k});
  }

  lemma {:induction false} ListingHolds(rows: set<Key>)
    ensures |Listing(rows)| == |rows| && forall k :: k in Listing(rows) <==> k in rows
    decreases |rows|
  {
    if rows != {} {
      ListingStep(rows);
      var k := Listing(rows)[0];
      ListingHolds(rows - {k});
      forall l ensures l in Listing(rows) <==> l == k || l in rows - {k} {}
    }
  }

  lemma {:induction false} ListingDescends(rows: set<Key>)
    ensures Descending(Listing(rows))
    decreases |rows|
  {
    if rows != {} {
      ListingStep(rows);
      var k := Listing(rows)[0];
      ListingDescends(rows - {k});
      ListingHolds(rows - {k});
      forall l | l in Listing(rows - {k}) ensures Newer(k, l) {}
    }
  }

  lemma {:induction false} ListingIsSorted(rows: set<Key>)
    ensures Descending(Listing(rows)) && |Listing(rows)| == |rows|
    ensures forall k :: k in Listing(rows) <==> k in rows
  {
    ListingHolds(rows);
    ListingDescends(rows);
  }

  lemma HeadIsNewest(s: seq<Key>, k: Key)
    requires s != [] && Descending(s) && k in s && k != s[0]
    ensures Newer(s[0], k)
  {
  }

  lemma FirstIsMember(s: seq<Key>)
    ensures s != [] ==> s[0] in s
  {
  }

  /** There is only one descending arrangement of a set of keys. */
  lemma {:induction false} SortedIsUnique(s: seq<Key>, t: seq<Key>)
    requires Descending(s) && Descending(t) && forall k :: k in s <==> k in t
    ensures s == t
    decreases |s|
  {
    FirstIsMember(s);
    FirstIsMember(t);
    if s != [] && t != [] {
      if s[0] != t[0] {
        HeadIsNewest(s, t[0]);
        HeadIsNewest(t, s[0]);
      }
      forall k ensures k in s[1..] <==> k in t[1..] {
        TailMembers(s, k);
        TailMembers(t, k);
      }
      SortedIsUnique(s[1..], t[1..]);
    }
  }

  lemma TailMembers(s: seq<Key>, k: Key)
    requires s != [] && Descending(s)
    ensures k in s[1..] <==> k in s && k != s[0]
  {
    if k in s[1..] { var i :| 0 <= i < |s[1..]| && s[1..][i] == k; assert s[i + 1] == k; }
    if k in s && k != s[0] { var i :| 0 <= i < |s| && s[i] == k; assert s[1..][i - 1] == k; }
  }

  lemma BelowIsBehind(all: seq<Key>, i: nat, n: nat)
    requires Descending(all) && i < |all| && 0 < n <= |all| && Below(all[i], Some(all[n - 1]))
    ensures i >= n
  {
  }

  /** What lies below the last row of a page is exactly the rest of the listing. */
  lemma {:induction false} RestOfListing(rows: set<Key>, cursor: Option<Key>, n: nat)
    requires 0 < n <= |Listing(After(rows, cursor))|
    ensures var all := Listing(After(rows, cursor));
            Listing(After(rows, Some(all[n - 1]))) == all[n..]
  {
    var all := Listing(After(rows, cursor));
    ListingIsSorted(After(rows, cursor));
    ListingIsSorted(After(rows, Some(all[n - 1])));
    forall k ensures k in After(rows, Some(all[n - 1])) <==> k in all[n..] {
      if k in all[n..] {
        var i :| 0 <= i < |all[n..]| && all[n..][i] == k;
        assert all[n + i] == k && Newer(all[n - 1], all[n + i]);
        assert k in all;
      }
      if k in After(rows, Some(all[n - 1])) {
        BelowIsTransitive(k, all[n - 1], cursor, all, rows);
        var i :| 0 <= i < |all| && all[i] == k;
        BelowIsBehind(all, i, n);
        assert all[n..][i - n] == k;
      }
    }
    SortedIsUnique(Listing(After(rows, Some(all[n - 1]))), all[n..]);
  }

  lemma BelowIsTransitive(k: Key, last: Key, cursor: Option<Key>, all: seq<Key>, rows: set<Key>)
    requires k in rows && Below(k, Some(last)) && last in all && (forall l :: l in all <==> l in After(rows, cursor))
    ensures k in all
  {
    assert last in After(rows, cursor);
  }

  // ---- following the cursors ------------------------------------------------------------------------

  datatype Walk = Walk(items: seq<Key>, pages: nat, finished: bool)

  /** A client that follows next_cursor to null, over the snapshots it happens to read. */
  ghost function Follow(snapshots: seq<set<Key>>, cursor: Option<Key>, limit: nat): Walk
    requires limit > 0
    decreases |snapshots|
  {
    if snapshots == [] then Walk([], 0, false)
    else
      var p := ReadPage(snapshots[0], cursor, limit);
      if p.next.None? then Walk(p.items, 1, true)
      else
        var rest := Follow(snapshots[1..], p.next, limit);
        Walk(p.items + rest.items, rest.pages + 1, rest.finished)
  }

  /** One page: its items are the first of the listing, and what follows lies below its cursor. */
  lemma PageFacts(rows: set<Key>, cursor: Option<Key>, limit: nat)
    requires limit > 0
    ensures var p, all := ReadPage(rows, cursor, limit), Listing(After(rows, cursor));
            && p.items <= all && Descending(all)
            && (forall k | k in p.items :: k in rows && Below(k, cursor))
            && (p.next.None? <==> |After(rows, cursor)| <= limit)
            && (p.next.None? ==> p.items == all)
            && (p.next.Some? ==> |p.items| == limit && p.next.value == p.items[limit - 1])
  {
    ListingIsSorted(After(rows, cursor));
    var p, all := ReadPage(rows, cursor, limit), Listing(After(rows, cursor));
    forall k | k in p.items ensures k in all {}
  }

  lemma FullPageCovers(rows: set<Key>, cursor: Option<Key>, limit: nat, k: Key)
    requires limit > 0 && ReadPage(rows, cursor, limit).next.Some? && k in rows && Below(k, cursor)
    ensures k in ReadPage(rows, cursor, limit).items || Below(k, ReadPage(rows, cursor, limit).next)
  {
    PageFacts(rows, cursor, limit);
    ListingIsSorted(After(rows, cursor));
    var p, all := ReadPage(rows, cursor, limit), Listing(After(rows, cursor));
    assert k in all;
    var i :| 0 <= i < |all| && all[i] == k;
    if i < limit { assert p.items[i] == k; } else { assert Newer(all[limit - 1], all[i]); }
  }

  /**
   Whatever is inserted, deleted or changed between the pages, the items come in strictly
   descending order, so none is repeated, and each was in the table when its page was read.
   */
  lemma {:induction false} WalkIsOrdered(snapshots: seq<set<Key>>, cursor: Option<Key>, limit: nat)
    requires limit > 0
    ensures var w := Follow(snapshots, cursor, limit);
            && Descending(w.items) && (forall k | k in w.items :: Below(k, cursor))
            && w.pages <= |snapshots|
            && (forall k | k in w.items :: exists i | 0 <= i < w.pages :: k in snapshots[i])
    decreases |snapshots|
  {
    if snapshots != [] {
      PageFacts(snapshots[0], cursor, limit);
      var p := ReadPage(snapshots[0], cursor, limit);
      var w := Follow(snapshots, cursor, limit);
      if p.next.Some? {
        WalkIsOrdered(snapshots[1..], p.next, limit);
        var rest := Follow(snapshots[1..], p.next, limit);
        LastIsOldest(p.items, rest.items);
        forall k | k in w.items ensures Below(k, cursor) && exists i | 0 <= i < w.pages :: k in snapshots[i] {
          if k in p.items {
            assert k in snapshots[0];
          } else {
            assert k in rest.items && Below(p.next.value, cursor);
            var i :| 0 <= i < rest.pages && k in snapshots[1..][i];
            assert k in snapshots[i + 1];
          }
        }
      } else {
        forall k | k in w.items ensures exists i | 0 <= i < w.pages :: k in snapshots[i] { assert k in snapshots[0]; }
      }
    }
  }

  lemma LastIsOldest(items: seq<Key>, rest: seq<Key>)
    requires items != [] && Descending(items) && Descending(rest)
    requires forall k | k in rest :: Below(k, Some(items[|items| - 1]))
    ensures Descending(items + rest)
  {
    var all, last := items + rest, items[|items| - 1];
    forall i, j | 0 <= i < j < |all| ensures Newer(all[i], all[j]) {
      if i < |items| <= j {
        assert rest[j - |items|] in rest;
        assert Newer(last, all[j]);
        if i < |items| - 1 { assert Newer(items[i], last); }
      }
    }
  }

  /** Every row that stays in the table and matches throughout a finished walk is listed, exactly once. */
  lemma {:induction false} WalkIsComplete(snapshots: seq<set<Key>>, cursor: Option<Key>, limit: nat, k: Key)
    requires limit > 0 && Follow(snapshots, cursor, limit).finished && Below(k, cursor)
    requires Follow(snapshots, cursor, limit).pages <= |snapshots|
    requires forall i | 0 <= i < Follow(snapshots, cursor, limit).pages :: k in snapshots[i]
    ensures k in Follow(snapshots, cursor, limit).items
    decreases |snapshots|
  {
    var p := ReadPage(snapshots[0], cursor, limit);
    assert k in snapshots[0];
    PageFacts(snapshots[0], cursor, limit);
    ListingIsSorted(After(snapshots[0], cursor));
    if p.next.Some? {
      FullPageCovers(snapshots[0], cursor, limit, k);
      if k !in p.items {
        var rest := Follow(snapshots[1..], p.next, limit);
        forall i | 0 <= i < rest.pages ensures k in snapshots[1..][i] { assert k in snapshots[i + 1]; }
        WalkIsComplete(snapshots[1..], p.next, limit, k);
      }
    }
  }

  // ---- an undisturbed walk --------------------------------------------------------------------------

  /** Between the pages the part of the table below the cursor does not change. */
  ghost predicate OnlyNewerChanges(snapshots: seq<set<Key>>, cursor: Option<Key>, limit: nat)
    requires limit > 0
    decreases |snapshots|
  {
    |snapshots| <= 1 ||
    var p := ReadPage(snapshots[0], cursor, limit);
    p.next.Some? ==>
      After(snapshots[1], p.next) == After(snapshots[0], p.next) && OnlyNewerChanges(snapshots[1..], p.next, limit)
  }

  /** Rows that are not below the cursor change nothing there: the audit list's own entry is one. */
  lemma NewerRowIsInvisible(rows: set<Key>, cursor: Key, own: Key)
    ensures After(rows + {own}, Some(cursor)) == After(rows, Some(cursor)) <==> own in rows || !Below(own, Some(cursor))
  {
    if Below(own, Some(cursor)) && own !in rows {
      assert own in After(rows + {own}, Some(cursor));
    }
  }

  function PagesNeeded(n: nat, limit: nat): (p: nat)
    requires limit > 0
    ensures p > 0
    decreases n
  {
    if n <= limit then 1 else 1 + PagesNeeded(n - limit, limit)
  }

  /** The count of pages is n / limit rounded up, and one if there is nothing. */
  lemma {:induction false} PagesAreCeiling(n: nat, limit: nat)
    requires limit > 0
    ensures n == 0 ==> PagesNeeded(n, limit) == 1
    ensures n > 0 ==> (PagesNeeded(n, limit) - 1) * limit < n <= PagesNeeded(n, limit) * limit
    decreases n
  {
    if n > limit {
      PagesAreCeiling(n - limit, limit);
      var p := PagesNeeded(n - limit, limit);
      assert (p - 1) * limit + limit == p * limit && p * limit + limit == (p + 1) * limit;
    }
  }

  /** After a full page, the rest of the walk reads the rest of the listing. */
  lemma {:induction false} AfterFullPage(snapshots: seq<set<Key>>, cursor: Option<Key>, limit: nat)
    requires limit > 0 && |snapshots| > 1 && OnlyNewerChanges(snapshots, cursor, limit)
    requires ReadPage(snapshots[0], cursor, limit).next.Some?
    ensures var p, all := ReadPage(snapshots[0], cursor, limit), Listing(After(snapshots[0], cursor));
            && OnlyNewerChanges(snapshots[1..], p.next, limit)
            && limit < |all| == |After(snapshots[0], cursor)| && p.items == all[..limit]
            && Listing(After(snapshots[1], p.next)) == all[limit..]
            && |After(snapshots[1], p.next)| == |all| - limit
  {
    var p, all := ReadPage(snapshots[0], cursor, limit), Listing(After(snapshots[0], cursor));
    PageFacts(snapshots[0], cursor, limit);
    ListingIsSorted(After(snapshots[0], cursor));
    RestOfListing(snapshots[0], cursor, limit);
    ListingIsSorted(After(snapshots[1], p.next));
  }

  /**
   If only rows newer than the cursor appear or disappear between the pages, the pages concatenate
   to exactly the listing that the first page was cut from, in ceil(n / limit) pages, or one if
   there is nothing to list.
   */
  lemma {:induction false} WalkIsTheListing(snapshots: seq<set<Key>>, cursor: Option<Key>, limit: nat)
    requires limit > 0 && snapshots != [] && OnlyNewerChanges(snapshots, cursor, limit)
    requires |snapshots| >= PagesNeeded(|After(snapshots[0], cursor)|, limit)
    ensures Follow(snapshots, cursor, limit) ==
            Walk(Listing(After(snapshots[0], cursor)), PagesNeeded(|After(snapshots[0], cursor)|, limit), true)
    decreases |snapshots|
  {
    var p, all := ReadPage(snapshots[0], cursor, limit), Listing(After(snapshots[0], cursor));
    PageFacts(snapshots[0], cursor, limit);
    if p.next.Some? {
      assert PagesNeeded(|After(snapshots[0], cursor)|, limit) > 1;
      AfterFullPage(snapshots, cursor, limit);
      assert snapshots[1..][0] == snapshots[1];
      WalkIsTheListing(snapshots[1..], p.next, limit);
      var rest := Follow(snapshots[1..], p.next, limit);
      assert Follow(snapshots, cursor, limit) == Walk(p.items + rest.items, rest.pages + 1, rest.finished);
      assert all[..limit] + all[limit..] == all;
    } else {
      assert Follow(snapshots, cursor, limit) == Walk(p.items, 1, true);
    }
  }

  // ---- the platform audit list: a cursor bound to its filter -----------------------------------------

  datatype Filter = Filter(from: Option<Ms>, to: Option<Ms>, admin: Option<nat>, action: Option<string>,
                           result: Option<string>, tenant: Option<nat>)

  datatype AuditRow = AuditRow(admin: Option<nat>, action: string, result: string, tenant: Option<nat>)

  /** sha256 of the filter is treated as injective, so the cursor carries the filter itself. */
  datatype BoundCursor = BoundCursor(key: Key, filter: Filter)

  datatype AuditPage = InvalidRange | InvalidCursor | Unavailable | Listed(items: seq<Key>, next: Option<BoundCursor>)

  predicate Matches(f: Filter, k: Key, row: AuditRow) {
    && (f.from.Some? ==> f.from.value <= k.createdAt) && (f.to.Some? ==> k.createdAt <= f.to.value)
    && (f.admin.Some? ==> row.admin == f.admin) && (f.action.Some? ==> row.action == f.action.value)
    && (f.result.Some? ==> row.result == f.result.value) && (f.tenant.Some? ==> row.tenant == f.tenant)
  }

  function Matching(table: map<Key, AuditRow>, f: Filter): set<Key> {
    set k | k in table && Matches(f, k, table[k])
  }

  /** `recorded` says whether the audit entry of the query itself was written. */
  ghost function PlatformList(table: map<Key, AuditRow>, f: Filter, cursor: Option<BoundCursor>, limit: nat, recorded: bool): AuditPage
    requires limit > 0
  {
    if f.from.Some? && f.to.Some? && f.from.value > f.to.value then InvalidRange
    else if cursor.Some? && cursor.value.filter != f then InvalidCursor
    else
      var p := ReadPage(Matching(table, f), if cursor.Some? then Some(cursor.value.key) else None, limit);
      if !recorded then Unavailable
      else Listed(p.items, if p.next.Some? then Some(BoundCursor(p.next.value, f)) else None)
  }

  /**
   A cursor continues the listing of its own filter and is refused under every other one: the next
   page holds exactly the following rows of the same listing, provided that only newer rows, such
   as the query's own audit entry, were added meanwhile.
   */
  lemma {:induction false} CursorContinuesItsFilter(
    table: map<Key, AuditRow>, later: map<Key, AuditRow>, f: Filter, g: Filter, limit: nat)
    requires limit > 0
    requires var first := PlatformList(table, f, None, limit, true);
             && first.Listed? && first.next.Some?
             && After(Matching(later, f), Some(first.next.value.key)) == After(Matching(table, f), Some(first.next.value.key))
    requires g.from.Some? && g.to.Some? ==> g.from.value <= g.to.value
    ensures var first := PlatformList(table, f, None, limit, true);
            var second := PlatformList(later, g, first.next, limit, true);
            && (second == InvalidCursor <==> g != f)
            && (g == f ==> second.Listed? && first.items + second.items <= Listing(Matching(table, f)))
  {
    var rows := Matching(table, f);
    var first := PlatformList(table, f, None, limit, true);
    var key := Some(first.next.value.key);
    PageFacts(rows, None, limit);
    PageFacts(Matching(later, f), key, limit);
    RestOfListing(rows, None, limit);
    assert After(rows, None) == rows;
    var all := Listing(rows);
    assert first.items == all[..limit] && all == all[..limit] + all[limit..];
    if g == f {
      var second := PlatformList(later, g, first.next, limit, true);
      assert second.items <= all[limit..];
      assert first.items + second.items == all[..limit + |second.items|];
    }
  }

  /** The row satisfies every criterion that is given; the two time bounds are inclusive. */
  predicate Satisfies(f: Filter, k: Key, row: AuditRow) {
    && (f.from.Some? && k.createdAt < f.from.value ==> false)
    && (f.to.Some? && k.createdAt > f.to.value ==> false)
    && (f.admin == None || f.admin == row.admin) && (f.action == None || f.action == Some(row.action))
    && (f.result == None || f.result == Some(row.result)) && (f.tenant == None || f.tenant == row.tenant)
  }

  /**
   Which rows a filter shows: a finished walk over a table at rest lists a row exactly if it satisfies
   every given criterion, so that no criterion shows every row, and each further one only hides rows.
   */
  lemma {:induction false} FilterShowsExactly(table: map<Key, AuditRow>, f: Filter, limit: nat, pages: nat, k: Key)
    requires limit > 0 && pages >= PagesNeeded(|Matching(table, f)|, limit)
    ensures var snapshots := seq(pages, i => Matching(table, f));
            && Follow(snapshots, None, limit).finished
            && (k in Follow(snapshots, None, limit).items <==> k in table && Satisfies(f, k, table[k]))
  {
    var rows := Matching(table, f);
    var snapshots := seq(pages, i => rows);
    assert After(rows, None) == rows;
    RestingTable(rows, pages, None, limit);
    WalkIsTheListing(snapshots, None, limit);
    ListingIsSorted(rows);
  }

  lemma {:induction false} RestingTable(rows: set<Key>, pages: nat, cursor: Option<Key>, limit: nat)
    requires limit > 0
    ensures OnlyNewerChanges(seq(pages, i => rows), cursor, limit)
    decreases pages
  {
    if pages > 1 {
      var p := ReadPage(rows, cursor, limit);
      RestingTable(rows, pages - 1, p.next, limit);
      assert seq(pages, i => rows)[1..] == seq(pages - 1, i => rows);
    }
  }

  /**
   What a client sees, in the fields of the rows: over any snapshots the newest come first, and of two
   created in one millisecond the one with the greater identifier; and a page of a resting table has as
   many items as fit, all of them behind the cursor.
   */
  lemma {:induction false} NewestComeFirst(snapshots: seq<set<Key>>, cursor: Option<Key>, limit: nat)
    requires limit > 0
    ensures var items := Follow(snapshots, cursor, limit).items;
            && (forall i, j | 0 <= i < j < |items| ::
                  items[i].createdAt > items[j].createdAt || (items[i].createdAt == items[j].createdAt && items[i].id > items[j].id))
            && (cursor.Some? ==> forall k | k in items ::
                  k.createdAt < cursor.value.createdAt || (k.createdAt == cursor.value.createdAt && k.id < cursor.value.id))
  {
    WalkIsOrdered(snapshots, cursor, limit);
  }

  lemma {:induction false} PagesAreFull(rows: set<Key>, limit: nat)
    requires limit > 0
    ensures var p := ReadPage(rows, None, limit);
            && |p.items| == (if |rows| <= limit then |rows| else limit)
            && (p.next.Some? <==> |rows| > limit)
            && (p.next.Some? ==> p.next.value == p.items[limit - 1])
            && (forall k | k in p.items :: k in rows)
            && (forall k | k in rows && k !in p.items && |p.items| > 0 ::
                  var last := p.items[|p.items| - 1];
                  k.createdAt < last.createdAt || (k.createdAt == last.createdAt && k.id < last.id))
  {
    assert After(rows, None) == rows;
    ListingIsSorted(rows);
    PageFacts(rows, None, limit);
    var p, all := ReadPage(rows, None, limit), Listing(rows);
    forall k | k in rows && k !in p.items && |p.items| > 0 ensures Newer(p.items[|p.items| - 1], k) {
      assert k in all;
      var i :| 0 <= i < |all| && all[i] == k;
      forall n | 0 <= n < |p.items| ensures all[n] in p.items { assert all[n] == p.items[n]; }
      assert p.items[|p.items| - 1] == all[|p.items| - 1];
    }
  }

  /** A listing is given only if the query has been recorded; an invalid range or cursor is refused before. */
  lemma NothingUnrecordedIsListed(table: map<Key, AuditRow>, f: Filter, cursor: Option<BoundCursor>, limit: nat, recorded: bool)
    requires limit > 0
    ensures var page := PlatformList(table, f, cursor, limit, recorded);
            var invalid := f.from.Some? && f.to.Some? && f.to.value < f.from.value;
            && (page == InvalidRange <==> invalid)
            && (page == InvalidCursor <==> !invalid && cursor.Some? && cursor.value.filter != f)
            && (page.Listed? <==> !invalid && (cursor.Some? ==> cursor.value.filter == f) && recorded)
            && (page.Listed? && page.next.Some? ==> page.next.value.filter == f)
  {
  }
}
