/**
 Keyset pagination of the database list: rows in (created_at, id) descending order, a cursor naming the
 last row of a page, and limit + 1 rows fetched to see whether another page exists.
 */
module TargetPages {
  import opened Wrappers

  /** The sort key of a row, which identifies it. */
  datatype Key = Key(createdAt: int, id: nat)

  /** What a query looks at in a row of database_targets. */
  datatype Row = Row(key: Key, account: nat, deleted: bool, team: Option<nat>)

  datatype Scope = Scope(all: bool, teams: set<nat>)

  const SCOPE_ALL: Scope := Scope(true, {})

  /** The account's live rows in scope; a row without a team is in every scope. */
  function Visible(table: set<Row>, account: nat, scope: Scope): set<Key> {
    set r | r in table && r.account == account && !r.deleted
            && (scope.all || r.team.None? || r.team.value in scope.teams) :: r.key
  }

  /** A row the query may list. */
  predicate Listable(r: Row, account: nat, scope: Scope, after: Option<Key>) {
    && r.account == account && !r.deleted
    && (scope.all || r.team.None? || r.team.value in scope.teams)
    && (after.Some? ==> Less(r.key, after.value))
  }

  /** The order of (created_at, id): created_at decides, and among equal ones the id. */
  predicate Less(a: Key, b: Key): (r: bool)
    ensures a.createdAt < b.createdAt ==> r
    ensures b.createdAt < a.createdAt ==> !r
    ensures a.createdAt == b.createdAt ==> (r <==> a.id < b.id)
  { a.createdAt < b.createdAt || (a.createdAt == b.createdAt && a.id < b.id) }

  predicate Descending(xs: seq<Key>) { forall i, j :: 0 <= i < j < |xs| ==> Less(xs[j], xs[i]) }

  /** The sequence lists the set, each row once, newest first. */
  ghost predicate Lists(xs: seq<Key>, rows: set<Key>) {
    Descending(xs) && forall k :: k in xs <==> k in rows
  }

  function Below(rows: set<Key>, after: Option<Key>): set<Key> {
    set k | k in rows && (after.Some? ==> Less(k, after.value))
  }

  // ---- the query ----

  method Greatest(rows: set<Key>) returns (m: Key)
    requires rows != {}
    ensures m in rows && forall k :: k in rows && k != m ==> Less(k, m)
  {
    m :| m in rows;
    var todo := rows - {m};
    while todo != {}
      invariant m in rows && m !in todo && todo <= rows
      invariant forall k :: k in rows && k !in todo && k != m ==> Less(k, m)
      decreases todo
    {
      var k :| k in todo;
      if Less(m, k) { m := k; }
      todo := todo - {k};
    }
  }

  /** The rows below the cursor, newest first, at most `limit` of them. */
  method ListTargetsPage(table: set<Row>, account: nat, scope: Scope, after: Option<Key>, limit: nat)
    returns (page: seq<Key>)
    ensures exists all ::
              && Lists(all, Below(Visible(table, account, scope), after))
              && page == all[..if limit < |all| then limit else |all|]
    ensures forall k :: k in page ==> exists r :: r in table && r.key == k && Listable(r, account, scope, after)
    ensures forall i, j :: 0 <= i < j < |page| ==> Less(page[j], page[i])
    ensures forall r :: r in table && Listable(r, account, scope, after) && r.key !in page ==>
              |page| == limit && forall i :: 0 <= i < |page| ==> Less(r.key, page[i])
    ensures |page| <= limit
  {
    var rows := Visible(table, account, scope);
    page := [];
    var todo := Below(rows, after);
    while todo != {}
      invariant todo <= Below(rows, after)
      invariant Descending(page) && forall k :: k in page <==> k in Below(rows, after) && k !in todo
      invariant forall k, p :: k in todo && p in page ==> Less(k, p)
      decreases todo
    {
      var m := Greatest(todo);
      assert forall i :: 0 <= i < |page| ==> page[i] in page && Less(m, page[i]);
      page := page + [m];
      todo := todo - {m};
    }
    ghost var all := page;
    assert Lists(all, Below(rows, after));
    if limit < |page| { page := page[..limit]; }
    assert page == all[..if limit < |all| then limit else |all|];
    PageExactly(table, account, scope, after, limit, page, all);
  }

  /** What the listing and its cut mean row by row. */
  lemma PageExactly(table: set<Row>, account: nat, scope: Scope, after: Option<Key>, limit: nat, page: seq<Key>, all: seq<Key>)
    requires Lists(all, Below(Visible(table, account, scope), after))
    requires page == all[..if limit < |all| then limit else |all|]
    ensures forall k :: k in page ==> exists r :: r in table && r.key == k && Listable(r, account, scope, after)
    ensures forall i, j :: 0 <= i < j < |page| ==> Less(page[j], page[i])
    ensures forall r :: r in table && Listable(r, account, scope, after) && r.key !in page ==>
              |page| == limit && forall i :: 0 <= i < |page| ==> Less(r.key, page[i])
  {
    forall k | k in page ensures exists r :: r in table && r.key == k && Listable(r, account, scope, after) {
      assert k in all;
    }
    forall r | r in table && Listable(r, account, scope, after) && r.key !in page
      ensures |page| == limit && forall i :: 0 <= i < |page| ==> Less(r.key, page[i])
    {
      assert r.key in Below(Visible(table, account, scope), after) && r.key in all;
      var x :| 0 <= x < |all| && all[x] == r.key;
      assert forall y :: 0 <= y < |page| ==> page[y] in page;
    }
  }

  lemma {:induction false} ListsCount(xs: seq<Key>, rows: set<Key>)
    requires Lists(xs, rows)
    ensures |xs| == |rows|
    decreases |xs|
  {
    if xs == [] {
      assert rows == {};
    } else {
      assert xs[0] in xs;
      Rest(xs, rows);
      ListsCount(xs[1..], rows - {xs[0]});
    }
  }

  /** There is only one such listing, so the query has one answer. */
  lemma {:induction false} ListingUnique(xs: seq<Key>, ys: seq<Key>, rows: set<Key>)
    requires Lists(xs, rows) && Lists(ys, rows)
    ensures xs == ys
    decreases |xs|
  {
    ListsCount(xs, rows);
    ListsCount(ys, rows);
    if xs != [] {
      var m := xs[0];
      assert m in xs && m in ys;
      var j :| 0 <= j < |ys| && ys[j] == m;
      assert ys[0] in ys && ys[0] in xs;
      var i :| 0 <= i < |xs| && xs[i] == ys[0];
      assert ys[0] == m;
      Rest(xs, rows);
      Rest(ys, rows);
      ListingUnique(xs[1..], ys[1..], rows - {m});
    }
  }

  lemma Rest(xs: seq<Key>, rows: set<Key>)
    requires Lists(xs, rows) && xs != []
    ensures Lists(xs[1..], rows - {xs[0]})
  {
    forall k ensures k in xs[1..] <==> k in rows - {xs[0]} {
      if k in xs && k != xs[0] {
        var i :| 0 <= i < |xs| && xs[i] == k;
        assert xs[1..][i - 1] == k;
      }
      if k in xs[1..] {
        var i :| 0 <= i < |xs[1..]| && xs[1..][i] == k;
        assert xs[i + 1] == k;
      }
    }
  }

  // ---- the handler ----

  /** A query parameter: absent, present but unreadable, or a value. */
  datatype Param<T> = Absent | Unreadable | Given(value: T)

  datatype PageParams = BadRequest | Params(limit: nat, after: Option<Key>)

  /** ?limit= and ?cursor=: every accepted request asks for 1 to 100 rows, as many as it named up to 100,
      and starts after the cursor it carries. */
  function ParsePageParams(limit: Param<int>, cursor: Param<Key>): (r: PageParams)
    ensures r.BadRequest? <==> limit.Unreadable? || (limit.Given? && limit.value < 1) || cursor.Unreadable?
    ensures r.Params? ==> 1 <= r.limit <= 100 && (r.after.Some? <==> cursor.Given?)
    ensures r.Params? && limit.Given? ==> r.limit <= limit.value && (r.limit == limit.value || r.limit == 100)
    ensures r.Params? && limit.Absent? ==> r.limit == 25
    ensures r.Params? && cursor.Given? ==> r.after == Some(cursor.value)
  {
    if limit.Unreadable? || (limit.Given? && limit.value < 1) || cursor.Unreadable? then BadRequest
    else
      Params(if limit.Absent? then 25 else if limit.value > 100 then 100 else limit.value,
             if cursor.Given? then Some(cursor.value) else None)
  }

  /** The API lists the whole account. */
  function Databases(table: set<Row>, account: nat): set<Key> { Visible(table, account, SCOPE_ALL) }

  /** The page is the head of the listing, and its last row is the cursor exactly if more rows remain. */
  predicate IsPage(page: seq<Key>, next: Option<Key>, all: seq<Key>, limit: nat)
    requires limit >= 1
  {
    && page == all[..if limit < |all| then limit else |all|]
    && next == if limit < |all| then Some(all[limit - 1]) else None
  }

  /** One page: at most `limit` rows, and the last of them as cursor if more remain. */
  method ListDatabases(table: set<Row>, account: nat, after: Option<Key>, limit: nat)
    returns (page: seq<Key>, next: Option<Key>)
    requires limit >= 1
    ensures exists all :: Lists(all, Below(Databases(table, account), after)) && IsPage(page, next, all, limit)
  {
    page := ListTargetsPage(table, account, SCOPE_ALL, after, limit + 1);
    ghost var all :| Lists(all, Below(Databases(table, account), after)) && page == all[..if limit + 1 < |all| then limit + 1 else |all|];
    next := None;
    if |page| > limit {
      next := Some(page[limit - 1]);
      page := page[..limit];
    }
    assert IsPage(page, next, all, limit);
  }

  // ---- following next_cursor ----

  /** The table when page i is fetched.  Rows may come and go; one that comes is newer than every row there
      at the start. */
  ghost predicate OnlyNewer(tables: nat -> set<Row>, account: nat) {
    forall i: nat, k :: k in Databases(tables(i), account) ==>
      k in Databases(tables(0), account) || forall j :: j in Databases(tables(0), account) ==> Less(j, k)
  }

  /** Rows there while every page is fetched. */
  ghost predicate Lasts(tables: nat -> set<Row>, account: nat, k: Key) {
    forall i: nat :: k in Databases(tables(i), account)
  }

  ghost predicate Keeps(tables: nat -> set<Row>, account: nat) {
    forall k :: k in Databases(tables(0), account) ==> Lasts(tables, account, k)
  }

  /** A page below a cursor of the first table holds rows of the first table only, descending below it. */
  lemma PageBelow(tables: nat -> set<Row>, account: nat, i: nat, c: Option<Key>, page: seq<Key>, next: Option<Key>,
                  all: seq<Key>, limit: nat)
    requires OnlyNewer(tables, account) && limit >= 1
    requires c.Some? ==> c.value in Databases(tables(0), account)
    requires c.None? ==> i == 0
    requires Lists(all, Below(Databases(tables(i), account), c)) && IsPage(page, next, all, limit)
    ensures Descending(page)
    ensures forall k :: k in page ==> k in Databases(tables(0), account) && (c.Some? ==> Less(k, c.value))
    ensures next.Some? ==> |page| == limit && next.value == page[limit - 1]
    ensures forall k :: k in Databases(tables(i), account) && (c.Some? ==> Less(k, c.value)) && k !in page ==>
              next.Some? && Less(k, next.value)
    ensures next.Some? ==> Below(Databases(tables(0), account), next) != {}
    ensures Below(Databases(tables(i), account), c) != {} ==> page != []
  {
    forall k | k in page ensures k in Databases(tables(0), account) && (c.Some? ==> Less(k, c.value)) {
      assert k in all;
    }
    forall k | k in Databases(tables(i), account) && (c.Some? ==> Less(k, c.value)) && k !in page
      ensures next.Some? && Less(k, next.value)
    {
      assert k in all;
      var x :| 0 <= x < |all| && all[x] == k;
      assert forall y :: 0 <= y < |page| ==> page[y] in page;
    }
    if next.Some? {
      assert all[limit] in all && Less(all[limit], next.value);
      assert all[limit] in Below(Databases(tables(0), account), next);
    }
    if k :| k in Below(Databases(tables(i), account), c) { assert k in all; }
  }

  /** What holds of the rows collected so far and the cursor to follow. */
  ghost predicate Walked(tables: nat -> set<Row>, account: nat, out: seq<Key>, next: Option<Key>) {
    && Descending(out)
    && (forall k :: k in out ==> k in Databases(tables(0), account))
    && (next.Some? ==> out != [] && next.value == out[|out| - 1])
    && (next.Some? ==> Below(Databases(tables(0), account), next) != {})
    && (forall k :: Lasts(tables, account, k) && k !in out ==> next.Some? && Less(k, next.value))
  }

  lemma WalkedFirst(tables: nat -> set<Row>, account: nat, page: seq<Key>, next: Option<Key>, all: seq<Key>, limit: nat)
    requires OnlyNewer(tables, account) && limit >= 1
    requires Lists(all, Below(Databases(tables(0), account), None)) && IsPage(page, next, all, limit)
    ensures Walked(tables, account, page, next)
    ensures PagesFilled(|page|, next.Some?, 1, limit, Keeps(tables, account))
  {
    PageBelow(tables, account, 0, None, page, next, all, limit);
  }

  lemma WalkedOut(tables: nat -> set<Row>, account: nat, out: seq<Key>)
    requires Walked(tables, account, out, None)
    ensures forall k :: Lasts(tables, account, k) ==> k in out
    ensures Keeps(tables, account) ==> Lists(out, Databases(tables(0), account))
  {
    if Keeps(tables, account) {
      assert forall k :: k in Databases(tables(0), account) ==> Lasts(tables, account, k);
    }
  }

  lemma WalkedOn(tables: nat -> set<Row>, account: nat, out: seq<Key>, c: Option<Key>, i: nat,
                 page: seq<Key>, next: Option<Key>, all: seq<Key>, limit: nat)
    requires OnlyNewer(tables, account) && limit >= 1 && Walked(tables, account, out, c) && c.Some?
    requires Lists(all, Below(Databases(tables(i), account), c)) && IsPage(page, next, all, limit)
    ensures Walked(tables, account, out + page, next)
    ensures |page| <= limit && (next.Some? ==> |page| == limit)
    ensures next.Some? ==> |Below(Databases(tables(0), account), next)| < |Below(Databases(tables(0), account), c)|
    ensures Keeps(tables, account) ==> page != []
  {
    assert c.value in out;
    PageBelow(tables, account, i, c, page, next, all, limit);
    JoinDescending(out, page);
    if next.Some? {
      assert next.value in page;
      BelowShrinks(Databases(tables(0), account), c.value, next.value);
    }
    if Keeps(tables, account) { BelowKept(tables, account, i, c); }
  }

  /** Following next_cursor from the first page terminates and yields, newest first and none twice, only
      rows present at the start and all rows present throughout, although rows are deleted and newer ones
      arrive meanwhile.  If none is deleted, these are exactly the rows present at the start, in the least
      number of pages. */
  method Walk(tables: nat -> set<Row>, account: nat, limit: nat) returns (out: seq<Key>, pages: nat)
    requires 1 <= limit && OnlyNewer(tables, account)
    ensures Descending(out)
    ensures forall k :: k in out ==> k in Databases(tables(0), account)
    ensures forall i, j :: 0 <= i < j < |out| ==> Less(out[j], out[i])
    ensures forall k :: k in out ==> exists r :: r in tables(0) && r.key == k && r.account == account && !r.deleted
    ensures forall k :: Lasts(tables, account, k) ==> k in out
    ensures Keeps(tables, account) ==> Lists(out, Databases(tables(0), account))
    ensures pages >= 1 && (pages - 1) * limit <= |out| <= pages * limit
    ensures Keeps(tables, account) && pages > 1 ==> (pages - 1) * limit < |out|
  {
    var page, next := ListDatabases(tables(0), account, None, limit);
    ghost var all :| Lists(all, Below(Databases(tables(0), account), None)) && IsPage(page, next, all, limit);
    WalkedFirst(tables, account, page, next, all, limit);
    out, pages := page, 1;
    while next.Some?
      invariant Walked(tables, account, out, next)
      invariant PagesFilled(|out|, next.Some?, pages, limit, Keeps(tables, account))
      decreases next.Some?, |Below(Databases(tables(0), account), next)|
    {
      ghost var c := next;
      page, next := ListDatabases(tables(pages), account, next, limit);
      all :| Lists(all, Below(Databases(tables(pages), account), c)) && IsPage(page, next, all, limit);
      WalkedOn(tables, account, out, c, pages, page, next, all, limit);
      PagesFilledOn(|out|, pages, limit, Keeps(tables, account), |page|, next.Some?);
      out, pages := out + page, pages + 1;
    }
    WalkedOut(tables, account, out);
  }

  /** All pages but the last are full, and the last is not empty if no row was deleted. */
  predicate PagesFilled(n: nat, more: bool, pages: nat, limit: nat, kept: bool) {
    && pages >= 1 && (pages - 1) * limit <= n <= pages * limit
    && (more ==> n == pages * limit)
    && (kept && pages > 1 ==> (pages - 1) * limit < n)
  }

  lemma PagesFilledOn(n: nat, pages: nat, limit: nat, kept: bool, added: nat, more: bool)
    requires PagesFilled(n, true, pages, limit, kept)
    requires added <= limit && (more ==> added == limit) && (kept ==> added > 0)
    ensures PagesFilled(n + added, more, pages + 1, limit, kept)
  {
    assert (pages + 1) * limit == pages * limit + limit;
  }

  lemma BelowKept(tables: nat -> set<Row>, account: nat, i: nat, c: Option<Key>)
    requires Keeps(tables, account) && Below(Databases(tables(0), account), c) != {}
    ensures Below(Databases(tables(i), account), c) != {}
  {
    var k :| k in Below(Databases(tables(0), account), c);
    assert Lasts(tables, account, k);
    assert k in Below(Databases(tables(i), account), c);
  }

  lemma JoinDescending(xs: seq<Key>, ys: seq<Key>)
    requires Descending(xs) && Descending(ys) && xs != []
    requires forall k :: k in ys ==> Less(k, xs[|xs| - 1])
    ensures Descending(xs + ys)
  {
    assert forall j :: 0 <= j < |ys| ==> ys[j] in ys;
  }

  lemma BelowShrinks(rows: set<Key>, c: Key, d: Key)
    requires d in rows && Less(d, c)
    ensures |Below(rows, Some(d))| < |Below(rows, Some(c))|
  {
    var x, y := Below(rows, Some(d)), Below(rows, Some(c));
    assert x <= y - {d};
    SubsetSize(x, y - {d});
  }

  lemma {:induction false} SubsetSize(x: set<Key>, y: set<Key>)
    requires x <= y
    ensures |x| <= |y|
  {
    assert y == x + (y - x);
  }
}
