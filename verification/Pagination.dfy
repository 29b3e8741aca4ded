/** Paging through a resource's versions (atc/db/resource.go), on a table in which no two
    versions share a check_order. */
module Pagination {
  import opened Wrappers
  import opened VersionOrder

  datatype Row = Row(version: Version, order: nat)

  /** The versions of the resource's scope by row id. */
  type Table = map<nat, Row>

  /** The check_order of the rows of other scopes, which a page bound may name. */
  type Elsewhere = map<nat, nat>

  datatype Page = Page(from: Option<nat>, to: Option<nat>, limit: nat)

  datatype Links = Links(newer: Option<Page>, older: Option<Page>)

  ghost predicate DistinctOrders(t: Table) {
    forall a, b :: a in t && b in t && a != b ==> t[a].order != t[b].order
  }

  /** The table of a scope in a committed state has distinct orders. */
  lemma ScopeIsDistinct(m: Orders, t: Table)
    requires Ordered(m)
    requires forall a :: a in t ==> t[a].version in m && t[a].order == m[t[a].version]
    requires forall a, b :: a in t && b in t && a != b ==> t[a].version != t[b].version
    ensures DistinctOrders(t)
  {
  }

  predicate Contains(version: Version, filter: Version) {
    forall k :: k in filter ==> k in version && version[k] == filter[k]
  }

  function Matching(t: Table, filter: Version): set<nat> {
    set a | a in t && Contains(t[a].version, filter)
  }

  function UpTo(t: Table, s: set<nat>, order: nat): set<nat>
    requires s <= t.Keys
  {
    set a | a in s && t[a].order <= order
  }

  function DownTo(t: Table, s: set<nat>, order: nat): set<nat>
    requires s <= t.Keys
  {
    set a | a in s && t[a].order >= order
  }

  function Below(t: Table, s: set<nat>, order: nat): set<nat>
    requires s <= t.Keys
  {
    set a | a in s && t[a].order < order
  }

  function Above(t: Table, s: set<nat>, order: nat): set<nat>
    requires s <= t.Keys
  {
    set a | a in s && t[a].order > order
  }

  // ---- sorting ----

  predicate IsTop(t: Table, s: set<nat>, a: nat)
    requires s <= t.Keys
  {
    a in s && forall b :: b in s ==> t[b].order <= t[a].order
  }

  predicate IsBottom(t: Table, s: set<nat>, a: nat)
    requires s <= t.Keys
  {
    a in s && forall b :: b in s ==> t[a].order <= t[b].order
  }

  lemma TopExists(t: Table, s: set<nat>)
    requires s != {} && s <= t.Keys
    ensures exists a :: IsTop(t, s, a)
  {
    var orders := set a | a in s :: t[a].order;
    var x :| x in s;
    assert t[x].order in orders;
    var bound := Max(orders);
    var a :| a in s && t[a].order == bound;
    forall b | b in s ensures t[b].order <= bound { assert t[b].order in orders; }
    assert IsTop(t, s, a);
  }

  lemma BottomExists(t: Table, s: set<nat>)
    requires s != {} && s <= t.Keys
    ensures exists a :: IsBottom(t, s, a)
  {
    var orders := set a | a in s :: t[a].order;
    var x :| x in s;
    assert t[x].order in orders;
    var bound := Min(orders);
    var a :| a in s && t[a].order == bound;
    forall b | b in s ensures bound <= t[b].order { assert t[b].order in orders; }
    assert IsBottom(t, s, a);
  }

  function Top(t: Table, s: set<nat>): (a: nat)
    requires s != {} && s <= t.Keys && DistinctOrders(t)
    ensures IsTop(t, s, a)
  {
    TopExists(t, s);
    var a :| a in s && IsTop(t, s, a);
    a
  }

  function Bottom(t: Table, s: set<nat>): (a: nat)
    requires s != {} && s <= t.Keys && DistinctOrders(t)
    ensures IsBottom(t, s, a)
  {
    BottomExists(t, s);
    var a :| a in s && IsBottom(t, s, a);
    a
  }

  /** The rows by descending check_order. */
  function Desc(t: Table, s: set<nat>): seq<nat>
    requires s <= t.Keys && DistinctOrders(t)
    decreases |s|
  {
    if s == {} then [] else [Top(t, s)] + Desc(t, s - {Top(t, s)})
  }

  ghost predicate Higher(t: Table, a: nat, b: nat) {
    a in t && b in t && t[a].order > t[b].order
  }

  /** Strictly descending check_order. */
  ghost predicate Descending(t: Table, l: seq<nat>) {
    forall i, j :: 0 <= i < j < |l| ==> Higher(t, l[i], l[j])
  }

  lemma DescendingCons(t: Table, a: nat, l: seq<nat>)
    requires a in t && Descending(t, l) && forall b :: b in l ==> b in t && t[b].order < t[a].order
    ensures Descending(t, [a] + l)
  {
    var m := [a] + l;
    forall i, j | 0 <= i < j < |m| ensures Higher(t, m[i], m[j]) {
      assert m[j] == l[j - 1] && l[j - 1] in l;
      if i > 0 { assert m[i] == l[i - 1]; }
    }
  }

  /** Each row once, by strictly descending check_order. */
  lemma {:induction false} DescSorts(t: Table, s: set<nat>)
    requires s <= t.Keys && DistinctOrders(t)
    ensures var l := Desc(t, s);
            |l| == |s| && (forall a :: a in l <==> a in s) && Descending(t, l)
    decreases |s|
  {
    if s != {} {
      var a := Top(t, s);
      DescSorts(t, s - {a});
      assert forall b :: b in s - {a} ==> t[b].order < t[a].order;
      DescendingCons(t, a, Desc(t, s - {a}));
    }
  }

  lemma DescTop(t: Table, s: set<nat>, a: nat)
    requires s <= t.Keys && DistinctOrders(t) && IsTop(t, s, a)
    ensures Desc(t, s) == [a] + Desc(t, s - {a})
  {
  }

  /** Around any element, the sorted list falls into the rows above and those below. */
  lemma {:induction false} DescSplit(t: Table, s: set<nat>, i: nat)
    requires s <= t.Keys && DistinctOrders(t) && i < |Desc(t, s)|
    ensures Desc(t, s)[i] in s
    ensures var order := t[Desc(t, s)[i]].order;
            && Desc(t, s)[..i] == Desc(t, Above(t, s, order))
            && Desc(t, s)[i + 1..] == Desc(t, Below(t, s, order))
    decreases i
  {
    var a := Top(t, s);
    var rest := s - {a};
    var l := Desc(t, rest);
    ConsSlices(a, l, i);
    if i == 0 {
      TopSplit(t, s, a, t[a].order);
    } else {
      DescSplit(t, rest, i - 1);
      TopSplit(t, s, a, t[l[i - 1]].order);
    }
  }

  lemma ConsSlices(a: nat, l: seq<nat>, i: nat)
    requires i <= |l|
    ensures i == 0 ==> ([a] + l)[..i] == [] && ([a] + l)[i + 1..] == l
    ensures i > 0 ==> ([a] + l)[i] == l[i - 1] && ([a] + l)[..i] == [a] + l[..i - 1] && ([a] + l)[i + 1..] == l[i..]
  {
  }

  /** Setting the top row aside changes the rows above a bound by it alone. */
  lemma TopSplit(t: Table, s: set<nat>, a: nat, order: nat)
    requires s <= t.Keys && DistinctOrders(t) && IsTop(t, s, a)
    ensures order == t[a].order ==> Above(t, s, order) == {} && Below(t, s, order) == s - {a}
    ensures order < t[a].order ==>
              && Below(t, s, order) == Below(t, s - {a}, order)
              && Desc(t, Above(t, s, order)) == [a] + Desc(t, Above(t, s - {a}, order))
  {
    if order < t[a].order {
      assert IsTop(t, Above(t, s, order), a);
      DescTop(t, Above(t, s, order), a);
      assert Above(t, s, order) - {a} == Above(t, s - {a}, order);
    }
  }

  // ---- one page ----

  function Take<T>(l: seq<T>, n: nat): seq<T> {
    if |l| <= n then l else l[..n]
  }

  function TakeLast<T>(l: seq<T>, n: nat): seq<T> {
    if |l| <= n then l else l[|l| - n..]
  }

  /** The check_order of the row a bound names, looked up by id alone. */
  function OrderOf(t: Table, others: Elsewhere, id: nat): Option<nat> {
    if id in t then Some(t[id].order) else if id in others then Some(others[id]) else None
  }

  /** The rows the page query selects; a bound on a row that is not there selects none. */
  function Rows(t: Table, others: Elsewhere, page: Page, filter: Version): seq<nat>
    requires DistinctOrders(t)
  {
    var all := Matching(t, filter);
    if page.from.Some? then
      match OrderOf(t, others, page.from.value)
      case None => []
      case Some(bound) => TakeLast(Desc(t, DownTo(t, all, bound)), page.limit)
    else if page.to.Some? then
      match OrderOf(t, others, page.to.value)
      case None => []
      case Some(bound) => Take(Desc(t, UpTo(t, all, bound)), page.limit)
    else Take(Desc(t, all), page.limit)
  }

  /** The links of a page from its newest to its oldest row; they ignore the filter. */
  function LinksOf(t: Table, newest: nat, oldest: nat, limit: nat): Links
    requires DistinctOrders(t) && newest in t && oldest in t
  {
    var newer, older := Above(t, t.Keys, t[newest].order), Below(t, t.Keys, t[oldest].order);
    Links(if newer == {} then None else Some(Page(Some(Bottom(t, newer)), None, limit)),
          if older == {} then None else Some(Page(None, Some(Top(t, older)), limit)))
  }

  lemma RowsInTable(t: Table, others: Elsewhere, page: Page, filter: Version)
    requires DistinctOrders(t)
    ensures forall a :: a in Rows(t, others, page, filter) ==> a in t
  {
    var all := Matching(t, filter);
    DescSorts(t, all);
    if page.from.Some? && OrderOf(t, others, page.from.value).Some? {
      DescSorts(t, DownTo(t, all, OrderOf(t, others, page.from.value).value));
    }
    if page.to.Some? && OrderOf(t, others, page.to.value).Some? {
      DescSorts(t, UpTo(t, all, OrderOf(t, others, page.to.value).value));
    }
  }

  function PageLinks(t: Table, others: Elsewhere, page: Page, filter: Version): Links
    requires DistinctOrders(t)
  {
    var rows := Rows(t, others, page, filter);
    RowsInTable(t, others, page, filter);
    if rows == [] then Links(None, None) else LinksOf(t, rows[0], rows[|rows| - 1], page.limit)
  }

  /** The two queries for the neighbours of a page. */
  method FindLinks(t: Table, newest: nat, oldest: nat, limit: nat) returns (links: Links)
    requires DistinctOrders(t) && newest in t && oldest in t
    ensures links == LinksOf(t, newest, oldest, limit)
  {
    var older, newer := None, None;
    var olderRows := Below(t, t.Keys, t[oldest].order);
    if olderRows != {} { older := Some(Page(None, Some(Top(t, olderRows)), limit)); }
    var newerRows := Above(t, t.Keys, t[newest].order);
    if newerRows != {} { newer := Some(Page(Some(Bottom(t, newerRows)), None, limit)); }
    links := Links(newer, older);
  }

  method Versions(t: Table, others: Elsewhere, page: Page, filter: Version) returns (versions: seq<Row>, links: Links)
    requires DistinctOrders(t)
    ensures links == PageLinks(t, others, page, filter)
    ensures var rows := Rows(t, others, page, filter);
            |versions| == |rows| && forall i :: 0 <= i < |rows| ==> rows[i] in t && versions[i] == t[rows[i]]
  {
    var rows := Rows(t, others, page, filter);
    RowsInTable(t, others, page, filter);
    versions := [];
    for i := 0 to |rows|
      invariant |versions| == i && forall k :: 0 <= k < i ==> versions[k] == t[rows[k]]
    {
      versions := versions + [t[rows[i]]];
    }
    if |versions| == 0 { return versions, Links(None, None); }
    links := FindLinks(t, rows[0], rows[|rows| - 1], page.limit);
  }

  // ---- walking the pages ----

  /** What is left after a page of rows up to some order is what the Older link leads to. */
  lemma OlderIsRest(t: Table, filter: Version, oldest: nat)
    requires DistinctOrders(t) && oldest in t
    ensures var all, link := Matching(t, filter), LinksOf(t, oldest, oldest, 1).older;
            Below(t, all, t[oldest].order)
            == if link.None? then {} else UpTo(t, all, t[Top(t, Below(t, t.Keys, t[oldest].order))].order)
  {
    var all, older := Matching(t, filter), Below(t, t.Keys, t[oldest].order);
    assert Below(t, all, t[oldest].order) <= older;
  }

  lemma NewerIsRest(t: Table, filter: Version, newest: nat)
    requires DistinctOrders(t) && newest in t
    ensures var all, link := Matching(t, filter), LinksOf(t, newest, newest, 1).newer;
            Above(t, all, t[newest].order)
            == if link.None? then {} else DownTo(t, all, t[Bottom(t, Above(t, t.Keys, t[newest].order))].order)
  {
    var all, newer := Matching(t, filter), Above(t, t.Keys, t[newest].order);
    assert Above(t, all, t[newest].order) <= newer;
  }

  /** How far the walk can still go down from the page. */
  function Height(t: Table, others: Elsewhere, page: Page): nat {
    if page.from.None? && page.to.Some? then
      match OrderOf(t, others, page.to.value)
      case None => 0
      case Some(bound) => bound
    else 0
  }

  lemma OlderDescends(t: Table, others: Elsewhere, page: Page, filter: Version)
    requires DistinctOrders(t) && page.from.None? && PageLinks(t, others, page, filter).older.Some?
    ensures var older := PageLinks(t, others, page, filter).older.value;
            older.from.None? && older.to.Some? && older.limit == page.limit && older.to.value in t
            && (page.to.Some? ==> Height(t, others, older) < Height(t, others, page))
  {
    var rows := Rows(t, others, page, filter);
    RowsInTable(t, others, page, filter);
    if page.to.Some? { DescSorts(t, UpTo(t, Matching(t, filter), OrderOf(t, others, page.to.value).value)); }
  }

  /** The pages from `page` on, following Older. */
  function WalkOlder(t: Table, others: Elsewhere, page: Page, filter: Version): seq<nat>
    requires DistinctOrders(t) && page.from.None?
    decreases if page.to.Some? then 0 else 1, Height(t, others, page)
  {
    var links := PageLinks(t, others, page, filter);
    Rows(t, others, page, filter)
    + if links.older.None? then []
      else (OlderDescends(t, others, page, filter); WalkOlder(t, others, links.older.value, filter))
  }

  /** The rows a walk that starts at `page` is to see. */
  function Wanted(t: Table, others: Elsewhere, page: Page, filter: Version): set<nat> {
    if page.to.None? then Matching(t, filter)
    else
      match OrderOf(t, others, page.to.value)
      case None => {}
      case Some(bound) => UpTo(t, Matching(t, filter), bound)
  }

  /** A page is the start of the rows still wanted; the rest is all older matching rows. */
  lemma OlderPage(t: Table, others: Elsewhere, page: Page, filter: Version)
    requires DistinctOrders(t) && page.from.None? && page.limit >= 1
    ensures var rows := Rows(t, others, page, filter);
            && (rows == [] ==> Wanted(t, others, page, filter) == {})
            && (rows != [] ==>
                  && rows[|rows| - 1] in t
                  && Desc(t, Wanted(t, others, page, filter)) == rows + Desc(t, Below(t, Matching(t, filter), t[rows[|rows| - 1]].order)))
  {
    var s := Wanted(t, others, page, filter);
    var l, rows := Desc(t, s), Rows(t, others, page, filter);
    assert rows == Take(l, page.limit);
    if rows != [] {
      var k := |rows| - 1;
      DescSplit(t, s, k);
      assert Below(t, s, t[l[k]].order) == Below(t, Matching(t, filter), t[l[k]].order);
      assert l == l[..k + 1] + l[k + 1..];
    }
  }

  /** ... and those are the rows the Older link leads to. */
  lemma OlderRest(t: Table, others: Elsewhere, page: Page, filter: Version)
    requires DistinctOrders(t) && page.from.None?
    ensures var rows, older := Rows(t, others, page, filter), PageLinks(t, others, page, filter).older;
            rows != [] ==>
              && rows[|rows| - 1] in t
              && Below(t, Matching(t, filter), t[rows[|rows| - 1]].order)
                 == if older.None? then {} else Wanted(t, others, older.value, filter)
  {
    var rows := Rows(t, others, page, filter);
    RowsInTable(t, others, page, filter);
    if rows != [] { OlderIsRest(t, filter, rows[|rows| - 1]); }
  }

  lemma {:induction false} OlderWalks(t: Table, others: Elsewhere, page: Page, filter: Version)
    requires DistinctOrders(t) && page.from.None? && page.limit >= 1
    ensures WalkOlder(t, others, page, filter) == Desc(t, Wanted(t, others, page, filter))
    decreases if page.to.Some? then 0 else 1, Height(t, others, page)
  {
    var older := PageLinks(t, others, page, filter).older;
    OlderPage(t, others, page, filter);
    OlderRest(t, others, page, filter);
    if older.Some? {
      OlderDescends(t, others, page, filter);
      OlderWalks(t, others, older.value, filter);
    }
  }

  /** The row has every key of the filter, with its value. */
  ghost predicate Fits(row: Row, filter: Version) {
    forall k :: k in filter ==> k in row.version && row.version[k] == filter[k]
  }

  /** Not above the row a bound names, of whatever scope; no row is so if there is none. */
  ghost predicate NotAbove(t: Table, others: Elsewhere, a: nat, id: nat)
    requires a in t
  {
    if id in t then t[a].order <= t[id].order else id in others && t[a].order <= others[id]
  }

  ghost predicate NotBelow(t: Table, others: Elsewhere, a: nat, id: nat)
    requires a in t
  {
    if id in t then t[a].order >= t[id].order else id in others && t[a].order >= others[id]
  }

  /** The list holds exactly the elements of the set, by strictly descending check_order. */
  ghost predicate ListsDown(t: Table, l: seq<nat>, s: set<nat>) {
    Descending(t, l) && forall a :: a in l <==> a in s
  }

  lemma SortedDown(t: Table, l: seq<nat>, s: set<nat>)
    requires s <= t.Keys && DistinctOrders(t) && l == Desc(t, s)
    ensures ListsDown(t, l, s)
  {
    DescSorts(t, s);
  }

  /** Following Older ends, and gives exactly the rows that fit the filter and are not above
      the page's bound, newest first, each once. */
  lemma OlderComplete(t: Table, others: Elsewhere, page: Page, filter: Version)
    requires DistinctOrders(t) && page.from.None? && page.limit >= 1
    ensures ListsDown(t, WalkOlder(t, others, page, filter),
                      set a | a in t && Fits(t[a], filter) && (page.to.Some? ==> NotAbove(t, others, a, page.to.value)))
  {
    OlderWalks(t, others, page, filter);
    SortedDown(t, WalkOlder(t, others, page, filter), Wanted(t, others, page, filter));
    WantedIs(t, others, page, filter);
  }

  lemma WantedIs(t: Table, others: Elsewhere, page: Page, filter: Version)
    ensures Wanted(t, others, page, filter)
            == set a | a in t && Fits(t[a], filter) && (page.to.Some? ==> NotAbove(t, others, a, page.to.value))
  {
    assert forall a :: a in Matching(t, filter) <==> a in t && Fits(t[a], filter);
  }

  // ---- the other way ----

  /** The rows at or above the page's bound. */
  function Ahead(t: Table, others: Elsewhere, page: Page): set<nat> {
    if page.from.None? then {}
    else
      match OrderOf(t, others, page.from.value)
      case None => {}
      case Some(bound) => DownTo(t, t.Keys, bound)
  }

  function WantedFrom(t: Table, others: Elsewhere, page: Page, filter: Version): set<nat>
    requires page.from.Some?
  {
    match OrderOf(t, others, page.from.value)
    case None => {}
    case Some(bound) => DownTo(t, Matching(t, filter), bound)
  }

  lemma HigherBound(t: Table, from: nat, a: nat, bound: nat)
    requires a in t && from <= t[a].order < bound
    ensures DownTo(t, t.Keys, bound) < DownTo(t, t.Keys, from)
  {
    assert a in DownTo(t, t.Keys, from) && a !in DownTo(t, t.Keys, bound);
  }

  lemma NewerAscends(t: Table, others: Elsewhere, page: Page, filter: Version)
    requires DistinctOrders(t) && page.from.Some? && PageLinks(t, others, page, filter).newer.Some?
    ensures var newer := PageLinks(t, others, page, filter).newer.value;
            newer.from.Some? && newer.limit == page.limit && Ahead(t, others, newer) < Ahead(t, others, page)
  {
    var rows := Rows(t, others, page, filter);
    RowsInTable(t, others, page, filter);
    var l := Desc(t, WantedFrom(t, others, page, filter));
    DescSorts(t, WantedFrom(t, others, page, filter));
    assert rows == TakeLast(l, page.limit);
    assert rows[0] in l;
    var bound := Bottom(t, Above(t, t.Keys, t[rows[0]].order));
    HigherBound(t, OrderOf(t, others, page.from.value).value, rows[0], t[bound].order);
  }

  /** The pages from `page` on, following Newer, newest page first. */
  function WalkNewer(t: Table, others: Elsewhere, page: Page, filter: Version): seq<nat>
    requires DistinctOrders(t) && page.from.Some?
    decreases Ahead(t, others, page)
  {
    var links := PageLinks(t, others, page, filter);
    (if links.newer.None? then []
     else (NewerAscends(t, others, page, filter); WalkNewer(t, others, links.newer.value, filter)))
    + Rows(t, others, page, filter)
  }

  lemma AboveBound(t: Table, filter: Version, from: nat, a: nat)
    requires a in t && from <= t[a].order
    ensures Above(t, DownTo(t, Matching(t, filter), from), t[a].order) == Above(t, Matching(t, filter), t[a].order)
  {
  }

  lemma NewerPage(t: Table, others: Elsewhere, page: Page, filter: Version)
    requires DistinctOrders(t) && page.from.Some? && page.limit >= 1
    ensures var rows := Rows(t, others, page, filter);
            && (rows == [] ==> WantedFrom(t, others, page, filter) == {})
            && (rows != [] ==>
                  && rows[0] in t
                  && Desc(t, WantedFrom(t, others, page, filter)) == Desc(t, Above(t, Matching(t, filter), t[rows[0]].order)) + rows)
  {
    var s := WantedFrom(t, others, page, filter);
    var l, rows := Desc(t, s), Rows(t, others, page, filter);
    assert rows == TakeLast(l, page.limit);
    if rows != [] {
      var k := |l| - |rows|;
      assert rows == l[k..] && l == l[..k] + l[k..];
      DescSplit(t, s, k);
      AboveBound(t, filter, OrderOf(t, others, page.from.value).value, l[k]);
    }
  }

  lemma NewerRest(t: Table, others: Elsewhere, page: Page, filter: Version)
    requires DistinctOrders(t) && page.from.Some?
    ensures var rows, newer := Rows(t, others, page, filter), PageLinks(t, others, page, filter).newer;
            rows != [] ==>
              && rows[0] in t
              && Above(t, Matching(t, filter), t[rows[0]].order)
                 == if newer.None? then {} else WantedFrom(t, others, newer.value, filter)
  {
    var rows := Rows(t, others, page, filter);
    RowsInTable(t, others, page, filter);
    if rows != [] { NewerIsRest(t, filter, rows[0]); }
  }

  lemma {:induction false} NewerWalks(t: Table, others: Elsewhere, page: Page, filter: Version)
    requires DistinctOrders(t) && page.from.Some? && page.limit >= 1
    ensures WalkNewer(t, others, page, filter) == Desc(t, WantedFrom(t, others, page, filter))
    decreases Ahead(t, others, page)
  {
    var newer := PageLinks(t, others, page, filter).newer;
    NewerPage(t, others, page, filter);
    NewerRest(t, others, page, filter);
    if newer.Some? {
      NewerAscends(t, others, page, filter);
      NewerWalks(t, others, newer.value, filter);
    }
  }

  /** Following Newer ends, and gives exactly the rows that fit the filter and are not below
      the bound, newest first, each once. */
  lemma NewerComplete(t: Table, others: Elsewhere, page: Page, filter: Version)
    requires DistinctOrders(t) && page.from.Some? && page.limit >= 1
    ensures ListsDown(t, WalkNewer(t, others, page, filter),
                      set a | a in t && Fits(t[a], filter) && NotBelow(t, others, a, page.from.value))
  {
    NewerWalks(t, others, page, filter);
    SortedDown(t, WalkNewer(t, others, page, filter), WantedFrom(t, others, page, filter));
    WantedFromIs(t, others, page, filter);
  }

  lemma WantedFromIs(t: Table, others: Elsewhere, page: Page, filter: Version)
    requires page.from.Some?
    ensures WantedFrom(t, others, page, filter)
            == set a | a in t && Fits(t[a], filter) && NotBelow(t, others, a, page.from.value)
  {
    assert forall a :: a in Matching(t, filter) <==> a in t && Fits(t[a], filter);
  }

  // ---- one page, exactly ----

  /** The rows a page chooses from. */
  function Choice(t: Table, others: Elsewhere, page: Page, filter: Version): set<nat> {
    if page.from.Some? then WantedFrom(t, others, page, filter) else Wanted(t, others, page, filter)
  }

  /** Of a descending list, what is not in a stretch at one end lies beyond it. */
  lemma BeyondStretch(t: Table, l: seq<nat>, lo: nat, hi: nat, a: nat, b: nat)
    requires Descending(t, l) && lo <= hi <= |l| && a in l[lo..hi] && b in l && b !in l[lo..hi] && a in t && b in t
    ensures lo == 0 ==> t[b].order < t[a].order
    ensures hi == |l| ==> t[b].order > t[a].order
  {
    var i :| lo <= i < hi && l[i] == a;
    assert forall k :: lo <= k < hi ==> l[k] in l[lo..hi];
    var j :| 0 <= j < |l| && l[j] == b;
  }

  ghost predicate IsPage(t: Table, rows: seq<nat>, choice: set<nat>, limit: nat, upwards: bool) {
    && Descending(t, rows) && (forall a :: a in rows ==> a in choice)
    && |rows| == (if |choice| <= limit then |choice| else limit)
    && forall a, b :: a in rows && b in choice && b !in rows && a in t && b in t ==>
         if upwards then t[b].order > t[a].order else t[b].order < t[a].order
  }

  lemma StretchDescends(t: Table, l: seq<nat>, lo: nat, hi: nat, part: seq<nat>)
    requires Descending(t, l) && lo <= hi <= |l| && part == l[lo..hi]
    ensures Descending(t, part)
  {
    forall i, j | 0 <= i < j < |part| ensures Higher(t, part[i], part[j]) { assert Higher(t, l[lo + i], l[lo + j]); }
  }

  lemma StretchIsPage(t: Table, l: seq<nat>, choice: set<nat>, limit: nat, upwards: bool)
    requires Descending(t, l) && |l| == |choice| && (forall a :: a in l <==> a in choice) && choice <= t.Keys
    ensures var n := if |l| <= limit then |l| else limit;
            IsPage(t, if upwards then l[|l| - n..] else l[..n], choice, limit, upwards)
  {
    var n := if |l| <= limit then |l| else limit;
    var lo, hi := if upwards then |l| - n else 0, if upwards then |l| else n;
    var rows := l[lo..hi];
    StretchDescends(t, l, lo, hi, rows);
    forall a, b | a in rows && b in choice && b !in rows && a in t && b in t
      ensures if upwards then t[b].order > t[a].order else t[b].order < t[a].order
    {
      BeyondStretch(t, l, lo, hi, a, b);
    }
    assert rows == if upwards then l[|l| - n..] else l[..n];
  }

  /** A page holds rows of its choice by descending check_order, as many as there are up to its
      limit; those it leaves out are all beyond it, seen from the bound. */
  lemma PageExactly(t: Table, others: Elsewhere, page: Page, filter: Version)
    requires DistinctOrders(t)
    ensures IsPage(t, Rows(t, others, page, filter), Choice(t, others, page, filter), page.limit, page.from.Some?)
  {
    var choice := Choice(t, others, page, filter);
    DescSorts(t, choice);
    StretchIsPage(t, Desc(t, choice), choice, page.limit, page.from.Some?);
    RowsAreCut(t, others, page, filter);
  }

  lemma RowsAreCut(t: Table, others: Elsewhere, page: Page, filter: Version)
    requires DistinctOrders(t)
    ensures var l := Desc(t, Choice(t, others, page, filter));
            var n := if |l| <= page.limit then |l| else page.limit;
            Rows(t, others, page, filter) == if page.from.Some? then l[|l| - n..] else l[..n]
  {
  }
}
