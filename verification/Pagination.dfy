/**
 * Cursor pagination as the run, step and workflow-run listings do it: filter, sort by instant and id,
 * slice, and hand out the last key as the next cursor.
 */
module Pagination {
  import opened Common

  // ---- Order ----

  /** String order, character by character. */
  predicate Less(a: string, b: string)
    decreases |a|
  {
    b != "" && (a == "" || a[0] < b[0] || (a[0] == b[0] && Less(a[1..], b[1..])))
  }

  lemma {:induction false} LessIsStrict(a: string, b: string)
    ensures !(Less(a, b) && Less(b, a)) && !Less(a, a)
    ensures a != b ==> Less(a, b) || Less(b, a)
    decreases |a|
  {
    if a != "" && b != "" && a[0] == b[0] {
      LessIsStrict(a[1..], b[1..]);
      assert a == [a[0]] + a[1..] && b == [b[0]] + b[1..];
    } else if a != "" {
      LessIsStrict(a[1..], a[1..]);
    }
  }

  lemma {:induction false} LessIsTransitive(a: string, b: string, c: string)
    requires Less(a, b) && Less(b, c)
    ensures Less(a, c)
    decreases |a|
  {
    if a != "" && a[0] == b[0] && b[0] == c[0] {
      LessIsTransitive(a[1..], b[1..], c[1..]);
    }
  }

  /** The first character that differs decides; without one the shorter string comes first. */
  lemma {:induction false} FirstDifferenceDecides(a: string, b: string, n: nat)
    requires n <= |a| && n <= |b| && a[..n] == b[..n]
    ensures n < |a| && n < |b| && a[n] != b[n] ==> (Less(a, b) <==> a[n] < b[n])
    ensures n == |a| ==> (Less(a, b) <==> |a| < |b|)
    decreases n
  {
    if n > 0 {
      assert a[..n][0] == b[..n][0];
      assert a[1..][..n - 1] == a[..n][1..] && b[1..][..n - 1] == b[..n][1..];
      FirstDifferenceDecides(a[1..], b[1..], n - 1);
    }
  }

  datatype Key = Key(at: int, id: string)

  /** Runs and workflow runs are listed newest first, steps oldest first. */
  datatype Direction = Ascending | Descending

  predicate Precedes(dir: Direction, a: Key, b: Key) {
    match dir
    case Ascending => a.at < b.at || (a.at == b.at && Less(a.id, b.id))
    case Descending => b.at < a.at || (a.at == b.at && Less(b.id, a.id))
  }

  lemma PrecedesIsStrict(dir: Direction, a: Key, b: Key)
    ensures !(Precedes(dir, a, b) && Precedes(dir, b, a)) && !Precedes(dir, a, a)
    ensures a != b ==> Precedes(dir, a, b) || Precedes(dir, b, a)
  {
    LessIsStrict(a.id, b.id);
  }

  lemma PrecedesIsTransitive(dir: Direction, a: Key, b: Key, c: Key)
    requires Precedes(dir, a, b) && Precedes(dir, b, c)
    ensures Precedes(dir, a, c)
  {
    if a.at == b.at && b.at == c.at {
      match dir
      case Ascending => LessIsTransitive(a.id, b.id, c.id);
      case Descending => LessIsTransitive(c.id, b.id, a.id);
    }
  }

  // ---- Listings ----

  /** A stored item: its key, and the facts that filters look at. */
  datatype Item = Item(key: Key, facts: string)

  predicate Sorted(dir: Direction, s: seq<Item>) {
    forall i, j :: 0 <= i < j < |s| ==> Precedes(dir, s[i].key, s[j].key)
  }

  predicate Passes(x: Item, matches: Item -> bool, dir: Direction, cursor: Option<Key>) {
    matches(x) && (cursor.Some? ==> Precedes(dir, cursor.value, x.key))
  }

  /** All of the store's items that pass, in order. */
  predicate IsListing(items: map<string, Item>, matches: Item -> bool, dir: Direction, cursor: Option<Key>, s: seq<Item>) {
    && Sorted(dir, s)
    && (forall x :: x in s ==> x.key.id in items && items[x.key.id] == x && Passes(x, matches, dir, cursor))
    && (forall id :: id in items && Passes(items[id], matches, dir, cursor) ==> items[id] in s)
  }

  predicate Keyed(items: map<string, Item>) {
    forall id :: id in items ==> items[id].key.id == id
  }

  /** Where a new key goes in a sorted sequence. */
  method PlaceFor(dir: Direction, s: seq<Item>, key: Key) returns (k: nat)
    requires Sorted(dir, s) && forall i :: 0 <= i < |s| ==> s[i].key != key
    ensures k <= |s|
    ensures forall i :: 0 <= i < k ==> Precedes(dir, s[i].key, key)
    ensures forall i :: k <= i < |s| ==> Precedes(dir, key, s[i].key)
  {
    k := |s|;
    while k > 0 && Precedes(dir, key, s[k - 1].key)
      invariant k <= |s|
      invariant forall i :: k <= i < |s| ==> Precedes(dir, key, s[i].key)
    {
      k := k - 1;
    }
    if k > 0 {
      PrecedesIsStrict(dir, s[k - 1].key, key);
      forall i | 0 <= i < k - 1
        ensures Precedes(dir, s[i].key, key)
      {
        PrecedesIsTransitive(dir, s[i].key, s[k - 1].key, key);
      }
    }
  }

  lemma Inserting(dir: Direction, s: seq<Item>, k: nat, x: Item)
    requires k <= |s| && Sorted(dir, s)
    requires forall i :: 0 <= i < k ==> Precedes(dir, s[i].key, x.key)
    requires forall i :: k <= i < |s| ==> Precedes(dir, x.key, s[i].key)
    ensures var r := s[..k] + [x] + s[k..]; Sorted(dir, r) && forall y :: y in r <==> y in s || y == x
  {
    var r := s[..k] + [x] + s[k..];
    assert forall i :: 0 <= i < |r| ==> r[i] == if i < k then s[i] else if i == k then x else s[i - 1];
    forall i, j | 0 <= i < j < |r|
      ensures Precedes(dir, r[i].key, r[j].key)
    {
      if i == k {
        assert Precedes(dir, x.key, s[j - 1].key);
      } else if j == k {
        assert Precedes(dir, s[i].key, x.key);
      }
    }
    forall y
      ensures y in r <==> y in s || y == x
    {
      assert s == s[..k] + s[k..];
    }
  }

  method Filtered(items: map<string, Item>, matches: Item -> bool, dir: Direction, cursor: Option<Key>) returns (s: seq<Item>)
    requires Keyed(items)
    ensures IsListing(items, matches, dir, cursor, s)
  {
    s := [];
    var left := items.Keys;
    while left != {}
      invariant left <= items.Keys && Sorted(dir, s)
      invariant forall x :: x in s ==> x.key.id in items && items[x.key.id] == x && Passes(x, matches, dir, cursor) && x.key.id !in left
      invariant forall id :: id in items && id !in left && Passes(items[id], matches, dir, cursor) ==> items[id] in s
      decreases left
    {
      var id :| id in left;
      left := left - {id};
      var x := items[id];
      if Passes(x, matches, dir, cursor) {
        var k := PlaceFor(dir, s, x.key);
        Inserting(dir, s, k, x);
        s := s[..k] + [x] + s[k..];
      }
    }
  }

  datatype Page = Page(items: seq<Item>, nextCursor: Option<Key>)

  /** The first page of what is left. */
  function PageOf(rest: seq<Item>, limit: nat): Page {
    var page := if |rest| > limit then rest[..limit] else rest;
    Page(page, if |rest| > limit && page != [] then Some(page[|page| - 1].key) else None)
  }

  method List(items: map<string, Item>, matches: Item -> bool, dir: Direction, cursor: Option<Key>, limit: nat) returns (r: Page)
    requires Keyed(items)
    ensures exists s :: IsListing(items, matches, dir, cursor, s) && r == PageOf(s, limit)
    ensures forall s :: IsListing(items, matches, dir, cursor, s) ==> r == PageOf(s, limit)
  {
    var filtered := Filtered(items, matches, dir, cursor);
    forall s | IsListing(items, matches, dir, cursor, s)
      ensures s == filtered
    {
      ListingIsUnique(items, matches, dir, cursor, s, filtered);
    }
    var page := if |filtered| > limit then filtered[..limit] else filtered;
    var hasMore := |filtered| > limit;
    r := Page(page, if hasMore && page != [] then Some(page[|page| - 1].key) else None);
  }

  /** A sorted sequence is determined by its elements. */
  lemma {:induction false} SortedIsUnique(dir: Direction, a: seq<Item>, b: seq<Item>)
    requires Sorted(dir, a) && Sorted(dir, b) && forall x :: x in a <==> x in b
    ensures a == b
    decreases |a|
  {
    if a == [] {
      assert forall i :: 0 <= i < |b| ==> b[i] in b;
    } else {
      assert a[0] in b;
      var i :| 0 <= i < |b| && b[i] == a[0];
      assert b[0] in a;
      var j :| 0 <= j < |a| && a[j] == b[0];
      PrecedesIsStrict(dir, a[0].key, b[0].key);
      assert a[0] == b[0];
      forall x ensures x in a[1..] <==> x in b[1..] {
        PrecedesIsStrict(dir, a[0].key, a[0].key);
        assert x in a <==> x == a[0] || x in a[1..];
        assert x in b <==> x == b[0] || x in b[1..];
      }
      SortedIsUnique(dir, a[1..], b[1..]);
    }
  }

  lemma ListingIsUnique(items: map<string, Item>, matches: Item -> bool, dir: Direction, cursor: Option<Key>, s: seq<Item>, t: seq<Item>)
    requires Keyed(items) && IsListing(items, matches, dir, cursor, s) && IsListing(items, matches, dir, cursor, t)
    ensures s == t
  {
    forall x ensures x in s <==> x in t {
      assert x in s ==> items[x.key.id] == x;
      assert x in t ==> items[x.key.id] == x;
    }
    SortedIsUnique(dir, s, t);
  }

  // ---- Following the cursor ----

  /**
   * The pages a client gets when it follows the cursor while the store goes through `stores`; the
   * client stops at the first page without a next cursor.
   */
  ghost predicate Walk(stores: seq<map<string, Item>>, matches: Item -> bool, dir: Direction, limit: nat,
                       cursor: Option<Key>, pages: seq<seq<Item>>, done: bool)
    decreases |stores|, 1
  {
    if stores == [] then pages == [] && !done
    else exists rest :: IsListing(stores[0], matches, dir, cursor, rest) && WalkOn(stores, matches, dir, limit, pages, done, rest)
  }

  /** The first page comes off `rest`; the others, if there is a next cursor, from the later stores. */
  ghost predicate WalkOn(stores: seq<map<string, Item>>, matches: Item -> bool, dir: Direction, limit: nat,
                         pages: seq<seq<Item>>, done: bool, rest: seq<Item>)
    requires stores != []
    decreases |stores|, 0
  {
    var page := PageOf(rest, limit);
    && pages != [] && pages[0] == page.items
    && if page.nextCursor.None? then |pages| == 1 && done
       else Walk(stores[1..], matches, dir, limit, page.nextCursor, pages[1..], done)
  }

  /**
   * Whatever happens to the store between the pages, the client sees items in order and none twice,
   * as long as no item changes its key.
   */
  lemma {:induction false} WalkIsSorted(stores: seq<map<string, Item>>, matches: Item -> bool, dir: Direction, limit: nat,
                                        cursor: Option<Key>, pages: seq<seq<Item>>, done: bool)
    requires Walk(stores, matches, dir, limit, cursor, pages, done)
    ensures Sorted(dir, Concat(pages))
    ensures cursor.Some? ==> forall x :: x in Concat(pages) ==> Precedes(dir, cursor.value, x.key)
    decreases |stores|
  {
    if stores != [] {
      var rest :| IsListing(stores[0], matches, dir, cursor, rest) && WalkOn(stores, matches, dir, limit, pages, done, rest);
      var next := PageOf(rest, limit).nextCursor;
      if next.None? {
        PageIsSorted(stores[0], matches, dir, cursor, rest, limit);
        ConcatOne(pages[0]);
        assert pages == [pages[0]];
      } else {
        WalkIsSorted(stores[1..], matches, dir, limit, next, pages[1..], done);
        PageIsSorted(stores[0], matches, dir, cursor, rest, limit);
        JoinSorted(dir, pages[0], Concat(pages[1..]), cursor);
        assert Concat(pages) == pages[0] + Concat(pages[1..]);
      }
    }
  }

  lemma PageIsSorted(items: map<string, Item>, matches: Item -> bool, dir: Direction, cursor: Option<Key>, rest: seq<Item>, limit: nat)
    requires IsListing(items, matches, dir, cursor, rest)
    ensures Sorted(dir, PageOf(rest, limit).items)
    ensures cursor.Some? ==> forall x :: x in PageOf(rest, limit).items ==> Precedes(dir, cursor.value, x.key)
  {
  }

  lemma ConcatOne(p: seq<Item>)
    ensures Concat([p]) == p
  {
  }

  lemma JoinSorted(dir: Direction, a: seq<Item>, b: seq<Item>, cursor: Option<Key>)
    requires a != [] && Sorted(dir, a) && Sorted(dir, b)
    requires forall x :: x in b ==> Precedes(dir, a[|a| - 1].key, x.key)
    requires cursor.Some? ==> forall x :: x in a ==> Precedes(dir, cursor.value, x.key)
    ensures Sorted(dir, a + b)
    ensures cursor.Some? ==> forall x :: x in a + b ==> Precedes(dir, cursor.value, x.key)
  {
    var last := a[|a| - 1];
    forall i, j | 0 <= i < |a| <= j < |a + b|
      ensures Precedes(dir, (a + b)[i].key, (a + b)[j].key)
    {
      assert (a + b)[j] == b[j - |a|] && b[j - |a|] in b;
      if i < |a| - 1 { PrecedesIsTransitive(dir, a[i].key, last.key, (a + b)[j].key); }
    }
    if cursor.Some? {
      forall x | x in b
        ensures Precedes(dir, cursor.value, x.key)
      {
        assert last in a;
        PrecedesIsTransitive(dir, cursor.value, last.key, x.key);
      }
    }
  }

  lemma SortedHasNoRepeats(dir: Direction, s: seq<Item>, i: nat, j: nat)
    requires Sorted(dir, s) && i < j < |s|
    ensures s[i].key != s[j].key
  {
    PrecedesIsStrict(dir, s[i].key, s[j].key);
  }

  /** A client that reaches the end has seen every item that was there, and matched, all along. */
  lemma {:induction false} WalkMissesNothingStable(stores: seq<map<string, Item>>, matches: Item -> bool, dir: Direction, limit: nat,
                                                   cursor: Option<Key>, pages: seq<seq<Item>>, done: bool, x: Item)
    requires Walk(stores, matches, dir, limit, cursor, pages, done) && done && limit >= 1
    requires forall st :: st in stores ==> x.key.id in st && st[x.key.id] == x
    requires Passes(x, matches, dir, cursor)
    ensures x in Concat(pages)
    decreases |stores|
  {
    if stores != [] {
      var rest :| IsListing(stores[0], matches, dir, cursor, rest) && WalkOn(stores, matches, dir, limit, pages, done, rest);
      var next := PageOf(rest, limit).nextCursor;
      assert stores[0] in stores && x in rest;
      var k :| 0 <= k < |rest| && rest[k] == x;
      if k < |pages[0]| {
        assert pages[0][k] == x;
      } else {
        assert Precedes(dir, next.value, x.key);
        WalkMissesNothingStable(stores[1..], matches, dir, limit, next, pages[1..], done, x);
      }
    }
  }

  // ---- An unchanged store ----

  /** The pages of an unchanged listing, each taken off the front of what is left. */
  function Pages(rest: seq<Item>, limit: nat): seq<seq<Item>>
    decreases |rest|
  {
    var p := PageOf(rest, limit);
    if p.nextCursor.None? then [p.items] else [p.items] + Pages(rest[limit..], limit)
  }

  function Repeat<T>(x: T, n: nat): seq<T> {
    seq(n, _ => x)
  }

  /** On an unchanged store the cursor picks up exactly where the page ended. */
  lemma RestAfterPage(items: map<string, Item>, matches: Item -> bool, dir: Direction, cursor: Option<Key>, rest: seq<Item>, limit: nat)
    requires IsListing(items, matches, dir, cursor, rest) && PageOf(rest, limit).nextCursor.Some?
    ensures IsListing(items, matches, dir, PageOf(rest, limit).nextCursor, rest[limit..])
  {
    var next := PageOf(rest, limit).nextCursor;
    var last := rest[limit - 1];
    forall id | id in items && Passes(items[id], matches, dir, next)
      ensures items[id] in rest[limit..]
    {
      if cursor.Some? {
        assert last in rest;
        PrecedesIsTransitive(dir, cursor.value, last.key, items[id].key);
      }
      var k :| 0 <= k < |rest| && rest[k] == items[id];
      PrecedesIsStrict(dir, last.key, rest[k].key);
      assert forall i :: 0 <= i < limit - 1 ==> Precedes(dir, rest[i].key, last.key);
      assert k >= limit;
      assert rest[limit..][k - limit] == items[id];
    }
  }

  /** The walk over an unchanged store is these pages, and their number is its length. */
  lemma {:induction false} WalkOfUnchangedStore(items: map<string, Item>, matches: Item -> bool, dir: Direction, limit: nat,
                                                cursor: Option<Key>, rest: seq<Item>)
    requires IsListing(items, matches, dir, cursor, rest)
    ensures Walk(Repeat(items, |Pages(rest, limit)|), matches, dir, limit, cursor, Pages(rest, limit), true)
    decreases |rest|
  {
    var pages := Pages(rest, limit);
    var stores := Repeat(items, |pages|);
    var next := PageOf(rest, limit).nextCursor;
    if next.Some? {
      RestAfterPage(items, matches, dir, cursor, rest, limit);
      var more := Pages(rest[limit..], limit);
      WalkOfUnchangedStore(items, matches, dir, limit, next, rest[limit..]);
      assert pages == [PageOf(rest, limit).items] + more;
      assert stores[1..] == Repeat(items, |more|) && pages[1..] == more;
    }
    assert WalkOn(stores, matches, dir, limit, pages, true, rest);
    assert stores[0] == items;
  }

  /** There is no other walk: a client of an unchanged store gets these pages, all of them when it is done. */
  lemma {:induction false} EveryWalkIsThesePages(items: map<string, Item>, stores: seq<map<string, Item>>, matches: Item -> bool,
                                                 dir: Direction, limit: nat, cursor: Option<Key>, rest: seq<Item>,
                                                 pages: seq<seq<Item>>, done: bool)
    requires Keyed(items) && (forall st :: st in stores ==> st == items)
    requires IsListing(items, matches, dir, cursor, rest) && Walk(stores, matches, dir, limit, cursor, pages, done)
    ensures pages <= Pages(rest, limit) && (done <==> pages == Pages(rest, limit))
    decreases |stores|
  {
    if stores != [] {
      assert stores[0] in stores;
      var found :| IsListing(items, matches, dir, cursor, found) && WalkOn(stores, matches, dir, limit, pages, done, found);
      ListingIsUnique(items, matches, dir, cursor, rest, found);
      var page := PageOf(rest, limit);
      if page.nextCursor.Some? {
        RestAfterPage(items, matches, dir, cursor, rest, limit);
        assert forall st :: st in stores[1..] ==> st in stores;
        EveryWalkIsThesePages(items, stores[1..], matches, dir, limit, page.nextCursor, rest[limit..], pages[1..], done);
        assert pages == [page.items] + pages[1..];
        assert Pages(rest, limit) == [page.items] + Pages(rest[limit..], limit);
      } else {
        assert pages == [page.items];
      }
    }
  }

  /**
   * The pages together are the whole listing, each item once and in order, if and only if the limit
   * is positive or there is nothing to list: a limit of 0 gives one empty page and no cursor.
   */
  lemma {:induction false} PagesAreCompleteIffLimitPositive(rest: seq<Item>, limit: nat)
    ensures Concat(Pages(rest, limit)) == rest <==> limit >= 1 || rest == []
    decreases |rest|
  {
    var p := PageOf(rest, limit);
    if p.nextCursor.Some? {
      PagesAreCompleteIffLimitPositive(rest[limit..], limit);
      var more := Pages(rest[limit..], limit);
      assert Pages(rest, limit) == [p.items] + more;
      ConcatAppend([p.items], more);
      ConcatOne(p.items);
      assert rest == rest[..limit] + rest[limit..];
    } else {
      ConcatOne(p.items);
    }
  }

  /** Following the cursor ends after ceil(n / limit) pages, or after one page of an empty listing. */
  lemma {:induction false} NumberOfPages(rest: seq<Item>, limit: nat)
    requires limit >= 1
    ensures var k := |Pages(rest, limit)|; k >= 1 && limit * (k - 1) <= |rest| <= limit * k && (k > 1 ==> limit * (k - 1) < |rest|)
    decreases |rest|
  {
    if PageOf(rest, limit).nextCursor.Some? {
      NumberOfPages(rest[limit..], limit);
      var k := |Pages(rest[limit..], limit)|;
      assert |Pages(rest, limit)| == k + 1;
      assert limit * (k + 1) == limit * k + limit && limit * k == limit * (k - 1) + limit;
    }
  }
}
