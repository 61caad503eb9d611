/** Bounded traversal of paged containers and queues. A device serves consecutive slices of
    one list; the count parameter may be true, a placeholder zero, or absent. */
module Paging {
  import opened Heos

  const MAX_PAGES: nat := 100
  const MAX_ITEMS: nat := 10000
  const LIMIT: nat := 100

  datatype Error = Bounds | Protocol | StaleReference | Stale | Unreadable
  datatype Result<T> = Ok(value: T) | Err(error: Error)

  /** A response parameter: missing, not a number, or a number. */
  datatype Param = Missing | Garbled | Number(value: int)

  /** The total, if the device states one, and where the next page starts, if there is one. */
  datatype PageEnd = PageEnd(total: Option<int>, next: Option<int>)

  function PageBounds(returned: Param, count: Param, start: int, limit: int, size: int): Result<PageEnd> {
    if size > limit then Err(Protocol)
    else if returned.Garbled? || (returned.Number? && returned.value != size) then Err(Protocol)
    else if count.Garbled? || (count.Number? && count.value < 0) then Err(Protocol)
    else
      var total := if count.Number? && count.value > 0 then Some(count.value) else None;
      if total.Some? && start + size > total.value then Err(Protocol)
      else if size == 0 then (if total.Some? && start < total.value then Err(Protocol) else Ok(PageEnd(total, None)))
      else if total.Some? && start + size >= total.value then Ok(PageEnd(total, None))
      else if count.Missing? && size < limit then Ok(PageEnd(None, None))
      else Ok(PageEnd(total, Some(start + size)))
  }

  datatype Mode = TrueCount | ZeroCount | NoCount

  /** A device serving slices of `list`: `sizes` is how many items it puts on each page and
      `catalogs` the catalog revision each response carries. */
  datatype Device<T> = Device(list: seq<T>, mode: Mode, sizes: seq<nat>, catalogs: seq<nat>)

  ghost predicate Serves<T(!new)>(d: Device<T>) {
    |d.sizes| == MAX_PAGES && |d.catalogs| == MAX_PAGES && forall i :: 0 <= i < MAX_PAGES ==> 1 <= d.sizes[i] <= LIMIT
  }

  ghost predicate FullPages<T(!new)>(d: Device<T>) { forall i :: 0 <= i < |d.sizes| ==> d.sizes[i] == LIMIT }

  ghost predicate SameCatalog<T(!new)>(d: Device<T>) {
    forall i :: 0 <= i < |d.catalogs| ==> d.catalogs[i] == d.catalogs[0]
  }

  function CountParam<T>(d: Device<T>): Param {
    match d.mode case TrueCount => Number(|d.list|) case ZeroCount => Number(0) case NoCount => Missing
  }

  /** The first page shorter than asked for, and not because the list ends there. */
  ghost predicate FirstShort<T(!new)>(d: Device<T>, i: nat) {
    i < |d.sizes| && (forall j :: 0 <= j < i ==> d.sizes[j] == LIMIT) && d.sizes[i] < LIMIT &&
    LIMIT * i + d.sizes[i] < |d.list|
  }

  lemma OneFirstShort<T(!new)>(d: Device<T>, i: nat)
    requires FirstShort(d, i)
    ensures forall k: nat :: FirstShort(d, k) ==> k == i
  {
  }

  /** Where a traversal without a count ends: at a page that is not full. */
  lemma NoCountEnds<T(!new)>(d: Device<T>, i: nat, size: nat)
    requires i < MAX_PAGES && i < |d.sizes| && LIMIT * i <= |d.list|
    requires size == Smaller(d.sizes[i], |d.list| - LIMIT * i)
    requires size < LIMIT && forall j :: 0 <= j < i ==> d.sizes[j] == LIMIT
    ensures LIMIT * i + size == |d.list| ==> |d.list| <= Longest(NoCount) && forall k: nat :: !FirstShort(d, k)
    ensures LIMIT * i + size < |d.list| ==>
      d.sizes[i] == size && FirstShort(d, i) && forall k: nat :: FirstShort(d, k) ==> k == i
  {
    if LIMIT * i + size < |d.list| { OneFirstShort(d, i); } else { NoneShort(d, i); }
  }

  /** Such an input: two items, served one to a page. */
  lemma ShortPageExample<T(!new)>(a: T, b: T, sizes: seq<nat>, catalogs: seq<nat>)
    requires |sizes| == MAX_PAGES && |catalogs| == MAX_PAGES && forall i :: 0 <= i < MAX_PAGES ==> sizes[i] == 1
    ensures var d := Device([a, b], NoCount, sizes, catalogs);
            Serves(d) && FirstShort(d, 0) && d.list[..LIMIT * 0 + d.sizes[0]] == [a]
  {
  }

  lemma NoneShort<T(!new)>(d: Device<T>, i: nat)
    requires i < |d.sizes| && (forall j :: 0 <= j < i ==> d.sizes[j] == LIMIT) && |d.list| <= LIMIT * i + d.sizes[i]
    ensures forall k: nat :: !FirstShort(d, k)
  {
    forall k: nat ensures !FirstShort(d, k) {
      if k > i && d.sizes[i] == LIMIT { assert LIMIT * k >= LIMIT * (i + 1); }
    }
  }

  function Smaller(a: int, b: int): int { if a < b then a else b }

  /** The longest list that full pages can carry within the page limit: a true count ends
      the last page, a zero count needs one empty page more, and without a count the last
      page must be a short one. */
  function Longest(m: Mode): nat { match m case TrueCount => 10000 case ZeroCount => 9900 case NoCount => 9999 }

  /** Traversal terminates within the page limit and, with one catalog, either returns
      exactly the device's list or reports that it is too long; with full pages it is too
      long exactly beyond `Longest`. Without a count a short page ends it, so it is exact
      precisely when no page is short before the list ends; otherwise the rest is lost. */
  method BrowseAll<T(!new)>(d: Device<T>) returns (r: Result<seq<T>>)
    requires Serves(d)
    ensures r.Err? ==> r.error == Bounds || (r.error == StaleReference && !SameCatalog(d))
    ensures r.Ok? && d.mode != NoCount ==> r.value == d.list
    ensures r.Ok? && d.mode == NoCount ==> r.value <= d.list
    ensures d.mode == NoCount && SameCatalog(d) ==>
      forall i: nat :: FirstShort(d, i) ==> r == Ok(d.list[..LIMIT * i + d.sizes[i]])
    ensures d.mode == NoCount && SameCatalog(d) ==>
      (r == Ok(d.list) <==> |d.list| <= Longest(NoCount) && forall i: nat :: !FirstShort(d, i))
    ensures SameCatalog(d) && FullPages(d) ==>
      (r == Ok(d.list) <==> |d.list| <= Longest(d.mode)) && (r == Err(Bounds) <==> |d.list| > Longest(d.mode))
  {
    var items: seq<T>, start := [], 0;
    for i := 0 to MAX_PAGES
      invariant 0 <= start <= |d.list| && items == d.list[..start] && start <= LIMIT * i
      invariant d.mode == TrueCount && i > 0 ==> start < |d.list|
      invariant FullPages(d) ==> start == Smaller(LIMIT * i, |d.list|)
      invariant d.mode == NoCount ==> start == LIMIT * i && forall j :: 0 <= j < i ==> d.sizes[j] == LIMIT
      invariant d.mode == ZeroCount && FullPages(d) && i > 0 ==> LIMIT * (i - 1) < |d.list|
    {
      if start > MAX_ITEMS { return Err(Bounds); }
      var size := Smaller(d.sizes[i], |d.list| - start);
      var page := d.list[start..start + size];
      var end := PageBounds(Number(|page|), CountParam(d), start, LIMIT, |page|);
      if end.Err? { return Err(Protocol); }
      if d.catalogs[i] != d.catalogs[0] { return Err(StaleReference); }
      if |items| + |page| > MAX_ITEMS { return Err(Bounds); }
      items := items + page;
      assert items == d.list[..start + size];
      if end.value.next.None? {
        if d.mode == NoCount { NoCountEnds(d, i, size); }
        if start + size == |d.list| { assert items == d.list; }
        return Ok(items);
      }
      start := end.value.next.value;
    }
    return Err(Bounds);
  }

  // ---- Queue completion ----

  datatype Fetch = Failed | Page(page: QueuePage)

  function Items(f: Fetch): seq<Media> { if f.Page? then f.page.items else [] }

  /** The items of the first `k` pages, in order. */
  function Concat(pages: seq<Fetch>, k: nat): seq<Media>
    requires k <= |pages|
  {
    if k == 0 then [] else Concat(pages, k - 1) + Items(pages[k - 1])
  }

  /** The first `k` pages belong to the one revision and state the one total. */
  ghost predicate OneRevision(pages: seq<Fetch>, k: nat, total: Option<int>, token: Token)
    requires k <= |pages|
  {
    forall i :: 0 <= i < k ==>
      pages[i].Page? && pages[i].page.token == token && pages[i].page.total == total && pages[i].page.items != []
  }

  /** What completing a first page yields: the page itself if it has no next, and otherwise
      exactly the first page followed by the fetched ones, all of one token and total, as
      long as that total says and still current. */
  ghost predicate Completion(first: QueuePage, token: Token, fetches: seq<Fetch>, view: View, q: QueuePage) {
    if first.next.None? then q == first
    else
      q.next.None? && q.total == Some(|q.items|) && |q.items| <= MAX_ITEMS && view == View(token, true) &&
      exists k: nat :: CompletedBy(first, token, fetches, k, q)
  }

  ghost predicate CompletedBy(first: QueuePage, token: Token, fetches: seq<Fetch>, k: nat, q: QueuePage) {
    0 < k < |fetches| && OneRevision(fetches, k, first.total, token) && q.items == first.items + Concat(fetches, k)
  }

  /** The queue of a completed read. A first page without a next is passed on unchecked, so all
      this says of a queue taken alone is that it has no next page. */
  ghost predicate Completed(q: QueuePage) {
    exists first, token, fetches, view :: Completion(first, token, fetches, view, q)
  }

  lemma CompletedExactly(q: QueuePage)
    ensures Completed(q) <==> q.next.None?
  {
    if q.next.None? { assert Completion(q, q.token, [], View(q.token, true), q); }
  }

  method CompleteQueue(first: QueuePage, token: Token, fetches: seq<Fetch>, view: View) returns (r: Result<QueuePage>)
    requires |fetches| == MAX_PAGES
    ensures first.next.None? ==> r == Ok(first)
    ensures r.Ok? ==> Completion(first, token, fetches, view, r.value)
  {
    var q := first;
    if q.next.None? { return Ok(first); }
    var pages := 1;
    while q.next.Some?
      invariant 1 <= pages <= MAX_PAGES && q.total == first.total
      invariant OneRevision(fetches, pages - 1, first.total, token)
      invariant q.items == first.items + Concat(fetches, pages - 1)
      invariant pages == 1 ==> q == first
      invariant pages > 1 ==> |q.items| <= MAX_ITEMS && q.total.Some?
      decreases MAX_PAGES - pages
    {
      if pages >= MAX_PAGES || q.total.None? || q.total.value > MAX_ITEMS || q.next.value != |q.items| {
        return Err(Bounds);
      }
      var fetch := fetches[pages - 1];
      if fetch.Failed? { return Err(Unreadable); }
      if fetch.page.token != token || q.total != fetch.page.total { return Err(Stale); }
      if |fetch.page.items| == 0 || |q.items| + |fetch.page.items| > MAX_ITEMS { return Err(Bounds); }
      q := q.(items := q.items + fetch.page.items, next := fetch.page.next);
      pages := pages + 1;
    }
    if q.total.value != |q.items| { return Err(Protocol); }
    if !view.connected || view.token != token { return Err(Stale); }
    assert CompletedBy(first, token, fetches, pages - 1, q);
    return Ok(q);
  }

  /** Each of the first `k` pages is the slice of one list at the offset reached so far. */
  ghost predicate SlicesOf(pages: seq<Fetch>, k: nat, list: seq<Media>, from: nat)
    requires k <= |pages|
  {
    forall i :: 0 <= i < k ==> PageAt(pages, i, list, from)
  }

  ghost predicate PageAt(pages: seq<Fetch>, i: nat, list: seq<Media>, from: nat)
    requires i < |pages|
  {
    SliceAt(Items(pages[i]), list, from + |Concat(pages, i)|)
  }

  ghost predicate SliceAt<T>(items: seq<T>, list: seq<T>, at: nat) {
    at + |items| <= |list| && forall j :: 0 <= j < |items| ==> items[j] == list[at + j]
  }

  lemma {:induction false} SlicesConcat(pages: seq<Fetch>, k: nat, list: seq<Media>, from: nat)
    requires k <= |pages| && from <= |list| && SlicesOf(pages, k, list, from)
    ensures SliceAt(Concat(pages, k), list, from)
    decreases k
  {
    if k > 0 {
      SlicesConcat(pages, k - 1, list, from);
      assert PageAt(pages, k - 1, list, from);
      NextSlice(list, from, Concat(pages, k - 1), Items(pages[k - 1]));
    }
  }

  lemma NextSlice<T>(list: seq<T>, from: nat, init: seq<T>, items: seq<T>)
    requires SliceAt(init, list, from) && SliceAt(items, list, from + |init|)
    ensures SliceAt(init + items, list, from)
  {
  }

  /** So a queue whose `k` fetched pages are slices of one list, with that list's length as
      total, is completed to exactly that list. */
  lemma CompletedIsWhole(
      first: QueuePage, token: Token, fetches: seq<Fetch>, k: nat, q: QueuePage, list: seq<Media>)
    requires CompletedBy(first, token, fetches, k, q) && |q.items| == |list|
    requires SliceAt(first.items, list, 0) && SlicesOf(fetches, k, list, |first.items|)
    ensures q.items == list
  {
    SlicesConcat(fetches, k, list, |first.items|);
    NextSlice(list, 0, first.items, Concat(fetches, k));
  }
}
