/**
 * The "recently added" windows of the newsletter (`get_recent_series`,
 * `get_recent_books` and the cutoff computed in `write_komga_recently_added`).
 * Both windows are prefix cuts of an ordered list, not filters, and both
 * compare strictly against the cutoff.
 */
module Recent {
  import opened Komga

  /** `chrono::Duration::days(1)`, in the nanoseconds of `Timestamp`. */
  const NANOS_PER_DAY: int := 86400 * 1_000_000_000
  const WINDOW_DAYS: int := 8

  /** The start of the window: eight days before now. */
  function Cutoff(now: Timestamp): (cutoff: Timestamp)
    ensures cutoff < now
    ensures now - cutoff == WINDOW_DAYS * NANOS_PER_DAY
  {
    now - WINDOW_DAYS * NANOS_PER_DAY
  }

  // ---------------------------------------------------------------------
  // take_while
  // ---------------------------------------------------------------------

  /** The longest prefix of `s` all of whose elements satisfy `p`. */
  function TakeWhile<T>(s: seq<T>, p: T -> bool): (r: seq<T>)
    ensures r <= s
    ensures forall i :: 0 <= i < |r| ==> p(r[i])
    ensures |r| < |s| ==> !p(s[|r|])
    decreases |s|
  {
    if s == [] || !p(s[0]) then [] else [s[0]] + TakeWhile(s[1..], p)
  }

  /** No prefix of qualifying elements is longer than the one `TakeWhile` returns. */
  lemma TakeWhileIsLongest<T>(s: seq<T>, p: T -> bool, n: nat)
    requires n <= |s|
    requires forall i :: 0 <= i < n ==> p(s[i])
    ensures n <= |TakeWhile(s, p)|
  {
    var r := TakeWhile(s, p);
  }

  lemma PrefixMultiset<T>(s: seq<T>, n: nat)
    requires n <= |s|
    ensures multiset(s[..n]) <= multiset(s)
  {
    assert s == s[..n] + s[n..];
  }

  // ---------------------------------------------------------------------
  // Recent series
  // ---------------------------------------------------------------------

  function CreatedAfter(cutoff: Timestamp): Series -> bool {
    (s: Series) => s.created > cutoff
  }

  /**
   * `get_recent_series`: the server's new-series list cut at the first series not created
   * strictly after the cutoff. Nothing after that series is kept, even if it qualifies.
   */
  function RecentSeries(items: seq<Series>, cutoff: Timestamp): (r: seq<Series>)
    ensures r <= items
    ensures forall i :: 0 <= i < |r| ==> r[i].created > cutoff
    ensures |r| < |items| ==> items[|r|].created <= cutoff
  {
    TakeWhile(items, CreatedAfter(cutoff))
  }

  /** A series created exactly at the cutoff is outside the window, and so is everything after it. */
  lemma SeriesBoundaryExcluded(items: seq<Series>, cutoff: Timestamp, k: nat)
    requires k < |items| && items[k].created == cutoff
    ensures |RecentSeries(items, cutoff)| <= k
    ensures items[k] !in RecentSeries(items, cutoff)
  {
  }

  /** The cut is the longest qualifying prefix. */
  lemma RecentSeriesIsLongest(items: seq<Series>, cutoff: Timestamp, n: nat)
    requires n <= |items|
    requires forall i :: 0 <= i < n ==> items[i].created > cutoff
    ensures n <= |RecentSeries(items, cutoff)|
  {
    TakeWhileIsLongest(items, CreatedAfter(cutoff), n);
  }

  /** A concrete list where a qualifying series is dropped because an older one precedes it. */
  lemma RecentSeriesIsNotAFilter()
    ensures RecentSeries([Series("1", "Old", 0), Series("2", "New", 10)], 5) == []
  {
  }

  // ---------------------------------------------------------------------
  // Stable sort by `created`
  // ---------------------------------------------------------------------

  ghost predicate AscendingByCreated(s: seq<Book>) {
    forall i, j :: 0 <= i < j < |s| ==> s[i].created <= s[j].created
  }

  ghost predicate DescendingByCreated(s: seq<Book>) {
    forall i, j :: 0 <= i < j < |s| ==> s[i].created >= s[j].created
  }

  /**
   * Inserts `x` into `t` after every element, counted from the end, whose `created` is
   * not greater than that of `x`; on an ascending `t` this keeps equal keys in arrival order.
   */
  function Insert(t: seq<Book>, x: Book): (r: seq<Book>)
    ensures |r| == |t| + 1
    decreases |t|
  {
    if t == [] || t[|t| - 1].created <= x.created then t + [x]
    else Insert(t[..|t| - 1], x) + [t[|t| - 1]]
  }

  /** The stable ascending sort by `created` that `sort_by_cached_key` performs. */
  function SortByCreated(s: seq<Book>): (r: seq<Book>)
    ensures |r| == |s|
    decreases |s|
  {
    if s == [] then [] else Insert(SortByCreated(s[..|s| - 1]), s[|s| - 1])
  }

  /** The books of `s` whose `created` is `key`, in the order of `s`. */
  function WithCreated(s: seq<Book>, key: Timestamp): seq<Book>
    decreases |s|
  {
    if s == [] then []
    else WithCreated(s[..|s| - 1], key) + (if s[|s| - 1].created == key then [s[|s| - 1]] else [])
  }

  lemma {:induction false} InsertMultiset(t: seq<Book>, x: Book)
    ensures multiset(Insert(t, x)) == multiset(t) + multiset{x}
    decreases |t|
  {
    if t != [] && t[|t| - 1].created > x.created {
      InsertMultiset(t[..|t| - 1], x);
      assert t == t[..|t| - 1] + [t[|t| - 1]];
    }
  }

  lemma {:induction false} InsertAscending(t: seq<Book>, x: Book)
    requires AscendingByCreated(t)
    ensures AscendingByCreated(Insert(t, x))
    decreases |t|
  {
    if t != [] && t[|t| - 1].created > x.created {
      var init, last := t[..|t| - 1], t[|t| - 1];
      InsertAscending(init, x);
      InsertMultiset(init, x);
      var u := Insert(init, x);
      forall i | 0 <= i < |u| ensures u[i].created <= last.created {
        assert u[i] in multiset(u);
        if u[i] != x {
          assert u[i] in multiset(init);
          var k :| 0 <= k < |init| && init[k] == u[i];
          assert t[k] == u[i];
        }
      }
    }
  }

  lemma WithCreatedAppend(s: seq<Book>, b: Book, key: Timestamp)
    ensures WithCreated(s + [b], key) == WithCreated(s, key) + (if b.created == key then [b] else [])
  {
    assert (s + [b])[..|s|] == s;
  }

  lemma {:induction false} InsertStable(t: seq<Book>, x: Book, key: Timestamp)
    ensures WithCreated(Insert(t, x), key) == WithCreated(t, key) + (if x.created == key then [x] else [])
    decreases |t|
  {
    if t == [] || t[|t| - 1].created <= x.created {
      WithCreatedAppend(t, x, key);
    } else {
      var init, last := t[..|t| - 1], t[|t| - 1];
      InsertStable(init, x, key);
      WithCreatedAppend(Insert(init, x), last, key);
    }
  }

  /** The sort yields an ascending order. */
  lemma {:induction false} SortByCreatedAscending(s: seq<Book>)
    ensures AscendingByCreated(SortByCreated(s))
    decreases |s|
  {
    if s != [] {
      SortByCreatedAscending(s[..|s| - 1]);
      InsertAscending(SortByCreated(s[..|s| - 1]), s[|s| - 1]);
    }
  }

  /** The sort is a permutation. */
  lemma {:induction false} SortByCreatedPermutes(s: seq<Book>)
    ensures multiset(SortByCreated(s)) == multiset(s)
    decreases |s|
  {
    if s != [] {
      SortByCreatedPermutes(s[..|s| - 1]);
      InsertMultiset(SortByCreated(s[..|s| - 1]), s[|s| - 1]);
      assert s == s[..|s| - 1] + [s[|s| - 1]];
    }
  }

  /** The sort is stable: books with equal `created` keep their relative order. */
  lemma {:induction false} SortByCreatedStable(s: seq<Book>, key: Timestamp)
    ensures WithCreated(SortByCreated(s), key) == WithCreated(s, key)
    decreases |s|
  {
    if s != [] {
      SortByCreatedStable(s[..|s| - 1], key);
      InsertStable(SortByCreated(s[..|s| - 1]), s[|s| - 1], key);
    }
  }

  /**
   * Inserting `x` puts it right after the last element not greater than it: before a
   * suffix of greater keys, after a key not greater (or at the front).
   */
  lemma {:induction false} InsertAt(sorted: seq<Book>, x: Book, j: nat)
    requires j <= |sorted|
    requires j == 0 || sorted[j - 1].created <= x.created
    requires forall k :: j <= k < |sorted| ==> sorted[k].created > x.created
    ensures Insert(sorted, x) == sorted[..j] + [x] + sorted[j..]
    decreases |sorted|
  {
    if j == |sorted| {
      assert sorted[..j] == sorted && sorted[j..] == [];
    } else {
      var init, last := sorted[..|sorted| - 1], sorted[|sorted| - 1];
      assert last.created > x.created;
      assert Insert(sorted, x) == Insert(init, x) + [last];
      assert j == 0 || init[j - 1].created <= x.created;
      assert forall k :: j <= k < |init| ==> init[k].created > x.created by {
        forall k | j <= k < |init| ensures init[k].created > x.created {
          assert init[k] == sorted[k];
        }
      }
      InsertAt(init, x, j);
      assert init[..j] == sorted[..j];
      assert init[j..] + [last] == sorted[j..];
    }
  }

  /**
   * One pass of the insertion sort: moves `a[i]` left past every element of `a[..i]`
   * with a greater `created`, shifting those one place right.
   */
  method InsertInPlace(a: array<Book>, i: nat)
    requires i < a.Length
    modifies a
    ensures a[..i + 1] == Insert(old(a[..i]), old(a[i]))
    ensures forall k :: i < k < a.Length ==> a[k] == old(a[k])
  {
    var x := a[i];
    ghost var sorted := a[..i];
    var j := ShiftRight(a, i, x);
    InsertAt(sorted, x, j);
    a[j] := x;
    Reassemble(a[..], sorted, x, i, j);
  }

  /**
   * The scan of one insertion pass: every element of `a[..i]` with a greater `created`
   * than `x`, scanning from the right, is moved one place right; the gap is left at `j`.
   */
  method ShiftRight(a: array<Book>, i: nat, x: Book) returns (j: nat)
    requires i < a.Length
    modifies a
    ensures j <= i
    ensures forall k :: 0 <= k < j ==> a[k] == old(a[k])
    ensures forall k :: j < k <= i ==> a[k] == old(a[k - 1])
    ensures forall k :: i < k < a.Length ==> a[k] == old(a[k])
    ensures j == 0 || old(a[j - 1]).created <= x.created
    ensures forall k :: j <= k < i ==> old(a[k]).created > x.created
  {
    j := i;
    while j > 0 && a[j - 1].created > x.created
      invariant 0 <= j <= i
      invariant forall k :: 0 <= k < j ==> a[k] == old(a[k])
      invariant forall k :: j < k <= i ==> a[k] == old(a[k - 1])
      invariant forall k :: i < k < a.Length ==> a[k] == old(a[k])
      invariant forall k :: j <= k < i ==> old(a[k]).created > x.created
    {
      a[j] := a[j - 1];
      j := j - 1;
    }
  }

  /** The array after placing the key: the unmoved prefix, the key, the shifted rest. */
  lemma Reassemble(arr: seq<Book>, sorted: seq<Book>, x: Book, i: nat, j: nat)
    requires j <= i < |arr| && |sorted| == i
    requires forall k :: 0 <= k < j ==> arr[k] == sorted[k]
    requires arr[j] == x
    requires forall k :: j < k <= i ==> arr[k] == sorted[k - 1]
    ensures arr[..i + 1] == sorted[..j] + [x] + sorted[j..]
  {
  }

  /** Sorting one more element is inserting it into the sorted prefix. */
  lemma SortByCreatedStep(s: seq<Book>, i: nat)
    requires i < |s|
    ensures SortByCreated(s[..i + 1]) == Insert(SortByCreated(s[..i]), s[i])
  {
    assert s[..i + 1][..i] == s[..i];
  }

  /** `sort_by_cached_key(|issue| issue.created)` in place, as an insertion sort. */
  method SortInPlace(a: array<Book>)
    modifies a
    ensures a[..] == SortByCreated(old(a[..]))
  {
    ghost var s := a[..];
    var i := 0;
    while i < a.Length
      invariant 0 <= i <= a.Length
      invariant a[..i] == SortByCreated(s[..i])
      invariant forall k :: i <= k < a.Length ==> a[k] == s[k]
    {
      SortByCreatedStep(s, i);
      InsertInPlace(a, i);
      i := i + 1;
    }
    assert s[..a.Length] == s;
  }

  // ---------------------------------------------------------------------
  // Reverse
  // ---------------------------------------------------------------------

  function Reversed<T>(s: seq<T>): (r: seq<T>)
    ensures |r| == |s|
    decreases |s|
  {
    if s == [] then [] else [s[|s| - 1]] + Reversed(s[..|s| - 1])
  }

  lemma {:induction false} ReversedIndex<T>(s: seq<T>)
    ensures forall i :: 0 <= i < |s| ==> Reversed(s)[i] == s[|s| - 1 - i]
    decreases |s|
  {
    if s != [] {
      ReversedIndex(s[..|s| - 1]);
    }
  }

  lemma {:induction false} ReversedMultiset<T>(s: seq<T>)
    ensures multiset(Reversed(s)) == multiset(s)
    decreases |s|
  {
    if s != [] {
      ReversedMultiset(s[..|s| - 1]);
      assert s == s[..|s| - 1] + [s[|s| - 1]];
    }
  }

  /** `reverse()` in place: swap the ends, moving inwards. */
  method ReverseInPlace<T>(a: array<T>)
    modifies a
    ensures a[..] == Reversed(old(a[..]))
  {
    var lo, hi := 0, a.Length - 1;
    while lo < hi
      invariant 0 <= lo <= a.Length && hi == a.Length - 1 - lo
      invariant forall k :: 0 <= k < lo ==> a[k] == old(a[a.Length - 1 - k]) && a[a.Length - 1 - k] == old(a[k])
      invariant forall k :: lo <= k <= hi ==> a[k] == old(a[k])
    {
      a[lo], a[hi] := a[hi], a[lo];
      lo, hi := lo + 1, hi - 1;
    }
    ReversedIndex(old(a[..]));
  }

  // ---------------------------------------------------------------------
  // Recent books
  // ---------------------------------------------------------------------

  /** The fetched books newest first: the stable ascending sort, then reversed. */
  function NewestFirst(books: seq<Book>): seq<Book> {
    Reversed(SortByCreated(books))
  }

  /** Newest-first is a descending permutation of the fetched books. */
  lemma NewestFirstOrder(books: seq<Book>)
    ensures DescendingByCreated(NewestFirst(books))
    ensures multiset(NewestFirst(books)) == multiset(books)
  {
    var sorted := SortByCreated(books);
    SortByCreatedAscending(books);
    SortByCreatedPermutes(books);
    ReversedIndex(sorted);
    ReversedMultiset(sorted);
  }

  /** Any prefix of the newest-first order is descending and draws on the fetched books only. */
  lemma NewestFirstPrefix(books: seq<Book>, prefix: seq<Book>)
    requires prefix <= NewestFirst(books)
    ensures DescendingByCreated(prefix)
    ensures multiset(prefix) <= multiset(books)
  {
    NewestFirstOrder(books);
    PrefixMultiset(NewestFirst(books), |prefix|);
    assert NewestFirst(books)[..|prefix|] == prefix;
  }

  function ModifiedAfter(cutoff: Timestamp): Book -> bool {
    (b: Book) => b.fileLastModified > cutoff
  }

  /**
   * `get_recent_books`: the fetched books are sorted by `created` and reversed in place, then
   * cut at the first book whose file was not modified strictly after the cutoff.
   */
  method RecentBooks(books: seq<Book>, cutoff: Timestamp) returns (recent: seq<Book>)
    ensures recent == TakeWhile(NewestFirst(books), ModifiedAfter(cutoff))
    ensures recent <= NewestFirst(books)
    ensures |recent| <= |books|
    ensures forall i :: 0 <= i < |recent| ==> recent[i].fileLastModified > cutoff
    ensures DescendingByCreated(recent)
    ensures multiset(recent) <= multiset(books)
  {
    var a := new Book[|books|](i requires 0 <= i < |books| => books[i]);
    assert a[..] == books;
    SortInPlace(a);
    ReverseInPlace(a);
    recent := TakeWhile(a[..], ModifiedAfter(cutoff));
    NewestFirstPrefix(books, recent);
  }

  /** A concrete list where a fresh book is dropped because a stale one sorts before it. */
  lemma RecentBooksIsNotAFilter()
    ensures TakeWhile(NewestFirst([Book("1", "s", "Fresh", 0, 100), Book("2", "s", "Stale", 1, 0)]), ModifiedAfter(50)) == []
  {
    var recentFile, staleFile := Book("1", "s", "Fresh", 0, 100), Book("2", "s", "Stale", 1, 0);
    assert [recentFile, staleFile][..1] == [recentFile];
    assert SortByCreated([recentFile]) == [recentFile];
    assert SortByCreated([recentFile, staleFile]) == [recentFile, staleFile];
    assert Reversed([recentFile]) == [recentFile];
    assert Reversed([recentFile, staleFile]) == [staleFile, recentFile];
  }
}
