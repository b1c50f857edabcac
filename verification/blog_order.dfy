/**
 * The order of the blog listing: newest post first by the post date in
 * milliseconds, a post without a date counting as 0. The listing is sorted
 * with `Collections.sort`, which is stable, so posts with equal keys keep
 * the order the repository returned them in.
 */
module BlogOrder {
  import opened Wrappers
  import opened Content

  const PostDatePath := "blog-post.date"

  /** The sort key: the post date in milliseconds, or 0 when the post has none. */
  function DateKey(d: Document): (k: int)
    ensures PostDatePath in d.dates ==> k == d.dates[PostDatePath]
    ensures PostDatePath !in d.dates ==> k == 0
  {
    GetDate(d, PostDatePath).GetOr(0)
  }

  /** `Long.compareTo`: the sign of `x - y`, as -1, 0 or 1. */
  function LongCompare(x: int, y: int): int {
    if x < y then -1 else if x == y then 0 else 1
  }

  /** The listing's comparator: `t2.compareTo(t1)`, that is, reversed date order. */
  function Compare(d1: Document, d2: Document): (c: int)
    ensures c <= 0 <==> DateKey(d1) >= DateKey(d2)
    ensures c == 0 <==> DateKey(d1) == DateKey(d2)
  {
    LongCompare(DateKey(d2), DateKey(d1))
  }

  /** Ordered by the comparator: keys never increase along the list. */
  ghost predicate Sorted(s: seq<Document>) {
    forall i, j :: 0 <= i < j < |s| ==> Compare(s[i], s[j]) <= 0
  }

  /** The posts whose key is `k`, in list order: the ones the comparator calls equal. */
  function WithKey(s: seq<Document>, k: int): seq<Document> {
    if |s| == 0 then []
    else (if DateKey(s[0]) == k then [s[0]] else []) + WithKey(s[1..], k)
  }

  lemma WithKeyCons(d: Document, s: seq<Document>, k: int)
    ensures WithKey([d] + s, k) == (if DateKey(d) == k then [d] else []) + WithKey(s, k)
  {
    assert ([d] + s)[1..] == s;
  }

  /** Insert `d` before the first post that is not newer than it. */
  function Insert(d: Document, s: seq<Document>): (r: seq<Document>)
    ensures multiset(r) == multiset{d} + multiset(s)
    ensures |r| == |s| + 1
  {
    if |s| == 0 || Compare(d, s[0]) <= 0 then [d] + s
    else
      assert s == [s[0]] + s[1..];
      [s[0]] + Insert(d, s[1..])
  }

  lemma SortedTail(s: seq<Document>)
    requires Sorted(s) && |s| > 0
    ensures Sorted(s[1..])
  {
    forall i, j | 0 <= i < j < |s[1..]| ensures Compare(s[1..][i], s[1..][j]) <= 0 {
      assert s[1..][i] == s[i + 1] && s[1..][j] == s[j + 1];
    }
  }

  /** Inserting into a sorted list keeps it sorted. */
  lemma {:induction false} InsertSorted(d: Document, s: seq<Document>)
    requires Sorted(s)
    ensures Sorted(Insert(d, s))
    decreases |s|
  {
    var r := Insert(d, s);
    if |s| == 0 || Compare(d, s[0]) <= 0 {
      forall i, j | 0 <= i < j < |r| ensures Compare(r[i], r[j]) <= 0 {
        if i > 0 {
          assert r[i] == s[i - 1] && r[j] == s[j - 1];
        } else {
          assert r[j] == s[j - 1];
          if j > 1 { assert Compare(s[0], s[j - 1]) <= 0; }
        }
      }
    } else {
      var rest := Insert(d, s[1..]);
      SortedTail(s);
      InsertSorted(d, s[1..]);
      forall i, j | 0 <= i < j < |r| ensures Compare(r[i], r[j]) <= 0 {
        if i > 0 {
          assert r[i] == rest[i - 1] && r[j] == rest[j - 1];
        } else {
          var x := rest[j - 1];
          assert r[j] == x;
          assert x in multiset(rest);
          if x != d {
            assert x in multiset(s[1..]);
            var m :| 0 <= m < |s[1..]| && s[1..][m] == x;
            assert s[m + 1] == x;
            assert Compare(s[0], s[m + 1]) <= 0;
          }
        }
      }
    }
  }

  /** Insertion keeps `d` ahead of the posts with its own key: it is stable. */
  lemma {:induction false} InsertWithKey(d: Document, s: seq<Document>, k: int)
    ensures WithKey(Insert(d, s), k) == WithKey([d] + s, k)
    decreases |s|
  {
    if |s| > 0 && Compare(d, s[0]) > 0 {
      var tail := s[1..];
      var rest := Insert(d, tail);
      assert Insert(d, s) == [s[0]] + rest;
      assert s == [s[0]] + tail;
      var h0 := if DateKey(s[0]) == k then [s[0]] else [];
      var hd := if DateKey(d) == k then [d] else [];
      assert h0 + hd == hd + h0;
      calc {
        WithKey(Insert(d, s), k);
        { WithKeyCons(s[0], rest, k); }
        h0 + WithKey(rest, k);
        { InsertWithKey(d, tail, k); WithKeyCons(d, tail, k); }
        h0 + (hd + WithKey(tail, k));
        hd + (h0 + WithKey(tail, k));
        { WithKeyCons(s[0], tail, k); }
        hd + WithKey(s, k);
        { WithKeyCons(d, s, k); }
        WithKey([d] + s, k);
      }
    }
  }

  /** The sorted listing: insertion sort, which is stable. */
  function SortByDate(posts: seq<Document>): (r: seq<Document>)
    ensures multiset(r) == multiset(posts)
    ensures Sorted(r)
  {
    if |posts| == 0 then []
    else
      var sortedRest := SortByDate(posts[1..]);
      assert posts == [posts[0]] + posts[1..];
      InsertSorted(posts[0], sortedRest);
      Insert(posts[0], sortedRest)
  }

  /** The sort is stable: the posts of each key keep their input order. */
  lemma {:induction false} SortByDateStable(posts: seq<Document>, k: int)
    ensures WithKey(SortByDate(posts), k) == WithKey(posts, k)
    decreases |posts|
  {
    if |posts| > 0 {
      var sortedRest := SortByDate(posts[1..]);
      assert posts == [posts[0]] + posts[1..];
      SortByDateStable(posts[1..], k);
      InsertWithKey(posts[0], sortedRest, k);
      WithKeyCons(posts[0], sortedRest, k);
      WithKeyCons(posts[0], posts[1..], k);
    }
  }

  /** A key present in a sorted list is at most the first post's key. */
  lemma {:induction false} KeyAtMostHead(s: seq<Document>, k: int)
    requires Sorted(s) && WithKey(s, k) != []
    ensures |s| > 0 && DateKey(s[0]) >= k
    decreases |s|
  {
    if DateKey(s[0]) != k {
      SortedTail(s);
      KeyAtMostHead(s[1..], k);
      assert Compare(s[0], s[1]) <= 0;
    }
  }

  /** Lists with the same posts under every key are empty together. */
  lemma EmptyTogether(a: seq<Document>, b: seq<Document>)
    requires Sorted(a) && Sorted(b)
    requires forall k :: WithKey(a, k) == WithKey(b, k)
    ensures |a| == 0 <==> |b| == 0
  {
    if |a| > 0 {
      assert WithKey(a, DateKey(a[0])) != [];
      KeyAtMostHead(b, DateKey(a[0]));
    }
    if |b| > 0 {
      assert WithKey(b, DateKey(b[0])) != [];
      KeyAtMostHead(a, DateKey(b[0]));
    }
  }

  /**
   * Sorted and stable fix the result: two sorted lists that list the posts
   * of every key in the same order are equal.
   */
  lemma {:induction false} SortedStableUnique(a: seq<Document>, b: seq<Document>)
    requires Sorted(a) && Sorted(b)
    requires forall k :: WithKey(a, k) == WithKey(b, k)
    ensures a == b
    decreases |a|
  {
    EmptyTogether(a, b);
    if |a| > 0 {
      var ka, kb := DateKey(a[0]), DateKey(b[0]);
      assert WithKey(a, ka) != [];
      KeyAtMostHead(b, ka);
      assert WithKey(b, kb) != [];
      KeyAtMostHead(a, kb);
      assert WithKey(a, ka)[0] == a[0];
      assert WithKey(b, ka)[0] == b[0];
      SortedTail(a);
      SortedTail(b);
      assert ka == kb && a[0] == b[0];
      forall k ensures WithKey(a[1..], k) == WithKey(b[1..], k) {
        assert WithKey(a, k) == WithKey(b, k);
        assert a == [a[0]] + a[1..];
        assert b == [b[0]] + b[1..];
        WithKeyCons(a[0], a[1..], k);
        WithKeyCons(b[0], b[1..], k);
        var head := if ka == k then [a[0]] else [];
        assert WithKey(a, k) == head + WithKey(a[1..], k);
        assert WithKey(b, k) == head + WithKey(b[1..], k);
        assert (head + WithKey(a[1..], k))[|head|..] == WithKey(a[1..], k);
        assert (head + WithKey(b[1..], k))[|head|..] == WithKey(b[1..], k);
      }
      SortedStableUnique(a[1..], b[1..]);
      assert a == [a[0]] + a[1..];
      assert b == [b[0]] + b[1..];
    }
  }

  /**
   * Any stable sort by the comparator, which is what `Collections.sort`
   * promises, produces exactly `SortByDate`.
   */
  lemma StableSortIsSortByDate(posts: seq<Document>, r: seq<Document>)
    requires Sorted(r)
    requires forall k :: WithKey(r, k) == WithKey(posts, k)
    ensures r == SortByDate(posts)
  {
    forall k ensures WithKey(r, k) == WithKey(SortByDate(posts), k) {
      SortByDateStable(posts, k);
    }
    SortedStableUnique(r, SortByDate(posts));
  }
}
