/** The parts of a document-store query the route handlers chain together
    (`sort`, `skip`, `limit`), the paged reply of types/index.ts, and the
    client-side concatenation of consecutive pages. */
module Query {
  import opened Shared

  // ---------------------------------------------------------------- sort

  ghost predicate SortedBy<T>(s: seq<T>, key: T -> int) {
    forall i, j :: 0 <= i < j < |s| ==> key(s[i]) <= key(s[j])
  }

  /** One step of insertion sort: x goes in front of the first item whose
      key is at least its own. */
  function Insert<T>(x: T, s: seq<T>, key: T -> int): (r: seq<T>)
    ensures multiset(r) == multiset(s) + multiset{x}
    ensures |r| == |s| + 1
  {
    if s == [] then [x]
    else if key(x) <= key(s[0]) then [x] + s
    else
      assert s == [s[0]] + s[1..];
      [s[0]] + Insert(x, s[1..], key)
  }

  /** Inserting into a sorted sequence keeps it sorted, and the result
      starts with x or with the old first item. */
  lemma {:induction false} InsertSorted<T>(x: T, s: seq<T>, key: T -> int)
    requires SortedBy(s, key)
    ensures SortedBy(Insert(x, s, key), key)
    ensures var r := Insert(x, s, key); key(r[0]) == key(x) || (s != [] && key(r[0]) == key(s[0]))
  {
    if s == [] {
    } else if key(x) <= key(s[0]) {
      ConsSorted(x, s, key);
    } else {
      var t := Insert(x, s[1..], key);
      TailKeeps(s, key);
      InsertSorted(x, s[1..], key);
      assert key(s[0]) <= key(t[0]) by {
        if s[1..] != [] {
          assert key(s[0]) <= key(s[1]);
        }
      }
      ConsSorted(s[0], t, key);
    }
  }

  /** A sorted sequence stays sorted behind an item no larger than its first. */
  lemma ConsSorted<T>(h: T, t: seq<T>, key: T -> int)
    requires SortedBy(t, key) && t != [] && key(h) <= key(t[0])
    ensures SortedBy([h] + t, key)
  {
    forall i, j | 0 <= i < j < |[h] + t| ensures key(([h] + t)[i]) <= key(([h] + t)[j]) {
      if i > 0 {
        assert ([h] + t)[i] == t[i - 1];
      }
      assert ([h] + t)[j] == t[j - 1];
    }
  }

  /** `.sort(...)` on a key, ascending. The store leaves the order of equal
      keys open; this model keeps them in collection order. */
  function SortBy<T>(s: seq<T>, key: T -> int): (r: seq<T>)
    ensures SortedBy(r, key)
    ensures multiset(r) == multiset(s)
  {
    if s == [] then []
    else
      assert s == [s[0]] + s[1..];
      var t := SortBy(s[1..], key);
      InsertSorted(s[0], t, key);
      Insert(s[0], t, key)
  }

  /** When no two items share a key, the items have only one sorted order:
      any two sorted arrangements of the same items are equal, whichever way
      a store breaks ties. */
  lemma {:induction false} SortedIsUnique<T>(a: seq<T>, b: seq<T>, key: T -> int)
    requires SortedBy(a, key) && SortedBy(b, key) && multiset(a) == multiset(b)
    requires DistinctKeys(a, key)
    ensures a == b
  {
    if a != [] {
      assert |b| == |a| by {
        assert |multiset(a)| == |a| && |multiset(b)| == |b|;
      }
      SameHead(a, b, key);
      assert a == [a[0]] + a[1..] && b == [b[0]] + b[1..];
      assert multiset(a) == multiset{a[0]} + multiset(a[1..]);
      assert multiset(b) == multiset{b[0]} + multiset(b[1..]);
      assert multiset(a[1..]) == multiset(a) - multiset{a[0]};
      assert multiset(b[1..]) == multiset(b) - multiset{b[0]};
      TailKeeps(a, key);
      TailKeeps(b, key);
      SortedIsUnique(a[1..], b[1..], key);
    }
  }

  /** No two positions of s hold the same key. */
  ghost predicate DistinctKeys<T>(s: seq<T>, key: T -> int) {
    forall i, j :: 0 <= i < j < |s| ==> key(s[i]) != key(s[j])
  }

  /** Two sorted arrangements of the same items with distinct keys start
      with the same item: the one of least key. */
  lemma SameHead<T>(a: seq<T>, b: seq<T>, key: T -> int)
    requires SortedBy(a, key) && SortedBy(b, key) && multiset(a) == multiset(b)
    requires DistinctKeys(a, key) && a != [] && b != []
    ensures a[0] == b[0]
  {
    assert a[0] in multiset(b) && b[0] in multiset(a);
    var j :| 0 <= j < |b| && b[j] == a[0];
    var i :| 0 <= i < |a| && a[i] == b[0];
    assert key(b[0]) <= key(b[j]);
    assert key(a[0]) <= key(a[i]);
  }

  /** Dropping the first item keeps a sequence sorted and its keys distinct. */
  lemma TailKeeps<T>(s: seq<T>, key: T -> int)
    requires s != []
    ensures SortedBy(s, key) ==> SortedBy(s[1..], key)
    ensures DistinctKeys(s, key) ==> DistinctKeys(s[1..], key)
  {
    forall i, j | 0 <= i < j < |s[1..]|
      ensures s[1..][i] == s[i + 1] && s[1..][j] == s[j + 1]
    {
    }
  }

  /** Two orderings of the same items hold each other's items. */
  lemma SameItems<T>(a: seq<T>, b: seq<T>)
    requires multiset(a) == multiset(b)
    ensures forall k :: 0 <= k < |a| ==> a[k] in b
    ensures forall k :: 0 <= k < |b| ==> b[k] in a
  {
    forall k | 0 <= k < |a| ensures a[k] in b {
      assert a[k] in multiset(a);
    }
    forall k | 0 <= k < |b| ensures b[k] in a {
      assert b[k] in multiset(b);
    }
  }

  // ---------------------------------------------------------------- filter

  /** `find(filter)`: the items satisfying p, in collection order. */
  function Filter<T>(s: seq<T>, p: T -> bool): (r: seq<T>)
    ensures |r| <= |s|
    ensures forall k :: 0 <= k < |r| ==> r[k] in s && p(r[k])
    ensures forall k :: 0 <= k < |s| && p(s[k]) ==> s[k] in r
  {
    if s == [] then []
    else
      assert s == [s[0]] + s[1..];
      (if p(s[0]) then [s[0]] else []) + Filter(s[1..], p)
  }

  /** Filtering keeps each item satisfying p as often as the input holds
      it, and no other item. */
  lemma {:induction false} FilterMultiplicity<T>(s: seq<T>, p: T -> bool, x: T)
    ensures multiset(Filter(s, p))[x] == if p(x) then multiset(s)[x] else 0
  {
    if s != [] {
      assert s == [s[0]] + s[1..];
      FilterMultiplicity(s[1..], p, x);
    }
  }

  /** Filtering commutes with concatenation. */
  lemma {:induction false} FilterAppend<T>(a: seq<T>, b: seq<T>, p: T -> bool)
    ensures Filter(a + b, p) == Filter(a, p) + Filter(b, p)
  {
    if a != [] {
      assert (a + b)[0] == a[0] && (a + b)[1..] == a[1..] + b;
      FilterAppend(a[1..], b, p);
    } else {
      assert a + b == b;
    }
  }

  /** The number of items satisfying p. */
  function Count<T>(s: seq<T>, p: T -> bool): (n: nat)
    ensures n <= |s|
    ensures n == 0 <==> forall k :: 0 <= k < |s| ==> !p(s[k])
  {
    if s == [] then 0
    else
      assert forall k :: 1 <= k < |s| ==> s[k] == s[1..][k - 1];
      (if p(s[0]) then 1 else 0) + Count(s[1..], p)
  }

  /** A count is the length of the filtered collection. */
  lemma {:induction false} CountIsFilterLength<T>(s: seq<T>, p: T -> bool)
    ensures Count(s, p) == |Filter(s, p)|
  {
    if s != [] {
      CountIsFilterLength(s[1..], p);
    }
  }

  // ---------------------------------------------------------------- skip and limit

  function Min(a: int, b: int): int {
    if a <= b then a else b
  }

  function Abs(x: int): nat {
    if x < 0 then -x else x
  }

  /** `.skip(k)`. */
  function Skip<T>(s: seq<T>, k: nat): (r: seq<T>)
    ensures |r| == if k <= |s| then |s| - k else 0
    ensures k <= |s| ==> r == s[k..]
  {
    if k <= |s| then s[k..] else []
  }

  /** `.limit(n)`: a limit of 0 means no limit, a negative one is read as its
      absolute value. */
  function Limit<T>(s: seq<T>, n: int): (r: seq<T>)
    ensures |r| <= |s| && r == s[..|r|]
    ensures n == 0 ==> r == s
    ensures n != 0 ==> |r| == Min(|s|, Abs(n))
  {
    if n == 0 then s else s[..Min(|s|, Abs(n))]
  }

  /** `skip((page - 1) * limit).limit(limit)`: the driver refuses a negative
      skip, which the handlers do not catch (None). */
  function Window<T>(s: seq<T>, page: int, limit: int): (r: Option<seq<T>>)
    ensures r.None? <==> (page - 1) * limit < 0
    ensures r.Some? ==> forall k :: 0 <= k < |r.value| ==> r.value[k] in s
  {
    var skip := (page - 1) * limit;
    if skip < 0 then None
    else
      var w := Limit(Skip(s, skip), limit);
      assert forall k :: 0 <= k < |w| ==> w[k] == s[skip + k];
      Some(w)
  }

  /** A window with a positive limit is the contiguous run of at most
      `limit` items starting at item `(page - 1) * limit`. */
  lemma WindowIsSlice<T>(s: seq<T>, page: int, limit: int)
    requires page >= 1 && limit > 0
    ensures var skip := (page - 1) * limit;
      Window(s, page, limit) == Some(s[Min(skip, |s|)..Min(skip + limit, |s|)])
  {
    var skip := (page - 1) * limit;
    assert skip >= 0 && Abs(limit) == limit;
    assert Window(s, page, limit) == Some(Limit(Skip(s, skip), limit));
    if skip <= |s| {
      var m := Min(|s| - skip, limit);
      assert Min(skip, |s|) == skip && Min(skip + limit, |s|) == skip + m;
      assert Limit(Skip(s, skip), limit) == s[skip..][..m] == s[skip..skip + m];
    } else {
      assert Min(skip, |s|) == |s| == Min(skip + limit, |s|);
      assert Limit(Skip(s, skip), limit) == [] == s[|s|..|s|];
    }
  }

  // ---------------------------------------------------------------- pages

  /** The paged list reply of types/index.ts. */
  datatype Page<T> = Page(data: seq<T>, page: int, limit: int, hasMore: bool)

  /** `data.flatMap(d => d.data)`: the items of the loaded pages, in page order. */
  function Flatten<T>(pages: seq<Page<T>>): seq<T>
  {
    if pages == [] then [] else Flatten(pages[..|pages| - 1]) + pages[|pages| - 1].data
  }

  /** `r` is `s` with `f` applied to each item. */
  ghost predicate Mapped<T, U>(r: seq<U>, s: seq<T>, f: T -> U) {
    |r| == |s| && forall k :: 0 <= k < |s| ==> r[k] == f(s[k])
  }

  lemma MappedAppend<T, U>(x: seq<U>, sx: seq<T>, y: seq<U>, sy: seq<T>, f: T -> U)
    requires Mapped(x, sx, f) && Mapped(y, sy, f)
    ensures Mapped(x + y, sx + sy, f)
  {
    forall k | 0 <= k < |sx + sy| ensures (x + y)[k] == f((sx + sy)[k]) {
      if k >= |sx| {
        assert (x + y)[k] == y[k - |sx|] && (sx + sy)[k] == sy[k - |sx|];
      }
    }
  }

  /** Loaded one after the other, pages each holding window i of s (mapped
      through f) hold, together, the first `n * limit` items of s, in order,
      with nothing skipped or repeated. */
  lemma {:induction false} FlattenOfWindows<T, U>(pages: seq<Page<U>>, s: seq<T>, limit: int, f: T -> U)
    requires limit > 0
    requires forall i :: 0 <= i < |pages| ==> Mapped(pages[i].data, Window(s, i + 1, limit).value, f)
    ensures Mapped(Flatten(pages), s[..Min(|pages| * limit, |s|)], f)
  {
    var n := |pages|;
    if n == 0 {
      assert s[..Min(0, |s|)] == [];
    } else {
      var front := pages[..n - 1];
      forall i | 0 <= i < |front| ensures Mapped(front[i].data, Window(s, i + 1, limit).value, f) {
        assert front[i] == pages[i];
      }
      FlattenOfWindows(front, s, limit, f);
      WindowStep(Flatten(front), pages[n - 1].data, s, n - 1, limit, f);
    }
  }

  /** The first `k * limit` items followed by window k + 1 are the first
      `(k + 1) * limit` items. */
  lemma WindowStep<T, U>(x: seq<U>, y: seq<U>, s: seq<T>, k: nat, limit: int, f: T -> U)
    requires limit > 0
    requires Mapped(x, s[..Min(k * limit, |s|)], f)
    requires Mapped(y, Window(s, k + 1, limit).value, f)
    ensures Mapped(x + y, s[..Min((k + 1) * limit, |s|)], f)
  {
    var skip := k * limit;
    assert (k + 1) * limit == skip + limit && (k + 1 - 1) * limit == skip;
    WindowIsSlice(s, k + 1, limit);
    var a := Min(skip, |s|);
    var b := Min(skip + limit, |s|);
    assert s[..a] + s[a..b] == s[..b];
    MappedAppend(x, s[..a], y, s[a..b], f);
  }

  /** `map(f)`: f applied to each item, in order. */
  function Map<T, U>(s: seq<T>, f: T -> U): (r: seq<U>)
    ensures |r| == |s| && forall i :: 0 <= i < |s| ==> r[i] == f(s[i])
  {
    seq(|s|, i requires 0 <= i < |s| => f(s[i]))
  }
}
