/** A stable sort of row or level positions by a real-valued key, as
    Python's `list.sort(key=...)` performs it: ascending by key, and elements
    with equal keys keep their original relative order.

    Elements are positions into a collection and `keys[p]` is the key of
    position `p`. When the input positions are ascending, stability amounts to
    the output being strictly ordered by the pair (key, position). */
module StableSort {

  predicate InRange(xs: seq<nat>, keys: seq<real>)
  {
    forall k :: 0 <= k < |xs| ==> xs[k] < |keys|
  }

  predicate Ascending(xs: seq<nat>)
  {
    forall i, j :: 0 <= i < j < |xs| ==> xs[i] < xs[j]
  }

  /** Position `a` sorts before position `b`: a smaller key, or an equal key
      and an earlier position. */
  predicate Before(keys: seq<real>, a: nat, b: nat)
    requires a < |keys| && b < |keys|
  {
    keys[a] < keys[b] || (keys[a] == keys[b] && a < b)
  }

  predicate SortedByKey(xs: seq<nat>, keys: seq<real>)
    requires InRange(xs, keys)
  {
    forall i, j :: 0 <= i < j < |xs| ==> Before(keys, xs[i], xs[j])
  }

  /** Inserts `x` in front of the first element whose key is not smaller. */
  function Insert(x: nat, s: seq<nat>, keys: seq<real>): (r: seq<nat>)
    requires x < |keys| && InRange(s, keys)
    ensures |r| == |s| + 1
    ensures multiset(r) == multiset(s) + multiset{x}
    ensures forall e :: e in r <==> e == x || e in s
    ensures InRange(r, keys)
  {
    if |s| == 0 then [x]
    else if keys[x] <= keys[s[0]] then [x] + s
    else
      var rest := Insert(x, s[1..], keys);
      assert s == [s[0]] + s[1..];
      [s[0]] + rest
  }

  /** Insertion sort: the head is inserted into the sorted tail, so among
      equal keys the earlier element stays in front. */
  function Sort(xs: seq<nat>, keys: seq<real>): (r: seq<nat>)
    requires InRange(xs, keys)
    ensures |r| == |xs|
    ensures multiset(r) == multiset(xs)
    ensures forall e :: e in r <==> e in xs
    ensures InRange(r, keys)
  {
    if |xs| == 0 then []
    else
      assert xs == [xs[0]] + xs[1..];
      Insert(xs[0], Sort(xs[1..], keys), keys)
  }

  lemma {:induction false} InsertKeepsOrder(x: nat, s: seq<nat>, keys: seq<real>)
    requires x < |keys| && InRange(s, keys)
    requires SortedByKey(s, keys)
    requires forall k :: 0 <= k < |s| ==> x < s[k]
    ensures SortedByKey(Insert(x, s, keys), keys)
  {
    var r := Insert(x, s, keys);
    if |s| == 0 {
    } else if keys[x] <= keys[s[0]] {
      assert r == [x] + s;
      forall i, j | 0 <= i < j < |r|
        ensures Before(keys, r[i], r[j])
      {
        if i == 0 {
          if j > 1 {
            assert Before(keys, s[0], s[j - 1]);
          }
        } else {
          assert Before(keys, s[i - 1], s[j - 1]);
        }
      }
    } else {
      var rest := Insert(x, s[1..], keys);
      InsertKeepsOrder(x, s[1..], keys);
      assert r == [s[0]] + rest;
      forall i, j | 0 <= i < j < |r|
        ensures Before(keys, r[i], r[j])
      {
        if i == 0 {
          var e := rest[j - 1];
          assert e in rest;
          if e != x {
            var m :| 0 <= m < |s[1..]| && s[1..][m] == e;
            assert Before(keys, s[0], s[m + 1]);
          }
        } else {
          assert Before(keys, rest[i - 1], rest[j - 1]);
        }
      }
    }
  }

  /** Sorting ascending positions yields a sequence strictly ordered by
      (key, position): ascending by key and stable among equal keys. */
  lemma {:induction false} SortIsOrdered(xs: seq<nat>, keys: seq<real>)
    requires InRange(xs, keys)
    requires Ascending(xs)
    ensures SortedByKey(Sort(xs, keys), keys)
  {
    if |xs| > 0 {
      var tail := Sort(xs[1..], keys);
      SortIsOrdered(xs[1..], keys);
      forall k | 0 <= k < |tail|
        ensures xs[0] < tail[k]
      {
        assert tail[k] in xs[1..];
      }
      InsertKeepsOrder(xs[0], tail, keys);
    }
  }

  /** The Python guarantee in its own words: keys never decrease along the
      result, and equal keys keep their input order. */
  lemma SortIsStable(xs: seq<nat>, keys: seq<real>)
    requires InRange(xs, keys)
    requires Ascending(xs)
    ensures var r := Sort(xs, keys);
      forall i, j :: 0 <= i < j < |r| ==>
        keys[r[i]] <= keys[r[j]] && (keys[r[i]] == keys[r[j]] ==> r[i] < r[j])
  {
    SortIsOrdered(xs, keys);
  }

  lemma MultisetTail(s: seq<nat>)
    requires |s| > 0
    ensures multiset(s[1..]) == multiset(s) - multiset{s[0]}
  {
    assert s == [s[0]] + s[1..];
  }

  lemma SortedTail(a: seq<nat>, keys: seq<real>)
    requires InRange(a, keys) && SortedByKey(a, keys) && |a| > 0
    ensures InRange(a[1..], keys) && SortedByKey(a[1..], keys)
  {
    forall i, j | 0 <= i < j < |a[1..]|
      ensures Before(keys, a[1..][i], a[1..][j])
    {
      assert Before(keys, a[i + 1], a[j + 1]);
    }
  }

  /** The first element of an ordered sequence is the one that sorts before
      every other element it holds. */
  lemma SameHead(a: seq<nat>, b: seq<nat>, keys: seq<real>)
    requires InRange(a, keys) && InRange(b, keys)
    requires SortedByKey(a, keys) && SortedByKey(b, keys)
    requires multiset(a) == multiset(b) && |a| > 0
    ensures |b| > 0 && a[0] == b[0]
  {
    assert a[0] in multiset(b);
    assert b[0] in multiset(a);
    var k :| 0 <= k < |b| && b[k] == a[0];
    var m :| 0 <= m < |a| && a[m] == b[0];
  }

  /** Two sequences ordered by (key, position) that hold the same positions
      are the same sequence. */
  lemma {:induction false} OrderedIsUnique(a: seq<nat>, b: seq<nat>, keys: seq<real>)
    requires InRange(a, keys) && InRange(b, keys)
    requires SortedByKey(a, keys) && SortedByKey(b, keys)
    requires multiset(a) == multiset(b)
    ensures a == b
  {
    if |a| == 0 {
      assert |multiset(b)| == 0;
    } else {
      SameHead(a, b, keys);
      MultisetTail(a);
      MultisetTail(b);
      SortedTail(a, keys);
      SortedTail(b, keys);
      OrderedIsUnique(a[1..], b[1..], keys);
      assert a == [a[0]] + a[1..];
      assert b == [b[0]] + b[1..];
    }
  }

  /** Two sequences ordered by (key, position) that hold the same positions,
      counted without multiplicity, are the same sequence: order by (key,
      position) leaves no room for repeats. */
  lemma {:induction false} OrderedBySetIsUnique(a: seq<nat>, b: seq<nat>, keys: seq<real>)
    requires InRange(a, keys) && InRange(b, keys)
    requires SortedByKey(a, keys) && SortedByKey(b, keys)
    requires forall e :: e in a <==> e in b
    ensures a == b
  {
    if |a| > 0 {
      assert a[0] in b;
      var k :| 0 <= k < |b| && b[k] == a[0];
      assert b[0] in a;
      var m :| 0 <= m < |a| && a[m] == b[0];
      assert a[0] == b[0];
      SortedTail(a, keys);
      SortedTail(b, keys);
      forall e
        ensures e in a[1..] <==> e in b[1..]
      {
        if e in a[1..] {
          var i :| 0 <= i < |a[1..]| && a[1..][i] == e;
          assert Before(keys, a[0], a[i + 1]);
          assert e in b;
          var j :| 0 <= j < |b| && b[j] == e;
          assert j != 0;
          assert b[1..][j - 1] == e;
        }
        if e in b[1..] {
          var i :| 0 <= i < |b[1..]| && b[1..][i] == e;
          assert Before(keys, b[0], b[i + 1]);
          assert e in a;
          var j :| 0 <= j < |a| && a[j] == e;
          assert j != 0;
          assert a[1..][j - 1] == e;
        }
      }
      OrderedBySetIsUnique(a[1..], b[1..], keys);
      assert a == [a[0]] + a[1..];
      assert b == [b[0]] + b[1..];
    } else {
      NoMembersIsEmpty(b);
    }
  }

  /** A sequence holds no element exactly when it is empty. */
  lemma NoMembersIsEmpty(b: seq<nat>)
    ensures (forall e :: e !in b) <==> b == []
  {
    if |b| > 0 {
      assert b[0] in b;
    }
  }
}
