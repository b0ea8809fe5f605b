/** `list.sort(key=...)` (a stable sort) and the selection of pack slots from
    a sorted pool: the first element, `random.sample` positions of the
    interior `pool[1:-1]`, and the last element. */
module Sorting {
  import PyRandom

  ghost predicate SortedBy<T>(s: seq<T>, key: T -> real)
  {
    forall i, j :: 0 <= i < j < |s| ==> key(s[i]) <= key(s[j])
  }

  /** Inserts x in front of the first element whose key is at least x's, so
      x stays before every element of equal key that came after it. */
  function Insert<T>(x: T, s: seq<T>, key: T -> real): (r: seq<T>)
    ensures |r| == |s| + 1
    ensures multiset(r) == multiset(s) + multiset{x}
    ensures r[0] == x || (s != [] && r[0] == s[0])
    ensures SortedBy(s, key) ==> SortedBy(r, key)
  {
    if s == [] || key(x) <= key(s[0]) then
      SortedCons(SortedBy(s, key), x, s, key);
      [x] + s
    else
      assert s == [s[0]] + s[1..];
      var rest := Insert(x, s[1..], key);
      SortedCons(SortedBy(s, key), s[0], rest, key);
      [s[0]] + rest
  }

  /** When `sorted` holds, rest is sorted and a's key is at most the first of
      rest, so [a] + rest is sorted. */
  lemma SortedCons<T>(sorted: bool, a: T, rest: seq<T>, key: T -> real)
    requires sorted ==> SortedBy(rest, key) && (rest != [] ==> key(a) <= key(rest[0]))
    ensures sorted ==> SortedBy([a] + rest, key)
  {
    if sorted {
      forall i, j | 0 <= i < j < |rest| + 1
        ensures key(([a] + rest)[i]) <= key(([a] + rest)[j])
      {
        if i == 0 && j > 1 {
          assert key(rest[0]) <= key(rest[j - 1]);
        }
      }
    }
  }

  /** `list.sort(key=key)`: an insertion sort, stable because each element is
      inserted in front of the equal-keyed elements that followed it. */
  function SortBy<T>(s: seq<T>, key: T -> real): (r: seq<T>)
    ensures |r| == |s|
    ensures multiset(r) == multiset(s)
    ensures SortedBy(r, key)
  {
    if s == [] then []
    else
      assert s == [s[0]] + s[1..];
      Insert(s[0], SortBy(s[1..], key), key)
  }

  /** The elements of s whose key is k, in their order in s. */
  function WithKey<T>(s: seq<T>, key: T -> real, k: real): seq<T>
  {
    if s == [] then []
    else (if key(s[0]) == k then [s[0]] else []) + WithKey(s[1..], key, k)
  }

  lemma WithKeyCons<T>(a: T, t: seq<T>, key: T -> real, k: real)
    ensures WithKey([a] + t, key, k) == (if key(a) == k then [a] else []) + WithKey(t, key, k)
  {
    assert ([a] + t)[1..] == t;
  }

  /** An element of key below x's is not kept alongside x, so putting it in
      front of both sides keeps x's place among the elements of key k. */
  lemma WithKeyPast<T>(a: T, x: T, t: seq<T>, u: seq<T>, key: T -> real, k: real)
    requires key(a) < key(x)
    requires WithKey(t, key, k) == (if key(x) == k then [x] else []) + WithKey(u, key, k)
    ensures WithKey([a] + t, key, k) == (if key(x) == k then [x] else []) + WithKey([a] + u, key, k)
  {
    WithKeyCons(a, t, key, k);
    WithKeyCons(a, u, key, k);
  }

  /** Insert passes over only elements of smaller key, so x lands in front of
      every element whose key equals its own. */
  lemma {:induction false} InsertWithKey<T>(x: T, s: seq<T>, key: T -> real, k: real)
    ensures WithKey(Insert(x, s, key), key, k)
         == (if key(x) == k then [x] else []) + WithKey(s, key, k)
  {
    if s == [] || key(x) <= key(s[0]) {
      assert Insert(x, s, key) == [x] + s;
      WithKeyCons(x, s, key, k);
    } else {
      var rest := Insert(x, s[1..], key);
      InsertWithKey(x, s[1..], key, k);
      WithKeyPast(s[0], x, rest, s[1..], key, k);
      assert Insert(x, s, key) == [s[0]] + rest;
      assert [s[0]] + s[1..] == s;
    }
  }

  /** Where Insert puts x: after the leading run of elements whose key is
      below x's, in front of the first element whose key is at least x's. */
  function InsertAt<T>(x: T, s: seq<T>, key: T -> real): (j: nat)
    ensures j <= |s|
    ensures forall i :: 0 <= i < j ==> key(s[i]) < key(x)
    ensures j < |s| ==> key(x) <= key(s[j])
  {
    if s == [] || key(x) <= key(s[0]) then 0
    else
      var j := InsertAt(x, s[1..], key);
      assert forall i :: 1 <= i < j + 1 ==> s[i] == s[1..][i - 1];
      j + 1
  }

  /** Putting a in front of s with x spliced in at j is splicing x into
      [a] + s at j + 1. */
  lemma SpliceCons<T>(a: T, s: seq<T>, x: T, j: nat)
    requires j <= |s|
    ensures [a] + (s[..j] + [x] + s[j..]) == ([a] + s)[..j + 1] + [x] + ([a] + s)[j + 1..]
  {
    assert ([a] + s)[..j + 1] == [a] + s[..j];
    assert ([a] + s)[j + 1..] == s[j..];
  }

  /** Insert leaves every other element in place: the result is s with x
      spliced in at InsertAt. */
  lemma {:induction false} InsertPlace<T>(x: T, s: seq<T>, key: T -> real)
    ensures var j := InsertAt(x, s, key); Insert(x, s, key) == s[..j] + [x] + s[j..]
  {
    if s == [] || key(x) <= key(s[0]) {
      assert Insert(x, s, key) == [x] + s;
      assert s[..0] == [] && s[0..] == s;
    } else {
      var t := s[1..];
      InsertPlace(x, t, key);
      assert Insert(x, s, key) == [s[0]] + Insert(x, t, key);
      SpliceCons(s[0], t, x, InsertAt(x, t, key));
      assert [s[0]] + t == s;
    }
  }

  /** `list.sort` is stable: for every key value, the elements carrying it
      appear in the sorted sequence in the same order as in the input. */
  lemma {:induction false} SortByStable<T>(s: seq<T>, key: T -> real, k: real)
    ensures WithKey(SortBy(s, key), key, k) == WithKey(s, key, k)
  {
    if s != [] {
      SortByStable(s[1..], key, k);
      InsertWithKey(s[0], SortBy(s[1..], key), key, k);
    }
  }

  /** `pool[1:-1]`, which is empty for a pool of fewer than two elements. */
  function Interior<T>(pool: seq<T>): (r: seq<T>)
    ensures |r| == if |pool| >= 2 then |pool| - 2 else 0
  {
    if |pool| >= 2 then pool[1..|pool| - 1] else []
  }

  /** The elements at the given positions, in the order they were drawn. */
  function Picked<T>(s: seq<T>, picks: seq<nat>): (r: seq<T>)
    requires forall i :: 0 <= i < |picks| ==> picks[i] < |s|
    ensures |r| == |picks|
    ensures forall i :: 0 <= i < |picks| ==> r[i] == s[picks[i]]
  {
    if picks == [] then [] else Picked(s, picks[..|picks| - 1]) + [s[picks[|picks| - 1]]]
  }

  /** The fifteen-slot pack: worst card, thirteen sampled interior cards, best card. */
  function PackOf<T>(pool: seq<T>, picks: seq<nat>): (r: seq<T>)
    requires |pool| >= 2 && PyRandom.Distinct(picks, |pool| - 2)
    ensures |r| == |picks| + 2
    ensures r[0] == pool[0] && r[|r| - 1] == pool[|pool| - 1]
    ensures multiset(r) <= multiset(pool)
  {
    PickedFromDistinct(Interior(pool), picks);
    assert pool == [pool[0]] + Interior(pool) + [pool[|pool| - 1]];
    [pool[0]] + Picked(Interior(pool), picks) + [pool[|pool| - 1]]
  }

  /** The draws that turn a pool into a pack: the pool sorted by key, the
      thirteen interior positions `random.sample` picks from the state the
      pool left, and the state after the sample. */
  function PackDraw<T>(rng: PyRandom.Random, drawn: (seq<T>, PyRandom.GenState), key: T -> real)
    : (r: (seq<T>, seq<nat>, PyRandom.GenState))
    requires rng.Laws() && |drawn.0| >= 15
    ensures |r.0| == |drawn.0| && multiset(r.0) == multiset(drawn.0) && SortedBy(r.0, key)
    ensures |r.1| == 13 && PyRandom.Distinct(r.1, |r.0| - 2)
  {
    var pool := SortBy(drawn.0, key);
    var picks := rng.sample(drawn.1, |pool| - 2, 13);
    (pool, picks.0, picks.1)
  }

  /** In a sorted sequence the first element has the least key and the last
      the greatest. */
  lemma SortedExtremes<T>(s: seq<T>, key: T -> real, x: T)
    requires SortedBy(s, key) && x in s
    ensures key(s[0]) <= key(x) <= key(s[|s| - 1])
  {
    var i :| 0 <= i < |s| && s[i] == x;
    assert 0 <= i ==> key(s[0]) <= key(s[i]);
  }

  /** Every element of a pack drawn from a sorted pool lies between the
      pool's first and last elements. */
  lemma PackWithinExtremes<T>(pool: seq<T>, picks: seq<nat>, key: T -> real)
    requires |pool| >= 2 && PyRandom.Distinct(picks, |pool| - 2)
    requires SortedBy(pool, key)
    ensures var pack := PackOf(pool, picks);
      forall i :: 0 <= i < |pack| ==> key(pool[0]) <= key(pack[i]) <= key(pool[|pool| - 1])
  {
    var pack := PackOf(pool, picks);
    forall i | 0 <= i < |pack| ensures key(pool[0]) <= key(pack[i]) <= key(pool[|pool| - 1]) {
      assert pack[i] in multiset(pool);
      SortedExtremes(pool, key, pack[i]);
    }
  }

  // ----- distinct positions pick a sub-multiset -----

  /** The set of positions drawn. */
  function PickSet(picks: seq<nat>): set<nat>
  {
    if picks == [] then {} else PickSet(picks[..|picks| - 1]) + {picks[|picks| - 1]}
  }

  lemma {:induction false} PickSetMembers(picks: seq<nat>, p: nat)
    ensures p in PickSet(picks) <==> p in picks
  {
    if picks != [] {
      PickSetMembers(picks[..|picks| - 1], p);
      assert picks == picks[..|picks| - 1] + [picks[|picks| - 1]];
    }
  }

  /** The multiset of the elements of s whose positions lie in I. */
  ghost function AtPositions<T>(s: seq<T>, I: set<nat>): multiset<T>
  {
    if s == [] then multiset{}
    else AtPositions(s[..|s| - 1], I) + (if |s| - 1 in I then multiset{s[|s| - 1]} else multiset{})
  }

  lemma {:induction false} AtPositionsBounded<T>(s: seq<T>, I: set<nat>)
    ensures AtPositions(s, I) <= multiset(s)
  {
    if s != [] {
      AtPositionsBounded(s[..|s| - 1], I);
      assert s == s[..|s| - 1] + [s[|s| - 1]];
    }
  }

  lemma {:induction false} AtPositionsSame<T>(s: seq<T>, I: set<nat>, J: set<nat>)
    requires forall p :: p < |s| ==> (p in I <==> p in J)
    ensures AtPositions(s, I) == AtPositions(s, J)
  {
    if s != [] {
      AtPositionsSame(s[..|s| - 1], I, J);
    }
  }

  lemma {:induction false} AtPositionsAdd<T>(s: seq<T>, I: set<nat>, p: nat)
    requires p < |s| && p !in I
    ensures AtPositions(s, I + {p}) == AtPositions(s, I) + multiset{s[p]}
  {
    var n := |s| - 1;
    var front := s[..n];
    var J := I + {p};
    if p < n {
      AtPositionsAdd(front, I, p);
      assert front[p] == s[p];
      assert (n in J) == (n in I);
    } else {
      AtPositionsSame(front, I, J);
      assert n in J && n !in I;
    }
  }

  lemma {:induction false} AtPositionsEmpty<T>(s: seq<T>)
    ensures AtPositions(s, {}) == multiset{}
  {
    if s != [] {
      AtPositionsEmpty(s[..|s| - 1]);
    }
  }

  lemma {:induction false} PickedIsAtPositions<T>(s: seq<T>, picks: seq<nat>)
    requires PyRandom.Distinct(picks, |s|)
    ensures multiset(Picked(s, picks)) == AtPositions(s, PickSet(picks))
  {
    if picks == [] {
      AtPositionsEmpty(s);
    } else {
      var m := |picks| - 1;
      var front := picks[..m];
      PickedIsAtPositions(s, front);
      PickSetMembers(front, picks[m]);
      AtPositionsAdd(s, PickSet(front), picks[m]);
    }
  }

  /** Distinct positions pick each element of s at most once. */
  lemma PickedFromDistinct<T>(s: seq<T>, picks: seq<nat>)
    requires PyRandom.Distinct(picks, |s|)
    ensures multiset(Picked(s, picks)) <= multiset(s)
  {
    PickedIsAtPositions(s, picks);
    AtPositionsBounded(s, PickSet(picks));
  }
}
