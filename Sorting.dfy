/**
 * The stable sort that `Array.prototype.sort` performs with a numeric comparator
 * (`(a, b) => key(a) - key(b)`): elements in ascending key order, equal keys in their
 * original order. It is modelled as an insertion sort of positions, ordered by
 * (key, original position); the result applies that permutation to the input.
 */
module Sorting {

  /** Position i goes before position j: smaller key, or equal key and earlier. */
  predicate Before(keys: seq<real>, i: nat, j: nat)
    requires i < |keys| && j < |keys|
  {
    keys[i] < keys[j] || (keys[i] == keys[j] && i < j)
  }

  /** `t` lists positions of `keys`, each strictly before the next. */
  predicate SortedPositions(keys: seq<real>, t: seq<nat>)
  {
    && (forall a :: 0 <= a < |t| ==> t[a] < |keys|)
    && (forall a, b :: 0 <= a < b < |t| ==> Before(keys, t[a], t[b]))
  }

  /** Inserts position i in front of the first position it goes before. */
  function Insert(keys: seq<real>, i: nat, t: seq<nat>): (r: seq<nat>)
    requires i < |keys|
    requires forall a :: 0 <= a < |t| ==> t[a] < |keys|
    ensures |r| == |t| + 1
    ensures forall x :: x in r <==> x == i || x in t
    ensures forall a :: 0 <= a < |r| ==> r[a] < |keys|
  {
    if t == [] || Before(keys, i, t[0]) then [i] + t
    else [t[0]] + Insert(keys, i, t[1..])
  }

  /** Positions k .. |keys|-1 in sorted order. */
  function SortFrom(keys: seq<real>, k: nat): (r: seq<nat>)
    requires k <= |keys|
    ensures |r| == |keys| - k
    ensures forall x :: x in r <==> k <= x < |keys|
    ensures forall a :: 0 <= a < |r| ==> r[a] < |keys|
    decreases |keys| - k
  {
    if k == |keys| then [] else Insert(keys, k, SortFrom(keys, k + 1))
  }

  lemma {:induction false} InsertSorted(keys: seq<real>, i: nat, t: seq<nat>)
    requires i < |keys| && i !in t
    requires SortedPositions(keys, t)
    ensures SortedPositions(keys, Insert(keys, i, t))
  {
    if t == [] || Before(keys, i, t[0]) {
      var r := [i] + t;
      forall a, b | 0 <= a < b < |r| ensures Before(keys, r[a], r[b]) {
        if a == 0 && b > 1 {
          assert Before(keys, t[0], t[b - 1]);
        }
      }
    } else {
      InsertSorted(keys, i, t[1..]);
      var u := Insert(keys, i, t[1..]);
      var r := [t[0]] + u;
      assert Before(keys, t[0], i);
      forall b | 0 <= b < |u| ensures Before(keys, t[0], u[b]) {
        assert u[b] in u;
        if u[b] != i {
          var c :| 0 <= c < |t[1..]| && t[1..][c] == u[b];
          assert Before(keys, t[0], t[c + 1]);
        }
      }
      forall a, b | 0 <= a < b < |r| ensures Before(keys, r[a], r[b]) {
        if a == 0 { assert r[b] == u[b - 1]; }
      }
    }
  }

  lemma {:induction false} SortFromSorted(keys: seq<real>, k: nat)
    requires k <= |keys|
    ensures SortedPositions(keys, SortFrom(keys, k))
    decreases |keys| - k
  {
    if k < |keys| {
      SortFromSorted(keys, k + 1);
      InsertSorted(keys, k, SortFrom(keys, k + 1));
    }
  }

  /**
   * The permutation a stable ascending sort applies: every position exactly once, each
   * strictly before the next in (key, position) order.
   */
  function SortedIndices(keys: seq<real>): (r: seq<nat>)
    ensures |r| == |keys|
    ensures forall x: nat :: x in r <==> x < |keys|
    ensures SortedPositions(keys, r)
  {
    SortFromSorted(keys, 0);
    var r := SortFrom(keys, 0);
    assert forall x: nat :: x in r <==> x < |keys|;
    r
  }

  /** Sorted positions never repeat: the order is strict. */
  lemma SortedPositionsDistinct(keys: seq<real>, t: seq<nat>, a: nat, b: nat)
    requires SortedPositions(keys, t)
    requires a < |t| && b < |t| && a != b
    ensures t[a] != t[b]
  {
  }

  /** `s` reordered by the positions in `t`. */
  function Apply<T>(s: seq<T>, t: seq<nat>): (r: seq<T>)
    requires forall a :: 0 <= a < |t| ==> t[a] < |s|
    ensures |r| == |t|
    ensures forall a :: 0 <= a < |t| ==> r[a] == s[t[a]]
  {
    seq(|t|, a requires 0 <= a < |t| => s[t[a]])
  }

  lemma {:induction false} ApplyInsertMultiset<T>(s: seq<T>, keys: seq<real>, i: nat, t: seq<nat>)
    requires |keys| == |s| && i < |s|
    requires forall a :: 0 <= a < |t| ==> t[a] < |s|
    ensures multiset(Apply(s, Insert(keys, i, t))) == multiset(Apply(s, t)) + multiset{s[i]}
  {
    if t == [] || Before(keys, i, t[0]) {
      assert Apply(s, [i] + t) == [s[i]] + Apply(s, t);
    } else {
      ApplyInsertMultiset(s, keys, i, t[1..]);
      assert Apply(s, [t[0]] + Insert(keys, i, t[1..])) == [s[t[0]]] + Apply(s, Insert(keys, i, t[1..]));
      assert Apply(s, t) == [s[t[0]]] + Apply(s, t[1..]);
    }
  }

  lemma {:induction false} ApplySortFromMultiset<T>(s: seq<T>, keys: seq<real>, k: nat)
    requires |keys| == |s| && k <= |s|
    ensures multiset(Apply(s, SortFrom(keys, k))) == multiset(s[k..])
    decreases |s| - k
  {
    if k < |s| {
      var rest := SortFrom(keys, k + 1);
      ApplySortFromMultiset(s, keys, k + 1);
      ApplyInsertMultiset(s, keys, k, rest);
      assert multiset(s[k..]) == multiset(s[k + 1..]) + multiset{s[k]} by {
        assert s[k..] == [s[k]] + s[k + 1..];
      }
    } else {
      assert Apply(s, SortFrom(keys, k)) == [];
    }
  }

  /** The keys of `s`, position by position. */
  function KeysOf<T>(s: seq<T>, key: T -> real): (r: seq<real>)
    ensures |r| == |s| && forall a :: 0 <= a < |s| ==> r[a] == key(s[a])
  {
    seq(|s|, a requires 0 <= a < |s| => key(s[a]))
  }

  /**
   * `[...s].sort((a, b) => key(a) - key(b))`: a permutation of `s`, in ascending key
   * order, keeping equal keys in their original order.
   */
  function StableSort<T>(s: seq<T>, key: T -> real): (r: seq<T>)
    ensures |r| == |s|
    ensures forall a, b :: 0 <= a < b < |r| ==> key(r[a]) <= key(r[b])
  {
    var keys := KeysOf(s, key);
    var idx := SortedIndices(keys);
    SortFromSorted(keys, 0);
    var r := Apply(s, idx);
    assert forall a, b :: 0 <= a < b < |r| ==> Before(keys, idx[a], idx[b]);
    r
  }

  /** The sort is a permutation: it keeps every element as often as it occurs. */
  lemma StableSortPermutes<T>(s: seq<T>, key: T -> real)
    ensures multiset(StableSort(s, key)) == multiset(s)
  {
    var keys := KeysOf(s, key);
    ApplySortFromMultiset(s, keys, 0);
    assert s[0..] == s;
  }

  /**
   * Stability: two elements that the sort leaves in positions a < b either have
   * different keys in that order, or came from positions in the same order.
   */
  lemma StableSortKeepsTies<T>(s: seq<T>, key: T -> real, a: nat, b: nat)
    requires a < b < |s|
    ensures var idx := SortedIndices(KeysOf(s, key));
            var r := StableSort(s, key);
            r[a] == s[idx[a]] && r[b] == s[idx[b]] &&
            (key(r[a]) < key(r[b]) || (key(r[a]) == key(r[b]) && idx[a] < idx[b]))
  {
    var keys := KeysOf(s, key);
    var idx := SortedIndices(keys);
    assert Before(keys, idx[a], idx[b]);
  }
}
