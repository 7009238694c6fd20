/**
 * The two list idioms the signal registries are built from: Python's
 * `list.remove` (drop the first equal element, fail when there is none) and a
 * `collections.defaultdict(list)` whose subscript inserts an empty list for a
 * missing key.
 */
module Lists {

  /** Index of the first occurrence of `x` in `s`. */
  function FirstIndex<T(==)>(s: seq<T>, x: T): (i: nat)
    requires x in s
    ensures i < |s| && s[i] == x
    ensures forall j :: 0 <= j < i ==> s[j] != x
  {
    if s[0] == x then 0
    else
      assert x in s[1..] by {
        var k :| 0 <= k < |s| && s[k] == x;
        assert s[1..][k - 1] == x;
      }
      1 + FirstIndex(s[1..], x)
  }

  /** `list.remove(x)`: the list without its first occurrence of `x`. */
  function RemoveFirst<T(==)>(s: seq<T>, x: T): (r: seq<T>)
    requires x in s
    ensures |r| == |s| - 1
    ensures multiset(r) == multiset(s) - multiset{x}
    ensures forall j :: 0 <= j < FirstIndex(s, x) ==> r[j] == s[j]
    ensures forall j :: FirstIndex(s, x) <= j < |r| ==> r[j] == s[j + 1]
  {
    var i := FirstIndex(s, x);
    assert s == s[..i] + [s[i]] + s[i + 1..];
    s[..i] + s[i + 1..]
  }

  /** Removing a value that was appended to a list not holding it gives the list back. */
  lemma {:induction false} RemoveAppended<T>(s: seq<T>, x: T)
    requires x !in s
    ensures RemoveFirst(s + [x], x) == s
  {
    var t := s + [x];
    var i := FirstIndex(t, x);
    assert t[|s|] == x;
    assert i == |s|;
    assert t[..i] == s;
  }

  /** Appending after the first occurrence does not move it: removal commutes with a later append. */
  lemma {:induction false} RemoveBeforeAppend<T>(s: seq<T>, x: T, y: T)
    requires x in s
    ensures RemoveFirst(s + [y], x) == RemoveFirst(s, x) + [y]
  {
    var t := s + [y];
    var i := FirstIndex(s, x);
    assert t[i] == x;
    forall j | 0 <= j < i ensures t[j] != x {
      assert t[j] == s[j];
    }
    assert FirstIndex(t, x) == i;
    assert t[..i] == s[..i];
    assert t[i + 1..] == s[i + 1..] + [y];
  }

  /**
   * When the list already held `x`, appending `x` and removing it keeps the
   * same elements but not the same order: `[x, y] + [x]` becomes `[y, x]`.
   */
  lemma AppendThenRemoveReorders()
    ensures RemoveFirst([1, 2] + [1], 1) == [2, 1]
  {
    assert FirstIndex([1, 2, 1], 1) == 0;
  }

  /** Appending then removing the same value always restores the multiset of elements. */
  lemma AppendThenRemoveSameElements<T>(s: seq<T>, x: T)
    ensures x in s + [x]
    ensures multiset(RemoveFirst(s + [x], x)) == multiset(s)
  {
    assert (s + [x])[|s|] == x;
  }

  /** `d[k]` on a `defaultdict(list)`, read without inserting. */
  function Lookup<K, V>(m: map<K, seq<V>>, k: K): (r: seq<V>)
  {
    if k in m then m[k] else []
  }

  /** The map after `d[k]` has been evaluated: a missing key now holds an empty list. */
  function Touched<K, V>(m: map<K, seq<V>>, k: K): (r: map<K, seq<V>>)
    ensures r.Keys == m.Keys + {k}
    ensures Lookup(r, k) == Lookup(m, k)
    ensures forall k' :: k' in m ==> r[k'] == m[k']
  {
    m[k := Lookup(m, k)]
  }

  /** `d[k].append(v)`. */
  function Appended<K, V>(m: map<K, seq<V>>, k: K, v: V): (r: map<K, seq<V>>)
    ensures r.Keys == m.Keys + {k}
    ensures r[k] == Lookup(m, k) + [v]
    ensures forall k' :: k' in m && k' != k ==> r[k'] == m[k']
  {
    m[k := Lookup(m, k) + [v]]
  }

  /** `d[k].remove(v)` when `v` is in the list. */
  function Removed<K, V(==)>(m: map<K, seq<V>>, k: K, v: V): (r: map<K, seq<V>>)
    requires v in Lookup(m, k)
    ensures r.Keys == m.Keys
    ensures r[k] == RemoveFirst(m[k], v) && |r[k]| == |m[k]| - 1
    ensures forall k' :: k' in m && k' != k ==> r[k'] == m[k']
  {
    m[k := RemoveFirst(m[k], v)]
  }

  /**
   * Registering a handler and unregistering it again leaves the same list
   * under the key, provided the handler was not already filed there; the key
   * itself stays (a defaultdict never forgets a key).
   */
  lemma {:induction false} UnregisterUndoesRegister<K, V>(m: map<K, seq<V>>, k: K, v: V)
    requires v !in Lookup(m, k)
    ensures v in Lookup(Appended(m, k, v), k)
    ensures Removed(Appended(m, k, v), k, v) == Touched(m, k)
  {
    var a := Appended(m, k, v);
    assert a[k][|Lookup(m, k)|] == v;
    RemoveAppended(Lookup(m, k), v);
  }

  /** Unregistering is unaffected by handlers registered after the one it removes. */
  lemma {:induction false} UnregisterAfterLaterRegister<K, V>(m: map<K, seq<V>>, k: K, v: V, w: V)
    requires v in Lookup(m, k)
    ensures v in Lookup(Appended(m, k, w), k)
    ensures Removed(Appended(m, k, w), k, v) == Appended(Removed(m, k, v), k, w)
  {
    RemoveBeforeAppend(Lookup(m, k), v, w);
  }
}
