/**
 * Python's `list.index` and `list.remove`, which both engines use on their
 * tables: `remove` deletes the first element equal to its argument.
 */
module Lists {

  /** Position of the first occurrence of `x` in `s`. */
  function IndexOf<T(==)>(s: seq<T>, x: T): (k: nat)
    requires x in s
    ensures k < |s| && s[k] == x
    ensures forall j :: 0 <= j < k ==> s[j] != x
  {
    if s[0] == x then 0 else 1 + IndexOf(s[1..], x)
  }

  /** `s` after `s.remove(x)`: the first occurrence of `x` is gone, the rest keeps its order. */
  function RemoveFirst<T(==)>(s: seq<T>, x: T): (r: seq<T>)
    requires x in s
    ensures |r| == |s| - 1
    ensures multiset(r) == multiset(s) - multiset{x}
    ensures exists k :: 0 <= k < |s| && s[k] == x && (forall j :: 0 <= j < k ==> s[j] != x)
                        && r == s[..k] + s[k + 1..]
  {
    var k := IndexOf(s, x);
    assert s == s[..k] + [x] + s[k + 1..];
    s[..k] + s[k + 1..]
  }

  /** Removing the element at a first-occurrence position removes exactly that element. */
  lemma RemoveFirstAt<T>(s: seq<T>, k: nat)
    requires k < |s|
    requires forall j :: 0 <= j < k ==> s[j] != s[k]
    ensures RemoveFirst(s, s[k]) == s[..k] + s[k + 1..]
  {
    assert IndexOf(s, s[k]) == k;
  }

  /** Appending `x` to a list that lacks it and removing `x` again gives the list back. */
  lemma RemoveAppended<T>(s: seq<T>, x: T)
    requires x !in s
    ensures RemoveFirst(s + [x], x) == s
  {
    var t := s + [x];
    assert t[|s|] == x;
    assert forall j :: 0 <= j < |s| ==> t[j] != x by {
      forall j | 0 <= j < |s| ensures t[j] != x { assert t[j] == s[j]; }
    }
    RemoveFirstAt(t, |s|);
    assert t[..|s|] == s;
  }
}
