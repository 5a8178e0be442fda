/** The list idioms the editors and pages use on their slot lists:
    `map((x, i) => i === index ? value : x)`, `filter((_, i) => i !== index)`,
    `filter(keep)` and `find(p)`. JavaScript leaves a list alone when the index
    is out of range, and so do these. */
module Slots {
  import opened Wrappers

  predicate InRange<T>(s: seq<T>, index: int)
  {
    0 <= index < |s|
  }

  /** Replaces the entry at `index`; every other entry and the length stay. */
  function Replaced<T>(s: seq<T>, index: int, value: T): (r: seq<T>)
    ensures |r| == |s|
    ensures InRange(s, index) ==> r == s[index := value]
    ensures !InRange(s, index) ==> r == s
    ensures forall j :: 0 <= j < |s| && j != index ==> r[j] == s[j]
    decreases |s|
  {
    if s == [] then []
    else [if index == 0 then value else s[0]] + Replaced(s[1..], index - 1, value)
  }

  /** Deletes the entry at `index`, keeping the others in order. */
  function Removed<T>(s: seq<T>, index: int): (r: seq<T>)
    ensures InRange(s, index) ==> r == s[..index] + s[index + 1..]
    ensures !InRange(s, index) ==> r == s
    decreases |s|
  {
    if s == [] then []
    else
      assert s == [s[0]] + s[1..];
      (if index == 0 then [] else [s[0]]) + Removed(s[1..], index - 1)
  }

  /** Appending an entry and then removing the last one restores the list. */
  lemma AppendThenRemoveLast<T>(s: seq<T>, x: T)
    ensures Removed(s + [x], |s|) == s
  {
    assert (s + [x])[..|s|] == s;
  }

  /** Keeps the entries satisfying `keep`, in their original order. */
  function Filter<T>(s: seq<T>, keep: T -> bool): (r: seq<T>)
    ensures |r| <= |s|
    ensures forall k :: 0 <= k < |r| ==> keep(r[k])
    ensures r == [] <==> forall k :: 0 <= k < |s| ==> !keep(s[k])
  {
    if s == [] then []
    else
      assert s == [s[0]] + s[1..];
      (if keep(s[0]) then [s[0]] else []) + Filter(s[1..], keep)
  }

  /** Filtering distributes over concatenation: together with the one-element
      case, this says the survivors keep their relative order. */
  lemma {:induction false} FilterAppend<T>(a: seq<T>, b: seq<T>, keep: T -> bool)
    ensures Filter(a + b, keep) == Filter(a, keep) + Filter(b, keep)
  {
    if a == [] {
      assert a + b == b;
    } else {
      assert (a + b)[1..] == a[1..] + b;
      FilterAppend(a[1..], b, keep);
      var head := if keep(a[0]) then [a[0]] else [];
      calc {
        Filter(a + b, keep);
        head + Filter(a[1..] + b, keep);
        head + (Filter(a[1..], keep) + Filter(b, keep));
        (head + Filter(a[1..], keep)) + Filter(b, keep);
      }
    }
  }

  /** Every survivor of a filter is an entry of the input, counted no more
      often than it occurs there. */
  lemma {:induction false} FilterSubMultiset<T>(s: seq<T>, keep: T -> bool)
    ensures multiset(Filter(s, keep)) <= multiset(s)
  {
    if s != [] {
      FilterSubMultiset(s[1..], keep);
      assert s == [s[0]] + s[1..];
      assert multiset(s) == multiset([s[0]]) + multiset(s[1..]);
    }
  }

  /** Filtering what has already been filtered changes nothing. */
  lemma {:induction false} FilterIdempotent<T>(s: seq<T>, keep: T -> bool)
    ensures Filter(Filter(s, keep), keep) == Filter(s, keep)
  {
    if s != [] {
      var rest := Filter(s[1..], keep);
      FilterIdempotent(s[1..], keep);
      if keep(s[0]) {
        var f := [s[0]] + rest;
        assert f != [] && f[0] == s[0] && f[1..] == rest;
        assert Filter(f, keep) == [s[0]] + Filter(rest, keep);
      } else {
        assert Filter(s, keep) == rest;
      }
    }
  }

  /** The first survivor of a filter is the first entry that passes. */
  lemma {:induction false} FilterHead<T>(s: seq<T>, keep: T -> bool, k: nat)
    requires k < |s| && keep(s[k])
    requires forall j :: 0 <= j < k ==> !keep(s[j])
    ensures Filter(s, keep) != [] && Filter(s, keep)[0] == s[k]
  {
    if k > 0 {
      FilterHead(s[1..], keep, k - 1);
    }
  }

  /** The index of the first entry satisfying `p`, as `findIndex` would give it. */
  function FindIndex<T>(s: seq<T>, p: T -> bool): (r: Option<nat>)
    ensures r.Some? ==> r.value < |s| && p(s[r.value])
    ensures r.Some? ==> forall j :: 0 <= j < r.value ==> !p(s[j])
    ensures r.None? <==> forall j :: 0 <= j < |s| ==> !p(s[j])
  {
    if s == [] then None
    else if p(s[0]) then Some(0)
    else match FindIndex(s[1..], p)
      case None => None
      case Some(k) => Some(k + 1)
  }

  /** `s.find(p)`: the first entry satisfying `p`, or `undefined`. */
  function Find<T>(s: seq<T>, p: T -> bool): (r: Option<T>)
    ensures r.None? <==> forall j :: 0 <= j < |s| ==> !p(s[j])
    ensures r.Some? ==> exists k :: 0 <= k < |s| && s[k] == r.value && p(s[k]) &&
                                    (forall j :: 0 <= j < k ==> !p(s[j]))
  {
    match FindIndex(s, p)
    case None => None
    case Some(k) => Some(s[k])
  }
}
