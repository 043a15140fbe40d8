/**
 * The "first element satisfying a predicate" query that the source performs
 * with `Array.prototype.find` (registry scans, timeline conflict scans,
 * demand lookups).
 */
module Search {
  import opened Wrappers

  /** True when `i` is the position of the first element of `s` satisfying `p`. */
  ghost predicate IsFirst<T>(s: seq<T>, p: T -> bool, i: nat)
  {
    i < |s| && p(s[i]) && forall j :: 0 <= j < i ==> !p(s[j])
  }

  /** The scan from the front: a position of an element of `s` satisfying `p`, or None. */
  function FirstIndex<T>(s: seq<T>, p: T -> bool): (r: Option<nat>)
    ensures r.Some? ==> r.value < |s| && p(s[r.value])
  {
    if |s| == 0 then None
    else if p(s[0]) then Some(0)
    else match FirstIndex(s[1..], p)
      case None => None
      case Some(i) => Some(i + 1)
  }

  /** The scan finds the first element satisfying `p`, and None exactly when no element does. */
  lemma {:induction false} FirstIndexIsFirst<T>(s: seq<T>, p: T -> bool)
    ensures FirstIndex(s, p).Some? ==> IsFirst(s, p, FirstIndex(s, p).value)
    ensures FirstIndex(s, p).None? <==> forall j :: 0 <= j < |s| ==> !p(s[j])
  {
    if |s| > 0 && !p(s[0]) {
      FirstIndexIsFirst(s[1..], p);
      assert forall j :: 1 <= j < |s| ==> s[j] == s[1..][j - 1];
    }
  }

  /** The first match is unique: any index that is first is the one FirstIndex returns. */
  lemma FirstIndexUnique<T>(s: seq<T>, p: T -> bool, i: nat)
    requires IsFirst(s, p, i)
    ensures FirstIndex(s, p) == Some(i)
  {
    FirstIndexIsFirst(s, p);
  }

  /** Two scans agree when their predicates agree position by position. */
  lemma FirstIndexCongruent<T, U>(s: seq<T>, p: T -> bool, t: seq<U>, q: U -> bool)
    requires |s| == |t|
    requires forall j :: 0 <= j < |s| ==> p(s[j]) == q(t[j])
    ensures FirstIndex(s, p) == FirstIndex(t, q)
  {
    FirstIndexIsFirst(s, p);
    FirstIndexIsFirst(t, q);
    match FirstIndex(s, p)
    case None =>
    case Some(i) => FirstIndexUnique(t, q, i);
  }

  /** The elements of `s` satisfying `p`, in order (`Array.prototype.filter`). */
  function Filter<T>(s: seq<T>, p: T -> bool): seq<T>
  {
    if |s| == 0 then [] else (if p(s[0]) then [s[0]] else []) + Filter(s[1..], p)
  }

  lemma {:induction false} FilterConcat<T>(s: seq<T>, t: seq<T>, p: T -> bool)
    ensures Filter(s + t, p) == Filter(s, p) + Filter(t, p)
  {
    if |s| == 0 {
      assert s + t == t;
    } else {
      var head := if p(s[0]) then [s[0]] else [];
      assert (s + t)[0] == s[0];
      assert (s + t)[1..] == s[1..] + t;
      FilterConcat(s[1..], t, p);
      calc {
        Filter(s + t, p);
        head + Filter(s[1..] + t, p);
        head + (Filter(s[1..], p) + Filter(t, p));
        (head + Filter(s[1..], p)) + Filter(t, p);
      }
    }
  }

  /** When nothing is left out, filtering changes nothing. */
  lemma {:induction false} FilterKeepsAll<T>(s: seq<T>, p: T -> bool)
    requires forall j :: 0 <= j < |s| ==> p(s[j])
    ensures Filter(s, p) == s
  {
    if |s| > 0 {
      FilterKeepsAll(s[1..], p);
    }
  }

  /** Filtering leaves nothing exactly when no element satisfies the predicate. */
  lemma {:induction false} FilterEmpty<T>(s: seq<T>, p: T -> bool)
    ensures Filter(s, p) == [] <==> forall j :: 0 <= j < |s| ==> !p(s[j])
  {
    if |s| > 0 {
      FilterEmpty(s[1..], p);
      if p(s[0]) {
        assert Filter(s, p)[0] == s[0];
      } else {
        assert forall j :: 1 <= j < |s| ==> s[j] == s[1..][j - 1];
      }
    }
  }

  lemma FilterSingleton<T>(x: T, p: T -> bool)
    ensures Filter([x], p) == if p(x) then [x] else []
  {
    assert [x][1..] == [];
  }

  /** Filtering around one position: what precedes it, the element itself, what follows it. */
  lemma FilterAround<T>(s: seq<T>, p: T -> bool, i: nat)
    requires i < |s|
    ensures Filter(s, p) == Filter(s[..i], p) + (if p(s[i]) then [s[i]] else []) + Filter(s[i + 1..], p)
    ensures Filter(s[..i] + s[i + 1..], p) == Filter(s[..i], p) + Filter(s[i + 1..], p)
  {
    FilterSplit(s, p, i);
    FilterConcat(s[..i], s[i + 1..], p);
  }

  lemma SeqAround<T>(s: seq<T>, i: nat)
    requires i < |s|
    ensures s == s[..i] + ([s[i]] + s[i + 1..])
  {
  }

  lemma FilterSplit<T>(s: seq<T>, p: T -> bool, i: nat)
    requires i < |s|
    ensures Filter(s, p) == Filter(s[..i], p) + (Filter([s[i]], p) + Filter(s[i + 1..], p))
    ensures Filter([s[i]], p) == if p(s[i]) then [s[i]] else []
  {
    SeqAround(s, i);
    FilterConcat(s[..i], [s[i]] + s[i + 1..], p);
    FilterConcat([s[i]], s[i + 1..], p);
    FilterSingleton(s[i], p);
  }

  /** Whatever filtering keeps is an element of the input. */
  lemma {:induction false} FilterSubset<T>(s: seq<T>, p: T -> bool)
    ensures forall x :: x in Filter(s, p) ==> x in s
  {
    if |s| > 0 {
      FilterSubset(s[1..], p);
    }
  }
}
