/** The Python list operations the core uses, on values: `any(...)`, a
    filtering comprehension, `del s[k]` and `s.remove(x)`. */
module Lists {
  import opened Base

  /** `any(p(x) for x in s)`, scanning `s` from the front. */
  function Any<T>(s: seq<T>, p: T -> bool): (r: bool)
    ensures r <==> exists i :: 0 <= i < |s| && p(s[i])
    decreases |s|
  {
    if s == [] then false
    else if p(s[0]) then true
    else
      assert forall i :: 1 <= i < |s| ==> s[i] == s[1..][i - 1];
      Any(s[1..], p)
  }

  /** `[x for x in s if keep(x)]`. */
  function Filter<T(==)>(s: seq<T>, keep: T -> bool): (r: seq<T>)
    ensures |r| <= |s|
    ensures forall i :: 0 <= i < |r| ==> r[i] in s && keep(r[i])
    ensures forall i :: 0 <= i < |s| && keep(s[i]) ==> s[i] in r
    decreases |s|
  {
    if s == [] then []
    else if keep(s[0]) then [s[0]] + Filter(s[1..], keep)
    else Filter(s[1..], keep)
  }

  /** A filter that keeps every element is the identity: survivors keep their order. */
  lemma {:induction false} FilterAllKept<T>(s: seq<T>, keep: T -> bool)
    requires forall i :: 0 <= i < |s| ==> keep(s[i])
    ensures Filter(s, keep) == s
    decreases |s|
  {
    if s != [] {
      FilterAllKept(s[1..], keep);
    }
  }

  /** Filtering commutes with concatenation, so the relative order of the
      survivors from either part is kept. */
  lemma {:induction false} FilterConcat<T>(a: seq<T>, b: seq<T>, keep: T -> bool)
    ensures Filter(a + b, keep) == Filter(a, keep) + Filter(b, keep)
    decreases |a|
  {
    if a == [] {
      assert a + b == b;
    } else {
      assert (a + b)[0] == a[0] && (a + b)[1..] == a[1..] + b;
      FilterConcat(a[1..], b, keep);
    }
  }

  /** `s` without the element at index `k`. */
  function RemoveAt<T>(s: seq<T>, k: nat): (r: seq<T>)
    requires k < |s|
    ensures |r| == |s| - 1
    ensures forall i :: 0 <= i < k ==> r[i] == s[i]
    ensures forall i :: k <= i < |r| ==> r[i] == s[i + 1]
    ensures multiset(r) == multiset(s) - multiset{s[k]}
  {
    assert s == s[..k] + [s[k]] + s[k + 1..];
    s[..k] + s[k + 1..]
  }

  /** `s.index(x)`: the first index holding `x`. */
  function IndexOf<T(==)>(s: seq<T>, x: T): (r: Option<nat>)
    ensures r.None? <==> x !in s
    ensures r.Some? ==> r.value < |s| && s[r.value] == x && x !in s[..r.value]
    decreases |s|
  {
    if s == [] then None
    else if s[0] == x then Some(0)
    else match IndexOf(s[1..], x)
      case None => None
      case Some(k) =>
        assert s[..k + 1] == [s[0]] + s[1..][..k];
        Some(k + 1)
  }

  /** `s.remove(x)`: drop the first element equal to `x`; Python raises
      ValueError when there is none. */
  function RemoveFirst<T(==)>(s: seq<T>, x: T): (r: Result<seq<T>>)
    ensures r.Err? <==> x !in s
    ensures r.Err? ==> r.error == ValueError
    ensures r.Ok? ==> |r.value| == |s| - 1 && multiset(r.value) == multiset(s) - multiset{x}
  {
    match IndexOf(s, x)
    case None => Err(ValueError)
    case Some(k) => Ok(RemoveAt(s, k))
  }

  /** Removing the first copy of `s[k]` removes index `k` itself when no earlier
      element equals it. */
  lemma RemoveFirstAt<T>(s: seq<T>, k: nat)
    requires k < |s| && s[k] !in s[..k]
    ensures RemoveFirst(s, s[k]) == Ok(RemoveAt(s, k))
  {
    IndexOfAt(s, k);
  }

  /** The first index holding `s[k]` is `k` when no earlier element equals it. */
  lemma {:induction false} IndexOfAt<T>(s: seq<T>, k: nat)
    requires k < |s| && s[k] !in s[..k]
    ensures IndexOf(s, s[k]) == Some(k)
    decreases k
  {
    if k > 0 {
      assert s[..k][0] == s[0];
      assert s[1..][k - 1] == s[k];
      assert s[1..][..k - 1] == s[1..k];
      assert forall i :: 0 <= i < k - 1 ==> s[1..k][i] == s[..k][i + 1];
      IndexOfAt(s[1..], k - 1);
    }
  }

  /** A list without repeated elements holds each element at most once. */
  lemma {:induction false} DistinctCountsOne<T>(s: seq<T>)
    requires forall i, j :: 0 <= i < j < |s| ==> s[i] != s[j]
    ensures forall x :: multiset(s)[x] <= 1
    decreases |s|
  {
    if s != [] {
      DistinctCountsOne(s[1..]);
      assert s == [s[0]] + s[1..];
      assert s[0] !in s[1..];
    }
  }
}
