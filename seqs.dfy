/**
 * Order-preserving filters over sequences: Python's
 * `[x for x in xs if test(x)]`, with and without a test that can raise.
 */
module Seqs {
  import opened Common

  /** `[x for x in s if p(x)]` */
  function Filter<T>(s: seq<T>, p: T -> bool): (r: seq<T>)
    ensures |r| <= |s|
    ensures forall x :: x in r ==> x in s && p(x)
  {
    if s == [] then [] else (if p(s[0]) then [s[0]] else []) + Filter(s[1..], p)
  }

  /** `a` is `b` with some elements left out, the rest in the same order. */
  predicate IsSubseq<T(==)>(a: seq<T>, b: seq<T>)
  {
    if a == [] then true
    else if b == [] then false
    else if a[0] == b[0] then IsSubseq(a[1..], b[1..])
    else IsSubseq(a, b[1..])
  }

  lemma {:induction false} FilterIsSubseq<T>(s: seq<T>, p: T -> bool)
    ensures IsSubseq(Filter(s, p), s)
  {
    if s != [] {
      FilterIsSubseq(s[1..], p);
      var r := Filter(s, p);
      if p(s[0]) {
        assert r[0] == s[0] && r[1..] == Filter(s[1..], p);
      } else {
        assert r == Filter(s[1..], p);
      }
    }
  }

  /** Exactly the elements that satisfy `p` are kept. */
  lemma {:induction false} FilterMember<T>(s: seq<T>, p: T -> bool, x: T)
    ensures x in Filter(s, p) <==> x in s && p(x)
  {
    if s != [] {
      FilterMember(s[1..], p, x);
      assert s == [s[0]] + s[1..];
    }
  }

  lemma FilterMembers<T>(s: seq<T>, p: T -> bool)
    ensures forall x :: x in Filter(s, p) <==> x in s && p(x)
  {
    forall x ensures x in Filter(s, p) <==> x in s && p(x) {
      FilterMember(s, p, x);
    }
  }

  lemma {:induction false} FilterConcat<T>(a: seq<T>, b: seq<T>, p: T -> bool)
    ensures Filter(a + b, p) == Filter(a, p) + Filter(b, p)
  {
    if a != [] {
      FilterConcat(a[1..], b, p);
      assert (a + b)[1..] == a[1..] + b;
    } else {
      assert a + b == b;
    }
  }

  lemma {:induction false} FilterNone<T>(s: seq<T>, p: T -> bool)
    requires forall i | 0 <= i < |s| :: !p(s[i])
    ensures Filter(s, p) == []
  {
    if s != [] { FilterNone(s[1..], p); }
  }

  lemma {:induction false} FilterAll<T>(s: seq<T>, p: T -> bool)
    requires forall i | 0 <= i < |s| :: p(s[i])
    ensures Filter(s, p) == s
  {
    if s != [] { FilterAll(s[1..], p); assert s == [s[0]] + s[1..]; }
  }

  /** Filtering depends only on what the predicate says of the elements present. */
  lemma {:induction false} FilterCongruent<T>(s: seq<T>, p: T -> bool, q: T -> bool)
    requires forall i | 0 <= i < |s| :: p(s[i]) == q(s[i])
    ensures Filter(s, p) == Filter(s, q)
  {
    if s != [] { FilterCongruent(s[1..], p, q); }
  }

  /** Each element is kept with its multiplicity when it satisfies `p` and dropped otherwise. */
  lemma {:induction false} FilterCount<T>(s: seq<T>, p: T -> bool, x: T)
    ensures multiset(Filter(s, p))[x] == if p(x) then multiset(s)[x] else 0
  {
    if s != [] {
      FilterCount(s[1..], p, x);
      assert s == [s[0]] + s[1..];
    }
  }

  lemma FilterCounts<T>(s: seq<T>, p: T -> bool)
    ensures forall x :: multiset(Filter(s, p))[x] == if p(x) then multiset(s)[x] else 0
  {
    forall x ensures multiset(Filter(s, p))[x] == if p(x) then multiset(s)[x] else 0 {
      FilterCount(s, p, x);
    }
  }

  /** A test that may raise, and the predicate "the test ran and said keep". */
  function Passes<T>(test: T -> Result<bool>): T -> bool
  {
    x => test(x).Ok? && test(x).value
  }

  /**
   * `[x for x in s if test(x)]` where evaluating `test` may raise: the
   * comprehension raises the first error met, scanning left to right.
   */
  function FilterOrFail<T>(s: seq<T>, test: T -> Result<bool>): (r: Result<seq<T>>)
    ensures r.Ok? <==> forall i | 0 <= i < |s| :: test(s[i]).Ok?
    ensures r.Ok? ==> r.value == Filter(s, Passes(test))
    ensures r.Err? ==> exists i | 0 <= i < |s| ::
      test(s[i]).Err? && r.error == test(s[i]).error && forall j | 0 <= j < i :: test(s[j]).Ok?
  {
    if s == [] then Ok([])
    else match test(s[0])
      case Err(e) => Err(e)
      case Ok(keep) =>
        match FilterOrFail(s[1..], test)
        case Err(e) =>
          assert forall i | 1 <= i < |s| :: s[i] == s[1..][i - 1];
          Err(e)
        case Ok(rest) =>
          assert forall i | 1 <= i < |s| :: s[i] == s[1..][i - 1];
          Ok((if keep then [s[0]] else []) + rest)
  }

  /**
   * The loop `for x in s: if test(x): kept.append(x)`, where evaluating
   * `test` may raise: the kept elements in order, or the first error met.
   */
  method FilterLoop<T>(s: seq<T>, test: T -> Result<bool>) returns (r: Result<seq<T>>)
    ensures r.Ok? <==> forall i | 0 <= i < |s| :: test(s[i]).Ok?
    ensures r.Ok? ==> r.value == Filter(s, Passes(test))
    ensures r.Err? ==> exists i | 0 <= i < |s| ::
      test(s[i]) == Err(r.error) && forall j | 0 <= j < i :: test(s[j]).Ok?
  {
    var kept: seq<T> := [];
    for i := 0 to |s|
      invariant forall j | 0 <= j < i :: test(s[j]).Ok?
      invariant kept == Filter(s[..i], Passes(test))
    {
      var keep := test(s[i]);
      if keep.Err? {
        return Err(keep.error);
      }
      FilterConcat(s[..i], [s[i]], Passes(test));
      assert s[..i + 1] == s[..i] + [s[i]];
      if keep.value {
        kept := kept + [s[i]];
      }
    }
    assert s[..|s|] == s;
    return Ok(kept);
  }

  /**
   * `for x in s: results.extend(f(x))` where `f` may raise: the results of
   * every element concatenated in order, or the first error met.
   */
  function FlatMapOrFail<T, U>(s: seq<T>, f: T -> Result<seq<U>>): (r: Result<seq<U>>)
    ensures r.Ok? <==> forall i | 0 <= i < |s| :: f(s[i]).Ok?
  {
    if s == [] then Ok([])
    else
      var n := |s| - 1;
      var prev := FlatMapOrFail(s[..n], f);
      if prev.Err? then prev
      else if f(s[n]).Err? then f(s[n])
      else Ok(prev.value + f(s[n]).value)
  }

  /** Once a prefix has raised, the whole loop has raised that same error. */
  lemma {:induction false} FlatMapErrPropagates<T, U>(s: seq<T>, f: T -> Result<seq<U>>, i: nat)
    requires i <= |s|
    requires FlatMapOrFail(s[..i], f).Err?
    ensures FlatMapOrFail(s, f) == FlatMapOrFail(s[..i], f)
  {
    if i < |s| {
      var n := |s| - 1;
      assert s[..n][..i] == s[..i];
      FlatMapErrPropagates(s[..n], f, i);
    } else {
      assert s[..i] == s;
    }
  }

  /** Every result comes from the results of some element. */
  lemma {:induction false} FlatMapMember<T, U>(s: seq<T>, f: T -> Result<seq<U>>, y: U)
    requires FlatMapOrFail(s, f).Ok?
    ensures y in FlatMapOrFail(s, f).value <==> exists i | 0 <= i < |s| :: y in f(s[i]).value
  {
    if s != [] {
      var n := |s| - 1;
      FlatMapMember(s[..n], f, y);
      assert forall i | 0 <= i < n :: s[..n][i] == s[i];
    }
  }

  /** One more loop iteration: the results so far followed by those of the next element. */
  lemma FlatMapStep<T, U>(s: seq<T>, i: nat, f: T -> Result<seq<U>>)
    requires i < |s| && FlatMapOrFail(s[..i], f).Ok? && f(s[i]).Ok?
    ensures FlatMapOrFail(s[..i + 1], f) == Ok(FlatMapOrFail(s[..i], f).value + f(s[i]).value)
  {
    assert s[..i + 1][..i] == s[..i];
  }

  /** When every element yields at most one result, there are at most as many results as elements. */
  lemma {:induction false} FlatMapAtMostOne<T, U>(s: seq<T>, f: T -> Result<seq<U>>)
    requires FlatMapOrFail(s, f).Ok?
    requires forall i | 0 <= i < |s| :: f(s[i]).Ok? ==> |f(s[i]).value| <= 1
    ensures |FlatMapOrFail(s, f).value| <= |s|
  {
    if s != [] {
      var n := |s| - 1;
      assert forall i | 0 <= i < n :: s[..n][i] == s[i];
      FlatMapAtMostOne(s[..n], f);
    }
  }

  /** When every element yields exactly one result, the results correspond one to one, in order. */
  lemma {:induction false} FlatMapSingletons<T, U>(s: seq<T>, f: T -> Result<seq<U>>)
    requires forall i | 0 <= i < |s| :: f(s[i]).Ok? && |f(s[i]).value| == 1
    ensures FlatMapOrFail(s, f).Ok?
    ensures |FlatMapOrFail(s, f).value| == |s|
    ensures forall i | 0 <= i < |s| :: [FlatMapOrFail(s, f).value[i]] == f(s[i]).value
  {
    if s != [] {
      var n := |s| - 1;
      assert forall i | 0 <= i < n :: s[..n][i] == s[i];
      FlatMapSingletons(s[..n], f);
      var prev := FlatMapOrFail(s[..n], f).value;
      var out := FlatMapOrFail(s, f).value;
      assert out == prev + f(s[n]).value;
      forall i | 0 <= i < |s| ensures [out[i]] == f(s[i]).value {
        if i < n {
          assert out[i] == prev[i];
        } else {
          assert f(s[n]).value == [f(s[n]).value[0]];
        }
      }
    }
  }

  /** Elements failing `p` after the last one passing it leave that one last in the filtered sequence. */
  lemma FilterLast<T>(pre: seq<T>, e: T, post: seq<T>, p: T -> bool)
    requires p(e)
    requires forall i | 0 <= i < |post| :: !p(post[i])
    ensures Filter(pre + [e] + post, p) == Filter(pre, p) + [e]
  {
    FilterConcat(pre + [e], post, p);
    FilterConcat(pre, [e], p);
    FilterNone(post, p);
    assert Filter([e], p) == [e];
  }
}
