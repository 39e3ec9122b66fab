/**
 * A `for` loop over a list whose body may raise: the elements are visited in
 * order, and the first one whose step raises ends the loop with that error.
 */
module Walk {
  import opened Wrappers

  /** The results of `step` on every element, or the first error. */
  function WalkInOrder<A, B, E>(step: A -> Result<B, E>, s: seq<A>): (r: Result<seq<B>, E>)
    ensures r.Success? ==> |r.value| == |s|
  {
    if s == [] then Success([])
    else
      var last := |s| - 1;
      match WalkInOrder(step, s[..last])
      case Failure(e) => Failure(e)
      case Success(done) =>
        match step(s[last])
        case Failure(e) => Failure(e)
        case Success(x) => Success(done + [x])
  }

  /** A successful walk holds the step's result for each element, at that element's position. */
  lemma {:induction false} WalkSuccess<A, B, E>(step: A -> Result<B, E>, s: seq<A>, i: nat)
    requires WalkInOrder(step, s).Success? && i < |s|
    ensures step(s[i]) == Success(WalkInOrder(step, s).value[i])
  {
    var last := |s| - 1;
    if i < last {
      WalkSuccess(step, s[..last], i);
    }
  }

  /** When every step succeeds, the walk returns their results in order. */
  lemma {:induction false} WalkAll<A, B, E>(step: A -> Result<B, E>, s: seq<A>, out: seq<B>)
    requires |out| == |s|
    requires forall j :: 0 <= j < |s| ==> step(s[j]) == Success(out[j])
    ensures WalkInOrder(step, s) == Success(out)
  {
    if s != [] {
      var last := |s| - 1;
      WalkAll(step, s[..last], out[..last]);
      assert out[..last] + [out[last]] == out;
    }
  }

  /** A walk over a prefix extends by one element whose step succeeds. */
  lemma WalkExtend<A, B, E>(step: A -> Result<B, E>, s: seq<A>, i: nat, done: seq<B>)
    requires i < |s| && WalkInOrder(step, s[..i]) == Success(done) && step(s[i]).Success?
    ensures WalkInOrder(step, s[..i + 1]) == Success(done + [step(s[i]).value])
  {
    assert s[..i + 1][..i] == s[..i];
  }

  /** Once a prefix raises, the whole walk raises the same error. */
  lemma {:induction false} WalkPrefixFailure<A, B, E>(step: A -> Result<B, E>, s: seq<A>, n: nat)
    requires n <= |s| && WalkInOrder(step, s[..n]).Failure?
    ensures WalkInOrder(step, s) == WalkInOrder(step, s[..n])
  {
    if n < |s| {
      var last := |s| - 1;
      assert s[..last][..n] == s[..n];
      WalkPrefixFailure(step, s[..last], n);
    } else {
      assert s[..n] == s;
    }
  }

  /** When element `k` is the first whose step raises, the walk raises that error. */
  lemma {:induction false} WalkFirstFailure<A, B, E>(step: A -> Result<B, E>, s: seq<A>, k: nat, e: E)
    requires k < |s|
    requires forall j :: 0 <= j < k ==> step(s[j]).Success?
    requires step(s[k]) == Failure(e)
    ensures WalkInOrder(step, s) == Failure(e)
  {
    var front := s[..k];
    var out := seq(k, j requires 0 <= j < k => step(front[j]).value);
    WalkAll(step, front, out);
    assert s[..k + 1][..k] == front;
    WalkPrefixFailure(step, s, k + 1);
  }

  /** The walk raises exactly when some step raises, and then with the error of the first that does. */
  lemma {:induction false} WalkFailure<A, B, E>(step: A -> Result<B, E>, s: seq<A>)
    ensures WalkInOrder(step, s).Failure? <==> exists i :: 0 <= i < |s| && step(s[i]).Failure?
    ensures WalkInOrder(step, s).Failure? ==>
              exists i :: 0 <= i < |s| && step(s[i]) == Failure(WalkInOrder(step, s).error) &&
                          forall j :: 0 <= j < i ==> step(s[j]).Success?
  {
    if s != [] {
      var last := |s| - 1;
      var front := s[..last];
      assert forall i :: 0 <= i < last ==> front[i] == s[i];
      WalkFailure(step, front);
      if WalkInOrder(step, front).Failure? {
        var i :| 0 <= i < |front| && step(front[i]) == Failure(WalkInOrder(step, front).error) &&
                 forall j :: 0 <= j < i ==> step(front[j]).Success?;
        assert step(s[i]) == Failure(WalkInOrder(step, s).error);
      } else if step(s[last]).Failure? {
        assert step(s[last]) == Failure(WalkInOrder(step, s).error);
      } else {
        forall j | 0 <= j < last ensures step(s[j]).Success? {
          WalkSuccess(step, front, j);
        }
      }
    }
  }

  /** A walk over one element is that element's step. */
  lemma WalkOne<A, B, E>(step: A -> Result<B, E>, x: A)
    ensures WalkInOrder(step, [x]) == match step(x) case Failure(e) => Failure(e) case Success(y) => Success([y])
  {
    var nothing: seq<B> := [];
    assert [x][..0] == [];
    assert WalkInOrder(step, [x][..0]) == Success(nothing);
    if step(x).Success? {
      assert nothing + [step(x).value] == [step(x).value];
    }
  }

  /** The values of the `Some` results, in order: what a loop that appends only some of its results collects. */
  function Somes<T>(s: seq<Option<T>>): (r: seq<T>)
    ensures |r| <= |s|
  {
    if s == [] then []
    else
      var last := |s| - 1;
      Somes(s[..last]) + (match s[last] case Some(x) => [x] case None => [])
  }

  /** One result gives its value, or nothing. */
  lemma SomesOne<T>(o: Option<T>)
    ensures Somes([o]) == match o case Some(x) => [x] case None => []
  {
    var nothing: seq<T> := [];
    assert [o][..0] == [];
    assert Somes([o][..0]) == nothing;
    if o.Some? {
      assert nothing + [o.value] == [o.value];
    }
  }

  /** The elements that satisfy `keep`, in order. */
  function Filter<A>(keep: A -> bool, s: seq<A>): (r: seq<A>)
    ensures |r| <= |s|
  {
    if s == [] then []
    else
      var last := |s| - 1;
      Filter(keep, s[..last]) + (if keep(s[last]) then [s[last]] else [])
  }

  /**
   * When `ys` holds `g` of each element of `xs` and `keep` says which of them
   * are `Some`, the collected values are `g` of the kept elements, one for
   * one and in the same order.
   */
  lemma {:induction false} SomesFilter<A, B>(g: A -> Option<B>, keep: A -> bool, xs: seq<A>, ys: seq<Option<B>>)
    requires |ys| == |xs|
    requires forall i :: 0 <= i < |xs| ==> ys[i] == g(xs[i])
    requires forall i :: 0 <= i < |xs| ==> (keep(xs[i]) <==> g(xs[i]).Some?)
    ensures |Somes(ys)| == |Filter(keep, xs)|
    ensures forall k :: 0 <= k < |Somes(ys)| ==> g(Filter(keep, xs)[k]) == Some(Somes(ys)[k])
  {
    if xs != [] {
      var last := |xs| - 1;
      SomesFilter(g, keep, xs[..last], ys[..last]);
      var front, kept := Somes(ys[..last]), Filter(keep, xs[..last]);
      assert Somes(ys) == front + (match ys[last] case Some(x) => [x] case None => []);
      assert Filter(keep, xs) == kept + (if keep(xs[last]) then [xs[last]] else []);
      forall k | 0 <= k < |Somes(ys)| ensures g(Filter(keep, xs)[k]) == Some(Somes(ys)[k]) {
        if k < |front| {
          assert Filter(keep, xs)[k] == kept[k] && Somes(ys)[k] == front[k];
        }
      }
    }
  }
}
