/** Small shared vocabulary: optional values, results that carry either a value
    or the exception the Python code would raise, and `"sep".join(xs)`. */
module Base {

  /** A Python value that may be `None`. */
  datatype Option<+T> = None | Some(value: T) {
    function GetOr(default: T): T {
      match this
      case Some(v) => v
      case None => default
    }
  }

  /** The outcome of a Python call: its return value, or the exception it raised. */
  datatype Result<+T, +E> = Success(value: T) | Failure(error: E)

  /** `sep.join(xs)`: the elements of `xs` in order, with `sep` between neighbours. */
  function Join(sep: string, xs: seq<string>): (r: string)
    ensures |xs| == 0 ==> r == ""
    ensures |xs| == 1 ==> r == xs[0]
    ensures |xs| > 0 ==> |r| >= |xs[0]|
  {
    if |xs| == 0 then ""
    else if |xs| == 1 then xs[0]
    else xs[0] + sep + Join(sep, xs[1..])
  }

  /** Joining a longer list adds the separator and the new element at the end,
      so the elements appear in order. */
  lemma {:induction false} JoinSnoc(sep: string, xs: seq<string>, x: string)
    requires |xs| > 0
    ensures Join(sep, xs + [x]) == Join(sep, xs) + sep + x
  {
    if |xs| == 1 {
      assert xs + [x] == [xs[0], x];
      assert (xs + [x])[1..] == [x];
    } else {
      assert (xs + [x])[1..] == xs[1..] + [x];
      JoinSnoc(sep, xs[1..], x);
    }
  }

  /** Joining two non-empty lists is joining each and gluing with one separator. */
  lemma {:induction false} JoinAppend(sep: string, xs: seq<string>, ys: seq<string>)
    requires |xs| > 0 && |ys| > 0
    ensures Join(sep, xs + ys) == Join(sep, xs) + sep + Join(sep, ys)
  {
    if |ys| == 1 {
      assert ys == [ys[0]];
      JoinSnoc(sep, xs, ys[0]);
    } else {
      var ys' := ys[..|ys| - 1];
      var y := ys[|ys| - 1];
      assert ys == ys' + [y];
      assert xs + ys == (xs + ys') + [y];
      JoinAppend(sep, xs, ys');
      JoinSnoc(sep, xs + ys', y);
      JoinSnoc(sep, ys', y);
    }
  }

  /** A Python loop that appends `f(x)` for each `x` in order and lets the first
      exception escape: every result, or the first failure. */
  function MapAll<A, B, E>(xs: seq<A>, f: A -> Result<B, E>): (r: Result<seq<B>, E>)
    ensures r.Success? <==> forall i :: 0 <= i < |xs| ==> f(xs[i]).Success?
    ensures r.Success? ==> |r.value| == |xs| && forall i :: 0 <= i < |xs| ==> r.value[i] == f(xs[i]).value
    decreases |xs|
  {
    if |xs| == 0 then Success([])
    else
      match f(xs[0])
      case Failure(e) => Failure(e)
      case Success(y) =>
        match MapAll(xs[1..], f)
        case Failure(e) => Failure(e)
        case Success(ys) => Success([y] + ys)
  }

  /** A failed loop reports the failure of the first element that fails; every
      element before it succeeds. */
  lemma {:induction false} MapAllFirstFailure<A, B, E>(xs: seq<A>, f: A -> Result<B, E>)
    ensures MapAll(xs, f).Failure? ==>
      exists i :: 0 <= i < |xs| && f(xs[i]) == Failure(MapAll(xs, f).error)
                  && forall j :: 0 <= j < i ==> f(xs[j]).Success?
    decreases |xs|
  {
    if |xs| > 0 && f(xs[0]).Success? && MapAll(xs, f).Failure? {
      var rest := xs[1..];
      MapAllFirstFailure(rest, f);
      var i :| 0 <= i < |rest| && f(rest[i]) == Failure(MapAll(rest, f).error)
               && forall j :: 0 <= j < i ==> f(rest[j]).Success?;
      assert f(xs[i + 1]) == Failure(MapAll(xs, f).error);
      assert forall j :: 1 <= j < i + 1 ==> xs[j] == rest[j - 1];
    }
  }

  /** Looping over a concatenation loops over the first list, then the second;
      the first failure wins. */
  lemma {:induction false} MapAllAppend<A, B, E>(xs: seq<A>, ys: seq<A>, f: A -> Result<B, E>)
    ensures MapAll(xs + ys, f) ==
      match MapAll(xs, f)
      case Failure(e) => Failure(e)
      case Success(a) =>
        (match MapAll(ys, f)
         case Failure(e) => Failure(e)
         case Success(b) => Success(a + b))
    decreases |xs|
  {
    if |xs| == 0 {
      assert xs + ys == ys;
      match MapAll(ys, f)
      case Failure(_) =>
      case Success(b) => assert [] + b == b;
    } else {
      assert (xs + ys)[0] == xs[0];
      assert (xs + ys)[1..] == xs[1..] + ys;
      MapAllAppend(xs[1..], ys, f);
      match f(xs[0])
      case Failure(_) =>
      case Success(y) =>
        match MapAll(xs[1..], f)
        case Failure(_) =>
        case Success(a) =>
          match MapAll(ys, f)
          case Failure(_) =>
          case Success(b) => assert [y] + (a + b) == ([y] + a) + b;
    }
  }
}
