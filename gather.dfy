/**
 * The loop shape shared by `search_web` and the batch branch of
 * `handle_mcp_post`: walk a list in order, append what each step yields
 * (a step may yield nothing), and stop at the first exception.
 */
module Gather {
  import opened Wrappers

  /** The values the steps yield, in order, or the first exception raised. */
  function Collect<T, E>(outs: seq<Result<Option<T>, E>>): Result<seq<T>, E>
  {
    if outs == [] then Ok([])
    else
      match Collect(outs[..|outs| - 1])
      case Err(e) => Err(e)
      case Ok(done) =>
        match outs[|outs| - 1]
        case Err(e) => Err(e)
        case Ok(None) => Ok(done)
        case Ok(Some(x)) => Ok(done + [x])
  }

  /** Once a step has raised, the later steps do not matter. */
  lemma {:induction false} CollectErrSticks<T, E>(outs: seq<Result<Option<T>, E>>, i: nat)
    requires i <= |outs|
    requires Collect(outs[..i]).Err?
    ensures Collect(outs) == Collect(outs[..i])
    decreases |outs| - i
  {
    if i < |outs| {
      assert outs[..i + 1][..i] == outs[..i];
      CollectErrSticks(outs, i + 1);
    } else {
      assert outs[..i] == outs;
    }
  }

  /** The walk fails exactly when some step raises, and then with the first
      step's exception. */
  lemma {:induction false} CollectErr<T, E>(outs: seq<Result<Option<T>, E>>)
    ensures Collect(outs).Err? <==> exists j :: 0 <= j < |outs| && outs[j].Err?
    ensures Collect(outs).Err? ==>
      exists j :: 0 <= j < |outs| && outs[j] == Err(Collect(outs).error)
        && forall i :: 0 <= i < j ==> outs[i].Ok?
  {
    if outs != [] {
      var n := |outs| - 1;
      var front := outs[..n];
      CollectErr(front);
      assert forall j :: 0 <= j < n ==> front[j] == outs[j];
    }
  }

  /** The walk keeps order and drops only the steps that yield nothing: its
      values are those of a strictly increasing choice of steps, which
      includes every step that yields a value. */
  lemma {:induction false} CollectOrder<T, E>(outs: seq<Result<Option<T>, E>>)
    returns (chosen: seq<nat>)
    requires Collect(outs).Ok?
    ensures var xs := Collect(outs).value;
      && |chosen| == |xs|
      && (forall k :: 0 <= k < |chosen| ==> chosen[k] < |outs|)
      && (forall k, l :: 0 <= k < l < |chosen| ==> chosen[k] < chosen[l])
      && (forall k :: 0 <= k < |chosen| ==> outs[chosen[k]] == Ok(Some(xs[k])))
      && (forall j :: 0 <= j < |outs| && outs[j].Ok? && outs[j].value.Some? ==> j in chosen)
  {
    if outs == [] {
      chosen := [];
    } else {
      var n := |outs| - 1;
      var front := outs[..n];
      var before := CollectOrder(front);
      assert forall j :: 0 <= j < n ==> front[j] == outs[j];
      if outs[n].value.Some? {
        chosen := before + [n];
      } else {
        chosen := before;
      }
    }
  }

  /** A strictly increasing list of indices below `n` has at most `n` elements. */
  lemma {:induction false} ChosenBound(chosen: seq<nat>, n: nat)
    requires forall k :: 0 <= k < |chosen| ==> chosen[k] < n
    requires forall k, l :: 0 <= k < l < |chosen| ==> chosen[k] < chosen[l]
    ensures |chosen| <= n
  {
    if |chosen| > 0 {
      ChosenBound(chosen[..|chosen| - 1], chosen[|chosen| - 1]);
    }
  }

  /** A successful walk yields at most one value per step. */
  lemma CollectLength<T, E>(outs: seq<Result<Option<T>, E>>)
    requires Collect(outs).Ok?
    ensures |Collect(outs).value| <= |outs|
  {
    var chosen := CollectOrder(outs);
    ChosenBound(chosen, |outs|);
  }

  /** When every step yields a value, the walk yields all of them, in order. */
  lemma {:induction false} CollectAll<T, E>(outs: seq<Result<Option<T>, E>>)
    requires forall j :: 0 <= j < |outs| ==> outs[j].Ok? && outs[j].value.Some?
    ensures Collect(outs).Ok?
    ensures |Collect(outs).value| == |outs|
    ensures forall k :: 0 <= k < |outs| ==> Collect(outs).value[k] == outs[k].value.value
  {
    if outs != [] {
      var n := |outs| - 1;
      CollectAll(outs[..n]);
    }
  }

  /** When no step yields a value or raises, the walk yields nothing. */
  lemma {:induction false} CollectNone<T, E>(outs: seq<Result<Option<T>, E>>)
    requires forall j :: 0 <= j < |outs| ==> outs[j] == Ok(None)
    ensures Collect(outs) == Ok([])
  {
    if outs != [] {
      CollectNone(outs[..|outs| - 1]);
    }
  }
}
