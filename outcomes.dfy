/** Small failure-carrying datatypes shared by the rest of the model. */
module Outcomes {

  /** A value that may be missing: Python's `None` versus a present value. */
  datatype Option<+T> = None | Some(value: T) {
    /** The value, or `default` when there is none (`d.get(k, default)`). */
    function GetOr(default: T): T {
      match this
      case Some(v) => v
      case None => default
    }
  }

  /** The end of a Python call: it returned a value, or it raised an exception. */
  datatype Outcome<+T> = Returned(value: T) | Raised {
    function GetOr(default: T): T {
      match this
      case Returned(v) => v
      case Raised => default
    }
  }

  /** What a remote service answers to one request. */
  datatype Reply<+T> = Found(value: T) | NotFound | Failed

  /**
   * A loop that applies `f` to each element in order and collects the
   * values: the first element whose call raises makes the whole loop raise.
   */
  function MapAll<A, B>(f: A -> Outcome<B>, xs: seq<A>): (r: Outcome<seq<B>>)
    ensures r.Returned? ==> |r.value| == |xs|
  {
    if xs == [] then Returned([])
    else
      var rest := MapAll(f, xs[..|xs| - 1]);
      var last := f(xs[|xs| - 1]);
      if rest.Raised? || last.Raised? then Raised
      else Returned(rest.value + [last.value])
  }

  /**
   * The loop returns exactly when no call raises, and then its j-th value is
   * the j-th call's value.
   */
  lemma {:induction false} MapAllPointwise<A, B>(f: A -> Outcome<B>, xs: seq<A>)
    ensures MapAll(f, xs).Returned? <==> forall j | 0 <= j < |xs| :: f(xs[j]).Returned?
    ensures MapAll(f, xs).Returned? ==> forall j | 0 <= j < |xs| :: MapAll(f, xs).value[j] == f(xs[j]).value
  {
    if xs != [] {
      var n := |xs| - 1;
      var init := xs[..n];
      MapAllPointwise(f, init);
      assert forall j | 0 <= j < n :: init[j] == xs[j];
    }
  }
}
