/** Failure-carrying result types shared by every stage of the aggregation pipeline.
    The Python script reports failures either by raising (KeyError, IndexError,
    ValueError) or by printing a message and calling exit(-1); both become an `Err`. */
module Common {

  /** Why a stage failed. */
  datatype Error =
    | KeyMissing(key: string)          // a dict lookup raised KeyError
    | IndexOutOfRange                  // a list index raised IndexError
    | BadInteger(text: string)         // int(text) raised ValueError
    | BadFloat(text: string)           // float(text) raised ValueError
    | NotADirectory(path: string)      // os.listdir on something that is not a directory
    | MissingDataDirectory             // some --data root does not exist
    | BadResolution                    // --resolution < 1
    | MissingRunFile(path: string)     // a per-run input file does not exist
    | CannotOpen(path: string)         // open() on a path that is a directory
    | HeaderMismatch(run: string)      // two runs produced different output headers

  datatype Option<+T> = None | Some(value: T)

  datatype Result<+T> = Ok(value: T) | Err(error: Error) {
    predicate IsFailure() {
      Err?
    }

    function PropagateFailure<U>(): Result<U>
      requires Err?
    {
      Err(error)
    }

    function Extract(): T
      requires Ok?
    {
      value
    }
  }

  /** `[f(x) for x in xs]` where `f` may raise: the first failure, or every result in order. */
  function MapResult<A, B>(xs: seq<A>, f: A -> Result<B>): Result<seq<B>> {
    if xs == [] then Ok([])
    else
      var earlier :- MapResult(xs[..|xs| - 1], f);
      var y :- f(xs[|xs| - 1]);
      Ok(earlier + [y])
  }

  /** The mapping succeeds exactly when `f` succeeds on every element, and then holds
      `f`'s result for each element at the element's position. */
  lemma {:induction false} MapResultSpec<A, B>(xs: seq<A>, f: A -> Result<B>)
    ensures MapResult(xs, f).Ok? <==> forall i :: 0 <= i < |xs| ==> f(xs[i]).Ok?
    ensures MapResult(xs, f).Ok? ==>
      |MapResult(xs, f).value| == |xs|
      && forall i :: 0 <= i < |xs| ==> MapResult(xs, f).value[i] == f(xs[i]).value
  {
    if xs != [] {
      var p := xs[..|xs| - 1];
      MapResultSpec(p, f);
      if MapResult(xs, f).Ok? {
        var ys := MapResult(xs, f).value;
        var yp := MapResult(p, f).value;
        forall i | 0 <= i < |xs| ensures f(xs[i]).Ok? && ys[i] == f(xs[i]).value {
          if i < |p| {
            assert ys[i] == yp[i] && p[i] == xs[i];
          }
        }
      } else if MapResult(p, f).Err? {
        var i :| 0 <= i < |p| && f(p[i]).Err?;
        assert p[i] == xs[i];
      }
    }
  }

  /** `f` fails on element `i` and succeeds on every element before it. */
  predicate FirstFailureAt<A, B>(xs: seq<A>, f: A -> Result<B>, i: int) {
    0 <= i < |xs| && f(xs[i]).Err? && forall j :: 0 <= j < i ==> f(xs[j]).Ok?
  }

  /** A failed mapping carries the failure of the first element `f` fails on. */
  lemma {:induction false} MapResultFirstFailure<A, B>(xs: seq<A>, f: A -> Result<B>)
    ensures MapResult(xs, f).Err? ==>
      exists i :: FirstFailureAt(xs, f, i) && MapResult(xs, f).error == f(xs[i]).error
  {
    if xs != [] && MapResult(xs, f).Err? {
      var p := xs[..|xs| - 1];
      MapResultFirstFailure(p, f);
      if MapResult(p, f).Err? {
        var i :| FirstFailureAt(p, f, i) && MapResult(p, f).error == f(p[i]).error;
        assert FirstFailureAt(xs, f, i) by {
          forall j | 0 <= j <= i ensures xs[j] == p[j] {
          }
        }
      } else {
        MapResultSpec(p, f);
        assert FirstFailureAt(xs, f, |xs| - 1) by {
          forall j | 0 <= j < |xs| - 1 ensures f(xs[j]).Ok? {
            assert xs[j] == p[j];
          }
        }
      }
    }
  }

  /** Once a prefix fails, the whole mapping fails the same way. */
  lemma {:induction false} MapResultPrefixFails<A, B>(xs: seq<A>, i: nat, f: A -> Result<B>)
    requires i <= |xs| && MapResult(xs[..i], f).Err?
    ensures MapResult(xs, f) == MapResult(xs[..i], f)
    decreases |xs| - i
  {
    if i < |xs| {
      assert xs[..i + 1][..i] == xs[..i];
      MapResultPrefixFails(xs, i + 1, f);
    } else {
      assert xs[..i] == xs;
    }
  }
}
