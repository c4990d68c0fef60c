/**
 The raise and catch sides put together: what a function guarded by a
 deferred catch returns when its body raises, and how nested boundaries
 behave.
 */
module Protocol {
  import opened Options
  import opened Errors
  import opened Format
  import opened Values
  import opened Just

  /** `Catch` is `CatchF(id)`, so `Guarded(Id, ...)` below is a function
      guarded by `defer Catch(&err)`. */
  lemma CatchIsCatchFId(ptr: Slot, recovered: Value)
    ensures Catch(ptr, recovered) == CatchF(Id, ptr, recovered)
  {
  }

  /** Whatever the rest of the body `k` would have done, a failed `Try`
      under `defer Catch(&err)` makes the function return the very error
      that was raised. */
  lemma CatchReturnsRaisedError<T>(pending: Option<Err>, val: T, e: Err, k: T -> Outcome<Option<Err>>)
    ensures Guarded(Id, pending, Then(Try(val, Some(e)), k)) == Returned(Some(e))
  {
  }

  /** A successful `TryF` is invisible: the guarded body goes on with the
      value, and the mapper plays no part. */
  lemma SuccessPathTransparent<T>(pending: Option<Err>, h: Handler, f: Handler, val: T, k: T -> Outcome<Option<Err>>)
    ensures Guarded(h, pending, Then(TryF(f, val, None), k)) == Guarded(h, pending, k(val))
  {
  }

  /** A failed `TryF` never gets past the nearest boundary, whatever its
      mapper returns: the function returns what the boundary's handler makes
      of the mapped error. */
  lemma FailurePathAlwaysCaught<T>(pending: Option<Err>, h: Handler, f: Handler, val: T, e: Err, k: T -> Outcome<Option<Err>>)
    ensures Guarded(h, pending, Then(TryF(f, val, Some(e)), k)).Returned?
    ensures f(Some(e)).Some? ==> Guarded(h, pending, Then(TryF(f, val, Some(e)), k)) == Returned(h(f(Some(e))))
  {
  }

  /** A mapper that maps the error at hand to nil does not suppress it:
      `asErr` turns the nil into an error reading `<nil>`, and the boundary's
      handler gets that non-nil error; under `Catch` it is what the function
      returns. */
  lemma NilMapperStillRaises<T>(pending: Option<Err>, h: Handler, f: Handler, val: T, e: Err, k: T -> Outcome<Option<Err>>)
    requires f(Some(e)) == None
    ensures Guarded(h, pending, Then(TryF(f, val, Some(e)), k)) == Returned(h(Some(Basic("<nil>"))))
    ensures Guarded(Id, pending, Then(TryF(f, val, Some(e)), k)) == Returned(Some(Basic("<nil>")))
  {
  }

  /** `TryTo(msg)` on error `e` under `defer Catch(&err)`: the function
      returns an error reading `msg: ` and then the text of `e`, whose
      `Err()` is `e`. */
  lemma TryToCaught<T>(pending: Option<Err>, msg: string, val: T, e: Err, k: T -> Outcome<Option<Err>>)
    ensures Guarded(Id, pending, Then(TryTo(msg, val, Some(e)), k)).Returned?
    ensures Guarded(Id, pending, Then(TryTo(msg, val, Some(e)), k)).value.Some?
    ensures Render(Guarded(Id, pending, Then(TryTo(msg, val, Some(e)), k)).value.value) == msg + ": " + Render(e)
    ensures Unwrap(Guarded(Id, pending, Then(TryTo(msg, val, Some(e)), k)).value.value) == Some(e)
  {
  }

  /** `Throw(a)` under `defer Catch(&err)`: the function returns an error
      whose text is `%v` of `a` (for a string free of `%` directives), and
      which is `a` itself when `a` is an error. */
  lemma ThrowCaught(pending: Option<Err>, a: Value, k: (()) -> Outcome<Option<Err>>)
    requires a.StringValue? ==> '%' !in a.s
    ensures Guarded(Id, pending, Then(Throw(a), k)).Returned?
    ensures Guarded(Id, pending, Then(Throw(a), k)).value.Some?
    ensures Render(Guarded(Id, pending, Then(Throw(a), k)).value.value) == Show(a)
    ensures a.ErrorValue? ==> Guarded(Id, pending, Then(Throw(a), k)) == Returned(Some(a.err))
  {
    AsErrRendersShow(a);
  }

  /** `Throwf(format, a...)` under `defer Catch(&err)`: the function returns
      a new error carrying the formatted text. */
  lemma ThrowfCaught(pending: Option<Err>, text: string, k: (()) -> Outcome<Option<Err>>)
    ensures Guarded(Id, pending, Then(Throwf(text), k)) == Returned(Some(Basic(text)))
    ensures Render(Guarded(Id, pending, Then(Throwf(text), k)).value.value) == text
  {
  }

  /** Frames without a boundary between the raise and the boundary change
      nothing: the error caught is the one thrown. */
  lemma CaughtAcrossInnerFrames<B>(pending: Option<Err>, e: Err, k1: (()) -> Outcome<B>, k2: B -> Outcome<Option<Err>>)
    ensures Guarded(Id, pending, Then(Then(Throw(ErrorValue(e)), k1), k2)) == Returned(Some(e))
  {
  }

  /** `Error` gives nil exactly when `Try` on the same pair returns, and
      then `Try` returns the value unchanged. */
  lemma ErrorNilIffTryReturns<T>(val: T, err: Option<Err>)
    ensures Error(val, err) == None <==> Try(val, err).Returned?
    ensures Try(val, err).Returned? ==> Try(val, err).value == val
  {
  }

  /** A payload that is neither nil nor catchable comes out of any number of
      nested boundaries as the identical value. */
  lemma {:induction false} ForeignPassesEveryBoundary(fs: seq<Handler>, pending: Option<Err>, r: Value)
    requires r != NilValue && !IsCatchable(r)
    ensures Nested(fs, pending, Panicked(r)) == Panicked(r)
  {
    if |fs| > 0 {
      ForeignPassesEveryBoundary(fs[1..], pending, r);
    }
  }

  /** A catchable error is handled by the innermost boundary alone; every
      boundary outside it sees a normal return and passes it on. */
  lemma {:induction false} InnermostBoundaryHandles(fs: seq<Handler>, pending: Option<Err>, r: Value)
    requires |fs| > 0 && IsCatchable(r)
    ensures Nested(fs, pending, Panicked(r)) == Returned(fs[|fs| - 1](Some(r.err.inner)))
  {
    if |fs| > 1 {
      InnermostBoundaryHandles(fs[1..], pending, r);
      assert fs[1..][|fs[1..]| - 1] == fs[|fs| - 1];
    }
  }

  /** A body that returns normally returns the same through any number of
      boundaries. */
  lemma {:induction false} ReturnPassesEveryBoundary(fs: seq<Handler>, pending: Option<Err>, err: Option<Err>)
    ensures Nested(fs, pending, Returned(err)) == Returned(err)
  {
    if |fs| > 0 {
      ReturnPassesEveryBoundary(fs[1..], pending, err);
    }
  }
}
