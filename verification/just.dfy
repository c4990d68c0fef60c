/**
 The raise and catch sides of the protocol (just.go). A panic is not an
 unwinding of the stack here but a value: every operation that may panic
 returns an `Outcome`, either `Returned(value)` or `Panicked(payload)`.
 What `recover()` would hand back is an explicit `Value` argument, and a
 `*error` argument is a `Slot`.
 */
module Just {
  import opened Options
  import opened Errors
  import opened Format
  import opened Values

  datatype Outcome<+T> = Returned(value: T) | Panicked(payload: Value)

  /** A `*error` argument: a nil pointer, or a pointer to a variable that
      currently holds `target`. */
  datatype Slot = NoPtr | Ptr(target: Option<Err>)

  /** `func(error) error`, an error mapper. */
  type Handler = Option<Err> -> Option<Err>

  /** `id`, the mapper that changes nothing. */
  function Id(err: Option<Err>): Option<Err>
  {
    err
  }

  /** Go's statement sequencing under panics: `k` runs on the value of `o`
      only when `o` returned; a panic skips it and keeps going up. */
  function Then<A, B>(o: Outcome<A>, k: A -> Outcome<B>): Outcome<B>
  {
    match o
    case Returned(v) => k(v)
    case Panicked(p) => Panicked(p)
  }

  /** `doCatch`: the decision taken at a catch boundary with the recovered
      value `r`. Nothing recovered: nothing happens. A catchable error: the
      handler gets its embedded error and the result goes through the
      pointer, if there is one. Anything else: panic again with the very
      same value. */
  function DoCatch(ptr: Slot, f: Handler, r: Value): (o: Outcome<Slot>)
    ensures r == NilValue ==> o == Returned(ptr)
    ensures IsCatchable(r) && ptr.Ptr? ==> o == Returned(Ptr(f(Some(r.err.inner))))
    ensures IsCatchable(r) && ptr == NoPtr ==> o == Returned(NoPtr)
    ensures o.Panicked? <==> r != NilValue && !IsCatchable(r)
    ensures o.Panicked? ==> o.payload == r
    ensures o.Returned? ==> (o.value.Ptr? <==> ptr.Ptr?)
  {
    match r
    case NilValue => Returned(ptr)
    case ErrorValue(Catchable(inner)) =>
      var err := f(Some(inner));
      Returned(if ptr.Ptr? then Ptr(err) else NoPtr)
    case _ => Panicked(r)
  }

  /** `CatchF(f)(ptr)`, deferred, with `recovered` the value `recover()`
      returns there. */
  function CatchF(f: Handler, ptr: Slot, recovered: Value): (o: Outcome<Slot>)
    ensures IsCatchable(recovered) ==> o.Returned?
    ensures IsCatchable(recovered) && ptr.Ptr? ==> o == Returned(Ptr(f(Some(recovered.err.inner))))
    ensures IsCatchable(recovered) && ptr == NoPtr ==> o == Returned(NoPtr)
    ensures o.Panicked? <==> recovered != NilValue && !IsCatchable(recovered)
    ensures recovered == NilValue ==> o == Returned(ptr)
    ensures o.Panicked? ==> o.payload == recovered
    ensures o.Returned? ==> (o.value.Ptr? <==> ptr.Ptr?)
  {
    DoCatch(ptr, f, recovered)
  }

  /** `Catch(ptr)`, deferred: the error stored is exactly the error that
      was raised. */
  function Catch(ptr: Slot, recovered: Value): (o: Outcome<Slot>)
    ensures IsCatchable(recovered) && ptr.Ptr? ==> o == Returned(Ptr(Some(recovered.err.inner)))
    ensures IsCatchable(recovered) && ptr == NoPtr ==> o == Returned(NoPtr)
    ensures recovered == NilValue ==> o == Returned(ptr)
    ensures recovered != NilValue && !IsCatchable(recovered) ==> o == Panicked(recovered)
  {
    DoCatch(ptr, Id, recovered)
  }

  /** `TryF(f)(val, err)`: the value when there is no error, otherwise a
      panic with `asErr(f(err))`, which is catchable even when `f` maps the
      error to nil. */
  function TryF<T>(f: Handler, val: T, err: Option<Err>): (o: Outcome<T>)
    ensures err == None ==> o == Returned(val)
    ensures err.Some? ==> o.Panicked? && IsCatchable(o.payload)
    ensures err.Some? && f(err).Some? ==> o.payload.err.inner == f(err).value
    ensures err.Some? && f(err) == None ==> o.payload.err.inner == Basic("<nil>")
    ensures err.Some? && f(err) == None ==> Render(o.payload.err) == "<nil>"
  {
    if err.Some? then Panicked(ErrorValue(AsErr(FromError(f(err))))) else Returned(val)
  }

  /** `Try(val, err)`: `TryF(id)`. */
  function Try<T>(val: T, err: Option<Err>): (o: Outcome<T>)
    ensures err == None ==> o == Returned(val)
    ensures err.Some? ==> o == Panicked(ErrorValue(Catchable(err.value)))
  {
    TryF(Id, val, err)
  }

  /** `TryTo(msg)(val, err)`: `TryF(WithPrefix(msg + ": "))`. */
  function TryTo<T>(msg: string, val: T, err: Option<Err>): (o: Outcome<T>)
    ensures err == None ==> o == Returned(val)
    ensures err.Some? ==> o.Panicked? && IsCatchable(o.payload)
    ensures err.Some? ==> Render(o.payload.err) == msg + ": " + Render(err.value)
    ensures err.Some? ==> Unwrap(o.payload.err.inner) == err
  {
    TryF(e => WithPrefix(msg + ": ", e), val, err)
  }

  /** `Throw(a)`: never returns; always panics with a catchable error. */
  function Throw(a: Value): (o: Outcome<()>)
    ensures o.Panicked? && IsCatchable(o.payload)
    ensures a.ErrorValue? ==> o.payload.err.inner == a.err
    ensures !a.ErrorValue? ==> o.payload.err.inner.Basic?
    ensures a.StringValue? ==> Render(o.payload.err) == FormatNoArgs(a.s)
    ensures !a.StringValue? ==> Render(o.payload.err) == Show(a)
  {
    Panicked(ErrorValue(AsErr(a)))
  }

  /** `Throwf(format, a...)`, where `text` is what `fmt.Errorf(format, a...)`
      renders: never returns; panics with a catchable error of that text. */
  function Throwf(text: string): (o: Outcome<()>)
    ensures o.Panicked? && IsCatchable(o.payload)
    ensures o.payload.err.inner.Basic?
    ensures Render(o.payload.err) == text
  {
    Panicked(ErrorValue(AsErr(FromError(Some(Basic(text))))))
  }

  /** `Error(_, err)`: keeps the error of a `(value, error)` pair. */
  function Error<T>(val: T, err: Option<Err>): Option<Err>
  {
    err
  }

  /** A function `func() (err error) { defer CatchF(f)(&err); body }`.
      When `body` panics, `pending` is the value its named result `err`
      holds at that moment. A catchable error overwrites it and a foreign
      value panics again, but a nil payload leaves it as the return value. */
  function Guarded(f: Handler, pending: Option<Err>, body: Outcome<Option<Err>>): (o: Outcome<Option<Err>>)
    ensures body.Returned? ==> o == body
    ensures body == Panicked(NilValue) ==> o == Returned(pending)
    ensures body.Panicked? && IsCatchable(body.payload) ==> o == Returned(f(Some(body.payload.err.inner)))
    ensures body.Panicked? && body.payload != NilValue && !IsCatchable(body.payload) ==> o == body
  {
    var (current, recovered) :=
      match body
      case Returned(err) => (err, NilValue)
      case Panicked(p) => (pending, p);
    match CatchF(f, Ptr(current), recovered)
    case Returned(s) => Returned(s.target)
    case Panicked(q) => Panicked(q)
  }

  /** Boundaries nested in one another around `body`: `fs[0]` outermost,
      `fs[|fs| - 1]` innermost. A panic reaching any of them finds that
      function's named result holding `pending`. */
  function Nested(fs: seq<Handler>, pending: Option<Err>, body: Outcome<Option<Err>>): Outcome<Option<Err>>
  {
    if |fs| == 0 then body else Guarded(fs[0], pending, Nested(fs[1..], pending, body))
  }
}
