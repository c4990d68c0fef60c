/**
 Go's `interface{}` values as far as the library looks at them: the payload
 of a panic, the value `recover()` hands back, the argument of `Throw`, and
 the conversion `asErr` that turns any of them into a catchable error
 (just.go:66-75).
 */
module Values {
  import opened Options
  import opened Errors
  import opened Format

  datatype Value =
    /** The nil interface. */
    | NilValue
    /** A non-nil value whose type implements `error`; `_Err`, `*_PreErr`
        and the runtime's own faults (`runtime.Error`) are among them. */
    | ErrorValue(err: Err)
    | StringValue(s: string)
    /** Anything else: an int, a float, a struct. The model
        knows it by its dynamic type and its `%v` rendering. Only the
        rendering reaches an error's text; the type keeps two payloads that
        render alike (the int 42 and the float 42) distinct, so that a
        payload panicked again is the identical value. */
    | OtherValue(typeName: string, shown: string)

  /** An `error` passed where an `interface{}` is expected: a nil error
      becomes the nil interface. */
  function FromError(err: Option<Err>): (v: Value)
    ensures v == NilValue <==> err == None
    ensures err.Some? ==> v == ErrorValue(err.value)
  {
    match err
    case None => NilValue
    case Some(e) => ErrorValue(e)
  }

  /** `fmt.Sprintf("%v", v)`. */
  function Show(v: Value): string
  {
    match v
    case NilValue => "<nil>"
    case ErrorValue(e) => Render(e)
    case StringValue(s) => s
    case OtherValue(_, shown) => shown
  }

  /** The type test `v.(_Err)`. */
  predicate IsCatchable(v: Value)
  {
    v.ErrorValue? && v.err.Catchable?
  }

  /** `asErr`: an error is wrapped as it is; a string becomes a new error
      from `fmt.Errorf` with the string as format; anything else, nil
      included, becomes a new error carrying its `%v` text. */
  function AsErr(a: Value): (r: Err)
    ensures IsCatchable(ErrorValue(r))
    ensures a.ErrorValue? ==> r.inner == a.err
    ensures !a.ErrorValue? ==> r.inner.Basic?
    ensures a.StringValue? ==> Render(r) == FormatNoArgs(a.s)
    ensures !a.StringValue? ==> Render(r) == Show(a)
  {
    match a
    case ErrorValue(e) => Catchable(e)
    case StringValue(s) => Catchable(Basic(FormatNoArgs(s)))
    case _ => Catchable(Basic(Show(a)))
  }

  /** Whatever is converted, the catchable error reads as `%v` of the
      argument, as long as a string argument holds no `%` directive. */
  lemma AsErrRendersShow(a: Value)
    requires a.StringValue? ==> '%' !in a.s
    ensures Render(AsErr(a)) == Show(a)
  {
    if a.StringValue? {
      PlainTextUnchanged(a.s);
    }
  }

  /** `_Err` is itself an `error`, so converting one wraps it a second time;
      the text does not change. */
  lemma AsErrWrapsCatchableAgain(e: Err)
    ensures AsErr(ErrorValue(Catchable(e))) == Catchable(Catchable(e))
    ensures AsErr(ErrorValue(Catchable(e))) != Catchable(e)
    ensures Render(AsErr(ErrorValue(Catchable(e)))) == Render(e)
  {
  }
}
