/**
 The error values the library builds or passes along, and the prefix wrapper
 with its causal chain (just.go, the `_Err` and `_PreErr` types and `WithPrefix`).

 A Go `error` is an interface that may be nil; here it is `Option<Err>`, with
 `None` for nil and `Err` for the non-nil values.
 */
module Errors {
  import opened Options

  datatype Err =
    /** Any error that is not one of the library's own types `_Err` and
        `*_PreErr` (`errors.New`, `fmt.Errorf`, an error of the caller's own
        type), known only by its `Error()` text. */
    | Basic(text: string)
    /** `*_PreErr{pre, err}`: prepends `pre` to the text of `inner`. */
    | Prefixed(pre: string, inner: Err)
    /** `_Err{error}`: the catchable error the library panics with. Its
        embedded error is never nil, because only `asErr` builds one. */
    | Catchable(inner: Err)

  /** The `Error()` method. `_Err` has none of its own: the one of the
      embedded error is promoted. */
  function Render(e: Err): string
  {
    match e
    case Basic(t) => t
    case Prefixed(p, x) => p + Render(x)
    case Catchable(x) => Render(x)
  }

  /** The `ErrorWrapper` view: `e.(ErrorWrapper).Err()` when `e` implements
      it. Of the library's own types only `*_PreErr` does; a caller's error
      type that implements it is a `Basic` error here, so the chain stops
      there. */
  function Unwrap(e: Err): Option<Err>
  {
    match e
    case Prefixed(_, x) => Some(x)
    case _ => None
  }

  /** The mapper `WithPrefix(pre)` applied to `err`. */
  function WithPrefix(pre: string, err: Option<Err>): (r: Option<Err>)
    ensures err == None <==> r == None
    ensures err.Some? ==> Render(r.value) == pre + Render(err.value)
    ensures err.Some? ==> Unwrap(r.value) == err
  {
    match err
    case None => None
    case Some(e) => Some(Prefixed(pre, e))
  }

  /** `WithPrefix(pres[0])` applied first, `WithPrefix(pres[|pres| - 1])` last. */
  function WithPrefixes(pres: seq<string>, err: Option<Err>): Option<Err>
  {
    if |pres| == 0 then err
    else WithPrefix(pres[|pres| - 1], WithPrefixes(pres[..|pres| - 1], err))
  }

  /** The prefixes in the order they are read: last applied first. */
  function ReadingOrder(pres: seq<string>): string
  {
    if |pres| == 0 then ""
    else pres[|pres| - 1] + ReadingOrder(pres[..|pres| - 1])
  }

  /** Calls `Err()` up to `n` times along the causal chain; nil once a node
      has no `Err()`. */
  function UnwrapTimes(err: Option<Err>, n: nat): Option<Err>
    decreases n
  {
    if n == 0 then err
    else match err
      case None => None
      case Some(e) => UnwrapTimes(Unwrap(e), n - 1)
  }

  /** Walks `Err()` until a node that does not implement `ErrorWrapper`. */
  function RootCause(e: Err): (r: Err)
    ensures !r.Prefixed?
  {
    match e
    case Prefixed(_, x) => RootCause(x)
    case _ => e
  }

  /** Mapping nil through any number of prefixes stays nil. */
  lemma {:induction false} PrefixesKeepNil(pres: seq<string>)
    ensures WithPrefixes(pres, None) == None
  {
    if |pres| > 0 {
      PrefixesKeepNil(pres[..|pres| - 1]);
    }
  }

  /** Stacking prefixes on an error: the text is every prefix, newest first,
      followed by the original text; `Err()` taken once per prefix gives back
      the original error; and the root cause is unchanged. */
  lemma {:induction false} PrefixChain(pres: seq<string>, e: Err)
    ensures WithPrefixes(pres, Some(e)).Some?
    ensures Render(WithPrefixes(pres, Some(e)).value) == ReadingOrder(pres) + Render(e)
    ensures UnwrapTimes(WithPrefixes(pres, Some(e)), |pres|) == Some(e)
    ensures RootCause(WithPrefixes(pres, Some(e)).value) == RootCause(e)
  {
    if |pres| > 0 {
      var init := pres[..|pres| - 1];
      var last := pres[|pres| - 1];
      PrefixChain(init, e);
      var w := WithPrefixes(init, Some(e));
      assert WithPrefixes(pres, Some(e)) == Some(Prefixed(last, w.value));
      calc {
        Render(WithPrefixes(pres, Some(e)).value);
        last + Render(w.value);
        last + (ReadingOrder(init) + Render(e));
        (last + ReadingOrder(init)) + Render(e);
        ReadingOrder(pres) + Render(e);
      }
      assert UnwrapTimes(Some(Prefixed(last, w.value)), |pres|) == UnwrapTimes(w, |init|);
    }
  }
}
