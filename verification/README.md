# just: panic/recover error handling, modelled in Dafny

`just` is a Go library that lets code raise an error with `panic` and turn it
back into an ordinary `error` at a deferred catch boundary. This project
models its core file, `just.go`. A panic is modelled as a value, not as stack
unwinding.

- `Errors` (errors.dfy): the error values. `Basic` is any error that is not
  one of the library's own types `_Err` and `*_PreErr`. `Prefixed` is `*_PreErr`. `Catchable` is `_Err`. The module
  also holds their `Error()` text (`Render`), the `Err()` view (`Unwrap`),
  the `WithPrefix` mapper, and the causal chain built by stacking prefixes.
  A Go `error` is `Option<Err>`, where `None` stands for nil.
- `Format` (format.dfy): the text of `fmt.Errorf(s)` with no arguments.
  `asErr` builds an error this way from a string.
- `Values` (values.dfy): Go `interface{}` values. A panic carries one,
  `recover()` returns one, and `Throw` takes one. The module also models
  `asErr`, the three-way conversion into a catchable error.
- `Just` (just.dfy): the operations. `doCatch`, `CatchF` and `Catch` are the
  catch side. `TryF`, `Try`, `TryTo`, `Throw` and `Throwf` are the raise side.
  `Error` and `id` are also here. Every operation that may panic returns an
  `Outcome`: either `Returned(value)` or `Panicked(payload)`. What
  `recover()` would return is an explicit argument. A `*error` is a `Slot`:
  either `NoPtr` or `Ptr(current value)`. `Then` models statement sequencing
  under panics. `Guarded` models the intended usage
  `func() (err error) { defer CatchF(f)(&err); ... }`. `Nested` puts
  boundaries inside one another.
- `Protocol` (protocol.dfy): the two sides combined.
  - The error that was raised is the error that is caught.
  - A success passes through unchanged.
  - A failure never gets past the nearest boundary.
  - A foreign panic passes through every boundary as the identical value.

Two quirks of `just.go` are modelled as written:

- `asErr(nil)` takes the `default` arm. A mapper that returns nil therefore
  still raises, with an error that reads `<nil>`.
- `_Err` is itself an `error`. `asErr` applied to an `_Err` therefore wraps
  it a second time.

The repository's tests and examples call a newer API. That API has
`Catchable` with messages, a trace hook, value tuples and `Assert`. The
model follows `just.go`, which defines none of these.

## Model

| member | source | states |
|---|---|---|
| Errors.WithPrefix | just.go:80-87 | The mapper returns nil exactly when given nil. Otherwise the result reads as the prefix followed by the error's text, and its `Err()` is the given error. |
| Errors.PrefixesKeepNil | just.go:82-84 | Nil stays nil through any number of stacked `WithPrefix` mappers. |
| Errors.PrefixChain | just.go:105-107 | After stacking prefixes on an error, the text is every prefix, newest first, followed by the original text. Calling `Err()` once per prefix returns the original error. The root cause is unchanged. |
| Format.PlainTextUnchanged | just.go:71 | A string with no `%` becomes an error whose text is that same string. |
| Values.AsErr | just.go:66-75 | The result is always a catchable `_Err`. An error argument is embedded unchanged. Any other argument becomes a new basic error. A string is read as a format. Anything else, nil included, reads as its `%v` text. |
| Values.AsErrRendersShow | just.go:72-73 | The catchable error reads as `%v` of the argument when the argument is not a string holding `%`. |
| Values.AsErrWrapsCatchableAgain | just.go:5-8 | Converting an `_Err` wraps it again rather than returning it, and the text stays the same. |
| Just.DoCatch | just.go:10-21 | With nothing recovered, the slot is left alone. For a catchable error, the handler gets exactly the embedded error and its result is stored when there is a pointer. Without a pointer, it still completes normally. Any other value panics again as the identical value, and only such a value does. |
| Just.CatchF | just.go:23-27 | A catchable error never escapes the boundary. When there is a pointer, it receives the handler's result. Without a pointer, the boundary still completes normally. Nothing recovered leaves the slot unchanged. A value panics again exactly when it is neither nil nor catchable, and it is the identical value. |
| Just.Catch | just.go:29-32 | The error stored is exactly the error embedded in the catchable value. Without a pointer, a catchable error still completes normally. Nothing recovered leaves the slot unchanged. A foreign value panics again unchanged. |
| Just.TryF | just.go:34-42 | With no error, it returns the value unchanged, whatever the mapper. With an error, it always panics with a catchable error. That error embeds the mapper's result. When the mapper returns nil, it embeds a new basic error reading `<nil>`. |
| Just.Try | just.go:44-47 | With no error, it returns the value. Otherwise it panics with `_Err` wrapping exactly the given error. |
| Just.TryTo | just.go:89-92 | With no error, it returns the value. Otherwise it panics with a catchable error reading `msg: ` followed by the error's text, and whose `Err()` is the original error. |
| Just.Throw | just.go:49-52 | For any argument, it panics with a catchable error and never returns. An error argument is embedded unchanged. Any other argument becomes a new basic error. A string argument reads as `fmt.Errorf` makes of it as a format. Any non-string argument reads as its `%v` text. |
| Just.Throwf | just.go:54-57 | It never returns, and panics with a catchable error holding a new basic error with the formatted text. |
| Just.Guarded | just.go:25-26 | In a function with `defer CatchF(f)(&err)`, a normal return passes through. A catchable panic makes the function return `f` of the embedded error. A nil panic makes it return whatever its named result held. Any other panic leaves the function unchanged. |
| Protocol.CatchIsCatchFId | just.go:29-32 | `Catch(ptr)` behaves exactly as `CatchF(id)(ptr)` for every pointer and every recovered value, so the end-to-end lemmas below, stated with the identity handler, are about `defer Catch(&err)`. |
| Protocol.CatchReturnsRaisedError | just.go:44-47 | A failed `Try` under `defer Catch(&err)` returns the very error that was raised, whatever the rest of the body does. |
| Protocol.SuccessPathTransparent | just.go:36-40 | A successful `TryF` is invisible to the guarded function: the body continues with the value, and the mapper plays no part. |
| Protocol.FailurePathAlwaysCaught | just.go:37-38 | A failed `TryF` never gets past the nearest boundary, whatever its mapper returns. For a non-nil mapped error, the function returns the handler applied to it. |
| Protocol.NilMapperStillRaises | just.go:66-74 | Any mapper that maps the error at hand to nil does not suppress it. The boundary's handler gets a non-nil error reading `<nil>`, and under `Catch` the function returns that error. |
| Protocol.TryToCaught | just_test.go:173-177 | `TryTo(msg)` on error `e` under `Catch` returns an error reading `msg: ` followed by the text of `e`. Its `Err()` is `e`. |
| Protocol.ThrowCaught | just_test.go:99-105 | `Throw(a)` under `Catch` returns a non-nil error whose text is `%v` of `a`. When `a` is an error, the returned error is `a` itself. |
| Protocol.ThrowfCaught | just.go:54-57 | `Throwf` under `Catch` makes the function return a new error carrying the formatted text, whatever its named result held. |
| Protocol.CaughtAcrossInnerFrames | just_test.go:145-155 | With frames between the raise and the boundary, the caught error is still exactly the thrown one. |
| Protocol.ErrorNilIffTryReturns | just.go:59-62 | `Error` of a pair is nil exactly when `Try` on that pair returns normally. `Try` then returns the value unchanged. |
| Protocol.ForeignPassesEveryBoundary | just.go:18-19 | A value that is neither nil nor `_Err` comes out of any number of nested boundaries as the identical value. |
| Protocol.InnermostBoundaryHandles | just.go:13-17 | A catchable error is handled by the innermost boundary only. Every boundary outside it sees a normal return. |
| Protocol.ReturnPassesEveryBoundary | just.go:11-12 | A normal return passes through any number of boundaries unchanged. |

`Just.Id` (just.go:64) and `Just.Error` (just.go:60-62) only return their
argument. Their behaviour is stated by `Just.Catch`, `Just.Try` and
`Protocol.ErrorNilIffTryReturns`. `Errors.Render` and `Errors.Unwrap` are the
`Error()` and `Err()` methods (just.go:105-107). What they promise about a
prefix node is stated by `Errors.WithPrefix` and `Errors.PrefixChain`.
`Values.FromError` is Go's implicit conversion of an `error` into an
`interface{}`, which `TryF` performs when it passes the mapper's result to
`asErr` (just.go:38).

## Left out

- Go's `panic`, `recover` and `defer` are modelled as `Outcome` values and an explicit recovered-value argument, not as stack unwinding.
- Handlers and mappers are pure, total functions. A handler that panics, or one with side effects, is not modelled. So the model cannot observe that `doCatch` runs the handler even without a pointer. It states only that the boundary then completes normally.
- Just.TryF: that the mapper is not called on success is stated as the result not depending on the mapper, because a pure model cannot observe a call.
- Format.FormatNoArgs does not model `*` widths or precisions, or `[n]` argument indexes. Characters are Unicode scalars, not UTF-8 bytes.
- The `%v` rendering of values that are neither errors nor strings (ints, floats, structs) is not computed. Such a value carries its rendering as data.
- Just.Throwf takes the text `fmt.Errorf(format, a...)` would produce, not the format and its arguments.
- A caller's own error type that implements `ErrorWrapper` is a `Basic` error in the model, so `Errors.Unwrap` and `Errors.RootCause` stop at it. Only the library's `*_PreErr` is followed.
- Errors are compared by structure. Two distinct `errors.New` values with the same text are equal in the model. Typed nil pointers stored in a non-nil `error` are not modelled.
- Protocol.ThrowCaught requires a string argument to hold no `%`. For other strings, `Values.AsErr` states the text through `Format.FormatNoArgs`.
- `panic(nil)` is treated as the type switch sees a nil `recover()`, which is the behaviour before Go 1.21. Since Go 1.21 that panic arrives as a `*runtime.PanicNilError`, which this model would count as a foreign value.
- The API used by the tests and examples but not defined in `just.go` is not modelled: messages on `Catchable`, the trace hook, value tuples, `Nth`, `ExtractError` and `Assert`. The worked examples are I/O and logging glue and are not modelled either.
