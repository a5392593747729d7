/**
 * The Go values the user core and the error middleware pass around:
 * optional values, byte slices, time.Time, and error values together with
 * the unwrap chain that errors.Is and errors.As walk.
 */
module Go {

  datatype Option<+T> = None | Some(value: T)

  /** A value-or-error pair, as a Go function returning (T, error). */
  datatype Result<+T> = Ok(value: T) | Fail(err: Err)

  newtype Byte = b: int | 0 <= b < 256

  /** An instant, counted from Go's zero time.Time. */
  datatype Time = Time(wall: int)

  const ZeroTime: Time := Time(0)

  /** One entry of a validation failure: the offending field and what is wrong with it. */
  datatype FieldError = FieldError(field: string, error: string)

  /**
   * A Go error value. Only Wrapped unwraps to another error; every other
   * variant ends the chain.
   *   Plain        an error made by errors.New (a package-level sentinel);
   *                two Plain errors are the same error when ident and text agree
   *   Wrapped      fmt.Errorf("<context>: %w", inner)
   *   FieldErrors  the validator's list of field failures
   *   RequestError an error a handler returns with the HTTP status to answer
   *   Shutdown     the web framework's request to shut the service down
   */
  datatype Err =
    | Plain(ident: string, text: string)
    | Wrapped(context: string, inner: Err)
    | FieldErrors(fields: seq<FieldError>)
    | RequestError(message: string, status: int)
    | Shutdown(message: string)

  /** The errors errors.Is and errors.As visit, in order: e, then what it unwraps to, and so on. */
  function Chain(e: Err): (c: seq<Err>)
    ensures |c| >= 1 && c[0] == e
    ensures forall k :: 0 <= k < |c| - 1 ==> c[k].Wrapped? && c[k].inner == c[k + 1]
    ensures !c[|c| - 1].Wrapped?
  {
    match e
    case Wrapped(_, inner) => [e] + Chain(inner)
    case _ => [e]
  }

  /** errors.As with a FieldErrors target: the first field-error list on the chain. */
  function AsFieldErrors(e: Err): Option<seq<FieldError>>
  {
    match e
    case FieldErrors(fs) => Some(fs)
    case Wrapped(_, inner) => AsFieldErrors(inner)
    case _ => None
  }

  /** errors.As with a request-error target: the first request error on the chain. */
  function AsRequestError(e: Err): Option<Err>
  {
    match e
    case RequestError(_, _) => Some(e)
    case Wrapped(_, inner) => AsRequestError(inner)
    case _ => None
  }

  /** errors.As with a shutdown-error target succeeds. */
  predicate IsShutdown(e: Err)
  {
    match e
    case Shutdown(_) => true
    case Wrapped(_, inner) => IsShutdown(inner)
    case _ => false
  }

  /** errors.Is: target is e or something e unwraps to. */
  predicate Is(e: Err, target: Err)
  {
    e == target || (e.Wrapped? && Is(e.inner, target))
  }

  /** Each search above finds exactly what lies on the chain. */
  lemma {:induction false} ChainSearch(e: Err)
    ensures forall fs :: AsFieldErrors(e) == Some(fs) <==> FieldErrors(fs) in Chain(e)
    ensures forall r :: AsRequestError(e) == Some(r) <==> r.RequestError? && r in Chain(e)
    ensures IsShutdown(e) <==> exists x :: x in Chain(e) && x.Shutdown?
    ensures forall t :: Is(e, t) <==> t in Chain(e)
  {
    match e
    case Wrapped(_, inner) =>
      ChainSearch(inner);
      assert Chain(e) == [e] + Chain(inner);
    case _ =>
  }

  /** fmt.Errorf("<c>: %w", ...) applied once per context, the first context outermost. */
  function WrapAll(contexts: seq<string>, e: Err): Err
    decreases |contexts|
  {
    if contexts == [] then e else Wrapped(contexts[0], WrapAll(contexts[1..], e))
  }

  /**
   * Wrapping with %w never hides what errors.As and errors.Is find, and adds
   * no errors.Is match except the new wrappers themselves.
   */
  lemma {:induction false} WrappingKeepsKind(contexts: seq<string>, e: Err)
    ensures AsFieldErrors(WrapAll(contexts, e)) == AsFieldErrors(e)
    ensures AsRequestError(WrapAll(contexts, e)) == AsRequestError(e)
    ensures IsShutdown(WrapAll(contexts, e)) == IsShutdown(e)
    ensures forall t :: Is(e, t) ==> Is(WrapAll(contexts, e), t)
    ensures forall t: Err :: !t.Wrapped? ==> (Is(WrapAll(contexts, e), t) <==> Is(e, t))
    decreases |contexts|
  {
    if contexts != [] {
      WrappingKeepsKind(contexts[1..], e);
    }
  }
}
