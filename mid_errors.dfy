/**
 * The Error middleware: it runs the inner handler, logs any error it returns
 * with the request's trace id, answers the client with exactly one
 * status/body pair chosen from the kind of the error, and hands a shutdown
 * error back to the caller once the answer is written.
 */
module Mid {
  import opened Go

  /** The per-request values the framework stores in the context. */
  datatype Values = Values(traceId: string)

  /** The JSON error body: the message and, for validation failures, the field list. */
  datatype ErrorResponse = ErrorResponse(error: string, fields: seq<FieldError>)

  /** One answer written to the client. */
  datatype Reply = Reply(status: int, body: ErrorResponse)

  const StatusBadRequest: int := 400
  const StatusInternalServerError: int := 500
  /** The standard text of status 500. */
  const InternalServerErrorText: string := "Internal Server Error"
  const ValidationErrorText: string := "data validation error"
  const MissingValuesText: string := "web value missing from context"

  /**
   * The answer for an error the handler returned. A field-error list on the
   * chain wins over a request error, which wins over everything else; nothing
   * but the fixed status text is shown for any other error.
   */
  function Classify(e: Err): (r: Reply)
    ensures forall fs :: FieldErrors(fs) in Chain(e) ==>
      r == Reply(StatusBadRequest, ErrorResponse(ValidationErrorText, fs))
    ensures forall msg, status ::
      (forall fs :: FieldErrors(fs) !in Chain(e)) && RequestError(msg, status) in Chain(e) ==>
      r == Reply(status, ErrorResponse(msg, []))
    ensures (forall fs :: FieldErrors(fs) !in Chain(e)) && (forall msg, status :: RequestError(msg, status) !in Chain(e)) ==>
      r == Reply(StatusInternalServerError, ErrorResponse(InternalServerErrorText, []))
  {
    ChainSearch(e);
    match AsFieldErrors(e)
    case Some(fs) => Reply(StatusBadRequest, ErrorResponse(ValidationErrorText, fs))
    case None =>
      match AsRequestError(e)
      case Some(re) => Reply(re.status, ErrorResponse(re.message, []))
      case None => Reply(StatusInternalServerError, ErrorResponse(InternalServerErrorText, []))
  }

  /** Two errors that are neither validation nor request errors get the same answer. */
  lemma NothingLeaks(e1: Err, e2: Err)
    requires AsFieldErrors(e1).None? && AsRequestError(e1).None?
    requires AsFieldErrors(e2).None? && AsRequestError(e2).None?
    ensures Classify(e1) == Classify(e2)
    ensures Classify(e1).status == StatusInternalServerError && Classify(e1).body.fields == []
  {
  }

  /** One log line: the trace id and the error as the handler returned it. */
  datatype LogEntry = LogEntry(traceId: string, err: Err)

  /** What one pass through the middleware did. */
  datatype Trace = Trace(handlerRan: bool, logged: seq<LogEntry>, replies: seq<Reply>, result: Option<Err>)

  /**
   * One pass through the middleware, given the request's context values (None
   * when they are missing), what the inner handler returns and what writing
   * the answer returns.
   */
  function Outcome(ctx: Option<Values>, handlerErr: Option<Err>, writeErr: Option<Err>): (t: Trace)
    ensures t.handlerRan <==> ctx.Some?
    ensures t.replies != [] <==> ctx.Some? && handlerErr.Some?
    ensures |t.replies| <= 1 && |t.logged| == |t.replies|
    ensures forall k :: 0 <= k < |t.logged| ==> t.logged[k].err == handlerErr.value
  {
    if ctx.None? then
      Trace(false, [], [], Some(Shutdown(MissingValuesText)))
    else if handlerErr.None? then
      Trace(true, [], [], None)
    else
      var e := handlerErr.value;
      var logged := [LogEntry(ctx.value.traceId, e)];
      var replies := [Classify(e)];
      if writeErr.Some? then Trace(true, logged, replies, writeErr)
      else if IsShutdown(e) then Trace(true, logged, replies, Some(e))
      else Trace(true, logged, replies, None)
  }

  /** Missing context values: shutdown is requested and the handler is never called. */
  lemma MissingValuesShutsDown(handlerErr: Option<Err>, writeErr: Option<Err>)
    ensures var t := Outcome(None, handlerErr, writeErr);
      && !t.handlerRan && t.logged == [] && t.replies == []
      && t.result.Some? && IsShutdown(t.result.value)
  {
  }

  /** A handler that succeeds passes through untouched: nothing logged, nothing written, nil returned. */
  lemma SuccessIsSilent(v: Values, writeErr: Option<Err>)
    ensures Outcome(Some(v), None, writeErr) == Trace(true, [], [], None)
  {
  }

  /** A handler error is logged once with the trace id and answered exactly once, as Classify says. */
  lemma ErrorAnsweredOnce(v: Values, e: Err, writeErr: Option<Err>)
    ensures var t := Outcome(Some(v), Some(e), writeErr);
      && t.handlerRan
      && t.logged == [LogEntry(v.traceId, e)]
      && t.replies == [Classify(e)]
  {
  }

  /** A failed write is returned in place of the handler's error. */
  lemma WriteFailureWins(v: Values, e: Err, w: Err)
    ensures Outcome(Some(v), Some(e), Some(w)).result == Some(w)
  {
  }

  /** After a successful write the handler's error comes back exactly when it is a shutdown error. */
  lemma ShutdownPropagates(v: Values, e: Err)
    ensures var t := Outcome(Some(v), Some(e), None);
      && (t.result == Some(e) <==> IsShutdown(e))
      && (t.result.None? <==> !IsShutdown(e))
  {
  }

  /** The middleware returns nothing but nil, the write failure or a shutdown error. */
  lemma OnlyShutdownEscapes(ctx: Option<Values>, handlerErr: Option<Err>, writeErr: Option<Err>)
    ensures var t := Outcome(ctx, handlerErr, writeErr);
      t.result.Some? ==> t.result == writeErr || IsShutdown(t.result.value)
  {
  }

  /** The inner handler, as an oracle: it counts its calls and returns a preset error. */
  class Handler {
    var calls: nat
    const result: Option<Err>

    constructor (result: Option<Err>)
      ensures calls == 0 && this.result == result
    {
      calls := 0;
      this.result := result;
    }

    method Serve(v: Values) returns (err: Option<Err>)
      modifies this
      ensures calls == old(calls) + 1 && err == result
    {
      calls := calls + 1;
      err := result;
    }
  }

  /** The structured logger: every call adds one entry. */
  class Logger {
    var entries: seq<LogEntry>

    constructor ()
      ensures entries == []
    {
      entries := [];
    }

    method Errorw(traceId: string, err: Err)
      modifies this
      ensures entries == old(entries) + [LogEntry(traceId, err)]
    {
      entries := entries + [LogEntry(traceId, err)];
    }
  }

  /** The response writer: it records every answer and reports a preset write failure. */
  class ResponseWriter {
    var replies: seq<Reply>
    const failure: Option<Err>

    constructor (failure: Option<Err>)
      ensures replies == [] && this.failure == failure
    {
      replies := [];
      this.failure := failure;
    }

    method Respond(reply: Reply) returns (err: Option<Err>)
      modifies this
      ensures replies == old(replies) + [reply] && err == failure
    {
      replies := replies + [reply];
      err := failure;
    }
  }

  /** The middleware wrapped around handler, for a request whose context holds ctx. */
  method Error(ctx: Option<Values>, handler: Handler, log: Logger, w: ResponseWriter) returns (ret: Option<Err>)
    modifies handler, log, w
    ensures var t := Outcome(ctx, handler.result, w.failure);
      && ret == t.result
      && handler.calls == old(handler.calls) + (if t.handlerRan then 1 else 0)
      && log.entries == old(log.entries) + t.logged
      && w.replies == old(w.replies) + t.replies
  {
    if ctx.None? {
      return Some(Shutdown(MissingValuesText));
    }
    var v := ctx.value;
    var err := handler.Serve(v);
    if err.Some? {
      log.Errorw(v.traceId, err.value);
      var reply := Classify(err.value);
      var writeErr := w.Respond(reply);
      if writeErr.Some? {
        return writeErr;
      }
      if IsShutdown(err.value) {
        return err;
      }
    }
    return None;
  }
}
