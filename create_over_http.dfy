/**
 * How the errors the user core returns from Create reach a client through
 * the Error middleware, assuming the handler in between returns them as
 * they are.
 */
module CreateOverHttp {
  import opened Go
  import UserDb
  import opened UserModels
  import opened UserCore
  import opened Mid

  /** A NewUser that breaks its tags is answered 400, with the validator's field list. */
  lemma ValidationFailureIsBadRequest(nu: NewUser, isEmail: string -> bool)
    requires !ValidNewUser(nu, isEmail)
    ensures var e := Wrapped("validating data", Check(nu, isEmail).value);
      Classify(e) == Reply(StatusBadRequest, ErrorResponse(ValidationErrorText, Check(nu, isEmail).value.fields))
  {
  }

  /**
   * A duplicate entry is reported as an error that errors.Is matches against
   * ErrUniqueEmail; passed on unchanged it is answered as a plain 500 that
   * names neither the email nor the cause.
   */
  lemma DuplicateEmailIsInternal()
    ensures Is(Wrapped("create", ErrUniqueEmail), ErrUniqueEmail)
    ensures !Is(Wrapped("create", ErrUniqueEmail), UserDb.ErrDBDuplicatedEntry)
    ensures Classify(Wrapped("create", ErrUniqueEmail)) == Reply(StatusInternalServerError, ErrorResponse(InternalServerErrorText, []))
  {
  }

  /** No error Create makes itself asks for a shutdown; one can only come from the hasher or the store. */
  lemma CreateErrorsDoNotShutDown(nu: NewUser, isEmail: string -> bool, cause: Err)
    ensures Check(nu, isEmail).Some? ==> !IsShutdown(Wrapped("validating data", Check(nu, isEmail).value))
    ensures !IsShutdown(Wrapped("create", ErrUniqueEmail))
    ensures IsShutdown(Wrapped("generating password hash", cause)) == IsShutdown(cause)
    ensures IsShutdown(Wrapped("create", cause)) == IsShutdown(cause)
  {
  }
}
