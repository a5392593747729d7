# User core and error middleware of the sales API, in Dafny

This project models three pieces of the sales API service:

- **The `Error` middleware** (`mid.Error`). It wraps a handler. If the
  per-request values are missing from the context, it asks for a shutdown
  without running the handler. Otherwise it runs the handler. It logs any
  error the handler returns, together with the request's trace id. It then
  answers the client with exactly one status/body pair:
  - a validation failure gets 400 and the field list;
  - a request error gets its own status and message;
  - anything else gets a generic 500.

  A failed write is returned in place of the handler's error. After a good
  write, the handler's error is returned only when it is a shutdown error.
- **User record mapping** (`toUser`, `toUserSlice`, and the `validate` tags
  on `NewUser`). The API user is a field-by-field copy of the stored record.
  The slice conversion keeps every position. The tags define when a
  `NewUser` is valid.
- **User creation** (`Core.Create`). It validates, hashes the password,
  builds the record, stores it and converts it. Validation, hashing and the
  store can each end the call early with a wrapped error; building the
  record and converting it cannot fail. A duplicate entry is reported as
  `ErrUniqueEmail`.

Modules:

- `Go`, in `go_values.dfy`: Go error values and the unwrap chain that
  `errors.Is` and `errors.As` walk. `fmt.Errorf("...: %w", err)` is the
  `Wrapped` variant. It also holds byte slices and `time.Time`.
- `Mid`, in `mid_errors.dfy`: the middleware. It has three parts:
  - `Classify`, the status/body choice;
  - `Outcome`, a trace function giving what one pass logs, writes and returns;
  - the method `Error`, which calls the handler, logger and response writer
    objects in order. Its `ensures` ties the new state of those objects to
    `Outcome`.
- `UserDb`, in `user_db.dfy`: the stored user record and the store. The
  store is an oracle object.
- `UserModels`, in `user_models.dfy`: the API `User`, `NewUser` and its
  validation rules, `ToUser` and `ToUserSlice`.
- `UserCore`, in `user_core.dfy`: the error sentinels, the record built for a
  new user, and `Core.Create`.
- `CreateOverHttp`, in `create_over_http.dfy`: what the middleware answers
  for the errors `Create` returns.

The middleware has no separate 401/403 cases: authentication and
authorization errors are classified by whether they are request errors. It
has no panic recovery.

## Model

| member | source | states |
|---|---|---|
| `Go.Chain` | business/web/mid/errors.go:37-46 | The errors `errors.As` visits: the error itself, then each error it wraps, ending at the one error that wraps nothing. |
| `Go.ChainSearch` | business/web/mid/errors.go:36-69 | The field-error, request-error, shutdown and `errors.Is` searches succeed exactly when a matching error lies on the chain. |
| `Go.WrappingKeepsKind` | business/core/user/user.go:43-67 | Wrapping an error with `%w`, any number of times, changes no `errors.As` answer. It changes no `errors.Is` answer for a target that is not itself a wrapper. |
| `Mid.Classify` | business/web/mid/errors.go:33-57 | A field-error list on the chain gives 400 with "data validation error" and that list. Otherwise a request error gives its own status and message with no fields. Otherwise the answer is 500 "Internal Server Error". Field errors take precedence over request errors. |
| `Mid.NothingLeaks` | business/web/mid/errors.go:52-56 | Any two errors that are neither validation nor request errors get the same 500 answer, so the body cannot depend on the error's text. |
| `Mid.Outcome` | business/web/mid/errors.go:18-74 | One pass of the middleware. The handler runs exactly when the context values are present. An answer is written exactly when the handler returned an error, and then only one. There is one log line per answer, and it carries the handler's error. |
| `Mid.MissingValuesShutsDown` | business/web/mid/errors.go:20-25 | With the context values missing, the result is a shutdown error. The handler is not called. Nothing is logged or written. |
| `Mid.SuccessIsSilent` | business/web/mid/errors.go:27-73 | When the handler returns nil, nothing is logged, nothing is written and nil is returned. |
| `Mid.ErrorAnsweredOnce` | business/web/mid/errors.go:28-60 | A handler error is logged once with the trace id and the error itself. It is answered with exactly one reply, the one `Classify` gives. |
| `Mid.WriteFailureWins` | business/web/mid/errors.go:59-62 | When writing the answer fails, the write error is returned instead of the handler's error. |
| `Mid.ShutdownPropagates` | business/web/mid/errors.go:64-73 | After a good write, the handler's error is returned exactly when it is a shutdown error; otherwise nil is returned. |
| `Mid.OnlyShutdownEscapes` | business/web/mid/errors.go:18-74 | The middleware returns nil, the write failure or a shutdown error, and nothing else. |
| `Mid.Error` | business/web/mid/errors.go:14-80 | The middleware method. It calls the handler once or not at all, appends the log entries and the replies, and returns the result. All four match `Outcome` for the handler's and the writer's answers. |
| `UserModels.ToUser` | business/core/user/models.go:32-35 | The API user has the record's ID, name, email, roles, password hash and both dates. |
| `UserModels.ToUserLosesNothing` | business/core/user/models.go:32-35 | Two records that map to the same API user are the same record. |
| `UserModels.ToUserSlice` | business/core/user/models.go:37-43 | The result has the input's length. Position i holds `ToUser` of input position i, so an empty input gives an empty result. |
| `UserModels.ValidIffNoBrokenRule` | business/core/user/models.go:22-28 | The `NewUser` tags hold exactly when no field breaks its first failing rule: name, email, roles and password present, the email well formed, and the confirmation equal to the password. |
| `UserModels.Violations` | business/core/user/models.go:23-27 | Each listed field error names a field that breaks the rule it reports. Every breaking field is listed, and no field is listed twice. |
| `UserModels.Check` | business/core/user/models.go:22-28 | Validation gives no error exactly when `NewUser` is valid. Otherwise it gives a non-empty field-error list naming each failing field with its rule. |
| `UserCore.NewRecord` | business/core/user/user.go:52-60 | The new record has the generated ID and the submitted name, email and roles. It holds the hash, not the password. Its created and updated dates are both `now`. |
| `UserCore.CreatedUserMatchesInput` | business/core/user/user.go:52-69 | The user returned on success shows the submitted name, email and roles, the generated ID and the hash. Its created and updated dates are the same instant. |
| `UserCore.Core.Create` | business/core/user/user.go:42-70 | See the paragraph below this table. |
| `CreateOverHttp.ValidationFailureIsBadRequest` | business/core/user/user.go:43-45 | The wrapped validation error from `Create` is answered 400 with the validator's field list. |
| `CreateOverHttp.DuplicateEmailIsInternal` | business/core/user/user.go:63-65 | The duplicate-entry report matches `ErrUniqueEmail` under `errors.Is`, and no longer matches the database error. Passed on unchanged, it is answered as a plain 500. |
| `CreateOverHttp.CreateErrorsDoNotShutDown` | business/core/user/user.go:42-70 | No error that `Create` builds itself is a shutdown error. A wrapped hasher or store error is a shutdown error only if its cause is one. |

`UserCore.Core.Create` states the following:

- An invalid `NewUser` gives the zero user and the validation error wrapped
  as "validating data". Neither the hasher nor the store is called.
- A hash failure gives the zero user and that error wrapped as "generating
  password hash". The store is not called.
- Otherwise the store receives exactly the record `NewRecord` builds. The
  result then depends on the store's answer:
  - a duplicate entry gives `ErrUniqueEmail` wrapped as "create";
  - any other store error is wrapped as "create";
  - success gives `ToUser` of that record.

## Left out

- The token authority, the key store and the `Authenticate`/`Authorize`
  middleware. Their code is not part of this model. The rest of the request
  pipeline is also left out: the logger, metrics and panic middleware, route
  registration and the debug muxes.
- The framework's `web.GetValues`, `web.Respond` and `web.NewShutdownError`
  are not part of this model. The context is an optional `Values` holding
  only the trace id. Writing an answer is a `ResponseWriter` object that
  records the reply and returns a preset error. Its JSON encoding and
  headers are not modelled.
- The logger is a list of (trace id, error) entries. Log formatting is not
  modelled.
- The validate and trusted packages are not part of this model. Their error
  types appear as the `FieldErrors` and `RequestError` variants.
  - `RequestError` is modelled as an error that wraps nothing. With that
    model, no unwrap chain holds both a field-error list and a request error,
    so the precedence that `Mid.Classify` states is never exercised by a real
    chain.
  - The validator's field labels are taken to be the JSON names of the
    fields. Each entry reports the failing tag rule ("required", "email",
    "eqfield") instead of the translated message text.
  - The email syntax test is the parameter `isEmail`.
- Go.Is compares errors by value. Go's `errors.Is` compares wrapper,
  request, field and shutdown errors by identity, so two separately built
  wrappers never match in Go but can match here. The modelled operations only
  use the sentinel targets `ErrDBDuplicatedEntry` and `ErrUniqueEmail`,
  which Go also compares by value.
- Password hashing (bcrypt) is the `Hasher` oracle. `validate.GenerateID` is
  the `newId` parameter.
- `db.Store` is an oracle that records each record it receives and answers
  with a preset error. Its own methods are stubs that do nothing. `NewCore`
  and the database connection are left out.
- `ErrDBDuplicatedEntry` comes from the database package, which is not part
  of this model. Only its identity matters here. Its text is a placeholder.
- The sentinels `ErrNotFound`, `ErrInvalidID`, `ErrInvalidEmail` and
  `ErrAuthenticationFailure` are declared, but no modelled operation
  returns them.
- `ToUser` reinterprets memory with `unsafe.Pointer`. The model is the
  field-by-field copy that this reinterpretation is meant to be, because the
  two structs declare the same fields in the same order. The memory layout
  itself is not modelled.
- Nil and empty slices are told apart only for `NewUser.roles`, where the
  `required` rule depends on it. The stored and API users hold plain
  sequences, so a nil role list and an empty one are the same there.
- Concurrency, cancellation through the context, and the process's
  shutdown handling are left out.
