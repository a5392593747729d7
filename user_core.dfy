/**
 * The user core: creating a user from a NewUser. Validation, password
 * hashing, ID generation and the store are outside the model and enter as
 * oracles: the email-syntax test isEmail, the Hasher object, the newId
 * parameter and the Store object.
 */
module UserCore {
  import opened Go
  import UserDb
  import opened UserModels

  const ErrNotFound: Err := Plain("user.ErrNotFound", "user not found")
  const ErrInvalidID: Err := Plain("user.ErrInvalidID", "ID is not in its proper form")
  const ErrInvalidEmail: Err := Plain("user.ErrInvalidEmail", "email is not valid")
  const ErrUniqueEmail: Err := Plain("user.ErrUniqueEmail", "email is not unique")
  const ErrAuthenticationFailure: Err := Plain("user.ErrAuthenticationFailure", "authentication failed")

  /** The User returned alongside every error. */
  const ZeroUser: User := User("", "", "", [], [], ZeroTime, ZeroTime)

  /** The password hasher, as an oracle: it counts its calls and answers from outcome. */
  class Hasher {
    var calls: nat
    const outcome: string -> Result<seq<Byte>>

    constructor (outcome: string -> Result<seq<Byte>>)
      ensures calls == 0 && this.outcome == outcome
    {
      calls := 0;
      this.outcome := outcome;
    }

    method GenerateFromPassword(password: string) returns (r: Result<seq<Byte>>)
      modifies this
      ensures calls == old(calls) + 1 && r == outcome(password)
    {
      calls := calls + 1;
      r := outcome(password);
    }
  }

  /**
   * The record stored for a new user: the submitted fields, the hash in place
   * of the password, both dates now. A missing role list is stored as an empty one.
   */
  function NewRecord(nu: NewUser, id: string, hash: seq<Byte>, now: Time): (d: UserDb.User)
    ensures d.id == id && d.name == nu.name && d.email == nu.email
    ensures nu.roles.Some? ==> d.roles == nu.roles.value
    ensures nu.roles.None? ==> d.roles == []
    ensures d.passwordHash == hash
    ensures d.dateCreated == now && d.dateUpdated == now
  {
    var roles := if nu.roles.Some? then nu.roles.value else [];
    UserDb.User(id, nu.name, nu.email, roles, hash, now, now)
  }

  /** The user handed back after a successful insert shows what was submitted, the hash and one creation instant. */
  lemma CreatedUserMatchesInput(nu: NewUser, id: string, hash: seq<Byte>, now: Time)
    requires nu.roles.Some?
    ensures var u := ToUser(NewRecord(nu, id, hash, now));
      && u.id == id && u.name == nu.name && u.email == nu.email && u.roles == nu.roles.value
      && u.passwordHash == hash
      && u.dateCreated == now && u.dateUpdated == u.dateCreated
  {
  }

  /** The user API over one store. */
  class Core {
    const store: UserDb.Store

    constructor (store: UserDb.Store)
      ensures this.store == store
    {
      this.store := store;
    }

    /** Validates nu, hashes its password, stores the new record and returns it as an API user. */
    method Create(hasher: Hasher, nu: NewUser, now: Time, isEmail: string -> bool, newId: string)
      returns (u: User, err: Option<Err>)
      modifies store, hasher
      ensures !ValidNewUser(nu, isEmail) ==>
        && u == ZeroUser && err == Some(Wrapped("validating data", Check(nu, isEmail).value))
        && hasher.calls == old(hasher.calls) && store.received == old(store.received)
      ensures ValidNewUser(nu, isEmail) ==> hasher.calls == old(hasher.calls) + 1
      ensures ValidNewUser(nu, isEmail) && hasher.outcome(nu.password).Fail? ==>
        && u == ZeroUser && err == Some(Wrapped("generating password hash", hasher.outcome(nu.password).err))
        && store.received == old(store.received)
      ensures ValidNewUser(nu, isEmail) && hasher.outcome(nu.password).Ok? ==>
        var record := NewRecord(nu, newId, hasher.outcome(nu.password).value, now);
        && store.received == old(store.received) + [record]
        && (store.answer.None? ==> u == ToUser(record) && err.None?)
        && (store.answer.Some? && Is(store.answer.value, UserDb.ErrDBDuplicatedEntry) ==>
              u == ZeroUser && err == Some(Wrapped("create", ErrUniqueEmail)))
        && (store.answer.Some? && !Is(store.answer.value, UserDb.ErrDBDuplicatedEntry) ==>
              u == ZeroUser && err == Some(Wrapped("create", store.answer.value)))
    {
      var checkErr := Check(nu, isEmail);
      if checkErr.Some? {
        return ZeroUser, Some(Wrapped("validating data", checkErr.value));
      }

      var hashed := hasher.GenerateFromPassword(nu.password);
      if hashed.Fail? {
        return ZeroUser, Some(Wrapped("generating password hash", hashed.err));
      }

      var record := NewRecord(nu, newId, hashed.value, now);

      var storeErr := store.Create(record);
      if storeErr.Some? {
        if Is(storeErr.value, UserDb.ErrDBDuplicatedEntry) {
          return ZeroUser, Some(Wrapped("create", ErrUniqueEmail));
        }
        return ZeroUser, Some(Wrapped("create", storeErr.value));
      }

      return ToUser(record), None;
    }
  }
}
