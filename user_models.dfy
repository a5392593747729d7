/**
 * The API side of users: the User handed to callers, the NewUser a caller
 * submits with its validation rules, and the mapping from stored records to
 * API users.
 */
module UserModels {
  import opened Go
  import UserDb

  /** A user as the API shows it. */
  datatype User = User(
    id: string,
    name: string,
    email: string,
    roles: seq<string>,
    passwordHash: seq<Byte>,
    dateCreated: Time,
    dateUpdated: Time)

  /**
   * What a caller submits to create a user. roles is None when the caller
   * sent no list at all (a nil slice), which is not the same as an empty list.
   */
  datatype NewUser = NewUser(
    name: string,
    email: string,
    roles: Option<seq<string>>,
    password: string,
    passwordConfirm: string)

  /** The API user for a stored record: every field carried over unchanged. */
  function ToUser(dbUsr: UserDb.User): (u: User)
    ensures u.id == dbUsr.id && u.name == dbUsr.name && u.email == dbUsr.email
    ensures u.roles == dbUsr.roles && u.passwordHash == dbUsr.passwordHash
    ensures u.dateCreated == dbUsr.dateCreated && u.dateUpdated == dbUsr.dateUpdated
  {
    User(dbUsr.id, dbUsr.name, dbUsr.email, dbUsr.roles, dbUsr.passwordHash,
         dbUsr.dateCreated, dbUsr.dateUpdated)
  }

  /** Nothing of a record is lost: different records give different users. */
  lemma ToUserLosesNothing(a: UserDb.User, b: UserDb.User)
    requires ToUser(a) == ToUser(b)
    ensures a == b
  {
  }

  /** The API users for a list of records, position by position. */
  method ToUserSlice(dbUsrs: seq<UserDb.User>) returns (users: seq<User>)
    ensures |users| == |dbUsrs|
    ensures forall i :: 0 <= i < |dbUsrs| ==> users[i] == ToUser(dbUsrs[i])
  {
    var a := new User[|dbUsrs|];
    for i := 0 to |dbUsrs|
      invariant forall k :: 0 <= k < i ==> a[k] == ToUser(dbUsrs[k])
    {
      a[i] := ToUser(dbUsrs[i]);
    }
    users := a[..];
  }

  /** The validated fields of NewUser, by their JSON names, in declaration order. */
  const FieldNames: seq<string> := ["name", "email", "roles", "password", "password_confirm"]

  /**
   * The validate tags of NewUser: name, email, roles and password are
   * required, email must also look like an address (isEmail), and
   * password_confirm must equal password.
   */
  predicate ValidNewUser(nu: NewUser, isEmail: string -> bool)
  {
    && nu.name != ""
    && nu.email != "" && isEmail(nu.email)
    && nu.roles.Some?
    && nu.password != ""
    && nu.passwordConfirm == nu.password
  }

  /** The first rule in the named field's validate tag that nu breaks, or "" when it breaks none. */
  function BrokenRule(nu: NewUser, isEmail: string -> bool, field: string): string
  {
    if field == "name" then (if nu.name == "" then "required" else "")
    else if field == "email" then
      (if nu.email == "" then "required" else if !isEmail(nu.email) then "email" else "")
    else if field == "roles" then (if nu.roles.None? then "required" else "")
    else if field == "password" then (if nu.password == "" then "required" else "")
    else if field == "password_confirm" then (if nu.passwordConfirm != nu.password then "eqfield" else "")
    else ""
  }

  /** The tags hold exactly when no field breaks a rule. */
  lemma ValidIffNoBrokenRule(nu: NewUser, isEmail: string -> bool)
    ensures ValidNewUser(nu, isEmail) <==> forall n :: n in FieldNames ==> BrokenRule(nu, isEmail, n) == ""
  {
    if ValidNewUser(nu, isEmail) {
      forall n | n in FieldNames
        ensures BrokenRule(nu, isEmail, n) == ""
      {
        var i :| 0 <= i < |FieldNames| && FieldNames[i] == n;
      }
    } else {
      var failing := if BrokenRule(nu, isEmail, "name") != "" then "name"
        else if BrokenRule(nu, isEmail, "email") != "" then "email"
        else if BrokenRule(nu, isEmail, "roles") != "" then "roles"
        else if BrokenRule(nu, isEmail, "password") != "" then "password"
        else "password_confirm";
      assert failing in FieldNames && BrokenRule(nu, isEmail, failing) != "";
    }
  }

  /** The field errors for the named fields: one per field that breaks a rule. */
  function Violations(nu: NewUser, isEmail: string -> bool, names: seq<string>): (fs: seq<FieldError>)
    requires forall i, j :: 0 <= i < j < |names| ==> names[i] != names[j]
    ensures forall f :: f in fs ==> f.field in names && f.error == BrokenRule(nu, isEmail, f.field) != ""
    ensures forall n :: n in names && BrokenRule(nu, isEmail, n) != "" ==> FieldError(n, BrokenRule(nu, isEmail, n)) in fs
    ensures forall i, j :: 0 <= i < j < |fs| ==> fs[i].field != fs[j].field
  {
    if names == [] then []
    else
      var rest := Violations(nu, isEmail, names[1..]);
      var rule := BrokenRule(nu, isEmail, names[0]);
      if rule == "" then rest
      else
        assert forall f :: f in rest ==> f.field != names[0];
        [FieldError(names[0], rule)] + rest
  }

  /**
   * The validator run on a NewUser: nothing when it is valid, otherwise a
   * field-error list naming every failing field once with the rule it breaks.
   */
  function Check(nu: NewUser, isEmail: string -> bool): (r: Option<Err>)
    ensures r.None? <==> ValidNewUser(nu, isEmail)
    ensures r.Some? ==> r.value.FieldErrors? && r.value.fields != []
    ensures r.Some? ==> forall f :: f in r.value.fields ==>
      f.field in FieldNames && f.error == BrokenRule(nu, isEmail, f.field) != ""
    ensures r.Some? ==> forall n :: n in FieldNames && BrokenRule(nu, isEmail, n) != "" ==>
      FieldError(n, BrokenRule(nu, isEmail, n)) in r.value.fields
  {
    var fs := Violations(nu, isEmail, FieldNames);
    ValidIffNoBrokenRule(nu, isEmail);
    if fs == [] then None
    else
      assert fs[0] in fs;
      Some(FieldErrors(fs))
  }
}
