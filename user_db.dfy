/**
 * The persistence side of users: the record stored in the users table and
 * the store that receives new records.
 */
module UserDb {
  import opened Go

  /** The row of the users table, field for field. */
  datatype User = User(
    id: string,
    name: string,
    email: string,
    roles: seq<string>,
    passwordHash: seq<Byte>,
    dateCreated: Time,
    dateUpdated: Time)

  /** The error the database layer reports when a unique column would hold a value twice. */
  const ErrDBDuplicatedEntry: Err := Plain("database.ErrDBDuplicatedEntry", "duplicated entry")

  /**
   * The store, as an oracle: it keeps every record it is asked to insert,
   * in order, and answers each insert with a preset error (None for success).
   */
  class Store {
    var received: seq<User>
    const answer: Option<Err>

    constructor (answer: Option<Err>)
      ensures received == [] && this.answer == answer
    {
      received := [];
      this.answer := answer;
    }

    method Create(usr: User) returns (err: Option<Err>)
      modifies this
      ensures received == old(received) + [usr] && err == answer
    {
      received := received + [usr];
      err := answer;
    }
  }
}
