/**
 * The authentication context: one user record, `{id, role}`, both absent
 * until a login, replaced whole by `login` and reset by `logout`.
 */
module Auth {
  import opened Text

  /** `{ id, role }`, where `None` stands for `null`. */
  datatype User = User(id: Option<string>, role: Option<string>)

  const SIGNED_OUT := User(None, None)

  class AuthProvider {
    var user: User

    constructor()
      ensures user == SIGNED_OUT
    {
      user := SIGNED_OUT;
    }

    /** `login(id, role)`: the user becomes exactly `{id, role}`, whatever it was. */
    method Login(id: string, role: string)
      modifies this
      ensures user == User(Some(id), Some(role))
    {
      user := User(Some(id), Some(role));
    }

    /** `logout()`: back to the initial, signed-out user from any state. */
    method Logout()
      modifies this
      ensures user == SIGNED_OUT
    {
      user := SIGNED_OUT;
    }
  }
}
