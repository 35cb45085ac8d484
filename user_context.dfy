/**
 * The user context: a single mutable cell holding the current user object, or
 * `null`. `login` and `setUser` overwrite it, `logout` clears it; nothing is
 * validated or normalised, and the cell has no connection to token storage.
 */
module UserContext {
  import opened Js

  /** The three ways the provider's consumers write the cell. */
  datatype UserOp = LoginOp(userObj: JsObject) | LogoutOp | SetUserOp(next: Option<JsObject>)

  /** What one write leaves in the cell, whatever was there before. */
  function Written(op: UserOp): (user: Option<JsObject>)
    ensures op.LoginOp? ==> user == Some(op.userObj)
    ensures op.LogoutOp? ==> user.None?
    ensures op.SetUserOp? ==> user == op.next
  {
    match op
    case LoginOp(u) => Some(u)
    case LogoutOp => None
    case SetUserOp(next) => next
  }

  /** The cell after a sequence of writes, starting from `user`. */
  function Replay(user: Option<JsObject>, ops: seq<UserOp>): Option<JsObject>
    decreases |ops|
  {
    if ops == [] then user else Replay(Written(ops[0]), ops[1..])
  }

  /** Last write wins: after at least one write, the cell holds what the last write put there. */
  lemma {:induction false} LastWriteWins(user: Option<JsObject>, ops: seq<UserOp>)
    requires ops != []
    ensures Replay(user, ops) == Written(ops[|ops| - 1])
    decreases |ops|
  {
    if |ops| > 1 {
      LastWriteWins(Written(ops[0]), ops[1..]);
    }
  }

  /** Logging out is idempotent, and a logout after any history leaves no user. */
  lemma {:induction false} LogoutClears(user: Option<JsObject>, ops: seq<UserOp>)
    ensures Replay(user, ops + [LogoutOp]) == None
    ensures Replay(user, ops + [LogoutOp, LogoutOp]) == Replay(user, ops + [LogoutOp])
  {
    LastWriteWins(user, ops + [LogoutOp]);
    LastWriteWins(user, ops + [LogoutOp, LogoutOp]);
  }

  /** `UserProvider`: the state cell and the three writers it hands to consumers. */
  class UserProvider {
    var user: Option<JsObject>

    /** `useState(null)`. */
    constructor()
      ensures user.None?
    {
      user := None;
    }

    /** `login(userObj)`: stores the object exactly as given. */
    method Login(userObj: JsObject)
      modifies this
      ensures user == Written(LoginOp(userObj)) == Some(userObj)
    {
      user := Some(userObj);
    }

    /** `logout()`. */
    method Logout()
      modifies this
      ensures user == Written(LogoutOp) == None
    {
      user := None;
    }

    /** `setUser(next)`, exposed to consumers as is. */
    method SetUser(next: Option<JsObject>)
      modifies this
      ensures user == Written(SetUserOp(next)) == next
    {
      user := next;
    }
  }

  /** The user object the sign-in form hands to `login`: e-mail and password, no `role`. */
  function SignInUser(email: string, password: string): (u: JsObject)
    ensures "role" !in u
    ensures Get(u, "email") == Str(email) && Get(u, "password") == Str(password)
  {
    map["email" := Str(email), "password" := Str(password)]
  }
}
