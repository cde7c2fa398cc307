/**
 * The signed-in user as frontend/src/context/AuthContext.jsx exposes it: the
 * `user` object (or none) and the derived `isAdmin` flag, plus the result
 * `register` hands back to the registration page.
 */
module AuthContext {
  import opened Common

  /** The stored user object; any field the server left out is None. */
  datatype User = User(name: Option<string>, email: Option<string>, role: Option<string>)

  /** `user?.role === 'admin'`: false without a user or without a role. */
  predicate IsAdmin(user: Option<User>)
  {
    user.Some? && user.value.role == Some("admin")
  }

  /** What `register` resolves to: success, or failure with the message it also toasted. */
  datatype AuthResult = Succeeded | Failed(message: string)

  /** `register`'s result for a server answer: the server's message, else "Registration failed". */
  function RegisterResult(reply: Result<User, Option<string>>): (r: AuthResult)
    ensures r.Succeeded? <==> reply.Ok?
    ensures reply.Err? && Truthy(reply.error) ==> r == Failed(reply.error.value)
    ensures reply.Err? && !Truthy(reply.error) ==> r == Failed("Registration failed")
  {
    if reply.Ok? then Succeeded
    else if Truthy(reply.error) then Failed(reply.error.value)
    else Failed("Registration failed")
  }

  /** Only the exact lower-case role "admin" grants admin rights. */
  lemma AdminIsExactRole(name: Option<string>, email: Option<string>, role: Option<string>)
    ensures IsAdmin(Some(User(name, email, role))) <==> role == Some("admin")
    ensures !IsAdmin(Some(User(name, email, Some("Admin"))))
    ensures !IsAdmin(None)
  {
  }
}
