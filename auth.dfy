/** Login decisions of the listener (listener/auth.py). The bcrypt check is an
    abstract predicate over the password and the stored hash. */
module Auth {

  /** The hard-coded user database: the only user with a password. */
  const UserRoles: map<string, string> :=
    map["Engineer" := "$2b$12$9krtCz3xld.d4JRI2TYixuxhaNiRXysFtiGSPdYzGQ/ilxzJIbHHK"]

  /** `authenticate(user, password)`; `checkpw` stands for `bcrypt.checkpw`. */
  function Authenticate(user: string, password: string, checkpw: (string, string) -> bool): (ok: bool)
    ensures user == "Operator" ==> ok
    ensures user != "Engineer" && user != "Operator" ==> !ok
  {
    if user in ["Engineer"] && checkpw(password, UserRoles[user]) then true
    else user == "Operator"
  }

  /** The engineer gets in exactly when the password matches the stored hash. */
  lemma {:induction false} EngineerNeedsPassword(password: string, checkpw: (string, string) -> bool)
    ensures Authenticate("Engineer", password, checkpw) <==> checkpw(password, UserRoles["Engineer"])
  {
  }

  /** Only the two known users can ever get in. */
  lemma {:induction false} OnlyKnownUsers(user: string, password: string, checkpw: (string, string) -> bool)
    requires Authenticate(user, password, checkpw)
    ensures user == "Operator" || (user == "Engineer" && checkpw(password, UserRoles["Engineer"]))
  {
  }
}
