/**
 * The local user check of cloudflare_automation/auth.py: a fixed, read-only
 * table of users, and a login that accepts a user name with its exact password.
 */
module LocalAuth {

  /** One record of `FAKE_USERS_DB`. */
  datatype User = User(username: string, password: string, fullName: string)

  /** `FAKE_USERS_DB`, keyed by user name. */
  const FakeUsersDb: map<string, User> :=
    map[
      "admin" := User("admin", "admin", "Administrador Fictício"),
      "joao" := User("joao", "teste123", "João Vitor Teste")
    ]

  /**
   * `authenticate_user`: the user name is a key of the table and the password
   * equals its stored one exactly; so exactly the two pairs of the table pass.
   */
  function AuthenticateUser(username: string, password: string): (ok: bool)
    ensures ok <==> username in FakeUsersDb && FakeUsersDb[username].password == password
    ensures ok <==> (username == "admin" && password == "admin") || (username == "joao" && password == "teste123")
  {
    if username in FakeUsersDb then FakeUsersDb[username].password == password else false
  }
}
