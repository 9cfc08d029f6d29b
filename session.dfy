/** Credential matching and the screen a fresh session starts on. */
module Session {
  import opened Domain

  /** Exact, case-sensitive equality of both username and password. */
  predicate Credentials(u: User, username: string, password: string) {
    u.username == username && u.password == password
  }

  /** `i` is the position of the first user in the list with these credentials. */
  predicate FirstMatchAt(users: seq<User>, username: string, password: string, i: int) {
    && 0 <= i < |users|
    && Credentials(users[i], username, password)
    && forall j :: 0 <= j < i ==> !Credentials(users[j], username, password)
  }

  /** `users.find(...)`: the first user whose credentials match, if there is one. */
  function FindUser(users: seq<User>, username: string, password: string): (r: Option<User>)
    ensures r.None? <==> forall i :: 0 <= i < |users| ==> !Credentials(users[i], username, password)
    ensures r.Some? ==> exists i :: FirstMatchAt(users, username, password, i) && users[i] == r.value
  {
    if users == [] then None
    else if Credentials(users[0], username, password) then Some(users[0])
    else
      var rest := FindUser(users[1..], username, password);
      assert forall i :: 1 <= i < |users| ==> users[i] == users[1..][i - 1];
      assert rest.Some? ==> exists i :: FirstMatchAt(users, username, password, i) && users[i] == rest.value by {
        if rest.Some? {
          var k :| FirstMatchAt(users[1..], username, password, k) && users[1..][k] == rest.value;
          assert FirstMatchAt(users, username, password, k + 1);
        }
      }
      rest
  }

  /** Where a successful login lands: admins on the admin console, everyone else on the
      catalog. */
  function HomeView(u: User): (v: View)
    ensures v == Admin <==> IsAdmin(u)
    ensures v == Admin || v == Catalog
  {
    if IsAdmin(u) then Admin else Catalog
  }
}
