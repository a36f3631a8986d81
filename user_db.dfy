/** The user-management service's credential store: a list of username/password records
    held by an object, searched for an exact match on both fields. */
module UserStore {
  import opened Common

  /** The one account the store is created with. */
  const DefaultUser := User("user123", "pass123")

  class UserDb {
    var users: seq<User>

    /** The store starts with exactly the default account. */
    constructor()
      ensures users == [DefaultUser]
    {
      users := [DefaultUser];
    }

    /** `check_user`: true exactly when some stored record equals `data` on both fields. The
        store is only read. */
    method CheckUser(data: User) returns (ok: bool)
      ensures ok <==> Matches(users, data)
    {
      for i := 0 to |users|
        invariant forall j :: 0 <= j < i ==> users[j].username != data.username || users[j].password != data.password
      {
        if users[i].username == data.username && users[i].password == data.password {
          return true;
        }
      }
      return false;
    }
  }

  /** Against the initial store exactly the default credentials are accepted: a right
      username with a wrong password, or an unknown user, is refused. */
  lemma {:induction false} DefaultStoreAcceptsOnlyDefault(data: User)
    ensures Matches([DefaultUser], data) <==> data == DefaultUser
  {
    if data == DefaultUser {
      assert [DefaultUser][0] == data;
    }
  }
}
