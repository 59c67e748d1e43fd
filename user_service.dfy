/** The user service: creating an administrator, and reading one's own user row. */
module UserService {
  import opened Common
  import opened Accounts
  import opened Errors
  import opened Bcrypt
  import opened Store

  /** The body of an admin creation request. */
  datatype AdminPayload = AdminPayload(
    name: Option<string>,
    email: Option<string>,
    contactNumber: Option<string>,
    password: Option<string>)

  const ADMIN_PASSWORD_ROUNDS := 10
  const ADMIN_EMAIL_REQUIRED := "Email is required for Admin creation"

  class UserService {
    const store: Store

    constructor (store: Store)
      ensures this.store == store
    {
      this.store := store;
    }

    /** `createAdmin`: the password is hashed first (bcrypt refuses a missing
        one), then the email must be truthy, then one ADMIN user and its admin
        profile are created in one transaction, whose result is the admin row.
        No duplicate check is made here: a taken email or contact number is
        refused by the store's unique index. */
    method CreateAdmin(payload: AdminPayload, salt: nat) returns (r: Result<Profile, Exception>)
      requires store.Valid()
      modifies store
      ensures store.Valid()
      ensures r.Err? ==> unchanged(store)
      ensures payload.password.None? ==> r == Err(ILLEGAL_ARGUMENTS)
      ensures payload.password.Some? && !Present(payload.email) ==> r == Err(Error(ADMIN_EMAIL_REQUIRED))
      ensures payload.password.Some? && Present(payload.email) && Clashes(old(store.users), payload.email, payload.contactNumber)
              ==> r == Err(UNIQUE_VIOLATION)
      ensures r.Ok? <==> payload.password.Some? && Present(payload.email)
                         && !Clashes(old(store.users), payload.email, payload.contactNumber)
      ensures r.Ok? ==>
        && |store.users| == |old(store.users)| + 1
        && var u := store.users[|old(store.users)|];
        && u == User(u.id, payload.email, payload.contactNumber, Some(Hash(payload.password.value, ADMIN_PASSWORD_ROUNDS, salt)), ADMIN, ACTIVE)
        && Compare(payload.password.value, u.password.value)
        && r.value == Profile(u.id, payload.name, payload.email, payload.contactNumber, None)
        && AccountAdded(old(store.Snapshot()), store.Snapshot(), u, r.value)
        && store.refreshTokens == old(store.refreshTokens)
    {
      if payload.password.None? {
        return Err(ILLEGAL_ARGUMENTS);
      }
      var hashedPassword := Hash(payload.password.value, ADMIN_PASSWORD_ROUNDS, salt);
      if !Present(payload.email) {
        return Err(Error(ADMIN_EMAIL_REQUIRED));
      }
      ghost var before := store.Snapshot();
      var created := store.CreateUserWithProfile(payload.email, payload.contactNumber, Some(hashedPassword), ADMIN, payload.name, None);
      if created.Err? {
        return Err(created.error);
      }
      assert store.users[|before.users|] == created.value.0;
      return Ok(created.value.1);
    }

    /** `getMe`: the user row with this id, if there is one; nothing changes. */
    method GetMe(userId: UserId) returns (r: Option<User>)
      ensures r.Some? ==> r.value in store.users && r.value.id == userId
      ensures r.None? <==> forall u :: u in store.users ==> u.id != userId
    {
      r := FindById(store.users, userId);
    }
  }
}
