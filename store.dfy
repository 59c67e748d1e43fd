/**
 * The credential store: the user table, the three profile tables and the
 * refresh-token table, with the queries and writes the services issue
 * against them. Each write below is one atomic step, as a database
 * transaction is: it either applies in full or leaves every table as it was.
 */
module Store {
  import opened Common
  import opened Accounts
  import opened Errors
  import opened Bcrypt
  import opened Jwt

  datatype User = User(
    id: UserId,
    email: Option<string>,
    contactNumber: Option<string>,
    password: Option<Digest<string>>,  // absent for accounts created by Google sign-up
    role: Role,
    status: Status)

  /** A row of the customer, host or admin table, keyed by `userId`. */
  datatype Profile = Profile(
    userId: UserId,
    name: Option<string>,
    email: Option<string>,
    contactNumber: Option<string>,
    profilePhoto: Option<string>)

  /** A row of the refresh-token table, keyed by the owning user's id. */
  datatype RefreshRecord = RefreshRecord(tokenHash: Digest<Token>, expiresAt: int, userAgent: string, ip: string)

  /** One alternative of a `where: { OR: [...] }` filter on the user table. */
  datatype Condition = EmailIs(email: string) | ContactNumberIs(contactNumber: string)

  predicate Satisfies(u: User, c: Condition) {
    match c
    case EmailIs(e) => u.email == Some(e)
    case ContactNumberIs(n) => u.contactNumber == Some(n)
  }

  predicate MatchesAny(u: User, conds: seq<Condition>) {
    exists c :: c in conds && Satisfies(u, c)
  }

  /** `findFirst({ where: { OR: conds } })`: the earliest row, in insertion
      order, that meets one of the alternatives. An empty `OR` meets nothing. */
  function FindFirst(users: seq<User>, conds: seq<Condition>): (r: Option<User>)
    ensures r.None? <==> forall u :: u in users ==> !MatchesAny(u, conds)
    ensures r.Some? ==> exists i :: 0 <= i < |users| && users[i] == r.value && MatchesAny(users[i], conds)
                                    && forall j :: 0 <= j < i ==> !MatchesAny(users[j], conds)
  {
    if users == [] then None
    else if MatchesAny(users[0], conds) then Some(users[0])
    else
      var r := FindFirst(users[1..], conds);
      assert forall u :: u in users ==> u == users[0] || u in users[1..];
      if r.Some? then
        var i :| 0 <= i < |users[1..]| && users[1..][i] == r.value && MatchesAny(users[1..][i], conds)
                 && forall j :: 0 <= j < i ==> !MatchesAny(users[1..][j], conds);
        assert users[i + 1] == r.value;
        assert forall j :: 1 <= j < i + 1 ==> users[j] == users[1..][j - 1];
        r
      else r
  }

  /** `findUnique({ where: { id } })` */
  function FindById(users: seq<User>, id: UserId): (r: Option<User>)
    ensures r.Some? ==> r.value in users && r.value.id == id
    ensures r.None? <==> forall u :: u in users ==> u.id != id
  {
    if users == [] then None
    else if users[0].id == id then Some(users[0])
    else
      assert forall u :: u in users ==> u == users[0] || u in users[1..];
      FindById(users[1..], id)
  }

  /** With distinct ids, looking a user up by id finds that very row. */
  lemma FindByIdUnique(users: seq<User>, nextId: UserId, i: nat)
    requires UsersValid(users, nextId) && i < |users|
    ensures FindById(users, users[i].id) == Some(users[i])
  {
    var u := FindById(users, users[i].id).value;
    var k :| 0 <= k < |users| && users[k] == u;
  }

  function IdsOf(users: seq<User>): set<UserId> {
    set u | u in users :: u.id
  }

  /** Would a new row with these keys break the unique index on `email` or on
      `contactNumber`? Absent keys (SQL NULL) never collide. */
  ghost predicate Clashes(users: seq<User>, email: Option<string>, contactNumber: Option<string>) {
    exists u :: u in users && ((email.Some? && u.email == email) || (contactNumber.Some? && u.contactNumber == contactNumber))
  }

  /** The alternatives the unique index checks for a new row. */
  function UniqueKeys(email: Option<string>, contactNumber: Option<string>): (conds: seq<Condition>)
    ensures forall u :: MatchesAny(u, conds) <==> (email.Some? && u.email == email) || (contactNumber.Some? && u.contactNumber == contactNumber)
  {
    var byEmail := if email.Some? then [EmailIs(email.value)] else [];
    var byContact := if contactNumber.Some? then [ContactNumberIs(contactNumber.value)] else [];
    var conds := byEmail + byContact;
    assert forall c :: c in conds <==> (email.Some? && c == EmailIs(email.value)) || (contactNumber.Some? && c == ContactNumberIs(contactNumber.value));
    assert forall u: User :: email.Some? && u.email == email ==> Satisfies(u, EmailIs(email.value));
    assert forall u: User :: contactNumber.Some? && u.contactNumber == contactNumber ==> Satisfies(u, ContactNumberIs(contactNumber.value));
    conds
  }

  /** Two optional unique keys may both be absent, but never share a value. */
  predicate Unshared(a: Option<string>, b: Option<string>) {
    a.Some? ==> a != b
  }

  /** Ids below the next one to hand out, distinct, and the unique indexes on
      `email` and `contactNumber` respected. */
  ghost predicate UsersValid(users: seq<User>, nextId: UserId) {
    && (forall i :: 0 <= i < |users| ==> users[i].id < nextId)
    && (forall i, j :: 0 <= i < j < |users| ==>
          && users[i].id != users[j].id
          && Unshared(users[i].email, users[j].email)
          && Unshared(users[i].contactNumber, users[j].contactNumber))
  }

  /** A user has its one profile, in the table of its role and in no other. */
  predicate OwnsOneProfile(u: User, customers: map<UserId, Profile>, hosts: map<UserId, Profile>, admins: map<UserId, Profile>) {
    && (u.id in customers <==> u.role == CUSTOMER)
    && (u.id in hosts <==> u.role == HOST)
    && (u.id in admins <==> u.role == ADMIN)
  }

  /** Every user owns exactly one profile, every profile row belongs to a
      user, and each row's `userId` is its key. */
  ghost predicate ProfilesValid(users: seq<User>, customers: map<UserId, Profile>, hosts: map<UserId, Profile>, admins: map<UserId, Profile>) {
    && (forall i :: 0 <= i < |users| ==> OwnsOneProfile(users[i], customers, hosts, admins))
    && customers.Keys + hosts.Keys + admins.Keys <= IdsOf(users)
    && (forall k :: k in customers ==> customers[k].userId == k)
    && (forall k :: k in hosts ==> hosts[k].userId == k)
    && (forall k :: k in admins ==> admins[k].userId == k)
  }

  /** The unique-index check finds a row exactly when the new keys clash. */
  lemma UniqueKeysFindClash(users: seq<User>, email: Option<string>, contactNumber: Option<string>)
    ensures FindFirst(users, UniqueKeys(email, contactNumber)).Some? <==> Clashes(users, email, contactNumber)
  {
  }

  lemma IdsOfAppend(users: seq<User>, u: User)
    ensures IdsOf(users + [u]) == IdsOf(users) + {u.id}
  {
    forall k | k in IdsOf(users + [u]) ensures k in IdsOf(users) + {u.id} {
      var v :| v in users + [u] && v.id == k;
      if v != u { assert v in users; }
    }
  }

  lemma NextIdIsFresh(users: seq<User>, nextId: UserId)
    requires UsersValid(users, nextId)
    ensures nextId !in IdsOf(users)
  {
  }

  /** Appending a row with the next id and unused keys keeps the user table well formed. */
  lemma AppendUserValid(users: seq<User>, nextId: UserId, u: User)
    requires UsersValid(users, nextId)
    requires u.id == nextId && !Clashes(users, u.email, u.contactNumber)
    ensures UsersValid(users + [u], nextId + 1)
  {
    var users' := users + [u];
    forall i, j | 0 <= i < j < |users'|
      ensures users'[i].id != users'[j].id
      ensures Unshared(users'[i].email, users'[j].email)
      ensures Unshared(users'[i].contactNumber, users'[j].contactNumber)
    {
      if j == |users| {
        assert users'[i] in users;
      }
    }
  }

  /** Adding a new user together with one profile in the table of its role
      keeps the profile tables consistent with the user table. */
  lemma AddProfileValid(users: seq<User>, customers: map<UserId, Profile>, hosts: map<UserId, Profile>, admins: map<UserId, Profile>,
                        u: User, p: Profile,
                        customers': map<UserId, Profile>, hosts': map<UserId, Profile>, admins': map<UserId, Profile>)
    requires ProfilesValid(users, customers, hosts, admins)
    requires u.id !in IdsOf(users) && p.userId == u.id
    requires customers' == if u.role == CUSTOMER then customers[u.id := p] else customers
    requires hosts' == if u.role == HOST then hosts[u.id := p] else hosts
    requires admins' == if u.role == ADMIN then admins[u.id := p] else admins
    ensures ProfilesValid(users + [u], customers', hosts', admins')
  {
    var users' := users + [u];
    forall i | 0 <= i < |users'|
      ensures OwnsOneProfile(users'[i], customers', hosts', admins')
    {
      if i < |users| {
        assert users'[i] in users;
        assert OwnsOneProfile(users[i], customers, hosts, admins);
      }
    }
    IdsOfAppend(users, u);
  }

  /** The user table, the three profile tables and the id counter. */
  datatype UserTables = UserTables(
    users: seq<User>,
    customers: map<UserId, Profile>,
    hosts: map<UserId, Profile>,
    admins: map<UserId, Profile>,
    nextId: UserId)

  /** From `before` to `after` exactly the account `u` with the profile `p`
      was added: one user row with the next id, one row in the profile table
      of its role, and the other profile tables untouched. */
  ghost predicate AccountAdded(before: UserTables, after: UserTables, u: User, p: Profile) {
    && u.id == before.nextId && after.nextId == before.nextId + 1
    && after.users == before.users + [u]
    && p.userId == u.id
    && after.customers == (if u.role == CUSTOMER then before.customers[u.id := p] else before.customers)
    && after.hosts == (if u.role == HOST then before.hosts[u.id := p] else before.hosts)
    && after.admins == (if u.role == ADMIN then before.admins[u.id := p] else before.admins)
  }

  /** Adding an account with the next id and unused keys keeps the tables
      well formed and every refresh record owned by an existing user. */
  lemma AddAccountValid(before: UserTables, after: UserTables, refresh: map<UserId, RefreshRecord>, u: User, p: Profile)
    requires UsersValid(before.users, before.nextId)
    requires ProfilesValid(before.users, before.customers, before.hosts, before.admins)
    requires refresh.Keys <= IdsOf(before.users)
    requires !Clashes(before.users, u.email, u.contactNumber)
    requires AccountAdded(before, after, u, p)
    ensures UsersValid(after.users, after.nextId)
    ensures ProfilesValid(after.users, after.customers, after.hosts, after.admins)
    ensures refresh.Keys <= IdsOf(after.users)
    ensures u.id !in IdsOf(before.users)
  {
    NextIdIsFresh(before.users, before.nextId);
    IdsOfAppend(before.users, u);
    AppendUserValid(before.users, before.nextId, u);
    AddProfileValid(before.users, before.customers, before.hosts, before.admins, u, p, after.customers, after.hosts, after.admins);
  }

  class Store {
    var users: seq<User>
    var customers: map<UserId, Profile>
    var hosts: map<UserId, Profile>
    var admins: map<UserId, Profile>
    var refreshTokens: map<UserId, RefreshRecord>
    var nextId: UserId

    /** Everything but the refresh-token table. */
    ghost function Snapshot(): UserTables
      reads this
    {
      UserTables(users, customers, hosts, admins, nextId)
    }

    /** The store's invariant: well-formed user rows, one profile per user in
        the table of its role, and refresh records only for existing users
        (at most one each, since the table is keyed by user id). */
    ghost predicate Valid()
      reads this
    {
      && UsersValid(users, nextId)
      && ProfilesValid(users, customers, hosts, admins)
      && refreshTokens.Keys <= IdsOf(users)
    }

    constructor ()
      ensures Valid()
      ensures users == [] && nextId == 0 && refreshTokens == map[]
      ensures customers == map[] && hosts == map[] && admins == map[]
    {
      users, nextId, refreshTokens := [], 0, map[];
      customers, hosts, admins := map[], map[], map[];
    }

    /** The transaction that creates a user row and then its profile row in the
        table of its role. The unique index on `email` and on `contactNumber`
        makes the first create fail when a key is taken, and then nothing is written. */
    method CreateUserWithProfile(email: Option<string>, contactNumber: Option<string>, password: Option<Digest<string>>,
                                 role: Role, name: Option<string>, profilePhoto: Option<string>)
      returns (r: Result<(User, Profile), Exception>)
      requires Valid()
      modifies this
      ensures Valid()
      ensures r.Err? <==> Clashes(old(users), email, contactNumber)
      ensures r.Err? ==> r.error == UNIQUE_VIOLATION && unchanged(this)
      ensures r.Ok? ==>
        && r.value.0 == User(old(nextId), email, contactNumber, password, role, ACTIVE)
        && r.value.0.id !in IdsOf(old(users))
        && r.value.1 == Profile(r.value.0.id, name, email, contactNumber, profilePhoto)
        && AccountAdded(old(Snapshot()), Snapshot(), r.value.0, r.value.1)
        && refreshTokens == old(refreshTokens)
    {
      UniqueKeysFindClash(users, email, contactNumber);
      if FindFirst(users, UniqueKeys(email, contactNumber)).Some? {
        return Err(UNIQUE_VIOLATION);
      }
      var u := User(nextId, email, contactNumber, password, role, ACTIVE);
      var p := Profile(u.id, name, email, contactNumber, profilePhoto);
      var customers', hosts', admins' := customers, hosts, admins;
      match role {
        case CUSTOMER => customers' := customers[u.id := p];
        case HOST => hosts' := hosts[u.id := p];
        case ADMIN => admins' := admins[u.id := p];
      }
      ghost var before := Snapshot();
      ghost var after := UserTables(users + [u], customers', hosts', admins', nextId + 1);
      AddAccountValid(before, after, refreshTokens, u, p);
      users, nextId := users + [u], nextId + 1;
      customers, hosts, admins := customers', hosts', admins';
      r := Ok((u, p));
    }

    /** `refreshToken.upsert({ where: { userId }, ... })`: the one record of
        `userId` becomes `record`, created or overwritten. The row's foreign
        key requires an existing user. */
    method UpsertRefreshToken(userId: UserId, record: RefreshRecord)
      requires Valid()
      requires userId in IdsOf(users)
      modifies this
      ensures Valid()
      ensures refreshTokens == old(refreshTokens)[userId := record]
      ensures Snapshot() == old(Snapshot())
    {
      refreshTokens := refreshTokens[userId := record];
    }

    /** `refreshToken.delete({ where: { userId } })`: returns the deleted
        record, or fails when there is none. */
    method DeleteRefreshToken(userId: UserId) returns (r: Result<RefreshRecord, Exception>)
      requires Valid()
      modifies this
      ensures Valid()
      ensures r.Ok? <==> userId in old(refreshTokens)
      ensures r.Ok? ==> r.value == old(refreshTokens)[userId] && refreshTokens == old(refreshTokens) - {userId}
      ensures r.Err? ==> r.error == RECORD_NOT_FOUND && unchanged(this)
      ensures Snapshot() == old(Snapshot())
    {
      if userId !in refreshTokens {
        return Err(RECORD_NOT_FOUND);
      }
      r := Ok(refreshTokens[userId]);
      refreshTokens := refreshTokens - {userId};
    }
  }
}
