/**
 * Account provisioning: the adapter's `createUser`, which grants the
 * initial 500 credits to a new account and returns an existing account for
 * a known email untouched, and the `session` callback, which copies the
 * account's id and balance into the session.
 */
module AuthOptions {
  import opened Wrappers
  import opened Errors
  import opened Store

  /** What the sign-in provider hands `createUser`. */
  datatype UserData = UserData(
    name: Option<string>,
    email: Option<string>,
    emailVerified: Option<int>,
    image: Option<string>)

  /** The user object `createUser` returns; its email is always set. */
  datatype AdapterUser = AdapterUser(
    id: UserId,
    name: Option<string>,
    email: string,
    emailVerified: Option<int>,
    image: Option<string>,
    credits: int)

  /** The row `createUser` inserts for a new account. */
  function NewAccount(id: UserId, data: UserData): User {
    User(id, data.name, data.email, data.emailVerified, data.image, 500)
  }

  /** A stored user in the adapter's shape, its email falling back to the one signed in with. */
  function AsAdapterUser(u: User, email: string): (a: AdapterUser)
    ensures a.id == u.id && a.credits == u.credits && a.name == u.name && a.image == u.image
    ensures a.email == OrElse(u.email, email)
  {
    AdapterUser(u.id, u.name, OrElse(u.email, email), u.emailVerified, u.image, u.credits)
  }

  /**
   * `createUser(data)`, where `connected` is whether `prisma.$connect()`
   * succeeded and `freshId` is the id the database assigns to a new row.
   */
  function Provision(l: Ledger, data: UserData, connected: bool, freshId: UserId): (r: Result<(Ledger, AdapterUser), Error>)
    requires WellFormed(l) && freshId !in l.users
    ensures !Truthy(data.email) ==> r == Err(EmailRequired)
    ensures Truthy(data.email) && !connected ==> r == Err(DatabaseUnavailable)
    ensures r.Ok? <==> Truthy(data.email) && connected
    ensures r.Ok? ==> r.value.1.email == data.email.value
    ensures r.Ok? && FindUserByEmail(l, data.email.value).Some? ==>
              r.value.0 == l && r.value.1.id == FindUserByEmail(l, data.email.value).value
    ensures r.Ok? && FindUserByEmail(l, data.email.value).None? ==>
              && r.value.0.users == l.users[freshId := NewAccount(freshId, data)]
              && r.value.1.id == freshId && r.value.1.credits == InitialCredits
              && r.value.0.purchases == l.purchases && r.value.0.spends == l.spends
              && r.value.0.adjustments == l.adjustments
  {
    if !Truthy(data.email) then Err(EmailRequired)
    else if !connected then Err(DatabaseUnavailable)
    else
      match FindUserByEmail(l, data.email.value)
      case Some(k) => Ok((l, AsAdapterUser(l.users[k], data.email.value)))
      case None =>
        var user := NewAccount(freshId, data);
        Ok((AddUser(l, user), AsAdapterUser(user, data.email.value)))
  }

  /** Provisioning keeps the books: the new account starts at the initial grant with no rows. */
  lemma ProvisionKeepsBooks(l: Ledger, data: UserData, connected: bool, freshId: UserId)
    requires WellFormed(l) && Ledgered(l) && freshId !in l.users
    requires Provision(l, data, connected, freshId).Ok?
    ensures WellFormed(Provision(l, data, connected, freshId).value.0)
    ensures Ledgered(Provision(l, data, connected, freshId).value.0)
  {
    if FindUserByEmail(l, data.email.value).None? {
      AddUserKeepsBooks(l, NewAccount(freshId, data));
    }
  }

  /** At most one account is added, with 500 credits, and no existing account changes. */
  lemma ProvisionGrantsOnce(l: Ledger, data: UserData, connected: bool, freshId: UserId)
    requires WellFormed(l) && freshId !in l.users
    requires Provision(l, data, connected, freshId).Ok?
    ensures var l2 := Provision(l, data, connected, freshId).value.0;
      && (forall k :: k in l.users ==> k in l2.users && l2.users[k] == l.users[k])
      && (forall k :: k in l2.users && k !in l.users ==> k == freshId && l2.users[k].credits == InitialCredits)
  {
  }

  /** Signing in again with the same email finds the account made the first time and changes nothing. */
  lemma ProvisionTwiceIsOnce(l: Ledger, data: UserData, freshId: UserId, laterId: UserId)
    requires WellFormed(l) && Ledgered(l) && freshId !in l.users
    requires Provision(l, data, true, freshId).Ok?
    requires laterId !in Provision(l, data, true, freshId).value.0.users
    ensures var (l2, first) := Provision(l, data, true, freshId).value;
      WellFormed(l2) &&
      var second := Provision(l2, data, true, laterId);
      second.Ok? && second.value.0 == l2 && second.value.1.id == first.id
  {
    ProvisionKeepsBooks(l, data, true, freshId);
    var (l2, first) := Provision(l, data, true, freshId).value;
    var email := data.email.value;
    if FindUserByEmail(l, email).Some? {
      assert l2 == l;
    } else {
      assert l2.users[freshId].email == Some(email);
      assert FindUserByEmail(l2, email) == Some(freshId);
    }
  }

  /** `createUser` against the database. */
  method CreateUser(db: Database, data: UserData, connected: bool, freshId: UserId) returns (r: Result<AdapterUser, Error>)
    requires WellFormed(db.Snapshot()) && freshId !in db.users
    modifies db
    ensures match Provision(old(db.Snapshot()), data, connected, freshId)
            case Ok((l2, user)) => db.Snapshot() == l2 && r == Ok(user)
            case Err(e) => db.Snapshot() == old(db.Snapshot()) && r == Err(e)
  {
    if !Truthy(data.email) {
      return Err(EmailRequired);
    }
    if !connected {
      return Err(DatabaseUnavailable);
    }
    var existing := FindUserByEmail(db.Snapshot(), data.email.value);
    if existing.Some? {
      return Ok(AsAdapterUser(db.users[existing.value], data.email.value));
    }
    var user := NewAccount(freshId, data);
    db.users := db.users[freshId := user];
    r := Ok(AsAdapterUser(user, data.email.value));
  }

  // ---------------------------------------------------------------------------
  // The session callback

  /** The session's `user` object; `id` and `credits` are what the callback fills in. */
  datatype SessionUser = SessionUser(
    id: Option<UserId>,
    credits: Option<int>,
    name: Option<string>,
    email: Option<string>,
    image: Option<string>)

  class Session {
    var user: Option<SessionUser>

    constructor (user: Option<SessionUser>)
      ensures this.user == user
    {
      this.user := user;
    }
  }

  /** `user.credits || 0`, for a balance read from an untyped object (`None` when absent). */
  function SessionCredits(credits: Option<int>): (c: int)
    ensures credits.Some? ==> c == credits.value
    ensures credits.None? ==> c == 0
  {
    if credits.Some? && credits.value != 0 then credits.value else 0
  }

  /** The session user after the callback: id and balance from the account, the rest as it was. */
  function Attached(su: Option<SessionUser>, u: User): (r: Option<SessionUser>)
    ensures r.Some? <==> su.Some?
    ensures r.Some? ==> r.value == su.value.(id := Some(u.id), credits := Some(u.credits))
  {
    match su
    case None => None
    case Some(s) => Some(s.(id := Some(u.id), credits := Some(SessionCredits(Some(u.credits)))))
  }

  /** The `session` callback: it updates `session.user` in place and returns the same session. */
  method SessionCallback(session: Session, user: User) returns (s: Session)
    modifies session
    ensures s == session && session.user == Attached(old(session.user), user)
  {
    if session.user.Some? {
      var su := session.user.value;
      session.user := Some(su.(id := Some(user.id)));
      session.user := Some(session.user.value.(credits := Some(SessionCredits(Some(user.credits)))));
    }
    s := session;
  }
}
