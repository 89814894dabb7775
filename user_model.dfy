/** The user record the route handlers and the credential check read and
    write, its projection without the password hash, and the user table of
    the database client (`db.user`) as a map from id to record. The table
    enforces the uniqueness of `email` and `username` the way the
    database's unique constraints do: a write that would break it fails. */
module UserModel {
  import opened Common

  type Id = string

  datatype User = User(
    id: Id,
    email: string,
    username: string,
    password: string,
    name: string,
    bio: string,
    location: string,
    website: string,
    avatar: string,
    joinedAt: Time,
    followers: int,
    following: int,
    posts: int,
    isActive: bool,
    emailVerified: bool,
    createdAt: Time,
    updatedAt: Time)

  /** A record with its `password` taken out (`const { password, ...rest } = user`),
      which is also the field list of the handlers' `select` projections. */
  datatype PublicUser = PublicUser(
    id: Id,
    email: string,
    username: string,
    name: string,
    bio: string,
    location: string,
    website: string,
    avatar: string,
    joinedAt: Time,
    followers: int,
    following: int,
    posts: int,
    isActive: bool,
    emailVerified: bool,
    createdAt: Time,
    updatedAt: Time)

  function Strip(u: User): PublicUser {
    PublicUser(u.id, u.email, u.username, u.name, u.bio, u.location, u.website, u.avatar,
               u.joinedAt, u.followers, u.following, u.posts, u.isActive, u.emailVerified,
               u.createdAt, u.updatedAt)
  }

  /** Put a password back into a projected record. */
  function WithPassword(p: PublicUser, password: string): User {
    User(p.id, p.email, p.username, password, p.name, p.bio, p.location, p.website, p.avatar,
         p.joinedAt, p.followers, p.following, p.posts, p.isActive, p.emailVerified,
         p.createdAt, p.updatedAt)
  }

  /** Stripping loses the password and nothing else: the record is the
      projection plus its password, and the projection does not depend on it. */
  lemma StripKeepsEverythingElse(u: User, other: string)
    ensures WithPassword(Strip(u), u.password) == u
    ensures Strip(WithPassword(Strip(u), other)) == Strip(u)
    ensures Strip(u.(password := other)) == Strip(u)
  {
  }

  predicate EmailTaken(users: map<Id, User>, email: string) {
    exists k :: k in users && users[k].email == email
  }

  predicate UsernameTaken(users: map<Id, User>, username: string) {
    exists k :: k in users && users[k].username == username
  }

  /** No record other than `id` uses `email`. */
  predicate EmailFreeFor(users: map<Id, User>, email: string, id: Id) {
    forall k :: k in users && k != id ==> users[k].email != email
  }

  predicate UsernameFreeFor(users: map<Id, User>, username: string, id: Id) {
    forall k :: k in users && k != id ==> users[k].username != username
  }

  /** Every record sits under its own id, and no two records share an
      e-mail address or a username. */
  ghost predicate TableInvariant(users: map<Id, User>) {
    && (forall k :: k in users ==> users[k].id == k)
    && (forall a, b :: a in users && b in users && users[a].email == users[b].email ==> a == b)
    && (forall a, b :: a in users && b in users && users[a].username == users[b].username ==> a == b)
  }

  /** Adding a record with a fresh id, e-mail and username keeps the invariant. */
  lemma InsertKeepsInvariant(users: map<Id, User>, u: User)
    requires TableInvariant(users)
    requires u.id !in users && !EmailTaken(users, u.email) && !UsernameTaken(users, u.username)
    ensures TableInvariant(users[u.id := u])
    ensures |users[u.id := u]| == |users| + 1
  {
  }

  /** Replacing a record by one with the same id and unused e-mail and
      username keeps the invariant. */
  lemma ReplaceKeepsInvariant(users: map<Id, User>, u: User)
    requires TableInvariant(users) && u.id in users
    requires EmailFreeFor(users, u.email, u.id) && UsernameFreeFor(users, u.username, u.id)
    ensures TableInvariant(users[u.id := u])
  {
  }

  /** A record that keeps its own e-mail and username never collides. */
  lemma OwnKeysFree(users: map<Id, User>, id: Id)
    requires TableInvariant(users) && id in users
    ensures EmailFreeFor(users, users[id].email, id)
    ensures UsernameFreeFor(users, users[id].username, id)
  {
  }

  /** The `db.user` table. */
  class UserTable {
    var users: map<Id, User>

    ghost predicate Valid()
      reads this
    {
      TableInvariant(users)
    }

    constructor ()
      ensures Valid() && users == map[]
    {
      users := map[];
    }

    /** `db.user.create`: fails on a taken id, e-mail or username. */
    method Create(u: User) returns (ok: bool)
      requires Valid()
      modifies this
      ensures Valid()
      ensures ok <==> u.id !in old(users) && !EmailTaken(old(users), u.email) && !UsernameTaken(old(users), u.username)
      ensures users == if ok then old(users)[u.id := u] else old(users)
    {
      ok := u.id !in users && !EmailTaken(users, u.email) && !UsernameTaken(users, u.username);
      if ok {
        InsertKeepsInvariant(users, u);
        users := users[u.id := u];
      }
    }

    /** `db.user.update` on `where: { id: u.id }`: fails on an unknown id or
        on an e-mail or username another record uses. */
    method Update(u: User) returns (ok: bool)
      requires Valid()
      modifies this
      ensures Valid()
      ensures ok <==> u.id in old(users) && EmailFreeFor(old(users), u.email, u.id) && UsernameFreeFor(old(users), u.username, u.id)
      ensures users == if ok then old(users)[u.id := u] else old(users)
    {
      ok := u.id in users && EmailFreeFor(users, u.email, u.id) && UsernameFreeFor(users, u.username, u.id);
      if ok {
        ReplaceKeepsInvariant(users, u);
        users := users[u.id := u];
      }
    }
  }
}
