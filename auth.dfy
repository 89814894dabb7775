/** `src/lib/auth.ts`: the `authorize` step of the credentials provider, a
    chain of checks in which every failure becomes `null`, and the `jwt`
    and `session` callbacks that copy the user's claims into the token and
    from the token into the session. The password comparison of bcrypt is
    a parameter; the user lookup reads the user table. */
module Auth {
  import opened Common
  import opened UserModel
  import opened Recaptcha

  const LOGIN_ACTION: string := "login"

  /** The submitted credentials; `None` is a field that was not sent. */
  datatype Credentials = Credentials(email: Option<string>, password: Option<string>, captcha: Option<string>)

  /** `db.user.findUnique({ where: { email } })`. */
  ghost function FindByEmail(users: map<Id, User>, email: string): (r: Option<User>)
    ensures r.None? <==> !EmailTaken(users, email)
    ensures r.Some? ==> r.value.email == email && exists k :: k in users && users[k] == r.value
  {
    if EmailTaken(users, email) then
      var k :| k in users && users[k].email == email;
      Some(users[k])
    else None
  }

  /** Under unique e-mails the lookup finds the one record with that address. */
  lemma FindByEmailUnique(users: map<Id, User>, k: Id)
    requires TableInvariant(users) && k in users
    ensures FindByEmail(users, users[k].email) == Some(users[k])
  {
  }

  /** The reCAPTCHA gate: passed when reCAPTCHA is off, when the token is
      valid, or when the development bypass is on. */
  predicate RecaptchaGate(env: Env, captcha: string, reply: SiteVerifyReply) {
    !IsRecaptchaEnabled(env)
    || ValidateRecaptcha(env.secretKey, captcha, LOGIN_ACTION, env.minScore, reply).isValid
    || SkipDev(env)
  }

  /** `authorize(credentials)`; `None` is the `null` every failure ends in. */
  ghost function Authorize(credentials: Option<Credentials>, env: Env, reply: SiteVerifyReply,
                           users: map<Id, User>, compare: (string, string) -> bool): (r: Option<PublicUser>)
    ensures credentials.None? || !Truthy(credentials.value.captcha) ==> r.None?
    ensures r.Some? ==>
      && RecaptchaGate(env, credentials.value.captcha.value, reply)
      && credentials.value.email.Some?
      && Truthy(credentials.value.password)
      && exists k :: k in users && users[k].email == credentials.value.email.value
           && compare(credentials.value.password.value, users[k].password)
           && r.value == Strip(users[k])
  {
    if credentials.None? || !Truthy(credentials.value.captcha) then None
    else
      var c := credentials.value;
      if !RecaptchaGate(env, c.captcha.value, reply) then None
      // An absent e-mail is an invalid `where` argument; the error is caught.
      else if c.email.None? then None
      else
        match FindByEmail(users, c.email.value)
        case None => None
        case Some(u) =>
          if !Truthy(c.password) then None
          else if !compare(c.password.value, u.password) then None
          else Some(Strip(u))
  }

  /** The whole decision for a known address, on a table with unique
      e-mails: sign-in succeeds with that user, password stripped, exactly
      when the captcha is present, the gate passes, a password is given and
      it matches the stored hash. `isActive` plays no part. */
  lemma AuthorizeKnownEmail(c: Credentials, env: Env, reply: SiteVerifyReply,
                            users: map<Id, User>, compare: (string, string) -> bool, k: Id)
    requires TableInvariant(users) && k in users && c.email == Some(users[k].email)
    ensures Authorize(Some(c), env, reply, users, compare) ==
      if Truthy(c.captcha) && RecaptchaGate(env, c.captcha.value, reply) && Truthy(c.password)
         && compare(c.password.value, users[k].password)
      then Some(Strip(users[k]))
      else None
  {
    FindByEmailUnique(users, k);
  }

  /** An address with no record is refused whatever the password and the
      hash comparison say. */
  lemma UnknownEmailRefused(c: Credentials, env: Env, reply: SiteVerifyReply,
                            users: map<Id, User>, compare: (string, string) -> bool)
    requires c.email.Some? && !EmailTaken(users, c.email.value)
    ensures Authorize(Some(c), env, reply, users, compare).None?
  {
  }

  /** A failed reCAPTCHA verdict refuses the sign-in unless the development
      bypass is on. */
  lemma FailedRecaptchaRefused(c: Credentials, env: Env, reply: SiteVerifyReply,
                               users: map<Id, User>, compare: (string, string) -> bool)
    requires Truthy(c.captcha) && IsRecaptchaEnabled(env) && !SkipDev(env)
    requires !ValidateRecaptcha(env.secretKey, c.captcha.value, LOGIN_ACTION, env.minScore, reply).isValid
    ensures Authorize(Some(c), env, reply, users, compare).None?
  {
  }

  /** With reCAPTCHA off only the presence of the captcha matters, not its content. */
  lemma CaptchaContentIgnoredWhenDisabled(c: Credentials, other: string, env: Env, reply: SiteVerifyReply,
                                          users: map<Id, User>, compare: (string, string) -> bool)
    requires !IsRecaptchaEnabled(env) && Truthy(c.captcha) && other != ""
    ensures Authorize(Some(c), env, reply, users, compare) ==
      Authorize(Some(c.(captcha := Some(other))), env, reply, users, compare)
  {
  }

  /** A soft-deleted account still signs in with its password. */
  lemma SoftDeletedUserSignsIn(c: Credentials, env: Env, reply: SiteVerifyReply,
                               users: map<Id, User>, compare: (string, string) -> bool, k: Id)
    requires TableInvariant(users) && k in users && !users[k].isActive
    requires c.email == Some(users[k].email) && Truthy(c.captcha) && !IsRecaptchaEnabled(env)
    requires Truthy(c.password) && compare(c.password.value, users[k].password)
    ensures Authorize(Some(c), env, reply, users, compare) == Some(Strip(users[k]))
    ensures !Authorize(Some(c), env, reply, users, compare).value.isActive
  {
    AuthorizeKnownEmail(c, env, reply, users, compare, k);
  }

  /** The fourteen claims the callbacks copy. */
  datatype Claims = Claims(
    id: string,
    email: string,
    username: string,
    name: string,
    avatar: string,
    bio: string,
    location: string,
    website: string,
    joinedAt: Time,
    followers: int,
    following: int,
    posts: int,
    isActive: bool,
    emailVerified: bool)

  /** The claims of a signed-in user. */
  function ClaimsOf(u: PublicUser): (c: Claims)
    ensures c.id == u.id && c.email == u.email && c.username == u.username && c.name == u.name
    ensures c.avatar == u.avatar && c.bio == u.bio && c.location == u.location && c.website == u.website
    ensures c.joinedAt == u.joinedAt && c.followers == u.followers && c.following == u.following
    ensures c.posts == u.posts && c.isActive == u.isActive && c.emailVerified == u.emailVerified
  {
    Claims(u.id, u.email, u.username, u.name, u.avatar, u.bio, u.location, u.website,
           u.joinedAt, u.followers, u.following, u.posts, u.isActive, u.emailVerified)
  }

  /** The JWT of a session: the fourteen claims plus the library's own
      claims (`sub`, `iat`, `exp`, ...), which the callbacks never touch. */
  class Token {
    var id: string
    var email: string
    var username: string
    var name: string
    var avatar: string
    var bio: string
    var location: string
    var website: string
    var joinedAt: Time
    var followers: int
    var following: int
    var posts: int
    var isActive: bool
    var emailVerified: bool
    var standardClaims: map<string, string>

    constructor (initial: Claims, standard: map<string, string>)
      ensures ClaimSet() == initial && standardClaims == standard
    {
      id, email, username, name := initial.id, initial.email, initial.username, initial.name;
      avatar, bio, location, website := initial.avatar, initial.bio, initial.location, initial.website;
      joinedAt, followers, following, posts := initial.joinedAt, initial.followers, initial.following, initial.posts;
      isActive, emailVerified := initial.isActive, initial.emailVerified;
      standardClaims := standard;
    }

    function ClaimSet(): Claims
      reads this
    {
      Claims(id, email, username, name, avatar, bio, location, website,
             joinedAt, followers, following, posts, isActive, emailVerified)
    }

    /** The `jwt` callback: copy the claims of `user` when there is one. */
    method Jwt(user: Option<PublicUser>)
      modifies this
      ensures user.Some? ==> ClaimSet() == ClaimsOf(user.value)
      ensures user.None? ==> ClaimSet() == old(ClaimSet())
      ensures standardClaims == old(standardClaims)
    {
      if user.Some? {
        var u := user.value;
        id := u.id;
        email := u.email;
        username := u.username;
        name := u.name;
        avatar := u.avatar;
        bio := u.bio;
        location := u.location;
        website := u.website;
        joinedAt := u.joinedAt;
        followers := u.followers;
        following := u.following;
        posts := u.posts;
        isActive := u.isActive;
        emailVerified := u.emailVerified;
      }
    }
  }

  /** `session.user`. */
  class SessionUser {
    var id: string
    var email: string
    var username: string
    var name: string
    var avatar: string
    var bio: string
    var location: string
    var website: string
    var joinedAt: Time
    var followers: int
    var following: int
    var posts: int
    var isActive: bool
    var emailVerified: bool

    constructor (initial: Claims)
      ensures ClaimSet() == initial
    {
      id, email, username, name := initial.id, initial.email, initial.username, initial.name;
      avatar, bio, location, website := initial.avatar, initial.bio, initial.location, initial.website;
      joinedAt, followers, following, posts := initial.joinedAt, initial.followers, initial.following, initial.posts;
      isActive, emailVerified := initial.isActive, initial.emailVerified;
    }

    function ClaimSet(): Claims
      reads this
    {
      Claims(id, email, username, name, avatar, bio, location, website,
             joinedAt, followers, following, posts, isActive, emailVerified)
    }
  }

  /** The `session` callback: copy the token's claims into `session.user`
      when there is a token. */
  method Session(sessionUser: SessionUser, token: Token?)
    modifies sessionUser
    ensures token != null ==> sessionUser.ClaimSet() == token.ClaimSet()
    ensures token == null ==> sessionUser.ClaimSet() == old(sessionUser.ClaimSet())
  {
    if token != null {
      sessionUser.id := token.id;
      sessionUser.email := token.email;
      sessionUser.username := token.username;
      sessionUser.name := token.name;
      sessionUser.avatar := token.avatar;
      sessionUser.bio := token.bio;
      sessionUser.location := token.location;
      sessionUser.website := token.website;
      sessionUser.joinedAt := token.joinedAt;
      sessionUser.followers := token.followers;
      sessionUser.following := token.following;
      sessionUser.posts := token.posts;
      sessionUser.isActive := token.isActive;
      sessionUser.emailVerified := token.emailVerified;
    }
  }

  /** Sign-in followed by a session read: every copied field of
      `session.user` is the signed-in user's. */
  method SignInThenRead(token: Token, sessionUser: SessionUser, user: PublicUser)
    modifies token, sessionUser
    ensures sessionUser.ClaimSet() == ClaimsOf(user)
    ensures token.standardClaims == old(token.standardClaims)
  {
    token.Jwt(Some(user));
    Session(sessionUser, token);
  }
}
