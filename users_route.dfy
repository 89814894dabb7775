/** `src/app/api/users/route.ts`: registration (`POST`), a sequence of
    rejections followed by one insert, and the listing (`GET`), a
    projection without passwords. The reCAPTCHA reply, the bcrypt hash,
    `encodeURIComponent`, Zod's format checks, the id and timestamps the
    database assigns and the schema's column defaults are inputs. */
module UsersRoute {
  import opened Common
  import opened UserModel
  import opened Http
  import opened Recaptcha
  import opened AuthSchema

  const REGISTER_ACTION: string := "register"
  const BCRYPT_ROUNDS: int := 12
  const VALIDATION_FAILED_MESSAGE: string := "Validasi gagal"
  const TOKEN_MISSING: string := "reCAPTCHA token tidak tersedia"
  const CAPTCHA_INVALID: string := "Captcha tidak valid"
  const EMAIL_TAKEN: string := "Email sudah terdaftar"
  const USERNAME_TAKEN: string := "Username sudah digunakan"
  const REGISTERED: string := "Registrasi berhasil"
  const LISTED: string := "Users retrieved successfully"
  const AVATAR_PREFIX: string := "https://ui-avatars.com/api/?name="
  const AVATAR_SUFFIX: string := "&background=random"

  /** Column values the database fills in on `create`. */
  datatype ColumnDefaults = ColumnDefaults(
    followers: int, following: int, posts: int, isActive: bool, emailVerified: bool)

  /** Everything outside the handler that a registration consults. */
  datatype Services = Services(
    env: Env,
    reply: SiteVerifyReply,
    isEmail: string -> bool,
    isUrl: string -> bool,
    hash: (string, int) -> string,
    encode: string -> string,
    newId: Id,
    now: Time,
    defaults: ColumnDefaults)

  /** The default avatar: it depends on the display name alone. */
  function AvatarUrl(name: string, encode: string -> string): (r: string)
    ensures StartsWith(r, AVATAR_PREFIX)
    ensures r[|AVATAR_PREFIX|..] == encode(name) + AVATAR_SUFFIX
  {
    AVATAR_PREFIX + encode(name) + AVATAR_SUFFIX
  }

  /** The record `db.user.create` receives for a validated body. */
  function NewRecord(input: RegisterInput, s: Services): (u: User)
    requires RequiredPresent(input)
    ensures u.id == s.newId && u.email == input.email.value && u.username == input.username.value
    ensures u.name == input.name.value && u.password == s.hash(input.password.value, BCRYPT_ROUNDS)
    ensures u.bio == Or(input.bio, "") && u.location == Or(input.location, "") && u.website == Or(input.website, "")
    ensures u.avatar == AvatarUrl(input.name.value, s.encode)
  {
    User(s.newId, input.email.value, input.username.value, s.hash(input.password.value, BCRYPT_ROUNDS),
         input.name.value, Or(input.bio, ""), Or(input.location, ""), Or(input.website, ""),
         AvatarUrl(input.name.value, s.encode), s.now,
         s.defaults.followers, s.defaults.following, s.defaults.posts,
         s.defaults.isActive, s.defaults.emailVerified, s.now, s.now)
  }

  function Reject(status: int, message: string): Response {
    Response(status, message, NoPayload)
  }

  /** `POST` on table `users`: the response and the table afterwards.
      `body` is `None` when the request body is not valid JSON. */
  function Register(users: map<Id, User>, body: Option<RegisterInput>, s: Services): (r: (Response, map<Id, User>))
    ensures r.0.status != 200 ==> r.1 == users
    ensures r.0.status == 200 ==>
      && body.Some? && RegisterAcceptable(body.value, s.isEmail, s.isUrl)
      && s.newId !in users
      && r.1 == users[s.newId := NewRecord(body.value, s)]
      && r.0.payload == PublicRecord(Strip(NewRecord(body.value, s)))
    ensures !ExposesPassword(r.0.payload)
    ensures TableInvariant(users) ==> TableInvariant(r.1)
  {
    if body.None? then (Reject(500, SERVER_ERROR), users)
    else
      var input := body.value;
      var issues := RegisterIssues(input, s.isEmail, s.isUrl);
      if issues != [] then (Response(400, VALIDATION_FAILED_MESSAGE, ValidationIssues(issues)), users)
      else if !Truthy(input.captcha) then (Reject(400, TOKEN_MISSING), users)
      else
        var verdict := ValidateRecaptcha(s.env.secretKey, input.captcha.value, REGISTER_ACTION, s.env.minScore, s.reply);
        if !verdict.isValid && !SkipDev(s.env) then (Reject(400, Or(verdict.error, CAPTCHA_INVALID)), users)
        else if EmailTaken(users, input.email.value) then (Reject(400, EMAIL_TAKEN), users)
        else if UsernameTaken(users, input.username.value) then (Reject(400, USERNAME_TAKEN), users)
        else
          RegisterIssuesEmptyIff(input, s.isEmail, s.isUrl);
          var u := NewRecord(input, s);
          // An id the table already holds makes `create` throw; the handler answers 500.
          if s.newId in users then (Reject(500, SERVER_ERROR), users)
          else
            (Response(200, REGISTERED, PublicRecord(Strip(u))), users[s.newId := u])
  }

  /** A body that fails the schema is refused with its issues before the
      token is looked at. */
  lemma SchemaCheckedFirst(users: map<Id, User>, input: RegisterInput, s: Services)
    requires RegisterIssues(input, s.isEmail, s.isUrl) != []
    ensures Register(users, Some(input), s) ==
      (Response(400, VALIDATION_FAILED_MESSAGE, ValidationIssues(RegisterIssues(input, s.isEmail, s.isUrl))), users)
  {
  }

  /** A valid body without a token is refused. */
  lemma TokenRequired(users: map<Id, User>, input: RegisterInput, s: Services)
    requires RegisterIssues(input, s.isEmail, s.isUrl) == [] && input.captcha.None?
    ensures Register(users, Some(input), s) == (Reject(400, TOKEN_MISSING), users)
  {
  }

  /** A failed reCAPTCHA verdict is refused with the verdict's error,
      unless the development bypass is on. */
  lemma RecaptchaRefusal(users: map<Id, User>, input: RegisterInput, s: Services)
    requires RegisterIssues(input, s.isEmail, s.isUrl) == [] && Truthy(input.captcha)
    requires !ValidateRecaptcha(s.env.secretKey, input.captcha.value, REGISTER_ACTION, s.env.minScore, s.reply).isValid
    requires !SkipDev(s.env)
    ensures Register(users, Some(input), s) ==
      (Reject(400, ValidateRecaptcha(s.env.secretKey, input.captcha.value, REGISTER_ACTION, s.env.minScore, s.reply).error.value), users)
  {
    var e := ValidateRecaptcha(s.env.secretKey, input.captcha.value, REGISTER_ACTION, s.env.minScore, s.reply).error.value;
    assert e != "" by {
      var reply := s.reply;
      if Truthy(s.env.secretKey) && |input.captcha.value| >= MIN_TOKEN_LENGTH && reply.Reply? && reply.ok && reply.body.Some? {
        assert e == Or(JoinedCodes(reply.body.value.errorCodes), VALIDATION_FAILED);
      }
    }
  }

  /** The e-mail check comes before the username check: a taken address
      is reported even when the username is new. */
  lemma DuplicateEmailFirst(users: map<Id, User>, input: RegisterInput, s: Services)
    requires RegisterIssues(input, s.isEmail, s.isUrl) == [] && Truthy(input.captcha)
    requires ValidateRecaptcha(s.env.secretKey, input.captcha.value, REGISTER_ACTION, s.env.minScore, s.reply).isValid
             || SkipDev(s.env)
    requires EmailTaken(users, input.email.value)
    ensures Register(users, Some(input), s) == (Reject(400, EMAIL_TAKEN), users)
  {
  }

  lemma DuplicateUsername(users: map<Id, User>, input: RegisterInput, s: Services)
    requires RegisterIssues(input, s.isEmail, s.isUrl) == [] && Truthy(input.captcha)
    requires ValidateRecaptcha(s.env.secretKey, input.captcha.value, REGISTER_ACTION, s.env.minScore, s.reply).isValid
             || SkipDev(s.env)
    requires !EmailTaken(users, input.email.value) && UsernameTaken(users, input.username.value)
    ensures Register(users, Some(input), s) == (Reject(400, USERNAME_TAKEN), users)
  {
  }

  /** A registration that gets past every check adds exactly one record,
      and the table keeps unique e-mails and usernames. */
  lemma SuccessAddsOneRecord(users: map<Id, User>, input: RegisterInput, s: Services)
    requires TableInvariant(users)
    requires RegisterIssues(input, s.isEmail, s.isUrl) == [] && Truthy(input.captcha)
    requires ValidateRecaptcha(s.env.secretKey, input.captcha.value, REGISTER_ACTION, s.env.minScore, s.reply).isValid
             || SkipDev(s.env)
    requires !EmailTaken(users, input.email.value) && !UsernameTaken(users, input.username.value)
    requires s.newId !in users
    ensures Register(users, Some(input), s).0.status == 200
    ensures |Register(users, Some(input), s).1| == |users| + 1
    ensures TableInvariant(Register(users, Some(input), s).1)
  {
    RegisterIssuesEmptyIff(input, s.isEmail, s.isUrl);
    InsertKeepsInvariant(users, NewRecord(input, s));
  }

  /** Two registrations in a row can never leave two records with one
      e-mail address: the second is refused or uses another address. */
  lemma SequentialRegistrationsUnique(users: map<Id, User>, b1: RegisterInput, b2: RegisterInput, s1: Services, s2: Services)
    requires TableInvariant(users)
    requires Register(users, Some(b1), s1).0.status == 200
    requires Register(Register(users, Some(b1), s1).1, Some(b2), s2).0.status == 200
    ensures b1.email.value != b2.email.value && b1.username.value != b2.username.value
  {
    var mid := Register(users, Some(b1), s1).1;
    assert mid[s1.newId].email == b1.email.value;
    assert mid[s1.newId].username == b1.username.value;
    assert !EmailTaken(mid, b2.email.value) by {
      RegisterIssuesEmptyIff(b2, s2.isEmail, s2.isUrl);
    }
    assert !UsernameTaken(mid, b2.username.value) by {
      RegisterIssuesEmptyIff(b2, s2.isEmail, s2.isUrl);
    }
  }

  /** The `POST` handler over the table. */
  method Post(table: UserTable, body: Option<RegisterInput>, s: Services) returns (resp: Response)
    requires table.Valid()
    modifies table
    ensures table.Valid()
    ensures (resp, table.users) == Register(old(table.users), body, s)
  {
    if body.None? {
      return Reject(500, SERVER_ERROR);
    }
    var input := body.value;
    var issues := RegisterIssues(input, s.isEmail, s.isUrl);
    if issues != [] {
      return Response(400, VALIDATION_FAILED_MESSAGE, ValidationIssues(issues));
    }
    var token := input.captcha;
    if !Truthy(token) {
      return Reject(400, TOKEN_MISSING);
    }
    var verdict := ValidateRecaptcha(s.env.secretKey, token.value, REGISTER_ACTION, s.env.minScore, s.reply);
    if !verdict.isValid && !SkipDev(s.env) {
      return Reject(400, Or(verdict.error, CAPTCHA_INVALID));
    }
    if EmailTaken(table.users, input.email.value) {
      return Reject(400, EMAIL_TAKEN);
    }
    if UsernameTaken(table.users, input.username.value) {
      return Reject(400, USERNAME_TAKEN);
    }
    RegisterIssuesEmptyIff(input, s.isEmail, s.isUrl);
    var newUser := NewRecord(input, s);
    var created := table.Create(newUser);
    if !created {
      return Reject(500, SERVER_ERROR);
    }
    resp := Response(200, REGISTERED, PublicRecord(Strip(newUser)));
  }

  /** `GET`: every record, projected without its password. */
  function ListUsers(users: map<Id, User>): (r: Response)
    ensures r.status == 200 && r.payload.PublicList?
    ensures r.payload.users.Keys == users.Keys
    ensures forall k :: k in users ==> r.payload.users[k] == Strip(users[k])
    ensures !ExposesPassword(r.payload)
  {
    Response(200, LISTED, PublicList(map k | k in users :: Strip(users[k])))
  }
}
