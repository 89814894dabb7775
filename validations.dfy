/** The registration and login schemas of `src/lib/validations/auth.ts`,
    read with Zod's rules: every string check of every field runs and
    reports its own issue; a missing required field makes the object
    invalid outright, so the password-match refinement does not run; the
    refinement runs whenever every field is present. Zod's e-mail and URL
    format checks are parameters. */
module AuthSchema {
  import opened Common

  datatype Field = Name | Username | Email | Password | ConfirmPassword | Bio | Location | Website | Captcha

  datatype Issue = Issue(path: Field, message: string)

  const REQUIRED: string := "Required"
  const NAME_MIN: string := "Nama minimal 2 karakter"
  const NAME_MAX: string := "Nama maksimal 50 karakter"
  const USERNAME_MIN: string := "Username minimal 3 karakter"
  const USERNAME_MAX: string := "Username maksimal 20 karakter"
  const USERNAME_CHARS: string := "Username hanya boleh huruf, angka, dan underscore"
  const EMAIL_REQUIRED: string := "Email wajib diisi"
  const EMAIL_FORMAT: string := "Format email tidak valid"
  const PASSWORD_MIN: string := "Password minimal 8 karakter"
  const PASSWORD_MAX: string := "Password maksimal 128 karakter"
  const CONFIRM_REQUIRED: string := "Konfirmasi password wajib diisi"
  const BIO_MAX: string := "Bio maksimal 200 karakter"
  const LOCATION_MAX: string := "Lokasi maksimal 100 karakter"
  const WEBSITE_FORMAT: string := "Format website tidak valid"
  const CAPTCHA_REQUIRED: string := "Captcha wajib diisi"
  const PASSWORD_MISMATCH: string := "Password dan konfirmasi password tidak cocok"
  const LOGIN_PASSWORD_REQUIRED: string := "Password wajib diisi"

  /** A submitted registration body; `None` is a key that is absent. */
  datatype RegisterInput = RegisterInput(
    name: Option<string>,
    username: Option<string>,
    email: Option<string>,
    password: Option<string>,
    confirmPassword: Option<string>,
    bio: Option<string>,
    location: Option<string>,
    website: Option<string>,
    captcha: Option<string>)

  datatype LoginInput = LoginInput(email: Option<string>, password: Option<string>)

  /** The issue of a failed check, or none. */
  function Check(ok: bool, path: Field, message: string): (r: seq<Issue>)
    ensures ok <==> r == []
    ensures !ok ==> r == [Issue(path, message)]
  {
    if ok then [] else [Issue(path, message)]
  }

  /** A required string field: `Required` when absent, else its checks. */
  function RequiredField(o: Option<string>, path: Field, checks: string -> seq<Issue>): (r: seq<Issue>)
    ensures o.None? ==> r == [Issue(path, REQUIRED)]
    ensures o.Some? ==> r == checks(o.value)
  {
    if o.None? then [Issue(path, REQUIRED)] else checks(o.value)
  }

  /** An optional string field: nothing when absent, else its checks. */
  function OptionalField(o: Option<string>, checks: string -> seq<Issue>): (r: seq<Issue>)
    ensures o.None? ==> r == []
    ensures o.Some? ==> r == checks(o.value)
  {
    if o.None? then [] else checks(o.value)
  }

  function NameIssues(s: string): (r: seq<Issue>)
    ensures r == [] <==> 2 <= |s| <= 50
    ensures forall i :: 0 <= i < |r| ==> r[i].path == Name
  {
    Check(|s| >= 2, Name, NAME_MIN) + Check(|s| <= 50, Name, NAME_MAX)
  }

  /** The regular expression `^[a-zA-Z0-9_]+$`. */
  predicate WordCharsOnly(s: string) {
    |s| > 0 && forall i :: 0 <= i < |s| ==> IsWordChar(s[i])
  }

  function UsernameIssues(s: string): (r: seq<Issue>)
    ensures r == [] <==> 3 <= |s| <= 20 && forall i :: 0 <= i < |s| ==> IsWordChar(s[i])
    ensures forall i :: 0 <= i < |r| ==> r[i].path == Username
  {
    Check(|s| >= 3, Username, USERNAME_MIN) + Check(|s| <= 20, Username, USERNAME_MAX)
      + Check(WordCharsOnly(s), Username, USERNAME_CHARS)
  }

  function EmailIssues(s: string, isEmail: string -> bool): (r: seq<Issue>)
    ensures r == [] <==> s != "" && isEmail(s)
    ensures forall i :: 0 <= i < |r| ==> r[i].path == Email
  {
    Check(|s| >= 1, Email, EMAIL_REQUIRED) + Check(isEmail(s), Email, EMAIL_FORMAT)
  }

  function PasswordIssues(s: string): (r: seq<Issue>)
    ensures r == [] <==> 8 <= |s| <= 128
    ensures forall i :: 0 <= i < |r| ==> r[i].path == Password
  {
    Check(|s| >= 8, Password, PASSWORD_MIN) + Check(|s| <= 128, Password, PASSWORD_MAX)
  }

  function ConfirmIssues(s: string): (r: seq<Issue>)
    ensures r == [] <==> s != ""
  {
    Check(|s| >= 1, ConfirmPassword, CONFIRM_REQUIRED)
  }

  function BioIssues(s: string): (r: seq<Issue>)
    ensures r == [] <==> |s| <= 200
  {
    Check(|s| <= 200, Bio, BIO_MAX)
  }

  function LocationIssues(s: string): (r: seq<Issue>)
    ensures r == [] <==> |s| <= 100
  {
    Check(|s| <= 100, Location, LOCATION_MAX)
  }

  /** `z.string().url().optional().or(z.literal(''))` on a present value:
      the URL branch fails on a non-URL, the literal branch accepts only
      the empty string, and the union reports the URL branch's issue. */
  function WebsiteIssues(s: string, isUrl: string -> bool): (r: seq<Issue>)
    ensures r == [] <==> s == "" || isUrl(s)
  {
    if isUrl(s) || s == "" then [] else [Issue(Website, WEBSITE_FORMAT)]
  }

  function CaptchaIssues(s: string): (r: seq<Issue>)
    ensures r == [] <==> s != ""
  {
    Check(|s| >= 1, Captcha, CAPTCHA_REQUIRED)
  }

  /** Every required field of the registration schema is present. */
  predicate RequiredPresent(input: RegisterInput) {
    input.name.Some? && input.username.Some? && input.email.Some?
    && input.password.Some? && input.confirmPassword.Some?
  }

  /** The issues of the field schemas, in the order the schema lists its keys. */
  function FieldIssues(input: RegisterInput, isEmail: string -> bool, isUrl: string -> bool): seq<Issue> {
    RequiredField(input.name, Name, NameIssues)
    + RequiredField(input.username, Username, UsernameIssues)
    + RequiredField(input.email, Email, s => EmailIssues(s, isEmail))
    + RequiredField(input.password, Password, PasswordIssues)
    + RequiredField(input.confirmPassword, ConfirmPassword, ConfirmIssues)
    + OptionalField(input.bio, BioIssues)
    + OptionalField(input.location, LocationIssues)
    + OptionalField(input.website, s => WebsiteIssues(s, isUrl))
    + OptionalField(input.captcha, CaptchaIssues)
  }

  /** The issue of the `refine` step: it runs unless a required field is
      missing and reports a mismatch on the `confirmPassword` path. */
  function RefineIssues(input: RegisterInput): seq<Issue> {
    if RequiredPresent(input) && input.password.value != input.confirmPassword.value
    then [Issue(ConfirmPassword, PASSWORD_MISMATCH)]
    else []
  }

  /** Every issue `registerSchema.parse` raises; the parse succeeds exactly
      when there is none. */
  function RegisterIssues(input: RegisterInput, isEmail: string -> bool, isUrl: string -> bool): seq<Issue> {
    FieldIssues(input, isEmail, isUrl) + RefineIssues(input)
  }

  /** The registration rules stated field by field, independently of the
      issue lists. */
  predicate RegisterAcceptable(input: RegisterInput, isEmail: string -> bool, isUrl: string -> bool) {
    && RequiredPresent(input)
    && 2 <= |input.name.value| <= 50
    && 3 <= |input.username.value| <= 20
    && (forall i :: 0 <= i < |input.username.value| ==> IsWordChar(input.username.value[i]))
    && input.email.value != "" && isEmail(input.email.value)
    && 8 <= |input.password.value| <= 128
    && input.confirmPassword.value != ""
    && (input.bio.Some? ==> |input.bio.value| <= 200)
    && (input.location.Some? ==> |input.location.value| <= 100)
    && (input.website.Some? ==> input.website.value == "" || isUrl(input.website.value))
    && (input.captcha.Some? ==> input.captcha.value != "")
    && input.password.value == input.confirmPassword.value
  }

  lemma FieldIssuesEmpty(input: RegisterInput, isEmail: string -> bool, isUrl: string -> bool)
    ensures FieldIssues(input, isEmail, isUrl) == [] <==>
      && RequiredPresent(input)
      && NameIssues(input.name.value) == []
      && UsernameIssues(input.username.value) == []
      && EmailIssues(input.email.value, isEmail) == []
      && PasswordIssues(input.password.value) == []
      && ConfirmIssues(input.confirmPassword.value) == []
      && (input.bio.Some? ==> BioIssues(input.bio.value) == [])
      && (input.location.Some? ==> LocationIssues(input.location.value) == [])
      && (input.website.Some? ==> WebsiteIssues(input.website.value, isUrl) == [])
      && (input.captcha.Some? ==> CaptchaIssues(input.captcha.value) == [])
  {
  }

  /** `registerSchema.parse` accepts exactly the inputs that meet the rules. */
  lemma RegisterIssuesEmptyIff(input: RegisterInput, isEmail: string -> bool, isUrl: string -> bool)
    ensures RegisterIssues(input, isEmail, isUrl) == [] <==> RegisterAcceptable(input, isEmail, isUrl)
  {
    FieldIssuesEmpty(input, isEmail, isUrl);
  }

  /** With every field present, different password and confirmation always
      produce the mismatch issue on the `confirmPassword` path, whatever
      else is wrong with the input. */
  lemma MismatchReported(input: RegisterInput, isEmail: string -> bool, isUrl: string -> bool)
    requires RequiredPresent(input)
    requires input.password.value != input.confirmPassword.value
    ensures Issue(ConfirmPassword, PASSWORD_MISMATCH) in RegisterIssues(input, isEmail, isUrl)
    ensures RegisterIssues(input, isEmail, isUrl) != []
  {
    var issues := RegisterIssues(input, isEmail, isUrl);
    assert issues[|issues| - 1] == Issue(ConfirmPassword, PASSWORD_MISMATCH);
  }

  /** A missing required field is reported as `Required` on its own path,
      and the refinement is then skipped. */
  lemma MissingFieldSkipsRefine(input: RegisterInput, isEmail: string -> bool, isUrl: string -> bool)
    requires input.password.None?
    ensures Issue(Password, REQUIRED) in RegisterIssues(input, isEmail, isUrl)
    ensures Issue(ConfirmPassword, PASSWORD_MISMATCH) !in RegisterIssues(input, isEmail, isUrl)
  {
    var a := RequiredField(input.name, Name, NameIssues)
      + RequiredField(input.username, Username, UsernameIssues)
      + RequiredField(input.email, Email, s => EmailIssues(s, isEmail));
    var p := RequiredField(input.password, Password, PasswordIssues);
    assert p == [Issue(Password, REQUIRED)];
    assert FieldIssues(input, isEmail, isUrl)[|a|] == Issue(Password, REQUIRED);
    assert RefineIssues(input) == [];
    FieldIssuesNeverMismatch(input, isEmail, isUrl);
  }

  /** No field check raises the mismatch message. */
  lemma FieldIssuesNeverMismatch(input: RegisterInput, isEmail: string -> bool, isUrl: string -> bool)
    ensures Issue(ConfirmPassword, PASSWORD_MISMATCH) !in FieldIssues(input, isEmail, isUrl)
  {
    var m := Issue(ConfirmPassword, PASSWORD_MISMATCH);
    assert m !in RequiredField(input.name, Name, NameIssues);
    assert m !in RequiredField(input.username, Username, UsernameIssues);
    assert m !in RequiredField(input.email, Email, s => EmailIssues(s, isEmail));
    assert m !in RequiredField(input.password, Password, PasswordIssues);
    assert m !in RequiredField(input.confirmPassword, ConfirmPassword, ConfirmIssues);
    assert m !in OptionalField(input.bio, BioIssues);
    assert m !in OptionalField(input.location, LocationIssues);
    assert m !in OptionalField(input.website, s => WebsiteIssues(s, isUrl));
    assert m !in OptionalField(input.captcha, CaptchaIssues);
  }

  /** The password-match examples: equal strings pass the refinement,
      different ones fail it with the mismatch issue. */
  lemma PasswordMatchExamples(input: RegisterInput, isEmail: string -> bool, isUrl: string -> bool)
    requires RequiredPresent(input)
    ensures input.password.value == "abcd1234" && input.confirmPassword.value == "abcd1234" ==> RefineIssues(input) == []
    ensures input.password.value == "abcd1234" && input.confirmPassword.value == "different" ==>
      RefineIssues(input) == [Issue(ConfirmPassword, PASSWORD_MISMATCH)]
  {
  }

  /** The issues of `loginSchema.parse`. */
  function LoginIssues(input: LoginInput, isEmail: string -> bool): (r: seq<Issue>)
    ensures r == [] <==> Truthy(input.email) && isEmail(input.email.value) && Truthy(input.password)
  {
    RequiredField(input.email, Email, s => EmailIssues(s, isEmail))
    + RequiredField(input.password, Password, s => Check(|s| >= 1, Password, LOGIN_PASSWORD_REQUIRED))
  }

  /** The login schema puts no upper bound on the password: any non-empty
      password with a well-formed e-mail is accepted. */
  lemma LoginPasswordUnbounded(email: string, password: string, isEmail: string -> bool)
    requires email != "" && isEmail(email) && password != ""
    ensures LoginIssues(LoginInput(Some(email), Some(password)), isEmail) == []
  {
  }
}
