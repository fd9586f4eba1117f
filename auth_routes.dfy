/** The decision logic of `backend/routes/auth.js`: the signup and login rule tables, the
    duplicate-email check, the credential check and the token each success issues. */
module AuthRoutes {
  import opened Common
  import opened JsStrings

  /** The library and model code the handlers call that is not part of this model:
      express-validator's `isEmail` and `normalizeEmail`, and the user model's password
      hashing and `comparePassword`. */
  datatype AuthChecks = AuthChecks(
    isEmail: string -> bool,
    normalizeEmail: string -> string,
    hash: string -> string,
    comparePassword: (string, string) -> bool)  // (stored hash, candidate)

  datatype SignupBody = SignupBody(email: Option<string>, password: Option<string>, name: Option<string>)
  datatype LoginBody = LoginBody(email: Option<string>, password: Option<string>)

  const PasswordMinLength: nat := 6
  const NameMinLength: nat := 2

  const BadEmail := Violation("email", "Please enter a valid email address")
  const ShortPassword := Violation("password", "Password must be at least 6 characters long")
  const DigitlessPassword := Violation("password", "Password must contain at least one number")
  const ShortName := Violation("name", "Name must be at least 2 characters long")
  const MissingPassword := Violation("password", "Password is required")

  function EmailRule(email: Option<string>, ac: AuthChecks): seq<Violation> {
    if ac.isEmail(Text(email)) then [] else [BadEmail]
  }

  /** Both password validators run, so a short password without a digit gets two messages. */
  function PasswordRule(password: Option<string>): seq<Violation> {
    (if |Text(password)| >= PasswordMinLength then [] else [ShortPassword])
    + (if HasDigit(Text(password)) then [] else [DigitlessPassword])
  }

  /** The name length is checked as sent, before `.trim()`. */
  function NameRule(name: Option<string>): seq<Violation> {
    if |Text(name)| >= NameMinLength then [] else [ShortName]
  }

  /** `signupValidation`. */
  function SignupErrors(b: SignupBody, ac: AuthChecks): seq<Violation> {
    EmailRule(b.email, ac) + PasswordRule(b.password) + NameRule(b.name)
  }

  /** `loginValidation`: a valid email and a non-empty password. */
  function LoginErrors(b: LoginBody, ac: AuthChecks): seq<Violation> {
    EmailRule(b.email, ac) + (if |Text(b.password)| > 0 then [] else [MissingPassword])
  }

  /** A signup passes exactly when the email is an email, the password has at least six
      characters including a digit, and the name at least two characters. */
  lemma SignupAcceptsIff(b: SignupBody, ac: AuthChecks)
    ensures SignupErrors(b, ac) == [] <==>
      && ac.isEmail(Text(b.email))
      && b.password.Some? && |b.password.value| >= PasswordMinLength && HasDigit(b.password.value)
      && b.name.Some? && |b.name.value| >= NameMinLength
  {
  }

  /** A password of six letters is refused for want of a digit, and only for that. */
  lemma SixLettersLackDigit()
    ensures PasswordRule(Some("abcdef")) == [DigitlessPassword]
  {
    assert !HasDigit("abcdef") by {
      forall i | 0 <= i < 6 ensures !IsDigit("abcdef"[i]) { }
    }
  }

  lemma LoginAcceptsIff(b: LoginBody, ac: AuthChecks)
    ensures LoginErrors(b, ac) == [] <==>
      ac.isEmail(Text(b.email)) && b.password.Some? && b.password.value != []
  {
  }

  /** The claims of a signed token; the signature and the secret are not modelled. */
  datatype Token = Token(userId: UserId, expiresIn: string)

  const DefaultExpiry: string := "7d"

  /** `process.env.JWT_EXPIRES_IN || '7d'`: an unset or empty setting falls back to seven days. */
  function ExpiryOf(config: Option<string>): (e: string)
    ensures e != []
    ensures config.Some? && config.value != [] ==> e == config.value
    ensures config.None? || config.value == [] ==> e == DefaultExpiry
  {
    if config.None? || config.value == [] then DefaultExpiry else config.value
  }

  /** `generateToken(userId)`. */
  function Issue(userId: UserId, config: Option<string>): (t: Token)
    ensures t.userId == userId
    ensures t.expiresIn == ExpiryOf(config)
    ensures config.None? ==> t.expiresIn == DefaultExpiry
  {
    Token(userId, ExpiryOf(config))
  }

  datatype User = User(id: UserId, email: string, passwordHash: string, name: string)

  /** The `{ user, token }` payload of a successful signup or login. */
  datatype Session = Session(user: User, token: Token)

  /** `User.findOne({ email })`: the first stored user with that email. */
  function FindByEmail(users: seq<User>, email: string): (r: Option<nat>)
    ensures r.Some? ==> r.value < |users| && users[r.value].email == email
    ensures r.None? <==> forall i :: 0 <= i < |users| ==> users[i].email != email
  {
    if users == [] then None
    else if users[0].email == email then Some(0)
    else match FindByEmail(users[1..], email)
      case None => None
      case Some(i) => Some(i + 1)
  }

  predicate UniqueEmails(users: seq<User>) {
    forall i, j :: 0 <= i < j < |users| ==> users[i].email != users[j].email
  }

  /** The user table: ids and normalised emails are unique. */
  class UserTable {
    var users: seq<User>
    var nextId: UserId

    ghost predicate Valid()
      reads this
    {
      && UniqueEmails(users)
      && forall i :: 0 <= i < |users| ==> users[i].id < nextId
    }

    constructor ()
      ensures Valid() && users == [] && nextId == 0
    {
      users := [];
      nextId := 0;
    }

    /** `POST /api/auth/signup`. */
    method Signup(b: SignupBody, ac: AuthChecks, config: Option<string>) returns (r: Result<Session>)
      requires Valid()
      modifies this
      ensures Valid()
      ensures SignupErrors(b, ac) != [] ==> r == Err(Invalid(SignupErrors(b, ac)))
      ensures SignupErrors(b, ac) == [] && FindByEmail(old(users), ac.normalizeEmail(Text(b.email))).Some? ==>
        r == Err(BadRequest(DuplicateEmail))
      ensures r.Err? ==> users == old(users) && nextId == old(nextId)
      ensures SignupErrors(b, ac) == [] && FindByEmail(old(users), ac.normalizeEmail(Text(b.email))).None? ==> r.Ok?
      ensures r.Ok? ==>
        && SignupErrors(b, ac) == []
        && r.value.user == User(old(nextId), ac.normalizeEmail(Text(b.email)), ac.hash(b.password.value), Trim(b.name.value))
        && r.value.token == Issue(r.value.user.id, config)
        && (forall u :: u in old(users) ==> u.id != r.value.user.id && u.email != r.value.user.email)
        && users == old(users) + [r.value.user]
    {
      var errors := SignupErrors(b, ac);
      if errors != [] {
        return Err(Invalid(errors));
      }
      var email := ac.normalizeEmail(Text(b.email));
      if FindByEmail(users, email).Some? {
        return Err(BadRequest(DuplicateEmail));
      }
      var user := User(nextId, email, ac.hash(b.password.value), Trim(b.name.value));
      users := users + [user];
      nextId := nextId + 1;
      r := Ok(Session(user, Issue(user.id, config)));
    }

    /** `POST /api/auth/login`. */
    function Login(b: LoginBody, ac: AuthChecks, config: Option<string>): (r: Result<Session>)
      reads this
      requires Valid()
      ensures LoginErrors(b, ac) != [] ==> r == Err(Invalid(LoginErrors(b, ac)))
      ensures LoginErrors(b, ac) == [] ==>
        (r.Ok? <==> exists i :: (0 <= i < |users|
           && users[i].email == ac.normalizeEmail(Text(b.email))
           && ac.comparePassword(users[i].passwordHash, Text(b.password))))
      ensures LoginErrors(b, ac) == [] && r.Err? ==> r == Err(Unauthorized(InvalidCredentials))
      ensures r.Ok? ==>
        && r.value.user in users
        && r.value.user.email == ac.normalizeEmail(Text(b.email))
        && r.value.token == Issue(r.value.user.id, config)
    {
      var errors := LoginErrors(b, ac);
      if errors != [] then Err(Invalid(errors))
      else
        match FindByEmail(users, ac.normalizeEmail(Text(b.email)))
        case None => Err(Unauthorized(InvalidCredentials))
        case Some(i) =>
          if !ac.comparePassword(users[i].passwordHash, b.password.value) then Err(Unauthorized(InvalidCredentials))
          else Ok(Session(users[i], Issue(users[i].id, config)))
    }
  }
}
