/** The in-memory authentication routes of server/routes/auth.ts: a registry
    of users keyed by email and a table of issued tokens, with the signup,
    login and current-user handlers. Password hashing is a deterministic
    function supplied from outside (PBKDF2 with a fixed salt in the source);
    user ids, timestamps and tokens arrive as parameters. */
module AuthRoutes {
  import opened Text

  datatype Role = Ngo | Funder

  datatype User = User(
    id: string,
    email: string,
    name: string,
    role: Role,
    profileComplete: bool,
    verified: bool,
    createdAt: string,
    updatedAt: string)

  /** What the registry keeps: the public user and the password hash. */
  datatype UserRecord = UserRecord(user: User, passwordHash: string)

  datatype SignupRequest = SignupRequest(email: string, password: string, name: string, role: string)

  datatype LoginRequest = LoginRequest(email: string, password: string)

  datatype AuthResponse = AuthResponse(user: User, token: string)

  datatype AuthError = ValidationFailed | EmailAlreadyRegistered | InvalidCredentials | MissingToken | InvalidToken

  datatype Result<T> = Success(value: T) | Failure(error: AuthError)

  /** The HTTP status each outcome is answered with. */
  function ErrorStatus(e: AuthError): (code: int)
    ensures code == 400 <==> e == ValidationFailed || e == EmailAlreadyRegistered
    ensures code == 401 <==> e == InvalidCredentials || e == MissingToken || e == InvalidToken
  {
    match e
    case ValidationFailed => 400
    case EmailAlreadyRegistered => 400
    case InvalidCredentials => 401
    case MissingToken => 401
    case InvalidToken => 401
  }

  // ---------------------------------------------------------------------
  // Request schemas

  /** A simplified e-mail shape: one '@', a non-empty local part, a domain
      of non-empty dot-separated labels ending in a label of two or more
      characters, and no whitespace. */
  predicate IsEmail(s: string) {
    var parts := SplitOn(s, "@");
    && |parts| == 2
    && parts[0] != ""
    && (forall i :: 0 <= i < |s| ==> !IsWhitespace(s[i]))
    && var labels := SplitOn(parts[1], ".");
       && |labels| >= 2
       && (forall k :: 0 <= k < |labels| ==> labels[k] != "")
       && |labels[|labels| - 1]| >= 2
  }

  /** `z.enum(["ngo", "funder"])` */
  function ParseRole(s: string): (r: Option<Role>)
    ensures r == Some(Ngo) <==> s == "ngo"
    ensures r == Some(Funder) <==> s == "funder"
    ensures r.None? <==> s != "ngo" && s != "funder"
  {
    if s == "ngo" then Some(Ngo) else if s == "funder" then Some(Funder) else None
  }

  /** SignUpSchema: an e-mail, a password of at least 6 characters, a
      non-empty name and a known role. */
  predicate ValidSignup(req: SignupRequest) {
    IsEmail(req.email) && |req.password| >= 6 && |req.name| >= 1 && ParseRole(req.role).Some?
  }

  /** LoginSchema: an e-mail and a non-empty password. */
  predicate ValidLogin(req: LoginRequest) {
    IsEmail(req.email) && |req.password| >= 1
  }

  // ---------------------------------------------------------------------
  // The handlers on a snapshot of the two maps

  datatype Store = Store(users: map<string, UserRecord>, tokens: map<string, User>)

  datatype Step<T> = Step(store: Store, result: Result<T>)

  /** Every user is filed under its own e-mail, and every token resolves to
      the public part of a registered user's record. */
  ghost predicate Consistent(s: Store) {
    && (forall e :: e in s.users ==> s.users[e].user.email == e)
    && (forall t :: t in s.tokens ==> s.tokens[t].email in s.users && s.users[s.tokens[t].email].user == s.tokens[t])
  }

  /** The maps only ever grow. */
  ghost predicate Grows(before: Store, after: Store) {
    before.users.Keys <= after.users.Keys && before.tokens.Keys <= after.tokens.Keys
  }

  /** verifyPassword: the stored hash equals the hash of the attempt. */
  predicate VerifyPassword(hash: string -> string, password: string, stored: string) {
    stored == hash(password)
  }

  /** The two timestamps are two separate reads of the clock. */
  function NewUser(req: SignupRequest, userId: string, createdNow: string, updatedNow: string): (u: User)
    requires ParseRole(req.role).Some?
    ensures u.id == userId && u.email == req.email && u.name == req.name
    ensures Some(u.role) == ParseRole(req.role) && !u.profileComplete && !u.verified
    ensures u.createdAt == createdNow && u.updatedAt == updatedNow
  {
    User(userId, req.email, req.name, ParseRole(req.role).value, false, false, createdNow, updatedNow)
  }

  /** handleSignup */
  function Signup(s: Store, hash: string -> string, req: SignupRequest, userId: string,
                  createdNow: string, updatedNow: string, token: string): (r: Step<AuthResponse>)
    ensures !ValidSignup(req) ==> r == Step(s, Failure(ValidationFailed))
    ensures ValidSignup(req) && req.email in s.users ==> r == Step(s, Failure(EmailAlreadyRegistered))
    ensures ValidSignup(req) && req.email !in s.users ==>
              r.result == Success(AuthResponse(NewUser(req, userId, createdNow, updatedNow), token))
    ensures r.result.Success? ==>
              && req.email !in s.users
              && r.result.value.user.email == req.email
              && r.store.users == s.users[req.email := UserRecord(r.result.value.user, hash(req.password))]
              && r.store.tokens == s.tokens[token := r.result.value.user]
              && r.result.value.token == token
    ensures r.result.Failure? ==> r.store == s
  {
    if !ValidSignup(req) then Step(s, Failure(ValidationFailed))
    else if req.email in s.users then Step(s, Failure(EmailAlreadyRegistered))
    else
      var user := NewUser(req, userId, createdNow, updatedNow);
      Step(Store(s.users[req.email := UserRecord(user, hash(req.password))], s.tokens[token := user]),
           Success(AuthResponse(user, token)))
  }

  /** handleLogin */
  function Login(s: Store, hash: string -> string, req: LoginRequest, token: string): (r: Step<AuthResponse>)
    ensures !ValidLogin(req) ==> r == Step(s, Failure(ValidationFailed))
    ensures ValidLogin(req) && req.email !in s.users ==> r == Step(s, Failure(InvalidCredentials))
    ensures (ValidLogin(req) && req.email in s.users && !VerifyPassword(hash, req.password, s.users[req.email].passwordHash))
              ==> r == Step(s, Failure(InvalidCredentials))
    ensures (ValidLogin(req) && req.email in s.users && VerifyPassword(hash, req.password, s.users[req.email].passwordHash))
              ==> r.result.Success?
    ensures r.result.Success? ==>
              && req.email in s.users
              && r.result.value == AuthResponse(s.users[req.email].user, token)
              && r.store == Store(s.users, s.tokens[token := s.users[req.email].user])
  {
    if !ValidLogin(req) then Step(s, Failure(ValidationFailed))
    else if req.email !in s.users then Step(s, Failure(InvalidCredentials))
    else
      var record := s.users[req.email];
      if !VerifyPassword(hash, req.password, record.passwordHash) then Step(s, Failure(InvalidCredentials))
      else Step(Store(s.users, s.tokens[token := record.user]), Success(AuthResponse(record.user, token)))
  }

  /** handleGetCurrentUser: the token is the Authorization header with its
      first "Bearer " removed; a missing or empty token and an unknown
      token are both refused. */
  function CurrentUser(tokens: map<string, User>, authorization: Option<string>): (r: Result<User>)
    ensures authorization.None? ==> r == Failure(MissingToken)
    ensures r.Success? ==> exists t :: t in tokens && tokens[t] == r.value
    ensures authorization.Some? ==>
              var t := ReplaceFirst(authorization.value, "Bearer ", "");
              && (t == "" ==> r == Failure(MissingToken))
              && (t != "" && t !in tokens ==> r == Failure(InvalidToken))
              && (t != "" && t in tokens ==> r == Success(tokens[t]))
  {
    var token := if authorization.Some? then ReplaceFirst(authorization.value, "Bearer ", "") else "";
    if token == "" then Failure(MissingToken)
    else if token !in tokens then Failure(InvalidToken)
    else Success(tokens[token])
  }

  // ---------------------------------------------------------------------
  // Properties of the handlers

  /** hashPassword is deterministic, so a password verifies against its own hash. */
  lemma VerifyOwnHash(hash: string -> string, password: string)
    ensures VerifyPassword(hash, password, hash(password))
  {
  }

  lemma SignupKeepsConsistent(s: Store, hash: string -> string, req: SignupRequest, userId: string,
                              createdNow: string, updatedNow: string, token: string)
    requires Consistent(s)
    ensures Consistent(Signup(s, hash, req, userId, createdNow, updatedNow, token).store)
    ensures Grows(s, Signup(s, hash, req, userId, createdNow, updatedNow, token).store)
  {
    var r := Signup(s, hash, req, userId, createdNow, updatedNow, token);
    if r.result.Success? {
      var u := r.result.value.user;
      forall t | t in r.store.tokens
        ensures r.store.tokens[t].email in r.store.users && r.store.users[r.store.tokens[t].email].user == r.store.tokens[t]
      {
        if t != token {
          assert s.tokens[t].email in s.users;
          assert s.tokens[t].email != req.email;
        }
      }
    }
  }

  lemma LoginKeepsConsistent(s: Store, hash: string -> string, req: LoginRequest, token: string)
    requires Consistent(s)
    ensures Consistent(Login(s, hash, req, token).store)
    ensures Grows(s, Login(s, hash, req, token).store)
  {
  }

  /** A fresh signup can log in at once with the same credentials and gets
      back the user the signup created. */
  lemma {:induction false} LoginAfterSignup(s: Store, hash: string -> string, req: SignupRequest, userId: string,
                                            createdNow: string, updatedNow: string,
                                            token: string, token2: string)
    requires Signup(s, hash, req, userId, createdNow, updatedNow, token).result.Success?
    ensures var signed := Signup(s, hash, req, userId, createdNow, updatedNow, token);
            Login(signed.store, hash, LoginRequest(req.email, req.password), token2).result
            == Success(AuthResponse(signed.result.value.user, token2))
  {
    var signed := Signup(s, hash, req, userId, createdNow, updatedNow, token);
    assert ValidSignup(req);
    assert signed.store.users[req.email] == UserRecord(signed.result.value.user, hash(req.password));
  }

  /** The token a login hands out, sent back as "Bearer <token>", identifies
      the user who logged in. */
  lemma {:induction false} TokenIdentifiesUser(s: Store, hash: string -> string, req: LoginRequest, token: string)
    requires token != ""
    requires Login(s, hash, req, token).result.Success?
    ensures var r := Login(s, hash, req, token);
            CurrentUser(r.store.tokens, Some("Bearer " + token)) == Success(r.result.value.user)
  {
    StripLeading("Bearer ", token);
  }

  // ---------------------------------------------------------------------
  // The module-global maps

  class AuthRegistry {
    var users: map<string, UserRecord>
    var tokens: map<string, User>
    const hash: string -> string

    ghost predicate Valid()
      reads this
    {
      Consistent(Store(users, tokens))
    }

    constructor (hash: string -> string)
      ensures Valid() && this.hash == hash
      ensures users == map[] && tokens == map[]
    {
      this.hash := hash;
      users := map[];
      tokens := map[];
    }

    method HandleSignup(req: SignupRequest, userId: string, createdNow: string, updatedNow: string, token: string)
      returns (r: Result<AuthResponse>)
      requires Valid()
      modifies this
      ensures Valid()
      ensures Grows(Store(old(users), old(tokens)), Store(users, tokens))
      ensures Step(Store(users, tokens), r) == Signup(Store(old(users), old(tokens)), hash, req, userId, createdNow, updatedNow, token)
    {
      SignupKeepsConsistent(Store(users, tokens), hash, req, userId, createdNow, updatedNow, token);
      if !ValidSignup(req) {
        return Failure(ValidationFailed);
      }
      if req.email in users {
        return Failure(EmailAlreadyRegistered);
      }
      var user := NewUser(req, userId, createdNow, updatedNow);
      users := users[req.email := UserRecord(user, hash(req.password))];
      tokens := tokens[token := user];
      r := Success(AuthResponse(user, token));
    }

    method HandleLogin(req: LoginRequest, token: string) returns (r: Result<AuthResponse>)
      requires Valid()
      modifies this
      ensures Valid()
      ensures Grows(Store(old(users), old(tokens)), Store(users, tokens))
      ensures Step(Store(users, tokens), r) == Login(Store(old(users), old(tokens)), hash, req, token)
    {
      LoginKeepsConsistent(Store(users, tokens), hash, req, token);
      if !ValidLogin(req) {
        return Failure(ValidationFailed);
      }
      if req.email !in users {
        return Failure(InvalidCredentials);
      }
      var record := users[req.email];
      if !VerifyPassword(hash, req.password, record.passwordHash) {
        return Failure(InvalidCredentials);
      }
      tokens := tokens[token := record.user];
      r := Success(AuthResponse(record.user, token));
    }

    method HandleGetCurrentUser(authorization: Option<string>) returns (r: Result<User>)
      requires Valid()
      ensures r == CurrentUser(tokens, authorization)
      ensures r.Success? ==> r.value.email in users && users[r.value.email].user == r.value
    {
      var token := if authorization.Some? then ReplaceFirst(authorization.value, "Bearer ", "") else "";
      if token == "" {
        return Failure(MissingToken);
      }
      if token !in tokens {
        return Failure(InvalidToken);
      }
      r := Success(tokens[token]);
    }
  }
}
