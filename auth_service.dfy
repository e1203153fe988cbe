/**
 * backend/app/services/auth_service.py: sign-up with unique email and nickname,
 * login and token refresh. Password hashing and token encoding are parameters:
 * `hash` and `verify` stand for bcrypt, `encode` and `decode` for the signed
 * tokens, whose `typ` claim is the token kind.
 */
module AuthService {
  import opened Entities
  import opened Errors
  import opened Database

  datatype TokenKind = Access | Refresh

  datatype SignupData = SignupData(email: string, nickname: string, password: string)

  datatype LoginData = LoginData(email: string, password: string)

  /** An (access, refresh) pair for one subject. */
  datatype TokenPair = TokenPair(access: string, refresh: string)

  /**
   * The `TokenResponse` body the auth router answers with: it declares the access
   * token and the token type only, so a refresh token passed to it is dropped.
   */
  datatype TokenResponse = TokenResponse(accessToken: string, tokenType: string)

  /** The first account in table order that satisfies `p`. */
  function FindUser(users: seq<User>, p: User -> bool): (r: Option<User>)
    ensures r.None? <==> forall i :: 0 <= i < |users| ==> !p(users[i])
    ensures r.Some? ==> r.value in users && p(r.value)
  {
    if users == [] then None
    else if p(users[0]) then Some(users[0])
    else
      assert forall i :: 1 <= i < |users| ==> users[i] == users[1..][i - 1];
      FindUser(users[1..], p)
  }

  function WithEmail(email: string): User -> bool {
    (u: User) => u.email == email
  }

  function WithNickname(nickname: string): User -> bool {
    (u: User) => u.nickname == nickname
  }

  function WithId(userId: int): User -> bool {
    (u: User) => u.id == userId
  }

  /**
   * `signup`: 409 if the email is taken (checked first), 409 if the nickname is
   * taken; otherwise a USER-role account storing the password's hash.
   */
  function SignupOutcome(t: Tables, data: SignupData, hash: string -> string): (r: Result<(Tables, User)>)
    ensures FindUser(t.users, WithEmail(data.email)).Some? ==> r == Err(ServiceError(409, "Email already exists"))
    ensures FindUser(t.users, WithEmail(data.email)).None? && FindUser(t.users, WithNickname(data.nickname)).Some? ==>
              r == Err(ServiceError(409, "Nickname already exists"))
    ensures r.Ok? <==> (forall u :: u in t.users ==> u.email != data.email && u.nickname != data.nickname)
    ensures r.Ok? ==> var (t1, user) := r.value;
              && user == User(t.nextId, data.email, data.nickname, hash(data.password), Member)
              && t1 == t.(users := t.users + [user], nextId := t.nextId + 1)
  {
    if FindUser(t.users, WithEmail(data.email)).Some? then Err(ServiceError(409, "Email already exists"))
    else if FindUser(t.users, WithNickname(data.nickname)).Some? then Err(ServiceError(409, "Nickname already exists"))
    else
      var user := User(t.nextId, data.email, data.nickname, hash(data.password), Member);
      Ok((t.(users := t.users + [user], nextId := t.nextId + 1), user))
  }

  method Signup(db: Session, data: SignupData, hash: string -> string) returns (r: Result<User>)
    modifies db
    ensures db.Snapshot() == After(old(db.Snapshot()), SignupOutcome(old(db.Snapshot()), data, hash))
    ensures r == Returned(SignupOutcome(old(db.Snapshot()), data, hash))
  {
    if FindUser(db.users, WithEmail(data.email)).Some? {
      return Err(ServiceError(409, "Email already exists"));
    }
    if FindUser(db.users, WithNickname(data.nickname)).Some? {
      return Err(ServiceError(409, "Nickname already exists"));
    }
    var user := User(db.nextId, data.email, data.nickname, hash(data.password), Member);
    db.users := db.users + [user];
    db.nextId := db.nextId + 1;
    r := Ok(user);
  }

  /** `issue_tokens`: both tokens name the same subject. */
  function IssueTokens(userId: int, encode: (int, TokenKind) -> string): (r: TokenPair)
    ensures r.access == encode(userId, Access) && r.refresh == encode(userId, Refresh)
  {
    TokenPair(encode(userId, Access), encode(userId, Refresh))
  }

  /** `login`: an unknown email and a wrong password get the same 401. */
  function LoginOutcome(t: Tables, data: LoginData, verify: (string, string) -> bool,
                        encode: (int, TokenKind) -> string): (r: Result<TokenPair>)
    ensures r.Err? ==> r.error == ServiceError(401, "Invalid email or password")
    ensures r.Ok? <==> var u := FindUser(t.users, WithEmail(data.email));
                       u.Some? && verify(data.password, u.value.passwordHash)
    ensures r.Ok? ==> r.value == IssueTokens(FindUser(t.users, WithEmail(data.email)).value.id, encode)
  {
    match FindUser(t.users, WithEmail(data.email))
    case None => Err(ServiceError(401, "Invalid email or password"))
    case Some(user) =>
      if !verify(data.password, user.passwordHash) then Err(ServiceError(401, "Invalid email or password"))
      else Ok(IssueTokens(user.id, encode))
  }

  /** `refresh`: a token that does not decode as a refresh token, or names no account, gets 401. */
  function RefreshOutcome(t: Tables, token: string, decode: (string, TokenKind) -> Option<int>,
                          encode: (int, TokenKind) -> string): (r: Result<TokenPair>)
    ensures decode(token, Refresh).None? ==> r == Err(ServiceError(401, "Invalid refresh token"))
    ensures decode(token, Refresh).Some? && FindUser(t.users, WithId(decode(token, Refresh).value)).None? ==>
              r == Err(ServiceError(401, "User not found"))
    ensures r.Ok? <==> decode(token, Refresh).Some? && FindUser(t.users, WithId(decode(token, Refresh).value)).Some?
    ensures r.Ok? ==> decode(token, Refresh).Some? && r.value == IssueTokens(decode(token, Refresh).value, encode)
  {
    match decode(token, Refresh)
    case None => Err(ServiceError(401, "Invalid refresh token"))
    case Some(userId) =>
      match FindUser(t.users, WithId(userId))
      case None => Err(ServiceError(401, "User not found"))
      case Some(user) => Ok(IssueTokens(user.id, encode))
  }

  lemma {:induction false} FindUserAppend(users: seq<User>, x: User, p: User -> bool)
    requires forall i :: 0 <= i < |users| ==> !p(users[i])
    requires p(x)
    ensures FindUser(users + [x], p) == Some(x)
  {
    if users != [] {
      assert (users + [x])[1..] == users[1..] + [x];
      FindUserAppend(users[1..], x, p);
    }
  }

  /** Whoever signs up can log in with the same email and password. */
  lemma SignupThenLogin(t: Tables, data: SignupData, hash: string -> string, verify: (string, string) -> bool,
                        encode: (int, TokenKind) -> string)
    requires SignupOutcome(t, data, hash).Ok?
    requires verify(data.password, hash(data.password))
    ensures var (t1, user) := SignupOutcome(t, data, hash).value;
            LoginOutcome(t1, LoginData(data.email, data.password), verify, encode) == Ok(IssueTokens(user.id, encode))
  {
    var (t1, user) := SignupOutcome(t, data, hash).value;
    FindUserAppend(t.users, user, WithEmail(data.email));
  }

  // ---------------------------------------------------------------- token creation as written

  /**
   * The token lifetimes `Settings` offers (backend/app/core/config.py): the access
   * lifetime, and the refresh lifetime when a setting of that name is declared.
   */
  datatype TokenSettings = TokenSettings(accessMinutes: int, refreshMinutes: Option<int>)

  /** `Settings` as declared: 120 minutes for access tokens, and no refresh lifetime at all. */
  function DeclaredSettings(): TokenSettings {
    TokenSettings(120, None)
  }

  /**
   * `issue_tokens` as written: `create_refresh_token` is called without a lifetime and so
   * reads `settings.jwt_refresh_expire_minutes`. Reading a setting that is not declared
   * raises AttributeError, for which `None` stands.
   */
  function IssueTokensAsWritten(userId: int, s: TokenSettings, encode: (int, TokenKind) -> string): (r: Option<TokenPair>)
    ensures r.None? <==> s.refreshMinutes.None?
    ensures r.Some? ==> r.value.access == encode(userId, Access) && r.value.refresh == encode(userId, Refresh)
  {
    match s.refreshMinutes
    case None => None
    case Some(_) => Some(IssueTokens(userId, encode))
  }

  /**
   * `POST /auth/login` over `login` as written, once the router module imports: a
   * ServiceError is re-raised, the AttributeError from token creation is answered with
   * the generic 500, and a token pair becomes a `TokenResponse` without the refresh token.
   */
  function LoginAsWritten(t: Tables, data: LoginData, verify: (string, string) -> bool,
                          encode: (int, TokenKind) -> string, s: TokenSettings): (r: Reply<TokenResponse>)
    ensures r.Raised? <==> LoginOutcome(t, data, verify, encode).Err?
    ensures r.Raised? ==> r.exc == ReRaise(ServiceError(401, "Invalid email or password"))
    ensures r.Crashed? <==> LoginOutcome(t, data, verify, encode).Ok? && s.refreshMinutes.None?
    ensures r.Answer? ==> r.value == TokenResponse(LoginOutcome(t, data, verify, encode).value.access, "bearer")
  {
    match FindUser(t.users, WithEmail(data.email))
    case None => Raised(ReRaise(ServiceError(401, "Invalid email or password")))
    case Some(user) =>
      if !verify(data.password, user.passwordHash) then Raised(ReRaise(ServiceError(401, "Invalid email or password")))
      else
        match IssueTokensAsWritten(user.id, s, encode)
        case None => Crashed
        case Some(tokens) => Answer(TokenResponse(tokens.access, "bearer"))
  }

  /**
   * With the settings as declared, correct credentials never get tokens: whoever signs up
   * and then logs in with the same email and password gets the generic 500.
   */
  lemma SignupThenLoginCrashes(t: Tables, data: SignupData, hash: string -> string, verify: (string, string) -> bool,
                               encode: (int, TokenKind) -> string)
    requires SignupOutcome(t, data, hash).Ok?
    requires verify(data.password, hash(data.password))
    ensures var (t1, _) := SignupOutcome(t, data, hash).value;
            LoginAsWritten(t1, LoginData(data.email, data.password), verify, encode, DeclaredSettings()) == Crashed
  {
    SignupThenLogin(t, data, hash, verify, encode);
  }

  /**
   * The refresh token `issue_tokens` hands out refreshes to a fresh pair for the same
   * account, and an access token is refused, given tokens that decode to what they
   * encode and carry their kind.
   */
  lemma RefreshRoundTrip(t: Tables, userId: int, decode: (string, TokenKind) -> Option<int>,
                         encode: (int, TokenKind) -> string)
    requires forall id, k, k' :: decode(encode(id, k), k') == if k == k' then Some(id) else None
    requires exists u :: u in t.users && u.id == userId
    ensures RefreshOutcome(t, IssueTokens(userId, encode).refresh, decode, encode) == Ok(IssueTokens(userId, encode))
    ensures RefreshOutcome(t, IssueTokens(userId, encode).access, decode, encode) == Err(ServiceError(401, "Invalid refresh token"))
  {
    assert decode(encode(userId, Refresh), Refresh) == Some(userId);
    assert decode(encode(userId, Access), Refresh) == None;
    var u :| u in t.users && u.id == userId;
    assert FindUser(t.users, WithId(userId)).Some?;
  }
}
