/** Authentication: the token blacklist, the user accounts with registration,
    login and token validation, and the middleware that guards every protected
    route. Password hashing and token signing are parameters. */
module Auth {
  import opened Wrappers
  import opened Text
  import opened Tables

  // ---------------------------------------------------------------- blacklist

  /** The in-memory set of invalidated tokens (one per process). */
  class TokenBlacklist {
    var tokens: set<string>

    constructor ()
      ensures tokens == {}
    {
      tokens := {};
    }

    /** `isBlacklisted`. */
    predicate IsBlacklisted(token: string)
      reads this
    {
      token in tokens
    }

    /** `addToken`: the token is blacklisted afterwards and no other token's
        status changes; adding it again changes nothing. */
    method AddToken(token: string)
      modifies this
      ensures IsBlacklisted(token)
      ensures forall t | t != token :: IsBlacklisted(t) == old(IsBlacklisted(t))
      ensures old(IsBlacklisted(token)) ==> tokens == old(tokens)
    {
      tokens := tokens + {token};
    }

    /** `removeToken`: the token is no longer blacklisted and no other token's
        status changes. */
    method RemoveToken(token: string)
      modifies this
      ensures !IsBlacklisted(token)
      ensures forall t | t != token :: IsBlacklisted(t) == old(IsBlacklisted(t))
    {
      tokens := tokens - {token};
    }

    /** `clear`: no token is blacklisted afterwards. */
    method Clear()
      modifies this
      ensures forall t :: !IsBlacklisted(t)
    {
      tokens := {};
    }
  }

  // ---------------------------------------------------------------- users

  datatype User = User(
    id: Id, email: string, username: string, passwordHash: string,
    createdAt: Instant, updatedAt: Instant)

  function UserId(u: User): Id { u.id }
  function UserEmail(u: User): string { u.email }
  function UserName(u: User): string { u.username }

  const UniqueViolationMessage := "Validation error"

  /** The `users` table: ids, emails and usernames are each unique. */
  class UserStore {
    var users: seq<User>
    var nextId: Id

    ghost predicate Valid()
      reads this
    {
      && UniqueKeys(users, UserId) && KeysBelow(users, UserId, nextId)
      && UniqueKeys(users, UserEmail) && UniqueKeys(users, UserName)
    }

    constructor ()
      ensures Valid() && users == [] && nextId == 0
    {
      users := [];
      nextId := 0;
    }

    function FindById(id: Id): (r: Option<User>)
      reads this
      ensures r.Some? ==> r.value in users && r.value.id == id
      ensures r.None? <==> forall i | 0 <= i < |users| :: users[i].id != id
    {
      Find(users, UserId, id)
    }

    function FindByEmail(email: string): (r: Option<User>)
      reads this
      ensures r.Some? ==> r.value in users && r.value.email == email
      ensures r.None? <==> forall i | 0 <= i < |users| :: users[i].email != email
    {
      Find(users, UserEmail, email)
    }

    function FindByUsername(username: string): (r: Option<User>)
      reads this
      ensures r.Some? ==> r.value in users && r.value.username == username
      ensures r.None? <==> forall i | 0 <= i < |users| :: users[i].username != username
    {
      Find(users, UserName, username)
    }

    /** `create`: inserts the user, unless the email or the username is taken,
        which the unique constraints reject. */
    method Create(email: string, username: string, passwordHash: string, now: Instant)
      returns (r: Result<User>)
      requires Valid()
      modifies this
      ensures Valid()
      ensures old(FindByEmail(email)).Some? || old(FindByUsername(username)).Some? ==>
        r == Err(UniqueViolationMessage) && users == old(users) && nextId == old(nextId)
      ensures old(FindByEmail(email)).None? && old(FindByUsername(username)).None? ==>
        && r == Ok(User(old(nextId), email, username, passwordHash, now, now))
        && users == old(users) + [r.value] && nextId == old(nextId) + 1
    {
      if FindByEmail(email).Some? || FindByUsername(username).Some? {
        return Err(UniqueViolationMessage);
      }
      var user := User(nextId, email, username, passwordHash, now, now);
      AppendKeepsKeys(users, UserId, user, nextId);
      users := users + [user];
      nextId := nextId + 1;
      r := Ok(user);
    }
  }

  // ---------------------------------------------------------------- service

  /** bcrypt and JSON Web Tokens, not modelled: `hash` takes the password and
      the salt bcrypt draws; `compare` checks a password against a hash; `sign`
      issues a token for a user id with the secret and lifetime; `verify`
      yields the user id of a token that is well signed and unexpired. */
  datatype Crypto = Crypto(
    hash: (string, string) -> string,
    compare: (string, string) -> bool,
    sign: (Id, string, string) -> string,
    verify: (string, string) -> Option<Id>)

  /** What the service relies on: a password matches its own hash, and a token
      just issued verifies to the id it was issued for. */
  ghost predicate Sound(c: Crypto) {
    && (forall password, salt :: c.compare(password, c.hash(password, salt)))
    && (forall id: Id, secret, lifetime :: c.verify(c.sign(id, secret, lifetime), secret) == Some(id))
  }

  const DefaultJwtSecret := "default-secret-change-this"
  const DefaultJwtLifetime := "7d"
  const InvalidTokenMessage := "Invalid or expired token"
  const EmailTakenMessage := "Email already registered"
  const UsernameTakenMessage := "Username already taken"
  const InvalidCredentialsMessage := "Invalid credentials"

  /** The user as responses show it: never the password hash. */
  datatype PublicUser = PublicUser(id: Id, email: string, username: string)

  datatype AuthResponse = AuthResponse(token: string, user: PublicUser)

  function Public(u: User): PublicUser {
    PublicUser(u.id, u.email, u.username)
  }

  /** An environment setting, where unset and empty both mean the default. */
  function Setting(env: Option<string>, default: string): (r: string)
    ensures env.Some? && env.value != "" ==> r == env.value
    ensures env.None? || env.value == "" ==> r == default
  {
    if env.Some? && env.value != "" then env.value else default
  }

  class AuthService {
    const store: UserStore
    const jwtSecret: string
    const jwtLifetime: string
    const crypto: Crypto

    ghost predicate Valid()
      reads this, store
    {
      store.Valid() && Sound(crypto)
    }

    constructor (store: UserStore, secretEnv: Option<string>, lifetimeEnv: Option<string>, crypto: Crypto)
      requires store.Valid() && Sound(crypto)
      ensures Valid() && this.store == store && this.crypto == crypto
      ensures jwtSecret == Setting(secretEnv, DefaultJwtSecret)
      ensures jwtLifetime == Setting(lifetimeEnv, DefaultJwtLifetime)
    {
      this.store := store;
      this.jwtSecret := Setting(secretEnv, DefaultJwtSecret);
      this.jwtLifetime := Setting(lifetimeEnv, DefaultJwtLifetime);
      this.crypto := crypto;
    }

    function Token(id: Id): string {
      crypto.sign(id, jwtSecret, jwtLifetime)
    }

    /** `validateToken`: the token's user; a bad or expired token and a token
        whose user is gone fail alike. */
    function ValidateToken(token: string): (r: Result<User>)
      reads store
      ensures r.Err? ==> r.message == InvalidTokenMessage
      ensures r.Ok? <==> crypto.verify(token, jwtSecret).Some? && store.FindById(crypto.verify(token, jwtSecret).value).Some?
      ensures r.Ok? ==> r.value in store.users && Some(r.value.id) == crypto.verify(token, jwtSecret)
    {
      match crypto.verify(token, jwtSecret)
      case None => Err(InvalidTokenMessage)
      case Some(id) =>
        match store.FindById(id)
        case None => Err(InvalidTokenMessage)
        case Some(user) => Ok(user)
    }

    /** `login`: an unknown email and a wrong password fail with the same
        message; success answers with a token for the user. */
    function Login(email: string, password: string): (r: Result<AuthResponse>)
      reads store
      ensures r.Err? ==> r.message == InvalidCredentialsMessage
      ensures r.Ok? <==> store.FindByEmail(email).Some? && crypto.compare(password, store.FindByEmail(email).value.passwordHash)
      ensures r.Ok? ==> r.value == AuthResponse(Token(store.FindByEmail(email).value.id), Public(store.FindByEmail(email).value))
    {
      match store.FindByEmail(email)
      case None => Err(InvalidCredentialsMessage)
      case Some(user) =>
        if !crypto.compare(password, user.passwordHash) then Err(InvalidCredentialsMessage)
        else Ok(AuthResponse(Token(user.id), Public(user)))
    }

    /** `register`: a taken email is reported before a taken username, and
        either leaves the store alone; otherwise the user is stored with the
        hash of the password, can log in with it, and the token returned
        validates to them. */
    method Register(email: string, username: string, password: string, salt: string, now: Instant)
      returns (r: Result<AuthResponse>)
      requires Valid()
      modifies store
      ensures Valid()
      ensures old(store.FindByEmail(email)).Some? ==>
        r == Err(EmailTakenMessage) && store.users == old(store.users)
      ensures old(store.FindByEmail(email)).None? && old(store.FindByUsername(username)).Some? ==>
        r == Err(UsernameTakenMessage) && store.users == old(store.users)
      ensures old(store.FindByEmail(email)).None? && old(store.FindByUsername(username)).None? ==>
        && store.users == old(store.users) + [User(old(store.nextId), email, username, crypto.hash(password, salt), now, now)]
        && r == Ok(AuthResponse(Token(old(store.nextId)), PublicUser(old(store.nextId), email, username)))
        && Login(email, password) == r
        && ValidateToken(r.value.token) == Ok(store.users[|store.users| - 1])
    {
      if store.FindByEmail(email).Some? {
        return Err(EmailTakenMessage);
      }
      if store.FindByUsername(username).Some? {
        return Err(UsernameTakenMessage);
      }
      var created := store.Create(email, username, crypto.hash(password, salt), now);
      var user := created.value;
      FindMember(store.users, UserEmail, user);
      FindMember(store.users, UserId, user);
      r := Ok(AuthResponse(Token(user.id), Public(user)));
    }
  }

  // ---------------------------------------------------------------- middleware

  const BearerPrefix := "Bearer "
  const MissingHeaderMessage := "Missing or invalid authorization header"
  const TokenInvalidatedMessage := "Token has been invalidated"

  /** The token of an `Authorization` header: what follows `Bearer ` (exact
      case), or none when the header is absent or has another scheme. */
  function ExtractToken(header: Option<string>): (r: Option<string>)
    ensures r.Some? <==> header.Some? && StartsWith(header.value, BearerPrefix)
    ensures r.Some? ==> header.value == BearerPrefix + r.value
  {
    if header.Some? && header.value != "" && StartsWith(header.value, BearerPrefix)
    then Some(header.value[7..]) else None
  }

  /** Every token comes back out of the header built for it. */
  lemma ExtractBearer(token: string)
    ensures ExtractToken(Some(BearerPrefix + token)) == Some(token)
  {
    assert (BearerPrefix + token)[..7] == BearerPrefix;
  }

  /** The scheme is case-sensitive: a lower-case `bearer` is refused. */
  lemma LowerCaseSchemeRefused(token: string)
    ensures ExtractToken(Some("bearer " + token)) == None
  {
    assert ("bearer " + token)[0] != BearerPrefix[0];
  }

  datatype ErrorResponse = ErrorResponse(status: int, error: string, message: string)

  function Unauthorized(message: string): ErrorResponse {
    ErrorResponse(401, "Unauthorized", message)
  }

  /** One request passing through the middleware: what it attaches to the
      request, the response it sends, and how often it handed on to `next`. */
  class Exchange {
    var user: Option<User>
    var token: Option<string>
    var response: Option<ErrorResponse>
    var nextCalls: nat

    constructor ()
      ensures user.None? && token.None? && response.None? && nextCalls == 0
    {
      user := None;
      token := None;
      response := None;
      nextCalls := 0;
    }
  }

  /** `authMiddleware`: the header, then the blacklist, then validation; each
      failure answers 401 and stops, and only success attaches the user and the
      token and then hands on to `next`, once. */
  method Authenticate(header: Option<string>, blacklist: TokenBlacklist, auth: AuthService, ex: Exchange)
    modifies ex
    ensures ExtractToken(header).None? ==>
      && ex.response == Some(Unauthorized(MissingHeaderMessage))
      && ex.user == old(ex.user) && ex.token == old(ex.token) && ex.nextCalls == old(ex.nextCalls)
    ensures ExtractToken(header).Some? && blacklist.IsBlacklisted(ExtractToken(header).value) ==>
      && ex.response == Some(Unauthorized(TokenInvalidatedMessage))
      && ex.user == old(ex.user) && ex.token == old(ex.token) && ex.nextCalls == old(ex.nextCalls)
    ensures ExtractToken(header).Some? && !blacklist.IsBlacklisted(ExtractToken(header).value)
            && auth.ValidateToken(ExtractToken(header).value).Err? ==>
      && ex.response == Some(Unauthorized(InvalidTokenMessage))
      && ex.user == old(ex.user) && ex.token == old(ex.token) && ex.nextCalls == old(ex.nextCalls)
    ensures ExtractToken(header).Some? && !blacklist.IsBlacklisted(ExtractToken(header).value)
            && auth.ValidateToken(ExtractToken(header).value).Ok? ==>
      && ex.user == Some(auth.ValidateToken(ExtractToken(header).value).value)
      && ex.token == ExtractToken(header)
      && ex.nextCalls == old(ex.nextCalls) + 1
      && ex.response == old(ex.response)
  {
    var token := ExtractToken(header);
    if token.None? {
      ex.response := Some(Unauthorized(MissingHeaderMessage));
      return;
    }
    if blacklist.IsBlacklisted(token.value) {
      ex.response := Some(Unauthorized(TokenInvalidatedMessage));
      return;
    }
    var validated := auth.ValidateToken(token.value);
    if validated.Err? {
      ex.response := Some(Unauthorized(validated.message));
      return;
    }
    ex.user := Some(validated.value);
    ex.token := token;
    ex.nextCalls := ex.nextCalls + 1;
  }
}
