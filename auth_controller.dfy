/** Account registration and the refresh-token session of
    backend/controllers/authController.js. Each user record holds at most one
    refresh token; login stores a new one, refresh accepts only the stored one
    and replaces it, logout clears it.

    Signing is modelled by a counter: every pair of tokens carries a serial no
    earlier token has, and a token "verifies" when it was signed with the
    refresh secret. Password hashing is an injective digest. */
module AuthController {
  import opened Wrappers

  /** A user's `_id`: their position in the collection. */
  type UserId = nat

  datatype Secret = AccessSecret | RefreshSecret

  /** A signed token: the secret that signed it, the user id in its payload,
      and the serial that tells it apart from every other token. */
  datatype Token = Token(secret: Secret, user: UserId, serial: nat)

  /** A stored password hash. */
  datatype Digest = Digest(password: string)

  function Hash(password: string): Digest
  {
    Digest(password)
  }

  /** `bcrypt.compare`. */
  predicate Matches(password: string, d: Digest)
  {
    Hash(password) == d
  }

  datatype User = User(name: string, email: string, password: Digest, refreshToken: Option<Token>)

  /** The user collection, the tokens signed so far, and the next serial. */
  datatype AuthState = AuthState(users: seq<User>, signed: set<Token>, serial: nat)

  /** What a handler answers. */
  datatype Reply =
    | Registered                                 // 201 "User registered successfully"
    | AlreadyExists                              // 400 "User already exists"
    | InvalidCredentials                         // 400 "Invalid credentials"
    | LoggedIn(access: Token, refresh: Token)    // 200, refresh token set as cookie
    | NoRefreshToken                             // 401 "No refresh token provided"
    | InvalidRefreshToken                        // 403 "Invalid refresh token"
    | TokenExpiredOrInvalid                      // 403 "Token expired or invalid"
    | Refreshed(access: Token, refresh: Token)   // 200, refresh token set as cookie
    | LoggedOut                                  // 200, cookie cleared
    | ServerError                                // 500 with the thrown message

  function Status(r: Reply): (code: nat)
    ensures code == 200 <==> r.LoggedIn? || r.Refreshed? || r.LoggedOut?
    ensures code == 201 <==> r.Registered?
    ensures code == 400 <==> r.AlreadyExists? || r.InvalidCredentials?
    ensures code == 401 <==> r.NoRefreshToken?
    ensures code == 403 <==> r.InvalidRefreshToken? || r.TokenExpiredOrInvalid?
    ensures code == 500 <==> r.ServerError?
  {
    match r
    case Registered => 201
    case AlreadyExists => 400
    case InvalidCredentials => 400
    case LoggedIn(_, _) => 200
    case NoRefreshToken => 401
    case InvalidRefreshToken => 403
    case TokenExpiredOrInvalid => 403
    case Refreshed(_, _) => 200
    case LoggedOut => 200
    case ServerError => 500
  }

  datatype Outcome = Outcome(reply: Reply, state: AuthState)

  /** `User.findOne({ email })`: the first user with that email. */
  function FindByEmail(users: seq<User>, email: string): (r: Option<UserId>)
    ensures r.Some? ==> r.value < |users| && users[r.value].email == email
    ensures r.Some? ==> forall j :: 0 <= j < r.value ==> users[j].email != email
    ensures r.None? <==> forall j :: 0 <= j < |users| ==> users[j].email != email
  {
    if users == [] then None
    else if users[0].email == email then Some(0)
    else
      match FindByEmail(users[1..], email)
      case None => None
      case Some(j) => Some(j + 1)
  }

  /** `jwt.verify(token, JWT_REFRESH_SECRET)` succeeds. */
  predicate Verifies(s: AuthState, t: Token)
  {
    t in s.signed && t.secret == RefreshSecret
  }

  /** `t` is the token stored on the user it names. */
  predicate Stored(s: AuthState, t: Token)
  {
    t.user < |s.users| && s.users[t.user].refreshToken == Some(t)
  }

  /** The bookkeeping the session rules rely on: serials are fresh, each
      stored token is a refresh token signed for its own user, and no two
      users share an email. */
  predicate Valid(s: AuthState)
  {
    && (forall t :: t in s.signed ==> t.serial < s.serial)
    && (forall u :: 0 <= u < |s.users| && s.users[u].refreshToken.Some? ==>
          var t := s.users[u].refreshToken.value;
          t in s.signed && t.user == u && t.secret == RefreshSecret)
    && (forall i, j :: 0 <= i < j < |s.users| ==> s.users[i].email != s.users[j].email)
  }

  /** `generateTokens(userId)` followed by storing the refresh token on the user. */
  function StartSession(s: AuthState, u: UserId): (o: (Token, Token, AuthState))
    requires u < |s.users|
    ensures o.0.user == u && o.1.user == u && o.0.secret == AccessSecret && o.1.secret == RefreshSecret
    ensures o.2.signed == s.signed + {o.0, o.1} && o.2.serial > s.serial
    ensures o.0 !in s.signed && o.1 !in s.signed <== Valid(s)
    ensures |o.2.users| == |s.users| && o.2.users[u] == s.users[u].(refreshToken := Some(o.1))
    ensures forall j :: 0 <= j < |s.users| && j != u ==> o.2.users[j] == s.users[j]
  {
    var access := Token(AccessSecret, u, s.serial);
    var refresh := Token(RefreshSecret, u, s.serial);
    (access, refresh,
     AuthState(s.users[u := s.users[u].(refreshToken := Some(refresh))],
               s.signed + {access, refresh}, s.serial + 1))
  }

  /** `register`. A missing password makes hashing throw. */
  function RegisterStep(s: AuthState, name: string, email: string, password: Option<string>): (o: Outcome)
    ensures o.reply.Registered? <==> password.Some? && forall j :: 0 <= j < |s.users| ==> s.users[j].email != email
    ensures (exists j :: 0 <= j < |s.users| && s.users[j].email == email) ==> o == Outcome(AlreadyExists, s)
    ensures o.reply.Registered? ==>
      o.state == s.(users := s.users + [User(name, email, Hash(password.value), None)])
    ensures !o.reply.Registered? ==> o.state == s
  {
    if FindByEmail(s.users, email).Some? then Outcome(AlreadyExists, s)
    else if password.None? then Outcome(ServerError, s)
    else Outcome(Registered, s.(users := s.users + [User(name, email, Hash(password.value), None)]))
  }

  /** `login`. An unknown email and a wrong password get the same answer; a
      missing password makes the comparison throw. */
  function LoginStep(s: AuthState, email: string, password: Option<string>): (o: Outcome)
    ensures FindByEmail(s.users, email).None? ==> o == Outcome(InvalidCredentials, s)
    ensures o.reply.LoggedIn? <==>
      var u := FindByEmail(s.users, email);
      u.Some? && password.Some? && Matches(password.value, s.users[u.value].password)
    ensures o.reply.LoggedIn? ==>
      var u := FindByEmail(s.users, email).value;
      && o.reply.refresh.user == u && o.reply.access.user == u
      && o.state == StartSession(s, u).2 && Stored(o.state, o.reply.refresh)
    ensures password.Some? && !o.reply.LoggedIn? ==> o == Outcome(InvalidCredentials, s)
    ensures password.None? ==> o.state == s && (o.reply.InvalidCredentials? || o.reply.ServerError?)
  {
    match FindByEmail(s.users, email)
    case None => Outcome(InvalidCredentials, s)
    case Some(u) =>
      if password.None? then Outcome(ServerError, s)
      else if !Matches(password.value, s.users[u].password) then Outcome(InvalidCredentials, s)
      else
        var (access, refresh, s') := StartSession(s, u);
        Outcome(LoggedIn(access, refresh), s')
  }

  /** `refresh`, given the refresh-token cookie if the request has one. */
  function RefreshStep(s: AuthState, cookie: Option<Token>): (o: Outcome)
    ensures cookie.None? ==> o == Outcome(NoRefreshToken, s)
    ensures cookie.Some? && !Verifies(s, cookie.value) ==> o == Outcome(TokenExpiredOrInvalid, s)
    ensures cookie.Some? && Verifies(s, cookie.value) && !Stored(s, cookie.value) ==>
      o == Outcome(InvalidRefreshToken, s)
    ensures o.reply.Refreshed? <==> cookie.Some? && Verifies(s, cookie.value) && Stored(s, cookie.value)
    ensures o.reply.Refreshed? ==>
      && o.reply.refresh.user == cookie.value.user
      && o.state == StartSession(s, cookie.value.user).2 && Stored(o.state, o.reply.refresh)
  {
    match cookie
    case None => Outcome(NoRefreshToken, s)
    case Some(t) =>
      if !Verifies(s, t) then Outcome(TokenExpiredOrInvalid, s)
      else if !Stored(s, t) then Outcome(InvalidRefreshToken, s)
      else
        var (access, refresh, s') := StartSession(s, t.user);
        Outcome(Refreshed(access, refresh), s')
  }

  /** `logout`. The token is verified but not compared with the stored one:
      any verifying token of a user clears that user's session. */
  function LogoutStep(s: AuthState, cookie: Option<Token>): (o: Outcome)
    ensures cookie.Some? && !Verifies(s, cookie.value) <==> o.reply == ServerError
    ensures o.reply.ServerError? || o.reply.LoggedOut?
    ensures cookie.Some? && Verifies(s, cookie.value) && cookie.value.user < |s.users| ==>
      var u := cookie.value.user;
      && |o.state.users| == |s.users| && o.state.users[u].refreshToken == None
      && (forall j :: 0 <= j < |s.users| && j != u ==> o.state.users[j] == s.users[j])
      && o.state.users[u] == s.users[u].(refreshToken := None)
    ensures o.state.signed == s.signed && o.state.serial == s.serial
    ensures !(cookie.Some? && Verifies(s, cookie.value) && cookie.value.user < |s.users|) ==> o.state == s
  {
    match cookie
    case None => Outcome(LoggedOut, s)
    case Some(t) =>
      if !Verifies(s, t) then Outcome(ServerError, s)
      else if t.user < |s.users| then
        Outcome(LoggedOut, s.(users := s.users[t.user := s.users[t.user].(refreshToken := None)]))
      else Outcome(LoggedOut, s)
  }

  // ---------------------------------------------------------------------------
  // Properties of the session rules
  // ---------------------------------------------------------------------------

  /** Starting a session keeps the bookkeeping valid. */
  lemma StartSessionValid(s: AuthState, u: UserId)
    requires Valid(s) && u < |s.users|
    ensures Valid(StartSession(s, u).2)
  {
    var (a, r, s') := StartSession(s, u);
    forall i, j | 0 <= i < j < |s'.users| ensures s'.users[i].email != s'.users[j].email {
      assert s'.users[i].email == s.users[i].email && s'.users[j].email == s.users[j].email;
    }
  }

  lemma RegisterValid(s: AuthState, name: string, email: string, password: Option<string>)
    requires Valid(s)
    ensures Valid(RegisterStep(s, name, email, password).state)
  {
    var s' := RegisterStep(s, name, email, password).state;
    if s' != s {
      forall u | 0 <= u < |s'.users| && s'.users[u].refreshToken.Some?
        ensures s'.users[u].refreshToken.value.user == u
      {
        assert u < |s.users|;
      }
    }
  }

  lemma LoginValid(s: AuthState, email: string, password: Option<string>)
    requires Valid(s)
    ensures Valid(LoginStep(s, email, password).state)
  {
    var o := LoginStep(s, email, password);
    if o.reply.LoggedIn? {
      StartSessionValid(s, FindByEmail(s.users, email).value);
    }
  }

  lemma RefreshValid(s: AuthState, cookie: Option<Token>)
    requires Valid(s)
    ensures Valid(RefreshStep(s, cookie).state)
  {
    var o := RefreshStep(s, cookie);
    if o.reply.Refreshed? {
      StartSessionValid(s, cookie.value.user);
    }
  }

  lemma LogoutValid(s: AuthState, cookie: Option<Token>)
    requires Valid(s)
    ensures Valid(LogoutStep(s, cookie).state)
  {
    var s' := LogoutStep(s, cookie).state;
    forall i, j | 0 <= i < j < |s'.users| ensures s'.users[i].email != s'.users[j].email {
      assert s'.users[i].email == s.users[i].email && s'.users[j].email == s.users[j].email;
    }
  }

  /** A registered email can never be registered again. */
  lemma RegisteredEmailIsTaken(s: AuthState, name: string, email: string, password: string,
                               name2: string, password2: Option<string>)
    requires RegisterStep(s, name, email, Some(password)).reply.Registered?
    ensures var s' := RegisterStep(s, name, email, Some(password)).state;
      RegisterStep(s', name2, email, password2) == Outcome(AlreadyExists, s')
  {
    var s' := RegisterStep(s, name, email, Some(password)).state;
    assert s'.users[|s.users|].email == email;
  }

  /** After a successful login, every token signed before it is refused by
      `refresh`: a login ends the user's earlier session. */
  lemma LoginRevokesEarlierTokens(s: AuthState, email: string, password: Option<string>, t: Token)
    requires Valid(s) && t in s.signed
    requires LoginStep(s, email, password).reply.LoggedIn?
    requires t.user == FindByEmail(s.users, email).value
    ensures var s' := LoginStep(s, email, password).state;
      RefreshStep(s', Some(t)) == Outcome(if t.secret == RefreshSecret then InvalidRefreshToken else TokenExpiredOrInvalid, s')
  {
    var u := FindByEmail(s.users, email).value;
    var s' := LoginStep(s, email, password).state;
    assert s'.users[u].refreshToken == Some(Token(RefreshSecret, u, s.serial));
    assert t.serial < s.serial;
  }

  /** The cookie set by a login is accepted by `refresh`. */
  lemma LoginCookieRefreshes(s: AuthState, email: string, password: Option<string>)
    requires LoginStep(s, email, password).reply.LoggedIn?
    ensures var o := LoginStep(s, email, password);
      RefreshStep(o.state, Some(o.reply.refresh)).reply.Refreshed?
  {
  }

  /** Rotation: once a token has been exchanged, presenting it again is
      refused and changes nothing, while the token it was exchanged for is
      accepted. */
  lemma RotatedTokenRejected(s: AuthState, t: Token)
    requires Valid(s) && RefreshStep(s, Some(t)).reply.Refreshed?
    ensures var o := RefreshStep(s, Some(t));
      && RefreshStep(o.state, Some(t)) == Outcome(InvalidRefreshToken, o.state)
      && RefreshStep(o.state, Some(o.reply.refresh)).reply.Refreshed?
  {
    var o := RefreshStep(s, Some(t));
    assert t.serial < s.serial;
    assert o.state.users[t.user].refreshToken == Some(Token(RefreshSecret, t.user, s.serial));
  }

  /** After a logout that reached the user, no token of that user refreshes. */
  lemma LogoutEndsSession(s: AuthState, cookie: Token, t: Token)
    requires Verifies(s, cookie) && cookie.user < |s.users| && t.user == cookie.user
    ensures var s' := LogoutStep(s, Some(cookie)).state;
      !RefreshStep(s', Some(t)).reply.Refreshed? && RefreshStep(s', Some(t)).state == s'
  {
  }

  /** A token already rotated out still verifies, so logging out with it ends
      the session that replaced it. */
  lemma StaleTokenEndsCurrentSession(s: AuthState, t: Token)
    requires Valid(s) && RefreshStep(s, Some(t)).reply.Refreshed?
    ensures var o := RefreshStep(s, Some(t));
      var s' := LogoutStep(o.state, Some(t)).state;
      LogoutStep(o.state, Some(t)).reply == LoggedOut &&
      RefreshStep(s', Some(o.reply.refresh)) == Outcome(InvalidRefreshToken, s')
  {
    var o := RefreshStep(s, Some(t));
    assert t in o.state.signed;
  }

  // ---------------------------------------------------------------------------
  // The handlers over the stored records
  // ---------------------------------------------------------------------------

  /** The user collection and the signer's state, updated in place by the handlers. */
  class AuthStore {
    var users: seq<User>
    var signed: set<Token>
    var serial: nat

    function State(): AuthState
      reads this
    {
      AuthState(users, signed, serial)
    }

    constructor ()
      ensures State() == AuthState([], {}, 0) && Valid(State())
    {
      users := [];
      signed := {};
      serial := 0;
    }

    /** `generateTokens`: sign an access and a refresh token for `u`. */
    method GenerateTokens(u: UserId) returns (access: Token, refresh: Token)
      modifies this`signed, this`serial
      ensures access == Token(AccessSecret, u, old(serial)) && refresh == Token(RefreshSecret, u, old(serial))
      ensures signed == old(signed) + {access, refresh} && serial == old(serial) + 1
    {
      access := Token(AccessSecret, u, serial);
      refresh := Token(RefreshSecret, u, serial);
      signed := signed + {access, refresh};
      serial := serial + 1;
    }

    method Register(name: string, email: string, password: Option<string>) returns (r: Reply)
      modifies this
      ensures Outcome(r, State()) == RegisterStep(old(State()), name, email, password)
    {
      var existing := FindByEmail(users, email);
      if existing.Some? {
        return AlreadyExists;
      }
      if password.None? {
        return ServerError;
      }
      users := users + [User(name, email, Hash(password.value), None)];
      r := Registered;
    }

    method Login(email: string, password: Option<string>) returns (r: Reply)
      modifies this
      ensures Outcome(r, State()) == LoginStep(old(State()), email, password)
    {
      var found := FindByEmail(users, email);
      if found.None? {
        return InvalidCredentials;
      }
      var u := found.value;
      if password.None? {
        return ServerError;
      }
      if !Matches(password.value, users[u].password) {
        return InvalidCredentials;
      }
      var access, refresh := GenerateTokens(u);
      users := users[u := users[u].(refreshToken := Some(refresh))];
      r := LoggedIn(access, refresh);
    }

    method Refresh(cookie: Option<Token>) returns (r: Reply)
      modifies this
      ensures Outcome(r, State()) == RefreshStep(old(State()), cookie)
    {
      if cookie.None? {
        return NoRefreshToken;
      }
      var t := cookie.value;
      if !(t in signed && t.secret == RefreshSecret) {
        return TokenExpiredOrInvalid;
      }
      if !(t.user < |users| && users[t.user].refreshToken == Some(t)) {
        return InvalidRefreshToken;
      }
      var access, refresh := GenerateTokens(t.user);
      users := users[t.user := users[t.user].(refreshToken := Some(refresh))];
      r := Refreshed(access, refresh);
    }

    method Logout(cookie: Option<Token>) returns (r: Reply)
      modifies this
      ensures Outcome(r, State()) == LogoutStep(old(State()), cookie)
    {
      if cookie.Some? {
        var t := cookie.value;
        if !(t in signed && t.secret == RefreshSecret) {
          return ServerError;
        }
        if t.user < |users| {
          users := users[t.user := users[t.user].(refreshToken := None)];
        }
      }
      r := LoggedOut;
    }
  }
}
