/** Authentication: register, login, refresh and logout, composed from the
    user lookups, a credential oracle and the token operations. The password
    encoder and the authentication manager are black boxes: `encode` maps a
    raw password to its stored hash and `matches(raw, hash)` is the
    manager's verdict on the pair. */
module Auth {
  import opened Model
  import opened Persistence
  import opened Tokens
  import opened Users

  /** The row `register` hands to `save`: default status, no roles yet, the
      encoder's output as password. */
  function NewUser(req: UserRequest, encode: string -> string): (u: User)
    ensures u.email == req.email && u.name == req.name && u.Live()
    ensures u.password == encode(req.password) && u.statut == Actif
  {
    User(req.name, req.email, encode(req.password), Actif, {}, None)
  }

  /** Who a login authenticates: not-found without a live user holding the
      email (checked first), bad credentials when the oracle rejects the
      password against the stored hash, otherwise that user. */
  ghost function Authenticated(users: map<Uuid, User>, email: string, password: string,
                               matches: (string, string) -> bool): (r: Result<Uuid>)
    ensures r.Err? ==> r.error in {NotFound, BadCredentials}
    ensures r.Err? && r.error == NotFound <==> !EmailTaken(users, email)
    ensures r.Ok? ==> r.value in users && users[r.value].Live() && users[r.value].email == email
                      && matches(password, users[r.value].password)
    ensures EmailTaken(users, email) ==>
              (r.Ok? <==> matches(password, users[UserWithEmail(users, email)].password))
  {
    if !EmailTaken(users, email) then Err(NotFound)
    else
      var k := UserWithEmail(users, email);
      if matches(password, users[k].password) then Ok(k) else Err(BadCredentials)
  }

  /** With an encoder the oracle accepts (every password matches its own
      hash), a user just registered logs in with the same email and password. */
  lemma RegisteredUserCanLogIn(users: map<Uuid, User>, id: Uuid, req: UserRequest,
                               encode: string -> string, matches: (string, string) -> bool)
    requires UniqueLiveEmails(users) && id !in users && !EmailTaken(users, req.email)
    requires forall p :: matches(p, encode(p))
    ensures Authenticated(users[id := NewUser(req, encode).(roles := {TeamMember})], req.email, req.password,
                          matches) == Ok(id)
  {
    var users' := users[id := NewUser(req, encode).(roles := {TeamMember})];
    assert EmailTaken(users', req.email) by {
      assert users'[id].email == req.email;
    }
    var k := UserWithEmail(users', req.email);
    assert k == id;
  }

  class AuthService {
    const store: Store
    const users: UserService
    const tokens: TokenService
    const encode: string -> string
    const matches: (string, string) -> bool

    constructor(store: Store, users: UserService, tokens: TokenService, encode: string -> string,
                matches: (string, string) -> bool)
      requires users.store == store && tokens.store == store
      ensures this.store == store && this.users == users && this.tokens == tokens
      ensures this.encode == encode && this.matches == matches && Wired()
    {
      this.store := store;
      this.users := users;
      this.tokens := tokens;
      this.encode := encode;
      this.matches := matches;
    }

    /** The collaborating services work on the same store. */
    predicate Wired() {
      users.store == store && tokens.store == store
    }

    /** `register(request)`: save a new user whose password is the encoder's
        output; no session is opened. */
    method Register(req: UserRequest, id: Uuid) returns (r: Result<User>)
      requires store.Valid() && Wired() && id !in store.users
      modifies store
      ensures store.Valid() && store.UsersAndTokensOnly() && store.tokens == old(store.tokens)
      ensures EmailTaken(old(store.users), req.email) ==>
                r == Err(AlreadyExists) && store.users == old(store.users)
      ensures !EmailTaken(old(store.users), req.email) ==>
                && r == Ok(NewUser(req, encode).(roles := {TeamMember}))
                && store.users == old(store.users)[id := r.value]
      ensures r.Ok? ==> r.value.password == encode(req.password)
    {
      r := users.Save(NewUser(req, encode), id);
    }

    /** `login(email, password)`: the user is looked up before the
        credentials are checked; on success the answer carries an access
        token for the user's email and a new refresh token, which is then
        the user's only live one. */
    method Login(email: string, password: string, now: Instant, row: Uuid, newToken: string)
      returns (r: Result<TokenResponse>)
      requires store.Valid() && Wired()
      requires row !in store.tokens && UnusedToken(store.tokens, newToken)
      modifies store
      ensures store.Valid() && store.TokensOnly()
      ensures var a := Authenticated(old(store.users), email, password, matches);
        && (a.Err? ==> r == Err(a.error) && store.tokens == old(store.tokens))
        && (a.Ok? ==>
              && r == Ok(TokenResponse(store.users[a.value], tokens.GenerateAccessToken(email, now), newToken))
              && store.tokens == Issued(old(store.tokens), a.value, row, newToken, now, tokens.refreshExpiration)
              && LiveTokensOf(store.tokens, a.value) == {row})
    {
      var found := users.FindByEmail(email);
      if found.Err? {
        return Err(found.error);
      }
      var id := found.value;
      assert id == UserWithEmail(store.users, email);
      var user := store.users[id];
      if !matches(password, user.password) {
        return Err(BadCredentials);
      }
      var access := tokens.GenerateAccessToken(user.email, now);
      var refresh := tokens.CreateRefreshToken(id, now, row, newToken);
      r := Ok(TokenResponse(user, access, refresh));
    }

    /** `refresh(request)`: exactly the token service's rotation, errors
        included. */
    method Refresh(s: string, now: Instant, row: Uuid, newToken: string) returns (r: Result<TokenResponse>)
      requires store.Valid() && Wired()
      requires row !in store.tokens && UnusedToken(store.tokens, newToken)
      modifies store
      ensures store.Valid() && store.TokensOnly()
      ensures var rot := Rotated(old(store.tokens), s, now, row, newToken, tokens.refreshExpiration);
        && store.tokens == rot.tokens
        && (rot.outcome.Err? ==> r == Err(rot.outcome.error))
        && (rot.outcome.Ok? ==> var u := store.users[rot.outcome.value];
              r == Ok(TokenResponse(u, tokens.GenerateAccessToken(u.email, now), newToken)))
    {
      r := tokens.ValidateRefreshToken(s, now, row, newToken);
    }

    /** `logout(request)`: revoke the session holding `s`; an unknown or
        already consumed token fails with not-found. */
    method Logout(s: string, now: Instant) returns (r: Result<()>)
      requires store.Valid() && Wired()
      modifies store
      ensures store.Valid() && store.TokensOnly()
      ensures var rev := Revoked(old(store.tokens), s, now);
        && (rev.Err? ==> r == Err(NotFound) && store.tokens == old(store.tokens))
        && (rev.Ok? ==> r == Ok(()) && store.tokens == rev.value)
    {
      r := tokens.DeleteRefreshToken(s, now);
    }
  }
}
