/** The token service: stateless access tokens (subject, issue time, expiry)
    and the refresh-token table with single-use rotation. */
module Tokens {
  import opened Model
  import opened Persistence

  /** The claims of a signed access token; the signature itself is not modelled. */
  datatype AccessToken = AccessToken(subject: string, issuedAt: Instant, expiration: Instant)

  /** What login and refresh return: the user, an access token and the new
      refresh-token string. */
  datatype TokenResponse = TokenResponse(user: User, accessToken: AccessToken, refreshToken: string)

  /** `validateToken`: the subject is the user's name and the expiry lies
      strictly after the current time. */
  predicate ValidateToken(t: AccessToken, username: string, now: Instant) {
    t.subject == username && now < t.expiration
  }

  /** The expiry of a refresh token issued at `now`; the TTL is in seconds. */
  function RefreshExpiry(now: Instant, refreshExpiration: int): Instant {
    now + refreshExpiration * MillisPerSecond
  }

  /** `Date.before`: a refresh token is expired once its expiry lies strictly
      before the current time. */
  predicate Expired(t: RefreshToken, now: Instant) {
    t.expiryDate < now
  }

  /** Soft-delete every live refresh token of `user`, touching nothing else. */
  function RevokedFor(tokens: map<Uuid, RefreshToken>, user: Uuid, now: Instant): (r: map<Uuid, RefreshToken>)
    ensures r.Keys == tokens.Keys
    ensures LiveTokensOf(r, user) == {}
    ensures forall k :: k in tokens && k !in LiveTokensOf(tokens, user) ==> r[k] == tokens[k]
    ensures forall k :: k in LiveTokensOf(tokens, user) ==> r[k] == tokens[k].SoftDelete(now)
    ensures LiveTokensOf(tokens, user) == {} ==> r == tokens
  {
    map k | k in tokens :: if k in LiveTokensOf(tokens, user) then tokens[k].SoftDelete(now) else tokens[k]
  }

  /** The table after `createRefreshToken(user)`: the user's previous session
      revoked and one new live row `row` holding `s`. */
  function Issued(tokens: map<Uuid, RefreshToken>, user: Uuid, row: Uuid, s: string, now: Instant,
                  refreshExpiration: int): (r: map<Uuid, RefreshToken>)
    requires row !in tokens
    ensures r.Keys == tokens.Keys + {row}
    ensures r[row] == RefreshToken(s, user, RefreshExpiry(now, refreshExpiration), None)
    ensures LiveTokensOf(r, user) == {row}
    ensures forall k :: k in tokens && tokens[k].user != user ==> r[k] == tokens[k]
  {
    RevokedFor(tokens, user, now)[row := RefreshToken(s, user, RefreshExpiry(now, refreshExpiration), None)]
  }

  /** Under one live session per user, soft-deleting the user's live row is
      revoking all of the user's sessions. */
  lemma RevokeSingleRow(tokens: map<Uuid, RefreshToken>, user: Uuid, k: Uuid, now: Instant)
    requires SingleSession(tokens)
    requires k in LiveTokensOf(tokens, user)
    ensures tokens[k := tokens[k].SoftDelete(now)] == RevokedFor(tokens, user, now)
  {
    assert LiveTokensOf(tokens, user) == {k};
  }

  /** Revoking a user's sessions keeps the token invariants and, once the
      user may be the soft-deleted one, restores the "live tokens belong to
      live users" invariant. */
  lemma RevokedForKeepsInvariants(tokens: map<Uuid, RefreshToken>, users: map<Uuid, User>, user: Uuid,
                                  now: Instant)
    requires SingleSession(tokens) && UniqueLiveTokens(tokens)
    requires SessionsOfLiveUsersExcept(tokens, users, Some(user))
    ensures var r := RevokedFor(tokens, user, now);
      SingleSession(r) && UniqueLiveTokens(r) && SessionsOfLiveUsersExcept(r, users, None)
  {
    var r := RevokedFor(tokens, user, now);
    assert forall k :: k in LiveTokensOf(tokens, user) ==> !r[k].Live();
  }

  /** After issuing, the new row is the user's only live one and every other
      row is the revoked table's row. */
  lemma IssuedRows(tokens: map<Uuid, RefreshToken>, user: Uuid, row: Uuid, s: string, now: Instant,
                   refreshExpiration: int)
    requires row !in tokens
    ensures var r := Issued(tokens, user, row, s, now, refreshExpiration);
      && (forall j :: j in r && j != row ==> r[j] == RevokedFor(tokens, user, now)[j])
      && (forall j :: j in r && j != row ==> r[j].token == tokens[j].token && r[j].user == tokens[j].user)
      && (forall j :: j in r && r[j].Live() && r[j].user == user ==> j == row)
  {
    var r := Issued(tokens, user, row, s, now, refreshExpiration);
    assert forall j :: j in r && r[j].Live() && r[j].user == user ==> j in LiveTokensOf(r, user);
  }

  /** Issuing a fresh token to a live user keeps every token invariant. */
  lemma IssuedKeepsInvariants(tokens: map<Uuid, RefreshToken>, users: map<Uuid, User>, user: Uuid,
                              row: Uuid, s: string, now: Instant, refreshExpiration: int)
    requires SingleSession(tokens) && UniqueLiveTokens(tokens)
    requires SessionsOfLiveUsersExcept(tokens, users, None)
    requires user in users && users[user].Live()
    requires row !in tokens && UnusedToken(tokens, s)
    ensures var r := Issued(tokens, user, row, s, now, refreshExpiration);
      SingleSession(r) && UniqueLiveTokens(r) && SessionsOfLiveUsersExcept(r, users, None)
  {
    RevokedForKeepsInvariants(tokens, users, user, now);
    IssuedRows(tokens, user, row, s, now, refreshExpiration);
  }

  /** The one live row holding `s`, when there is one. */
  ghost function TheRow(tokens: map<Uuid, RefreshToken>, s: string): (k: Uuid)
    requires LiveRowsWith(tokens, s) != {}
    ensures k in LiveRowsWith(tokens, s)
  {
    var k :| k in LiveRowsWith(tokens, s); k
  }

  /** Outcome of a refresh and the token table it leaves. */
  datatype Rotation = Rotation(outcome: Result<Uuid>, tokens: map<Uuid, RefreshToken>)

  /** The meaning of `validateRefreshToken(s)` on the table: not found when
      no live row holds `s`; expired (the row soft-deleted) when its expiry
      is strictly before now; otherwise the row is consumed and a new session
      `newToken` (row `row`) is issued to its user, whose id is the outcome. */
  ghost function Rotated(tokens: map<Uuid, RefreshToken>, s: string, now: Instant, row: Uuid, newToken: string,
                         refreshExpiration: int): (r: Rotation)
    requires row !in tokens
    ensures LiveRowsWith(tokens, s) == {} <==> r.outcome == Err(NotFound)
    ensures r.outcome == Err(NotFound) ==> r.tokens == tokens
    ensures r.outcome.Err? ==> r.outcome.error in {NotFound, TokenExpired}
  {
    if LiveRowsWith(tokens, s) == {} then Rotation(Err(NotFound), tokens)
    else
      var k := TheRow(tokens, s);
      var consumed := tokens[k := tokens[k].SoftDelete(now)];
      if Expired(tokens[k], now) then Rotation(Err(TokenExpired), consumed)
      else Rotation(Ok(tokens[k].user), Issued(consumed, tokens[k].user, row, newToken, now, refreshExpiration))
  }

  /** The meaning of `deleteRefreshToken(s)`: soft-delete the live row holding
      `s`, or fail with not-found. */
  ghost function Revoked(tokens: map<Uuid, RefreshToken>, s: string, now: Instant)
    : (r: Result<map<Uuid, RefreshToken>>)
    ensures r.Err? <==> LiveRowsWith(tokens, s) == {}
    ensures r.Err? ==> r.error == NotFound
    ensures r.Ok? ==> r.value.Keys == tokens.Keys
  {
    if LiveRowsWith(tokens, s) == {} then Err(NotFound)
    else
      var k := TheRow(tokens, s);
      Ok(tokens[k := tokens[k].SoftDelete(now)])
  }

  /** Under unique live token strings the row holding `s` is determined. */
  lemma TheRowIsUnique(tokens: map<Uuid, RefreshToken>, s: string, k: Uuid)
    requires UniqueLiveTokens(tokens)
    requires k in LiveRowsWith(tokens, s)
    ensures TheRow(tokens, s) == k
  {
  }

  /** The two outcomes of a refresh that finds the live row `k` holding `s`:
      expired exactly when its expiry lies strictly before now, in which case
      only that row is soft-deleted and nothing is issued; otherwise the row
      is consumed, the outcome is its user, and the new row holding
      `newToken` is that user's only live token. */
  lemma RotatedCases(tokens: map<Uuid, RefreshToken>, s: string, now: Instant, row: Uuid, newToken: string,
                     refreshExpiration: int, k: Uuid)
    requires UniqueLiveTokens(tokens) && row !in tokens
    requires k in LiveRowsWith(tokens, s)
    ensures var r := Rotated(tokens, s, now, row, newToken, refreshExpiration);
      && (r.outcome == Err(TokenExpired) <==> tokens[k].expiryDate < now)
      && (tokens[k].expiryDate < now ==> r.tokens == tokens[k := tokens[k].SoftDelete(now)])
      && (now <= tokens[k].expiryDate ==>
            && r.outcome == Ok(tokens[k].user)
            && k in r.tokens && !r.tokens[k].Live()
            && row in r.tokens && r.tokens[row].token == newToken
            && LiveTokensOf(r.tokens, tokens[k].user) == {row})
  {
    TheRowIsUnique(tokens, s, k);
  }

  /** Soft-deleting the row holding `s` leaves no live row with `s`. */
  lemma ConsumedLeavesNoRow(tokens: map<Uuid, RefreshToken>, s: string, k: Uuid, now: Instant)
    requires UniqueLiveTokens(tokens)
    requires k in LiveRowsWith(tokens, s)
    ensures LiveRowsWith(tokens[k := tokens[k].SoftDelete(now)], s) == {}
  {
    var c := tokens[k := tokens[k].SoftDelete(now)];
    assert forall j :: j in LiveRowsWith(c, s) ==> j in LiveRowsWith(tokens, s) && j != k;
  }

  /** A refresh token is single-use: once a refresh with `s` got past the
      lookup (it either rotated or found the token expired), a second refresh
      with `s` fails with not-found and changes nothing. */
  lemma RefreshIsSingleUse(tokens: map<Uuid, RefreshToken>, s: string, now: Instant, now': Instant,
                           row: Uuid, newToken: string, row': Uuid, newToken': string,
                           refreshExpiration: int)
    requires UniqueLiveTokens(tokens) && SingleSession(tokens)
    requires row !in tokens && newToken != s
    requires Rotated(tokens, s, now, row, newToken, refreshExpiration).outcome != Err(NotFound)
    requires row' !in Rotated(tokens, s, now, row, newToken, refreshExpiration).tokens
    ensures var t := Rotated(tokens, s, now, row, newToken, refreshExpiration).tokens;
      Rotated(t, s, now', row', newToken', refreshExpiration) == Rotation(Err(NotFound), t)
  {
    var k := TheRow(tokens, s);
    var consumed := tokens[k := tokens[k].SoftDelete(now)];
    ConsumedLeavesNoRow(tokens, s, k, now);
    var t := Rotated(tokens, s, now, row, newToken, refreshExpiration).tokens;
    if !Expired(tokens[k], now) {
      var u := tokens[k].user;
      var v := RevokedFor(consumed, u, now);
      assert t == v[row := RefreshToken(newToken, u, RefreshExpiry(now, refreshExpiration), None)];
      assert forall j :: j in LiveRowsWith(t, s) ==> j != row && j in LiveRowsWith(consumed, s);
    }
  }

  /** Logging out twice with the same refresh token fails the second time. */
  lemma RevokeTwiceFails(tokens: map<Uuid, RefreshToken>, s: string, now: Instant, now': Instant)
    requires UniqueLiveTokens(tokens)
    requires Revoked(tokens, s, now).Ok?
    ensures Revoked(Revoked(tokens, s, now).value, s, now') == Err(NotFound)
  {
  }

  /** With a refresh TTL of zero seconds the token is still accepted within
      the millisecond it was issued (the expiry test is strict) and is
      expired one millisecond later. */
  lemma ZeroTtlBoundary(tokens: map<Uuid, RefreshToken>, user: Uuid, row: Uuid, s: string, now: Instant,
                        row': Uuid, newToken': string)
    requires UniqueLiveTokens(tokens) && UnusedToken(tokens, s)
    requires row !in tokens && row' != row && row' !in tokens
    ensures var t := Issued(tokens, user, row, s, now, 0);
      && Rotated(t, s, now, row', newToken', 0).outcome == Ok(user)
      && Rotated(t, s, now + 1, row', newToken', 0).outcome == Err(TokenExpired)
  {
    var t := Issued(tokens, user, row, s, now, 0);
    assert row in LiveRowsWith(t, s);
    assert forall j :: j in t && j != row ==> t[j].token == tokens[j].token;
    assert LiveRowsWith(t, s) == {row};
  }

  /** Access tokens and the refresh-token table. `accessExpiration` is in
      milliseconds and `refreshExpiration` in seconds, as configured. */
  class TokenService {
    const store: Store
    const accessExpiration: int
    const refreshExpiration: int

    constructor(store: Store, accessExpiration: int, refreshExpiration: int)
      ensures this.store == store
      ensures this.accessExpiration == accessExpiration && this.refreshExpiration == refreshExpiration
    {
      this.store := store;
      this.accessExpiration := accessExpiration;
      this.refreshExpiration := refreshExpiration;
    }

    /** `generateAccessToken(username)` at time `now`: the token validates for
      exactly that user and exactly before `now + accessExpiration`. */
    function GenerateAccessToken(username: string, now: Instant): (t: AccessToken)
      ensures t.subject == username && t.issuedAt == now
      ensures forall n :: ValidateToken(t, username, n) <==> n < now + accessExpiration
      ensures forall v, n :: v != username ==> !ValidateToken(t, v, n)
    {
      AccessToken(username, now, now + accessExpiration)
    }

    /** `createRefreshToken(user)`: revoke the user's live session, if any,
        and store a new one valid for `refreshExpiration` seconds. */
    method CreateRefreshToken(user: Uuid, now: Instant, row: Uuid, newToken: string) returns (s: string)
      requires store.Valid()
      requires user in store.users && store.users[user].Live()
      requires row !in store.tokens && UnusedToken(store.tokens, newToken)
      modifies store
      ensures store.Valid() && store.TokensOnly()
      ensures s == newToken
      ensures store.tokens == Issued(old(store.tokens), user, row, newToken, now, refreshExpiration)
    {
      IssuedKeepsInvariants(store.tokens, store.users, user, row, newToken, now, refreshExpiration);
      var tokens := store.tokens;
      var existing := LiveTokensOf(tokens, user);
      if existing != {} {
        var k :| k in existing;
        RevokeSingleRow(tokens, user, k, now);
        tokens := tokens[k := tokens[k].SoftDelete(now)];
      }
      store.tokens := tokens[row := RefreshToken(newToken, user, RefreshExpiry(now, refreshExpiration), None)];
      s := newToken;
    }

    /** `validateRefreshToken(s)`: rotate the session as `Rotated` says; on
        success answer the user, a new access token and the new refresh token. */
    method ValidateRefreshToken(s: string, now: Instant, row: Uuid, newToken: string)
      returns (r: Result<TokenResponse>)
      requires store.Valid()
      requires row !in store.tokens && UnusedToken(store.tokens, newToken)
      modifies store
      ensures store.Valid() && store.TokensOnly()
      ensures var rot := Rotated(old(store.tokens), s, now, row, newToken, refreshExpiration);
        && store.tokens == rot.tokens
        && (rot.outcome.Err? ==> r == Err(rot.outcome.error))
        && (rot.outcome.Ok? ==> var u := store.users[rot.outcome.value];
              r == Ok(TokenResponse(u, GenerateAccessToken(u.email, now), newToken)))
    {
      ghost var t0 := store.tokens;
      var rows := LiveRowsWith(store.tokens, s);
      if rows == {} {
        return Err(NotFound);
      }
      var k :| k in rows;
      TheRowIsUnique(store.tokens, s, k);
      var t := store.tokens[k];
      store.tokens := store.tokens[k := t.SoftDelete(now)];
      assert SingleSession(store.tokens);
      if Expired(t, now) {
        return Err(TokenExpired);
      }
      var u := store.users[t.user];
      var access := GenerateAccessToken(u.email, now);
      var next := CreateRefreshToken(t.user, now, row, newToken);
      r := Ok(TokenResponse(u, access, next));
    }

    /** `deleteRefreshTokenByUserId(id)`: revoke the user's live session, if
        any; this is how deleting a user ends the user's sessions. */
    method DeleteRefreshTokenByUserId(user: Uuid, now: Instant)
      requires store.ValidExcept(Some(user))
      modifies store
      ensures store.Valid() && store.TokensOnly()
      ensures store.tokens == RevokedFor(old(store.tokens), user, now)
    {
      RevokedForKeepsInvariants(store.tokens, store.users, user, now);
      var existing := LiveTokensOf(store.tokens, user);
      if existing != {} {
        var k :| k in existing;
        RevokeSingleRow(store.tokens, user, k, now);
        store.tokens := store.tokens[k := store.tokens[k].SoftDelete(now)];
      }
    }

    /** `deleteRefreshToken(s)` (logout): revoke the session holding `s`, or
        fail with not-found. */
    method DeleteRefreshToken(s: string, now: Instant) returns (r: Result<()>)
      requires store.Valid()
      modifies store
      ensures store.Valid() && store.TokensOnly()
      ensures var rev := Revoked(old(store.tokens), s, now);
        && (rev.Err? ==> r == Err(rev.error) && store.tokens == old(store.tokens))
        && (rev.Ok? ==> r == Ok(()) && store.tokens == rev.value)
    {
      var rows := LiveRowsWith(store.tokens, s);
      if rows == {} {
        return Err(NotFound);
      }
      var k :| k in rows;
      TheRowIsUnique(store.tokens, s, k);
      store.tokens := store.tokens[k := store.tokens[k].SoftDelete(now)];
      r := Ok(());
    }
  }
}
