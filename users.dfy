/** The user service: live-row lookups, registration with the default role,
    profile update by the owner only, the role-set algebra and soft-delete
    with session revocation. */
module Users {
  import opened Model
  import opened Persistence
  import opened Tokens

  /** Name, email and password of a registration or profile update. */
  datatype UserRequest = UserRequest(name: string, email: string, password: string)

  /** The role set after `addRole(role)`: a role already present changes
      nothing, otherwise exactly that role is added. */
  function WithRole(roles: set<Role>, role: Role): (r: set<Role>)
    ensures role in r && roles <= r
    ensures r - roles <= {role}
    ensures role in roles ==> r == roles
  {
    roles + {role}
  }

  /** The outcome of `removeRole(role)` on a role set: not-found for an
      absent role; TEAM_MEMBER is never removed; otherwise exactly that role
      goes. */
  function WithoutRole(roles: set<Role>, role: Role): (r: Result<set<Role>>)
    ensures r.Err? <==> role !in roles
    ensures r.Err? ==> r.error == NotFound
    ensures r.Ok? && role == TeamMember ==> r.value == roles
    ensures r.Ok? && role != TeamMember ==> role !in r.value && r.value + {role} == roles
  {
    if role !in roles then Err(NotFound)
    else if role == TeamMember then Ok(roles)
    else Ok(roles - {role})
  }

  /** Adding a role twice is adding it once. */
  lemma AddRoleIdempotent(roles: set<Role>, role: Role)
    ensures WithRole(WithRole(roles, role), role) == WithRole(roles, role)
  {
  }

  /** Removing a role that was just added gives the original set back,
      except for TEAM_MEMBER, which stays. */
  lemma RemoveUndoesAdd(roles: set<Role>, role: Role)
    requires role !in roles
    ensures role != TeamMember ==> WithoutRole(WithRole(roles, role), role) == Ok(roles)
    ensures role == TeamMember ==> WithoutRole(WithRole(roles, role), role) == Ok(roles + {TeamMember})
  {
    assert WithRole(roles, role) - {role} == roles;
  }

  /** Neither role operation can take TEAM_MEMBER away from a user. */
  lemma TeamMemberIsPermanent(roles: set<Role>, role: Role)
    requires TeamMember in roles
    ensures TeamMember in WithRole(roles, role)
    ensures WithoutRole(roles, role).Ok? ==> TeamMember in WithoutRole(roles, role).value
  {
  }

  class UserService {
    const store: Store
    const tokens: TokenService

    constructor(store: Store, tokens: TokenService)
      requires tokens.store == store
      ensures this.store == store && this.tokens == tokens && Wired()
    {
      this.store := store;
      this.tokens := tokens;
    }

    /** The token service works on the same store. */
    predicate Wired() {
      tokens.store == store
    }

    /** `listAll`: the live users. */
    function ListAll(): (r: map<Uuid, User>)
      reads store
      ensures forall k :: k in r <==> k in store.users && store.users[k].Live()
      ensures forall k :: k in r ==> r[k] == store.users[k]
    {
      map k | k in store.users && store.users[k].Live() :: store.users[k]
    }

    /** `findById`: the live user with that id, never a soft-deleted one. */
    function FindById(id: Uuid): (r: Result<User>)
      reads store
      ensures r.Ok? <==> id in store.users && store.users[id].Live()
      ensures r.Ok? ==> r.value == store.users[id]
      ensures r.Err? ==> r.error == NotFound
    {
      if id in store.users && store.users[id].Live() then Ok(store.users[id]) else Err(NotFound)
    }

    /** `existsByEmail`: already-exists when a live user holds the email. */
    function ExistsByEmail(email: string): (r: Result<()>)
      reads store
      ensures r.Err? <==> exists k :: k in store.users && store.users[k].Live() && store.users[k].email == email
      ensures r.Err? ==> r.error == AlreadyExists
    {
      if EmailTaken(store.users, email) then Err(AlreadyExists) else Ok(())
    }

    /** `findByEmail`: the id of the live user holding the email, which is
        unique, or not-found. */
    method FindByEmail(email: string) returns (r: Result<Uuid>)
      requires store.Valid()
      ensures r.Ok? <==> EmailTaken(store.users, email)
      ensures r.Err? ==> r.error == NotFound
      ensures r.Ok? ==> forall k :: k in store.users && store.users[k].Live() && store.users[k].email == email
                          <==> k == r.value
    {
      if !EmailTaken(store.users, email) {
        return Err(NotFound);
      }
      var k :| k in store.users && store.users[k].Live() && store.users[k].email == email;
      r := Ok(k);
    }

    /** `save(user)`: refuse a live duplicate email, otherwise store the user
        under the new id with the role set {TEAM_MEMBER}. */
    method Save(user: User, id: Uuid) returns (r: Result<User>)
      requires store.Valid() && id !in store.users
      modifies store
      ensures store.Valid() && store.UsersAndTokensOnly() && store.tokens == old(store.tokens)
      ensures EmailTaken(old(store.users), user.email) ==>
                r == Err(AlreadyExists) && store.users == old(store.users)
      ensures !EmailTaken(old(store.users), user.email) ==>
                && r == Ok(user.(roles := {TeamMember}))
                && store.users == old(store.users)[id := r.value]
    {
      var taken := ExistsByEmail(user.email);
      if taken.Err? {
        return Err(taken.error);
      }
      var saved := user.(roles := {TeamMember});
      store.users := store.users[id := saved];
      r := Ok(saved);
    }

    /** `update(id, request)` by the authenticated user `principal` (an
        email): only the owner of the account may change it, the email is
        re-checked for uniqueness only when it changes, and name, email and
        password are overwritten (the password as given). */
    method Update(id: Uuid, req: UserRequest, principal: string) returns (r: Result<User>)
      requires store.Valid()
      modifies store
      ensures store.Valid() && store.UsersAndTokensOnly() && store.tokens == old(store.tokens)
      ensures r.Err? ==> store.users == old(store.users)
      ensures !(id in old(store.users) && old(store.users)[id].Live()) ==> r == Err(NotFound)
      ensures id in old(store.users) && old(store.users)[id].Live() ==>
                var u := old(store.users)[id];
                && (!EmailTaken(old(store.users), principal) ==> r == Err(NotFound))
                && (EmailTaken(old(store.users), principal) && u.email != principal ==> r == Err(AccessDenied))
                && (EmailTaken(old(store.users), principal) && u.email == principal ==>
                      if req.email != u.email && EmailTaken(old(store.users), req.email) then r == Err(AlreadyExists)
                      else && r == Ok(u.(name := req.name, email := req.email, password := req.password))
                           && store.users == old(store.users)[id := r.value])
    {
      var found := FindById(id);
      if found.Err? {
        return Err(found.error);
      }
      var user := found.value;
      var me := FindByEmail(principal);
      if me.Err? {
        return Err(me.error);
      }
      if user.email != store.users[me.value].email {
        return Err(AccessDenied);
      }
      if user.email != req.email {
        var taken := ExistsByEmail(req.email);
        if taken.Err? {
          return Err(taken.error);
        }
      }
      var updated := user.(name := req.name, email := req.email, password := req.password);
      store.users := store.users[id := updated];
      r := Ok(updated);
    }

    /** `addRole(id, role)`: the user with the role added; no write when the
        role is already there. */
    method AddRole(id: Uuid, role: Role) returns (r: Result<User>)
      requires store.Valid()
      modifies store
      ensures store.Valid() && store.UsersAndTokensOnly() && store.tokens == old(store.tokens)
      ensures old(FindById(id)).Err? ==> r == Err(NotFound) && store.users == old(store.users)
      ensures old(FindById(id)).Ok? ==>
                var u := old(store.users)[id];
                && r == Ok(u.(roles := WithRole(u.roles, role)))
                && store.users == old(store.users)[id := r.value]
      ensures old(FindById(id)).Ok? && role in old(store.users)[id].roles ==> store.users == old(store.users)
    {
      var found := FindById(id);
      if found.Err? {
        return Err(found.error);
      }
      var user := found.value;
      if role in user.roles {
        assert store.users[id := user] == store.users;
        return Ok(user);
      }
      var updated := user.(roles := WithRole(user.roles, role));
      store.users := store.users[id := updated];
      r := Ok(updated);
    }

    /** `removeRole(id, role)`: not-found for an unknown user or an absent
        role; TEAM_MEMBER is kept without a write; otherwise the role goes. */
    method RemoveRole(id: Uuid, role: Role) returns (r: Result<User>)
      requires store.Valid()
      modifies store
      ensures store.Valid() && store.UsersAndTokensOnly() && store.tokens == old(store.tokens)
      ensures old(FindById(id)).Err? ==> r == Err(NotFound) && store.users == old(store.users)
      ensures old(FindById(id)).Ok? ==>
                var u := old(store.users)[id];
                match WithoutRole(u.roles, role)
                case Err(e) => r == Err(e) && store.users == old(store.users)
                case Ok(rs) => r == Ok(u.(roles := rs)) && store.users == old(store.users)[id := r.value]
      ensures role == TeamMember ==> store.users == old(store.users)
    {
      var found := FindById(id);
      if found.Err? {
        return Err(found.error);
      }
      var user := found.value;
      if role !in user.roles {
        return Err(NotFound);
      }
      if role == TeamMember {
        assert store.users[id := user] == store.users;
        return Ok(user);
      }
      var updated := user.(roles := user.roles - {role});
      store.users := store.users[id := updated];
      r := Ok(updated);
    }

    /** `delete(id)`: soft-delete the user and revoke the user's session;
        afterwards the id is no longer found. */
    method Delete(id: Uuid, now: Instant) returns (r: Result<()>)
      requires store.Valid() && Wired()
      modifies store
      ensures store.Valid() && store.UsersAndTokensOnly()
      ensures old(FindById(id)).Err? ==>
                r == Err(NotFound) && store.users == old(store.users) && store.tokens == old(store.tokens)
      ensures old(FindById(id)).Ok? ==>
                && r == Ok(())
                && store.users == old(store.users)[id := old(store.users)[id].SoftDelete(now)]
                && store.tokens == RevokedFor(old(store.tokens), id, now)
      ensures FindById(id) == Err(NotFound)
      ensures LiveTokensOf(store.tokens, id) == {}
    {
      var found := FindById(id);
      if found.Err? {
        assert LiveTokensOf(store.tokens, id) == {};
        return Err(found.error);
      }
      store.users := store.users[id := found.value.SoftDelete(now)];
      tokens.DeleteRefreshTokenByUserId(id, now);
      r := Ok(());
    }
  }
}
