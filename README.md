# Task manager service layer in Dafny

This project models the service layer of the task manager: a Spring Boot
application with users, projects, tasks and JWT-based sessions. The model
treats the services as a state machine over one in-memory store, and proves
what each service operation promises.

The store (`Persistence.Store`) holds:

- four tables: users, projects, tasks and refresh tokens. Each is a map from
  row id to an entity value, and each row carries a soft-delete marker (a row
  is live while `deletedAt` is unset);
- the Redis cache, as a map from (category, key) to the cached answer;
- the log of published application events.

The services are classes that share that store and change it in place:

- `Tokens.TokenService`: access tokens as abstract claims, and the
  refresh-token table. A user has at most one live session, each refresh
  token is used once, an expired token is consumed when it is presented, and
  a session can be revoked by user or by token string.
- `Users.UserService`: lookups among live users, unique live emails, the
  role-set algebra in which TEAM_MEMBER is permanent, updates by the account
  owner only, and soft-delete with session revocation.
- `Auth.AuthService`: register, login, refresh and logout, composed from the
  user lookups, a credential oracle and the token operations.
- `Projects.ProjectService`: project names stored upper-cased and unique
  among live projects, and COMPLETED as a terminal state for status changes.
  It also covers soft-delete with a `ProjectDeleted` event, the per-owner
  cascade, and eviction of the whole "projects" cache category.
- `Tasks.TaskService`: the filter dispatch of `listTasks`, cached lookups,
  creation through the pre-persist hook, partial update, reassignment,
  status change and soft-delete. Each mutation empties the whole "tasks"
  cache category.
- `TaskEntity`: the task builder's default status and the `prePersist` hook,
  which derives the estimated hours from the due date.

`Store.Valid()` is the invariant that every operation keeps. It says:

- live emails are unique;
- each user has at most one live refresh token;
- live token strings are unique;
- live tokens belong to live users;
- live project names are upper-case and unique;
- project owners and task references exist;
- every cache entry except the overdue one equals what its query returns from
  the tables now; the overdue entry holds only current live rows.

Time is an explicit input in milliseconds since the epoch. New row ids and
new token strings are also inputs; their freshness is a precondition.

## Model

Source paths are relative to the repository root.

| member | source | states |
|---|---|---|
| Model.StatusValueOf | src/main/java/com/taskmanager/taskmanager/enums/Status.java:6-10 | `Status.valueOf` accepts exactly the four constant names; any other string is an illegal argument |
| Model.StatusNameRoundTrip | src/main/java/com/taskmanager/taskmanager/enums/Status.java:6-10 | every status is recognised by its own constant name |
| Model.StatusName | src/main/java/com/taskmanager/taskmanager/enums/Status.java:7-10 | the name of each constant as `Status.name()` gives it: TO_DO, IN_PROGRESS, ON_HOLD, COMPLETED |
| Model.ToUpperCase | src/main/java/com/taskmanager/taskmanager/service/ProjectService.java:61 | `String.toUpperCase` keeps the length and maps each ASCII lower-case letter to its upper-case form, position by position |
| Model.EqualsIgnoreCase | src/main/java/com/taskmanager/taskmanager/service/ProjectService.java:74 | `equalsIgnoreCase`: same length and, at each position, equal characters or equal once upper-cased |
| Model.ToUpperCaseIdempotent | src/main/java/com/taskmanager/taskmanager/service/ProjectService.java:61 | upper-casing a name twice is upper-casing it once, so stored names stay canonical |
| Model.EqualsIgnoreCaseIffSameUpper | src/main/java/com/taskmanager/taskmanager/service/ProjectService.java:74-78 | two names are equal ignoring case exactly when their upper-cased forms are equal |
| Persistence.EvictProjectsKeepsCoherence | src/main/java/com/taskmanager/taskmanager/service/ProjectService.java:58 | after evicting every "projects" entry, the cache stays coherent whatever the projects table becomes |
| Persistence.EvictTasksKeepsCoherence | src/main/java/com/taskmanager/taskmanager/service/TaskService.java:86 | after evicting every "tasks" entry, the cache stays coherent whatever the tasks table becomes |
| Persistence.Evicted | src/main/java/com/taskmanager/taskmanager/service/TaskService.java:86 | `@CacheEvict(allEntries = true)` drops exactly the entries of the named category and keeps every other entry unchanged |
| Persistence.OwnedLive | src/main/java/com/taskmanager/taskmanager/service/ProjectService.java:44 | the owner's projects finder returns exactly the live projects of that owner, with their rows |
| Tokens.RevokedFor | src/main/java/com/taskmanager/taskmanager/service/TokenService.java:110-120 | revoking a user's sessions leaves the user no live token, soft-deletes exactly the user's live rows, and changes nothing when there were none |
| Tokens.ValidateToken | src/main/java/com/taskmanager/taskmanager/service/TokenService.java:53-58 | an access token is valid for a user exactly when its subject is that user's name and its expiry lies strictly after now |
| Tokens.RefreshExpiry | src/main/java/com/taskmanager/taskmanager/service/TokenService.java:81 | a refresh token expires `refreshExpiration` seconds, counted in milliseconds, after it is issued |
| Tokens.Expired | src/main/java/com/taskmanager/taskmanager/service/TokenService.java:93 | a refresh token is expired exactly when its expiry lies strictly before now |
| Tokens.Issued | src/main/java/com/taskmanager/taskmanager/service/TokenService.java:70-87 | after issuing, the new row is the user's only live token, it expires `refreshExpiration` seconds after now, and other users' rows are untouched |
| Tokens.RevokeSingleRow | src/main/java/com/taskmanager/taskmanager/service/TokenService.java:72-77 | under one live session per user, soft-deleting the single row the finder returns revokes all of the user's sessions |
| Tokens.RevokedForKeepsInvariants | src/main/java/com/taskmanager/taskmanager/service/TokenService.java:110-120 | revoking a user's sessions keeps one session per user and unique live token strings, and leaves no live token of a deleted user |
| Tokens.IssuedRows | src/main/java/com/taskmanager/taskmanager/service/TokenService.java:78-84 | the issued table agrees with the revoked table except for the new row, and the new row is the user's only live row |
| Tokens.IssuedKeepsInvariants | src/main/java/com/taskmanager/taskmanager/service/TokenService.java:70-87 | issuing a session to a live user keeps one session per user, unique live token strings, and sessions only for live users |
| Tokens.Rotated | src/main/java/com/taskmanager/taskmanager/service/TokenService.java:89-108 | a refresh fails with not-found exactly when no live row holds the string and then changes nothing; the only other failure is an expired token |
| Tokens.Revoked | src/main/java/com/taskmanager/taskmanager/service/TokenService.java:122-127 | a revoke by string fails with not-found exactly when no live row holds the string |
| Tokens.RotatedCases | src/main/java/com/taskmanager/taskmanager/service/TokenService.java:93-107 | a refresh that finds the row is expired exactly when the expiry is strictly before now, and then only that row is soft-deleted; otherwise the row is consumed, the outcome is its user, and the new row is that user's only live token |
| Tokens.TheRowIsUnique | src/main/java/com/taskmanager/taskmanager/service/TokenService.java:155-161 | with unique live token strings, the row the string lookup finds is determined |
| Tokens.ConsumedLeavesNoRow | src/main/java/com/taskmanager/taskmanager/service/TokenService.java:99 | once the row holding a string is soft-deleted, no live row holds that string |
| Tokens.RefreshIsSingleUse | src/main/java/com/taskmanager/taskmanager/service/TokenService.java:89-108 | after a refresh got past the lookup (rotated or expired), a second refresh with the same string fails with not-found and changes nothing |
| Tokens.RevokeTwiceFails | src/main/java/com/taskmanager/taskmanager/service/TokenService.java:122-127 | revoking the same string twice fails with not-found the second time |
| Tokens.ZeroTtlBoundary | src/main/java/com/taskmanager/taskmanager/service/TokenService.java:81-93 | a token issued with a zero TTL still refreshes within the same millisecond and is expired one millisecond later |
| Tokens.TokenService.GenerateAccessToken | src/main/java/com/taskmanager/taskmanager/service/TokenService.java:138-147 | the access token names the user, and validates for that user exactly before `now + accessExpiration` milliseconds, never for another user |
| Tokens.TokenService.CreateRefreshToken | src/main/java/com/taskmanager/taskmanager/service/TokenService.java:70-87 | the table becomes `Issued`: the previous session revoked and the new token the user's only live one; the invariant is kept |
| Tokens.TokenService.ValidateRefreshToken | src/main/java/com/taskmanager/taskmanager/service/TokenService.java:89-108 | the table becomes what `Rotated` says; on success the answer is the user, an access token for the user's email and the new refresh token |
| Tokens.TokenService.DeleteRefreshTokenByUserId | src/main/java/com/taskmanager/taskmanager/service/TokenService.java:110-120 | the table becomes `RevokedFor`; the invariant is restored after the user was soft-deleted |
| Tokens.TokenService.DeleteRefreshToken | src/main/java/com/taskmanager/taskmanager/service/TokenService.java:122-127 | not-found with no change when no live row holds the string, otherwise exactly that row is soft-deleted |
| Users.WithRole | src/main/java/com/taskmanager/taskmanager/service/UserService.java:79-93 | the role is present afterwards, at most that role is added, and a role already present changes nothing |
| Users.WithoutRole | src/main/java/com/taskmanager/taskmanager/service/UserService.java:95-111 | not-found exactly for an absent role, TEAM_MEMBER is kept, any other role is removed and nothing else |
| Users.AddRoleIdempotent | src/main/java/com/taskmanager/taskmanager/service/UserService.java:85-88 | adding a role twice is adding it once |
| Users.RemoveUndoesAdd | src/main/java/com/taskmanager/taskmanager/service/UserService.java:95-111 | removing a role just added restores the set, except that TEAM_MEMBER stays |
| Users.TeamMemberIsPermanent | src/main/java/com/taskmanager/taskmanager/service/UserService.java:102-105 | no role operation takes TEAM_MEMBER away |
| Users.UserService.ListAll | src/main/java/com/taskmanager/taskmanager/service/UserService.java:33-40 | exactly the live users, with their rows |
| Users.UserService.FindById | src/main/java/com/taskmanager/taskmanager/service/UserService.java:123-130 | the row exactly when the user is live, otherwise not-found |
| Users.UserService.ExistsByEmail | src/main/java/com/taskmanager/taskmanager/service/UserService.java:146-152 | already-exists exactly when a live user holds the email |
| Users.UserService.FindByEmail | src/main/java/com/taskmanager/taskmanager/service/UserService.java:132-139 | the live user holding the email, who is the only one, or not-found |
| Users.UserService.Save | src/main/java/com/taskmanager/taskmanager/service/UserService.java:49-56 | already-exists with no write for a live duplicate email, otherwise the user is stored with roles exactly {TEAM_MEMBER} |
| Users.UserService.Update | src/main/java/com/taskmanager/taskmanager/service/UserService.java:58-77 | not-found, access-denied for another account, already-exists only when the email changes to a taken one, each with no write; otherwise name, email and password are overwritten |
| Users.UserService.AddRole | src/main/java/com/taskmanager/taskmanager/service/UserService.java:79-93 | the row's roles become `WithRole`, with no write when the role is already present |
| Users.UserService.RemoveRole | src/main/java/com/taskmanager/taskmanager/service/UserService.java:95-111 | the outcome is `WithoutRole`, and TEAM_MEMBER never causes a write |
| Users.UserService.Delete | src/main/java/com/taskmanager/taskmanager/service/UserService.java:113-121 | the user is soft-deleted and the user's sessions revoked; afterwards the id is not found and the user has no live token |
| Auth.NewUser | src/main/java/com/taskmanager/taskmanager/service/AuthService.java:38-42 | the row `register` builds holds the encoder's output as password, never the raw one |
| Auth.Authenticated | src/main/java/com/taskmanager/taskmanager/service/AuthService.java:50-75 | not-found exactly when no live user holds the email; otherwise the outcome is that user exactly when the oracle accepts the password against the user's stored hash, and bad credentials when it does not |
| Auth.RegisteredUserCanLogIn | src/main/java/com/taskmanager/taskmanager/service/AuthService.java:35-75 | with an encoder the oracle accepts, a user just registered authenticates with the same email and password |
| Auth.AuthService.Register | src/main/java/com/taskmanager/taskmanager/service/AuthService.java:35-48 | already-exists for a live duplicate email; otherwise the stored password is the encoder's output; no session is created |
| Auth.AuthService.Login | src/main/java/com/taskmanager/taskmanager/service/AuthService.java:50-75 | failures are `Authenticated`'s and create no token; success answers the user and an access token for the email, and the new refresh token is the user's only live one |
| Auth.AuthService.Refresh | src/main/java/com/taskmanager/taskmanager/service/AuthService.java:77-83 | exactly the token service's rotation, errors passed through unchanged |
| Auth.AuthService.Logout | src/main/java/com/taskmanager/taskmanager/service/AuthService.java:85-90 | exactly the revoke by string: not-found for an unknown or consumed token |
| Projects.RenameKeepsCanonicalNames | src/main/java/com/taskmanager/taskmanager/service/ProjectService.java:74-78 | a rename that is a case change or takes a free upper-cased name keeps live names canonical and unique |
| Projects.RetiringKeepsInvariants | src/main/java/com/taskmanager/taskmanager/service/ProjectService.java:88-97 | soft-deleting projects keeps canonical names, owners and task references intact |
| Projects.SoftDeletedAll | src/main/java/com/taskmanager/taskmanager/service/ProjectService.java:123-128 | the given rows are soft-deleted and every other row is unchanged |
| Projects.SoftDeletedAllStep | src/main/java/com/taskmanager/taskmanager/service/ProjectService.java:124 | soft-deleting one more row extends the cascade by that row |
| Projects.OneEventPerStep | src/main/java/com/taskmanager/taskmanager/service/ProjectService.java:125 | publishing one more event keeps one event per retired project, each once |
| Projects.SoftDeleteEach | src/main/java/com/taskmanager/taskmanager/service/ProjectService.java:123-126 | the loop soft-deletes exactly the given rows and publishes one `ProjectDeleted` per row, each exactly once |
| Projects.CascadeRetiresExactlyTheOwner | src/main/java/com/taskmanager/taskmanager/service/ProjectService.java:118-131 | after the cascade the owner has no live project, and other owners' projects are untouched |
| Projects.CascadeIdempotent | src/main/java/com/taskmanager/taskmanager/service/ProjectService.java:118-131 | a second cascade finds nothing to delete and changes nothing |
| Projects.StatusUpdated | src/main/java/com/taskmanager/taskmanager/service/ProjectService.java:104-109 | a COMPLETED project refuses the change, an unknown name is an illegal argument, otherwise only the status changes, to the named one |
| Projects.StatusUpdateByName | src/main/java/com/taskmanager/taskmanager/service/ProjectService.java:104-109 | every status can be set by its name on a project that is not completed |
| Projects.ProjectService.FindById | src/main/java/com/taskmanager/taskmanager/service/ProjectService.java:133-140 | the row exactly when the project is live, otherwise not-found |
| Projects.ProjectService.ExistsByTitle | src/main/java/com/taskmanager/taskmanager/service/ProjectService.java:142-148 | already-exists exactly when a live project holds the name |
| Projects.ProjectService.ListAllByProprietaireId | src/main/java/com/taskmanager/taskmanager/service/ProjectService.java:40-48 | the answer is the owner's current live projects; a miss with an unknown owner is not-found; only a miss fills the cache |
| Projects.ProjectService.GetById | src/main/java/com/taskmanager/taskmanager/service/ProjectService.java:50-56 | the answer equals `FindById`, whether it comes from the cache or the table |
| Projects.ProjectService.Save | src/main/java/com/taskmanager/taskmanager/service/ProjectService.java:58-67 | already-exists for a taken upper-cased name, then not-found for a missing owner, each with no write; otherwise the project is stored under the upper-cased name and "projects" evicted |
| Projects.ProjectService.Update | src/main/java/com/taskmanager/taskmanager/service/ProjectService.java:69-86 | the name is re-checked only when it differs ignoring case and is stored upper-cased; description, status (with no COMPLETED guard) and owner are overwritten |
| Projects.ProjectService.Delete | src/main/java/com/taskmanager/taskmanager/service/ProjectService.java:88-97 | not-found with no change, or the project soft-deleted with exactly one `ProjectDeleted` for its id; afterwards it is not found |
| Projects.ProjectService.UpdateStatus | src/main/java/com/taskmanager/taskmanager/service/ProjectService.java:99-113 | the outcome is `StatusUpdated` on the live project; only a success writes and evicts "projects" |
| Projects.ProjectService.DeleteAllByProprietaireId | src/main/java/com/taskmanager/taskmanager/service/ProjectService.java:115-131 | the owner's live projects are soft-deleted, one event per project is appended, and "projects" is evicted |
| TaskEntity.JavaDiv | src/main/java/com/taskmanager/taskmanager/entity/Task.java:59 | `long` division truncates toward zero: for a non-negative dividend the quotient is the largest multiple not above it, for a negative one the smallest multiple not below it |
| TaskEntity.DurationHoursBounds | src/main/java/com/taskmanager/taskmanager/entity/Task.java:59 | the truncated hours are at most zero for a due date not in the future, and the whole hours rounded down for a future one |
| TaskEntity.DurationHours | src/main/java/com/taskmanager/taskmanager/entity/Task.java:59 | `Duration.between(now, due).toHours()`: the duration floored to whole seconds, then divided by 3600 with truncation toward zero |
| TaskEntity.EstimatedHours | src/main/java/com/taskmanager/taskmanager/entity/Task.java:58-60 | never negative, zero for a due date not in the future, and otherwise `h` whole hours with `h` hours ≤ the duration < `h`+1 hours |
| TaskEntity.NewTask | src/main/java/com/taskmanager/taskmanager/entity/Task.java:34-37 | a newly built task is live, has status TO_DO and no estimated hours, and holds the given fields |
| TaskEntity.PrePersist | src/main/java/com/taskmanager/taskmanager/entity/Task.java:55-62 | with no due date the row is unchanged; otherwise only the estimated hours change, to `EstimatedHours` |
| TaskEntity.PrePersistHours | src/main/java/com/taskmanager/taskmanager/entity/Task.java:55-62 | after the hook the hours are never negative, zero for a past due date and the truncated whole hours for a future one |
| TaskEntity.HoursTruncate | src/main/java/com/taskmanager/taskmanager/entity/Task.java:59 | one hour minus a millisecond gives 0 hours, one hour gives 1 |
| Tasks.DispatchIsMatching | src/main/java/com/taskmanager/taskmanager/service/TaskService.java:46-76 | whatever filters are given, the finder the if-chain picks returns exactly the live tasks matching all of them |
| Tasks.Dispatch | src/main/java/com/taskmanager/taskmanager/service/TaskService.java:46-76 | the finder the if-chain of `listTasks` calls, first match in source order; its meaning is stated by `DispatchIsMatching` |
| Tasks.NoFilterListsAllLive | src/main/java/com/taskmanager/taskmanager/service/TaskService.java:75-76 | with no filter every live task is listed |
| Tasks.Patched | src/main/java/com/taskmanager/taskmanager/service/TaskService.java:117-132 | each field given in the request is replaced and every other field, status and deletion marker included, keeps its value |
| Tasks.PatchEmptyAndIdempotent | src/main/java/com/taskmanager/taskmanager/service/TaskService.java:117-132 | an empty request changes nothing and applying a request twice is applying it once |
| Tasks.LocalDateTimeFrom | src/main/java/com/taskmanager/taskmanager/service/TaskService.java:173 | the conversion succeeds exactly for a temporal carrying a local date-time |
| Tasks.InstantNeverConverts | src/main/java/com/taskmanager/taskmanager/service/TaskService.java:173 | converting an instant fails for every instant |
| Tasks.TaskService.FindById | src/main/java/com/taskmanager/taskmanager/service/TaskService.java:179-187 | the row exactly when the task is present and live, otherwise not-found |
| Tasks.TaskService.ProjectRow | src/main/java/com/taskmanager/taskmanager/service/TaskService.java:90-91 | null is an illegal argument, an absent id is not-found, a soft-deleted project is accepted |
| Tasks.TaskService.UserRow | src/main/java/com/taskmanager/taskmanager/service/TaskService.java:93-94 | null is an illegal argument, an absent id is not-found, a soft-deleted user is accepted |
| Tasks.TaskService.ListTasks | src/main/java/com/taskmanager/taskmanager/service/TaskService.java:40-77 | the answer is the live tasks matching every given filter, whether from the cache or the finder |
| Tasks.TaskService.GetById | src/main/java/com/taskmanager/taskmanager/service/TaskService.java:79-84 | the answer equals `FindById`, whether it comes from the cache or the table |
| Tasks.TaskService.ListOverdueTasks | src/main/java/com/taskmanager/taskmanager/service/TaskService.java:189-194 | the single key 'overdue' serves every page; the answer is current live rows |
| Tasks.TaskService.CreateTask | src/main/java/com/taskmanager/taskmanager/service/TaskService.java:86-109 | a missing project, then a missing assignee, fails with no write; otherwise the stored task is the built one after `prePersist`, with status TO_DO, and "tasks" is evicted |
| Tasks.TaskService.UpdateTask | src/main/java/com/taskmanager/taskmanager/service/TaskService.java:111-137 | not-found with no write for an unknown task, project or assignee; otherwise the task becomes `Patched` and "tasks" is evicted |
| Tasks.TaskService.AssignTask | src/main/java/com/taskmanager/taskmanager/service/TaskService.java:139-153 | fails exactly for an unknown task or user; otherwise only the assignee changes |
| Tasks.TaskService.UpdateStatus | src/main/java/com/taskmanager/taskmanager/service/TaskService.java:155-166 | fails exactly for an unknown task; otherwise only the status changes, to any value |
| Tasks.TaskService.DeleteTaskAsWritten | src/main/java/com/taskmanager/taskmanager/service/TaskService.java:168-177 | as written, the call never deletes: not-found, or the date-time error, and the store is unchanged |
| Tasks.TaskService.DeleteTask | src/main/java/com/taskmanager/taskmanager/service/TaskService.java:168-177 | the task is stamped deleted at `now`, one `TaskDeleted` is published and "tasks" is evicted; afterwards it is not found |

## Left out

- JWT encoding and HS256 signing (RFC 7519, section 3.2 of RFC 7518): an access token is its claims (subject, issue time, expiry), and `getEmailFromToken` and `getExpirationDateFromToken` read those claims directly.
- `PasswordEncoder` and `AuthenticationManager` are the parameters `encode` and `matches`; hashing is not modelled.
- The authenticated principal from `SecurityContextHolder` is the input `principal` of `UserService.Update`.
- Clocks and random UUIDs are inputs: `now`, the new row id and the new token string.
- Pagination and sorting: a page request is only part of a cache key, and every query answers with its whole result.
- Column constraints (`nullable = false`) are not enforced by the model.
- `ToUpperCase` maps only the ASCII letters a-z; Java's locale-dependent case mapping of other characters is not modelled.
- Concurrency, transactions other than the all-or-nothing effect of a failing call, and concurrent refresh races are not modelled.
- The controllers, the Redis and Jackson configuration, `UserDataInitializer`, the DTO field copying and the event listeners are not part of this model; events are only appended to the log.
- `UserService.getById` is `findById` followed by a field copy and has no member of its own.
- `TaskRepository` declares no `findOverdueTasks`; `Tasks.TaskService.ListOverdueTasks` takes the finder's answer as the parameter `found`, constrained to current live rows.
- `ProjectRequest` declares no `nom` component although `save` and `update` read one; the model's request carries a name.
- `ProjectRequest.from` copies no name; `save` stores the upper-cased name it checked.
- `UserService.delete` publishes no owner-deleted event; `Projects.ProjectService.DeleteAllByProprietaireId` is a separate operation.
- The soft-deletes at `TokenService.java:76` and `:95` have no explicit save of their own; the model writes the soft-delete in place. Whether the one at `:95`, followed at once by an exception outside any transaction, reaches the table depends on persistence configuration outside these sources.
- Users.UserService.Update: stores the password exactly as given (not encoded), as the code does.
- Cached project answers (`ProjectResponse`) carry the owner's user name, which `Users.UserService.Update` changes without evicting "projects"; the model caches the project row, which refers to the owner by id, so this stale name is not captured and the cache coherence invariant does not speak about it.
- Projects.ProjectService.ListAllByProprietaireId: a cache hit answers without checking that the owner is still a live user, as `@Cacheable` does.
- TaskEntity.PrePersist: modelled as a function on the row value, applied once on create; it does not run on update.
- Projects.SoftDeleteEach: works on a copy of the table and a local event list; `DeleteAllByProprietaireId` then writes them back at once, as `saveAll` does.
- A refresh token created with a TTL of zero still refreshes within the same millisecond, because the expiry test is strict; `Tokens.ZeroTtlBoundary` states this.
- Logging out twice fails with not-found the second time, as the code throws; it is not idempotent.
- `TaskServiceTest` expects an exception for an empty overdue list that `listOverdueTasks` never raises; that expectation is not modelled.

## Findings

| source | as written | input that shows it | evidently intended | confidence | as-written member | corrected member |
|---|---|---|---|---|---|---|
| src/main/java/com/taskmanager/taskmanager/service/TaskService.java:173 | `LocalDateTime.from(Instant.now())` throws `DateTimeException`, because an `Instant` carries no local date-time; the task is never soft-deleted and no event is published | `deleteTask` on any live task, at any time | stamp the deletion time, save, publish `TaskDeletedEvent`, evict "tasks" | not executed | Tasks.TaskService.DeleteTaskAsWritten | Tasks.TaskService.DeleteTask |
