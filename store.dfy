/** The abstract in-memory store behind the repositories: the four tables,
    the cache (keyed by cache name and key) and the log of published events.
    The "...AndDeletedAtNull" finders of the repositories are the live-row
    filters defined here. */
module Persistence {
  import opened Model

  /** The two cache names used by `@Cacheable`/`@CacheEvict`. */
  datatype CacheName = ProjectsCache | TasksCache

  /** Page number and size of a `Pageable`; part of the default cache keys. */
  datatype PageRequest = PageRequest(page: nat, size: nat)

  /** The optional filters of `listTasks` (null is `None`). */
  datatype TaskFilter = TaskFilter(statut: Option<Status>, assignee: Option<Uuid>,
                                   priorite: Option<PriorityLevel>)

  /** One cache entry key per cached query, each belonging to one cache name. */
  datatype CacheKey =
    | ProjectsOfOwner(owner: Uuid, pageable: PageRequest)   // listAllByProprietaireId
    | ProjectWithId(projectId: Uuid)                        // ProjectService.getById, key #id
    | TasksMatching(filter: TaskFilter, pageable: PageRequest)  // listTasks
    | TaskWithId(taskId: Uuid)                              // TaskService.getById, key #id
    | OverdueTasks                                          // listOverdueTasks, key 'overdue'
  {
    function Name(): CacheName {
      if ProjectsOfOwner? || ProjectWithId? then ProjectsCache else TasksCache
    }
  }

  datatype CacheValue =
    | ProjectPage(projects: map<Uuid, Project>)
    | OneProject(project: Project)
    | TaskPage(tasks: map<Uuid, Task>)
    | OneTask(task: Task)

  /** Events handed to the application event publisher. */
  datatype Event = ProjectDeleted(projectId: Uuid) | TaskDeleted(taskId: Uuid)

  // ---------------------------------------------------------------------
  // Live-row queries (the repositories' derived finders)
  // ---------------------------------------------------------------------

  /** existsByEmailAndDeletedAtNull */
  predicate EmailTaken(users: map<Uuid, User>, email: string) {
    exists k :: k in users && users[k].Live() && users[k].email == email
  }

  /** The one live user holding `email`, under unique live emails. */
  ghost function UserWithEmail(users: map<Uuid, User>, email: string): (k: Uuid)
    requires EmailTaken(users, email)
    ensures k in users && users[k].Live() && users[k].email == email
  {
    var k :| k in users && users[k].Live() && users[k].email == email; k
  }

  /** existsByNomAndDeletedAtNull */
  predicate NameTaken(projects: map<Uuid, Project>, name: string) {
    exists k :: k in projects && projects[k].Live() && projects[k].nom == name
  }

  /** findAll(...)ByProprietaireId_IdAndDeletedAtNull, as a whole collection. */
  function OwnedLive(projects: map<Uuid, Project>, owner: Uuid): (r: map<Uuid, Project>)
    ensures forall k :: k in r <==> k in projects && projects[k].Live() && projects[k].owner == owner
    ensures forall k :: k in r ==> r[k] == projects[k]
  {
    map k | k in projects && projects[k].Live() && projects[k].owner == owner :: projects[k]
  }

  /** A live task that satisfies every non-null filter. */
  predicate Matches(t: Task, f: TaskFilter) {
    && t.Live()
    && (f.statut.Some? ==> t.statut == f.statut.value)
    && (f.assignee.Some? ==> t.assignee == f.assignee.value)
    && (f.priorite.Some? ==> t.priorite == Some(f.priorite.value))
  }

  /** The reference meaning of `listTasks`: the live tasks matching every
      filter given. */
  function MatchingTasks(tasks: map<Uuid, Task>, f: TaskFilter): map<Uuid, Task> {
    map k | k in tasks && Matches(tasks[k], f) :: tasks[k]
  }

  /** findByUserIdAndDeletedAtNull, as the set of matching rows. */
  function LiveTokensOf(tokens: map<Uuid, RefreshToken>, user: Uuid): set<Uuid> {
    set k | k in tokens && tokens[k].Live() && tokens[k].user == user
  }

  /** findByTokenAndDeletedAtNull, as the set of matching rows. */
  function LiveRowsWith(tokens: map<Uuid, RefreshToken>, s: string): set<Uuid> {
    set k | k in tokens && tokens[k].Live() && tokens[k].token == s
  }

  /** No row, live or not, carries the string (a fresh random UUID). */
  predicate UnusedToken(tokens: map<Uuid, RefreshToken>, s: string) {
    forall k :: k in tokens ==> tokens[k].token != s
  }

  /** `@CacheEvict(value = name, allEntries = true)`: drop every entry of the
      category `name`; entries of the other category stay. */
  function Evicted(cache: map<CacheKey, CacheValue>, name: CacheName): (r: map<CacheKey, CacheValue>)
    ensures forall key :: key in r <==> key in cache && key.Name() != name
    ensures forall key :: key in r ==> r[key] == cache[key]
  {
    map key | key in cache && key.Name() != name :: cache[key]
  }

  // ---------------------------------------------------------------------
  // Invariants of the store
  // ---------------------------------------------------------------------

  /** At most one live user per email (findByEmailAndDeletedAtNull is single). */
  predicate UniqueLiveEmails(users: map<Uuid, User>) {
    forall j, k | j in users && k in users && users[j].Live() && users[k].Live() &&
      users[j].email == users[k].email :: j == k
  }

  /** At most one live refresh token per user (findByUserIdAndDeletedAtNull is single). */
  predicate SingleSession(tokens: map<Uuid, RefreshToken>) {
    forall j, k | j in tokens && k in tokens && tokens[j].Live() && tokens[k].Live() &&
      tokens[j].user == tokens[k].user :: j == k
  }

  /** At most one live row per token string (findByTokenAndDeletedAtNull is single). */
  predicate UniqueLiveTokens(tokens: map<Uuid, RefreshToken>) {
    forall j, k | j in tokens && k in tokens && tokens[j].Live() && tokens[k].Live() &&
      tokens[j].token == tokens[k].token :: j == k
  }

  /** Every token belongs to a stored user, and a live token to a live user,
      except possibly for user `except` (whose session is being revoked). */
  predicate SessionsOfLiveUsersExcept(tokens: map<Uuid, RefreshToken>, users: map<Uuid, User>,
                                      except: Option<Uuid>) {
    forall k :: k in tokens ==>
      && tokens[k].user in users
      && (tokens[k].Live() && Some(tokens[k].user) != except ==> users[tokens[k].user].Live())
  }

  /** Live project names are stored upper-cased and are unique. */
  predicate CanonicalNames(projects: map<Uuid, Project>) {
    && (forall k :: k in projects && projects[k].Live() ==> ToUpperCase(projects[k].nom) == projects[k].nom)
    && (forall j, k | j in projects && k in projects && projects[j].Live() && projects[k].Live() &&
          projects[j].nom == projects[k].nom :: j == k)
  }

  predicate OwnersExist(projects: map<Uuid, Project>, users: map<Uuid, User>) {
    forall k :: k in projects ==> projects[k].owner in users
  }

  predicate TaskReferencesExist(tasks: map<Uuid, Task>, projects: map<Uuid, Project>,
                                users: map<Uuid, User>) {
    forall k :: k in tasks ==> tasks[k].projet in projects && tasks[k].assignee in users
  }

  /** A cached entry holds what its query returns from the tables now. The
      overdue entry depends on the clock, so of it only "current live rows" is
      kept. */
  predicate EntryCoherent(key: CacheKey, v: CacheValue, projects: map<Uuid, Project>,
                          tasks: map<Uuid, Task>) {
    match key
    case ProjectsOfOwner(o, _) => v == ProjectPage(OwnedLive(projects, o))
    case ProjectWithId(id) => id in projects && projects[id].Live() && v == OneProject(projects[id])
    case TasksMatching(f, _) => v == TaskPage(MatchingTasks(tasks, f))
    case TaskWithId(id) => id in tasks && tasks[id].Live() && v == OneTask(tasks[id])
    case OverdueTasks =>
      v.TaskPage? && forall k :: k in v.tasks ==> k in tasks && tasks[k].Live() && v.tasks[k] == tasks[k]
  }

  predicate CacheCoherent(cache: map<CacheKey, CacheValue>, projects: map<Uuid, Project>,
                          tasks: map<Uuid, Task>) {
    forall key :: key in cache ==> EntryCoherent(key, cache[key], projects, tasks)
  }

  /** Evicting "projects" keeps the cache coherent whatever the projects
      table becomes: the entries left depend on tasks only. */
  lemma EvictProjectsKeepsCoherence(cache: map<CacheKey, CacheValue>, projects: map<Uuid, Project>,
                                    projects': map<Uuid, Project>, tasks: map<Uuid, Task>)
    requires CacheCoherent(cache, projects, tasks)
    ensures CacheCoherent(Evicted(cache, ProjectsCache), projects', tasks)
  {
    var c := Evicted(cache, ProjectsCache);
    forall key | key in c ensures EntryCoherent(key, c[key], projects', tasks) {
      assert EntryCoherent(key, cache[key], projects, tasks);
    }
  }

  /** Evicting "tasks" keeps the cache coherent whatever the tasks table becomes. */
  lemma EvictTasksKeepsCoherence(cache: map<CacheKey, CacheValue>, projects: map<Uuid, Project>,
                                 tasks: map<Uuid, Task>, tasks': map<Uuid, Task>)
    requires CacheCoherent(cache, projects, tasks)
    ensures CacheCoherent(Evicted(cache, TasksCache), projects, tasks')
  {
    var c := Evicted(cache, TasksCache);
    forall key | key in c ensures EntryCoherent(key, c[key], projects, tasks') {
      assert EntryCoherent(key, cache[key], projects, tasks);
    }
  }

  class Store {
    var users: map<Uuid, User>
    var projects: map<Uuid, Project>
    var tasks: map<Uuid, Task>
    var tokens: map<Uuid, RefreshToken>
    var cache: map<CacheKey, CacheValue>
    var events: seq<Event>

    /** Every invariant except that the live tokens of user `except` may
        belong to a user already soft-deleted. */
    predicate ValidExcept(except: Option<Uuid>)
      reads this
    {
      && UniqueLiveEmails(users)
      && SingleSession(tokens)
      && UniqueLiveTokens(tokens)
      && SessionsOfLiveUsersExcept(tokens, users, except)
      && CanonicalNames(projects)
      && OwnersExist(projects, users)
      && TaskReferencesExist(tasks, projects, users)
      && CacheCoherent(cache, projects, tasks)
    }

    predicate Valid()
      reads this
    {
      ValidExcept(None)
    }

    /** Frame conditions: which parts of the store an operation may change. */
    twostate predicate Unchanged()
      reads this
    {
      old(users) == users && old(projects) == projects && old(tasks) == tasks &&
      old(tokens) == tokens && old(cache) == cache && old(events) == events
    }

    twostate predicate TokensOnly()
      reads this
    {
      old(users) == users && old(projects) == projects && old(tasks) == tasks &&
      old(cache) == cache && old(events) == events
    }

    twostate predicate UsersAndTokensOnly()
      reads this
    {
      old(projects) == projects && old(tasks) == tasks && old(cache) == cache && old(events) == events
    }

    twostate predicate ProjectSideOnly()
      reads this
    {
      old(users) == users && old(tasks) == tasks && old(tokens) == tokens
    }

    twostate predicate TaskSideOnly()
      reads this
    {
      old(users) == users && old(projects) == projects && old(tokens) == tokens
    }

    twostate predicate CacheOnly()
      reads this
    {
      old(users) == users && old(projects) == projects && old(tasks) == tasks &&
      old(tokens) == tokens && old(events) == events
    }

    constructor()
      ensures Valid()
      ensures users == map[] && projects == map[] && tasks == map[] && tokens == map[]
      ensures cache == map[] && events == []
    {
      users, projects, tasks, tokens := map[], map[], map[], map[];
      cache, events := map[], [];
    }
  }
}
