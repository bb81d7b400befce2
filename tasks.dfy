/** The task service: filter dispatch over the repository's finders, the
    cached lookups, creation with the pre-persist hook, partial update,
    reassignment, status change and soft-delete, each mutation emptying the
    whole "tasks" cache. */
module Tasks {
  import opened Model
  import opened Persistence
  import opened TaskEntity

  /** A create or update request; every field may be null. */
  datatype TaskRequest = TaskRequest(titre: Option<string>, description: Option<string>,
                                     dateEcheance: Option<Instant>, priorite: Option<PriorityLevel>,
                                     projetId: Option<Uuid>, assigneId: Option<Uuid>)

  // ---------------------------------------------------------------------
  // The repository's derived finders, one per combination of filters
  // ---------------------------------------------------------------------

  function FindAllByDeletedAtNull(tasks: map<Uuid, Task>): map<Uuid, Task> {
    map k | k in tasks && tasks[k].Live() :: tasks[k]
  }

  function FindByStatut(tasks: map<Uuid, Task>, s: Status): map<Uuid, Task> {
    map k | k in tasks && tasks[k].Live() && tasks[k].statut == s :: tasks[k]
  }

  function FindByAssignee(tasks: map<Uuid, Task>, a: Uuid): map<Uuid, Task> {
    map k | k in tasks && tasks[k].Live() && tasks[k].assignee == a :: tasks[k]
  }

  function FindByPriorite(tasks: map<Uuid, Task>, p: PriorityLevel): map<Uuid, Task> {
    map k | k in tasks && tasks[k].Live() && tasks[k].priorite == Some(p) :: tasks[k]
  }

  function FindByStatutAndAssignee(tasks: map<Uuid, Task>, s: Status, a: Uuid): map<Uuid, Task> {
    map k | k in tasks && tasks[k].Live() && tasks[k].statut == s && tasks[k].assignee == a :: tasks[k]
  }

  function FindByAssigneeAndPriorite(tasks: map<Uuid, Task>, a: Uuid, p: PriorityLevel): map<Uuid, Task> {
    map k | k in tasks && tasks[k].Live() && tasks[k].assignee == a && tasks[k].priorite == Some(p) :: tasks[k]
  }

  function FindByStatutAndPriorite(tasks: map<Uuid, Task>, s: Status, p: PriorityLevel): map<Uuid, Task> {
    map k | k in tasks && tasks[k].Live() && tasks[k].statut == s && tasks[k].priorite == Some(p) :: tasks[k]
  }

  function FindByStatutAndAssigneeAndPriorite(tasks: map<Uuid, Task>, s: Status, a: Uuid, p: PriorityLevel)
    : map<Uuid, Task>
  {
    map k | k in tasks && tasks[k].Live() && tasks[k].statut == s && tasks[k].assignee == a
                       && tasks[k].priorite == Some(p) :: tasks[k]
  }

  /** The query `listTasks` runs: the first finder, in the order of the
      if-chain, whose filters are all given. */
  function Dispatch(tasks: map<Uuid, Task>, f: TaskFilter): map<Uuid, Task> {
    if f.statut.Some? && f.assignee.Some? && f.priorite.Some? then
      FindByStatutAndAssigneeAndPriorite(tasks, f.statut.value, f.assignee.value, f.priorite.value)
    else if f.statut.Some? && f.assignee.Some? then FindByStatutAndAssignee(tasks, f.statut.value, f.assignee.value)
    else if f.assignee.Some? && f.priorite.Some? then
      FindByAssigneeAndPriorite(tasks, f.assignee.value, f.priorite.value)
    else if f.statut.Some? && f.priorite.Some? then FindByStatutAndPriorite(tasks, f.statut.value, f.priorite.value)
    else if f.statut.Some? then FindByStatut(tasks, f.statut.value)
    else if f.assignee.Some? then FindByAssignee(tasks, f.assignee.value)
    else if f.priorite.Some? then FindByPriorite(tasks, f.priorite.value)
    else FindAllByDeletedAtNull(tasks)
  }

  /** The if-chain loses no filter: whatever filters are given, the finder
      it picks returns exactly the live tasks matching all of them. */
  lemma DispatchIsMatching(tasks: map<Uuid, Task>, f: TaskFilter)
    ensures Dispatch(tasks, f) == MatchingTasks(tasks, f)
  {
    var d := Dispatch(tasks, f);
    var m := MatchingTasks(tasks, f);
    forall k | k in tasks ensures k in d <==> Matches(tasks[k], f) {
    }
    assert d.Keys == m.Keys;
  }

  /** With no filter, `listTasks` returns every live task: the reference
      filter with nothing given is the repository's `findAllByDeletedAtNull`,
      the last branch of the if-chain. */
  lemma NoFilterListsAllLive(tasks: map<Uuid, Task>)
    ensures MatchingTasks(tasks, TaskFilter(None, None, None)) == FindAllByDeletedAtNull(tasks)
  {
  }

  /** The task after the non-null fields of `req` are applied; status,
      estimated hours and deletion marker are never touched. */
  function Patched(t: Task, req: TaskRequest): (r: Task)
    ensures r.titre == (if req.titre.Some? then req.titre else t.titre)
    ensures r.description == (if req.description.Some? then req.description else t.description)
    ensures r.dateEcheance == (if req.dateEcheance.Some? then req.dateEcheance else t.dateEcheance)
    ensures r.priorite == (if req.priorite.Some? then req.priorite else t.priorite)
    ensures r.projet == (if req.projetId.Some? then req.projetId.value else t.projet)
    ensures r.assignee == (if req.assigneId.Some? then req.assigneId.value else t.assignee)
    ensures r.statut == t.statut && r.heuresEstimees == t.heuresEstimees && r.deletedAt == t.deletedAt
  {
    var t1 := if req.titre.Some? then t.(titre := req.titre) else t;
    var t2 := if req.description.Some? then t1.(description := req.description) else t1;
    var t3 := if req.dateEcheance.Some? then t2.(dateEcheance := req.dateEcheance) else t2;
    var t4 := if req.priorite.Some? then t3.(priorite := req.priorite) else t3;
    var t5 := if req.projetId.Some? then t4.(projet := req.projetId.value) else t4;
    if req.assigneId.Some? then t5.(assignee := req.assigneId.value) else t5
  }

  /** An update with every field null changes nothing, and applying the same
      update twice is applying it once. */
  lemma PatchEmptyAndIdempotent(t: Task, req: TaskRequest)
    ensures Patched(t, TaskRequest(None, None, None, None, None, None)) == t
    ensures Patched(Patched(t, req), req) == Patched(t, req)
  {
  }

  /** `LocalDateTime.from(temporal)` needs a temporal that carries a local
      date and time; an `Instant` carries neither. */
  datatype Temporal = AnInstant(epochMilli: Instant) | ALocalDateTime(localMilli: int)

  function LocalDateTimeFrom(t: Temporal): (r: Result<int>)
    ensures r.Ok? <==> t.ALocalDateTime?
    ensures r.Err? ==> r.error == DateTimeError
  {
    match t
    case ALocalDateTime(m) => Ok(m)
    case AnInstant(_) => Err(DateTimeError)
  }

  /** The conversion `deleteTask` performs on the current instant fails for
      every instant: the failure does not depend on the clock, so no call of
      `deleteTask` on a live task ever reaches the save. */
  lemma InstantNeverConverts(now: Instant)
    ensures LocalDateTimeFrom(AnInstant(now)) == Err(DateTimeError)
  {
  }

  class TaskService {
    const store: Store

    constructor(store: Store)
      ensures this.store == store
    {
      this.store := store;
    }

    /** `findById`: the task with that id unless it is absent or
        soft-deleted. */
    function FindById(id: Uuid): (r: Result<Task>)
      reads store
      ensures r.Ok? <==> id in store.tasks && store.tasks[id].Live()
      ensures r.Ok? ==> r.value == store.tasks[id]
      ensures r.Err? ==> r.error == NotFound
    {
      if id in store.tasks && store.tasks[id].Live() then Ok(store.tasks[id]) else Err(NotFound)
    }

    /** `projectRepository.findById` / `userRepository.findById` on an id
        that may be null: an illegal argument for null, not-found for an
        absent row; soft-deleted rows are found. */
    function ProjectRow(id: Option<Uuid>): (r: Result<Uuid>)
      reads store
      ensures id.None? <==> r == Err(IllegalArgument)
      ensures r.Ok? <==> id.Some? && id.value in store.projects
      ensures r.Ok? ==> r.value == id.value
      ensures r.Err? ==> r.error in {IllegalArgument, NotFound}
    {
      if id.None? then Err(IllegalArgument)
      else if id.value in store.projects then Ok(id.value)
      else Err(NotFound)
    }

    function UserRow(id: Option<Uuid>): (r: Result<Uuid>)
      reads store
      ensures id.None? <==> r == Err(IllegalArgument)
      ensures r.Ok? <==> id.Some? && id.value in store.users
      ensures r.Ok? ==> r.value == id.value
      ensures r.Err? ==> r.error in {IllegalArgument, NotFound}
    {
      if id.None? then Err(IllegalArgument)
      else if id.value in store.users then Ok(id.value)
      else Err(NotFound)
    }

    /** `listTasks(filters, page)` (cached under the filters and page): the
        live tasks matching every filter given, from the cache or from the
        dispatched finder. */
    method ListTasks(f: TaskFilter, page: PageRequest) returns (r: map<Uuid, Task>)
      requires store.Valid()
      modifies store
      ensures store.Valid() && store.CacheOnly()
      ensures r == MatchingTasks(store.tasks, f)
      ensures TasksMatching(f, page) in old(store.cache) ==> store.cache == old(store.cache)
      ensures TasksMatching(f, page) !in old(store.cache) ==>
                store.cache == old(store.cache)[TasksMatching(f, page) := TaskPage(r)]
    {
      var key := TasksMatching(f, page);
      if key in store.cache {
        assert EntryCoherent(key, store.cache[key], store.projects, store.tasks);
        return store.cache[key].tasks;
      }
      DispatchIsMatching(store.tasks, f);
      r := Dispatch(store.tasks, f);
      store.cache := store.cache[key := TaskPage(r)];
    }

    /** `getById` (cached under the id): the live task, or not-found. */
    method GetById(id: Uuid) returns (r: Result<Task>)
      requires store.Valid()
      modifies store
      ensures store.Valid() && store.CacheOnly()
      ensures r == FindById(id)
      ensures TaskWithId(id) in old(store.cache) || r.Err? ==> store.cache == old(store.cache)
      ensures TaskWithId(id) !in old(store.cache) && r.Ok? ==>
                store.cache == old(store.cache)[TaskWithId(id) := OneTask(r.value)]
    {
      var key := TaskWithId(id);
      if key in store.cache {
        assert EntryCoherent(key, store.cache[key], store.projects, store.tasks);
        return Ok(store.cache[key].task);
      }
      r := FindById(id);
      if r.Ok? {
        store.cache := store.cache[key := OneTask(r.value)];
      }
    }

    /** `listOverdueTasks(page)`: cached under the single key 'overdue'
        whatever the page, so a hit answers with the entry cached for any
        page. The repository declares no overdue finder; its answer is the
        parameter `found`, a set of current live rows. */
    method ListOverdueTasks(page: PageRequest, found: map<Uuid, Task>) returns (r: map<Uuid, Task>)
      requires store.Valid()
      requires forall k :: k in found ==> k in store.tasks && store.tasks[k].Live() && found[k] == store.tasks[k]
      modifies store
      ensures store.Valid() && store.CacheOnly()
      ensures forall k :: k in r ==> k in store.tasks && store.tasks[k].Live() && r[k] == store.tasks[k]
      ensures OverdueTasks in old(store.cache) ==>
                r == old(store.cache)[OverdueTasks].tasks && store.cache == old(store.cache)
      ensures OverdueTasks !in old(store.cache) ==>
                r == found && store.cache == old(store.cache)[OverdueTasks := TaskPage(found)]
    {
      if OverdueTasks in store.cache {
        assert EntryCoherent(OverdueTasks, store.cache[OverdueTasks], store.projects, store.tasks);
        return store.cache[OverdueTasks].tasks;
      }
      store.cache := store.cache[OverdueTasks := TaskPage(found)];
      r := found;
    }

    /** `createTask(request)`: the project and the assignee must exist
        (soft-deleted rows included); the new task gets status TO_DO and its
        estimated hours from the pre-persist hook, and the "tasks" cache is
        emptied. */
    method CreateTask(req: TaskRequest, id: Uuid, now: Instant) returns (r: Result<Task>)
      requires store.Valid() && id !in store.tasks
      modifies store
      ensures store.Valid() && store.TaskSideOnly() && store.events == old(store.events)
      ensures r.Err? ==> store.Unchanged()
      ensures old(ProjectRow(req.projetId)).Err? ==> r == Err(old(ProjectRow(req.projetId)).error)
      ensures old(ProjectRow(req.projetId)).Ok? && old(UserRow(req.assigneId)).Err? ==>
                r == Err(old(UserRow(req.assigneId)).error)
      ensures old(ProjectRow(req.projetId)).Ok? && old(UserRow(req.assigneId)).Ok? ==>
                && r == Ok(PrePersist(NewTask(req.titre, req.description, req.dateEcheance, req.priorite,
                                              req.projetId.value, req.assigneId.value), now))
                && store.tasks == old(store.tasks)[id := r.value]
                && store.cache == Evicted(old(store.cache), TasksCache)
      ensures r.Ok? ==> r.value.statut == ToDo && r.value.Live()
    {
      var project := ProjectRow(req.projetId);
      if project.Err? {
        return Err(project.error);
      }
      var assignee := UserRow(req.assigneId);
      if assignee.Err? {
        return Err(assignee.error);
      }
      var task := NewTask(req.titre, req.description, req.dateEcheance, req.priorite, project.value, assignee.value);
      task := PrePersist(task, now);
      EvictTasksKeepsCoherence(store.cache, store.projects, store.tasks, store.tasks[id := task]);
      store.tasks := store.tasks[id := task];
      store.cache := Evicted(store.cache, TasksCache);
      r := Ok(task);
    }

    /** `updateTask(id, request)`: the non-null fields are applied; a given
        project or assignee that does not exist fails with not-found and,
        the method being transactional, leaves the task as it was. */
    method UpdateTask(id: Uuid, req: TaskRequest) returns (r: Result<Task>)
      requires store.Valid()
      modifies store
      ensures store.Valid() && store.TaskSideOnly() && store.events == old(store.events)
      ensures r.Err? ==> store.Unchanged() && r.error == NotFound
      ensures old(FindById(id)).Err? ==> r.Err?
      ensures old(FindById(id)).Ok? ==>
                if req.projetId.Some? && req.projetId.value !in old(store.projects) then r.Err?
                else if req.assigneId.Some? && req.assigneId.value !in old(store.users) then r.Err?
                else
                  && r == Ok(Patched(old(store.tasks)[id], req))
                  && store.tasks == old(store.tasks)[id := r.value]
                  && store.cache == Evicted(old(store.cache), TasksCache)
    {
      var found := FindById(id);
      if found.Err? {
        return Err(found.error);
      }
      if req.projetId.Some? {
        var project := ProjectRow(req.projetId);
        if project.Err? {
          return Err(project.error);
        }
      }
      if req.assigneId.Some? {
        var assignee := UserRow(req.assigneId);
        if assignee.Err? {
          return Err(assignee.error);
        }
      }
      var task := Patched(found.value, req);
      EvictTasksKeepsCoherence(store.cache, store.projects, store.tasks, store.tasks[id := task]);
      store.tasks := store.tasks[id := task];
      store.cache := Evicted(store.cache, TasksCache);
      r := Ok(task);
    }

    /** `assignTask(taskId, assigneeId)`: only the assignee changes. */
    method AssignTask(taskId: Uuid, assigneeId: Uuid) returns (r: Result<Task>)
      requires store.Valid()
      modifies store
      ensures store.Valid() && store.TaskSideOnly() && store.events == old(store.events)
      ensures r.Err? ==> store.Unchanged() && r.error == NotFound
      ensures r.Err? <==> old(FindById(taskId)).Err? || assigneeId !in old(store.users)
      ensures r.Ok? ==> && r.value == old(store.tasks)[taskId].(assignee := assigneeId)
                        && store.tasks == old(store.tasks)[taskId := r.value]
                        && store.cache == Evicted(old(store.cache), TasksCache)
    {
      var found := FindById(taskId);
      if found.Err? {
        return Err(found.error);
      }
      var assignee := UserRow(Some(assigneeId));
      if assignee.Err? {
        return Err(assignee.error);
      }
      var task := found.value.(assignee := assignee.value);
      EvictTasksKeepsCoherence(store.cache, store.projects, store.tasks, store.tasks[taskId := task]);
      store.tasks := store.tasks[taskId := task];
      store.cache := Evicted(store.cache, TasksCache);
      r := Ok(task);
    }

    /** `updateStatus(taskId, status)`: any status may be set, COMPLETED
        included and from COMPLETED. */
    method UpdateStatus(taskId: Uuid, status: Status) returns (r: Result<Task>)
      requires store.Valid()
      modifies store
      ensures store.Valid() && store.TaskSideOnly() && store.events == old(store.events)
      ensures r.Err? <==> old(FindById(taskId)).Err?
      ensures r.Err? ==> store.Unchanged() && r.error == NotFound
      ensures r.Ok? ==> && r.value == old(store.tasks)[taskId].(statut := status)
                        && store.tasks == old(store.tasks)[taskId := r.value]
                        && store.cache == Evicted(old(store.cache), TasksCache)
    {
      var found := FindById(taskId);
      if found.Err? {
        return Err(found.error);
      }
      var task := found.value.(statut := status);
      EvictTasksKeepsCoherence(store.cache, store.projects, store.tasks, store.tasks[taskId := task]);
      store.tasks := store.tasks[taskId := task];
      store.cache := Evicted(store.cache, TasksCache);
      r := Ok(task);
    }

    /** `deleteTask(taskId)` as written: the deletion time is obtained with
        `LocalDateTime.from(Instant.now())`, which always fails, and the
        transaction leaves everything as it was. */
    method DeleteTaskAsWritten(taskId: Uuid, now: Instant) returns (r: Result<()>)
      requires store.Valid()
      modifies store
      ensures store.Unchanged()
      ensures old(FindById(taskId)).Err? ==> r == Err(NotFound)
      ensures old(FindById(taskId)).Ok? ==> r == Err(DateTimeError)
    {
      var found := FindById(taskId);
      if found.Err? {
        return Err(found.error);
      }
      // The conversion fails for every instant, so the stamp, the save and
      // the event publication after it are never reached.
      var deletedAt := LocalDateTimeFrom(AnInstant(now));
      r := Err(deletedAt.error);
    }

    /** `deleteTask(taskId)` as intended: stamp the deletion time, publish
        one `TaskDeleted` and empty the "tasks" cache; afterwards the task
        is no longer found. */
    method DeleteTask(taskId: Uuid, now: Instant) returns (r: Result<()>)
      requires store.Valid()
      modifies store
      ensures store.Valid() && store.TaskSideOnly()
      ensures old(FindById(taskId)).Err? ==> r == Err(NotFound) && store.Unchanged()
      ensures old(FindById(taskId)).Ok? ==>
                && r == Ok(())
                && store.tasks == old(store.tasks)[taskId := old(store.tasks)[taskId].(deletedAt := Some(now))]
                && store.events == old(store.events) + [TaskDeleted(taskId)]
                && store.cache == Evicted(old(store.cache), TasksCache)
      ensures FindById(taskId) == Err(NotFound)
    {
      var found := FindById(taskId);
      if found.Err? {
        return Err(found.error);
      }
      var task := found.value.(deletedAt := Some(now));
      EvictTasksKeepsCoherence(store.cache, store.projects, store.tasks, store.tasks[taskId := task]);
      store.tasks := store.tasks[taskId := task];
      store.events := store.events + [TaskDeleted(taskId)];
      store.cache := Evicted(store.cache, TasksCache);
      r := Ok(());
    }
  }
}
