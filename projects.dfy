/** The project service: names stored upper-cased and unique among live
    projects, COMPLETED terminal for status changes, soft-delete with a
    published event, the per-owner cascade, and the "projects" cache. */
module Projects {
  import opened Model
  import opened Persistence
  import opened Users

  /** The fields of a create or update request, with the project name. */
  datatype ProjectRequest = ProjectRequest(proprietaireId: Uuid, nom: string, description: string,
                                           statut: Status, dateDebut: Option<Instant>)

  /** A rename to `nom` keeps the live names canonical and unique when the
      new name equals the old one ignoring case or no live project holds
      its upper-cased form. */
  lemma RenameKeepsCanonicalNames(projects: map<Uuid, Project>, id: Uuid, nom: string, p: Project)
    requires CanonicalNames(projects) && id in projects && projects[id].Live()
    requires EqualsIgnoreCase(projects[id].nom, nom) || !NameTaken(projects, ToUpperCase(nom))
    requires p.nom == ToUpperCase(nom) && p.Live()
    ensures CanonicalNames(projects[id := p])
  {
    ToUpperCaseIdempotent(nom);
    if EqualsIgnoreCase(projects[id].nom, nom) {
      EqualsIgnoreCaseIffSameUpper(projects[id].nom, nom);
      assert p.nom == projects[id].nom;
    }
    var q := projects[id := p];
    assert forall k :: k in q && k != id ==> q[k] == projects[k];
  }

  /** `p'` differs from `p` only by soft-deleting some rows. */
  predicate OnlyRetired(p: map<Uuid, Project>, p': map<Uuid, Project>) {
    && p'.Keys == p.Keys
    && forall k :: k in p' ==> p'[k] == p[k] || (!p'[k].Live() && p'[k].owner == p[k].owner)
  }

  /** Soft-deleting projects keeps names canonical and references intact. */
  lemma RetiringKeepsInvariants(p: map<Uuid, Project>, p': map<Uuid, Project>, users: map<Uuid, User>,
                                tasks: map<Uuid, Task>)
    requires OnlyRetired(p, p')
    requires CanonicalNames(p) && OwnersExist(p, users) && TaskReferencesExist(tasks, p, users)
    ensures CanonicalNames(p') && OwnersExist(p', users) && TaskReferencesExist(tasks, p', users)
  {
    assert forall k :: k in p' && p'[k].Live() ==> p'[k] == p[k];
  }

  /** The projects table after soft-deleting the rows `ids`. */
  function SoftDeletedAll(projects: map<Uuid, Project>, ids: set<Uuid>, now: Instant): (r: map<Uuid, Project>)
    ensures r.Keys == projects.Keys
    ensures forall k :: k in projects && k in ids ==> r[k] == projects[k].SoftDelete(now)
    ensures forall k :: k in projects && k !in ids ==> r[k] == projects[k]
  {
    map k | k in projects :: if k in ids then projects[k].SoftDelete(now) else projects[k]
  }

  /** The published events are one `ProjectDeleted` per id of `ids`, each
      exactly once. */
  predicate OneEventPer(es: seq<Event>, ids: set<Uuid>) {
    && (forall i :: 0 <= i < |es| ==> es[i].ProjectDeleted? && es[i].projectId in ids)
    && (forall id :: id in ids ==> ProjectDeleted(id) in es)
    && (forall i, j | 0 <= i < j < |es| :: es[i] != es[j])
  }

  /** One more row soft-deleted by the cascade. */
  lemma SoftDeletedAllStep(projects: map<Uuid, Project>, done: set<Uuid>, k: Uuid, now: Instant)
    requires k in projects && k !in done
    ensures SoftDeletedAll(projects, done + {k}, now) == SoftDeletedAll(projects, done, now)[k := projects[k].SoftDelete(now)]
  {
  }

  /** One more event published by the cascade. */
  lemma OneEventPerStep(es: seq<Event>, done: set<Uuid>, k: Uuid)
    requires OneEventPer(es, done) && k !in done
    ensures OneEventPer(es + [ProjectDeleted(k)], done + {k})
  {
    var es' := es + [ProjectDeleted(k)];
    assert forall i :: 0 <= i < |es| ==> es'[i] == es[i] && es[i].projectId != k;
  }

  /** The loop of the cascade: soft-delete each project of `ids` in turn
      and publish its `ProjectDeleted`; the rows are written back by
      `saveAll` once the loop is done. */
  method SoftDeleteEach(projects: map<Uuid, Project>, ids: set<Uuid>, now: Instant)
    returns (retired: map<Uuid, Project>, published: seq<Event>)
    requires ids <= projects.Keys
    ensures retired == SoftDeletedAll(projects, ids, now)
    ensures OneEventPer(published, ids)
  {
    retired, published := projects, [];
    var todo := ids;
    ghost var done: set<Uuid> := {};
    while todo != {}
      invariant todo + done == ids && todo !! done
      invariant retired == SoftDeletedAll(projects, done, now)
      invariant OneEventPer(published, done)
      decreases todo
    {
      var k :| k in todo;
      SoftDeletedAllStep(projects, done, k, now);
      OneEventPerStep(published, done, k);
      retired := retired[k := retired[k].SoftDelete(now)];
      published := published + [ProjectDeleted(k)];
      todo := todo - {k};
      done := done + {k};
    }
  }

  /** The cascade leaves no live project of the owner and spares every
      project of another owner. */
  lemma CascadeRetiresExactlyTheOwner(projects: map<Uuid, Project>, owner: Uuid, now: Instant)
    ensures var r := SoftDeletedAll(projects, OwnedLive(projects, owner).Keys, now);
      && OwnedLive(r, owner) == map[]
      && (forall k :: k in projects && projects[k].owner != owner ==> r[k] == projects[k])
  {
    var r := SoftDeletedAll(projects, OwnedLive(projects, owner).Keys, now);
    assert forall k :: k in r && r[k].Live() && r[k].owner == owner ==> k !in OwnedLive(projects, owner);
  }

  /** Running the cascade a second time finds nothing to delete. */
  lemma CascadeIdempotent(projects: map<Uuid, Project>, owner: Uuid, now: Instant, now': Instant)
    ensures var r := SoftDeletedAll(projects, OwnedLive(projects, owner).Keys, now);
      SoftDeletedAll(r, OwnedLive(r, owner).Keys, now') == r
  {
    CascadeRetiresExactlyTheOwner(projects, owner, now);
  }

  /** The outcome of `updateStatus(name)` on a project: a COMPLETED project
      refuses any change, an unknown name is an illegal argument, otherwise
      the status becomes the named one. */
  function StatusUpdated(p: Project, name: string): (r: Result<Project>)
    ensures p.statut == Status.Completed ==> r == Err(StatusChange)
    ensures p.statut != Status.Completed && StatusValueOf(name).Err? ==> r == Err(IllegalArgument)
    ensures r.Ok? ==> r.value == p.(statut := r.value.statut) && StatusName(r.value.statut) == name
  {
    if p.statut == Status.Completed then Err(StatusChange)
    else match StatusValueOf(name)
      case Err(e) => Err(e)
      case Ok(s) => Ok(p.(statut := s))
  }

  /** Every status can be set by its name on a project that is not completed. */
  lemma StatusUpdateByName(p: Project, s: Status)
    requires p.statut != Status.Completed
    ensures StatusUpdated(p, StatusName(s)) == Ok(p.(statut := s))
  {
    StatusNameRoundTrip(s);
  }

  class ProjectService {
    const store: Store
    const users: UserService

    constructor(store: Store, users: UserService)
      requires users.store == store
      ensures this.store == store && this.users == users && Wired()
    {
      this.store := store;
      this.users := users;
    }

    /** The user service works on the same store. */
    predicate Wired() {
      users.store == store
    }

    /** `findById`: the live project with that id, or not-found. */
    function FindById(id: Uuid): (r: Result<Project>)
      reads store
      ensures r.Ok? <==> id in store.projects && store.projects[id].Live()
      ensures r.Ok? ==> r.value == store.projects[id]
      ensures r.Err? ==> r.error == NotFound
    {
      if id in store.projects && store.projects[id].Live() then Ok(store.projects[id]) else Err(NotFound)
    }

    /** `existsByTitle(name)`: already-exists when a live project is named so. */
    function ExistsByTitle(name: string): (r: Result<()>)
      reads store
      ensures r.Err? <==> exists k :: k in store.projects && store.projects[k].Live() && store.projects[k].nom == name
      ensures r.Err? ==> r.error == AlreadyExists
    {
      if NameTaken(store.projects, name) then Err(AlreadyExists) else Ok(())
    }

    /** `listAllByProprietaireId` (cached under the owner and page): a cache
        hit answers at once; a miss checks that the owner is a live user and
        caches the owner's live projects. Either way the answer is the
        owner's current live projects. */
    method ListAllByProprietaireId(owner: Uuid, page: PageRequest) returns (r: Result<map<Uuid, Project>>)
      requires store.Valid() && Wired()
      modifies store
      ensures store.Valid() && store.CacheOnly()
      ensures r.Ok? ==> r.value == OwnedLive(store.projects, owner)
      ensures var key := ProjectsOfOwner(owner, page);
        && (key in old(store.cache) ==> r.Ok? && store.cache == old(store.cache))
        && (key !in old(store.cache) && old(users.FindById(owner)).Err? ==>
              r == Err(NotFound) && store.cache == old(store.cache))
        && (key !in old(store.cache) && old(users.FindById(owner)).Ok? ==>
              r.Ok? && store.cache == old(store.cache)[key := ProjectPage(r.value)])
    {
      var key := ProjectsOfOwner(owner, page);
      if key in store.cache {
        assert EntryCoherent(key, store.cache[key], store.projects, store.tasks);
        return Ok(store.cache[key].projects);
      }
      var found := users.FindById(owner);
      if found.Err? {
        return Err(found.error);
      }
      var owned := OwnedLive(store.projects, owner);
      store.cache := store.cache[key := ProjectPage(owned)];
      r := Ok(owned);
    }

    /** `getById` (cached under the id): the live project, from the cache
        or from the table, or not-found. */
    method GetById(id: Uuid) returns (r: Result<Project>)
      requires store.Valid()
      modifies store
      ensures store.Valid() && store.CacheOnly()
      ensures r == FindById(id)
      ensures ProjectWithId(id) in old(store.cache) || r.Err? ==> store.cache == old(store.cache)
      ensures ProjectWithId(id) !in old(store.cache) && r.Ok? ==>
                store.cache == old(store.cache)[ProjectWithId(id) := OneProject(r.value)]
    {
      var key := ProjectWithId(id);
      if key in store.cache {
        assert EntryCoherent(key, store.cache[key], store.projects, store.tasks);
        return Ok(store.cache[key].project);
      }
      r := FindById(id);
      if r.Ok? {
        store.cache := store.cache[key := OneProject(r.value)];
      }
    }

    /** `save(request)`: refuse a live project already holding the
        upper-cased name, then a missing owner; otherwise store the project
        under its upper-cased name and empty the "projects" cache. */
    method Save(req: ProjectRequest, id: Uuid) returns (r: Result<Project>)
      requires store.Valid() && Wired() && id !in store.projects
      modifies store
      ensures store.Valid() && store.ProjectSideOnly() && store.events == old(store.events)
      ensures r.Err? ==> store.Unchanged()
      ensures NameTaken(old(store.projects), ToUpperCase(req.nom)) ==> r == Err(AlreadyExists)
      ensures !NameTaken(old(store.projects), ToUpperCase(req.nom)) ==>
                if old(users.FindById(req.proprietaireId)).Err? then r == Err(NotFound)
                else
                  && r == Ok(Project(ToUpperCase(req.nom), req.description, req.proprietaireId, req.statut,
                                     req.dateDebut, None, None))
                  && store.projects == old(store.projects)[id := r.value]
                  && store.cache == Evicted(old(store.cache), ProjectsCache)
    {
      var nom := ToUpperCase(req.nom);
      var taken := ExistsByTitle(nom);
      if taken.Err? {
        return Err(taken.error);
      }
      var owner := users.FindById(req.proprietaireId);
      if owner.Err? {
        return Err(owner.error);
      }
      var project := Project(nom, req.description, req.proprietaireId, req.statut, req.dateDebut, None, None);
      ToUpperCaseIdempotent(req.nom);
      EvictProjectsKeepsCoherence(store.cache, store.projects, store.projects[id := project], store.tasks);
      store.projects := store.projects[id := project];
      store.cache := Evicted(store.cache, ProjectsCache);
      r := Ok(project);
    }

    /** `update(id, request)`: the name is re-checked only when it differs
        ignoring case and is always stored upper-cased; description, status
        (with no COMPLETED guard) and owner are overwritten. */
    method Update(id: Uuid, req: ProjectRequest) returns (r: Result<Project>)
      requires store.Valid() && Wired()
      modifies store
      ensures store.Valid() && store.ProjectSideOnly() && store.events == old(store.events)
      ensures r.Err? ==> store.Unchanged()
      ensures old(FindById(id)).Err? ==> r == Err(NotFound)
      ensures old(FindById(id)).Ok? ==>
                var p := old(store.projects)[id];
                if !EqualsIgnoreCase(p.nom, req.nom) && NameTaken(old(store.projects), ToUpperCase(req.nom))
                then r == Err(AlreadyExists)
                else if old(users.FindById(req.proprietaireId)).Err? then r == Err(NotFound)
                else
                  && r == Ok(p.(nom := ToUpperCase(req.nom), description := req.description,
                                statut := req.statut, owner := req.proprietaireId))
                  && store.projects == old(store.projects)[id := r.value]
                  && store.cache == Evicted(old(store.cache), ProjectsCache)
    {
      var found := FindById(id);
      if found.Err? {
        return Err(found.error);
      }
      var project := found.value;
      if !EqualsIgnoreCase(project.nom, req.nom) {
        var taken := ExistsByTitle(ToUpperCase(req.nom));
        if taken.Err? {
          return Err(taken.error);
        }
      }
      var owner := users.FindById(req.proprietaireId);
      if owner.Err? {
        return Err(owner.error);
      }
      var updated := project.(nom := ToUpperCase(req.nom), description := req.description,
                              statut := req.statut, owner := req.proprietaireId);
      RenameKeepsCanonicalNames(store.projects, id, req.nom, updated);
      EvictProjectsKeepsCoherence(store.cache, store.projects, store.projects[id := updated], store.tasks);
      store.projects := store.projects[id := updated];
      store.cache := Evicted(store.cache, ProjectsCache);
      r := Ok(updated);
    }

    /** `delete(id)`: soft-delete the live project, publish one
        `ProjectDeleted` carrying its id and empty the "projects" cache. */
    method Delete(id: Uuid, now: Instant) returns (r: Result<()>)
      requires store.Valid()
      modifies store
      ensures store.Valid() && store.ProjectSideOnly()
      ensures old(FindById(id)).Err? ==> r == Err(NotFound) && store.Unchanged()
      ensures old(FindById(id)).Ok? ==>
                && r == Ok(())
                && store.projects == old(store.projects)[id := old(store.projects)[id].SoftDelete(now)]
                && store.events == old(store.events) + [ProjectDeleted(id)]
                && store.cache == Evicted(old(store.cache), ProjectsCache)
      ensures FindById(id) == Err(NotFound)
    {
      var found := FindById(id);
      if found.Err? {
        return Err(found.error);
      }
      var retired := store.projects[id := found.value.SoftDelete(now)];
      RetiringKeepsInvariants(store.projects, retired, store.users, store.tasks);
      EvictProjectsKeepsCoherence(store.cache, store.projects, retired, store.tasks);
      store.projects := retired;
      store.events := store.events + [ProjectDeleted(id)];
      store.cache := Evicted(store.cache, ProjectsCache);
      r := Ok(());
    }

    /** `updateStatus(id, name)`: as `StatusUpdated` says for the live
        project; on success the "projects" cache is emptied. */
    method UpdateStatus(id: Uuid, name: string) returns (r: Result<Project>)
      requires store.Valid()
      modifies store
      ensures store.Valid() && store.ProjectSideOnly() && store.events == old(store.events)
      ensures r.Err? ==> store.Unchanged()
      ensures old(FindById(id)).Err? ==> r == Err(NotFound)
      ensures old(FindById(id)).Ok? ==> r == StatusUpdated(old(store.projects)[id], name)
      ensures r.Ok? ==> && store.projects == old(store.projects)[id := r.value]
                        && store.cache == Evicted(old(store.cache), ProjectsCache)
    {
      var found := FindById(id);
      if found.Err? {
        return Err(found.error);
      }
      var project := found.value;
      if project.statut == Status.Completed {
        return Err(StatusChange);
      }
      var status := StatusValueOf(name);
      if status.Err? {
        return Err(status.error);
      }
      var updated := project.(statut := status.value);
      EvictProjectsKeepsCoherence(store.cache, store.projects, store.projects[id := updated], store.tasks);
      store.projects := store.projects[id := updated];
      store.cache := Evicted(store.cache, ProjectsCache);
      r := Ok(updated);
    }

    /** `deleteAllByProprietaireId(event)`: soft-delete every live project of
        the owner, publishing one `ProjectDeleted` per project, then empty
        the "projects" cache. */
    method DeleteAllByProprietaireId(owner: Uuid, now: Instant)
      requires store.Valid()
      modifies store
      ensures store.Valid() && store.ProjectSideOnly()
      ensures var ids := OwnedLive(old(store.projects), owner).Keys;
        && store.projects == SoftDeletedAll(old(store.projects), ids, now)
        && |old(store.events)| <= |store.events|
        && store.events[..|old(store.events)|] == old(store.events)
        && OneEventPer(store.events[|old(store.events)|..], ids)
        && store.cache == Evicted(old(store.cache), ProjectsCache)
    {
      var ids := OwnedLive(store.projects, owner).Keys;
      var retired, published := SoftDeleteEach(store.projects, ids, now);
      RetiringKeepsInvariants(store.projects, retired, store.users, store.tasks);
      EvictProjectsKeepsCoherence(store.cache, store.projects, retired, store.tasks);
      store.projects := retired;
      store.events := store.events + published;
      store.cache := Evicted(store.cache, ProjectsCache);
      assert store.events[|old(store.events)|..] == published;
    }
  }
}
