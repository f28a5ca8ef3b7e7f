/** `InMemoryRepository`: the dictionaries the protocols share. Each method is one
    critical section, and its effect is the function the step systems use. */
module Repository {
  import opened Options
  import Manifests
  import RouteRows
  import Builds

  datatype Owned = Owned(app: string, manifest: Manifests.Manifest)

  /** The errors raised by the manifest methods. */
  datatype RepositoryError = NotFound | OwnerMismatch | LeaseLost

  class InMemoryRepository {
    var buildResources: map<string, Owned>
    var routeChecks: map<string, RouteRows.Row>
    var builds: map<string, Builds.BuildStatus>

    constructor ()
      ensures buildResources == map[] && routeChecks == map[] && builds == map[]
    {
      buildResources, routeChecks, builds := map[], map[], map[];
    }

    /** `setdefault`: the first registration of a build wins. */
    method EnsureBuildResources(id: string, candidate: Owned) returns (r: Result<Owned, RepositoryError>)
      modifies this`buildResources
      ensures buildResources == if id in old(buildResources) then old(buildResources)
                                else old(buildResources)[id := candidate]
      ensures r == if buildResources[id].app == candidate.app then Ok(buildResources[id]) else Err(OwnerMismatch)
    {
      if id !in buildResources {
        buildResources := buildResources[id := candidate];
      }
      if buildResources[id].app != candidate.app {
        return Err(OwnerMismatch);
      }
      return Ok(buildResources[id]);
    }

    /** Replaces one manifest, keeping everything else. */
    method Save(id: string, manifest: Manifests.Manifest)
      requires id in buildResources
      modifies this`buildResources
      ensures buildResources == old(buildResources)[id := old(buildResources)[id].(manifest := manifest)]
    {
      buildResources := buildResources[id := buildResources[id].(manifest := manifest)];
    }

    method PutBuildResource(id: string, key: Manifests.Key, resource: Manifests.Resource,
                            owner: Option<Manifests.Token>, now: Manifests.Time)
      returns (r: Result<Manifests.Manifest, RepositoryError>)
      modifies this`buildResources
      ensures id !in old(buildResources) ==> r == Err(NotFound) && buildResources == old(buildResources)
      ensures id in old(buildResources) ==>
        match Manifests.Put(old(buildResources)[id].manifest, key, resource, owner, now)
        case None => r == Err(LeaseLost) && buildResources == old(buildResources)
        case Some(m) => r == Ok(m) && buildResources == old(buildResources)[id := old(buildResources)[id].(manifest := m)]
    {
      if id !in buildResources {
        return Err(NotFound);
      }
      var m := buildResources[id].manifest;
      if owner.Some? && (m.leaseOwner != owner || Manifests.LeaseExpired(m.leaseExpiresAt, now)) {
        return Err(LeaseLost);
      }
      m := m.(resources := m.resources[key := resource]);
      Save(id, m);
      return Ok(m);
    }

    method UpdateBuildResources(id: string, patch: Manifests.Patch, expected: Manifests.Expected, now: Manifests.Time)
      returns (r: Option<Manifests.Manifest>)
      modifies this`buildResources
      ensures r == if id in old(buildResources)
                   then Manifests.Update(old(buildResources)[id].manifest, patch, expected, now) else None
      ensures buildResources == if r.None? then old(buildResources)
                                else old(buildResources)[id := old(buildResources)[id].(manifest := r.value)]
    {
      if id !in buildResources || !Manifests.Matches(buildResources[id].manifest, expected) {
        return None;
      }
      var m := buildResources[id].manifest;
      if expected.leaseOwner.Some? && Manifests.LeaseExpired(m.leaseExpiresAt, now) {
        return None;
      }
      if patch.status.Some? { m := m.(status := patch.status.value); }
      if patch.generation.Some? { m := m.(generation := patch.generation.value); }
      if patch.triggerPending.Some? { m := m.(triggerPending := patch.triggerPending.value); }
      if patch.leaseExpiresAt.Some? { m := m.(leaseExpiresAt := patch.leaseExpiresAt); }
      Save(id, m);
      return Some(m);
    }

    method ClaimBuildLease(id: string, owner: Manifests.Token, expiresAt: Manifests.Time,
                           statuses: set<Manifests.CleanupStatus>, now: Manifests.Time)
      returns (r: Option<Manifests.Manifest>)
      modifies this`buildResources
      ensures r == if id in old(buildResources)
                   then Manifests.Claim(old(buildResources)[id].manifest, owner, expiresAt, statuses, now) else None
      ensures buildResources == if r.None? then old(buildResources)
                                else old(buildResources)[id := old(buildResources)[id].(manifest := r.value)]
    {
      if id !in buildResources || buildResources[id].manifest.status !in statuses {
        return None;
      }
      var m := buildResources[id].manifest;
      if m.leaseOwner.Some? && !Manifests.LeaseExpired(m.leaseExpiresAt, now) {
        return None;
      }
      m := m.(leaseOwner := Some(owner), leaseExpiresAt := Some(expiresAt));
      Save(id, m);
      return Some(m);
    }

    method RenewBuildLease(id: string, owner: Manifests.Token, expiresAt: Manifests.Time, now: Manifests.Time)
      returns (renewed: bool)
      modifies this`buildResources
      ensures renewed <==> id in old(buildResources) && Manifests.Holds(old(buildResources)[id].manifest, owner, now)
      ensures buildResources ==
        if renewed then old(buildResources)[id := old(buildResources)[id].(manifest :=
          old(buildResources)[id].manifest.(leaseExpiresAt := Some(expiresAt)))]
        else old(buildResources)
    {
      var updated := UpdateBuildResources(id, Manifests.Patch(leaseExpiresAt := Some(expiresAt)),
                                          Manifests.Expected(leaseOwner := Some(owner)), now);
      renewed := updated.Some?;
    }

    method ReleaseBuildLease(id: string, owner: Manifests.Token)
      modifies this`buildResources
      ensures buildResources ==
        if id in old(buildResources)
        then old(buildResources)[id := old(buildResources)[id].(manifest :=
               Manifests.Release(old(buildResources)[id].manifest, owner))]
        else old(buildResources)
    {
      if id in buildResources && buildResources[id].manifest.leaseOwner == Some(owner) {
        Save(id, buildResources[id].manifest.(leaseOwner := None, leaseExpiresAt := None));
      }
    }

    method UpdateRouteCheck(id: string, patch: RouteRows.Patch, expected: RouteRows.Expected)
      returns (r: Option<RouteRows.Row>)
      modifies this`routeChecks
      ensures r == RouteRows.Update(if id in old(routeChecks) then Some(old(routeChecks)[id]) else None, patch, expected)
      ensures routeChecks == if r.None? then old(routeChecks) else old(routeChecks)[id := r.value]
    {
      if id !in routeChecks || !RouteRows.Matches(routeChecks[id], expected) {
        return None;
      }
      routeChecks := routeChecks[id := RouteRows.Set(routeChecks[id], patch)];
      return Some(routeChecks[id]);
    }

    /** `false` when there was no such row. */
    method DeleteRouteCheck(id: string) returns (deleted: bool)
      modifies this`routeChecks
      ensures deleted == (id in old(routeChecks))
      ensures routeChecks == old(routeChecks) - {id}
    {
      deleted := id in routeChecks;
      routeChecks := routeChecks - {id};
    }

    method TransitionBuild(id: string, expected: set<Builds.BuildStatus>, status: Builds.BuildStatus) returns (done: bool)
      modifies this`builds
      ensures done <==> id in old(builds) && old(builds)[id] in expected
      ensures builds == if done then old(builds)[id := status] else old(builds)
    {
      if id !in builds || builds[id] !in expected {
        return false;
      }
      builds := builds[id := status];
      return true;
    }
  }

  /** `ResourceTracker`: reads a manifest and writes it back under the lease. */
  class ResourceTracker {
    const repository: InMemoryRepository
    const build: string
    const owner: Option<Manifests.Token>

    constructor (repository: InMemoryRepository, build: string, owner: Option<Manifests.Token>)
      ensures this.repository == repository && this.build == build && this.owner == owner
    {
      this.repository, this.build, this.owner := repository, build, owner;
    }

    /** Reads the resource back under the same key with a new state, under the lease. */
    method Update(key: Manifests.Key, resource: Manifests.Resource, now: Manifests.Time) returns (ok: bool)
      modifies repository`buildResources
      ensures var was := old(repository.buildResources);
              && ok == (build in was && Manifests.Put(was[build].manifest, key, resource, owner, now).Some?)
              && repository.buildResources ==
                   if ok then was[build := was[build].(manifest :=
                     Manifests.Put(was[build].manifest, key, resource, owner, now).value)]
                   else was
    {
      var stored := repository.PutBuildResource(build, key, resource, owner, now);
      return stored.Ok?;
    }

    method Guard(now: Manifests.Time) returns (ok: bool)
      ensures ok <==> build in repository.buildResources
                      && (owner.Some? ==> Manifests.Holds(repository.buildResources[build].manifest, owner.value, now))
    {
      if build !in repository.buildResources {
        return false;
      }
      var m := repository.buildResources[build].manifest;
      return owner.None? || (m.leaseOwner == owner && !Manifests.LeaseExpired(m.leaseExpiresAt, now));
    }

    /** An entry is merged with what is registered under its key and stored only if it
        contradicts no identity and the lease still holds; nothing else changes. */
    method Record(e: Manifests.Entry, now: Manifests.Time) returns (r: Result<Manifests.Resource, RecordError>)
      modifies repository`buildResources
      ensures var was := old(repository.buildResources);
              match r
              case Ok(resource) =>
                && build in was && Manifests.Recorded(was[build].manifest.resources, e) == Ok(resource)
                && Manifests.Put(was[build].manifest, e.key, resource, owner, now).Some?
                && repository.buildResources == was[build := was[build].(manifest :=
                     Manifests.Put(was[build].manifest, e.key, resource, owner, now).value)]
              case Err(_) =>
                && repository.buildResources == was
                && (build in was ==>
                      || Manifests.Recorded(was[build].manifest.resources, e).Err?
                      || (owner.Some? && !Manifests.Holds(was[build].manifest, owner.value, now)))
    {
      if build !in repository.buildResources {
        return Err(Unavailable);
      }
      match Manifests.Recorded(repository.buildResources[build].manifest.resources, e) {
        case Err(conflict) => return Err(Conflict(conflict));
        case Ok(resource) =>
          var stored := repository.PutBuildResource(build, e.key, resource, owner, now);
          if stored.Err? {
            return Err(Unavailable);
          }
          return Ok(resource);
      }
    }
  }

  datatype RecordError = Unavailable | Conflict(conflict: Manifests.Conflict)

  datatype TransitionError = BuildNotFound | Refused

  /** One request: the status its caller read first, however long ago, and the target. */
  datatype Request = Request(seen: Builds.BuildStatus, target: Builds.BuildStatus)

  /** `BuildService`: the status machine over the repository's compare-and-set. */
  class BuildService {
    const repository: InMemoryRepository

    constructor (repository: InMemoryRepository)
      ensures this.repository == repository
    {
      this.repository := repository;
    }

    /** `seen` is the status read first; another writer may have changed it since. */
    method Transition(id: string, request: Request) returns (r: Result<Builds.BuildStatus, TransitionError>)
      modifies repository`builds
      ensures id !in old(repository.builds) ==> r == Err(BuildNotFound)
      ensures id in old(repository.builds) ==>
        match Builds.Transition(request.seen, old(repository.builds)[id], request.target)
        case Ok(status) => r == Ok(status) && repository.builds == old(repository.builds)[id := status]
        case Err(_) => r == Err(Refused)
      ensures r.Err? ==> repository.builds == old(repository.builds)
    {
      if id !in repository.builds {
        return Err(BuildNotFound);
      }
      if request.seen == request.target {
        return Ok(repository.builds[id]);
      }
      if Builds.Terminal(request.seen) || request.target !in Builds.Allowed(request.seen) {
        return Err(Refused);
      }
      var done := repository.TransitionBuild(id, {request.seen}, request.target);
      if done || repository.builds[id] == request.target {
        return Ok(request.target);
      }
      return Err(Refused);
    }

    /** Whatever statuses the callers read and however stale, the stored status only moves
        along the table, and a terminal status is kept for good. */
    method Serve(id: string, requests: seq<Request>) returns (history: seq<Builds.BuildStatus>)
      requires id in repository.builds
      modifies repository`builds
      ensures id in repository.builds
      ensures |history| == |requests| + 1 && history[0] == old(repository.builds[id]) && history[|requests|] == repository.builds[id]
      ensures Builds.Follows(history)
      ensures forall i, j :: 0 <= i < j < |history| && Builds.Terminal(history[i]) ==> history[j] == history[i]
    {
      history := [repository.builds[id]];
      for n := 0 to |requests|
        invariant id in repository.builds
        invariant |history| == n + 1 && history[0] == old(repository.builds[id]) && history[n] == repository.builds[id]
        invariant Builds.Follows(history)
      {
        var _ := Transition(id, requests[n]);
        Builds.TransitionFollows(requests[n].seen, history[n], requests[n].target);
        history := history + [repository.builds[id]];
      }
      forall i, j | 0 <= i < j < |history| && Builds.Terminal(history[i]) ensures history[j] == history[i] {
        Builds.TerminalIsKept(history, i, j);
      }
    }
  }
}
