/** One uninterleaved pass of `BuildCleanupRunner.run`: which removals it asks for,
    in what order, and when it reports success. `CleanupProtocol` covers what other
    workers may do meanwhile. */
module CleanupRunner {
  import opened Options
  import opened Manifests
  import CleanupProtocol

  /** Docker, Harbor, Jenkins and the lease, as seen at successive moments: whether the
      lease is still held, what a call that may record leaves in the manifest, whether
      a call returns normally, and what the registry says about storage. */
  datatype External = External(
    alive: nat -> bool,
    recorded: (nat, Resources) -> Resources,
    succeeds: nat -> bool,
    storage: nat -> string)

  datatype Outcome = Done | NotQuiescent | LeaseLost

  const VERIFICATION := "jenkins-resource-verification"
  const WORKSPACE := "workspace"
  const NOT_EXCLUSIVE := "Resource ownership is not exclusive"

  /** Stands for the text of whatever was raised. */
  const RAISED := "raised"

  /** The order in which kinds are removed; builder caches are only verified. */
  const REMOVAL_ORDER: seq<Kind> :=
    [Service, Container, Volume, Workspace, RuntimeDirectory, Network, Port, LocalImage, RegistryImage]

  function Rank(k: Kind): nat {
    match k
    case Service => 0
    case Container => 1
    case Volume => 2
    case Workspace => 3
    case RuntimeDirectory => 4
    case Network => 5
    case Port => 6
    case LocalImage => 7
    case RegistryImage => 8
    case BuilderCache => 9
  }

  predicate IsRuntime(k: Kind) { k == Service || k == Container }

  predicate RuntimeGone(rs: Resources) {
    forall k <- rs :: IsRuntime(k.kind) ==> rs[k].state == Removed
  }

  /** A request to delete something outside, with the manifest at that moment, whether
      discovery was complete, and whether the deletion was confirmed. */
  datatype Deletion = Deletion(key: Key, before: Resources, complete: bool, confirmed: bool)

  /** Only managed, still present resources are deleted, and anything that services or
      containers may use only once discovery is complete and all of them are gone. */
  predicate Permitted(r: Deletion) {
    && r.key in r.before && r.before[r.key].managed && r.before[r.key].state != Removed
    && r.key.kind != RuntimeDirectory && r.key.kind != BuilderCache
    && (r.key.kind == Workspace ==> r.key.target == WORKSPACE)
    && (!IsRuntime(r.key.kind) ==> r.complete && RuntimeGone(r.before))
  }

  ghost predicate AllPermitted(requests: seq<Deletion>) {
    forall i :: 0 <= i < |requests| ==> Permitted(requests[i])
  }

  ghost predicate InOrder(requests: seq<Deletion>) {
    forall i, j :: 0 <= i < j < |requests| ==> Rank(requests[i].key.kind) <= Rank(requests[j].key.kind)
  }

  ghost predicate UpTo(requests: seq<Deletion>, rank: nat) {
    forall i :: 0 <= i < |requests| ==> Rank(requests[i].key.kind) <= rank
  }

  ghost predicate Confirmed(requests: seq<Deletion>, k: Key) {
    exists i :: 0 <= i < |requests| && requests[i].key == k && requests[i].confirmed
  }

  /** Nothing outside writes to the manifest. */
  ghost predicate Quiet(ext: External) {
    forall n: nat, rs: Resources :: ext.recorded(n, rs) == rs
  }

  ghost predicate Smooth(ext: External) {
    Quiet(ext) && forall n: nat :: ext.alive(n) && ext.succeeds(n)
  }

  /** The runner knows how to get rid of it. */
  predicate Removable(k: Key, r: Resource) {
    && r.managed && k.kind != RuntimeDirectory
    && (k.kind == Workspace ==> k.target == WORKSPACE)
    && (k.kind == BuilderCache ==> k.name == VERIFICATION)
  }

  ghost predicate AllRemovable(rs: Resources) {
    forall k <- rs :: Removable(k, rs[k])
  }

  /** What is not removed yet can be, and its kind has not been dealt with. */
  ghost predicate Remaining(rs: Resources, rank: nat) {
    forall k <- rs :: rs[k].state == Removed || (Removable(k, rs[k]) && rank <= Rank(k.kind) < 9)
  }

  predicate IsVerification(k: Key) {
    k.kind == BuilderCache && k.name == VERIFICATION
  }

  /** Why each removed resource is removed: it was before, its deletion was confirmed, the
      builder's accepted report settled it, or a call from outside recorded it so. */
  ghost predicate Justified(before: Resources, rs: Resources, requests: seq<Deletion>, outside: set<Key>, verified: bool) {
    forall k <- rs :: rs[k].state == Removed ==>
      || (k in before && before[k].state == Removed)
      || Confirmed(requests, k) || (IsVerification(k) && verified) || k in outside
  }

  lemma ConfirmedMore(requests: seq<Deletion>, r: Deletion)
    ensures r.confirmed ==> Confirmed(requests + [r], r.key)
    ensures forall k :: Confirmed(requests, k) ==> Confirmed(requests + [r], k)
  {
    assert (requests + [r])[|requests|] == r;
    forall k | Confirmed(requests, k) ensures Confirmed(requests + [r], k) {
      var i :| 0 <= i < |requests| && requests[i].key == k && requests[i].confirmed;
      assert (requests + [r])[i] == requests[i];
    }
  }

  /** The keys a call from outside has written. */
  function Changed(was: Resources, now: Resources): set<Key> {
    set k <- now | k !in was || now[k] != was[k]
  }

  /** The complaint that a refused builder report leaves in the manifest. */
  function Complaint(seen: Resources): Resources {
    var entry := Entry(Key(BuilderCache, "jenkins", VERIFICATION), None, Failed, true, map[], Some(RAISED));
    seen[entry.key := Recorded(seen, entry).value]
  }

  /** A passed builder report settles earlier complaints and touches nothing else. */
  ghost predicate Settled(prior: Resources, rs: Resources, left: set<Key>) {
    && rs.Keys == prior.Keys
    && forall k <- rs ::
      if k !in left && IsVerification(k) then rs[k] == CleanupProtocol.Updated(prior[k], Removed, None, map[])
      else rs[k] == prior[k]
  }

  lemma SettledRemains(prior: Resources, rs: Resources)
    requires Settled(prior, rs, {})
    ensures AllRemovable(prior) ==> Remaining(rs, 0)
  {
  }

  /** What a pass asks outside besides deletions, in this order when all goes well. */
  datatype Question = Report | Connection | FirstDiscovery | Rediscovery | Stopped | LastDiscovery | Emptiness

  /** `normal` is false when the call raised. */
  datatype Answer = Answer(question: Question, normal: bool)

  ghost predicate AllNormal(log: seq<Answer>) {
    forall i :: 0 <= i < |log| ==> log[i].normal
  }

  ghost function Questions(log: seq<Answer>): seq<Question> {
    seq(|log|, i requires 0 <= i < |log| => log[i].question)
  }

  lemma OneMoreAnswer(log: seq<Answer>, a: Answer)
    ensures AllNormal(log + [a]) <==> AllNormal(log) && a.normal
    ensures Questions(log + [a]) == Questions(log) + [a.question]
  {
    assert (log + [a])[|log|] == a;
    assert forall i :: 0 <= i < |log| ==> (log + [a])[i] == log[i];
  }

  /** What becomes of one resource that was present when its kind began. */
  predicate Treated(was: Resource, now: Resource) {
    if !was.managed then
      now == CleanupProtocol.Updated(was, Blocked, if Truthy(was.error) then was.error else Some(NOT_EXCLUSIVE), map[])
    else
      now.state in {Removed, Failed} && now.managed && now.nativeId == was.nativeId
  }

  class Runner {
    const ext: External
    const owned: bool      // ownership version 1
    var resources: Resources
    var status: CleanupStatus
    var errors: nat
    var moment: nat
    ghost const start: Resources   // the manifest at the beginning
    ghost var requests: seq<Deletion>
    ghost var outside: set<Key>
    ghost var verified: bool
    ghost var log: seq<Answer>

    constructor (ext: External, owned: bool, resources: Resources, status: CleanupStatus)
      ensures this.ext == ext && this.owned == owned && this.resources == resources && this.status == status
      ensures Untouched()
    {
      this.ext, this.owned, this.resources, this.status, start := ext, owned, resources, status, resources;
      errors, moment, requests, outside, verified, log := 0, 0, [], {}, false, [];
    }

    ghost predicate Untouched()
      reads this
    {
      resources == start && errors == 0 && requests == [] && outside == {} && !verified && log == []
    }

    /** Every deletion asked for so far was permitted, and kinds came in order. */
    ghost predicate Orderly(rank: nat)
      reads this
    {
      AllPermitted(requests) && InOrder(requests) && UpTo(requests, rank)
    }

    /** Every removed resource was removed at the start or has a reason. */
    ghost predicate Explained()
      reads this
    {
      Justified(start, resources, requests, outside, verified)
    }

    /** An error is counted exactly when something asked outside raised. */
    ghost predicate Tallied()
      reads this
    {
      errors == 0 <==> AllNormal(log)
    }

    /** The questions asked since, when everything came back normally. */
    ghost predicate Asked(was: seq<Answer>, questions: seq<Question>)
      reads this
    {
      AllNormal(log) ==> AllNormal(was) && Questions(log) == Questions(was) + questions
    }

    /** `tracker.guard` */
    method Guard() returns (ok: bool)
      modifies this`moment
      ensures ok == ext.alive(old(moment)) && moment == old(moment) + 1
    {
      ok := ext.alive(moment);
      moment := moment + 1;
    }

    /** An external call that only answers. */
    method Ask() returns (ok: bool)
      modifies this`moment
      ensures ok == ext.succeeds(old(moment)) && moment == old(moment) + 1
    {
      ok := ext.succeeds(moment);
      moment := moment + 1;
    }

    /** An external call that may record resources, whether or not it raises. */
    method Invoke(ghost question: Question) returns (ok: bool)
      modifies this`moment, this`resources, this`outside, this`log
      ensures log == old(log) + [Answer(question, ok)]
      ensures (AllNormal(log) <==> AllNormal(old(log)) && ok) && Asked(old(log), [question])
      ensures ok == ext.succeeds(old(moment)) && moment == old(moment) + 1
      ensures resources == ext.recorded(old(moment), old(resources))
      ensures outside == old(outside) + Changed(old(resources), resources)
      ensures old(Explained()) ==> Explained()
      ensures Quiet(ext) ==> outside == old(outside)
    {
      ghost var was := resources;
      resources := ext.recorded(moment, resources);
      outside := outside + Changed(was, resources);
      ok := ext.succeeds(moment);
      moment := moment + 1;
      OneMoreAnswer(log, Answer(question, ok));
      log := log + [Answer(question, ok)];
    }

    /** Something else that may raise: a guard, a wait, making the Docker client. */
    ghost method Note(question: Question, normal: bool)
      modifies this`log
      ensures log == old(log) + [Answer(question, normal)]
      ensures (AllNormal(log) <==> AllNormal(old(log)) && normal) && Asked(old(log), [question])
    {
      OneMoreAnswer(log, Answer(question, normal));
      log := log + [Answer(question, normal)];
    }

    /** A fenced write of one resource; `false` is the lost lease. */
    method Write(key: Key, resource: Resource) returns (ok: bool)
      modifies this`moment, this`resources
      ensures ok == ext.alive(old(moment)) && moment == old(moment) + 1
      ensures resources == if ok then old(resources)[key := resource] else old(resources)
    {
      ok := Guard();
      if ok {
        resources := resources[key := resource];
      }
    }

    /** Reads the builder's report. A refusal counts as an error and leaves a complaint in
        the manifest; an accepted report settles earlier complaints. Nothing else changes. */
    method VerifyBuilder() returns (ok: bool)
      modifies this`moment, this`resources, this`errors, this`outside, this`verified, this`log
      ensures log == old(log) + [Answer(Report, ext.succeeds(old(moment)))]
      ensures (old(Tallied()) ==> Tallied()) && Asked(old(log), [Report])
      ensures outside == old(outside) + Changed(old(resources), ext.recorded(old(moment), old(resources)))
      ensures var seen := ext.recorded(old(moment), old(resources));
              if ext.succeeds(old(moment)) then
                errors == old(errors) && verified && (ok ==> Settled(seen, resources, {}))
              else
                errors == old(errors) + 1 && verified == old(verified) && resources == if ok then Complaint(seen) else seen
      ensures old(Explained()) ==> Explained()
      ensures Quiet(ext) ==> outside == old(outside)
      ensures Smooth(ext) ==> ok && errors == old(errors)
      ensures Smooth(ext) && AllRemovable(old(resources)) ==> Remaining(resources, 0)
    {
      ghost var was := resources;
      var collected := Invoke(Report);
      if !collected {
        errors := errors + 1;
        var entry := Entry(Key(BuilderCache, "jenkins", VERIFICATION), None, Failed, true, map[], Some(RAISED));
        ok := Write(entry.key, Recorded(resources, entry).value);
        return;
      }
      verified := true;
      ok := SettleBuilder();
      if Smooth(ext) { SettledRemains(was, resources); }
    }

    method SettleBuilder() returns (ok: bool)
      requires verified
      modifies this`moment, this`resources
      ensures ok ==> Settled(old(resources), resources, {})
      ensures old(Explained()) ==> Explained()
      ensures Smooth(ext) ==> ok
    {
      var prior := resources;
      var left := set k <- prior | IsVerification(k);
      while left != {}
        invariant left <= prior.Keys && forall k <- left :: IsVerification(k)
        invariant Settled(prior, resources, left)
        decreases |left|
      {
        var k :| k in left;
        left := left - {k};
        var stored := Write(k, CleanupProtocol.Updated(prior[k], Removed, None, map[]));
        if !stored {
          SettledIsExplained(prior, resources, left + {k});
          return false;
        }
      }
      SettledIsExplained(prior, resources, {});
      return true;
    }

    /** Whether deletion may be asked for: the checks made before the external call. */
    method MayDelete(key: Key, docker: bool, complete: bool) returns (allowed: bool)
      requires key in resources && resources[key].managed && resources[key].state != Removed && key.kind != BuilderCache
      modifies this`moment
      ensures allowed ==> forall confirmed: bool :: Permitted(Deletion(key, resources, complete, confirmed))
      // a directory only after Docker has confirmed that it is unused, and under the lease
      ensures allowed && key.kind == Workspace && docker ==> ext.succeeds(old(moment)) && ext.alive(old(moment) + 1)
      ensures allowed && key.kind == Workspace && !docker ==> ext.alive(old(moment))
      ensures allowed && key.kind != Workspace && key.kind != RegistryImage ==> docker
      ensures (Smooth(ext) && docker && complete && Removable(key, resources[key])
               && (IsRuntime(key.kind) || RuntimeGone(resources))) ==> allowed
    {
      var kind := key.kind;
      if !IsRuntime(kind) && (!RuntimeGone(resources) || !complete) {
        return false;
      }
      if kind == Workspace || kind == RuntimeDirectory {
        if kind != Workspace || key.target != WORKSPACE {
          return false;
        }
        if docker {
          allowed := Ask();
          if !allowed {
            return;
          }
        }
        allowed := Guard();
        return;
      }
      return kind == RegistryImage || docker;
    }

    /** Asks for the deletion and notes whether it was confirmed. */
    method Delete(key: Key, complete: bool) returns (removed: bool)
      requires forall confirmed: bool :: Permitted(Deletion(key, resources, complete, confirmed))
      requires Orderly(Rank(key.kind))
      modifies this`moment, this`requests
      ensures requests == old(requests) + [Deletion(key, resources, complete, removed)]
      ensures Orderly(Rank(key.kind)) && (removed ==> Confirmed(requests, key))
      ensures old(Explained()) ==> Explained()
      ensures removed == ext.succeeds(old(moment))
    {
      removed := Ask();
      var request := Deletion(key, resources, complete, removed);
      RequestOneMore(requests, request);
      ConfirmedMore(requests, request);
      requests := requests + [request];
    }

    /** One resource: blocked when unmanaged; otherwise marked removed exactly when its
        permitted deletion was confirmed, and failed when not. `false` is the lost lease,
        and then the manifest is as it was. */
    method CleanOne(key: Key, resource: Resource, docker: bool, complete: bool) returns (ok: bool)
      requires key in resources && resources[key] == resource && resource.state != Removed && key.kind != BuilderCache
      requires Orderly(Rank(key.kind))
      modifies this`moment, this`resources, this`requests
      ensures Orderly(Rank(key.kind)) && old(requests) <= requests
      ensures if ok then key in resources && resources == old(resources)[key := resources[key]] && Treated(resource, resources[key])
              else resources == old(resources)
      ensures ok && resource.managed && resources[key].state == Removed ==>
        requests == old(requests) + [Deletion(key, old(resources), complete, true)]
      ensures ok && resource.managed && resources[key].state != Removed ==>
        requests == old(requests) || requests == old(requests) + [Deletion(key, old(resources), complete, false)]
      ensures !resource.managed ==> requests == old(requests)
      ensures !ext.alive(old(moment)) ==> !ok && requests == old(requests)
      ensures old(Explained()) ==> Explained()
      ensures (Smooth(ext) && docker && complete && Removable(key, resource)
               && (IsRuntime(key.kind) || RuntimeGone(old(resources)))) ==> ok && resources[key].state == Removed
      ensures Smooth(ext) ==> ok
    {
      ok := Guard();
      if !ok {
        return;
      }
      if !resource.managed {
        ok := Write(key, CleanupProtocol.Updated(resource, Blocked,
                         if Truthy(resource.error) then resource.error else Some(NOT_EXCLUSIVE), map[]));
        return;
      }
      var removed := MayDelete(key, docker, complete);
      if removed {
        removed := Delete(key, complete);
      }
      if !removed {
        ok := Write(key, CleanupProtocol.Updated(resource, Failed, Some(RAISED), map[]));
        return;
      }
      var note := if key.kind == RegistryImage then map[CleanupProtocol.STORAGE_STATUS := Some(ext.storage(moment))] else map[];
      ok := Write(key, CleanupProtocol.Updated(resource, Removed, None, note));
    }

    /** Before containers are removed, discovery runs again and waits for them to stop. */
    method Rediscover(docker: bool, complete: bool) returns (found: bool)
      modifies this`moment, this`resources, this`errors, this`outside, this`log
      ensures old(Explained()) ==> Explained()
      ensures old(Tallied()) ==> Tallied()
      ensures Asked(old(log), if docker && complete then [Rediscovery, Stopped] else [])
      ensures AllNormal(log) ==> found == complete
      ensures Quiet(ext) ==> resources == old(resources) && outside == old(outside)
      ensures Smooth(ext) && complete ==> found && errors == old(errors)
    {
      found := complete;
      if !docker || !complete {
        return;
      }
      ghost var was := log;
      found := Guard();
      if found {
        found := Invoke(Rediscovery);
      } else {
        Note(Rediscovery, false);
      }
      if found {
        found := Ask();
        Note(Stopped, found);
      }
      assert found ==> Questions(log) == Questions(was) + [Rediscovery, Stopped];
      if !found {
        errors := errors + 1;
      }
    }

    /** One kind: the resources of that kind as they were when it began. */
    method CleanKind(kind: Kind, docker: bool, complete: bool) returns (ok: bool, found: bool)
      requires kind != BuilderCache && Orderly(Rank(kind))
      modifies this`moment, this`resources, this`requests, this`errors, this`outside, this`log
      ensures Orderly(Rank(kind))
      ensures old(Explained()) ==> Explained()
      ensures old(Tallied()) ==> Tallied()
      ensures Asked(old(log), if kind == Container && docker && complete then [Rediscovery, Stopped] else [])
      ensures AllNormal(log) ==> found == complete
      ensures Quiet(ext) ==> outside == old(outside) && OnlyKind(old(resources), resources, kind)
      ensures Smooth(ext) && docker && complete && Remaining(old(resources), Rank(kind)) ==>
        ok && found && errors == old(errors) && Remaining(resources, Rank(kind) + 1)
    {
      found := complete;
      if kind == Container {
        found := Rediscover(docker, complete);
      }
      ok := CleanAll(kind, docker, found, Smooth(ext) && docker && found && Remaining(resources, Rank(kind)));
    }

    /** The next resource of the kind being cleaned, as it was when the kind began. `all`
        says that nothing fails outside and nothing stands in the way. */
    method CleanNext(current: Resources, ghost left: set<Key>, key: Key, docker: bool, found: bool, ghost all: bool)
      returns (ok: bool)
      requires Midway(current, resources, key.kind, left, all) && key in left && key in current
      requires current[key].state != Removed && key.kind != BuilderCache && Orderly(Rank(key.kind))
      requires all ==> Smooth(ext) && docker && found && Remaining(current, Rank(key.kind))
      modifies this`moment, this`resources, this`requests
      ensures Orderly(Rank(key.kind))
      ensures Midway(current, resources, key.kind, if ok then left - {key} else left, all)
      ensures old(Explained()) ==> Explained()
      ensures all ==> ok
    {
      ghost var was := resources;
      RemainingRuntime(current, was, key.kind, left, all);
      ok := CleanOne(key, current[key], docker, found);
      if ok { CleanedOne(current, was, resources, key.kind, left, key, all); }
    }

    /** All resources of one kind that were present when it began are treated, the removed
        ones and every other kind stay as they were; with nothing failing outside, all
        of the kind end removed. */
    method CleanAll(kind: Kind, docker: bool, found: bool, ghost all: bool) returns (ok: bool)
      requires kind != BuilderCache && Orderly(Rank(kind))
      requires all ==> Smooth(ext) && docker && found && Remaining(resources, Rank(kind))
      modifies this`moment, this`resources, this`requests
      ensures Orderly(Rank(kind))
      ensures OnlyKind(old(resources), resources, kind)
      ensures ok ==> Midway(old(resources), resources, kind, {}, false)
      ensures old(Explained()) ==> Explained()
      ensures all ==> ok && Remaining(resources, Rank(kind) + 1)
    {
      var current := resources;
      var left := set k <- current | k.kind == kind && current[k].state != Removed;
      KindBegins(current, kind, left, all);
      ok := CleanListed(current, kind, left, docker, found, all);
    }

    method CleanListed(current: Resources, kind: Kind, listed: set<Key>, docker: bool, found: bool, ghost all: bool)
      returns (ok: bool)
      requires kind != BuilderCache && Orderly(Rank(kind)) && Midway(current, resources, kind, listed, all)
      requires listed <= current.Keys && forall k <- listed :: k.kind == kind && current[k].state != Removed
      requires all ==> Smooth(ext) && docker && found && Remaining(current, Rank(kind))
      modifies this`moment, this`resources, this`requests
      ensures Orderly(Rank(kind)) && (old(Explained()) ==> Explained())
      ensures OnlyKind(current, resources, kind)
      ensures ok ==> Midway(current, resources, kind, {}, false)
      ensures all ==> ok && Remaining(resources, Rank(kind) + 1)
    {
      var left := listed;
      while left != {}
        invariant left <= listed && Midway(current, resources, kind, left, all)
        invariant Orderly(Rank(kind)) && (old(Explained()) ==> Explained())
        decreases |left|
      {
        var k :| k in left;
        ok := CleanNext(current, left, k, docker, found, all);
        if !ok {
          MidwayEnds(current, resources, kind, left, all);
          return;
        }
        left := left - {k};
      }
      MidwayEnds(current, resources, kind, {}, all);
      ok := true;
    }

    /** The whole pass. SUCCEEDED is reported exactly when everything is removed and nothing
        asked outside has raised: the builder's report and, for a build with Docker
        resources, the client, three discoveries, the wait for containers to stop and
        the final check that nothing is left, each of which was then asked. */
    method Run(quiescent: bool, connected: bool) returns (outcome: Outcome)
      requires Untouched()
      modifies this
      ensures AllPermitted(requests) && InOrder(requests)
      ensures outcome.NotQuiescent? <==> !quiescent
      ensures outcome.NotQuiescent? ==> status == PartialFailed && resources == old(resources) && requests == []
      ensures outcome.LeaseLost? ==> status == Running
      ensures outcome.Done? ==> status in {Succeeded, PartialFailed}
      ensures outcome.Done? ==>
        (status == Succeeded <==> AllNormal(log) && forall k <- resources :: resources[k].state == Removed)
      ensures outcome.Done? && AllNormal(log) ==>
        Questions(log) == AllQuestions(owned)
      ensures outcome.Done? && owned && !connected ==> !AllNormal(log)
      ensures outcome.Done? ==> moment > 0 && ext.alive(moment - 1)
      ensures Explained()
      ensures Quiet(ext) ==> outside == {}
      ensures quiescent && owned && connected && Smooth(ext) && AllRemovable(old(resources)) ==>
        outcome.Done? && status == Succeeded
    {
      status := Running;
      if !quiescent {
        status := PartialFailed;
        return NotQuiescent;
      }
      var ok := Clean(connected);
      if !ok {
        return LeaseLost;
      }
      var clean := AllRemoved(resources) && errors == 0;
      ok := Guard();
      if !ok {
        return LeaseLost;
      }
      status := CleanupProtocol.Verdict(clean);
      assert status == Succeeded <==> clean;
      assert AllRemoved(resources) <==> forall k <- resources :: resources[k].state == Removed;
      assert clean <==> AllNormal(log) && AllRemoved(resources);
      return Done;
    }

    /** Everything between "running" and the verdict; `false` is the lost lease. */
    method Clean(connected: bool) returns (ok: bool)
      requires Untouched()
      modifies this`moment, this`resources, this`requests, this`errors, this`outside, this`verified, this`log
      ensures AllPermitted(requests) && InOrder(requests)
      ensures Explained() && Tallied()
      ensures ok && AllNormal(log) ==> Questions(log) == AllQuestions(owned)
      ensures ok && owned && !connected ==> !AllNormal(log)
      ensures Quiet(ext) ==> outside == {}
      ensures owned && connected && Smooth(ext) && AllRemovable(old(resources)) ==>
        ok && errors == 0 && Remaining(resources, 9)
    {
      assert Questions([]) == [];
      ok := VerifyBuilder();
      if !ok {
        return;
      }
      ok := DiscoverAndRemove(connected);
    }

    method DiscoverAndRemove(connected: bool) returns (ok: bool)
      requires requests == []
      modifies this`moment, this`resources, this`requests, this`errors, this`outside, this`log
      ensures AllPermitted(requests) && InOrder(requests)
      ensures old(Explained()) ==> Explained()
      ensures old(Tallied()) ==> Tallied()
      ensures ok ==> Asked(old(log), AllQuestions(owned)[1..])
      ensures ok && owned && !connected ==> !AllNormal(log)
      ensures Quiet(ext) ==> outside == old(outside)
      ensures owned && connected && Smooth(ext) && Remaining(old(resources), 0) ==>
        ok && errors == old(errors) && Remaining(resources, 9)
    {
      var docker, complete := Discover(connected);
      ghost var discovered := log;
      ok := RemoveKinds(docker, complete);
      if !ok {
        return;
      }
      ghost var removed := log;
      VerifyEmpty(docker);
      QuestionsAddUp(old(log), discovered, removed, log, owned);
    }

    /** Makes the Docker client and discovers what there is; a manifest of the old ownership
        version has neither. */
    method Discover(connected: bool) returns (docker: bool, complete: bool)
      modifies this`moment, this`resources, this`errors, this`outside, this`log
      ensures old(Explained()) ==> Explained()
      ensures old(Tallied()) ==> Tallied()
      ensures docker == (owned && connected) && (AllNormal(log) ==> complete && docker == owned)
      ensures Asked(old(log), if owned then [Connection, FirstDiscovery] else [])
      ensures Quiet(ext) ==> resources == old(resources) && outside == old(outside)
      ensures Smooth(ext) && docker ==> complete && errors == old(errors)
    {
      complete, docker := !owned, false;
      if !owned {
        return;
      }
      ghost var was := log;
      docker := connected;
      Note(Connection, connected);
      if docker {
        complete := Invoke(FirstDiscovery);
      }
      assert complete ==> Questions(log) == Questions(was) + [Connection, FirstDiscovery];
      if !complete {
        errors := errors + 1;
      }
    }

    method RemoveKinds(docker: bool, complete: bool) returns (ok: bool)
      requires requests == []
      modifies this`moment, this`resources, this`requests, this`errors, this`outside, this`log
      ensures AllPermitted(requests) && InOrder(requests)
      ensures old(Explained()) ==> Explained()
      ensures old(Tallied()) ==> Tallied()
      ensures ok ==> Asked(old(log), if docker && complete then [Rediscovery, Stopped] else [])
      ensures Quiet(ext) ==> outside == old(outside)
      ensures Smooth(ext) && docker && complete && Remaining(old(resources), 0) ==>
        ok && errors == old(errors) && Remaining(resources, 9)
    {
      var found := complete;
      for i := 0 to |REMOVAL_ORDER|
        invariant Orderly(i)
        invariant old(Explained()) ==> Explained()
        invariant old(Tallied()) ==> Tallied()
        invariant Asked(old(log), if i > 1 && docker && complete then [Rediscovery, Stopped] else [])
        invariant AllNormal(log) ==> found == complete
        invariant Quiet(ext) ==> outside == old(outside)
        invariant Smooth(ext) && docker && complete && Remaining(old(resources), 0) ==>
          found && errors == old(errors) && Remaining(resources, i)
      {
        RankIs(i);
        ok, found := CleanKind(REMOVAL_ORDER[i], docker, found);
        if !ok {
          return;
        }
      }
      ok := true;
    }

    /** The last discovery and the check that nothing of the build is left. */
    method VerifyEmpty(docker: bool)
      modifies this`moment, this`resources, this`errors, this`outside, this`log
      ensures old(Explained()) ==> Explained()
      ensures old(Tallied()) ==> Tallied()
      ensures Asked(old(log), if docker then [LastDiscovery, Emptiness] else [])
      ensures Quiet(ext) ==> resources == old(resources) && outside == old(outside)
      ensures Smooth(ext) ==> errors == old(errors)
    {
      if !docker {
        return;
      }
      ghost var was := log;
      var empty := Invoke(LastDiscovery);
      if empty {
        empty := Invoke(Emptiness);
      }
      assert empty ==> Questions(log) == Questions(was) + [LastDiscovery, Emptiness];
      if !empty {
        errors := errors + 1;
      }
    }
  }

  /** What a pass asks when nothing raises. */
  function AllQuestions(owned: bool): seq<Question> {
    if owned then [Report, Connection, FirstDiscovery, Rediscovery, Stopped, LastDiscovery, Emptiness] else [Report]
  }

  lemma QuestionsAddUp(a: seq<Answer>, b: seq<Answer>, c: seq<Answer>, d: seq<Answer>, owned: bool)
    requires AllNormal(b) ==> AllNormal(a) && Questions(b) == Questions(a) + if owned then [Connection, FirstDiscovery] else []
    requires AllNormal(c) && AllNormal(b) ==> Questions(c) == Questions(b) + if owned then [Rediscovery, Stopped] else []
    requires AllNormal(c) ==> AllNormal(b)
    requires AllNormal(d) && AllNormal(b) ==> AllNormal(c) && Questions(d) == Questions(c) + if owned then [LastDiscovery, Emptiness] else []
    requires AllNormal(d) ==> AllNormal(c)
    ensures AllNormal(d) ==> Questions(d) == Questions(a) + AllQuestions(owned)[1..]
  {
  }

  lemma RankIs(i: nat)
    requires i < |REMOVAL_ORDER|
    ensures Rank(REMOVAL_ORDER[i]) == i && REMOVAL_ORDER[i] != BuilderCache && (REMOVAL_ORDER[i] == Container <==> i == 1)
  {
  }

  lemma SettledIsExplained(prior: Resources, rs: Resources, left: set<Key>)
    requires Settled(prior, rs, left)
    ensures forall before: Resources, requests: seq<Deletion>, outside: set<Key> ::
              Justified(before, prior, requests, outside, true) ==> Justified(before, rs, requests, outside, true)
  {
  }

  /** A kind in the middle of being cleaned: other kinds, what waits and what was removed
      are as they were; the rest has been treated, and removed if `all` went well. */
  ghost predicate Midway(start: Resources, rs: Resources, kind: Kind, left: set<Key>, all: bool) {
    && rs.Keys == start.Keys
    && forall k <- rs ::
         if k.kind != kind || k in left || start[k].state == Removed then rs[k] == start[k]
         else Treated(start[k], rs[k]) && (all ==> rs[k].state == Removed)
  }

  /** Nothing changed but resources of one kind. */
  ghost predicate OnlyKind(start: Resources, rs: Resources, kind: Kind) {
    rs.Keys == start.Keys && forall k <- rs :: k.kind != kind ==> rs[k] == start[k]
  }

  lemma KindBegins(start: Resources, kind: Kind, left: set<Key>, all: bool)
    requires left == set k <- start | k.kind == kind && start[k].state != Removed
    ensures Midway(start, start, kind, left, all)
  {
  }

  lemma MidwayEnds(start: Resources, rs: Resources, kind: Kind, left: set<Key>, all: bool)
    requires Midway(start, rs, kind, left, all)
    ensures OnlyKind(start, rs, kind)
    ensures left == {} ==> Midway(start, rs, kind, {}, false)
    ensures left == {} && all && Remaining(start, Rank(kind)) ==> Remaining(rs, Rank(kind) + 1)
  {
    SameRank(kind);
  }

  lemma RequestOneMore(requests: seq<Deletion>, r: Deletion)
    requires AllPermitted(requests) && InOrder(requests) && UpTo(requests, Rank(r.key.kind)) && Permitted(r)
    ensures var more := requests + [r];
            AllPermitted(more) && InOrder(more) && UpTo(more, Rank(r.key.kind))
  {
  }

  lemma SameRank(kind: Kind)
    ensures forall other: Kind :: Rank(other) == Rank(kind) ==> other == kind
  {
  }

  /** Once the kinds before it are dealt with, a dependent kind finds no runtime left. */
  lemma RemainingRuntime(start: Resources, rs: Resources, kind: Kind, left: set<Key>, all: bool)
    requires Midway(start, rs, kind, left, all)
    ensures Remaining(start, Rank(kind)) && !IsRuntime(kind) ==> RuntimeGone(rs)
    ensures Remaining(start, Rank(kind)) ==> forall k <- start :: start[k].state != Removed ==> Removable(k, start[k])
  {
  }

  lemma CleanedOne(start: Resources, was: Resources, rs: Resources, kind: Kind, left: set<Key>, key: Key, all: bool)
    requires Midway(start, was, kind, left, all) && key in start && key in rs && key in left && key.kind == kind
    requires start[key].state != Removed && Treated(start[key], rs[key]) && (all ==> rs[key].state == Removed)
    requires rs == was[key := rs[key]]
    ensures Midway(start, rs, kind, left - {key}, all)
  {
  }
}
