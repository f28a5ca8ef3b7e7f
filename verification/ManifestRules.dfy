/** What the manifest operations do, told without them: when the lease is held, what each
    write changes and when it is refused, and what `record` stores. */
module ManifestRules {
  import opened Options
  import opened Manifests
  import opened CleanupProtocol

  /** The lease is held up to, and not including, its expiry. */
  predicate Live(m: Manifest, now: Time) {
    m.leaseOwner.Some? && m.leaseExpiresAt.Some? && now < m.leaseExpiresAt.value
  }

  lemma GuardPasses(m: Manifest, owner: Token, now: Time)
    ensures Holds(m, owner, now) <==> Live(m, now) && m.leaseOwner.value == owner
  {
  }

  /** A claim succeeds exactly on an allowed status without a live lease, and changes only
      owner and expiry. */
  lemma ClaimRule(m: Manifest, owner: Token, expiresAt: Time, statuses: set<CleanupStatus>, now: Time)
    ensures Claim(m, owner, expiresAt, statuses, now) ==
      if m.status in statuses && !Live(m, now)
      then Some(Manifest(m.resources, m.status, m.generation, m.triggerPending, Some(owner), Some(expiresAt)))
      else None
  {
  }

  /** A heartbeat moves the expiry of a live lease of its owner, and nothing else. */
  lemma RenewRule(m: Manifest, owner: Token, expiresAt: Time, now: Time)
    ensures Renew(m, owner, expiresAt, now) ==
      if Live(m, now) && m.leaseOwner == Some(owner)
      then Some(Manifest(m.resources, m.status, m.generation, m.triggerPending, m.leaseOwner, Some(expiresAt)))
      else None
  {
  }

  lemma ReleaseRule(m: Manifest, owner: Token)
    ensures Release(m, owner) ==
      if m.leaseOwner == Some(owner)
      then Manifest(m.resources, m.status, m.generation, m.triggerPending, None, None) else m
  {
  }

  /** A resource write is refused exactly when its owner's lease is not live; otherwise it
      changes one key. */
  lemma PutRule(m: Manifest, key: Key, resource: Resource, owner: Option<Token>, now: Time)
    ensures var r := Put(m, key, resource, owner, now);
            && (r.None? <==> owner.Some? && !(Live(m, now) && m.leaseOwner == owner))
            && (r.Some? ==>
                  && r.value == m.(resources := r.value.resources)
                  && r.value.resources.Keys == m.resources.Keys + {key} && r.value.resources[key] == resource
                  && forall k <- m.resources :: k != key ==> r.value.resources[k] == m.resources[k])
  {
  }

  /** A status write is refused exactly when an expected field differs, or an expected owner
      has let the lease expire; otherwise it sets the given fields. */
  lemma UpdateRule(m: Manifest, patch: Patch, expected: Expected, now: Time)
    ensures var r := Update(m, patch, expected, now);
            && (r.Some? <==>
                  && (expected.leaseOwner.Some? ==> m.leaseOwner == expected.leaseOwner && Live(m, now))
                  && (expected.status.Some? ==> m.status == expected.status.value)
                  && (expected.generation.Some? ==> m.generation == expected.generation.value))
            && (r.Some? ==>
                  && r.value.resources == m.resources && r.value.leaseOwner == m.leaseOwner
                  && r.value.status == (if patch.status.Some? then patch.status.value else m.status)
                  && r.value.generation == (if patch.generation.Some? then patch.generation.value else m.generation)
                  && r.value.triggerPending == (if patch.triggerPending.Some? then patch.triggerPending.value else m.triggerPending)
                  && r.value.leaseExpiresAt == (if patch.leaseExpiresAt.Some? then patch.leaseExpiresAt else m.leaseExpiresAt))
  {
  }

  // ------------------------------------------------------------------ record

  predicate NonEmpty(value: Option<string>) {
    value.Some? && |value.value| > 0
  }

  predicate Has(metadata: Metadata, field: string) {
    field in metadata && NonEmpty(metadata[field])
  }

  /** The identities that an entry may not change. */
  predicate Contradicts(registered: Resource, e: Entry) {
    || (e.nativeId.Some? && registered.nativeId.Some? && registered.nativeId != e.nativeId)
    || (e.key.kind == Volume && Has(registered.metadata, "creation_token") && "creation_token" in e.metadata
        && e.metadata["creation_token"] != registered.metadata["creation_token"])
    || (e.key.kind == RegistryImage && Has(registered.metadata, "digest") && Has(e.metadata, "digest")
        && e.metadata["digest"] != registered.metadata["digest"])
  }

  /** `record` is refused exactly when it contradicts an identity. What it stores has the
      state, the ownership and the error of the entry; its native id if it has one, else
      the registered one; and its metadata over the registered metadata. */
  lemma RecordStores(seen: Resources, e: Entry)
    ensures var r := Recorded(seen, e);
            && (r.Err? <==> e.key in seen && Contradicts(seen[e.key], e))
            && (r.Ok? ==>
                  && r.value.state == e.state && r.value.managed == e.managed && r.value.error == e.error
                  && r.value.nativeId == (if e.key !in seen || NonEmpty(e.nativeId) then e.nativeId else seen[e.key].nativeId)
                  && (forall f <- e.metadata :: f in r.value.metadata && r.value.metadata[f] == e.metadata[f])
                  && (forall f <- r.value.metadata :: f !in e.metadata ==>
                        e.key in seen && f in seen[e.key].metadata && r.value.metadata[f] == seen[e.key].metadata[f])
                  && (e.key in seen ==> forall f <- seen[e.key].metadata :: f in r.value.metadata))
  {
  }

  /** `update` changes state and error, and notes a registry storage status if given. */
  lemma UpdateStores(r: Resource, state: ResourceState, error: Option<string>, note: Metadata)
    ensures var u := Updated(r, state, error, note);
            && u.state == state && u.error == error && u.nativeId == r.nativeId && u.managed == r.managed
            && (forall f <- r.metadata :: f != "registry_storage_status" ==> f in u.metadata && u.metadata[f] == r.metadata[f])
            && ("registry_storage_status" in note ==>
                  "registry_storage_status" in u.metadata
                  && u.metadata["registry_storage_status"] == note["registry_storage_status"])
            && ("registry_storage_status" !in note ==> u.metadata == r.metadata)
  {
  }

  // ------------------------------------------------------------- the step system

  /** Who gets the lease: a deployment before cleanup was ever asked for, a request or a
      teardown then and after a partial failure, a cleanup run once it is queued. */
  lemma EntryRule(w: World, role: Role, expiresAt: Time)
    ensures var w' := Apply(w, Enter(role, expiresAt));
            var may := match role
                       case Deployment => w.manifest.status == NotStarted
                       case Request => w.manifest.status == NotStarted || w.manifest.status == PartialFailed
                       case TeardownRecovery => w.manifest.status == NotStarted || w.manifest.status == PartialFailed
                       case Cleanup => w.manifest.status == Queued || w.manifest.status == Running;
            && w'.nextToken == w.nextToken + 1
            && (if may && !Live(w.manifest, w.now) then
                  && w'.workers == w.workers[w.nextToken := Worker(role, Working, None)]
                  && w'.manifest == w.manifest.(leaseOwner := Some(w.nextToken), leaseExpiresAt := Some(expiresAt))
                else w'.workers == w.workers && w'.manifest == w.manifest)
  {
  }

  /** A heartbeat of a running worker keeps its live lease going. */
  lemma HeartbeatKeeps(w: World, t: Token, expiresAt: Time)
    requires t in w.workers
    ensures var w' := Apply(w, Heartbeat(t, expiresAt));
            if Live(w.manifest, w.now) && w.manifest.leaseOwner == Some(t)
            then w' == w.(manifest := w.manifest.(leaseExpiresAt := Some(expiresAt)))
            else w' == w
  {
  }

  /** The compensation of a failed enqueue: exactly the request of that generation, while
      still queued, becomes a partial failure. */
  lemma EnqueueFailedRule(w: World, generation: nat)
    ensures var w' := Apply(w, EnqueueFailed(generation));
            if w.manifest.status == Queued && w.manifest.generation == generation
            then w' == w.(manifest := w.manifest.(status := PartialFailed))
            else w' == w
  {
  }

  /** A run that is not quiescent saves a partial failure and ends. */
  lemma NotQuiescentRule(w: World, t: Token)
    requires Busy(w, t) && At(w, t, Cleanup) && Holds(w.manifest, t, w.now)
    ensures var w' := Apply(w, NotQuiescent(t));
            w'.manifest == w.manifest.(status := PartialFailed) && w'.workers[t].phase == Finished
  {
  }

  /** The verdict of a run under its lease: SUCCEEDED exactly when the last read finds every
      resource removed and nothing was raised, PARTIAL_FAILED otherwise. */
  lemma VerdictRule(w: World, t: Token, errors: bool)
    requires Busy(w, t) && At(w, t, Cleanup) && Holds(w.manifest, t, w.now) && w.manifest.status == Running
    ensures var w' := Apply(Apply(w, LastRead(t, errors)), Conclude(t));
            && w'.manifest.resources == w.manifest.resources
            && w'.manifest.status ==
                 if !errors && forall k <- w.manifest.resources :: w.manifest.resources[k].state == ResourceState.Removed
                 then Succeeded else PartialFailed
  {
    var w1 := Apply(w, LastRead(t, errors));
    assert w1.manifest == w.manifest && w1.now == w.now && At(w1, t, Cleanup) && w1.workers[t].phase.Judged?;
  }

  /** A verdict is saved only over RUNNING, and only under the lease. */
  lemma NoVerdictOtherwise(w: World, t: Token)
    requires w.manifest.status != Running || !Holds(w.manifest, t, w.now)
    ensures Apply(w, Conclude(t)).manifest == w.manifest
  {
  }
}
