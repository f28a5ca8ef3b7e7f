/** The per-build resource manifest and the operations the repository runs on
    it under its lock. Each function is the whole effect of one repository call;
    the clock is a parameter because `utc_now()` is read inside the call. */
module Manifests {
  import opened Options

  /** A lease owner: `uuid4().hex`, modelled as a number drawn once. */
  type Token = nat

  /** A point in time, after naive timestamps have been read as UTC. */
  type Time = int

  datatype CleanupStatus = NotStarted | Queued | Running | Succeeded | PartialFailed

  datatype ResourceState = Planned | Present | Removed | Blocked | Failed

  datatype Kind =
    | Service | Container | Network | Volume | Workspace
    | RuntimeDirectory | LocalImage | RegistryImage | Port | BuilderCache

  /** `resource_key` hashes exactly these three parts. */
  datatype Key = Key(kind: Kind, target: string, name: string)

  type Metadata = map<string, Option<string>>

  datatype Resource = Resource(
    nativeId: Option<string>,
    managed: bool,
    state: ResourceState,
    metadata: Metadata,
    error: Option<string>)

  type Resources = map<Key, Resource>

  datatype Manifest = Manifest(
    resources: Resources,
    status: CleanupStatus,
    generation: nat,
    triggerPending: bool,
    leaseOwner: Option<Token>,
    leaseExpiresAt: Option<Time>)

  /** The fields an update sets; `None` leaves a field alone. */
  datatype Patch = Patch(
    status: Option<CleanupStatus> := None,
    generation: Option<nat> := None,
    triggerPending: Option<bool> := None,
    leaseExpiresAt: Option<Time> := None)

  /** The fields an update expects; `None` leaves a field out of the filter. */
  datatype Expected = Expected(
    leaseOwner: Option<Token> := None,
    status: Option<CleanupStatus> := None,
    generation: Option<nat> := None)

  predicate LeaseExpired(expiry: Option<Time>, now: Time) {
    expiry.None? || expiry.value <= now
  }

  /** What `ResourceTracker.guard` checks. */
  predicate Holds(m: Manifest, owner: Token, now: Time) {
    m.leaseOwner == Some(owner) && !LeaseExpired(m.leaseExpiresAt, now)
  }

  predicate AllRemoved(resources: Resources) {
    forall k <- resources :: resources[k].state == Removed
  }

  function Or<T>(change: Option<T>, current: T): T {
    if change.Some? then change.value else current
  }

  predicate Matches(m: Manifest, expected: Expected) {
    && (expected.leaseOwner.Some? ==> m.leaseOwner == expected.leaseOwner)
    && (expected.status.Some? ==> m.status == expected.status.value)
    && (expected.generation.Some? ==> m.generation == expected.generation.value)
  }

  /** `update_build_resources`: `None` is the refused write. */
  function Update(m: Manifest, patch: Patch, expected: Expected, now: Time): Option<Manifest> {
    if !Matches(m, expected) then None
    else if expected.leaseOwner.Some? && LeaseExpired(m.leaseExpiresAt, now) then None
    else Some(m.(status := Or(patch.status, m.status),
                 generation := Or(patch.generation, m.generation),
                 triggerPending := Or(patch.triggerPending, m.triggerPending),
                 leaseExpiresAt := if patch.leaseExpiresAt.Some? then patch.leaseExpiresAt
                                   else m.leaseExpiresAt))
  }

  /** `put_build_resource`: `None` is the "lease lost" error. */
  function Put(m: Manifest, key: Key, resource: Resource, owner: Option<Token>, now: Time): Option<Manifest> {
    if owner.Some? && !Holds(m, owner.value, now) then None
    else Some(m.(resources := m.resources[key := resource]))
  }

  /** `claim_build_lease` */
  function Claim(m: Manifest, owner: Token, expiresAt: Time, statuses: set<CleanupStatus>, now: Time): Option<Manifest> {
    if m.status !in statuses then None
    else if m.leaseOwner.Some? && !LeaseExpired(m.leaseExpiresAt, now) then None
    else Some(m.(leaseOwner := Some(owner), leaseExpiresAt := Some(expiresAt)))
  }

  /** `renew_build_lease` */
  function Renew(m: Manifest, owner: Token, expiresAt: Time, now: Time): Option<Manifest> {
    Update(m, Patch(leaseExpiresAt := Some(expiresAt)), Expected(leaseOwner := Some(owner)), now)
  }

  /** `release_build_lease` */
  function Release(m: Manifest, owner: Token): Manifest {
    if m.leaseOwner == Some(owner) then m.(leaseOwner := None, leaseExpiresAt := None) else m
  }

  /** The arguments of `ResourceTracker.record`. */
  datatype Entry = Entry(
    key: Key,
    nativeId: Option<string>,
    state: ResourceState,
    managed: bool,
    metadata: Metadata,
    error: Option<string>)

  datatype Conflict = IdentityChanged | CreationIdentityChanged | DigestChanged

  /** Python truthiness of an optional string. */
  predicate Truthy(value: Option<string>) {
    value.Some? && value.value != ""
  }

  function Lookup(metadata: Metadata, field: string): Option<string> {
    if field in metadata then metadata[field] else None
  }

  const CREATION_TOKEN := "creation_token"
  const DIGEST := "digest"

  /** What `ResourceTracker.record` writes when it last read `seen`. */
  function Recorded(seen: Resources, e: Entry): Result<Resource, Conflict> {
    if e.key !in seen then
      Ok(Resource(e.nativeId, e.managed, e.state, e.metadata, e.error))
    else
      var existing := seen[e.key];
      if e.nativeId.Some? && existing.nativeId.Some? && existing.nativeId != e.nativeId then
        Err(IdentityChanged)
      else if e.key.kind == Volume && Truthy(Lookup(existing.metadata, CREATION_TOKEN))
              && CREATION_TOKEN in e.metadata
              && e.metadata[CREATION_TOKEN] != existing.metadata[CREATION_TOKEN] then
        Err(CreationIdentityChanged)
      else if e.key.kind == RegistryImage && Truthy(Lookup(existing.metadata, DIGEST))
              && Truthy(Lookup(e.metadata, DIGEST))
              && e.metadata[DIGEST] != existing.metadata[DIGEST] then
        Err(DigestChanged)
      else
        Ok(Resource(if Truthy(e.nativeId) then e.nativeId else existing.nativeId,
                    e.managed, e.state, existing.metadata + e.metadata, e.error))
  }
}
