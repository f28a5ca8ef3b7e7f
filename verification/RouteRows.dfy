/** One row of the route check list and its compare-and-set update. */
module RouteRows {
  import opened Options

  type Token = nat
  type Time = int
  type BuildId = string
  type RunId = nat

  datatype StaticStatus = Queued | Running | Succeeded | Failed

  datatype DynamicStatus = Pending | Waiting | InProgress | Passed | Rejected

  datatype Row = Row(
    generation: nat,
    staticStatus: StaticStatus,
    token: Option<Token>,
    leaseExpiresAt: Option<Time>,
    staticPassed: Option<bool>,
    dynamicBuild: Option<BuildId>,
    dynamicRun: Option<RunId>,
    dynamicStatus: DynamicStatus,
    dynamicPassed: Option<bool>)

  /** `None` leaves a field alone. */
  datatype Patch = Patch(
    generation: Option<nat> := None,
    staticStatus: Option<StaticStatus> := None,
    token: Option<Option<Token>> := None,
    leaseExpiresAt: Option<Option<Time>> := None,
    staticPassed: Option<Option<bool>> := None,
    dynamicBuild: Option<Option<BuildId>> := None,
    dynamicRun: Option<Option<RunId>> := None,
    dynamicStatus: Option<DynamicStatus> := None,
    dynamicPassed: Option<Option<bool>> := None)

  /** `None` leaves a field out of the filter. */
  datatype Expected = Expected(
    generation: Option<nat> := None,
    staticStatus: Option<StaticStatus> := None,
    token: Option<Option<Token>> := None,
    leaseExpiresAt: Option<Option<Time>> := None,
    dynamicBuild: Option<Option<BuildId>> := None,
    dynamicRun: Option<Option<RunId>> := None)

  predicate Fits<T(==)>(expected: Option<T>, actual: T) {
    expected.Some? ==> expected.value == actual
  }

  predicate Matches(r: Row, e: Expected) {
    && Fits(e.generation, r.generation) && Fits(e.staticStatus, r.staticStatus)
    && Fits(e.token, r.token) && Fits(e.leaseExpiresAt, r.leaseExpiresAt)
    && Fits(e.dynamicBuild, r.dynamicBuild) && Fits(e.dynamicRun, r.dynamicRun)
  }

  function Or<T>(change: Option<T>, current: T): T {
    if change.Some? then change.value else current
  }

  function Set(r: Row, p: Patch): Row {
    Row(Or(p.generation, r.generation), Or(p.staticStatus, r.staticStatus),
        Or(p.token, r.token), Or(p.leaseExpiresAt, r.leaseExpiresAt),
        Or(p.staticPassed, r.staticPassed), Or(p.dynamicBuild, r.dynamicBuild),
        Or(p.dynamicRun, r.dynamicRun), Or(p.dynamicStatus, r.dynamicStatus),
        Or(p.dynamicPassed, r.dynamicPassed))
  }

  /** `update_route_check`: `None` is the refused write. */
  function Update(row: Option<Row>, p: Patch, e: Expected): Option<Row> {
    if row.Some? && Matches(row.value, e) then Some(Set(row.value, p)) else None
  }

  /** A freshly queued check of a generation. */
  function Fresh(generation: nat): Row {
    Row(generation, Queued, None, None, None, None, None, Pending, None)
  }

  /** `require_static_pass` for a frozen generation. */
  predicate GateOpen(row: Option<Row>, generation: nat) {
    && row.Some? && row.value.staticPassed == Some(true)
    && row.value.staticStatus == Succeeded && row.value.generation == generation
  }
}
