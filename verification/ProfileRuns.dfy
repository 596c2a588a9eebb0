/** Runs of profile operations, one after the other: the mutation lease keeps them apart. */
module ProfileRuns {
  import opened Text
  import opened ProfileStore
  import opened ProfileOps
  import opened SelectionChanges

  datatype Op =
    | DirectAccountOp(p: Key, account: Option<AccountInput>, now: int, faults: set<nat>)
    | DirectAggregateOp(p: Key, aggregate: Option<AggregateInput>, now: int, faults: set<nat>)
    | GatewayOp(p: Key, gateway: Option<GatewayInput>, now: int, faults: set<nat>)
    | ModelsOp(p: Key, managed: seq<string>, requested: seq<string>, now: int, faults: set<nat>)
    | SyncOp(changes: seq<Change>, sync: SyncInput, faults: set<nat>)
    | RestoreOp(p: Key, faults: set<nat>)

  function Perform(env: Env, s: Store, op: Op): Store {
    match op
    case DirectAccountOp(p, input, now, faults) => ApplyDirectAccount(env, s, p, input, now, faults).store
    case DirectAggregateOp(p, input, now, faults) => ApplyDirectAggregate(env, s, p, input, now, faults).store
    case GatewayOp(p, input, now, faults) => ApplyGateway(env, s, p, input, now, faults).store
    case ModelsOp(p, managed, requested, now, faults) => ApplyModels(env, s, p, managed, requested, now, faults).store
    case SyncOp(changes, input, faults) => Sync(env, s, changes, input, faults).store
    case RestoreOp(p, faults) => Restore(s, p, faults).store
  }

  function Run(env: Env, s: Store, ops: seq<Op>): Store {
    if ops == [] then s else Perform(env, Run(env, s, ops[..|ops| - 1]), ops[|ops| - 1])
  }

  /** The operations of one profile, with the syncs that follow model changes, and the calls that a gateway
      refuses, which change nothing. */
  predicate OnProfile(op: Op, p: Key) {
    op.SyncOp? || op.p == p || (op.GatewayOp? && op.gateway.None?)
  }
}
