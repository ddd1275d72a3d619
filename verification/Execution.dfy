/**
 One wake request from claim to published response, as a state machine over the shared ledger.
 Any number of processes run it side by side; each may be killed between any two steps. A process
 reads the one device clock when it acts. `rounds` and `history` are bookkeeping of the model:
 a round ends when retention prunes the event's row, and the history lists what happened.
 */
module Execution {
  import opened Types
  import L = Ledger

  const ENGINE_RETRY_NANOS: nat := 5 * NANOS_PER_SECOND

  /** An authenticated event and the authorization it arrived under. */
  datatype Wake = Wake(event: EventId, connection: ConnectionId, revision: nat)

  datatype FreshnessPolicy = FreshnessPolicy(maximumAgeSeconds: nat, maximumFutureSeconds: nat)

  /** Gating owners have not passed the freshness policy; working owners may use the wallet. */
  datatype Stage = Gating | Timely(checkedAt: nat) | Late | Working

  datatype Agent =
    | Idle
    | Ready(wake: Wake, deadline: nat, leaseNanos: nat)
    | Owner(stage: Stage, wake: Wake, lease: L.EventLease, round: nat, deadline: nat)
    | Holding(wake: Wake, json: string, round: nat, deadline: nat)
    | Sending(wake: Wake, json: string, round: nat, deadline: nat)

  datatype Entry =
    | Admitted(event: EventId, round: nat, checkedAt: nat)
    | HostCall(event: EventId, round: nat)
    | Stored(event: EventId, round: nat, json: string)
    | Confirmed(event: EventId, round: nat)
    | Sent(event: EventId, round: nat, json: string)

  /** `clock` counts nanoseconds; `createdAt` is fixed by the signed event. */
  datatype World = World(
    store: L.Store,
    policy: FreshnessPolicy,
    createdAt: EventId -> nat,
    rounds: map<EventId, nat>,
    agents: map<nat, Agent>,
    clock: nat,
    history: seq<Entry>)

  datatype Action =
    | Prepare(i: nat, wake: Wake, deadline: nat)
    | Claim(i: nat, draw: Option<Token>)
    | CheckTime(i: nat)
    | AcceptTime(i: nat)
    | RejectLate(i: nat)
    | Call(i: nat)
    | Reject(i: nat)
    | Release(i: nat)
    | Commit(i: nat, json: string, requestMethod: Option<NwcMethod>)
    | Confirm(i: nat)
    | Publish(i: nat)
    | Crash(i: nat)
    | Tick(clock: nat)
    | Prune(batch: set<EventId>, cutoff: nat, maximum: nat)
    | Register(connection: ConnectionId)
    | Revoke(connection: ConnectionId)

  // ---- Arithmetic of the claim lease ----

  /** The lease that covers a remaining execution budget, in nanoseconds. */
  function LeaseForBudget(remaining: nat): Option<nat> {
    if remaining == 0 then None
    else
      var seconds := remaining / NANOS_PER_SECOND + (if remaining % NANOS_PER_SECOND != 0 then 1 else 0);
      if seconds + 1 > U64_MAX then None else Some((seconds + 1) * NANOS_PER_SECOND)
  }

  /** Wall time as the ledger stores it. */
  function Seconds(clock: nat): nat {
    clock / NANOS_PER_SECOND
  }

  predicate AcceptsEventTime(policy: FreshnessPolicy, createdAt: nat, now: nat) {
    if createdAt > now then createdAt - now <= policy.maximumFutureSeconds
    else now - createdAt <= policy.maximumAgeSeconds
  }

  // ---- One step ----

  function AgentOf(w: World, i: nat): Agent {
    if i in w.agents then w.agents[i] else Idle
  }

  function Round(w: World, event: EventId): nat {
    if event in w.rounds then w.rounds[event] else 0
  }

  /** The process an action belongs to, if any. */
  function Actor(a: Action): Option<nat> {
    match a
    case Tick(_) => None
    case Prune(_, _, _) => None
    case Register(_) => None
    case Revoke(_) => None
    case _ => Some(a.i)
  }

  predicate OwnerAt(agent: Agent, gate: bool) {
    agent.Owner? && (if gate then !agent.stage.Working? else agent.stage.Working?)
  }

  predicate Enabled(w: World, a: Action) {
    match a
    case Prepare(i, _, deadline) =>
      AgentOf(w, i).Idle? && deadline > w.clock && LeaseForBudget(deadline - w.clock).Some?
    case Claim(i, draw) => AgentOf(w, i).Ready? && (draw.Some? ==> draw.value !in w.store.drawn)
    case CheckTime(i) => AgentOf(w, i).Owner? && AgentOf(w, i).stage.Gating?
    case AcceptTime(i) => AgentOf(w, i).Owner? && AgentOf(w, i).stage.Timely?
    case RejectLate(i) => AgentOf(w, i).Owner? && AgentOf(w, i).stage.Late?
    case Call(i) => OwnerAt(AgentOf(w, i), false) && w.clock < AgentOf(w, i).deadline
    case Reject(i) => OwnerAt(AgentOf(w, i), false)
    case Release(i) => AgentOf(w, i).Owner?
    case Commit(i, _, _) => OwnerAt(AgentOf(w, i), false)
    case Confirm(i) => AgentOf(w, i).Holding?
    case Publish(i) => AgentOf(w, i).Sending? && w.clock < AgentOf(w, i).deadline
    case Prune(batch, cutoff, maximum) => L.PruneBatch(w.store.events, cutoff, maximum, batch)
    case Register(connection) => connection !in w.store.authorities
    case Revoke(connection) => connection in w.store.authorities && w.store.authorities[connection].active
    case _ => true
  }

  /** The ledger transaction an action performs. */
  function Transaction(w: World, a: Action): Option<L.Action>
    requires (a.Claim? ==> AgentOf(w, a.i).Ready?)
    requires (a.AcceptTime? || a.RejectLate? || a.Reject? || a.Release? || a.Commit? ==> AgentOf(w, a.i).Owner?)
  {
    var now := Seconds(w.clock);
    match a
    case Claim(i, draw) =>
      var agent := AgentOf(w, i);
      Some(L.ClaimRow(agent.wake.event, agent.wake.connection, agent.wake.revision, now, agent.leaseNanos, draw))
    case AcceptTime(i) => Some(L.Accept(AgentOf(w, i).lease, now))
    case RejectLate(i) => Some(L.Complete(AgentOf(w, i).lease, L.Rejected, None, now))
    case Reject(i) => Some(L.Complete(AgentOf(w, i).lease, L.Rejected, None, now))
    case Release(i) => Some(L.Retry(AgentOf(w, i).lease, now, ENGINE_RETRY_NANOS))
    case Commit(i, json, requestMethod) =>
      var wake := AgentOf(w, i).wake;
      Some(L.CompleteActive(AgentOf(w, i).lease, wake.connection, wake.revision, json, requestMethod, now))
    case Prune(batch, cutoff, maximum) => Some(L.Prune(batch, cutoff, maximum))
    case Register(connection) => Some(L.Register(connection))
    case Revoke(connection) => Some(L.Revoke(connection))
    case _ => None
  }

  function AfterClaim(wake: Wake, round: nat, deadline: nat, r: Result<L.ClaimOutcome, L.LedgerError>): Agent {
    match r
    case Ok(Acquired(lease)) => Owner(if lease.freshnessAccepted then Working else Gating, wake, lease, round, deadline)
    case Ok(AlreadyTerminal(terminal)) =>
      if terminal.response.Some? then Holding(wake, terminal.response.value, round, deadline) else Idle
    case _ => Idle
  }

  /** Where the acting process stands after its step. */
  function AgentAfter(w: World, a: Action): Agent
    requires Enabled(w, a) && Actor(a).Some?
  {
    var agent, now := AgentOf(w, a.i), Seconds(w.clock);
    match a
    case Prepare(_, wake, deadline) => Ready(wake, deadline, LeaseForBudget(deadline - w.clock).value)
    case Claim(_, draw) =>
      AfterClaim(agent.wake, Round(w, agent.wake.event), agent.deadline,
                 L.Claim(w.store.events, agent.wake.event, agent.wake.connection, agent.wake.revision,
                         now, agent.leaseNanos, draw).1)
    case CheckTime(_) =>
      agent.(stage := if AcceptsEventTime(w.policy, w.createdAt(agent.wake.event), now) then Timely(now) else Late)
    case AcceptTime(_) =>
      if L.AcceptFreshness(w.store.events, agent.lease, now).1.Ok? then agent.(stage := Working)
      else agent.(stage := Gating)
    case Call(_) => agent
    case Commit(_, json, requestMethod) =>
      if L.CompleteForActive(w.store.events, w.store.authorities, agent.lease, agent.wake.connection,
                             agent.wake.revision, json, requestMethod, now).1.Ok?
      then Holding(agent.wake, json, agent.round, agent.deadline)
      else agent
    case Confirm(_) =>
      if L.IsActive(w.store.authorities, agent.wake.connection, agent.wake.revision)
      then Sending(agent.wake, agent.json, agent.round, agent.deadline)
      else Idle
    case _ => Idle
  }

  /** What the step adds to the history. */
  function EntryOf(w: World, a: Action): Option<Entry>
    requires Enabled(w, a)
  {
    match a
    case AcceptTime(i) =>
      var agent := AgentOf(w, i);
      if AgentAfter(w, a).stage.Working? then Some(Admitted(agent.wake.event, agent.round, agent.stage.checkedAt)) else None
    case Call(i) => Some(HostCall(AgentOf(w, i).wake.event, AgentOf(w, i).round))
    case Commit(i, json, _) =>
      if AgentAfter(w, a).Holding? then Some(Stored(AgentOf(w, i).wake.event, AgentOf(w, i).round, json)) else None
    case Confirm(i) =>
      if AgentAfter(w, a).Sending? then Some(Confirmed(AgentOf(w, i).wake.event, AgentOf(w, i).round)) else None
    case Publish(i) => Some(Sent(AgentOf(w, i).wake.event, AgentOf(w, i).round, AgentOf(w, i).json))
    case _ => None
  }

  function RoundsAfter(w: World, a: Action): map<EventId, nat> {
    if a.Prune? then
      map e <- w.rounds.Keys + a.batch :: Round(w, e) + (if e in a.batch then 1 else 0)
    else w.rounds
  }

  function Apply(w: World, a: Action): World
    requires Enabled(w, a)
  {
    var transaction := Transaction(w, a);
    var entry := EntryOf(w, a);
    World(if transaction.Some? then L.Apply(w.store, transaction.value) else w.store,
          w.policy, w.createdAt,
          RoundsAfter(w, a),
          if Actor(a).Some? then w.agents[a.i := AgentAfter(w, a)] else w.agents,
          if a.Tick? then a.clock else w.clock,
          if entry.Some? then w.history + [entry.value] else w.history)
  }

  ghost predicate Run(w: World, actions: seq<Action>)
    decreases |actions|
  {
    actions == [] || (Enabled(w, actions[0]) && Run(Apply(w, actions[0]), actions[1..]))
  }

  ghost function After(w: World, actions: seq<Action>): World
    requires Run(w, actions)
    decreases |actions|
  {
    if actions == [] then w else After(Apply(w, actions[0]), actions[1..])
  }

  lemma {:induction false} ExtendRun(w: World, actions: seq<Action>, a: Action)
    requires Run(w, actions) && Enabled(After(w, actions), a)
    ensures Run(w, actions + [a]) && After(w, actions + [a]) == Apply(After(w, actions), a)
    decreases |actions|
  {
    if actions == [] {
      assert [] + [a] == [a] && [a][1..] == [];
    } else {
      assert (actions + [a])[0] == actions[0] && (actions + [a])[1..] == actions[1..] + [a];
      ExtendRun(Apply(w, actions[0]), actions[1..], a);
    }
  }

  /** A new ledger with any authorizations; no process has started. */
  ghost predicate Init(w: World) {
    w.store.events == map[] && w.rounds == map[] && w.agents == map[] && w.history == []
  }

  /** Rounds ending for one event are the prunes of its row. */
  ghost predicate Unpruned(actions: seq<Action>, event: EventId) {
    forall a <- actions :: a.Prune? ==> event !in a.batch
  }

  /** The clock never goes back. */
  ghost predicate Monotone(w: World, actions: seq<Action>)
    requires Run(w, actions)
    decreases |actions|
  {
    actions == [] ||
    ((actions[0].Tick? ==> actions[0].clock >= w.clock) && Monotone(Apply(w, actions[0]), actions[1..]))
  }
}
