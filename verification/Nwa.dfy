/** Approving a remote wallet-authorization request: what is persisted never exceeds what was requested. */
module Nwa {
  import opened Types
  import opened Registry
  import opened RegistrySafety
  import Budget

  datatype NwaRequest = NwaRequest(
    id: nat, client: PublicKey, expiresAt: Option<nat>, relays: seq<Relay>, policy: ConnectionPolicy, hasCallback: bool)

  datatype NwaError =
    | AuthorityEscalation | CallbackInvalid | RegistryFailed(error: RegistryError) | NoPending | AlreadyPending | ParseFailed

  // ---- The mobile fee reserve ----

  /** A twentieth of the limit, kept between ten and a thousand, and never above the limit. */
  function MaximumMobileFee(limit: nat): nat {
    if limit == 0 then 0
    else
      var share := limit / 20;
      var clamped := if share < 10 then 10 else if share > 1_000 then 1_000 else share;
      if clamped > limit then limit else clamped
  }

  /** The reserve grows with the limit and never exceeds it or a thousand satoshi. */
  lemma MobileFeeIsMonotone(a: nat, b: nat)
    requires a <= b
    ensures MaximumMobileFee(a) <= MaximumMobileFee(b) <= b
    ensures MaximumMobileFee(b) <= 1_000
  {
    assert a / 20 <= b / 20;
  }

  /** A limit leaves room for a payment exactly above ten satoshi. */
  lemma MobileFeeLeavesRoom(limit: nat)
    ensures limit > MaximumMobileFee(limit) <==> limit > 10
  {
  }

  /** Five percent between ten and a thousand satoshi; a limit below ten is reserved whole. */
  lemma MobileFeeIsFivePercent(limit: nat)
    ensures limit < 10 ==> MaximumMobileFee(limit) == limit
    ensures 10 <= limit < 200 ==> MaximumMobileFee(limit) == 10
    ensures 200 <= limit <= 20_000 ==> 20 * MaximumMobileFee(limit) <= limit < 20 * MaximumMobileFee(limit) + 20
    ensures limit > 20_000 ==> MaximumMobileFee(limit) == 1_000
  {
    assert limit == limit / 20 * 20 + limit % 20;
  }

  // ---- Subset validation ----

  function RequestedFee(policy: Budget.Policy): nat {
    match policy.feePolicy
    case CountTowardBudget(maximum) => maximum
    case ExcludeForCompatibility => 0
  }

  predicate FeeIsConservative(approved: Budget.Policy, requested: Budget.Policy) {
    match approved.feePolicy
    case CountTowardBudget(maximum) => maximum == MaximumMobileFee(approved.limitSat) && maximum <= RequestedFee(requested)
    case ExcludeForCompatibility => false
  }

  function ValidateSubset(request: NwaRequest, c: NewConnection): Result<(), NwaError> {
    var approved, requested := c.policy.budget, request.policy.budget;
    if c.client != request.client
       || c.expiresAt != request.expiresAt
       || c.relays == []
       || !(forall relay <- c.relays :: relay in request.relays)
       || c.policy.methods == {}
       || !(forall m <- c.policy.methods :: m in request.policy.methods)
       || approved.limitSat > requested.limitSat
       || approved.interval != requested.interval
       || !FeeIsConservative(approved, requested)
       || (PayInvoice in c.policy.methods && approved.limitSat <= MaximumMobileFee(approved.limitSat))
    then Err(AuthorityEscalation)
    else Ok(())
  }

  /** What an authorization lets its client do stays inside the request. */
  predicate Within(active: ActiveConnection, request: NwaRequest) {
    && active.client == request.client
    && active.expiresAt == request.expiresAt
    && (set r | r in active.relays) <= (set r | r in request.relays)
    && active.policy.methods <= request.policy.methods
    && active.policy.budget.limitSat <= request.policy.budget.limitSat
    && active.policy.budget.interval == request.policy.budget.interval
    && Budget.FeeReserve(active.policy.budget) <= Budget.FeeReserve(request.policy.budget)
    && active.policy.budget.feePolicy.CountTowardBudget?
  }

  /** An expired authorization accepts no new work. */
  predicate ExpiredAt(active: ActiveConnection, now: nat) {
    active.expiresAt.Some? && active.expiresAt.value <= now
  }

  /** Validates, builds the callback first, then inserts. */
  function Approve(t: Tables, request: NwaRequest, c: NewConnection, callbackBuilds: bool, now: nat)
    : (Tables, Result<ActiveConnection, NwaError>)
  {
    if ValidateSubset(request, c).Err? then (t, Err(ValidateSubset(request, c).error))
    else if request.hasCallback && !callbackBuilds then (t, Err(CallbackInvalid))
    else
      var (next, r) := InsertConnection(t, c, now);
      (next, match r { case Ok(active) => Ok(active) case Err(error) => Err(RegistryFailed(error)) })
  }

  /**
   An approval persists exactly the reviewed connection, whose every authority is contained in the
   request, and what is loaded later is that authorization; a failed approval leaves the registry
   unchanged.
   */
  lemma ApprovalStaysWithinRequest(t: Tables, request: NwaRequest, c: NewConnection, callbackBuilds: bool, now: nat, later: seq<Action>)
    requires Inv(t) && IsValid(c) && Run(Approve(t, request, c, callbackBuilds, now).0, later)
    ensures var (next, r) := Approve(t, request, c, callbackBuilds, now);
            var loaded := Load(After(next, later), c.id);
            && (r.Err? ==> next == t)
            && (r.Ok? ==> && Within(r.value, request) && !ExpiredAt(r.value, now)
                          && loaded.Ok? && loaded.value.Some?
                          && (loaded.value.value.Active? ==> loaded.value.value.connection == r.value))
  {
    var (next, r) := Approve(t, request, c, callbackBuilds, now);
    if r.Ok? {
      StoreThenLoad(t, c, now, 0, now, later);
    }
  }

  /**
   Exactly which reviewed connections are accepted: the request's own client and expiry, some of its relays
   and methods, at most its limit, its interval, a counted fee of five percent within its fee, and room
   beside that fee if payments are granted.
   */
  lemma SubsetExactly(request: NwaRequest, c: NewConnection)
    ensures ValidateSubset(request, c).Ok? <==>
              && c.client == request.client && c.expiresAt == request.expiresAt
              && c.relays != [] && (forall r <- c.relays :: r in request.relays)
              && c.policy.methods != {} && c.policy.methods <= request.policy.methods
              && c.policy.budget.limitSat <= request.policy.budget.limitSat
              && c.policy.budget.interval == request.policy.budget.interval
              && c.policy.budget.feePolicy == Budget.CountTowardBudget(MaximumMobileFee(c.policy.budget.limitSat))
              && MaximumMobileFee(c.policy.budget.limitSat)
                 <= (if request.policy.budget.feePolicy.CountTowardBudget? then request.policy.budget.feePolicy.maximumFeeSat else 0)
              && (PayInvoice in c.policy.methods ==> c.policy.budget.limitSat > 10)
    ensures ValidateSubset(request, c).Err? ==> ValidateSubset(request, c).error == AuthorityEscalation
  {
    MobileFeeLeavesRoom(c.policy.budget.limitSat);
  }

  /** An accepted connection is inserted as it is, once its callback could be built; every failure changes nothing. */
  lemma ApprovalExactly(t: Tables, request: NwaRequest, c: NewConnection, callbackBuilds: bool, now: nat)
    ensures var (next, r) := Approve(t, request, c, callbackBuilds, now);
            var (inserted, active) := InsertState(t, c, now, 0, now);
            && (r.Ok? <==> ValidateSubset(request, c).Ok? && (request.hasCallback ==> callbackBuilds) && active.Ok?)
            && (r.Ok? ==> next == inserted && r.value == active.value)
            && (r.Err? ==> next == t)
            && (r == Err(CallbackInvalid) <==> ValidateSubset(request, c).Ok? && request.hasCallback && !callbackBuilds)
  {
  }

  /** A payment grant always leaves room beside its fee reserve. */
  lemma ApprovedPaymentsAreUsable(request: NwaRequest, c: NewConnection)
    requires ValidateSubset(request, c).Ok? && PayInvoice in c.policy.methods
    ensures c.policy.budget.limitSat > 10 && Budget.FeeReserve(c.policy.budget) < c.policy.budget.limitSat
  {
    MobileFeeLeavesRoom(c.policy.budget.limitSat);
  }

  // ---- The retained request ----

  /** One wallet keeps at most one reviewed request, beside its registry. */
  class NwaSession {
    var pending: Option<NwaRequest>
    var tables: Tables

    constructor (t: Tables)
      ensures pending == None && tables == t
    {
      pending, tables := None, t;
    }

    /** Retains a parsed request unless one is already under review. */
    method OpenRequest(parsed: Option<NwaRequest>) returns (r: Result<(), NwaError>)
      modifies this`pending
      ensures r.Ok? <==> old(pending).None? && parsed.Some?
      ensures pending == if r.Ok? then parsed else old(pending)
    {
      if pending.Some? {
        return Err(AlreadyPending);
      }
      if parsed.None? {
        return Err(ParseFailed);
      }
      pending := parsed;
      return Ok(());
    }

    /** Approves the retained request; a failure keeps both the request and the registry. */
    method ApprovePending(expectedId: nat, authorization: Result<NewConnection, RegistryError>, callbackBuilds: bool, now: nat)
      returns (r: Result<ActiveConnection, NwaError>)
      requires Inv(tables) && (authorization.Ok? ==> IsValid(authorization.value))
      modifies this
      ensures Inv(tables)
      ensures r.Err? ==> tables == old(tables) && pending == old(pending)
      ensures old(pending).None? ==> r == Err(NoPending)
      ensures old(pending).Some? && old(pending).value.id != expectedId ==> r == Err(AuthorityEscalation)
      ensures old(pending).Some? && old(pending).value.id == expectedId && authorization.Ok? ==>
                var (next, approved) := Approve(old(tables), old(pending).value, authorization.value, callbackBuilds, now);
                tables == next && r == approved
      ensures r.Ok? ==> old(pending).Some? && pending == None && Within(r.value, old(pending).value)
                        && Load(tables, r.value.id) == Ok(Some(Active(r.value)))
    {
      if pending.None? {
        return Err(NoPending);
      }
      var request := pending.value;
      if request.id != expectedId {
        return Err(AuthorityEscalation);
      }
      if authorization.Err? {
        return Err(RegistryFailed(authorization.error));
      }
      var c := authorization.value;
      var subset := ValidateSubset(request, c);
      if subset.Err? {
        return Err(subset.error);
      }
      if request.hasCallback && !callbackBuilds {
        return Err(CallbackInvalid);
      }
      var (next, inserted) := InsertConnection(tables, c, now);
      if inserted.Err? {
        return Err(RegistryFailed(inserted.error));
      }
      InsertKeepsInv(tables, c, now, 0, now);
      NewRowLoadsBack(c, now, now);
      tables := next;
      pending := None;
      return Ok(inserted.value);
    }

    method ClearPending()
      modifies this`pending
      ensures pending == None
    {
      pending := None;
    }
  }
}
