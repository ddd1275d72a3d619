/**
 The engine's request path in the program's own control flow. Every ledger transaction, wallet
 call and publication is one action of the execution protocol; between two of them other processes
 may act and this one may be killed. Each method is proved to perform a run of the protocol.
 */
module ExecutionEngine {
  import opened Types
  import opened Execution
  import L = Ledger

  datatype Disposition = Completed | Rejected | AlreadyProcessed | RetryAfter | Queued | Killed

  datatype HostOutcome = Answered(json: string) | Retryable | Cancelled | Refused(json: string)

  // ---- What one process has done ----

  /** The texts it tried to store, and how often it published, rejected a claim or gave one back. */
  datatype Deeds = Deeds(publishes: nat, commits: seq<(string, Option<NwcMethod>)>, rejects: nat, releases: nat)

  ghost function AfterStep(before: Deeds, a: Action): Deeds {
    match a
    case Publish(_) => before.(publishes := before.publishes + 1)
    case Commit(_, json, requestMethod) => before.(commits := before.commits + [(json, requestMethod)])
    case RejectLate(_) => before.(rejects := before.rejects + 1)
    case Reject(_) => before.(rejects := before.rejects + 1)
    case Release(_) => before.(releases := before.releases + 1)
    case _ => before
  }

  ghost function DeedsOf(me: nat, actions: seq<Action>): Deeds {
    if actions == [] then Deeds(0, [], 0, 0)
    else
      var before, last := DeedsOf(me, actions[..|actions| - 1]), actions[|actions| - 1];
      if Actor(last) == Some(me) then AfterStep(before, last) else before
  }

  ghost function PublishesBy(me: nat, actions: seq<Action>): nat {
    DeedsOf(me, actions).publishes
  }

  ghost function CommitsBy(me: nat, actions: seq<Action>): seq<(string, Option<NwcMethod>)> {
    DeedsOf(me, actions).commits
  }

  // ---- How a request ends ----

  /** `Responded` asks for a completion, and gives the claim back when that failed without an answer. */
  datatype Cause =
    | Unusable | Unauthorized | NotClaimed | Replayed
    | Stale | NotAccepted | OutOfTime | Malformed | Unreadable | Inactive
    | HostRetry | HostCancelled | Unbuilt | Responded(givenBack: bool)

  /** A stale, malformed, revoked or unanswerable request is rejected for good. */
  ghost predicate IsRejecting(cause: Cause) {
    cause.Stale? || cause.Malformed? || cause.Inactive? || cause.Unbuilt?
  }

  /** What may succeed later is released. */
  ghost predicate IsReleasing(cause: Cause) {
    || cause.NotAccepted? || cause.OutOfTime? || cause.Unreadable? || cause.HostRetry? || cause.HostCancelled?
    || (cause.Responded? && cause.givenBack)
  }

  /** What the application may be told then. */
  ghost predicate MayAnswer(cause: Cause, r: Disposition) {
    match cause
    case Unusable => r.Queued? || r.Rejected? || r.RetryAfter?
    case Unauthorized => r.Rejected?
    case NotClaimed => r.AlreadyProcessed? || r.Queued?
    case Stale => r.Rejected? || r.Queued?
    case Malformed => r.Rejected? || r.Queued?
    case Inactive => r.Rejected? || r.Queued?
    case Unbuilt => r.Rejected? || r.Queued?
    case NotAccepted => r.Queued?
    case OutOfTime => r.Queued?
    case Unreadable => r.Queued?
    case HostCancelled => r.Queued?
    case HostRetry => r.RetryAfter? || r.Queued?
    case _ => r.Completed? || r.Rejected? || r.RetryAfter? || r.Queued?
  }

  /** The claim was ended by this many own steps since then. */
  ghost predicate Ends(me: nat, before: seq<Action>, after: seq<Action>, rejects: nat, releases: nat) {
    && DeedsOf(me, after).rejects == DeedsOf(me, before).rejects + rejects
    && DeedsOf(me, after).releases == DeedsOf(me, before).releases + releases
  }

  /** A request that was not killed ends as its cause demands. */
  ghost predicate Ended(me: nat, before: seq<Action>, after: seq<Action>, cause: Cause, r: Disposition) {
    || r.Killed?
    || (MayAnswer(cause, r) && Ends(me, before, after, if IsRejecting(cause) then 1 else 0, if IsReleasing(cause) then 1 else 0))
  }

  /** The authorization row of the request is at its revision and active. */
  ghost predicate AuthorizationActive(w: World, wake: Wake) {
    && wake.connection in w.store.authorities
    && w.store.authorities[wake.connection].revision == wake.revision
    && w.store.authorities[wake.connection].active
  }

  /** The process holds the live claim its lease stands for. */
  ghost predicate OwnsClaim(w: World, i: nat) {
    && AgentOf(w, i).Owner?
    && var lease := AgentOf(w, i).lease;
    && lease.event in w.store.events
    && var row := w.store.events[lease.event];
    && row.state == L.Claimed && row.token == Some(lease.token)
    && row.availableAt.Some? && w.clock / 1_000_000_000 < row.availableAt.value
  }

  /** The row may not be claimed before a later whole second. */
  ghost predicate Waiting(w: World, event: EventId) {
    && event in w.store.events && w.store.events[event].availableAt.Some?
    && w.store.events[event].availableAt.value > w.clock / 1_000_000_000
  }

  /** The clock, the revision and the end of the lease fit their columns. */
  ghost predicate StorableLease(w: World, i: nat) {
    && AgentOf(w, i).Ready? && AgentOf(w, i).wake.revision <= I64_MAX
    && AgentOf(w, i).leaseNanos >= 1_000_000_000
    && w.clock / 1_000_000_000 + AgentOf(w, i).leaseNanos / 1_000_000_000 <= I64_MAX
  }

  /** What the completion transaction of an owner would answer now. */
  function Completion(w: World, i: nat, json: string, requestMethod: Option<NwcMethod>): Result<(), L.LedgerError>
    requires AgentOf(w, i).Owner?
  {
    var agent := AgentOf(w, i);
    L.CompleteForActive(w.store.events, w.store.authorities, agent.lease, agent.wake.connection, agent.wake.revision,
                        json, requestMethod, Seconds(w.clock)).1
  }

  /** The dispositions that may answer a failed completion; other errors give the claim back first. */
  function AnswersToFailure(error: L.LedgerError): set<Disposition> {
    match error
    case ConnectionUnavailable => {Rejected}
    case LostLease => {RetryAfter}
    case ResponseTooLarge => {Queued}
    case _ => {RetryAfter, Queued}
  }

  /** A response for the event was sent since the history had the given length. */
  ghost predicate SentSince(history: seq<Entry>, from: nat, event: EventId) {
    exists k :: from <= k < |history| && history[k].Sent? && history[k].event == event
  }

  /** Exactly this response was sent for the round since then. */
  ghost predicate TextSent(history: seq<Entry>, from: nat, event: EventId, round: nat, json: string) {
    exists k :: from <= k < |history| && history[k] == Sent(event, round, json)
  }

  /** Exactly this response was stored for the round since then, and sent after that. */
  ghost predicate StoredThenSent(history: seq<Entry>, from: nat, event: EventId, round: nat, json: string) {
    exists j :: from <= j < |history| && history[j] == Stored(event, round, json) && TextSent(history, j + 1, event, round, json)
  }

  lemma SentAfterStored(before: seq<Entry>, middle: seq<Entry>, after: seq<Entry>, event: EventId, round: nat, json: string)
    requires before + [Stored(event, round, json)] <= middle <= after
    ensures TextSent(after, |middle|, event, round, json) ==> StoredThenSent(after, |before|, event, round, json)
  {
    assert after[|before|] == (before + [Stored(event, round, json)])[|before|];
    if TextSent(after, |middle|, event, round, json) {
      assert TextSent(after, |before| + 1, event, round, json);
    }
  }

  /** The response was stored and then sent for the event in some round. */
  ghost predicate Disclosed(history: seq<Entry>, from: nat, event: EventId, json: string) {
    exists round: nat :: StoredThenSent(history, from, event, round, json)
  }

  lemma DisclosedIsSent(history: seq<Entry>, from: nat, event: EventId, json: string)
    requires Disclosed(history, from, event, json)
    ensures SentSince(history, from, event)
  {
    var round: nat :| StoredThenSent(history, from, event, round, json);
  }

  /** Since the given points one text was stored for the event, and published at most after that. */
  ghost predicate Says(me: nat, before: seq<Action>, from: nat, after: seq<Action>, history: seq<Entry>,
                       json: string, requestMethod: Option<NwcMethod>, event: EventId) {
    && CommitsBy(me, after) == CommitsBy(me, before) + [(json, requestMethod)]
    && (PublishesBy(me, after) == PublishesBy(me, before)
        || (PublishesBy(me, after) == PublishesBy(me, before) + 1 && Disclosed(history, from, event, json)))
  }

  lemma SaysEarlierToo(me: nat, before: seq<Action>, from: nat, middle: seq<Action>, later: nat, after: seq<Action>, history: seq<Entry>,
                       json: string, requestMethod: Option<NwcMethod>, event: EventId)
    requires CommitsBy(me, middle) == CommitsBy(me, before) && PublishesBy(me, middle) == PublishesBy(me, before) && from <= later
    requires Says(me, middle, later, after, history, json, requestMethod, event)
    ensures Says(me, before, from, after, history, json, requestMethod, event)
  {
    if Disclosed(history, later, event, json) {
      var round: nat :| StoredThenSent(history, later, event, round, json);
      assert StoredThenSent(history, from, event, round, json);
    }
  }

  /** The text of an outcome that is disclosed. */
  function TextOf(outcome: HostOutcome): Option<string> {
    match outcome
    case Answered(json) => Some(json)
    case Refused(json) => Some(json)
    case _ => None
  }

  /** The event's creation is not too far behind or ahead of the clock. */
  ghost predicate InWindow(w: World, i: nat) {
    && AgentOf(w, i).Owner?
    && var createdAt, now := w.createdAt(AgentOf(w, i).wake.event), w.clock / 1_000_000_000;
    && createdAt <= now + w.policy.maximumFutureSeconds && now <= createdAt + w.policy.maximumAgeSeconds
  }

  /** Owner of the event before or after its freshness check, or holder of its stored response. */
  predicate HasClaim(agent: Agent) {
    agent.Holding? || (agent.Owner? && (agent.stage.Gating? || agent.stage.Working?))
  }

  class WakeEngine {
    var world: World
    ghost var start: World
    ghost var trace: seq<Action>

    ghost predicate Valid()
      reads this
    {
      Run(start, trace) && After(start, trace) == world
    }

    constructor (w: World)
      ensures Valid() && world == start == w && trace == []
    {
      world, start, trace := w, w, [];
    }

    /** What every method guarantees: a longer run with known own publications and attempts to store. */
    twostate predicate Advanced(me: nat, publishes: nat, new commits: seq<(string, Option<NwcMethod>)>)
      reads this
    {
      && Valid() && start == old(start) && old(trace) <= trace && old(world).history <= world.history
      && PublishesBy(me, trace) == PublishesBy(me, old(trace)) + publishes
      && CommitsBy(me, trace) == if commits == [] then CommitsBy(me, old(trace)) else CommitsBy(me, old(trace)) + commits
    }

    /** A longer run without a deed of this process. */
    twostate predicate Quiet(me: nat)
      reads this
    {
      && Valid() && start == old(start) && old(trace) <= trace && old(world).history <= world.history
      && DeedsOf(me, trace) == DeedsOf(me, old(trace))
    }

    /** The same without an attempt to store a response. */
    twostate predicate Progressed(me: nat, publishes: nat)
      reads this
    {
      Advanced(me, publishes, [])
    }

    /** The host's text for the event was stored once, and nothing else was stored or published. */
    twostate predicate Discloses(me: nat, new host: Option<HostOutcome>, new requestMethod: Option<NwcMethod>, event: EventId)
      reads this
    {
      && Valid() && start == old(start) && old(trace) <= trace && old(world).history <= world.history
      && host.Some? && TextOf(host.value).Some?
      && Says(me, old(trace), |old(world).history|, trace, world.history, TextOf(host.value).value, requestMethod, event)
    }

    /** Nothing disclosed, or this text stored, or this text stored and published. */
    twostate predicate DisclosesOnly(me: nat, new json: string, new requestMethod: Option<NwcMethod>)
      reads this
    {
      || Progressed(me, 0) || Advanced(me, 0, [(json, requestMethod)])
      || (Advanced(me, 1, [(json, requestMethod)])
          && AgentOf(old(world), me).Owner?
          && StoredThenSent(world.history, |old(world).history|, AgentOf(old(world), me).wake.event, AgentOf(old(world), me).round, json))
    }

    /** One committed transaction, one wallet call or one publication. */
    method Do(a: Action)
      requires Valid() && Enabled(world, a)
      modifies this
      ensures Valid() && start == old(start) && world == Apply(old(world), a) && trace == old(trace) + [a]
      ensures forall m: nat :: DeedsOf(m, trace) == if Actor(a) == Some(m) then AfterStep(DeedsOf(m, old(trace)), a) else DeedsOf(m, old(trace))
    {
      ExtendRun(start, trace, a);
      world := Apply(world, a);
      trace := trace + [a];
      assert trace[..|trace| - 1] == old(trace);
    }

    /** Other processes take any number of steps; this process may be killed. */
    method Pause(me: nat) returns (killed: bool)
      requires Valid()
      modifies this
      ensures Quiet(me)
      ensures AgentOf(world, me) == if killed then Idle else AgentOf(old(world), me)
    {
      var steps: nat := *;
      while steps > 0
        invariant Quiet(me) && AgentOf(world, me) == AgentOf(old(world), me)
      {
        var a: Action := *;
        if Enabled(world, a) && Actor(a) != Some(me) {
          Do(a);
        }
        steps := steps - 1;
      }
      killed := *;
      if killed {
        Do(Crash(me));
      }
    }

    /** Takes one own step; then other processes act and this one may be killed. */
    method Perform(me: nat, a: Action) returns (killed: bool)
      requires Valid() && Enabled(world, a) && Actor(a) == Some(me)
      modifies this
      ensures Valid() && start == old(start) && old(trace) <= trace && old(world).history <= world.history
      ensures DeedsOf(me, trace) == AfterStep(DeedsOf(me, old(trace)), a)
      ensures AgentOf(world, me) == if killed then Idle else AgentAfter(old(world), a)
      ensures EntryOf(old(world), a).Some? ==> old(world).history + [EntryOf(old(world), a).value] <= world.history
    {
      Do(a);
      killed := Pause(me);
    }

    // ---- Ends of a claim ----

    method RejectClaim(me: nat) returns (r: Disposition)
      requires Valid() && AgentOf(world, me).Owner? && (AgentOf(world, me).stage.Working? || AgentOf(world, me).stage.Late?)
      modifies this
      ensures Progressed(me, 0) && (r.Rejected? || r.Queued? || r.Killed?) && AgentOf(world, me).Idle?
      ensures Ends(me, old(trace), trace, 1, 0)
      ensures r.Rejected? ==> OwnsClaim(old(world), me)
      ensures r.Queued? ==> !OwnsClaim(old(world), me) || old(world).clock / 1_000_000_000 > I64_MAX
    {
      var committed := L.CompleteEvent(world.store.events, AgentOf(world, me).lease, L.Rejected, None, Seconds(world.clock)).1.Ok?;
      var killed := Perform(me, if AgentOf(world, me).stage.Late? then RejectLate(me) else Reject(me));
      r := if killed then Killed else if committed then Rejected else Queued;
    }

    /** Gives the claim back with the retry delay; `transient` keeps a lost lease apart. */
    method GiveBack(me: nat, transient: bool) returns (r: Disposition)
      requires Valid() && AgentOf(world, me).Owner?
      modifies this
      ensures Progressed(me, 0) && AgentOf(world, me).Idle?
      ensures Ends(me, old(trace), trace, 0, 1)
      ensures r.RetryAfter? || r.Queued? || r.Killed?
      ensures r.RetryAfter? ==> transient && OwnsClaim(old(world), me)
      ensures r.Queued? && transient ==> !OwnsClaim(old(world), me) || old(world).clock / 1_000_000_000 + 5 > I64_MAX
    {
      var committed := L.RetryLater(world.store.events, AgentOf(world, me).lease, Seconds(world.clock), ENGINE_RETRY_NANOS).1.Ok?;
      var killed := Perform(me, Release(me));
      r := if killed then Killed else if committed && transient then RetryAfter else Queued;
    }

    /**
     Publishes the stored response if its authorization is active when it looks; a revocation that commits
     after that look does not stop the publication.
     */
    method RepublishTerminal(me: nat) returns (r: Disposition, ghost published: bool)
      requires Valid() && AgentOf(world, me).Holding?
      modifies this
      ensures Progressed(me, if published then 1 else 0) && Ended(me, old(trace), trace, Replayed, r)
      ensures published ==>
                var agent := AgentOf(old(world), me);
                TextSent(world.history, |old(world).history|, agent.wake.event, agent.round, agent.json)
      ensures (r.Completed? ==> published) && (r.Queued? || r.Rejected? ==> !published)
      ensures r.Completed? ==> AuthorizationActive(old(world), AgentOf(old(world), me).wake)
      ensures r.Rejected? ==> !AuthorizationActive(old(world), AgentOf(old(world), me).wake)
      ensures AgentOf(world, me).Idle? && !r.AlreadyProcessed?
    {
      var killed: bool;
      published := false;
      var readable: bool := *;
      if !readable {
        killed := Perform(me, Crash(me));
        return if killed then Killed else Queued, false;
      }
      killed := Perform(me, Confirm(me));
      if killed {
        return Killed, false;
      }
      if AgentOf(world, me).Idle? {
        return Rejected, false;
      }
      r, published := PublishConfirmed(me);
    }

    /** The publication of a confirmed response, while there is time. */
    method PublishConfirmed(me: nat) returns (r: Disposition, ghost published: bool)
      requires Valid() && AgentOf(world, me).Sending?
      modifies this
      ensures Progressed(me, if published then 1 else 0)
      ensures Ends(me, old(trace), trace, 0, 0) && AgentOf(world, me).Idle?
      ensures published ==>
                var agent := AgentOf(old(world), me);
                TextSent(world.history, |old(world).history|, agent.wake.event, agent.round, agent.json)
      ensures r.Completed? || r.RetryAfter? || r.Killed?
      ensures r.Completed? ==> published
    {
      var killed: bool;
      var inTime: bool := *;
      if !inTime || world.clock >= AgentOf(world, me).deadline {
        killed := Perform(me, Crash(me));
        return if killed then Killed else RetryAfter, false;
      }
      var delivered: bool := *;
      label publishing:
      killed := Perform(me, Publish(me));
      assert world.history[|old@publishing(world).history|] == EntryOf(old@publishing(world), Publish(me)).value;
      return if killed then Killed else if delivered then Completed else RetryAfter, true;
    }

    // ---- The request ----

    /** A secret load or wallet call, if the deadline still leaves a context. */
    method CrossHost(me: nat) returns (killed: bool, inTime: bool)
      requires Valid() && AgentOf(world, me).Owner? && AgentOf(world, me).stage.Working?
      modifies this
      ensures Quiet(me)
      ensures AgentOf(world, me) == if killed then Idle else AgentOf(old(world), me)
    {
      killed := false;
      inTime := *;
      inTime := inTime && world.clock < AgentOf(world, me).deadline;
      if inTime {
        killed := Perform(me, Call(me));
      }
    }

    /** Builds, durably stores and then publishes one response. */
    method CommitAndPublish(me: nat, json: string, requestMethod: Option<NwcMethod>) returns (r: Disposition, ghost cause: Cause)
      requires Valid() && AgentOf(world, me).Owner? && AgentOf(world, me).stage.Working?
      modifies this
      ensures DisclosesOnly(me, json, requestMethod)
      ensures Ended(me, old(trace), trace, cause, r) && (cause.OutOfTime? || cause.Unbuilt? || cause.Responded?)
      ensures !cause.Responded? && !r.Killed? ==> Progressed(me, 0)
      ensures r.Completed? ==> Advanced(me, 1, [(json, requestMethod)])
      ensures r.Queued? || r.Rejected? ==> Progressed(me, 0) || Advanced(me, 0, [(json, requestMethod)])
      ensures !r.AlreadyProcessed? && AgentOf(world, me).Idle?
    {
      var stop;
      stop, cause := BuildResponse(me);
      if stop.Some? {
        return stop.value, cause;
      }
      ghost var published;
      r, cause, published := StoreAndPublish(me, json, requestMethod);
    }

    /** Loads the secret and builds the response event. */
    method BuildResponse(me: nat) returns (stop: Option<Disposition>, ghost cause: Cause)
      requires Valid() && AgentOf(world, me).Owner? && AgentOf(world, me).stage.Working?
      modifies this
      ensures Progressed(me, 0) && (cause.OutOfTime? || cause.Unbuilt?)
      ensures if stop.None? then Quiet(me) && AgentOf(world, me) == AgentOf(old(world), me)
              else Ended(me, old(trace), trace, cause, stop.value) && AgentOf(world, me).Idle?
    {
      var killed, inTime := CrossHost(me);
      var r: Disposition;
      cause := OutOfTime;
      if killed {
        return Some(Killed), cause;
      }
      var secretLoaded: bool := *;
      if !inTime || !secretLoaded {
        r := GiveBack(me, false);
        return Some(r), cause;
      }
      var built: bool := *;
      if !built {
        r := RejectClaim(me);
        return Some(r), Unbuilt;
      }
      return None, cause;
    }

    /** The completion transaction and, once it committed, the publication of what it stored. */
    method StoreAndPublish(me: nat, json: string, requestMethod: Option<NwcMethod>)
      returns (r: Disposition, ghost cause: Cause, ghost published: bool)
      requires Valid() && AgentOf(world, me).Owner? && AgentOf(world, me).stage.Working?
      modifies this
      ensures Advanced(me, if published then 1 else 0, [(json, requestMethod)])
      ensures Ended(me, old(trace), trace, cause, r) && cause.Responded?
      ensures !r.Killed? ==> (cause.givenBack <==> var c := Completion(old(world), me, json, requestMethod);
                              c.Err? && !c.error.ConnectionUnavailable? && !c.error.LostLease? && !c.error.ResponseTooLarge?)
      ensures published ==>
                var agent := AgentOf(old(world), me);
                StoredThenSent(world.history, |old(world).history|, agent.wake.event, agent.round, json)
      ensures (r.Completed? ==> published) && (r.Queued? || r.Rejected? ==> !published)
      ensures !r.AlreadyProcessed? && AgentOf(world, me).Idle?
      ensures var c := Completion(old(world), me, json, requestMethod);
              c.Err? ==> !published && (r.Killed? || r in AnswersToFailure(c.error))
      ensures var agent := AgentOf(old(world), me);
              Completion(old(world), me, json, requestMethod).Ok? ==>
                old(world).history + [Stored(agent.wake.event, agent.round, json)] <= world.history
    {
      cause, published := Responded(false), false;
      var killed, completion := StoreResponse(me, json, requestMethod);
      if killed {
        return Killed, cause, false;
      }
      ghost var agent, stored := AgentOf(old(world), me), world.history;
      r, cause, published := AnswerCompletion(me, completion);
      if completion.Ok? {
        SentAfterStored(old(world).history, stored, world.history, agent.wake.event, agent.round, json);
      }
    }

    /** What follows the completion transaction: the publication of what it stored, or the answer to its error. */
    method AnswerCompletion(me: nat, completion: Result<(), L.LedgerError>)
      returns (r: Disposition, ghost cause: Cause, ghost published: bool)
      requires Valid() && if completion.Ok? then AgentOf(world, me).Holding? else AgentOf(world, me).Owner?
      modifies this
      ensures Progressed(me, if published then 1 else 0) && AgentOf(world, me).Idle?
      ensures Ended(me, old(trace), trace, cause, r)
      ensures cause == Responded(completion.Err? && !completion.error.ConnectionUnavailable? && !completion.error.LostLease?
                                 && !completion.error.ResponseTooLarge?)
      ensures published ==>
                completion.Ok?
                && var agent := AgentOf(old(world), me);
                TextSent(world.history, |old(world).history|, agent.wake.event, agent.round, agent.json)
      ensures (r.Completed? ==> published) && (r.Queued? || r.Rejected? ==> !published) && !r.AlreadyProcessed?
      ensures completion.Err? ==> r.Killed? || r in AnswersToFailure(completion.error)
    {
      published := false;
      if completion.Ok? {
        cause := Responded(false);
        r, published := RepublishTerminal(me);
      } else {
        r, cause := CompletionFailed(me, completion.error);
      }
    }

    /** The completion transaction. */
    method StoreResponse(me: nat, json: string, requestMethod: Option<NwcMethod>) returns (killed: bool, completion: Result<(), L.LedgerError>)
      requires Valid() && AgentOf(world, me).Owner? && AgentOf(world, me).stage.Working?
      modifies this
      ensures Valid() && start == old(start) && old(trace) <= trace && old(world).history <= world.history
      ensures DeedsOf(me, trace) == DeedsOf(me, old(trace)).(commits := DeedsOf(me, old(trace)).commits + [(json, requestMethod)])
      ensures completion == Completion(old(world), me, json, requestMethod)
      ensures killed ==> AgentOf(world, me).Idle?
      ensures var agent := AgentOf(old(world), me);
              && (!killed ==> AgentOf(world, me) == if completion.Ok? then Holding(agent.wake, json, agent.round, agent.deadline) else agent)
              && (completion.Ok? ==> old(world).history + [Stored(agent.wake.event, agent.round, json)] <= world.history)
    {
      completion := Completion(world, me, json, requestMethod);
      label completing:
      killed := Perform(me, Commit(me, json, requestMethod));
      ghost var agent := AgentOf(old(world), me);
      assert completion.Ok? ==>
               EntryOf(old@completing(world), Commit(me, json, requestMethod)) == Some(Stored(agent.wake.event, agent.round, json));
    }

    method CompletionFailed(me: nat, error: L.LedgerError) returns (r: Disposition, ghost cause: Cause)
      requires Valid() && AgentOf(world, me).Owner?
      modifies this
      ensures Progressed(me, 0) && AgentOf(world, me).Idle?
      ensures r.Killed? || r in AnswersToFailure(error)
      ensures Ended(me, old(trace), trace, cause, r)
      ensures cause == Responded(!error.ConnectionUnavailable? && !error.LostLease? && !error.ResponseTooLarge?)
    {
      if error.ConnectionUnavailable? || error.LostLease? || error.ResponseTooLarge? {
        var killed := Perform(me, Crash(me));
        return if killed then Killed
               else if error.ConnectionUnavailable? then Rejected
               else if error.LostLease? then RetryAfter
               else Queued, Responded(false);
      }
      cause := Responded(true);
      r := GiveBack(me, true);
    }

    /** Rechecks the exact revision before work whose result will be disclosed. */
    method EnsureClaimConnectionActive(me: nat) returns (stop: Option<Disposition>, ghost cause: Cause)
      requires Valid() && AgentOf(world, me).Owner? && AgentOf(world, me).stage.Working?
      modifies this
      ensures Progressed(me, 0)
      ensures cause.Unreadable? || cause.Inactive?
      ensures if stop.None? then Quiet(me) else Ended(me, old(trace), trace, cause, stop.value)
      ensures cause.Inactive? ==> !AuthorizationActive(old(world), AgentOf(old(world), me).wake)
      ensures stop.None? ==> AgentOf(world, me) == AgentOf(old(world), me)
      ensures stop.None? ==> AuthorizationActive(old(world), AgentOf(old(world), me).wake)
      ensures stop == Some(Rejected) ==> !AuthorizationActive(old(world), AgentOf(old(world), me).wake)
      ensures stop.Some? ==> stop.value.Rejected? || stop.value.Queued? || stop.value.Killed?
    {
      var readable: bool := *;
      var r: Disposition;
      cause := Unreadable;
      if !readable {
        r := GiveBack(me, false);
        return Some(r), cause;
      }
      if !L.IsActive(world.store.authorities, AgentOf(world, me).wake.connection, AgentOf(world, me).wake.revision) {
        r := RejectClaim(me);
        return Some(r), Inactive;
      }
      var killed := Pause(me);
      return if killed then Some(Killed) else None, cause;
    }

    /** An error answer is disclosed as a rejection once it was published. */
    method RespondWithError(me: nat, json: string, requestMethod: Option<NwcMethod>) returns (r: Disposition, ghost cause: Cause)
      requires Valid() && AgentOf(world, me).Owner? && AgentOf(world, me).stage.Working?
      modifies this
      ensures DisclosesOnly(me, json, requestMethod)
      ensures Ended(me, old(trace), trace, cause, r)
      ensures cause.Inactive? ==> !AuthorizationActive(old(world), AgentOf(old(world), me).wake)
      ensures cause in {Unreadable, Inactive, OutOfTime, Unbuilt} || cause.Responded?
      ensures r.Queued? ==> Progressed(me, 0) || Advanced(me, 0, [(json, requestMethod)])
      ensures !r.AlreadyProcessed? && !r.Completed?
    {
      var stop;
      stop, cause := EnsureClaimConnectionActive(me);
      if stop.Some? {
        return stop.value, cause;
      }
      r, cause := CommitAndPublish(me, json, requestMethod);
      if r.Completed? {
        r := Rejected;
      }
    }

    /** Any number of wallet calls of one request, each with its own context. */
    method WorkForRequest(me: nat) returns (killed: bool, outcome: HostOutcome)
      requires Valid() && AgentOf(world, me).Owner? && AgentOf(world, me).stage.Working?
      modifies this
      ensures Quiet(me)
      ensures AgentOf(world, me) == if killed then Idle else AgentOf(old(world), me)
    {
      outcome, killed := *, false;
      var calls: nat := *;
      while calls > 0
        invariant Quiet(me) && !killed && AgentOf(world, me) == AgentOf(old(world), me)
      {
        var inTime;
        killed, inTime := CrossHost(me);
        if killed {
          return;
        }
        if !inTime {
          return false, Cancelled;
        }
        calls := calls - 1;
      }
    }

    /** Decides an event that has not passed the freshness policy yet. */
    method PassFreshness(me: nat) returns (stop: Option<Disposition>, ghost cause: Cause)
      requires Valid() && AgentOf(world, me).Owner? && AgentOf(world, me).stage.Gating?
      modifies this
      ensures Progressed(me, 0)
      ensures stop.None? ==> AgentOf(world, me) == AgentOf(old(world), me).(stage := Working)
      ensures var createdAt, now := old(world).createdAt(AgentOf(old(world), me).wake.event), old(world).clock / 1_000_000_000;
              && (stop.None? ==> createdAt <= now + old(world).policy.maximumFutureSeconds
                                 && now <= createdAt + old(world).policy.maximumAgeSeconds)
              && (stop.Some? && !stop.value.Killed? ==>
                    (cause.Stale? <==> createdAt > now + old(world).policy.maximumFutureSeconds
                                       || now > createdAt + old(world).policy.maximumAgeSeconds))
      ensures cause.Stale? || cause.NotAccepted?
      ensures if stop.None? then Quiet(me) else Ended(me, old(trace), trace, cause, stop.value)
    {
      var r: Disposition;
      cause := NotAccepted;
      var killed := Perform(me, CheckTime(me));
      if killed {
        return Some(Killed), cause;
      }
      if AgentOf(world, me).stage.Late? {
        r := RejectClaim(me);
        return Some(r), Stale;
      }
      killed := Perform(me, AcceptTime(me));
      if killed {
        return Some(Killed), cause;
      }
      if AgentOf(world, me).stage.Gating? {
        r := GiveBack(me, false);
        return Some(r), cause;
      }
      return None, cause;
    }

    /** Claims the event for the remaining budget, or learns why this process must not work on it. */
    method ClaimEvent(me: nat, wake: Wake, deadline: nat) returns (stop: Option<Disposition>)
      requires Valid() && AgentOf(world, me).Idle?
      modifies this
      ensures Quiet(me)
      ensures stop.None? ==> HasClaim(AgentOf(world, me)) && AgentOf(world, me).wake == wake
      ensures stop.Some? ==> stop.value.AlreadyProcessed? || stop.value.Queued? || stop.value.Killed?
    {
      if deadline <= world.clock || LeaseForBudget(deadline - world.clock).None? {
        return Some(Queued);
      }
      var killed := Perform(me, Prepare(me, wake, deadline));
      if killed {
        return Some(Killed);
      }
      stop := TakeClaim(me);
    }

    /** The claim transaction of a prepared process and what it learns from the row. */
    method TakeClaim(me: nat) returns (stop: Option<Disposition>)
      requires Valid() && AgentOf(world, me).Ready?
      modifies this
      ensures Quiet(me)
      ensures stop.None? ==> HasClaim(AgentOf(world, me)) && AgentOf(world, me).wake == AgentOf(old(world), me).wake
      ensures stop.Some? ==> stop.value.AlreadyProcessed? || stop.value.Queued? || stop.value.Killed?
      ensures var event, events := AgentOf(old(world), me).wake.event, old(world).store.events;
              && (stop == Some(AlreadyProcessed) ==>
                    event in events
                    && (if events[event].state == L.Terminal then events[event].response.None? else Waiting(old(world), event)))
              && (stop.None? && AgentOf(world, me).Holding? ==>
                    event in events && events[event].state == L.Terminal && events[event].response == Some(AgentOf(world, me).json))
              && (stop.None? && AgentOf(world, me).Owner? ==>
                    && (event in events ==> events[event].state != L.Terminal && !Waiting(old(world), event))
                    && (AgentOf(world, me).stage.Working? <==> event in events && events[event].accepted))
              && (stop == Some(Queued) ==> event !in events || events[event].state == L.Terminal || !Waiting(old(world), event)
                                           || events[event].connection != AgentOf(old(world), me).wake.connection
                                           || events[event].revision != AgentOf(old(world), me).wake.revision
                                           || !StorableLease(old(world), me))
    {
      var wake := AgentOf(world, me).wake;
      var draw: Option<Token> := *;
      if draw.Some? && draw.value in world.store.drawn {
        draw := None;
      }
      var outcome := L.Claim(world.store.events, wake.event, wake.connection, wake.revision, Seconds(world.clock),
                             AgentOf(world, me).leaseNanos, draw).1;
      var killed := Perform(me, Claim(me, draw));
      if killed {
        return Some(Killed);
      }
      if AgentOf(world, me).Idle? {
        return Some(if outcome.Ok? then AlreadyProcessed else Queued);
      }
      return None;
    }

    /** Validates, claims, executes, commits and publishes one wake request. */
    method Execute(me: nat, wake: Wake, deadline: nat)
      returns (r: Disposition, ghost host: Option<HostOutcome>, ghost requestMethod: Option<NwcMethod>, ghost cause: Cause)
      requires Valid() && AgentOf(world, me).Idle?
      modifies this
      ensures Progressed(me, 0) || Progressed(me, 1) || Discloses(me, host, requestMethod, wake.event)
      ensures Ended(me, old(trace), trace, cause, r)
      ensures cause.Unusable? || cause.Unauthorized? ==> world == old(world) && trace == old(trace)
      ensures !cause.Unusable? ==> (cause.Unauthorized? <==> !AuthorizationActive(old(world), wake))
      ensures r.Completed? ==>
                && SentSince(world.history, |old(world).history|, wake.event)
                && (Progressed(me, 1)
                    || (host.Some? && host.value.Answered? && Advanced(me, 1, [(host.value.json, requestMethod)])))
      ensures r.AlreadyProcessed? ==> Progressed(me, 0)
      ensures r.Queued? ==> PublishesBy(me, trace) == PublishesBy(me, old(trace))
    {
      host, requestMethod := None, None;
      var early: Option<Disposition> := *;
      if early.Some? && (early.value.Queued? || early.value.Rejected? || early.value.RetryAfter?) {
        return early.value, None, None, Unusable;
      }
      if !L.IsActive(world.store.authorities, wake.connection, wake.revision) {
        return Rejected, None, None, Unauthorized;
      }
      r, host, requestMethod, cause := ClaimAndExecute(me, wake, deadline);
    }

    /** Claims the event and executes the claim, or learns why it must not. */
    method ClaimAndExecute(me: nat, wake: Wake, deadline: nat)
      returns (r: Disposition, ghost host: Option<HostOutcome>, ghost requestMethod: Option<NwcMethod>, ghost cause: Cause)
      requires Valid() && AgentOf(world, me).Idle?
      modifies this
      ensures Progressed(me, 0) || Progressed(me, 1) || Discloses(me, host, requestMethod, wake.event)
      ensures Ended(me, old(trace), trace, cause, r) && !cause.Unusable? && !cause.Unauthorized?
      ensures r.Completed? ==>
                && SentSince(world.history, |old(world).history|, wake.event)
                && (Progressed(me, 1)
                    || (host.Some? && host.value.Answered? && Advanced(me, 1, [(host.value.json, requestMethod)])))
      ensures cause.NotClaimed? ==> Progressed(me, 0)
      ensures r.AlreadyProcessed? ==> cause.NotClaimed?
      ensures r.Queued? ==> PublishesBy(me, trace) == PublishesBy(me, old(trace))
    {
      host, requestMethod := None, None;
      var stop := ClaimEvent(me, wake, deadline);
      if stop.Some? {
        return stop.value, None, None, NotClaimed;
      }
      ghost var middle, later := trace, |world.history|;
      r, host, requestMethod, cause := ExecuteClaim(me);
      if CommitsBy(me, trace) != CommitsBy(me, middle) {
        SaysEarlierToo(me, old(trace), |old(world).history|, middle, later, trace, world.history,
                       TextOf(host.value).value, requestMethod, wake.event);
      }
    }

    /** Replays a stored response, or lets a claimed event through the freshness gate to its execution. */
    method ExecuteClaim(me: nat)
      returns (r: Disposition, ghost host: Option<HostOutcome>, ghost requestMethod: Option<NwcMethod>, ghost cause: Cause)
      requires Valid() && HasClaim(AgentOf(world, me))
      modifies this
      ensures Progressed(me, 0) || Progressed(me, 1) || Discloses(me, host, requestMethod, AgentOf(old(world), me).wake.event)
      ensures Ended(me, old(trace), trace, cause, r) && !cause.Unusable? && !cause.Unauthorized? && !cause.NotClaimed?
      ensures AgentOf(old(world), me).Holding? ==> cause.Replayed?
      ensures !r.Killed? ==>
                (cause.Stale? <==> AgentOf(old(world), me).Owner? && AgentOf(old(world), me).stage.Gating? && !InWindow(old(world), me))
      ensures r.Completed? ==>
                && SentSince(world.history, |old(world).history|, AgentOf(old(world), me).wake.event)
                && (Progressed(me, 1)
                    || (host.Some? && host.value.Answered? && Advanced(me, 1, [(host.value.json, requestMethod)])))
      ensures r.Queued? ==> PublishesBy(me, trace) == PublishesBy(me, old(trace))
      ensures !r.AlreadyProcessed?
    {
      host, requestMethod := None, None;
      if AgentOf(world, me).Holding? {
        ghost var published;
        r, published := RepublishTerminal(me);
        return r, None, None, Replayed;
      }
      r, host, requestMethod, cause := ExecuteOwned(me);
    }

    /** Lets the owner through the freshness gate to the execution. */
    method ExecuteOwned(me: nat)
      returns (r: Disposition, ghost host: Option<HostOutcome>, ghost requestMethod: Option<NwcMethod>, ghost cause: Cause)
      requires Valid() && AgentOf(world, me).Owner? && (AgentOf(world, me).stage.Gating? || AgentOf(world, me).stage.Working?)
      modifies this
      ensures Progressed(me, 0) || Discloses(me, host, requestMethod, AgentOf(old(world), me).wake.event)
      ensures Ended(me, old(trace), trace, cause, r) && cause !in {Unusable, Unauthorized, NotClaimed, Replayed}
      ensures !r.Killed? ==> (cause.Stale? <==> AgentOf(old(world), me).stage.Gating? && !InWindow(old(world), me))
      ensures r.Completed? ==>
                && SentSince(world.history, |old(world).history|, AgentOf(old(world), me).wake.event)
                && host.Some? && host.value.Answered? && Advanced(me, 1, [(host.value.json, requestMethod)])
      ensures r.Queued? ==> PublishesBy(me, trace) == PublishesBy(me, old(trace))
      ensures !r.AlreadyProcessed?
    {
      host, requestMethod := None, None;
      ghost var event := AgentOf(world, me).wake.event;
      if AgentOf(world, me).stage.Gating? {
        var stop;
        stop, cause := PassFreshness(me);
        if stop.Some? {
          return stop.value, None, None, cause;
        }
      }
      ghost var middle, later := trace, |world.history|;
      r, host, requestMethod, cause := ExecuteClaimed(me);
      if CommitsBy(me, trace) != CommitsBy(me, middle) {
        SaysEarlierToo(me, old(trace), |old(world).history|, middle, later, trace, world.history,
                       TextOf(host.value).value, requestMethod, event);
        if Disclosed(world.history, |old(world).history|, event, TextOf(host.value).value) {
          DisclosedIsSent(world.history, |old(world).history|, event, TextOf(host.value).value);
        }
      }
    }

    /** The part of a request that runs under an accepted claim. */
    method ExecuteClaimed(me: nat)
      returns (r: Disposition, ghost host: Option<HostOutcome>, ghost requestMethod: Option<NwcMethod>, ghost cause: Cause)
      requires Valid() && AgentOf(world, me).Owner? && AgentOf(world, me).stage.Working?
      modifies this
      ensures Progressed(me, 0) || Discloses(me, host, requestMethod, AgentOf(old(world), me).wake.event)
      ensures Ended(me, old(trace), trace, cause, r) && cause !in {Unusable, Unauthorized, NotClaimed, Replayed, Stale, NotAccepted}
      ensures r.Completed? ==> host.Some? && host.value.Answered? && Advanced(me, 1, [(host.value.json, requestMethod)])
      ensures r.Queued? ==> PublishesBy(me, trace) == PublishesBy(me, old(trace))
      ensures !r.AlreadyProcessed?
    {
      host := None;
      var parsedMethod: Option<NwcMethod> := *;
      requestMethod := parsedMethod;
      var stop;
      stop, cause := ReadRequest(me);
      if stop.Some? {
        return stop.value, None, requestMethod, cause;
      }
      var permitted: bool := *;
      var refusal: string := *;
      ghost var middle, later, event := trace, |world.history|, AgentOf(world, me).wake.event;
      if permitted {
        r, host, cause := WorkAndAnswer(me, parsedMethod);
      } else {
        host := Some(Refused(refusal));
        r, cause := Refuse(me, refusal, parsedMethod);
      }
      if CommitsBy(me, trace) != CommitsBy(me, middle) {
        SaysEarlierToo(me, old(trace), |old(world).history|, middle, later, trace, world.history,
                       TextOf(host.value).value, requestMethod, event);
      }
    }

    /** Loads the secret and reads the request. */
    method ReadRequest(me: nat) returns (stop: Option<Disposition>, ghost cause: Cause)
      requires Valid() && AgentOf(world, me).Owner? && AgentOf(world, me).stage.Working?
      modifies this
      ensures Progressed(me, 0) && (cause.OutOfTime? || cause.Malformed?)
      ensures if stop.None? then Quiet(me) && AgentOf(world, me) == AgentOf(old(world), me)
              else Ended(me, old(trace), trace, cause, stop.value) && !stop.value.Completed?
    {
      var killed, inTime := CrossHost(me);
      var r: Disposition;
      cause := OutOfTime;
      if killed {
        return Some(Killed), cause;
      }
      var secretLoaded: bool := *;
      if !inTime || !secretLoaded {
        r := GiveBack(me, false);
        return Some(r), cause;
      }
      var parsed: bool := *;
      if !parsed {
        r := RejectClaim(me);
        return Some(r), Malformed;
      }
      return None, cause;
    }

    /** A permitted request: rechecked before its wallet work and again before its answer is built. */
    method WorkAndAnswer(me: nat, requestMethod: Option<NwcMethod>)
      returns (r: Disposition, ghost host: Option<HostOutcome>, ghost cause: Cause)
      requires Valid() && AgentOf(world, me).Owner? && AgentOf(world, me).stage.Working?
      modifies this
      ensures Progressed(me, 0) || Discloses(me, host, requestMethod, AgentOf(old(world), me).wake.event)
      ensures r.Completed? ==> host.Some? && host.value.Answered? && Advanced(me, 1, [(host.value.json, requestMethod)])
      ensures Ended(me, old(trace), trace, cause, r)
      ensures cause in {Unreadable, Inactive, OutOfTime, Unbuilt, HostRetry, HostCancelled} || cause.Responded?
      ensures host.Some? && !r.Killed? ==> (cause.HostRetry? <==> host.value.Retryable?) && (cause.HostCancelled? <==> host.value.Cancelled?)
      ensures r.Completed? ==> AuthorizationActive(old(world), AgentOf(old(world), me).wake)
      ensures r.Rejected? && host.Some? && host.value.Answered? ==> PublishesBy(me, trace) == PublishesBy(me, old(trace))
      ensures host == Some(Retryable) ==> r.RetryAfter? || r.Queued? || r.Killed?
      ensures host == Some(Cancelled) ==> r.Queued? || r.Killed?
      ensures r.Queued? ==> PublishesBy(me, trace) == PublishesBy(me, old(trace))
      ensures !r.AlreadyProcessed?
    {
      host := None;
      var stop;
      stop, cause := EnsureClaimConnectionActive(me);
      if stop.Some? {
        return stop.value, None, cause;
      }
      var killed, outcome := WorkForRequest(me);
      if killed {
        return Killed, None, cause;
      }
      host := Some(outcome);
      ghost var middle, later, event := trace, |world.history|, AgentOf(world, me).wake.event;
      r, cause := AnswerOutcome(me, outcome, requestMethod);
      if CommitsBy(me, trace) != CommitsBy(me, middle) {
        SaysEarlierToo(me, old(trace), |old(world).history|, middle, later, trace, world.history,
                       TextOf(outcome).value, requestMethod, event);
      }
    }

    /** What the wallet work ends in. */
    method AnswerOutcome(me: nat, outcome: HostOutcome, requestMethod: Option<NwcMethod>) returns (r: Disposition, ghost cause: Cause)
      requires Valid() && AgentOf(world, me).Owner? && AgentOf(world, me).stage.Working?
      modifies this
      ensures Progressed(me, 0) || Discloses(me, Some(outcome), requestMethod, AgentOf(old(world), me).wake.event)
      ensures Ended(me, old(trace), trace, cause, r)
      ensures cause in {Unreadable, Inactive, OutOfTime, Unbuilt, HostRetry, HostCancelled} || cause.Responded?
      ensures !r.Killed? ==> (cause.HostRetry? <==> outcome.Retryable?) && (cause.HostCancelled? <==> outcome.Cancelled?)
      ensures r.Completed? ==> outcome.Answered? && Advanced(me, 1, [(outcome.json, requestMethod)])
      ensures r.Rejected? && outcome.Answered? ==> PublishesBy(me, trace) == PublishesBy(me, old(trace))
      ensures outcome.Retryable? ==> r.RetryAfter? || r.Queued? || r.Killed?
      ensures outcome.Cancelled? ==> r.Queued? || r.Killed?
      ensures r.Queued? ==> PublishesBy(me, trace) == PublishesBy(me, old(trace))
      ensures !r.AlreadyProcessed?
    {
      match outcome {
        case Retryable =>
          cause := HostRetry;
          r := GiveBack(me, true);
        case Cancelled =>
          cause := HostCancelled;
          r := GiveBack(me, false);
        case Refused(json) => r, cause := Refuse(me, json, requestMethod);
        case Answered(json) => r, cause := AnswerRequest(me, json, requestMethod);
      }
    }

    /** The error answer of a request that was not worked or failed. */
    method Refuse(me: nat, json: string, requestMethod: Option<NwcMethod>) returns (r: Disposition, ghost cause: Cause)
      requires Valid() && AgentOf(world, me).Owner? && AgentOf(world, me).stage.Working?
      modifies this
      ensures Progressed(me, 0) || Discloses(me, Some(Refused(json)), requestMethod, AgentOf(old(world), me).wake.event)
      ensures Ended(me, old(trace), trace, cause, r)
      ensures cause.Inactive? ==> !AuthorizationActive(old(world), AgentOf(old(world), me).wake)
      ensures cause in {Unreadable, Inactive, OutOfTime, Unbuilt} || cause.Responded?
      ensures r.Queued? ==> PublishesBy(me, trace) == PublishesBy(me, old(trace))
      ensures !r.AlreadyProcessed? && !r.Completed?
    {
      ghost var agent := AgentOf(world, me);
      r, cause := RespondWithError(me, json, requestMethod);
      if StoredThenSent(world.history, |old(world).history|, agent.wake.event, agent.round, json) {
        assert Disclosed(world.history, |old(world).history|, agent.wake.event, json);
      }
    }

    /** The answer of a finished request, unless its authorization went meanwhile. */
    method AnswerRequest(me: nat, json: string, requestMethod: Option<NwcMethod>) returns (r: Disposition, ghost cause: Cause)
      requires Valid() && AgentOf(world, me).Owner? && AgentOf(world, me).stage.Working?
      modifies this
      ensures Progressed(me, 0) || Discloses(me, Some(Answered(json)), requestMethod, AgentOf(old(world), me).wake.event)
      ensures Ended(me, old(trace), trace, cause, r)
      ensures cause.Inactive? ==> !AuthorizationActive(old(world), AgentOf(old(world), me).wake)
      ensures cause in {Unreadable, Inactive, OutOfTime, Unbuilt} || cause.Responded?
      ensures r.Completed? ==> Advanced(me, 1, [(json, requestMethod)])
      ensures r.Queued? || r.Rejected? ==> PublishesBy(me, trace) == PublishesBy(me, old(trace))
      ensures !r.AlreadyProcessed?
    {
      var stop;
      stop, cause := EnsureClaimConnectionActive(me);
      if stop.Some? {
        return stop.value, cause;
      }
      ghost var middle, later, agent := trace, |world.history|, AgentOf(world, me);
      r, cause := CommitAndPublish(me, json, requestMethod);
      if CommitsBy(me, trace) != CommitsBy(me, middle) {
        SaysEarlierToo(me, old(trace), |old(world).history|, middle, later, trace, world.history, json, requestMethod, agent.wake.event);
      }
    }
  }
}
