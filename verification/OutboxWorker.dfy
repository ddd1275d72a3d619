/**
 The notification worker in the program's own control flow. Every ledger transaction and publication
 is one action of the outbox; between two of them other processes may act. Each method is proved to
 perform a run, so that the results about runs hold of it.
 */
module OutboxWorker {
  import opened Types
  import opened Outbox
  import opened OutboxSafety
  import opened OutboxFairness
  import L = Ledger

  datatype WorkerError = LedgerFailed | SecretFailed | BuildFailed

  datatype Report = Report(inspected: nat, pending: nat, expired: nat, delivered: nat, retryable: nat)

  /** Every inspected record is counted under exactly one heading. */
  predicate Tally(report: Report) {
    report.inspected == report.pending + report.expired + report.delivered + report.retryable
  }

  const EMPTY_REPORT := Report(0, 0, 0, 0, 0)

  // ---- What a record is counted under ----

  datatype Heading = PendingHeading | ExpiredHeading | DeliveredHeading | RetryableHeading

  ghost function Under(report: Report, heading: Heading): Report {
    match heading
    case PendingHeading => report.(pending := report.pending + 1)
    case ExpiredHeading => report.(expired := report.expired + 1)
    case DeliveredHeading => report.(delivered := report.delivered + 1)
    case RetryableHeading => report.(retryable := report.retryable + 1)
  }

  /** One more inspected record. */
  ghost function Headed(report: Report, heading: Heading): Report {
    Under(report.(inspected := report.inspected + 1), heading)
  }

  ghost function Listed(before: Report, headings: seq<Heading>): Report {
    if headings == [] then before else Headed(Listed(before, headings[..|headings| - 1]), headings[|headings| - 1])
  }

  lemma ListedExtends(before: Report, headings: seq<Heading>, heading: Heading)
    ensures Listed(before, headings + [heading]) == Headed(Listed(before, headings), heading)
  {
    assert (headings + [heading])[..|headings|] == headings;
  }

  lemma {:induction false} ListedAppends(before: Report, first: seq<Heading>, second: seq<Heading>)
    ensures Listed(before, first + second) == Listed(Listed(before, first), second)
    decreases |second|
  {
    if second == [] {
      assert first + second == first;
    } else {
      assert (first + second)[..|first + second| - 1] == first + second[..|second| - 1];
      ListedAppends(before, first, second[..|second| - 1]);
    }
  }

  lemma {:induction false} ListedTallies(before: Report, headings: seq<Heading>)
    requires Tally(before)
    ensures Tally(Listed(before, headings)) && Listed(before, headings).inspected == before.inspected + |headings|
    decreases |headings|
  {
    if headings != [] {
      ListedTallies(before, headings[..|headings| - 1]);
    }
  }

  /** What the worker learns before it may publish an invoice that has no event yet. */
  datatype Lookup = NoAnswer | Unsettled(at: nat) | Revoked | LateAfterLookup | Settled

  /** An unsettled invoice expires a day after its end; a revoked one at once; the rest is tried again. */
  ghost function HeadingAfter(draft: InvoiceDraft, seen: Lookup): Heading {
    match seen
    case NoAnswer => RetryableHeading
    case Unsettled(at) =>
      if at >= draft.expiresAt + 86_400 || (draft.expiresAt + 86_400 > 0xFFFF_FFFF_FFFF_FFFF && at >= 0xFFFF_FFFF_FFFF_FFFF) then ExpiredHeading else PendingHeading
    case Revoked => ExpiredHeading
    case LateAfterLookup => RetryableHeading
    case Settled => DeliveredHeading
  }

  /** The authorization row is at this revision and active. */
  ghost predicate RowActive(w: World, connection: ConnectionId, revision: nat) {
    connection in w.authorities && w.authorities[connection].revision == revision && w.authorities[connection].active
  }

  /** How often a relay refused a publication of one process. */
  ghost function RefusalsBy(me: nat, actions: seq<Action>): nat {
    if actions == [] then 0
    else
      var last := actions[|actions| - 1];
      RefusalsBy(me, actions[..|actions| - 1]) + (if last.Send? && last.i == me && !last.accepted then 1 else 0)
  }

  /** Least recently checked first, then created first, then by id. */
  ghost predicate Sooner(rows: Invoices, a: EventId, b: EventId) {
    && a in rows && b in rows
    && (|| rows[a].lastChecked < rows[b].lastChecked
        || (rows[a].lastChecked == rows[b].lastChecked
            && (|| rows[a].draft.createdAt < rows[b].draft.createdAt
                || (rows[a].draft.createdAt == rows[b].draft.createdAt && a < b))))
  }

  /** The end of the settlement grace, saturating like the program's addition. */
  function StaleAt(draft: InvoiceDraft): nat {
    if draft.expiresAt + SETTLEMENT_GRACE_SECONDS > U64_MAX then U64_MAX else draft.expiresAt + SETTLEMENT_GRACE_SECONDS
  }

  lemma {:induction false} ExtendRun(w: World, actions: seq<Action>, a: Action)
    requires Run(w, actions) && Enabled(After(w, actions), a)
    ensures Run(w, actions + [a]) && After(w, actions + [a]) == Apply(After(w, actions), a)
    decreases |actions|
  {
    if actions == [] {
      assert [] + [a] == [a] && [a][1..] == [];
    } else {
      assert (actions + [a])[0] == actions[0] && (actions + [a])[1..] == actions[1..] + [a];
      ExtendRun(Apply(w, actions[0]), actions[1..], a);
    }
  }

  /** The record has this canonical event and the relay has acknowledged it. */
  ghost predicate Acknowledged(w: World, id: EventId, json: string, url: Relay) {
    HasJson(w.invoices, id, json) && forall r <- w.invoices[id].notice.relays :: r.url == url ==> r.deliveredAt.Some?
  }

  predicate Completed(w: World, id: EventId) {
    id in w.invoices && w.invoices[id].notice.completedAt.Some?
  }

  /** Facts about the outbox that no step of any process undoes. */
  datatype Fact = Stored(id: EventId, json: string) | Taken(id: EventId, json: string, url: Relay) | Finished(id: EventId)

  ghost predicate Known(w: World, fact: Fact) {
    match fact
    case Stored(id, json) => HasJson(w.invoices, id, json)
    case Taken(id, json, url) => Acknowledged(w, id, json, url)
    case Finished(id) => Completed(w, id)
  }

  ghost predicate Onward(w: World, w': World) {
    forall fact :: Known(w, fact) ==> Known(w', fact)
  }

  lemma AcknowledgementStays(w: World, a: Action, id: EventId, json: string, url: Relay)
    requires Inv(w) && Enabled(w, a) && Acknowledged(w, id, json, url)
    ensures Acknowledged(Apply(w, a), id, json, url)
  {
    JsonStays(w, a, id, json);
    var before := w.invoices[id].notice.relays;
    if a.Record? && a.draft.id in w.invoices {
      RerecordingChangesNothing(w, a);
    }
    if a.Ack? && Fits(a.now) && AgentOf(w, a.i).id == id {
      var after := Acknowledge(before, AgentOf(w, a.i).url, a.now);
      forall k | 0 <= k < |after| && after[k].url == url
        ensures after[k].deliveredAt.Some?
      {
        assert before[k] in before;
      }
    }
  }

  lemma CompletedRowStays(w: World, a: Action, id: EventId)
    requires id in w.invoices && w.invoices[id].notice.completedAt.Some? && w.invoices[id].notice.json.Some?
    ensures id in InvoicesAfter(w, a) && InvoicesAfter(w, a)[id].notice.completedAt.Some?
  {
  }

  lemma CompletionStays(w: World, a: Action, id: EventId)
    requires Inv(w) && Enabled(w, a) && Completed(w, id)
    ensures Completed(Apply(w, a), id)
  {
    assert RowOk(w, id);
    CompletedRowStays(w, a, id);
  }

  lemma FactStays(w: World, a: Action, fact: Fact)
    requires Inv(w) && Enabled(w, a) && Known(w, fact)
    ensures Known(Apply(w, a), fact)
  {
    match fact
    case Stored(id, json) => JsonStays(w, a, id, json);
    case Taken(id, json, url) => AcknowledgementStays(w, a, id, json, url);
    case Finished(id) => CompletionStays(w, a, id);
  }

  lemma StepGoesOnward(w: World, a: Action)
    requires Inv(w) && Enabled(w, a)
    ensures Onward(w, Apply(w, a))
  {
    forall fact | Known(w, fact)
      ensures Known(Apply(w, a), fact)
    {
      FactStays(w, a, fact);
    }
  }

  class NotificationWorker {
    var world: World
    ghost var start: World
    ghost var trace: seq<Action>

    ghost predicate Valid()
      reads this
    {
      Inv(world) && Run(start, trace) && After(start, trace) == world
    }

    constructor (w: World)
      requires Inv(w)
      ensures Valid() && world == start == w && trace == []
    {
      world, start, trace := w, w, [];
    }

    /** What every method guarantees: a longer run that undoes nothing. */
    twostate predicate Progressed()
      reads this
    {
      Valid() && start == old(start) && Onward(old(world), world) && old(trace) <= trace
    }

    method Do(a: Action)
      requires Valid() && Enabled(world, a)
      modifies this
      ensures Progressed() && world == Apply(old(world), a) && trace == old(trace) + [a]
      ensures forall m: nat :: RefusalsBy(m, trace) == RefusalsBy(m, old(trace)) + (if a.Send? && a.i == m && !a.accepted then 1 else 0)
    {
      ExtendRun(start, trace, a);
      StepKeepsInv(world, a);
      StepGoesOnward(world, a);
      world := Apply(world, a);
      trace := trace + [a];
      assert trace[..|trace| - 1] == old(trace);
    }

    /** The same, with a known number of refused own publications. */
    twostate predicate Refused(me: nat, refusals: nat)
      reads this
    {
      Progressed() && RefusalsBy(me, trace) == RefusalsBy(me, old(trace)) + refusals
    }

    /** Other processes take any number of steps. */
    method Pause(me: nat)
      requires Valid()
      modifies this
      ensures Refused(me, 0) && AgentOf(world, me) == AgentOf(old(world), me)
    {
      var steps: nat := *;
      while steps > 0
        invariant Refused(me, 0) && AgentOf(world, me) == AgentOf(old(world), me)
      {
        var a: Action := *;
        if Enabled(world, a) && Actor(a) != Some(me) {
          Do(a);
        }
        steps := steps - 1;
      }
    }

    method Perform(me: nat, a: Action)
      requires Valid() && Enabled(world, a) && (Actor(a).Some? ==> Actor(a) == Some(me))
      modifies this
      ensures Refused(me, if a.Send? && !a.accepted then 1 else 0)
      ensures old(trace) + [a] <= trace && Onward(Apply(old(world), a), world)
      ensures AgentOf(world, me) == if Actor(a).Some? then AgentAfter(old(world), a) else AgentOf(old(world), me)
    {
      Do(a);
      label done:
      Pause(me);
      assert Onward(old@done(world), world);
    }

    // ---- Reading the queue ----

    /** The record that comes first in the queue order. */
    method First(candidates: set<EventId>) returns (first: EventId)
      requires candidates != {} && candidates <= world.invoices.Keys
      ensures first in candidates
      ensures forall id <- candidates :: id != first ==> Before(world.invoices, first, id)
    {
      first :| first in candidates;
      var unseen := candidates - {first};
      while unseen != {}
        invariant unseen <= candidates && first in candidates
        invariant forall id <- candidates :: id == first || id in unseen || Before(world.invoices, first, id)
        decreases unseen
      {
        var next :| next in unseen;
        if Before(world.invoices, next, first) {
          first := next;
        }
        unseen := unseen - {next};
      }
    }

    /** At most twenty pending records of the scope, least recently checked first. */
    method PendingInvoices(scope: EventId -> bool) returns (batch: seq<EventId>)
      ensures IsBatch(world.invoices, scope, DEFAULT_BATCH_SIZE, batch)
      ensures |batch| <= 20
      ensures forall id <- batch :: id in world.invoices && world.invoices[id].notice.completedAt.None? && scope(id)
      ensures forall i, j :: 0 <= i < j < |batch| ==> Sooner(world.invoices, batch[i], batch[j])
      ensures forall id <- world.invoices :: world.invoices[id].notice.completedAt.None? && scope(id) && id !in batch ==>
                |batch| == 20 && forall b <- batch :: Sooner(world.invoices, b, id)
    {
      batch := [];
      var rest := set id | id in world.invoices && Pending(world.invoices, id) && scope(id);
      while |batch| < DEFAULT_BATCH_SIZE && rest != {}
        invariant |batch| <= DEFAULT_BATCH_SIZE && rest <= world.invoices.Keys
        invariant forall id <- batch :: Pending(world.invoices, id) && scope(id) && id !in rest
        invariant forall id <- world.invoices :: Pending(world.invoices, id) && scope(id) ==> id in batch || id in rest
        invariant forall b <- batch, id <- rest :: Before(world.invoices, b, id)
        invariant InOrder(world.invoices, batch)
        decreases rest
      {
        var first := First(rest);
        batch, rest := batch + [first], rest - {first};
      }
    }

    // ---- One invoice ----

    /** Expires a record after the settlement grace, or leaves it pending. */
    method DeferOrExpireInvoice(me: nat, draft: InvoiceDraft, before: Report) returns (report: Report, ghost checkedAt: nat)
      requires Valid()
      modifies this
      ensures Refused(me, 0) && AgentOf(world, me) == AgentOf(old(world), me)
      ensures report == Under(before, HeadingAfter(draft, Unsettled(checkedAt)))
      ensures if HeadingAfter(draft, Unsettled(checkedAt)) == ExpiredHeading then old(trace) + [Expire(draft.id)] <= trace
              else world == old(world) && trace == old(trace)
    {
      var now: nat := *;
      checkedAt := now;
      if now >= StaleAt(draft) {
        Perform(me, Expire(draft.id));
        report := before.(expired := before.expired + 1);
      } else {
        report := before.(pending := before.pending + 1);
      }
    }

    /** Asks one relay to take the canonical event and records its acknowledgement. */
    method PublishToRelay(me: nat, url: Relay) returns (accepted: bool, r: Result<(), WorkerError>)
      requires Valid() && AgentOf(world, me).Carrying?
      modifies this
      ensures Refused(me, if accepted then 0 else 1)
      ensures r.Ok? ==> AgentOf(world, me) == AgentOf(old(world), me)
      ensures r.Ok? && accepted ==> Known(world, Taken(AgentOf(world, me).id, AgentOf(world, me).json, url))
    {
      accepted := *;
      Perform(me, Send(me, url, accepted));
      if accepted {
        var now: nat := *;
        if !Fits(now) {
          return true, Err(LedgerFailed);
        }
        AckAcknowledges(world, me, now);
        Perform(me, Ack(me, now));
      }
      return accepted, Ok(());
    }

    /** Publishes the canonical event to every relay that has not acknowledged it. */
    method PublishToRelays(me: nat, urls: seq<Relay>) returns (failed: bool, r: Result<(), WorkerError>, ghost late: bool)
      requires Valid() && AgentOf(world, me).Carrying?
      modifies this
      ensures Progressed() && RefusalsBy(me, old(trace)) <= RefusalsBy(me, trace)
      ensures r.Ok? ==> AgentOf(world, me) == AgentOf(old(world), me)
      ensures r.Ok? ==> (failed <==> late || RefusalsBy(me, trace) > RefusalsBy(me, old(trace)))
      ensures r.Ok? && !failed ==>
                forall url <- urls :: Known(world, Taken(AgentOf(world, me).id, AgentOf(world, me).json, url))
    {
      failed, r, late := false, Ok(()), false;
      var carrying := AgentOf(world, me);
      for n := 0 to |urls|
        invariant Progressed() && AgentOf(world, me) == carrying && r.Ok? && !late
        invariant RefusalsBy(me, old(trace)) <= RefusalsBy(me, trace)
        invariant failed <==> RefusalsBy(me, trace) > RefusalsBy(me, old(trace))
        invariant !failed ==> forall k :: 0 <= k < n ==> Known(world, Taken(carrying.id, carrying.json, urls[k]))
      {
        var inTime: bool := *;
        if !inTime {
          return true, Ok(()), true;
        }
        var accepted;
        accepted, r := PublishToRelay(me, urls[n]);
        if r.Err? {
          return;
        }
        failed := failed || !accepted;
      }
    }

    /** Publishes the canonical event to the relays that had not acknowledged it; on success all have. */
    method PublishMissing(me: nat) returns (failed: bool, r: Result<(), WorkerError>, ghost late: bool)
      requires Valid() && AgentOf(world, me).Carrying?
      modifies this
      ensures Progressed() && RefusalsBy(me, old(trace)) <= RefusalsBy(me, trace)
      ensures r.Ok? ==> AgentOf(world, me) == AgentOf(old(world), me)
      ensures r.Ok? ==> (failed <==> late || RefusalsBy(me, trace) > RefusalsBy(me, old(trace)))
      ensures r.Ok? && !failed ==> AllTaken(world, AgentOf(world, me).id, AgentOf(world, me).json)
    {
      failed, r, late := false, Ok(()), false;
      var carrying := AgentOf(world, me);
      assert AgentOk(world, carrying);
      var urls := Undelivered(world.invoices[carrying.id].notice.relays);
      OthersAreAcknowledged(world, carrying.id, carrying.json);
      ghost var read := world;
      Pause(me);
      if urls != [] {
        failed, r, late := PublishToRelays(me, urls);
      }
      if r.Ok? && !failed {
        TakenByAll(read, world, carrying.id, carrying.json, urls);
      }
    }

    /** Records the completion of an invoice that every relay has taken. */
    method CompleteInvoice(me: nat) returns (r: Result<(), WorkerError>)
      requires Valid() && AgentOf(world, me).Carrying? && AllTaken(world, AgentOf(world, me).id, AgentOf(world, me).json)
      modifies this
      ensures Refused(me, 0)
      ensures r.Ok? ==> AgentOf(world, me).Idle? && Completed(world, AgentOf(old(world), me).id)
    {
      var now: nat := *;
      if !Fits(now) {
        return Err(LedgerFailed);
      }
      CompletionTakesEffect(world, me, now);
      ghost var finished := Finished(AgentOf(world, me).id);
      Perform(me, Complete(me, now));
      assert Known(world, finished);
      return Ok(());
    }

    /** The tail of one invoice: publish what is missing, then complete. */
    method DeliverInvoice(me: nat, before: Report) returns (report: Report, r: Result<(), WorkerError>, ghost late: bool)
      requires Valid() && AgentOf(world, me).Carrying?
      modifies this
      ensures Progressed() && RefusalsBy(me, old(trace)) <= RefusalsBy(me, trace)
      ensures r.Ok? ==> AgentOf(world, me).Idle?
      ensures r.Ok? ==>
                if late || RefusalsBy(me, trace) > RefusalsBy(me, old(trace)) then report == Under(before, RetryableHeading)
                else report == Under(before, DeliveredHeading) && Completed(world, AgentOf(old(world), me).id)
    {
      report := before;
      var failed;
      failed, r, late := PublishMissing(me);
      if r.Err? {
        return;
      }
      if failed {
        Perform(me, Leave(me));
        report := before.(retryable := before.retryable + 1);
        return;
      }
      r := CompleteInvoice(me);
      if r.Err? {
        return;
      }
      report := before.(delivered := before.delivered + 1);
    }

    /** Looks up the settlement and stores the canonical event, unless the record is counted before that. */
    method ObtainEvent(me: nat, draft: InvoiceDraft, inspected: Report)
      returns (counted: Option<Report>, r: Result<(), WorkerError>, ghost seen: Lookup)
      requires Valid() && AgentOf(world, me).Idle?
      modifies this
      ensures Refused(me, 0)
      ensures counted.Some? ==> r.Ok? && AgentOf(world, me).Idle?
                                && seen != Settled && counted.value == Under(inspected, HeadingAfter(draft, seen))
      ensures counted.None? ==> seen == Settled
      ensures counted.None? && r.Ok? ==> AgentOf(world, me).Carrying? && AgentOf(world, me).id == draft.id
      ensures seen == Revoked ==> !RowActive(old(world), draft.connection, draft.revision)
      ensures seen == Settled || seen == LateAfterLookup ==> RowActive(old(world), draft.connection, draft.revision)
    {
      var inTime: bool, answered: bool, settled: bool := *, *, *;
      if !inTime || !answered {
        return Some(inspected.(retryable := inspected.retryable + 1)), Ok(()), NoAnswer;
      }
      if !settled {
        ghost var at;
        var report;
        report, at := DeferOrExpireInvoice(me, draft, inspected);
        return Some(report), Ok(()), Unsettled(at);
      }
      if !L.IsActive(world.authorities, draft.connection, draft.revision) {
        Perform(me, Expire(draft.id));
        return Some(inspected.(expired := inspected.expired + 1)), Ok(()), Revoked;
      }
      Pause(me);
      var stillInTime: bool := *;
      if !stillInTime {
        return Some(inspected.(retryable := inspected.retryable + 1)), Ok(()), LateAfterLookup;
      }
      var signed: bool, failure: WorkerError := *, *;
      if !signed {
        return None, Err(failure), Settled;
      }
      var proposed: string, settledAt: nat := *, *;
      var canonical := StoreEvent(world.invoices, draft.id, proposed, settledAt).1;
      Perform(me, Propose(me, draft.id, proposed, settledAt));
      return None, if canonical.Ok? then Ok(()) else Err(LedgerFailed), Settled;
    }

    /**
     Reconciles one record. The touch is committed first, even when the pass fails later; on success the
     record is counted once: by what was learnt before it had an event, else as delivered exactly when
     every relay took it in time.
     */
    method ProcessInvoice(me: nat, snapshot: InvoiceRow, before: Report)
      returns (report: Report, r: Result<(), WorkerError>, ghost checkedAt: nat, ghost heading: Heading)
      requires Valid() && AgentOf(world, me).Idle?
      requires snapshot.notice.json.Some? ==> Known(world, Stored(snapshot.draft.id, snapshot.notice.json.value))
      modifies this
      ensures Progressed()
      ensures old(trace) + [TouchRow(snapshot.draft.id, checkedAt)] <= trace && (r.Ok? ==> Fits(checkedAt))
      ensures r.Ok? ==> AgentOf(world, me).Idle? && report == Headed(before, heading)
      ensures r.Ok? && heading == DeliveredHeading ==> Known(world, Finished(snapshot.draft.id))
      ensures r.Ok? && snapshot.notice.json.Some? ==> heading == DeliveredHeading || heading == RetryableHeading
      ensures r.Ok? && RefusalsBy(me, trace) > RefusalsBy(me, old(trace)) ==> heading == RetryableHeading
    {
      var id := snapshot.draft.id;
      var inspected := before.(inspected := before.inspected + 1);
      report, heading := inspected, RetryableHeading;
      var now: nat := *;
      checkedAt := now;
      var touched := Touch(world.invoices, id, now).1;
      Perform(me, TouchRow(id, now));
      if touched.Err? {
        return inspected, Err(LedgerFailed), now, heading;
      }
      report, r, heading := ReconcileTouched(me, snapshot, inspected);
    }

    /** The rest of one record, once it is touched. */
    method ReconcileTouched(me: nat, snapshot: InvoiceRow, inspected: Report)
      returns (report: Report, r: Result<(), WorkerError>, ghost heading: Heading)
      requires Valid() && AgentOf(world, me).Idle?
      requires snapshot.notice.json.Some? ==> Known(world, Stored(snapshot.draft.id, snapshot.notice.json.value))
      modifies this
      ensures Progressed()
      ensures r.Ok? ==> AgentOf(world, me).Idle? && report == Under(inspected, heading)
      ensures r.Ok? && heading == DeliveredHeading ==> Known(world, Finished(snapshot.draft.id))
      ensures r.Ok? && snapshot.notice.json.Some? ==> heading == DeliveredHeading || heading == RetryableHeading
      ensures r.Ok? && RefusalsBy(me, trace) > RefusalsBy(me, old(trace)) ==> heading == RetryableHeading
    {
      report, heading := inspected, RetryableHeading;
      if snapshot.notice.json.Some? {
        Perform(me, Carry(me, snapshot.draft.id));
      } else {
        var counted: Option<Report>;
        ghost var seen;
        counted, r, seen := ObtainEvent(me, snapshot.draft, inspected);
        if r.Err? {
          return;
        }
        if counted.Some? {
          report, heading := counted.value, HeadingAfter(snapshot.draft, seen);
          return;
        }
      }
      ghost var late;
      report, r, late := DeliverInvoice(me, inspected);
      heading := if late || RefusalsBy(me, trace) > RefusalsBy(me, old(trace)) then RetryableHeading else DeliveredHeading;
    }

    /** Reconciles one exact invoice. */
    method RunInvoice(me: nat, id: EventId) returns (report: Report, r: Result<(), WorkerError>, ghost headings: seq<Heading>)
      requires Valid() && AgentOf(world, me).Idle?
      modifies this
      ensures Progressed()
      ensures r.Ok? ==> report == Listed(EMPTY_REPORT, headings) && |headings| == if Pending(old(world).invoices, id) then 1 else 0
      ensures r.Ok? && report.delivered > 0 ==> Completed(world, id)
    {
      report, r, headings := EMPTY_REPORT, Ok(()), [];
      if Pending(world.invoices, id) {
        assert RowOk(world, id);
        ghost var at, heading;
        report, r, at, heading := ProcessInvoice(me, world.invoices[id], EMPTY_REPORT);
        headings := [heading];
        ListedExtends(EMPTY_REPORT, [], heading);
        assert [] + [heading] == [heading];
      }
    }

    // ---- One pass ----

    /** One payment notification of the first loop; `stop` ends the loop early. */
    method ProcessSent(me: nat, id: EventId, row: SentRow, before: Report)
      returns (report: Report, stop: bool, r: Result<(), WorkerError>, ghost heading: Heading,
              ghost urls: seq<Relay>, ghost answers: seq<bool>)
      requires Valid() && AgentOf(world, me).Idle?
      modifies this
      ensures Progressed() && AgentOf(world, me).Idle?
      ensures r.Ok? ==> report == Headed(before, heading)
      ensures r.Ok? ==> (heading == ExpiredHeading <==> !RowActive(old(world), row.connection, row.revision))
      ensures r.Ok? && heading == DeliveredHeading ==> |answers| == |urls| && false !in answers
      ensures r.Ok? && heading == RetryableHeading && !stop ==> |answers| < |urls| || false in answers
      ensures r.Ok? && heading != ExpiredHeading && row.notice.json.Some? ==>
                urls == if id in old(world).sent then Undelivered(old(world).sent[id].notice.relays) else []
      ensures r.Ok? ==> heading != PendingHeading && (stop ==> heading == RetryableHeading && row.notice.json.None?)
    {
      report, stop, heading, urls, answers := before.(inspected := before.inspected + 1), false, ExpiredHeading, [], [];
      if !L.IsActive(world.authorities, row.connection, row.revision) {
        Perform(me, DiscardSent(id));
        return report.(expired := report.expired + 1), false, Ok(()), ExpiredHeading, [], [];
      }
      heading := RetryableHeading;
      if row.notice.json.None? {
        var inTime: bool := *;
        if !inTime {
          return report.(retryable := report.retryable + 1), true, Ok(()), RetryableHeading, [], [];
        }
        var signed: bool, failure: WorkerError, proposed: string := *, *, *;
        if !signed {
          return report, true, Err(failure), heading, [], [];
        }
        if id !in world.sent || world.sent[id].notice.completedAt.Some? || proposed == ""
           || |proposed| > MAX_NOTIFICATION_EVENT_BYTES {
          return report, true, Err(LedgerFailed), heading, [], [];
        }
        Perform(me, StoreSent(id, proposed));
      }
      stop := false;
      report, r, heading, urls, answers := DeliverSent(me, id, report);
    }

    /** The tail of one payment: publish what is missing, then complete. */
    method DeliverSent(me: nat, id: EventId, before: Report)
      returns (report: Report, r: Result<(), WorkerError>, ghost heading: Heading, ghost urls: seq<Relay>, ghost answers: seq<bool>)
      requires Valid() && AgentOf(world, me).Idle?
      modifies this
      ensures Progressed() && AgentOf(world, me).Idle?
      ensures urls == if id in old(world).sent then Undelivered(old(world).sent[id].notice.relays) else []
      ensures r.Ok? ==> report == Under(before, heading)
      ensures r.Ok? ==> |answers| <= |urls|
      ensures r.Ok? ==> heading == if |answers| < |urls| || false in answers then RetryableHeading else DeliveredHeading
    {
      report, heading, answers := before, RetryableHeading, [];
      var missing := if id in world.sent then Undelivered(world.sent[id].notice.relays) else [];
      urls := missing;
      var failed;
      failed, r, answers := PublishSent(me, id, missing);
      if r.Err? {
        return;
      }
      if failed {
        report := before.(retryable := before.retryable + 1);
        return;
      }
      var now: nat := *;
      if !Fits(now) {
        r := Err(LedgerFailed);
        return;
      }
      if id in world.sent {
        Perform(me, CompleteSent(id, now));
      }
      report, heading := before.(delivered := before.delivered + 1), DeliveredHeading;
    }

    /** Asks each relay to take the payment's event; `answers` are theirs, in order, while there was time. */
    method PublishSent(me: nat, id: EventId, urls: seq<Relay>) returns (failed: bool, r: Result<(), WorkerError>, ghost answers: seq<bool>)
      requires Valid() && AgentOf(world, me).Idle?
      modifies this
      ensures Progressed() && AgentOf(world, me).Idle?
      ensures r.Ok? ==> |answers| <= |urls| && (failed <==> |answers| < |urls| || false in answers)
    {
      failed, r, answers := false, Ok(()), [];
      var n := 0;
      while n < |urls|
        invariant Progressed() && AgentOf(world, me).Idle? && r.Ok?
        invariant n == |answers| <= |urls| && (failed <==> false in answers)
        decreases |urls| - n
      {
        var inTime: bool := *;
        if !inTime {
          return true, Ok(()), answers;
        }
        var accepted: bool := *;
        var now: nat := *;
        if accepted {
          if !Fits(now) {
            return failed, Err(LedgerFailed), answers;
          }
          if id in world.sent {
            Perform(me, AckSent(id, urls[n], now));
          }
        } else {
          failed := true;
        }
        answers := answers + [accepted];
        n := n + 1;
      }
    }

    /** The payment loop: a list of headings, one for each inspected payment. */
    method RunSent(me: nat, batch: seq<(EventId, SentRow)>)
      returns (report: Report, r: Result<(), WorkerError>, ghost headings: seq<Heading>)
      requires Valid() && AgentOf(world, me).Idle?
      modifies this
      ensures Progressed() && AgentOf(world, me).Idle?
      ensures r.Ok? ==> report == Listed(EMPTY_REPORT, headings) && |headings| <= |batch|
    {
      report, r, headings := EMPTY_REPORT, Ok(()), [];
      var n := 0;
      while n < |batch|
        invariant Progressed() && AgentOf(world, me).Idle?
        invariant report == Listed(EMPTY_REPORT, headings) && |headings| == n <= |batch| && r.Ok?
        decreases |batch| - n
      {
        var cancelled: bool := *;
        if cancelled {
          break;
        }
        var stop;
        ghost var heading, urls, answers;
        report, stop, r, heading, urls, answers := ProcessSent(me, batch[n].0, batch[n].1, report);
        if r.Err? {
          return;
        }
        ListedExtends(EMPTY_REPORT, headings, heading);
        headings := headings + [heading];
        n := n + 1;
        if stop {
          break;
        }
      }
    }

    /**
     One bounded pass. A pass that ends normally has counted every record it inspected exactly once,
     through every early return and both loops. `before` is the run up to the point where the pass read
     its batch; an uncancelled pass touched the first record of that batch after it, even if it failed
     later, and so skipped every record of its scope that waited outside the batch.
     */
    method RunScoped(me: nat, sentBatch: seq<(EventId, SentRow)>, scope: EventId -> bool)
      returns (report: Report, r: Result<(), WorkerError>, ghost batch: seq<EventId>, ghost before: seq<Action>,
              ghost checkedAt: Option<nat>, ghost cancelled: bool, ghost headings: seq<Heading>)
      requires Valid() && AgentOf(world, me).Idle? && |sentBatch| <= DEFAULT_BATCH_SIZE
      modifies this
      ensures Progressed()
      ensures r.Ok? ==> report == Listed(EMPTY_REPORT, headings) && |headings| <= 2 * DEFAULT_BATCH_SIZE
      ensures r.Ok? ==> Tally(report) && report.inspected == |headings|
      ensures r.Ok? && !cancelled && |batch| > 0 ==> checkedAt.Some? && Fits(checkedAt.value)
      ensures !cancelled && |batch| > 0 ==> checkedAt.Some?
      ensures checkedAt.Some? ==>
                && old(trace) <= before <= trace && Run(start, before)
                && IsBatch(After(start, before).invoices, scope, DEFAULT_BATCH_SIZE, batch) && |batch| > 0
                && TouchRow(batch[0], checkedAt.value) in trace[|before|..]
      ensures checkedAt.Some? && Fits(checkedAt.value) ==>
                forall target :: OutsideBatch(start, before, trace, scope, batch, target) ==>
                  Skips(After(start, before), Pass(scope, batch, checkedAt.value, trace[|before|..]), target)
    {
      batch, before, checkedAt, cancelled := [], trace, None, false;
      report, r, headings := RunSent(me, sentBatch);
      if r.Err? {
        return;
      }
      before := trace;
      var invoices := PendingInvoices(scope);
      batch := invoices;
      assert forall id <- invoices :: RowOk(world, id);
      assert forall id <- invoices :: SnapshotStands(world, id, world.invoices[id]);
      ghost var others;
      report, r, checkedAt, cancelled, others := RunInvoices(me, invoices, world.invoices, report);
      ListedAppends(EMPTY_REPORT, headings, others);
      headings := headings + others;
      ListedTallies(EMPTY_REPORT, headings);
    }

    /** The invoice loop, over the rows as the pass read them. */
    method RunInvoices(me: nat, invoices: seq<EventId>, rows: Invoices, before: Report)
      returns (report: Report, r: Result<(), WorkerError>, ghost checkedAt: Option<nat>, ghost cancelled: bool,
              ghost headings: seq<Heading>)
      requires Valid() && AgentOf(world, me).Idle?
      requires forall id <- invoices :: id in rows && SnapshotStands(world, id, rows[id])
      modifies this
      ensures Progressed()
      ensures r.Ok? ==> report == Listed(before, headings)
      ensures r.Ok? ==> |headings| <= |invoices| && (!cancelled ==> |headings| == |invoices|)
      ensures !cancelled && |invoices| > 0 ==> checkedAt.Some?
      ensures checkedAt.Some? ==> |invoices| > 0 && Touched(old(trace), trace, invoices[0], checkedAt.value)
                                  && (r.Ok? ==> Fits(checkedAt.value))
    {
      report, r, checkedAt, cancelled, headings := before, Ok(()), None, false, [];
      Pause(me);
      var n := 0;
      while n < |invoices|
        invariant Progressed() && AgentOf(world, me).Idle? && r.Ok?
        invariant report == Listed(before, headings) && |headings| == n <= |invoices|
        invariant !cancelled && (n > 0 ==> checkedAt.Some?)
        invariant checkedAt.Some? ==> n > 0 && Touched(old(trace), trace, invoices[0], checkedAt.value) && Fits(checkedAt.value)
        decreases |invoices| - n
      {
        var stop: bool := *;
        if stop {
          cancelled := true;
          break;
        }
        ghost var at, heading;
        ghost var earlier := trace;
        assert SnapshotStands(old(world), invoices[n], rows[invoices[n]]);
        report, r, at, heading := ProcessInvoice(me, rows[invoices[n]], report);
        if n == 0 {
          checkedAt := Some(at);
          NewStepIsTouch(old(trace), earlier, trace, invoices[0], at);
        } else {
          TouchStays(old(trace), earlier, trace, invoices[0], checkedAt.value);
        }
        if r.Err? {
          return;
        }
        ListedExtends(before, headings, heading);
        headings := headings + [heading];
        n := n + 1;
      }
    }
  }

  /** The record was touched in the later part of the run. */
  ghost predicate Touched(before: seq<Action>, after: seq<Action>, id: EventId, now: nat) {
    before <= after && TouchRow(id, now) in after[|before|..]
  }

  lemma NewStepIsTouch(before: seq<Action>, earlier: seq<Action>, after: seq<Action>, id: EventId, now: nat)
    requires before <= earlier && earlier + [TouchRow(id, now)] <= after
    ensures Touched(before, after, id, now)
  {
    assert after[|before|..][|earlier| - |before|] == after[|earlier|] == TouchRow(id, now);
  }

  lemma TouchStays(before: seq<Action>, earlier: seq<Action>, after: seq<Action>, id: EventId, now: nat)
    requires Touched(before, earlier, id, now) && earlier <= after
    ensures Touched(before, after, id, now)
  {
    var k :| 0 <= k < |earlier[|before|..]| && earlier[|before|..][k] == TouchRow(id, now);
    assert after[|before|..][k] == earlier[|before|..][k];
  }

  /** The target waited, unread, in the scope of a pass from its reading on. */
  ghost predicate OutsideBatch(start: World, before: seq<Action>, trace: seq<Action>, scope: EventId -> bool, batch: seq<EventId>,
                               target: EventId)
    requires before <= trace && Run(start, before)
  {
    var read := After(start, before);
    && target in read.invoices && scope(target) && target !in batch
    && Run(read, trace[|before|..]) && Waits(read, trace[|before|..], target, read.invoices[target].lastChecked)
  }

  /** A row read earlier still names the record and its canonical event. */
  ghost predicate SnapshotStands(w: World, id: EventId, row: InvoiceRow) {
    row.draft.id == id && (row.notice.json.Some? ==> Known(w, Stored(id, row.notice.json.value)))
  }

  /** Acknowledging marks every row of the relay. */
  lemma AckAcknowledges(w: World, me: nat, now: nat)
    requires Inv(w) && AgentOf(w, me).Acking? && Fits(now)
    ensures Known(Apply(w, Ack(me, now)), Taken(AgentOf(w, me).id, AgentOf(w, me).json, AgentOf(w, me).url))
  {
    assert AgentOk(w, AgentOf(w, me));
  }

  /** Relays missing from the undelivered list have acknowledged. */
  lemma OthersAreAcknowledged(w: World, id: EventId, json: string)
    requires HasJson(w.invoices, id, json)
    ensures forall url :: url !in Undelivered(w.invoices[id].notice.relays) ==> Known(w, Taken(id, json, url))
  {
    UndeliveredListsAll(w.invoices[id].notice.relays);
  }

  lemma {:induction false} UndeliveredListsAll(relays: seq<RelayRow>)
    ensures forall r <- relays :: r.deliveredAt.None? ==> r.url in Undelivered(relays)
  {
    if relays != [] {
      UndeliveredListsAll(relays[1..]);
      assert relays == [relays[0]] + relays[1..];
    }
  }

  /** The record has this canonical event and every relay has acknowledged it. */
  ghost predicate AllTaken(w: World, id: EventId, json: string) {
    HasJson(w.invoices, id, json) && forall r <- w.invoices[id].notice.relays :: r.deliveredAt.Some?
  }

  /** Once every relay read as missing has acknowledged, all have. */
  lemma TakenByAll(read: World, w: World, id: EventId, json: string, urls: seq<Relay>)
    requires Onward(read, w) && HasJson(read.invoices, id, json)
    requires forall url :: url !in urls ==> Known(read, Taken(id, json, url))
    requires forall url <- urls :: Known(w, Taken(id, json, url))
    ensures AllTaken(w, id, json)
  {
    assert Known(read, Stored(id, json));
    forall r | r in w.invoices[id].notice.relays
      ensures r.deliveredAt.Some?
    {
      assert r.url !in urls ==> Known(read, Taken(id, json, r.url));
      assert Known(w, Taken(id, json, r.url));
    }
  }

  /** Completion is recorded once every relay has acknowledged. */
  lemma CompletionTakesEffect(w: World, me: nat, now: nat)
    requires Inv(w) && AgentOf(w, me).Carrying? && AllTaken(w, AgentOf(w, me).id, AgentOf(w, me).json) && Fits(now)
    ensures Known(Apply(w, Complete(me, now)), Finished(AgentOf(w, me).id))
  {
    assert AgentOk(w, AgentOf(w, me));
  }
}
