/** The rotating work queue of pending invoices: no record waits forever, whatever the clocks do. */
module OutboxFairness {
  import opened Types
  import opened Outbox
  import opened OutboxSafety

  // ---- The queue order ----

  /** Queue order: last check, then creation, then id. */
  predicate Before(rows: Invoices, a: EventId, b: EventId)
    requires a in rows && b in rows
  {
    var r, s := rows[a], rows[b];
    if r.lastChecked != s.lastChecked then r.lastChecked < s.lastChecked
    else if r.draft.createdAt != s.draft.createdAt then r.draft.createdAt < s.draft.createdAt
    else a < b
  }

  ghost predicate InOrder(rows: Invoices, batch: seq<EventId>) {
    forall i, j :: 0 <= i < j < |batch| ==> batch[i] in rows && batch[j] in rows && Before(rows, batch[i], batch[j])
  }

  /** The batch the pending query returns for one scope. */
  ghost predicate IsBatch(rows: Invoices, scope: EventId -> bool, maximum: nat, batch: seq<EventId>) {
    && |batch| <= maximum
    && (forall id <- batch :: Pending(rows, id) && scope(id))
    && InOrder(rows, batch)
    && (forall id <- rows :: Pending(rows, id) && scope(id) && id !in batch ==>
          |batch| == maximum && forall b <- batch :: Before(rows, b, id))
  }

  // ---- The measure ----

  /** How many positions one other record may still stand in front of the target. */
  function Ahead(rows: Invoices, limit: nat, target: EventId, id: EventId): nat {
    if id != target && Pending(rows, id) && rows[id].lastChecked <= limit then limit + 1 - rows[id].lastChecked else 0
  }

  ghost function AheadIn(rows: Invoices, limit: nat, target: EventId, ids: set<EventId>): nat
    decreases |ids|
  {
    if ids == {} then 0
    else
      var id :| id in ids;
      Ahead(rows, limit, target, id) + AheadIn(rows, limit, target, ids - {id})
  }

  /** The sum over other pending invoices of max(0, v + 1 - last check), v being the target's last check. */
  ghost function Waiting(rows: Invoices, target: EventId): nat
    requires target in rows
  {
    AheadIn(rows, rows[target].lastChecked, target, rows.Keys)
  }

  lemma {:induction false} AheadWithout(rows: Invoices, limit: nat, target: EventId, ids: set<EventId>, id: EventId)
    requires id in ids
    ensures AheadIn(rows, limit, target, ids) == Ahead(rows, limit, target, id) + AheadIn(rows, limit, target, ids - {id})
    decreases |ids|
  {
    var d :| d in ids && AheadIn(rows, limit, target, ids)
                         == Ahead(rows, limit, target, d) + AheadIn(rows, limit, target, ids - {d});
    if d != id {
      AheadWithout(rows, limit, target, ids - {d}, id);
      AheadWithout(rows, limit, target, ids - {id}, d);
      assert ids - {d} - {id} == ids - {id} - {d};
    }
  }

  /** Records that are not in the table add nothing. */
  lemma {:induction false} AbsentAddNothing(rows: Invoices, limit: nat, target: EventId, absent: set<EventId>)
    requires absent !! rows.Keys
    ensures AheadIn(rows, limit, target, rows.Keys + absent) == AheadIn(rows, limit, target, rows.Keys)
    decreases |absent|
  {
    if absent == {} {
      assert rows.Keys + absent == rows.Keys;
    } else {
      var id :| id in absent;
      AheadWithout(rows, limit, target, rows.Keys + absent, id);
      assert rows.Keys + absent - {id} == rows.Keys + (absent - {id});
      AbsentAddNothing(rows, limit, target, absent - {id});
    }
  }

  lemma {:induction false} SumFollowsTerms(rows: Invoices, rows': Invoices, limit: nat, target: EventId, ids: set<EventId>)
    requires forall id <- ids :: Ahead(rows', limit, target, id) <= Ahead(rows, limit, target, id)
    ensures AheadIn(rows', limit, target, ids) <= AheadIn(rows, limit, target, ids)
    ensures forall id <- ids :: Ahead(rows', limit, target, id) < Ahead(rows, limit, target, id) ==>
              AheadIn(rows', limit, target, ids) < AheadIn(rows, limit, target, ids)
    decreases |ids|
  {
    forall id | id in ids
      ensures AheadIn(rows', limit, target, ids) - Ahead(rows', limit, target, id)
              <= AheadIn(rows, limit, target, ids) - Ahead(rows, limit, target, id)
    {
      AheadWithout(rows, limit, target, ids, id);
      AheadWithout(rows', limit, target, ids, id);
      SumFollowsTerms(rows, rows', limit, target, ids - {id});
    }
    if ids != {} {
      var id :| id in ids;
      assert Ahead(rows', limit, target, id) <= Ahead(rows, limit, target, id);
    }
  }

  /** Term by term comparison of two tables in which the target waits at the same place. */
  lemma WaitingFollowsTerms(rows: Invoices, rows': Invoices, target: EventId, mover: EventId)
    requires target in rows && target in rows' && rows'[target].lastChecked == rows[target].lastChecked
    requires var v := rows[target].lastChecked;
             forall id :: Ahead(rows', v, target, id) <= Ahead(rows, v, target, id)
    ensures Waiting(rows', target) <= Waiting(rows, target)
    ensures var v := rows[target].lastChecked;
            Ahead(rows', v, target, mover) < Ahead(rows, v, target, mover) ==> Waiting(rows', target) < Waiting(rows, target)
  {
    var v := rows[target].lastChecked;
    var all := rows.Keys + rows'.Keys + {mover};
    SumFollowsTerms(rows, rows', v, target, all);
    AbsentAddNothing(rows, v, target, all - rows.Keys);
    AbsentAddNothing(rows', v, target, all - rows'.Keys);
    assert rows.Keys + (all - rows.Keys) == all && rows'.Keys + (all - rows'.Keys) == all;
  }

  // ---- While the target waits ----

  /** The target stays pending at its place, and no record arrives ahead of it. */
  ghost predicate Waits(w: World, actions: seq<Action>, target: EventId, v: nat)
    requires Run(w, actions)
    decreases |actions|
  {
    && Pending(w.invoices, target) && w.invoices[target].lastChecked == v
    && (actions != [] ==>
          && (actions[0].Record? && actions[0].draft.id !in w.invoices ==> actions[0].draft.createdAt > v)
          && Waits(Apply(w, actions[0]), actions[1..], target, v))
  }

  /** No step moves a record closer to the front. */
  lemma StepNeverOvertakes(w: World, a: Action, target: EventId, v: nat, id: EventId)
    requires Enabled(w, a) && (a.Record? && a.draft.id !in w.invoices ==> a.draft.createdAt > v)
    ensures Ahead(InvoicesAfter(w, a), v, target, id) <= Ahead(w.invoices, v, target, id)
  {
  }

  lemma {:induction false} RunNeverOvertakes(w: World, actions: seq<Action>, target: EventId, v: nat, id: EventId)
    requires Run(w, actions) && Waits(w, actions, target, v)
    ensures Pending(After(w, actions).invoices, target) && After(w, actions).invoices[target].lastChecked == v
    ensures Ahead(After(w, actions).invoices, v, target, id) <= Ahead(w.invoices, v, target, id)
    decreases |actions|
  {
    if actions != [] {
      StepNeverOvertakes(w, actions[0], target, v, id);
      RunNeverOvertakes(Apply(w, actions[0]), actions[1..], target, v, id);
    }
  }

  /** A record that left the place it had. */
  predicate Moved(rows: Invoices, id: EventId, last: nat) {
    Pending(rows, id) ==> rows[id].lastChecked > last
  }

  lemma {:induction false} TouchedRecordMoves(w: World, actions: seq<Action>, target: EventId, v: nat, id: EventId, last: nat, now: nat)
    requires Run(w, actions) && Waits(w, actions, target, v) && last <= v && last < I64_MAX && Fits(now)
    requires (Pending(w.invoices, id) ==> w.invoices[id].lastChecked >= last)
    requires TouchRow(id, now) in actions || Moved(w.invoices, id, last)
    ensures Moved(After(w, actions).invoices, id, last)
    decreases |actions|
  {
    if actions != [] {
      var a := actions[0];
      StepMovesOn(w, a, v, id, last);
      assert actions == [a] + actions[1..];
      TouchedRecordMoves(Apply(w, a), actions[1..], target, v, id, last, now);
    }
  }

  lemma StepMovesOn(w: World, a: Action, v: nat, id: EventId, last: nat)
    requires Enabled(w, a) && last <= v && last < I64_MAX
    requires a.Record? && a.draft.id !in w.invoices ==> a.draft.createdAt > v
    requires Pending(w.invoices, id) ==> w.invoices[id].lastChecked >= last
    ensures Pending(InvoicesAfter(w, a), id) ==> InvoicesAfter(w, a)[id].lastChecked >= last
    ensures Moved(w.invoices, id, last) ==> Moved(InvoicesAfter(w, a), id, last)
    ensures a.TouchRow? && a.id == id && Fits(a.now) ==> Moved(InvoicesAfter(w, a), id, last)
  {
  }

  // ---- Passes ----

  /** One worker pass: the batch it read, and everything committed from that read until the next pass reads. */
  datatype Pass = Pass(scope: EventId -> bool, batch: seq<EventId>, now: nat, actions: seq<Action>)

  /** The pass read a batch without the target and reached at least the batch's first record. */
  ghost predicate Skips(w: World, p: Pass, target: EventId)
    requires target in w.invoices
  {
    && Run(w, p.actions)
    && Waits(w, p.actions, target, w.invoices[target].lastChecked)
    && p.scope(target)
    && IsBatch(w.invoices, p.scope, DEFAULT_BATCH_SIZE, p.batch)
    && target !in p.batch
    && |p.batch| > 0
    && TouchRow(p.batch[0], p.now) in p.actions && Fits(p.now)
  }

  /**
   Every pass that skips the target brings it strictly closer to the front, whatever storable value the
   clock shows, whatever other processes do meanwhile, and even if the pass stops after its first record. Only a
   target already at the end of the representable time is excluded.
   */
  lemma SkippingPassMakesProgress(w: World, p: Pass, target: EventId)
    requires target in w.invoices && Skips(w, p, target) && w.invoices[target].lastChecked < I64_MAX
    ensures target in After(w, p.actions).invoices
    ensures After(w, p.actions).invoices[target].lastChecked == w.invoices[target].lastChecked
    ensures Waiting(After(w, p.actions).invoices, target) < Waiting(w.invoices, target)
  {
    var rows, rows' := w.invoices, After(w, p.actions).invoices;
    var v, first := rows[target].lastChecked, p.batch[0];
    assert Pending(rows, target) && first in p.batch;
    assert Before(rows, first, target);
    RunNeverOvertakes(w, p.actions, target, v, target);
    forall id: EventId
      ensures Ahead(rows', v, target, id) <= Ahead(rows, v, target, id)
    {
      RunNeverOvertakes(w, p.actions, target, v, id);
    }
    TouchedRecordMoves(w, p.actions, target, v, first, rows[first].lastChecked, p.now);
    WaitingFollowsTerms(rows, rows', target, first);
  }

  /** Consecutive passes that all skip the target. */
  ghost predicate AllSkip(w: World, passes: seq<Pass>, target: EventId)
    decreases |passes|
  {
    passes != [] ==>
      && target in w.invoices
      && Skips(w, passes[0], target)
      && AllSkip(After(w, passes[0].actions), passes[1..], target)
  }

  /** No pending invoice starves: it is skipped at most as often as the measure says. */
  lemma {:induction false} NoInvoiceStarves(w: World, passes: seq<Pass>, target: EventId)
    requires target in w.invoices && w.invoices[target].lastChecked < I64_MAX
    requires AllSkip(w, passes, target)
    ensures |passes| <= Waiting(w.invoices, target)
    decreases |passes|
  {
    if passes != [] {
      SkippingPassMakesProgress(w, passes[0], target);
      NoInvoiceStarves(After(w, passes[0].actions), passes[1..], target);
    }
  }

  // ---- Passes cut out of one run ----

  lemma {:induction false} RunSplits(w: World, actions: seq<Action>, n: nat)
    requires Run(w, actions) && n <= |actions|
    ensures Run(w, actions[..n]) && Run(After(w, actions[..n]), actions[n..])
    ensures After(After(w, actions[..n]), actions[n..]) == After(w, actions)
    decreases n
  {
    if n == 0 {
      assert actions[..0] == [] && actions[0..] == actions;
    } else {
      assert actions[..n][0] == actions[0] && actions[..n][1..] == actions[1..][..n - 1] && actions[n..] == actions[1..][n - 1..];
      RunSplits(Apply(w, actions[0]), actions[1..], n - 1);
    }
  }

  lemma {:induction false} WaitsSplits(w: World, actions: seq<Action>, n: nat, target: EventId, v: nat)
    requires Run(w, actions) && Waits(w, actions, target, v) && n <= |actions|
    ensures Run(w, actions[..n]) && Run(After(w, actions[..n]), actions[n..])
    ensures Waits(w, actions[..n], target, v) && Waits(After(w, actions[..n]), actions[n..], target, v)
    decreases n
  {
    RunSplits(w, actions, n);
    if n == 0 {
      assert actions[..0] == [] && actions[0..] == actions;
    } else {
      assert actions[..n][0] == actions[0] && actions[..n][1..] == actions[1..][..n - 1] && actions[n..] == actions[1..][n - 1..];
      WaitsSplits(Apply(w, actions[0]), actions[1..], n - 1, target, v);
    }
  }

  /** Where in a run a worker read a batch, and when it touched the batch's first record. */
  datatype Reading = Reading(at: nat, scope: EventId -> bool, batch: seq<EventId>, now: nat)

  /** A reading that skipped the target, with its touch before the same worker's next reading. */
  ghost predicate SkipsBetween(w: World, actions: seq<Action>, from: nat, r: Reading, to: nat, target: EventId)
    requires Run(w, actions)
  {
    && from == r.at <= to <= |actions| && Run(w, actions[..from])
    && r.scope(target) && target !in r.batch && |r.batch| > 0
    && IsBatch(After(w, actions[..from]).invoices, r.scope, DEFAULT_BATCH_SIZE, r.batch)
    && TouchRow(r.batch[0], r.now) in actions[from..to] && Fits(r.now)
  }

  /** Each reading of one worker skips the target, one after another, up to the end of the run. */
  ghost predicate ReadingsSkip(w: World, actions: seq<Action>, readings: seq<Reading>, target: EventId)
    requires Run(w, actions)
    decreases |readings|
  {
    readings != [] ==>
      && SkipsBetween(w, actions, readings[0].at, readings[0], if |readings| > 1 then readings[1].at else |actions|, target)
      && ReadingsSkip(w, actions, readings[1..], target)
  }

  /** The target waits at its place from this point of the run to its end. */
  ghost predicate WaitsFrom(w: World, actions: seq<Action>, from: nat, target: EventId)
    requires Run(w, actions) && from <= |actions|
  {
    RunSplits(w, actions, from);
    var now := After(w, actions[..from]);
    && target in now.invoices && now.invoices[target].lastChecked < I64_MAX
    && Waits(now, actions[from..], target, now.invoices[target].lastChecked)
  }

  /** The steps between two points of a run are a run themselves. */
  lemma SegmentRuns(w: World, actions: seq<Action>, from: nat, to: nat)
    requires Run(w, actions) && from <= to <= |actions|
    ensures Run(w, actions[..from]) && Run(w, actions[..to])
    ensures Run(After(w, actions[..from]), actions[from..to])
    ensures After(After(w, actions[..from]), actions[from..to]) == After(w, actions[..to])
  {
    RunSplits(w, actions, from);
    RunSplits(w, actions, to);
    RunSplits(w, actions[..to], from);
    assert actions[..to][..from] == actions[..from] && actions[..to][from..] == actions[from..to];
  }

  lemma TailParts(actions: seq<Action>, from: nat, to: nat)
    requires from <= to <= |actions|
    ensures actions[from..] == actions[from..to] + actions[to..]
  {
  }

  /** A target that waits through the rest of the run waits through a part of it and through what is left. */
  lemma SegmentWaits(w: World, actions: seq<Action>, from: nat, to: nat, target: EventId, v: nat)
    requires Run(w, actions) && from <= to <= |actions|
    requires Run(w, actions[..from]) && Run(After(w, actions[..from]), actions[from..])
    requires Waits(After(w, actions[..from]), actions[from..], target, v)
    ensures Run(After(w, actions[..from]), actions[from..to]) && Waits(After(w, actions[..from]), actions[from..to], target, v)
    ensures Run(w, actions[..to]) && Run(After(w, actions[..to]), actions[to..])
    ensures Waits(After(w, actions[..to]), actions[to..], target, v)
  {
    SegmentRuns(w, actions, from, to);
    TailParts(actions, from, to);
    CutWaits(After(w, actions[..from]), actions[from..], actions[from..to], actions[to..], target, v);
  }

  /** The same with the parts of the run as sequences of their own. */
  lemma CutWaits(w: World, tail: seq<Action>, middle: seq<Action>, rest: seq<Action>, target: EventId, v: nat)
    requires Run(w, tail) && Waits(w, tail, target, v) && tail == middle + rest
    ensures Run(w, middle) && Waits(w, middle, target, v)
    ensures Run(After(w, middle), rest) && Waits(After(w, middle), rest, target, v)
  {
    assert tail[..|middle|] == middle && tail[|middle|..] == rest;
    WaitsSplits(w, tail, |middle|, target, v);
  }

  /** Between two readings that skip it, the target waits on and comes nearer. */
  lemma ReadingMakesProgress(w: World, actions: seq<Action>, r: Reading, to: nat, target: EventId)
    requires Run(w, actions) && r.at <= to && SkipsBetween(w, actions, r.at, r, to, target)
    requires WaitsFrom(w, actions, r.at, target)
    ensures WaitsFrom(w, actions, to, target)
    ensures Run(w, actions[..r.at]) && Run(w, actions[..to])
    ensures Waiting(After(w, actions[..to]).invoices, target) < Waiting(After(w, actions[..r.at]).invoices, target)
  {
    RunSplits(w, actions, r.at);
    SegmentRuns(w, actions, r.at, to);
    SegmentWaits(w, actions, r.at, to, target, After(w, actions[..r.at]).invoices[target].lastChecked);
    SkippingPassMakesProgress(After(w, actions[..r.at]), Pass(r.scope, r.batch, r.now, actions[r.at..to]), target);
  }

  /**
   One worker, whatever else happens in between: a record that waits at its place from its first reading to
   the end of a run is skipped by at most as many of its readings as the measure says.
   */
  lemma {:induction false} ReadingsAreBounded(w: World, actions: seq<Action>, readings: seq<Reading>, target: EventId)
    requires Run(w, actions) && readings != [] && readings[0].at <= |actions| && ReadingsSkip(w, actions, readings, target)
    requires WaitsFrom(w, actions, readings[0].at, target)
    ensures Run(w, actions[..readings[0].at])
    ensures |readings| <= Waiting(After(w, actions[..readings[0].at]).invoices, target)
    decreases |readings|
  {
    var to := if |readings| > 1 then readings[1].at else |actions|;
    ReadingMakesProgress(w, actions, readings[0], to, target);
    if |readings| > 1 {
      ReadingsAreBounded(w, actions, readings[1..], target);
    }
  }

  /** While the target waits its measure never grows. */
  lemma WaitingNeverGrows(w: World, actions: seq<Action>, from: nat, to: nat, target: EventId)
    requires Run(w, actions) && from <= to <= |actions| && WaitsFrom(w, actions, from, target)
    ensures WaitsFrom(w, actions, to, target)
    ensures Run(w, actions[..from]) && Run(w, actions[..to])
    ensures Waiting(After(w, actions[..to]).invoices, target) <= Waiting(After(w, actions[..from]).invoices, target)
  {
    RunSplits(w, actions, from);
    SegmentRuns(w, actions, from, to);
    var rows, rows' := After(w, actions[..from]).invoices, After(w, actions[..to]).invoices;
    var v := rows[target].lastChecked;
    SegmentWaits(w, actions, from, to, target, v);
    forall id: EventId
      ensures Ahead(rows', v, target, id) <= Ahead(rows, v, target, id)
    {
      RunNeverOvertakes(After(w, actions[..from]), actions[from..to], target, v, id);
    }
    RunNeverOvertakes(After(w, actions[..from]), actions[from..to], target, v, target);
    WaitingFollowsTerms(rows, rows', target, target);
  }

  ghost function Readings(workers: seq<seq<Reading>>): nat {
    if workers == [] then 0 else |workers[0]| + Readings(workers[1..])
  }

  /** Every worker's own readings follow one another from this point on; those of different workers may overlap. */
  ghost predicate WorkersSkip(w: World, actions: seq<Action>, from: nat, workers: seq<seq<Reading>>, target: EventId)
    requires Run(w, actions)
  {
    forall readings: seq<Reading> <- workers ::
      ReadingsSkip(w, actions, readings, target) && (readings != [] ==> from <= readings[0].at <= |actions|)
  }

  lemma WorkersReadingsFrom(w: World, actions: seq<Action>, from: nat, readings: seq<Reading>, target: EventId)
    requires Run(w, actions) && from <= |actions| && WaitsFrom(w, actions, from, target)
    requires ReadingsSkip(w, actions, readings, target) && (readings != [] ==> from <= readings[0].at <= |actions|)
    ensures Run(w, actions[..from])
    ensures |readings| <= Waiting(After(w, actions[..from]).invoices, target)
  {
    RunSplits(w, actions, from);
    if readings != [] {
      WaitingNeverGrows(w, actions, from, readings[0].at, target);
      ReadingsAreBounded(w, actions, readings, target);
    }
  }

  lemma {:induction false} SumIsBounded(workers: seq<seq<Reading>>, bound: nat)
    requires forall readings <- workers :: |readings| <= bound
    ensures Readings(workers) <= |workers| * bound
    decreases |workers|
  {
    if workers != [] {
      SumIsBounded(workers[1..], bound);
      assert workers[0] in workers && |workers| * bound == bound + |workers[1..]| * bound;
    }
  }

  /**
   However many workers run and however their passes overlap: a record that waits at its place from some
   point of a run to its end is skipped by at most as many readings as workers times its measure there.
   */
  lemma WorkersReadingsAreBounded(w: World, actions: seq<Action>, from: nat, workers: seq<seq<Reading>>, target: EventId)
    requires Run(w, actions) && from <= |actions| && WaitsFrom(w, actions, from, target)
    requires WorkersSkip(w, actions, from, workers, target)
    ensures Run(w, actions[..from])
    ensures Readings(workers) <= |workers| * Waiting(After(w, actions[..from]).invoices, target)
  {
    RunSplits(w, actions, from);
    forall readings: seq<Reading> | readings in workers
      ensures |readings| <= Waiting(After(w, actions[..from]).invoices, target)
    {
      WorkersReadingsFrom(w, actions, from, readings, target);
    }
    SumIsBounded(workers, Waiting(After(w, actions[..from]).invoices, target));
  }

  /**
   The exact limit of the rotation: touching the first record brings the target closer exactly when
   the clock value is storable and that record's last check is not the largest storable time; otherwise
   the update fails and the record stays in front.
   */
  lemma TouchMakesProgressExactly(rows: Invoices, target: EventId, first: EventId, now: nat)
    requires Pending(rows, target) && Pending(rows, first) && first != target && Before(rows, first, target)
    requires rows[first].lastChecked <= I64_MAX
    ensures target in Touch(rows, first, now).0
    ensures Waiting(Touch(rows, first, now).0, target) < Waiting(rows, target) <==> Fits(now) && rows[first].lastChecked < I64_MAX
    ensures Touch(rows, first, now).1.Ok? <==> Fits(now) && rows[first].lastChecked < I64_MAX
  {
    var rows' := Touch(rows, first, now).0;
    if Fits(now) && rows[first].lastChecked < I64_MAX {
      WaitingFollowsTerms(rows, rows', target, first);
    }
  }

  function SaturatedRow(id: EventId): InvoiceRow {
    InvoiceRow(SAMPLE_DRAFT.(id := id, hash := id), I64_MAX, None, Notice(None, None, []))
  }

  /** A concrete case: with both last checks at the largest storable time the first record is never moved. */
  lemma SaturatedRecordStaysFirst(now: nat)
    ensures var rows: Invoices := map[1 := SaturatedRow(1), 2 := SaturatedRow(2)];
            && InvoiceCheck(rows[1]) && InvoiceCheck(rows[2])
            && Pending(rows, 2) && Before(rows, 1, 2)
            && Touch(rows, 1, now).0 == rows && Touch(rows, 1, now).1.Err?
  {
  }
}
