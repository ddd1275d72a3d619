/**
 The rotating queue of unresolved payment attempts. Every attempt has a sequence number; a reconciliation
 pass loads the open attempts with the smallest numbers and moves them to the back. Before the numbers
 would leave the column, the numbers of all open attempts start again from zero.
 */
module Rotation {
  import opened Types

  /** An open attempt is reserved or pending, and not an ambiguous debit of an older schema. */
  datatype Seat = Seat(sequence: nat, open: bool)

  type Seats = map<EventId, Seat>

  predicate Open(seats: Seats, e: EventId) {
    e in seats && seats[e].open
  }

  function OpenIds(seats: Seats): set<EventId> {
    set e | e in seats && seats[e].open
  }

  /** Queue order: sequence, then event id. */
  predicate Before(seats: Seats, a: EventId, b: EventId)
    requires a in seats && b in seats
  {
    seats[a].sequence < seats[b].sequence || (seats[a].sequence == seats[b].sequence && a < b)
  }

  ghost predicate InOrder(seats: Seats, batch: seq<EventId>) {
    && (forall e <- batch :: Open(seats, e))
    && forall i, j :: 0 <= i < j < |batch| ==> batch[i] in seats && batch[j] in seats && Before(seats, batch[i], batch[j])
  }

  /** The first open attempts of the queue, as many as there are up to the limit. */
  ghost predicate IsBatch(seats: Seats, limit: nat, batch: seq<EventId>) {
    && |batch| <= limit && InOrder(seats, batch)
    && forall e <- seats :: Open(seats, e) && e !in batch ==>
          |batch| == limit && forall b <- batch :: b in seats && Before(seats, b, e)
  }

  /** The largest sequence of some attempts, zero for none. */
  ghost function MaxOf(seats: Seats, ids: set<EventId>): (m: nat)
    requires ids <= seats.Keys
    ensures forall e <- ids :: seats[e].sequence <= m
    ensures m == 0 || exists e <- ids :: seats[e].sequence == m
    decreases |ids|
  {
    if ids == {} then 0
    else
      var e :| e in ids;
      var rest := MaxOf(seats, ids - {e});
      if seats[e].sequence > rest then seats[e].sequence else rest
  }

  lemma MaxIsUnique(seats: Seats, ids: set<EventId>, m: nat)
    requires ids <= seats.Keys
    requires forall e <- ids :: seats[e].sequence <= m
    requires m == 0 || exists e <- ids :: seats[e].sequence == m
    ensures m == MaxOf(seats, ids)
  {
  }

  // ---- Loading a batch ----

  /** The largest number in use leaves no room for the batch. */
  ghost predicate Restarts(seats: Seats, limit: nat) {
    limit <= I64_MAX && MaxOf(seats, OpenIds(seats)) > I64_MAX - limit
  }

  function Restarted(seats: Seats): Seats {
    map e <- seats :: if seats[e].open then seats[e].(sequence := 0) else seats[e]
  }

  /** The queue the batch is taken from, and the number its attempts are counted on from. */
  ghost function Basis(seats: Seats, limit: nat): Seats {
    if Restarts(seats, limit) then Restarted(seats) else seats
  }

  ghost function Base(seats: Seats, limit: nat): nat {
    if Restarts(seats, limit) then 0 else MaxOf(seats, OpenIds(seats))
  }

  /** The attempts of a batch numbered in its order. */
  function Numbered(seats: Seats, batch: seq<EventId>, base: nat): Seats
    requires forall e <- batch :: e in seats
    decreases |batch|
  {
    if batch == [] then seats
    else
      var last := batch[|batch| - 1];
      Numbered(seats, batch[..|batch| - 1], base)[last := seats[last].(sequence := base + |batch|)]
  }

  lemma {:induction false} NumberedKeeps(seats: Seats, batch: seq<EventId>, base: nat)
    requires forall e <- batch :: e in seats
    ensures Numbered(seats, batch, base).Keys == seats.Keys
    ensures forall e <- seats :: Numbered(seats, batch, base)[e].open == seats[e].open
    ensures forall e <- seats :: e !in batch ==> Numbered(seats, batch, base)[e] == seats[e]
    ensures forall e <- batch :: base < Numbered(seats, batch, base)[e].sequence <= base + |batch|
    decreases |batch|
  {
    if batch != [] {
      NumberedKeeps(seats, batch[..|batch| - 1], base);
      assert forall e <- batch :: e in batch[..|batch| - 1] || e == batch[|batch| - 1];
    }
  }

  /** The attempts of a batch get consecutive numbers in its order. */
  lemma {:induction false} NumberedAt(seats: Seats, batch: seq<EventId>, base: nat, k: nat)
    requires (forall e <- batch :: e in seats) && (forall i, j :: 0 <= i < j < |batch| ==> batch[i] != batch[j]) && k < |batch|
    ensures batch[k] in Numbered(seats, batch, base) && Numbered(seats, batch, base)[batch[k]].sequence == base + k + 1
    decreases |batch|
  {
    NumberedKeeps(seats, batch[..|batch| - 1], base);
    if k < |batch| - 1 {
      NumberedAt(seats, batch[..|batch| - 1], base, k);
    }
  }

  // ---- The queue as a state machine ----

  datatype Action =
    | Load(limit: nat, batch: seq<EventId>)
    | Reserve(event: EventId)
    | Close(event: EventId)
    | Release(event: EventId)

  ghost predicate Enabled(seats: Seats, a: Action) {
    match a
    case Load(limit, batch) => limit < I64_MAX && IsBatch(Basis(seats, limit), limit, batch)
    case Reserve(event) => event !in seats
    case Close(event) => Open(seats, event)
    case Release(event) => Open(seats, event)
  }

  /** A new reservation goes behind every attempt, settled or not; without a number it is refused. */
  ghost function Reserved(seats: Seats, event: EventId): Result<Seats, ()> {
    var last := MaxOf(seats, seats.Keys);
    if last >= I64_MAX then Err(()) else Ok(seats[event := Seat(last + 1, true)])
  }

  ghost function Apply(seats: Seats, a: Action): Seats
    requires Enabled(seats, a)
  {
    match a
    case Load(limit, batch) => Numbered(Basis(seats, limit), batch, Base(seats, limit))
    case Reserve(event) => if Reserved(seats, event).Ok? then Reserved(seats, event).value else seats
    case Close(event) => seats[event := seats[event].(open := false)]
    case Release(event) => seats - {event}
  }

  ghost predicate Run(seats: Seats, actions: seq<Action>)
    decreases |actions|
  {
    actions == [] || (Enabled(seats, actions[0]) && Run(Apply(seats, actions[0]), actions[1..]))
  }

  ghost function After(seats: Seats, actions: seq<Action>): Seats
    requires Run(seats, actions)
    decreases |actions|
  {
    if actions == [] then seats else After(Apply(seats, actions[0]), actions[1..])
  }

  // ---- The numbers never leave the column ----

  /** The column stores every number. */
  ghost predicate Storable(seats: Seats) {
    forall e <- seats :: Fits(seats[e].sequence)
  }

  lemma LoadKeepsStorable(seats: Seats, limit: nat, batch: seq<EventId>)
    requires Storable(seats) && Enabled(seats, Load(limit, batch))
    ensures Base(seats, limit) + |batch| <= I64_MAX
    ensures Storable(Apply(seats, Load(limit, batch)))
  {
    NumberedKeeps(Basis(seats, limit), batch, Base(seats, limit));
  }

  /** In every run every number fits its column, so that numbering a batch never overflows. */
  lemma {:induction false} NumbersStayStorable(seats: Seats, actions: seq<Action>)
    requires Storable(seats) && Run(seats, actions)
    ensures Storable(After(seats, actions))
    decreases |actions|
  {
    if actions != [] {
      if actions[0].Load? {
        LoadKeepsStorable(seats, actions[0].limit, actions[0].batch);
      }
      NumbersStayStorable(Apply(seats, actions[0]), actions[1..]);
    }
  }

  // ---- No attempt starves ----

  /** The open attempts in front of the target. */
  ghost function AheadOf(seats: Seats, target: EventId): set<EventId>
    requires target in seats
  {
    set e | e in seats && seats[e].open && Before(seats, e, target)
  }

  function Ids(batch: seq<EventId>): set<EventId> {
    set e | e in batch
  }

  lemma {:induction false} DistinctCount(batch: seq<EventId>)
    requires forall i, j :: 0 <= i < j < |batch| ==> batch[i] != batch[j]
    ensures |Ids(batch)| == |batch|
    decreases |batch|
  {
    if batch != [] {
      var last, front := batch[|batch| - 1], batch[..|batch| - 1];
      DistinctCount(front);
      assert Ids(batch) == Ids(front) + {last};
    }
  }

  /** A batch without the target consists of attempts in front of it, and puts exactly these behind it. */
  lemma SkippedMovesUp(basis: Seats, base: nat, limit: nat, batch: seq<EventId>, target: EventId)
    requires IsBatch(basis, limit, batch) && Open(basis, target) && target !in batch
    requires basis[target].sequence <= base
    ensures target in Numbered(basis, batch, base)
    ensures |AheadOf(Numbered(basis, batch, base), target)| == |AheadOf(basis, target)| - limit
  {
    NumberedKeeps(basis, batch, base);
    DistinctCount(batch);
    var before, after := AheadOf(basis, target), AheadOf(Numbered(basis, batch, base), target);
    assert Ids(batch) <= before;
    assert after == before - Ids(batch);
  }

  /** The numbers are not restarted, or the event ids alone put as many open attempts before the target. */
  ghost predicate KeepsPlace(seats: Seats, limit: nat, target: EventId)
    requires target in seats
  {
    !Restarts(seats, limit) || |set e | e in OpenIds(seats) && e < target| == |AheadOf(seats, target)|
  }

  /**
   What a pass that skips an open attempt does to its place. Without a restart it comes nearer by the whole
   limit; after a restart only the event ids count.
   */
  lemma LoadMovesSkippedExactly(seats: Seats, limit: nat, batch: seq<EventId>, target: EventId)
    requires Enabled(seats, Load(limit, batch)) && Open(seats, target) && target !in batch
    ensures var after := Apply(seats, Load(limit, batch));
            && Open(after, target)
            && |AheadOf(after, target)| == |AheadOf(Basis(seats, limit), target)| - limit
            && (|AheadOf(after, target)| == |AheadOf(seats, target)| - limit <==> KeepsPlace(seats, limit, target))
  {
    var basis := Basis(seats, limit);
    NumberedKeeps(basis, batch, Base(seats, limit));
    SkippedMovesUp(basis, Base(seats, limit), limit, batch, target);
    if Restarts(seats, limit) {
      assert AheadOf(basis, target) == set e | e in OpenIds(seats) && e < target;
    }
  }

  /** The target stays open and no pass loads it. */
  ghost predicate Skipped(seats: Seats, actions: seq<Action>, target: EventId)
    requires Run(seats, actions)
    decreases |actions|
  {
    && Open(seats, target)
    && (actions != [] ==>
          (actions[0].Load? ==> target !in actions[0].batch) && Skipped(Apply(seats, actions[0]), actions[1..], target))
  }

  /** Every pass of the run meets the condition for the target. */
  ghost predicate PlaceIsKept(seats: Seats, actions: seq<Action>, target: EventId)
    requires Run(seats, actions) && Skipped(seats, actions, target)
    decreases |actions|
  {
    actions != [] ==>
      && (actions[0].Load? ==> KeepsPlace(seats, actions[0].limit, target))
      && PlaceIsKept(Apply(seats, actions[0]), actions[1..], target)
  }

  /** Every pass of the run brings the target nearer by its whole limit. */
  ghost predicate Advances(seats: Seats, actions: seq<Action>, target: EventId)
    requires Run(seats, actions) && Skipped(seats, actions, target)
    decreases |actions|
  {
    actions != [] ==>
      assert Skipped(Apply(seats, actions[0]), actions[1..], target);
      && (actions[0].Load? ==> |AheadOf(Apply(seats, actions[0]), target)| == |AheadOf(seats, target)| - actions[0].limit)
      && Advances(Apply(seats, actions[0]), actions[1..], target)
  }

  /** Over every run that skips an open attempt: all passes bring it nearer exactly if all meet the condition. */
  lemma {:induction false} PassesAdvanceExactly(seats: Seats, actions: seq<Action>, target: EventId)
    requires Run(seats, actions) && Skipped(seats, actions, target)
    ensures Advances(seats, actions, target) <==> PlaceIsKept(seats, actions, target)
    decreases |actions|
  {
    if actions != [] {
      if actions[0].Load? {
        LoadMovesSkippedExactly(seats, actions[0].limit, actions[0].batch, target);
      }
      PassesAdvanceExactly(Apply(seats, actions[0]), actions[1..], target);
    }
  }

  /** How many attempts the passes of a run may load. */
  ghost function Capacity(actions: seq<Action>): nat {
    if actions == [] then 0 else (if actions[0].Load? then actions[0].limit else 0) + Capacity(actions[1..])
  }

  lemma OtherStepsKeepPlace(seats: Seats, a: Action, target: EventId)
    requires Enabled(seats, a) && !a.Load? && Open(seats, target) && Open(Apply(seats, a), target)
    ensures |AheadOf(Apply(seats, a), target)| <= |AheadOf(seats, target)|
  {
    var before, after := AheadOf(seats, target), AheadOf(Apply(seats, a), target);
    assert after <= before;
    assert |before| == |after| + |before - after| by {
      assert before == after + (before - after);
    }
  }

  /**
   An open attempt that is never loaded comes nearer with every pass by its whole limit, whatever is
   reserved, resolved or released meanwhile: all passes that skip it have together no more room than there
   are attempts in front of it.
   */
  lemma {:induction false} NoAttemptStarves(seats: Seats, actions: seq<Action>, target: EventId)
    requires Run(seats, actions) && Skipped(seats, actions, target) && PlaceIsKept(seats, actions, target)
    ensures Open(After(seats, actions), target)
    ensures Capacity(actions) + |AheadOf(After(seats, actions), target)| <= |AheadOf(seats, target)|
    decreases |actions|
  {
    if actions != [] {
      var a := actions[0];
      if a.Load? {
        LoadMovesSkippedExactly(seats, a.limit, a.batch, target);
      } else {
        OtherStepsKeepPlace(seats, a, target);
      }
      NoAttemptStarves(Apply(seats, a), actions[1..], target);
    }
  }

  // ---- How far the next restart is ----

  /** How much a run may raise the largest number. */
  ghost function Growth(actions: seq<Action>): nat {
    if actions == [] then 0
    else (match actions[0] { case Load(limit, _) => limit case Reserve(_) => 1 case _ => 0 }) + Growth(actions[1..])
  }

  lemma LoadGrows(seats: Seats, limit: nat, batch: seq<EventId>)
    requires Enabled(seats, Load(limit, batch))
    ensures var after := Apply(seats, Load(limit, batch));
            MaxOf(after, after.Keys) <= MaxOf(seats, seats.Keys) + limit
  {
    var after, top := Apply(seats, Load(limit, batch)), MaxOf(seats, seats.Keys);
    NumberedKeeps(Basis(seats, limit), batch, Base(seats, limit));
    assert Base(seats, limit) <= top;
    assert forall e <- after :: after[e].sequence <= top + limit;
  }

  lemma StepGrows(seats: Seats, a: Action)
    requires Enabled(seats, a)
    ensures MaxOf(Apply(seats, a), Apply(seats, a).Keys) <= MaxOf(seats, seats.Keys) + Growth([a])
  {
    assert [a][1..] == [];
    if a.Load? {
      LoadGrows(seats, a.limit, a.batch);
    }
  }

  /** While the numbers in use leave room for everything a run adds, nothing restarts and nobody starves. */
  lemma {:induction false} PlaceIsKeptWithRoom(seats: Seats, actions: seq<Action>, target: EventId)
    requires Run(seats, actions) && Skipped(seats, actions, target)
    requires MaxOf(seats, seats.Keys) + Growth(actions) <= I64_MAX
    ensures PlaceIsKept(seats, actions, target)
    decreases |actions|
  {
    if actions != [] {
      StepGrows(seats, actions[0]);
      assert [actions[0]][1..] == [];
      PlaceIsKeptWithRoom(Apply(seats, actions[0]), actions[1..], target);
    }
  }
}
