/**
 Where the rotation ends. Sequence numbers are stored in a signed 64-bit column: a settled attempt keeps its
 number forever, and only open attempts start again from zero. Both limits are reached by concrete runs.
 */
module RotationLimits {
  import opened Types
  import opened Rotation

  // ---- When reservations run out of numbers ----

  /** A reservation finds no number exactly while some attempt, settled or not, holds the largest one. */
  lemma ReservationRefusedExactly(seats: Seats, event: EventId)
    requires Storable(seats)
    ensures Reserved(seats, event).Err? <==> exists e <- seats :: seats[e].sequence == I64_MAX
  {
  }

  /** The next pass frees the largest number exactly if no settled attempt holds it. */
  lemma LoadFreesNumbersExactly(seats: Seats, limit: nat, batch: seq<EventId>, event: EventId)
    requires Storable(seats) && limit > 0 && Enabled(seats, Load(limit, batch)) && Reserved(seats, event).Err?
    ensures Reserved(Apply(seats, Load(limit, batch)), event).Ok?
       <==> forall e <- seats :: !seats[e].open ==> seats[e].sequence < I64_MAX
  {
    var after := Apply(seats, Load(limit, batch));
    LoadKeepsStorable(seats, limit, batch);
    ReservationRefusedExactly(seats, event);
    ReservationRefusedExactly(after, event);
    if forall e <- seats :: !seats[e].open ==> seats[e].sequence < I64_MAX {
      RestartFreesNumbers(seats, limit, batch);
    } else {
      var e :| e in seats && !seats[e].open && seats[e].sequence >= I64_MAX;
      SettledKeepsNumber(seats, limit, batch, e);
    }
  }

  lemma SettledKeepsNumber(seats: Seats, limit: nat, batch: seq<EventId>, e: EventId)
    requires Enabled(seats, Load(limit, batch)) && e in seats && !seats[e].open
    ensures e in Apply(seats, Load(limit, batch)) && Apply(seats, Load(limit, batch))[e] == seats[e]
  {
    NumberedKeeps(Basis(seats, limit), batch, Base(seats, limit));
  }

  lemma RestartFreesNumbers(seats: Seats, limit: nat, batch: seq<EventId>)
    requires Storable(seats) && limit > 0 && Enabled(seats, Load(limit, batch))
    requires exists e <- seats :: seats[e].sequence == I64_MAX
    requires forall e <- seats :: !seats[e].open ==> seats[e].sequence < I64_MAX
    ensures forall e <- Apply(seats, Load(limit, batch)) :: Apply(seats, Load(limit, batch))[e].sequence < I64_MAX
  {
    var top :| top in seats && seats[top].sequence == I64_MAX;
    assert top in OpenIds(seats) && Restarts(seats, limit);
    NumberedKeeps(Restarted(seats), batch, 0);
  }

  /** Once a settled attempt holds the largest number, every later reservation is refused, in every run. */
  lemma {:induction false} RefusedForever(seats: Seats, actions: seq<Action>, e: EventId, event: EventId)
    requires Run(seats, actions) && e in seats && seats[e] == Seat(I64_MAX, false)
    ensures e in After(seats, actions) && After(seats, actions)[e] == Seat(I64_MAX, false)
    ensures Reserved(After(seats, actions), event).Err?
    decreases |actions|
  {
    if actions != [] {
      var a := actions[0];
      if a.Load? {
        NumberedKeeps(Basis(seats, a.limit), a.batch, Base(seats, a.limit));
      }
      RefusedForever(Apply(seats, a), actions[1..], e, event);
    }
  }

  // ---- Runs from an empty table that reach both limits ----

  /** One enabled action leads from one queue to another. */
  ghost predicate Leads(seats: Seats, a: Action, seats': Seats) {
    Enabled(seats, a) && Apply(seats, a) == seats'
  }

  lemma {:induction false} RunsCompose(seats: Seats, first: seq<Action>, second: seq<Action>)
    requires Run(seats, first) && Run(After(seats, first), second)
    ensures Run(seats, first + second) && After(seats, first + second) == After(After(seats, first), second)
    decreases |first|
  {
    if first == [] {
      assert first + second == second;
    } else {
      assert (first + second)[0] == first[0] && (first + second)[1..] == first[1..] + second;
      RunsCompose(Apply(seats, first[0]), first[1..], second);
    }
  }

  lemma OneStep(seats: Seats, a: Action, seats': Seats)
    requires Leads(seats, a, seats')
    ensures Run(seats, [a]) && After(seats, [a]) == seats'
  {
    assert [a][1..] == [];
  }

  lemma NumberedOne(seats: Seats, e: EventId, base: nat)
    requires e in seats
    ensures Numbered(seats, [e], base) == seats[e := seats[e].(sequence := base + 1)]
  {
    assert [e][..0] == [];
  }

  /** A pass over a single open attempt raises its number by one. */
  lemma LoneAttemptClimbs(seats: Seats, e: EventId)
    requires OpenIds(seats) == {e} && e in seats && seats[e].sequence < I64_MAX
    ensures Leads(seats, Load(1, [e]), seats[e := Seat(seats[e].sequence + 1, true)])
  {
    assert e in OpenIds(seats);
    MaxIsUnique(seats, {e}, seats[e].sequence);
    assert forall d <- seats :: Open(seats, d) ==> d in OpenIds(seats);
    NumberedOne(seats, e, seats[e].sequence);
  }

  lemma {:induction false} Climb(seats: Seats, e: EventId, n: nat) returns (actions: seq<Action>)
    requires OpenIds(seats) == {e} && e in seats && seats[e].sequence + n <= I64_MAX
    ensures Run(seats, actions) && After(seats, actions) == seats[e := Seat(seats[e].sequence + n, true)]
    decreases n
  {
    assert e in OpenIds(seats);
    actions := [];
    if n == 0 {
      assert seats[e := Seat(seats[e].sequence, true)] == seats;
    } else {
      var next := seats[e := Seat(seats[e].sequence + 1, true)];
      LoneAttemptClimbs(seats, e);
      assert OpenIds(next) == OpenIds(seats);
      var rest := Climb(next, e, n - 1);
      actions := [Load(1, [e])] + rest;
      assert actions[1..] == rest;
      assert next[e := Seat(next[e].sequence + (n - 1), true)] == seats[e := Seat(seats[e].sequence + n, true)];
    }
  }

  /** From an empty table: one attempt is loaded until it holds the given number, and then settles. */
  lemma SettledAt(number: nat) returns (actions: seq<Action>)
    requires 1 <= number <= I64_MAX
    ensures Run(map[], actions) && After(map[], actions) == map[0 := Seat(number, false)]
  {
    var one, top: Seats := map[0 := Seat(1, true)], map[0 := Seat(number, true)];
    assert OpenIds(one) == {0};
    var climb := Climb(one, 0, number - 1);
    OneStep(map[], Reserve(0), one);
    RunsCompose(map[], [Reserve(0)], climb);
    assert one[0 := Seat(number, true)] == top;
    assert top[0 := Seat(number, false)] == map[0 := Seat(number, false)];
    OneStep(top, Close(0), map[0 := Seat(number, false)]);
    RunsCompose(map[], [Reserve(0)] + climb, [Close(0)]);
    actions := [Reserve(0)] + climb + [Close(0)];
  }

  /** What a settled attempt just below the largest number leaves behind: a first attempt and a target. */
  const CROWDED: Seats := map[0 := Seat(I64_MAX - 1, false), 1 := Seat(1, true), 2 := Seat(0, true)]

  /** A pass that loads only attempt 1 although others wait, because a new reservation took the largest number. */
  lemma RestartLoadsFirst(seats: Seats)
    requires 1 in seats && seats[1].open && (forall e <- OpenIds(seats) :: 1 <= e)
    requires exists e <- OpenIds(seats) :: seats[e].sequence == I64_MAX
    ensures Leads(seats, Load(1, [1]), Restarted(seats)[1 := Seat(1, true)])
  {
    var basis := Restarted(seats);
    assert 1 in OpenIds(seats) && Restarts(seats, 1) && Basis(seats, 1) == basis;
    assert forall e <- basis :: Open(basis, e) ==> e in OpenIds(seats) && basis[e].sequence == 0;
    assert IsBatch(basis, 1, [1]);
    NumberedOne(basis, 1, 0);
  }

  lemma ReserveLast(seats: Seats, event: EventId, top: EventId)
    requires event !in seats && top in seats && seats[top].sequence == I64_MAX - 1
    requires forall e <- seats :: seats[e].sequence < I64_MAX
    ensures Leads(seats, Reserve(event), seats[event := Seat(I64_MAX, true)])
  {
    MaxIsUnique(seats, seats.Keys, I64_MAX - 1);
  }

  /** A new reservation takes the largest number, and the next pass restarts and loads attempt 1. */
  lemma ReserveThenRestart(seats: Seats, event: EventId, end: Seats)
    requires event !in seats && event >= 1 && 0 in seats && seats[0] == Seat(I64_MAX - 1, false)
    requires forall e <- seats :: seats[e].sequence < I64_MAX
    requires forall e <- OpenIds(seats) :: 1 <= e
    requires var taken := seats[event := Seat(I64_MAX, true)];
             1 in taken && taken[1].open && end == Restarted(taken)[1 := Seat(1, true)]
    ensures Run(seats, [Reserve(event), Load(1, [1])]) && After(seats, [Reserve(event), Load(1, [1])]) == end
  {
    var taken := seats[event := Seat(I64_MAX, true)];
    ReserveLast(seats, event, 0);
    assert event in OpenIds(taken) && forall e <- OpenIds(taken) :: e == event || e in OpenIds(seats);
    RestartLoadsFirst(taken);
    OneStep(seats, Reserve(event), taken);
    OneStep(taken, Load(1, [1]), end);
    RunsCompose(seats, [Reserve(event)], [Load(1, [1])]);
    assert [Reserve(event)] + [Load(1, [1])] == [Reserve(event), Load(1, [1])];
  }

  /** The crowded queue is reached from an empty table. */
  lemma CrowdedIsReached() returns (actions: seq<Action>)
    ensures Run(map[], actions) && After(map[], actions) == CROWDED
  {
    var start, first: Seats := map[0 := Seat(I64_MAX - 1, false)], map[0 := Seat(I64_MAX - 1, false), 1 := Seat(1, true)];
    actions := SettledAt(I64_MAX - 1);
    assert Restarted(start[1 := Seat(I64_MAX, true)])[1 := Seat(1, true)] == first;
    ReserveThenRestart(start, 1, first);
    RunsCompose(map[], actions, [Reserve(1), Load(1, [1])]);
    actions := actions + [Reserve(1), Load(1, [1])];
    assert Restarted(first[2 := Seat(I64_MAX, true)])[1 := Seat(1, true)] == CROWDED;
    ReserveThenRestart(first, 2, CROWDED);
    RunsCompose(map[], actions, [Reserve(2), Load(1, [1])]);
    actions := actions + [Reserve(2), Load(1, [1])];
  }

  const ROUND: seq<Action> := [Reserve(3), Load(1, [1]), Release(3)]

  /** A reservation, a pass and a release leave the crowded queue as it was, and attempt 2 unloaded. */
  lemma RoundRepeats()
    ensures Run(CROWDED, ROUND) && After(CROWDED, ROUND) == CROWDED
    ensures Skipped(CROWDED, ROUND, 2) && Capacity(ROUND) == 1
  {
    var taken := CROWDED[3 := Seat(I64_MAX, true)];
    var loaded := CROWDED[3 := Seat(0, true)];
    ReserveLast(CROWDED, 3, 0);
    assert 3 in OpenIds(taken);
    RestartLoadsFirst(taken);
    assert Restarted(taken)[1 := Seat(1, true)] == loaded;
    assert loaded - {3} == CROWDED;
    assert ROUND[1..] == [Load(1, [1]), Release(3)] && ROUND[2..] == [Release(3)] && ROUND[3..] == [];
    assert ROUND[1..][1..] == ROUND[2..] && ROUND[2..][1..] == ROUND[3..];
  }

  /** A run from an empty table, then as many passes as wanted, none of which loads the open attempt 2. */
  lemma {:induction false} RestartsCanStarve(passes: nat) returns (before: seq<Action>, later: seq<Action>)
    ensures Run(map[], before) && Run(After(map[], before), later)
    ensures After(map[], before) == CROWDED == After(CROWDED, later)
    ensures Skipped(CROWDED, later, 2) && Capacity(later) == passes
  {
    before := CrowdedIsReached();
    later := [];
    var n := 0;
    while n < passes
      invariant n <= passes && Run(CROWDED, later) && After(CROWDED, later) == CROWDED
      invariant Skipped(CROWDED, later, 2) && Capacity(later) == n
    {
      RoundRepeats();
      RunsCompose(CROWDED, ROUND, later);
      SkipsCompose(CROWDED, ROUND, later, 2);
      later, n := ROUND + later, n + 1;
    }
  }

  lemma {:induction false} SkipsCompose(seats: Seats, first: seq<Action>, second: seq<Action>, target: EventId)
    requires Run(seats, first) && Run(After(seats, first), second)
    requires Skipped(seats, first, target) && Skipped(After(seats, first), second, target)
    ensures Run(seats, first + second) && Skipped(seats, first + second, target)
    ensures Capacity(first + second) == Capacity(first) + Capacity(second)
    decreases |first|
  {
    RunsCompose(seats, first, second);
    if first == [] {
      assert first + second == second;
    } else {
      assert (first + second)[0] == first[0] && (first + second)[1..] == first[1..] + second;
      SkipsCompose(Apply(seats, first[0]), first[1..], second, target);
    }
  }

  /** A run from an empty table after which no payment can ever be reserved again. */
  lemma NumbersCanRunOut() returns (actions: seq<Action>)
    ensures Run(map[], actions)
    ensures forall later, event: EventId :: Run(After(map[], actions), later) ==> Reserved(After(After(map[], actions), later), event).Err?
  {
    actions := SettledAt(I64_MAX);
    forall later, event: EventId | Run(After(map[], actions), later)
      ensures Reserved(After(After(map[], actions), later), event).Err?
    {
      RefusedForever(After(map[], actions), later, 0, event);
    }
  }
}
