/** The queue object: the program's transactions on the rows it updates in place. */
module RotationQueue {
  import opened Types
  import opened Rotation

  datatype QueueError = ValueOutOfRange

  /** The first rows of a longer batch are the batch of the smaller limit. */
  lemma BatchIsCut(seats: Seats, limit: nat, fetched: seq<EventId>)
    requires IsBatch(seats, limit + 1, fetched)
    ensures IsBatch(seats, limit, if |fetched| > limit then fetched[..limit] else fetched)
    ensures |fetched| > limit <==> |OpenIds(seats)| > limit
  {
    DistinctCount(fetched);
    assert Ids(fetched) <= OpenIds(seats);
    assert |OpenIds(seats)| == |Ids(fetched)| + |OpenIds(seats) - Ids(fetched)| by {
      assert OpenIds(seats) == Ids(fetched) + (OpenIds(seats) - Ids(fetched));
    }
    if |fetched| <= limit {
      assert OpenIds(seats) - Ids(fetched) == {};
    } else {
      CutIsBatch(seats, limit, fetched);
    }
  }

  lemma CutIsBatch(seats: Seats, limit: nat, fetched: seq<EventId>)
    requires IsBatch(seats, limit + 1, fetched) && |fetched| == limit + 1
    ensures IsBatch(seats, limit, fetched[..limit])
  {
    var last := fetched[limit];
    forall e | e in seats && Open(seats, e) && e !in fetched[..limit]
      ensures forall b <- fetched[..limit] :: b in seats && Before(seats, b, e)
    {
      assert e in fetched ==> e == last;
    }
  }

  lemma OrderIsDistinct(seats: Seats, batch: seq<EventId>)
    requires InOrder(seats, batch)
    ensures forall e <- batch :: e in seats
    ensures forall i, j :: 0 <= i < j < |batch| ==> batch[i] != batch[j]
  {
  }

  /** Some open attempt is closer to the end of the column than the limit. */
  ghost predicate NearTheEnd(seats: Seats, limit: nat) {
    exists e <- seats :: seats[e].open && seats[e].sequence + limit > 0x7FFF_FFFF_FFFF_FFFF
  }

  /** What one pass reads and writes. */
  ghost predicate LoadedInColumns(was: Seats, seats: Seats, limit: nat, batch: seq<EventId>, base: nat) {
    BatchInColumns(was, limit, batch, base) && WrittenInColumns(was, seats, limit, batch, base)
  }

  ghost predicate BatchInColumns(was: Seats, limit: nat, batch: seq<EventId>, base: nat) {
    && |batch| <= limit && (forall e <- batch :: e in was && was[e].open)
    && if NearTheEnd(was, limit)
       then && base == 0
            && (forall i, j :: 0 <= i < j < |batch| ==> batch[i] < batch[j])
            && forall e <- was :: was[e].open && e !in batch ==> |batch| == limit && forall b <- batch :: b < e
       else && (forall e <- was :: was[e].open ==> was[e].sequence <= base)
            && (base == 0 || exists e <- was :: was[e].open && was[e].sequence == base)
            && (forall i, j :: 0 <= i < j < |batch| && batch[i] in was && batch[j] in was ==> Sooner(was, batch[i], batch[j]))
            && forall e <- was :: was[e].open && e !in batch ==>
                 |batch| == limit && forall b <- batch :: b in was ==> Sooner(was, b, e)
  }

  ghost predicate WrittenInColumns(was: Seats, seats: Seats, limit: nat, batch: seq<EventId>, base: nat) {
    && seats.Keys == was.Keys
    && (forall k :: 0 <= k < |batch| ==> batch[k] in seats && seats[batch[k]].sequence == base + k + 1)
    && forall e <- was :: seats[e].open == was[e].open
                          && (e !in batch ==> seats[e].sequence == if NearTheEnd(was, limit) && was[e].open then 0 else was[e].sequence)
  }

  ghost predicate Sooner(was: Seats, a: EventId, b: EventId)
    requires a in was && b in was
  {
    was[a].sequence < was[b].sequence || (was[a].sequence == was[b].sequence && a < b)
  }

  lemma RestartsNearTheEnd(was: Seats, limit: nat)
    requires limit < I64_MAX
    ensures Restarts(was, limit) <==> NearTheEnd(was, limit)
  {
  }

  lemma BatchIsRead(was: Seats, limit: nat, batch: seq<EventId>)
    requires limit < I64_MAX && IsBatch(Basis(was, limit), limit, batch)
    ensures BatchInColumns(was, limit, batch, Base(was, limit))
  {
    RestartsNearTheEnd(was, limit);
    assert forall e <- batch :: Open(Basis(was, limit), e);
    assert forall e <- was :: was[e].open ==> Open(Basis(was, limit), e);
  }

  lemma BatchIsWritten(was: Seats, limit: nat, batch: seq<EventId>)
    requires limit < I64_MAX && InOrder(Basis(was, limit), batch)
    ensures forall e <- batch :: e in Basis(was, limit)
    ensures WrittenInColumns(was, Numbered(Basis(was, limit), batch, Base(was, limit)), limit, batch, Base(was, limit))
  {
    var basis, base := Basis(was, limit), Base(was, limit);
    RestartsNearTheEnd(was, limit);
    OrderIsDistinct(basis, batch);
    NumberedKeeps(basis, batch, base);
    forall k | 0 <= k < |batch|
      ensures batch[k] in Numbered(basis, batch, base) && Numbered(basis, batch, base)[batch[k]].sequence == base + k + 1
    {
      NumberedAt(basis, batch, base, k);
    }
  }

  lemma LoadWrites(was: Seats, limit: nat, batch: seq<EventId>)
    requires limit < I64_MAX && IsBatch(Basis(was, limit), limit, batch)
    ensures forall e <- batch :: e in Basis(was, limit)
    ensures LoadedInColumns(was, Numbered(Basis(was, limit), batch, Base(was, limit)), limit, batch, Base(was, limit))
  {
    BatchIsRead(was, limit, batch);
    BatchIsWritten(was, limit, batch);
  }

  class AttemptQueue {
    var seats: Seats

    constructor ()
      ensures seats == map[]
    {
      seats := map[];
    }

    method MaximumSequence(ids: set<EventId>) returns (maximum: nat)
      requires ids <= seats.Keys
      ensures maximum == MaxOf(seats, ids)
    {
      maximum := 0;
      var unseen := ids;
      while unseen != {}
        invariant unseen <= ids
        invariant forall e <- ids :: e in unseen || seats[e].sequence <= maximum
        invariant maximum == 0 || exists e <- ids :: seats[e].sequence == maximum
        decreases unseen
      {
        var next :| next in unseen;
        if seats[next].sequence > maximum {
          maximum := seats[next].sequence;
        }
        unseen := unseen - {next};
      }
      MaxIsUnique(seats, ids, maximum);
    }

    method First(candidates: set<EventId>) returns (first: EventId)
      requires candidates != {} && candidates <= seats.Keys
      ensures first in candidates
      ensures forall e <- candidates :: e != first ==> Before(seats, first, e)
    {
      first :| first in candidates;
      var unseen := candidates - {first};
      while unseen != {}
        invariant unseen <= candidates && first in candidates
        invariant forall e <- candidates :: e == first || e in unseen || Before(seats, first, e)
        decreases unseen
      {
        var next :| next in unseen;
        if Before(seats, next, first) {
          first := next;
        }
        unseen := unseen - {next};
      }
    }

    /** The rows the queue query names. */
    method Fetch(maximum: nat) returns (batch: seq<EventId>)
      ensures IsBatch(seats, maximum, batch)
    {
      batch := [];
      var rest := OpenIds(seats);
      while |batch| < maximum && rest != {}
        invariant |batch| <= maximum && rest <= seats.Keys
        invariant forall e <- batch :: Open(seats, e) && e !in rest
        invariant forall e <- seats :: Open(seats, e) ==> e in batch || e in rest
        invariant forall b <- batch, e <- rest :: Before(seats, b, e)
        invariant InOrder(seats, batch)
        decreases rest
      {
        var first := First(rest);
        batch, rest := batch + [first], rest - {first};
      }
    }

    /** One row more than the limit is fetched to learn whether others wait. */
    method FetchBatch(limit: nat) returns (attempts: seq<EventId>, more: bool)
      ensures IsBatch(seats, limit, attempts) && (more <==> |OpenIds(seats)| > limit)
    {
      var fetched := Fetch(limit + 1);
      BatchIsCut(seats, limit, fetched);
      more := |fetched| > limit;
      attempts := if more then fetched[..limit] else fetched;
    }

    /** Numbers the loaded attempts from the given one on. */
    method MoveToBack(attempts: seq<EventId>, maximum: nat)
      requires InOrder(seats, attempts)
      modifies this
      ensures old(InOrder(seats, attempts)) && seats == Numbered(old(seats), attempts, maximum)
    {
      ghost var was := seats;
      OrderIsDistinct(was, attempts);
      var position := 0;
      while position < |attempts|
        invariant position <= |attempts| && forall e <- attempts[..position] :: e in was
        invariant seats == Numbered(was, attempts[..position], maximum)
        invariant seats.Keys == was.Keys
      {
        var e := attempts[position];
        assert e in attempts && e !in attempts[..position];
        NumberedKeeps(was, attempts[..position], maximum);
        assert attempts[..position + 1][..position] == attempts[..position] && attempts[..position + 1][position] == e;
        seats := seats[e := seats[e].(sequence := maximum + position + 1)];
        position := position + 1;
      }
      assert attempts[..|attempts|] == attempts;
    }

    /**
     Loads the next batch and moves it to the back of the queue, in one transaction: the attempts get the
     numbers after `base`, in their order. `base` is the largest number of an open attempt, or zero with all
     open attempts renumbered to zero when the numbers would leave the column.
     */
    method LoadUnresolved(limit: nat) returns (r: Result<(seq<EventId>, bool), QueueError>, ghost base: nat)
      requires Storable(seats)
      modifies this
      ensures r.Err? <==> limit >= I64_MAX
      ensures r.Err? ==> seats == old(seats)
      ensures r.Ok? ==>
        && Enabled(old(seats), Load(limit, r.value.0)) && seats == Apply(old(seats), Load(limit, r.value.0))
        && (r.value.1 <==> |OpenIds(old(seats))| > limit)
      ensures r.Ok? ==> LoadedInColumns(old(seats), seats, limit, r.value.0, base)
    {
      base := 0;
      ghost var was := seats;
      if limit >= I64_MAX {
        return Err(ValueOutOfRange), 0;
      }
      assert OpenIds(Restarted(seats)) == OpenIds(seats);
      var maximum := MaximumSequence(OpenIds(seats));
      if maximum > I64_MAX - limit {
        seats, maximum := Restarted(seats), 0;
      }
      var attempts, more := FetchBatch(limit);
      LoadWrites(was, limit, attempts);
      MoveToBack(attempts, maximum);
      return Ok((attempts, more)), maximum;
    }

    /** Puts a new reservation behind every attempt, or refuses it without a number. */
    method ReserveAttempt(event: EventId) returns (r: Result<(), QueueError>)
      requires event !in seats
      modifies this
      ensures r.Ok? <==> Reserved(old(seats), event).Ok?
      ensures seats == Apply(old(seats), Reserve(event))
    {
      var maximum := MaximumSequence(seats.Keys);
      if maximum >= I64_MAX {
        return Err(ValueOutOfRange);
      }
      seats := seats[event := Seat(maximum + 1, true)];
      return Ok(());
    }
  }
}
