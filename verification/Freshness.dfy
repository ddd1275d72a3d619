/**
 The freshness gate on the clock itself: which reading decides, which way, and that every host call goes
 back to such a reading.
 */
module Freshness {
  import opened Types
  import opened Execution
  import opened ExecutionSafety
  import opened ExecutionResults
  import opened Publication
  import L = Ledger

  /** The event is neither too old nor too far in the future at this clock value. */
  ghost predicate InWindow(w: World, event: EventId, clock: nat) {
    && w.createdAt(event) <= clock / 1_000_000_000 + w.policy.maximumFutureSeconds
    && clock / 1_000_000_000 <= w.createdAt(event) + w.policy.maximumAgeSeconds
  }

  /** The check is late exactly if the event is too old or too far in the future at the whole second it reads. */
  lemma FreshnessDecides(w: World, i: nat)
    requires Enabled(w, CheckTime(i))
    ensures var agent, now := AgentOf(w, i), w.clock / 1_000_000_000;
            AgentOf(Apply(w, CheckTime(i)), i).Owner?
            && AgentOf(Apply(w, CheckTime(i)), i)
               == agent.(stage := if w.createdAt(agent.wake.event) > now + w.policy.maximumFutureSeconds
                                     || now > w.createdAt(agent.wake.event) + w.policy.maximumAgeSeconds
                                  then Late else Timely(now))
  {
  }

  // ---- The steps behind the history ----

  /** Step `n` of the run added entry `k` of the history. */
  ghost predicate Adds(start: World, actions: seq<Action>, n: nat, k: nat, p: Entry)
    requires Run(start, actions)
  {
    && n < |actions| && Enabled(At(start, actions, n), actions[n])
    && |At(start, actions, n).history| == k && EntryOf(At(start, actions, n), actions[n]) == Some(p)
  }

  lemma {:induction false} EntryHasStep(start: World, actions: seq<Action>, n: nat, k: nat)
    requires Run(start, actions) && n <= |actions| && |start.history| <= k < |At(start, actions, n).history|
    ensures exists m: nat :: m < n && Adds(start, actions, m, k, At(start, actions, n).history[k])
    decreases n
  {
    assert actions[..0] == [];
    if n > 0 {
      PrefixRuns(start, actions, n - 1);
      var before := At(start, actions, n - 1);
      HistoryGrows(before, actions[n - 1]);
      if k < |before.history| {
        EntryHasStep(start, actions, n - 1, k);
      } else {
        NewEntry(before, actions[n - 1]);
        assert Adds(start, actions, n - 1, k, At(start, actions, n).history[k]);
      }
    }
  }

  lemma NewEntry(w: World, a: Action)
    requires Enabled(w, a)
    ensures |Apply(w, a).history| > |w.history| ==>
              EntryOf(w, a).Some? && Apply(w, a).history == w.history + [EntryOf(w, a).value]
  {
  }

  // ---- The reading behind a timely process ----

  /** Step `m` is the check of process `i`, within the window of its event, that recorded this second. */
  ghost predicate CheckedInWindow(start: World, actions: seq<Action>, m: nat, i: nat, event: EventId, second: nat)
    requires Run(start, actions)
  {
    && m < |actions| && actions[m] == CheckTime(i)
    && var w := At(start, actions, m);
    && AgentOf(w, i).Owner? && AgentOf(w, i).wake.event == event
    && second == w.clock / 1_000_000_000 && InWindow(w, event, w.clock)
  }

  lemma OwnStepToTimely(w: World, a: Action, i: nat)
    requires Enabled(w, a) && AgentOf(Apply(w, a), i).Owner? && AgentOf(Apply(w, a), i).stage.Timely?
    ensures Actor(a) != Some(i) ==> AgentOf(w, i) == AgentOf(Apply(w, a), i)
    ensures Actor(a) == Some(i) && a != CheckTime(i) ==> AgentOf(w, i) == AgentOf(Apply(w, a), i)
    ensures a == CheckTime(i) ==>
              && AgentOf(w, i).Owner? && AgentOf(w, i).wake == AgentOf(Apply(w, a), i).wake
              && AgentOf(Apply(w, a), i).stage.checkedAt == w.clock / 1_000_000_000
              && InWindow(w, AgentOf(w, i).wake.event, w.clock)
  {
  }

  lemma {:induction false} TimelyWasChecked(start: World, actions: seq<Action>, n: nat, i: nat)
    requires Run(start, actions) && n <= |actions| && AgentOf(start, i).Idle?
    requires AgentOf(At(start, actions, n), i).Owner? && AgentOf(At(start, actions, n), i).stage.Timely?
    ensures var agent := AgentOf(At(start, actions, n), i);
            exists m: nat :: m < n && CheckedInWindow(start, actions, m, i, agent.wake.event, agent.stage.checkedAt)
    decreases n
  {
    assert actions[..0] == [];
    if n > 0 {
      PrefixRuns(start, actions, n - 1);
      OwnStepToTimely(At(start, actions, n - 1), actions[n - 1], i);
      if actions[n - 1] == CheckTime(i) {
        var agent := AgentOf(At(start, actions, n), i);
        assert CheckedInWindow(start, actions, n - 1, i, agent.wake.event, agent.stage.checkedAt);
      } else {
        TimelyWasChecked(start, actions, n - 1, i);
      }
    }
  }

  /**
   Every secret load and wallet call of every run goes back to an earlier step that read the device clock
   while the event was neither older than the maximum age nor further ahead than the maximum skew.
   */
  lemma HostCallsAreTimely(start: World, actions: seq<Action>, k: nat)
    requires Init(start) && Run(start, actions)
    ensures var w := After(start, actions);
            k < |w.history| && w.history[k].HostCall? ==>
              exists m: nat, i: nat ::
                && m < |actions| && |At(start, actions, m).history| < k
                && actions[m] == CheckTime(i) && AgentOf(At(start, actions, m), i).Owner?
                && AgentOf(At(start, actions, m), i).wake.event == w.history[k].event
                && InWindow(At(start, actions, m), w.history[k].event, At(start, actions, m).clock)
  {
    var w := After(start, actions);
    assert actions[..|actions|] == actions;
    if k < |w.history| && w.history[k].HostCall? {
      HostCallsAreAdmitted(start, actions, k);
      var j: nat :| j < k && w.history[j].Admitted? && w.history[j].event == w.history[k].event;
      EntryHasStep(start, actions, |actions|, j);
      var n: nat :| n < |actions| && Adds(start, actions, n, j, w.history[j]);
      var i := actions[n].i;
      TimelyWasChecked(start, actions, n, i);
      var m: nat :| m < n && CheckedInWindow(start, actions, m, i, w.history[k].event, w.history[j].checkedAt);
      HistoryOnlyGrows(start, actions, m, n);
    }
  }

  lemma {:induction false} HistoryOnlyGrows(start: World, actions: seq<Action>, m: nat, n: nat)
    requires Run(start, actions) && m <= n <= |actions|
    ensures |At(start, actions, m).history| <= |At(start, actions, n).history|
    decreases n
  {
    if m < n {
      HistoryOnlyGrows(start, actions, m, n - 1);
      PrefixRuns(start, actions, n - 1);
      HistoryGrows(At(start, actions, n - 1), actions[n - 1]);
    }
  }
}
