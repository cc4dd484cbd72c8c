/** How often a failing return home is launched again (src/isar/state_machine/states/returning_home.py). */
module ReturnHomeRetries {
  import opened Missions
  import opened Events
  import opened Scripts
  import opened States
  import opened Entries

  /** The state machine after `n` failures with nothing else in between, and how often it launched a return home. */
  datatype Series = Series(state: SmState, launches: nat)

  function AfterFailures(limit: int, start: Series, n: nat): Series {
    if n == 0 then start
    else
      var before := AfterFailures(limit, start, n - 1);
      if !before.state.ReturningHome? then before
      else
        var r := React(before.state, limit, MissionFailed, Empty);
        Series(if r.next.Some? then r.next.value else before.state,
               before.launches + Bit(r.script.command == Some(GoHome)))
  }

  /** Every failure but the last uses up one retry and launches once more; the last one calls for an intervention. */
  lemma {:induction false} FailuresSpendRetries(limit: int, retries: int, launches: nat, n: nat)
    ensures var budget: nat := if retries < 0 then 0 else retries;
            AfterFailures(limit, Series(ReturningHome(retries), launches), n)
            == if n <= budget then Series(ReturningHome(retries - n), launches + n)
               else Series(InterventionNeeded, launches + budget)
  {
    if n == 0 {
    } else {
      FailuresSpendRetries(limit, retries, launches, n - 1);
    }
  }

  /** The reaction does not lead to ReturningHome, or it grants the whole budget there. */
  predicate GrantsFullBudget(limit: int, r: Reaction) {
    r.next.Some? && r.next.value.ReturningHome? ==> r.next.value.retries == limit - 1
  }

  /** Every way into ReturningHome grants the whole budget, whether it launches or adopts a mission that is running. */
  lemma EntryGrantsFullBudget(st: SmState, limit: int, ch: Channel, msg: Message)
    requires ch in Table(st) && Carries(ch, msg) && !st.ReturningHome?
    ensures GrantsFullBudget(limit, React(st, limit, ch, msg))
  {
    var r := React(st, limit, ch, msg);
    if r.next.Some? {
      EntriesAreExplained(st, limit, ch, msg, r.next.value);
    }
  }

  lemma SeriesIsLimited(limit: nat, launches: nat, n: nat)
    requires limit >= 1
    ensures var series := AfterFailures(limit, Series(ReturningHome(limit - 1), launches), n);
            && (n < limit ==> series == Series(ReturningHome(limit - 1 - n), launches + n))
            && (n >= limit ==> series == Series(InterventionNeeded, launches + limit - 1))
  {
    FailuresSpendRetries(limit, limit - 1, launches, n);
  }

  /**
   After an entry, an uninterrupted series of failures ends in InterventionNeeded with failure number `limit`, and not
   before.  With the launch of the entry itself that makes `limit` launches; an entry that adopts a mission that is
   running allows one less.
   */
  lemma LaunchesAreLimited(st: SmState, limit: nat, ch: Channel, msg: Message, n: nat)
    requires limit >= 1 && ch in Table(st) && Carries(ch, msg) && !st.ReturningHome?
    requires var next := React(st, limit, ch, msg).next; next.Some? && next.value.ReturningHome?
    ensures var r := React(st, limit, ch, msg);
            var entry := Series(r.next.value, Bit(r.script.command == Some(GoHome)));
            var series := AfterFailures(limit, entry, n);
            && (n < limit ==> series == Series(ReturningHome(limit - 1 - n), entry.launches + n))
            && (n >= limit ==> series == Series(InterventionNeeded, entry.launches + limit - 1))
  {
    EntryGrantsFullBudget(st, limit, ch, msg);
    SeriesIsLimited(limit, Bit(React(st, limit, ch, msg).script.command == Some(GoHome)), n);
  }

  /** The same for the entry by the timer of AwaitNextMission, which launches. */
  lemma TimerLaunchesAreLimited(limit: nat, n: nat)
    requires limit >= 1 && n >= limit
    ensures TimerReaction(limit).next == Some(ReturningHome(limit - 1))
    ensures AfterFailures(limit, Series(ReturningHome(limit - 1), 1), n) == Series(InterventionNeeded, limit)
  {
    SeriesIsLimited(limit, 1, n);
  }
}
