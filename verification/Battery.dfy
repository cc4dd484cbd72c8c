/** The battery poller: a hysteresis between two thresholds (src/isar/robot/robot_battery.py). */
module Battery {
  import opened Missions
  import opened Events
  import States

  /** ROBOT_MISSION_BATTERY_START_THRESHOLD and ROBOT_BATTERY_RECHARGE_THRESHOLD. */
  datatype Thresholds = Thresholds(start: real, recharge: real)

  /** `NoLevel` is None or a RobotException. */
  datatype Reading = Level(value: real) | NoLevel

  const INITIAL_LEVEL := 100.0

  const WRITTEN := {BatteryAboveRechargeThreshold, BatteryBelowMissionThreshold}

  /** The last reading, and whether the two mailboxes are full. */
  datatype Battery = Battery(last: real, above: bool, below: bool)

  const START := Battery(INITIAL_LEVEL, false, false)

  /** One poll: which mailboxes the state machine empties while the poller sleeps, and then the reading. */
  datatype Round = Round(takesAbove: bool, takesBelow: bool, reading: Reading)

  function Taken(b: Battery, r: Round): Battery {
    Battery(b.last, b.above && !r.takesAbove, b.below && !r.takesBelow)
  }

  function Poll(t: Thresholds, b: Battery, reading: Reading): Battery {
    match reading
    case NoLevel => b
    case Level(v) =>
      Battery(v,
              if v > t.recharge && b.last < t.recharge then true
              else if v < t.recharge && b.last > t.recharge then false
              else b.above,
              if v < t.start && b.last > t.start then true
              else if v > t.start && b.last < t.start then false
              else b.below)
  }

  /** After the first `n` rounds. */
  function After(t: Thresholds, rounds: seq<Round>, n: nat): Battery
    requires n <= |rounds|
  {
    if n == 0 then START else Poll(t, Taken(After(t, rounds, n - 1), rounds[n - 1]), rounds[n - 1].reading)
  }

  /** The poller thread and the two mailboxes that it writes to. */
  class BatteryThread {
    const thresholds: Thresholds
    const mailboxes: Mailboxes
    var lastValue: real

    ghost function State(): Battery
      reads this, mailboxes
    {
      Battery(lastValue,
              BatteryAboveRechargeThreshold in mailboxes.mail,
              BatteryBelowMissionThreshold in mailboxes.mail)
    }

    constructor (thresholds: Thresholds, mailboxes: Mailboxes)
      ensures this.thresholds == thresholds && this.mailboxes == mailboxes && lastValue == INITIAL_LEVEL
    {
      this.thresholds, this.mailboxes, lastValue := thresholds, mailboxes, INITIAL_LEVEL;
    }

    method PollBattery(reading: Reading)
      modifies this, mailboxes
      ensures State() == Poll(thresholds, old(State()), reading)
      ensures mailboxes.mail - WRITTEN == old(mailboxes.mail) - WRITTEN
      ensures forall ch :: ch in mailboxes.mail && ch !in old(mailboxes.mail) ==> mailboxes.mail[ch] == Empty
    {
      if reading.NoLevel? {
        return;
      }
      var level := reading.value;
      if level > thresholds.recharge && lastValue < thresholds.recharge {
        mailboxes.TriggerEvent(BatteryAboveRechargeThreshold, Empty);
      } else if level < thresholds.recharge && lastValue > thresholds.recharge {
        var _ := mailboxes.ClearEvent(BatteryAboveRechargeThreshold);
      }
      if level < thresholds.start && lastValue > thresholds.start {
        mailboxes.TriggerEvent(BatteryBelowMissionThreshold, Empty);
      } else if level > thresholds.start && lastValue < thresholds.start {
        var _ := mailboxes.ClearEvent(BatteryBelowMissionThreshold);
      }
      lastValue := level;
    }

    /** The loop of the thread; the state machine empties mailboxes while it sleeps. */
    method Run(rounds: seq<Round>)
      requires State() == START
      modifies this, mailboxes
      ensures State() == After(thresholds, rounds, |rounds|)
      ensures mailboxes.mail - WRITTEN == old(mailboxes.mail) - WRITTEN
    {
      for n := 0 to |rounds|
        invariant State() == After(thresholds, rounds, n)
        invariant mailboxes.mail - WRITTEN == old(mailboxes.mail) - WRITTEN
      {
        if rounds[n].takesAbove {
          var _ := mailboxes.ConsumeEvent(BatteryAboveRechargeThreshold);
        }
        if rounds[n].takesBelow {
          var _ := mailboxes.ConsumeEvent(BatteryBelowMissionThreshold);
        }
        PollBattery(rounds[n].reading);
      }
    }
  }

  // ---------------------------------------------------------------- what a full mailbox means

  /** A full mailbox tells the truth about the last reading. */
  predicate Truthful(t: Thresholds, b: Battery) {
    (b.above ==> b.last > t.recharge) && (b.below ==> b.last < t.start)
  }

  /** A reading exactly on a threshold while the mailbox of this threshold is full. */
  predicate RestsOnThreshold(t: Thresholds, b: Battery, r: Round) {
    r.reading.Level?
    && ((r.reading.value == t.recharge && Taken(b, r).above) || (r.reading.value == t.start && Taken(b, r).below))
  }

  predicate AlwaysTruthful(t: Thresholds, rounds: seq<Round>) {
    forall n :: 0 <= n <= |rounds| ==> Truthful(t, After(t, rounds, n))
  }

  predicate NeverRests(t: Thresholds, rounds: seq<Round>) {
    forall n :: 0 <= n < |rounds| ==> !RestsOnThreshold(t, After(t, rounds, n), rounds[n])
  }

  /** Both mailboxes tell the truth all along exactly if no reading rests on a threshold whose mailbox is full. */
  lemma TruthfulIff(t: Thresholds, rounds: seq<Round>)
    ensures AlwaysTruthful(t, rounds) <==> NeverRests(t, rounds)
  {
    if NeverRests(t, rounds) {
      forall n | 0 <= n <= |rounds| ensures Truthful(t, After(t, rounds, n)) {
        TruthfulUntil(t, rounds, n);
      }
    } else {
      var n :| 0 <= n < |rounds| && RestsOnThreshold(t, After(t, rounds, n), rounds[n]);
      var next := n + 1;
      assert !Truthful(t, After(t, rounds, next));
    }
  }

  lemma {:induction false} TruthfulUntil(t: Thresholds, rounds: seq<Round>, n: nat)
    requires n <= |rounds|
    requires forall k :: 0 <= k < n ==> !RestsOnThreshold(t, After(t, rounds, k), rounds[k])
    ensures Truthful(t, After(t, rounds, n))
  {
    if n == 0 {
    } else {
      TruthfulUntil(t, rounds, n - 1);
    }
  }

  predicate OffThresholds(t: Thresholds, r: Round) {
    r.reading.Level? ==> r.reading.value != t.recharge && r.reading.value != t.start
  }

  /**
   While no reading is exactly on a threshold: the mailboxes are truthful, they are never full together, and neither is
   full when the poller writes to it, so that no crossing is dropped.
   */
  lemma {:induction false} OffThresholdsIsSafe(t: Thresholds, rounds: seq<Round>, n: nat)
    requires t.start <= t.recharge && n < |rounds|
    requires forall k :: 0 <= k < |rounds| ==> OffThresholds(t, rounds[k])
    ensures var b := After(t, rounds, n);
            && Truthful(t, b) && !(b.above && b.below)
            && (rounds[n].reading.Level? ==>
                  && (rounds[n].reading.value > t.recharge && b.last < t.recharge ==> !b.above)
                  && (rounds[n].reading.value < t.start && b.last > t.start ==> !b.below))
  {
    TruthfulUntil(t, rounds, n);
  }

  /**
   Whatever makes the state machine go home from recharging is taken from a mailbox that says, truly, that the last
   reading was above the recharge threshold.
   */
  lemma {:induction false} RechargingEndsCharged(
    t: Thresholds, rounds: seq<Round>, n: nat, ch: Channel, msg: Message)
    requires n <= |rounds|
    requires forall k :: 0 <= k < n ==> OffThresholds(t, rounds[k])
    requires ch in States.Table(States.Recharging) && Carries(ch, msg)
    requires States.RechargingHandler(ch, msg).next == Some(States.SmState.Home)
    requires ch.BatteryAboveRechargeThreshold? ==> After(t, rounds, n).above
    ensures After(t, rounds, n).last > t.recharge
  {
    RechargingGoesHomeOnSignal(ch, msg);
    TruthfulUntil(t, rounds, n);
  }

  lemma RechargingGoesHomeOnSignal(ch: Channel, msg: Message)
    requires ch in States.Table(States.Recharging) && Carries(ch, msg)
    requires States.RechargingHandler(ch, msg).next == Some(States.SmState.Home)
    ensures ch.BatteryAboveRechargeThreshold?
  {}

  /** A charge that falls by way of the threshold itself leaves the signal of a full charge standing. */
  lemma StaleFullCharge(t: Thresholds)
    requires 0.0 < t.recharge < INITIAL_LEVEL
    ensures var at := v => Round(false, false, Level(v));
            var b := After(t, [at(0.0), at(INITIAL_LEVEL), at(t.recharge), at(0.0)], 4);
            b.above && b.last < t.recharge
  {
    var at := v => Round(false, false, Level(v));
    var rounds := [at(0.0), at(INITIAL_LEVEL), at(t.recharge), at(0.0)];
    assert After(t, rounds, 1).last == 0.0 && !After(t, rounds, 1).above;
    assert After(t, rounds, 2).last == INITIAL_LEVEL && After(t, rounds, 2).above;
    assert After(t, rounds, 3).last == t.recharge && After(t, rounds, 3).above;
  }

  // ---------------------------------------------------------------- when a mailbox is full

  /** The last level among the first `n` readings, or else the initial one. */
  function LastLevel(rounds: seq<Round>, n: nat): real
    requires n <= |rounds|
  {
    if n == 0 then INITIAL_LEVEL
    else if rounds[n - 1].reading.NoLevel? then LastLevel(rounds, n - 1)
    else rounds[n - 1].reading.value
  }

  /** From one level to the next the charge gets from below the threshold to above it. */
  predicate Climbs(threshold: real, rounds: seq<Round>, n: nat)
    requires n < |rounds|
  {
    rounds[n].reading.Level? && rounds[n].reading.value > threshold && LastLevel(rounds, n) < threshold
  }

  predicate Drops(threshold: real, rounds: seq<Round>, n: nat)
    requires n < |rounds|
  {
    rounds[n].reading.Level? && rounds[n].reading.value < threshold && LastLevel(rounds, n) > threshold
  }

  /** The charge has climbed over the threshold; this has not been taken since, and it has not dropped again. */
  predicate ClimbStands(t: Thresholds, rounds: seq<Round>, n: nat)
    requires n <= |rounds|
  {
    exists k :: 0 <= k < n && Climbs(t.recharge, rounds, k)
                && forall j :: k < j < n ==> !rounds[j].takesAbove && !Drops(t.recharge, rounds, j)
  }

  predicate DropStands(t: Thresholds, rounds: seq<Round>, n: nat)
    requires n <= |rounds|
  {
    exists k :: 0 <= k < n && Drops(t.start, rounds, k)
                && forall j :: k < j < n ==> !rounds[j].takesBelow && !Climbs(t.start, rounds, j)
  }

  lemma ClimbStandsOneMore(t: Thresholds, rounds: seq<Round>, n: nat)
    requires n < |rounds|
    ensures ClimbStands(t, rounds, n + 1)
            <==> Climbs(t.recharge, rounds, n)
                 || (ClimbStands(t, rounds, n) && !rounds[n].takesAbove && !Drops(t.recharge, rounds, n))
  {
    if ClimbStands(t, rounds, n) && !rounds[n].takesAbove && !Drops(t.recharge, rounds, n) {
      var k :| 0 <= k < n && Climbs(t.recharge, rounds, k)
               && forall j :: k < j < n ==> !rounds[j].takesAbove && !Drops(t.recharge, rounds, j);
      assert forall j :: k < j < n + 1 ==> !rounds[j].takesAbove && !Drops(t.recharge, rounds, j);
    }
  }

  lemma DropStandsOneMore(t: Thresholds, rounds: seq<Round>, n: nat)
    requires n < |rounds|
    ensures DropStands(t, rounds, n + 1)
            <==> Drops(t.start, rounds, n)
                 || (DropStands(t, rounds, n) && !rounds[n].takesBelow && !Climbs(t.start, rounds, n))
  {
    if DropStands(t, rounds, n) && !rounds[n].takesBelow && !Climbs(t.start, rounds, n) {
      var k :| 0 <= k < n && Drops(t.start, rounds, k)
               && forall j :: k < j < n ==> !rounds[j].takesBelow && !Climbs(t.start, rounds, j);
      assert forall j :: k < j < n + 1 ==> !rounds[j].takesBelow && !Climbs(t.start, rounds, j);
    }
  }

  /**
   For all readings, and whenever the state machine takes a signal: a mailbox is full exactly if the charge has crossed
   its threshold from one level to the next, and since then nobody took the signal and the charge has not crossed back.
   */
  lemma {:induction false} FullIffCrossed(t: Thresholds, rounds: seq<Round>, n: nat)
    requires n <= |rounds|
    ensures var b := After(t, rounds, n);
            && b.last == LastLevel(rounds, n)
            && (b.above <==> ClimbStands(t, rounds, n))
            && (b.below <==> DropStands(t, rounds, n))
  {
    if n == 0 {
    } else {
      FullIffCrossed(t, rounds, n - 1);
      ClimbStandsOneMore(t, rounds, n - 1);
      DropStandsOneMore(t, rounds, n - 1);
    }
  }

  // ---------------------------------------------------------------- crossings

  /** The last of the first `n` readings that is not on the threshold, or else the initial level. */
  function LastOff(threshold: real, rounds: seq<Round>, n: nat): real
    requires n <= |rounds|
  {
    if n == 0 then INITIAL_LEVEL
    else if rounds[n - 1].reading.NoLevel? || rounds[n - 1].reading.value == threshold
    then LastOff(threshold, rounds, n - 1)
    else rounds[n - 1].reading.value
  }

  /** The charge has risen from below the recharge threshold to above it. */
  predicate Rises(t: Thresholds, rounds: seq<Round>, n: nat)
    requires n < |rounds|
  {
    rounds[n].reading.Level? && rounds[n].reading.value > t.recharge && LastOff(t.recharge, rounds, n) < t.recharge
  }

  /** The charge has fallen from above the start threshold to below it. */
  predicate Falls(t: Thresholds, rounds: seq<Round>, n: nat)
    requires n < |rounds|
  {
    rounds[n].reading.Level? && rounds[n].reading.value < t.start && LastOff(t.start, rounds, n) > t.start
  }

  /** The next poll puts a signal into a mailbox, or tries to. */
  predicate Signals(t: Thresholds, b: Battery, reading: Reading, ch: Channel) {
    reading.Level?
    && (if ch.BatteryAboveRechargeThreshold? then reading.value > t.recharge && b.last < t.recharge
        else ch.BatteryBelowMissionThreshold? && reading.value < t.start && b.last > t.start)
  }

  lemma {:induction false} LastIsLastOff(t: Thresholds, threshold: real, rounds: seq<Round>, n: nat)
    requires n <= |rounds| && After(t, rounds, n).last != threshold
    ensures LastOff(threshold, rounds, n) == After(t, rounds, n).last
  {
    if n > 0 && rounds[n - 1].reading.NoLevel? {
      LastIsLastOff(t, threshold, rounds, n - 1);
    }
  }

  /** The signals are the crossings, except for those by way of a reading on the threshold itself. */
  lemma SignalsAreCrossingsIff(t: Thresholds, rounds: seq<Round>, n: nat)
    requires n < |rounds|
    ensures var b := After(t, rounds, n);
            && (Signals(t, b, rounds[n].reading, BatteryAboveRechargeThreshold)
                <==> Rises(t, rounds, n) && b.last != t.recharge)
            && (Signals(t, b, rounds[n].reading, BatteryBelowMissionThreshold)
                <==> Falls(t, rounds, n) && b.last != t.start)
  {
    var b := After(t, rounds, n);
    if b.last != t.recharge {
      LastIsLastOff(t, t.recharge, rounds, n);
    }
    if b.last != t.start {
      LastIsLastOff(t, t.start, rounds, n);
    }
  }

  /** A charge that climbs by way of the threshold itself is not announced. */
  lemma SwallowedClimb(t: Thresholds)
    requires 0.0 < t.recharge < INITIAL_LEVEL
    ensures var at := v => Round(false, false, Level(v));
            var rounds := [at(0.0), at(t.recharge), at(INITIAL_LEVEL)];
            Rises(t, rounds, 2) && After(t, rounds, 3).last > t.recharge && !After(t, rounds, 3).above
  {
    var at := v => Round(false, false, Level(v));
    var rounds := [at(0.0), at(t.recharge), at(INITIAL_LEVEL)];
    assert After(t, rounds, 1).last == 0.0 && !After(t, rounds, 1).above;
    assert After(t, rounds, 2).last == t.recharge && !After(t, rounds, 2).above;
    assert LastOff(t.recharge, rounds, 1) == 0.0;
  }

  /** Nor is a charge that falls by way of the start threshold. */
  lemma SwallowedFall(t: Thresholds)
    requires 0.0 < t.start < INITIAL_LEVEL
    ensures var at := v => Round(false, false, Level(v));
            var rounds := [at(t.start), at(0.0)];
            Falls(t, rounds, 1) && After(t, rounds, 2).last < t.start && !After(t, rounds, 2).below
  {
    var at := v => Round(false, false, Level(v));
    var rounds := [at(t.start), at(0.0)];
    assert After(t, rounds, 1).last == t.start && !After(t, rounds, 1).below;
    assert LastOff(t.start, rounds, 0) == INITIAL_LEVEL;
  }
}
