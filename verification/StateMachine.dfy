/** The state machine thread as it is written (`StateMachine` in src/isar/state_machine/state_machine.py). */
module StateMachine {
  import opened Missions
  import opened Events
  import opened Scripts
  import opened States
  import opened Reactions
  import opened Entries
  import opened StateRun
  import opened Tokens
  import opened Refinement
  import opened Persistence

  /** What another thread does to a mailbox while the state machine sleeps: a put, or a clear or consume. */
  datatype Write = Write(ch: Channel, value: Option<Message>)

  /** One round of the loop in `State.run`: has the timer run out, and what do other threads do during the sleep? */
  datatype Round = Round(timeIsUp: bool, writes: seq<Write>)

  ghost predicate GoodWrites(writes: seq<Write>) {
    forall i :: 0 <= i < |writes| && writes[i].value.Some? ==> Carries(writes[i].ch, writes[i].value.value)
  }

  ghost predicate GoodRounds(rounds: seq<Round>) {
    forall i :: 0 <= i < |rounds| ==> GoodWrites(rounds[i].writes)
  }

  lemma ScriptKeepsTyped(mail: Mail, sc: Script)
    requires Typed(mail)
    ensures Typed(Performed(mail, sc))
  {
    WipesKeepTyped(mail, sc.wipes);
    WipesKeepTyped(Sent(mail, sc.reply), sc.wipes);
  }

  lemma {:induction false} WipesKeepTyped(mail: Mail, wipes: seq<Wipeable>)
    requires Typed(mail)
    ensures Typed(Wiped(mail, wipes))
  {
    if wipes == [] {
    } else {
      WipesKeepTyped(mail - {wipes[0]}, wipes[1..]);
    }
  }

  lemma {:induction false} PassKeepsTyped(mail: Mail, t: seq<Channel>, h: Handler)
    requires Typed(mail)
    ensures Typed(Pass(mail, t, h).mail)
    decreases |t|
  {
    if t == [] {
    } else if t[0] !in mail {
      PassKeepsTyped(mail, t[1..], h);
    } else {
      var r := h(t[0], mail[t[0]]);
      ScriptKeepsTyped(mail - {t[0]}, r.script);
      if r.next.None? { PassKeepsTyped(Performed(mail - {t[0]}, r.script), t[1..], h); }
    }
  }

  /** The mailboxes after the first `n` writes. */
  function Written(mail: Mail, writes: seq<Write>, n: nat): Mail
    requires n <= |writes|
  {
    if n == 0 then mail
    else
      var before, w := Written(mail, writes, n - 1), writes[n - 1];
      if w.value.Some? then Trigger(before, w.ch, w.value.value) else before - {w.ch}
  }

  /** The state machine between two rounds. */
  datatype Standing = Standing(state: SmState, mail: Mail)

  /** A round in which the state machine moves ends without a sleep. */
  function AfterRound(s: Standing, limit: int, round: Round): Standing {
    if round.timeIsUp && HasTimer(s.state)
    then Standing(After(s.state, TimerReaction(limit)), Performed(s.mail, TimerReaction(limit).script))
    else
      var polled := Pass(s.mail, Table(s.state), HandlerOf(s.state, limit));
      if polled.moved.Some? then Standing(After(s.state, polled.moved.value), polled.mail)
      else Standing(s.state, Written(polled.mail, round.writes, |round.writes|))
  }

  /** What the first `n` elements of a sequence do to a state, one by one. */
  function Fold<S, R>(f: (S, R) -> S, s: S, rounds: seq<R>, n: nat): S
    requires n <= |rounds|
  {
    if n == 0 then s else f(Fold(f, s, rounds, n - 1), rounds[n - 1])
  }

  lemma {:induction false} FoldContinues<S, R>(f: (S, R) -> S, s: S, rounds: seq<R>, at: nat, n: nat)
    requires at + n <= |rounds|
    ensures Fold(f, Fold(f, s, rounds, at), rounds[at..], n) == Fold(f, s, rounds, at + n)
  {
    if n == 0 {
    } else {
      FoldContinues(f, s, rounds, at, n - 1);
      assert rounds[at..][n - 1] == rounds[at + n - 1];
    }
  }

  lemma FoldSpans<S, R>(f: (S, R) -> S, s: S, rounds: seq<R>, at: nat, here: S, next: nat, there: S)
    requires at < next <= |rounds| && here == Fold(f, s, rounds, at)
    requires there == Fold(f, here, rounds[at..], next - at)
    ensures there == Fold(f, s, rounds, next)
    ensures Fold(f, here, rounds[at..], next - at - 1) == Fold(f, s, rounds, next - 1)
  {
    FoldContinues(f, s, rounds, at, next - at);
    FoldContinues(f, s, rounds, at, next - at - 1);
  }

  function Rounds(limit: int): (Standing, Round) -> Standing { (s, round) => AfterRound(s, limit, round) }

  /** After the first `n` rounds. */
  function AfterRounds(s: Standing, limit: int, rounds: seq<Round>, n: nat): Standing
    requires n <= |rounds|
  {
    Fold(Rounds(limit), s, rounds, n)
  }

  lemma RoundsContinue(
    s: Standing, limit: int, rounds: seq<Round>, at: nat, here: Standing, next: nat, there: Standing)
    requires at < next <= |rounds| && here == AfterRounds(s, limit, rounds, at)
    requires there == AfterRounds(here, limit, rounds[at..], next - at)
    ensures there == AfterRounds(s, limit, rounds, next)
    ensures AfterRounds(here, limit, rounds[at..], next - at - 1) == AfterRounds(s, limit, rounds, next - 1)
  {
    FoldSpans(Rounds(limit), s, rounds, at, here, next, there);
  }

  lemma NextRound(s: Standing, limit: int, rounds: seq<Round>, n: nat)
    requires n < |rounds|
    ensures AfterRounds(s, limit, rounds, n + 1) == AfterRound(AfterRounds(s, limit, rounds, n), limit, rounds[n])
  {}

  // ---------------------------------------------------------------- when the state machine moves

  /** The value that waits in `ch` leads the state machine somewhere else. */
  predicate IsMover(mail: Mail, st: SmState, limit: int, ch: Channel) {
    ch in Table(st) && ch in mail && Carries(ch, mail[ch]) && React(st, limit, ch, mail[ch]).next.Some?
  }

  /** None that is polled before it does. */
  ghost predicate IsFirstMover(mail: Mail, st: SmState, limit: int, ch: Channel) {
    IsMover(mail, st, limit, ch) && forall c :: IsMover(mail, st, limit, c) ==> Rank(st, ch) <= Rank(st, c)
  }

  ghost predicate TimerFires(s: Standing, round: Round) { round.timeIsUp && s.state.AwaitNextMission? }

  ghost predicate MovesIn(s: Standing, limit: int, round: Round) {
    TimerFires(s, round) || exists ch :: IsMover(s.mail, s.state, limit, ch)
  }

  lemma MoverMoves(mail: Mail, st: SmState, limit: int, h: Handler, ch: Channel)
    requires Typed(mail) && h == HandlerOf(st, limit) && ch in Table(st)
    ensures IsMover(mail, st, limit, ch) <==> Moves(mail, h, ch)
    ensures ch in mail ==> h(ch, mail[ch]) == React(st, limit, ch, mail[ch])
  {}

  lemma NothingMoves(mail: Mail, st: SmState, limit: int, t: seq<Channel>, h: Handler, c: Channel)
    requires Typed(mail) && t == Table(st) && h == HandlerOf(st, limit)
    requires forall j :: 0 <= j < |t| ==> !Moves(mail, h, t[j])
    ensures !IsMover(mail, st, limit, c)
  {
    if c in t {
      MoverMoves(mail, st, limit, h, c);
    }
  }

  lemma FirstHasLeastRank(mail: Mail, st: SmState, limit: int, t: seq<Channel>, h: Handler, k: nat, c: Channel)
    requires Typed(mail) && t == Table(st) && h == HandlerOf(st, limit)
    requires k < |t| && forall j :: 0 <= j < k ==> !Moves(mail, h, t[j])
    requires IsMover(mail, st, limit, c)
    ensures Rank(st, t[k]) <= Rank(st, c)
  {
    MoverMoves(mail, st, limit, h, c);
    var j :| 0 <= j < |t| && t[j] == c;
    if k < j {
      TablesAreOrdered(st, k, j);
    }
  }

  /** The pass over the table ends with the first value that moves the state machine, if there is one. */
  lemma PassFindsMover(mail: Mail, st: SmState, limit: int) returns (ch: Channel)
    requires Typed(mail)
    ensures var moved := Pass(mail, Table(st), HandlerOf(st, limit)).moved;
            && (moved.Some? <==> exists c :: IsMover(mail, st, limit, c))
            && (moved.Some? ==> IsFirstMover(mail, st, limit, ch) && moved == Some(React(st, limit, ch, mail[ch])))
  {
    var t, h := Table(st), HandlerOf(st, limit);
    TableIsGood(st);
    var k, rest := PassConsumesInOrder(mail, t, h);
    if k == |t| {
      ch := MissionFailed;
      forall c ensures !IsMover(mail, st, limit, c) {
        NothingMoves(mail, st, limit, t, h, c);
      }
    } else {
      ch := t[k];
      MoverMoves(mail, st, limit, h, ch);
      forall c | IsMover(mail, st, limit, c) ensures Rank(st, ch) <= Rank(st, c) {
        FirstHasLeastRank(mail, st, limit, t, h, k, c);
      }
    }
  }

  /** In the first `n` rounds the state is kept, and none of them moves the state machine. */
  ghost predicate Stays(start: Standing, limit: int, rounds: seq<Round>, n: nat)
    requires n <= |rounds|
  {
    forall k {:trigger AfterRounds(start, limit, rounds, k)} :: 0 <= k < n ==>
      AfterRounds(start, limit, rounds, k).state == start.state
      && !MovesIn(AfterRounds(start, limit, rounds, k), limit, rounds[k])
  }

  /** Round `n` moves the state machine to `next`: by its timer if that fires, or else by the first mover. */
  ghost predicate MovesOn(
    start: Standing, limit: int, rounds: seq<Round>, n: nat, next: Option<SmState>, why: NodeAction)
    requires n < |rounds|
  {
    var s := AfterRounds(start, limit, rounds, n);
    && s.state == start.state
    && if TimerFires(s, rounds[n]) then why.TimeUp? && next == Some(ReturningHome(limit - 1))
       else why.Handle? && IsFirstMover(s.mail, s.state, limit, why.ch) && why.msg == s.mail[why.ch]
            && React(s.state, limit, why.ch, why.msg).next == next
  }

  lemma StaysOneMore(start: Standing, limit: int, rounds: seq<Round>, n: nat)
    requires n < |rounds| && Stays(start, limit, rounds, n)
    requires AfterRounds(start, limit, rounds, n).state == start.state
    requires !MovesIn(AfterRounds(start, limit, rounds, n), limit, rounds[n])
    ensures Stays(start, limit, rounds, n + 1)
  {}

  lemma MovesOnByTimer(start: Standing, limit: int, rounds: seq<Round>, n: nat)
    requires n < |rounds| && AfterRounds(start, limit, rounds, n).state == start.state
    requires TimerFires(start, rounds[n])
    ensures MovesOn(start, limit, rounds, n, Some(ReturningHome(limit - 1)), TimeUp)
    ensures AfterRounds(start, limit, rounds, n + 1)
            == Standing(ReturningHome(limit - 1),
                        Performed(AfterRounds(start, limit, rounds, n).mail, TimerReaction(limit).script))
  {}

  /** A round without a mover, up to the sleep. */
  lemma RoundStays(s: Standing, limit: int, round: Round)
    requires Typed(s.mail) && !MovesIn(s, limit, round)
    ensures var polled := Pass(s.mail, Table(s.state), HandlerOf(s.state, limit)).mail;
            AfterRound(s, limit, round) == Standing(s.state, Written(polled, round.writes, |round.writes|))
  {
    var _ := PassFindsMover(s.mail, s.state, limit);
  }

  lemma RoundMoves(s: Standing, limit: int, round: Round, next: SmState)
    requires Typed(s.mail) && !TimerFires(s, round)
    requires var moved := Pass(s.mail, Table(s.state), HandlerOf(s.state, limit)).moved;
             moved.Some? && moved.value.next == Some(next)
    ensures AfterRound(s, limit, round)
            == Standing(next, Pass(s.mail, Table(s.state), HandlerOf(s.state, limit)).mail)
  {}

  /**
   What a round comes to: the timer of AwaitNextMission sends the robot home; otherwise the first value that moves the
   state machine is handled, and without one the state is kept.
   */
  lemma RoundMovesIff(s: Standing, limit: int, round: Round) returns (ch: Channel)
    requires Typed(s.mail)
    ensures var s' := AfterRound(s, limit, round);
            if TimerFires(s, round) then s'.state == ReturningHome(limit - 1)
            else if MovesIn(s, limit, round) then
              && IsFirstMover(s.mail, s.state, limit, ch)
              && React(s.state, limit, ch, s.mail[ch]).next == Some(s'.state)
            else s'.state == s.state
  {
    ch := PassFindsMover(s.mail, s.state, limit);
  }

  class StateMachine {
    const mailboxes: Mailboxes
    const machine: Machine
    const limit: int // RETURN_HOME_RETRY_LIMIT
    var current: SmState
    var row: Option<StartupMode> // this robot's row in the database

    ghost predicate Valid()
      reads this, mailboxes
    {
      machine.mailboxes == mailboxes && Typed(mailboxes.mail)
    }

    constructor (mailboxes: Mailboxes, limit: int, row: Option<StartupMode>)
      requires Typed(mailboxes.mail)
      ensures Valid() && this.mailboxes == mailboxes && this.limit == limit && fresh(machine)
      ensures current == Boot(row).current && this.row == Boot(row).row
    {
      this.mailboxes := mailboxes;
      this.limit := limit;
      machine := new Machine(mailboxes);
      var mode: StartupMode;
      if row.None? {
        this.row := Some(MaintenanceMode);
        mode := MaintenanceMode;
      } else {
        this.row := row;
        mode := row.value;
      }
      if mode == MaintenanceMode {
        current := Maintenance;
      } else if mode == LockdownMode {
        current := GoingToLockdown;
      } else {
        current := UnknownStatus;
      }
    }

    method UpdateState()
      modifies this`row
      ensures row == Some(ModeOf(current))
      ensures row == Some(LockdownMode)
              <==> current.StoppingGoToLockdown? || current.GoingToLockdown? || current.Lockdown?
      ensures row == Some(MaintenanceMode) <==> current.Maintenance?
    {
      if current.StoppingGoToLockdown? || current.GoingToLockdown? || current.Lockdown? {
        row := Some(LockdownMode);
      } else if current.Maintenance? {
        row := Some(MaintenanceMode);
      } else {
        row := Some(NormalMode);
      }
    }

    method Sleep(writes: seq<Write>)
      requires Valid() && GoodWrites(writes)
      modifies mailboxes
      ensures Valid() && mailboxes.mail == Written(old(mailboxes.mail), writes, |writes|)
    {
      for i := 0 to |writes|
        invariant Valid() && mailboxes.mail == Written(old(mailboxes.mail), writes, i)
      {
        if writes[i].value.Some? {
          mailboxes.TriggerEvent(writes[i].ch, writes[i].value.value);
        } else {
          var _ := mailboxes.ConsumeEvent(writes[i].ch);
        }
      }
    }

    /** The for loop over the handler table: it ends with the first value that moves the state machine. */
    method PollTable() returns (next: Option<SmState>, ghost why: NodeAction)
      requires Valid()
      modifies mailboxes, machine
      ensures Valid()
      ensures var pass := Pass(old(mailboxes.mail), Table(current), HandlerOf(current, limit));
              mailboxes.mail == pass.mail && next == if pass.moved.Some? then pass.moved.value.next else None
      ensures next.Some? <==> exists ch :: IsMover(old(mailboxes.mail), current, limit, ch)
      ensures next.Some? ==>
                && why.Handle? && IsFirstMover(old(mailboxes.mail), current, limit, why.ch)
                && why.msg == old(mailboxes.mail)[why.ch] && React(current, limit, why.ch, why.msg).next == next
    {
      ghost var before := mailboxes.mail;
      var h := HandlerOf(current, limit);
      var moved := machine.RunPass(Table(current), h);
      PassKeepsTyped(before, Table(current), h);
      ghost var ch := PassFindsMover(before, current, limit);
      next, why := None, Update;
      if moved.Some? {
        next, why := moved.value.next, Handle(ch, before[ch]);
      }
    }

    /**
     `State.run`: poll until a handler or the timer yields a transition, or the rounds are over.  The state is left in
     the first round that moves the state machine, and not before; the timer comes before the table.
     */
    method RunState(rounds: seq<Round>) returns (next: Option<SmState>, used: nat, ghost why: NodeAction)
      requires Valid() && GoodRounds(rounds)
      modifies mailboxes, machine
      ensures Valid() && used <= |rounds| && (next.None? ==> used == |rounds|) && (next.Some? ==> used > 0)
      ensures Standing(if next.Some? then next.value else current, mailboxes.mail)
              == AfterRounds(Standing(current, old(mailboxes.mail)), limit, rounds, used)
      ensures Stays(Standing(current, old(mailboxes.mail)), limit, rounds, if next.Some? then used - 1 else used)
      ensures next.Some? ==> MovesOn(Standing(current, old(mailboxes.mail)), limit, rounds, used - 1, next, why)
    {
      ghost var start := Standing(current, mailboxes.mail);
      used := 0;
      while used < |rounds|
        invariant Valid() && used <= |rounds|
        invariant Standing(current, mailboxes.mail) == AfterRounds(start, limit, rounds, used)
        invariant Stays(start, limit, rounds, used)
      {
        var round := rounds[used];
        ghost var s := Standing(current, mailboxes.mail);
        used := used + 1;
        NextRound(start, limit, rounds, used - 1);
        if round.timeIsUp && HasTimer(current) {
          ScriptKeepsTyped(mailboxes.mail, TimerReaction(limit).script);
          machine.Perform(TimerReaction(limit).script);
          MovesOnByTimer(start, limit, rounds, used - 1);
          return TimerReaction(limit).next, used, TimeUp;
        }
        next, why := PollTable();
        if next.Some? {
          RoundMoves(s, limit, round, next.value);
          return;
        }
        RoundStays(s, limit, round);
        StaysOneMore(start, limit, rounds, used - 1);
        Sleep(round.writes);
      }
      next := None;
      why := Update;
    }

    /** The body of the loop in `StateMachine.run`: one state, from the rounds that are left. */
    method RunOneState(rounds: seq<Round>, ghost n: Node) returns (used: nat, ghost steps: seq<NodeAction>)
      requires Valid() && GoodRounds(rounds) && rounds != []
      requires n.current == current && n.row == row && !n.updated
      modifies this, mailboxes, machine
      ensures Valid() && 0 < used <= |rounds|
      ensures Standing(current, mailboxes.mail)
              == AfterRounds(Standing(old(current), old(mailboxes.mail)), limit, rounds, used)
      ensures var last := AfterRounds(Standing(old(current), old(mailboxes.mail)), limit, rounds, used - 1);
              row == Some(ModeOf(last.state))
      ensures NodeCanRun(n, limit, steps)
      ensures NodeRun(n, limit, steps).current == current && NodeRun(n, limit, steps).row == row
      ensures used < |rounds| ==> !NodeRun(n, limit, steps).updated
    {
      UpdateState();
      ghost var start := Standing(current, mailboxes.mail);
      ghost var why;
      var next;
      next, used, why := RunState(rounds);
      StaysUntil(start, limit, rounds, used, next, why);
      steps := StateIsASpan(n, limit, start, rounds, used, next, why);
      if next.Some? {
        current := next.value;
      }
    }

    /** The same as a part of all rounds, and as a part of the run of the node. */
    method RunNextState(
      rounds: seq<Round>, at: nat, ghost start: Standing, ghost n: Node, ghost run: seq<NodeAction>)
      returns (next: nat, ghost longer: seq<NodeAction>)
      requires Valid() && GoodRounds(rounds) && at < |rounds|
      requires Standing(current, mailboxes.mail) == AfterRounds(start, limit, rounds, at)
      requires NodeCanRun(n, limit, run) && !NodeRun(n, limit, run).updated
      requires NodeRun(n, limit, run).current == current && NodeRun(n, limit, run).row == row
      modifies this, mailboxes, machine
      ensures Valid() && at < next <= |rounds|
      ensures Standing(current, mailboxes.mail) == AfterRounds(start, limit, rounds, next)
      ensures row == Some(ModeOf(AfterRounds(start, limit, rounds, next - 1).state))
      ensures NodeCanRun(n, limit, longer) && (next < |rounds| ==> !NodeRun(n, limit, longer).updated)
      ensures NodeRun(n, limit, longer).current == current && NodeRun(n, limit, longer).row == row
    {
      ghost var here := Standing(current, mailboxes.mail);
      ghost var more;
      var used;
      used, more := RunOneState(rounds[at..], NodeRun(n, limit, run));
      next := at + used;
      RoundsContinue(start, limit, rounds, at, here, next, Standing(current, mailboxes.mail));
      longer := TraceContinues(n, limit, run, more);
    }

    /**
     `StateMachine.run` until the rounds are over: the state is the one that the rounds lead to one by one, and the row
     holds the mode of the state in which the last round began.  Together with the row, the loop runs as the node model
     says, so that what is proved there about crashes applies at every point of it.
     */
    method Run(rounds: seq<Round>, ghost n: Node) returns (ghost trace: seq<NodeAction>)
      requires Valid() && GoodRounds(rounds)
      requires n.current == current && n.row == row && !n.updated
      modifies this, mailboxes, machine
      ensures Valid()
      ensures Standing(current, mailboxes.mail)
              == AfterRounds(Standing(old(current), old(mailboxes.mail)), limit, rounds, |rounds|)
      ensures rounds == [] ==> row == old(row)
      ensures rounds != [] ==>
                var last := AfterRounds(Standing(old(current), old(mailboxes.mail)), limit, rounds, |rounds| - 1);
                row == Some(ModeOf(last.state))
      ensures NodeCanRun(n, limit, trace)
      ensures NodeRun(n, limit, trace).current == current && NodeRun(n, limit, trace).row == row
    {
      ghost var start := Standing(current, mailboxes.mail);
      trace := [];
      var at := 0;
      while at < |rounds|
        invariant Valid() && at <= |rounds|
        invariant Standing(current, mailboxes.mail) == AfterRounds(start, limit, rounds, at)
        invariant at == 0 ==> row == old(row)
        invariant at > 0 ==> row == Some(ModeOf(AfterRounds(start, limit, rounds, at - 1).state))
        invariant NodeCanRun(n, limit, trace) && (at < |rounds| ==> !NodeRun(n, limit, trace).updated)
        invariant NodeRun(n, limit, trace).current == current && NodeRun(n, limit, trace).row == row
      {
        at, trace := RunNextState(rounds, at, start, n, trace);
      }
    }
  }

  /** The state in which the last round began. */
  lemma StaysUntil(
    start: Standing, limit: int, rounds: seq<Round>, used: nat, next: Option<SmState>, why: NodeAction)
    requires 0 < used <= |rounds|
    requires next.Some? ==> MovesOn(start, limit, rounds, used - 1, next, why)
    requires next.None? ==> Stays(start, limit, rounds, used)
    ensures AfterRounds(start, limit, rounds, used - 1).state == start.state
  {}

  /** An update, and the transition that ends the state, are steps of the node. */
  lemma StateIsASpan(
    n: Node, limit: int, start: Standing, rounds: seq<Round>, used: nat, next: Option<SmState>, why: NodeAction)
    returns (steps: seq<NodeAction>)
    requires n.current == start.state && !n.updated && 0 < used <= |rounds|
    requires next.Some? ==> MovesOn(start, limit, rounds, used - 1, next, why)
    ensures NodeCanRun(n, limit, steps)
    ensures var n' := NodeRun(n, limit, steps);
            && n'.row == Some(ModeOf(start.state)) && n'.updated == next.None?
            && n'.current == if next.Some? then next.value else start.state
  {
    var updated := NodeStep(n, limit, Update);
    steps := OneMore(n, limit, [], Update);
    assert NodeRun(n, limit, steps) == updated;
    if next.Some? {
      steps := OneMore(n, limit, steps, why);
      assert NodeRun(n, limit, steps) == NodeStep(updated, limit, why);
    }
  }

  lemma {:induction false} TraceContinues(n: Node, limit: int, run: seq<NodeAction>, more: seq<NodeAction>)
    returns (longer: seq<NodeAction>)
    requires NodeCanRun(n, limit, run) && NodeCanRun(NodeRun(n, limit, run), limit, more)
    ensures longer == run + more && NodeCanRun(n, limit, longer)
    ensures NodeRun(n, limit, longer) == NodeRun(NodeRun(n, limit, run), limit, more)
    decreases |run|
  {
    longer := run + more;
    if run == [] {
      assert longer == more;
    } else {
      var rest := TraceContinues(NodeStep(n, limit, run[0]), limit, run[1..], more);
      assert longer[1..] == rest;
    }
  }

  lemma {:induction false} OneMore(n: Node, limit: int, run: seq<NodeAction>, a: NodeAction)
    returns (longer: seq<NodeAction>)
    requires NodeCanRun(n, limit, run) && NodeEnabled(NodeRun(n, limit, run), a)
    ensures longer == run + [a] && NodeCanRun(n, limit, longer)
    ensures NodeRun(n, limit, longer) == NodeStep(NodeRun(n, limit, run), limit, a)
    decreases |run|
  {
    longer := run + [a];
    if run == [] {
      assert longer[1..] == [];
    } else {
      var rest := OneMore(NodeStep(n, limit, run[0]), limit, run[1..], a);
      assert longer[1..] == rest;
    }
  }
}
