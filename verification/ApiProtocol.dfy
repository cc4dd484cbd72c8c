/**
 The request/response protocol of one API event with any number of concurrent callers
 (`_send_command` in src/isar/services/utilities/scheduling_utilities.py).

 Every caller performs one operation on the lock or on a mailbox at a time.  The state machine is any server that
 consumes requests and replies later: a consumed request makes it owe some number of replies, which it may send at any
 moment.  Numbers stand for calls; a call has its own number.
 */
module ApiProtocol {
  import opened Missions

  /** A reply: to which call, and when it was written. */
  datatype Answer = Answer(to: nat, at: nat)

  datatype Outcome = Answered(answer: Answer, clearedAt: nat) | Conflict | Timeout

  datatype Phase =
    | Arrived
    | Locked
    | RequestCleared
    | Cleared(clearedAt: nat)
    | Waiting(clearedAt: nat)
    | TimedOut                       // in the except clause
    | Finishing(outcome: Outcome)    // in the finally clause: clear the request,
    | Finishing2(outcome: Outcome)   // clear the response,
    | Releasing(outcome: Outcome)    // release the lock
    | Returned(outcome: Outcome)

  datatype ApiSys = ApiSys(
    lock: Option<nat>,
    request: Option<nat>,
    response: Option<Answer>,
    calls: map<nat, Phase>,
    owed: multiset<nat>,
    now: nat,
    emptied: nat)      // when a call last emptied the response mailbox in its finally clause; no thread reads it

  datatype ApiAction =
    | Arrive(c: nat)
    | Proceed(c: nat)          // the next operation of the call
    | GiveUpWaiting(c: nat)    // the timed get has waited long enough
    | ServerConsume(replies: nat)
    | ServerReply(to: nat)

  const NEW_API := ApiSys(None, None, None, map[], multiset{}, 0, 0)

  predicate ApiEnabled(s: ApiSys, a: ApiAction) {
    match a
    case Arrive(c) => c !in s.calls
    case Proceed(c) => c in s.calls && !s.calls[c].Returned? && (s.calls[c].Waiting? ==> s.response.Some?)
    case GiveUpWaiting(c) => c in s.calls && s.calls[c].Waiting?
    case ServerConsume(_) => s.request.Some?
    case ServerReply(to) => to in s.owed
  }

  function GoTo(s: ApiSys, c: nat, p: Phase): ApiSys { s.(calls := s.calls[c := p]) }

  function CallStep(s: ApiSys, c: nat): ApiSys
    requires ApiEnabled(s, Proceed(c))
  {
    match s.calls[c]
    case Arrived => if s.lock.None? then GoTo(s, c, Locked).(lock := Some(c)) else GoTo(s, c, Returned(Conflict))
    case Locked => GoTo(s, c, RequestCleared).(request := None)
    case RequestCleared => GoTo(s, c, Cleared(s.now)).(response := None)
    case Cleared(at) =>
      // the put has a time limit, but is expected never to wait
      if s.request.None? then GoTo(s, c, Waiting(at)).(request := Some(c)) else GoTo(s, c, TimedOut)
    case Waiting(at) => GoTo(s, c, Finishing(Answered(s.response.value, at))).(response := None)
    case TimedOut => GoTo(s, c, Finishing(Timeout)).(request := None)
    case Finishing(o) => GoTo(s, c, Finishing2(o)).(request := None)
    case Finishing2(o) => GoTo(s, c, Releasing(o)).(response := None, emptied := s.now)
    case Releasing(o) => GoTo(s, c, Returned(o)).(lock := None)
  }

  function Copies(c: nat, n: nat): (m: multiset<nat>) { multiset{}[c := n] }

  function ApiStep(s: ApiSys, a: ApiAction): ApiSys
    requires ApiEnabled(s, a)
  {
    var s' := match a
      case Arrive(c) => GoTo(s, c, Arrived)
      case Proceed(c) => CallStep(s, c)
      case GiveUpWaiting(c) => GoTo(s, c, TimedOut)
      case ServerConsume(replies) => s.(request := None, owed := s.owed + Copies(s.request.value, replies))
      case ServerReply(to) =>
        s.(response := if s.response.None? then Some(Answer(to, s.now)) else s.response, owed := s.owed - multiset{to});
    s'.(now := s.now + 1)
  }

  ghost predicate ApiCanRun(s: ApiSys, run: seq<ApiAction>)
    decreases |run|
  {
    run == [] || (ApiEnabled(s, run[0]) && ApiCanRun(ApiStep(s, run[0]), run[1..]))
  }

  ghost function ApiRun(s: ApiSys, run: seq<ApiAction>): ApiSys
    requires ApiCanRun(s, run)
    decreases |run|
  {
    if run == [] then s else ApiRun(ApiStep(s, run[0]), run[1..])
  }

  // ---------------------------------------------------------------- ownership of the lock and the mailboxes

  predicate HoldsLock(p: Phase) { !p.Arrived? && !p.Returned? }

  /** The call has put its request and has not finished yet. */
  predicate HasAsked(p: Phase) { p.Waiting? || p.TimedOut? || p.Finishing? || p.Finishing2? || p.Releasing? }

  predicate MayHaveRequest(p: Phase) { p.Waiting? || p.TimedOut? || p.Finishing? }

  predicate OutcomeOk(o: Outcome) { o.Answered? ==> o.answer.at >= o.clearedAt }

  /** An answered call had cleared the response mailbox before. */
  predicate IsSince(o: Outcome, time: nat) { o.Answered? ==> o.clearedAt < time }

  predicate PhaseOk(p: Phase, now: nat) {
    match p
    case Cleared(at) => at < now
    case Waiting(at) => at < now
    case Finishing(o) => OutcomeOk(o) && IsSince(o, now)
    case Finishing2(o) => OutcomeOk(o) && IsSince(o, now)
    case Releasing(o) => OutcomeOk(o)
    case Returned(o) => OutcomeOk(o)
    case _ => true
  }

  /**
   Exactly the call between taking and releasing the lock holds it; a request in the mailbox is the request of that
   call, which still waits for it or is about to clear it.
   */
  ghost predicate LockInv(s: ApiSys) {
    && (forall c :: c in s.calls ==> (HoldsLock(s.calls[c]) <==> s.lock == Some(c)))
    && (s.lock.Some? ==> s.lock.value in s.calls)
    && (s.request.Some? ==> s.request == s.lock && MayHaveRequest(s.calls[s.lock.value]))
  }

  /** What is in the response mailbox after the holder of the lock has cleared it was written later. */
  ghost predicate TimeInv(s: ApiSys) {
    && s.emptied <= s.now
    && (s.response.Some? ==> s.emptied <= s.response.value.at)
    && (forall c :: c in s.calls && (s.calls[c].Releasing? || s.calls[c].Returned?) ==>
          IsSince(s.calls[c].outcome, s.emptied))
    && (forall c :: c in s.calls ==> PhaseOk(s.calls[c], s.now))
    && (s.response.Some? && s.lock.Some? && s.lock.value in s.calls ==>
          match s.calls[s.lock.value]
          case Cleared(at) => s.response.value.at >= at
          case Waiting(at) => s.response.value.at >= at
          case _ => true)
  }

  /** Replies are owed to calls that have put their request. */
  ghost predicate OwedInv(s: ApiSys) {
    forall c :: c in s.owed ==> c in s.calls && (HasAsked(s.calls[c]) || s.calls[c].Returned?)
  }

  ghost predicate ApiInv(s: ApiSys) { LockInv(s) && TimeInv(s) && OwedInv(s) }

  lemma StepKeepsLock(s: ApiSys, a: ApiAction)
    requires LockInv(s) && ApiEnabled(s, a)
    ensures LockInv(ApiStep(s, a))
  {}

  lemma CallKeepsTime(s: ApiSys, c: nat)
    requires LockInv(s) && TimeInv(s) && ApiEnabled(s, Proceed(c))
    ensures TimeInv(ApiStep(s, Proceed(c)))
  {}

  lemma StepKeepsTime(s: ApiSys, a: ApiAction)
    requires LockInv(s) && TimeInv(s) && ApiEnabled(s, a)
    ensures TimeInv(ApiStep(s, a))
  {
    if a.Proceed? { CallKeepsTime(s, a.c); }
  }

  lemma CallKeepsOwed(s: ApiSys, c: nat)
    requires OwedInv(s) && ApiEnabled(s, Proceed(c))
    ensures OwedInv(ApiStep(s, Proceed(c)))
  {}

  lemma StepKeepsOwed(s: ApiSys, a: ApiAction)
    requires LockInv(s) && OwedInv(s) && ApiEnabled(s, a)
    ensures OwedInv(ApiStep(s, a))
  {
    if a.Proceed? { CallKeepsOwed(s, a.c); }
  }

  lemma ApiStepKeepsInv(s: ApiSys, a: ApiAction)
    requires ApiInv(s) && ApiEnabled(s, a)
    ensures ApiInv(ApiStep(s, a))
  {
    StepKeepsLock(s, a);
    StepKeepsTime(s, a);
    StepKeepsOwed(s, a);
  }

  lemma {:induction false} ApiRunKeepsInv(s: ApiSys, run: seq<ApiAction>)
    requires ApiInv(s) && ApiCanRun(s, run)
    ensures ApiInv(ApiRun(s, run))
    decreases |run|
  {
    if run == [] {
    } else {
      ApiStepKeepsInv(s, run[0]);
      ApiRunKeepsInv(ApiStep(s, run[0]), run[1..]);
    }
  }

  ghost predicate ApiReachable(s: ApiSys) {
    exists run :: ApiCanRun(NEW_API, run) && s == ApiRun(NEW_API, run)
  }

  lemma ApiReachableInv(s: ApiSys)
    requires ApiReachable(s)
    ensures ApiInv(s)
  {
    var run :| ApiCanRun(NEW_API, run) && s == ApiRun(NEW_API, run);
    ApiRunKeepsInv(NEW_API, run);
  }

  /** At most one call is between taking and releasing the lock. */
  lemma CallsExcludeEachOther(s: ApiSys, c: nat, d: nat)
    requires ApiReachable(s) && c in s.calls && d in s.calls && HoldsLock(s.calls[c]) && HoldsLock(s.calls[d])
    ensures c == d
  {
    ApiReachableInv(s);
  }

  /** The timed put of a request never has to wait: the mailbox is empty when a call gets there. */
  lemma RequestPutNeverWaits(s: ApiSys, c: nat)
    requires ApiReachable(s) && c in s.calls && s.calls[c].Cleared?
    ensures s.request.None? && ApiStep(s, Proceed(c)).calls[c].Waiting?
  {
    ApiReachableInv(s);
  }

  /** The state machine never consumes the request of a call that has returned. */
  lemma ConsumedRequestIsLive(s: ApiSys, replies: nat)
    requires ApiReachable(s) && ApiEnabled(s, ServerConsume(replies))
    ensures s.lock == s.request && s.request.value in s.calls && !s.calls[s.request.value].Returned?
  {
    ApiReachableInv(s);
  }

  /** A reply that a call returns was written after the call's own clearing of the response mailbox. */
  lemma AnswersAreFresh(s: ApiSys, c: nat)
    requires ApiReachable(s) && c in s.calls && s.calls[c].Returned? && s.calls[c].outcome.Answered?
    ensures s.calls[c].outcome.answer.at >= s.calls[c].outcome.clearedAt
  {
    ApiReachableInv(s);
  }

  /**
   Nor does a call leave a reply behind: an answered call empties the mailbox once more after it has read its reply, and
   whatever is there now came later than that.
   */
  lemma NoReplyIsLeftBehind(s: ApiSys, c: nat)
    requires ApiReachable(s) && c in s.calls && s.calls[c].Returned? && s.calls[c].outcome.Answered?
    ensures s.calls[c].outcome.clearedAt < s.emptied
    ensures s.response.Some? ==> s.emptied <= s.response.value.at
  {
    ApiReachableInv(s);
  }

  /** Once nobody holds the lock, no request is left behind. */
  lemma NoRequestIsLeftBehind(s: ApiSys)
    requires ApiReachable(s) && s.lock.None?
    ensures s.request.None?
  {
    ApiReachableInv(s);
  }

  // ---------------------------------------------------------------- whose reply is it?

  /** Call `c` has just cleared the response mailbox. */
  predicate JustCleared(s: ApiSys, c: nat) { c in s.calls && s.calls[c].Cleared? && s.response.None? }

  /** A run from `s` at whose end call `c` has returned with a reply to another call. */
  ghost predicate GetsForeignReply(s: ApiSys, c: nat, run: seq<ApiAction>) {
    && ApiCanRun(s, run)
    && c in ApiRun(s, run).calls
    && var p := ApiRun(s, run).calls[c]; p.Returned? && p.outcome.Answered? && p.outcome.answer.to != c
  }

  predicate OwnOutcome(o: Outcome, c: nat) { o.Answered? ==> o.answer.to == c }

  /** Only replies to `c` can reach `c` any more. */
  ghost predicate OnlyOwn(s: ApiSys, c: nat) {
    && c in s.calls
    && match s.calls[c]
       case Cleared(_) => (forall d :: d in s.owed ==> d == c) && (s.response.Some? ==> s.response.value.to == c)
       case Waiting(_) => (forall d :: d in s.owed ==> d == c) && (s.response.Some? ==> s.response.value.to == c)
       case TimedOut => true
       case Finishing(o) => OwnOutcome(o, c)
       case Finishing2(o) => OwnOutcome(o, c)
       case Releasing(o) => OwnOutcome(o, c)
       case Returned(o) => OwnOutcome(o, c)
       case _ => false
  }

  lemma CallKeepsOnlyOwn(s: ApiSys, c: nat, d: nat)
    requires LockInv(s) && OnlyOwn(s, c) && ApiEnabled(s, Proceed(d))
    ensures OnlyOwn(ApiStep(s, Proceed(d)), c)
  {}

  lemma StepKeepsOnlyOwn(s: ApiSys, c: nat, a: ApiAction)
    requires LockInv(s) && OnlyOwn(s, c) && ApiEnabled(s, a)
    ensures OnlyOwn(ApiStep(s, a), c)
  {
    if a.Proceed? { CallKeepsOnlyOwn(s, c, a.c); }
  }

  lemma {:induction false} RunKeepsOnlyOwn(s: ApiSys, c: nat, run: seq<ApiAction>)
    requires ApiInv(s) && OnlyOwn(s, c) && ApiCanRun(s, run)
    ensures OnlyOwn(ApiRun(s, run), c)
    decreases |run|
  {
    if run == [] {
    } else {
      StepKeepsOnlyOwn(s, c, run[0]);
      ApiStepKeepsInv(s, run[0]);
      RunKeepsOnlyOwn(ApiStep(s, run[0]), c, run[1..]);
    }
  }

  /** If the state machine owes a reply to `d`, then that reply can be the one that `c` returns with. */
  lemma ForeignReplyRun(s: ApiSys, c: nat, d: nat) returns (run: seq<ApiAction>)
    requires ApiInv(s) && JustCleared(s, c) && d in s.owed
    ensures GetsForeignReply(s, c, run) && ApiRun(s, run).calls[c].outcome.answer.to == d
  {
    var s1 := ApiStep(s, Proceed(c));
    var s2 := ApiStep(s1, ServerReply(d));
    var s3 := ApiStep(s2, Proceed(c));
    assert s3.calls[c].Finishing? && s3.calls[c].outcome.answer.to == d;
    var rest := ReturnRun(s3, c);
    run := [Proceed(c)] + ([ServerReply(d)] + ([Proceed(c)] + rest));
    Prepend(s2, Proceed(c), rest);
    Prepend(s1, ServerReply(d), [Proceed(c)] + rest);
    Prepend(s, Proceed(c), [ServerReply(d)] + ([Proceed(c)] + rest));
  }

  lemma Prepend(s: ApiSys, a: ApiAction, run: seq<ApiAction>)
    requires ApiEnabled(s, a) && ApiCanRun(ApiStep(s, a), run)
    ensures ApiCanRun(s, [a] + run) && ApiRun(s, [a] + run) == ApiRun(ApiStep(s, a), run)
  {
    assert ([a] + run)[1..] == run;
  }

  /** A call in its finally clause can return undisturbed, with the outcome that it has. */
  lemma ReturnRun(s: ApiSys, c: nat) returns (run: seq<ApiAction>)
    requires c in s.calls && s.calls[c].Finishing?
    ensures ApiCanRun(s, run) && ApiRun(s, run).calls == s.calls[c := Returned(s.calls[c].outcome)]
  {
    var s1 := ApiStep(s, Proceed(c));
    var s2 := ApiStep(s1, Proceed(c));
    Prepend(s2, Proceed(c), []);
    Prepend(s1, Proceed(c), [Proceed(c)] + []);
    Prepend(s, Proceed(c), [Proceed(c)] + ([Proceed(c)] + []));
    run := [Proceed(c)] + ([Proceed(c)] + ([Proceed(c)] + []));
  }

  /**
   A call is sure to get the reply to its own request exactly if no reply is owed to an earlier call at the moment at
   which it has cleared the response mailbox.
   */
  lemma OwnReplyIff(s: ApiSys, c: nat)
    requires ApiReachable(s) && JustCleared(s, c)
    ensures s.owed == multiset{} <==> !exists run :: GetsForeignReply(s, c, run)
  {
    ApiReachableInv(s);
    if s.owed == multiset{} {
      forall run | ApiCanRun(s, run) ensures !GetsForeignReply(s, c, run) { RunKeepsOnlyOwn(s, c, run); }
    } else {
      var d :| d in s.owed;
      var run := ForeignReplyRun(s, c, d);
    }
  }

  lemma {:induction false} RunConcat(s: ApiSys, before: seq<ApiAction>, after: seq<ApiAction>)
    requires ApiCanRun(s, before) && ApiCanRun(ApiRun(s, before), after)
    ensures ApiCanRun(s, before + after) && ApiRun(s, before + after) == ApiRun(ApiRun(s, before), after)
    decreases |before|
  {
    if before == [] {
      assert before + after == after;
    } else {
      assert (before + after)[1..] == before[1..] + after;
      RunConcat(ApiStep(s, before[0]), before[1..], after);
    }
  }

  /** The state after a step of a reachable state is reachable. */
  lemma ApiReachableNext(s: ApiSys, a: ApiAction)
    requires ApiReachable(s) && ApiEnabled(s, a)
    ensures ApiReachable(ApiStep(s, a))
  {
    var run :| ApiCanRun(NEW_API, run) && s == ApiRun(NEW_API, run);
    assert [a][1..] == [];
    assert ApiCanRun(ApiStep(s, a), []);
    assert ApiCanRun(s, [a]) && ApiRun(s, [a]) == ApiStep(s, a);
    RunConcat(NEW_API, run, [a]);
  }

  lemma Go(s: ApiSys, a: ApiAction) returns (s': ApiSys)
    requires ApiReachable(s) && ApiEnabled(s, a)
    ensures s' == ApiStep(s, a) && ApiReachable(s')
  {
    ApiReachableNext(s, a);
    s' := ApiStep(s, a);
  }

  predicate IsIdle(s: ApiSys) { s.lock.None? && s.request.None? && s.response.None? }

  /** A new call gets the lock and clears both mailboxes. */
  lemma ClearUndisturbed(s: ApiSys, c: nat) returns (s': ApiSys)
    requires ApiReachable(s) && IsIdle(s) && c !in s.calls
    ensures ApiReachable(s') && s'.owed == s.owed && s'.lock == Some(c) && s'.request.None? && s'.response.None?
    ensures c in s'.calls && s'.calls[c].Cleared? && s'.calls == s.calls[c := s'.calls[c]]
  {
    s' := Go(s, Arrive(c));
    s' := Go(s', Proceed(c));
    s' := Go(s', Proceed(c));
    s' := Go(s', Proceed(c));
    assert s'.calls == s.calls[c := s'.calls[c]];
  }

  /** Its request is consumed, but the reply does not come in time. */
  lemma GiveUp(s: ApiSys, c: nat) returns (s': ApiSys)
    requires ApiReachable(s) && c in s.calls && s.calls[c].Cleared? && s.request.None? && s.response.None?
    ensures ApiReachable(s') && s'.owed == s.owed + multiset{c} && s'.calls == s.calls[c := TimedOut]
    ensures s'.lock == s.lock && s'.request.None? && s'.response.None?
  {
    s' := Go(s, Proceed(c));
    s' := Go(s', ServerConsume(1));
    assert Copies(c, 1) == multiset{c};
    s' := Go(s', GiveUpWaiting(c));
    assert s'.calls == s.calls[c := TimedOut];
  }

  /** The call raises the timeout and releases the lock. */
  lemma LeaveTimedOut(s: ApiSys, c: nat) returns (s': ApiSys)
    requires ApiReachable(s) && c in s.calls && s.calls[c].TimedOut? && s.response.None?
    ensures ApiReachable(s') && IsIdle(s') && s'.owed == s.owed && s'.calls == s.calls[c := Returned(Timeout)]
  {
    s' := Go(s, Proceed(c));
    s' := Go(s', Proceed(c));
    s' := Go(s', Proceed(c));
    s' := Go(s', Proceed(c));
    assert s'.calls == s.calls[c := Returned(Timeout)];
  }

  /**
   A reachable state in which the condition is not met, and a run from it at whose end the second call has returned with
   the reply to the first one, which had timed out.
   */
  lemma ForeignReplyIsReachable() returns (s: ApiSys, run: seq<ApiAction>)
    ensures ApiReachable(s) && JustCleared(s, 1) && s.owed == multiset{0}
    ensures 0 in s.calls && s.calls[0] == Returned(Timeout)
    ensures GetsForeignReply(s, 1, run) && ApiRun(s, run).calls[1].outcome.answer.to == 0
  {
    assert ApiCanRun(NEW_API, []) && ApiRun(NEW_API, []) == NEW_API;
    s := ClearUndisturbed(NEW_API, 0);
    s := GiveUp(s, 0);
    s := LeaveTimedOut(s, 0);
    s := ClearUndisturbed(s, 1);
    ApiReachableInv(s);
    run := ForeignReplyRun(s, 1, 0);
  }
}
