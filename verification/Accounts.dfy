/** Conservation of replies and of user missions over a run. */
module Accounts {
  import opened Missions
  import opened Events
  import opened Scripts
  import opened States
  import opened Reactions
  import opened Protocol

  function PendingReplies(sc: Script, api: Api): nat { Bit(sc.reply.Some? && sc.reply.value.api == api) }

  function PendingStarts(sc: Script, m: Mission, origin: Origin): nat { Bit(sc.command == Some(Start(m, origin))) }

  /**
   Requests consumed, plus the missions handed over out of a stopped return home, which are answered a second time,
   are the replies issued, plus the one about to be issued, plus the one owed.
   */
  ghost predicate ReplyInv(s: Sys, api: Api) {
    s.ledger.consumed[api] + (if api.StartMission? then s.ledger.handovers else 0)
    == s.ledger.replied[api] + PendingReplies(s.sm.script, api) + Bit(Owed(s.sm.state) == Some(api))
  }

  /** Missions accepted are launched, about to be launched, held until a stop is answered, or lost. */
  ghost predicate FreshInv(s: Sys, m: Mission) {
    s.ledger.accepted[m]
    == s.ledger.launched[m] + PendingStarts(s.sm.script, m, FreshFromApi)
       + Bit(Held(s.sm.state, FreshFromApi) == Some(m)) + s.ledger.lost[m]
  }

  /** Aborted missions kept are relaunched, about to be, still held, or given up. */
  ghost predicate AbortedInv(s: Sys, m: Mission) {
    s.ledger.carried[m]
    == s.ledger.relaunched[m] + PendingStarts(s.sm.script, m, Relaunch)
       + Bit(Held(s.sm.state, Relaunch) == Some(m)) + s.ledger.givenUp[m]
  }

  ghost predicate AccountInv(s: Sys) {
    && (forall api :: ReplyInv(s, api))
    && (forall m :: FreshInv(s, m))
    && (forall m :: AbortedInv(s, m))
  }

  /** The stopping states poll no requests, so that an answer is never put off twice. */
  lemma HoldersDoNotOwe(st: SmState, ch: Channel)
    requires ch in Table(st)
    ensures IsStopping(st) ==> !ch.Request?
    ensures HoldsAborted(st) && ch.Request? ==> !ch.api.StartMission?
  {}

  /** A handled event and what it causes, as far as the balance goes. */
  ghost predicate Handled(s: Sys, ch: Channel, r: Reaction) {
    && ch in s.mail && Carries(ch, s.mail[ch])
    && !HasWork(s.sm.script)
    && Balanced(s.sm.state, ch, s.mail[ch], r)
    && (IsStopping(s.sm.state) ==> !ch.Request?)
    && (HoldsAborted(s.sm.state) && ch.Request? ==> !ch.api.StartMission?)
  }

  lemma ConsumeIsHandled(s: Sys, cfg: Config, ch: Channel)
    requires Enabled(s, SmConsume(ch))
    ensures Handled(s, ch, React(s.sm.state, cfg.retryLimit, ch, s.mail[ch]))
  {
    ReactionBalanced(s.sm.state, cfg.retryLimit, ch, s.mail[ch]);
    HoldersDoNotOwe(s.sm.state, ch);
  }

  lemma ConsumeKeepsReplies(s: Sys, ch: Channel, r: Reaction, api: Api)
    requires ReplyInv(s, api) && Handled(s, ch, r)
    ensures ReplyInv(ConsumedWith(s, ch, r), api)
  {}

  lemma ConsumeKeepsFresh(s: Sys, ch: Channel, r: Reaction, m: Mission)
    requires FreshInv(s, m) && Handled(s, ch, r)
    ensures FreshInv(ConsumedWith(s, ch, r), m)
  {}

  lemma ConsumeKeepsAborted(s: Sys, ch: Channel, r: Reaction, m: Mission)
    requires AbortedInv(s, m) && Handled(s, ch, r)
    ensures AbortedInv(ConsumedWith(s, ch, r), m)
  {}

  lemma ReplyKeepsAccounts(s: Sys, api: Api, m: Mission)
    requires ReplyInv(s, api) && FreshInv(s, m) && AbortedInv(s, m) && s.sm.script.reply.Some?
    ensures ReplyInv(SendReply(s), api) && FreshInv(SendReply(s), m) && AbortedInv(SendReply(s), m)
  {}

  lemma CommandKeepsAccounts(s: Sys, api: Api, m: Mission)
    requires ReplyInv(s, api) && FreshInv(s, m) && AbortedInv(s, m) && s.sm.script.command.Some?
    ensures ReplyInv(SendCommand(s), api) && FreshInv(SendCommand(s), m) && AbortedInv(SendCommand(s), m)
  {}

  lemma EffectKeepsAccounts(s: Sys, api: Api, m: Mission)
    requires ReplyInv(s, api) && FreshInv(s, m) && AbortedInv(s, m) && HasWork(s.sm.script)
    ensures ReplyInv(Effected(s), api) && FreshInv(Effected(s), m) && AbortedInv(Effected(s), m)
  {
    var sc := s.sm.script;
    if sc.reply.Some? { ReplyKeepsAccounts(s, api, m); }
    if sc.command.Some? { CommandKeepsAccounts(s, api, m); }
  }

  lemma StepKeepsAccount(s: Sys, cfg: Config, a: Action, api: Api, m: Mission)
    requires ReplyInv(s, api) && FreshInv(s, m) && AbortedInv(s, m) && Enabled(s, a)
    ensures var s' := Step(s, cfg, a); ReplyInv(s', api) && FreshInv(s', m) && AbortedInv(s', m)
  {
    match a
    case SmConsume(ch) =>
      var r := React(s.sm.state, cfg.retryLimit, ch, s.mail[ch]);
      ConsumeIsHandled(s, cfg, ch);
      ConsumeKeepsReplies(s, ch, r, api);
      ConsumeKeepsFresh(s, ch, r, m);
      ConsumeKeepsAborted(s, ch, r, m);
    case SmEffect => EffectKeepsAccounts(s, api, m);
    case RsMain(answer) => MainLeavesSm(s, cfg, answer);
    case _ =>
  }

  /** The robot service touches neither the state machine nor its accounts. */
  lemma MainLeavesSm(s: Sys, cfg: Config, answer: Answer)
    requires MainReady(s)
    ensures var s' := MainStep(s, cfg, answer);
            s'.sm == s.sm && s'.ledger.(signals := s.ledger.signals) == s.ledger
  {}

  lemma StepKeepsAccounts(s: Sys, cfg: Config, a: Action)
    requires AccountInv(s) && Enabled(s, a)
    ensures AccountInv(Step(s, cfg, a))
  {
    var s' := Step(s, cfg, a);
    var someMission := ReturnHomeMission();
    forall api ensures ReplyInv(s', api) { StepKeepsAccount(s, cfg, a, api, someMission); }
    forall m ensures FreshInv(s', m) { StepKeepsAccount(s, cfg, a, StartMission, m); }
    forall m ensures AbortedInv(s', m) { StepKeepsAccount(s, cfg, a, StartMission, m); }
  }
}
