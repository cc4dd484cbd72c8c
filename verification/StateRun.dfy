/**
 One state of the state machine at work: `State.run` polls its handler table, whatever the table and the handlers are
 (src/isar/state_machine/state.py).
 */
module StateRun {
  import opened Missions
  import opened Events
  import opened Scripts
  import opened States

  /** The event handler mappings of a state: mailboxes in polling order, and what each handler causes. */
  type Handler = (Channel, Message) -> Reaction

  // ---------------------------------------------------------------- a script performed in one go

  function Sent(mail: Mail, reply: Option<Reply>): Mail {
    if reply.Some? then Trigger(mail, Response(reply.value.api), OfReply(reply.value.ok)) else mail
  }

  function Commanded(mail: Mail, command: Option<Command>): Mail {
    if command.Some? then Trigger(mail, ChannelOf(command.value), MessageOf(command.value)) else mail
  }

  function Wiped(mail: Mail, wipes: seq<Wipeable>): Mail {
    if wipes == [] then mail else Wiped(mail - {wipes[0]}, wipes[1..])
  }

  /** The mailboxes after all operations of the script, in order. */
  function Performed(mail: Mail, sc: Script): Mail {
    if sc.eager
    then Commanded(Wiped(Sent(mail, sc.reply), sc.wipes), sc.command)
    else Sent(Commanded(Wiped(mail, sc.wipes), sc.command), sc.reply)
  }

  // ---------------------------------------------------------------- one pass over the table

  /** The mailboxes after the pass, and the reaction that ended it, if one did. */
  datatype PassResult = PassResult(mail: Mail, moved: Option<Reaction>)

  function Pass(mail: Mail, t: seq<Channel>, h: Handler): PassResult
    decreases |t|
  {
    if t == [] then PassResult(mail, None)
    else if t[0] !in mail then Pass(mail, t[1..], h)
    else
      var r := h(t[0], mail[t[0]]);
      var after := Performed(mail - {t[0]}, r.script);
      if r.next.Some? then PassResult(after, Some(r)) else Pass(after, t[1..], h)
  }

  /** What the handlers and the transition of the pass publish, in order. */
  function PassReports(mail: Mail, t: seq<Channel>, h: Handler): seq<Publication>
    decreases |t|
  {
    if t == [] then []
    else if t[0] !in mail then PassReports(mail, t[1..], h)
    else
      var r := h(t[0], mail[t[0]]);
      r.reports + if r.next.Some? then [] else PassReports(Performed(mail - {t[0]}, r.script), t[1..], h)
  }

  /** Would the value that waits in `ch` end the pass? */
  predicate Moves(mail: Mail, h: Handler, ch: Channel) { ch in mail && h(ch, mail[ch]).next.Some? }

  ghost predicate GoodTable(t: seq<Channel>) {
    && (forall i, j :: 0 <= i < j < |t| ==> t[i] != t[j])
    && (forall i :: 0 <= i < |t| ==> !t[i].Response?)
  }

  /** `rest` is `mail` after the mailboxes in `t` were emptied and only replies were sent. */
  ghost predicate Polled(mail: Mail, t: seq<Channel>, rest: Mail) {
    && (forall j :: 0 <= j < |t| ==> t[j] !in rest)
    && (forall ch: Channel :: !ch.Response? && ch !in t ==>
          (ch in rest <==> ch in mail) && (ch in mail ==> rest[ch] == mail[ch]))
  }

  lemma AnsweringKeepsTheRest(mail: Mail, ch: Channel, sc: Script)
    requires sc.wipes == [] && sc.command.None? && !ch.Response?
    ensures Polled(mail, [ch], Performed(mail - {ch}, sc))
  {}

  lemma PolledBoth(mail: Mail, middle: Mail, t: seq<Channel>, k: nat, rest: Mail)
    requires GoodTable(t) && 0 < k <= |t| && Polled(mail, [t[0]], middle) && Polled(middle, t[1..][..k - 1], rest)
    ensures Polled(mail, t[..k], rest)
  {
    assert t[..k] == [t[0]] + t[1..][..k - 1];
    assert t[0] !in t[1..][..k - 1];
  }

  /**
   The pass has dealt with the first `k` mailboxes without moving the state machine and is moved by the next one, if
   there is one; `rest` is what the mailboxes are when the transition begins, or when the pass is over.
   */
  ghost predicate ConsumesUpTo(mail: Mail, t: seq<Channel>, h: Handler, k: nat, rest: Mail) {
    && k <= |t|
    && (forall j :: 0 <= j < k ==> !Moves(mail, h, t[j]))
    && (k < |t| ==>
          && Moves(mail, h, t[k])
          && Polled(mail, t[..k + 1], rest)
          && var r := h(t[k], mail[t[k]]); Pass(mail, t, h) == PassResult(Performed(rest, r.script), Some(r)))
    && (k == |t| ==> Polled(mail, t, rest) && Pass(mail, t, h) == PassResult(rest, None))
  }

  /** The mailboxes once the first mailbox of the table has been polled, without moving the state machine. */
  function AfterFirst(mail: Mail, t: seq<Channel>, h: Handler): Mail
    requires t != []
  {
    if t[0] in mail then Performed(mail - {t[0]}, h(t[0], mail[t[0]]).script) else mail
  }

  lemma FirstIsPolled(mail: Mail, t: seq<Channel>, h: Handler)
    requires GoodTable(t) && t != [] && !Moves(mail, h, t[0])
    ensures Polled(mail, [t[0]], AfterFirst(mail, t, h))
    ensures Pass(mail, t, h) == Pass(AfterFirst(mail, t, h), t[1..], h)
  {
    if t[0] in mail {
      AnsweringKeepsTheRest(mail, t[0], h(t[0], mail[t[0]]).script);
    }
  }

  lemma LaterMovesAreTheSame(mail: Mail, middle: Mail, t: seq<Channel>, h: Handler, j: nat)
    requires GoodTable(t) && 0 < j < |t| && Polled(mail, [t[0]], middle)
    ensures t[1..][j - 1] == t[j]
    ensures t[j] in mail <==> t[j] in middle
    ensures t[j] in mail ==> mail[t[j]] == middle[t[j]]
  {
    assert t[j] != t[0] && !t[j].Response?;
  }

  /** A pass that goes on after the first mailbox. */
  lemma PassGoesOn(mail: Mail, t: seq<Channel>, h: Handler, k: nat, rest: Mail)
    requires GoodTable(t) && t != [] && !Moves(mail, h, t[0])
    requires ConsumesUpTo(AfterFirst(mail, t, h), t[1..], h, k, rest)
    ensures ConsumesUpTo(mail, t, h, k + 1, rest)
  {
    var middle := AfterFirst(mail, t, h);
    FirstIsPolled(mail, t, h);
    forall j | 0 <= j < k + 1 ensures !Moves(mail, h, t[j]) {
      if j > 0 {
        LaterMovesAreTheSame(mail, middle, t, h, j);
        assert !Moves(middle, h, t[1..][j - 1]);
      }
    }
    if k + 1 < |t| {
      LaterMovesAreTheSame(mail, middle, t, h, k + 1);
      PolledBoth(mail, middle, t, k + 2, rest);
    } else {
      assert t[1..][..k] == t[1..] && t[..k + 1] == t;
      PolledBoth(mail, middle, t, k + 1, rest);
    }
  }

  /**
   One pass consumes the waiting values in table order, up to and including the first that moves the state machine;
   every later mailbox is as it was when the transition begins.  If none moves it, all waiting values are consumed.
   */
  lemma {:induction false} PassConsumesInOrder(mail: Mail, t: seq<Channel>, h: Handler) returns (k: nat, rest: Mail)
    requires GoodTable(t)
    ensures ConsumesUpTo(mail, t, h, k, rest)
    decreases |t|
  {
    if t == [] {
      k, rest := 0, mail;
    } else if Moves(mail, h, t[0]) {
      k, rest := 0, mail - {t[0]};
      assert t[..1] == [t[0]];
    } else {
      k, rest := PassConsumesInOrder(AfterFirst(mail, t, h), t[1..], h);
      PassGoesOn(mail, t, h, k, rest);
      k := k + 1;
    }
  }

  // ---------------------------------------------------------------- the loop as it is written

  /** The part of the state machine thread that runs one state. */
  class Machine {
    const mailboxes: Mailboxes
    var reports: seq<Publication> // what went to the MQTT queue

    constructor (mailboxes: Mailboxes)
      ensures this.mailboxes == mailboxes && reports == []
    {
      this.mailboxes := mailboxes;
      reports := [];
    }

    method SendReply(reply: Option<Reply>)
      modifies mailboxes
      ensures mailboxes.mail == Sent(old(mailboxes.mail), reply)
    {
      if reply.Some? {
        mailboxes.TriggerEvent(Response(reply.value.api), OfReply(reply.value.ok));
      }
    }

    /** Perform the operations of a handler and its transition, one mailbox at a time. */
    method Perform(sc: Script)
      modifies mailboxes
      ensures mailboxes.mail == Performed(old(mailboxes.mail), sc)
    {
      if sc.eager {
        SendReply(sc.reply);
      }
      ghost var before := mailboxes.mail;
      var i := 0;
      while i < |sc.wipes|
        invariant 0 <= i <= |sc.wipes|
        invariant Wiped(mailboxes.mail, sc.wipes[i..]) == Wiped(before, sc.wipes)
      {
        var _ := mailboxes.ClearEvent(sc.wipes[i]);
        i := i + 1;
      }
      if sc.command.Some? {
        mailboxes.TriggerEvent(ChannelOf(sc.command.value), MessageOf(sc.command.value));
      }
      if !sc.eager {
        SendReply(sc.reply);
      }
    }

    /** The body of the loop in `State.run`: poll every mailbox of the table once, in order. */
    method RunPass(t: seq<Channel>, h: Handler) returns (moved: Option<Reaction>)
      modifies this, mailboxes
      ensures Pass(old(mailboxes.mail), t, h) == PassResult(mailboxes.mail, moved)
      ensures moved.Some? ==> moved.value.next.Some?
      ensures reports == old(reports) + PassReports(old(mailboxes.mail), t, h)
    {
      var i := 0;
      while i < |t|
        invariant 0 <= i <= |t|
        invariant Pass(mailboxes.mail, t[i..], h) == Pass(old(mailboxes.mail), t, h)
        invariant reports + PassReports(mailboxes.mail, t[i..], h)
                  == old(reports) + PassReports(old(mailboxes.mail), t, h)
      {
        assert t[i..][0] == t[i] && t[i..][1..] == t[i + 1..];
        ghost var before := mailboxes.mail;
        var value := mailboxes.ConsumeEvent(t[i]);
        if value.Some? {
          var r := h(t[i], value.value);
          Perform(r.script);
          reports := reports + r.reports;
          if r.next.Some? {
            moved := Some(r);
            return;
          }
        } else {
          assert before - {t[i]} == before;
        }
        i := i + 1;
      }
      moved := None;
    }
  }
}
