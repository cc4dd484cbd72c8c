/** Sending one request to the state machine and waiting for the reply (`SchedulingUtilities._send_command`). */
module Scheduling {
  import opened Missions

  /** What the state machine does between the put of the request and the end of the wait. */
  datatype Response<R> = Ignores | OnlyConsumes | Replies(reply: R)

  datatype SendResult<R> = Answered(reply: R) | NotHandled | Conflict | TimedOut

  class ApiEvent<T, R> {
    const prioritized: bool
    var locked: bool
    var request: Option<T>
    var response: Option<R>

    constructor (prioritized: bool)
      ensures this.prioritized == prioritized && !locked && request == None && response == None
    {
      this.prioritized := prioritized;
      locked, request, response := false, None, None;
    }

    /** What the state machine thread does to the two mailboxes meanwhile; it depends on the request that it finds. */
    method Serve(server: Option<T> -> Response<R>)
      modifies `request, `response
      ensures var reaction := server(old(request));
              && (reaction.Ignores? ==> request == old(request) && response == old(response))
              && (reaction.OnlyConsumes? ==> request == None && response == old(response))
              && (reaction.Replies? ==>
                    request == None && response == if old(response).None? then Some(reaction.reply) else old(response))
    {
      var reaction := server(request);
      if !reaction.Ignores? {
        request := None;
      }
      if reaction.Replies? && response.None? {
        response := Some(reaction.reply);
      }
    }

    /**
     `handles` says whether the current state of the state machine lists the request in its table.  Whatever was left in
     the mailboxes, the state machine finds this request and its reply is returned, and a call that gets the lock leaves
     both mailboxes empty and the lock free, on every path.
     */
    method SendCommand(input: T, handles: bool, server: Option<T> -> Response<R>) returns (result: SendResult<R>)
      modifies this
      ensures !prioritized && !handles ==> result == NotHandled
      ensures (prioritized || handles) && old(locked) ==> result == Conflict
      ensures result.NotHandled? || result.Conflict? ==>
                locked == old(locked) && request == old(request) && response == old(response)
      ensures (prioritized || handles) && !old(locked) ==>
                && !locked && request == None && response == None
                && result == if server(Some(input)).Replies? then Answered(server(Some(input)).reply) else TimedOut
    {
      if !prioritized && !handles {
        return NotHandled;
      }
      if locked {
        return Conflict;
      }
      locked := true;
      request := None;
      response := None;
      request := Some(input);
      Serve(server);
      if response.Some? {
        result := Answered(response.value);
        response := None;
      } else {
        request := None;
        result := TimedOut;
      }
      request := None;
      response := None;
      locked := false;
    }
  }
}
