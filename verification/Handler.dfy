/** One mesh connection as the hub holds it: the withdraw signaler and the handler around the transport's connection. */
module Handlers {
  import opened Messages
  import W = Withdraws

  /** Two one-token channels and two flags; `peer` is the connection it belongs to. */
  class Signaler {
    ghost const peer: string
    var withdrawChan: nat
    var doneChan: nat
    var selfWithdrawn: bool
    var peerWithdrawn: bool

    function Value(): W.Signals reads this {
      W.Signals(withdrawChan, doneChan, selfWithdrawn, peerWithdrawn)
    }

    constructor (ghost peer: string)
      ensures this.peer == peer && Value() == W.NO_SIGNALS
    {
      this.peer := peer;
      withdrawChan, doneChan, selfWithdrawn, peerWithdrawn := 0, 0, false, false;
    }

    /** Raises the flag and then offers the token: the two steps of the withdrawing goroutine for this connection.
        While an earlier token is there the second waits. */
    method Signal() returns (done: bool)
      modifies this`selfWithdrawn, this`withdrawChan
      ensures done == (old(withdrawChan) < W.CHAN_SIZE)
      ensures var raised := W.Marked(old(Value()), W.Raise(peer));
        Value() == if done then W.Marked(raised, W.Action.Signal(peer)) else raised
    {
      selfWithdrawn := true;
      if withdrawChan >= W.CHAN_SIZE {
        return false;
      }
      withdrawChan := withdrawChan + 1;
      done := true;
    }

    /** What the listener does last; it waits while an earlier token is there. */
    method Done() returns (done: bool)
      modifies this`doneChan
      ensures done == (old(doneChan) < W.CHAN_SIZE)
      ensures Value() == if done then W.Marked(old(Value()), W.SayDone(peer)) else old(Value())
    {
      if doneChan >= W.CHAN_SIZE {
        return false;
      }
      doneChan := doneChan + 1;
      done := true;
    }

    method SetPeerWithdrawn()
      modifies this`peerWithdrawn
      ensures Value() == W.Marked(old(Value()), W.Read(peer, W.GotWithdraw))
    {
      peerWithdrawn := true;
    }
  }

  /** The transport's connection to a peer; `working` is whether it delivers. */
  class Link {
    ghost const peer: string
    var working: bool
    var closed: bool
    var sent: seq<Message>

    constructor (ghost peer: string)
      ensures this.peer == peer && !closed && sent == []
    {
      this.peer := peer;
      working, closed, sent := true, false, [];
    }

    method SendMsg(msg: Message) returns (ok: bool)
      modifies this`sent
      ensures ok == working
      ensures sent == if ok then old(sent) + [msg] else old(sent)
    {
      ok := working;
      if ok {
        sent := sent + [msg];
      }
    }

    method Close()
      modifies this`closed
      ensures closed
    {
      closed := true;
    }
  }

  datatype SendResult = SentOn | NodeWithdrawn | SendFailed

  /** `errors` counts the errors offered on ErrChan, `received` are the messages read for the bus. */
  class ConnectionHandler {
    const uuid: string
    const conn: Link?
    const signaler: Signaler
    const interests: seq<string>
    var errors: nat
    var received: seq<Message>

    constructor (uuid: string, conn: Link?, signaler: Signaler, interests: seq<string>)
      ensures this.uuid == uuid && this.conn == conn && this.signaler == signaler && this.interests == interests
      ensures errors == 0 && received == []
    {
      this.uuid, this.conn, this.signaler, this.interests := uuid, conn, signaler, interests;
      errors, received := 0, [];
    }

    /** The withdraw listener, once a token is there: `ok` is whether the withdraw could be sent. It marks the
        signaler as hearing, attempting and saying done do, and reports a failed attempt for the scan. */
    method Listen(ok: bool) returns (done: bool)
      requires signaler.withdrawChan > 0
      modifies signaler`withdrawChan, signaler`doneChan, this`errors
      ensures done == (old(signaler.doneChan) < W.CHAN_SIZE)
      ensures errors == old(errors) + if ok then 0 else 1
      ensures var u, g := signaler.peer, old(signaler.Value());
        var attempted := W.Marked(W.Marked(g, W.Hear(u)), W.Attempt(u, ok));
        signaler.Value() == if done then W.Marked(attempted, W.SayDone(u)) else attempted
    {
      signaler.withdrawChan := signaler.withdrawChan - 1;
      if !ok {
        errors := errors + 1;
      }
      done := signaler.Done();
    }

    /** One round of the read loop, for one outcome of `ReadMsg`. A failed read ends the loop and is an error unless
        either side has withdrawn; the peer's withdraw ends it and raises the flag; a message goes to the bus. */
    method ReadOne(outcome: W.ReadOutcome, msg: Message) returns (more: bool)
      modifies signaler`peerWithdrawn, this`errors, this`received
      ensures more <==> outcome.GotMessage?
      ensures signaler.Value() == W.Marked(old(signaler.Value()), W.Read(signaler.peer, outcome))
      ensures errors == old(errors) + if outcome.GotError? && !W.Excused(old(signaler.Value())) then 1 else 0
      ensures received == if outcome.GotMessage? then old(received) + [msg] else old(received)
    {
      if outcome.GotError? {
        if !(signaler.selfWithdrawn || signaler.peerWithdrawn) {
          errors := errors + 1;
        }
        return false;
      }
      if outcome.GotWithdraw? {
        signaler.SetPeerWithdrawn();
        return false;
      }
      received := received + [msg];
      more := true;
    }

    /** A withdrawn peer is sent nothing; a failure is reported for the scan to find. */
    method Send(msg: Message) returns (r: SendResult)
      requires conn != null
      modifies this`errors, {conn}`sent
      ensures r.SentOn? <==> !signaler.peerWithdrawn && conn.working
      ensures r.NodeWithdrawn? <==> signaler.peerWithdrawn
      ensures conn.sent == if r.SentOn? then old(conn.sent) + [msg] else old(conn.sent)
      ensures errors == old(errors) + if r.SendFailed? then 1 else 0
    {
      if signaler.peerWithdrawn {
        return NodeWithdrawn;
      }
      var ok := conn.SendMsg(msg);
      if !ok {
        errors := errors + 1;
        return SendFailed;
      }
      r := SentOn;
    }
  }
}
