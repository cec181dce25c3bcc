/** The pod as an object: its owner's calls and its handlers, proved against the connection's steps. */
module Pods {
  import opened Messages
  import opened Filters
  import opened Feedback
  import opened Connections

  /** A channel into the bus, shared by all pods. */
  class BusChan {
    var sent: seq<Message>

    constructor ()
      ensures sent == []
    {
      sent := [];
    }
  }

  /** `listening` says whether an onFunc is set, `installing` whether a call is replacing it and holds the onFunc lock,
      `leaving` how many disconnects have yet to be reported. `handlers` are the messages taken off messageChan, each
      with a goroutine of its own. A full feedback channel makes a call wait: it returns with `done` false, and what
      it leaves is the state it waits in. */
  class Pod {
    var listening: bool
    var messageFilter: MessageFilter
    var messageChan: seq<Message>
    var open: bool
    var handlers: seq<Message>
    var feedbackChan: seq<Feedback>
    const busChan: BusChan
    const wantsReplay: bool
    var replayOnce: bool
    var installing: Option<Option<string>>
    var leaving: nat
    var dead: bool

    function Value(): Connections.Pod reads this, messageFilter {
      Connections.Pod(listening, messageFilter.Value(), wantsReplay, replayOnce, installing, multiset{}, leaving, dead)
    }

    /** The connection as far as its pod shows it. */
    function Shown(): Conn reads this, messageFilter {
      NewConn(wantsReplay, 0).(pod := Value(), feedback := feedbackChan)
    }

    /** The same with a message in the hands of a handler. */
    ghost function Holding(msg: Message): Conn reads this, messageFilter {
      Shown().(flow := NO_FLOW.(received := multiset{msg}))
    }

    constructor (busChan: BusChan, wantsReplay: bool)
      ensures Value() == NewPod(wantsReplay) && fresh(messageFilter)
      ensures this.busChan == busChan && feedbackChan == [] && messageChan == [] && handlers == [] && open
    {
      this.busChan, this.wantsReplay := busChan, wantsReplay;
      listening, replayOnce, installing, leaving, dead, open := false, false, None, 0, false, true;
      messageChan, handlers, feedbackChan := [], [], [];
      messageFilter := new MessageFilter();
    }

    /** A dead pod sends nothing and hands out no receipt. Otherwise the message goes to the bus, and this pod
        will not let it in again. */
    method Send(msg: Message) returns (receipt: Option<string>)
      requires msg.Message?
      modifies messageFilter, busChan
      ensures dead ==> receipt == None && busChan.sent == old(busChan.sent) && Value() == old(Value())
      ensures !dead ==> receipt == Some(msg.uuid) && busChan.sent == old(busChan.sent) + [msg]
      ensures !dead ==> Value().(recorded := multiset{msg}) == DoAct(old(Shown()), RecordSend(msg)).pod
      ensures !dead ==> !Allows(messageFilter.Value(), msg)
    {
      if dead == true {
        return None;
      }
      messageFilter.FilterUUID(msg.uuid, false);
      busChan.sent := busChan.sent + [msg];
      receipt := Some(msg.uuid);
    }

    predicate HasRoom() reads this`feedbackChan {
      |feedbackChan| < POD_CHAN_SIZE
    }

    /** Sets the onFunc: the filter starts afresh, and the first time a replay is asked for if wanted. */
    method SetOnFunc(on: bool) returns (done: bool)
      modifies this`listening, this`messageFilter, this`replayOnce, this`feedbackChan
      ensures fresh(messageFilter) && messageFilter.Value() == OPEN && listening == on
      ensures var asks := on && !old(replayOnce) && wantsReplay;
        && done == (asks ==> old(HasRoom()))
        && feedbackChan == old(feedbackChan) + (if done && asks then [Replay] else [])
        && replayOnce == (old(replayOnce) || (done && on))
    {
      messageFilter := new MessageFilter();
      listening := on;
      if on {
        if !replayOnce {
          if wantsReplay {
            if !HasRoom() {
              return false;
            }
            feedbackChan := feedbackChan + [Replay];
          }
          replayOnce := true;
        }
      }
      done := true;
    }

    method On(on: bool) returns (done: bool)
      requires installing.None?
      modifies this`listening, this`messageFilter, this`replayOnce, this`feedbackChan, this`installing
      ensures fresh(messageFilter)
      ensures var replaced := DoAct(old(Shown()), Install(on, None));
        && done == CanAct(replaced, Installed)
        && Shown() == if done then DoAct(replaced, Installed) else replaced
    {
      installing := Some(None);
      done := SetOnFunc(on);
      if done {
        installing := None;
      }
    }

    method OnType(msgType: string, on: bool) returns (done: bool)
      requires installing.None?
      modifies this`listening, this`messageFilter, this`replayOnce, this`feedbackChan, this`installing
      ensures fresh(messageFilter)
      ensures var replaced := DoAct(old(Shown()), Install(on, Some(msgType)));
        && done == CanAct(replaced, Installed)
        && Shown() == if done then DoAct(replaced, Installed) else replaced
      ensures done ==> forall m: Message :: m.Message? ==> (Allows(messageFilter.Value(), m) <==> m.kind == msgType)
    {
      installing := Some(Some(msgType));
      done := SetOnFunc(on);
      if !done {
        return;
      }
      messageFilter.FilterType(msgType, true);
      messageFilter.typeInclusive := false;
      installing := None;
    }

    method Disconnect() returns (done: bool)
      modifies this`dead, this`leaving, this`feedbackChan
      ensures dead && (done <==> old(HasRoom()))
      ensures feedbackChan == old(feedbackChan) + if done then [Feedback.Disconnect] else []
      ensures var left := DoAct(old(Shown()), Leave);
        && done == CanAct(left, Left)
        && Shown() == if done then DoAct(left, Left) else left
    {
      dead := true;
      leaving := leaving + 1;
      if !HasRoom() {
        return false;
      }
      feedbackChan := feedbackChan + [Feedback.Disconnect];
      leaving := leaving - 1;
      done := true;
    }

    /** The handler of one message; `fails` is what onFunc would return. It reports exactly when onFunc ran, and waits
        with the onFunc lock held if it cannot. */
    method Handle(msg: Message, fails: bool) returns (called: bool, done: bool)
      requires installing.None? && (listening ==> msg.Message?)
      modifies this`feedbackChan
      ensures called == Calls(old(Shown()), msg) && done == (called ==> old(HasRoom()))
      ensures feedbackChan == old(feedbackChan)
        + if called && done then [if fails then Failed(msg) else Success] else []
      ensures var heard := DoAct(old(Holding(msg)), Act.Handle(msg));
        && called == (msg in heard.flow.running)
        && done == (called ==> CanAct(heard, Report(msg, !fails)))
        && feedbackChan == if called && done then DoAct(heard, Report(msg, !fails)).feedback else old(feedbackChan)
    {
      if !listening {
        return false, true;
      }
      called := messageFilter.Allow(msg);
      if called {
        if !HasRoom() {
          return called, false;
        }
        if fails {
          feedbackChan := feedbackChan + [Failed(msg)];
        } else {
          feedbackChan := feedbackChan + [Success];
        }
      }
      done := true;
    }

    /** The worker loop, as far as it gets: every queued message is given a handler, and once the channel is
        closed and empty the pod is dead. */
    method Work()
      modifies this`messageChan, this`handlers, this`dead
      ensures messageChan == [] && handlers == old(handlers) + old(messageChan)
      ensures dead == (old(dead) || !open)
    {
      while messageChan != []
        invariant handlers + messageChan == old(handlers) + old(messageChan)
        invariant dead == old(dead)
        decreases |messageChan|
      {
        var msg := messageChan[0];
        messageChan := messageChan[1..];
        handlers := handlers + [msg];
      }
      if !open {
        dead := true;
      }
    }
  }
}
