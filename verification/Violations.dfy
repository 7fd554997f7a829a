/** What the receive side does about messages it must not deliver: a message
    that grows past the limit and a text that does not decode both make the
    client ask for a close. */
module Violations {
  import opened Protocol
  import opened MessageStream
  import opened Reassembly
  import opened ClientState
  import opened Connection
  import opened Receiving

  predicate Requested(s: Client) {
    && (s.inbox.refused != [] ==> CloseEntry(INVALID_PAYLOAD) in s.out.accepted)
    && (Overflowed(s.inbox.assembled, s.config.maxMessageSize) ==> CloseEntry(MESSAGE_TOO_LARGE) in s.out.accepted)
  }

  /** Before the connection is established nothing has been received. */
  predicate Untouched(s: Client) {
    s.inbox.assembled == [] && s.inbox.refused == [] && Select(s.tasks, AsWork) == [] && Pending(s.tasks) == []
  }

  predicate ViolationInv(s: Client) {
    (!s.link.wasConnected ==> Untouched(s)) && (!IsClosed(s) ==> Requested(s))
  }

  /** On an open client the fragment task queues the close it asks for. */
  lemma AssembleCloses(s: Client, p: Piece)
    requires !IsClosed(s)
    ensures var action := Assemble(s.inbox.frameSequence, p, s.config.maxMessageSize).action;
            var r := ReassembleTask(s, p);
            && s.out.accepted <= r.out.accepted
            && r.inbox.assembled == s.inbox.assembled + [p] && r.config == s.config
            && (action.TooLarge? ==> r.out.accepted == s.out.accepted + [CloseEntry(MESSAGE_TOO_LARGE)])
            && (r.inbox.refused != s.inbox.refused ==> r.out.accepted == s.out.accepted + [CloseEntry(INVALID_PAYLOAD)])
  {
  }

  lemma AssembleRequests(s: Client, p: Piece)
    requires s.inbox.frameSequence == Run(START, s.inbox.assembled, s.config.maxMessageSize).held
    requires Requested(s) && !IsClosed(s)
    ensures Requested(ReassembleTask(s, p))
  {
    AssembleCloses(s, p);
    OverflowedOne(s.inbox.assembled, p, s.config.maxMessageSize);
  }

  lemma DeliverRequests(s: Client, t: Task)
    requires !t.Reassemble? && Requested(s) && !IsClosed(s)
    ensures Requested(Perform(s, t))
  {
  }

  lemma PerformOpen(s: Client, t: Task)
    ensures !IsClosed(Perform(s, t)) ==> !IsClosed(s)
  {
  }

  lemma ViolationPerform(s: Client, t: Task)
    requires s.link.wasConnected && ViolationInv(s)
    requires s.inbox.frameSequence == Run(START, s.inbox.assembled, s.config.maxMessageSize).held
    ensures ViolationInv(Perform(s, t))
  {
    PerformOpen(s, t);
    PerformElsewhere(s, t);
    if !IsClosed(Perform(s, t)) {
      if t.Reassemble? {
        AssembleRequests(s, t.piece);
      } else {
        DeliverRequests(s, t);
      }
    }
  }

  lemma ViolationLoop(s: Client, ev: Event)
    requires ViolationInv(s) && Enabled(s, ev) && OnLoop(ev)
    requires s.inbox.frameSequence == Run(START, s.inbox.assembled, s.config.maxMessageSize).held
    ensures ViolationInv(Next(s, ev))
  {
    var before, t := LoopStep(s, ev);
    if s.link.wasConnected {
      ViolationPerform(before, t);
    } else {
      PerformElsewhere(before, t);
      if ev.LoopTask? {
        FirstSelected(t, before.tasks, AsWork);
        FirstSelected(t, before.tasks, AsDelivery);
      }
    }
  }

  /** The other steps: nothing is received before the connection is
      established, and only its establishment opens the client. */
  lemma OtherSteps(s: Client, ev: Event)
    requires LinkInv(s) && Enabled(s, ev) && !OnLoop(ev)
    ensures var r := Next(s, ev);
            && r.inbox.assembled == s.inbox.assembled && r.inbox.refused == s.inbox.refused
            && r.out.accepted == s.out.accepted && r.config == s.config
            && (!IsClosed(r) && s.link.wasConnected ==> !IsClosed(s))
            && (s.link.wasConnected ==> r.link.wasConnected)
            && (!s.link.wasConnected ==> !ev.ReceiveCb?)
  {
  }

  lemma ViolationStep(s: Client, ev: Event)
    requires LinkInv(s) && ViolationInv(s)
    requires s.inbox.frameSequence == Run(START, s.inbox.assembled, s.config.maxMessageSize).held
    ensures ViolationInv(Next(s, ev))
  {
    if !Enabled(s, ev) {
    } else if OnLoop(ev) {
      ViolationLoop(s, ev);
    } else {
      OtherSteps(s, ev);
      var more := NewTasks(s, ev);
      if !s.link.wasConnected {
        NoneSelected(s.tasks, more, AsWork);
        NoneSelected(s.tasks, more, AsDelivery);
      }
    }
  }

  lemma {:induction false} ViolationReachable(config: Config, contextCreated: bool, evs: seq<Event>)
    ensures ViolationInv(Steps(Initial(config, contextCreated), evs))
    decreases |evs|
  {
    if evs != [] {
      var s := Steps(Initial(config, contextCreated), evs[..|evs| - 1]);
      ViolationReachable(config, contextCreated, evs[..|evs| - 1]);
      BaseReachable(config, contextCreated, evs[..|evs| - 1]);
      ReceivingReachable(config, contextCreated, evs[..|evs| - 1]);
      ViolationStep(s, evs[|evs| - 1]);
    } else {
      var s := Initial(config, contextCreated);
      assert s.tasks == [] + s.tasks;
      NoneSelected([], s.tasks, AsWork);
      NoneSelected([], s.tasks, AsDelivery);
    }
  }

  /** In every run: what a client has processed while it was open, an overflow
      or a text that was refused, has left a close with its reason among the
      accepted calls, in this state and in every continuation. So it will be
      written unless something closes the connection before. */
  lemma ViolationsRequestClose(s: Client, more: seq<Event>)
    requires Reachable(s) && !IsClosed(s)
    ensures s.inbox.refused != [] ==> CloseEntry(INVALID_PAYLOAD) in Steps(s, more).out.accepted
    ensures Overflowed(s.inbox.assembled, s.config.maxMessageSize)
            ==> CloseEntry(MESSAGE_TOO_LARGE) in Steps(s, more).out.accepted
  {
    AcceptedGrows(s, more);
    var config: Config, contextCreated: bool, evs: seq<Event> :|
      s == Steps(Initial(config, contextCreated), evs);
    ViolationReachable(config, contextCreated, evs);
  }

  /** So on an open client a message of several fragments above the limit has
      made the client ask for a close, wherever in the stream it came. */
  lemma OversizedMessagesRequestClose(s: Client, more: seq<Event>)
    requires Reachable(s) && !IsClosed(s)
    requires Coherent(s.inbox.assembled, None) && Complete(s.inbox.assembled)
    requires !Fits(s.inbox.assembled, s.config.maxMessageSize)
    ensures CloseEntry(MESSAGE_TOO_LARGE) in Steps(s, more).out.accepted
  {
    OverflowIffUnfit(s.inbox.assembled, s.config.maxMessageSize);
    ViolationsRequestClose(s, more);
  }
}
