/** What a run did, read off its events. The states carry histories of their own:
    the frames written, the fragments received, the calls accepted and so on.
    Here each of them is tied to the events that were possible when they came, so
    that claims about histories are claims about what libwebsockets, the event
    loop and the application did. */
module History {
  import opened Protocol
  import opened MessageStream
  import opened Fragmentation
  import opened Reassembly
  import opened ClientState
  import opened Connection

  /** A client from its creation through a list of events. */
  datatype Execution = Execution(config: Config, contextCreated: bool, events: seq<Event>)

  function Start(x: Execution): (s: Client) {
    Initial(x.config, x.contextCreated)
  }

  /** The client before event `n`, or at the end. */
  function Before(x: Execution, n: nat): (s: Client)
    requires n <= |x.events|
  {
    Steps(Start(x), x.events[..n])
  }

  function Final(x: Execution): (s: Client) {
    Steps(Start(x), x.events)
  }

  lemma FinalIsReachable(x: Execution)
    ensures Reachable(Final(x)) && Final(x).config == x.config
  {
    ConfigStays(Start(x), x.events);
  }

  lemma {:induction false} ConfigStays(s: Client, evs: seq<Event>)
    ensures Steps(s, evs).config == s.config
    decreases |evs|
  {
    if evs != [] {
      ConfigStays(s, evs[..|evs| - 1]);
      ConfigStep(Steps(s, evs[..|evs| - 1]), evs[|evs| - 1]);
    }
  }

  lemma ConfigStep(s: Client, ev: Event)
    ensures Next(s, ev).config == s.config
  {
    if Enabled(s, ev) && OnLoop(ev) {
      var before, t := LoopStep(s, ev);
      var _ := PerformOut(before, t);
    }
  }

  /** What is seen at the events of a run, one after the other. */
  function Log<T>(s: Client, evs: seq<Event>, seen: (Client, Event) -> seq<T>): (r: seq<T>)
    decreases |evs|
  {
    if evs == [] then []
    else Log(s, evs[..|evs| - 1], seen) + seen(Steps(s, evs[..|evs| - 1]), evs[|evs| - 1])
  }

  /** What is seen at event `n`. */
  function SeenAt<T>(s: Client, evs: seq<Event>, seen: (Client, Event) -> seq<T>, n: nat): (r: seq<T>)
    requires n < |evs|
  {
    seen(Steps(s, evs[..n]), evs[n])
  }

  lemma SeenInit<T>(s: Client, evs: seq<Event>, seen: (Client, Event) -> seq<T>, n: nat)
    requires n < |evs| - 1
    ensures SeenAt(s, evs[..|evs| - 1], seen, n) == SeenAt(s, evs, seen, n)
  {
    assert evs[..|evs| - 1][..n] == evs[..n];
  }

  lemma {:induction false} LogHas<T>(s: Client, evs: seq<Event>, seen: (Client, Event) -> seq<T>, x: T)
    ensures x in Log(s, evs, seen) <==> exists n :: 0 <= n < |evs| && x in SeenAt(s, evs, seen, n)
    decreases |evs|
  {
    if evs != [] {
      var last := |evs| - 1;
      LogHas(s, evs[..last], seen, x);
      forall n | 0 <= n < last
        ensures SeenAt(s, evs[..last], seen, n) == SeenAt(s, evs, seen, n)
      {
        SeenInit(s, evs, seen, n);
      }
      if x in Log(s, evs[..last], seen) {
        var n :| 0 <= n < last && x in SeenAt(s, evs[..last], seen, n);
        assert x in SeenAt(s, evs, seen, n);
      } else if x in SeenAt(s, evs, seen, last) {
        assert x in Log(s, evs, seen);
      } else {
        assert forall n :: 0 <= n < |evs| ==> x !in SeenAt(s, evs, seen, n);
      }
    }
  }

  /** A queue that `in` joins and `out` leaves, over two stretches of a run. */
  lemma QueueChain<T>(a: seq<T>, in1: seq<T>, out1: seq<T>, b: seq<T>, in2: seq<T>, out2: seq<T>, c: seq<T>)
    requires a + in1 == out1 + b && b + in2 == out2 + c
    ensures a + (in1 + in2) == (out1 + out2) + c
  {
    assert a + (in1 + in2) == (a + in1) + in2;
    assert (out1 + b) + in2 == out1 + (b + in2);
    assert out1 + (out2 + c) == (out1 + out2) + c;
  }

  /** Something has happened in a run. */
  predicate Happens(s: Client, evs: seq<Event>, what: (Client, Event) -> bool)
    decreases |evs|
  {
    evs != [] &&
    (Happens(s, evs[..|evs| - 1], what) || what(Steps(s, evs[..|evs| - 1]), evs[|evs| - 1]))
  }

  /** A callback that reaches its client. */
  predicate Reaches(s: Client, ev: Event) {
    IsCallback(ev) && Enabled(s, ev) && s.link.alive
  }

  // ---- The flags ----

  predicate Releases(s: Client, ev: Event) {
    ev.Release? && Enabled(s, ev)
  }

  predicate Establishes(s: Client, ev: Event) {
    ev.EstablishedCb? && Reaches(s, ev)
  }

  predicate Errs(s: Client, ev: Event) {
    ev.ConnectionErrorCb? && Reaches(s, ev)
  }

  predicate Connects(s: Client, ev: Event) {
    ev.ConnectCall? && Enabled(s, ev)
  }

  predicate ConnectsWell(s: Client, ev: Event) {
    Connects(s, ev) && ev.success
  }

  predicate Destroys(s: Client, ev: Event) {
    ev.DestroyCb? && Reaches(s, ev)
  }

  predicate TimesOutConnecting(s: Client, ev: Event) {
    ev.ConnectTimeout? && Enabled(s, ev)
  }

  lemma LinkStepLog(s: Client, ev: Event)
    ensures var r := Next(s, ev).link;
            && r.alive == (s.link.alive && !Releases(s, ev))
            && r.wasConnected == (s.link.wasConnected || Establishes(s, ev))
            && r.connectionError == (s.link.connectionError || Errs(s, ev))
            && r.websocket == ((s.link.websocket || ConnectsWell(s, ev)) && !Destroys(s, ev))
  {
    if Enabled(s, ev) && OnLoop(ev) {
      var before, t := LoopStep(s, ev);
      var _ := PerformOut(before, t);
    } else if Enabled(s, ev) && IsCallback(ev) {
      LinkCallbackLog(s, ev);
    } else if Enabled(s, ev) {
      LinkOtherLog(s, ev);
    }
  }

  lemma LinkCallbackLog(s: Client, ev: Event)
    requires Enabled(s, ev) && IsCallback(ev)
    ensures var r := Next(s, ev).link;
            && r.alive == s.link.alive
            && r.wasConnected == (s.link.wasConnected || Establishes(s, ev))
            && r.connectionError == (s.link.connectionError || Errs(s, ev))
            && r.websocket == (s.link.websocket && !Destroys(s, ev))
  {
  }

  lemma LinkOtherLog(s: Client, ev: Event)
    requires Enabled(s, ev) && !OnLoop(ev) && !IsCallback(ev)
    ensures var r := Next(s, ev).link;
            && r.alive == (s.link.alive && !Releases(s, ev))
            && r.wasConnected == (s.link.wasConnected || Establishes(s, ev))
            && r.connectionError == (s.link.connectionError || Errs(s, ev))
            && r.websocket == ((s.link.websocket || ConnectsWell(s, ev)) && !Destroys(s, ev))
  {
  }

  lemma OpeningStepLog(s: Client, ev: Event)
    ensures var r := Next(s, ev).opening;
            && r.pending == (s.opening.pending && !Connects(s, ev))
            && r.timer == (s.opening.timer && !TimesOutConnecting(s, ev))
  {
    if Enabled(s, ev) && OnLoop(ev) {
      var before, t := LoopStep(s, ev);
      var _ := PerformOut(before, t);
      assert Perform(before, t).opening.timer == s.opening.timer;
    }
  }

  /** The boxes say what has happened: the client is alive until it is released;
      it was connected if ESTABLISHED reached it; it has an error if
      CONNECTION_ERROR did; it has a connection from a connect call that
      succeeded until WSI_DESTROY; its timeout runs once. */
  lemma {:induction false} FlagsAreEvents(x: Execution, n: nat)
    requires n <= |x.events|
    ensures var s, evs := Before(x, n), x.events[..n];
            && (s.link.alive <==> !Happens(Start(x), evs, Releases))
            && (s.link.wasConnected <==> Happens(Start(x), evs, Establishes))
            && (s.link.connectionError <==> Happens(Start(x), evs, Errs))
            && (s.link.websocket <==>
                Happens(Start(x), evs, ConnectsWell) && !Happens(Start(x), evs, Destroys))
            && (s.opening.pending <==> x.contextCreated && !Happens(Start(x), evs, Connects))
            && (s.opening.timer <==> x.contextCreated && !Happens(Start(x), evs, TimesOutConnecting))
            && (Happens(Start(x), evs, Destroys) || Happens(Start(x), evs, ConnectsWell) ==> !s.opening.pending)
  {
    if n > 0 {
      var s, ev := Before(x, n - 1), x.events[n - 1];
      assert x.events[..n][..n - 1] == x.events[..n - 1];
      FlagsAreEvents(x, n - 1);
      BaseReachable(x.config, x.contextCreated, x.events[..n - 1]);
      LinkStepLog(s, ev);
      OpeningStepLog(s, ev);
    }
  }

  // ---- Receiving ----

  function FragmentAt(s: Client, ev: Event): (r: seq<Piece>) {
    if ev.ReceiveCb? && Reaches(s, ev) then [ev.piece] else []
  }

  /** The fragments of the RECEIVE callbacks that reached the client. */
  function Fragments(x: Execution): (ps: seq<Piece>) {
    Log(Start(x), x.events, FragmentAt)
  }

  function ShownAt(s: Client, ev: Event): (r: seq<Piece>) {
    if ev.LoopTask? && Enabled(s, ev) && s.tasks[0].CallOnFragment? then [s.tasks[0].piece] else []
  }

  /** The fragments given to `onFragment`. */
  function Shown(x: Execution): (ps: seq<Piece>) {
    Log(Start(x), x.events, ShownAt)
  }

  function DeliveryAt(s: Client, ev: Event): (r: seq<Message>) {
    if !(ev.LoopTask? && Enabled(s, ev)) then []
    else
      match s.tasks[0]
      case DeliverWhole(m) => [m]
      case DeliverJoined(m) => if m.binary || s.config.decodes(m.data) then [m] else []
      case _ => []
  }

  /** The messages given to `onText` and `onBinary`. */
  function Deliveries(x: Execution): (ms: seq<Message>) {
    Log(Start(x), x.events, DeliveryAt)
  }

  lemma InboxPerform(s: Client, t: Task)
    ensures var r := Perform(s, t);
            && r.inbox.received == s.inbox.received
            && r.inbox.fragments == s.inbox.fragments + (if t.CallOnFragment? then [t.piece] else [])
            && r.inbox.delivered == s.inbox.delivered
                 + (match t
                    case DeliverWhole(m) => [m]
                    case DeliverJoined(m) => if m.binary || s.config.decodes(m.data) then [m] else []
                    case _ => [])
  {
  }

  lemma InboxStep(s: Client, ev: Event)
    ensures var r := Next(s, ev);
            && r.inbox.received == s.inbox.received + FragmentAt(s, ev)
            && r.inbox.fragments == s.inbox.fragments + ShownAt(s, ev)
            && r.inbox.delivered == s.inbox.delivered + DeliveryAt(s, ev)
  {
    if Enabled(s, ev) && OnLoop(ev) {
      var before, t := LoopStep(s, ev);
      InboxPerform(before, t);
    }
  }

  lemma {:induction false} ReceivedLog(s: Client, evs: seq<Event>)
    ensures Steps(s, evs).inbox.received == s.inbox.received + Log(s, evs, FragmentAt)
    ensures Steps(s, evs).inbox.fragments == s.inbox.fragments + Log(s, evs, ShownAt)
    decreases |evs|
  {
    if evs != [] {
      ReceivedLog(s, evs[..|evs| - 1]);
      InboxStep(Steps(s, evs[..|evs| - 1]), evs[|evs| - 1]);
    }
  }

  lemma {:induction false} DeliveredLog(s: Client, evs: seq<Event>)
    ensures Steps(s, evs).inbox.delivered == s.inbox.delivered + Log(s, evs, DeliveryAt)
    decreases |evs|
  {
    if evs != [] {
      DeliveredLog(s, evs[..|evs| - 1]);
      InboxStep(Steps(s, evs[..|evs| - 1]), evs[|evs| - 1]);
    }
  }

  /** The receive history is what happened. */
  lemma ReceivedIsWhatCame(x: Execution)
    ensures Final(x).inbox.received == Fragments(x)
    ensures Final(x).inbox.fragments == Shown(x)
    ensures Final(x).inbox.delivered == Deliveries(x)
  {
    ReceivedLog(Start(x), x.events);
    DeliveredLog(Start(x), x.events);
  }

  // ---- Sending ----

  /** The four boxes that `send` looks at say that the client is open. */
  predicate IsOpen(s: Client) {
    s.link.websocket && s.link.wasConnected && !s.link.connectionError && s.ending.status.None?
  }

  /** The call that a task makes to `send` on the event loop. */
  function TaskCall(s: Client, t: Task): (e: Option<Entry>) {
    match t
    case SendHop(e) => Some(e)
    case Reassemble(p) => (
      match Assemble(s.inbox.frameSequence, p, s.config.maxMessageSize).action
      case TooLarge => Some(Entry([], Close(1009), true, None))
      case Whole(m) => if m.binary || s.config.decodes(m.data) then None else Some(Entry([], Close(1007), true, None))
      case _ => None)
    case DeliverJoined(m) =>
      if m.binary || s.config.decodes(m.data) then None else Some(Entry([], Close(1007), true, None))
    case _ => None
  }

  /** The call that an event makes to `send` on the event loop, by the
      application or by the library itself. */
  function CallAt(s: Client, ev: Event): (e: Option<Entry>) {
    if !Enabled(s, ev) then None
    else
      match ev
      case SendOnLoop(e) => Some(e)
      case CloseOnLoop(reason) => Some(Entry([], Close(reason), true, None))
      case LoopTask => TaskCall(s, s.tasks[0])
      case LoopCheck => Some(Entry([], if s.ping.waitingForPong then Close(1006) else Ping, true, None))
      case _ => None
  }

  /** The error of a call that finds the client not open. The connection may be
      lost between the second and the third test. */
  function Refusal(s: Client, e: Entry): (rs: seq<Resolution>) {
    if e.promise.None? then []
    else
      var closed := s.link.connectionError || s.ending.status.Some?
                    || (s.link.wasConnected && !s.link.websocket && s.config.late(e.promise.value));
      [Resolution(e.promise.value, Failed(if closed then WebsocketClosed else WebsocketNotYetOpen))]
  }

  /** What a call does: on an open client its frames join the queue and nothing is
      resolved; otherwise nothing is queued and its promise gets its error. */
  predicate CallDone(s: Client, e: Entry, before: Outbox, after: Outbox) {
    && after.written == before.written && after.failed == before.failed && after.inFlight == before.inFlight
    && after.dropped == before.dropped
    && if IsOpen(s) then
         && after.accepted == before.accepted + [e]
         && after.toBeWritten == before.toBeWritten + Frames(e, s.config.maxFrameSize)
         && after.resolved == before.resolved
       else
         && after.accepted == before.accepted
         && after.toBeWritten == before.toBeWritten
         && after.resolved == before.resolved + Refusal(s, e)
  }

  lemma SendDoes(s: Client, o: Outbox, e: Entry)
    ensures CallDone(s, e, o, SendInto(s, o, e))
  {
  }

  lemma TaskCallDone(s: Client, t: Task)
    ensures var r := Perform(s, t).out;
            if t.CheckPong? then
              CallDone(s, Entry([], if s.ping.waitingForPong then Close(1006) else Ping, true, None), s.out, r)
            else
              var call := TaskCall(s, t); if call.Some? then CallDone(s, call.value, s.out, r) else r == s.out
  {
    var call := if t.CheckPong? then Some(Entry([], if s.ping.waitingForPong then Close(1006) else Ping, true, None))
                else TaskCall(s, t);
    if call.Some? {
      SendDoes(s, s.out, call.value);
    }
  }

  /** In every state: a call that reaches the event loop is accepted if and only
      if the client is open, and then no promise is resolved. Otherwise its
      promise fails: as closed after a connection error, after a close, or if the
      connection went away under the call; else as not yet open. */
  lemma CallAcceptedIffOpen(s: Client, ev: Event)
    requires CallAt(s, ev).Some?
    ensures CallDone(s, CallAt(s, ev).value, s.out, Next(s, ev).out)
  {
    var before, t := LoopStep(s, ev);
    TaskCallDone(before, t);
  }

  /** The call of `close(reason:)` in particular, on the event loop and where it
      arrives from another thread. */
  lemma CloseIsNextCall(s: Client, reason: CloseStatus)
    requires Enabled(s, CloseOnLoop(reason)) && IsOpen(s)
    ensures Next(s, CloseOnLoop(reason)).out.accepted == s.out.accepted + [Entry([], Close(reason), true, None)]
    ensures Next(s, CloseFromElsewhere(reason)).tasks == s.tasks + [SendHop(Entry([], Close(reason), true, None))]
  {
    CallAcceptedIffOpen(s, CloseOnLoop(reason));
  }

  function AcceptedAt(s: Client, ev: Event): (es: seq<Entry>) {
    if IsOpen(s) then Optional(CallAt(s, ev)) else []
  }

  /** The calls made to `send` on the event loop while the client was open. */
  function Accepted(x: Execution): (es: seq<Entry>) {
    Log(Start(x), x.events, AcceptedAt)
  }

  lemma NothingCalled(s: Client, ev: Event)
    requires CallAt(s, ev).None?
    ensures Next(s, ev).out.accepted == s.out.accepted
  {
    if Enabled(s, ev) && OnLoop(ev) {
      var before, t := LoopStep(s, ev);
      TaskCallDone(before, t);
    }
  }

  lemma AcceptedStepLog(s: Client, ev: Event)
    ensures Next(s, ev).out.accepted == s.out.accepted + AcceptedAt(s, ev)
  {
    if CallAt(s, ev).Some? {
      CallAcceptedIffOpen(s, ev);
    } else {
      NothingCalled(s, ev);
    }
  }

  lemma {:induction false} AcceptedLog(s: Client, evs: seq<Event>)
    ensures Steps(s, evs).out.accepted == s.out.accepted + Log(s, evs, AcceptedAt)
    decreases |evs|
  {
    if evs != [] {
      AcceptedLog(s, evs[..|evs| - 1]);
      AcceptedStepLog(Steps(s, evs[..|evs| - 1]), evs[|evs| - 1]);
    }
  }

  /** Exactly the calls made on an open client are accepted, in order. */
  lemma AcceptedIsWhatWasCalled(x: Execution)
    ensures Final(x).out.accepted == Accepted(x)
  {
    AcceptedLog(Start(x), x.events);
  }

  // ---- Writing ----

  /** The write call of this event succeeded. A Close does not depend on it. */
  predicate WriteWell(s: Client, ev: Event) {
    ev.WriteableFinish? && s.out.inFlight.Some? && (ev.success || s.out.inFlight.value.opcode.Close?)
  }

  predicate WriteBadly(s: Client, ev: Event) {
    ev.WriteableFinish? && s.out.inFlight.Some? && !ev.success && !s.out.inFlight.value.opcode.Close?
  }

  function WrittenAt(s: Client, ev: Event): (es: seq<Entry>) {
    if WriteWell(s, ev) then [s.out.inFlight.value] else []
  }

  function FailedAt(s: Client, ev: Event): (es: seq<Entry>) {
    if WriteBadly(s, ev) then [s.out.inFlight.value] else []
  }

  /** The frames whose write call succeeded, and the Close frames. */
  function Wire(x: Execution): (es: seq<Entry>) {
    Log(Start(x), x.events, WrittenAt)
  }

  function PoppedAt(s: Client, ev: Event): (es: seq<Entry>) {
    if ev.WriteablePop? && Reaches(s, ev) && s.out.toBeWritten != [] then [s.out.toBeWritten[0]] else []
  }

  /** What an event settles: the write call its promise, by its result; a refused
      call its promise; `markAsClosed` the promises it took. */
  function SettledAt(s: Client, ev: Event): (rs: seq<Resolution>) {
    if ev.WriteableFinish? && Enabled(s, ev) then
      var e := s.out.inFlight.value;
      if e.promise.None? then []
      else [Resolution(e.promise.value, if WriteWell(s, ev) then Succeeded else Failed(WriteFailed))]
    else if CallAt(s, ev).Some? then
      if IsOpen(s) then [] else Refusal(s, CallAt(s, ev).value)
    else if ev.LoopFail? && Enabled(s, ev) then Failures(s.loop.pending)
    else if Releases(s, ev) && !s.link.connectionError && s.ending.status.None? then Failures(s.out.toBeWritten)
    else []
  }

  lemma WriteOutcome(s: Client, ev: Event)
    requires ev.WriteableFinish? && Enabled(s, ev)
    ensures var r := Next(s, ev).out;
            && r.inFlight.None?
            && r.written == s.out.written + WrittenAt(s, ev)
            && r.failed == (if WriteBadly(s, ev) then s.out.inFlight else s.out.failed)
            && r.resolved == s.out.resolved + SettledAt(s, ev)
  {
  }

  lemma OutOther(s: Client, ev: Event)
    requires Enabled(s, ev) && !OnLoop(ev) && !ev.WriteableFinish?
    ensures var r := Next(s, ev).out;
            && r.written == s.out.written && r.failed == s.out.failed
            && r.inFlight == (if PoppedAt(s, ev) == [] then s.out.inFlight else Some(PoppedAt(s, ev)[0]))
            && r.resolved == s.out.resolved + SettledAt(s, ev)
  {
  }

  lemma OutLoop(s: Client, ev: Event)
    requires Enabled(s, ev) && OnLoop(ev)
    ensures var r := Next(s, ev).out;
            && r.written == s.out.written && r.failed == s.out.failed && r.inFlight == s.out.inFlight
            && r.resolved == s.out.resolved + SettledAt(s, ev)
  {
    if CallAt(s, ev).Some? {
      CallAcceptedIffOpen(s, ev);
    } else {
      var before, t := LoopStep(s, ev);
      TaskCallDone(before, t);
    }
  }

  lemma OutStep(s: Client, ev: Event)
    requires s.out.failed.Some? ==> s.out.inFlight.None?
    ensures var r := Next(s, ev).out;
            && r.written == s.out.written + WrittenAt(s, ev)
            && Optional(r.failed) == Optional(s.out.failed) + FailedAt(s, ev)
            && r.resolved == s.out.resolved + SettledAt(s, ev)
  {
    if !Enabled(s, ev) {
    } else if ev.WriteableFinish? {
      WriteOutcome(s, ev);
    } else if OnLoop(ev) {
      OutLoop(s, ev);
    } else {
      OutOther(s, ev);
    }
  }

  lemma {:induction false} OutLog(x: Execution, n: nat)
    requires n <= |x.events|
    ensures var o, evs := Before(x, n).out, x.events[..n];
            && o.written == Log(Start(x), evs, WrittenAt)
            && Optional(o.failed) == Log(Start(x), evs, FailedAt)
            && o.resolved == Log(Start(x), evs, SettledAt)
  {
    if n > 0 {
      assert x.events[..n][..n - 1] == x.events[..n - 1];
      OutLog(x, n - 1);
      BaseReachable(x.config, x.contextCreated, x.events[..n - 1]);
      OutStep(Before(x, n - 1), x.events[n - 1]);
    }
  }

  /** The write history is what the write calls returned: the frames on the wire
      are those whose call returned success, and the Close frames; the failed one
      is the one whose call did not. */
  lemma WrittenIsWhatSucceeded(x: Execution)
    ensures Final(x).out.written == Wire(x)
    ensures Optional(Final(x).out.failed) == Log(Start(x), x.events, FailedAt)
    ensures Final(x).out.resolved == Log(Start(x), x.events, SettledAt)
  {
    assert x.events[..|x.events|] == x.events;
    OutLog(x, |x.events|);
  }

  lemma {:induction false} FailuresFail(es: seq<Entry>, p: PromiseId)
    ensures Resolution(p, Succeeded) !in Failures(es) && Resolution(p, Failed(WriteFailed)) !in Failures(es)
  {
    if es != [] {
      FailuresFail(es[1..], p);
    }
  }

  /** The write call of event `n` was for the frame that carries this promise. */
  predicate WritesFor(s: Client, ev: Event, p: PromiseId) {
    ev.WriteableFinish? && s.out.inFlight.Some? && s.out.inFlight.value.promise == Some(p)
  }

  /** A promise succeeds if and only if the write call for the frame that carries
      it returned success, or was a Close; and it fails as a failed write if and
      only if that call returned failure. */
  lemma OutcomeIsTheResult(x: Execution, p: PromiseId)
    ensures Resolution(p, Succeeded) in Final(x).out.resolved
            <==> exists n :: 0 <= n < |x.events|
                             && WritesFor(Before(x, n), x.events[n], p) && WriteWell(Before(x, n), x.events[n])
    ensures Resolution(p, Failed(WriteFailed)) in Final(x).out.resolved
            <==> exists n :: 0 <= n < |x.events|
                             && WritesFor(Before(x, n), x.events[n], p) && WriteBadly(Before(x, n), x.events[n])
  {
    WrittenIsWhatSucceeded(x);
    var good, bad := Resolution(p, Succeeded), Resolution(p, Failed(WriteFailed));
    LogHas(Start(x), x.events, SettledAt, good);
    LogHas(Start(x), x.events, SettledAt, bad);
    forall n | 0 <= n < |x.events|
      ensures good in SeenAt(Start(x), x.events, SettledAt, n)
              <==> WritesFor(Before(x, n), x.events[n], p) && WriteWell(Before(x, n), x.events[n])
      ensures bad in SeenAt(Start(x), x.events, SettledAt, n)
              <==> WritesFor(Before(x, n), x.events[n], p) && WriteBadly(Before(x, n), x.events[n])
    {
      SettledWrites(Before(x, n), x.events[n], p);
    }
  }

  lemma SettledWrites(s: Client, ev: Event, p: PromiseId)
    ensures Resolution(p, Succeeded) in SettledAt(s, ev) <==> WritesFor(s, ev, p) && WriteWell(s, ev)
    ensures Resolution(p, Failed(WriteFailed)) in SettledAt(s, ev) <==> WritesFor(s, ev, p) && WriteBadly(s, ev)
  {
    if ev.LoopFail? && Enabled(s, ev) {
      FailuresFail(s.loop.pending, p);
    } else if Releases(s, ev) {
      FailuresFail(s.out.toBeWritten, p);
    }
  }

  /** Every WRITEABLE that reaches the client takes the first entry of the queue;
      what was taken has been written, or failed, or is in flight. */
  lemma {:induction false} PoppedIsTried(x: Execution, n: nat)
    requires n <= |x.events|
    ensures var o := Before(x, n).out;
            Log(Start(x), x.events[..n], PoppedAt) == o.written + Optional(o.failed) + Optional(o.inFlight)
  {
    if n > 0 {
      var s, ev := Before(x, n - 1), x.events[n - 1];
      assert x.events[..n][..n - 1] == x.events[..n - 1];
      PoppedIsTried(x, n - 1);
      BaseReachable(x.config, x.contextCreated, x.events[..n - 1]);
      PoppedStep(s, ev);
    }
  }

  lemma PoppedStep(s: Client, ev: Event)
    requires LinkInv(s) && LastWriteInv(s)
    ensures var o, r := s.out, Next(s, ev).out;
            r.written + Optional(r.failed) + Optional(r.inFlight)
            == o.written + Optional(o.failed) + Optional(o.inFlight) + PoppedAt(s, ev)
  {
    if !Enabled(s, ev) {
    } else if ev.WriteableFinish? {
      WriteOutcome(s, ev);
    } else if OnLoop(ev) {
      OutLoop(s, ev);
    } else {
      OutOther(s, ev);
    }
  }

  // ---- The connection ----

  /** An established connection is ended by the client's own doing if and only if
      a Close was written, a write failed, or a callback found the client
      released; every other step leaves it as it is, or libwebsockets ends it. */
  lemma ClientEndsConnection(s: Client, ev: Event)
    requires s.link.phase.Established?
    ensures Next(s, ev).link.phase.Closing?
            <==> || (ev.WriteableFinish? && s.out.inFlight.Some?
                     && (!ev.success || s.out.inFlight.value.opcode.Close?))
                 || (IsCallback(ev) && Enabled(s, ev) && !s.link.alive && !ev.ClosedCb?)
    ensures !Next(s, ev).link.phase.Closing? && !(ev.ClosedCb? && Enabled(s, ev)) && !Connects(s, ev)
            ==> Next(s, ev).link.phase.Established?
  {
    if Enabled(s, ev) && OnLoop(ev) {
      var before, t := LoopStep(s, ev);
      var _ := PerformOut(before, t);
    }
  }

  // ---- Close events ----

  function ClosingAt(s: Client, ev: Event): (cs: seq<CloseEvent>) {
    match ev
    case PeerCloseCb(code) => if Reaches(s, ev) then [PeerInitiated(code)] else []
    case ClosedCb(code) => if Reaches(s, ev) then [SessionEnded(code)] else []
    case WriteableFinish(_) =>
      if s.out.inFlight.Some? && s.out.inFlight.value.opcode.Close?
      then [LocalWritten(s.out.inFlight.value.opcode.reason)] else []
    case _ => []
  }

  /** The close events of the service thread. */
  function Closings(x: Execution): (cs: seq<CloseEvent>) {
    Log(Start(x), x.events, ClosingAt)
  }

  function OnCloseAt(s: Client, ev: Event): (rs: seq<CloseStatus>) {
    if ev.LoopTask? && Enabled(s, ev) && s.tasks[0].CallOnClose? then [s.tasks[0].reason] else []
  }

  /** The calls of `onClose`. */
  function OnCloses(x: Execution): (rs: seq<CloseStatus>) {
    Log(Start(x), x.events, OnCloseAt)
  }

  lemma EndingPerform(s: Client, t: Task)
    ensures Perform(s, t).ending.closings == s.ending.closings
    ensures Perform(s, t).ending.calls == s.ending.calls + (if t.CallOnClose? then [t.reason] else [])
  {
  }

  lemma EndingStepLog(s: Client, ev: Event)
    ensures Next(s, ev).ending.closings == s.ending.closings + ClosingAt(s, ev)
    ensures Next(s, ev).ending.calls == s.ending.calls + OnCloseAt(s, ev)
  {
    if Enabled(s, ev) && OnLoop(ev) {
      var before, t := LoopStep(s, ev);
      EndingPerform(before, t);
    }
  }

  lemma {:induction false} EndingLog(s: Client, evs: seq<Event>)
    ensures Steps(s, evs).ending.closings == s.ending.closings + Log(s, evs, ClosingAt)
    ensures Steps(s, evs).ending.calls == s.ending.calls + Log(s, evs, OnCloseAt)
    decreases |evs|
  {
    if evs != [] {
      EndingLog(s, evs[..|evs| - 1]);
      EndingStepLog(Steps(s, evs[..|evs| - 1]), evs[|evs| - 1]);
    }
  }

  /** The close history is what happened. */
  lemma ClosingsAreWhatCame(x: Execution)
    ensures Final(x).ending.closings == Closings(x)
    ensures Final(x).ending.calls == OnCloses(x)
  {
    EndingLog(Start(x), x.events);
  }
}
