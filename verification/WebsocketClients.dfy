/** The client as the object of the source: fields updated in place by its
    methods. Every method does what one step of the transition system says, so
    the results about runs are results about this object. */
module WebsocketClients {
  import opened Protocol
  import opened MessageStream
  import opened Fragmentation
  import opened FrameSequences
  import opened Reassembly
  import opened ClientState

  lemma {:induction false} FailuresAppend(a: seq<Entry>, b: seq<Entry>)
    ensures Failures(a + b) == Failures(a) + Failures(b)
  {
    if a == [] {
      assert a + b == b;
    } else {
      assert (a + b)[1..] == a[1..] + b;
      FailuresAppend(a[1..], b);
    }
  }

  /** The loop of `send` that turns chunks into entries. */
  method WriteChunks(chunks: seq<Bytes>, opcode: Opcode, fin: bool, promise: Option<PromiseId>)
    returns (writes: seq<Entry>)
    requires chunks != []
    ensures writes == Split(chunks, opcode, fin, promise)
  {
    writes := [];
    for i := 0 to |chunks|
      invariant |writes| == i
      invariant forall k :: 0 <= k < i ==> writes[k] == SplitEntry(chunks, opcode, fin, promise, k)
    {
      writes := writes + [Entry(chunks[i],
                                if i == 0 then opcode else Continuation,
                                if i == |chunks| - 1 then fin else false,
                                if i == |chunks| - 1 then promise else None)];
    }
    SplitAt(chunks, opcode, fin, promise);
  }

  /** What a tick does that nothing interrupts: nothing without an interval,
      a close without a pong, else a ping and a timer. */
  function WholeTick(s: Client): (r: Client) {
    if s.ping.interval.None? then s
    else if s.ping.waitingForPong then
      s.(ping := s.ping.(waitingForPong := false, beats := s.ping.beats + [TimedOut]),
         out := CloseOut(s, ABNORMAL_CLOSE))
    else
      s.(ping := s.ping.(waitingForPong := true,
                         beats := s.ping.beats + [Pinged],
                         armed := s.ping.armed + {s.ping.nextTimer},
                         scheduled := Some(s.ping.nextTimer),
                         nextTimer := s.ping.nextTimer + 1),
         out := SendInto(s, s.out, PING))
  }

  class WebsocketClient {
    const config: Config

    // Locked boxes and fields of the source.
    var websocket: bool
    var wasConnected: bool
    var connectionError: bool
    var lwsCloseStatus: Option<CloseStatus>
    var waitingLwsCloseStatus: Option<CloseStatus>
    var frameSequence: Option<FrameSequence>
    var onConnect: bool
    var toBeWritten: seq<Entry>
    var pingInterval: Option<nat>
    var scheduledPingIntervalTimeoutTask: Option<nat>
    var waitingForPong: bool

    // The event loop: waiting closures and timers.
    var tasks: seq<QueuedTask>
    var armed: set<nat>
    var nextTimer: nat

    // The local variables of a WRITEABLE callback and of `markAsClosed`.
    var nextToBeWritten: Option<Entry>
    var loop: LoopPoint
    var tick: TickPoint

    // How far the connection is, and what has happened. The copies these
    // records hold of the fields above are not used.
    var link: Link
    ghost var out: Outbox
    ghost var inbox: Inbox
    ghost var ending: Ending
    ghost var opening: Opening
    ghost var beats: seq<Beat>

    ghost function LinkPart(): (r: Link)
      reads this`link, this`websocket, this`wasConnected, this`connectionError
    {
      link.(websocket := websocket, wasConnected := wasConnected, connectionError := connectionError)
    }

    ghost function OutPart(): (r: Outbox)
      reads this`out, this`toBeWritten, this`nextToBeWritten
    {
      out.(toBeWritten := toBeWritten, inFlight := nextToBeWritten)
    }

    ghost function InboxPart(): (r: Inbox)
      reads this`inbox, this`frameSequence
    {
      inbox.(frameSequence := frameSequence)
    }

    ghost function EndingPart(): (r: Ending)
      reads this`ending, this`lwsCloseStatus, this`waitingLwsCloseStatus
    {
      ending.(status := lwsCloseStatus, waiting := waitingLwsCloseStatus)
    }

    ghost function OpeningPart(): (r: Opening)
      reads this`opening, this`onConnect
    {
      opening.(onConnect := onConnect)
    }

    ghost function PingPart(): (r: Keepalive)
      reads this`pingInterval, this`waitingForPong, this`armed, this`scheduledPingIntervalTimeoutTask, this`nextTimer
      reads this`tick, this`beats
    {
      Keepalive(pingInterval, waitingForPong, armed, scheduledPingIntervalTimeoutTask, nextTimer, tick, beats)
    }

    /** The state of the transition system this object stands for. */
    ghost function View(): (s: Client)
      reads this
    {
      Client(config, LinkPart(), OutPart(), InboxPart(), EndingPart(), OpeningPart(), PingPart(), tasks, loop)
    }

    constructor (config: Config, contextCreated: bool)
      ensures View() == Initial(config, contextCreated)
    {
      this.config := config;
      websocket, wasConnected, connectionError := false, false, false;
      lwsCloseStatus, waitingLwsCloseStatus := None, None;
      frameSequence := None;
      onConnect := true;
      toBeWritten, nextToBeWritten := [], None;
      pingInterval, scheduledPingIntervalTimeoutTask, waitingForPong := None, None, false;
      tasks := if contextCreated then [] else [ConnectFails];
      armed, nextTimer := {}, 0;
      var start := Initial(config, contextCreated);
      link, out, inbox, ending, opening := start.link, start.out, start.inbox, start.ending, start.opening;
      beats, loop, tick := [], Idle, NoTick;
    }

    // ---- Getters ----

    predicate ClosedForever()
      reads this
      ensures ClosedForever() == IsClosedForever(View())
    {
      connectionError || lwsCloseStatus.Some?
    }

    predicate Closed()
      reads this
      ensures Closed() == IsClosed(View())
    {
      if !websocket then true
      else if !wasConnected then true
      else if connectionError then true
      else lwsCloseStatus.Some?
    }

    // ---- Promises and tasks ----

    method Settle(promise: Option<PromiseId>, outcome: Outcome)
      modifies this`out
      ensures OutPart() == Resolve(old(OutPart()), promise, outcome)
    {
      if promise.Some? {
        out := out.(resolved := out.resolved + [Resolution(promise.value, outcome)]);
      }
    }

    /** `fetchOnConnect`, resolving what was taken. */
    method FetchOnConnect(success: bool)
      modifies this`onConnect, this`opening
      ensures View() == old(View()).(opening := TakeConnect(old(OpeningPart()), success))
    {
      if onConnect {
        onConnect := false;
        opening := opening.(resolutions := opening.resolutions + [success]);
      }
    }

    // ---- Sending and closing on the event loop ----

    method SendNow(data: Bytes, opcode: Opcode, fin: bool, promise: Option<PromiseId>)
      modifies this`toBeWritten, this`out
      ensures View() == Send(old(View()), Entry(data, opcode, fin, promise))
      ensures old(websocket && wasConnected && !connectionError && lwsCloseStatus.None?) ==>
                && toBeWritten == old(toBeWritten) + Frames(Entry(data, opcode, fin, promise), config.maxFrameSize)
                && out.resolved == old(out).resolved
      ensures !old(websocket && wasConnected && !connectionError && lwsCloseStatus.None?) ==>
                && toBeWritten == old(toBeWritten)
                && (promise.Some? ==> |out.resolved| == |old(out).resolved| + 1)
    {
      if ClosedForever() {
        Settle(promise, Failed(WebsocketClosed));
        return;
      }
      var late := !websocket && wasConnected && promise.Some? && config.late(promise.value);
      if Closed() && !late {
        Settle(promise, Failed(WebsocketNotYetOpen));
        return;
      }
      if !websocket {
        Settle(promise, Failed(WebsocketClosed));
        return;
      }
      ghost var e := Entry(data, opcode, fin, promise);
      if opcode.IsData() && |data| > config.maxFrameSize {
        var splitted := Chunked(data, config.maxFrameSize);
        var writeChunks := WriteChunks(splitted, opcode, fin, promise);
        toBeWritten := toBeWritten + writeChunks;
      } else {
        toBeWritten := toBeWritten + [Entry(data, opcode, fin, promise)];
      }
      out := out.(accepted := out.accepted + [e]);
    }

    method SendHere(e: Entry)
      modifies this`toBeWritten, this`out
      ensures View() == old(View()).(out := SendInto(old(View()), Issue(old(OutPart()), e), e))
    {
      out := out.(issued := out.issued + Optional(e.promise));
      SendNow(e.data, e.opcode, e.fin, e.promise);
    }

    method CloseNow(reason: CloseStatus)
      modifies this`toBeWritten, this`out
      ensures View() == RequestClose(old(View()), reason)
    {
      if !ClosedForever() {
        SendNow([], Close(reason), true, None);
      }
    }

    /** `send` and `close(reason:)` called on another thread. */
    method SendLater(data: Bytes, opcode: Opcode, fin: bool, promise: Option<PromiseId>)
      modifies this`out, this`tasks
      ensures var e := Entry(data, opcode, fin, promise);
              View() == old(View()).(out := Issue(old(OutPart()), e), tasks := old(tasks) + [SendHop(e)])
    {
      out := out.(issued := out.issued + Optional(promise));
      tasks := tasks + [SendHop(Entry(data, opcode, fin, promise))];
    }

    method CloseLater(reason: CloseStatus)
      modifies this`tasks
      ensures View() == if IsClosedForever(old(View())) then old(View())
                        else Execute(old(View()), SendHop(CloseEntry(reason)))
    {
      if !ClosedForever() {
        tasks := tasks + [SendHop(Entry([], Close(reason), true, None))];
      }
    }

    // ---- markAsClosed ----

    method SetCloseStatus(reason: CloseStatus)
      modifies this`lwsCloseStatus, this`loop
      ensures View() == SetClosed(old(View()), reason)
    {
      if !ClosedForever() {
        lwsCloseStatus := Some(reason);
        loop := Clearing(reason);
      }
    }

    method TakePendingWrites() returns (pendingWrites: seq<Entry>)
      requires loop.Clearing?
      modifies this`toBeWritten, this`out, this`loop
      ensures View() == ClearWrites(old(View()))
      ensures pendingWrites == old(toBeWritten)
    {
      pendingWrites := toBeWritten;
      toBeWritten := [];
      out := out.(dropped := out.dropped + pendingWrites);
      loop := Failing(loop.reason, pendingWrites);
    }

    method FailEach(pendingWrites: seq<Entry>)
      modifies this`out
      ensures View() == old(View()).(out := FailAll(old(OutPart()), pendingWrites))
    {
      for i := 0 to |pendingWrites|
        invariant OutPart() == FailAll(old(OutPart()), pendingWrites[..i])
      {
        assert pendingWrites[..i + 1] == pendingWrites[..i] + [pendingWrites[i]];
        FailuresAppend(pendingWrites[..i], [pendingWrites[i]]);
        assert Failures([pendingWrites[i]][1..]) == [];
        Settle(pendingWrites[i].promise, Failed(WebsocketClosed));
      }
      assert pendingWrites[..|pendingWrites|] == pendingWrites;
    }

    method FailPendingWrites(reason: CloseStatus, pendingWrites: seq<Entry>)
      requires loop == Failing(reason, pendingWrites)
      modifies this`out, this`tasks, this`loop
      ensures View() == FailWrites(old(View()))
    {
      FailEach(pendingWrites);
      tasks := tasks + [CallOnClose(reason)];
      loop := Idle;
    }

    method MarkClosed(reason: CloseStatus)
      requires loop.Idle?
      modifies this`lwsCloseStatus, this`toBeWritten, this`out, this`tasks, this`loop
      ensures View() == MarkAsClosed(old(View()), reason)
    {
      if !ClosedForever() {
        SetCloseStatus(reason);
        var pendingWrites := TakePendingWrites();
        FailPendingWrites(reason, pendingWrites);
      }
    }

    // ---- Keepalive ----

    /** A keepalive event sets or clears the flag. */
    method SetWaitingForPong(waiting: bool, ghost beat: Beat)
      modifies this`waitingForPong, this`beats
      ensures View() == old(View()).(ping := old(PingPart()).(waitingForPong := waiting, beats := old(beats) + [beat]))
    {
      waitingForPong := waiting;
      beats := beats + [beat];
    }

    method ScheduleTimeoutTask()
      modifies this`armed, this`scheduledPingIntervalTimeoutTask, this`nextTimer
      ensures View() == old(View()).(ping := old(PingPart()).(
                          armed := old(armed) + {old(nextTimer)},
                          scheduled := Some(old(nextTimer)),
                          nextTimer := old(nextTimer) + 1))
    {
      armed := armed + {nextTimer};
      scheduledPingIntervalTimeoutTask := Some(nextTimer);
      nextTimer := nextTimer + 1;
    }

    method MoveTick(point: TickPoint)
      modifies this`tick
      ensures View() == old(View()).(ping := old(PingPart()).(tick := point))
    {
      tick := point;
    }

    /** The three sections of a tick. */
    method BeginTick()
      modifies this`tick
      ensures View() == old(View()).(ping := StartTick(old(PingPart())))
    {
      if pingInterval.Some? {
        tick := Checking;
      }
    }

    method LookForPong()
      modifies this`tick, this`waitingForPong, this`beats, this`toBeWritten, this`out
      ensures View() == Check(old(View()))
    {
      if waitingForPong {
        SetWaitingForPong(false, TimedOut);
        MoveTick(NoTick);
        CloseNow(ABNORMAL_CLOSE);
      } else {
        SetWaitingForPong(true, Pinged);
        MoveTick(Arming);
        SendNow([], Ping, true, None);
      }
    }

    method FinishTick()
      modifies this`tick, this`armed, this`scheduledPingIntervalTimeoutTask, this`nextTimer
      ensures View() == old(View()).(ping := ArmTimer(old(PingPart())))
    {
      ScheduleTimeoutTask();
      MoveTick(NoTick);
    }

    /** The whole tick, if nothing comes between its sections. */
    method PingAndScheduleNextTimeoutTask()
      requires tick.NoTick?
      modifies this`tick, this`waitingForPong, this`beats, this`toBeWritten, this`out
      modifies this`armed, this`scheduledPingIntervalTimeoutTask, this`nextTimer
      ensures View() == WholeTick(old(View()))
    {
      BeginTick();
      if tick.Checking? {
        LookForPong();
        if tick.Arming? {
          FinishTick();
        }
      }
    }

    method CancelScheduled()
      modifies this`armed
      ensures View() == old(View()).(ping := old(PingPart()).(
                          armed := if scheduledPingIntervalTimeoutTask.Some?
                                   then old(armed) - {scheduledPingIntervalTimeoutTask.value} else old(armed)))
    {
      if scheduledPingIntervalTimeoutTask.Some? {
        armed := armed - {scheduledPingIntervalTimeoutTask.value};
      }
    }

    method CancelAndReset()
      modifies this`armed, this`waitingForPong, this`beats
      ensures View() == old(View()).(ping := Rearm(old(PingPart())))
    {
      CancelScheduled();
      SetWaitingForPong(false, Reset);
    }

    /** The two sections of the setter. */
    method AssignInterval(newValue: Option<nat>)
      modifies this`pingInterval
      ensures View() == old(View()).(ping := old(PingPart()).(interval := newValue))
    {
      pingInterval := newValue;
    }

    method RestartKeepalive(on: bool)
      modifies this`armed, this`waitingForPong, this`beats, this`tasks
      ensures View() == Restart(old(View()), on)
    {
      CancelAndReset();
      if on {
        tasks := tasks + [Tick];
      } else {
        assert tasks == tasks + [];
      }
    }

    /** The whole setter, if nothing comes between its sections. */
    method SetInterval(newValue: Option<nat>)
      modifies this`pingInterval, this`armed, this`waitingForPong, this`beats, this`tasks
      ensures pingInterval == newValue && !waitingForPong
      ensures View() == Restart(old(View()).(ping := old(PingPart()).(interval := newValue)), newValue.Some?)
    {
      AssignInterval(newValue);
      RestartKeepalive(newValue.Some?);
    }

    // ---- Receiving ----

    /** The held sequence, or a new one, with the fragment appended. */
    method Accumulate(p: Piece) returns (sequence: FrameSequence)
      ensures sequence == Append(Sequence(frameSequence, p), p.data)
    {
      var buffer;
      if frameSequence.Some? {
        buffer := new SimpleAppendFrameSequence.Of(frameSequence.value);
      } else {
        buffer := new SimpleAppendFrameSequence(if p.binary then Binary else Text);
      }
      buffer.AppendFrame(p.data);
      sequence := buffer.Value();
    }

    /** The reassembly task leaves `held` behind. */
    method Processed(ghost p: Piece, held: Option<FrameSequence>)
      modifies this`inbox, this`frameSequence
      ensures View() == old(View()).(inbox := old(InboxPart()).(
                          frameSequence := held, assembled := old(inbox).assembled + [p]))
    {
      inbox := inbox.(assembled := inbox.assembled + [p]);
      frameSequence := held;
    }

    method RefuseText(ghost m: Message)
      modifies this`inbox, this`toBeWritten, this`out
      ensures View() == old(View()).(inbox := old(InboxPart()).(refused := old(inbox).refused + [m]),
                                     out := CloseOut(old(View()), INVALID_PAYLOAD))
    {
      inbox := inbox.(refused := inbox.refused + [m]);
      CloseNow(INVALID_PAYLOAD);
    }

    method ReassembleWhole(p: Piece)
      requires p.first && p.final
      modifies this`inbox, this`frameSequence, this`tasks, this`toBeWritten, this`out
      ensures View() == ReassembleTask(old(View()), p)
    {
      var m := Message(p.binary, p.data);
      Processed(p, None);
      if p.binary || config.decodes(p.data) {
        tasks := tasks + [DeliverWhole(m)];
      } else {
        RefuseText(m);
      }
    }

    method ReassembleFragment(p: Piece)
      modifies this`inbox, this`frameSequence, this`tasks, this`toBeWritten, this`out
      ensures View() == ReassembleTask(old(View()), p)
    {
      if p.first && p.final {
        ReassembleWhole(p);
      } else {
        var sequence := Accumulate(p);
        if config.maxMessageSize.Some? && sequence.count > config.maxMessageSize.value {
          Processed(p, None);
          CloseNow(MESSAGE_TOO_LARGE);
        } else {
          Processed(p, Some(sequence));
          if p.final {
            FinishMessage(sequence);
          }
        }
      }
    }

    method FinishMessage(sequence: FrameSequence)
      modifies this`tasks, this`frameSequence
      ensures View() == old(View()).(
                          inbox := old(InboxPart()).(frameSequence := None),
                          tasks := old(tasks) + (match sequence.kind
                                                 case Binary => [DeliverJoined(Message(true, sequence.binary))]
                                                 case Text => [DeliverJoined(Message(false, sequence.text))]
                                                 case _ => []))
    {
      match sequence.kind {
        case Binary => tasks := tasks + [DeliverJoined(Message(true, sequence.binary))];
        case Text => tasks := tasks + [DeliverJoined(Message(false, sequence.text))];
        case _ =>
      }
      frameSequence := None;
    }

    method DeliverAccumulated(m: Message)
      modifies this`inbox, this`toBeWritten, this`out
      ensures View() == DeliverJoinedTask(old(View()), m)
    {
      if m.binary || config.decodes(m.data) {
        inbox := inbox.(delivered := inbox.delivered + [m]);
      } else {
        RefuseText(m);
      }
    }

    // ---- The event loop ----

    method PerformReceiveTask(t: Task)
      requires t.CallOnFragment? || t.Reassemble? || t.DeliverWhole? || t.DeliverJoined?
      modifies this`inbox, this`frameSequence, this`tasks, this`toBeWritten, this`out
      ensures View() == Perform(old(View()), t)
    {
      match t {
        case CallOnFragment(p) => inbox := inbox.(fragments := inbox.fragments + [p]);
        case Reassemble(p) => ReassembleFragment(p);
        case DeliverWhole(m) => inbox := inbox.(delivered := inbox.delivered + [m]);
        case DeliverJoined(m) => DeliverAccumulated(m);
      }
    }

    method PerformConnectTask(t: Task)
      requires t.ConnectSucceeds? || t.ConnectFails? || t.FailTakenConnect?
               || t.Mark? || t.CallOnClose? || t.CallOnPong?
      modifies this`onConnect, this`opening, this`lwsCloseStatus, this`loop, this`ending
      ensures View() == Perform(old(View()), t)
    {
      match t {
        case ConnectSucceeds => FetchOnConnect(true);
        case ConnectFails => FetchOnConnect(false);
        case FailTakenConnect => opening := opening.(resolutions := opening.resolutions + [false]);
        case Mark(reason) => SetCloseStatus(reason);
        case CallOnClose(reason) => ending := ending.(calls := ending.calls + [reason]);
        case CallOnPong =>
      }
    }

    /** The event loop runs its first task. */
    method RunFirstTask()
      requires tasks != []
      modifies this
      ensures View() == RunTask(old(View()))
    {
      var t := tasks[0];
      tasks := tasks[1..];
      match t {
        case SendHop(e) => SendNow(e.data, e.opcode, e.fin, e.promise);
        case Tick => BeginTick();
        case CallOnFragment(_) => PerformReceiveTask(t);
        case Reassemble(_) => PerformReceiveTask(t);
        case DeliverWhole(_) => PerformReceiveTask(t);
        case DeliverJoined(_) => PerformReceiveTask(t);
        case ConnectSucceeds => PerformConnectTask(t);
        case ConnectFails => PerformConnectTask(t);
        case FailTakenConnect => PerformConnectTask(t);
        case Mark(_) => PerformConnectTask(t);
        case CallOnClose(_) => PerformConnectTask(t);
        case CallOnPong => PerformConnectTask(t);
      }
    }

    method ConnectionTimeout()
      modifies this`onConnect, this`opening
      ensures View() == old(View()).(opening := TakeConnect(old(OpeningPart()).(timer := false), false))
    {
      opening := opening.(timer := false);
      FetchOnConnect(false);
    }

    method TimerFired(timer: nat)
      modifies this`armed, this`tick
      ensures View() == old(View()).(ping := StartTick(old(PingPart()).(armed := old(armed) - {timer})))
    {
      armed := armed - {timer};
      BeginTick();
    }

    // ---- The service thread, for a client that is alive ----

    method ConnectReturned(phase: Phase)
      modifies this`link, this`opening
      ensures View() == old(View()).(opening := old(OpeningPart()).(pending := false),
                                     link := old(LinkPart()).(phase := phase))
    {
      opening := opening.(pending := false);
      link := link.(phase := phase);
    }

    /** The closure with the connect call. */
    method ConnectViaInfo(success: bool)
      modifies this`websocket, this`link, this`opening, this`tasks
      ensures View() == Connect(old(View()), success)
    {
      ConnectReturned(if success then Connecting else Gone);
      if success {
        websocket := true;
      } else {
        tasks := tasks + [ConnectFails];
      }
    }

    method Establish()
      modifies this`wasConnected, this`link, this`tasks
      ensures View() == OnEstablished(old(View()))
    {
      wasConnected := true;
      link := link.(phase := Established);
      tasks := tasks + [ConnectSucceeds];
    }

    method FailConnection()
      modifies this`connectionError, this`link, this`tasks
      ensures View() == OnConnectionError(old(View()))
    {
      connectionError := true;
      link := link.(phase := if link.phase.Unborn? then Unborn else Ended);
      tasks := tasks + [ConnectFails];
    }

    method Receive(p: Piece)
      modifies this`inbox, this`tasks
      ensures View() == OnReceive(old(View()), p)
      ensures tasks == old(tasks) + [CallOnFragment(p), Reassemble(p)]
    {
      inbox := inbox.(received := inbox.received + [p]);
      tasks := tasks + [CallOnFragment(p)];
      tasks := tasks + [Reassemble(p)];
      assert tasks == old(tasks) + [CallOnFragment(p), Reassemble(p)];
    }

    method PopNextToBeWritten()
      modifies this`nextToBeWritten, this`toBeWritten
      ensures View() == old(View()).(out := PopWrite(old(View()).out))
    {
      if |toBeWritten| > 0 {
        nextToBeWritten := Some(toBeWritten[0]);
        toBeWritten := toBeWritten[1..];
      }
    }

    method CloseExpected(reason: CloseStatus)
      modifies this`waitingLwsCloseStatus, this`ending
      ensures View() == old(View()).(ending := old(EndingPart()).(
                          waiting := Some(reason), closings := old(ending).closings + [LocalWritten(reason)]))
    {
      waitingLwsCloseStatus := Some(reason);
      ending := ending.(closings := ending.closings + [LocalWritten(reason)]);
    }

    method WriteSucceeded(e: Entry)
      modifies this`nextToBeWritten, this`out
      ensures View() == old(View()).(out := Written(old(OutPart()), e))
    {
      nextToBeWritten := None;
      out := out.(written := out.written + [e]);
      Settle(e.promise, Succeeded);
    }

    method CloseWritten(e: Entry)
      requires nextToBeWritten == Some(e) && e.opcode.Close?
      modifies this`nextToBeWritten, this`waitingLwsCloseStatus, this`ending, this`out, this`link
      ensures View() == FinishWrite(old(View()), true) == FinishWrite(old(View()), false)
    {
      CloseExpected(e.opcode.reason);
      WriteSucceeded(e);
      link := link.(phase := Closing);
    }

    /** The write call and what follows; `returned` is its result. The result
        of the callback says whether the connection stays open. */
    method WriteNext(returned: int) returns (returnValue: int)
      requires nextToBeWritten.Some? && (returned == 0 || returned == -1)
      modifies this`nextToBeWritten, this`waitingLwsCloseStatus, this`ending, this`out, this`link
      ensures View() == FinishWrite(old(View()), returned == 0)
      ensures returnValue == if old(nextToBeWritten).value.opcode.Close? then -1 else returned
      ensures var e := old(nextToBeWritten).value;
              e.promise.Some? ==>
                out.resolved == old(out).resolved + [Resolution(e.promise.value,
                  if returned == 0 || e.opcode.Close? then Succeeded else Failed(WriteFailed))]
      ensures returnValue == 0 ==> link.phase == old(link.phase)
      ensures returnValue == -1 ==> link.phase.Closing?
    {
      var e := nextToBeWritten.value;
      if e.opcode.Close? {
        CloseWritten(e);
        return -1;
      }
      if returned == 0 {
        WriteSucceeded(e);
      } else {
        nextToBeWritten := None;
        out := out.(failed := Some(e));
        Settle(e.promise, Failed(WriteFailed));
        link := link.(phase := Closing);
      }
      returnValue := returned;
    }

    method PeerInitiatedClose(code: Option<CloseStatus>)
      modifies this`ending, this`tasks
      ensures View() == OnPeerClose(old(View()), code)
    {
      var closeReason := NO_STATUS;
      if code.Some? {
        closeReason := code.value;
      }
      ending := ending.(closings := ending.closings + [PeerInitiated(code)]);
      tasks := tasks + [Mark(closeReason)];
    }

    method SessionClosed(code: Option<CloseStatus>)
      modifies this`link, this`ending, this`tasks
      ensures View() == OnClosed(old(View()), code)
    {
      var closeReason := waitingLwsCloseStatus;
      if closeReason.None? && code.Some? {
        closeReason := code;
      }
      link := link.(phase := Ended);
      ending := ending.(closings := ending.closings + [SessionEnded(code)]);
      tasks := tasks + [Mark(if closeReason.Some? then closeReason.value else NO_STATUS)];
    }

    method Pong()
      modifies this`waitingForPong, this`beats, this`tasks
      ensures View() == OnPong(old(View()))
      ensures !waitingForPong && tasks == old(tasks) + [CallOnPong]
    {
      SetWaitingForPong(false, PongSeen);
      tasks := tasks + [CallOnPong];
    }

    method Destroyed()
      modifies this`websocket, this`link
      ensures View() == OnDestroyed(old(View()))
    {
      websocket := false;
      link := link.(phase := Gone);
    }

    method Abandoned()
      modifies this`link, this`onConnect, this`tasks
      ensures View() == Abandon(old(View()))
    {
      link := link.(alive := false);
      if onConnect {
        onConnect := false;
        tasks := tasks + [FailTakenConnect];
      } else {
        assert tasks == tasks + [];
      }
    }

    /** `deinit`. */
    method Deinitialize()
      requires loop.Idle?
      modifies this
      ensures View() == Deinit(old(View()))
    {
      Abandoned();
      MarkClosed(GOING_AWAY);
    }

    // ---- The object does what the transition system says ----

    /** Every callback, WRITEABLE up to its write. The marker of a released
        client makes it return -1 at once. */
    method OnCallback(ev: Event)
      requires IsCallback(ev) && Enabled(View(), ev)
      modifies this
      ensures View() == Next(old(View()), ev)
    {
      if !link.alive {
        link := Refused(link, ev);
        return;
      }
      match ev {
        case EstablishedCb => Establish();
        case ConnectionErrorCb => FailConnection();
        case ReceiveCb(p) => Receive(p);
        case WriteablePop => PopNextToBeWritten();
        case PeerCloseCb(code) => PeerInitiatedClose(code);
        case ClosedCb(code) => SessionClosed(code);
        case PongCb => Pong();
        case DestroyCb => Destroyed();
      }
    }

    /** The connect call, and the write of a WRITEABLE callback. */
    method OnServiceCall(ev: Event)
      requires ev.ConnectCall? || ev.WriteableFinish?
      requires Enabled(View(), ev)
      modifies this
      ensures View() == Next(old(View()), ev)
    {
      match ev {
        case ConnectCall(success) => ConnectViaInfo(success);
        case WriteableFinish(success) => var _ := WriteNext(if success then 0 else -1);
      }
    }

    /** Every step of the event loop. */
    method OnEventLoop(ev: Event)
      requires ev.LoopTask? || ev.LoopClear? || ev.LoopFail? || ev.LoopCheck? || ev.LoopArm?
               || ev.ConnectTimeout? || ev.PingTimer?
      requires Enabled(View(), ev)
      modifies this
      ensures View() == Next(old(View()), ev)
    {
      match ev {
        case LoopTask => RunFirstTask();
        case LoopClear => var _ := TakePendingWrites();
        case LoopFail => FailPendingWrites(loop.reason, loop.pending);
        case LoopCheck => LookForPong();
        case LoopArm => FinishTick();
        case ConnectTimeout => ConnectionTimeout();
        case PingTimer(timer) => TimerFired(timer);
      }
    }

    /** `send` and `close(reason:)` as called by the application. */
    method OnSend(ev: Event)
      requires ev.SendFromElsewhere? || ev.SendOnLoop?
      requires Enabled(View(), ev)
      modifies this`toBeWritten, this`out, this`tasks
      ensures View() == Next(old(View()), ev)
    {
      match ev {
        case SendFromElsewhere(e) => SendLater(e.data, e.opcode, e.fin, e.promise);
        case SendOnLoop(e) => SendHere(e);
      }
    }

    method OnClose(ev: Event)
      requires ev.CloseFromElsewhere? || ev.CloseOnLoop?
      requires Enabled(View(), ev)
      modifies this`toBeWritten, this`out, this`tasks
      ensures View() == Next(old(View()), ev)
    {
      match ev {
        case CloseFromElsewhere(reason) => CloseLater(reason);
        case CloseOnLoop(reason) => CloseNow(reason);
      }
    }

    /** The setter of `pingInterval`, and the end of the last reference. */
    method OnSetOrRelease(ev: Event)
      requires ev.SetPingInterval? || ev.RestartPing? || ev.Release?
      requires Enabled(View(), ev)
      modifies this
      ensures View() == Next(old(View()), ev)
    {
      match ev {
        case SetPingInterval(interval) => AssignInterval(interval);
        case RestartPing(on) => RestartKeepalive(on);
        case Release => Deinitialize();
      }
    }

    /** Any event. `allowed` says whether the threads and libwebsockets let it
        happen in this state; if not, nothing does. */
    method Handle(ev: Event, allowed: bool)
      requires allowed == Enabled(View(), ev)
      modifies this
      ensures View() == Next(old(View()), ev)
    {
      if !allowed {
        return;
      }
      if IsCallback(ev) {
        OnCallback(ev);
      } else if ev.ConnectCall? || ev.WriteableFinish? {
        OnServiceCall(ev);
      } else if ev.SendFromElsewhere? || ev.SendOnLoop? {
        OnSend(ev);
      } else if ev.CloseFromElsewhere? || ev.CloseOnLoop? {
        OnClose(ev);
      } else if ev.SetPingInterval? || ev.RestartPing? || ev.Release? {
        OnSetOrRelease(ev);
      } else {
        OnEventLoop(ev);
      }
    }

    /** Any run, from any state. */
    method HandleAll(evs: seq<Event>, allowed: seq<bool>)
      requires |allowed| == |evs|
      requires forall i :: 0 <= i < |evs| ==> allowed[i] == Enabled(Steps(View(), evs[..i]), evs[i])
      modifies this
      ensures View() == Steps(old(View()), evs)
    {
      for i := 0 to |evs|
        invariant View() == Steps(old(View()), evs[..i])
      {
        assert evs[..i + 1][..i] == evs[..i];
        Handle(evs[i], allowed[i]);
      }
      assert evs[..|evs|] == evs;
    }
  }

  /** A fresh client after any run: the object is in the state the transition
      system reaches, so what holds of reachable states holds of the object. */
  method Simulate(config: Config, contextCreated: bool, evs: seq<Event>, allowed: seq<bool>)
    returns (client: WebsocketClient)
    requires |allowed| == |evs|
    requires forall i :: 0 <= i < |evs| ==>
               allowed[i] == Enabled(Steps(Initial(config, contextCreated), evs[..i]), evs[i])
    ensures fresh(client)
    ensures client.View() == Steps(Initial(config, contextCreated), evs)
    ensures Reachable(client.View())
  {
    client := new WebsocketClient(config, contextCreated);
    client.HandleAll(evs, allowed);
  }
}
