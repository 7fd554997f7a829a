/** The websocket client as a transition system. One step is one lock section,
    one task of the event loop, one callback of the service thread, or one call
    by the application. The steps interleave freely; `Enabled` says which step
    the two threads and libwebsockets allow in which state. */
module ClientState {
  import opened Protocol
  import opened MessageStream
  import opened Fragmentation
  import opened FrameSequences
  import opened Reassembly

  /** `decodes` stands for the UTF-8 decoder: which byte strings are text.
      `late` stands for the timing of WSI_DESTROY against a call of `send`: for
      which promises a connection that is gone was still there at the second
      test of the call, so that only the third one finds it gone. */
  datatype Config = Config(
    maxFrameSize: FrameLimit,
    maxMessageSize: Option<nat>,
    decodes: Bytes -> bool,
    late: PromiseId -> bool)

  /** How far libwebsockets has got with the connection. `Closing` begins when
      a callback returns nonzero; `Ended` follows the CLOSED or
      CONNECTION_ERROR callback, `Gone` the WSI_DESTROY callback. */
  datatype Phase = Unborn | Connecting | Established | Closing | Ended | Gone

  datatype Failure = WebsocketClosed | WebsocketNotYetOpen | WriteFailed

  datatype Outcome = Succeeded | Failed(why: Failure)

  datatype Resolution = Resolution(promise: PromiseId, outcome: Outcome)

  /** The closures of the event loop. */
  datatype Task =
    | SendHop(entry: Entry)
    | ConnectSucceeds
    | ConnectFails
    | FailTakenConnect
    | Mark(reason: CloseStatus)
    | CallOnClose(reason: CloseStatus)
    | CallOnFragment(piece: Piece)
    | Reassemble(piece: Piece)
    | DeliverWhole(message: Message)
    | DeliverJoined(message: Message)
    | Tick
    | CheckPong
    | CallOnPong

  /** The closures that wait in the queue. The second section of a tick does
      not: it follows the first. */
  type QueuedTask = t: Task | !t.CheckPong? witness ConnectFails

  /** Where the event loop is: between tasks, or inside `markAsClosed` after its
      first or its second lock section. */
  datatype LoopPoint = Idle | Clearing(reason: CloseStatus) | Failing(reason: CloseStatus, pending: seq<Entry>)

  /** Where a running tick is: past its look at the interval, or past its ping
      and before the section that arms the timer. */
  datatype TickPoint = NoTick | Checking | Arming

  /** Close events in the order of the service thread. */
  datatype CloseEvent =
    | PeerInitiated(code: Option<CloseStatus>)
    | LocalWritten(reason: CloseStatus)
    | SessionEnded(code: Option<CloseStatus>)

  /** Keepalive events: a ping sent by a tick, a tick that found the pong
      missing, a pong, and an assignment of `pingInterval`. */
  datatype Beat = Pinged | TimedOut | PongSeen | Reset

  // The parts of a client. Each part holds fields of the source and, below
  // them, the history that the claims are about.

  /** The connection: is the client still referenced, how far is libwebsockets,
      and the locked boxes `websocket`, `wasConnected` and `connectionError`. */
  datatype Link = Link(
    alive: bool,
    phase: Phase,
    websocket: bool,
    wasConnected: bool,
    connectionError: bool)

  /** The write side: the box `toBeWritten` and the entry a WRITEABLE callback
      has taken out of it. */
  datatype Outbox = Outbox(
    toBeWritten: seq<Entry>,
    inFlight: Option<Entry>,
    accepted: seq<Entry>,        // calls of `send` that reached the queue
    written: seq<Entry>,         // entries whose write succeeded, a close counting as success
    failed: Option<Entry>,       // the entry whose write returned -1
    dropped: seq<Entry>,         // entries removed by `markAsClosed`
    issued: seq<PromiseId>,      // promises handed to `send`
    resolved: seq<Resolution>)   // promises succeeded or failed, in order

  /** The receive side. */
  datatype Inbox = Inbox(
    frameSequence: Option<FrameSequence>,
    received: seq<Piece>,        // fragments of the RECEIVE callbacks
    fragments: seq<Piece>,       // fragments given to `onFragment`
    assembled: seq<Piece>,       // fragments processed by the reassembly task
    delivered: seq<Message>,     // messages given to `onText` or `onBinary`
    refused: seq<Message>)       // text messages that did not decode

  /** The boxes `lwsCloseStatus` and `waitingLwsCloseStatus`. */
  datatype Ending = Ending(
    status: Option<CloseStatus>,
    waiting: Option<CloseStatus>,
    closings: seq<CloseEvent>,   // close events of the service thread
    calls: seq<CloseStatus>)     // calls of `onClose`

  /** The connect promise: still in its box `onConnect`; its connect call not
      made yet; its timeout not run yet. */
  datatype Opening = Opening(
    onConnect: bool,
    pending: bool,
    timer: bool,
    resolutions: seq<bool>)

  /** The keepalive: `armed` are the timers that have not fired or been
      cancelled, `scheduled` the one in the box of that name. */
  datatype Keepalive = Keepalive(
    interval: Option<nat>,
    waitingForPong: bool,
    armed: set<nat>,
    scheduled: Option<nat>,
    nextTimer: nat,
    tick: TickPoint,
    beats: seq<Beat>)

  datatype Client = Client(
    config: Config,
    link: Link,
    out: Outbox,
    inbox: Inbox,
    ending: Ending,
    opening: Opening,
    ping: Keepalive,
    tasks: seq<QueuedTask>,
    loop: LoopPoint)

  // ---- State getters ----

  predicate IsClosedForever(s: Client) {
    s.link.connectionError || s.ending.status.Some?
  }

  predicate IsClosed(s: Client) {
    !s.link.websocket || !s.link.wasConnected || IsClosedForever(s)
  }

  // ---- The write queue ----

  function Resolve(o: Outbox, p: Option<PromiseId>, outcome: Outcome): (r: Outbox) {
    if p.None? then o else o.(resolved := o.resolved + [Resolution(p.value, outcome)])
  }

  function Accept(o: Outbox, e: Entry, limit: FrameLimit): (r: Outbox) {
    o.(toBeWritten := o.toBeWritten + Frames(e, limit), accepted := o.accepted + [e])
  }

  function Failures(es: seq<Entry>): (rs: seq<Resolution>) {
    if es == [] then []
    else (if es[0].promise.None? then [] else [Resolution(es[0].promise.value, Failed(WebsocketClosed))])
         + Failures(es[1..])
  }

  /** The promise of a call counts as issued from the call on. */
  function Issue(o: Outbox, e: Entry): (r: Outbox) {
    o.(issued := o.issued + Optional(e.promise))
  }

  /** A call that finds the connection gone only at its third test. */
  predicate FoundLate(s: Client, e: Entry) {
    s.link.wasConnected && !s.link.websocket && e.promise.Some? && s.config.late(e.promise.value)
  }

  /** The write side after `send` on the event loop, starting from `o`. */
  function SendInto(s: Client, o: Outbox, e: Entry): (r: Outbox) {
    if IsClosedForever(s) || FoundLate(s, e) then Resolve(o, e.promise, Failed(WebsocketClosed))
    else if IsClosed(s) then Resolve(o, e.promise, Failed(WebsocketNotYetOpen))
    else Accept(o, e, s.config.maxFrameSize)
  }

  function Send(s: Client, e: Entry): (r: Client) {
    s.(out := SendInto(s, s.out, e))
  }

  function CloseEntry(reason: CloseStatus): (e: Entry) {
    Entry([], Close(reason), true, None)
  }

  const PING := Entry([], Ping, true, None)

  /** The write side after `close(reason:)` on the event loop. */
  function CloseOut(s: Client, reason: CloseStatus): (r: Outbox) {
    if IsClosedForever(s) then s.out else SendInto(s, s.out, CloseEntry(reason))
  }

  function RequestClose(s: Client, reason: CloseStatus): (r: Client) {
    s.(out := CloseOut(s, reason))
  }

  // ---- The event loop ----

  function Execute(s: Client, t: QueuedTask): (r: Client) {
    s.(tasks := s.tasks + [t])
  }

  /** `fetchOnConnect` followed by resolving what it took. */
  function TakeConnect(c: Opening, success: bool): (r: Opening) {
    if c.onConnect then c.(onConnect := false, resolutions := c.resolutions + [success]) else c
  }

  /** The three sections of `markAsClosed`: set the status; take the queue; fail
      what was in it and schedule `onClose`. */
  function SetClosed(s: Client, reason: CloseStatus): (r: Client) {
    if IsClosedForever(s) then s
    else s.(ending := s.ending.(status := Some(reason)), loop := Clearing(reason))
  }

  function Drop(o: Outbox): (r: Outbox) {
    o.(toBeWritten := [], dropped := o.dropped + o.toBeWritten)
  }

  function ClearWrites(s: Client): (r: Client)
    requires s.loop.Clearing?
  {
    s.(out := Drop(s.out), loop := Failing(s.loop.reason, s.out.toBeWritten))
  }

  function FailAll(o: Outbox, es: seq<Entry>): (r: Outbox) {
    o.(resolved := o.resolved + Failures(es))
  }

  function FailWrites(s: Client): (r: Client)
    requires s.loop.Failing?
  {
    s.(out := FailAll(s.out, s.loop.pending), tasks := s.tasks + [CallOnClose(s.loop.reason)], loop := Idle)
  }

  function MarkAsClosed(s: Client, reason: CloseStatus): (r: Client) {
    if IsClosedForever(s) then s else FailWrites(ClearWrites(SetClosed(s, reason)))
  }

  /** The three sections of `pingAndScheduleNextTimeoutTask`: look at the
      interval; look for the pong, then close or ping; arm the next timer. */
  function StartTick(k: Keepalive): (r: Keepalive) {
    if k.interval.None? then k else k.(tick := Checking)
  }

  function Check(s: Client): (r: Client) {
    if s.ping.waitingForPong then s.(ping := TimeOut(s.ping), out := CloseOut(s, ABNORMAL_CLOSE))
    else s.(ping := SendPing(s.ping), out := SendInto(s, s.out, PING))
  }

  function TimeOut(k: Keepalive): (r: Keepalive) {
    k.(tick := NoTick, waitingForPong := false, beats := k.beats + [TimedOut])
  }

  function SendPing(k: Keepalive): (r: Keepalive) {
    k.(tick := Arming, waitingForPong := true, beats := k.beats + [Pinged])
  }

  function ArmTimer(k: Keepalive): (r: Keepalive) {
    k.(tick := NoTick,
       armed := k.armed + {k.nextTimer},
       scheduled := Some(k.nextTimer),
       nextTimer := k.nextTimer + 1)
  }

  /** The two sections of the setter of `pingInterval`: assign the interval;
      cancel the timer, forget the ping and schedule a tick. The events of one
      call are not paired here, so the claims hold for more runs than the
      setter produces. */
  function Rearm(k: Keepalive): (r: Keepalive) {
    k.(armed := if k.scheduled.Some? then k.armed - {k.scheduled.value} else k.armed,
       waitingForPong := false,
       beats := k.beats + [Reset])
  }

  function Restart(s: Client, on: bool): (r: Client) {
    s.(ping := Rearm(s.ping), tasks := s.tasks + (if on then [Tick] else []))
  }

  predicate Decodes(s: Client, m: Message) {
    m.binary || s.config.decodes(m.data)
  }

  /** The second task of a RECEIVE callback. */
  function ReassembleTask(s: Client, p: Piece): (r: Client) {
    var step := Assemble(s.inbox.frameSequence, p, s.config.maxMessageSize);
    var i := s.inbox.(frameSequence := step.held, assembled := s.inbox.assembled + [p]);
    match step.action
    case Nothing => s.(inbox := i)
    case Whole(m) =>
      if Decodes(s, m) then s.(inbox := i, tasks := s.tasks + [DeliverWhole(m)])
      else s.(inbox := i.(refused := i.refused + [m]), out := CloseOut(s, INVALID_PAYLOAD))
    case Joined(m) => s.(inbox := i, tasks := s.tasks + [DeliverJoined(m)])
    case TooLarge => s.(inbox := i, out := CloseOut(s, MESSAGE_TOO_LARGE))
  }

  function Deliver(s: Client, m: Message): (r: Client) {
    s.(inbox := s.inbox.(delivered := s.inbox.delivered + [m]))
  }

  function DeliverJoinedTask(s: Client, m: Message): (r: Client) {
    if Decodes(s, m) then Deliver(s, m)
    else s.(inbox := s.inbox.(refused := s.inbox.refused + [m]), out := CloseOut(s, INVALID_PAYLOAD))
  }

  function Perform(s: Client, t: Task): (r: Client) {
    match t
    case SendHop(e) => Send(s, e)
    case ConnectSucceeds => s.(opening := TakeConnect(s.opening, true))
    case ConnectFails => s.(opening := TakeConnect(s.opening, false))
    case FailTakenConnect => s.(opening := s.opening.(resolutions := s.opening.resolutions + [false]))
    case Mark(reason) => SetClosed(s, reason)
    case CallOnClose(reason) => s.(ending := s.ending.(calls := s.ending.calls + [reason]))
    case CallOnFragment(p) => s.(inbox := s.inbox.(fragments := s.inbox.fragments + [p]))
    case Reassemble(p) => ReassembleTask(s, p)
    case DeliverWhole(m) => Deliver(s, m)
    case DeliverJoined(m) => DeliverJoinedTask(s, m)
    case Tick => s.(ping := StartTick(s.ping))
    case CheckPong => Check(s)
    case CallOnPong => s
  }

  function RunTask(s: Client): (r: Client)
    requires s.tasks != []
  {
    Perform(s.(tasks := s.tasks[1..]), s.tasks[0])
  }

  // ---- The service thread ----

  /** The closure that calls `lws_client_connect_via_info`. */
  function Connect(s: Client, success: bool): (r: Client) {
    var c := s.opening.(pending := false);
    if success then s.(opening := c, link := s.link.(websocket := true, phase := Connecting))
    else s.(opening := c, link := s.link.(phase := Gone), tasks := s.tasks + [ConnectFails])
  }

  function OnEstablished(s: Client): (r: Client) {
    s.(link := s.link.(phase := Established, wasConnected := true), tasks := s.tasks + [ConnectSucceeds])
  }

  function OnConnectionError(s: Client): (r: Client) {
    s.(link := s.link.(phase := if s.link.phase.Unborn? then Unborn else Ended, connectionError := true),
       tasks := s.tasks + [ConnectFails])
  }

  function OnReceive(s: Client, p: Piece): (r: Client) {
    s.(inbox := s.inbox.(received := s.inbox.received + [p]),
       tasks := s.tasks + [CallOnFragment(p), Reassemble(p)])
  }

  /** WRITEABLE up to the removal of the first entry. */
  function PopWrite(o: Outbox): (r: Outbox) {
    if o.toBeWritten == [] then o
    else o.(inFlight := Some(o.toBeWritten[0]), toBeWritten := o.toBeWritten[1..])
  }

  /** The write side after the write call; a close entry counts as written. */
  function Written(o: Outbox, e: Entry): (r: Outbox) {
    Resolve(o, e.promise, Succeeded).(inFlight := None, written := o.written + [e])
  }

  function NotWritten(o: Outbox, e: Entry): (r: Outbox) {
    Resolve(o, e.promise, Failed(WriteFailed)).(inFlight := None, failed := Some(e))
  }

  /** The rest of WRITEABLE; `success` is the result of the write call, which
      a close entry does not look at. A nonzero return closes the connection. */
  function FinishWrite(s: Client, success: bool): (r: Client)
    requires s.out.inFlight.Some?
  {
    var e := s.out.inFlight.value;
    match e.opcode
    case Close(reason) =>
      s.(out := Written(s.out, e),
         link := s.link.(phase := Closing),
         ending := s.ending.(waiting := Some(reason), closings := s.ending.closings + [LocalWritten(reason)]))
    case _ =>
      if success then s.(out := Written(s.out, e))
      else s.(out := NotWritten(s.out, e), link := s.link.(phase := Closing))
  }

  function OnPeerClose(s: Client, code: Option<CloseStatus>): (r: Client) {
    var status := if code.Some? then code.value else NO_STATUS;
    s.(ending := s.ending.(closings := s.ending.closings + [PeerInitiated(code)]), tasks := s.tasks + [Mark(status)])
  }

  function OnClosed(s: Client, code: Option<CloseStatus>): (r: Client) {
    var status := if s.ending.waiting.Some? then s.ending.waiting.value
                  else if code.Some? then code.value
                  else NO_STATUS;
    s.(link := s.link.(phase := Ended),
       ending := s.ending.(closings := s.ending.closings + [SessionEnded(code)]),
       tasks := s.tasks + [Mark(status)])
  }

  function OnPong(s: Client): (r: Client) {
    s.(ping := s.ping.(waitingForPong := false, beats := s.ping.beats + [PongSeen]), tasks := s.tasks + [CallOnPong])
  }

  function OnDestroyed(s: Client): (r: Client) {
    s.(link := s.link.(phase := Gone, websocket := false))
  }

  /** `deinit`: the connect promise is failed, then the client is closed. */
  function Abandon(s: Client): (r: Client) {
    s.(link := s.link.(alive := false),
       opening := s.opening.(onConnect := false),
       tasks := s.tasks + (if s.opening.onConnect then [FailTakenConnect] else []))
  }

  function Deinit(s: Client): (r: Client) {
    MarkAsClosed(Abandon(s), GOING_AWAY)
  }

  // ---- Steps ----

  datatype Event =
    // service thread
    | ConnectCall(success: bool)
    | EstablishedCb
    | ConnectionErrorCb
    | ReceiveCb(piece: Piece)
    | WriteablePop
    | WriteableFinish(success: bool)
    | PeerCloseCb(code: Option<CloseStatus>)
    | ClosedCb(code: Option<CloseStatus>)
    | PongCb
    | DestroyCb
    // event loop
    | LoopTask
    | LoopClear
    | LoopFail
    | LoopCheck
    | LoopArm
    | ConnectTimeout
    | PingTimer(timer: nat)
    // application
    | SendFromElsewhere(entry: Entry)
    | SendOnLoop(entry: Entry)
    | CloseFromElsewhere(reason: CloseStatus)
    | CloseOnLoop(reason: CloseStatus)
    | SetPingInterval(interval: Option<nat>)
    | RestartPing(on: bool)
    | Release

  /** A caller hands over each promise once. */
  predicate FreshPromise(s: Client, e: Entry) {
    e.promise.Some? ==> e.promise.value !in s.out.issued
  }

  /** No WRITEABLE callback is between taking an entry and writing it. */
  predicate ServiceFree(s: Client) {
    s.out.inFlight.None?
  }

  /** The event loop is between tasks. */
  predicate LoopFree(s: Client) {
    s.loop.Idle? && s.ping.tick.NoTick?
  }

  /** The last reference can go while no task or callback is running and the
      closure of the connect call, which holds one, has run. Other closures
      that hold a reference are allowed to outlive it here, so the claims hold
      for more runs than Swift produces. */
  predicate CanRelease(s: Client) {
    s.link.alive && LoopFree(s) && ServiceFree(s) && !s.opening.pending
  }

  predicate Enabled(s: Client, ev: Event) {
    match ev
    case ConnectCall(success) => s.opening.pending && (success ==> !s.link.connectionError)
    case EstablishedCb => s.link.phase.Connecting?
    case ConnectionErrorCb => s.link.phase.Connecting? || (s.link.phase.Unborn? && s.opening.pending)
    case ReceiveCb(_) => s.link.phase.Established? && ServiceFree(s)
    case WriteablePop => s.link.phase.Established? && ServiceFree(s)
    case WriteableFinish(_) => !ServiceFree(s)
    case PeerCloseCb(_) => s.link.phase.Established? && ServiceFree(s)
    case ClosedCb(_) => (s.link.phase.Established? || s.link.phase.Closing?) && ServiceFree(s)
    case PongCb => s.link.phase.Established? && ServiceFree(s)
    case DestroyCb => s.link.phase.Ended? || s.link.phase.Connecting?
    case LoopTask => LoopFree(s) && s.tasks != []
    case LoopClear => s.loop.Clearing?
    case LoopFail => s.loop.Failing?
    case LoopCheck => s.loop.Idle? && s.ping.tick.Checking?
    case LoopArm => s.loop.Idle? && s.ping.tick.Arming?
    case ConnectTimeout => LoopFree(s) && s.opening.timer
    case PingTimer(timer) => LoopFree(s) && timer in s.ping.armed
    case SendFromElsewhere(e) => s.link.alive && FreshPromise(s, e)
    case SendOnLoop(e) => s.link.alive && LoopFree(s) && FreshPromise(s, e)
    case CloseFromElsewhere(_) => s.link.alive
    case CloseOnLoop(_) => s.link.alive && LoopFree(s)
    case SetPingInterval(_) => s.link.alive
    case RestartPing(_) => s.link.alive
    case Release => CanRelease(s)
  }

  predicate IsCallback(ev: Event) {
    ev.EstablishedCb? || ev.ConnectionErrorCb? || ev.ReceiveCb? || ev.WriteablePop? ||
    ev.PeerCloseCb? || ev.ClosedCb? || ev.PongCb? || ev.DestroyCb?
  }

  /** A callback that finds the closed marker returns -1 at once. */
  function Refused(link: Link, ev: Event): (r: Link) {
    match ev
    case ClosedCb(_) => link.(phase := Ended)
    case ConnectionErrorCb => link.(phase := Ended)
    case DestroyCb => link.(phase := Gone)
    case _ => link.(phase := Closing)
  }

  function Callback(s: Client, ev: Event): (r: Client) {
    match ev
    case EstablishedCb => OnEstablished(s)
    case ConnectionErrorCb => OnConnectionError(s)
    case ReceiveCb(p) => OnReceive(s, p)
    case WriteablePop => s.(out := PopWrite(s.out))
    case PeerCloseCb(code) => OnPeerClose(s, code)
    case ClosedCb(code) => OnClosed(s, code)
    case PongCb => OnPong(s)
    case DestroyCb => OnDestroyed(s)
    case _ => s
  }

  function Apply(s: Client, ev: Event): (r: Client)
    requires Enabled(s, ev)
  {
    if IsCallback(ev) then
      if s.link.alive then Callback(s, ev) else s.(link := Refused(s.link, ev))
    else
      match ev
      case ConnectCall(success) => Connect(s, success)
      case WriteableFinish(success) => FinishWrite(s, success)
      case LoopTask => RunTask(s)
      case LoopClear => ClearWrites(s)
      case LoopFail => FailWrites(s)
      case ConnectTimeout => s.(opening := TakeConnect(s.opening.(timer := false), false))
      case LoopCheck => Check(s)
      case LoopArm => s.(ping := ArmTimer(s.ping))
      case PingTimer(timer) => s.(ping := StartTick(s.ping.(armed := s.ping.armed - {timer})))
      case SendFromElsewhere(e) => s.(out := Issue(s.out, e), tasks := s.tasks + [SendHop(e)])
      case SendOnLoop(e) => s.(out := SendInto(s, Issue(s.out, e), e))
      case CloseFromElsewhere(reason) => if IsClosedForever(s) then s else Execute(s, SendHop(CloseEntry(reason)))
      case CloseOnLoop(reason) => RequestClose(s, reason)
      case SetPingInterval(interval) => s.(ping := s.ping.(interval := interval))
      case RestartPing(on) => Restart(s, on)
      case Release => Deinit(s)
      case _ => s
  }

  /** A step that is not enabled does nothing, so every list of events is a run. */
  function Next(s: Client, ev: Event): (r: Client) {
    if Enabled(s, ev) then Apply(s, ev) else s
  }

  function Steps(s: Client, evs: seq<Event>): (r: Client)
    decreases |evs|
  {
    if evs == [] then s else Next(Steps(s, evs[..|evs| - 1]), evs[|evs| - 1])
  }

  /** The client after `init`; `contextCreated` says whether a context was
      found. Without one the client only fails its connect promise. */
  function Initial(config: Config, contextCreated: bool): (s: Client) {
    Client(config,
           Link(true, Unborn, false, false, false),
           Outbox([], None, [], [], None, [], [], []),
           Inbox(None, [], [], [], [], []),
           Ending(None, None, [], []),
           Opening(true, contextCreated, contextCreated, []),
           Keepalive(None, false, {}, None, 0, NoTick, []),
           if contextCreated then [] else [ConnectFails],
           Idle)
  }

  /** The states some run from a fresh client leads to. */
  ghost predicate Reachable(s: Client) {
    exists config: Config, contextCreated: bool, evs: seq<Event> ::
      s == Steps(Initial(config, contextCreated), evs)
  }

  lemma StepsOne(s: Client, evs: seq<Event>, ev: Event)
    ensures Steps(s, evs + [ev]) == Next(Steps(s, evs), ev)
  {
    assert (evs + [ev])[..|evs + [ev]| - 1] == evs;
  }

  lemma ReachableStep(s: Client, ev: Event)
    requires Reachable(s)
    ensures Reachable(Next(s, ev))
  {
    var config: Config, contextCreated: bool, evs: seq<Event> :|
      s == Steps(Initial(config, contextCreated), evs);
    StepsOne(Initial(config, contextCreated), evs, ev);
  }

  lemma {:induction false} ReachableSteps(s: Client, evs: seq<Event>)
    requires Reachable(s)
    ensures Reachable(Steps(s, evs))
    decreases |evs|
  {
    if evs != [] {
      ReachableSteps(s, evs[..|evs| - 1]);
      ReachableStep(Steps(s, evs[..|evs| - 1]), evs[|evs| - 1]);
    }
  }

  // ---- Selections from the task queue ----

  /** The tasks of one kind, in order, as what they carry. */
  function Select<T>(tasks: seq<Task>, kind: Task -> Option<T>): (r: seq<T>) {
    if tasks == [] then [] else Optional(kind(tasks[0])) + Select(tasks[1..], kind)
  }

  lemma {:induction false} SelectAppend<T>(a: seq<Task>, b: seq<Task>, kind: Task -> Option<T>)
    ensures Select(a + b, kind) == Select(a, kind) + Select(b, kind)
  {
    if a == [] {
      assert a + b == b;
    } else {
      assert (a + b)[1..] == a[1..] + b;
      SelectAppend(a[1..], b, kind);
    }
  }

  lemma SelectOne<T>(a: seq<Task>, t: Task, kind: Task -> Option<T>)
    ensures Select(a + [t], kind) == Select(a, kind) + Optional(kind(t))
  {
    SelectAppend(a, [t], kind);
    assert Select([t], kind) == Optional(kind(t)) + Select([t][1..], kind);
  }

  lemma {:induction false} NoneSelected<T>(tasks: seq<Task>, more: seq<Task>, kind: Task -> Option<T>)
    requires forall i :: 0 <= i < |more| ==> kind(more[i]).None?
    ensures Select(tasks + more, kind) == Select(tasks, kind)
    decreases more
  {
    if more == [] {
      assert tasks + more == tasks;
    } else {
      assert tasks + more == (tasks + [more[0]]) + more[1..];
      NoneSelected(tasks + [more[0]], more[1..], kind);
      SelectOne(tasks, more[0], kind);
    }
  }

  lemma FirstSelected<T>(t: Task, rest: seq<Task>, kind: Task -> Option<T>)
    ensures Select([t] + rest, kind) == Optional(kind(t)) + Select(rest, kind)
  {
    assert ([t] + rest)[1..] == rest;
  }
}
