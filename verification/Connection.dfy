/** What every state knows about the connection and the write queue. The other
    parts build on these two invariants. */
module Connection {
  import opened Protocol
  import opened ClientState

  predicate AfterUse(link: Link) {
    link.phase.Closing? || link.phase.Ended? || link.phase.Gone?
  }

  // ---- The connection ----

  /** The flags agree with the phase of the connection. */
  predicate LinkInv(s: Client) {
    && (s.opening.pending ==> s.link.phase.Unborn? && s.link.alive)
    && (s.link.connectionError ==> !s.link.wasConnected && (s.link.phase.Unborn? || AfterUse(s.link)))
    && (s.link.wasConnected ==> s.link.phase.Established? || AfterUse(s.link))
    && (s.link.phase.Established? ==> s.link.wasConnected)
    && (s.link.phase.Closing? && s.link.alive ==> s.link.wasConnected)
    && (s.out.inFlight.Some? ==> s.link.phase.Established?)
  }

  /** What a task on the event loop may do to the write side: nothing, or one
      call of `send`; calls by the library itself are control frames without a
      promise. */
  lemma PerformOut(s: Client, t: Task) returns (sent: Option<Entry>)
    ensures Perform(s, t).out == if sent.None? then s.out else SendInto(s, s.out, sent.value)
    ensures Perform(s, t).link == s.link && Perform(s, t).config == s.config
    ensures Perform(s, t).opening.pending == s.opening.pending
    ensures t.SendHop? ==> sent == Some(t.entry)
    ensures !t.SendHop? && sent.Some? ==> sent.value.promise.None? && !sent.value.opcode.IsData()
  {
    sent := None;
    if t.SendHop? {
      sent := Some(t.entry);
    } else if Perform(s, t).out != s.out {
      match t
      case Reassemble(p) =>
        var undecoded := Perform(s, t).out == CloseOut(s, INVALID_PAYLOAD);
        sent := Some(CloseEntry(if undecoded then INVALID_PAYLOAD else MESSAGE_TOO_LARGE));
      case DeliverJoined(m) => sent := Some(CloseEntry(INVALID_PAYLOAD));
      case CheckPong => sent := Some(if s.ping.waitingForPong then CloseEntry(ABNORMAL_CLOSE) else PING);
    }
  }

  /** The steps that run client code on the event loop. */
  predicate OnLoop(ev: Event) {
    ev.LoopTask? || ev.LoopCheck? || ev.PingTimer? || ev.SendOnLoop? || ev.CloseOnLoop?
  }

  /** Such a step is a task performed on a state that differs only in the task
      queue, the armed timers and the issued promises. */
  lemma LoopStep(s: Client, ev: Event) returns (before: Client, t: Task)
    requires Enabled(s, ev) && OnLoop(ev)
    ensures Next(s, ev) == Perform(before, t) && s.loop.Idle?
    ensures ev.LoopTask? ==> s.tasks == [t] + before.tasks && before == s.(tasks := before.tasks)
    ensures ev.LoopTask? || ev.PingTimer? || ev.SendOnLoop? || ev.CloseOnLoop? ==> LoopFree(s)
    ensures ev.LoopCheck? ==> t.CheckPong? && before == s
    ensures ev.PingTimer? ==> t.Tick? && before == s.(ping := s.ping.(armed := s.ping.armed - {ev.timer}))
    ensures ev.SendOnLoop? ==> t == SendHop(ev.entry) && before == s.(out := Issue(s.out, ev.entry))
    ensures ev.CloseOnLoop? ==> t == SendHop(CloseEntry(ev.reason)) && before == s
  {
    match ev
    case LoopTask => before, t := s.(tasks := s.tasks[1..]), s.tasks[0];
    case LoopCheck => before, t := s, CheckPong;
    case PingTimer(timer) => before, t := s.(ping := s.ping.(armed := s.ping.armed - {timer})), Tick;
    case SendOnLoop(e) => before, t := s.(out := Issue(s.out, e)), SendHop(e);
    case CloseOnLoop(reason) => before, t := s, SendHop(CloseEntry(reason));
  }

  /** Which tasks a step other than those may append. */
  predicate Expected(ev: Event, t: Task) {
    match t
    case SendHop(_) => ev.SendFromElsewhere? || ev.CloseFromElsewhere?
    case Mark(_) => ev.PeerCloseCb? || ev.ClosedCb?
    case CallOnClose(_) => ev.LoopFail? || ev.Release?
    case CallOnFragment(_) => ev.ReceiveCb?
    case Reassemble(_) => ev.ReceiveCb?
    case Tick => ev.RestartPing?
    case FailTakenConnect => ev.Release?
    case ConnectSucceeds => ev.EstablishedCb?
    case DeliverWhole(_) => false
    case DeliverJoined(_) => false
    case CheckPong => false
    case _ => true
  }

  lemma CallbackTasks(s: Client, ev: Event) returns (more: seq<Task>)
    requires Enabled(s, ev) && IsCallback(ev)
    ensures Next(s, ev).tasks == s.tasks + more
    ensures forall i :: 0 <= i < |more| ==> Expected(ev, more[i])
  {
    more := [];
    if s.link.alive {
      match ev {
        case EstablishedCb => more := [ConnectSucceeds];
        case ConnectionErrorCb => more := [ConnectFails];
        case ReceiveCb(p) => more := [CallOnFragment(p), Reassemble(p)];
        case PeerCloseCb(_) => more := [Next(s, ev).tasks[|s.tasks|]];
        case ClosedCb(_) => more := [Next(s, ev).tasks[|s.tasks|]];
        case PongCb => more := [CallOnPong];
        case _ =>
      }
    }
  }

  lemma MarkingTasks(s: Client, ev: Event) returns (more: seq<Task>)
    requires Enabled(s, ev) && (ev.LoopFail? || ev.Release?)
    ensures Next(s, ev).tasks == s.tasks + more
    ensures forall i :: 0 <= i < |more| ==> Expected(ev, more[i])
  {
    more := Next(s, ev).tasks[|s.tasks|..];
  }

  /** What such a step appends to the task queue. */
  lemma NewTasks(s: Client, ev: Event) returns (more: seq<Task>)
    requires Enabled(s, ev) && !OnLoop(ev)
    ensures Next(s, ev).tasks == s.tasks + more
    ensures forall i :: 0 <= i < |more| ==> Expected(ev, more[i])
  {
    if IsCallback(ev) {
      more := CallbackTasks(s, ev);
    } else if ev.LoopFail? || ev.Release? {
      more := MarkingTasks(s, ev);
    } else {
      more := Next(s, ev).tasks[|s.tasks|..];
    }
  }

  /** The steps that are neither tasks nor callbacks nor part of a write or a
      close. */
  predicate Aside(ev: Event) {
    ev.ConnectCall? || ev.ConnectTimeout? || ev.LoopArm? || ev.SetPingInterval? || ev.RestartPing?
    || ev.SendFromElsewhere? || ev.CloseFromElsewhere?
  }

  lemma AsideFrame(s: Client, ev: Event)
    requires Enabled(s, ev) && Aside(ev)
    ensures var r := Next(s, ev);
            && r.out == s.out.(issued := r.out.issued)
            && r.inbox == s.inbox && r.ending == s.ending && r.loop == s.loop && r.config == s.config
            && (!ev.ConnectCall? ==> r.link == s.link && r.opening.pending == s.opening.pending)
  {
  }

  lemma LinkCallback(s: Client, ev: Event)
    requires LinkInv(s) && Enabled(s, ev) && IsCallback(ev)
    ensures LinkInv(Next(s, ev))
  {
  }

  lemma LinkOther(s: Client, ev: Event)
    requires LinkInv(s) && Enabled(s, ev) && !OnLoop(ev) && !IsCallback(ev) && (!Aside(ev) || ev.ConnectCall?)
    ensures LinkInv(Next(s, ev))
  {
  }

  lemma LinkStep(s: Client, ev: Event)
    requires LinkInv(s)
    ensures LinkInv(Next(s, ev))
  {
    if !Enabled(s, ev) {
    } else if OnLoop(ev) {
      var before, t := LoopStep(s, ev);
      var _ := PerformOut(before, t);
    } else if IsCallback(ev) {
      LinkCallback(s, ev);
    } else if Aside(ev) && !ev.ConnectCall? {
      AsideFrame(s, ev);
    } else {
      LinkOther(s, ev);
    }
  }

  // ---- The write queue ----

  /** No frame can be written any more. */
  predicate Shut(s: Client) {
    s.out.inFlight.None? && AfterUse(s.link)
  }

  /** How the queue, the close status and the position inside `markAsClosed`
      belong together. */
  predicate CloseInv(o: Outbox, status: Option<CloseStatus>, loop: LoopPoint) {
    match loop
    case Idle => if status.None? then o.dropped == [] else o.toBeWritten == []
    case Clearing(reason) => status == Some(reason) && o.dropped == []
    case Failing(reason, pending) => status == Some(reason) && o.toBeWritten == [] && o.dropped == pending
  }

  /** A client that never connected has queued nothing. */
  predicate UnusedInv(link: Link, o: Outbox) {
    !link.wasConnected ==> o.accepted == [] && o.toBeWritten == []
  }

  /** A written close and a failed write are the last things on the wire. */
  predicate LastWriteInv(s: Client) {
    && (s.out.failed.Some? ==> Shut(s) && !s.out.failed.value.opcode.Close?)
    && forall i :: 0 <= i < |s.out.written| && s.out.written[i].opcode.Close? ==>
         i == |s.out.written| - 1 && Shut(s) && s.out.failed.None?
  }

  predicate QueueInv(s: Client) {
    CloseInv(s.out, s.ending.status, s.loop) && UnusedInv(s.link, s.out) && LastWriteInv(s)
  }

  lemma QueuePerform(s: Client, t: Task)
    requires LinkInv(s) && QueueInv(s) && s.loop.Idle?
    ensures QueueInv(Perform(s, t))
  {
    var _ := PerformOut(s, t);
  }

  lemma QueueCallback(s: Client, ev: Event)
    requires LinkInv(s) && QueueInv(s) && Enabled(s, ev) && IsCallback(ev)
    ensures QueueInv(Next(s, ev))
  {
  }

  lemma QueueFinish(s: Client, success: bool)
    requires LinkInv(s) && QueueInv(s) && s.out.inFlight.Some?
    ensures QueueInv(FinishWrite(s, success))
  {
  }

  lemma QueueMarking(s: Client, ev: Event)
    requires LinkInv(s) && QueueInv(s) && Enabled(s, ev) && (ev.LoopClear? || ev.LoopFail? || ev.Release?)
    ensures QueueInv(Next(s, ev))
  {
  }

  lemma QueueAside(s: Client, ev: Event)
    requires LinkInv(s) && QueueInv(s) && Enabled(s, ev) && Aside(ev)
    ensures QueueInv(Next(s, ev))
  {
    AsideFrame(s, ev);
  }

  lemma QueueStep(s: Client, ev: Event)
    requires LinkInv(s) && QueueInv(s)
    ensures QueueInv(Next(s, ev))
  {
    if !Enabled(s, ev) {
    } else if OnLoop(ev) {
      var before, t := LoopStep(s, ev);
      QueuePerform(before, t);
    } else if IsCallback(ev) {
      QueueCallback(s, ev);
    } else if ev.WriteableFinish? {
      QueueFinish(s, ev.success);
    } else if ev.LoopClear? || ev.LoopFail? || ev.Release? {
      QueueMarking(s, ev);
    } else {
      QueueAside(s, ev);
    }
  }

  /** Both invariants hold in every reachable state. */
  lemma {:induction false} BaseReachable(config: Config, contextCreated: bool, evs: seq<Event>)
    ensures var s := Steps(Initial(config, contextCreated), evs); LinkInv(s) && QueueInv(s)
    decreases |evs|
  {
    if evs != [] {
      var s := Steps(Initial(config, contextCreated), evs[..|evs| - 1]);
      BaseReachable(config, contextCreated, evs[..|evs| - 1]);
      LinkStep(s, evs[|evs| - 1]);
      QueueStep(s, evs[|evs| - 1]);
    }
  }

  lemma Base(s: Client)
    requires Reachable(s)
    ensures LinkInv(s) && QueueInv(s)
  {
    var config: Config, contextCreated: bool, evs: seq<Event> :|
      s == Steps(Initial(config, contextCreated), evs);
    BaseReachable(config, contextCreated, evs);
  }

  // ---- Accepted calls stay accepted ----

  lemma AcceptedStep(s: Client, ev: Event)
    ensures s.out.accepted <= Next(s, ev).out.accepted
  {
    if Enabled(s, ev) && OnLoop(ev) {
      var before, t := LoopStep(s, ev);
      var _ := PerformOut(before, t);
    }
  }

  lemma {:induction false} AcceptedGrows(s: Client, evs: seq<Event>)
    ensures s.out.accepted <= Steps(s, evs).out.accepted
    decreases |evs|
  {
    if evs != [] {
      AcceptedGrows(s, evs[..|evs| - 1]);
      AcceptedStep(Steps(s, evs[..|evs| - 1]), evs[|evs| - 1]);
    }
  }
}
