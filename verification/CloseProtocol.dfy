/** How a connection ends: the status is set once, the queue is cleared once,
    `onClose` is called once, nothing follows a Close frame, and which of the
    competing close events gives the reason. */
module CloseProtocol {
  import opened Protocol
  import opened Fragmentation
  import opened ClientState
  import opened Connection
  import opened Accounting
  import opened History

  // ---- Set once ----

  lemma StatusStep(s: Client, ev: Event)
    requires s.ending.status.Some?
    ensures Next(s, ev).ending.status == s.ending.status
  {
    if Enabled(s, ev) && OnLoop(ev) {
      var before, t := LoopStep(s, ev);
      assert before.ending == s.ending;
      assert Perform(before, t).ending.status == s.ending.status;
    }
  }

  /** The close status never changes once it is set. */
  lemma {:induction false} CloseStatusIsFinal(s: Client, evs: seq<Event>)
    requires s.ending.status.Some?
    ensures Steps(s, evs).ending.status == s.ending.status
    decreases |evs|
  {
    if evs != [] {
      CloseStatusIsFinal(s, evs[..|evs| - 1]);
      StatusStep(Steps(s, evs[..|evs| - 1]), evs[|evs| - 1]);
    }
  }

  // ---- `onClose` ----

  function AsOnClose(t: Task): (r: Option<CloseStatus>) {
    if t.CallOnClose? then Some(t.reason) else None
  }

  /** `onClose` is scheduled once, with the status, when `markAsClosed` ends. */
  predicate OnCloseInv(s: Client) {
    s.ending.calls + Select(s.tasks, AsOnClose)
    == if s.ending.status.Some? && s.loop.Idle? then [s.ending.status.value] else []
  }

  lemma OnClosePerform(s: Client, t: Task)
    requires s.loop.Idle?
    ensures Select(Perform(s, t).tasks, AsOnClose) == Select(s.tasks, AsOnClose)
    ensures Perform(s, t).ending.calls == s.ending.calls + Optional(AsOnClose(t))
    ensures s.ending.status.Some? || Perform(s, t).ending.status.None? || !Perform(s, t).loop.Idle?
    ensures s.ending.status.Some? ==> Perform(s, t).ending.status == s.ending.status && Perform(s, t).loop.Idle?
  {
    var r := Perform(s, t);
    if r.tasks != s.tasks {
      NoneSelected(s.tasks, [r.tasks[|s.tasks|]], AsOnClose);
    }
  }

  lemma OnCloseLoop(s: Client, ev: Event)
    requires OnCloseInv(s) && Enabled(s, ev) && OnLoop(ev)
    ensures OnCloseInv(Next(s, ev))
  {
    var before, t := LoopStep(s, ev);
    OnClosePerform(before, t);
    if ev.LoopTask? {
      FirstSelected(t, before.tasks, AsOnClose);
    }
  }

  lemma OnCloseMarking(s: Client, ev: Event)
    requires OnCloseInv(s) && QueueInv(s) && Enabled(s, ev) && (ev.LoopFail? || ev.Release?)
    ensures OnCloseInv(Next(s, ev))
  {
    if ev.LoopFail? {
      SelectOne(s.tasks, CallOnClose(s.loop.reason), AsOnClose);
    } else {
      OnCloseRelease(s);
    }
  }

  lemma OnCloseRelease(s: Client)
    requires OnCloseInv(s) && s.loop.Idle?
    ensures OnCloseInv(Deinit(s))
  {
    var more := if s.opening.onConnect then [FailTakenConnect] else [];
    NoneSelected(s.tasks, more, AsOnClose);
    SelectOne(s.tasks + more, CallOnClose(GOING_AWAY), AsOnClose);
  }

  lemma OnCloseSame(s: Client, ev: Event)
    requires QueueInv(s) && Enabled(s, ev) && !OnLoop(ev) && !ev.LoopFail? && !ev.Release?
    ensures var r := Next(s, ev);
            && r.ending.calls == s.ending.calls && r.ending.status == s.ending.status
            && r.loop.Idle? == s.loop.Idle?
  {
  }

  lemma OnCloseStep(s: Client, ev: Event)
    requires OnCloseInv(s) && QueueInv(s)
    ensures OnCloseInv(Next(s, ev))
  {
    if !Enabled(s, ev) {
    } else if OnLoop(ev) {
      OnCloseLoop(s, ev);
    } else if ev.LoopFail? || ev.Release? {
      OnCloseMarking(s, ev);
    } else {
      var more := NewTasks(s, ev);
      NoneSelected(s.tasks, more, AsOnClose);
      OnCloseSame(s, ev);
    }
  }

  // ---- Which reason is reported ----

  /** The reason a close event stands for. */
  function ReasonOf(c: CloseEvent): (r: CloseStatus) {
    match c
    case LocalWritten(reason) => reason
    case PeerInitiated(code) => if code.Some? then code.value else NO_STATUS
    case SessionEnded(code) => if code.Some? then code.value else NO_STATUS
  }

  function AsMark(t: Task): (r: Option<CloseStatus>) {
    if t.Mark? then Some(t.reason) else None
  }

  /** Until the status is set, the first pending mark is for the first close
      event; only a local close is followed by its mark later. */
  predicate MarksInv(s: Client) {
    var marks, events := Select(s.tasks, AsMark), s.ending.closings;
    s.ending.status.None? ==>
      if marks == [] then events == [] || (events[0].LocalWritten? && |events| == 1)
      else events != [] && marks[0] == ReasonOf(events[0])
  }

  predicate ReasonInv(s: Client) {
    var events := s.ending.closings;
    && (events == [] ==> s.ending.waiting.None?)
    && (events != [] ==> s.link.wasConnected)
    && (events != [] && events[0].LocalWritten? ==> Shut(s) && s.ending.waiting == Some(events[0].reason))
    && (s.ending.status.Some? && s.link.alive ==> events != [] && s.ending.status.value == ReasonOf(events[0]))
    && (s.ending.status.Some? && !s.link.alive ==>
          s.ending.status.value == GOING_AWAY || (events != [] && s.ending.status.value == ReasonOf(events[0])))
    && (!s.link.alive ==> IsClosedForever(s))
  }

  lemma MarksPerform(s: Client, t: Task)
    requires s.loop.Idle?
    ensures Select(Perform(s, t).tasks, AsMark) == Select(s.tasks, AsMark)
    ensures Perform(s, t).ending.closings == s.ending.closings && Perform(s, t).ending.waiting == s.ending.waiting
    ensures t.Mark? && !IsClosedForever(s) ==> Perform(s, t).ending.status == Some(t.reason)
    ensures !t.Mark? || IsClosedForever(s) ==> Perform(s, t).ending.status == s.ending.status
  {
    var r := Perform(s, t);
    if r.tasks != s.tasks {
      NoneSelected(s.tasks, [r.tasks[|s.tasks|]], AsMark);
    }
  }

  lemma ReasonLoop(s: Client, ev: Event)
    requires LinkInv(s) && MarksInv(s) && ReasonInv(s) && Enabled(s, ev) && OnLoop(ev)
    ensures MarksInv(Next(s, ev)) && ReasonInv(Next(s, ev))
  {
    var before, t := LoopStep(s, ev);
    MarksPerform(before, t);
    var _ := PerformOut(before, t);
    if ev.LoopTask? {
      FirstSelected(t, before.tasks, AsMark);
      assert t.Mark? ==> Select(s.tasks, AsMark)[0] == t.reason;
    }
  }

  lemma MarksClosing(s: Client, ev: Event)
    requires MarksInv(s) && ReasonInv(s) && Enabled(s, ev) && s.link.alive && (ev.PeerCloseCb? || ev.ClosedCb?)
    ensures MarksInv(Next(s, ev))
  {
    SelectOne(s.tasks, Next(s, ev).tasks[|s.tasks|], AsMark);
  }

  /** A step that adds neither a mark nor a close event. */
  lemma MarksFrame(s: Client, r: Client, more: seq<Task>)
    requires MarksInv(s) && r.ending == s.ending && r.tasks == s.tasks + more
    requires forall i :: 0 <= i < |more| ==> AsMark(more[i]).None?
    ensures MarksInv(r)
  {
    NoneSelected(s.tasks, more, AsMark);
  }

  lemma MarksCallback(s: Client, ev: Event)
    requires MarksInv(s) && ReasonInv(s) && Enabled(s, ev) && IsCallback(ev)
    ensures MarksInv(Next(s, ev))
  {
    if s.link.alive && (ev.PeerCloseCb? || ev.ClosedCb?) {
      MarksClosing(s, ev);
    } else {
      var more := if s.link.alive then Next(s, ev).tasks[|s.tasks|..] else [];
      MarksFrame(s, Next(s, ev), more);
    }
  }

  lemma ReasonCallback(s: Client, ev: Event)
    requires LinkInv(s) && ReasonInv(s) && Enabled(s, ev) && IsCallback(ev)
    ensures ReasonInv(Next(s, ev))
  {
  }

  lemma ReasonOther(s: Client, ev: Event)
    requires LinkInv(s) && QueueInv(s) && ReasonInv(s) && Enabled(s, ev) && !OnLoop(ev) && !IsCallback(ev)
    ensures ReasonInv(Next(s, ev))
  {
  }

  lemma MarksOther(s: Client, ev: Event)
    requires LinkInv(s) && ReasonInv(s) && MarksInv(s) && Enabled(s, ev) && !OnLoop(ev) && !IsCallback(ev)
    ensures MarksInv(Next(s, ev))
  {
    var more := NewTasks(s, ev);
    NoneSelected(s.tasks, more, AsMark);
  }

  lemma ReasonStep(s: Client, ev: Event)
    requires LinkInv(s) && QueueInv(s) && MarksInv(s) && ReasonInv(s)
    ensures MarksInv(Next(s, ev)) && ReasonInv(Next(s, ev))
  {
    if !Enabled(s, ev) {
    } else if OnLoop(ev) {
      ReasonLoop(s, ev);
    } else if IsCallback(ev) {
      MarksCallback(s, ev);
      ReasonCallback(s, ev);
    } else {
      MarksOther(s, ev);
      ReasonOther(s, ev);
    }
  }

  // ---- In every reachable state ----

  lemma {:induction false} EndingReachable(config: Config, contextCreated: bool, evs: seq<Event>)
    ensures var s := Steps(Initial(config, contextCreated), evs); OnCloseInv(s) && MarksInv(s) && ReasonInv(s)
    decreases |evs|
  {
    if evs != [] {
      var s, ev := Steps(Initial(config, contextCreated), evs[..|evs| - 1]), evs[|evs| - 1];
      EndingReachable(config, contextCreated, evs[..|evs| - 1]);
      BaseReachable(config, contextCreated, evs[..|evs| - 1]);
      OnCloseStep(s, ev);
      ReasonStep(s, ev);
    } else {
      var s := Initial(config, contextCreated);
      assert s.tasks == [] + s.tasks;
      NoneSelected([], s.tasks, AsOnClose);
      NoneSelected([], s.tasks, AsMark);
    }
  }

  lemma EndingFacts(s: Client)
    requires Reachable(s)
    ensures OnCloseInv(s) && MarksInv(s) && ReasonInv(s)
  {
    var config: Config, contextCreated: bool, evs: seq<Event> :|
      s == Steps(Initial(config, contextCreated), evs);
    EndingReachable(config, contextCreated, evs);
  }

  /** `markAsClosed` has taken the queue. */
  predicate Cleared(s: Client) {
    s.ending.status.Some? && !s.loop.Clearing?
  }

  lemma ClearedLoop(s: Client, ev: Event)
    requires LinkInv(s) && QueueInv(s) && Cleared(s) && Enabled(s, ev) && OnLoop(ev)
    ensures var r := Next(s, ev);
            && Cleared(r) && r.out.accepted == s.out.accepted && r.out.dropped == s.out.dropped && r.config == s.config
  {
    var before, t := LoopStep(s, ev);
    var _ := PerformOut(before, t);
    assert Perform(before, t).loop == s.loop;
    assert Perform(before, t).ending.status == s.ending.status;
  }

  lemma ClearedOther(s: Client, ev: Event)
    requires LinkInv(s) && QueueInv(s) && Cleared(s) && Enabled(s, ev) && !OnLoop(ev)
    ensures var r := Next(s, ev);
            && Cleared(r) && r.out.accepted == s.out.accepted && r.out.dropped == s.out.dropped && r.config == s.config
  {
  }

  lemma ClearedStep(s: Client, ev: Event)
    requires LinkInv(s) && QueueInv(s) && Cleared(s)
    ensures var r := Next(s, ev);
            && Cleared(r) && r.out.toBeWritten == []
            && r.out.accepted == s.out.accepted && r.out.dropped == s.out.dropped
            && r.config == s.config
  {
    QueueStep(s, ev);
    if !Enabled(s, ev) {
    } else if OnLoop(ev) {
      ClearedLoop(s, ev);
    } else {
      ClearedOther(s, ev);
    }
  }

  /** Close is set once. From the moment `markAsClosed` has taken the queue on,
      in every continuation of every run: the status stands, `onClose` has been
      or will be called once and with that status, the queue stays empty, no
      call is accepted, and nothing is popped for writing beyond the entry that
      may already have been in flight. */
  lemma {:induction false} CloseIsFinal(s: Client, evs: seq<Event>)
    requires Reachable(s) && Cleared(s)
    ensures var r := Steps(s, evs);
            && r.ending.status == s.ending.status && Cleared(r)
            && (r.loop.Idle? ==> r.ending.calls + Select(r.tasks, AsOnClose) == [s.ending.status.value])
            && |r.ending.calls| <= 1
            && r.out.toBeWritten == []
            && r.out.accepted == s.out.accepted
            && r.out.written + Optional(r.out.failed) + Optional(r.out.inFlight)
               == s.out.written + Optional(s.out.failed) + Optional(s.out.inFlight)
    decreases |evs|
  {
    var r := Steps(s, evs);
    CloseStatusIsFinal(s, evs);
    ReachableSteps(s, evs);
    EndingFacts(r);
    ClearedRun(s, evs);
    QueueAccounting(s);
    QueueAccounting(r);
    Base(s);
    SameFront(r.out, s.out);
  }

  lemma SameFront(a: Outbox, b: Outbox)
    requires Ledger(a) == Ledger(b) && a.toBeWritten == b.toBeWritten == [] && a.dropped == b.dropped
    ensures a.written + Optional(a.failed) + Optional(a.inFlight)
            == b.written + Optional(b.failed) + Optional(b.inFlight)
  {
    var x := a.written + Optional(a.failed) + Optional(a.inFlight);
    var y := b.written + Optional(b.failed) + Optional(b.inFlight);
    assert Ledger(a) == x + a.dropped && Ledger(b) == y + b.dropped;
    assert x == Ledger(a)[..|x|] && y == Ledger(b)[..|y|];
  }

  lemma {:induction false} ClearedRun(s: Client, evs: seq<Event>)
    requires Reachable(s) && Cleared(s)
    ensures var r := Steps(s, evs);
            && Cleared(r) && r.out.toBeWritten == []
            && r.out.accepted == s.out.accepted && r.out.dropped == s.out.dropped
            && r.config == s.config
    decreases |evs|
  {
    if evs == [] {
      Base(s);
    } else {
      var init := evs[..|evs| - 1];
      ClearedRun(s, init);
      ReachableSteps(s, init);
      Base(Steps(s, init));
      ClearedStep(Steps(s, init), evs[|evs| - 1]);
    }
  }

  // ---- Nothing follows a Close frame ----

  /** Section 5.5.1 of RFC 6455: once a Close entry has been written it is the
      last frame on the wire, in every continuation of every run. */
  lemma NothingFollowsClose(s: Client, i: nat, evs: seq<Event>)
    requires Reachable(s) && i < |s.out.written| && s.out.written[i].opcode.Close?
    ensures i == |s.out.written| - 1
    ensures Steps(s, evs).out.written == s.out.written
  {
    Base(s);
    WrittenGrows(s, evs);
    ReachableSteps(s, evs);
    Base(Steps(s, evs));
    assert Steps(s, evs).out.written[i].opcode.Close?;
  }

  lemma WrittenStep(s: Client, ev: Event)
    ensures s.out.written <= Next(s, ev).out.written
  {
    if Enabled(s, ev) && OnLoop(ev) {
      var before, t := LoopStep(s, ev);
      var _ := PerformOut(before, t);
    }
  }

  lemma {:induction false} WrittenGrows(s: Client, evs: seq<Event>)
    ensures s.out.written <= Steps(s, evs).out.written
    decreases |evs|
  {
    if evs != [] {
      WrittenGrows(s, evs[..|evs| - 1]);
      WrittenStep(Steps(s, evs[..|evs| - 1]), evs[|evs| - 1]);
    }
  }

  /** Calls accepted behind a close, whatever has become of that close: no
      frame of them is ever written, and their promises never succeed; once the
      client is quiet, they have failed as closed. If the close itself was
      written, it is the end of the wire. */
  lemma SendsBehindClose(s: Client, i: nat, j: nat, p: PromiseId)
    requires Reachable(s) && i < j < |s.out.accepted|
    requires s.out.accepted[i].opcode.Close? && s.out.accepted[j].promise == Some(p)
    ensures s.out.written <= Expand(s.out.accepted[..i + 1], s.config.maxFrameSize)
    ensures Resolution(p, Succeeded) !in s.out.resolved
    ensures Quiet(s) ==> Resolution(p, Failed(WebsocketClosed)) in s.out.resolved
    ensures Expand(s.out.accepted[..i + 1], s.config.maxFrameSize) <= s.out.written
            ==> s.out.written == Expand(s.out.accepted[..i + 1], s.config.maxFrameSize)
  {
    CloseEndsWire(s, i);
    SuccessIffWritten(s, j, p);
    LaterCallsExpandFurther(s.out.accepted, i, j, s.config.maxFrameSize);
    if Quiet(s) {
      DroppedPromiseFails(s, j, p);
    }
  }

  lemma QuietBooks(s: Client, p: PromiseId)
    requires Reachable(s) && Quiet(s)
    ensures Explained(s.out, [], p) && s.out.inFlight.None? && s.out.toBeWritten == []
    ensures Ledger(s.out) == Expand(s.out.accepted, s.config.maxFrameSize)
  {
    Base(s);
    Books(s, p);
  }

  lemma DroppedPromiseFails(s: Client, j: nat, p: PromiseId)
    requires Reachable(s) && Quiet(s)
    requires j < |s.out.accepted| && s.out.accepted[j].promise == Some(p)
    requires |Tried(s.out)| < |Expand(s.out.accepted[..j + 1], s.config.maxFrameSize)|
    ensures Resolution(p, Failed(WebsocketClosed)) in s.out.resolved
  {
    QuietBooks(s, p);
    LastFrameCarries(s.out.accepted, j, s.config.maxFrameSize);
    DroppedFails(s.out, Expand(s.out.accepted[..j + 1], s.config.maxFrameSize), p);
  }

  lemma DroppedFails(o: Outbox, upTo: seq<Entry>, p: PromiseId)
    requires Explained(o, [], p) && o.inFlight.None? && o.toBeWritten == []
    requires upTo <= Ledger(o) && |Tried(o)| < |upTo| && upTo[|upTo| - 1].promise == Some(p)
    ensures Resolution(p, Failed(WebsocketClosed)) in o.resolved
  {
    assert Ledger(o) == Tried(o) + o.dropped;
    CarriedByTheRest(Tried(o), o.dropped, upTo, p);
    OutcomesIff(o.resolved, p, Failed(WebsocketClosed));
  }

  lemma CarriedByTheRest(a: seq<Entry>, b: seq<Entry>, upTo: seq<Entry>, p: PromiseId)
    requires upTo <= a + b && |a| < |upTo| && upTo[|upTo| - 1].promise == Some(p)
    ensures Carriers(b, p) > 0
  {
    assert (a + b)[|upTo| - 1] == upTo[|upTo| - 1];
    CarrierCounts(b, p, |upTo| - 1 - |a|);
  }

  /** The entries given to a write call that has returned. */
  function Tried(o: Outbox): (es: seq<Entry>) {
    o.written + Optional(o.failed)
  }

  /** No write is tried behind an accepted close. */
  lemma CloseEndsWire(s: Client, i: nat)
    requires Reachable(s) && i < |s.out.accepted| && s.out.accepted[i].opcode.Close?
    ensures s.out.written <= Expand(s.out.accepted[..i + 1], s.config.maxFrameSize)
    ensures |Tried(s.out)| <= |Expand(s.out.accepted[..i + 1], s.config.maxFrameSize)|
  {
    var upTo := Expand(s.out.accepted[..i + 1], s.config.maxFrameSize);
    CloseEndsExpansion(s.out.accepted, i, s.config.maxFrameSize);
    QueueAccounting(s);
    Base(s);
    TriedUpTo(s, upTo);
  }

  lemma CloseEndsExpansion(calls: seq<Entry>, i: nat, size: FrameLimit)
    requires i < |calls| && calls[i].opcode.Close?
    ensures var es := Expand(calls[..i + 1], size);
            es != [] && es[|es| - 1].opcode.Close? && es <= Expand(calls, size)
  {
    assert calls[..i + 1] == calls[..i] + [calls[i]];
    ExpandOne(calls[..i], calls[i], size);
    assert calls == calls[..i + 1] + calls[i + 1..];
    ExpandAppend(calls[..i + 1], calls[i + 1..], size);
  }

  lemma TriedUpTo(s: Client, upTo: seq<Entry>)
    requires LastWriteInv(s) && upTo <= Ledger(s.out)
    requires upTo != [] && upTo[|upTo| - 1].opcode.Close?
    ensures |Tried(s.out)| <= |upTo| && s.out.written <= upTo
  {
    var n := |upTo| - 1;
    var all := Ledger(s.out);
    assert all[n] == upTo[n];
    assert s.out.failed.Some? ==> all[|s.out.written|] == s.out.failed.value;
    if n < |s.out.written| {
      assert s.out.written[n] == all[n];
    }
    assert s.out.written == all[..|s.out.written|];
  }

  lemma LaterCallsExpandFurther(calls: seq<Entry>, i: nat, j: nat, size: FrameLimit)
    requires i < j < |calls|
    ensures |Expand(calls[..i + 1], size)| < |Expand(calls[..j + 1], size)|
  {
    assert calls[..j + 1] == calls[..i + 1] + calls[i + 1..j + 1];
    ExpandAppend(calls[..i + 1], calls[i + 1..j + 1], size);
    assert |Expand(calls[i + 1..j + 1], size)| >= |Frames(calls[i + 1], size)|;
  }

  // ---- The reported reason ----

  /** Close-reason selection. The status, and with it the argument of `onClose`,
      is decided by the first close event of the service thread: the reason of
      a local close if that was written before the peer initiated one, else the
      code of the peer, else what the end of the session carried. Only a client
      released before that event was processed reports `goingAway`. */
  lemma CloseReason(x: Execution)
    requires Final(x).ending.status.Some?
    ensures var status := Final(x).ending.status.value;
            && (Final(x).link.alive ==> Closings(x) != [] && status == ReasonOf(Closings(x)[0]))
            && (!Final(x).link.alive ==>
                  status == GOING_AWAY || (Closings(x) != [] && status == ReasonOf(Closings(x)[0])))
            && OnCloses(x) <= [status]
  {
    FinalIsReachable(x);
    ClosingsAreWhatCame(x);
    EndingFacts(Final(x));
    assert OnCloses(x) <= OnCloses(x) + Select(Final(x).tasks, AsOnClose);
  }

  /** And it is reported: once the peer has closed or the session has ended, and
      the tasks have run, the status is set and `onClose` has been called with
      it. */
  lemma CloseIsReported(x: Execution, c: CloseEvent)
    requires c in Closings(x) && !c.LocalWritten?
    requires Final(x).tasks == [] && Final(x).loop.Idle?
    ensures Final(x).ending.status.Some? && OnCloses(x) == [Final(x).ending.status.value]
  {
    FinalIsReachable(x);
    ClosingsAreWhatCame(x);
    EndingFacts(Final(x));
  }

  lemma ErrorStep(s: Client, ev: Event)
    requires s.link.connectionError
    ensures Next(s, ev).link.connectionError && Next(s, ev).ending.status == s.ending.status
  {
    if Enabled(s, ev) && OnLoop(ev) {
      var before, t := LoopStep(s, ev);
      var _ := PerformOut(before, t);
      assert Perform(before, t).ending.status == s.ending.status;
    }
  }

  lemma ErrorArises(s: Client, ev: Event)
    requires LinkInv(s) && ReasonInv(s) && !s.link.connectionError && Next(s, ev).link.connectionError
    ensures Next(s, ev).ending.status.None?
  {
    if Enabled(s, ev) && OnLoop(ev) {
      var before, t := LoopStep(s, ev);
      var _ := PerformOut(before, t);
      assert false;
    }
  }

  lemma {:induction false} ErrorKeepsStatus(s: Client, evs: seq<Event>)
    requires s.link.connectionError
    ensures Steps(s, evs).link.connectionError && Steps(s, evs).ending.status == s.ending.status
    decreases |evs|
  {
    if evs != [] {
      ErrorKeepsStatus(s, evs[..|evs| - 1]);
      ErrorStep(Steps(s, evs[..|evs| - 1]), evs[|evs| - 1]);
    }
  }

  lemma {:induction false} ErrorHasNoStatus(config: Config, contextCreated: bool, evs: seq<Event>)
    ensures var s := Steps(Initial(config, contextCreated), evs); s.link.connectionError ==> s.ending.status.None?
    decreases |evs|
  {
    if evs != [] {
      var s, ev := Steps(Initial(config, contextCreated), evs[..|evs| - 1]), evs[|evs| - 1];
      ErrorHasNoStatus(config, contextCreated, evs[..|evs| - 1]);
      EndingReachable(config, contextCreated, evs[..|evs| - 1]);
      BaseReachable(config, contextCreated, evs[..|evs| - 1]);
      if s.link.connectionError {
        ErrorStep(s, ev);
      } else if Next(s, ev).link.connectionError {
        ErrorArises(s, ev);
      }
    }
  }

  /** A client whose connection failed has no status and never calls `onClose`,
      in every continuation. */
  lemma ErrorIsFinal(s: Client, evs: seq<Event>)
    requires Reachable(s) && s.link.connectionError
    ensures var r := Steps(s, evs); r.link.connectionError && r.ending.status.None? && r.ending.calls == []
  {
    var config: Config, contextCreated: bool, start: seq<Event> :|
      s == Steps(Initial(config, contextCreated), start);
    ErrorHasNoStatus(config, contextCreated, start);
    ErrorKeepsStatus(s, evs);
    ReachableSteps(s, evs);
    EndingFacts(Steps(s, evs));
  }

  /** What a client that is released reports, in every continuation: the status
      it has; else nothing if its connection failed; else `goingAway`. And
      `onClose` is called at most once, with that status. */
  lemma ReleaseReason(s: Client, evs: seq<Event>)
    requires Reachable(s) && CanRelease(s)
    ensures var r := Steps(Next(s, Release), evs);
            && r.ending.status == (if s.ending.status.Some? then s.ending.status
                                   else if s.link.connectionError then None
                                   else Some(GOING_AWAY))
            && r.ending.calls <= Optional(r.ending.status)
  {
    var a, r := Next(s, Release), Steps(Next(s, Release), evs);
    if a.ending.status.Some? {
      CloseStatusIsFinal(a, evs);
    } else {
      ErrorKeepsStatus(a, evs);
    }
    ReachableStep(s, Release);
    ReachableSteps(a, evs);
    EndingFacts(r);
    assert r.ending.calls <= r.ending.calls + Select(r.tasks, AsOnClose);
  }
}
