/** Where every frame and every promise is. */
module Accounting {
  import opened Protocol
  import opened Fragmentation
  import opened ClientState
  import opened Connection
  import opened History

  // ---- Frames ----

  /** All entries there ever were, in the order of the queue. */
  function Ledger(o: Outbox): (es: seq<Entry>) {
    o.written + Optional(o.failed) + Optional(o.inFlight) + o.toBeWritten + o.dropped
  }

  /** Nothing is lost, duplicated, reordered or invented between the calls of
      `send` and the write calls. */
  ghost predicate Balanced(s: Client) {
    Ledger(s.out) == Expand(s.out.accepted, s.config.maxFrameSize)
  }

  lemma BalancedAccept(o: Outbox, e: Entry, limit: FrameLimit)
    requires o.dropped == [] && Ledger(o) == Expand(o.accepted, limit)
    ensures var r := Accept(o, e, limit); Ledger(r) == Expand(r.accepted, limit)
  {
    ExpandOne(o.accepted, e, limit);
    assert Ledger(Accept(o, e, limit)) == Ledger(o) + Frames(e, limit);
  }

  lemma LedgerOfWrite(o: Outbox, e: Entry)
    requires o.inFlight == Some(e) && o.failed.None?
    ensures Ledger(Written(o, e)) == Ledger(NotWritten(o, e)) == Ledger(o)
    ensures Written(o, e).accepted == NotWritten(o, e).accepted == o.accepted
  {
  }

  lemma BalancedFinish(s: Client, success: bool)
    requires QueueInv(s) && Balanced(s) && s.out.inFlight.Some?
    ensures Balanced(FinishWrite(s, success))
  {
    LedgerOfWrite(s.out, s.out.inFlight.value);
  }

  lemma BalancedMarking(s: Client, ev: Event)
    requires QueueInv(s) && Balanced(s) && Enabled(s, ev) && (ev.LoopClear? || ev.LoopFail? || ev.Release?)
    ensures Balanced(Next(s, ev))
  {
    var r := Next(s, ev);
    assert Ledger(r.out) == Ledger(s.out);
  }

  lemma BalancedCallback(s: Client, ev: Event)
    requires Balanced(s) && Enabled(s, ev) && IsCallback(ev)
    ensures Balanced(Next(s, ev))
  {
    var r := Next(s, ev);
    if ev.WriteablePop? && s.link.alive && s.out.toBeWritten != [] {
      assert s.out.toBeWritten == [s.out.toBeWritten[0]] + s.out.toBeWritten[1..];
      assert Ledger(r.out) == Ledger(s.out);
    } else {
      assert r.out == s.out;
    }
  }

  lemma BalancedTask(s: Client, t: Task)
    requires QueueInv(s) && s.loop.Idle? && Balanced(s)
    ensures Balanced(Perform(s, t))
  {
    var sent := PerformOut(s, t);
    if sent.Some? && !IsClosed(s) {
      BalancedAccept(s.out, sent.value, s.config.maxFrameSize);
    }
  }

  lemma BalancedStep(s: Client, ev: Event)
    requires QueueInv(s) && Balanced(s)
    ensures Balanced(Next(s, ev))
  {
    if !Enabled(s, ev) {
    } else if OnLoop(ev) {
      var before, t := LoopStep(s, ev);
      BalancedTask(before, t);
    } else if IsCallback(ev) {
      BalancedCallback(s, ev);
    } else if ev.WriteableFinish? {
      BalancedFinish(s, ev.success);
    } else if ev.LoopClear? || ev.LoopFail? || ev.Release? {
      BalancedMarking(s, ev);
    } else {
      AsideFrame(s, ev);
    }
  }

  // ---- Promises ----

  /** One if this is the promise `p`, else zero. */
  function Is(q: Option<PromiseId>, p: PromiseId): (n: nat) {
    if q == Some(p) then 1 else 0
  }

  /** How many entries carry the promise `p`. */
  function Carriers(es: seq<Entry>, p: PromiseId): (n: nat) {
    if es == [] then 0 else Is(es[0].promise, p) + Carriers(es[1..], p)
  }

  lemma {:induction false} CarriersAppend(a: seq<Entry>, b: seq<Entry>, p: PromiseId)
    ensures Carriers(a + b, p) == Carriers(a, p) + Carriers(b, p)
  {
    if a == [] {
      assert a + b == b;
    } else {
      assert (a + b)[1..] == a[1..] + b;
      CarriersAppend(a[1..], b, p);
    }
  }

  lemma CarriersOfOne(e: Entry, p: PromiseId)
    ensures Carriers([e], p) == Is(e.promise, p)
  {
    assert Carriers([e], p) == Is(e.promise, p) + Carriers([e][1..], p);
  }

  lemma {:induction false} CarriersOfSplit(chunks: seq<Bytes>, opcode: Opcode, fin: bool, promise: Option<PromiseId>,
                                           p: PromiseId)
    requires chunks != []
    ensures Carriers(Split(chunks, opcode, fin, promise), p) == Is(promise, p)
    decreases |chunks|
  {
    var es := Split(chunks, opcode, fin, promise);
    if |chunks| > 1 {
      assert es[1..] == Split(chunks[1..], Continuation, fin, promise);
      CarriersOfSplit(chunks[1..], Continuation, fin, promise, p);
    } else {
      CarriersOfOne(es[0], p);
    }
  }

  /** However many frames a call becomes, they carry its promise once. */
  lemma CarriersOfFrames(e: Entry, size: FrameLimit, p: PromiseId)
    ensures Carriers(Frames(e, size), p) == Is(e.promise, p)
  {
    if NeedsSplit(e, size) {
      CarriersOfSplit(Chunked(e.data, size), e.opcode, e.fin, e.promise, p);
    } else {
      CarriersOfOne(e, p);
    }
  }

  /** How often the promise `p` was resolved. */
  function Resolved(rs: seq<Resolution>, p: PromiseId): (n: nat) {
    if rs == [] then 0 else Is(Some(rs[0].promise), p) + Resolved(rs[1..], p)
  }

  lemma {:induction false} ResolvedAppend(a: seq<Resolution>, b: seq<Resolution>, p: PromiseId)
    ensures Resolved(a + b, p) == Resolved(a, p) + Resolved(b, p)
  {
    if a == [] {
      assert a + b == b;
    } else {
      assert (a + b)[1..] == a[1..] + b;
      ResolvedAppend(a[1..], b, p);
    }
  }

  lemma ResolvedOne(rs: seq<Resolution>, r: Resolution, p: PromiseId)
    ensures Resolved(rs + [r], p) == Resolved(rs, p) + Is(Some(r.promise), p)
  {
    ResolvedAppend(rs, [r], p);
    assert Resolved([r], p) == Is(Some(r.promise), p) + Resolved([r][1..], p);
  }

  lemma {:induction false} ResolvedByFailures(es: seq<Entry>, p: PromiseId)
    ensures Resolved(Failures(es), p) == Carriers(es, p)
  {
    if es != [] {
      ResolvedByFailures(es[1..], p);
      var first := if es[0].promise.None? then [] else [Resolution(es[0].promise.value, Failed(WebsocketClosed))];
      ResolvedAppend(first, Failures(es[1..]), p);
      if first != [] {
        assert Resolved(first, p) == Is(es[0].promise, p) + Resolved(first[1..], p);
      }
    }
  }

  function AsHop(t: Task): (e: Option<Entry>) {
    if t.SendHop? then Some(t.entry) else None
  }

  /** The calls of `send` still on their way to the event loop. */
  function Hops(tasks: seq<Task>): (es: seq<Entry>) {
    Select(tasks, AsHop)
  }

  /** The entries taken out of the queue by `markAsClosed` and not failed yet. */
  function Doomed(loop: LoopPoint): (es: seq<Entry>) {
    if loop.Failing? then loop.pending else []
  }

  /** In the write side: in flight, queued or resolved. */
  function Settled(o: Outbox, p: PromiseId): (n: nat) {
    Carriers(Optional(o.inFlight), p) + Carriers(o.toBeWritten, p) + Resolved(o.resolved, p)
  }

  /** A promise handed to `send` is in exactly one place: on its way to the
      event loop, about to be failed, in flight, in the queue, or resolved. */
  predicate Conserved(s: Client, p: PromiseId) {
    multiset(s.out.issued)[p] == Carriers(Hops(s.tasks), p) + Carriers(Doomed(s.loop), p) + Settled(s.out, p)
  }

  lemma SettledResolve(o: Outbox, q: Option<PromiseId>, outcome: Outcome, p: PromiseId)
    ensures Settled(Resolve(o, q, outcome), p) == Settled(o, p) + Is(q, p)
  {
    if q.Some? {
      ResolvedOne(o.resolved, Resolution(q.value, outcome), p);
    }
  }

  lemma SettledAccept(o: Outbox, e: Entry, limit: FrameLimit, p: PromiseId)
    ensures Settled(Accept(o, e, limit), p) == Settled(o, p) + Is(e.promise, p)
  {
    CarriersOfFrames(e, limit, p);
    CarriersAppend(o.toBeWritten, Frames(e, limit), p);
  }

  lemma SettledSend(s: Client, o: Outbox, e: Entry, p: PromiseId)
    ensures Settled(SendInto(s, o, e), p) == Settled(o, p) + Is(e.promise, p)
    ensures SendInto(s, o, e).issued == o.issued
  {
    SettledAccept(o, e, s.config.maxFrameSize, p);
    SettledResolve(o, e.promise, Failed(WebsocketClosed), p);
    SettledResolve(o, e.promise, Failed(WebsocketNotYetOpen), p);
  }

  lemma SettledPop(o: Outbox, p: PromiseId)
    requires o.inFlight.None?
    ensures Settled(PopWrite(o), p) == Settled(o, p) && PopWrite(o).issued == o.issued
  {
    if o.toBeWritten != [] {
      CarriersOfOne(o.toBeWritten[0], p);
    }
  }

  lemma SettledWrite(o: Outbox, e: Entry, p: PromiseId)
    requires o.inFlight == Some(e)
    ensures Settled(Written(o, e), p) == Settled(NotWritten(o, e), p) == Settled(o, p)
    ensures Written(o, e).issued == NotWritten(o, e).issued == o.issued
  {
    CarriersOfOne(e, p);
    if e.promise.Some? {
      ResolvedOne(o.resolved, Resolution(e.promise.value, Succeeded), p);
      ResolvedOne(o.resolved, Resolution(e.promise.value, Failed(WriteFailed)), p);
    }
  }

  lemma SettledFail(o: Outbox, es: seq<Entry>, p: PromiseId)
    ensures Settled(FailAll(o, es), p) == Settled(o, p) + Carriers(es, p) && FailAll(o, es).issued == o.issued
  {
    ResolvedAppend(o.resolved, Failures(es), p);
    ResolvedByFailures(es, p);
  }

  lemma HopsOne(tasks: seq<Task>, t: Task, p: PromiseId)
    ensures Carriers(Hops(tasks + [t]), p) == Carriers(Hops(tasks), p) + Carriers(Optional(AsHop(t)), p)
  {
    SelectOne(tasks, t, AsHop);
    CarriersAppend(Hops(tasks), Optional(AsHop(t)), p);
  }

  lemma HopsFirst(t: Task, rest: seq<Task>, p: PromiseId)
    ensures Carriers(Hops([t] + rest), p) == Carriers(Optional(AsHop(t)), p) + Carriers(Hops(rest), p)
  {
    FirstSelected(t, rest, AsHop);
    CarriersAppend(Optional(AsHop(t)), Hops(rest), p);
  }

  lemma HopsUnchanged(tasks: seq<Task>, more: seq<Task>, p: PromiseId)
    requires forall i :: 0 <= i < |more| ==> !more[i].SendHop?
    ensures Carriers(Hops(tasks + more), p) == Carriers(Hops(tasks), p)
  {
    NoneSelected(tasks, more, AsHop);
  }

  /** A task adds no call that is on its way. */
  lemma PerformHops(s: Client, t: Task, p: PromiseId)
    requires s.loop.Idle?
    ensures Carriers(Hops(Perform(s, t).tasks), p) == Carriers(Hops(s.tasks), p)
    ensures Doomed(Perform(s, t).loop) == []
  {
    var r := Perform(s, t);
    if r.tasks != s.tasks {
      HopsUnchanged(s.tasks, [r.tasks[|s.tasks|]], p);
    }
  }

  lemma ConservedPerform(s: Client, t: Task, p: PromiseId)
    requires s.loop.Idle?
    requires multiset(s.out.issued)[p]
             == Carriers(Hops(s.tasks), p) + Carriers(Optional(AsHop(t)), p) + Settled(s.out, p)
    ensures Conserved(Perform(s, t), p)
  {
    PerformHops(s, t, p);
    var sent := PerformOut(s, t);
    if sent.Some? {
      SettledSend(s, s.out, sent.value, p);
      CarriersOfOne(sent.value, p);
    }
  }

  lemma ConservedLoop(s: Client, ev: Event, p: PromiseId)
    requires Conserved(s, p) && Enabled(s, ev) && OnLoop(ev)
    ensures Conserved(Next(s, ev), p)
  {
    var before, t := LoopStep(s, ev);
    if ev.LoopTask? {
      HopsFirst(t, before.tasks, p);
    } else if t.SendHop? {
      CarriersOfOne(t.entry, p);
      }
    ConservedPerform(before, t, p);
  }

  /** A step that appends no call and leaves the write side equivalent. */
  lemma ConservedFrame(s: Client, r: Client, more: seq<Task>, p: PromiseId)
    requires Conserved(s, p)
    requires r.tasks == s.tasks + more && forall i :: 0 <= i < |more| ==> !more[i].SendHop?
    requires r.loop == s.loop && r.out.issued == s.out.issued && Settled(r.out, p) == Settled(s.out, p)
    ensures Conserved(r, p)
  {
    HopsUnchanged(s.tasks, more, p);
  }

  lemma CallbackOut(s: Client, ev: Event)
    requires Enabled(s, ev) && IsCallback(ev)
    ensures Next(s, ev).out == if ev.WriteablePop? && s.link.alive then PopWrite(s.out) else s.out
    ensures Next(s, ev).loop == s.loop
  {
  }

  lemma ConservedCallback(s: Client, ev: Event, p: PromiseId)
    requires Conserved(s, p) && Enabled(s, ev) && IsCallback(ev)
    ensures Conserved(Next(s, ev), p)
  {
    var more := CallbackTasks(s, ev);
    CallbackOut(s, ev);
    if ev.WriteablePop? {
      SettledPop(s.out, p);
    }
    ConservedFrame(s, Next(s, ev), more, p);
  }

  lemma ConservedFinish(s: Client, success: bool, p: PromiseId)
    requires Conserved(s, p) && s.out.inFlight.Some?
    ensures Conserved(FinishWrite(s, success), p)
  {
    SettledWrite(s.out, s.out.inFlight.value, p);
  }

  lemma ConservedMarking(s: Client, ev: Event, p: PromiseId)
    requires Conserved(s, p) && Enabled(s, ev) && (ev.LoopClear? || ev.LoopFail?)
    ensures Conserved(Next(s, ev), p)
  {
    if ev.LoopFail? {
      SettledFail(s.out, s.loop.pending, p);
      HopsUnchanged(s.tasks, [CallOnClose(s.loop.reason)], p);
    }
  }

  lemma ConservedRelease(s: Client, p: PromiseId)
    requires Conserved(s, p) && s.loop.Idle?
    ensures Conserved(Deinit(s), p)
  {
    var more := if s.opening.onConnect then [FailTakenConnect] else [];
    HopsUnchanged(s.tasks, more, p);
    var t := s.(link := s.link.(alive := false),
                opening := s.opening.(onConnect := false),
                tasks := s.tasks + more);
    if !IsClosedForever(s) {
      var a := SetClosed(t, GOING_AWAY);
      ConservedMarking(a, LoopClear, p);
      ConservedMarking(ClearWrites(a), LoopFail, p);
    }
  }

  lemma ConservedCall(s: Client, ev: Event, p: PromiseId)
    requires Conserved(s, p) && Enabled(s, ev) && (ev.SendFromElsewhere? || ev.CloseFromElsewhere?)
    ensures Conserved(Next(s, ev), p)
  {
    var e := if ev.SendFromElsewhere? then ev.entry else CloseEntry(ev.reason);
    HopsOne(s.tasks, SendHop(e), p);
    CarriersOfOne(e, p);
    IssuedOne(s.out.issued, e.promise, p);
    assert Settled(Issue(s.out, e), p) == Settled(s.out, p);
  }

  lemma IssuedOne(issued: seq<PromiseId>, q: Option<PromiseId>, p: PromiseId)
    ensures multiset(issued + Optional(q))[p] == multiset(issued)[p] + Is(q, p)
  {
    assert multiset(Optional(q))[p] == Is(q, p);
  }

  lemma ConservedOther(s: Client, ev: Event, p: PromiseId)
    requires Conserved(s, p) && Enabled(s, ev)
    requires ev.ConnectCall? || ev.ConnectTimeout? || ev.LoopArm? || ev.SetPingInterval? || ev.RestartPing?
    ensures Conserved(Next(s, ev), p)
  {
    var more := NewTasks(s, ev);
    ConservedFrame(s, Next(s, ev), more, p);
  }

  lemma ConservedStep(s: Client, ev: Event, p: PromiseId)
    requires Conserved(s, p)
    ensures Conserved(Next(s, ev), p)
  {
    if !Enabled(s, ev) {
    } else if OnLoop(ev) {
      ConservedLoop(s, ev, p);
    } else if IsCallback(ev) {
      ConservedCallback(s, ev, p);
    } else {
      match ev
      case WriteableFinish(success) => ConservedFinish(s, success, p);
      case LoopClear => ConservedMarking(s, ev, p);
      case LoopFail => ConservedMarking(s, ev, p);
      case Release => ConservedRelease(s, p);
      case SendFromElsewhere(e) => ConservedCall(s, ev, p);
      case CloseFromElsewhere(reason) => ConservedCall(s, ev, p);
      case ConnectCall(_) => ConservedOther(s, ev, p);
      case ConnectTimeout => ConservedOther(s, ev, p);
      case LoopArm => ConservedOther(s, ev, p);
      case SetPingInterval(_) => ConservedOther(s, ev, p);
      case RestartPing(_) => ConservedOther(s, ev, p);
    }
  }

  // ---- Which outcome a promise gets ----

  /** How often the promise `p` was resolved with this outcome. */
  function Outcomes(rs: seq<Resolution>, p: PromiseId, outcome: Outcome): (n: nat) {
    if rs == [] then 0
    else (if rs[0] == Resolution(p, outcome) then 1 else 0) + Outcomes(rs[1..], p, outcome)
  }

  lemma {:induction false} OutcomesAppend(a: seq<Resolution>, b: seq<Resolution>, p: PromiseId, outcome: Outcome)
    ensures Outcomes(a + b, p, outcome) == Outcomes(a, p, outcome) + Outcomes(b, p, outcome)
  {
    if a == [] {
      assert a + b == b;
    } else {
      assert (a + b)[1..] == a[1..] + b;
      OutcomesAppend(a[1..], b, p, outcome);
    }
  }

  lemma OutcomesOne(rs: seq<Resolution>, r: Resolution, p: PromiseId, outcome: Outcome)
    ensures Outcomes(rs + [r], p, outcome) == Outcomes(rs, p, outcome) + (if r == Resolution(p, outcome) then 1 else 0)
  {
    OutcomesAppend(rs, [r], p, outcome);
    assert Outcomes([r], p, outcome) == (if r == Resolution(p, outcome) then 1 else 0) + Outcomes([r][1..], p, outcome);
  }

  lemma {:induction false} OutcomesOfFailures(es: seq<Entry>, p: PromiseId, outcome: Outcome)
    ensures Outcomes(Failures(es), p, outcome) == if outcome == Failed(WebsocketClosed) then Carriers(es, p) else 0
  {
    if es != [] {
      OutcomesOfFailures(es[1..], p, outcome);
      var first := if es[0].promise.None? then [] else [Resolution(es[0].promise.value, Failed(WebsocketClosed))];
      OutcomesAppend(first, Failures(es[1..]), p, outcome);
      if first != [] {
        assert Outcomes(first, p, outcome)
            == (if first[0] == Resolution(p, outcome) then 1 else 0) + Outcomes(first[1..], p, outcome);
      }
    }
  }

  lemma {:induction false} OutcomesAddUp(rs: seq<Resolution>, p: PromiseId)
    ensures Resolved(rs, p)
            == Outcomes(rs, p, Succeeded) + Outcomes(rs, p, Failed(WriteFailed))
             + Outcomes(rs, p, Failed(WebsocketClosed)) + Outcomes(rs, p, Failed(WebsocketNotYetOpen))
  {
    if rs != [] {
      OutcomesAddUp(rs[1..], p);
      match rs[0].outcome
      case Succeeded =>
      case Failed(why) => assert why.WriteFailed? || why.WebsocketClosed? || why.WebsocketNotYetOpen?;
    }
  }

  lemma {:induction false} OutcomesIff(rs: seq<Resolution>, p: PromiseId, outcome: Outcome)
    ensures Outcomes(rs, p, outcome) > 0 <==> Resolution(p, outcome) in rs
  {
    if rs != [] {
      OutcomesIff(rs[1..], p, outcome);
    }
  }

  /** A promise succeeds exactly by a write of the entry that carries it, fails
      as a failed write exactly by such a write, and fails as closed at least
      once for an entry that was dropped. */
  predicate Explained(o: Outbox, doomed: seq<Entry>, p: PromiseId) {
    && Outcomes(o.resolved, p, Succeeded) == Carriers(o.written, p)
    && Outcomes(o.resolved, p, Failed(WriteFailed)) == Carriers(Optional(o.failed), p)
    && Outcomes(o.resolved, p, Failed(WebsocketClosed)) + Carriers(doomed, p) >= Carriers(o.dropped, p)
  }

  lemma ExplainedResolve(o: Outbox, doomed: seq<Entry>, q: Option<PromiseId>, why: Failure, p: PromiseId)
    requires Explained(o, doomed, p) && why != WriteFailed
    ensures Explained(Resolve(o, q, Failed(why)), doomed, p)
  {
    if q.Some? {
      var r := Resolution(q.value, Failed(why));
      OutcomesOne(o.resolved, r, p, Succeeded);
      OutcomesOne(o.resolved, r, p, Failed(WriteFailed));
      OutcomesOne(o.resolved, r, p, Failed(WebsocketClosed));
    }
  }

  lemma ExplainedSend(s: Client, o: Outbox, doomed: seq<Entry>, e: Entry, p: PromiseId)
    requires Explained(o, doomed, p)
    ensures Explained(SendInto(s, o, e), doomed, p)
  {
    ExplainedResolve(o, doomed, e.promise, WebsocketClosed, p);
    ExplainedResolve(o, doomed, e.promise, WebsocketNotYetOpen, p);
  }

  lemma ExplainedWrite(o: Outbox, doomed: seq<Entry>, e: Entry, p: PromiseId)
    requires Explained(o, doomed, p) && o.failed.None?
    ensures Explained(Written(o, e), doomed, p) && Explained(NotWritten(o, e), doomed, p)
  {
    CarriersOfOne(e, p);
    CarriersAppend(o.written, [e], p);
    if e.promise.Some? {
      var good, bad := Resolution(e.promise.value, Succeeded), Resolution(e.promise.value, Failed(WriteFailed));
      OutcomesOne(o.resolved, good, p, Succeeded);
      OutcomesOne(o.resolved, good, p, Failed(WriteFailed));
      OutcomesOne(o.resolved, good, p, Failed(WebsocketClosed));
      OutcomesOne(o.resolved, bad, p, Succeeded);
      OutcomesOne(o.resolved, bad, p, Failed(WriteFailed));
      OutcomesOne(o.resolved, bad, p, Failed(WebsocketClosed));
    }
  }

  lemma ExplainedFail(o: Outbox, es: seq<Entry>, p: PromiseId)
    requires Explained(o, es, p)
    ensures Explained(FailAll(o, es), [], p)
  {
    OutcomesAppend(o.resolved, Failures(es), p, Succeeded);
    OutcomesAppend(o.resolved, Failures(es), p, Failed(WriteFailed));
    OutcomesAppend(o.resolved, Failures(es), p, Failed(WebsocketClosed));
    OutcomesOfFailures(es, p, Succeeded);
    OutcomesOfFailures(es, p, Failed(WriteFailed));
    OutcomesOfFailures(es, p, Failed(WebsocketClosed));
  }

  lemma ExplainedDrop(o: Outbox, p: PromiseId)
    requires Explained(o, [], p) && o.dropped == []
    ensures Explained(Drop(o), o.toBeWritten, p)
  {
    assert [] + o.toBeWritten == o.toBeWritten;
  }

  lemma ExplainedMarking(s: Client, ev: Event, p: PromiseId)
    requires QueueInv(s) && Explained(s.out, Doomed(s.loop), p)
    requires Enabled(s, ev) && (ev.LoopClear? || ev.LoopFail? || ev.Release?)
    ensures var r := Next(s, ev); Explained(r.out, Doomed(r.loop), p)
  {
    if ev.LoopFail? {
      ExplainedFail(s.out, s.loop.pending, p);
    } else {
      if ev.LoopClear? || !IsClosedForever(s) {
        ExplainedDrop(s.out, p);
        ExplainedFail(Drop(s.out), s.out.toBeWritten, p);
      }
    }
  }

  lemma ExplainedTask(s: Client, t: Task, p: PromiseId)
    requires s.loop.Idle? && Explained(s.out, [], p)
    ensures var r := Perform(s, t); Explained(r.out, Doomed(r.loop), p)
  {
    var sent := PerformOut(s, t);
    if sent.Some? {
      ExplainedSend(s, s.out, [], sent.value, p);
    }
  }

  lemma ExplainedStep(s: Client, ev: Event, p: PromiseId)
    requires QueueInv(s) && Explained(s.out, Doomed(s.loop), p)
    ensures var r := Next(s, ev); Explained(r.out, Doomed(r.loop), p)
  {
    if !Enabled(s, ev) {
    } else if OnLoop(ev) {
      var before, t := LoopStep(s, ev);
      ExplainedTask(before, t, p);
    } else if ev.WriteableFinish? {
      ExplainedWrite(s.out, Doomed(s.loop), s.out.inFlight.value, p);
    } else if ev.LoopClear? || ev.LoopFail? || ev.Release? {
      ExplainedMarking(s, ev, p);
    } else {
      ExplainedAside(s, ev, p);
    }
  }

  lemma ExplainedAside(s: Client, ev: Event, p: PromiseId)
    requires Explained(s.out, Doomed(s.loop), p) && Enabled(s, ev) && (IsCallback(ev) || Aside(ev))
    ensures var r := Next(s, ev); Explained(r.out, Doomed(r.loop), p)
  {
    if IsCallback(ev) {
      CallbackOut(s, ev);
    } else {
      AsideFrame(s, ev);
    }
  }

  /** Promises are handed over once. */
  lemma IssuedOnceStep(s: Client, ev: Event, p: PromiseId)
    requires multiset(s.out.issued)[p] <= 1
    ensures multiset(Next(s, ev).out.issued)[p] <= 1
  {
    if !Enabled(s, ev) {
    } else if ev.SendFromElsewhere? || ev.SendOnLoop? {
        } else {
      IssuedSame(s, ev);
    }
  }

  lemma IssuedSame(s: Client, ev: Event)
    requires Enabled(s, ev) && !ev.SendFromElsewhere? && !ev.SendOnLoop?
    ensures Next(s, ev).out.issued == s.out.issued
  {
    if OnLoop(ev) {
      var before, t := LoopStep(s, ev);
      var _ := PerformOut(before, t);
    }
  }

  // ---- In every reachable state ----

  ghost predicate Sound(s: Client, p: PromiseId) {
    && Balanced(s)
    && Conserved(s, p)
    && Explained(s.out, Doomed(s.loop), p)
    && multiset(s.out.issued)[p] <= 1
  }

  lemma {:induction false} SoundReachable(config: Config, contextCreated: bool, evs: seq<Event>, p: PromiseId)
    ensures Sound(Steps(Initial(config, contextCreated), evs), p)
    decreases |evs|
  {
    if evs != [] {
      var s, ev := Steps(Initial(config, contextCreated), evs[..|evs| - 1]), evs[|evs| - 1];
      SoundReachable(config, contextCreated, evs[..|evs| - 1], p);
      BaseReachable(config, contextCreated, evs[..|evs| - 1]);
      BalancedStep(s, ev);
      ConservedStep(s, ev, p);
      ExplainedStep(s, ev, p);
      IssuedOnceStep(s, ev, p);
    } else {
      var s := Initial(config, contextCreated);
      assert Hops(s.tasks) == [] by {
        HopsUnchanged([], s.tasks, p);
        assert [] + s.tasks == s.tasks;
        assert s.tasks != [] ==> Select(s.tasks, AsHop) == Optional(AsHop(s.tasks[0])) + Select(s.tasks[1..], AsHop);
      }
    }
  }

  lemma Books(s: Client, p: PromiseId)
    requires Reachable(s)
    ensures Sound(s, p)
  {
    var config: Config, contextCreated: bool, evs: seq<Event> :|
      s == Steps(Initial(config, contextCreated), evs);
    SoundReachable(config, contextCreated, evs, p);
  }

  /** Queue accounting: what was written, then what failed, then what is in
      flight, then what waits, then what was dropped is always the chunk
      expansion of the accepted calls. In particular the wire carries a prefix
      of it. */
  lemma QueueAccounting(s: Client)
    requires Reachable(s)
    ensures s.out.written + Optional(s.out.failed) + Optional(s.out.inFlight) + s.out.toBeWritten + s.out.dropped
            == Expand(s.out.accepted, s.config.maxFrameSize)
    ensures s.out.written <= Expand(s.out.accepted, s.config.maxFrameSize)
  {
    Books(s, 0);
  }

  /** Nothing more will happen to the promises: the client is closed for good,
      the event loop has run all its tasks and no write is in flight. */
  predicate Quiet(s: Client) {
    IsClosedForever(s) && s.loop.Idle? && s.tasks == [] && s.out.inFlight.None?
  }

  /** Promise conservation. In every reachable state a promise handed to `send`
      is in exactly one place and a promise that was not is nowhere; none is
      resolved twice; and once the client is quiet, every promise is resolved. */
  lemma PromiseConservation(s: Client, p: PromiseId)
    requires Reachable(s)
    ensures Carriers(Hops(s.tasks), p) + Carriers(Doomed(s.loop), p) + Carriers(Optional(s.out.inFlight), p)
            + Carriers(s.out.toBeWritten, p) + Resolved(s.out.resolved, p)
            == if p in s.out.issued then 1 else 0
    ensures Resolved(s.out.resolved, p) <= 1
    ensures Quiet(s) && p in s.out.issued ==> Resolved(s.out.resolved, p) == 1
  {
    Books(s, p);
    Base(s);
  }

  lemma {:induction false} OneCarrier(es: seq<Entry>, p: PromiseId, i: nat, j: nat)
    requires i < |es| && j < |es| && es[i].promise == es[j].promise == Some(p)
    requires Carriers(es, p) <= 1
    ensures i == j
  {
    if i > 0 && j > 0 {
      OneCarrier(es[1..], p, i - 1, j - 1);
    } else if i > 0 {
      CarrierCounts(es[1..], p, i - 1);
    } else if j > 0 {
      CarrierCounts(es[1..], p, j - 1);
    }
  }

  lemma {:induction false} CarrierCounts(es: seq<Entry>, p: PromiseId, i: nat)
    requires i < |es| && es[i].promise == Some(p)
    ensures Carriers(es, p) >= 1
  {
    if i > 0 {
      CarrierCounts(es[1..], p, i - 1);
    }
  }

  lemma {:induction false} FindCarrier(es: seq<Entry>, p: PromiseId) returns (i: nat)
    requires Carriers(es, p) >= 1
    ensures i < |es| && es[i].promise == Some(p)
  {
    if es[0].promise == Some(p) {
      i := 0;
    } else {
      i := FindCarrier(es[1..], p);
      i := i + 1;
    }
  }

  /** The ledger holds a promise at most once. */
  lemma LedgerCarriesOnce(s: Client, p: PromiseId)
    requires Sound(s, p)
    ensures Carriers(Ledger(s.out), p) <= 1
  {
    var o := s.out;
    OutcomesAddUp(o.resolved, p);
    CarriersAppend(o.written, Optional(o.failed), p);
    CarriersAppend(o.written + Optional(o.failed), Optional(o.inFlight), p);
    CarriersAppend(o.written + Optional(o.failed) + Optional(o.inFlight), o.toBeWritten, p);
    CarriersAppend(o.written + Optional(o.failed) + Optional(o.inFlight) + o.toBeWritten, o.dropped, p);
  }

  /** The frames of the first `i + 1` calls end with the one that carries the
      promise of call `i`. */
  lemma LastFrameCarries(calls: seq<Entry>, i: nat, size: FrameLimit)
    requires i < |calls|
    ensures var es := Expand(calls[..i + 1], size);
            && es != [] && es <= Expand(calls, size)
            && es[|es| - 1].promise == calls[i].promise
  {
    var e := calls[i];
    assert calls[..i + 1] == calls[..i] + [e];
    ExpandOne(calls[..i], e, size);
    assert calls == calls[..i + 1] + calls[i + 1..];
    ExpandAppend(calls[..i + 1], calls[i + 1..], size);
    if NeedsSplit(e, size) {
      SplitAt(Chunked(e.data, size), e.opcode, e.fin, e.promise);
    }
  }

  /** Of two prefixes of a list that holds `p` once: the first holds it exactly
      if it reaches as far as the second, which ends with it. */
  lemma PrefixCarries(all: seq<Entry>, some: seq<Entry>, upTo: seq<Entry>, p: PromiseId)
    requires some <= all && upTo <= all && Carriers(all, p) <= 1
    requires upTo != [] && upTo[|upTo| - 1].promise == Some(p)
    ensures Carriers(some, p) > 0 <==> upTo <= some
  {
    if Carriers(some, p) > 0 {
      var j := FindCarrier(some, p);
      OneCarrier(all, p, j, |upTo| - 1);
    }
    if upTo <= some {
      CarrierCounts(some, p, |upTo| - 1);
    }
  }

  /** The same of the histories of a state. */
  lemma SuccessIffWritten(s: Client, i: nat, p: PromiseId)
    requires Reachable(s)
    requires i < |s.out.accepted| && s.out.accepted[i].promise == Some(p)
    ensures Resolution(p, Succeeded) in s.out.resolved
            <==> Expand(s.out.accepted[..i + 1], s.config.maxFrameSize) <= s.out.written
  {
    Books(s, p);
    LedgerCarriesOnce(s, p);
    LastFrameCarries(s.out.accepted, i, s.config.maxFrameSize);
    OutcomesIff(s.out.resolved, p, Succeeded);
    PrefixCarries(Ledger(s.out), s.out.written, Expand(s.out.accepted[..i + 1], s.config.maxFrameSize), p);
  }

  /** In every run: the promise of an accepted call succeeds if and only if the
      write call of every frame of that call, and of all calls before it,
      returned success; that is, if and only if the write call of its last frame
      came and did. A Close frame counts as written. */
  lemma SuccessMeansWritten(x: Execution, i: nat, p: PromiseId)
    requires i < |Accepted(x)| && Accepted(x)[i].promise == Some(p)
    ensures Resolution(p, Succeeded) in Final(x).out.resolved
            <==> Expand(Accepted(x)[..i + 1], x.config.maxFrameSize) <= Wire(x)
    ensures Resolution(p, Succeeded) in Final(x).out.resolved
            <==> exists n :: 0 <= n < |x.events|
                             && WritesFor(Before(x, n), x.events[n], p) && WriteWell(Before(x, n), x.events[n])
  {
    FinalIsReachable(x);
    AcceptedIsWhatWasCalled(x);
    WrittenIsWhatSucceeded(x);
    SuccessIffWritten(Final(x), i, p);
    OutcomeIsTheResult(x, p);
  }
}
