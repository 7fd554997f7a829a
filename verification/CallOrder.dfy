/** The order of calls. A call of `send` on another thread hops to the event
    loop; the calls are accepted in the order in which they were made. */
module CallOrder {
  import opened Protocol
  import opened ClientState
  import opened Connection
  import opened Accounting
  import opened History

  /** The promises of a list of calls. */
  function Promises(es: seq<Entry>): (ps: seq<PromiseId>) {
    if es == [] then [] else Optional(es[0].promise) + Promises(es[1..])
  }

  lemma {:induction false} PromisesOne(es: seq<Entry>, e: Entry)
    ensures Promises(es + [e]) == Promises(es) + Optional(e.promise)
  {
    if es == [] {
      assert es + [e] == [e] && [e][1..] == [];
    } else {
      assert (es + [e])[1..] == es[1..] + [e];
      PromisesOne(es[1..], e);
    }
  }

  /** `a` is `b` with some elements left out. */
  predicate Subsequence(a: seq<PromiseId>, b: seq<PromiseId>)
    decreases |b|
  {
    a == [] ||
    (b != [] &&
     (var init := b[..|b| - 1];
      || Subsequence(a, init)
      || (a[|a| - 1] == b[|b| - 1] && Subsequence(a[..|a| - 1], init))))
  }

  lemma SubsequenceLonger(a: seq<PromiseId>, b: seq<PromiseId>, p: PromiseId)
    requires Subsequence(a, b)
    ensures Subsequence(a, b + [p]) && Subsequence(a + [p], b + [p])
  {
    assert (b + [p])[..|b + [p]| - 1] == b && (a + [p])[..|a + [p]| - 1] == a;
  }

  /** `hops` are the last ones of `issued`, and `accepted` a subsequence of those
      before them. */
  predicate Placed(issued: seq<PromiseId>, hops: seq<PromiseId>, accepted: seq<PromiseId>) {
    && |hops| <= |issued|
    && issued[|issued| - |hops|..] == hops
    && Subsequence(accepted, issued[..|issued| - |hops|])
  }

  lemma PlacedLater(issued: seq<PromiseId>, hops: seq<PromiseId>, accepted: seq<PromiseId>, q: Option<PromiseId>)
    requires Placed(issued, hops, accepted)
    ensures Placed(issued + Optional(q), hops + Optional(q), accepted)
  {
    var n := |issued| - |hops|;
    assert (issued + Optional(q))[..n] == issued[..n];
    assert (issued + Optional(q))[n..] == hops + Optional(q);
  }

  lemma PlacedNext(issued: seq<PromiseId>, hops: seq<PromiseId>, accepted: seq<PromiseId>, p: PromiseId)
    requires Placed(issued, [p] + hops, accepted)
    ensures Placed(issued, hops, accepted) && Placed(issued, hops, accepted + [p])
  {
    var n := |issued| - |[p] + hops|;
    assert issued[n] == issued[n..][0] == p;
    assert issued[n + 1..] == issued[n..][1..] == hops;
    assert issued[..n + 1] == issued[..n] + [p];
    SubsequenceLonger(accepted, issued[..n], p);
  }

  /** The calls on their way are the last ones made, and the accepted calls are,
      among those that have arrived, in the order in which they were made. */
  predicate InCallOrder(o: Outbox, hops: seq<PromiseId>) {
    Placed(o.issued, hops, Promises(o.accepted))
  }

  lemma SendAccepts(s: Client, o: Outbox, e: Entry)
    ensures var r := SendInto(s, o, e);
            r.issued == o.issued && (r.accepted == o.accepted || r.accepted == o.accepted + [e])
  {
  }

  lemma PlacedSend(issued: seq<PromiseId>, hops: seq<PromiseId>, accepted: seq<PromiseId>, q: Option<PromiseId>)
    requires Placed(issued, Optional(q) + hops, accepted)
    ensures Placed(issued, hops, accepted) && Placed(issued, hops, accepted + Optional(q))
  {
    if q.Some? {
      PlacedNext(issued, hops, accepted, q.value);
    } else {
      assert [] + hops == hops && accepted + [] == accepted;
    }
  }

  /** A call of which `r` is the outcome. */
  lemma OrderSend(o: Outbox, r: Outbox, hops: seq<PromiseId>, e: Entry)
    requires InCallOrder(o, Optional(e.promise) + hops)
    requires r.issued == o.issued && (r.accepted == o.accepted || r.accepted == o.accepted + [e])
    ensures InCallOrder(r, hops)
  {
    PromisesOne(o.accepted, e);
    PlacedSend(o.issued, hops, Promises(o.accepted), e.promise);
  }

  // ---- Steps ----

  /** A call on the event loop while calls from elsewhere are on their way. */
  predicate Overtakes(s: Client, ev: Event) {
    Enabled(s, ev) && ev.SendOnLoop? && ev.entry.promise.Some? && Promises(Hops(s.tasks)) != []
  }

  predicate OrderInv(s: Client) {
    InCallOrder(s.out, Promises(Hops(s.tasks)))
  }

  lemma HopsPerform(s: Client, t: Task)
    ensures Hops(Perform(s, t).tasks) == Hops(s.tasks)
  {
    var r := Perform(s, t);
    if r.tasks != s.tasks {
      NoneSelected(s.tasks, [r.tasks[|s.tasks|]], AsHop);
    }
  }

  lemma TaskPromise(t: Task, hops: seq<PromiseId>)
    ensures t.SendHop? ==> Promises(Optional(AsHop(t))) == Optional(t.entry.promise)
    ensures !t.SendHop? ==> Promises(Optional(AsHop(t))) + hops == hops
  {
    assert [] + hops == hops;
    if t.SendHop? {
      assert [t.entry][1..] == [];
    }
  }

  /** Task `t` is performed; before it, its promise was the next to arrive. */
  lemma OrderPerform(s: Client, t: Task)
    requires InCallOrder(s.out, Promises(Optional(AsHop(t))) + Promises(Hops(s.tasks)))
    ensures OrderInv(Perform(s, t))
  {
    var sent := PerformOut(s, t);
    var hops := Promises(Hops(s.tasks));
    HopsPerform(s, t);
    TaskPromise(t, hops);
    if sent.Some? {
      assert [] + hops == hops;
      SendAccepts(s, s.out, sent.value);
      OrderSend(s.out, Perform(s, t).out, hops, sent.value);
    }
  }

  lemma PromisesFirst(t: Task, rest: seq<Task>)
    ensures Promises(Hops([t] + rest)) == Promises(Optional(AsHop(t))) + Promises(Hops(rest))
  {
    FirstSelected(t, rest, AsHop);
    if t.SendHop? {
      assert ([t.entry] + Hops(rest))[1..] == Hops(rest) && [t.entry][1..] == [];
    } else {
      assert [] + Hops(rest) == Hops(rest);
    }
  }

  lemma OrderTask(s: Client)
    requires OrderInv(s) && Enabled(s, LoopTask)
    ensures OrderInv(Next(s, LoopTask))
  {
    var before, t := LoopStep(s, LoopTask);
    PromisesFirst(t, before.tasks);
    OrderPerform(before, t);
  }

  lemma OrderOnLoop(s: Client, e: Entry)
    requires OrderInv(s) && Enabled(s, SendOnLoop(e)) && !Overtakes(s, SendOnLoop(e))
    ensures OrderInv(Next(s, SendOnLoop(e)))
  {
    var hops := Promises(Hops(s.tasks));
    PlacedLater(s.out.issued, hops, Promises(s.out.accepted), e.promise);
    assert hops + Optional(e.promise) == Optional(e.promise) + hops;
    SendAccepts(s, Issue(s.out, e), e);
    OrderSend(Issue(s.out, e), Next(s, SendOnLoop(e)).out, hops, e);
  }

  lemma OrderElsewhere(s: Client, ev: Event)
    requires OrderInv(s) && Enabled(s, ev) && (ev.SendFromElsewhere? || ev.CloseFromElsewhere?)
    ensures OrderInv(Next(s, ev))
  {
    var e := if ev.SendFromElsewhere? then ev.entry else CloseEntry(ev.reason);
    var hops := Promises(Hops(s.tasks));
    SelectOne(s.tasks, SendHop(e), AsHop);
    PromisesOne(Hops(s.tasks), e);
    PlacedLater(s.out.issued, hops, Promises(s.out.accepted), e.promise);
    assert hops + [] == hops;
  }

  lemma OrderOther(s: Client, ev: Event)
    requires OrderInv(s) && Enabled(s, ev) && !OnLoop(ev) && !ev.SendFromElsewhere? && !ev.CloseFromElsewhere?
    ensures OrderInv(Next(s, ev))
  {
    var more := NewTasks(s, ev);
    NoneSelected(s.tasks, more, AsHop);
    IssuedSame(s, ev);
    AcceptedSame(s, ev);
  }

  lemma AcceptedSame(s: Client, ev: Event)
    requires Enabled(s, ev) && !OnLoop(ev)
    ensures Next(s, ev).out.accepted == s.out.accepted
  {
  }

  lemma OrderStep(s: Client, ev: Event)
    requires OrderInv(s) && !Overtakes(s, ev)
    ensures OrderInv(Next(s, ev))
  {
    if !Enabled(s, ev) {
    } else if ev.LoopTask? {
      OrderTask(s);
    } else if ev.SendOnLoop? {
      OrderOnLoop(s, ev.entry);
    } else if OnLoop(ev) {
      OrderControl(s, ev);
    } else if ev.SendFromElsewhere? || ev.CloseFromElsewhere? {
      OrderElsewhere(s, ev);
    } else {
      OrderOther(s, ev);
    }
  }

  lemma OrderControl(s: Client, ev: Event)
    requires OrderInv(s) && Enabled(s, ev) && OnLoop(ev) && !ev.LoopTask? && !ev.SendOnLoop?
    ensures OrderInv(Next(s, ev))
  {
    var before, t := LoopStep(s, ev);
    TaskPromise(t, Promises(Hops(s.tasks)));
    assert [] + Promises(Hops(s.tasks)) == Promises(Hops(s.tasks));
    OrderPerform(before, t);
  }

  /** In every run in which no call on the event loop overtakes calls from other
      threads: the promises of the accepted calls are a subsequence of those
      handed to `send`, in the order of the calls, and the calls still on their
      way are the last ones made. With the results from `accepted` to the peer,
      the peer gets the messages in the order of the calls. */
  lemma {:induction false} AcceptedInCallOrder(config: Config, contextCreated: bool, evs: seq<Event>)
    requires forall n :: 0 <= n < |evs| ==> !Overtakes(Steps(Initial(config, contextCreated), evs[..n]), evs[n])
    ensures var s := Steps(Initial(config, contextCreated), evs);
            InCallOrder(s.out, Promises(Hops(s.tasks)))
    decreases |evs|
  {
    if evs != [] {
      var init := evs[..|evs| - 1];
      forall n | 0 <= n < |init|
        ensures !Overtakes(Steps(Initial(config, contextCreated), init[..n]), init[n])
      {
        assert init[..n] == evs[..n] && init[n] == evs[n];
      }
      AcceptedInCallOrder(config, contextCreated, init);
      OrderStep(Steps(Initial(config, contextCreated), init), evs[|evs| - 1]);
    } else {
      var s := Initial(config, contextCreated);
      assert s.tasks == [] + s.tasks;
      NoneSelected([], s.tasks, AsHop);
    }
  }

  // ---- The calls themselves ----

  /** A call of `send` or `close(reason:)` on another thread. */
  function MadeAt(s: Client, ev: Event): (es: seq<Entry>) {
    if !Enabled(s, ev) then []
    else
      match ev
      case SendFromElsewhere(e) => [e]
      case CloseFromElsewhere(reason) =>
        if s.link.connectionError || s.ending.status.Some? then [] else [Entry([], Close(reason), true, None)]
      case _ => []
  }

  /** Such a call reaches the event loop. */
  function ArrivedAt(s: Client, ev: Event): (es: seq<Entry>) {
    if ev.LoopTask? && Enabled(s, ev) && s.tasks[0].SendHop? then [s.tasks[0].entry] else []
  }

  lemma HopStep(s: Client, ev: Event)
    ensures Hops(s.tasks) + MadeAt(s, ev) == ArrivedAt(s, ev) + Hops(Next(s, ev).tasks)
  {
    if !Enabled(s, ev) {
    } else if OnLoop(ev) {
      var before, t := LoopStep(s, ev);
      HopsPerform(before, t);
      if ev.LoopTask? {
        FirstSelected(t, before.tasks, AsHop);
      }
    } else {
      HopOther(s, ev);
    }
  }

  lemma HopOther(s: Client, ev: Event)
    requires Enabled(s, ev) && !OnLoop(ev)
    ensures Hops(Next(s, ev).tasks) == Hops(s.tasks) + MadeAt(s, ev)
  {
    if ev.SendFromElsewhere? || ev.CloseFromElsewhere? {
      SelectOne(s.tasks, SendHop(if ev.SendFromElsewhere? then ev.entry else CloseEntry(ev.reason)), AsHop);
    } else {
      var more := NewTasks(s, ev);
      NoneSelected(s.tasks, more, AsHop);
    }
  }

  lemma {:induction false} HopLog(s: Client, evs: seq<Event>)
    ensures Hops(s.tasks) + Log(s, evs, MadeAt) == Log(s, evs, ArrivedAt) + Hops(Steps(s, evs).tasks)
    decreases |evs|
  {
    if evs != [] {
      var init, last := evs[..|evs| - 1], evs[|evs| - 1];
      var before := Steps(s, init);
      HopLog(s, init);
      HopStep(before, last);
      QueueChain(Hops(s.tasks), Log(s, init, MadeAt), Log(s, init, ArrivedAt), Hops(before.tasks),
                 MadeAt(before, last), ArrivedAt(before, last), Hops(Next(before, last).tasks));
    } else {
      assert Hops(s.tasks) + [] == [] + Hops(s.tasks);
    }
  }

  /** Calls on other threads reach the event loop unchanged and in the order in
      which they were made; those that have not yet are the last ones. */
  lemma CallsArriveInOrder(x: Execution)
    ensures Log(Start(x), x.events, MadeAt) == Log(Start(x), x.events, ArrivedAt) + Hops(Final(x).tasks)
  {
    HopLog(Start(x), x.events);
    assert Start(x).tasks == [] + Start(x).tasks;
    NoneSelected([], Start(x).tasks, AsHop);
  }
}
