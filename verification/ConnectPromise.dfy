/** The connect promise and the six places that may resolve it: the context
    failure, the failed connect call, the ESTABLISHED and CONNECTION_ERROR
    callbacks, the timeout and `deinit`. */
module ConnectPromise {
  import opened Protocol
  import opened ClientState
  import opened Connection
  import opened History

  function AsTaken(t: Task): (r: Option<bool>) {
    if t.FailTakenConnect? then Some(false) else None
  }

  /** The promise is in its box, on its way to be failed by `deinit`, or
      resolved: exactly one of the three. */
  predicate OnceInv(s: Client) {
    (if s.opening.onConnect then 1 else 0) + |Select(s.tasks, AsTaken)| + |s.opening.resolutions| == 1
  }

  /** It can only succeed on a connection that was established, and as long as
      it is in its box something is left that will take it out. */
  predicate OpeningInv(s: Client) {
    && (ConnectSucceeds in s.tasks ==> s.link.wasConnected)
    && (true in s.opening.resolutions ==> s.link.wasConnected)
    && (s.opening.onConnect ==> s.opening.timer || ConnectFails in s.tasks)
  }

  lemma OncePerform(s: Client, t: Task)
    requires s.loop.Idle?
    ensures Select(Perform(s, t).tasks, AsTaken) == Select(s.tasks, AsTaken)
    ensures var b, a := s.opening, Perform(s, t).opening;
            && (if a.onConnect then 1 else 0) + |a.resolutions|
               == (if b.onConnect then 1 else 0) + |b.resolutions| + |Optional(AsTaken(t))|
  {
    var r := Perform(s, t);
    if r.tasks != s.tasks {
      NoneSelected(s.tasks, [r.tasks[|s.tasks|]], AsTaken);
    }
  }

  lemma OnceLoop(s: Client, ev: Event)
    requires OnceInv(s) && Enabled(s, ev) && OnLoop(ev)
    ensures OnceInv(Next(s, ev))
  {
    var before, t := LoopStep(s, ev);
    OncePerform(before, t);
    if ev.LoopTask? {
      FirstSelected(t, before.tasks, AsTaken);
    }
  }

  lemma OnceRelease(s: Client)
    requires OnceInv(s) && s.loop.Idle?
    ensures OnceInv(Deinit(s))
  {
    var r := Deinit(s);
    var more := if s.opening.onConnect then [FailTakenConnect] else [];
    if s.opening.onConnect {
      SelectOne(s.tasks, FailTakenConnect, AsTaken);
    } else {
      NoneSelected(s.tasks, more, AsTaken);
    }
    NoneSelected(s.tasks + more, [CallOnClose(GOING_AWAY)], AsTaken);
  }

  lemma OnceStep(s: Client, ev: Event)
    requires OnceInv(s)
    ensures OnceInv(Next(s, ev))
  {
    if !Enabled(s, ev) {
    } else if OnLoop(ev) {
      OnceLoop(s, ev);
    } else if ev.Release? {
      OnceRelease(s);
    } else {
      var more := NewTasks(s, ev);
      NoneSelected(s.tasks, more, AsTaken);
      OpeningSame(s, ev);
    }
  }

  lemma OpeningSame(s: Client, ev: Event)
    requires Enabled(s, ev) && !OnLoop(ev) && !ev.Release?
    ensures var a, b := Next(s, ev).opening, s.opening;
            (if a.onConnect then 1 else 0) + |a.resolutions| == (if b.onConnect then 1 else 0) + |b.resolutions|
  {
  }

  lemma OpeningPerform(s: Client, t: Task)
    requires s.loop.Idle?
    requires ConnectSucceeds in [t] + s.tasks ==> s.link.wasConnected
    requires true in s.opening.resolutions ==> s.link.wasConnected
    requires s.opening.onConnect ==> s.opening.timer || ConnectFails in [t] + s.tasks
    ensures OpeningInv(Perform(s, t))
  {
  }

  lemma OpeningOther(s: Client, ev: Event)
    requires OpeningInv(s) && Enabled(s, ev) && !OnLoop(ev)
    ensures OpeningInv(Next(s, ev))
  {
    var more := NewTasks(s, ev);
  }

  lemma OpeningStep(s: Client, ev: Event)
    requires OpeningInv(s)
    ensures OpeningInv(Next(s, ev))
  {
    if !Enabled(s, ev) {
    } else if OnLoop(ev) {
      var before, t := LoopStep(s, ev);
      OpeningPerform(before, t);
    } else {
      OpeningOther(s, ev);
    }
  }

  lemma {:induction false} OpeningReachable(config: Config, contextCreated: bool, evs: seq<Event>)
    ensures var s := Steps(Initial(config, contextCreated), evs); OnceInv(s) && OpeningInv(s)
    decreases |evs|
  {
    if evs != [] {
      var s, ev := Steps(Initial(config, contextCreated), evs[..|evs| - 1]), evs[|evs| - 1];
      OpeningReachable(config, contextCreated, evs[..|evs| - 1]);
      OnceStep(s, ev);
      OpeningStep(s, ev);
    } else {
      var s := Initial(config, contextCreated);
      assert s.tasks == [] + s.tasks;
      NoneSelected([], s.tasks, AsTaken);
    }
  }

  lemma OpeningFacts(s: Client)
    requires Reachable(s)
    ensures OnceInv(s) && OpeningInv(s)
  {
    var config: Config, contextCreated: bool, evs: seq<Event> :|
      s == Steps(Initial(config, contextCreated), evs);
    OpeningReachable(config, contextCreated, evs);
  }

  lemma {:induction false} TakenIff(tasks: seq<Task>)
    ensures Select(tasks, AsTaken) == [] <==> FailTakenConnect !in tasks
  {
    if tasks != [] {
      TakenIff(tasks[1..]);
    }
  }

  /** Under every interleaving of its six resolvers the connect promise is
      resolved at most once, and it succeeds only on an established connection.
      It has been resolved if and only if it is no longer in its box and not on
      its way to be failed by `deinit`. */
  lemma ConnectOnce(s: Client)
    requires Reachable(s)
    ensures |s.opening.resolutions| <= 1
    ensures s.opening.resolutions == [true] ==> s.link.wasConnected && !s.link.connectionError
    ensures |s.opening.resolutions| == 1 <==> !s.opening.onConnect && FailTakenConnect !in s.tasks
  {
    OpeningFacts(s);
    Base(s);
    TakenIff(s.tasks);
  }

  /** With a context the promise stays in its box no longer than the timeout
      takes. */
  lemma {:induction false} TimeoutTakesPromise(config: Config, evs: seq<Event>)
    ensures var c := Steps(Initial(config, true), evs).opening; c.onConnect ==> c.timer
    decreases |evs|
  {
    if evs != [] {
      TimeoutTakesPromise(config, evs[..|evs| - 1]);
      BoxStep(Steps(Initial(config, true), evs[..|evs| - 1]), evs[|evs| - 1]);
    }
  }

  lemma BoxStep(s: Client, ev: Event)
    ensures var a, b := Next(s, ev).opening, s.opening;
            (a.onConnect ==> b.onConnect) && (a.timer != b.timer ==> !a.onConnect)
  {
    if Enabled(s, ev) && OnLoop(ev) {
      var before, t := LoopStep(s, ev);
      assert Perform(before, t).opening.timer == s.opening.timer;
    }
  }

  /** Exactly once. With a context: as soon as the timeout has run, whatever
      tasks are still queued, unless `deinit` has taken the promise and its task
      has yet to fail it. Without one: as soon as the tasks that fail it have
      run. */
  lemma ConnectResolved(config: Config, contextCreated: bool, evs: seq<Event>)
    ensures var s := Steps(Initial(config, contextCreated), evs);
            && FailTakenConnect !in s.tasks
            && (if contextCreated then !s.opening.timer else ConnectFails !in s.tasks)
            ==> |s.opening.resolutions| == 1
  {
    var s := Steps(Initial(config, contextCreated), evs);
    OpeningReachable(config, contextCreated, evs);
    TakenIff(s.tasks);
    if contextCreated {
      TimeoutTakesPromise(config, evs);
    } else {
      NoTimer(config, evs);
    }
  }

  lemma {:induction false} NoTimer(config: Config, evs: seq<Event>)
    ensures !Steps(Initial(config, false), evs).opening.timer
    decreases |evs|
  {
    if evs != [] {
      NoTimer(config, evs[..|evs| - 1]);
      TimerStep(Steps(Initial(config, false), evs[..|evs| - 1]), evs[|evs| - 1]);
    }
  }

  lemma TimerStep(s: Client, ev: Event)
    ensures Next(s, ev).opening.timer ==> s.opening.timer
  {
    if Enabled(s, ev) && OnLoop(ev) {
      var before, t := LoopStep(s, ev);
      assert Perform(before, t).opening.timer == s.opening.timer;
    }
  }

  lemma ResolutionsStep(s: Client, ev: Event)
    ensures s.opening.resolutions <= Next(s, ev).opening.resolutions
  {
    if Enabled(s, ev) && OnLoop(ev) {
      var before, t := LoopStep(s, ev);
      assert s.opening.resolutions <= Perform(before, t).opening.resolutions;
    }
  }

  lemma {:induction false} ResolutionsGrow(s: Client, evs: seq<Event>)
    ensures s.opening.resolutions <= Steps(s, evs).opening.resolutions
    decreases |evs|
  {
    if evs != [] {
      ResolutionsGrow(s, evs[..|evs| - 1]);
      ResolutionsStep(Steps(s, evs[..|evs| - 1]), evs[|evs| - 1]);
    }
  }

  /** The outcome of connecting is final in every continuation of every run. */
  lemma ConnectOutcomeIsFinal(s: Client, evs: seq<Event>)
    requires Reachable(s) && s.opening.resolutions != []
    ensures Steps(s, evs).opening.resolutions == s.opening.resolutions
  {
    ResolutionsGrow(s, evs);
    ReachableSteps(s, evs);
    ConnectOnce(s);
    ConnectOnce(Steps(s, evs));
  }

  // ---- Which outcome ----

  function AsVote(t: Task): (r: Option<bool>) {
    if t.ConnectSucceeds? then Some(true) else if t.ConnectFails? then Some(false) else None
  }

  /** What the service thread reports to the event loop: ESTABLISHED, or
      CONNECTION_ERROR, or a connect call that failed. */
  function ReportAt(s: Client, ev: Event): (r: seq<bool>) {
    if Establishes(s, ev) then [true]
    else if Errs(s, ev) || (Connects(s, ev) && !ev.success) then [false]
    else []
  }

  /** Such a report is processed. */
  function ProcessedAt(s: Client, ev: Event): (r: seq<bool>) {
    if ev.LoopTask? && Enabled(s, ev) then Optional(AsVote(s.tasks[0])) else []
  }

  /** What may decide the promise: a report, the timeout, or the release. */
  function DecidedAt(s: Client, ev: Event): (r: seq<bool>) {
    if TimesOutConnecting(s, ev) || Releases(s, ev) then [false] else ProcessedAt(s, ev)
  }

  lemma VotePerform(s: Client, t: Task)
    ensures Select(Perform(s, t).tasks, AsVote) == Select(s.tasks, AsVote)
  {
    var r := Perform(s, t);
    if r.tasks != s.tasks {
      NoneSelected(s.tasks, [r.tasks[|s.tasks|]], AsVote);
    }
  }

  lemma VoteOther(s: Client, ev: Event)
    requires Enabled(s, ev) && !OnLoop(ev)
    ensures Select(Next(s, ev).tasks, AsVote) == Select(s.tasks, AsVote) + ReportAt(s, ev)
  {
    var r := Next(s, ev);
    if ReportAt(s, ev) != [] {
      SelectOne(s.tasks, r.tasks[|s.tasks|], AsVote);
    } else {
      var more := NewTasks(s, ev);
      VotesNotExpected(s, ev, more);
      NoneSelected(s.tasks, more, AsVote);
    }
  }

  lemma VotesNotExpected(s: Client, ev: Event, more: seq<Task>)
    requires Enabled(s, ev) && !OnLoop(ev) && ReportAt(s, ev) == [] && Next(s, ev).tasks == s.tasks + more
    ensures forall i :: 0 <= i < |more| ==> AsVote(more[i]).None?
  {
    forall i | 0 <= i < |more|
      ensures AsVote(more[i]).None?
    {
      assert more[i] == Next(s, ev).tasks[|s.tasks| + i];
    }
  }

  lemma VoteStep(s: Client, ev: Event)
    ensures Select(s.tasks, AsVote) + ReportAt(s, ev) == ProcessedAt(s, ev) + Select(Next(s, ev).tasks, AsVote)
  {
    if !Enabled(s, ev) {
    } else if OnLoop(ev) {
      var before, t := LoopStep(s, ev);
      VotePerform(before, t);
      if ev.LoopTask? {
        FirstSelected(t, before.tasks, AsVote);
      }
    } else {
      VoteOther(s, ev);
    }
  }

  lemma {:induction false} VoteLog(s: Client, evs: seq<Event>)
    ensures Select(s.tasks, AsVote) + Log(s, evs, ReportAt)
            == Log(s, evs, ProcessedAt) + Select(Steps(s, evs).tasks, AsVote)
    decreases |evs|
  {
    if evs != [] {
      var init, last := evs[..|evs| - 1], evs[|evs| - 1];
      var before := Steps(s, init);
      VoteLog(s, init);
      VoteStep(before, last);
      QueueChain(Select(s.tasks, AsVote), Log(s, init, ReportAt), Log(s, init, ProcessedAt),
                 Select(before.tasks, AsVote), ReportAt(before, last), ProcessedAt(before, last),
                 Select(Next(before, last).tasks, AsVote));
    } else {
      assert Select(s.tasks, AsVote) + [] == [] + Select(s.tasks, AsVote);
    }
  }

  function First(ds: seq<bool>): (r: seq<bool>) {
    if ds == [] then [] else [ds[0]]
  }

  /** The promise is in its box exactly while nothing has decided it; the first
      decision is its outcome, or will be once the task of `deinit` has run. */
  predicate Decides(s: Client, decisions: seq<bool>) {
    && (s.opening.onConnect <==> decisions == [])
    && s.opening.resolutions + Select(s.tasks, AsTaken) == First(decisions)
  }

  lemma DecidePerform(s: Client, t: Task, decisions: seq<bool>)
    requires s.loop.Idle? && (s.opening.onConnect <==> decisions == [])
    requires s.opening.resolutions + (Optional(AsTaken(t)) + Select(s.tasks, AsTaken)) == First(decisions)
    ensures Decides(Perform(s, t), decisions + Optional(AsVote(t)))
  {
    OncePerform(s, t);
    BoxPerform(s, t);
    if t.FailTakenConnect? {
      Regroup(s.opening.resolutions, [false], Select(s.tasks, AsTaken), decisions);
    } else {
      Regroup(s.opening.resolutions, [], Select(s.tasks, AsTaken), decisions);
      if AsVote(t).Some? && s.opening.onConnect {
        FirstDecision(s.opening.resolutions, Select(s.tasks, AsTaken), AsVote(t).value);
      }
    }
  }

  lemma Regroup(a: seq<bool>, b: seq<bool>, c: seq<bool>, decisions: seq<bool>)
    ensures a + (b + c) == (a + b) + c && a + [] == a && decisions + [] == decisions
  {
  }

  lemma FirstDecision(resolutions: seq<bool>, taken: seq<bool>, d: bool)
    requires resolutions + taken == []
    ensures (resolutions + [d]) + taken == [d] && [] + [d] == [d]
  {
    assert resolutions == [] && taken == [];
  }

  /** What a task does to the box and the outcome. */
  lemma BoxPerform(s: Client, t: Task)
    ensures var a, b := Perform(s, t).opening, s.opening;
            && a.onConnect == (b.onConnect && AsVote(t).None?)
            && a.resolutions == b.resolutions
                 + (if t.FailTakenConnect? then [false] else if b.onConnect then Optional(AsVote(t)) else [])
  {
  }

  lemma DecideLoop(s: Client, ev: Event, decisions: seq<bool>)
    requires Decides(s, decisions) && Enabled(s, ev) && OnLoop(ev)
    ensures Decides(Next(s, ev), decisions + DecidedAt(s, ev))
  {
    var before, t := LoopStep(s, ev);
    TakenBefore(s, ev, before, t);
    DecidePerform(before, t, decisions);
    DecidedOnLoop(s, ev, before, t);
  }

  lemma TakenBefore(s: Client, ev: Event, before: Client, t: Task)
    requires if ev.LoopTask? then s.tasks == [t] + before.tasks else before.tasks == s.tasks && !t.FailTakenConnect?
    ensures Optional(AsTaken(t)) + Select(before.tasks, AsTaken) == Select(s.tasks, AsTaken)
  {
    if ev.LoopTask? {
      FirstSelected(t, before.tasks, AsTaken);
    } else {
      assert [] + Select(s.tasks, AsTaken) == Select(s.tasks, AsTaken);
    }
  }

  lemma DecidedOnLoop(s: Client, ev: Event, before: Client, t: Task)
    requires Enabled(s, ev) && OnLoop(ev)
    requires if ev.LoopTask? then s.tasks == [t] + before.tasks else AsVote(t).None?
    ensures DecidedAt(s, ev) == Optional(AsVote(t))
  {
  }

  lemma DecideRelease(s: Client, decisions: seq<bool>)
    requires Decides(s, decisions) && s.loop.Idle?
    ensures Decides(Deinit(s), decisions + [false])
  {
    var more := if s.opening.onConnect then [FailTakenConnect] else [];
    if s.opening.onConnect {
      SelectOne(s.tasks, FailTakenConnect, AsTaken);
    } else {
      NoneSelected(s.tasks, more, AsTaken);
    }
    NoneSelected(s.tasks + more, [CallOnClose(GOING_AWAY)], AsTaken);
  }

  lemma DecideOther(s: Client, ev: Event, decisions: seq<bool>)
    requires Decides(s, decisions) && Enabled(s, ev) && !OnLoop(ev) && !ev.Release?
    ensures Decides(Next(s, ev), decisions + DecidedAt(s, ev))
  {
    var more := NewTasks(s, ev);
    NoneSelected(s.tasks, more, AsTaken);
    BoxOther(s, ev);
    assert decisions + [] == decisions;
  }

  lemma BoxOther(s: Client, ev: Event)
    requires Enabled(s, ev) && !OnLoop(ev) && !ev.Release?
    ensures var a, b := Next(s, ev).opening, s.opening;
            if ev.ConnectTimeout? && b.onConnect then !a.onConnect && a.resolutions == b.resolutions + [false]
            else a.onConnect == b.onConnect && a.resolutions == b.resolutions
    ensures DecidedAt(s, ev) == if ev.ConnectTimeout? then [false] else []
  {
  }

  lemma DecideStep(s: Client, ev: Event, decisions: seq<bool>)
    requires Decides(s, decisions)
    ensures Decides(Next(s, ev), decisions + DecidedAt(s, ev))
  {
    if !Enabled(s, ev) {
      assert decisions + [] == decisions;
    } else if OnLoop(ev) {
      DecideLoop(s, ev, decisions);
    } else if ev.Release? {
      DecideRelease(s, decisions);
    } else {
      DecideOther(s, ev, decisions);
    }
  }

  lemma {:induction false} DecideLog(x: Execution, n: nat)
    requires n <= |x.events|
    ensures Decides(Before(x, n), Log(Start(x), x.events[..n], DecidedAt))
  {
    if n > 0 {
      var s, ev := Before(x, n - 1), x.events[n - 1];
      var decisions := Log(Start(x), x.events[..n - 1], DecidedAt);
      assert x.events[..n][..n - 1] == x.events[..n - 1];
      DecideLog(x, n - 1);
      DecideStep(s, ev, decisions);
    } else {
      assert Start(x).tasks == [] + Start(x).tasks;
      NoneSelected([], Start(x).tasks, AsTaken);
    }
  }

  /** In every run: the reports of the service thread are processed in order,
      after that of a missing context; and the outcome of the promise is the
      first decision, success for ESTABLISHED and failure for everything else.
      Only the task of `deinit` may still have to fail it. */
  lemma OutcomeIsFirstDecision(x: Execution)
    ensures (if x.contextCreated then [] else [false]) + Log(Start(x), x.events, ReportAt)
            == Log(Start(x), x.events, ProcessedAt) + Select(Final(x).tasks, AsVote)
    ensures FailTakenConnect !in Final(x).tasks ==>
              Final(x).opening.resolutions == First(Log(Start(x), x.events, DecidedAt))
  {
    VoteLog(Start(x), x.events);
    FirstVotes(x);
    OutcomeSoFar(x);
  }

  lemma FirstVotes(x: Execution)
    ensures Select(Start(x).tasks, AsVote) == if x.contextCreated then [] else [false]
  {
    if !x.contextCreated {
      assert Start(x).tasks == [ConnectFails];
      assert Select([ConnectFails], AsVote) == [false] + Select([ConnectFails][1..], AsVote);
    }
  }

  lemma OutcomeSoFar(x: Execution)
    ensures FailTakenConnect !in Final(x).tasks ==>
              Final(x).opening.resolutions == First(Log(Start(x), x.events, DecidedAt))
  {
    assert x.events[..|x.events|] == x.events;
    DecideLog(x, |x.events|);
    TakenIff(Final(x).tasks);
    assert Final(x).opening.resolutions + [] == Final(x).opening.resolutions;
  }

  lemma {:induction false} ReportsDecide(s: Client, evs: seq<Event>)
    requires !Happens(s, evs, TimesOutConnecting) && !Happens(s, evs, Releases)
    ensures Log(s, evs, DecidedAt) == Log(s, evs, ProcessedAt)
    decreases |evs|
  {
    if evs != [] {
      ReportsDecide(s, evs[..|evs| - 1]);
    }
  }

  /** Before the timeout and the release: once the tasks have run, the first
      report is the outcome. So a connection error or a failed connect call has
      failed the promise, and ESTABLISHED has fulfilled it. */
  lemma FirstReportDecides(x: Execution)
    requires !Happens(Start(x), x.events, TimesOutConnecting) && !Happens(Start(x), x.events, Releases)
    requires Final(x).tasks == []
    ensures Final(x).opening.resolutions
            == First((if x.contextCreated then [] else [false]) + Log(Start(x), x.events, ReportAt))
  {
    OutcomeIsFirstDecision(x);
    ReportsDecide(Start(x), x.events);
    var processed := Log(Start(x), x.events, ProcessedAt);
    assert processed + [] == processed;
  }
}
