/** The ping/pong keepalive. */
module PingPong {
  import opened Protocol
  import opened ClientState
  import opened Connection
  import opened History
  import opened CloseProtocol

  // ---- When a tick finds the pong missing ----

  predicate IsTick(b: Beat) {
    b.Pinged? || b.TimedOut?
  }

  /** A tick looks for the pong. */
  predicate Checks(s: Client, ev: Event) {
    ev.LoopCheck? && Enabled(s, ev)
  }

  /** A pong reaches the client, or the setter forgets the ping. */
  predicate Answers(s: Client, ev: Event) {
    (ev.PongCb? && Reaches(s, ev)) || (ev.RestartPing? && Enabled(s, ev))
  }

  /** Read off the events: the last tick that looked for a pong sent a ping, and
      neither a pong nor a call of the setter came since. */
  predicate Unanswered(s: Client, evs: seq<Event>)
    decreases |evs|
  {
    evs != [] &&
    (var init, last := evs[..|evs| - 1], evs[|evs| - 1];
     if Checks(Steps(s, init), last) then !Unanswered(s, init)
     else Unanswered(s, init) && !Answers(Steps(s, init), last))
  }

  lemma WaitingPerform(s: Client, t: Task)
    ensures Perform(s, t).ping.waitingForPong
            == if t.CheckPong? then !s.ping.waitingForPong else s.ping.waitingForPong
  {
  }

  lemma WaitingStep(s: Client, ev: Event)
    ensures Next(s, ev).ping.waitingForPong
            == if Checks(s, ev) then !s.ping.waitingForPong else s.ping.waitingForPong && !Answers(s, ev)
  {
    if Enabled(s, ev) && OnLoop(ev) {
      var before, t := LoopStep(s, ev);
      WaitingPerform(before, t);
    }
  }

  lemma {:induction false} WaitingIsUnanswered(x: Execution, n: nat)
    requires n <= |x.events|
    ensures Before(x, n).ping.waitingForPong == Unanswered(Start(x), x.events[..n])
  {
    if n > 0 {
      assert x.events[..n][..n - 1] == x.events[..n - 1];
      WaitingIsUnanswered(x, n - 1);
      WaitingStep(Before(x, n - 1), x.events[n - 1]);
    }
  }

  /** Event `m` of the run is a tick that pings. */
  predicate PingsAt(x: Execution, m: nat)
    requires m < |x.events|
  {
    Checks(Before(x, m), x.events[m]) && !Before(x, m).ping.waitingForPong
  }

  /** Event `k` of the run is a tick, a pong or a call of the setter. */
  predicate BeatsAt(x: Execution, k: nat)
    requires k < |x.events|
  {
    Checks(Before(x, k), x.events[k]) || Answers(Before(x, k), x.events[k])
  }

  /** Since the ping of event `m` nothing came up to event `n`. */
  predicate PingLeft(x: Execution, m: nat, n: nat)
    requires m < n <= |x.events|
  {
    PingsAt(x, m) && forall k :: m < k < n ==> !BeatsAt(x, k)
  }

  ghost predicate SomePingLeft(x: Execution, n: nat)
    requires n <= |x.events|
  {
    exists m :: 0 <= m < n && PingLeft(x, m, n)
  }

  lemma {:induction false} WaitingIff(x: Execution, n: nat)
    requires n <= |x.events|
    ensures Before(x, n).ping.waitingForPong <==> SomePingLeft(x, n)
  {
    if n > 0 {
      assert x.events[..n][..n - 1] == x.events[..n - 1];
      WaitingIff(x, n - 1);
      if Next(Before(x, n - 1), x.events[n - 1]).ping.waitingForPong {
        LeftAfter(x, n - 1);
      } else if m :| 0 <= m < n && PingLeft(x, m, n) {
        LeftBefore(x, m, n - 1);
        assert false;
      }
    }
  }

  lemma LeftAfter(x: Execution, n: nat)
    requires n < |x.events| && (Before(x, n).ping.waitingForPong ==> SomePingLeft(x, n))
    requires Next(Before(x, n), x.events[n]).ping.waitingForPong
    ensures SomePingLeft(x, n + 1)
  {
    WaitingStep(Before(x, n), x.events[n]);
    if Checks(Before(x, n), x.events[n]) {
      assert PingLeft(x, n, n + 1);
    } else {
      var m :| 0 <= m < n && PingLeft(x, m, n);
      assert PingLeft(x, m, n + 1);
    }
  }

  lemma LeftBefore(x: Execution, m: nat, n: nat)
    requires m <= n < |x.events| && PingLeft(x, m, n + 1)
    requires SomePingLeft(x, n) ==> Before(x, n).ping.waitingForPong
    ensures Next(Before(x, n), x.events[n]).ping.waitingForPong
  {
    WaitingStep(Before(x, n), x.events[n]);
    if m < n {
      assert PingLeft(x, m, n);
      assert !BeatsAt(x, n);
    }
  }

  /** In every run, read off its events: a tick times out if and only if the last
      tick before it pinged and neither a pong nor a call of the setter came
      since. */
  lemma TimeoutsAreExact(x: Execution, n: nat)
    requires n < |x.events| && Checks(Before(x, n), x.events[n])
    ensures TimesOut(Before(x, n), x.events[n]) <==> Unanswered(Start(x), x.events[..n])
    ensures TimesOut(Before(x, n), x.events[n]) <==> exists m :: 0 <= m < n && PingLeft(x, m, n)
  {
    WaitingIsUnanswered(x, n);
    WaitingIff(x, n);
  }

  /** A pong or a call of the setter comes between every two ticks of the run. */
  ghost predicate AlwaysAnswered(x: Execution) {
    forall i, j :: 0 <= i < j < |x.events| && Checks(Before(x, i), x.events[i]) && Checks(Before(x, j), x.events[j])
      ==> exists k :: i < k < j && Answers(Before(x, k), x.events[k])
  }

  lemma NoPingLeft(x: Execution, m: nat, n: nat)
    requires AlwaysAnswered(x) && m < n < |x.events| && Checks(Before(x, n), x.events[n])
    ensures !PingLeft(x, m, n)
  {
    if PingsAt(x, m) {
      var k :| m < k < n && Answers(Before(x, k), x.events[k]);
      assert BeatsAt(x, k);
    }
  }

  /** So if a pong comes between every two ticks, no close is ever requested. */
  lemma PongsPreventTimeouts(x: Execution, n: nat)
    requires AlwaysAnswered(x) && n < |x.events|
    ensures !TimesOut(Before(x, n), x.events[n])
  {
    if Checks(Before(x, n), x.events[n]) {
      TimeoutsAreExact(x, n);
      forall m | 0 <= m < n
        ensures !PingLeft(x, m, n)
      {
        NoPingLeft(x, m, n);
      }
    }
  }

  /** From any state: after a pong no timeout is possible before the next tick. */
  lemma {:induction false} PongPreventsTimeout(s: Client, evs: seq<Event>)
    requires Reaches(s, PongCb) && forall i :: 0 <= i < |evs| ==> !evs[i].LoopCheck?
    ensures var r := Steps(Next(s, PongCb), evs); !r.ping.waitingForPong && !TimesOut(r, LoopCheck)
    decreases |evs|
  {
    if evs != [] {
      PongPreventsTimeout(s, evs[..|evs| - 1]);
      WaitingStep(Steps(Next(s, PongCb), evs[..|evs| - 1]), evs[|evs| - 1]);
    } else {
      WaitingStep(s, PongCb);
    }
  }

  /** What a tick that looks for the pong calls: on an open client it adds one
      frame and one call, a Close with 1006 if the ping was left unanswered and
      else a Ping. */
  lemma TickCalls(x: Execution)
    requires Enabled(Final(x), LoopCheck) && IsOpen(Final(x))
    ensures var e := Entry([], if Unanswered(Start(x), x.events) then Close(1006) else Ping, true, None);
            var before, after := Final(x).out, Next(Final(x), LoopCheck).out;
            && after.toBeWritten == before.toBeWritten + [e]
            && after.accepted == before.accepted + [e]
            && after.resolved == before.resolved
  {
    assert x.events[..|x.events|] == x.events;
    WaitingIsUnanswered(x, |x.events|);
    CallAcceptedIffOpen(Final(x), LoopCheck);
  }

  // ---- The beats of a state are its events ----

  function BeatAt(s: Client, ev: Event): (bs: seq<Beat>) {
    if Checks(s, ev) then [if s.ping.waitingForPong then TimedOut else Pinged]
    else if Answers(s, ev) then [if ev.PongCb? then PongSeen else Reset]
    else []
  }

  lemma BeatStep(s: Client, ev: Event)
    ensures Next(s, ev).ping.beats == s.ping.beats + BeatAt(s, ev)
  {
    if Enabled(s, ev) && OnLoop(ev) {
      var before, t := LoopStep(s, ev);
      assert Perform(before, t).ping.beats
             == s.ping.beats + (if t.CheckPong? then [if s.ping.waitingForPong then TimedOut else Pinged] else []);
    }
  }

  lemma {:induction false} BeatsAreEvents(s: Client, evs: seq<Event>)
    ensures Steps(s, evs).ping.beats == s.ping.beats + Log(s, evs, BeatAt)
    decreases |evs|
  {
    if evs != [] {
      BeatsAreEvents(s, evs[..|evs| - 1]);
      BeatStep(Steps(s, evs[..|evs| - 1]), evs[|evs| - 1]);
    }
  }

  // ---- Pongs are shown ----

  function AsPong(t: Task): (r: Option<bool>) {
    if t.CallOnPong? then Some(true) else None
  }

  function PongAt(s: Client, ev: Event): (r: seq<bool>) {
    if ev.PongCb? && Reaches(s, ev) then [true] else []
  }

  function OnPongAt(s: Client, ev: Event): (r: seq<bool>) {
    if ev.LoopTask? && Enabled(s, ev) then Optional(AsPong(s.tasks[0])) else []
  }

  lemma PongStep(s: Client, ev: Event)
    ensures Select(s.tasks, AsPong) + PongAt(s, ev) == OnPongAt(s, ev) + Select(Next(s, ev).tasks, AsPong)
  {
    if !Enabled(s, ev) {
    } else if OnLoop(ev) {
      PongLoop(s, ev);
    } else if PongAt(s, ev) != [] {
      SelectOne(s.tasks, CallOnPong, AsPong);
    } else {
      PongOther(s, ev);
    }
  }

  lemma PongLoop(s: Client, ev: Event)
    requires Enabled(s, ev) && OnLoop(ev)
    ensures Select(s.tasks, AsPong) + PongAt(s, ev) == OnPongAt(s, ev) + Select(Next(s, ev).tasks, AsPong)
  {
    var before, t := LoopStep(s, ev);
    var r := Perform(before, t);
    if r.tasks != before.tasks {
      NoneSelected(before.tasks, [r.tasks[|before.tasks|]], AsPong);
    }
    if ev.LoopTask? {
      FirstSelected(t, before.tasks, AsPong);
    }
  }

  lemma PongOther(s: Client, ev: Event)
    requires Enabled(s, ev) && !OnLoop(ev) && PongAt(s, ev) == []
    ensures Select(Next(s, ev).tasks, AsPong) == Select(s.tasks, AsPong)
  {
    var more := NewTasks(s, ev);
    forall i | 0 <= i < |more|
      ensures AsPong(more[i]).None?
    {
      assert more[i] == Next(s, ev).tasks[|s.tasks| + i];
    }
    NoneSelected(s.tasks, more, AsPong);
  }

  lemma {:induction false} PongLog(s: Client, evs: seq<Event>)
    ensures Select(s.tasks, AsPong) + Log(s, evs, PongAt)
            == Log(s, evs, OnPongAt) + Select(Steps(s, evs).tasks, AsPong)
    decreases |evs|
  {
    if evs != [] {
      var init, last := evs[..|evs| - 1], evs[|evs| - 1];
      var before := Steps(s, init);
      PongLog(s, init);
      PongStep(before, last);
      QueueChain(Select(s.tasks, AsPong), Log(s, init, PongAt), Log(s, init, OnPongAt), Select(before.tasks, AsPong),
                 PongAt(before, last), OnPongAt(before, last), Select(Next(before, last).tasks, AsPong));
    } else {
      assert Select(s.tasks, AsPong) + [] == [] + Select(s.tasks, AsPong);
    }
  }

  /** `onPong` is called once for every pong, or will be. */
  lemma PongsAreShown(x: Execution)
    ensures |Log(Start(x), x.events, PongAt)|
            == |Log(Start(x), x.events, OnPongAt)| + |Select(Final(x).tasks, AsPong)|
  {
    PongLog(Start(x), x.events);
    assert Start(x).tasks == [] + Start(x).tasks;
    NoneSelected([], Start(x).tasks, AsPong);
  }

  // ---- How many ticks are alive ----

  function AsTick(t: Task): (r: Option<bool>) {
    if t.Tick? then Some(true) else None
  }

  function Queued(s: Client): (n: nat) {
    |Select(s.tasks, AsTick)|
  }

  function Running(s: Client): (n: nat) {
    if s.ping.tick.NoTick? then 0 else 1
  }

  /** Ticks that are queued, that are running and not over, or whose timer is
      armed. */
  function LiveTicks(s: Client): (n: nat) {
    |s.ping.armed| + Queued(s) + Running(s)
  }

  /** At most one tick is alive, and if its timer is armed it is the one the
      setter would cancel. */
  predicate Single(armed: set<nat>, scheduled: Option<nat>, others: nat) {
    && (forall t :: t in armed ==> scheduled == Some(t))
    && others <= 1
    && (others == 1 ==> armed == {})
  }

  predicate SingleTick(s: Client) {
    Single(s.ping.armed, s.ping.scheduled, Queued(s) + Running(s))
  }

  lemma SingleCounts(s: Client)
    requires SingleTick(s)
    ensures LiveTicks(s) <= 1
  {
    if t :| t in s.ping.armed {
      assert s.ping.armed == {t};
    }
  }

  /** The setter schedules a tick while another is still queued or running. */
  predicate Overlaps(s: Client, ev: Event) {
    Enabled(s, ev) && ev.RestartPing? && ev.on && Queued(s) + Running(s) > 0
  }

  /** The step of a tick that finds the pong missing. */
  predicate TimesOut(s: Client, ev: Event) {
    Enabled(s, ev) && ev.LoopCheck? && s.ping.waitingForPong
  }

  lemma QueuedPerform(s: Client, t: Task)
    ensures Queued(Perform(s, t)) == Queued(s)
    ensures !t.Tick? && !t.CheckPong? ==> Perform(s, t).ping == s.ping
  {
    var r := Perform(s, t);
    if r.tasks != s.tasks {
      NoneSelected(s.tasks, [r.tasks[|s.tasks|]], AsTick);
    }
  }

  lemma SingleTask(s: Client)
    requires SingleTick(s) && Enabled(s, LoopTask)
    ensures SingleTick(Next(s, LoopTask))
    ensures LiveTicks(s) == 0 ==> Next(s, LoopTask).ping == s.ping
  {
    var before, t := LoopStep(s, LoopTask);
    QueuedPerform(before, t);
    FirstSelected(t, before.tasks, AsTick);
  }

  lemma SingleTimer(s: Client, timer: nat)
    requires SingleTick(s) && Enabled(s, PingTimer(timer))
    ensures SingleTick(Next(s, PingTimer(timer)))
  {
    assert s.ping.armed - {timer} == {};
  }

  lemma SingleCheck(s: Client)
    requires SingleTick(s) && Enabled(s, LoopCheck)
    ensures SingleTick(Next(s, LoopCheck))
    ensures TimesOut(s, LoopCheck) ==> LiveTicks(Next(s, LoopCheck)) == 0
  {
  }

  lemma SingleLoop(s: Client, ev: Event)
    requires SingleTick(s) && Enabled(s, ev) && (OnLoop(ev) || ev.LoopArm?)
    ensures SingleTick(Next(s, ev))
  {
    match ev
    case LoopTask => SingleTask(s);
    case PingTimer(timer) => SingleTimer(s, timer);
    case LoopCheck => SingleCheck(s);
    case _ =>
  }

  lemma SingleRestart(s: Client, on: bool)
    requires SingleTick(s)
    ensures var r := Restart(s, on);
            && r.ping.armed == {} && Running(r) == Running(s)
            && Queued(r) == Queued(s) + (if on then 1 else 0)
  {
    if on {
      SelectOne(s.tasks, Tick, AsTick);
    } else {
      assert s.tasks + [] == s.tasks;
    }
  }

  /** Nothing but pongs and resets by the setter happens. */
  predicate OnlyBeats(before: seq<Beat>, after: seq<Beat>) {
    before <= after && forall k :: |before| <= k < |after| ==> !IsTick(after[k])
  }

  lemma PingSame(s: Client, ev: Event)
    requires Enabled(s, ev) && !OnLoop(ev) && !ev.LoopArm? && !ev.RestartPing?
    ensures var r := Next(s, ev);
            && r.ping.armed == s.ping.armed && r.ping.scheduled == s.ping.scheduled && r.ping.tick == s.ping.tick
            && OnlyBeats(s.ping.beats, r.ping.beats)
            && Queued(r) == Queued(s)
  {
    var more := NewTasks(s, ev);
    NoneSelected(s.tasks, more, AsTick);
  }

  lemma SingleStep(s: Client, ev: Event)
    requires SingleTick(s) && !Overlaps(s, ev)
    ensures SingleTick(Next(s, ev))
  {
    if !Enabled(s, ev) {
    } else if OnLoop(ev) || ev.LoopArm? {
      SingleLoop(s, ev);
    } else if ev.RestartPing? {
      SingleRestart(s, ev.on);
    } else {
      PingSame(s, ev);
    }
  }

  lemma OverlapDoubles(s: Client, ev: Event)
    requires SingleTick(s) && Overlaps(s, ev)
    ensures LiveTicks(Next(s, ev)) > 1
  {
    SingleRestart(s, ev.on);
  }

  /** The state after the first `n` steps. */
  function At(s: Client, evs: seq<Event>, n: nat): (r: Client)
    requires n <= |evs|
  {
    Steps(s, evs[..n])
  }

  lemma AtStep(s: Client, evs: seq<Event>, n: nat)
    requires n < |evs|
    ensures At(s, evs, n + 1) == Next(At(s, evs, n), evs[n])
  {
    assert evs[..n + 1][..n] == evs[..n];
  }

  lemma {:induction false} SingleRun(config: Config, contextCreated: bool, evs: seq<Event>, n: nat)
    requires n <= |evs|
    requires forall k :: 0 <= k < n ==> !Overlaps(At(Initial(config, contextCreated), evs, k), evs[k])
    ensures SingleTick(At(Initial(config, contextCreated), evs, n))
  {
    var s := Initial(config, contextCreated);
    if n > 0 {
      SingleRun(config, contextCreated, evs, n - 1);
      AtStep(s, evs, n - 1);
      SingleStep(At(s, evs, n - 1), evs[n - 1]);
    } else {
      assert s.tasks == [] + s.tasks;
      NoneSelected([], s.tasks, AsTick);
    }
  }

  /** At most one tick is ever alive in a run if and only if the setter never
      schedules one while another is still queued or running. */
  lemma OneLiveTick(config: Config, contextCreated: bool, evs: seq<Event>)
    ensures (forall n :: 0 <= n <= |evs| ==> LiveTicks(At(Initial(config, contextCreated), evs, n)) <= 1)
            <==> (forall n :: 0 <= n < |evs| ==> !Overlaps(At(Initial(config, contextCreated), evs, n), evs[n]))
  {
    var s := Initial(config, contextCreated);
    if n :| 0 <= n < |evs| && Overlaps(At(s, evs, n), evs[n]) {
      var k := FirstOverlap(s, evs, n);
      SingleRun(config, contextCreated, evs, k);
      AtStep(s, evs, k);
      OverlapDoubles(At(s, evs, k), evs[k]);
      assert LiveTicks(At(s, evs, k + 1)) > 1;
    } else {
      forall n | 0 <= n <= |evs|
        ensures LiveTicks(At(s, evs, n)) <= 1
      {
        SingleRun(config, contextCreated, evs, n);
        SingleCounts(At(s, evs, n));
      }
    }
  }

  lemma {:induction false} FirstOverlap(s: Client, evs: seq<Event>, n: nat) returns (k: nat)
    requires n < |evs| && Overlaps(At(s, evs, n), evs[n])
    ensures k <= n && Overlaps(At(s, evs, k), evs[k])
    ensures forall i :: 0 <= i < k ==> !Overlaps(At(s, evs, i), evs[i])
  {
    if i :| 0 <= i < n && Overlaps(At(s, evs, i), evs[i]) {
      k := FirstOverlap(s, evs, i);
    } else {
      k := n;
    }
  }

  lemma QuietLoop(s: Client, ev: Event)
    requires SingleTick(s) && LiveTicks(s) == 0 && Enabled(s, ev) && (OnLoop(ev) || ev.LoopArm?)
    ensures Next(s, ev).ping == s.ping && LiveTicks(Next(s, ev)) == 0
  {
    assert s.ping.armed == {};
    if ev.LoopTask? {
      var before, t := LoopStep(s, ev);
      QueuedPerform(before, t);
      FirstSelected(t, before.tasks, AsTick);
    }
  }

  lemma QuietStep(s: Client, ev: Event)
    requires SingleTick(s) && LiveTicks(s) == 0 && !(ev.RestartPing? && ev.on)
    ensures var r := Next(s, ev); SingleTick(r) && LiveTicks(r) == 0 && OnlyBeats(s.ping.beats, r.ping.beats)
  {
    SingleStep(s, ev);
    if !Enabled(s, ev) {
    } else if OnLoop(ev) || ev.LoopArm? {
      QuietLoop(s, ev);
    } else if ev.RestartPing? {
      SingleRestart(s, ev.on);
    } else {
      PingSame(s, ev);
    }
  }

  /** The setter does not start the keepalive. */
  predicate NoRestart(evs: seq<Event>) {
    forall i :: 0 <= i < |evs| ==> !(evs[i].RestartPing? && evs[i].on)
  }

  lemma {:induction false} QuietRun(s: Client, evs: seq<Event>)
    requires SingleTick(s) && LiveTicks(s) == 0
    requires NoRestart(evs)
    ensures var r := Steps(s, evs);
            && SingleTick(r) && LiveTicks(r) == 0
            && OnlyBeats(s.ping.beats, r.ping.beats)
    decreases |evs|
  {
    if evs != [] {
      QuietRun(s, evs[..|evs| - 1]);
      QuietStep(Steps(s, evs[..|evs| - 1]), evs[|evs| - 1]);
    }
  }

  /** The keepalive is over: until the setter starts it again no tick is alive
      and none happens, in every continuation. */
  ghost predicate KeepaliveOver(s: Client) {
    forall evs: seq<Event> :: NoRestart(evs) ==>
      LiveTicks(Steps(s, evs)) == 0 && OnlyBeats(s.ping.beats, Steps(s, evs).ping.beats)
  }

  lemma TimeoutCounts(s: Client)
    requires TimesOut(s, LoopCheck)
    ensures LiveTicks(s) == 1 <==> SingleTick(s)
    ensures LiveTicks(Next(s, LoopCheck)) == LiveTicks(s) - 1
  {
    assert |s.ping.armed| == 0 ==> s.ping.armed == {};
  }

  /** A timeout ends the keepalive if and only if no other tick is alive. */
  lemma TimeoutEndsKeepalive(s: Client)
    requires TimesOut(s, LoopCheck)
    ensures KeepaliveOver(Next(s, LoopCheck)) <==> LiveTicks(s) == 1
  {
    var a := Next(s, LoopCheck);
    TimeoutCounts(s);
    if LiveTicks(s) == 1 {
      SingleCheck(s);
      forall evs: seq<Event> | NoRestart(evs)
        ensures LiveTicks(Steps(a, evs)) == 0 && OnlyBeats(a.ping.beats, Steps(a, evs).ping.beats)
      {
        QuietRun(a, evs);
      }
    } else {
      assert NoRestart([]) && Steps(a, []) == a;
    }
  }

  /** So it does in every run in which the setter never schedules a tick while
      another is queued or running. */
  lemma TimeoutsEndKeepalive(config: Config, contextCreated: bool, evs: seq<Event>)
    requires forall n :: 0 <= n < |evs| ==> !Overlaps(At(Initial(config, contextCreated), evs, n), evs[n])
    requires TimesOut(Steps(Initial(config, contextCreated), evs), LoopCheck)
    ensures KeepaliveOver(Next(Steps(Initial(config, contextCreated), evs), LoopCheck))
  {
    var s := Steps(Initial(config, contextCreated), evs);
    SingleRun(config, contextCreated, evs, |evs|);
    assert evs[..|evs|] == evs;
    TimeoutCounts(s);
    TimeoutEndsKeepalive(s);
  }

  // ---- The interval ----

  /** The interval last assigned. */
  function Assigned(s: Client, evs: seq<Event>): (interval: Option<nat>)
    decreases |evs|
  {
    if evs == [] then s.ping.interval
    else
      var init, last := evs[..|evs| - 1], evs[|evs| - 1];
      if last.SetPingInterval? && Enabled(Steps(s, init), last) then last.interval else Assigned(s, init)
  }

  lemma IntervalStep(s: Client, ev: Event)
    ensures Next(s, ev).ping.interval
            == if ev.SetPingInterval? && Enabled(s, ev) then ev.interval else s.ping.interval
    ensures Next(s, ev).ping.tick.Checking? ==> s.ping.tick.Checking? || s.ping.interval.Some?
  {
    if Enabled(s, ev) && OnLoop(ev) {
      var before, t := LoopStep(s, ev);
      assert Perform(before, t).ping.interval == s.ping.interval;
    }
  }

  lemma {:induction false} IntervalIsAssigned(s: Client, evs: seq<Event>)
    ensures Steps(s, evs).ping.interval == Assigned(s, evs)
    decreases |evs|
  {
    if evs != [] {
      IntervalIsAssigned(s, evs[..|evs| - 1]);
      IntervalStep(Steps(s, evs[..|evs| - 1]), evs[|evs| - 1]);
    }
  }

  /** Without an interval no tick gets past its first look: until one is assigned,
      no ping is sent and no close requested by a tick that had not begun. */
  lemma {:induction false} NoIntervalNoTick(s: Client, evs: seq<Event>)
    requires s.ping.interval.None? && !s.ping.tick.Checking?
    requires forall i :: 0 <= i < |evs| ==> !(evs[i].SetPingInterval? && evs[i].interval.Some?)
    ensures var r := Steps(s, evs);
            r.ping.interval.None? && !r.ping.tick.Checking? && OnlyBeats(s.ping.beats, r.ping.beats)
    decreases |evs|
  {
    if evs != [] {
      var before, ev := Steps(s, evs[..|evs| - 1]), evs[|evs| - 1];
      NoIntervalNoTick(s, evs[..|evs| - 1]);
      IntervalStep(before, ev);
      BeatStep(before, ev);
    }
  }

  /** The keepalive is not stopped: no interval is taken away, no setter call goes
      without a tick, and no tick times out. */
  predicate Undisturbed(s: Client, ev: Event) {
    && !(ev.SetPingInterval? && ev.interval.None?)
    && !(ev.RestartPing? && !ev.on)
    && !TimesOut(s, ev)
  }

  lemma LiveTask(s: Client)
    requires s.ping.interval.Some? && LiveTicks(s) > 0 && Enabled(s, LoopTask)
    ensures LiveTicks(Next(s, LoopTask)) > 0
  {
    var before, t := LoopStep(s, LoopTask);
    QueuedPerform(before, t);
    FirstSelected(t, before.tasks, AsTick);
  }

  lemma LiveArm(s: Client)
    requires Enabled(s, LoopArm)
    ensures LiveTicks(Next(s, LoopArm)) > 0
  {
    assert s.ping.nextTimer in Next(s, LoopArm).ping.armed;
  }

  lemma LiveTick(s: Client, ev: Event)
    requires s.ping.interval.Some? && Enabled(s, ev) && (ev.LoopCheck? || ev.PingTimer?) && !TimesOut(s, ev)
    ensures LiveTicks(Next(s, ev)) > 0
  {
  }

  lemma LiveCall(s: Client, ev: Event)
    requires Enabled(s, ev) && (ev.SendOnLoop? || ev.CloseOnLoop?)
    ensures LiveTicks(Next(s, ev)) == LiveTicks(s)
  {
  }

  lemma LiveStep(s: Client, ev: Event)
    requires s.ping.interval.Some? && LiveTicks(s) > 0 && Undisturbed(s, ev)
    ensures LiveTicks(Next(s, ev)) > 0
  {
    if !Enabled(s, ev) {
    } else if ev.LoopTask? {
      LiveTask(s);
    } else if ev.LoopCheck? || ev.PingTimer? {
      LiveTick(s, ev);
    } else if OnLoop(ev) {
      LiveCall(s, ev);
    } else if ev.LoopArm? {
      LiveArm(s);
    } else if ev.RestartPing? {
      SelectOne(s.tasks, Tick, AsTick);
    } else {
      PingSame(s, ev);
    }
  }

  lemma {:induction false} TicksStayAlive(s: Client, evs: seq<Event>)
    requires s.ping.interval.Some? && LiveTicks(s) > 0
    requires forall n :: 0 <= n < |evs| ==> Undisturbed(Steps(s, evs[..n]), evs[n])
    ensures Steps(s, evs).ping.interval.Some? && LiveTicks(Steps(s, evs)) > 0
    decreases |evs|
  {
    if evs != [] {
      var init := evs[..|evs| - 1];
      forall n | 0 <= n < |init|
        ensures Undisturbed(Steps(s, init[..n]), init[n])
      {
        assert init[..n] == evs[..n];
      }
      TicksStayAlive(s, init);
      LiveStep(Steps(s, init), evs[|evs| - 1]);
      IntervalStep(Steps(s, init), evs[|evs| - 1]);
    }
  }

  /** The keepalive goes on: from the call of the setter that starts it, in every
      run that does not stop it, a tick is alive. */
  lemma KeepaliveGoesOn(s: Client, evs: seq<Event>)
    requires s.ping.interval.Some? && Enabled(s, RestartPing(true))
    requires forall n :: 0 <= n < |evs| ==> Undisturbed(Steps(Next(s, RestartPing(true)), evs[..n]), evs[n])
    ensures LiveTicks(Steps(Next(s, RestartPing(true)), evs)) > 0
  {
    SelectOne(s.tasks, Tick, AsTick);
    TicksStayAlive(Next(s, RestartPing(true)), evs);
  }

  // ---- What becomes of the close that a timeout requests ----

  /** The keepalive got its close into the queue, as the next call accepted. */
  predicate ClosedByKeepalive(s: Client, r: Client) {
    s.out.accepted + [CloseEntry(ABNORMAL_CLOSE)] <= r.out.accepted
  }

  lemma TimeoutOut(s: Client)
    requires TimesOut(s, LoopCheck)
    ensures var a := Next(s, LoopCheck);
            && a.ping.beats == s.ping.beats + [TimedOut]
            && if IsClosed(s) then a.out == s.out
               else a.out.accepted == s.out.accepted + [CloseEntry(ABNORMAL_CLOSE)]
  {
  }

  /** What a missing pong leads to depends only on whether the client is open at
      that moment. If it is, the close is the next call accepted and stays in its
      place in every continuation; if it is not, the request leaves no trace. */
  lemma TimeoutQueuesClose(s: Client, evs: seq<Event>)
    requires TimesOut(s, LoopCheck)
    ensures ClosedByKeepalive(s, Next(s, LoopCheck)) <==> !IsClosed(s)
    ensures !IsClosed(s) ==> ClosedByKeepalive(s, Steps(Next(s, LoopCheck), evs))
    ensures IsClosed(s) ==> Next(s, LoopCheck).out == s.out
  {
    AcceptedGrows(Next(s, LoopCheck), evs);
    TimeoutOut(s);
  }

  // ---- Runs in which the caller holds the client ----

  predicate FromApplication(ev: Event) {
    ev.SendFromElsewhere? || ev.SendOnLoop? || ev.CloseFromElsewhere? || ev.CloseOnLoop?
    || ev.SetPingInterval? || ev.RestartPing?
  }

  /** The application gets the client from the future of `connect` or as the
      argument of a callback, in both cases after ESTABLISHED. */
  ghost predicate HeldCalls(config: Config, contextCreated: bool, evs: seq<Event>) {
    forall n :: 0 <= n < |evs| && FromApplication(evs[n]) ==>
      At(Initial(config, contextCreated), evs, n).link.wasConnected
  }

  /** The keepalive only runs on a client that was connected. */
  predicate KeepInv(s: Client) {
    s.ping.interval.Some? || !s.ping.tick.NoTick? ==> s.link.wasConnected
  }

  /** The box `websocket` is filled from the connect call to WSI_DESTROY. */
  predicate SocketInv(link: Link) {
    link.alive && (link.phase.Connecting? || link.phase.Established? || (AfterUse(link) && link.wasConnected))
    ==> (link.websocket <==> !link.phase.Gone?)
  }

  lemma ConnectedStep(s: Client, ev: Event)
    ensures s.link.wasConnected ==> Next(s, ev).link.wasConnected
  {
    if Enabled(s, ev) && OnLoop(ev) {
      var before, t := LoopStep(s, ev);
      var _ := PerformOut(before, t);
    }
  }

  lemma KeepPerform(s: Client, t: Task)
    requires KeepInv(s) && (t.CheckPong? ==> s.link.wasConnected)
    ensures KeepInv(Perform(s, t))
  {
    var _ := PerformOut(s, t);
    if !t.Tick? && !t.CheckPong? {
      QueuedPerform(s, t);
    }
  }

  lemma KeepStep(s: Client, ev: Event)
    requires KeepInv(s) && (FromApplication(ev) ==> s.link.wasConnected)
    ensures KeepInv(Next(s, ev))
  {
    ConnectedStep(s, ev);
    if Enabled(s, ev) && OnLoop(ev) {
      var before, t := LoopStep(s, ev);
      KeepPerform(before, t);
    }
  }

  lemma SocketStep(s: Client, ev: Event)
    requires LinkInv(s) && SocketInv(s.link)
    ensures SocketInv(Next(s, ev).link)
  {
    if Enabled(s, ev) && OnLoop(ev) {
      var before, t := LoopStep(s, ev);
      var _ := PerformOut(before, t);
    }
  }

  lemma {:induction false} HeldRun(config: Config, contextCreated: bool, evs: seq<Event>, n: nat)
    requires HeldCalls(config, contextCreated, evs) && n <= |evs|
    ensures var s := At(Initial(config, contextCreated), evs, n); KeepInv(s) && SocketInv(s.link)
  {
    if n > 0 {
      var s := At(Initial(config, contextCreated), evs, n - 1);
      HeldRun(config, contextCreated, evs, n - 1);
      AtStep(Initial(config, contextCreated), evs, n - 1);
      BaseReachable(config, contextCreated, evs[..n - 1]);
      KeepStep(s, evs[n - 1]);
      SocketStep(s, evs[n - 1]);
    }
  }

  /** In every run in which the application only calls a client it holds: a
      timeout gets its close into the queue, to stay there in every
      continuation, unless the close status is already set or the connection is
      already gone. */
  lemma KeepaliveClosesConnection(config: Config, contextCreated: bool, evs: seq<Event>, more: seq<Event>)
    requires HeldCalls(config, contextCreated, evs)
    requires TimesOut(Steps(Initial(config, contextCreated), evs), LoopCheck)
    ensures var s := Steps(Initial(config, contextCreated), evs);
            && (IsClosed(s) <==> s.ending.status.Some? || s.link.phase.Gone?)
            && (s.ending.status.None? && !s.link.phase.Gone? ==>
                  ClosedByKeepalive(s, Steps(Next(s, LoopCheck), more)))
  {
    var s := Steps(Initial(config, contextCreated), evs);
    HeldRun(config, contextCreated, evs, |evs|);
    assert evs[..|evs|] == evs;
    BaseReachable(config, contextCreated, evs);
    EndingReachable(config, contextCreated, evs);
    TimeoutQueuesClose(s, more);
  }

  // ---- A run with two live ticks ----

  /** A client between steps, with this keepalive and these tasks. */
  predicate Looks(s: Client, k: Keepalive, tasks: seq<QueuedTask>) {
    s.ping == k && s.tasks == tasks && s.loop.Idle? && s.link.alive && s.link.wasConnected
  }

  lemma LooksAfterSetter(s: Client, k: Keepalive, tasks: seq<QueuedTask>, interval: Option<nat>)
    requires Looks(s, k, tasks)
    ensures Looks(Next(s, SetPingInterval(interval)), k.(interval := interval), tasks)
    ensures Looks(Next(s, RestartPing(true)), Rearm(k), tasks + [Tick])
  {
  }

  lemma LooksAfterTick(s: Client, k: Keepalive, tasks: seq<QueuedTask>)
    requires Looks(s, k, tasks)
    ensures k.tick.NoTick? && tasks == [Tick] ==> Looks(Next(s, LoopTask), StartTick(k), [])
    ensures k.tick.Checking? ==>
              Looks(Next(s, LoopCheck), if k.waitingForPong then TimeOut(k) else SendPing(k), tasks)
    ensures k.tick.Arming? ==> Looks(Next(s, LoopArm), ArmTimer(k), tasks)
  {
  }

  /** The connection is established and the connect promise has succeeded. */
  lemma Opened(config: Config, evs: seq<Event>)
    requires |evs| >= 3 && evs[0] == ConnectCall(true) && evs[1] == EstablishedCb && evs[2] == LoopTask
    ensures var s := At(Initial(config, true), evs, 3);
            && Looks(s, Keepalive(None, false, {}, None, 0, NoTick, []), [])
            && s.opening.resolutions == [true] && !IsClosed(s)
  {
    var s := Initial(config, true);
    AtStep(s, evs, 0);
    AtStep(s, evs, 1);
    AtStep(s, evs, 2);
    assert [] + [true] == [true];
  }

  lemma LooksAt(s: Client, evs: seq<Event>, n: nat, k: Keepalive, tasks: seq<QueuedTask>)
    requires n < |evs| && Looks(Next(At(s, evs, n), evs[n]), k, tasks)
    ensures Looks(At(s, evs, n + 1), k, tasks)
  {
    AtStep(s, evs, n);
  }

  lemma SetterRuns(s: Client, evs: seq<Event>, n: nat, k: Keepalive)
    requires n + 1 < |evs| && evs[n] == SetPingInterval(Some(1)) && evs[n + 1] == RestartPing(true)
    requires Looks(At(s, evs, n), k, [])
    ensures Looks(At(s, evs, n + 1), k.(interval := Some(1)), [])
    ensures Looks(At(s, evs, n + 2), Rearm(k.(interval := Some(1))), [Tick])
  {
    LooksAfterSetter(At(s, evs, n), k, [], Some(1));
    LooksAt(s, evs, n, k.(interval := Some(1)), []);
    LooksAfterSetter(At(s, evs, n + 1), k.(interval := Some(1)), [], None);
    LooksAt(s, evs, n + 1, Rearm(k.(interval := Some(1))), [] + [Tick]);
    assert [] + [Tick] == [Tick];
  }

  lemma TickPings(s: Client, evs: seq<Event>, n: nat, k: Keepalive)
    requires n + 1 < |evs| && evs[n] == LoopTask && evs[n + 1] == LoopCheck
    requires Looks(At(s, evs, n), k, [Tick]) && k.tick.NoTick? && k.interval.Some? && !k.waitingForPong
    ensures Looks(At(s, evs, n + 2), SendPing(k.(tick := Checking)), [])
  {
    LooksAfterTick(At(s, evs, n), k, [Tick]);
    LooksAt(s, evs, n, StartTick(k), []);
    LooksAfterTick(At(s, evs, n + 1), StartTick(k), []);
    LooksAt(s, evs, n + 1, SendPing(k.(tick := Checking)), []);
  }

  const TWO_SETTERS := [ConnectCall(true), EstablishedCb, LoopTask,
                        SetPingInterval(Some(1)), RestartPing(true), LoopTask, LoopCheck,
                        SetPingInterval(Some(1)), RestartPing(true), LoopArm]

  lemma TwoSettersRun(config: Config)
    ensures var s, evs := Initial(config, true), TWO_SETTERS;
            && (forall n :: n in {3, 4, 7, 8} ==> At(s, evs, n).link.wasConnected)
            && At(s, evs, 3).opening.resolutions == [true]
            && Looks(At(s, evs, 10), Keepalive(Some(1), false, {0}, Some(0), 1, NoTick, [Reset, Pinged, Reset]), [Tick])
  {
    var s, evs := Initial(config, true), TWO_SETTERS;
    var k := Keepalive(None, false, {}, None, 0, NoTick, []);
    Opened(config, evs);
    SetterRuns(s, evs, 3, k);
    var started := Rearm(k.(interval := Some(1)));
    TickPings(s, evs, 5, started);
    var pinged := SendPing(started.(tick := Checking));
    SetterRuns(s, evs, 7, pinged);
    var restarted := Rearm(pinged.(interval := Some(1)));
    LooksAfterTick(At(s, evs, 9), restarted, [Tick]);
    LooksAt(s, evs, 9, ArmTimer(restarted), [Tick]);
  }

  /** A connected client whose caller assigns the interval twice, the second time
      while the first tick is running: one tick has its timer armed and another
      is in the queue. */
  lemma TwoLiveTicks(config: Config)
    ensures HeldCalls(config, true, TWO_SETTERS)
    ensures At(Initial(config, true), TWO_SETTERS, 3).opening.resolutions == [true]
    ensures var s := Steps(Initial(config, true), TWO_SETTERS);
            s.ping.armed == {0} && s.tasks == [Tick] && LiveTicks(s) == 2
  {
    TwoSettersRun(config);
    assert TWO_SETTERS[..10] == TWO_SETTERS;
    assert Select([Tick], AsTick) == [true] + Select([Tick][1..], AsTick);
    forall n | 0 <= n < |TWO_SETTERS| && FromApplication(TWO_SETTERS[n])
      ensures At(Initial(config, true), TWO_SETTERS, n).link.wasConnected
    {
      assert n in {3, 4, 7, 8};
    }
  }
}
