/** The receive side with its scheduling: a RECEIVE callback schedules two tasks
    for a fragment, and the second may schedule a third that delivers a message.
    Whatever else runs in between, this refines the unscheduled reassembly. */
module Receiving {
  import opened Protocol
  import opened MessageStream
  import opened Reassembly
  import opened ClientState
  import opened Connection
  import opened History

  // ---- The order of the first two tasks ----

  function AsWork(t: Task): (r: Option<Task>) {
    if t.CallOnFragment? || t.Reassemble? then Some(t) else None
  }

  /** The tasks that RECEIVE callbacks schedule for these fragments. */
  function Pairs(ps: seq<Piece>): (ts: seq<Task>) {
    if ps == [] then [] else [CallOnFragment(ps[0]), Reassemble(ps[0])] + Pairs(ps[1..])
  }

  lemma {:induction false} PairsOne(ps: seq<Piece>, p: Piece)
    ensures Pairs(ps + [p]) == Pairs(ps) + [CallOnFragment(p), Reassemble(p)]
  {
    if ps == [] {
      assert Pairs([p]) == [CallOnFragment(p), Reassemble(p)] + Pairs([p][1..]);
      assert ps + [p] == [p];
    } else {
      assert (ps + [p])[1..] == ps[1..] + [p];
      PairsOne(ps[1..], p);
    }
  }

  /** The work left: the reassembly of a fragment already shown, if its task has
      not run, and both tasks of every fragment after it. */
  predicate WorkInv(work: seq<Task>, received: seq<Piece>, fragments: seq<Piece>, assembled: seq<Piece>) {
    && assembled <= fragments <= received
    && |fragments| <= |assembled| + 1
    && work == (if |fragments| > |assembled| then [Reassemble(received[|assembled|])] else [])
               + Pairs(received[|fragments|..])
  }

  lemma WorkReceive(work: seq<Task>, received: seq<Piece>, fragments: seq<Piece>, assembled: seq<Piece>, p: Piece)
    requires WorkInv(work, received, fragments, assembled)
    ensures WorkInv(work + [CallOnFragment(p), Reassemble(p)], received + [p], fragments, assembled)
  {
    PairsOne(received[|fragments|..], p);
    assert (received + [p])[|fragments|..] == received[|fragments|..] + [p];
  }

  lemma WorkShow(work: seq<Task>, received: seq<Piece>, fragments: seq<Piece>, assembled: seq<Piece>, p: Piece)
    requires WorkInv([CallOnFragment(p)] + work, received, fragments, assembled)
    ensures WorkInv(work, received, fragments + [p], assembled)
  {
    var all, rest := [CallOnFragment(p)] + work, received[|fragments|..];
    assert all[0] == CallOnFragment(p);
    assert all == Pairs(rest);
    assert rest[1..] == received[|fragments| + 1..];
    assert work == all[1..] == [Reassemble(p)] + Pairs(rest[1..]);
  }

  lemma WorkAssemble(work: seq<Task>, received: seq<Piece>, fragments: seq<Piece>, assembled: seq<Piece>, p: Piece)
    requires WorkInv([Reassemble(p)] + work, received, fragments, assembled)
    ensures WorkInv(work, received, fragments, assembled + [p])
  {
    var all := [Reassemble(p)] + work;
    assert all[0] == Reassemble(p);
    assert |fragments| > |assembled|;
    assert work == all[1..] == Pairs(received[|fragments|..]);
  }

  /** The same for a client. */
  predicate OrderInv(work: seq<Task>, i: Inbox) {
    WorkInv(work, i.received, i.fragments, i.assembled)
  }

  // ---- Messages ----

  function Decodable(ms: seq<Message>, decodes: Bytes -> bool): (r: seq<Message>) {
    if ms == [] then []
    else (if ms[0].binary || decodes(ms[0].data) then [ms[0]] else []) + Decodable(ms[1..], decodes)
  }

  lemma {:induction false} DecodableAppend(a: seq<Message>, b: seq<Message>, decodes: Bytes -> bool)
    ensures Decodable(a + b, decodes) == Decodable(a, decodes) + Decodable(b, decodes)
  {
    if a == [] {
      assert a + b == b;
    } else {
      var first := if a[0].binary || decodes(a[0].data) then [a[0]] else [];
      assert (a + b)[1..] == a[1..] + b;
      DecodableAppend(a[1..], b, decodes);
      assert Decodable(a + b, decodes) == first + Decodable(a[1..] + b, decodes);
    }
  }

  lemma DecodableOne(ms: seq<Message>, m: Message, decodes: Bytes -> bool)
    ensures Decodable(ms + [m], decodes)
            == Decodable(ms, decodes) + (if m.binary || decodes(m.data) then [m] else [])
  {
    DecodableAppend(ms, [m], decodes);
    assert Decodable([m], decodes) == (if m.binary || decodes(m.data) then [m] else []) + Decodable([m][1..], decodes);
  }

  lemma DecodableOfPrefix(a: seq<Message>, b: seq<Message>, decodes: Bytes -> bool)
    requires a <= b
    ensures Decodable(a, decodes) <= Decodable(b, decodes)
  {
    assert b == a + b[|a|..];
    DecodableAppend(a, b[|a|..], decodes);
  }

  function AsDelivery(t: Task): (r: Option<Message>) {
    if t.DeliverWhole? || t.DeliverJoined? then Some(t.message) else None
  }

  /** Messages assembled whose delivery task has not run. */
  function Pending(tasks: seq<Task>): (ms: seq<Message>) {
    Select(tasks, AsDelivery)
  }

  ghost predicate MessagesInv(pending: seq<Message>, i: Inbox, config: Config) {
    var a := Run(START, i.assembled, config.maxMessageSize);
    && i.frameSequence == a.held
    && i.delivered + Decodable(pending, config.decodes) == Decodable(a.out, config.decodes)
  }

  /** Whole text messages were decoded before they were scheduled. */
  predicate WholeInv(s: Client) {
    forall k :: 0 <= k < |s.tasks| && s.tasks[k].DeliverWhole? ==> Decodes(s, s.tasks[k].message)
  }

  /** The message a fragment completes, if any. */
  function Completed(action: Action): (ms: seq<Message>) {
    if action.Whole? || action.Joined? then [action.message] else []
  }

  lemma OutAfter(i: Inbox, limit: Option<nat>, p: Piece)
    ensures var a, step := Run(START, i.assembled, limit), Assemble(Run(START, i.assembled, limit).held, p, limit);
            && Run(START, i.assembled + [p], limit).out == a.out + Completed(step.action)
            && Run(START, i.assembled + [p], limit).held == step.held
  {
    RunOne(START, i.assembled, p, limit);
  }

  lemma MessagesAssemble(pending: seq<Message>, i: Inbox, config: Config, p: Piece, step: Step)
    requires MessagesInv(pending, i, config) && step == Assemble(i.frameSequence, p, config.maxMessageSize)
    ensures MessagesInv(pending + Completed(step.action),
                        i.(frameSequence := step.held, assembled := i.assembled + [p]), config)
  {
    OutAfter(i, config.maxMessageSize, p);
    DecodableAppend(pending, Completed(step.action), config.decodes);
    DecodableAppend(Run(START, i.assembled, config.maxMessageSize).out, Completed(step.action), config.decodes);
  }

  lemma MessagesDeliver(pending: seq<Message>, i: Inbox, config: Config, m: Message)
    requires MessagesInv([m] + pending, i, config)
    ensures if m.binary || config.decodes(m.data) then MessagesInv(pending, i.(delivered := i.delivered + [m]), config)
            else MessagesInv(pending, i, config)
  {
    assert ([m] + pending)[1..] == pending;
  }

  // ---- Steps ----

  ghost predicate ReceivingInv(s: Client) {
    && OrderInv(Select(s.tasks, AsWork), s.inbox)
    && MessagesInv(Pending(s.tasks), s.inbox, s.config)
    && WholeInv(s)
  }

  /** The completed message is refused at once only if it came whole and does
      not decode; otherwise its delivery is scheduled. */
  predicate RefusedAtOnce(s: Client, action: Action) {
    action.Whole? && !Decodes(s, action.message)
  }

  lemma ReassembleEffect(s: Client, p: Piece)
    ensures var step := Assemble(s.inbox.frameSequence, p, s.config.maxMessageSize);
            var r, done := ReassembleTask(s, p), Completed(step.action);
            && r.config == s.config
            && Pending(r.tasks) == Pending(s.tasks) + (if RefusedAtOnce(s, step.action) then [] else done)
            && r.inbox == s.inbox.(frameSequence := step.held,
                                   assembled := s.inbox.assembled + [p],
                                   refused := s.inbox.refused + (if RefusedAtOnce(s, step.action) then done else []))
  {
    var r := ReassembleTask(s, p);
    if r.tasks != s.tasks {
      SelectOne(s.tasks, r.tasks[|s.tasks|], AsDelivery);
    }
  }

  lemma MessagesRefused(pending: seq<Message>, m: Message, i: Inbox, refused: seq<Message>, config: Config)
    requires MessagesInv(pending + [m], i, config) && !m.binary && !config.decodes(m.data)
    ensures MessagesInv(pending, i.(refused := refused), config)
  {
    DecodableOne(pending, m, config.decodes);
  }

  lemma ReassemblePerform(s: Client, p: Piece)
    requires MessagesInv(Pending(s.tasks), s.inbox, s.config)
    ensures var r := ReassembleTask(s, p); MessagesInv(Pending(r.tasks), r.inbox, r.config)
  {
    var step := Assemble(s.inbox.frameSequence, p, s.config.maxMessageSize);
    var pending, r := Pending(s.tasks), ReassembleTask(s, p);
    ReassembleEffect(s, p);
    MessagesAssemble(pending, s.inbox, s.config, p, step);
    if RefusedAtOnce(s, step.action) {
      var i := s.inbox.(frameSequence := step.held, assembled := s.inbox.assembled + [p]);
      MessagesRefused(pending, step.action.message, i, r.inbox.refused, s.config);
      assert pending + [] == pending;
    } else {
      assert s.inbox.refused + [] == s.inbox.refused;
    }
  }

  lemma DeliverPerform(s: Client, t: Task)
    requires t.DeliverWhole? || t.DeliverJoined?
    requires t.DeliverWhole? ==> Decodes(s, t.message)
    requires MessagesInv([t.message] + Pending(s.tasks), s.inbox, s.config)
    ensures var r := Perform(s, t); MessagesInv(Pending(r.tasks), r.inbox, r.config)
  {
    MessagesDeliver(Pending(s.tasks), s.inbox, s.config, t.message);
  }

  lemma WorkPerform(s: Client, t: Task)
    ensures Select(Perform(s, t).tasks, AsWork) == Select(s.tasks, AsWork)
  {
    var r := Perform(s, t);
    if r.tasks != s.tasks {
      NoneSelected(s.tasks, [r.tasks[|s.tasks|]], AsWork);
    }
  }

  lemma WholePerform(s: Client, t: Task)
    requires WholeInv(s)
    ensures WholeInv(Perform(s, t))
  {
  }

  /** The invariants with task `t` taken out of the queue. */
  ghost predicate TakenInv(before: Client, t: Task) {
    && OrderInv(Optional(AsWork(t)) + Select(before.tasks, AsWork), before.inbox)
    && MessagesInv(Optional(AsDelivery(t)) + Pending(before.tasks), before.inbox, before.config)
    && WholeInv(before) && (t.DeliverWhole? ==> Decodes(before, t.message))
  }

  lemma TakeTask(s: Client, t: Task, rest: seq<QueuedTask>)
    requires s.tasks == [t] + rest && ReceivingInv(s)
    ensures TakenInv(s.(tasks := rest), t)
  {
    FirstSelected(t, rest, AsWork);
    FirstSelected(t, rest, AsDelivery);
    WholeRest(s, t, rest);
  }

  /** A task that delivers nothing leaves the messages as they are. */
  lemma TakenMessages(before: Client, t: Task)
    requires TakenInv(before, t) && AsDelivery(t).None?
    ensures MessagesInv(Pending(before.tasks), before.inbox, before.config)
  {
    assert Optional(AsDelivery(t)) + Pending(before.tasks) == Pending(before.tasks);
  }

  lemma TakenOrder(before: Client, t: Task)
    requires TakenInv(before, t) && AsWork(t).None?
    ensures OrderInv(Select(before.tasks, AsWork), before.inbox)
  {
    assert Optional(AsWork(t)) + Select(before.tasks, AsWork) == Select(before.tasks, AsWork);
  }

  lemma ShowTask(before: Client, t: Task)
    requires TakenInv(before, t) && t.CallOnFragment?
    ensures ReceivingInv(Perform(before, t))
  {
    var i := before.inbox;
    WorkShow(Select(before.tasks, AsWork), i.received, i.fragments, i.assembled, t.piece);
    TakenMessages(before, t);
    MessagesSame(Pending(before.tasks), i, i.(fragments := i.fragments + [t.piece]), before.config);
    WholePerform(before, t);
  }

  lemma ReassembleOrder(before: Client, p: Piece)
    requires OrderInv([Reassemble(p)] + Select(before.tasks, AsWork), before.inbox)
    ensures var r := ReassembleTask(before, p); OrderInv(Select(r.tasks, AsWork), r.inbox)
  {
    WorkPerform(before, Reassemble(p));
    var i := before.inbox;
    WorkAssemble(Select(before.tasks, AsWork), i.received, i.fragments, i.assembled, p);
    ReassembleEffect(before, p);
  }

  lemma AssembleTask(before: Client, t: Task)
    requires TakenInv(before, t) && t.Reassemble?
    ensures ReceivingInv(Perform(before, t))
  {
    TakenMessages(before, t);
    WholePerform(before, t);
    ReassembleOrder(before, t.piece);
    ReassemblePerform(before, t.piece);
  }

  lemma DeliverTask(before: Client, t: Task)
    requires TakenInv(before, t) && (t.DeliverWhole? || t.DeliverJoined?)
    ensures ReceivingInv(Perform(before, t))
  {
    TakenOrder(before, t);
    WholePerform(before, t);
    WorkPerform(before, t);
    DeliverOrder(before, t);
    DeliverPerform(before, t);
  }

  lemma DeliverOrder(before: Client, t: Task)
    requires t.DeliverWhole? || t.DeliverJoined?
    ensures var a, b := Perform(before, t).inbox, before.inbox;
            a.received == b.received && a.fragments == b.fragments && a.assembled == b.assembled
  {
  }

  /** What a task does that is not part of the receive side. */
  lemma PerformElsewhere(s: Client, t: Task)
    ensures Perform(s, t).link == s.link && Perform(s, t).config == s.config
    ensures AsWork(t).None? && AsDelivery(t).None? ==> Perform(s, t).tasks == s.tasks && Perform(s, t).inbox == s.inbox
  {
  }

  lemma OtherTask(before: Client, t: Task)
    requires TakenInv(before, t) && AsWork(t).None? && AsDelivery(t).None?
    ensures ReceivingInv(Perform(before, t))
  {
    TakenOrder(before, t);
    TakenMessages(before, t);
    PerformElsewhere(before, t);
    assert before.tasks == before.tasks + [];
    ReceivingFrame(before, Perform(before, t), []);
  }

  lemma ReceivingTask(s: Client, t: Task, rest: seq<QueuedTask>)
    requires s.tasks == [t] + rest && ReceivingInv(s)
    ensures ReceivingInv(Perform(s.(tasks := rest), t))
  {
    var before := s.(tasks := rest);
    TakeTask(s, t, rest);
    match t
    case CallOnFragment(_) => ShowTask(before, t);
    case Reassemble(_) => AssembleTask(before, t);
    case DeliverWhole(_) => DeliverTask(before, t);
    case DeliverJoined(_) => DeliverTask(before, t);
    case _ => OtherTask(before, t);
  }

  lemma WholeRest(s: Client, t: Task, rest: seq<QueuedTask>)
    requires s.tasks == [t] + rest && WholeInv(s)
    ensures WholeInv(s.(tasks := rest)) && (t.DeliverWhole? ==> Decodes(s, t.message))
  {
    assert s.tasks[0] == t;
    assert forall k :: 0 <= k < |rest| ==> rest[k] == s.tasks[k + 1];
  }

  lemma WorkOfReceive(tasks: seq<Task>, p: Piece)
    ensures Select(tasks + [CallOnFragment(p), Reassemble(p)], AsWork)
            == Select(tasks, AsWork) + [CallOnFragment(p), Reassemble(p)]
  {
    assert tasks + [CallOnFragment(p), Reassemble(p)] == (tasks + [CallOnFragment(p)]) + [Reassemble(p)];
    SelectOne(tasks, CallOnFragment(p), AsWork);
    SelectOne(tasks + [CallOnFragment(p)], Reassemble(p), AsWork);
  }

  lemma ReceiveOrder(s: Client, p: Piece)
    requires OrderInv(Select(s.tasks, AsWork), s.inbox)
    ensures var r := OnReceive(s, p); OrderInv(Select(r.tasks, AsWork), r.inbox)
  {
    WorkOfReceive(s.tasks, p);
    WorkReceive(Select(s.tasks, AsWork), s.inbox.received, s.inbox.fragments, s.inbox.assembled, p);
  }

  lemma ReceivePending(s: Client, p: Piece)
    ensures Pending(OnReceive(s, p).tasks) == Pending(s.tasks)
  {
    NoneSelected(s.tasks, [CallOnFragment(p), Reassemble(p)], AsDelivery);
  }

  lemma MessagesSame(pending: seq<Message>, i: Inbox, j: Inbox, config: Config)
    requires MessagesInv(pending, i, config) && j.(received := i.received, fragments := i.fragments) == i
    ensures MessagesInv(pending, j, config)
  {
  }

  lemma ReceivingReceive(s: Client, p: Piece)
    requires ReceivingInv(s)
    ensures ReceivingInv(OnReceive(s, p))
  {
    var r := OnReceive(s, p);
    ReceiveOrder(s, p);
    ReceivePending(s, p);
    MessagesSame(Pending(s.tasks), s.inbox, r.inbox, s.config);
    ReceiveWhole(s, p);
  }

  lemma ReceiveWhole(s: Client, p: Piece)
    requires WholeInv(s)
    ensures WholeInv(OnReceive(s, p))
  {
  }

  /** A step that leaves the receive side alone. */
  lemma ReceivingFrame(s: Client, r: Client, more: seq<Task>)
    requires ReceivingInv(s)
    requires r.inbox == s.inbox && r.config == s.config && r.tasks == s.tasks + more
    requires forall i :: 0 <= i < |more| ==> AsWork(more[i]).None? && AsDelivery(more[i]).None?
    ensures ReceivingInv(r)
  {
    NoneSelected(s.tasks, more, AsWork);
    NoneSelected(s.tasks, more, AsDelivery);
  }

  lemma ReceivingOther(s: Client, ev: Event)
    requires ReceivingInv(s) && Enabled(s, ev) && !OnLoop(ev) && !ev.ReceiveCb?
    ensures ReceivingInv(Next(s, ev))
  {
    var more := OtherTasks(s, ev);
    InboxSame(s, ev);
    ReceivingFrame(s, Next(s, ev), more);
  }

  lemma OtherTasks(s: Client, ev: Event) returns (more: seq<Task>)
    requires Enabled(s, ev) && !OnLoop(ev) && !ev.ReceiveCb?
    ensures Next(s, ev).tasks == s.tasks + more
    ensures forall i :: 0 <= i < |more| ==> AsWork(more[i]).None? && AsDelivery(more[i]).None?
  {
    more := NewTasks(s, ev);
    forall i | 0 <= i < |more|
      ensures AsWork(more[i]).None? && AsDelivery(more[i]).None?
    {
      assert Expected(ev, more[i]);
    }
  }

  lemma InboxSame(s: Client, ev: Event)
    requires Enabled(s, ev) && !OnLoop(ev) && !ev.ReceiveCb?
    ensures Next(s, ev).inbox == s.inbox && Next(s, ev).config == s.config
  {
  }

  lemma ReceivingLoop(s: Client, ev: Event)
    requires ReceivingInv(s) && Enabled(s, ev) && OnLoop(ev)
    ensures ReceivingInv(Next(s, ev))
  {
    var before, t := LoopStep(s, ev);
    if ev.LoopTask? {
      ReceivingTask(s, t, before.tasks);
    } else {
      assert Perform(before, t).inbox == s.inbox && Perform(before, t).tasks == s.tasks + [];
      ReceivingFrame(s, Next(s, ev), []);
    }
  }

  lemma ReceivingStep(s: Client, ev: Event)
    requires ReceivingInv(s)
    ensures ReceivingInv(Next(s, ev))
  {
    if !Enabled(s, ev) {
    } else if OnLoop(ev) {
      ReceivingLoop(s, ev);
    } else if ev.ReceiveCb? {
      if s.link.alive {
        ReceivingReceive(s, ev.piece);
      }
    } else {
      ReceivingOther(s, ev);
    }
  }

  lemma ReceivingInitial(config: Config, contextCreated: bool)
    ensures ReceivingInv(Initial(config, contextCreated))
  {
    var s := Initial(config, contextCreated);
    assert s.tasks == [] + s.tasks;
    NoneSelected([], s.tasks, AsWork);
    NoneSelected([], s.tasks, AsDelivery);
  }

  lemma {:induction false} ReceivingReachable(config: Config, contextCreated: bool, evs: seq<Event>)
    ensures ReceivingInv(Steps(Initial(config, contextCreated), evs))
    decreases |evs|
  {
    if evs == [] {
      ReceivingInitial(config, contextCreated);
    } else {
      ReceivingReachable(config, contextCreated, evs[..|evs| - 1]);
      ReceivingStep(Steps(Initial(config, contextCreated), evs[..|evs| - 1]), evs[|evs| - 1]);
    }
  }

  lemma ReceivingFacts(s: Client)
    requires Reachable(s)
    ensures ReceivingInv(s)
  {
    var config: Config, contextCreated: bool, evs: seq<Event> :|
      s == Steps(Initial(config, contextCreated), evs);
    ReceivingReachable(config, contextCreated, evs);
  }

  // ---- Messages refused ----

  /** A text that does not decode is refused once for every time it was
      assembled, as soon as its task has run; others are never refused. */
  predicate RefusedInv(pending: seq<Message>, i: Inbox, config: Config, m: Message) {
    if m.binary || config.decodes(m.data) then multiset(i.refused)[m] == 0
    else multiset(i.refused)[m] + multiset(pending)[m]
         == multiset(Run(START, i.assembled, config.maxMessageSize).out)[m]
  }

  predicate Refusals(s: Client, m: Message) {
    RefusedInv(Pending(s.tasks), s.inbox, s.config, m)
  }

  lemma RefusedSame(pending: seq<Message>, i: Inbox, j: Inbox, config: Config, m: Message)
    requires RefusedInv(pending, i, config, m) && j.refused == i.refused && j.assembled == i.assembled
    ensures RefusedInv(pending, j, config, m)
  {
  }

  lemma RefusedAssemble(pending: seq<Message>, i: Inbox, config: Config, p: Piece, step: Step, atOnce: bool, m: Message)
    requires MessagesInv(pending, i, config) && RefusedInv(pending, i, config, m)
    requires step == Assemble(i.frameSequence, p, config.maxMessageSize)
    requires atOnce ==> step.action.Whole? && !step.action.message.binary && !config.decodes(step.action.message.data)
    ensures var done := Completed(step.action);
            var j := i.(frameSequence := step.held, assembled := i.assembled + [p],
                        refused := i.refused + (if atOnce then done else []));
            RefusedInv(pending + (if atOnce then [] else done), j, config, m)
  {
    var done := Completed(step.action);
    OutAfter(i, config.maxMessageSize, p);
  }

  lemma RefusedDeliver(pending: seq<Message>, i: Inbox, j: Inbox, config: Config, x: Message, m: Message)
    requires RefusedInv([x] + pending, i, config, m) && j.assembled == i.assembled
    requires j.refused == i.refused + (if x.binary || config.decodes(x.data) then [] else [x])
    ensures RefusedInv(pending, j, config, m)
  {
    assert multiset([x] + pending)[m] == multiset([x])[m] + multiset(pending)[m];
  }

  lemma DeliverEffect(s: Client, t: Task)
    requires t.DeliverWhole? || t.DeliverJoined?
    requires t.DeliverWhole? ==> Decodes(s, t.message)
    ensures var r := Perform(s, t);
            && r.config == s.config && r.tasks == s.tasks && r.inbox.assembled == s.inbox.assembled
            && r.inbox.refused == s.inbox.refused + (if Decodes(s, t.message) then [] else [t.message])
  {
  }

  /** The tasks that complete, deliver or refuse a message. */
  predicate Completes(t: Task) {
    t.Reassemble? || t.DeliverWhole? || t.DeliverJoined?
  }

  lemma RefusedReassemble(before: Client, p: Piece, m: Message)
    requires MessagesInv(Pending(before.tasks), before.inbox, before.config) && Refusals(before, m)
    ensures Refusals(ReassembleTask(before, p), m)
  {
    var step := Assemble(before.inbox.frameSequence, p, before.config.maxMessageSize);
    ReassembleEffect(before, p);
    RefusedAssemble(Pending(before.tasks), before.inbox, before.config, p, step, RefusedAtOnce(before, step.action), m);
  }

  lemma RefusedDelivery(before: Client, t: Task, m: Message)
    requires (t.DeliverWhole? || t.DeliverJoined?) && (t.DeliverWhole? ==> Decodes(before, t.message))
    requires RefusedInv([t.message] + Pending(before.tasks), before.inbox, before.config, m)
    ensures Refusals(Perform(before, t), m)
  {
    DeliverEffect(before, t);
    RefusedDeliver(Pending(before.tasks), before.inbox, Perform(before, t).inbox, before.config, t.message, m);
  }

  lemma RefusedTaken(s: Client, t: Task, rest: seq<QueuedTask>, m: Message)
    requires s.tasks == [t] + rest && Refusals(s, m)
    ensures RefusedInv(Optional(AsDelivery(t)) + Pending(rest), s.inbox, s.config, m)
    ensures t.Reassemble? ==> Refusals(s.(tasks := rest), m)
  {
    FirstSelected(t, rest, AsDelivery);
    assert [] + Pending(rest) == Pending(rest);
  }

  lemma TakenFacts(s: Client, t: Task, rest: seq<QueuedTask>)
    requires s.tasks == [t] + rest && ReceivingInv(s)
    ensures t.Reassemble? ==> MessagesInv(Pending(rest), s.inbox, s.config)
    ensures t.DeliverWhole? ==> Decodes(s, t.message)
  {
    TakeTask(s, t, rest);
    if t.Reassemble? {
      TakenMessages(s.(tasks := rest), t);
    }
  }

  lemma RefusedTask(s: Client, t: Task, rest: seq<QueuedTask>, m: Message)
    requires s.tasks == [t] + rest && Refusals(s, m) && Completes(t)
    requires t.Reassemble? ==> MessagesInv(Pending(rest), s.inbox, s.config)
    requires t.DeliverWhole? ==> Decodes(s, t.message)
    ensures Refusals(Perform(s.(tasks := rest), t), m)
  {
    var before := s.(tasks := rest);
    RefusedTaken(s, t, rest, m);
    if t.Reassemble? {
      RefusedReassemble(before, t.piece, m);
      assert Perform(before, t) == ReassembleTask(before, t.piece);
    } else {
      RefusedDelivery(before, t, m);
    }
  }

  lemma NothingCompletes(s: Client, t: Task)
    requires !Completes(t)
    ensures var r := Perform(s, t);
            && r.tasks == s.tasks && r.config == s.config
            && r.inbox.refused == s.inbox.refused && r.inbox.assembled == s.inbox.assembled
  {
  }

  lemma RefusedLoop(s: Client, ev: Event, m: Message)
    requires ReceivingInv(s) && Refusals(s, m) && Enabled(s, ev) && OnLoop(ev)
    ensures Refusals(Next(s, ev), m)
  {
    var before, t := LoopStep(s, ev);
    if ev.LoopTask? && Completes(t) {
      TakenFacts(s, t, before.tasks);
      RefusedTask(s, t, before.tasks, m);
    } else {
      NothingCompletes(before, t);
      if ev.LoopTask? {
        FirstSelected(t, before.tasks, AsDelivery);
        assert [] + Pending(before.tasks) == Pending(before.tasks);
      }
      RefusedSame(Pending(s.tasks), s.inbox, Next(s, ev).inbox, s.config, m);
    }
  }

  lemma RefusedOther(s: Client, ev: Event, m: Message)
    requires Refusals(s, m) && Enabled(s, ev) && !OnLoop(ev)
    ensures Refusals(Next(s, ev), m)
  {
    var r := Next(s, ev);
    assert r.config == s.config && r.inbox.refused == s.inbox.refused && r.inbox.assembled == s.inbox.assembled by {
      OtherInbox(s, ev);
    }
    var more := NewTasks(s, ev);
    NoneSelected(s.tasks, more, AsDelivery);
    RefusedSame(Pending(s.tasks), s.inbox, r.inbox, s.config, m);
  }

  lemma OtherInbox(s: Client, ev: Event)
    requires Enabled(s, ev) && !OnLoop(ev)
    ensures var a, b := Next(s, ev), s;
            a.config == b.config && a.inbox.refused == b.inbox.refused && a.inbox.assembled == b.inbox.assembled
  {
  }

  lemma {:induction false} RefusedReachable(config: Config, contextCreated: bool, evs: seq<Event>, m: Message)
    ensures Refusals(Steps(Initial(config, contextCreated), evs), m)
    decreases |evs|
  {
    if evs != [] {
      var s, ev := Steps(Initial(config, contextCreated), evs[..|evs| - 1]), evs[|evs| - 1];
      RefusedReachable(config, contextCreated, evs[..|evs| - 1], m);
      ReceivingReachable(config, contextCreated, evs[..|evs| - 1]);
      if Enabled(s, ev) && OnLoop(ev) {
        RefusedLoop(s, ev, m);
      } else if Enabled(s, ev) {
        RefusedOther(s, ev, m);
      }
    } else {
      var s := Initial(config, contextCreated);
      assert s.tasks == [] + s.tasks;
      NoneSelected([], s.tasks, AsDelivery);
    }
  }

  lemma RefusedFacts(s: Client, m: Message)
    requires Reachable(s)
    ensures Refusals(s, m)
  {
    var config: Config, contextCreated: bool, evs: seq<Event> :|
      s == Steps(Initial(config, contextCreated), evs);
    RefusedReachable(config, contextCreated, evs, m);
  }

  // ---- Results ----

  /** No task of the receive side is waiting. */
  predicate Drained(s: Client) {
    Select(s.tasks, AsWork) == [] && Pending(s.tasks) == []
  }

  lemma RunOutGrows(a: seq<Piece>, b: seq<Piece>, limit: Option<nat>)
    requires a <= b
    ensures Run(START, a, limit).out <= Run(START, b, limit).out
    ensures Run(START, a, limit).lost <= Run(START, b, limit).lost
  {
    assert b == a + b[|a|..];
    RunAppend(START, a, b[|a|..], limit);
    RunGrows(START, a, limit);
    RunGrows(Run(START, a, limit), b[|a|..], limit);
  }

  lemma ScheduledDeliveries(s: Client)
    requires Reachable(s)
    ensures s.inbox.fragments <= s.inbox.received
    ensures s.inbox.delivered
            <= Decodable(Run(START, s.inbox.fragments, s.config.maxMessageSize).out, s.config.decodes)
    ensures Drained(s) ==>
              && s.inbox.delivered
                 == Decodable(Run(START, s.inbox.received, s.config.maxMessageSize).out, s.config.decodes)
              && s.inbox.frameSequence == Run(START, s.inbox.received, s.config.maxMessageSize).held
  {
    ReceivingFacts(s);
    var i, limit := s.inbox, s.config.maxMessageSize;
    RunOutGrows(i.assembled, i.fragments, limit);
    DecodableOfPrefix(Run(START, i.assembled, limit).out, Run(START, i.fragments, limit).out, s.config.decodes);
    assert i.delivered <= i.delivered + Decodable(Pending(s.tasks), s.config.decodes);
    if Drained(s) {
      DrainedAll(Select(s.tasks, AsWork), i);
    }
  }

  lemma DrainedAll(work: seq<Task>, i: Inbox)
    requires OrderInv(work, i) && work == []
    ensures i.assembled == i.received
  {
    PairsLength(i.received[|i.fragments|..]);
  }

  lemma {:induction false} PairsLength(ps: seq<Piece>)
    ensures |Pairs(ps)| == 2 * |ps|
  {
    if ps != [] {
      PairsLength(ps[1..]);
    }
  }

  lemma OrderedDeliveries(s: Client)
    requires Reachable(s) && Coherent(s.inbox.fragments, None)
    requires !Overflowed(s.inbox.fragments, s.config.maxMessageSize)
    ensures s.inbox.delivered <= Decodable(Messages(s.inbox.fragments), s.config.decodes)
  {
    ScheduledDeliveries(s);
    OverflowMeansLoss(s.inbox.fragments, s.config.maxMessageSize);
    NoLossMeansAgreement(START, s.inbox.fragments, s.config.maxMessageSize);
    GatherIsMessages(s.inbox.fragments);
    assert START.out + Messages(s.inbox.fragments) == Messages(s.inbox.fragments);
  }

  /** Two-stage scheduling refines synchronous reassembly, for every stream and
      in every run: what has been delivered is a prefix of what the unscheduled
      reassembly yields for the fragments shown so far, which are the first ones
      of those that RECEIVE brought; and all of it once the tasks have run. */
  lemma SchedulingRefines(x: Execution)
    ensures Shown(x) <= Fragments(x)
    ensures Deliveries(x) <= Decodable(Run(START, Shown(x), x.config.maxMessageSize).out, x.config.decodes)
    ensures Drained(Final(x)) ==>
              && Deliveries(x) == Decodable(Run(START, Fragments(x), x.config.maxMessageSize).out, x.config.decodes)
              && Final(x).inbox.frameSequence == Run(START, Fragments(x), x.config.maxMessageSize).held
  {
    FinalIsReachable(x);
    ReceivedIsWhatCame(x);
    ScheduledDeliveries(Final(x));
  }

  /** Up to the first overflow that is the meaning of the stream: messages come
      out in the order of their final fragments, each is the concatenation of
      its fragments, and none is delivered before its own fragments have been
      given to `onFragment`. */
  lemma DeliversMessagesInOrder(x: Execution)
    requires Coherent(Shown(x), None) && !Overflowed(Shown(x), x.config.maxMessageSize)
    ensures Deliveries(x) <= Decodable(Messages(Shown(x)), x.config.decodes)
  {
    FinalIsReachable(x);
    ReceivedIsWhatCame(x);
    OrderedDeliveries(Final(x));
  }

  lemma {:induction false} DecodableKeeps(ms: seq<Message>, decodes: Bytes -> bool, m: Message)
    requires m in Decodable(ms, decodes)
    ensures m in ms && (m.binary || decodes(m.data))
  {
    if ms[0] != m || !(m.binary || decodes(m.data)) {
      DecodableKeeps(ms[1..], decodes, m);
    }
  }

  lemma {:induction false} DecodableHas(ms: seq<Message>, decodes: Bytes -> bool, m: Message)
    requires m in ms && (m.binary || decodes(m.data))
    ensures m in Decodable(ms, decodes)
  {
    if ms[0] != m {
      DecodableHas(ms[1..], decodes, m);
    }
  }

  /** Size bound for every stream, coherent or not, and every run: between tasks
      no more than the limit is held; a message above the limit is delivered
      only if it arrived in one fragment; and once the tasks have run it has
      been delivered if and only if it did, and decodes. */
  lemma ReceiveSizeBound(s: Client, m: Message)
    requires Reachable(s)
    ensures s.config.maxMessageSize.Some? ==> HeldCount(s.inbox.frameSequence) <= s.config.maxMessageSize.value
    ensures m in s.inbox.delivered ==> Admissible(m, s.inbox.received, s.config.maxMessageSize)
    ensures Drained(s) && s.config.maxMessageSize.Some? && |m.data| > s.config.maxMessageSize.value ==>
              (m in s.inbox.delivered <==>
               Piece(true, true, m.binary, m.data) in s.inbox.received && (m.binary || s.config.decodes(m.data)))
  {
    ReceivingFacts(s);
    ScheduledDeliveries(s);
    SizeBound(s.inbox.assembled, s.config.maxMessageSize, m);
    SizeBound(s.inbox.fragments, s.config.maxMessageSize, m);
    SizeBound(s.inbox.received, s.config.maxMessageSize, m);
    if m in s.inbox.delivered {
      DecodableKeeps(Run(START, s.inbox.fragments, s.config.maxMessageSize).out, s.config.decodes, m);
    }
    var all := Run(START, s.inbox.received, s.config.maxMessageSize).out;
    if m in all && (m.binary || s.config.decodes(m.data)) {
      DecodableHas(all, s.config.decodes, m);
    }
  }

  /** Cut independence over runs: however two clients are handed the bytes of
      the same messages, once their tasks have run they have delivered the same
      messages, refused the same ones, and hold nothing. */
  lemma SameBytesSameMessages(a: Client, b: Client, ps: seq<Piece>, cutsA: seq<seq<Bytes>>, cutsB: seq<seq<Bytes>>,
                              m: Message)
    requires Reachable(a) && Reachable(b) && Drained(a) && Drained(b) && a.config.decodes == b.config.decodes
    requires Coherent(ps, None) && Complete(ps) && ValidCuts(ps, cutsA) && ValidCuts(ps, cutsB)
    requires AllWithin(Messages(ps), a.config.maxMessageSize) && AllWithin(Messages(ps), b.config.maxMessageSize)
    requires a.inbox.received == Cut(ps, cutsA) && b.inbox.received == Cut(ps, cutsB)
    ensures a.inbox.delivered == b.inbox.delivered == Decodable(Messages(ps), a.config.decodes)
    ensures multiset(a.inbox.refused)[m] == multiset(b.inbox.refused)[m]
    ensures a.inbox.frameSequence.None? && b.inbox.frameSequence.None?
  {
    CutOutcome(a, ps, cutsA, m);
    CutOutcome(b, ps, cutsB, m);
  }

  lemma CutOutcome(a: Client, ps: seq<Piece>, cuts: seq<seq<Bytes>>, m: Message)
    requires Reachable(a) && Drained(a)
    requires Coherent(ps, None) && Complete(ps) && ValidCuts(ps, cuts)
    requires AllWithin(Messages(ps), a.config.maxMessageSize)
    requires a.inbox.received == Cut(ps, cuts)
    ensures a.inbox.delivered == Decodable(Messages(ps), a.config.decodes)
    ensures multiset(a.inbox.refused)[m]
            == if m.binary || a.config.decodes(m.data) then 0 else multiset(Messages(ps))[m]
    ensures a.inbox.frameSequence.None?
  {
    CutIndependence(ps, cuts, a.config.maxMessageSize);
    ScheduledDeliveries(a);
    DrainedRefusals(a, m);
  }

  lemma DrainedRefusals(s: Client, m: Message)
    requires Reachable(s) && Drained(s)
    ensures multiset(s.inbox.refused)[m]
            == if m.binary || s.config.decodes(m.data) then 0
               else multiset(Run(START, s.inbox.received, s.config.maxMessageSize).out)[m]
  {
    ReceivingFacts(s);
    RefusedFacts(s, m);
    DrainedAll(Select(s.tasks, AsWork), s.inbox);
  }
}
