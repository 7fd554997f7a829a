/** Many clients on one context. In `ClientState` a callback for a released
    client is refused by definition. Here it is refused because the closures of
    the context have marked the connection by then, and every client of every
    run is shown to be in a state that `ClientState` reaches by itself. */
module SharedContext {
  import opened Protocol
  import opened ClientState
  import opened Connection
  import C = ContextCallbacks

  datatype World = World(context: C.Context, clients: map<C.Id, Client>)

  datatype WorldEvent =
    | Create(id: C.Id, config: Config, contextCreated: bool)
    | Of(id: C.Id, event: Event)

  /** libwebsockets has a connection for this client. */
  predicate Exists(link: Link) {
    link.phase.Connecting? || link.phase.Established? || link.phase.Closing? || link.phase.Ended?
  }

  /** CONNECTION_ERROR from inside the connect call. */
  predicate EarlyError(s: Client, ev: Event) {
    ev.ConnectionErrorCb? && s.link.phase.Unborn?
  }

  /** A step of one client that can happen. The connect call reports at most one
      error. */
  predicate Possible(s: Client, ev: Event) {
    Enabled(s, ev) && (EarlyError(s, ev) ==> !s.link.connectionError)
  }

  /** What such a step does to the context. A connection that fails inside the
      connect call begins and ends there. */
  function Touch(c: C.Context, id: C.Id, s: Client, ev: Event): (r: C.Context) {
    if EarlyError(s, ev) then
      C.Next(C.Next(C.Next(c, C.Connect(id)), C.CallbackFor(id)), C.DestroyFor(id))
    else
      match ev
      case ConnectCall(success) => C.Next(if success then C.Next(c, C.Connect(id)) else c, C.Return(id))
      case DestroyCb => C.Next(c, C.DestroyFor(id))
      case Release => C.Next(c, C.Release(id))
      case _ => if IsCallback(ev) then C.Next(c, C.CallbackFor(id)) else c
  }

  /** The context a callback looks at. */
  function Seen(c: C.Context, id: C.Id, s: Client, ev: Event): (r: C.Context) {
    if EarlyError(s, ev) then C.Next(c, C.Connect(id)) else c
  }

  /** `getWebsocketClient` finds a client: the connection is not marked once the
      waiting closures have run. */
  predicate Found(c: C.Context, id: C.Id) {
    var d := C.Drain(c);
    id in d.marked && !d.marked[id]
  }

  /** What such a step does to the client. */
  function Act(c: C.Context, id: C.Id, s: Client, ev: Event): (r: Client)
    requires Enabled(s, ev)
  {
    if !IsCallback(ev) then Apply(s, ev)
    else if Found(Seen(c, id, s, ev), id) then Callback(s, ev)
    else s.(link := Refused(s.link, ev))
  }

  function WorldNext(w: World, e: WorldEvent): (r: World) {
    match e
    case Create(id, config, contextCreated) =>
      if id in w.clients then w else w.(clients := w.clients[id := Initial(config, contextCreated)])
    case Of(id, ev) =>
      if id in w.clients && Possible(w.clients[id], ev) then
        var s := w.clients[id];
        World(Touch(w.context, id, s, ev), w.clients[id := Act(w.context, id, s, ev)])
      else w
  }

  function WorldSteps(w: World, es: seq<WorldEvent>): (r: World)
    decreases |es|
  {
    if es == [] then w else WorldNext(WorldSteps(w, es[..|es| - 1]), es[|es| - 1])
  }

  const START := World(C.EMPTY, map[])

  // ---- The context knows of the client ----

  predicate Ties(c: C.Context, id: C.Id, s: Client) {
    && (id in c.marked <==> Exists(s.link))
    && (s.link.phase.Unborn? ==> !s.link.websocket && (!s.link.connectionError ==> id !in c.holders))
    && (id in c.holders ==>
          var h := c.holders[id];
          && h.alive == s.link.alive
          && (h.returned <==> !s.opening.pending)
          && (h.alive && h.returned ==> h.websocket == s.link.websocket))
  }

  /** Another client's connection and holder are what they were. */
  predicate SameFor(c: C.Context, d: C.Context, id: C.Id) {
    (id in c.marked <==> id in d.marked) && (id in c.holders <==> id in d.holders)
    && (id in c.holders ==> d.holders[id] == c.holders[id])
  }

  lemma TiesSame(c: C.Context, d: C.Context, id: C.Id, s: Client)
    requires Ties(c, id, s) && SameFor(c, d, id)
    ensures Ties(d, id, s)
  {
  }

  // ---- What the steps of the context do ----

  lemma FoundIffAlive(c: C.Context, id: C.Id)
    requires C.Safe(c) && id in c.marked
    ensures id in c.holders && (Found(c, id) <==> c.holders[id].alive)
  {
    C.DrainSafe(c);
    assert C.Guarded(c, id);
    assert C.Guarded(C.Drain(c), id) && C.Tied(C.Drain(c), id);
  }

  lemma CallbackEffect(c: C.Context, id: C.Id, x: C.Id)
    requires C.Safe(c)
    ensures var r := C.Next(c, C.CallbackFor(id)); C.Safe(r) && SameFor(c, r, x)
  {
    if id in c.marked {
      C.DrainSafe(c);
      C.LookupSafe(C.Drain(c), id);
    }
  }

  lemma DestroyEffect(c: C.Context, id: C.Id, x: C.Id)
    requires C.Safe(c) && id in c.marked
    ensures var r := C.Next(c, C.DestroyFor(id));
            && C.Safe(r) && id !in r.marked
            && id in c.holders && id in r.holders
            && r.holders[id] == (if c.holders[id].alive then c.holders[id].(websocket := false) else c.holders[id])
            && (x != id ==> SameFor(c, r, x))
  {
    C.DestroySafe(c, id);
    C.DrainSafe(c);
    C.LookupSafe(C.Drain(c), id);
    FoundIffAlive(c, id);
  }

  lemma ConnectEffect(c: C.Context, id: C.Id, x: C.Id)
    requires C.Safe(c) && id !in c.holders && id !in c.marked
    ensures var r := C.Next(c, C.Connect(id));
            && C.Safe(r) && id in r.marked && id in r.holders && r.holders[id] == C.Holder(true, false, false)
            && (x != id ==> SameFor(c, r, x))
  {
    C.ConnectSafe(c, id);
  }

  lemma ReturnEffect(c: C.Context, id: C.Id, x: C.Id)
    requires C.Safe(c) && id in c.holders && !c.holders[id].returned
    ensures var r := C.Next(c, C.Return(id));
            && C.Safe(r) && r.marked == c.marked && id in r.holders
            && r.holders[id] == c.holders[id].(returned := true, websocket := id in c.marked)
            && (x != id ==> SameFor(c, r, x))
  {
    C.HolderSafe(c, C.Return(id));
  }

  lemma ReleaseEffect(c: C.Context, id: C.Id, x: C.Id)
    requires C.Safe(c)
    ensures var r := C.Next(c, C.Release(id));
            && C.Safe(r) && r.marked == c.marked && r.holders.Keys == c.holders.Keys
            && (x != id ==> SameFor(c, r, x))
            && (C.Enabled(c, C.Release(id)) ==> r.holders[id] == c.holders[id].(alive := false))
            && (!C.Enabled(c, C.Release(id)) ==> r == c)
  {
    if C.Enabled(c, C.Release(id)) {
      C.HolderSafe(c, C.Release(id));
    }
  }

  // ---- One step ----

  /** What a step of client `id` must leave behind, for `id` and any other. */
  ghost predicate Kept(c: C.Context, r: C.Context, id: C.Id, s: Client, x: C.Id) {
    C.Safe(r) && Ties(r, id, s) && (x != id ==> SameFor(c, r, x))
  }

  lemma KeptByCallback(c: C.Context, id: C.Id, s: Client, ev: Event, x: C.Id)
    requires C.Safe(c) && Ties(c, id, s) && LinkInv(s)
    requires Possible(s, ev) && IsCallback(ev) && !EarlyError(s, ev)
    ensures Act(c, id, s, ev) == Next(s, ev) && Kept(c, Touch(c, id, s, ev), id, Next(s, ev), x)
  {
    FoundIffAlive(c, id);
    if ev.DestroyCb? {
      DestroyEffect(c, id, x);
    } else {
      CallbackEffect(c, id, x);
      CallbackEffect(c, id, id);
    }
  }

  lemma KeptByEarlyError(c: C.Context, id: C.Id, s: Client, ev: Event, x: C.Id)
    requires C.Safe(c) && Ties(c, id, s) && LinkInv(s)
    requires Possible(s, ev) && EarlyError(s, ev)
    ensures Act(c, id, s, ev) == Next(s, ev) && Kept(c, Touch(c, id, s, ev), id, Next(s, ev), x)
  {
    var a := C.Next(c, C.Connect(id));
    ConnectEffect(c, id, x);
    FoundIffAlive(a, id);
    var b := C.Next(a, C.CallbackFor(id));
    CallbackEffect(a, id, x);
    CallbackEffect(a, id, id);
    DestroyEffect(b, id, x);
  }

  lemma KeptByConnect(c: C.Context, id: C.Id, s: Client, success: bool, x: C.Id)
    requires C.Safe(c) && Ties(c, id, s) && LinkInv(s) && Possible(s, ConnectCall(success))
    ensures Kept(c, Touch(c, id, s, ConnectCall(success)), id, Next(s, ConnectCall(success)), x)
  {
    if success {
      ConnectEffect(c, id, x);
      ReturnEffect(C.Next(c, C.Connect(id)), id, x);
    } else if id in c.holders {
      ReturnEffect(c, id, x);
    }
  }

  lemma KeptByRelease(c: C.Context, id: C.Id, s: Client, x: C.Id)
    requires C.Safe(c) && Ties(c, id, s) && LinkInv(s) && Possible(s, Release)
    ensures Kept(c, Touch(c, id, s, Release), id, Next(s, Release), x)
  {
    ReleaseEffect(c, id, x);
  }

  /** The other steps do not touch what the context knows. */
  lemma KeptByOthers(s: Client, ev: Event)
    requires Enabled(s, ev) && !IsCallback(ev) && !ev.ConnectCall? && !ev.Release?
    ensures var r := Next(s, ev);
            && r.link.alive == s.link.alive && r.link.websocket == s.link.websocket
            && r.link.connectionError == s.link.connectionError && r.opening.pending == s.opening.pending
            && (r.link.phase == s.link.phase || (s.out.inFlight.Some? && r.link.phase.Closing?))
  {
    if OnLoop(ev) {
      var before, t := LoopStep(s, ev);
      var _ := PerformOut(before, t);
    }
  }

  /** Every step of a client in the world is its step in `ClientState`. */
  lemma StepOfClient(c: C.Context, id: C.Id, s: Client, ev: Event, x: C.Id)
    requires C.Safe(c) && Ties(c, id, s) && LinkInv(s) && Possible(s, ev)
    ensures Act(c, id, s, ev) == Next(s, ev) && Kept(c, Touch(c, id, s, ev), id, Next(s, ev), x)
  {
    if EarlyError(s, ev) {
      KeptByEarlyError(c, id, s, ev, x);
    } else if IsCallback(ev) {
      KeptByCallback(c, id, s, ev, x);
    } else if ev.ConnectCall? {
      KeptByConnect(c, id, s, ev.success, x);
    } else if ev.Release? {
      KeptByRelease(c, id, s, x);
    } else {
      KeptByOthers(s, ev);
    }
  }

  // ---- Every run ----

  ghost predicate WorldInv(w: World) {
    && C.Safe(w.context)
    && (forall id :: id in w.context.holders ==> id in w.clients)
    && (forall id :: id in w.clients ==> Reachable(w.clients[id]) && Ties(w.context, id, w.clients[id]))
  }

  lemma WorldStep(w: World, e: WorldEvent)
    requires WorldInv(w)
    ensures WorldInv(WorldNext(w, e))
  {
    match e
    case Create(id, config, contextCreated) =>
      if id !in w.clients {
        Created(w, id, config, contextCreated);
      }
    case Of(id, ev) =>
      if id in w.clients && Possible(w.clients[id], ev) {
        Stepped(w, id, ev);
      }
  }

  lemma Created(w: World, id: C.Id, config: Config, contextCreated: bool)
    requires WorldInv(w) && id !in w.clients
    ensures WorldInv(WorldNext(w, Create(id, config, contextCreated)))
  {
    var s := Initial(config, contextCreated);
    assert s == Steps(s, []);
    assert Reachable(s);
    assert id in w.context.marked ==> C.Guarded(w.context, id);
    assert Ties(w.context, id, s);
  }

  lemma Stepped(w: World, id: C.Id, ev: Event)
    requires WorldInv(w) && id in w.clients && Possible(w.clients[id], ev)
    ensures WorldInv(WorldNext(w, Of(id, ev)))
  {
    var s, r := w.clients[id], WorldNext(w, Of(id, ev));
    Base(s);
    ReachableStep(s, ev);
    StepOfClient(w.context, id, s, ev, id);
    forall x | x in r.clients
      ensures Reachable(r.clients[x]) && Ties(r.context, x, r.clients[x])
    {
      if x != id {
        StepOfClient(w.context, id, s, ev, x);
        TiesSame(w.context, r.context, x, w.clients[x]);
      }
    }
    forall x | x in r.context.holders
      ensures x in r.clients
    {
      StepOfClient(w.context, id, s, ev, x);
    }
  }

  /** For any number of clients on one context and every interleaving of their
      steps: no callback reads a freed client, and every client is in a state
      that it reaches on its own in `ClientState`. So everything proved about
      reachable states holds of every client of every context. */
  lemma {:induction false} ClientsAreReachable(es: seq<WorldEvent>)
    ensures var w := WorldSteps(START, es);
            && !w.context.fault
            && (forall id :: id in w.clients ==> Reachable(w.clients[id]))
            && WorldInv(w)
    decreases |es|
  {
    if es != [] {
      ClientsAreReachable(es[..|es| - 1]);
      WorldStep(WorldSteps(START, es[..|es| - 1]), es[|es| - 1]);
    }
  }
}
