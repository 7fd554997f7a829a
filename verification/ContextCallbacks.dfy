/** The callback queues of a context and the handshake of `deinit`: many
    clients share one context; a released client leaves a closure that marks
    its connection, and every callback runs the waiting closures before it
    looks at a client. */
module ContextCallbacks {
  import opened Protocol

  type Id = nat

  /** A client: still referenced; its connect call has returned; its field
      `websocket` is set. */
  datatype Holder = Holder(alive: bool, returned: bool, websocket: bool)

  /** `marked` maps every connection that is not destroyed to whether its user
      pointer is the closed marker. `markers` are the connections of the marker
      closures in `eventLoopExecutionCallbacks`. `fault` records a read of a
      freed client or a marker set on a destroyed connection. */
  datatype Context = Context(marked: map<Id, bool>, holders: map<Id, Holder>, markers: seq<Id>, fault: bool)

  // ---- Steps ----

  /** A marker closure runs. */
  function Mark(c: Context, id: Id): (r: Context) {
    if id in c.marked then c.(marked := c.marked[id := true]) else c.(fault := true)
  }

  /** The loop at the top of every callback. */
  function Drain(c: Context): (r: Context)
    decreases |c.markers|
  {
    if c.markers == [] then c else Drain(Mark(c.(markers := c.markers[1..]), c.markers[0]))
  }

  /** `getWebsocketClient`: a marked connection has no client; otherwise the
      self pointer is read. */
  function Lookup(c: Context, id: Id): (r: Context) {
    if id in c.marked && !c.marked[id] && !(id in c.holders && c.holders[id].alive) then c.(fault := true) else c
  }

  function Callback(c: Context, id: Id): (r: Context) {
    Lookup(Drain(c), id)
  }

  /** WSI_DESTROY: a callback like the others, the last one of a connection. */
  function Destroy(c: Context, id: Id): (r: Context) {
    var d := Callback(c, id);
    var e := if id in d.marked && !d.marked[id] && id in d.holders
             then d.(holders := d.holders[id := d.holders[id].(websocket := false)]) else d;
    e.(marked := e.marked - {id})
  }

  datatype Event =
    | Connect(id: Id)       // the connection exists, the connect call is still running
    | Return(id: Id)        // the connect call returns
    | CallbackFor(id: Id)
    | DestroyFor(id: Id)
    | Release(id: Id)       // `deinit`

  predicate Enabled(c: Context, ev: Event) {
    match ev
    case Connect(id) => id !in c.holders && id !in c.marked
    case Return(id) => id in c.holders && !c.holders[id].returned
    case CallbackFor(id) => id in c.marked
    case DestroyFor(id) => id in c.marked
    case Release(id) => id in c.holders && c.holders[id].alive && c.holders[id].returned
  }

  function Next(c: Context, ev: Event): (r: Context) {
    if !Enabled(c, ev) then c
    else
      match ev
      case Connect(id) => c.(marked := c.marked[id := false], holders := c.holders[id := Holder(true, false, false)])
      case Return(id) => c.(holders := c.holders[id := c.holders[id].(returned := true, websocket := id in c.marked)])
      case CallbackFor(id) => Callback(c, id)
      case DestroyFor(id) => Destroy(c, id)
      case Release(id) =>
        c.(holders := c.holders[id := c.holders[id].(alive := false)],
           markers := if c.holders[id].websocket then c.markers + [id] else c.markers)
  }

  function Steps(c: Context, evs: seq<Event>): (r: Context)
    decreases |evs|
  {
    if evs == [] then c else Next(Steps(c, evs[..|evs| - 1]), evs[|evs| - 1])
  }

  const EMPTY := Context(map[], map[], [], false)

  // ---- Lifetime safety ----

  /** A connection that exists has a client that is alive, or its marker, or a
      closure that will set the marker; and closures are only for connections
      that exist. */
  predicate Safe(c: Context) {
    && !c.fault
    && (forall id :: id in c.marked ==> Guarded(c, id))
    && (forall i :: 0 <= i < |c.markers| ==> c.markers[i] in c.marked)
    && (forall id :: id in c.holders ==> Tied(c, id))
  }

  predicate Guarded(c: Context, id: Id) {
    id in c.marked && id in c.holders && (c.holders[id].alive || c.marked[id] || id in c.markers)
  }

  /** The field `websocket` says whether the connection exists, once the connect
      call has returned and as long as the client is alive and unmarked. */
  predicate Tied(c: Context, id: Id) {
    id in c.holders &&
    (var h := c.holders[id];
     && (!h.returned ==> h.alive && !h.websocket)
     && (h.alive ==> (id in c.marked ==> !c.marked[id]) && (h.returned ==> (h.websocket <==> id in c.marked)))
     && (h.alive ==> id !in c.markers))
  }

  lemma MarkSafe(c: Context)
    requires Safe(c) && c.markers != []
    ensures Safe(Mark(c.(markers := c.markers[1..]), c.markers[0]))
    ensures Mark(c.(markers := c.markers[1..]), c.markers[0]).marked.Keys == c.marked.Keys
  {
    var id, rest := c.markers[0], c.markers[1..];
    var r := Mark(c.(markers := rest), id);
    assert id in c.marked;
    assert forall x :: x in rest ==> x in c.markers;
    forall x | x in r.marked
      ensures Guarded(r, x)
    {
      assert Guarded(c, x);
      assert x in c.markers ==> x == id || x in rest;
    }
    forall x | x in r.holders
      ensures Tied(r, x)
    {
      assert Tied(c, x);
      assert Tied(c, id) && id in c.markers;
    }
    forall i | 0 <= i < |rest|
      ensures rest[i] in r.marked
    {
      assert rest[i] == c.markers[i + 1];
    }
  }

  lemma {:induction false} DrainSafe(c: Context)
    requires Safe(c)
    ensures var r := Drain(c);
            && Safe(r) && r.markers == [] && r.holders == c.holders && r.marked.Keys == c.marked.Keys
    decreases |c.markers|
  {
    if c.markers != [] {
      MarkSafe(c);
      DrainSafe(Mark(c.(markers := c.markers[1..]), c.markers[0]));
    }
  }

  lemma LookupSafe(c: Context, id: Id)
    requires Safe(c) && c.markers == []
    ensures Lookup(c, id) == c
  {
    if id in c.marked {
      assert Guarded(c, id);
    }
  }

  lemma DestroySafe(c: Context, id: Id)
    requires Safe(c) && id in c.marked
    ensures Safe(Destroy(c, id))
  {
    DrainSafe(c);
    var d, r := Drain(c), Destroy(c, id);
    LookupSafe(d, id);
    forall x | x in r.marked
      ensures Guarded(r, x)
    {
      assert Guarded(d, x);
    }
    forall x | x in r.holders
      ensures Tied(r, x)
    {
      assert Tied(d, x);
    }
  }

  lemma ConnectSafe(c: Context, id: Id)
    requires Safe(c) && id !in c.holders && id !in c.marked
    ensures Safe(Next(c, Connect(id)))
  {
    var r := Next(c, Connect(id));
    forall x | x in r.marked
      ensures Guarded(r, x)
    {
      assert x != id ==> Guarded(c, x);
    }
    forall x | x in r.holders
      ensures Tied(r, x)
    {
      assert x != id ==> Tied(c, x);
    }
  }

  lemma HolderSafe(c: Context, ev: Event)
    requires Safe(c) && Enabled(c, ev) && (ev.Return? || ev.Release?)
    ensures Safe(Next(c, ev))
  {
    var r := Next(c, ev);
    assert Tied(c, ev.id);
    forall x | x in r.marked
      ensures Guarded(r, x)
    {
      assert Guarded(c, x);
    }
    forall x | x in r.holders
      ensures Tied(r, x)
    {
      assert Tied(c, x);
    }
  }

  lemma {:induction false} AlwaysSafe(evs: seq<Event>)
    ensures Safe(Steps(EMPTY, evs))
    decreases |evs|
  {
    if evs != [] {
      var c, ev := Steps(EMPTY, evs[..|evs| - 1]), evs[|evs| - 1];
      AlwaysSafe(evs[..|evs| - 1]);
      if Enabled(c, ev) {
        match ev
        case Connect(id) => ConnectSafe(c, id);
        case Return(_) => HolderSafe(c, ev);
        case Release(_) => HolderSafe(c, ev);
        case DestroyFor(id) => DestroySafe(c, id);
        case CallbackFor(id) =>
          DrainSafe(c);
          LookupSafe(Drain(c), id);
      }
    }
  }

  /** Lifetime safety of the `deinit` handshake, for any number of clients and
      every interleaving: no callback reads the self pointer of a freed client
      and no marker is set on a destroyed connection. */
  lemma NoUseAfterRelease(evs: seq<Event>)
    ensures !Steps(EMPTY, evs).fault
    ensures forall id :: id in Steps(EMPTY, evs).marked ==> Guarded(Steps(EMPTY, evs), id)
  {
    AlwaysSafe(evs);
  }

  /** From the release of a client on, every callback for its connection finds
      the marker and returns without touching the client. */
  lemma ReleasedMeansMarked(evs: seq<Event>, id: Id)
    requires id in Steps(EMPTY, evs).marked
    requires id in Steps(EMPTY, evs).holders && !Steps(EMPTY, evs).holders[id].alive
    ensures var r := Callback(Steps(EMPTY, evs), id); id in r.marked && r.marked[id]
  {
    AlwaysSafe(evs);
    var c := Steps(EMPTY, evs);
    DrainSafe(c);
    assert Guarded(Drain(c), id);
  }

  // ---- The context as an object ----

  class WebsocketClientContext {
    var eventLoopExecutionCallbacks: seq<Id>
    var fastServiceExecutionCallbacks: seq<Id>
    var marked: map<Id, bool>
    ghost var fault: bool

    // The closures handed to the service thread and those that have run.
    ghost var scheduled: seq<Id>
    ghost var executed: seq<Id>

    ghost function View(holders: map<Id, Holder>): (c: Context)
      reads this
    {
      Context(marked, holders, eventLoopExecutionCallbacks, fault)
    }

    /** Every closure handed to the service thread has run or waits, in order. */
    ghost predicate InOrder()
      reads this
    {
      scheduled == executed + fastServiceExecutionCallbacks
    }

    constructor ()
      ensures View(map[]) == EMPTY && InOrder() && scheduled == []
    {
      eventLoopExecutionCallbacks, fastServiceExecutionCallbacks := [], [];
      scheduled, executed := [], [];
      marked := map[];
      fault := false;
    }

    method ScheduleEventLoopExecution(id: Id)
      modifies this`eventLoopExecutionCallbacks
      ensures eventLoopExecutionCallbacks == old(eventLoopExecutionCallbacks) + [id]
    {
      eventLoopExecutionCallbacks := eventLoopExecutionCallbacks + [id];
    }

    method PopEventLoopExecution() returns (next: Option<Id>)
      modifies this`eventLoopExecutionCallbacks
      ensures Optional(next) + eventLoopExecutionCallbacks == old(eventLoopExecutionCallbacks)
      ensures next.None? ==> old(eventLoopExecutionCallbacks) == []
    {
      next := None;
      if |eventLoopExecutionCallbacks| > 0 {
        next := Some(eventLoopExecutionCallbacks[0]);
        eventLoopExecutionCallbacks := eventLoopExecutionCallbacks[1..];
      }
    }

    /** The loop with which every callback begins. */
    method RunEventLoopExecutions(ghost holders: map<Id, Holder>)
      modifies this`eventLoopExecutionCallbacks, this`marked, this`fault
      ensures View(holders) == Drain(old(View(holders)))
    {
      var callback := PopEventLoopExecution();
      while callback.Some?
        invariant callback.None? ==> eventLoopExecutionCallbacks == []
        invariant Drain(old(View(holders)))
                  == Drain(View(holders).(markers := Optional(callback) + eventLoopExecutionCallbacks))
        decreases |eventLoopExecutionCallbacks| + (if callback.Some? then 1 else 0)
      {
        if callback.value in marked {
          marked := marked[callback.value := true];
        } else {
          fault := true;
        }
        callback := PopEventLoopExecution();
      }
    }

    /** `deinit` of a client, which leaves a marker if it has a connection. */
    method ReleaseClient(id: Id, websocket: bool, ghost holders: map<Id, Holder>)
      returns (ghost after: map<Id, Holder>)
      requires Enabled(View(holders), Release(id)) && websocket == holders[id].websocket
      modifies this`eventLoopExecutionCallbacks
      ensures View(after) == Next(old(View(holders)), Release(id))
    {
      after := holders[id := holders[id].(alive := false)];
      if websocket {
        ScheduleEventLoopExecution(id);
      }
    }

    /** What every callback begins with: the waiting closures, and the look for
        the client. It finds one exactly if the client is alive. */
    method GetWebsocketClient(id: Id, ghost holders: map<Id, Holder>) returns (found: bool)
      requires id in marked
      modifies this`eventLoopExecutionCallbacks, this`marked, this`fault
      ensures View(holders) == Next(old(View(holders)), CallbackFor(id))
      ensures old(Safe(View(holders))) ==> Safe(View(holders)) && (found <==> holders[id].alive)
    {
      ghost var before := View(holders);
      RunEventLoopExecutions(holders);
      found := id in marked && !marked[id];
      ghost var drained := View(holders);
      fault := fault || (found && !(id in holders && holders[id].alive));
      if Safe(before) {
        DrainSafe(before);
        LookupSafe(drained, id);
        assert Guarded(drained, id) && Tied(drained, id);
      }
    }

    method ScheduleFastServiceExecution(id: Id)
      requires InOrder()
      modifies this`fastServiceExecutionCallbacks, this`scheduled
      ensures InOrder() && scheduled == old(scheduled) + [id]
    {
      fastServiceExecutionCallbacks := fastServiceExecutionCallbacks + [id];
      scheduled := scheduled + [id];
    }

    /** The loop after `lws_service`: when it ends, every closure ever scheduled
        has run once, in the order of scheduling. */
    method RunFastServiceExecutions()
      requires InOrder()
      modifies this`fastServiceExecutionCallbacks, this`executed
      ensures InOrder() && executed == scheduled
    {
      while |fastServiceExecutionCallbacks| > 0
        invariant InOrder()
        decreases |fastServiceExecutionCallbacks|
      {
        var callback := fastServiceExecutionCallbacks[0];
        fastServiceExecutionCallbacks := fastServiceExecutionCallbacks[1..];
        executed := executed + [callback];
      }
    }
  }
}
