/** The pool of contexts behind `WebsocketClientContext.shared()`: created once
    by whichever thread gets there first, then handed out in turn. */
module ContextPool {
  import opened Protocol

  type Count = n: nat | n > 0 witness 1

  type Thread = nat

  /** Where a call of `shared()` is. */
  datatype Point =
    | Entered                        // before the test-and-set of the created flag
    | Creating                       // won it, before looking whether the pool exists
    | Building                       // making contexts
    | Publishing(made: nat)          // before assigning the pool
    | Published                      // before looking whether the pool was assigned
    | GivingUp                       // before resetting the flag
    | Selecting                      // before the lock section of `nextShared`
    | Picking(index: nat)            // before indexing the pool
    | Returned(context: Option<nat>)

  /** `shared` is the number of contexts of the assigned pool. The history:
      how often the pool was assigned, the selected indices, whether the early
      return after a lost check was taken, whether an index was out of range. */
  datatype Pool = Pool(
    coreCount: Count,
    created: bool,
    shared: Option<nat>,
    next: nat,
    threads: map<Thread, Point>,
    assignments: nat,
    picks: seq<nat>,
    earlyReturn: bool,
    outOfRange: bool)

  function Initial(coreCount: Count): (p: Pool) {
    Pool(coreCount, false, None, 0, map[], 0, [], false, false)
  }

  // ---- Steps ----

  /** The lock section of `nextShared`. */
  function Following(next: nat, shared: Option<nat>): (n: nat) {
    if next >= (if shared.Some? then shared.value else 0) - 1 then 0 else next + 1
  }

  /** `Call` starts a call of `shared()`. `Step` is its next step; `made` is how
      many contexts could be created, where that matters. */
  datatype Event = Call(t: Thread) | Step(t: Thread, made: nat)

  function Go(p: Pool, t: Thread, at: Point): (r: Pool) {
    p.(threads := p.threads[t := at])
  }

  function Advance(p: Pool, t: Thread, at: Point, made: nat): (r: Pool) {
    match at
    case Entered => if p.created then Go(p, t, Selecting) else Go(p.(created := true), t, Creating)
    case Creating => if p.shared.Some? then Go(p.(earlyReturn := true), t, Selecting) else Go(p, t, Building)
    case Building => Go(p, t, Publishing(if made < p.coreCount then made else p.coreCount))
    case Publishing(n) =>
      Go(if n == p.coreCount then p.(shared := Some(n), assignments := p.assignments + 1) else p, t, Published)
    case Published => Go(p, t, if p.shared.None? then GivingUp else Selecting)
    case GivingUp => Go(p.(created := false), t, Returned(None))
    case Selecting =>
      var id := Following(p.next, p.shared);
      Go(p.(next := id, picks := p.picks + [id]), t, Picking(id))
    case Picking(i) =>
      if p.shared.None? then Go(p, t, Returned(None))
      else Go(p.(outOfRange := p.outOfRange || i >= p.shared.value), t, Returned(Some(i)))
    case Returned(_) => p
  }

  function Next(p: Pool, ev: Event): (r: Pool) {
    match ev
    case Call(t) => if t in p.threads then p else Go(p, t, Entered)
    case Step(t, made) => if t in p.threads then Advance(p, t, p.threads[t], made) else p
  }

  function Steps(p: Pool, evs: seq<Event>): (r: Pool)
    decreases |evs|
  {
    if evs == [] then p else Next(Steps(p, evs[..|evs| - 1]), evs[|evs| - 1])
  }

  // ---- Creation ----

  predicate IsCreator(at: Point) {
    at.Creating? || at.Building? || at.Publishing? || at.Published? || at.GivingUp?
  }

  /** What a thread at this point relies on. */
  predicate PointOk(p: Pool, at: Point) {
    match at
    case Creating => p.shared.None?
    case Building => p.shared.None?
    case Publishing(n) => p.shared.None?
    case GivingUp => p.shared.None?
    case Picking(i) => p.shared.Some? ==> i < p.shared.value
    case Returned(c) => c.Some? ==> p.shared.Some? && c.value < p.shared.value
    case _ => true
  }

  predicate PoolInv(p: Pool) {
    && (forall t :: t in p.threads ==> PointOk(p, p.threads[t]))
    && (!p.created ==> forall t :: t in p.threads ==> !IsCreator(p.threads[t]))
    && (forall t, u :: t in p.threads && u in p.threads && IsCreator(p.threads[t]) && IsCreator(p.threads[u])
          ==> t == u)
    && (p.shared.Some? ==> p.created && p.shared.value == p.coreCount)
    && p.assignments == (if p.shared.Some? then 1 else 0)
    && p.next < (if p.shared.Some? then p.coreCount else 1)
    && (p.shared.None? ==> forall t :: t in p.threads && p.threads[t].Picking? ==> p.threads[t].index == 0)
    && !p.earlyReturn && !p.outOfRange
  }

  lemma PointsStep(p: Pool, ev: Event)
    requires PoolInv(p)
    ensures var r := Next(p, ev); forall t :: t in r.threads ==> PointOk(r, r.threads[t])
  {
    var r := Next(p, ev);
    forall t | t in r.threads
      ensures PointOk(r, r.threads[t])
    {
      if t in p.threads {
        assert PointOk(p, p.threads[t]);
      }
      if ev.t in p.threads {
        assert PointOk(p, p.threads[ev.t]);
      }
    }
  }

  /** The created flag is set exactly while a pool exists or is being created. */
  predicate FlagInv(p: Pool) {
    p.created <==> p.shared.Some? || exists t :: t in p.threads && IsCreator(p.threads[t])
  }

  lemma FlagStep(p: Pool, ev: Event)
    requires PoolInv(p) && FlagInv(p)
    ensures FlagInv(Next(p, ev))
  {
    var r := Next(p, ev);
    if p.created && p.shared.None? {
      var t :| t in p.threads && IsCreator(p.threads[t]);
      if ev.t == t && ev.Step? && p.threads[t].GivingUp? {
        assert forall u :: u in r.threads && u != t ==> u in p.threads && r.threads[u] == p.threads[u];
      } else {
        assert r.shared.Some? || (t in r.threads && IsCreator(r.threads[t]));
      }
    } else if !p.created && ev.Step? && ev.t in p.threads && p.threads[ev.t].Entered? {
      assert ev.t in r.threads && IsCreator(r.threads[ev.t]);
    }
  }

  lemma PoolStep(p: Pool, ev: Event)
    requires PoolInv(p)
    ensures PoolInv(Next(p, ev))
  {
    PointsStep(p, ev);
    if ev.Step? && ev.t in p.threads {
      assert PointOk(p, p.threads[ev.t]);
    }
  }

  lemma {:induction false} PoolReachable(coreCount: Count, evs: seq<Event>)
    ensures PoolInv(Steps(Initial(coreCount), evs)) && FlagInv(Steps(Initial(coreCount), evs))
    ensures Steps(Initial(coreCount), evs).coreCount == coreCount
    decreases |evs|
  {
    if evs != [] {
      PoolReachable(coreCount, evs[..|evs| - 1]);
      FlagStep(Steps(Initial(coreCount), evs[..|evs| - 1]), evs[|evs| - 1]);
      PoolStep(Steps(Initial(coreCount), evs[..|evs| - 1]), evs[|evs| - 1]);
    }
  }

  /** With any number of threads, in every interleaving: at most one thread is
      creating the pool; it is assigned at most once and then has one context
      per core; the created flag is set exactly while a pool exists or is being
      created, so a failed creation can be tried again; the early return for a
      pool that already exists is never taken by a creating thread; and no
      index is ever out of range, even for threads racing with the creation. */
  lemma PoolCreation(coreCount: Count, evs: seq<Event>)
    ensures var p := Steps(Initial(coreCount), evs);
            && (forall t, u :: t in p.threads && u in p.threads && IsCreator(p.threads[t]) && IsCreator(p.threads[u])
                  ==> t == u)
            && p.assignments <= 1
            && (p.shared.Some? ==> p.created && p.shared.value == coreCount)
            && (p.created <==> p.shared.Some? || exists t :: t in p.threads && IsCreator(p.threads[t]))
            && !p.earlyReturn && !p.outOfRange
            && (forall t :: t in p.threads && p.threads[t].Returned? && p.threads[t].context.Some?
                  ==> p.shared.Some? && p.threads[t].context.value < coreCount)
  {
    PoolReachable(coreCount, evs);
    var p := Steps(Initial(coreCount), evs);
    forall t | t in p.threads
      ensures PointOk(p, p.threads[t])
    {
    }
  }

  /** The points of a call that will be served. */
  predicate Served(at: Point) {
    at.Entered? || at.Selecting? || at.Picking? || (at.Returned? && at.context.Some?)
  }

  /** Every call that starts after the pool exists gets a context. */
  lemma {:induction false} LateCallsAreServed(p: Pool, evs: seq<Event>, t: Thread)
    requires PoolInv(p) && p.shared.Some? && t !in p.threads
    ensures var r := Steps(p, evs);
            && PoolInv(r) && r.shared == p.shared
            && (t in r.threads ==> Served(r.threads[t]))
    decreases |evs|
  {
    if evs != [] {
      LateCallsAreServed(p, evs[..|evs| - 1], t);
      PoolStep(Steps(p, evs[..|evs| - 1]), evs[|evs| - 1]);
      PicksStep(Steps(p, evs[..|evs| - 1]), evs[|evs| - 1]);
    }
  }

  lemma StepsOne(p: Pool, evs: seq<Event>, ev: Event)
    ensures Steps(p, evs + [ev]) == Next(Steps(p, evs), ev)
  {
    assert (evs + [ev])[..|evs + [ev]| - 1] == evs;
  }

  lemma {:induction false} StepsFirst(p: Pool, ev: Event, evs: seq<Event>)
    ensures Steps(p, [ev] + evs) == Steps(Next(p, ev), evs)
    decreases |evs|
  {
    if evs == [] {
      assert [ev] + evs == [] + [ev];
      StepsOne(p, [], ev);
    } else {
      var init, last := evs[..|evs| - 1], evs[|evs| - 1];
      assert [ev] + evs == ([ev] + init) + [last];
      StepsOne(p, [ev] + init, last);
      StepsFirst(p, ev, init);
    }
  }

  /** Where a call is, in a state without a pool. */
  predicate Stands(p: Pool, t: Thread, at: Point) {
    t in p.threads && p.threads[t] == at && p.shared.None?
  }

  /** Where its next step takes it if no context can be made. */
  function After(at: Point, created: bool): (next: Point) {
    match at
    case Entered => if created then Selecting else Creating
    case Creating => Building
    case Building => Publishing(0)
    case Publishing(_) => Published
    case Published => GivingUp
    case Selecting => Picking(0)
    case _ => Returned(None)
  }

  function StepsLeft(at: Point): (n: nat) {
    match at
    case Entered => 6
    case Creating => 5
    case Building => 4
    case Publishing(_) => 3
    case Published => 2
    case Selecting => 2
    case Returned(_) => 0
    case _ => 1
  }

  lemma StandsNext(p: Pool, t: Thread, at: Point)
    requires Stands(p, t, at) && (at.Publishing? ==> at.made == 0) && !at.Returned?
    ensures Stands(Next(p, Step(t, 0)), t, After(at, p.created))
  {
  }

  /** Without a pool a call can end with nothing from wherever it is. */
  lemma {:induction false} EndsWithNothing(p: Pool, t: Thread, at: Point) returns (evs: seq<Event>)
    requires Stands(p, t, at) && (at.Publishing? ==> at.made == 0) && (at.Returned? ==> at.context.None?)
    ensures Stands(Steps(p, evs), t, Returned(None))
    ensures forall i :: 0 <= i < |evs| ==> evs[i] == Step(t, 0)
    decreases StepsLeft(at)
  {
    if at.Returned? {
      evs := [];
    } else {
      StandsNext(p, t, at);
      var rest := EndsWithNothing(Next(p, Step(t, 0)), t, After(at, p.created));
      StepsFirst(p, Step(t, 0), rest);
      evs := [Step(t, 0)] + rest;
    }
  }

  /** So can a call that starts now. */
  lemma CallWithoutPool(p: Pool, t: Thread) returns (evs: seq<Event>)
    requires p.shared.None? && t !in p.threads
    ensures Stands(Steps(p, evs), t, Returned(None))
    ensures forall i :: 0 <= i < |evs| ==> evs[i].t == t
  {
    var rest := EndsWithNothing(Next(p, Call(t)), t, Entered);
    StepsFirst(p, Call(t), rest);
    evs := [Call(t)] + rest;
  }

  /** Exactly which calls are served: a call that starts now never ends with
      nothing, however the calls interleave, if and only if the pool exists. */
  lemma ServedIffPoolExists(p: Pool, t: Thread)
    requires PoolInv(p) && t !in p.threads
    ensures (forall evs: seq<Event> :: t in Steps(p, evs).threads ==> Served(Steps(p, evs).threads[t]))
            <==> p.shared.Some?
  {
    if p.shared.Some? {
      forall evs: seq<Event> | t in Steps(p, evs).threads
        ensures Served(Steps(p, evs).threads[t])
      {
        LateCallsAreServed(p, evs, t);
      }
    } else {
      var evs := CallWithoutPool(p, t);
      assert t in Steps(p, evs).threads && !Served(Steps(p, evs).threads[t]);
    }
  }

  /** Where the next step takes a call if all contexts can be made. */
  function Onward(p: Pool, at: Point): (next: Point) {
    match at
    case Entered => Creating
    case Creating => Building
    case Building => Publishing(p.coreCount)
    case Publishing(_) => Published
    case Published => Selecting
    case Selecting => Picking(Following(p.next, p.shared))
    case Picking(i) => Returned(Some(i))
    case _ => at
  }

  /** A call that has not been disturbed while it created the pool. */
  predicate Creates(p: Pool, t: Thread, at: Point) {
    && t in p.threads && p.threads[t] == at && p.next == 0
    && match at
       case Entered => p.shared.None? && !p.created
       case Creating => p.shared.None?
       case Building => p.shared.None?
       case Publishing(n) => p.shared.None? && n == p.coreCount
       case Published => p.shared == Some(p.coreCount)
       case Selecting => p.shared == Some(p.coreCount)
       case _ => false
  }

  function CreationLeft(at: Point): (n: nat) {
    match at
    case Entered => 5
    case Creating => 4
    case Building => 3
    case Publishing(_) => 2
    case Published => 1
    case _ => 0
  }

  lemma CreatesNext(p: Pool, t: Thread, at: Point)
    requires Creates(p, t, at) && !at.Selecting?
    ensures var r := Next(p, Step(t, p.coreCount)); Creates(r, t, Onward(p, at)) && r.coreCount == p.coreCount
  {
  }

  /** The call selects and returns a context of the pool that now exists. */
  lemma CreatorSelects(p: Pool, t: Thread) returns (evs: seq<Event>)
    requires Creates(p, t, Selecting)
    ensures var r := Steps(p, evs);
            && r.shared == Some(p.coreCount)
            && t in r.threads && r.threads[t] == Returned(Some(1 % p.coreCount))
  {
    var pick := Step(t, 0);
    evs := [pick] + [pick];
    StepsFirst(p, pick, [pick]);
    assert [pick] == [pick] + [];
    StepsFirst(Next(p, pick), pick, []);
  }

  lemma {:induction false} CreationEnds(p: Pool, t: Thread, at: Point) returns (evs: seq<Event>)
    requires Creates(p, t, at)
    ensures var r := Steps(p, evs);
            && r.shared == Some(p.coreCount)
            && t in r.threads && r.threads[t] == Returned(Some(1 % p.coreCount))
    decreases CreationLeft(at)
  {
    if at.Selecting? {
      evs := CreatorSelects(p, t);
    } else {
      CreatesNext(p, t, at);
      var rest := CreationEnds(Next(p, Step(t, p.coreCount)), t, Onward(p, at));
      StepsFirst(p, Step(t, p.coreCount), rest);
      evs := [Step(t, p.coreCount)] + rest;
    }
  }

  /** Creation succeeds: whatever failed before, a call that starts when no pool
      exists and none is being created can create one, with one context per core,
      and gets the context after the first. */
  lemma PoolCanBeCreated(coreCount: Count, before: seq<Event>, t: Thread) returns (evs: seq<Event>)
    requires var p := Steps(Initial(coreCount), before);
             p.shared.None? && t !in p.threads && forall u :: u in p.threads ==> !IsCreator(p.threads[u])
    ensures var r := Steps(Steps(Initial(coreCount), before), evs);
            && r.shared == Some(coreCount)
            && t in r.threads && r.threads[t] == Returned(Some(1 % coreCount))
  {
    var p := Steps(Initial(coreCount), before);
    PoolReachable(coreCount, before);
    var rest := CreationEnds(Next(p, Call(t)), t, Entered);
    StepsFirst(p, Call(t), rest);
    evs := [Call(t)] + rest;
  }

  /** The race, in a run: while call 0 creates the pool, call 1 comes and ends
      with nothing, without any step of call 0. */
  lemma RacingCallGetsNothing(coreCount: Count) returns (evs: seq<Event>)
    ensures var p := Steps(Initial(coreCount), [Call(0), Step(0, 0)]);
            && Stands(p, 0, Creating)
            && Stands(Steps(p, evs), 1, Returned(None))
            && forall i :: 0 <= i < |evs| ==> evs[i].t == 1
  {
    var s := Initial(coreCount);
    StepsFirst(s, Call(0), [Step(0, 0)]);
    StepsFirst(Next(s, Call(0)), Step(0, 0), []);
    assert [Call(0)] + [Step(0, 0)] == [Call(0), Step(0, 0)] && [Step(0, 0)] + [] == [Step(0, 0)];
    evs := CallWithoutPool(Steps(s, [Call(0), Step(0, 0)]), 1);
  }

  // ---- Round robin ----

  /** The next `k` selections from a pool of `n` contexts after context `last`. */
  function Turns(last: nat, n: Count, k: nat): (ids: seq<nat>)
    requires last < n
    decreases k
  {
    if k == 0 then []
    else [Following(last, Some(n))] + Turns(Following(last, Some(n)), n, k - 1)
  }

  /** How many selections after `last` context `id` comes, counted from zero. */
  function Distance(last: nat, n: Count, id: nat): (d: nat)
    requires last < n && id < n
    ensures d < n
  {
    if id > last then id - last - 1 else id + n - last - 1
  }

  lemma AtLeastOneEach(q: nat, n: Count)
    ensures q <= q * n
  {
    assert q * n == q + q * (n - 1);
  }

  /** How often context `id` comes in `q` full rounds and `r` more selections:
      once per round, and once more if its turn comes within the rest. */
  function Share(last: nat, n: Count, id: nat, q: nat, r: nat): (s: nat)
    requires last < n && id < n
  {
    q + (if Distance(last, n, id) < r then 1 else 0)
  }

  lemma ShareAfter(last: nat, n: Count, id: nat, q: nat, r: nat, q': nat, r': nat)
    requires last < n && id < n && r < n && r' < n
    requires if r > 0 then q' == q && r' == r - 1 else q' == q - 1 && r' == n - 1
    ensures var first := Following(last, Some(n));
            Share(last, n, id, q, r) == (if first == id then 1 else 0) + Share(first, n, id, q', r')
  {
  }

  lemma FirstTurn(last: nat, n: Count, k: nat, id: nat)
    requires last < n && k > 0
    ensures var first := Following(last, Some(n));
            multiset(Turns(last, n, k))[id]
            == (if first == id then 1 else 0) + multiset(Turns(first, n, k - 1))[id]
  {
    assert multiset([Following(last, Some(n))])[id] == if Following(last, Some(n)) == id then 1 else 0;
  }

  /** The quotient and the remainder of one selection less. */
  lemma OneTurnLess(n: Count, k: nat, q: nat, r: nat) returns (q': nat, r': nat)
    requires k > 0 && r < n && k == q * n + r
    ensures r' < n && k - 1 == q' * n + r'
    ensures if r > 0 then q' == q && r' == r - 1 else q' == q - 1 && r' == n - 1
  {
    if r > 0 {
      q', r' := q, r - 1;
    } else {
      assert q > 0;
      assert q * n == (q - 1) * n + n;
      q', r' := q - 1, n - 1;
    }
  }

  /** Every context gets its share of the selections. */
  lemma {:induction false} TurnsCount(last: nat, n: Count, k: nat, q: nat, r: nat, id: nat)
    requires last < n && id < n && r < n && k == q * n + r
    ensures multiset(Turns(last, n, k))[id] == Share(last, n, id, q, r)
    decreases k
  {
    if k == 0 {
      AtLeastOneEach(q, n);
    } else {
      var q', r' := OneTurnLess(n, k, q, r);
      TurnsCount(Following(last, Some(n)), n, k - 1, q', r', id);
      FirstTurn(last, n, k, id);
      ShareAfter(last, n, id, q, r, q', r');
    }
  }

  lemma FullRound(a: nat, b: nat, n: Count)
    requires a < b
    ensures a * n + n <= b * n
  {
    assert b * n == (b - a - 1) * n + (a + 1) * n;
  }

  lemma DivideUnique(x: nat, n: Count, q: nat, r: nat)
    requires x == q * n + r && r < n
    ensures x / n == q
  {
    var d := x / n;
    assert x == d * n + x % n;
    if d > q {
      FullRound(q, d, n);
      assert false;
    } else if d < q {
      FullRound(d, q, n);
      assert false;
    }
  }

  lemma Quotients(k: nat, n: Count) returns (q: nat, r: nat)
    ensures k == q * n + r && r < n && k / n == q
    ensures (k + n - 1) / n == if r > 0 then q + 1 else q
  {
    q, r := k / n, k % n;
    assert k == q * n + r;
    assert (q + 1) * n == q * n + n;
    if r > 0 {
      DivideUnique(k + n - 1, n, q + 1, r - 1);
    } else {
      DivideUnique(k + n - 1, n, q, n - 1);
    }
  }

  /** Of any `k` consecutive selections from a pool of `n` contexts, each context
      gets the quotient of `k` by `n` rounded down or up. */
  lemma TurnsAreFair(last: nat, n: Count, k: nat, id: nat)
    requires last < n && id < n
    ensures k / n <= multiset(Turns(last, n, k))[id] <= (k + n - 1) / n
  {
    var q, r := Quotients(k, n);
    TurnsCount(last, n, k, q, r, id);
  }

  lemma PicksStep(p: Pool, ev: Event)
    requires p.shared.Some? && PoolInv(p)
    ensures var r := Next(p, ev);
            && r.shared == p.shared
            && (if r.picks == p.picks then r.next == p.next
                else r.next == Following(p.next, p.shared) && r.picks == p.picks + [r.next])
  {
    if ev.Step? && ev.t in p.threads {
      assert PointOk(p, p.threads[ev.t]);
    }
  }

  lemma {:induction false} TurnsOne(last: nat, n: Count, k: nat) returns (end: nat)
    requires last < n
    ensures end < n && (k == 0 ==> end == last) && (k > 0 ==> end == Turns(last, n, k)[|Turns(last, n, k)| - 1])
    ensures |Turns(last, n, k)| == k
    ensures Turns(last, n, k + 1) == Turns(last, n, k) + [Following(end, Some(n))]
    decreases k
  {
    if k == 0 {
      end := last;
      assert Turns(last, n, 1) == [Following(last, Some(n))] + Turns(Following(last, Some(n)), n, 0);
    } else {
      var first := Following(last, Some(n));
      end := TurnsOne(first, n, k - 1);
      assert Turns(last, n, k + 1) == [first] + (Turns(first, n, k - 1) + [Following(end, Some(n))]);
    }
  }

  /** In every run after the pool exists, the selections go on in turn, whatever
      threads make them. */
  lemma {:induction false} SelectionsTakeTurns(p: Pool, evs: seq<Event>)
    requires PoolInv(p) && p.shared.Some?
    ensures var r := Steps(p, evs);
            && PoolInv(r) && r.shared == p.shared
            && |p.picks| <= |r.picks|
            && r.picks == p.picks + Turns(p.next, p.shared.value, |r.picks| - |p.picks|)
            && r.next == (if |r.picks| == |p.picks| then p.next else r.picks[|r.picks| - 1])
    decreases |evs|
  {
    if evs != [] {
      var m, ev := Steps(p, evs[..|evs| - 1]), evs[|evs| - 1];
      SelectionsTakeTurns(p, evs[..|evs| - 1]);
      PoolStep(m, ev);
      PicksStep(m, ev);
      var end := TurnsOne(p.next, p.shared.value, |m.picks| - |p.picks|);
    }
  }

  /** Among these selections context `id` has its share of the `n` contexts,
      rounded down or up. */
  predicate Fair(picks: seq<nat>, n: Count, id: nat) {
    |picks| / n <= multiset(picks)[id] <= (|picks| + n - 1) / n
  }

  // ---- The contexts that calls get ----

  /** The call that selects at this event. */
  function SelectsAt(p: Pool, ev: Event): (ts: seq<Thread>) {
    if ev.Step? && ev.t in p.threads && p.threads[ev.t].Selecting? then [ev.t] else []
  }

  /** The calls that selected in a run, in that order. */
  function Selectors(p: Pool, evs: seq<Event>): (ts: seq<Thread>)
    decreases |evs|
  {
    if evs == [] then []
    else Selectors(p, evs[..|evs| - 1]) + SelectsAt(Steps(p, evs[..|evs| - 1]), evs[|evs| - 1])
  }

  /** A call that selected context `id`: it is about to return it, or has. */
  predicate Gets(p: Pool, t: Thread, id: nat) {
    t in p.threads && (p.threads[t] == Picking(id) || p.threads[t] == Returned(Some(id)))
  }

  /** The calls that selected are different ones, and each gets its selection. */
  predicate Given(p: Pool, ts: seq<Thread>, ids: seq<nat>) {
    && |ts| == |ids|
    && (forall k :: 0 <= k < |ts| ==> Gets(p, ts[k], ids[k]))
    && (forall j, k :: 0 <= j < k < |ts| ==> ts[j] != ts[k])
  }

  lemma GetsStep(p: Pool, ev: Event, t: Thread, id: nat)
    requires p.shared.Some? && Gets(p, t, id)
    ensures Gets(Next(p, ev), t, id)
  {
  }

  lemma SelectStep(p: Pool, ev: Event)
    ensures var r := Next(p, ev);
            if SelectsAt(p, ev) == [] then r.picks == p.picks
            else r.picks == p.picks + [r.next] && Gets(r, ev.t, r.next)
  {
  }

  lemma GivenStep(p: Pool, ev: Event, ts: seq<Thread>, ids: seq<nat>)
    requires p.shared.Some? && Given(p, ts, ids)
    ensures Given(Next(p, ev), ts + SelectsAt(p, ev), ids + Next(p, ev).picks[|p.picks|..])
  {
    var r := Next(p, ev);
    SelectStep(p, ev);
    forall k | 0 <= k < |ts|
      ensures Gets(r, ts[k], ids[k])
    {
      GetsStep(p, ev, ts[k], ids[k]);
    }
    if SelectsAt(p, ev) != [] {
      assert forall k :: 0 <= k < |ts| ==> Gets(p, ts[k], ids[k]) && ts[k] != ev.t;
      assert r.picks[|p.picks|..] == [r.next];
    } else {
      assert r.picks[|p.picks|..] == [] && ts + [] == ts && ids + [] == ids;
    }
  }

  /** In every run after the pool exists: every call that selected gets the
      context it selected, and no call selects twice. */
  lemma {:induction false} CallsGetTheirSelections(p: Pool, evs: seq<Event>)
    requires PoolInv(p) && p.shared.Some?
    ensures var r := Steps(p, evs); p.picks <= r.picks && Given(r, Selectors(p, evs), r.picks[|p.picks|..])
    decreases |evs|
  {
    if evs != [] {
      var init, last := evs[..|evs| - 1], evs[|evs| - 1];
      var m := Steps(p, init);
      CallsGetTheirSelections(p, init);
      SelectionsTakeTurns(p, init);
      GivenStep(m, last, Selectors(p, init), m.picks[|p.picks|..]);
      SelectStep(m, last);
      assert Next(m, last).picks[|p.picks|..] == m.picks[|p.picks|..] + Next(m, last).picks[|m.picks|..];
    }
  }

  /** The contexts that these calls have returned. */
  function Contexts(p: Pool, ts: seq<Thread>): (ids: seq<nat>) {
    if ts == [] then []
    else
      var first := if ts[0] in p.threads && p.threads[ts[0]].Returned? then Optional(p.threads[ts[0]].context) else [];
      first + Contexts(p, ts[1..])
  }

  /** The contexts that these calls are about to return. */
  function Awaited(p: Pool, ts: seq<Thread>): (ids: seq<nat>) {
    if ts == [] then []
    else
      var first := if ts[0] in p.threads && p.threads[ts[0]].Picking? then [p.threads[ts[0]].index] else [];
      first + Awaited(p, ts[1..])
  }

  lemma GivenRest(p: Pool, ts: seq<Thread>, ids: seq<nat>)
    requires Given(p, ts, ids) && ts != []
    ensures Gets(p, ts[0], ids[0]) && Given(p, ts[1..], ids[1..])
  {
    forall k | 0 <= k < |ts[1..]|
      ensures Gets(p, ts[1..][k], ids[1..][k])
    {
      assert Gets(p, ts[k + 1], ids[k + 1]);
    }
  }

  /** One element more in one of two sequences. */
  lemma OneMore(id: nat, a: seq<nat>, b: seq<nat>, ids: seq<nat>)
    requires multiset(a) + multiset(b) == multiset(ids)
    ensures multiset([id] + a) + multiset(b) == multiset([id] + ids) == multiset(a) + multiset([id] + b)
  {
    assert multiset([id] + a) == multiset{id} + multiset(a);
    assert multiset([id] + b) == multiset{id} + multiset(b);
    assert multiset([id] + ids) == multiset{id} + multiset(ids);
  }

  lemma FirstOfCalls(p: Pool, ts: seq<Thread>, id: nat)
    requires ts != [] && Gets(p, ts[0], id)
    ensures var cs, ws := Contexts(p, ts[1..]), Awaited(p, ts[1..]);
            if p.threads[ts[0]].Returned? then Contexts(p, ts) == [id] + cs && Awaited(p, ts) == ws
            else Contexts(p, ts) == cs && Awaited(p, ts) == [id] + ws
  {
    assert [] + Contexts(p, ts[1..]) == Contexts(p, ts[1..]) && [] + Awaited(p, ts[1..]) == Awaited(p, ts[1..]);
  }

  lemma {:induction false} ContextsAreSelections(p: Pool, ts: seq<Thread>, ids: seq<nat>)
    requires Given(p, ts, ids)
    ensures multiset(Contexts(p, ts)) + multiset(Awaited(p, ts)) == multiset(ids)
  {
    if ts != [] {
      GivenRest(p, ts, ids);
      ContextsAreSelections(p, ts[1..], ids[1..]);
      OneMore(ids[0], Contexts(p, ts[1..]), Awaited(p, ts[1..]), ids[1..]);
      FirstOfCalls(p, ts, ids[0]);
      assert [ids[0]] + ids[1..] == ids;
    }
  }

  lemma {:induction false} AllReturned(p: Pool, ts: seq<Thread>, ids: seq<nat>)
    requires Given(p, ts, ids) && Awaited(p, ts) == []
    ensures Contexts(p, ts) == ids
  {
    if ts != [] {
      GivenRest(p, ts, ids);
      FirstOfCalls(p, ts, ids[0]);
      AllReturned(p, ts[1..], ids[1..]);
    }
  }

  /** The calls return what was selected, and that is fair: what they have
      returned, with what they are about to return, is what was selected; that is
      spread evenly over the contexts, to within one; and once all have returned,
      so are the contexts they returned. */
  predicate FairlyServed(p: Pool, calls: seq<Thread>, selected: seq<nat>, n: Count, id: nat) {
    && multiset(Contexts(p, calls)) + multiset(Awaited(p, calls)) == multiset(selected)
    && Fair(selected, n, id)
    && (Awaited(p, calls) == [] ==> |Contexts(p, calls)| == |calls| && Fair(Contexts(p, calls), n, id))
  }

  lemma ServedFairly(p: Pool, calls: seq<Thread>, selected: seq<nat>, n: Count, id: nat)
    requires Given(p, calls, selected) && Fair(selected, n, id)
    ensures FairlyServed(p, calls, selected, n, id)
  {
    ContextsAreSelections(p, calls, selected);
    if Awaited(p, calls) == [] {
      AllReturned(p, calls, selected);
    }
  }

  /** Round-robin fairness in every run: however the threads interleave, the calls
      that select after the pool exists get its contexts in fair shares. */
  lemma RoundRobinIsFair(coreCount: Count, before: seq<Event>, after: seq<Event>, id: nat)
    requires Steps(Initial(coreCount), before).shared.Some? && id < coreCount
    ensures var p := Steps(Initial(coreCount), before);
            var r := Steps(p, after);
            p.picks <= r.picks && FairlyServed(r, Selectors(p, after), r.picks[|p.picks|..], coreCount, id)
  {
    PoolReachable(coreCount, before);
    FairFromState(Steps(Initial(coreCount), before), after, id);
  }

  lemma FairFromState(p: Pool, evs: seq<Event>, id: nat)
    requires PoolInv(p) && p.shared.Some? && id < p.coreCount
    ensures var r := Steps(p, evs);
            p.picks <= r.picks && FairlyServed(r, Selectors(p, evs), r.picks[|p.picks|..], p.coreCount, id)
  {
    FairSelections(p, evs, id);
    CallsGetTheirSelections(p, evs);
    ServedFairly(Steps(p, evs), Selectors(p, evs), Steps(p, evs).picks[|p.picks|..], p.coreCount, id);
  }

  lemma FairSelections(p: Pool, evs: seq<Event>, id: nat)
    requires PoolInv(p) && p.shared.Some? && id < p.coreCount
    ensures p.picks <= Steps(p, evs).picks && Fair(Steps(p, evs).picks[|p.picks|..], p.coreCount, id)
  {
    SelectionsTakeTurns(p, evs);
    FairPicks(p.picks, Steps(p, evs).picks, p.next, p.coreCount, id);
  }

  lemma FairPicks(before: seq<nat>, after: seq<nat>, last: nat, n: Count, id: nat)
    requires last < n && id < n && |before| <= |after| && after == before + Turns(last, n, |after| - |before|)
    ensures before <= after && Fair(after[|before|..], n, id)
  {
    TurnsAreFair(last, n, |after| - |before|, id);
    Suffix(before, Turns(last, n, |after| - |before|));
  }

  lemma Suffix(a: seq<nat>, b: seq<nat>)
    ensures (a + b)[|a|..] == b && a <= a + b
  {
  }

  // ---- The pool as an object ----

  class SharedContexts {
    const coreCount: Count
    var shared: Option<nat>
    var nextSharedContext: nat
    var sharedContextCreated: bool

    constructor (coreCount: Count)
      ensures this.coreCount == coreCount && shared.None? && nextSharedContext == 0 && !sharedContextCreated
    {
      this.coreCount := coreCount;
      shared, nextSharedContext, sharedContextCreated := None, 0, false;
    }

    method NextShared() returns (context: Option<nat>)
      modifies this`nextSharedContext
      ensures nextSharedContext == Following(old(nextSharedContext), shared)
      ensures shared.Some? && old(nextSharedContext) < shared.value ==>
                nextSharedContext == (old(nextSharedContext) + 1) % shared.value
      ensures shared.None? || shared.value == 0 ==> nextSharedContext == 0
      ensures context == if shared.None? then None else Some(nextSharedContext)
    {
      var nextToBeSet;
      if nextSharedContext >= (if shared.Some? then shared.value else 0) - 1 {
        nextToBeSet := 0;
        nextSharedContext := 0;
      } else {
        nextToBeSet := nextSharedContext + 1;
        nextSharedContext := nextSharedContext + 1;
      }
      context := if shared.None? then None else Some(nextToBeSet);
    }

    /** The loop that makes the contexts; `succeeds` says which creations do. */
    method MakeContexts(succeeds: seq<bool>) returns (made: nat)
      requires |succeeds| == coreCount
      ensures made <= coreCount
      ensures made == coreCount <==> forall i :: 0 <= i < |succeeds| ==> succeeds[i]
    {
      made := 0;
      for i := 0 to coreCount
        invariant made <= i
        invariant made == i <==> forall k :: 0 <= k < i ==> succeeds[k]
      {
        if succeeds[i] {
          made := made + 1;
        }
      }
    }

    /** `shared()` by one thread alone: if there is a pool, the next context;
        otherwise a pool if all its contexts can be made, and nothing changes
        if not. */
    method Shared(succeeds: seq<bool>) returns (context: Option<nat>)
      requires |succeeds| == coreCount
      modifies this
      ensures old(sharedContextCreated) || old(shared).Some? ==> shared == old(shared) && sharedContextCreated
      ensures !old(sharedContextCreated) && old(shared).None? ==>
                && (sharedContextCreated <==> forall i :: 0 <= i < |succeeds| ==> succeeds[i])
                && shared == (if sharedContextCreated then Some(coreCount as nat) else None)
      ensures shared.Some? ==>
                context == Some(nextSharedContext) && nextSharedContext == Following(old(nextSharedContext), shared)
      ensures shared.None? ==> context.None?
    {
      var wasCreated := sharedContextCreated;
      sharedContextCreated := true;
      if wasCreated {
        context := NextShared();
        return;
      }
      if shared.Some? {
        context := NextShared();
        return;
      }
      var made := MakeContexts(succeeds);
      if made == coreCount {
        shared := Some(made);
      }
      if shared.None? {
        sharedContextCreated := false;
        context := None;
      } else {
        context := NextShared();
      }
    }
  }
}
