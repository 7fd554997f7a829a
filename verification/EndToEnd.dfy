/** From the calls of `send` on one client to the messages a peer delivers that
    runs the same receive side. */
module EndToEnd {
  import opened Protocol
  import opened MessageStream
  import opened Fragmentation
  import opened Reassembly
  import opened ClientState
  import opened Accounting
  import opened Receiving
  import opened History

  /** The calls accepted so far obey the grammar: text and binary frames start
      messages, continuations continue them, pings and closes are anywhere. */
  predicate WellFormedCalls(s: Client) {
    Scan(s.out.accepted, false).Some?
  }

  /** The wire obeys the grammar of section 5.4 of RFC 6455 in every reachable
      state if the accepted calls do. */
  lemma WireGrammar(s: Client)
    requires Reachable(s) && WellFormedCalls(s)
    ensures Scan(s.out.written, false).Some?
  {
    QueueAccounting(s);
    FragmentationKeepsGrammar(s.out.accepted, s.config.maxFrameSize, false);
    GrammarOfPrefix(s.out.written, Expand(s.out.accepted, s.config.maxFrameSize), false);
  }

  /** The frames of one call stay together, so no control frame falls between
      the chunks of a data call, on the wire or in the queue. */
  lemma ChunksStayTogether(s: Client, i: nat)
    requires Reachable(s) && i < |s.out.accepted|
    ensures var from := |Expand(s.out.accepted[..i], s.config.maxFrameSize)|;
            var to := |Expand(s.out.accepted[..i + 1], s.config.maxFrameSize)|;
            && from <= to <= |Ledger(s.out)|
            && Ledger(s.out)[from..to] == Frames(s.out.accepted[i], s.config.maxFrameSize)
            && forall k :: from <= k < to ==> Ledger(s.out)[k].opcode.IsData() == s.out.accepted[i].opcode.IsData()
  {
    QueueAccounting(s);
    ExpandSlice(s.out.accepted, i, s.config.maxFrameSize);
    SliceKind(s.out.accepted, i, s.config.maxFrameSize);
  }

  /** The messages of the accepted calls. */
  function Sent(s: Client): (ms: seq<Message>) {
    Messages(Pieces(s.out.accepted, false))
  }

  /** The fragments a peer gets for the frames on the wire: every frame arrives
      in order, in parts of any size. */
  ghost predicate Arrives(wire: seq<Entry>, received: seq<Piece>) {
    exists cuts: seq<seq<Bytes>> ::
      ValidCuts(Pieces(wire, false), cuts) && received <= Cut(Pieces(wire, false), cuts)
  }

  lemma {:induction false} CoherentPrefix(a: seq<Piece>, b: seq<Piece>, open: Option<bool>)
    requires a <= b && Coherent(b, open)
    ensures Coherent(a, open)
  {
    if a != [] {
      assert a[1..] <= b[1..];
      CoherentPrefix(a[1..], b[1..], if a[0].final then None else Some(a[0].binary));
    }
  }

  lemma {:induction false} AllDecodable(ms: seq<Message>, decodes: Bytes -> bool)
    requires forall i :: 0 <= i < |ms| ==> ms[i].binary || decodes(ms[i].data)
    ensures Decodable(ms, decodes) == ms
  {
    if ms != [] {
      AllDecodable(ms[1..], decodes);
    }
  }

  /** What arrives is coherent and carries a prefix of the messages sent. */
  lemma ArrivalMeaning(a: Client, received: seq<Piece>)
    requires Reachable(a) && WellFormedCalls(a) && Arrives(a.out.written, received)
    ensures Coherent(received, None) && Messages(received) <= Sent(a)
  {
    var size, wire := a.config.maxFrameSize, Pieces(a.out.written, false);
    var cuts: seq<seq<Bytes>> :| ValidCuts(wire, cuts) && received <= Cut(wire, cuts);
    WireGrammar(a);
    WellFormedFramesAreCoherent(a.out.written, false, false);
    CutKeepsCoherence(wire, cuts, None);
    CoherentPrefix(received, Cut(wire, cuts), None);
    MessagesOfPrefix(received, Cut(wire, cuts));
    CutKeepsMessages(wire, cuts);
    QueueAccounting(a);
    PiecesOfPrefix(a.out.written, Expand(a.out.accepted, size), false);
    MessagesOfPrefix(wire, Pieces(Expand(a.out.accepted, size), false));
    FragmentationKeepsMessages(a.out.accepted, size);
  }

  lemma PrefixDelivered(a: Client, b: Client)
    requires Reachable(a) && WellFormedCalls(a)
    requires Reachable(b) && Arrives(a.out.written, b.inbox.received)
    requires !Overflowed(b.inbox.received, b.config.maxMessageSize)
    ensures b.inbox.delivered <= Decodable(Sent(a), b.config.decodes)
    ensures (forall i :: 0 <= i < |Sent(a)| ==> Sent(a)[i].binary || b.config.decodes(Sent(a)[i].data))
            ==> b.inbox.delivered <= Sent(a)
  {
    ScheduledDeliveries(b);
    ArrivalMeaning(a, b.inbox.received);
    CoherentPrefix(b.inbox.fragments, b.inbox.received, None);
    RunOutGrows(b.inbox.fragments, b.inbox.received, b.config.maxMessageSize);
    OverflowMeansLoss(b.inbox.fragments, b.config.maxMessageSize);
    OverflowMeansLoss(b.inbox.received, b.config.maxMessageSize);
    OrderedDeliveries(b);
    MessagesOfPrefix(b.inbox.fragments, b.inbox.received);
    DecodableOfPrefix(Messages(b.inbox.fragments), Sent(a), b.config.decodes);
    if forall i :: 0 <= i < |Sent(a)| ==> Sent(a)[i].binary || b.config.decodes(Sent(a)[i].data) {
      AllDecodable(Sent(a), b.config.decodes);
    }
  }

  // ---- When no overflow can happen ----

  lemma {:induction false} FinishedFramesAreComplete(frames: seq<Entry>, open: bool, binary: bool)
    requires Scan(frames, open) == Some(false)
    ensures Complete(Pieces(frames, binary))
    ensures open ==> Pieces(frames, binary) != []
  {
    if frames != [] {
      var f := frames[0];
      FinishedFramesAreComplete(frames[1..], if f.opcode.IsData() then !f.fin else open, TypeAfter(f.opcode, binary));
    }
  }

  /** A stream cut as far as `cuts` goes and left as it is after that. */
  lemma {:induction false} ProlongCuts(a: seq<Piece>, b: seq<Piece>, cuts: seq<seq<Bytes>>)
    returns (more: seq<seq<Bytes>>)
    requires a <= b && ValidCuts(a, cuts)
    ensures ValidCuts(b, more) && Cut(a, cuts) <= Cut(b, more)
    decreases |b|
  {
    if a == [] {
      more := seq(|b|, i requires 0 <= i < |b| => [b[i].data]);
      forall i | 0 <= i < |b|
        ensures Flatten(more[i]) == b[i].data
      {
        assert Flatten(more[i]) == b[i].data + Flatten(more[i][1..]);
      }
    } else {
      var rest := ProlongCuts(a[1..], b[1..], cuts[1..]);
      more := [cuts[0]] + rest;
      assert more[1..] == rest;
    }
  }

  /** The calls with the message under way, if there is one, finished. */
  function Finished(calls: seq<Entry>): (r: seq<Entry>) {
    if Scan(calls, false) == Some(true) then calls + [Entry([], Continuation, true, None)] else calls
  }

  lemma {:induction false} ScanFinish(calls: seq<Entry>, e: Entry, open: bool)
    requires Scan(calls, open) == Some(true) && e.opcode.Continuation? && e.fin
    ensures Scan(calls + [e], open) == Some(false)
  {
    if calls == [] {
      assert calls + [e] == [e];
    } else {
      assert (calls + [e])[1..] == calls[1..] + [e];
      ScanFinish(calls[1..], e, if calls[0].opcode.IsData() then !calls[0].fin else open);
    }
  }

  lemma FinishedScans(calls: seq<Entry>, size: FrameLimit)
    requires Scan(calls, false).Some?
    ensures Scan(Finished(calls), false) == Some(false) && Expand(calls, size) <= Expand(Finished(calls), size)
  {
    if Scan(calls, false) == Some(true) {
      var e := Entry([], Continuation, true, None);
      ScanFinish(calls, e, false);
      ExpandOne(calls, e, size);
    } else {
      assert !Scan(calls, false).value;
    }
  }

  /** If the messages of the accepted calls, the one under way included, are
      within the peer's limit, the peer sees no overflow, however the wire is cut
      and wherever it stops. */
  lemma SmallMessagesNeverOverflow(a: Client, received: seq<Piece>, limit: Option<nat>)
    requires Reachable(a) && WellFormedCalls(a)
    requires AllWithin(Messages(Pieces(Finished(a.out.accepted), false)), limit)
    requires Arrives(a.out.written, received)
    ensures !Overflowed(received, limit)
  {
    var calls := Finished(a.out.accepted);
    var queue, wire := Expand(calls, a.config.maxFrameSize), Pieces(a.out.written, false);
    var all := Pieces(queue, false);
    var cuts: seq<seq<Bytes>> :| ValidCuts(wire, cuts) && received <= Cut(wire, cuts);
    QueueAccounting(a);
    FinishedScans(a.out.accepted, a.config.maxFrameSize);
    PiecesOfPrefix(a.out.written, queue, false);
    var more := ProlongCuts(wire, all, cuts);
    FragmentationKeepsGrammar(calls, a.config.maxFrameSize, false);
    WellFormedFramesAreCoherent(queue, false, false);
    FinishedFramesAreComplete(queue, false, false);
    FragmentationKeepsMessages(calls, a.config.maxFrameSize);
    CutIndependence(all, more, limit);
    RunOutGrows(received, Cut(all, more), limit);
    ArrivalMeaning(a, received);
    OverflowMeansLoss(received, limit);
  }

  lemma WholeWireDelivered(a: Client, b: Client, cuts: seq<seq<Bytes>>)
    requires Reachable(a) && WellFormedCalls(a) && Reachable(b) && Drained(b)
    requires a.out.written == Expand(a.out.accepted, a.config.maxFrameSize)
    requires ValidCuts(Pieces(a.out.written, false), cuts)
    requires b.inbox.received == Cut(Pieces(a.out.written, false), cuts)
    requires !Overflowed(b.inbox.received, b.config.maxMessageSize)
    ensures b.inbox.delivered == Decodable(Sent(a), b.config.decodes)
  {
    DeliveredFromWire(a, b, cuts);
    FragmentationKeepsMessages(a.out.accepted, a.config.maxFrameSize);
  }

  // ---- What a fulfilled promise means to the peer ----

  /** The messages completed by the calls up to call `i`. */
  function SentUpTo(calls: seq<Entry>, i: nat): (ms: seq<Message>)
    requires i < |calls|
  {
    Messages(Pieces(calls[..i + 1], false))
  }

  lemma {:induction false} PiecesOne(calls: seq<Entry>, e: Entry, binary: bool)
    requires e.opcode.Binary? || e.opcode.Text?
    ensures Pieces(calls + [e], binary) == Pieces(calls, binary) + [Piece(true, e.fin, e.opcode.Binary?, e.data)]
  {
    if calls == [] {
      assert [e][1..] == [] && calls + [e] == [e];
    } else {
      assert (calls + [e])[1..] == calls[1..] + [e];
      PiecesOne(calls[1..], e, TypeAfter(calls[0].opcode, binary));
    }
  }

  lemma {:induction false} ScanOne(calls: seq<Entry>, e: Entry, open: bool)
    requires Scan(calls + [e], open).Some? && (e.opcode.Binary? || e.opcode.Text?)
    ensures Scan(calls, open) == Some(false)
  {
    if calls == [] {
      assert calls + [e] == [e];
    } else {
      assert (calls + [e])[1..] == calls[1..] + [e];
      ScanOne(calls[1..], e, if calls[0].opcode.IsData() then !calls[0].fin else open);
    }
  }

  /** A call that is a whole message completes that message. */
  lemma WholeCallCompletes(calls: seq<Entry>, i: nat)
    requires i < |calls| && calls[i].fin && (calls[i].opcode.Binary? || calls[i].opcode.Text?)
    requires Scan(calls[..i + 1], false).Some?
    ensures SentUpTo(calls, i)
            == Messages(Pieces(calls[..i], false)) + [Message(calls[i].opcode.Binary?, calls[i].data)]
  {
    var before, e := calls[..i], calls[i];
    var ps, p := Pieces(before, false), Piece(true, true, e.opcode.Binary?, e.data);
    assert calls[..i + 1] == before + [e];
    PiecesOne(before, e, false);
    ScanOne(before, e, false);
    FinishedFramesAreComplete(before, false, false);
    CompleteLeavesNothing(ps, None);
    GatherAppend(ps, [p], None);
    GatherIsMessages(ps);
    GatherIsMessages(ps + [p]);
    assert [p][1..] == [];
    assert [] + p.data == p.data;
    assert Gather([p], None) == [Message(p.binary, p.data)];
  }

  lemma SucceededCallsDelivered(a: Client, b: Client, cuts: seq<seq<Bytes>>, i: nat, p: PromiseId)
    requires Reachable(a) && WellFormedCalls(a) && Reachable(b) && Drained(b)
    requires ValidCuts(Pieces(a.out.written, false), cuts)
    requires b.inbox.received == Cut(Pieces(a.out.written, false), cuts)
    requires !Overflowed(b.inbox.received, b.config.maxMessageSize)
    requires i < |a.out.accepted| && a.out.accepted[i].promise == Some(p)
    requires Resolution(p, Succeeded) in a.out.resolved
    ensures Decodable(SentUpTo(a.out.accepted, i), b.config.decodes) <= b.inbox.delivered
    ensures var e := a.out.accepted[i];
            e.fin && (e.opcode.Binary? || (e.opcode.Text? && b.config.decodes(e.data)))
            ==> Message(e.opcode.Binary?, e.data) in b.inbox.delivered
  {
    SuccessIffWritten(a, i, p);
    DeliveredFromWire(a, b, cuts);
    WrittenCarries(a, i);
    var sent, e := SentUpTo(a.out.accepted, i), a.out.accepted[i];
    DecodableOfPrefix(sent, Messages(Pieces(a.out.written, false)), b.config.decodes);
    if e.fin && (e.opcode.Binary? || (e.opcode.Text? && b.config.decodes(e.data))) {
      GrammarOfPrefix(a.out.accepted[..i + 1], a.out.accepted, false);
      WholeCallCompletes(a.out.accepted, i);
      DecodableHas(sent, b.config.decodes, Message(e.opcode.Binary?, e.data));
    }
  }

  /** The calls whose frames have all been written are carried by the wire. */
  lemma WrittenCarries(a: Client, i: nat)
    requires i < |a.out.accepted| && Expand(a.out.accepted[..i + 1], a.config.maxFrameSize) <= a.out.written
    ensures SentUpTo(a.out.accepted, i) <= Messages(Pieces(a.out.written, false))
  {
    var frames := Expand(a.out.accepted[..i + 1], a.config.maxFrameSize);
    FragmentationKeepsMessages(a.out.accepted[..i + 1], a.config.maxFrameSize);
    PiecesOfPrefix(frames, a.out.written, false);
    MessagesOfPrefix(Pieces(frames, false), Pieces(a.out.written, false));
  }

  /** What a peer that got the whole wire and has run its tasks delivered. */
  lemma DeliveredFromWire(a: Client, b: Client, cuts: seq<seq<Bytes>>)
    requires Reachable(a) && WellFormedCalls(a) && Reachable(b) && Drained(b)
    requires ValidCuts(Pieces(a.out.written, false), cuts)
    requires b.inbox.received == Cut(Pieces(a.out.written, false), cuts)
    requires !Overflowed(b.inbox.received, b.config.maxMessageSize)
    ensures b.inbox.delivered == Decodable(Messages(Pieces(a.out.written, false)), b.config.decodes)
  {
    ArrivalMeaning(a, b.inbox.received);
    ScheduledDeliveries(b);
    OverflowMeansLoss(b.inbox.received, b.config.maxMessageSize);
    NoLossMeansAgreement(START, b.inbox.received, b.config.maxMessageSize);
    GatherIsMessages(b.inbox.received);
    CutKeepsMessages(Pieces(a.out.written, false), cuts);
    assert START.out + Messages(b.inbox.received) == Messages(b.inbox.received);
  }

  // ---- From the events of one run to the events of another ----

  /** The messages of the calls made on the open client. */
  function SentBy(x: Execution): (ms: seq<Message>) {
    Messages(Pieces(Accepted(x), false))
  }

  /** The histories of both runs are their events. */
  lemma BothRuns(a: Execution, b: Execution)
    ensures Reachable(Final(a)) && Reachable(Final(b)) && Final(a).config == a.config && Final(b).config == b.config
    ensures Final(a).out.accepted == Accepted(a) && Final(a).out.written == Wire(a)
    ensures Final(b).inbox.received == Fragments(b) && Final(b).inbox.delivered == Deliveries(b)
  {
    FinalIsReachable(a);
    FinalIsReachable(b);
    AcceptedIsWhatWasCalled(a);
    WrittenIsWhatSucceeded(a);
    ReceivedIsWhatCame(b);
  }

  /** End to end. In every pair of runs, whatever pings, closes, write failures
      and other tasks interleave: if the RECEIVE callbacks of `b` bring what the
      successful write calls of `a` sent, in any cuts and up to any point, then
      the messages `b` has delivered are a prefix of those of the calls made on
      `a` while it was open, in order, with their types and bytes. Only texts
      that do not decode are left out. */
  lemma DeliveredIsPrefixOfSent(a: Execution, b: Execution)
    requires Scan(Accepted(a), false).Some? && Arrives(Wire(a), Fragments(b))
    requires !Overflowed(Fragments(b), b.config.maxMessageSize)
    ensures Deliveries(b) <= Decodable(SentBy(a), b.config.decodes)
    ensures (forall i :: 0 <= i < |SentBy(a)| ==> SentBy(a)[i].binary || b.config.decodes(SentBy(a)[i].data))
            ==> Deliveries(b) <= SentBy(a)
  {
    BothRuns(a, b);
    PrefixDelivered(Final(a), Final(b));
  }

  /** And nothing is missing in the end: when the write calls of all frames of
      these calls have succeeded, everything has arrived and the peer has run its
      tasks, it has delivered exactly the messages sent that decode. */
  lemma AllDelivered(a: Execution, b: Execution, cuts: seq<seq<Bytes>>)
    requires Scan(Accepted(a), false).Some? && Drained(Final(b))
    requires Wire(a) == Expand(Accepted(a), a.config.maxFrameSize)
    requires ValidCuts(Pieces(Wire(a), false), cuts) && Fragments(b) == Cut(Pieces(Wire(a), false), cuts)
    requires !Overflowed(Fragments(b), b.config.maxMessageSize)
    ensures Deliveries(b) == Decodable(SentBy(a), b.config.decodes)
  {
    BothRuns(a, b);
    WholeWireDelivered(Final(a), Final(b), cuts);
  }

  /** If the promise of a call succeeded and the wire has arrived, in any cuts,
      at a peer that has run its tasks without an overflow, then the peer has
      delivered all messages up to that call, in order. In particular, a call
      that is a whole message has been delivered, if it decodes. */
  lemma SuccessMeansDelivered(a: Execution, b: Execution, cuts: seq<seq<Bytes>>, i: nat, p: PromiseId)
    requires Scan(Accepted(a), false).Some? && Drained(Final(b))
    requires ValidCuts(Pieces(Wire(a), false), cuts) && Fragments(b) == Cut(Pieces(Wire(a), false), cuts)
    requires !Overflowed(Fragments(b), b.config.maxMessageSize)
    requires i < |Accepted(a)| && Accepted(a)[i].promise == Some(p)
    requires Resolution(p, Succeeded) in Final(a).out.resolved
    ensures Decodable(SentUpTo(Accepted(a), i), b.config.decodes) <= Deliveries(b)
    ensures var e := Accepted(a)[i];
            e.fin && (e.opcode.Binary? || (e.opcode.Text? && b.config.decodes(e.data)))
            ==> Message(e.opcode.Binary?, e.data) in Deliveries(b)
  {
    BothRuns(a, b);
    SucceededCallsDelivered(Final(a), Final(b), cuts, i, p);
  }
}
