/** The receive side without scheduling: what the fragment task does with one
    fragment, and what a whole stream of fragments adds up to. */
module Reassembly {
  import opened Protocol
  import opened MessageStream
  import opened FrameSequences

  /** What one fragment leads to. `Whole` is the shortcut for a message in one
      fragment, `Joined` a message from the accumulator. */
  datatype Action = Nothing | Whole(message: Message) | Joined(message: Message) | TooLarge

  datatype Step = Step(held: Option<FrameSequence>, action: Action)

  predicate Exceeds(size: nat, limit: Option<nat>) {
    limit.Some? && size > limit.value
  }

  /** The sequence a fragment is appended to. */
  function Sequence(held: Option<FrameSequence>, p: Piece): (fs: FrameSequence) {
    if held.Some? then held.value else Empty(if p.binary then Binary else Text)
  }

  /** The fragment task. */
  function Assemble(held: Option<FrameSequence>, p: Piece, limit: Option<nat>): (s: Step) {
    if p.first && p.final then Step(None, Whole(Message(p.binary, p.data)))
    else
      var fs := Append(Sequence(held, p), p.data);
      if Exceeds(fs.count, limit) then Step(None, TooLarge)
      else if !p.final then Step(Some(fs), Nothing)
      else match fs.kind
        case Binary => Step(None, Joined(Message(true, fs.binary)))
        case Text => Step(None, Joined(Message(false, fs.text)))
        case _ => Step(None, Nothing)
  }

  predicate ValidHeld(held: Option<FrameSequence>) {
    held.Some? ==> held.value.Valid() && (held.value.kind.Binary? || held.value.kind.Text?)
  }

  /** The held sequence as a message under way. */
  function Open(held: Option<FrameSequence>): (m: Option<Message>) {
    if held.None? then None else Some(Message(held.value.kind.Binary?, held.value.Contents()))
  }

  // ---- A stream of fragments ----

  /** The state after a stream: the held sequence, the messages that came out
      and the number of bytes that were thrown away. */
  datatype Assembly = Assembly(held: Option<FrameSequence>, out: seq<Message>, lost: nat)

  const START := Assembly(None, [], 0)

  function HeldCount(held: Option<FrameSequence>): (n: nat) {
    if held.None? then 0 else held.value.count
  }

  function Advance(a: Assembly, p: Piece, limit: Option<nat>): (r: Assembly) {
    var s := Assemble(a.held, p, limit);
    match s.action
    case Nothing => a.(held := s.held)
    case Whole(m) => Assembly(s.held, a.out + [m], a.lost + HeldCount(a.held))
    case Joined(m) => Assembly(s.held, a.out + [m], a.lost)
    case TooLarge => Assembly(s.held, a.out, a.lost + HeldCount(a.held) + |p.data|)
  }

  function Run(a: Assembly, ps: seq<Piece>, limit: Option<nat>): (r: Assembly)
    decreases ps
  {
    if ps == [] then a else Run(Advance(a, ps[0], limit), ps[1..], limit)
  }

  lemma {:induction false} RunAppend(a: Assembly, ps: seq<Piece>, qs: seq<Piece>, limit: Option<nat>)
    ensures Run(a, ps + qs, limit) == Run(Run(a, ps, limit), qs, limit)
    decreases ps
  {
    if ps == [] {
      assert ps + qs == qs;
    } else {
      assert (ps + qs)[1..] == ps[1..] + qs;
      RunAppend(Advance(a, ps[0], limit), ps[1..], qs, limit);
    }
  }

  lemma RunOne(a: Assembly, ps: seq<Piece>, p: Piece, limit: Option<nat>)
    ensures Run(a, ps + [p], limit) == Advance(Run(a, ps, limit), p, limit)
  {
    RunAppend(a, ps, [p], limit);
    assert Run(Run(a, ps, limit), [p], limit) == Run(Advance(Run(a, ps, limit), p, limit), [p][1..], limit);
  }

  /** Messages only come out at the end, and lost bytes stay lost. */
  lemma {:induction false} RunGrows(a: Assembly, ps: seq<Piece>, limit: Option<nat>)
    requires ValidHeld(a.held)
    ensures var r := Run(a, ps, limit); ValidHeld(r.held) && a.out <= r.out && a.lost <= r.lost
    decreases ps
  {
    if ps != [] {
      RunGrows(Advance(a, ps[0], limit), ps[1..], limit);
    }
  }

  // ---- Nothing is created: bytes are conserved on every stream ----

  function TotalBytes(ms: seq<Message>): (n: nat) {
    if ms == [] then 0 else |ms[0].data| + TotalBytes(ms[1..])
  }

  lemma {:induction false} TotalBytesAppend(a: seq<Message>, b: seq<Message>)
    ensures TotalBytes(a + b) == TotalBytes(a) + TotalBytes(b)
  {
    if a == [] {
      assert a + b == b;
    } else {
      assert (a + b)[1..] == a[1..] + b;
      TotalBytesAppend(a[1..], b);
    }
  }

  lemma AdvanceConservesBytes(a: Assembly, p: Piece, limit: Option<nat>)
    requires ValidHeld(a.held)
    ensures var r := Advance(a, p, limit);
            && ValidHeld(r.held)
            && TotalBytes(r.out) + HeldCount(r.held) + r.lost
               == TotalBytes(a.out) + HeldCount(a.held) + a.lost + |p.data|
  {
    var r := Advance(a, p, limit);
    if r.out != a.out {
      var m := r.out[|a.out|];
      assert r.out == a.out + [m];
      TotalBytesAppend(a.out, [m]);
      assert TotalBytes([m]) == |m.data| + TotalBytes([m][1..]);
    }
  }

  /** On every stream, coherent or not: the bytes delivered, held and thrown
      away are together the bytes received. */
  lemma {:induction false} BytesAreConserved(a: Assembly, ps: seq<Piece>, limit: Option<nat>)
    requires ValidHeld(a.held)
    ensures var r := Run(a, ps, limit);
            TotalBytes(r.out) + HeldCount(r.held) + r.lost
            == TotalBytes(a.out) + HeldCount(a.held) + a.lost + |Payload(ps)|
    decreases ps
  {
    if ps != [] {
      AdvanceConservesBytes(a, ps[0], limit);
      BytesAreConserved(Advance(a, ps[0], limit), ps[1..], limit);
    }
  }

  // ---- Size bound ----

  /** The message is within the limit or arrived in one fragment. */
  predicate Admissible(m: Message, ps: seq<Piece>, limit: Option<nat>) {
    limit.Some? && |m.data| > limit.value ==> Piece(true, true, m.binary, m.data) in ps
  }

  lemma AdvanceKeepsBound(a: Assembly, p: Piece, limit: Option<nat>)
    requires ValidHeld(a.held) && !Exceeds(HeldCount(a.held), limit)
    ensures var r := Advance(a, p, limit);
            && ValidHeld(r.held) && !Exceeds(HeldCount(r.held), limit)
            && |r.out| <= |a.out| + 1 && a.out <= r.out
            && (|r.out| > |a.out| ==> Admissible(r.out[|a.out|], [p], limit))
  {
  }

  lemma {:induction false} OutputsAdmissible(ps: seq<Piece>, limit: Option<nat>)
    ensures var r := Run(START, ps, limit);
            && ValidHeld(r.held) && !Exceeds(HeldCount(r.held), limit)
            && forall m :: m in r.out ==> Admissible(m, ps, limit)
    decreases |ps|
  {
    if ps != [] {
      var init, p := ps[..|ps| - 1], ps[|ps| - 1];
      assert init + [p] == ps;
      OutputsAdmissible(init, limit);
      RunOne(START, init, p, limit);
      var a := Run(START, init, limit);
      AdvanceKeepsBound(a, p, limit);
      var r := Advance(a, p, limit);
      forall m | m in r.out
        ensures Admissible(m, ps, limit)
      {
        if m in a.out {
          assert Admissible(m, init, limit);
        } else {
          assert m == r.out[|a.out|];
        }
      }
    }
  }

  /** A message that arrives in one fragment always comes out. */
  lemma {:induction false} OneFragmentComesOut(ps: seq<Piece>, p: Piece, limit: Option<nat>)
    requires p in ps && p.first && p.final
    ensures Message(p.binary, p.data) in Run(START, ps, limit).out
    decreases |ps|
  {
    var init, last := ps[..|ps| - 1], ps[|ps| - 1];
    assert init + [last] == ps;
    RunOne(START, init, last, limit);
    RunGrows(START, init, limit);
    if p != last {
      OneFragmentComesOut(init, p, limit);
      RunGrows(Run(START, init, limit), [last], limit);
      RunAppend(START, init, [last], limit);
    } else {
      assert Advance(Run(START, init, limit), p, limit).out
             == Run(START, init, limit).out + [Message(p.binary, p.data)];
    }
  }

  /** On every stream, coherent or not: the sequence kept between fragments is
      within the limit; and a message above the limit comes out if and only if
      it arrived in one fragment. */
  lemma SizeBound(ps: seq<Piece>, limit: Option<nat>, m: Message)
    ensures var r := Run(START, ps, limit);
            && ValidHeld(r.held) && (limit.Some? ==> HeldCount(r.held) <= limit.value)
            && (limit.Some? && |m.data| > limit.value ==>
                  (m in r.out <==> Piece(true, true, m.binary, m.data) in ps))
  {
    OutputsAdmissible(ps, limit);
    var p := Piece(true, true, m.binary, m.data);
    if p in ps {
      OneFragmentComesOut(ps, p, limit);
    }
  }

  /** A message twice as large as allowed that comes out and is no overflow. */
  lemma OversizedFragmentComesOut(b: Byte)
    ensures var ps := [Piece(true, true, true, [b, b])];
            && Run(START, ps, Some(1)).out == [Message(true, [b, b])]
            && !Overflowed(ps, Some(1))
  {
    var p := Piece(true, true, true, [b, b]);
    RunOne(START, [], p, Some(1));
    assert [] + [p] == [p] && [p][..0] == [];
    assert START.out + [Message(true, [b, b])] == [Message(true, [b, b])];
  }

  // ---- Agreement with the meaning of the stream ----

  function TypeOf(m: Option<Message>): (t: Option<bool>) {
    if m.None? then None else Some(m.value.binary)
  }

  /** One fragment of a coherent stream: bytes are lost exactly when the
      accumulated message gets too large; otherwise it extends the message
      under way, or finishes it. */
  lemma CoherentStep(a: Assembly, p: Piece, limit: Option<nat>)
    requires ValidHeld(a.held) && p.first == a.held.None?
    ensures var r := Advance(a, p, limit);
            && ValidHeld(r.held) && a.lost <= r.lost
            && (r.lost == a.lost <==> (p.first && p.final) || !Exceeds(HeldCount(a.held) + |p.data|, limit))
            && (r.lost == a.lost ==> Extends(a, p, r))
  {
    var fs := Append(Sequence(a.held, p), p.data);
    assert Sequence(a.held, p).Contents() + p.data == Extend(Open(a.held), p).data;
  }

  predicate Extends(a: Assembly, p: Piece, r: Assembly) {
    var m := Extend(Open(a.held), p);
    if p.final then r.held.None? && r.out == a.out + [m]
    else r.held.Some? && r.out == a.out && Open(r.held) == Some(m)
  }

  lemma GatherOne(a: Assembly, ps: seq<Piece>, b: Assembly, r: Assembly)
    requires ps != [] && Extends(a, ps[0], b)
    requires r.out == b.out + Gather(ps[1..], Open(b.held))
    requires Open(r.held) == Leftover(ps[1..], Open(b.held))
    ensures r.out == a.out + Gather(ps, Open(a.held))
    ensures Open(r.held) == Leftover(ps, Open(a.held))
  {
  }

  /** As long as no byte is lost, a coherent stream yields the messages it
      carries, and the held sequence is the message under way. */
  lemma {:induction false} NoLossMeansAgreement(a: Assembly, ps: seq<Piece>, limit: Option<nat>)
    requires ValidHeld(a.held) && Coherent(ps, TypeOf(Open(a.held)))
    requires Run(a, ps, limit).lost == a.lost
    ensures var r := Run(a, ps, limit);
            && r.out == a.out + Gather(ps, Open(a.held))
            && Open(r.held) == Leftover(ps, Open(a.held))
    decreases ps
  {
    if ps == [] {
      assert a.out + Gather(ps, Open(a.held)) == a.out;
    } else {
      var b := Advance(a, ps[0], limit);
      CoherentStep(a, ps[0], limit);
      RunGrows(b, ps[1..], limit);
      NoLossMeansAgreement(b, ps[1..], limit);
      GatherOne(a, ps, b, Run(a, ps, limit));
    }
  }

  /** Every message of more than one fragment is within the limit. */
  predicate Fits(ps: seq<Piece>, limit: Option<nat>)
    decreases |ps|
  {
    var k := FirstFinal(ps);
    k == |ps| ||
    ((k == 0 || limit.None? || |Payload(ps[..k + 1])| <= limit.value) && Fits(ps[k + 1..], limit))
  }

  lemma FragmentLossless(a: Assembly, p: Piece, limit: Option<nat>)
    requires ValidHeld(a.held) && p.first == a.held.None? && !(p.first && p.final)
    requires a.held.Some? ==> p.binary == a.held.value.kind.Binary?
    ensures var b := Advance(a, p, limit);
            && ValidHeld(b.held) && a.lost <= b.lost
            && (b.lost == a.lost <==> !Exceeds(HeldCount(a.held) + |p.data|, limit))
            && (b.lost == a.lost ==>
                  if p.final then b.held.None?
                  else TypeOf(Open(b.held)) == Some(p.binary) && HeldCount(b.held) == HeldCount(a.held) + |p.data|)
  {
    CoherentStep(a, p, limit);
  }

  /** One message that is not a single fragment, from a sequence that may
      already hold part of it: bytes are lost exactly when it is too large. */
  lemma {:induction false} MessageLossless(a: Assembly, ps: seq<Piece>, limit: Option<nat>)
    requires ps != [] && FirstFinal(ps) == |ps| - 1
    requires ValidHeld(a.held) && Coherent(ps, TypeOf(Open(a.held)))
    requires !Exceeds(HeldCount(a.held), limit)
    requires a.held.None? ==> !ps[0].final
    ensures var r := Run(a, ps, limit);
            && ValidHeld(r.held)
            && (r.lost == a.lost <==> !Exceeds(HeldCount(a.held) + |Payload(ps)|, limit))
            && (r.lost == a.lost ==> r.held.None?)
    decreases ps
  {
    var b := Advance(a, ps[0], limit);
    FragmentLossless(a, ps[0], limit);
    RunGrows(b, ps[1..], limit);
    assert |Payload(ps)| == |ps[0].data| + |Payload(ps[1..])|;
    if b.lost == a.lost && |ps| > 1 {
      MessageLossless(b, ps[1..], limit);
    }
  }

  lemma {:induction false} CoherentAppend(a: seq<Piece>, b: seq<Piece>, open: Option<bool>)
    requires a != [] && FirstFinal(a) == |a| - 1 && Coherent(a + b, open)
    ensures Coherent(a, open) && Coherent(b, None)
  {
    assert (a + b)[1..] == a[1..] + b;
    if |a| == 1 {
      assert (a + b)[1..] == b;
    } else {
      CoherentAppend(a[1..], b, Some(a[0].binary));
    }
  }

  lemma OneMessageLossless(a: Assembly, m: seq<Piece>, limit: Option<nat>)
    requires m != [] && FirstFinal(m) == |m| - 1
    requires a.held.None? && Coherent(m, None)
    ensures var r := Run(a, m, limit);
            && ValidHeld(r.held) && a.lost <= r.lost
            && (r.lost == a.lost <==> |m| == 1 || !Exceeds(|Payload(m)|, limit))
            && (r.lost == a.lost ==> r.held.None?)
  {
    if |m| == 1 {
      assert Run(a, m, limit) == Run(Advance(a, m[0], limit), m[1..], limit) == Advance(a, m[0], limit);
    } else {
      MessageLossless(a, m, limit);
      RunGrows(a, m, limit);
    }
  }

  lemma FirstMessage(ps: seq<Piece>, limit: Option<nat>) returns (m: seq<Piece>, rest: seq<Piece>)
    requires ps != [] && Coherent(ps, None) && Complete(ps)
    ensures ps == m + rest && m != [] && FirstFinal(m) == |m| - 1
    ensures Coherent(m, None) && Coherent(rest, None) && Complete(rest)
    ensures Fits(ps, limit) <==> (|m| == 1 || !Exceeds(|Payload(m)|, limit)) && Fits(rest, limit)
  {
    var k := FirstFinal(ps);
    m, rest := ps[..k + 1], ps[k + 1..];
    FirstFinalOfRun(ps, k);
    assert ps == m + rest;
    CoherentAppend(m, rest, None);
  }

  lemma {:induction false} LosslessIffFits(a: Assembly, ps: seq<Piece>, limit: Option<nat>)
    requires a.held.None? && Coherent(ps, None) && Complete(ps)
    ensures Run(a, ps, limit).lost == a.lost <==> Fits(ps, limit)
    decreases |ps|
  {
    if ps != [] {
      var m, rest := FirstMessage(ps, limit);
      RunAppend(a, m, rest, limit);
      OneMessageLossless(a, m, limit);
      var b := Run(a, m, limit);
      RunGrows(b, rest, limit);
      if b.lost == a.lost {
        LosslessIffFits(b, rest, limit);
      }
    }
  }

  lemma {:induction false} FirstFinalOfRun(ps: seq<Piece>, k: nat)
    requires k == FirstFinal(ps) < |ps|
    ensures FirstFinal(ps[..k + 1]) == k
  {
    if k > 0 {
      assert ps[..k + 1][1..] == ps[1..][..k];
      FirstFinalOfRun(ps[1..], k - 1);
    }
  }

  lemma {:induction false} GatherBytes(ps: seq<Piece>, open: Option<Message>)
    ensures TotalBytes(Gather(ps, open)) + (if Leftover(ps, open).None? then 0 else |Leftover(ps, open).value.data|)
            == (if open.None? then 0 else |open.value.data|) + |Payload(ps)|
  {
    if ps != [] {
      var m := Extend(open, ps[0]);
      if ps[0].final {
        GatherBytes(ps[1..], None);
        assert ([m] + Gather(ps[1..], None))[1..] == Gather(ps[1..], None);
      } else {
        GatherBytes(ps[1..], Some(m));
      }
    }
  }

  /** Exactly when the receive side is right: on a coherent stream that ends
      with a finished message, the messages that come out are those the stream
      carries if and only if every message of several fragments is within the
      size limit. */
  lemma ReassemblyExact(ps: seq<Piece>, limit: Option<nat>)
    requires Coherent(ps, None) && Complete(ps)
    ensures Run(START, ps, limit).out == Messages(ps) <==> Fits(ps, limit)
    ensures Fits(ps, limit) ==> Run(START, ps, limit) == Assembly(None, Messages(ps), 0)
  {
    LosslessIffFits(START, ps, limit);
    GatherIsMessages(ps);
    CompleteLeavesNothing(ps, None);
    GatherBytes(ps, None);
    BytesAreConserved(START, ps, limit);
    if Run(START, ps, limit).lost == 0 {
      NoLossMeansAgreement(START, ps, limit);
      assert START.out + Messages(ps) == Messages(ps);
    }
  }

  /** Why the limit matters: after an overflow the rest of the message starts
      a fresh sequence, and its tail comes out as a message of its own. */
  lemma OverflowDeliversTail(head: Byte, tail: Byte)
    ensures var ps := [Piece(true, false, true, [head, head]), Piece(false, true, true, [tail])];
            && Messages(ps) == [Message(true, [head, head, tail])]
            && Run(START, ps, Some(1)).out == [Message(true, [tail])]
  {
    var p, q := Piece(true, false, true, [head, head]), Piece(false, true, true, [tail]);
    var ps := [p, q];
    GatherIsMessages(ps);
    assert ps[1..] == [q] && [q][1..] == [];
    var m := Message(true, [head, head]);
    assert [head, head] + [tail] == [head, head, tail];
    assert [] + [tail] == [tail];
    assert Gather(ps, None) == Gather([q], Some(m));
    assert Gather([q], Some(m)) == [Extend(Some(m), q)];
    var a := Advance(START, p, Some(1));
    assert a == Assembly(None, [], 2);
    var b := Advance(a, q, Some(1));
    assert b.out == [Message(true, [tail])];
    assert Run(a, [q], Some(1)) == Run(b, [], Some(1)) == b;
  }

  // ---- Overflow ----

  /** Some fragment of the stream made the accumulated message too large. */
  predicate Overflowed(ps: seq<Piece>, limit: Option<nat>)
    decreases |ps|
  {
    ps != [] &&
    (var init, last := ps[..|ps| - 1], ps[|ps| - 1];
     Overflowed(init, limit) || Assemble(Run(START, init, limit).held, last, limit).action.TooLarge?)
  }

  lemma OverflowedOne(ps: seq<Piece>, p: Piece, limit: Option<nat>)
    ensures Overflowed(ps + [p], limit)
            <==> Overflowed(ps, limit) || Assemble(Run(START, ps, limit).held, p, limit).action.TooLarge?
  {
    assert (ps + [p])[..|ps + [p]| - 1] == ps;
  }

  lemma OverflowStep(a: Assembly, p: Piece, limit: Option<nat>)
    requires ValidHeld(a.held) && p.first == a.held.None?
    ensures Assemble(a.held, p, limit).action.TooLarge? <==> Advance(a, p, limit).lost > a.lost
  {
    CoherentStep(a, p, limit);
  }

  /** On a coherent stream that is exactly when bytes are lost. */
  lemma {:induction false} OverflowMeansLoss(ps: seq<Piece>, limit: Option<nat>)
    requires Coherent(ps, None)
    ensures Overflowed(ps, limit) <==> Run(START, ps, limit).lost > 0
    decreases |ps|
  {
    if ps != [] {
      var init, last := ps[..|ps| - 1], ps[|ps| - 1];
      assert init + [last] == ps;
      CoherentInit(init, last, None);
      OverflowMeansLoss(init, limit);
      RunOne(START, init, last, limit);
      RunGrows(START, init, limit);
      var a := Run(START, init, limit);
      if a.lost == 0 {
        NoLossMeansAgreement(START, init, limit);
        LeftoverType(init, None);
        OverflowStep(a, last, limit);
      }
    }
  }

  /** Exactly when the limit is enforced: on a coherent stream of finished
      messages, an overflow happens if and only if some message of several
      fragments is above the limit. */
  lemma OverflowIffUnfit(ps: seq<Piece>, limit: Option<nat>)
    requires Coherent(ps, None) && Complete(ps)
    ensures Overflowed(ps, limit) <==> !Fits(ps, limit)
  {
    OverflowMeansLoss(ps, limit);
    LosslessIffFits(START, ps, limit);
  }

  /** The type of the message under way after a stream. */
  function TypeLeft(ps: seq<Piece>, open: Option<bool>): (t: Option<bool>) {
    if ps == [] then open
    else TypeLeft(ps[1..], if ps[0].final then None else Some(ps[0].binary))
  }

  lemma {:induction false} CoherentInit(init: seq<Piece>, last: Piece, open: Option<bool>)
    requires Coherent(init + [last], open)
    ensures Coherent(init, open) && last.first == TypeLeft(init, open).None?
  {
    if init == [] {
      assert (init + [last])[0] == last;
    } else {
      assert (init + [last])[1..] == init[1..] + [last];
      CoherentInit(init[1..], last, if init[0].final then None else Some(init[0].binary));
    }
  }

  lemma {:induction false} LeftoverType(ps: seq<Piece>, open: Option<Message>)
    ensures Leftover(ps, open).None? <==> TypeLeft(ps, TypeOf(open)).None?
  {
    if ps != [] {
      var next := if ps[0].final then None else Some(Extend(open, ps[0]));
      LeftoverType(ps[1..], next);
      assert TypeOf(next).None? == ps[0].final;
    }
  }

  // ---- Cut independence ----

  predicate AllWithin(ms: seq<Message>, limit: Option<nat>) {
    forall i :: 0 <= i < |ms| ==> limit.None? || |ms[i].data| <= limit.value
  }

  lemma {:induction false} SmallMessagesFit(ps: seq<Piece>, limit: Option<nat>)
    requires AllWithin(Messages(ps), limit)
    ensures Fits(ps, limit)
    decreases |ps|
  {
    var k := FirstFinal(ps);
    if k < |ps| {
      assert Messages(ps)[0].data == Payload(ps[..k + 1]);
      assert Messages(ps)[1..] == Messages(ps[k + 1..]);
      SmallMessagesFit(ps[k + 1..], limit);
    }
  }

  lemma {:induction false} CutIsComplete(ps: seq<Piece>, cuts: seq<seq<Bytes>>)
    requires ValidCuts(ps, cuts) && Complete(ps)
    ensures Complete(Cut(ps, cuts))
  {
    if ps != [] {
      CutPieceLast(ps[0], cuts[0]);
      CutIsComplete(ps[1..], cuts[1..]);
    }
  }

  lemma {:induction false} CutPieceLast(p: Piece, parts: seq<Bytes>)
    requires parts != []
    ensures var ps := CutPiece(p, parts); ps != [] && ps[|ps| - 1].final == p.final
    decreases |parts|
  {
    if |parts| > 1 {
      CutPieceLast(p.(first := false), parts[1..]);
    }
  }

  /** For messages within the limit it does not matter how their bytes are cut
      into fragments: in one piece through the shortcut, or in many through the
      accumulator, the same messages come out and nothing is held afterwards. */
  lemma CutIndependence(ps: seq<Piece>, cuts: seq<seq<Bytes>>, limit: Option<nat>)
    requires Coherent(ps, None) && Complete(ps) && ValidCuts(ps, cuts)
    requires AllWithin(Messages(ps), limit)
    ensures Run(START, Cut(ps, cuts), limit) == Run(START, ps, limit) == Assembly(None, Messages(ps), 0)
  {
    CutKeepsMessages(ps, cuts);
    CutKeepsCoherence(ps, cuts, None);
    CutIsComplete(ps, cuts);
    SmallMessagesFit(ps, limit);
    SmallMessagesFit(Cut(ps, cuts), limit);
    ReassemblyExact(ps, limit);
    ReassemblyExact(Cut(ps, cuts), limit);
  }
}
