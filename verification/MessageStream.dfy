/** What a stream of message pieces means, independently of any buffering: the
    messages it carries. A piece is a data frame on the wire or the part of one
    that a RECEIVE callback hands over. */
module MessageStream {
  import opened Protocol

  datatype Piece = Piece(first: bool, final: bool, binary: bool, data: Bytes)

  datatype Message = Message(binary: bool, data: Bytes)

  /** The bytes of a run of pieces, in order. */
  function Payload(ps: seq<Piece>): (bytes: Bytes) {
    if ps == [] then [] else ps[0].data + Payload(ps[1..])
  }

  /** The position of the first final piece; the length if there is none. */
  function FirstFinal(ps: seq<Piece>): (k: nat)
    ensures k <= |ps|
    ensures k < |ps| ==> ps[k].final
    ensures forall i :: 0 <= i < k ==> !ps[i].final
  {
    if ps == [] || ps[0].final then 0 else 1 + FirstFinal(ps[1..])
  }

  /** The meaning of a stream: cut it after every final piece; each run is one
      message with the type of its first piece and the bytes of all of them. */
  function Messages(ps: seq<Piece>): (ms: seq<Message>)
    decreases |ps|
  {
    var k := FirstFinal(ps);
    if k == |ps| then []
    else [Message(ps[0].binary, Payload(ps[..k + 1]))] + Messages(ps[k + 1..])
  }

  /** The fragmentation rule of section 5.4 of RFC 6455 on pieces: a piece is
      first exactly when no message is open, and the type never changes inside
      a message. `open` is the type of the message already under way. */
  predicate Coherent(ps: seq<Piece>, open: Option<bool>) {
    ps == [] ||
    (&& ps[0].first == open.None?
     && (open.Some? ==> ps[0].binary == open.value)
     && Coherent(ps[1..], if ps[0].final then None else Some(ps[0].binary)))
  }

  /** No message is left open at the end. */
  predicate Complete(ps: seq<Piece>) {
    ps == [] || ps[|ps| - 1].final
  }

  // ---- The same meaning, one piece at a time ----

  /** The message under way after one more piece. */
  function Extend(open: Option<Message>, p: Piece): (m: Message) {
    if open.None? then Message(p.binary, p.data)
    else open.value.(data := open.value.data + p.data)
  }

  /** The messages completed by a stream that starts with `open` under way. */
  function Gather(ps: seq<Piece>, open: Option<Message>): (ms: seq<Message>) {
    if ps == [] then []
    else if ps[0].final then [Extend(open, ps[0])] + Gather(ps[1..], None)
    else Gather(ps[1..], Some(Extend(open, ps[0])))
  }

  /** What is still under way at the end of that stream. */
  function Leftover(ps: seq<Piece>, open: Option<Message>): (m: Option<Message>) {
    if ps == [] then open
    else if ps[0].final then Leftover(ps[1..], None)
    else Leftover(ps[1..], Some(Extend(open, ps[0])))
  }

  lemma {:induction false} GatherUpToFinal(ps: seq<Piece>, open: Option<Message>, k: nat)
    requires k == FirstFinal(ps)
    ensures k == |ps| ==> Gather(ps, open) == []
    ensures k < |ps| ==>
              Gather(ps, open) ==
              [Message(Extend(open, ps[0]).binary, Whole(open, ps, k))] + Gather(ps[k + 1..], None)
  {
    if ps == [] {
    } else if ps[0].final {
      assert ps[..1][1..] == [];
      assert Payload(ps[..1]) == ps[0].data;
      assert Extend(open, ps[0]).data == Whole(open, ps, 0);
    } else {
      var under := Extend(open, ps[0]);
      GatherUpToFinal(ps[1..], Some(under), k - 1);
      if k < |ps| {
        WholeShift(open, ps, k);
        assert ps[1..][k..] == ps[k + 1..];
      }
    }
  }

  /** The bytes already under way followed by those up to position `k`. */
  function Whole(open: Option<Message>, ps: seq<Piece>, k: nat): (bytes: Bytes)
    requires k < |ps|
  {
    (if open.None? then [] else open.value.data) + Payload(ps[..k + 1])
  }

  lemma WholeShift(open: Option<Message>, ps: seq<Piece>, k: nat)
    requires 0 < k < |ps|
    ensures Whole(Some(Extend(open, ps[0])), ps[1..], k - 1) == Whole(open, ps, k)
  {
    assert ps[..k + 1][1..] == ps[1..][..k];
    assert Payload(ps[..k + 1]) == ps[0].data + Payload(ps[1..][..k]);
  }

  /** Gathering piece by piece computes the meaning of the stream. */
  lemma {:induction false} GatherIsMessages(ps: seq<Piece>)
    ensures Gather(ps, None) == Messages(ps)
    decreases |ps|
  {
    var k := FirstFinal(ps);
    GatherUpToFinal(ps, None, k);
    if k < |ps| {
      assert Whole(None, ps, k) == Payload(ps[..k + 1]);
      GatherIsMessages(ps[k + 1..]);
    }
  }

  lemma {:induction false} GatherAppend(a: seq<Piece>, b: seq<Piece>, open: Option<Message>)
    ensures Gather(a + b, open) == Gather(a, open) + Gather(b, Leftover(a, open))
    ensures Leftover(a + b, open) == Leftover(b, Leftover(a, open))
  {
    if a == [] {
      assert a + b == b;
    } else {
      assert (a + b)[1..] == a[1..] + b;
      GatherAppend(a[1..], b, if a[0].final then None else Some(Extend(open, a[0])));
    }
  }

  /** A longer stream only adds messages at the end. */
  lemma MessagesOfPrefix(a: seq<Piece>, b: seq<Piece>)
    requires a <= b
    ensures Messages(a) <= Messages(b)
  {
    assert b == a + b[|a|..];
    GatherAppend(a, b[|a|..], None);
    GatherIsMessages(a);
    GatherIsMessages(b);
  }

  lemma {:induction false} CompleteLeavesNothing(ps: seq<Piece>, open: Option<Message>)
    requires Complete(ps) && (ps == [] ==> open.None?)
    ensures Leftover(ps, open).None?
  {
    if ps != [] {
      CompleteLeavesNothing(ps[1..], if ps[0].final then None else Some(Extend(open, ps[0])));
    }
  }

  // ---- Cutting pieces into smaller ones ----

  /** One piece handed over in parts: only the first part may be first and only
      the last part may be final. */
  function CutPiece(p: Piece, parts: seq<Bytes>): (ps: seq<Piece>)
    requires parts != []
    decreases |parts|
  {
    if |parts| == 1 then [p.(data := parts[0])]
    else [p.(data := parts[0], final := false)] + CutPiece(p.(first := false), parts[1..])
  }

  predicate ValidCuts(ps: seq<Piece>, cuts: seq<seq<Bytes>>) {
    && |cuts| == |ps|
    && forall i :: 0 <= i < |ps| ==> cuts[i] != [] && Flatten(cuts[i]) == ps[i].data
  }

  /** A whole stream with every piece cut as `cuts` says. */
  function Cut(ps: seq<Piece>, cuts: seq<seq<Bytes>>): (fine: seq<Piece>)
    requires ValidCuts(ps, cuts)
  {
    if ps == [] then [] else CutPiece(ps[0], cuts[0]) + Cut(ps[1..], cuts[1..])
  }

  lemma {:induction false} CutPieceGathers(p: Piece, parts: seq<Bytes>, rest: seq<Piece>, open: Option<Message>)
    requires parts != [] && Flatten(parts) == p.data
    ensures Gather(CutPiece(p, parts) + rest, open) == Gather([p] + rest, open)
    ensures Leftover(CutPiece(p, parts) + rest, open) == Leftover([p] + rest, open)
    decreases |parts|
  {
    assert ([p] + rest)[1..] == rest;
    if |parts| == 1 {
      assert Flatten(parts) == parts[0] + Flatten(parts[1..]) == parts[0];
      assert CutPiece(p, parts) == [p];
    } else {
      var head := p.(data := parts[0], final := false);
      var tail := p.(first := false, data := Flatten(parts[1..]));
      var under := Extend(open, head);
      assert CutPiece(p, parts) + rest == [head] + (CutPiece(p.(first := false), parts[1..]) + rest);
      CutPieceIgnoresData(p.(first := false), tail, parts[1..]);
      CutPieceGathers(tail, parts[1..], rest, Some(under));
      assert ([tail] + rest)[1..] == rest;
      assert Extend(Some(under), tail) == Extend(open, p);
    }
  }

  lemma {:induction false} CutPieceIgnoresData(p: Piece, q: Piece, parts: seq<Bytes>)
    requires parts != [] && q == p.(data := q.data)
    ensures CutPiece(p, parts) == CutPiece(q, parts)
    decreases |parts|
  {
    if |parts| > 1 {
      CutPieceIgnoresData(p.(first := false), q.(first := false), parts[1..]);
    }
  }

  lemma {:induction false} CutGathers(ps: seq<Piece>, cuts: seq<seq<Bytes>>, open: Option<Message>)
    requires ValidCuts(ps, cuts)
    ensures Gather(Cut(ps, cuts), open) == Gather(ps, open)
  {
    if ps != [] {
      CutPieceGathers(ps[0], cuts[0], Cut(ps[1..], cuts[1..]), open);
      var fine := [ps[0]] + Cut(ps[1..], cuts[1..]);
      assert fine[1..] == Cut(ps[1..], cuts[1..]);
      CutGathers(ps[1..], cuts[1..], if ps[0].final then None else Some(Extend(open, ps[0])));
    }
  }

  /** However the pieces are cut, the stream carries the same messages. */
  lemma CutKeepsMessages(ps: seq<Piece>, cuts: seq<seq<Bytes>>)
    requires ValidCuts(ps, cuts)
    ensures Messages(Cut(ps, cuts)) == Messages(ps)
  {
    CutGathers(ps, cuts, None);
    GatherIsMessages(ps);
    GatherIsMessages(Cut(ps, cuts));
  }

  lemma {:induction false} CutPieceCoherent(p: Piece, parts: seq<Bytes>, rest: seq<Piece>, open: Option<bool>)
    requires parts != []
    ensures Coherent(CutPiece(p, parts) + rest, open) <==> Coherent([p] + rest, open)
    decreases |parts|
  {
    assert ([p] + rest)[1..] == rest;
    if |parts| == 1 {
      assert (CutPiece(p, parts) + rest)[1..] == rest;
    } else {
      var tail := p.(first := false);
      assert (CutPiece(p, parts) + rest)[1..] == CutPiece(tail, parts[1..]) + rest;
      CutPieceCoherent(tail, parts[1..], rest, Some(p.binary));
      assert ([tail] + rest)[1..] == rest;
    }
  }

  /** Cutting neither breaks nor repairs the fragmentation rule. */
  lemma {:induction false} CutKeepsCoherence(ps: seq<Piece>, cuts: seq<seq<Bytes>>, open: Option<bool>)
    requires ValidCuts(ps, cuts)
    ensures Coherent(Cut(ps, cuts), open) <==> Coherent(ps, open)
  {
    if ps != [] {
      CutPieceCoherent(ps[0], cuts[0], Cut(ps[1..], cuts[1..]), open);
      var fine := [ps[0]] + Cut(ps[1..], cuts[1..]);
      assert fine[1..] == Cut(ps[1..], cuts[1..]);
      CutKeepsCoherence(ps[1..], cuts[1..], if ps[0].final then None else Some(ps[0].binary));
    }
  }
}
