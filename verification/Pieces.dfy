/**
 The two stages of the resumable parser, as functions: cutting bytes into raw pieces, and parsing a
 queue of pieces. `Simulates` shows that together they compute the one-pass grammar.
 */
module Pieces {
  import opened Prelude
  import opened Decimal
  import opened Messages
  import opened Grammar

  /** One step of cutting: a piece with what remains, not enough bytes, or a failure. */
  datatype Cut = Piece(piece: string, rest: string, pending: Option<nat>) | NoPiece | CutFails

  /** The conversion from `int` to `std::size_t`. */
  function ToSizeT(n: int32): nat {
    if n < 0 then n + UINT64_LIMIT else n
  }

  /** A pending length that came from a negative number; no buffer is that long. */
  predicate Poisoned(pending: Option<nat>) {
    pending.Some? && pending.value >= UINT64_LIMIT / 2
  }

  /**
   Cuts the next piece. The length test adds in `std::size_t`, so it wraps; moving an iterator by a
   poisoned length is undefined in the program and fails here.
   */
  function CutOne(bytes: string, pending: Option<nat>, e: Expected): Cut
    requires bytes != []
  {
    match pending
    case Some(n) =>
      if |bytes| < (n + Delim(e)) % UINT64_LIMIT then NoPiece
      else if n >= UINT64_LIMIT / 2 || |bytes| < n + Delim(e) then CutFails
      else Piece(bytes[..n], bytes[n + Delim(e)..], None)
    case None =>
      if bytes[0] !in TYPES then CutFails
      else
        match FindCrlf(bytes)
        case None => NoPiece
        case Some(k) =>
          var line := bytes[..k];
          if line[0] != '$' then Piece(line, bytes[k + 2..], None)
          else
            match ParseInt(line[1..])
            case Some(n) => Piece(line, bytes[k + 2..], Some(ToSizeT(n)))
            case None => CutFails
  }

  /** A recursive parse of the piece queue. A poisoned `$-1` is read as an empty message. */
  function ParseOne(queue: seq<string>, kind: Expected): (r: Parse<Message, seq<string>>)
    ensures r.Done? ==> |r.rest| < |queue|
    decreases |queue|, 0
  {
    if queue == [] then Incomplete
    else if queue[0] == [] then Malformed
    else
      ParseBody(Classify(queue[0]), queue[1..], kind)
  }

  function ParseBody(head: Head, queue: seq<string>, kind: Expected): (r: Parse<Message, seq<string>>)
    ensures r.Done? ==> |r.rest| <= |queue|
    decreases |queue|, 2
  {
    match head
    case Whole(m) => Done(m, queue)
    case Frame(n) =>
      if n == -1 then Done(Payload("", kind), queue)
      else if queue == [] then Incomplete
      else Done(Payload(queue[0], kind), queue[1..])
    case Elements(n) =>
      (match ParseMany(queue, n)
       case Done(ms, r) => Done(Array(ms), r)
       case Incomplete => Incomplete
       case Malformed => Malformed)
    case Bad => Malformed
  }

  /** Array elements are parsed with no expectation. */
  function ParseMany(queue: seq<string>, n: int): (r: Parse<seq<Message>, seq<string>>)
    ensures r.Done? ==> |r.rest| <= |queue|
    decreases |queue|, 1
  {
    if n <= 0 then Done([], queue)
    else
      match ParseOne(queue, ExpectAny)
      case Done(m, rest) =>
        (match ParseMany(rest, n - 1)
         case Done(ms, r) => Done([m] + ms, r)
         case Incomplete => Incomplete
         case Malformed => Malformed)
      case Incomplete => Incomplete
      case Malformed => Malformed
  }

  /** Cutting `from` (with a pending length) gives exactly the pieces of `queue` and leaves `bytes`. */
  ghost predicate Cuts(from: string, before: Option<nat>, e: Expected,
                       queue: seq<string>, bytes: string, pending: Option<nat>)
    decreases |queue|
  {
    if queue == [] then from == bytes && before == pending
    else
      from != [] && CutOne(from, before, e).Piece?
      && CutOne(from, before, e).piece == queue[0]
      && !Poisoned(CutOne(from, before, e).pending)
      && Cuts(CutOne(from, before, e).rest, CutOne(from, before, e).pending, e, queue[1..], bytes, pending)
  }

  /** No further piece can be cut yet. */
  ghost predicate Stuck(bytes: string, pending: Option<nat>, e: Expected) {
    bytes == [] || CutOne(bytes, pending, e).NoPiece?
  }

  /** The next cut fails, or leaves a poisoned length. */
  ghost predicate Spoils(bytes: string, pending: Option<nat>, e: Expected) {
    bytes != [] && (CutOne(bytes, pending, e).CutFails? ||
                    (CutOne(bytes, pending, e).Piece? && Poisoned(CutOne(bytes, pending, e).pending)))
  }

  /** What a parse of the queue says about the grammar's reading of the bytes it was cut from. */
  ghost predicate Agrees<T>(r: Parse<T, seq<string>>, g: Parse<T, string>, e: Expected, bytes: string, pending: Option<nat>)
  {
    match r
    case Done(m, rest) => g.Done? && g.value == m && Cuts(g.rest, None, e, rest, bytes, pending)
    case Incomplete => (Stuck(bytes, pending, e) ==> g.Incomplete?) && (Spoils(bytes, pending, e) ==> g.Malformed?)
    case Malformed => g.Malformed?
  }

  /** The first cut of a message, against its first line. */
  lemma CutsFirstLine(from: string, e: Expected)
    requires from != []
    ensures var cut := CutOne(from, None, e);
            && (cut.NoPiece? ==> from[0] in TYPES && FindCrlf(from).None?)
            && (cut.CutFails? ==> from[0] !in TYPES || (FindCrlf(from).Some? && Classify(from[..FindCrlf(from).value]).Bad?))
            && (cut.Piece? ==>
                  && from[0] in TYPES && FindCrlf(from).Some?
                  && cut.piece == from[..FindCrlf(from).value] && cut.rest == from[FindCrlf(from).value + 2..]
                  && cut.piece != []
                  && cut.pending == if Classify(cut.piece).Frame? then Some(ToSizeT(Classify(cut.piece).length)) else None)
  {
    hide ParseInt;
  }

  /** Cutting then parsing agrees with the one-pass grammar, whatever the queue holds. */
  lemma {:induction false} Simulates(from: string, e: Expected, kind: Expected, queue: seq<string>, bytes: string, pending: Option<nat>)
    requires Cuts(from, None, e, queue, bytes, pending)
    ensures Agrees(ParseOne(queue, kind), One(from, e, kind), e, bytes, pending)
    decreases |queue|, 0
  {
    if from != [] {
      CutsFirstLine(from, e);
    }
    if queue != [] {
      var cut := CutOne(from, None, e);
      SimulatesBody(Classify(queue[0]), cut.rest, e, kind, queue[1..], bytes, pending);
    }
  }

  lemma {:induction false} SimulatesBody(head: Head, from: string, e: Expected, kind: Expected, queue: seq<string>, bytes: string, pending: Option<nat>)
    requires head.Frame? ==> !Poisoned(Some(ToSizeT(head.length)))
    requires Cuts(from, if head.Frame? then Some(ToSizeT(head.length)) else None, e, queue, bytes, pending)
    ensures Agrees(ParseBody(head, queue, kind), Body(head, from, e, kind), e, bytes, pending)
    decreases |queue|, 2
  {
    match head
    case Elements(n) => SimulatesMany(from, e, n, queue, bytes, pending);
    case _ =>
  }

  lemma {:induction false} SimulatesMany(from: string, e: Expected, n: int, queue: seq<string>, bytes: string, pending: Option<nat>)
    requires Cuts(from, None, e, queue, bytes, pending)
    ensures Agrees(ParseMany(queue, n), Many(from, e, n), e, bytes, pending)
    decreases |queue|, 1
  {
    if n > 0 {
      Simulates(from, e, ExpectAny, queue, bytes, pending);
      var r := ParseOne(queue, ExpectAny);
      if r.Done? {
        SimulatesMany(One(from, e, ExpectAny).rest, e, n - 1, r.rest, bytes, pending);
      }
    }
  }

  // ----- The queue of a parser that has tried every prefix -----

  lemma {:induction false} CutsSnoc(from: string, before: Option<nat>, e: Expected, queue: seq<string>, bytes: string, pending: Option<nat>)
    requires Cuts(from, before, e, queue, bytes, pending)
    requires bytes != [] && CutOne(bytes, pending, e).Piece? && !Poisoned(CutOne(bytes, pending, e).pending)
    ensures var cut := CutOne(bytes, pending, e);
            Cuts(from, before, e, queue + [cut.piece], cut.rest, cut.pending)
    decreases |queue|
  {
    var cut := CutOne(bytes, pending, e);
    if queue == [] {
      assert queue + [cut.piece] == [cut.piece];
      assert [cut.piece][1..] == [];
    } else {
      var first := CutOne(from, before, e);
      CutsSnoc(first.rest, first.pending, e, queue[1..], bytes, pending);
      assert (queue + [cut.piece])[1..] == queue[1..] + [cut.piece];
    }
  }

  /** New input lands behind the uncut bytes. */
  lemma {:induction false} CutsFeed(from: string, before: Option<nat>, e: Expected, queue: seq<string>, bytes: string, pending: Option<nat>, more: string)
    requires Cuts(from, before, e, queue, bytes, pending)
    ensures Cuts(from + more, before, e, queue, bytes + more, pending)
    decreases |queue|
  {
    if queue != [] {
      var first := CutOne(from, before, e);
      CutsFeed(first.rest, first.pending, e, queue[1..], bytes, pending, more);
      CutOneFeed(from, before, e, more);
    }
  }

  lemma CutOneFeed(bytes: string, pending: Option<nat>, e: Expected, more: string)
    requires bytes != [] && CutOne(bytes, pending, e).Piece?
    ensures var cut := CutOne(bytes, pending, e);
            CutOne(bytes + more, pending, e) == Piece(cut.piece, cut.rest + more, cut.pending)
  {
    match pending
    case Some(n) =>
      assert (bytes + more)[..n] == bytes[..n];
      assert (bytes + more)[n + Delim(e)..] == bytes[n + Delim(e)..] + more;
    case None =>
      var k := FindCrlf(bytes).value;
      FindCrlfExtends(bytes, more);
      assert (bytes + more)[..k] == bytes[..k];
      assert (bytes + more)[k + 2..] == bytes[k + 2..] + more;
  }

  /** The end state of cutting is determined by the bytes: two stuck cuttings are the same. */
  lemma {:induction false} CutsDetermined(from: string, before: Option<nat>, e: Expected,
                                          q1: seq<string>, b1: string, p1: Option<nat>, q2: seq<string>, b2: string, p2: Option<nat>)
    requires Cuts(from, before, e, q1, b1, p1) && Stuck(b1, p1, e)
    requires Cuts(from, before, e, q2, b2, p2) && Stuck(b2, p2, e)
    ensures q1 == q2 && b1 == b2 && p1 == p2
    decreases |q1|
  {
    if q1 != [] && q2 != [] {
      var first := CutOne(from, before, e);
      CutsDetermined(first.rest, first.pending, e, q1[1..], b1, p1, q2[1..], b2, p2);
      assert q1 == [q1[0]] + q1[1..] && q2 == [q2[0]] + q2[1..];
    }
  }

  /** A parse that leaves pieces over would already have succeeded without the last of them. */
  lemma {:induction false} ParseOneShrinks(queue: seq<string>, last: string, kind: Expected)
    ensures var r := ParseOne(queue + [last], kind);
            r.Done? && r.rest != [] ==> r.rest[|r.rest| - 1] == last && ParseOne(queue, kind) == Done(r.value, r.rest[..|r.rest| - 1])
    decreases |queue|, 0
  {
    if queue != [] {
      assert (queue + [last])[1..] == queue[1..] + [last];
      ParseBodyShrinks(if queue[0] == [] then Bad else Classify(queue[0]), queue[1..], last, kind);
    }
  }

  lemma {:induction false} ParseBodyShrinks(head: Head, queue: seq<string>, last: string, kind: Expected)
    ensures var r := ParseBody(head, queue + [last], kind);
            r.Done? && r.rest != [] ==> r.rest[|r.rest| - 1] == last && ParseBody(head, queue, kind) == Done(r.value, r.rest[..|r.rest| - 1])
    decreases |queue|, 2
  {
    match head
    case Frame(n) =>
      if queue != [] {
        assert (queue + [last])[1..] == queue[1..] + [last];
      }
      assert (queue + [last])[..|queue|] == queue;
    case Elements(n) => ParseManyShrinks(queue, last, n);
    case _ => assert (queue + [last])[..|queue|] == queue;
  }

  lemma {:induction false} ParseManyShrinks(queue: seq<string>, last: string, n: int)
    ensures var r := ParseMany(queue + [last], n);
            r.Done? && r.rest != [] ==> r.rest[|r.rest| - 1] == last && ParseMany(queue, n) == Done(r.value, r.rest[..|r.rest| - 1])
    decreases |queue|, 1
  {
    if n <= 0 {
      assert (queue + [last])[..|queue|] == queue;
    } else {
      ParseOneShrinks(queue, last, ExpectAny);
      var r := ParseOne(queue + [last], ExpectAny);
      if r.Done? && r.rest != [] {
        var rest := r.rest[..|r.rest| - 1];
        assert r.rest == rest + [last];
        ParseManyShrinks(rest, last, n - 1);
      }
    }
  }

  /** The parser's loop: what one more piece decides. */
  lemma NextPiece(from: string, e: Expected, queue: seq<string>, bytes: string, pending: Option<nat>)
    requires Cuts(from, None, e, queue, bytes, pending) && ParseOne(queue, e).Incomplete?
    requires bytes != [] && CutOne(bytes, pending, e).Piece? && !Poisoned(CutOne(bytes, pending, e).pending)
    ensures var cut := CutOne(bytes, pending, e);
            && Cuts(from, None, e, queue + [cut.piece], cut.rest, cut.pending)
            && (ParseOne(queue + [cut.piece], e).Malformed? ==> One(from, e, e).Malformed?)
            && (ParseOne(queue + [cut.piece], e).Done? ==>
                  && ParseOne(queue + [cut.piece], e).rest == []
                  && cut.pending == None
                  && One(from, e, e) == Done(ParseOne(queue + [cut.piece], e).value, cut.rest))
  {
    var cut := CutOne(bytes, pending, e);
    CutsSnoc(from, None, e, queue, bytes, pending);
    Simulates(from, e, e, queue + [cut.piece], cut.rest, cut.pending);
    ParseOneShrinks(queue, cut.piece, e);
  }

  /** What the parser keeps between attempts: a queue that is no message yet, or a spoilt length. */
  ghost predicate Live(from: string, e: Expected, queue: seq<string>, bytes: string, pending: Option<nat>) {
    if Poisoned(pending) then One(from, e, e).Malformed?
    else Cuts(from, None, e, queue, bytes, pending) && ParseOne(queue, e).Incomplete?
  }

  /** One turn of the parser's loop. */
  lemma LoopTurn(from: string, e: Expected, queue: seq<string>, bytes: string, pending: Option<nat>)
    requires Live(from, e, queue, bytes, pending) && bytes != []
    ensures var cut := CutOne(bytes, pending, e);
            && (cut.CutFails? ==> One(from, e, e).Malformed?)
            && (cut.Piece? ==>
                  var r := ParseOne(queue + [cut.piece], e);
                  && (r.Malformed? ==> One(from, e, e).Malformed?)
                  && (r.Incomplete? ==> Live(from, e, queue + [cut.piece], cut.rest, cut.pending))
                  && (r.Done? ==>
                        if Poisoned(cut.pending) then One(from, e, e).Malformed?
                        else r.rest == [] && cut.pending == None && One(from, e, e) == Done(r.value, cut.rest)))
  {
    if !Poisoned(pending) {
      Simulates(from, e, e, queue, bytes, pending);
      if CutOne(bytes, pending, e).Piece? && !Poisoned(CutOne(bytes, pending, e).pending) {
        NextPiece(from, e, queue, bytes, pending);
      }
    }
  }

  lemma LoopEnds(from: string, e: Expected, queue: seq<string>, bytes: string, pending: Option<nat>)
    requires Live(from, e, queue, bytes, pending) && Stuck(bytes, pending, e)
    ensures if Poisoned(pending) then One(from, e, e).Malformed? else One(from, e, e).Incomplete?
  {
    if !Poisoned(pending) {
      Simulates(from, e, e, queue, bytes, pending);
    }
  }
}
