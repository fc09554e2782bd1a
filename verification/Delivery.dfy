/**
 From bytes to messages and back over a connection: what a reader hears does not depend on how the bytes
 were split up, and it hears what was sent, in order.
 */
module Delivery {
  import opened Prelude
  import opened Messages
  import opened Grammar
  import opened Pieces
  import opened MessageParsers
  import opened WireRoundTrip

  /** What a talker expects next, given everything it has heard. */
  type Expectation = seq<Message> -> Expected

  /** A reading end: the messages heard and the bytes of an unfinished one, or a rejected stream. */
  datatype Reader = Reading(heard: seq<Message>, unread: string) | Broken(heard: seq<Message>)

  /** Hears every complete message. */
  function Drain(heard: seq<Message>, unread: string, wants: Expectation): Reader
    decreases |unread|
  {
    match One(unread, wants(heard), wants(heard))
    case Done(m, rest) => Drain(heard + [m], rest, wants)
    case Incomplete => Reading(heard, unread)
    case Malformed => Broken(heard)
  }

  function Feed(r: Reader, chunk: string, wants: Expectation): Reader {
    match r
    case Reading(heard, unread) => Drain(heard, unread + chunk, wants)
    case Broken(_) => r
  }

  function FeedAll(r: Reader, chunks: seq<string>, wants: Expectation): Reader
    decreases |chunks|
  {
    if chunks == [] then r else FeedAll(Feed(r, chunks[0], wants), chunks[1..], wants)
  }

  lemma {:induction false} DrainSplits(heard: seq<Message>, unread: string, more: string, wants: Expectation)
    ensures Drain(heard, unread + more, wants) == Feed(Drain(heard, unread, wants), more, wants)
    decreases |unread|
  {
    var e := wants(heard);
    OneExtends(unread, more, e, e);
    var r := One(unread, e, e);
    if r.Done? {
      DrainSplits(heard + [r.value], r.rest, more, wants);
    }
  }

  /** Reading a stream piece by piece hears the same as reading it at once, and keeps the same bytes. */
  lemma {:induction false} ChunksDoNotMatter(heard: seq<Message>, unread: string, chunks: seq<string>, wants: Expectation)
    ensures FeedAll(Drain(heard, unread, wants), chunks, wants) == Drain(heard, unread + Flatten(chunks), wants)
    decreases |chunks|
  {
    hide One;
    if chunks == [] {
      assert unread + "" == unread;
    } else {
      DrainSplits(heard, unread, chunks[0], wants);
      ChunksDoNotMatter(heard, unread + chunks[0], chunks[1..], wants);
      assert unread + chunks[0] + Flatten(chunks[1..]) == unread + Flatten(chunks);
    }
  }

  /** Two parsers that have drained the same unfinished bytes agree on every field. */
  lemma SameParserState(p: MessageParser, q: MessageParser, unread: string, e: Expected)
    requires p.Holds(unread, e) && Stuck(p.buffer.bytes, p.pending, e)
    requires q.Holds(unread, e) && Stuck(q.buffer.bytes, q.pending, e)
    ensures p.buffer.bytes == q.buffer.bytes && p.rawMessages.items == q.rawMessages.items && p.pending == q.pending
  {
    CutsDetermined(unread, None, e, p.rawMessages.items, p.buffer.bytes, p.pending,
                   q.rawMessages.items, q.buffer.bytes, q.pending);
  }

  // ----- A written stream is heard -----

  /** Every message is one the reader can read at its place in the stream. */
  ghost predicate Readable(ms: seq<Message>, heard: seq<Message>, wants: Expectation) {
    forall i | 0 <= i < |ms| :: WireableAs(ms[i], wants(heard + ms[..i]))
  }

  lemma ReadableTail(ms: seq<Message>, heard: seq<Message>, wants: Expectation)
    requires Readable(ms, heard, wants) && ms != []
    ensures WireableAs(ms[0], wants(heard))
    ensures Readable(ms[1..], heard + [ms[0]], wants)
  {
    assert heard + ms[..0] == heard;
    forall i | 0 <= i < |ms[1..]| ensures WireableAs(ms[1..][i], wants(heard + [ms[0]] + ms[1..][..i])) {
      assert heard + [ms[0]] + ms[1..][..i] == heard + ms[..i + 1];
      assert WireableAs(ms[i + 1], wants(heard + ms[..i + 1]));
    }
  }

  /** A message of which some bytes are missing is unfinished, never rejected. */
  lemma MissingBytes(m: Message, e: Expected, part: string, missing: string)
    requires WireableAs(m, e) && ToString(m) == part + missing && missing != ""
    ensures One(part, e, e).Incomplete?
  {
    ExpectedRoundTrips(m, e, "");
    assert ToString(m) + "" == ToString(m);
    OneExtends(part, missing, e, e);
    hide One;
  }

  lemma WholeMessageHeard(m: Message, heard: seq<Message>, tail: string, wants: Expectation)
    requires WireableAs(m, wants(heard))
    ensures Drain(heard, ToString(m) + tail, wants) == Drain(heard + [m], tail, wants)
  {
    hide One;
    ExpectedRoundTrips(m, wants(heard), tail);
  }

  lemma SplitPart(ms: seq<Message>, part: string)
    requires ms != [] && part <= ToStrings(ms)
    ensures if |ToString(ms[0])| <= |part|
            then part == ToString(ms[0]) + part[|ToString(ms[0])|..] && part[|ToString(ms[0])|..] <= ToStrings(ms[1..])
            else ToString(ms[0]) == part + ToString(ms[0])[|part|..]
  {
    hide ToString;
  }

  /** Any part of a written stream is heard as its complete messages, and the rest is kept. */
  lemma {:induction false} PartHeard(ms: seq<Message>, heard: seq<Message>, part: string, wants: Expectation) returns (k: nat, unread: string)
    requires Readable(ms, heard, wants)
    requires part <= ToStrings(ms)
    ensures k <= |ms| && Drain(heard, part, wants) == Reading(heard + ms[..k], unread)
    ensures part == ToStrings(ms[..k]) + unread
    ensures part == ToStrings(ms) ==> k == |ms|
    decreases |ms|
  {
    hide One, ToString, Readable, WireableAs;
    assert heard + ms[..0] == heard;
    k, unread := 0, part;
    if ms == [] {
      assert Drain(heard, "", wants) == Reading(heard, "") by { EmptyStream(heard, wants); }
    } else {
      ReadableTail(ms, heard, wants);
      SplitPart(ms, part);
      var first := ToString(ms[0]);
      if |first| <= |part| {
        var tail := part[|first|..];
        WholeMessageHeard(ms[0], heard, tail, wants);
        k, unread := PartHeard(ms[1..], heard + [ms[0]], tail, wants);
        assert ms[..k + 1] == [ms[0]] + ms[1..][..k];
        assert heard + [ms[0]] + ms[1..][..k] == heard + ms[..k + 1];
        ToStringsAppend([ms[0]], ms[1..][..k]);
        ToStringsOne(ms[0]);
        k := k + 1;
      } else {
        MissingBytes(ms[0], wants(heard), part, first[|part|..]);
      }
    }
  }

  /** Behind whole messages the reader is where it would be had it heard them, whatever follows. */
  lemma {:induction false} HeardThen(ms: seq<Message>, heard: seq<Message>, tail: string, wants: Expectation)
    requires Readable(ms, heard, wants)
    ensures Drain(heard, ToStrings(ms) + tail, wants) == Drain(heard + ms, tail, wants)
    decreases |ms|
  {
    hide One, ToString, Readable, WireableAs, Drain;
    if ms == [] {
      assert ToStrings(ms) + tail == tail && heard + ms == heard;
    } else {
      ReadableTail(ms, heard, wants);
      var rest := ToStrings(ms[1..]) + tail;
      assert ToStrings(ms) + tail == ToString(ms[0]) + rest;
      WholeMessageHeard(ms[0], heard, rest, wants);
      HeardThen(ms[1..], heard + [ms[0]], tail, wants);
      assert heard + [ms[0]] + ms[1..] == heard + ms;
    }
  }

  /**
   What follows decides how the reader goes on: it breaks if that is rejected, whatever comes later, and keeps
   it if it is unfinished.
   */
  lemma ThenDecides(ms: seq<Message>, heard: seq<Message>, tail: string, more: string, wants: Expectation)
    requires Readable(ms, heard, wants)
    ensures var e := wants(heard + ms);
            && (One(tail, e, e).Malformed? ==> Drain(heard, ToStrings(ms) + tail + more, wants) == Broken(heard + ms))
            && (One(tail, e, e).Incomplete? ==> Drain(heard, ToStrings(ms) + tail, wants) == Reading(heard + ms, tail))
  {
    hide One, ToStrings, Readable;
    var e := wants(heard + ms);
    HeardThen(ms, heard, tail, wants);
    HeardThen(ms, heard, tail + more, wants);
    assert ToStrings(ms) + tail + more == ToStrings(ms) + (tail + more);
    OneExtends(tail, more, e, e);
  }

  lemma EmptyStream(heard: seq<Message>, wants: Expectation)
    ensures Drain(heard, "", wants) == Reading(heard, "")
  {
  }

  // ----- A connection: write buffer, bytes in flight, reader -----

  /**
   One direction of a connection. `open` is false once the reader met the end of the stream. `sent`, `taken`
   and `dropped` are history: what was written, the bytes the reader kept, the bytes it lost at the end.
   */
  datatype Link = Link(sent: seq<Message>, writeBuffer: string, wire: string, open: bool, taken: string, dropped: string, reader: Reader)

  const NewLink := Link([], "", "", true, "", "", Reading([], ""))

  datatype LinkStep = Send(m: Message) | Write(count: nat) | Read(count: nat) | ReadEnd(count: nat)

  predicate LinkEnabled(l: Link, s: LinkStep) {
    match s
    case Send(_) => true
    case Write(n) => n <= |l.writeBuffer|
    case Read(n) => l.open && n <= |l.wire|
    case ReadEnd(n) => l.open && n <= |l.wire|
  }

  /**
   The sender appends, the system accepts some bytes, the receiver reads some and drains. A read that
   ends with the end of the stream or a reset closes the connection before anything in it is parsed.
   */
  function LinkTake(l: Link, s: LinkStep, wants: Expectation): Link
    requires LinkEnabled(l, s)
  {
    match s
    case Send(m) => l.(sent := l.sent + [m], writeBuffer := l.writeBuffer + ToString(m))
    case Write(n) => l.(writeBuffer := l.writeBuffer[n..], wire := l.wire + l.writeBuffer[..n])
    case Read(n) => l.(wire := l.wire[n..], taken := l.taken + l.wire[..n], reader := Feed(l.reader, l.wire[..n], wants))
    case ReadEnd(n) => l.(wire := l.wire[n..], dropped := l.wire[..n], open := false)
  }

  /** The connection after a list of steps, if each was possible when it was taken. */
  function LinkRun(steps: seq<LinkStep>, wants: Expectation): Option<Link>
    decreases |steps|
  {
    if steps == [] then Some(NewLink)
    else
      match LinkRun(steps[..|steps| - 1], wants)
      case Some(before) =>
        if LinkEnabled(before, steps[|steps| - 1]) then Some(LinkTake(before, steps[|steps| - 1], wants)) else None
      case None => None
  }

  /** Where every byte written is. */
  ghost predicate Conserved(l: Link, wants: Expectation) {
    && l.taken + l.dropped + l.wire + l.writeBuffer == ToStrings(l.sent)
    && l.reader == Drain([], l.taken, wants)
    && (l.open ==> l.dropped == "")
  }

  /** Bytes are conserved on every run, and the reader is at the bytes it has kept. */
  lemma {:induction false} LinkConserves(steps: seq<LinkStep>, wants: Expectation, l: Link)
    requires LinkRun(steps, wants) == Some(l)
    ensures l.taken + l.dropped + l.wire + l.writeBuffer == ToStrings(l.sent)
    ensures l.reader == Drain([], l.taken, wants)
    ensures l.open ==> l.dropped == ""
    decreases |steps|
  {
    hide One, ToString, Drain, LinkTake, LinkEnabled;
    EmptyStream([], wants);
    if steps != [] {
      var before := LinkRun(steps[..|steps| - 1], wants).value;
      LinkConserves(steps[..|steps| - 1], wants, before);
      StepConserves(before, steps[|steps| - 1], wants);
    }
  }

  lemma StepConserves(l: Link, s: LinkStep, wants: Expectation)
    requires LinkEnabled(l, s) && Conserved(l, wants)
    ensures Conserved(LinkTake(l, s, wants), wants)
  {
    hide One, ToString, ToStrings, Drain;
    match s
    case Send(m) =>
      ToStringsAppend(l.sent, [m]);
      ToStringsOne(m);
      Longer(l.taken + l.dropped + l.wire, l.writeBuffer, ToString(m));
    case Write(n) =>
      Moved(l.taken + l.dropped, l.wire, l.writeBuffer, n);
    case Read(n) =>
      DrainSplits([], l.taken, l.wire[..n], wants);
      assert l.taken + l.dropped == l.taken && l.taken + l.wire[..n] + l.dropped == l.taken + l.wire[..n];
      Moved("", l.taken, l.wire, n);
      assert "" + l.taken + l.wire == l.taken + l.wire && "" + (l.taken + l.wire[..n]) + l.wire[n..] == l.taken + l.wire[..n] + l.wire[n..];
    case ReadEnd(n) =>
      assert l.taken + l.dropped == l.taken;
      Moved(l.taken, "", l.wire, n);
      assert l.taken + "" == l.taken && "" + l.wire[..n] == l.wire[..n];
  }

  lemma Longer(a: string, b: string, c: string)
    ensures a + (b + c) == a + b + c
  {
  }

  /** Bytes that move from one place to the place before it. */
  lemma Moved(a: string, b: string, c: string, n: nat)
    requires n <= |c|
    ensures a + (b + c[..n]) + c[n..] == a + b + c
  {
    assert c[..n] + c[n..] == c;
  }

  /** No read that met the end of the stream brought bytes. */
  predicate EndsQuietly(steps: seq<LinkStep>) {
    forall i | 0 <= i < |steps| && steps[i].ReadEnd? :: steps[i].count == 0
  }

  /** Bytes are lost exactly by such a read. */
  lemma {:induction false} DroppedNoneIff(steps: seq<LinkStep>, wants: Expectation, l: Link)
    requires LinkRun(steps, wants) == Some(l)
    ensures l.dropped == "" <==> EndsQuietly(steps)
    ensures l.open ==> EndsQuietly(steps)
    decreases |steps|
  {
    hide One, ToString, Drain;
    if steps != [] {
      var init, last := steps[..|steps| - 1], steps[|steps| - 1];
      DroppedNoneIff(init, wants, LinkRun(init, wants).value);
      assert forall i | 0 <= i < |init| :: steps[i] == init[i];
      assert EndsQuietly(steps) <==> EndsQuietly(init) && (last.ReadEnd? ==> last.count == 0);
    }
  }

  /**
   End-to-end delivery: on every run the messages heard are the first messages sent. Once the write buffer
   and the wire are empty all of them were heard, exactly if the read that met the end of the stream, if
   there was one, brought no bytes.
   */
  lemma EndToEnd(steps: seq<LinkStep>, wants: Expectation, l: Link)
    requires LinkRun(steps, wants) == Some(l)
    requires Readable(l.sent, [], wants)
    ensures l.reader.Reading? && l.reader.heard <= l.sent
    ensures ToStrings(l.reader.heard) + l.reader.unread + l.dropped + l.wire + l.writeBuffer == ToStrings(l.sent)
    ensures l.wire == "" && l.writeBuffer == "" ==> (l.reader == Reading(l.sent, "") <==> EndsQuietly(steps))
    ensures l.open ==> EndsQuietly(steps)
  {
    hide One, Drain, ToString, LinkRun, Readable, EndsQuietly;
    LinkConserves(steps, wants, l);
    DroppedNoneIff(steps, wants, l);
    var k, unread := PartHeard(l.sent, [], l.taken, wants);
    assert [] + l.sent[..k] == l.sent[..k];
    assert l.sent[..|l.sent|] == l.sent;
    assert |ToStrings(l.sent)| == |l.taken| + |l.dropped| + |l.wire| + |l.writeBuffer|;
    assert |l.taken| == |ToStrings(l.sent[..k])| + |unread|;
    if l.wire == "" && l.writeBuffer == "" && l.dropped == "" {
      assert l.taken + "" + "" + "" == l.taken;
    }
  }

  /** A sender that closes right after its only message: the read that brings it meets the end, and it is lost. */
  lemma LastIsLost(m: Message, wants: Expectation)
    ensures var all := |ToString(m)|;
            LinkRun([Send(m), Write(all), ReadEnd(all)], wants) ==
            Some(Link([m], "", "", false, "", ToString(m), Reading([], "")))
  {
    hide ToString, Drain;
    var all := |ToString(m)|;
    var steps := [Send(m), Write(all), ReadEnd(all)];
    assert steps[..2][..1] == [Send(m)] && steps[..1][..0] == [] && [] + [m] == [m];
    assert "" + ToString(m) == ToString(m) && ToString(m)[..all] == ToString(m) && ToString(m)[all..] == "";
    var one := NewLink.(sent := [m], writeBuffer := ToString(m));
    assert LinkRun(steps[..1], wants) == Some(one) by {
      assert steps[..1][0] == Send(m) && LinkRun([], wants) == Some(NewLink);
    }
    var two := NewLink.(sent := [m], wire := ToString(m));
    assert LinkTake(one, Write(all), wants) == two;
    assert LinkRun(steps[..2], wants) == Some(two) by {
      assert steps[..2][1] == Write(all) && steps[..2][..1] == steps[..1];
    }
    assert LinkTake(two, ReadEnd(all), wants) == Link([m], "", "", false, "", ToString(m), Reading([], ""));
  }
}
