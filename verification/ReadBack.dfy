/**
 What the program's parser makes of what the program prints: it reads back exactly the wireable messages.

 An empty bulk string shows why the parser's state is part of this. The parser does hand it out, but is
 left with a poisoned length.
 */
module ReadBacks {
  import opened Messages
  import opened Grammar
  import opened Pieces
  import opened MessageParsers
  import opened WireRoundTrip
  import opened Commands
  import opened CommandRoundTrip

  lemma FreshParserHolds(p: MessageParser)
    requires p.AtBoundary()
    ensures p.Holds(p.buffer.bytes, ExpectAny)
  {
  }

  lemma WireableAt(ms: seq<Message>, k: nat)
    requires k < |ms|
    ensures AllWireable(ms[..k + 1]) <==> AllWireable(ms[..k]) && Wireable(ms[k])
    ensures ToStrings(ms[k..]) == ToString(ms[k]) + ToStrings(ms[k + 1..])
    ensures !Wireable(ms[k]) ==> !AllWireable(ms)
  {
    assert ms[k..][1..] == ms[k + 1..];
  }

  /**
   Reads as many messages as were written, as long as the parser gives any. All of them come back, and
   the parser stops where they end, exactly if all are wireable.
   */
  method ReadList(p: MessageParser, ghost ms: seq<Message>, count: nat, ghost tail: string) returns (read: seq<Message>)
    requires p.AtBoundary() && p.buffer.bytes == ToStrings(ms) + tail && count == |ms|
    modifies p, p.buffer, p.rawMessages
    ensures read == ms && p.AtBoundary() && p.buffer.bytes == tail <==> AllWireable(ms)
  {
    hide One, ToString, ToStrings, Wireable;
    read := [];
    ghost var good := true;
    assert ms[0..] == ms;
    while |read| < count
      invariant |read| <= count
      invariant good ==> read == ms[..|read|] && AllWireable(ms[..|read|])
      invariant good ==> p.AtBoundary() && p.buffer.bytes == ToStrings(ms[|read|..]) + tail
      invariant !good ==> !AllWireable(ms) && (Poisoned(p.pending) || !(read <= ms))
    {
      ghost var k, bytes := |read|, p.buffer.bytes;
      ghost var before := Poisoned(p.pending);
      if good {
        FreshParserHolds(p);
        WireableAt(ms, k);
        RoundTripsIff(ms[k], ToStrings(ms[k + 1..]) + tail);
        assert bytes == ToString(ms[k]) + (ToStrings(ms[k + 1..]) + tail);
      }
      var r := p.TryParse(ExpectAny, bytes);
      if !r.Got? {
        return;
      }
      if good {
        good := Wireable(ms[k]);
        assert !good && !Poisoned(p.pending) ==> r.value != ms[k];
      }
      read := read + [r.value];
    }
    assert ms[..|ms|] == ms;
    EndOfList(ms);
  }

  lemma EndOfList(ms: seq<Message>)
    ensures ToStrings(ms[|ms|..]) == "" && ms[..|ms|] == ms
  {
  }

  /** One message, whatever follows it. */
  method ReadBack(p: MessageParser, ghost m: Message, ghost tail: string) returns (r: Outcome<Message>)
    requires p.AtBoundary() && p.buffer.bytes == ToString(m) + tail
    modifies p, p.buffer, p.rawMessages
    ensures r == Got(m) && p.AtBoundary() && p.buffer.bytes == tail <==> Wireable(m)
  {
    hide One, ToString, Wireable;
    FreshParserHolds(p);
    RoundTripsIff(m, tail);
    r := p.TryParse(ExpectAny, p.buffer.bytes);
  }

  /** A command, read and parsed: it comes back exactly if it is faithful and sendable. */
  method ReadCommand(p: MessageParser, ghost c: Command, ghost tail: string) returns (r: Outcome<Message>)
    requires p.AtBoundary() && p.buffer.bytes == ToString(Construct(c)) + tail
    modifies p, p.buffer, p.rawMessages
    ensures r == Got(Construct(c)) && TryParse(r.value) == Parsed(c) && p.AtBoundary() && p.buffer.bytes == tail
            <==> Faithful(c) && Sendable(c)
  {
    hide One, ToString, Wireable, Construct, TryParse, Faithful, Sendable;
    CommandRoundTripsIff(c);
    SendableIff(c);
    r := ReadBack(p, Construct(c), tail);
  }
}
