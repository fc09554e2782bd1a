/** The resumable parser over shared buffers, proved to read exactly what the grammar reads. */
module MessageParsers {
  import opened Prelude
  import opened Decimal
  import opened Messages
  import opened Grammar
  import opened Pieces

  /** The bytes a connection has received and the parser has not cut yet. */
  class CharBuffer {
    var bytes: string

    constructor ()
      ensures bytes == ""
    {
      bytes := "";
    }
  }

  /** The raw pieces that do not make a message yet. */
  class PieceQueue {
    var items: seq<string>

    constructor ()
      ensures items == []
    {
      items := [];
    }
  }

  /** A result, nothing yet, or an escaping exception (also used where the program is undefined). */
  datatype Outcome<+T> = Got(value: T) | NotYet | Failed

  /** Puts parsed elements in front of what parsing the remaining ones gives. */
  ghost function Prepend(ms: seq<Message>, r: Parse<seq<Message>, seq<string>>): Parse<seq<Message>, seq<string>> {
    match r
    case Done(more, rest) => Done(ms + more, rest)
    case Incomplete => Incomplete
    case Malformed => Malformed
  }

  lemma PrependNothing(r: Parse<seq<Message>, seq<string>>)
    ensures Prepend([], r) == r
  {
    if r.Done? {
      assert [] + r.value == r.value;
    }
  }

  lemma PrependOne(ms: seq<Message>, m: Message, r: Parse<seq<Message>, seq<string>>)
    ensures Prepend(ms, Prepend([m], r)) == Prepend(ms + [m], r)
  {
    if r.Done? {
      assert ms + ([m] + r.value) == ms + [m] + r.value;
    }
  }

  class ParseHelper {
    const buffer: PieceQueue
    var ungetStack: seq<string>

    constructor (buffer: PieceQueue)
      ensures this.buffer == buffer && ungetStack == []
    {
      this.buffer := buffer;
      ungetStack := [];
    }

    /** Taken pieces, oldest first, then the queue. */
    ghost function Held(): seq<string>
      reads this, buffer
    {
      ungetStack + buffer.items
    }

    method Get() returns (piece: string)
      requires buffer.items != []
      modifies this, buffer
      ensures piece == old(buffer.items)[0]
      ensures buffer.items == old(buffer.items)[1..]
      ensures ungetStack == old(ungetStack) + [piece]
    {
      piece := buffer.items[0];
      buffer.items := buffer.items[1..];
      ungetStack := ungetStack + [piece];
    }

    method Unget()
      requires ungetStack != []
      modifies this, buffer
      ensures ungetStack == old(ungetStack)[..|old(ungetStack)| - 1]
      ensures Held() == old(Held())
    {
      buffer.items := [ungetStack[|ungetStack| - 1]] + buffer.items;
      ungetStack := ungetStack[..|ungetStack| - 1];
    }

    method UngetAll()
      modifies this, buffer
      ensures ungetStack == [] && buffer.items == old(Held())
    {
      while |ungetStack| > 0
        invariant Held() == old(Held())
      {
        Unget();
      }
    }

    /**
     Parses one message from the queue. A failed attempt at any depth puts every piece back; nothing
     is lost or reordered unless an exception escapes.
     */
    method Parse(kind: Expected) returns (r: Outcome<Message>)
      modifies this, buffer
      ensures r.Got? ==> ParseOne(old(buffer.items), kind) == Done(r.value, buffer.items) && Held() == old(Held())
      ensures r.NotYet? ==> ParseOne(old(buffer.items), kind).Incomplete? && Held() == old(Held())
      ensures r.NotYet? && old(buffer.items) != [] ==> ungetStack == [] && buffer.items == old(Held())
      ensures r.Failed? ==> ParseOne(old(buffer.items), kind).Malformed?
      decreases |buffer.items|, 0
    {
      if |buffer.items| == 0 {
        return NotYet;
      }
      var raw := Get();
      if raw == "" {
        return Failed;
      }
      if raw[0] == '+' {
        return Got(SimpleString(raw[1..]));
      } else if raw[0] == '-' {
        return Got(SimpleError(raw[1..]));
      } else if raw[0] == ':' {
        var value := ParseInt(raw[1..]);
        return if value.Some? then Got(Integer(value.value)) else Failed;
      } else if raw[0] == '$' {
        var length := ParseInt(raw[1..]);
        if length.None? {
          return Failed;
        }
        if length.value == -1 {
          return Got(Payload("", kind));
        }
        if |buffer.items| == 0 {
          UngetAll();
          return NotYet;
        }
        var data := Get();
        return Got(Payload(data, kind));
      } else if raw[0] == '*' {
        var length := ParseInt(raw[1..]);
        if length.None? {
          return Failed;
        }
        if length.value == -1 {
          assert ParseMany(buffer.items, -1) == Done([], buffer.items);
          return Got(Array([]));
        }
        r := ParseElements(length.value);
      } else {
        return Failed;
      }
    }

    method ParseElements(length: int32) returns (r: Outcome<Message>)
      modifies this, buffer
      ensures r.Got? ==> r.value.Array? && ParseMany(old(buffer.items), length) == Done(r.value.elements, buffer.items)
      ensures r.Got? ==> Held() == old(Held())
      ensures r.NotYet? ==> ParseMany(old(buffer.items), length).Incomplete? && Held() == old(Held()) && ungetStack == []
      ensures r.Failed? ==> ParseMany(old(buffer.items), length).Malformed?
      decreases |buffer.items|, 1
    {
      var messages := [];
      var i := 0;
      PrependNothing(ParseMany(buffer.items, length));
      while i < length
        invariant Held() == old(Held())
        invariant |buffer.items| <= |old(buffer.items)|
        invariant ParseMany(old(buffer.items), length) == Prepend(messages, ParseMany(buffer.items, length - i))
      {
        ghost var before := ParseMany(buffer.items, length - i);
        var element := Parse(ExpectAny);
        if element.Failed? {
          return Failed;
        }
        if element.NotYet? {
          UngetAll();
          return NotYet;
        }
        assert before == Prepend([element.value], ParseMany(buffer.items, length - i - 1));
        PrependOne(messages, element.value, ParseMany(buffer.items, length - i - 1));
        messages := messages + [element.value];
        i := i + 1;
      }
      assert ParseMany(buffer.items, length - i) == Done([], buffer.items);
      assert messages + [] == messages;
      r := Got(Array(messages));
    }
  }

  class MessageParser {
    const buffer: CharBuffer
    const rawMessages: PieceQueue
    var pending: Option<nat>

    constructor (buffer: CharBuffer)
      ensures this.buffer == buffer && fresh(rawMessages)
      ensures AtBoundary()
    {
      this.buffer := buffer;
      this.rawMessages := new PieceQueue();
      this.pending := None;
    }

    /** Nothing has been cut from the next message. */
    ghost predicate AtBoundary()
      reads this, rawMessages
    {
      rawMessages.items == [] && pending == None
    }

    /** The parser has received `unread` since the last message, and it is not a message yet. */
    ghost predicate Holds(unread: string, e: Expected)
      reads this, buffer, rawMessages
    {
      !Poisoned(pending) && Live(unread, e, rawMessages.items, buffer.bytes, pending)
    }

    /** Strictly less after every piece. */
    ghost function Work(): nat
      reads this, buffer
    {
      2 * |buffer.bytes| + if pending.Some? then 1 else 0
    }

    method GetNextRawMessage(expected: Expected) returns (r: Outcome<()>)
      requires buffer.bytes != []
      modifies this, buffer, rawMessages
      ensures var cut := CutOne(old(buffer.bytes), old(pending), expected);
              match cut
              case Piece(piece, rest, next) =>
                r.Got? && buffer.bytes == rest && pending == next && rawMessages.items == old(rawMessages.items) + [piece]
              case NoPiece => r.NotYet? && unchanged(this, buffer, rawMessages)
              case CutFails => r.Failed?
      ensures r.Got? ==> Work() < old(Work())
      ensures old(Poisoned(pending)) ==> !r.Got? && Poisoned(pending)
    {
      if pending.Some? {
        var length := pending.value;
        if |buffer.bytes| < (length + Delim(expected)) % UINT64_LIMIT {
          return NotYet;
        }
        if length >= UINT64_LIMIT / 2 || |buffer.bytes| < length + Delim(expected) {
          return Failed;
        }
        rawMessages.items := rawMessages.items + [buffer.bytes[..length]];
        buffer.bytes := buffer.bytes[length + Delim(expected)..];
        pending := None;
        return Got(());
      }

      var kind := buffer.bytes[0];
      if kind !in TYPES {
        return Failed;
      }
      var found := FindCrlf(buffer.bytes);
      if found.None? {
        return NotYet;
      }
      var line := buffer.bytes[..found.value];
      rawMessages.items := rawMessages.items + [line];
      buffer.bytes := buffer.bytes[found.value + 2..];
      if kind != '$' {
        return Got(());
      }
      var length := ParseInt(line[1..]);
      if length.None? {
        return Failed;
      }
      pending := Some(ToSizeT(length.value));
      r := Got(());
    }

    /**
     Reads the next message out of everything received since the last one, or says that there is none
     yet and loses nothing. When the grammar rejects the bytes, an exception escapes or the parser is
     left with a poisoned length; then it never reads a message again.
     */
    method TryParse(expected: Expected, ghost unread: string) returns (r: Outcome<Message>)
      modifies this, buffer, rawMessages
      ensures old(Holds(unread, expected)) ==>
                match One(unread, expected, expected)
                case Done(m, rest) => r == Got(m) && AtBoundary() && buffer.bytes == rest
                case Incomplete => r == NotYet && Holds(unread, expected) && Stuck(buffer.bytes, pending, expected)
                case Malformed => r.Failed? || Poisoned(pending)
      ensures old(Poisoned(pending)) ==> !r.Got? && Poisoned(pending)
      ensures r.Got? ==> Work() < old(Work())
    {
      hide One;
      ghost var live := Holds(unread, expected);
      var helper := new ParseHelper(rawMessages);
      while |buffer.bytes| > 0
        invariant helper.ungetStack == []
        invariant live ==> Live(unread, expected, rawMessages.items, buffer.bytes, pending)
        invariant Work() <= old(Work())
        invariant old(Poisoned(pending)) ==> Poisoned(pending)
        decreases Work()
      {
        if live {
          LoopTurn(unread, expected, rawMessages.items, buffer.bytes, pending);
        }
        var cut := GetNextRawMessage(expected);
        if cut.Failed? {
          return Failed;
        }
        if cut.NotYet? {
          break;
        }
        assert helper.Held() == rawMessages.items;
        r := helper.Parse(expected);
        if !r.NotYet? {
          return;
        }
      }
      if live {
        LoopEnds(unread, expected, rawMessages.items, buffer.bytes, pending);
      }
      r := NotYet;
    }
  }
}
