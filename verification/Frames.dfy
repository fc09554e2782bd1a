/** How bytes are framed: what the grammar reads from each kind of first line, and what it refuses. */
module Frames {
  import opened Prelude
  import opened Decimal
  import opened Messages
  import opened Grammar
  import opened Commands
  import opened Replicas

  /** A line of text has no CR LF in it, nor half of the one that ends it. */
  predicate IsLine(text: string) {
    FindCrlf(text + CRLF) == Some(|text|)
  }

  lemma LineRead(c: char, text: string, rest: string, e: Expected, kind: Expected)
    requires IsLine([c] + text) && c in TYPES
    ensures One([c] + text + CRLF + rest, e, kind) == Body(Classify([c] + text), rest, e, kind)
  {
    var line := [c] + text;
    var s := line + CRLF + rest;
    FindCrlfExtends(line + CRLF, rest);
    assert s[..|line|] == line && s[|line| + 2..] == rest;
  }

  /** Texts, errors and integers are their first line. */
  lemma LinesRead(text: string, rest: string, e: Expected, kind: Expected)
    ensures IsLine("+" + text) ==> One("+" + text + CRLF + rest, e, kind) == Done(SimpleString(text), rest)
    ensures IsLine("-" + text) ==> One("-" + text + CRLF + rest, e, kind) == Done(SimpleError(text), rest)
    ensures IsLine(":" + text) ==>
              One(":" + text + CRLF + rest, e, kind) == match ParseInt(text) case Some(n) => Done(Integer(n), rest) case None => Malformed
  {
    hide FindCrlf, ParseInt;
    if IsLine("+" + text) {
      LineRead('+', text, rest, e, kind);
    }
    if IsLine("-" + text) {
      LineRead('-', text, rest, e, kind);
    }
    if IsLine(":" + text) {
      LineRead(':', text, rest, e, kind);
      assert (":" + text)[1..] == text;
    }
  }

  /**
   A frame is its payload of exactly the announced length, none included, whatever bytes it holds; two more
   bytes end it, but for a snapshot. A negative length is refused.
   */
  lemma FrameRead(length: string, data: string, end: string, rest: string, kind: Expected)
    requires IsLine("$" + length) && ParseInt(length) == Some(|data|) && |end| == 2
    ensures One("$" + length + CRLF + (data + end + rest), ExpectAny, kind) ==
            Done(if kind == ExpectSync then SyncResponse(data) else BulkString(data), rest)
    ensures data + rest != "" ==> One("$" + length + CRLF + (data + rest), ExpectSync, ExpectSync) == Done(SyncResponse(data), rest)
  {
    hide FindCrlf, ParseInt;
    LineRead('$', length, data + end + rest, ExpectAny, kind);
    LineRead('$', length, data + rest, ExpectSync, ExpectSync);
    assert ("$" + length)[1..] == length;
    assert (data + end + rest)[..|data|] == data && (data + end + rest)[|data| + 2..] == rest;
    assert (data + rest)[..|data|] == data && (data + rest)[|data|..] == rest;
  }

  /** A frame of which some bytes are missing is waited for; an empty snapshot until something follows it. */
  lemma FrameAwaited(length: string, part: string, n: nat, kind: Expected)
    requires IsLine("$" + length) && n < INT32_LIMIT && ParseInt(length) == Some(n) && |part| < n + 2
    ensures One("$" + length + CRLF + part, ExpectAny, kind) == Incomplete
    ensures |part| < n || part == "" ==> One("$" + length + CRLF + part, ExpectSync, ExpectSync) == Incomplete
  {
    hide FindCrlf, ParseInt;
    LineRead('$', length, part, ExpectAny, kind);
    LineRead('$', length, part, ExpectSync, ExpectSync);
    assert ("$" + length)[1..] == length;
  }

  /** What is refused: another first byte, a length that is no number or negative. */
  lemma Refused(s: string, length: string, rest: string, e: Expected, kind: Expected)
    ensures s != "" && s[0] !in {'+', '-', ':', '$', '*'} ==> One(s, e, kind) == Malformed
    ensures IsLine("$" + length) && (ParseInt(length).None? || ParseInt(length).value < 0) ==> One("$" + length + CRLF + rest, e, kind) == Malformed
    ensures IsLine("*" + length) && ParseInt(length).None? ==> One("*" + length + CRLF + rest, e, kind) == Malformed
  {
    hide FindCrlf, ParseInt;
    if IsLine("$" + length) {
      LineRead('$', length, rest, e, kind);
      assert ("$" + length)[1..] == length;
    }
    if IsLine("*" + length) {
      LineRead('*', length, rest, e, kind);
      assert ("*" + length)[1..] == length;
    }
  }

  /** Messages read one after the other, with nothing expected of them. */
  ghost predicate InRow(s: string, e: Expected, ms: seq<Message>, rest: string)
    decreases |ms|
  {
    if ms == [] then s == rest
    else
      var first := One(s, e, ExpectAny);
      first.Done? && first.value == ms[0] && InRow(first.rest, e, ms[1..], rest)
  }

  lemma {:induction false} ManyInRow(s: string, e: Expected, ms: seq<Message>, rest: string)
    requires InRow(s, e, ms, rest)
    ensures Many(s, e, |ms|) == Done(ms, rest)
    decreases |ms|
  {
    hide One;
    if ms != [] {
      ManyInRow(One(s, e, ExpectAny).rest, e, ms[1..], rest);
      assert [ms[0]] + ms[1..] == ms;
    }
  }

  /** An array has exactly as many elements as announced; none if that is none or a negative number. */
  lemma ArrayRead(length: string, s: string, ms: seq<Message>, rest: string, e: Expected, kind: Expected)
    requires IsLine("*" + length) && ParseInt(length).Some? && InRow(s, e, ms, rest)
    requires |ms| == if ParseInt(length).value > 0 then ParseInt(length).value else 0
    ensures One("*" + length + CRLF + s, e, kind) == Done(Array(ms), rest)
  {
    hide FindCrlf, ParseInt, InRow;
    LineRead('*', length, s, e, kind);
    assert ("*" + length)[1..] == length;
    ManyInRow(s, e, ms, rest);
    if ParseInt(length).value <= 0 {
      NoneInRow(s, e, rest);
      assert ms == [];
    }
  }

  lemma NoneInRow(s: string, e: Expected, rest: string)
    ensures InRow(s, e, [], rest) ==> s == rest
  {
  }

  lemma ThreeWords(a: string, b: string, c: string)
    ensures ToString(Array(Bulks([a, b, c]))) ==
            "*3" + CRLF + (ToString(BulkString(a)) + (ToString(BulkString(b)) + (ToString(BulkString(c)) + "")))
  {
    var ms := Bulks([a, b, c]);
    assert ms == [BulkString(a), BulkString(b), BulkString(c)];
    assert ms[1..] == [BulkString(b), BulkString(c)] && ms[1..][1..] == [BulkString(c)] && ms[1..][1..][1..] == [];
    assert Print(3) == "3" && "*" + "3" + CRLF == "*3" + CRLF;
    assert ToStrings([]) == "";
    hide Print;
    var x, y, z := ToString(BulkString(a)), ToString(BulkString(b)), ToString(BulkString(c));
    assert ToStrings([BulkString(c)]) == z + "";
    assert ToStrings(ms[1..]) == y + (z + "");
    assert ToStrings(ms) == x + (y + (z + ""));
  }

  lemma WordBytes(word: string, length: string)
    requires word != "" && Print(|word|) == length
    ensures ToString(BulkString(word)) == "$" + length + CRLF + word + CRLF
    ensures |ToString(BulkString(word))| == |length| + |word| + 5
  {
    hide Print;
  }

  /** The bytes of a GETACK, as replicas of any make expect them; it counts for 37 of every offset. */
  lemma GetackBytes()
    ensures ToString(GETACK) ==
            "*3" + CRLF + ("$" + "8" + CRLF + "REPLCONF" + CRLF + ("$" + "6" + CRLF + "GETACK" + CRLF + ("$" + "1" + CRLF + "*" + CRLF + "")))
    ensures Size(GETACK) == 37
  {
    hide ToString, Print;
    assert ["REPLCONF"] + ["GETACK", "*"] == ["REPLCONF", "GETACK", "*"];
    ThreeWords("REPLCONF", "GETACK", "*");
    SmallNumbers();
    WordBytes("REPLCONF", "8");
    WordBytes("GETACK", "6");
    WordBytes("*", "1");
  }

  /** The bytes of an ACK. */
  lemma AckBytes(offset: nat)
    ensures var digits := Print(offset);
            ToString(AckMessage(offset)) ==
            "*3" + CRLF + ("$" + "8" + CRLF + "REPLCONF" + CRLF + ("$" + "3" + CRLF + "ACK" + CRLF + ("$" + Print(|digits|) + CRLF + digits + CRLF + "")))
  {
    hide ToString, Print, Construct, AckMessage;
    var digits := Print(offset);
    AckWords(offset);
    ThreeWords("REPLCONF", "ACK", digits);
    SmallNumbers();
    PrintIsDigits(offset);
    WordBytes("REPLCONF", "8");
    WordBytes("ACK", "3");
    WordBytes(digits, Print(|digits|));
  }

  lemma AckWords(offset: nat)
    ensures AckMessage(offset) == Array(Bulks(["REPLCONF", "ACK", Print(offset)]))
  {
    hide Print;
    assert ["REPLCONF"] + ["ACK", Print(offset)] == ["REPLCONF", "ACK", Print(offset)];
  }

  /** The bytes of a SET as it is pushed to replicas, with a key and a value that can be carried. */
  lemma SetBytes(key: string, value: string)
    requires key != "" && value != ""
    ensures ToString(SetMessage(key, value, None)) ==
            "*3" + CRLF + ("$" + "3" + CRLF + "SET" + CRLF
                           + ("$" + Print(|key|) + CRLF + key + CRLF + ("$" + Print(|value|) + CRLF + value + CRLF + "")))
  {
    hide ToString, Print;
    assert ["SET", key, value] + [] == ["SET", key, value];
    ThreeWords("SET", key, value);
    SmallNumbers();
    WordBytes("SET", "3");
    WordBytes(key, Print(|key|));
    WordBytes(value, Print(|value|));
  }

  lemma SmallNumbers()
    ensures Print(8) == "8" && Print(6) == "6" && Print(3) == "3" && Print(1) == "1"
  {
  }
}
