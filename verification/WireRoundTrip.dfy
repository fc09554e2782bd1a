/**
 When reading a written message gives that message back, and exactly that.

 The condition is `Wireable`. An empty bulk string is the case that matters in practice: it is written
 as `$-1`, which the parser takes for a length.
 */
module WireRoundTrip {
  import opened Prelude
  import opened Decimal
  import opened Messages
  import opened Grammar

  /** Checkable before the call: no CR LF in a line, no empty or over-long bulk string or array. */
  predicate Wireable(m: Message) {
    match m
    case SimpleString(text) => FindCrlf(text).None?
    case SimpleError(text) => FindCrlf(text).None?
    case Integer(_) => true
    case BulkString(data) => 0 < |data| < INT32_LIMIT
    case Array(elements) => |elements| < INT32_LIMIT && forall i | 0 <= i < |elements| :: Wireable(elements[i])
    case _ => false
  }

  predicate AllWireable(ms: seq<Message>) {
    forall i | 0 <= i < |ms| :: Wireable(ms[i])
  }

  /** Wireable where the reader expects a snapshot: a snapshot with a payload, and nothing but that. */
  predicate WireableAs(m: Message, e: Expected) {
    match e
    case ExpectAny => Wireable(m)
    case ExpectSync => m.SyncResponse? && 0 < |m.data| < INT32_LIMIT
  }

  /** A line without CR LF is cut where it was written. */
  lemma LineCut(line: string, tail: string)
    requires line != [] && FindCrlf(line).None?
    ensures FindCrlf(line + CRLF + tail) == Some(|line|)
    ensures (line + CRLF + tail)[..|line|] == line
    ensures (line + CRLF + tail)[|line| + 2..] == tail
  {
    var s := line + CRLF + tail;
    assert forall i | 0 <= i < |line| :: CrlfAt(s, i) ==> CrlfAt(line, i);
    FindCrlfIs(s, |line|);
  }

  /** Numbers print without CR. */
  lemma NumberLine(c: char, n: int)
    requires c != '\r'
    ensures FindCrlf([c] + PrintInt(n)).None?
  {
    PrintIsDigits(if n < 0 then -n else n);
  }

  lemma TypedLine(c: char, text: string)
    requires c != '\r'
    ensures FindCrlf([c] + text).None? <==> FindCrlf(text).None?
  {
    var line := [c] + text;
    assert forall i | 1 <= i :: CrlfAt(line, i) <==> CrlfAt(text, i - 1);
    assert forall i | 0 <= i :: CrlfAt(text, i) <==> CrlfAt(line, i + 1);
  }

  /** A typed line that holds a CR LF is cut short. */
  lemma CutShort(c: char, text: string, tail: string)
    requires c != '\r' && FindCrlf(text).Some?
    ensures FindCrlf([c] + text + CRLF + tail).Some?
    ensures FindCrlf([c] + text + CRLF + tail).value <= |text|
  {
    TypedLine(c, text);
    var line := [c] + text;
    FindCrlfExtends(line, CRLF + tail);
    assert line + (CRLF + tail) == line + CRLF + tail;
  }

  /** Reading the line that announces a number, as a header with whatever follows. */
  lemma HeaderCut(c: char, n: int, tail: string)
    requires c != '\r'
    ensures var s := [c] + PrintInt(n) + CRLF + tail;
            var k := 1 + |PrintInt(n)|;
            s != [] && s[0] == c && FindCrlf(s) == Some(k) && s[..k] == [c] + PrintInt(n) && s[k + 2..] == tail
    ensures ([c] + PrintInt(n))[1..] == PrintInt(n)
  {
    NumberLine(c, n);
    LineCut([c] + PrintInt(n), tail);
  }

  lemma TextRoundTrips(m: Message, t: string)
    requires m.SimpleString? || m.SimpleError?
    ensures One(ToString(m) + t, ExpectAny, ExpectAny).Done? && One(ToString(m) + t, ExpectAny, ExpectAny).value == m <==> Wireable(m)
    ensures Wireable(m) ==> One(ToString(m) + t, ExpectAny, ExpectAny).rest == t
  {
    var c := if m.SimpleString? then '+' else '-';
    var line := [c] + m.text;
    assert ToString(m) + t == line + CRLF + t;
    TypedLine(c, m.text);
    if FindCrlf(m.text).None? {
      LineCut(line, t);
      assert line[1..] == m.text;
    } else {
      CutShort(c, m.text, t);
      var k := FindCrlf(line + CRLF + t).value;
      assert k >= 1;
      assert |(line + CRLF + t)[..k][1..]| == k - 1 < |m.text|;
    }
  }

  lemma BulkRoundTrips(m: Message, t: string)
    requires m.BulkString?
    ensures One(ToString(m) + t, ExpectAny, ExpectAny).Done? && One(ToString(m) + t, ExpectAny, ExpectAny).value == m <==> Wireable(m)
    ensures Wireable(m) ==> One(ToString(m) + t, ExpectAny, ExpectAny).rest == t
  {
    hide ParseInt, FindCrlf;
    if m.data == "" {
      assert PrintInt(-1) == "-1" by { assert Print(1) == "1"; }
      HeaderCut('$', -1, t);
      ParseIntPrint(-1);
      assert ToString(m) + t == ['$'] + PrintInt(-1) + CRLF + t;
    } else {
      var tail := m.data + CRLF + t;
      HeaderCut('$', |m.data|, tail);
      ParseIntPrint(|m.data|);
      assert ToString(m) + t == ['$'] + PrintInt(|m.data|) + CRLF + tail;
      assert tail[..|m.data|] == m.data;
      assert tail[|m.data| + 2..] == t;
    }
  }

  lemma SnapshotRoundTrips(data: string, t: string)
    requires 0 < |data| < INT32_LIMIT
    ensures One(ToString(SyncResponse(data)) + t, ExpectSync, ExpectSync) == Done(SyncResponse(data), t)
  {
    hide ParseInt, FindCrlf;
    var tail := data + t;
    HeaderCut('$', |data|, tail);
    ParseIntPrint(|data|);
    assert ToString(SyncResponse(data)) + t == ['$'] + PrintInt(|data|) + CRLF + tail;
    assert tail[..|data|] == data;
    assert tail[|data|..] == t;
  }

  /** A written message is read back, whatever follows it, exactly when it is wireable. */
  lemma {:induction false} RoundTripsIff(m: Message, t: string)
    ensures One(ToString(m) + t, ExpectAny, ExpectAny).Done? && One(ToString(m) + t, ExpectAny, ExpectAny).value == m <==> Wireable(m)
    ensures Wireable(m) ==> One(ToString(m) + t, ExpectAny, ExpectAny).rest == t
    decreases m, 0
  {
    match m
    case Undefined =>
    case Leave =>
    case SimpleString(_) => TextRoundTrips(m, t);
    case SimpleError(_) => TextRoundTrips(m, t);
    case Integer(value) =>
      HeaderCut(':', value, t);
      ParseIntPrint(value);
      assert ToString(m) + t == [':'] + PrintInt(value) + CRLF + t;
    case BulkString(_) => BulkRoundTrips(m, t);
    case SyncResponse(_) =>
    case Array(elements) => ArrayRoundTripsIff(elements, t);
  }

  /** A message that starts with a printed number is its body, read after that line. */
  lemma HeaderOpens(c: char, n: int, tail: string)
    requires c in TYPES
    ensures One([c] + PrintInt(n) + CRLF + tail, ExpectAny, ExpectAny) == Body(Classify([c] + PrintInt(n)), tail, ExpectAny, ExpectAny)
    ensures c == '*' && n < INT32_LIMIT && -INT32_LIMIT <= n ==> Classify([c] + PrintInt(n)) == Elements(n)
  {
    HeaderCut(c, n, tail);
    ParseIntPrint(n);
  }

  lemma {:induction false} ArrayRoundTripsIff(elements: seq<Message>, t: string)
    ensures var r := One(ToString(Array(elements)) + t, ExpectAny, ExpectAny);
            (r.Done? && r.value == Array(elements) <==> Wireable(Array(elements)))
            && (Wireable(Array(elements)) ==> r.rest == t)
    decreases elements, 2
  {
    var n := if elements == [] then -1 else |elements|;
    var tail := ToStrings(elements) + t;
    assert PrintInt(-1) == "-1" by { assert Print(1) == "1"; }
    assert ToString(Array(elements)) + t == ['*'] + PrintInt(n) + CRLF + tail;
    HeaderOpens('*', n, tail);
    if elements == [] {
      assert tail == t;
    } else if n < INT32_LIMIT {
      ListRoundTripsIff(elements, t);
    } else {
      ParseIntPrint(n);
      assert (['*'] + PrintInt(n))[1..] == PrintInt(n);
    }
  }

  lemma {:induction false} ListRoundTripsIff(ms: seq<Message>, t: string)
    ensures var r := Many(ToStrings(ms) + t, ExpectAny, |ms|);
            (r.Done? && r.value == ms <==> AllWireable(ms)) && (AllWireable(ms) ==> r.rest == t)
    decreases ms, 1
  {
    if ms == [] {
      assert ToStrings(ms) + t == t;
    } else {
      var tail := ToStrings(ms[1..]) + t;
      assert ToStrings(ms) + t == ToString(ms[0]) + tail;
      RoundTripsIff(ms[0], tail);
      ListRoundTripsIff(ms[1..], t);
      assert ms == [ms[0]] + ms[1..];
    }
  }

  /** A message the reader expects is read back. */
  lemma ExpectedRoundTrips(m: Message, e: Expected, t: string)
    requires WireableAs(m, e)
    ensures One(ToString(m) + t, e, e) == Done(m, t)
    ensures ToString(m) != ""
  {
    match e
    case ExpectAny => RoundTripsIff(m, t);
    case ExpectSync => SnapshotRoundTrips(m.data, t);
  }
}
