/** Stream entry ids, their order, and their text forms. */
module StreamIds {
  import opened Prelude
  import opened Decimal

  datatype StreamId = StreamId(ms: uint64, id: uint64) {
    predicate Less(other: StreamId) {
      ms < other.ms || (ms == other.ms && id < other.id)
    }

    predicate AtMost(other: StreamId) {
      this == other || Less(other)
    }

    predicate IsNull() {
      ms == 0 && id == 0
    }
  }

  const NULL_ID := StreamId(0, 0)

  /** The id an XADD asks for: a full one, `ms-*`, or `*`. */
  datatype InputStreamId = FullId(id: StreamId) | IdWildcard(ms: uint64) | GeneralWildcard

  /** An XRANGE bound: `-`, `+`, or an id. */
  datatype BoundStreamId = LeftUnbound | RightUnbound | Bound(id: StreamId)

  /** An XREAD position: `$`, or an id to read after. */
  datatype ReadStreamId = NextExpected | After(id: StreamId)

  predicate DistinctKeys(request: seq<(string, ReadStreamId)>) {
    forall i, j | 0 <= i < j < |request| :: request[i].0 != request[j].0
  }

  function FindDash(s: string): (r: Option<nat>)
    ensures r.Some? ==> r.value < |s| && s[r.value] == '-' && forall i | 0 <= i < r.value :: s[i] != '-'
    ensures r.None? ==> '-' !in s
  {
    if s == [] then None
    else if s[0] == '-' then Some(0)
    else match FindDash(s[1..]) case Some(k) => Some(k + 1) case None => None
  }

  // The parsers; None stands for the parse-error exception.

  function ParseStreamId(s: string): Option<StreamId> {
    if s == "" then None
    else if s == "0" then Some(NULL_ID)
    else
      match FindDash(s)
      case None =>
        (match ParseUInt64(s) case Some(ms) => Some(StreamId(ms, 0)) case None => None)
      case Some(p) =>
        match ParseUInt64(s[..p])
        case Some(ms) =>
          (match ParseUInt64(s[p + 1..]) case Some(id) => Some(StreamId(ms, id)) case None => None)
        case None => None
  }

  function ParseInputStreamId(s: string): Option<InputStreamId> {
    if s == "0" then Some(FullId(NULL_ID))
    else if s == "*" then Some(GeneralWildcard)
    else
      match FindDash(s)
      case None => None
      case Some(p) =>
        match ParseUInt64(s[..p])
        case Some(ms) =>
          if s[p + 1..] == "*" then Some(IdWildcard(ms))
          else (match ParseUInt64(s[p + 1..]) case Some(id) => Some(FullId(StreamId(ms, id))) case None => None)
        case None => None
  }

  function ParseBoundStreamId(s: string): Option<BoundStreamId> {
    if s == "-" then Some(LeftUnbound)
    else if s == "+" then Some(RightUnbound)
    else match ParseStreamId(s) case Some(id) => Some(Bound(id)) case None => None
  }

  function ParseReadStreamId(s: string): Option<ReadStreamId> {
    if s == "$" then Some(NextExpected)
    else match ParseStreamId(s) case Some(id) => Some(After(id)) case None => None
  }

  function StreamIdText(id: StreamId): string {
    Print(id.ms) + "-" + Print(id.id)
  }

  function InputStreamIdText(id: InputStreamId): string {
    match id
    case GeneralWildcard => "*"
    case IdWildcard(ms) => Print(ms) + "-*"
    case FullId(full) => StreamIdText(full)
  }

  function BoundStreamIdText(id: BoundStreamId): string {
    match id
    case LeftUnbound => "-"
    case RightUnbound => "+"
    case Bound(full) => StreamIdText(full)
  }

  function ReadStreamIdText(id: ReadStreamId): string {
    match id
    case NextExpected => "$"
    case After(full) => StreamIdText(full)
  }

  lemma FirstDash(ms: nat, tail: string)
    ensures var s := Print(ms) + "-" + tail;
            FindDash(s) == Some(|Print(ms)|) && s[..|Print(ms)|] == Print(ms) && s[|Print(ms)| + 1..] == tail
    ensures |Print(ms)| >= 1
  {
    hide Print, Value;
    PrintIsDigits(ms);
    var s := Print(ms) + "-" + tail;
    assert s[|Print(ms)|] == '-';
    assert forall i | 0 <= i < |Print(ms)| :: s[i] == Print(ms)[i] && IsDigit(s[i]);
    var r := FindDash(s);
    assert '-' in s;
    assert r.Some?;
    assert !(r.value < |Print(ms)|);
    assert !(r.value > |Print(ms)|);
  }

  lemma ParsePrinted(n: uint64)
    ensures ParseUInt64(Print(n)) == Some(n)
    ensures Print(n) != "*"
  {
    ParseUInt64Print(n, "");
    assert Print(n) + "" == Print(n);
    PrintIsDigits(n);
  }

  /** A printed id is read back, for every pair of 64-bit numbers. */
  lemma StreamIdRoundTrips(id: StreamId)
    ensures ParseStreamId(StreamIdText(id)) == Some(id)
    ensures StreamIdText(id) !in {"-", "+", "$", "*", "0", ""}
  {
    hide ParseUInt64, Print, FindDash;
    FirstDash(id.ms, Print(id.id));
    ParsePrinted(id.ms);
    ParsePrinted(id.id);
    PrintIsDigits(id.id);
    assert |StreamIdText(id)| >= 3;
  }

  lemma InputStreamIdRoundTrips(id: InputStreamId)
    ensures ParseInputStreamId(InputStreamIdText(id)) == Some(id)
  {
    hide ParseUInt64, Print, FindDash;
    match id
    case GeneralWildcard =>
    case IdWildcard(ms) =>
      assert Print(ms) + "-*" == Print(ms) + "-" + "*";
      FirstDash(ms, "*");
      ParsePrinted(ms);
    case FullId(full) =>
      StreamIdRoundTrips(full);
      FirstDash(full.ms, Print(full.id));
      ParsePrinted(full.ms);
      ParsePrinted(full.id);
  }

  lemma BoundStreamIdRoundTrips(id: BoundStreamId)
    ensures ParseBoundStreamId(BoundStreamIdText(id)) == Some(id)
  {
    hide ParseStreamId, StreamIdText;
    if id.Bound? {
      StreamIdRoundTrips(id.id);
    }
  }

  lemma ReadStreamIdRoundTrips(id: ReadStreamId)
    ensures ParseReadStreamId(ReadStreamIdText(id)) == Some(id)
  {
    hide ParseStreamId, StreamIdText;
    if id.After? {
      StreamIdRoundTrips(id.id);
    }
  }

  // ----- Ids without a sequence number, and other texts -----

  lemma NoDash(s: string)
    requires '-' !in s
    ensures FindDash(s) == None
  {
  }

  /** An id given by its time alone, in any spelling of the number, has sequence number 0. */
  lemma TimeAlone(s: string, plus: string, digits: string, tail: string)
    requires Reads(s, plus, digits, tail) && '-' !in s
    ensures var id := if digits != "" && Value(digits) < UINT64_LIMIT then Some(StreamId(Value(digits), 0)) else None;
            && ParseStreamId(s) == id
            && ParseBoundStreamId(s) == (if s == "+" then Some(RightUnbound) else if id.Some? then Some(Bound(id.value)) else None)
            && ParseReadStreamId(s) == (if s == "$" then Some(NextExpected) else if id.Some? then Some(After(id.value)) else None)
  {
    hide ParseUInt64, Value;
    NoDash(s);
    ParseUInt64Reads(s, plus, digits, tail);
    if s == "0" {
      ZeroReads(plus, digits, tail);
    }
    if s == "" {
      assert digits == "";
    }
  }

  lemma ZeroReads(plus: string, digits: string, tail: string)
    requires Reads("0", plus, digits, tail)
    ensures digits == "0" && Value(digits) == 0
  {
    assert |plus| + |digits| + |tail| == 1;
    assert "0"[0] == (plus + digits + tail)[0];
    assert digits[..0] == [];
  }

  /** So `n` is read as `n-0`, for every 64-bit number, and `0` as 0-0. */
  lemma TimeIsRead(n: uint64)
    ensures ParseStreamId(Print(n)) == Some(StreamId(n, 0))
    ensures ParseBoundStreamId(Print(n)) == Some(Bound(StreamId(n, 0)))
    ensures ParseReadStreamId(Print(n)) == Some(After(StreamId(n, 0)))
    ensures Print(0) == "0"
  {
    hide Value, ParseStreamId;
    PrintIsDigits(n);
    var s := Print(n);
    assert forall c | c in s :: IsDigit(c);
    assert Reads(s, "", s, "") by {
      assert s == "" + s + "";
    }
    TimeAlone(s, "", s, "");
    assert s[0] in s;
  }

  /** An id with a dash is read as the two numbers before and behind the first one. */
  lemma BothAreRead(front: string, back: string)
    requires '-' !in front
    ensures var ms, id := ParseUInt64(front), ParseUInt64(back);
            && ParseStreamId(front + "-" + back) == (if ms.Some? && id.Some? then Some(StreamId(ms.value, id.value)) else None)
            && ParseInputStreamId(front + "-" + back) ==
               (if ms.None? then None else if back == "*" then Some(IdWildcard(ms.value))
                else if id.Some? then Some(FullId(StreamId(ms.value, id.value))) else None)
  {
    hide ParseUInt64, FindDash;
    var s := front + "-" + back;
    assert s[|front|] == '-';
    assert '-' in s && forall i | 0 <= i < |front| :: s[i] == front[i] && front[i] in front;
    assert FindDash(s) == Some(|front|);
    assert s[..|front|] == front && s[|front| + 1..] == back;
  }

  /** An XADD takes no id given by its time alone, but for `0`. */
  lemma AddNeedsBoth(s: string)
    requires '-' !in s
    ensures ParseInputStreamId(s) == if s == "0" then Some(FullId(NULL_ID)) else if s == "*" then Some(GeneralWildcard) else None
  {
    NoDash(s);
  }
}
