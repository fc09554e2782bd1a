/**
 A one-pass recursive grammar for RESP: the meaning the resumable parser is held to.

 `One` reads a single message from the front of a byte string. It says how the bytes are framed, with
 no queue of pieces, no retry and no pushing back.
 */
module Grammar {
  import opened Prelude
  import opened Decimal
  import opened Messages

  /** Reading a `T` from the front of an `R`: done with a remainder, more input is needed, or never. */
  datatype Parse<T, R> = Done(value: T, rest: R) | Incomplete | Malformed

  const TYPES := {'+', '-', ':', '$', '*'}

  predicate CrlfAt(s: string, i: int) {
    0 <= i && i + 1 < |s| && s[i] == '\r' && s[i + 1] == '\n'
  }

  /** The position of the first CR LF. */
  function FindCrlf(s: string): (r: Option<nat>)
    ensures r.Some? ==> CrlfAt(s, r.value) && forall i | 0 <= i < r.value :: !CrlfAt(s, i)
    ensures r.None? ==> forall i :: !CrlfAt(s, i)
  {
    if |s| < 2 then None
    else if CrlfAt(s, 0) then Some(0)
    else
      match FindCrlf(s[1..])
      case Some(k) =>
        assert forall i | 1 <= i <= k :: CrlfAt(s, i) == CrlfAt(s[1..], i - 1);
        Some(k + 1)
      case None =>
        assert forall i | 1 <= i :: CrlfAt(s, i) ==> CrlfAt(s[1..], i - 1);
        None
  }

  /** A snapshot frame has no CR LF after its payload, every other `$` frame has. */
  function Delim(e: Expected): nat {
    if e.ExpectSync? then 0 else 2
  }

  /** The message a `$` payload becomes. */
  function Payload(data: string, kind: Expected): Message {
    if kind.ExpectSync? then SyncResponse(data) else BulkString(data)
  }

  /** What the first line of a message announces. */
  datatype Head = Whole(message: Message) | Frame(length: int32) | Elements(count: int32) | Bad

  function Classify(line: string): Head
    requires line != []
  {
    match line[0]
    case '+' => Whole(SimpleString(line[1..]))
    case '-' => Whole(SimpleError(line[1..]))
    case ':' => (match ParseInt(line[1..]) case Some(v) => Whole(Integer(v)) case None => Bad)
    case '$' => (match ParseInt(line[1..]) case Some(n) => Frame(n) case None => Bad)
    case '*' => (match ParseInt(line[1..]) case Some(n) => Elements(n) case None => Bad)
    case _ => Bad
  }

  /**
   One message. The expectation `e` frames every `$` payload inside it; only the outermost message takes
   its `kind` from it, array elements are read with no expectation.
   */
  function One(s: string, e: Expected, kind: Expected): (r: Parse<Message, string>)
    ensures r.Done? ==> |r.rest| < |s|
    decreases |s|, 0
  {
    if s == [] then Incomplete
    else if s[0] !in TYPES then Malformed
    else
      match FindCrlf(s)
      case None => Incomplete
      case Some(k) => Body(Classify(s[..k]), s[k + 2..], e, kind)
  }

  /** What follows the first line. */
  function Body(head: Head, rest: string, e: Expected, kind: Expected): (r: Parse<Message, string>)
    ensures r.Done? ==> |r.rest| <= |rest|
    decreases |rest|, 2
  {
    match head
    case Whole(m) => Done(m, rest)
    case Frame(n) =>
      if n < 0 then Malformed
      else if rest == [] || |rest| < n + Delim(e) then Incomplete
      else Done(Payload(rest[..n], kind), rest[n + Delim(e)..])
    case Elements(n) =>
      (match Many(rest, e, n)
       case Done(ms, r) => Done(Array(ms), r)
       case Incomplete => Incomplete
       case Malformed => Malformed)
    case Bad => Malformed
  }

  /** `n` messages in a row; none when `n` is not positive. */
  function Many(s: string, e: Expected, n: int): (r: Parse<seq<Message>, string>)
    ensures r.Done? ==> |r.rest| <= |s|
    decreases |s|, 1
  {
    if n <= 0 then Done([], s)
    else
      match One(s, e, ExpectAny)
      case Done(m, rest) =>
        (match Many(rest, e, n - 1)
         case Done(ms, r) => Done([m] + ms, r)
         case Incomplete => Incomplete
         case Malformed => Malformed)
      case Incomplete => Incomplete
      case Malformed => Malformed
  }

  // ----- Later input never changes what earlier input already decided -----

  /** A CR LF with none before it is the first one. */
  lemma FindCrlfIs(s: string, k: nat)
    requires CrlfAt(s, k) && forall i | 0 <= i < k :: !CrlfAt(s, i)
    ensures FindCrlf(s) == Some(k)
  {
    assert FindCrlf(s).Some?;
  }

  lemma FindCrlfExtends(s: string, t: string)
    requires FindCrlf(s).Some?
    ensures FindCrlf(s + t) == FindCrlf(s)
  {
    var k := FindCrlf(s).value;
    assert forall i | 0 <= i <= k :: CrlfAt(s + t, i) == CrlfAt(s, i);
    FindCrlfIs(s + t, k);
  }

  lemma {:induction false} OneExtends(s: string, t: string, e: Expected, kind: Expected)
    ensures One(s, e, kind).Done? ==> One(s + t, e, kind) == Done(One(s, e, kind).value, One(s, e, kind).rest + t)
    ensures One(s, e, kind).Malformed? ==> One(s + t, e, kind).Malformed?
    decreases |s|, 0
  {
    if s != [] && s[0] in TYPES && FindCrlf(s).Some? {
      FindCrlfExtends(s, t);
      var k := FindCrlf(s).value;
      assert (s + t)[..k] == s[..k];
      assert (s + t)[k + 2..] == s[k + 2..] + t;
      BodyExtends(Classify(s[..k]), s[k + 2..], t, e, kind);
    }
  }

  lemma {:induction false} BodyExtends(head: Head, rest: string, t: string, e: Expected, kind: Expected)
    ensures var r := Body(head, rest, e, kind);
            (r.Done? ==> Body(head, rest + t, e, kind) == Done(r.value, r.rest + t))
            && (r.Malformed? ==> Body(head, rest + t, e, kind).Malformed?)
    decreases |rest|, 2
  {
    match head
    case Frame(n) =>
      if n >= 0 && rest != [] && |rest| >= n + Delim(e) {
        assert (rest + t)[..n] == rest[..n];
        assert (rest + t)[n + Delim(e)..] == rest[n + Delim(e)..] + t;
      }
    case Elements(n) => ManyExtends(rest, t, e, n);
    case _ =>
  }

  lemma {:induction false} ManyExtends(s: string, t: string, e: Expected, n: int)
    ensures Many(s, e, n).Done? ==> Many(s + t, e, n) == Done(Many(s, e, n).value, Many(s, e, n).rest + t)
    ensures Many(s, e, n).Malformed? ==> Many(s + t, e, n).Malformed?
    decreases |s|, 1
  {
    hide One;
    if n > 0 {
      OneExtends(s, t, e, ExpectAny);
      if One(s, e, ExpectAny).Done? {
        ManyExtends(One(s, e, ExpectAny).rest, t, e, n - 1);
      }
    }
  }
}
