/** RESP messages and the text the program writes for them. One `char` stands for one byte. */
module Messages {
  import opened Decimal

  datatype Message =
    | Undefined
    | Leave
    | SimpleString(text: string)
    | SimpleError(text: string)
    | Integer(value: int32)
    | BulkString(data: string)
    | SyncResponse(data: string)
    | Array(elements: seq<Message>)

  /** What a talker tells the parser to expect: a snapshot frame, or any message. */
  datatype Expected = ExpectAny | ExpectSync

  const CRLF := "\r\n"

  function ToString(m: Message): string
    decreases m, 0
  {
    match m
    case Undefined => "U" + CRLF
    case Leave => ""
    case SimpleString(text) => "+" + text + CRLF
    case SimpleError(text) => "-" + text + CRLF
    case Integer(value) => ":" + PrintInt(value) + CRLF
    case BulkString(data) =>
      if data == "" then "$-1" + CRLF else "$" + Print(|data|) + CRLF + data + CRLF
    case SyncResponse(data) => "$" + Print(|data|) + CRLF + data
    case Array(elements) =>
      if elements == [] then "*-1" + CRLF
      else "*" + Print(|elements|) + CRLF + ToStrings(elements)
  }

  /** The texts of several messages, one after the other. */
  function ToStrings(ms: seq<Message>): string
    decreases ms, 1
  {
    if ms == [] then "" else ToString(ms[0]) + ToStrings(ms[1..])
  }

  /** The bytes a message counts for in a replication offset. */
  function Size(m: Message): nat {
    |ToString(m)|
  }

  lemma {:induction false} ToStringsAppend(a: seq<Message>, b: seq<Message>)
    ensures ToStrings(a + b) == ToStrings(a) + ToStrings(b)
  {
    if a == [] {
      assert a + b == b;
    } else {
      assert (a + b)[1..] == a[1..] + b;
      ToStringsAppend(a[1..], b);
    }
  }

  lemma ToStringsOne(m: Message)
    ensures ToStrings([m]) == ToString(m)
  {
    assert [m][1..] == [];
  }
}
