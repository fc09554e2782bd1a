/** Commands as messages: `construct` and `try_parse` of every command, and when one undoes the other. */
module Commands {
  import opened Prelude
  import opened Decimal
  import opened Messages
  import opened StreamIds

  datatype Command =
    | Ping
    | Echo(data: string)
    | Set(key: string, value: string, expireMs: Option<int32>)
    | Get(key: string)
    | TypeOf(key: string)
    | Keys(selector: string)
    | Info(parts: seq<string>)
    | Config(action: string, args: seq<string>)
    | ReplConf(args: seq<string>)
    | Psync(args: seq<string>)
    | Wait(replicas: uint64, timeoutMs: uint64)
    | XAdd(key: string, id: InputStreamId, values: seq<(string, string)>)
    | XRange(key: string, left: BoundStreamId, right: BoundStreamId)
    | XRead(request: seq<(string, ReadStreamId)>, blockMs: Option<uint64>)

  /** A command, the parse-error exception, or an out-of-range access the program does not check. */
  datatype Parsed = Parsed(command: Command) | Rejected | Unchecked

  function LowerChar(c: char): char {
    if 'A' <= c <= 'Z' then c + 32 as char else c
  }

  function UpperChar(c: char): char {
    if 'a' <= c <= 'z' then c - 32 as char else c
  }

  function ToLower(s: string): string {
    seq(|s|, i requires 0 <= i < |s| => LowerChar(s[i]))
  }

  function ToUpper(s: string): string {
    seq(|s|, i requires 0 <= i < |s| => UpperChar(s[i]))
  }

  // ----- construct -----

  function Bulks(texts: seq<string>): seq<Message> {
    seq(|texts|, i requires 0 <= i < |texts| => BulkString(texts[i]))
  }

  function PairTexts(values: seq<(string, string)>): seq<string> {
    if values == [] then [] else [values[0].0, values[0].1] + PairTexts(values[1..])
  }

  function RequestTexts(request: seq<(string, ReadStreamId)>): seq<string> {
    if request == [] then []
    else [request[0].0, ReadStreamIdText(request[0].1)] + RequestTexts(request[1..])
  }

  /** The words a command is written with. */
  function Words(c: Command): seq<string> {
    match c
    case Ping => ["PING"]
    case Echo(data) => ["ECHO", data]
    case Set(key, value, px) =>
      ["SET", key, value] + (if px.Some? then ["PX", PrintInt(px.value)] else [])
    case Get(key) => ["GET", key]
    case TypeOf(key) => ["TYPE", key]
    case Keys(selector) => ["KEYS", selector]
    case Info(parts) => ["INFO"] + parts
    case Config(action, args) => ["CONFIG", ToUpper(action)] + args
    case ReplConf(args) => ["REPLCONF"] + args
    case Psync(args) => ["PSYNC"] + args
    case Wait(replicas, timeoutMs) => ["WAIT", Print(replicas), Print(timeoutMs)]
    case XAdd(key, id, values) => ["XADD", key, InputStreamIdText(id)] + PairTexts(values)
    case XRange(key, left, right) => ["XRANGE", key, BoundStreamIdText(left), BoundStreamIdText(right)]
    case XRead(request, block) =>
      ["XREAD"] + (if block.Some? then ["block", Print(block.value)] else []) + ["streams"] + RequestTexts(request)
  }

  function Construct(c: Command): Message {
    Array(Bulks(Words(c)))
  }

  // ----- try_parse -----

  /** The texts of bulk strings; None if another type is among them. */
  function BulkTexts(data: seq<Message>): (r: Option<seq<string>>)
    ensures r.Some? <==> forall i | 0 <= i < |data| :: data[i].BulkString?
    ensures r.Some? ==> |r.value| == |data| && forall i | 0 <= i < |data| :: r.value[i] == data[i].data
  {
    if data == [] then Some([])
    else if !data[0].BulkString? then None
    else match BulkTexts(data[1..]) case Some(texts) => Some([data[0].data] + texts) case None => None
  }

  /** The parameters after key and value of a SET; a later PX replaces an earlier one. */
  function PxOf(rest: seq<Message>, px: Option<int32>): Option<Option<int32>> {
    if rest == [] then Some(px)
    else if !rest[0].BulkString? || ToLower(rest[0].data) != "px" || |rest| < 2 || !rest[1].BulkString? then None
    else
      match ParseInt(rest[1].data)
      case Some(v) => if v > 0 then PxOf(rest[2..], Some(v)) else None
      case None => None
  }

  function SetOf(data: seq<Message>): Parsed {
    if |data| < 3 || !data[1].BulkString? || !data[2].BulkString? then Rejected
    else
      match PxOf(data[3..], None)
      case Some(px) => Parsed(Set(data[1].data, data[2].data, px))
      case None => Rejected
  }

  function PairsOf(rest: seq<Message>): Option<seq<(string, string)>> {
    if rest == [] then Some([])
    else if |rest| < 2 || !rest[0].BulkString? || !rest[1].BulkString? then None
    else
      match PairsOf(rest[2..])
      case Some(pairs) => Some([(rest[0].data, rest[1].data)] + pairs)
      case None => None
  }

  function XAddOf(data: seq<Message>): Parsed {
    if |data| < 5 || !data[1].BulkString? || !data[2].BulkString? then Rejected
    else
      match ParseInputStreamId(data[2].data)
      case None => Rejected
      case Some(id) =>
        match PairsOf(data[3..])
        case Some(values) => Parsed(XAdd(data[1].data, id, values))
        case None => Rejected
  }

  function XRangeOf(data: seq<Message>): Parsed {
    if |data| != 4 || !data[1].BulkString? || !data[2].BulkString? || !data[3].BulkString? then Rejected
    else
      match (ParseBoundStreamId(data[2].data), ParseBoundStreamId(data[3].data))
      case (Some(left), Some(right)) => Parsed(XRange(data[1].data, left, right))
      case _ => Rejected
  }

  function ReadIdsOf(ids: seq<string>): (r: Option<seq<ReadStreamId>>)
    ensures r.Some? <==> forall i | 0 <= i < |ids| :: ParseReadStreamId(ids[i]).Some?
    ensures r.Some? ==> |r.value| == |ids| && forall i | 0 <= i < |ids| :: ParseReadStreamId(ids[i]) == Some(r.value[i])
  {
    if ids == [] then Some([])
    else
      match (ParseReadStreamId(ids[0]), ReadIdsOf(ids[1..]))
      case (Some(id), Some(more)) => Some([id] + more)
      case _ => None
  }

  function Zip(keys: seq<string>, ids: seq<ReadStreamId>): seq<(string, ReadStreamId)>
    requires |keys| == |ids|
  {
    seq(|keys|, i requires 0 <= i < |keys| => (keys[i], ids[i]))
  }

  /** What follows `streams`: all the keys, then all the ids. */
  function StreamsOf(rest: seq<Message>, block: Option<uint64>): Parsed {
    if |rest| < 2 || |rest| % 2 == 1 then Rejected
    else
      match BulkTexts(rest)
      case None => Rejected
      case Some(texts) =>
        var n := |texts| / 2;
        match ReadIdsOf(texts[n..])
        case Some(ids) => Parsed(XRead(Zip(texts[..n], ids), block))
        case None => Rejected
  }

  /** The arguments of an XREAD; without `streams` the request is empty. */
  function XReadArgs(rest: seq<Message>, block: Option<uint64>): Parsed {
    if rest == [] then Parsed(XRead([], block))
    else if !rest[0].BulkString? then Rejected
    else if ToLower(rest[0].data) == "streams" then StreamsOf(rest[1..], block)
    else if ToLower(rest[0].data) == "block" then
      if |rest| < 2 || !rest[1].BulkString? then Rejected
      else match ParseUInt64(rest[1].data) case Some(ms) => XReadArgs(rest[2..], Some(ms)) case None => Rejected
    else Rejected
  }

  function XReadOf(data: seq<Message>): Parsed {
    if |data| < 4 then Rejected else XReadArgs(data[1..], None)
  }

  /** The arity test of WAIT rejects three arguments, not "other than two". */
  function WaitOf(data: seq<Message>): Parsed {
    if |data| == 4 then Rejected
    else if |data| < 2 then Unchecked
    else if !data[1].BulkString? then Rejected
    else
      match ParseInt(data[1].data)
      case None => Rejected
      case Some(replicas) =>
        if |data| < 3 then Unchecked
        else if !data[2].BulkString? then Rejected
        else
          match ParseInt(data[2].data)
          case None => Rejected
          case Some(timeout) => Parsed(Wait(AsUInt64(replicas), AsUInt64(timeout)))
  }

  /** The conversion of an `int` to `std::size_t`. */
  function AsUInt64(n: int32): uint64 {
    if n < 0 then n + UINT64_LIMIT else n
  }

  function TryParse(m: Message): Parsed {
    if !m.Array? || m.elements == [] || !m.elements[0].BulkString? then Rejected
    else
      var data := m.elements;
      var name := ToLower(data[0].data);
      if name == "ping" then Parsed(Ping)
      else if name == "echo" then
        if |data| != 2 || !data[1].BulkString? then Rejected else Parsed(Echo(data[1].data))
      else if name == "set" then SetOf(data)
      else if name == "get" then
        if |data| < 2 || !data[1].BulkString? then Rejected else Parsed(Get(data[1].data))
      else if name == "info" then
        (match BulkTexts(data[1..])
         case Some(parts) => Parsed(Info(seq(|parts|, i requires 0 <= i < |parts| => ToLower(parts[i]))))
         case None => Rejected)
      else if name == "replconf" then
        (match BulkTexts(data[1..]) case Some(args) => Parsed(ReplConf(args)) case None => Rejected)
      else if name == "psync" then
        (match BulkTexts(data[1..]) case Some(args) => Parsed(Psync(args)) case None => Rejected)
      else if name == "wait" then WaitOf(data)
      else if name == "keys" then
        if |data| < 2 || !data[1].BulkString? then Rejected else Parsed(Keys(data[1].data))
      else if name == "config" then
        if |data| == 1 then Parsed(Config("", []))
        else if !data[1].BulkString? then Rejected
        else match BulkTexts(data[2..]) case Some(args) => Parsed(Config(data[1].data, args)) case None => Rejected
      else if name == "type" then
        if |data| < 2 || !data[1].BulkString? then Rejected else Parsed(TypeOf(data[1].data))
      else if name == "xadd" then XAddOf(data)
      else if name == "xrange" then XRangeOf(data)
      else if name == "xread" then XReadOf(data)
      else Rejected
  }

  // ----- The cursor loops -----

  method ParseSet(data: seq<Message>) returns (r: Parsed)
    requires data != []
    ensures r == SetOf(data)
  {
    var key, value: Option<string> := None, None;
    var px: Option<int32> := None;
    var pos := 1;
    while pos < |data|
      invariant 1 <= pos <= |data|
      invariant pos > 1 ==> data[1].BulkString?
      invariant pos > 2 ==> data[2].BulkString?
      invariant key == if pos > 1 then Some(data[1].data) else None
      invariant value == if pos > 2 then Some(data[2].data) else None
      invariant pos <= 3 ==> px == None
      invariant pos >= 3 ==> PxOf(data[3..], None) == PxOf(data[pos..], px)
    {
      if !data[pos].BulkString? {
        return Rejected;
      }
      if pos == 1 {
        key := Some(data[1].data);
        pos := pos + 1;
      } else if pos == 2 {
        value := Some(data[2].data);
        pos := pos + 1;
      } else {
        if ToLower(data[pos].data) != "px" || pos + 1 >= |data| || !data[pos + 1].BulkString? {
          return Rejected;
        }
        var number := ParseInt(data[pos + 1].data);
        if number.None? || number.value <= 0 {
          return Rejected;
        }
        assert data[pos..][2..] == data[pos + 2..];
        px := number;
        pos := pos + 2;
      }
    }
    if key.None? || value.None? {
      return Rejected;
    }
    r := Parsed(Set(key.value, value.value, px));
  }

  ghost function Before<T>(done: seq<T>, more: Option<seq<T>>): Option<seq<T>> {
    match more case Some(items) => Some(done + items) case None => None
  }

  lemma BeforeNothing<T>(more: Option<seq<T>>)
    ensures Before([], more) == more
  {
    if more.Some? {
      assert [] + more.value == more.value;
    }
  }

  lemma BeforeEnd<T>(done: seq<T>)
    ensures Before(done, Some([])) == Some(done)
  {
    assert done + [] == done;
  }

  lemma BeforeOne<T>(done: seq<T>, item: T, more: Option<seq<T>>)
    ensures Before(done, Before([item], more)) == Before(done + [item], more)
  {
    if more.Some? {
      assert done + ([item] + more.value) == done + [item] + more.value;
    }
  }

  /** The argument loop of INFO, REPLCONF, PSYNC and CONFIG. */
  method CollectArgs(data: seq<Message>, start: nat) returns (r: Option<seq<string>>)
    requires start <= |data|
    ensures r == BulkTexts(data[start..])
  {
    var args: seq<string> := [];
    var pos := start;
    BeforeNothing(BulkTexts(data[start..]));
    while pos < |data|
      invariant start <= pos <= |data|
      invariant BulkTexts(data[start..]) == Before(args, BulkTexts(data[pos..]))
    {
      if !data[pos].BulkString? {
        return None;
      }
      assert data[pos..][1..] == data[pos + 1..];
      BeforeOne(args, data[pos].data, BulkTexts(data[pos + 1..]));
      args := args + [data[pos].data];
      pos := pos + 1;
    }
    BeforeEnd(args);
    r := Some(args);
  }

  method ParseXAdd(data: seq<Message>) returns (r: Parsed)
    requires data != []
    ensures r == XAddOf(data)
  {
    if |data| < 5 {
      return Rejected;
    }
    var key := "";
    var id := FullId(NULL_ID);
    var values: seq<(string, string)> := [];
    var pos := 1;
    while pos < |data|
      invariant 1 <= pos <= |data|
      invariant pos > 1 ==> data[1].BulkString? && key == data[1].data
      invariant pos > 2 ==> data[2].BulkString? && ParseInputStreamId(data[2].data) == Some(id)
      invariant pos <= 3 ==> values == []
      invariant pos >= 3 ==> PairsOf(data[3..]) == Before(values, PairsOf(data[pos..]))
    {
      if pos == 1 {
        if !data[1].BulkString? {
          return Rejected;
        }
        key := data[1].data;
        pos := pos + 1;
      } else if pos == 2 {
        if !data[2].BulkString? {
          return Rejected;
        }
        var parsed := ParseInputStreamId(data[2].data);
        if parsed.None? {
          return Rejected;
        }
        id := parsed.value;
        pos := pos + 1;
        BeforeNothing(PairsOf(data[3..]));
      } else if pos + 1 < |data| {
        if !data[pos].BulkString? || !data[pos + 1].BulkString? {
          return Rejected;
        }
        assert data[pos..][2..] == data[pos + 2..];
        BeforeOne(values, (data[pos].data, data[pos + 1].data), PairsOf(data[pos + 2..]));
        values := values + [(data[pos].data, data[pos + 1].data)];
        pos := pos + 2;
      } else {
        return Rejected;
      }
    }
    BeforeEnd(values);
    r := Parsed(XAdd(key, id, values));
  }

  /** The first arguments after `streams` have been read as keys, the next ones as ids. */
  ghost predicate Collected(rest: seq<Message>, n: nat, keys: seq<string>, ids: seq<ReadStreamId>) {
    && |keys| <= n && |ids| <= n && |keys| + |ids| <= |rest| && n <= |rest| && (ids != [] ==> |keys| == n)
    && (forall i | 0 <= i < |keys| :: rest[i].BulkString? && keys[i] == rest[i].data)
    && (forall j | n <= j < n + |ids| :: rest[j].BulkString? && ParseReadStreamId(rest[j].data) == Some(ids[j - n]))
  }

  lemma CollectNext(rest: seq<Message>, n: nat, keys: seq<string>, ids: seq<ReadStreamId>, block: Option<uint64>)
    requires 2 <= |rest| && n == |rest| / 2 && Collected(rest, n, keys, ids) && |keys| + |ids| < |rest|
    ensures var next := rest[|keys| + |ids|];
            && (next.BulkString? && |keys| < n ==> Collected(rest, n, keys + [next.data], ids))
            && (next.BulkString? && |keys| == n && |ids| < n && ParseReadStreamId(next.data).Some? ==>
                  Collected(rest, n, keys, ids + [ParseReadStreamId(next.data).value]))
            && (!next.BulkString? || |ids| == n || (|keys| == n && ParseReadStreamId(next.data).None?) ==>
                  StreamsOf(rest, block) == Rejected)
  {
    hide ParseReadStreamId;
    var next := rest[|keys| + |ids|];
    if next.BulkString? && |keys| == n && |ids| < n && ParseReadStreamId(next.data).None? && BulkTexts(rest).Some? {
      assert BulkTexts(rest).value[n..][|ids|] == next.data;
    }
  }

  lemma CollectAll(rest: seq<Message>, n: nat, keys: seq<string>, ids: seq<ReadStreamId>, block: Option<uint64>)
    requires 2 <= |rest| && n == |rest| / 2 && Collected(rest, n, keys, ids) && |keys| + |ids| == |rest|
    ensures |keys| == |ids| && StreamsOf(rest, block) == Parsed(XRead(Zip(keys, ids), block))
  {
    hide ParseReadStreamId;
    var texts := BulkTexts(rest).value;
    assert texts[..n] == keys;
    forall i | 0 <= i < n
      ensures ParseReadStreamId(texts[n..][i]) == Some(ids[i])
    {
      assert texts[n..][i] == rest[n + i].data;
    }
    assert ReadIdsOf(texts[n..]).value == ids;
  }

  method ParseXRead(data: seq<Message>) returns (r: Parsed)
    requires data != []
    ensures r == XReadOf(data)
  {
    hide ParseUInt64, ParseReadStreamId, ToLower, StreamsOf, Collected, XReadArgs;
    if |data| < 4 {
      return Rejected;
    }
    var metStreams := false;
    var expectedStreams: nat := 0;
    var keys: seq<string> := [];
    var ids: seq<ReadStreamId> := [];
    var block: Option<uint64> := None;
    ghost var rest := data[1..];
    var pos := 1;
    while pos < |data|
      invariant 1 <= pos <= |data| && |keys| + |ids| <= pos
      invariant rest == if metStreams then data[pos - |keys| - |ids|..] else data[pos..]
      invariant !metStreams ==> keys == [] && ids == [] && XReadArgs(rest, block) == XReadOf(data)
      invariant metStreams ==> 2 <= |rest| && expectedStreams == |rest| / 2 && Collected(rest, expectedStreams, keys, ids)
      invariant |keys| + |ids| <= |rest| && |rest| == |data| - (pos - |keys| - |ids|)
      invariant metStreams ==> StreamsOf(rest, block) == XReadOf(data)
      invariant metStreams ==> |keys| <= expectedStreams && |ids| <= expectedStreams
    {
      assert rest[|keys| + |ids|] == data[pos];
      if metStreams {
        CollectNext(rest, expectedStreams, keys, ids, block);
        if |keys| < expectedStreams {
          if !data[pos].BulkString? {
            return Rejected;
          }
          keys := keys + [data[pos].data];
          pos := pos + 1;
        } else if |ids| < expectedStreams {
          if !data[pos].BulkString? {
            return Rejected;
          }
          var id := ParseReadStreamId(data[pos].data);
          if id.None? {
            return Rejected;
          }
          ids := ids + [id.value];
          pos := pos + 1;
        } else {
          return Rejected;
        }
      } else {
        FirstArg(rest, block);
        if !data[pos].BulkString? {
          return Rejected;
        }
        var arg := ToLower(data[pos].data);
        if arg == "streams" {
          metStreams := true;
          var remaining := |data| - pos - 1;
          if remaining < 2 {
            NoStreams(rest[1..], block);
            return Rejected;
          }
          expectedStreams := remaining / 2;
          pos := pos + 1;
          rest := rest[1..];
          CollectNone(rest, expectedStreams);
        } else if arg == "block" {
          if pos + 1 >= |data| || !data[pos + 1].BulkString? {
            return Rejected;
          }
          assert rest[1] == data[pos + 1];
          var timeout := ParseUInt64(data[pos + 1].data);
          if timeout.None? {
            return Rejected;
          }
          block := timeout;
          pos := pos + 2;
          rest := rest[2..];
        } else {
          return Rejected;
        }
      }
    }
    if metStreams {
      CollectAll(rest, expectedStreams, keys, ids, block);
    } else {
      NoArgs(block);
    }
    r := Parsed(XRead(Zip(keys, ids), block));
  }

  lemma NoArgs(block: Option<uint64>)
    ensures XReadArgs([], block) == Parsed(XRead(Zip([], []), block))
  {
    assert Zip([], []) == [];
  }

  lemma FirstArg(rest: seq<Message>, block: Option<uint64>)
    requires rest != []
    ensures !rest[0].BulkString? ==> XReadArgs(rest, block) == Rejected
    ensures rest[0].BulkString? && ToLower(rest[0].data) == "streams" ==> XReadArgs(rest, block) == StreamsOf(rest[1..], block)
    ensures rest[0].BulkString? && ToLower(rest[0].data) == "block" ==>
              XReadArgs(rest, block) ==
              if |rest| < 2 || !rest[1].BulkString? || ParseUInt64(rest[1].data).None? then Rejected
              else XReadArgs(rest[2..], ParseUInt64(rest[1].data))
    ensures rest[0].BulkString? && ToLower(rest[0].data) !in {"streams", "block"} ==> XReadArgs(rest, block) == Rejected
  {
    hide ParseUInt64, StreamsOf;
  }

  lemma NoStreams(rest: seq<Message>, block: Option<uint64>)
    requires |rest| < 2
    ensures StreamsOf(rest, block) == Rejected
  {
  }

  lemma CollectNone(rest: seq<Message>, n: nat)
    requires n <= |rest|
    ensures Collected(rest, n, [], [])
  {
  }
}
