/** When parsing a constructed command gives that command back, for every command. */
module CommandRoundTrip {
  import opened Prelude
  import opened Decimal
  import opened Messages
  import opened Grammar
  import opened StreamIds
  import opened Commands
  import opened WireRoundTrip

  function KeyTexts(request: seq<(string, ReadStreamId)>): seq<string> {
    seq(|request|, i requires 0 <= i < |request| => request[i].0)
  }

  function IdTexts(request: seq<(string, ReadStreamId)>): seq<string> {
    seq(|request|, i requires 0 <= i < |request| => ReadStreamIdText(request[i].1))
  }

  /** Keys and ids of an XREAD are written in turn but read in two groups; here that makes no difference. */
  predicate SplitsBack(request: seq<(string, ReadStreamId)>) {
    RequestTexts(request) == KeyTexts(request) + IdTexts(request)
  }

  /** The two groups the parser takes the words apart into give the request. */
  predicate ReadsBack(request: seq<(string, ReadStreamId)>) {
    var words := RequestTexts(request);
    |words| == 2 * |request| && Matches(words[..|request|], words[|request|..], request)
  }

  predicate Matches(keys: seq<string>, ids: seq<string>, request: seq<(string, ReadStreamId)>)
    requires |keys| == |ids| == |request|
  {
    forall i | 0 <= i < |request| :: keys[i] == request[i].0 && ParseReadStreamId(ids[i]) == Some(request[i].1)
  }

  /** Checkable before the call: the guards of the parsers, on the fields of the command. */
  predicate Faithful(c: Command) {
    match c
    case Set(_, _, px) => px.Some? ==> px.value > 0
    case Info(parts) => forall i | 0 <= i < |parts| :: ToLower(parts[i]) == parts[i]
    case Config(action, _) => ToUpper(action) == action
    case Wait(replicas, timeoutMs) => replicas < INT32_LIMIT && timeoutMs < INT32_LIMIT
    case XAdd(_, _, values) => values != []
    case XRead(request, _) => request != [] && SplitsBack(request)
    case _ => true
  }

  lemma Literals()
    ensures ToLower("PING") == "ping" && ToLower("ECHO") == "echo" && ToLower("SET") == "set" && ToLower("GET") == "get"
    ensures ToLower("TYPE") == "type" && ToLower("KEYS") == "keys" && ToLower("INFO") == "info" && ToLower("CONFIG") == "config"
    ensures ToLower("REPLCONF") == "replconf" && ToLower("PSYNC") == "psync" && ToLower("WAIT") == "wait"
    ensures ToLower("XADD") == "xadd" && ToLower("XRANGE") == "xrange" && ToLower("XREAD") == "xread"
    ensures ToLower("PX") == "px" && ToLower("block") == "block" && ToLower("streams") == "streams"
  {
  }

  lemma BulksBack(texts: seq<string>, k: nat)
    requires k <= |texts|
    ensures BulkTexts(Bulks(texts)[k..]) == Some(texts[k..])
  {
    assert BulkTexts(Bulks(texts)[k..]).value == texts[k..];
  }

  lemma {:induction false} PairsBack(values: seq<(string, string)>)
    ensures PairsOf(Bulks(PairTexts(values))) == Some(values)
    ensures |PairTexts(values)| == 2 * |values|
  {
    if values == [] {
      assert Bulks(PairTexts(values)) == [];
    } else {
      PairsBack(values[1..]);
      var data := Bulks(PairTexts(values));
      assert data[2..] == Bulks(PairTexts(values[1..]));
      assert values == [values[0]] + values[1..];
    }
  }

  lemma {:induction false} RequestLength(request: seq<(string, ReadStreamId)>)
    ensures |RequestTexts(request)| == 2 * |request|
    ensures request != [] ==> RequestTexts(request)[0] == request[0].0
    ensures |request| >= 2 ==> RequestTexts(request)[1] == ReadStreamIdText(request[0].1)
  {
    if request != [] {
      RequestLength(request[1..]);
    }
  }

  lemma SetRoundTrips(key: string, value: string, px: Option<int32>)
    ensures SetOf(Bulks(Words(Set(key, value, px)))) == Parsed(Set(key, value, px)) <==> Faithful(Set(key, value, px))
  {
    hide ParseInt, PrintInt, ToLower;
    var data := Bulks(Words(Set(key, value, px)));
    Literals();
    if px.Some? {
      ParseIntPrint(px.value);
      assert data[3..][2..] == [];
      assert PxOf([], px) == Some(px);
    } else {
      assert data[3..] == [];
    }
  }

  lemma XAddRoundTrips(key: string, id: InputStreamId, values: seq<(string, string)>)
    ensures XAddOf(Bulks(Words(XAdd(key, id, values)))) == Parsed(XAdd(key, id, values)) <==> values != []
  {
    hide ParseInputStreamId, InputStreamIdText;
    var data := Bulks(Words(XAdd(key, id, values)));
    PairsBack(values);
    InputStreamIdRoundTrips(id);
    assert data[3..] == Bulks(PairTexts(values));
  }

  /** Pairing keys with ids gives the request exactly when each fits. */
  lemma HalvesMatch(keys: seq<string>, texts: seq<string>, request: seq<(string, ReadStreamId)>)
    requires |keys| == |texts| == |request|
    ensures (ReadIdsOf(texts).Some? && Zip(keys, ReadIdsOf(texts).value) == request) <==> Matches(keys, texts, request)
  {
    hide ParseReadStreamId;
    if ReadIdsOf(texts).Some? {
      var ids := ReadIdsOf(texts).value;
      var zipped := Zip(keys, ids);
      assert forall i | 0 <= i < |request| :: zipped[i] == (keys[i], ids[i]);
      assert forall i | 0 <= i < |request| :: ParseReadStreamId(texts[i]) == Some(ids[i]);
      if Matches(keys, texts, request) {
        assert forall i | 0 <= i < |request| :: zipped[i] == request[i];
        assert zipped == request;
      }
    }
  }

  lemma StreamsRoundTrip(request: seq<(string, ReadStreamId)>, block: Option<uint64>)
    ensures StreamsOf(Bulks(RequestTexts(request)), block) == Parsed(XRead(request, block))
            <==> request != [] && ReadsBack(request)
  {
    hide ParseReadStreamId, ReadStreamIdText, ReadIdsOf, Zip, Matches, RequestTexts;
    RequestLength(request);
    var words := RequestTexts(request);
    HalvesMatch(words[..|request|], words[|request|..], request);
    BulksBack(words, 0);
    assert Bulks(words)[0..] == Bulks(words) && words[0..] == words;
  }

  lemma {:induction false} WordAt(request: seq<(string, ReadStreamId)>, k: nat)
    requires k < |request|
    ensures |RequestTexts(request)| == 2 * |request|
    ensures RequestTexts(request)[2 * k] == request[k].0 && RequestTexts(request)[2 * k + 1] == ReadStreamIdText(request[k].1)
  {
    hide ReadStreamIdText;
    RequestLength(request);
    if k > 0 {
      WordAt(request[1..], k - 1);
    }
  }

  /** If the first group reads as the keys, every key but the first is spelt like an id of the request. */
  lemma {:induction false} KeyIsIdText(request: seq<(string, ReadStreamId)>, m: nat) returns (id: ReadStreamId)
    requires 1 <= m < |request| && |RequestTexts(request)| == 2 * |request|
    requires forall j | 0 <= j < |request| :: RequestTexts(request)[j] == request[j].0
    ensures request[m].0 == ReadStreamIdText(id)
  {
    hide RequestTexts, ReadStreamIdText;
    var k := m / 2;
    WordAt(request, k);
    if m % 2 == 1 {
      assert m == 2 * k + 1;
      id := request[k].1;
    } else {
      assert m == 2 * k;
      id := KeyIsIdText(request, k);
    }
  }

  /** The word the parser reads as the j-th id parses to it only if it is its text. */
  lemma SecondGroup(request: seq<(string, ReadStreamId)>, j: nat)
    requires j < |request| && |RequestTexts(request)| == 2 * |request|
    requires forall i | 0 <= i < |request| :: RequestTexts(request)[i] == request[i].0
    ensures ParseReadStreamId(RequestTexts(request)[|request| + j]) == Some(request[j].1)
            <==> RequestTexts(request)[|request| + j] == ReadStreamIdText(request[j].1)
  {
    hide RequestTexts, ReadStreamIdText, ParseReadStreamId;
    ReadStreamIdRoundTrips(request[j].1);
    var k := (|request| + j) / 2;
    WordAt(request, k);
    if (|request| + j) % 2 == 1 {
      assert |request| + j == 2 * k + 1;
      ReadStreamIdRoundTrips(request[k].1);
    } else {
      assert |request| + j == 2 * k;
      var id := KeyIsIdText(request, k);
      ReadStreamIdRoundTrips(id);
    }
  }

  lemma ReadsBackIff(request: seq<(string, ReadStreamId)>)
    ensures ReadsBack(request) <==> SplitsBack(request)
  {
    hide RequestTexts, ReadStreamIdText, ParseReadStreamId;
    RequestLength(request);
    var words, n := RequestTexts(request), |request|;
    if forall j | 0 <= j < n :: words[j] == request[j].0 {
      forall j | 0 <= j < n
        ensures ParseReadStreamId(words[n..][j]) == Some(request[j].1) <==> words[n..][j] == ReadStreamIdText(request[j].1)
      {
        SecondGroup(request, j);
      }
    }
    assert words == words[..n] + words[n..];
    assert ReadsBack(request) ==> words[..n] == KeyTexts(request) && words[n..] == IdTexts(request);
    assert SplitsBack(request) ==> words[..n] == KeyTexts(request) && words[n..] == IdTexts(request);
  }

  lemma XReadRoundTrips(request: seq<(string, ReadStreamId)>, block: Option<uint64>)
    ensures XReadOf(Bulks(Words(XRead(request, block)))) == Parsed(XRead(request, block))
            <==> request != [] && SplitsBack(request)
  {
    hide StreamsOf, SplitsBack, ReadsBack, ToLower, ParseUInt64, Print;
    ReadsBackIff(request);
    var data := Bulks(Words(XRead(request, block)));
    var tail := Bulks(RequestTexts(request));
    Literals();
    RequestLength(request);
    StreamsRoundTrip(request, block);
    if block.Some? {
      ParsePrinted(block.value);
      assert data[1..][2..][1..] == tail;
      FirstArg(data[1..], None);
      FirstArg(data[1..][2..], block);
    } else {
      assert data[1..][1..] == tail;
      FirstArg(data[1..], None);
    }
    if request == [] {
      NoStreams(tail, block);
    }
  }

  lemma WaitRoundTrips(replicas: uint64, timeoutMs: uint64)
    ensures WaitOf(Bulks(Words(Wait(replicas, timeoutMs)))) == Parsed(Wait(replicas, timeoutMs))
            <==> replicas < INT32_LIMIT && timeoutMs < INT32_LIMIT
  {
    hide ParseInt;
    ParseIntPrint(replicas);
    ParseIntPrint(timeoutMs);
  }

  lemma InfoRoundTrips(parts: seq<string>)
    ensures var lowered := seq(|parts|, i requires 0 <= i < |parts| => ToLower(parts[i]));
            lowered == parts <==> forall i | 0 <= i < |parts| :: ToLower(parts[i]) == parts[i]
  {
    hide ToLower;
    var lowered := seq(|parts|, i requires 0 <= i < |parts| => ToLower(parts[i]));
    assert forall i | 0 <= i < |parts| :: lowered[i] == ToLower(parts[i]);
  }

  lemma SetParses(c: Command)
    requires c.Set?
    ensures TryParse(Construct(c)) == Parsed(c) <==> Faithful(c)
  {
    hide ToLower, PrintInt, SetOf;
    Literals();
    SetRoundTrips(c.key, c.value, c.expireMs);
  }

  lemma StreamCommandParses(c: Command)
    requires c.XAdd? || c.XRange? || c.XRead?
    ensures TryParse(Construct(c)) == Parsed(c) <==> Faithful(c)
  {
    hide ToLower, XAddOf, XReadOf, ParseBoundStreamId, BoundStreamIdText, SplitsBack;
    Literals();
    match c
    case XAdd(key, id, values) => XAddRoundTrips(key, id, values);
    case XRange(key, left, right) =>
      BoundStreamIdRoundTrips(left);
      BoundStreamIdRoundTrips(right);
    case XRead(request, block) => XReadRoundTrips(request, block);
  }

  lemma ArgumentCommandParses(c: Command)
    requires c.Info? || c.Config? || c.ReplConf? || c.Psync?
    ensures TryParse(Construct(c)) == Parsed(c) <==> Faithful(c)
  {
    hide ToLower, ToUpper, BulkTexts;
    Literals();
    var words := Words(c);
    match c
    case Config(action, args) =>
      BulksBack(words, 2);
      assert words[2..] == args;
    case Info(parts) =>
      BulksBack(words, 1);
      assert words[1..] == parts;
      InfoRoundTrips(parts);
    case ReplConf(args) =>
      BulksBack(words, 1);
      assert words[1..] == args;
    case Psync(args) =>
      BulksBack(words, 1);
      assert words[1..] == args;
  }

  lemma WaitParses(c: Command)
    requires c.Wait?
    ensures TryParse(Construct(c)) == Parsed(c) <==> Faithful(c)
  {
    hide ToLower, WaitOf;
    Literals();
    WaitRoundTrips(c.replicas, c.timeoutMs);
  }

  lemma ShortCommandParses(c: Command)
    requires c.Ping? || c.Echo? || c.Get? || c.TypeOf? || c.Keys?
    ensures TryParse(Construct(c)) == Parsed(c)
  {
    hide ToLower;
    Literals();
  }

  /** Parsing undoes construction exactly for the faithful commands. */
  lemma CommandRoundTripsIff(c: Command)
    ensures TryParse(Construct(c)) == Parsed(c) <==> Faithful(c)
  {
    hide TryParse, Construct;
    match c
    case Set(_, _, _) => SetParses(c);
    case XAdd(_, _, _) => StreamCommandParses(c);
    case XRange(_, _, _) => StreamCommandParses(c);
    case XRead(_, _) => StreamCommandParses(c);
    case Info(_) => ArgumentCommandParses(c);
    case Config(_, _) => ArgumentCommandParses(c);
    case ReplConf(_) => ArgumentCommandParses(c);
    case Psync(_) => ArgumentCommandParses(c);
    case Wait(_, _) => WaitParses(c);
    case _ => ShortCommandParses(c);
  }

  /**
   An XREAD of different streams is read back exactly if it names one, or names two of which the second
   key is spelt like the first id.
   */
  lemma XReadFaithful(request: seq<(string, ReadStreamId)>, block: Option<uint64>)
    requires DistinctKeys(request)
    ensures Faithful(XRead(request, block)) <==>
            |request| == 1 || (|request| == 2 && request[1].0 == ReadStreamIdText(request[0].1))
  {
    hide ParseReadStreamId, ReadStreamIdText, RequestTexts;
    var words, grouped := RequestTexts(request), KeyTexts(request) + IdTexts(request);
    RequestLength(request);
    if |request| == 1 {
      WordAt(request, 0);
      assert words == grouped;
    } else if |request| == 2 {
      WordAt(request, 0);
      WordAt(request, 1);
      assert grouped == [request[0].0, request[1].0, ReadStreamIdText(request[0].1), ReadStreamIdText(request[1].1)];
      assert words == [request[0].0, ReadStreamIdText(request[0].1), request[1].0, ReadStreamIdText(request[1].1)];
    } else if |request| > 2 {
      WordAt(request, 1);
      assert words[2] == request[1].0 != request[2].0 == grouped[2];
    }
  }

  /** The words of an XREAD as clients send them: first the keys, then the ids. */
  function GroupedWords(request: seq<(string, ReadStreamId)>, block: Option<uint64>): seq<string> {
    ["XREAD"] + (if block.Some? then ["block", Print(block.value)] else []) + ["streams"] + KeyTexts(request) + IdTexts(request)
  }

  lemma GroupsMatch(request: seq<(string, ReadStreamId)>)
    ensures Matches(KeyTexts(request), IdTexts(request), request)
  {
    hide ParseReadStreamId, ReadStreamIdText;
    forall i | 0 <= i < |request| ensures ParseReadStreamId(IdTexts(request)[i]) == Some(request[i].1) {
      ReadStreamIdRoundTrips(request[i].1);
    }
  }

  lemma GroupsParse(request: seq<(string, ReadStreamId)>, block: Option<uint64>)
    requires request != []
    ensures StreamsOf(Bulks(KeyTexts(request) + IdTexts(request)), block) == Parsed(XRead(request, block))
  {
    hide ParseReadStreamId, ReadStreamIdText, ReadIdsOf, Zip, Matches, KeyTexts, IdTexts;
    GroupsLength(request);
    GroupsMatch(request);
    var keys, texts := KeyTexts(request), IdTexts(request);
    var words := keys + texts;
    assert words[..|request|] == keys && words[|request|..] == texts;
    HalvesMatch(keys, texts, request);
    BulksBack(words, 0);
    assert Bulks(words)[0..] == Bulks(words) && words[0..] == words;
  }

  /** Every XREAD so sent is accepted as it is, a stream named twice or not. */
  lemma GroupedReadParses(request: seq<(string, ReadStreamId)>, block: Option<uint64>)
    requires request != []
    ensures TryParse(Array(Bulks(GroupedWords(request, block)))) == Parsed(XRead(request, block))
  {
    hide StreamsOf, ToLower, ParseUInt64, Print, KeyTexts, IdTexts;
    var words := KeyTexts(request) + IdTexts(request);
    var data, tail := Bulks(GroupedWords(request, block)), Bulks(words);
    Literals();
    GroupsParse(request, block);
    GroupsLength(request);
    if block.Some? {
      ParsePrinted(block.value);
      assert data[1..][2..][1..] == tail;
      FirstArg(data[1..], None);
      FirstArg(data[1..][2..], block);
    } else {
      assert data[1..][1..] == tail;
      FirstArg(data[1..], None);
    }
  }

  lemma GroupsLength(request: seq<(string, ReadStreamId)>)
    ensures |KeyTexts(request)| == |IdTexts(request)| == |request| && |KeyTexts(request) + IdTexts(request)| == 2 * |request|
  {
  }

  /** An XREAD may name no stream: options alone make up the arity the parser asks for. */
  lemma EmptyReadParses()
    ensures TryParse(Array(Bulks(["XREAD", "block", "0", "block", "0"]))) == Parsed(XRead([], Some(0)))
  {
    hide ParseUInt64, Print;
    var data := Bulks(["XREAD", "block", "0", "block", "0"]);
    Literals();
    ParsePrinted(0);
    assert Print(0) == "0" by { PrintZero(); }
    assert data[1..] == Bulks(["block", "0", "block", "0"]) && data[1..][2..] == Bulks(["block", "0"]);
    assert data[1..][2..][2..] == [];
    NoArgs(Some(0));
    FirstArg(data[1..], None);
    FirstArg(data[1..][2..], Some(0));
  }

  lemma PrintZero()
    ensures Print(0) == "0"
  {
  }

  /** No word of the command is empty or too long for the wire. */
  predicate Sendable(c: Command) {
    |Words(c)| < INT32_LIMIT && forall i | 0 <= i < |Words(c)| :: 0 < |Words(c)[i]| < INT32_LIMIT
  }

  lemma SendableIff(c: Command)
    ensures Wireable(Construct(c)) <==> Sendable(c)
  {
    hide Words;
    var m := Construct(c);
    assert m.Array? && |m.elements| == |Words(c)|;
    assert forall i | 0 <= i < |Words(c)| :: m.elements[i] == BulkString(Words(c)[i]);
  }

  /** A command written as bytes is read back as that command exactly if it is faithful and sendable. */
  lemma CommandOverWireIff(c: Command, t: string)
    ensures var r := One(ToString(Construct(c)) + t, ExpectAny, ExpectAny);
            (r.Done? && r.value == Construct(c) && TryParse(r.value) == Parsed(c)) <==> Faithful(c) && Sendable(c)
  {
    hide One, TryParse, Construct, Faithful, Sendable, Wireable, ToString;
    RoundTripsIff(Construct(c), t);
    CommandRoundTripsIff(c);
    SendableIff(c);
  }
}
