/** Which words make which command: spellings, options, numbers and arities, accepted and refused. */
module CommandForms {
  import opened Prelude
  import opened Decimal
  import opened Messages
  import opened StreamIds
  import opened Commands
  import opened CommandRoundTrip

  function Sent(words: seq<string>): Message {
    Array(Bulks(words))
  }

  // ----- Spelling -----

  /** Capitals become small letters, and nothing else changes. */
  lemma LowerIs(s: string)
    ensures |ToLower(s)| == |s|
    ensures forall i | 0 <= i < |s| ::
              if 'A' <= s[i] <= 'Z' then ToLower(s)[i] as int - 'a' as int == s[i] as int - 'A' as int else ToLower(s)[i] == s[i]
  {
  }

  /** The name of a command may be spelt in any way that has the same small letters. */
  lemma NameFolds(a: string, b: string, rest: seq<Message>)
    requires ToLower(a) == ToLower(b)
    ensures TryParse(Array([BulkString(a)] + rest)) == TryParse(Array([BulkString(b)] + rest))
  {
    hide ToLower, BulkTexts, SetOf, XAddOf, XRangeOf, XReadOf, WaitOf;
    var x, y := [BulkString(a)] + rest, [BulkString(b)] + rest;
    assert x[1..] == rest && y[1..] == rest;
    SameTails(x, y);
    if |rest| > 0 {
      assert x[1] == rest[0] && y[1] == rest[0] && x[2..] == rest[1..] && y[2..] == rest[1..];
    }
  }

  lemma SameTails(x: seq<Message>, y: seq<Message>)
    requires x != [] && y != [] && x[1..] == y[1..]
    ensures SetOf(x) == SetOf(y) && XAddOf(x) == XAddOf(y) && XRangeOf(x) == XRangeOf(y) && XReadOf(x) == XReadOf(y) && WaitOf(x) == WaitOf(y)
  {
    hide PxOf, PairsOf, XReadArgs, ParseInt, ParseInputStreamId, ParseBoundStreamId;
    assert |x| == |x[1..]| + 1 == |y|;
    assert forall i | 1 <= i < |x| :: x[i] == x[1..][i - 1] && y[i] == y[1..][i - 1];
    if |x| >= 3 {
      assert x[3..] == x[1..][2..] && y[3..] == y[1..][2..];
    }
  }

  const NAMES := {"ping", "echo", "set", "get", "info", "replconf", "psync", "wait", "keys", "config", "type", "xadd", "xrange", "xread"}

  /** There are no other commands, and a command is an array with its name in front. */
  lemma NoOtherCommand(m: Message)
    requires m.Array? && m.elements != [] && m.elements[0].BulkString? ==> ToLower(m.elements[0].data) !in NAMES
    ensures TryParse(m) == Rejected
  {
    hide ToLower;
  }

  // ----- SET -----

  /** Options of a SET: PX, in any spelling, and a positive number, any number of times. */
  ghost predicate PxWords(opts: seq<string>) {
    |opts| % 2 == 0 && forall i | 0 <= i < |opts| :: if i % 2 == 0 then ToLower(opts[i]) == "px" else IsPositive(opts[i])
  }

  predicate IsPositive(s: string) {
    ParseInt(s).Some? && ParseInt(s).value > 0
  }

  /** The last of them counts. */
  function LastPx(opts: seq<string>, px: Option<int32>): Option<int32> {
    if opts == [] then px else ParseInt(opts[|opts| - 1])
  }

  lemma {:induction false} PxOfWords(opts: seq<string>, px: Option<int32>)
    ensures PxOf(Bulks(opts), px) == if PxWords(opts) then Some(LastPx(opts, px)) else None
    decreases |opts|
  {
    hide ToLower, ParseInt;
    if |opts| >= 2 {
      assert Bulks(opts)[2..] == Bulks(opts[2..]);
      PxOfWords(opts[2..], ParseInt(opts[1]));
      assert forall i | 0 <= i < |opts[2..]| :: opts[2..][i] == opts[i + 2];
      assert PxWords(opts) <==> ToLower(opts[0]) == "px" && IsPositive(opts[1]) && PxWords(opts[2..]) by {
        PxWordsTail(opts);
      }
    } else if |opts| == 1 {
      assert !PxWords(opts);
    }
  }

  lemma PxWordsTail(opts: seq<string>)
    requires |opts| >= 2
    ensures PxWords(opts) <==> ToLower(opts[0]) == "px" && IsPositive(opts[1]) && PxWords(opts[2..])
  {
    hide ToLower, IsPositive;
    var rest := opts[2..];
    assert forall i | 0 <= i < |rest| :: rest[i] == opts[i + 2];
    if ToLower(opts[0]) == "px" && IsPositive(opts[1]) && PxWords(rest) {
      forall i | 0 <= i < |opts| ensures if i % 2 == 0 then ToLower(opts[i]) == "px" else IsPositive(opts[i]) {
        if i >= 2 {
          assert opts[i] == rest[i - 2];
        }
      }
    }
  }

  /** A SET is accepted exactly with a key, a value and such options. */
  lemma SetForms(name: string, args: seq<string>)
    requires ToLower(name) == "set"
    ensures TryParse(Sent([name] + args)) ==
            if |args| >= 2 && PxWords(args[2..]) then Parsed(Set(args[0], args[1], LastPx(args[2..], None))) else Rejected
  {
    hide ToLower, ParseInt, PxOf, PxWords;
    var data := Bulks([name] + args);
    if |args| >= 2 {
      PxOfWords(args[2..], None);
      assert data[3..] == Bulks(args[2..]);
    }
  }

  // ----- WAIT, GET, TYPE, KEYS, ECHO -----

  /** A WAIT takes two numbers; a third word refuses it, and more words are not looked at. Negative numbers wrap around. */
  lemma WaitForms(name: string, args: seq<string>)
    requires ToLower(name) == "wait" && |args| >= 2
    ensures var n, t := ParseInt(args[0]), ParseInt(args[1]);
            TryParse(Sent([name] + args)) ==
            if |args| != 3 && n.Some? && t.Some? then Parsed(Wait(n.value % UINT64_LIMIT, t.value % UINT64_LIMIT)) else Rejected
  {
    hide ToLower, ParseInt;
  }

  /** These take one word and do not look at more; ECHO refuses more. */
  lemma OneWordForms(name: string, args: seq<string>)
    ensures ToLower(name) == "get" ==> TryParse(Sent([name] + args)) == if args != [] then Parsed(Get(args[0])) else Rejected
    ensures ToLower(name) == "type" ==> TryParse(Sent([name] + args)) == if args != [] then Parsed(TypeOf(args[0])) else Rejected
    ensures ToLower(name) == "keys" ==> TryParse(Sent([name] + args)) == if args != [] then Parsed(Keys(args[0])) else Rejected
    ensures ToLower(name) == "echo" ==> TryParse(Sent([name] + args)) == if |args| == 1 then Parsed(Echo(args[0])) else Rejected
    ensures ToLower(name) == "ping" ==> TryParse(Sent([name] + args)) == Parsed(Ping)
  {
    hide ToLower;
  }

  // ----- Streams -----

  /** An XADD takes a key, an id and one pair or more. */
  lemma XAddForms(name: string, key: string, id: string, values: seq<(string, string)>)
    requires ToLower(name) == "xadd"
    ensures TryParse(Sent([name, key, id] + PairTexts(values))) ==
            if values != [] && ParseInputStreamId(id).Some? then Parsed(XAdd(key, ParseInputStreamId(id).value, values)) else Rejected
  {
    hide ToLower, ParseInputStreamId;
    var data := Bulks([name, key, id] + PairTexts(values));
    PairsBack(values);
    assert data[3..] == Bulks(PairTexts(values));
  }

  /** A word too many is refused. */
  lemma {:induction false} OddPairs(values: seq<(string, string)>, extra: string)
    ensures PairsOf(Bulks(PairTexts(values) + [extra])) == None
  {
    if values != [] {
      OddPairs(values[1..], extra);
      assert Bulks(PairTexts(values) + [extra])[2..] == Bulks(PairTexts(values[1..]) + [extra]);
    }
  }

  lemma OddXAdd(name: string, key: string, id: string, values: seq<(string, string)>, extra: string)
    requires ToLower(name) == "xadd"
    ensures TryParse(Sent([name, key, id] + PairTexts(values) + [extra])) == Rejected
  {
    hide ToLower, ParseInputStreamId, PairsOf;
    var data := Bulks([name, key, id] + PairTexts(values) + [extra]);
    OddPairs(values, extra);
    assert data[3..] == Bulks(PairTexts(values) + [extra]);
  }

  /** An XRANGE takes a key and two bounds. */
  lemma XRangeForms(name: string, args: seq<string>)
    requires ToLower(name) == "xrange"
    ensures TryParse(Sent([name] + args)) ==
            if |args| == 3 && ParseBoundStreamId(args[1]).Some? && ParseBoundStreamId(args[2]).Some?
            then Parsed(XRange(args[0], ParseBoundStreamId(args[1]).value, ParseBoundStreamId(args[2]).value)) else Rejected
  {
    hide ToLower, ParseBoundStreamId;
  }

  /** In particular bounds may be given by their time alone. */
  lemma XRangeByTime(key: string, from: uint64, to: uint64)
    ensures TryParse(Sent(["XRANGE", key, Print(from), Print(to)])) == Parsed(XRange(key, Bound(StreamId(from, 0)), Bound(StreamId(to, 0))))
  {
    hide ToLower, ParseBoundStreamId, Print;
    Literals();
    TimeIsRead(from);
    TimeIsRead(to);
    XRangeForms("XRANGE", [key, Print(from), Print(to)]);
    assert ["XRANGE"] + [key, Print(from), Print(to)] == ["XRANGE", key, Print(from), Print(to)];
  }

  /** Options of an XREAD: BLOCK, in any spelling, and a number. */
  ghost predicate BlockOptions(opts: seq<(string, string)>) {
    forall i | 0 <= i < |opts| :: ToLower(opts[i].0) == "block" && ParseUInt64(opts[i].1).Some?
  }

  /** The last of them counts. */
  function LastBlock(opts: seq<(string, string)>, block: Option<uint64>): Option<uint64> {
    if opts == [] then block else ParseUInt64(opts[|opts| - 1].1)
  }

  /** The keys and, behind all of them, as many ids. */
  function Requested(keys: seq<string>, ids: seq<string>): seq<(string, ReadStreamId)>
    requires |keys| == |ids| && forall i | 0 <= i < |ids| :: ParseReadStreamId(ids[i]).Some?
  {
    seq(|keys|, i requires 0 <= i < |keys| => (keys[i], ParseReadStreamId(ids[i]).value))
  }

  lemma StreamsWords(keys: seq<string>, ids: seq<string>, block: Option<uint64>)
    requires |keys| == |ids| > 0
    ensures StreamsOf(Bulks(keys + ids), block) ==
            if forall i | 0 <= i < |ids| :: ParseReadStreamId(ids[i]).Some? then Parsed(XRead(Requested(keys, ids), block)) else Rejected
  {
    hide ParseReadStreamId, ReadIdsOf;
    var words := keys + ids;
    BulksBack(words, 0);
    assert Bulks(words)[0..] == Bulks(words) && words[0..] == words;
    assert words[..|keys|] == keys && words[|keys|..] == ids;
    if ReadIdsOf(ids).Some? {
      assert Zip(keys, ReadIdsOf(ids).value) == Requested(keys, ids);
    }
  }

  lemma {:induction false} XReadOptions(opts: seq<(string, string)>, tail: seq<string>, block: Option<uint64>)
    requires BlockOptions(opts)
    ensures XReadArgs(Bulks(PairTexts(opts) + tail), block) == XReadArgs(Bulks(tail), LastBlock(opts, block))
    decreases |opts|
  {
    hide ToLower, ParseUInt64, StreamsOf;
    var data := Bulks(PairTexts(opts) + tail);
    if opts == [] {
      assert PairTexts(opts) + tail == tail;
    } else {
      assert data[2..] == Bulks(PairTexts(opts[1..]) + tail);
      assert data[0] == BulkString(opts[0].0) && data[1] == BulkString(opts[0].1);
      assert ToLower("block") == "block" && ToLower("streams") == "streams" by { Literals(); }
      XReadOptions(opts[1..], tail, ParseUInt64(opts[0].1));
    }
  }

  lemma XReadWords(opts: seq<(string, string)>, streams: string, keys: seq<string>, ids: seq<string>, block: Option<uint64>)
    requires ToLower(streams) == "streams" && |keys| == |ids| > 0 && BlockOptions(opts)
    ensures XReadArgs(Bulks(PairTexts(opts) + [streams] + (keys + ids)), block) == StreamsOf(Bulks(keys + ids), LastBlock(opts, block))
  {
    hide ToLower, ParseUInt64, StreamsOf, BlockOptions;
    var tail := [streams] + (keys + ids);
    XReadOptions(opts, tail, block);
    assert PairTexts(opts) + [streams] + (keys + ids) == PairTexts(opts) + tail;
    assert Bulks(tail)[1..] == Bulks(keys + ids);
  }

  /**
   What an XREAD refuses behind any options: another word, BLOCK without a number, and STREAMS with no words or
   an odd number of them. Options alone are accepted, and name no stream.
   */
  lemma XReadRefused(name: string, opts: seq<(string, string)>, tail: seq<string>)
    requires ToLower(name) == "xread" && BlockOptions(opts) && |PairTexts(opts) + tail| >= 3
    ensures var r := TryParse(Sent([name] + (PairTexts(opts) + tail)));
            && (tail == [] ==> r == Parsed(XRead([], LastBlock(opts, None))))
            && (tail != [] ==>
                  var word := ToLower(tail[0]);
                  && (word != "streams" && word != "block" ==> r == Rejected)
                  && (word == "block" && (|tail| < 2 || ParseUInt64(tail[1]).None?) ==> r == Rejected)
                  && (word == "streams" && (|tail| < 3 || |tail| % 2 == 0) ==> r == Rejected))
  {
    hide ToLower, ParseUInt64, BlockOptions, PairTexts, LastBlock, ReadIdsOf, BulkTexts;
    var words := PairTexts(opts) + tail;
    XReadOptions(opts, tail, None);
    assert Bulks([name] + words)[1..] == Bulks(words);
    if tail != [] {
      assert Bulks(tail)[1..] == Bulks(tail[1..]);
    }
  }

  lemma ShortXRead(name: string, args: seq<string>)
    requires ToLower(name) == "xread" && |args| < 3
    ensures TryParse(Sent([name] + args)) == Rejected
  {
    hide ToLower, XReadArgs;
  }

  /** These take any words; INFO in small letters, and CONFIG its first as the action. */
  lemma ListForms(name: string, args: seq<string>)
    ensures ToLower(name) == "replconf" ==> TryParse(Sent([name] + args)) == Parsed(ReplConf(args))
    ensures ToLower(name) == "psync" ==> TryParse(Sent([name] + args)) == Parsed(Psync(args))
    ensures ToLower(name) == "info" ==>
              TryParse(Sent([name] + args)) == Parsed(Info(seq(|args|, i requires 0 <= i < |args| => ToLower(args[i]))))
    ensures ToLower(name) == "config" ==>
              TryParse(Sent([name] + args)) == if args == [] then Parsed(Config("", [])) else Parsed(Config(args[0], args[1..]))
  {
    hide ToLower, BulkTexts;
    var words := [name] + args;
    BulksBack(words, 1);
    assert words[1..] == args;
    if args != [] {
      BulksBack(words, 2);
      assert words[2..] == args[1..];
    }
  }

  /** An XREAD with any such options is accepted, if every id can be read. */
  lemma XReadForms(name: string, opts: seq<(string, string)>, streams: string, keys: seq<string>, ids: seq<string>)
    requires ToLower(name) == "xread" && ToLower(streams) == "streams" && |keys| == |ids| > 0 && BlockOptions(opts)
    ensures TryParse(Sent([name] + (PairTexts(opts) + [streams] + (keys + ids)))) ==
            if forall i | 0 <= i < |ids| :: ParseReadStreamId(ids[i]).Some?
            then Parsed(XRead(Requested(keys, ids), LastBlock(opts, None))) else Rejected
  {
    hide ToLower, ParseUInt64, StreamsOf, XReadArgs, ParseReadStreamId, BlockOptions;
    var words := PairTexts(opts) + [streams] + (keys + ids);
    XReadWords(opts, streams, keys, ids, None);
    StreamsWords(keys, ids, LastBlock(opts, None));
    assert Bulks([name] + words)[1..] == Bulks(words);
  }

  /** In particular positions may be given by their time alone. */
  lemma XReadByTime(keys: seq<string>, times: seq<uint64>)
    requires |keys| == |times| > 0
    ensures var ids := seq(|times|, i requires 0 <= i < |times| => Print(times[i]));
            var request := seq(|times|, i requires 0 <= i < |times| => (keys[i], After(StreamId(times[i], 0))));
            TryParse(Sent(["XREAD"] + (PairTexts([]) + ["STREAMS"] + (keys + ids)))) == Parsed(XRead(request, None))
  {
    hide ParseReadStreamId, Print;
    var ids := seq(|times|, i requires 0 <= i < |times| => Print(times[i]));
    forall i | 0 <= i < |ids| ensures ParseReadStreamId(ids[i]) == Some(After(StreamId(times[i], 0))) {
      TimeIsRead(times[i]);
    }
    assert ToLower("XREAD") == "xread" && ToLower("STREAMS") == "streams";
    hide ToLower;
    XReadForms("XREAD", [], "STREAMS", keys, ids);
    assert Requested(keys, ids) == seq(|times|, i requires 0 <= i < |times| => (keys[i], After(StreamId(times[i], 0))));
  }

  // ----- Elements that are no bulk strings -----

  lemma {:induction false} PxNeedsBulks(rest: seq<Message>, px: Option<int32>, i: nat)
    requires i < |rest| && !rest[i].BulkString?
    ensures PxOf(rest, px) == None
    decreases |rest|
  {
    hide ToLower, ParseInt;
    if i >= 2 {
      assert rest[2..][i - 2] == rest[i];
      if rest[1].BulkString? && ParseInt(rest[1].data).Some? {
        PxNeedsBulks(rest[2..], ParseInt(rest[1].data), i - 2);
      }
    }
  }

  lemma {:induction false} PairsNeedBulks(rest: seq<Message>, i: nat)
    requires i < |rest| && !rest[i].BulkString?
    ensures PairsOf(rest) == None
    decreases |rest|
  {
    if i >= 2 {
      assert rest[2..][i - 2] == rest[i];
      PairsNeedBulks(rest[2..], i - 2);
    }
  }

  lemma {:induction false} ReadNeedsBulks(rest: seq<Message>, block: Option<uint64>, i: nat)
    requires i < |rest| && !rest[i].BulkString?
    ensures XReadArgs(rest, block) == Rejected
    decreases |rest|
  {
    hide ToLower, ParseUInt64;
    if i > 0 && rest[0].BulkString? {
      if ToLower(rest[0].data) == "streams" {
        assert rest[1..][i - 1] == rest[i];
      } else if i >= 2 {
        assert rest[2..][i - 2] == rest[i];
        if rest[1].BulkString? && ParseUInt64(rest[1].data).Some? {
          ReadNeedsBulks(rest[2..], ParseUInt64(rest[1].data), i - 2);
        }
      }
    }
  }

  /** The commands that look at all their words take bulk strings only. */
  lemma NeedsBulks(data: seq<Message>, i: nat)
    requires 0 < i < |data| && data[0].BulkString? && !data[i].BulkString?
    requires ToLower(data[0].data) in {"set", "info", "replconf", "psync", "config", "xadd", "xrange", "xread"}
    ensures TryParse(Array(data)) == Rejected
  {
    hide ToLower, PxOf, PairsOf, XReadArgs, BulkTexts, ParseInputStreamId, ParseBoundStreamId;
    assert data[1..][i - 1] == data[i];
    ReadNeedsBulks(data[1..], None, i - 1);
    if i >= 2 {
      assert data[2..][i - 2] == data[i];
    }
    if i >= 3 {
      assert data[3..][i - 3] == data[i];
      PxNeedsBulks(data[3..], None, i - 3);
      PairsNeedBulks(data[3..], i - 3);
    }
  }
}
