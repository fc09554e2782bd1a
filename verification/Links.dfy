/**
 One replication connection seen from both ends: the handshake, the pushed messages and the ACKs.

 `LinkInv` relates what the master has said, what the replica has heard, and the counters of both. It
 speaks of one connection only; `Replication` lifts it to all of them.
 */
module Links {
  import opened Prelude
  import opened Decimal
  import opened Messages
  import opened Commands
  import opened CommandRoundTrip
  import opened Replicas

  datatype SetArgs = SetArgs(key: string, value: string, px: Option<int32>)

  /**
   A connection between the master and a replica. `replica` is the program's state of the replica's
   talker, `id` the one of the master's talker. The rest is history: messages `told` to the replica,
   offsets `acked` to the master, the SETs the master executed `since` it started writing to this
   replica, how many it had executed at that `start`, and the replica's map `base` right after the
   snapshot.
   */
  datatype Peer = Peer(
    open: bool, id: Option<ReplicaId>, port: string, replica: Replica,
    told: seq<Message>, acked: seq<nat>, since: seq<SetArgs>, start: nat, base: map<string, Stored>)

  const REPLIES := [SimpleString("PONG"), SimpleString("OK"), SimpleString("OK")]

  /** What a replica says to open the connection. */
  function Opening(port: string): seq<Message> {
    [Construct(Ping), Construct(ReplConf(["listening-port", port])), Construct(ReplConf(["capa", "psync2"])), Construct(Psync(["?", "-1"]))]
  }

  /** The state of a replica that has heard `n` messages. */
  function StateAt(n: nat): ReplicaState {
    if n == 0 then WaitFirstPong else if n == 1 then WaitOkForPort else if n == 2 then WaitOkForCapa
    else if n == 3 then WaitPsyncAnswer else if n == 4 then WaitRdb else WaitServerCommands
  }

  /** The messages after the handshake: PONG, OK, OK, FULLRESYNC and the snapshot come first. */
  function Log(said: seq<Message>): seq<Message> {
    if |said| >= 5 then said[5..] else []
  }

  /** The SET a message carries. */
  function SetIn(m: Message): seq<SetArgs> {
    match TryParse(m)
    case Parsed(Set(key, value, px)) => [SetArgs(key, value, px)]
    case _ => []
  }

  function SetsOf(log: seq<Message>): seq<SetArgs> {
    if log == [] then [] else SetsOf(log[..|log| - 1]) + SetIn(log[|log| - 1])
  }

  function ApplyAll(store: map<string, Stored>, sets: seq<SetArgs>): map<string, Stored> {
    if sets == [] then store
    else
      var last := sets[|sets| - 1];
      ApplyAll(store, sets[..|sets| - 1])[last.key := Stored(last.value, last.px)]
  }

  /** The offsets a replica answers when it processes a log: the bytes before each GETACK. */
  function AcksOf(log: seq<Message>): seq<nat> {
    if log == [] then []
    else
      var before := log[..|log| - 1];
      AcksOf(before) + if log[|log| - 1] == GETACK then [|ToStrings(before)|] else []
  }

  function AckMessages(offsets: seq<nat>): seq<Message> {
    seq(|offsets|, i requires 0 <= i < |offsets| => AckMessage(offsets[i]))
  }

  /** The last offset that the master's 32-bit parser accepts; 0 if none was. */
  function Latest(offsets: seq<nat>): nat {
    if offsets == [] then 0
    else
      var last := offsets[|offsets| - 1];
      if last < INT32_LIMIT then last else Latest(offsets[..|offsets| - 1])
  }

  /** An expiry that SET accepts. */
  predicate PxAccepted(px: Option<int32>) {
    px.Some? ==> px.value > 0
  }

  /** What a master pushes: GETACK, or a SET. */
  predicate IsPush(m: Message) {
    m.Array? &&
    (m == GETACK || (TryParse(m).Parsed? && TryParse(m).command.Set? && m == Construct(TryParse(m).command)))
  }

  predicate AllPushes(log: seq<Message>) {
    forall i | 0 <= i < |log| :: IsPush(log[i])
  }

  // ----- Facts about single messages -----

  lemma SetIsPush(key: string, value: string, px: Option<int32>)
    requires PxAccepted(px)
    ensures IsPush(SetMessage(key, value, px))
    ensures SetIn(SetMessage(key, value, px)) == [SetArgs(key, value, px)]
    ensures SetMessage(key, value, px) != GETACK
  {
    SetParses(Set(key, value, px));
    ArgumentCommandParses(ReplConf(["GETACK", "*"]));
    hide TryParse;
  }

  lemma GetackIsPush()
    ensures IsPush(GETACK) && SetIn(GETACK) == []
  {
    ArgumentCommandParses(ReplConf(["GETACK", "*"]));
    hide TryParse;
  }

  lemma PushHasSize(m: Message)
    requires IsPush(m)
    ensures Size(m) > 0
  {
    hide TryParse;
  }

  lemma ProcessGetack(r: Replica)
    ensures ReplicaProcess(r, GETACK) == r.(says := r.says + [AckMessage(r.bytesIn)], bytesIn := r.bytesIn + Size(GETACK))
  {
    ArgumentCommandParses(ReplConf(["GETACK", "*"]));
    assert ToLower("GETACK") == "getack";
    hide TryParse, Construct, ToString, AckMessage;
  }

  lemma ApplyOne(store: map<string, Stored>, one: SetArgs)
    ensures ApplyAll(store, [one]) == store[one.key := Stored(one.value, one.px)]
  {
    assert [one][..0] == [];
    assert ApplyAll(store, []) == store;
  }

  /** A replica in command mode applies a SET and answers a GETACK. */
  lemma ProcessPush(r: Replica, m: Message)
    requires IsPush(m)
    ensures var after := ReplicaProcess(r, m);
            && after.state == r.state && after.bytesIn == r.bytesIn + Size(m)
            && after.says == r.says + (if m == GETACK then [AckMessage(r.bytesIn)] else [])
            && after.store == ApplyAll(r.store, SetIn(m))
  {
    hide TryParse, Construct, ToString, AckMessage, ToLower;
    if m == GETACK {
      ProcessGetack(r);
      GetackIsPush();
      assert ApplyAll(r.store, []) == r.store;
    } else {
      var c := TryParse(m).command;
      ApplyOne(r.store, SetArgs(c.key, c.value, c.expireMs));
    }
  }

  /** How the master reads the messages a replica sends. */
  lemma OpeningParses(port: string)
    ensures TryParse(Opening(port)[0]) == Parsed(Ping)
    ensures TryParse(Opening(port)[1]) == Parsed(ReplConf(["listening-port", port]))
    ensures TryParse(Opening(port)[2]) == Parsed(ReplConf(["capa", "psync2"]))
    ensures TryParse(Opening(port)[3]) == Parsed(Psync(["?", "-1"]))
    ensures ToLower("listening-port") != "ack" && ToLower("capa") != "ack"
  {
    hide TryParse;
    ShortCommandParses(Ping);
    ArgumentCommandParses(ReplConf(["listening-port", port]));
    ArgumentCommandParses(ReplConf(["capa", "psync2"]));
    ArgumentCommandParses(Psync(["?", "-1"]));
    assert |ToLower("listening-port")| == 14 && |ToLower("capa")| == 4;
  }

  lemma AckParses(offset: nat)
    ensures TryParse(AckMessage(offset)) == Parsed(ReplConf(["ACK", Print(offset)]))
    ensures ToLower("ACK") == "ack"
    ensures ParseInt(Print(offset)) == if offset < INT32_LIMIT then Some(offset) else None
  {
    hide TryParse, Print;
    ArgumentCommandParses(ReplConf(["ACK", Print(offset)]));
    ParseIntPrint(offset);
    assert PrintInt(offset) == Print(offset);
  }

  // ----- Facts about logs -----

  lemma LogSnoc(log: seq<Message>, m: Message)
    ensures (log + [m])[..|log|] == log
    ensures SetsOf(log + [m]) == SetsOf(log) + SetIn(m)
    ensures AcksOf(log + [m]) == AcksOf(log) + if m == GETACK then [|ToStrings(log)|] else []
    ensures |ToStrings(log + [m])| == |ToStrings(log)| + Size(m)
  {
    hide SetIn, ToString;
    assert (log + [m])[..|log|] == log;
    ToStringsAppend(log, [m]);
    ToStringsOne(m);
  }

  lemma ApplyAppend(store: map<string, Stored>, sets: seq<SetArgs>, m: Message)
    ensures ApplyAll(store, sets + SetIn(m)) == ApplyAll(ApplyAll(store, sets), SetIn(m))
  {
    hide TryParse;
    if SetIn(m) == [] {
      assert sets + [] == sets;
    } else {
      var one := SetIn(m)[0];
      assert SetIn(m) == [one] && [one][..0] == [];
      assert (sets + [one])[..|sets|] == sets;
      assert ApplyAll(ApplyAll(store, sets), []) == ApplyAll(store, sets);
    }
  }

  lemma LatestSnoc(offsets: seq<nat>, n: nat)
    ensures Latest(offsets + [n]) == if n < INT32_LIMIT then n else Latest(offsets)
  {
    assert (offsets + [n])[..|offsets|] == offsets;
  }

  /** Longer logs have answered more, and the same first. */
  lemma {:induction false} AcksGrow(log: seq<Message>, more: seq<Message>)
    ensures AcksOf(log) <= AcksOf(log + more)
    decreases |more|
  {
    if more == [] {
      assert log + more == log;
    } else {
      var init := more[..|more| - 1];
      AcksGrow(log, init);
      assert log + more == log + init + [more[|more| - 1]];
      LogSnoc(log + init, more[|more| - 1]);
    }
  }

  /** Every ACK is the size of the log before some GETACK in it. */
  lemma {:induction false} AckIsOffset(log: seq<Message>, k: nat) returns (j: nat)
    requires k < |AcksOf(log)|
    ensures j < |log| && log[j] == GETACK && AcksOf(log)[k] == |ToStrings(log[..j])|
    ensures |AcksOf(log[..j])| == k
    decreases |log|
  {
    var before := log[..|log| - 1];
    if k < |AcksOf(before)| {
      j := AckIsOffset(before, k);
      assert before[..j] == log[..j];
    } else {
      j := |log| - 1;
    }
  }

  /** The sizes of prefixes of a log grow with their length. */
  lemma {:induction false} PrefixSizes(log: seq<Message>, i: nat, j: nat)
    requires AllPushes(log) && i < j <= |log|
    ensures |ToStrings(log[..i])| < |ToStrings(log[..j])|
    decreases j
  {
    hide ToString, ToStrings, IsPush;
    var m := log[j - 1];
    assert log[..j] == log[..j - 1] + [m];
    ToStringsAppend(log[..j - 1], [m]);
    ToStringsOne(m);
    PushHasSize(m);
    assert |ToString(m)| > 0 by { SizeIs(m); }
    if i < j - 1 {
      PrefixSizes(log, i, j - 1);
    }
  }

  lemma SizeIs(m: Message)
    ensures Size(m) == |ToString(m)|
  {
  }

  // ----- The invariant of one connection -----

  /** The handshake: strict turns, a scripted message each, no handle in WRITE. */
  ghost predicate Opens(p: Peer, said: seq<Message>, h: Option<Handle>) {
    && |said| <= 3 && said == REPLIES[..|said|]
    && |p.told| <= |said| <= |p.told| + 1
    && p.replica.says == Opening(p.port)[|said|..|p.told| + 1]
    && p.acked == [] && p.since == []
    && (h.Some? <==> |said| >= 2)
    && (h.Some? ==> h.value.state.MET? && h.value.bytesPushed == 0 && h.value.bytesAck == 0)
  }

  /** After PSYNC: answer and snapshot, then pushes only, all counted. */
  ghost predicate Writes(p: Peer, said: seq<Message>, h: Option<Handle>) {
    var log, done := Log(said), Log(p.told);
    && |said| >= 5 && |p.told| >= 3
    && said[..3] == REPLIES && said[3].SimpleString? && said[4].SyncResponse?
    && AllPushes(log) && SetsOf(log) == p.since
    && h.Some? && h.value.state.WRITE?
    && h.value.bytesPushed == |ToStrings(log)|
    && h.value.bytesAck == Latest(p.acked)
    && p.acked <= AcksOf(done)
    && p.replica.says == AckMessages(AcksOf(done)[|p.acked|..])
  }

  /** `out` is what the master has said and the replica has not heard, `h` the replica's handle. */
  ghost predicate LinkInv(p: Peer, out: seq<Message>, h: Option<Handle>) {
    var said := p.told + out;
    && p.replica.state == StateAt(|p.told|)
    && p.replica.bytesIn == |ToStrings(Log(p.told))|
    && (h.Some? <==> p.id.Some?)
    && if |said| <= 3 then Opens(p, said, h) else Writes(p, said, h)
  }

  /** The replica's map is its map after the snapshot with the SETs it has processed applied. */
  ghost predicate Applied(p: Peer) {
    |p.told| >= 5 ==> p.replica.store == ApplyAll(p.base, SetsOf(Log(p.told)))
  }

  // ----- Steps -----

  /** A new connection: the replica has said PING. */
  function NewPeer(port: string, store: map<string, Stored>): Peer {
    Peer(true, None, port, NewReplica(store), [], [], [], 0, map[])
  }

  lemma LinkStarts(port: string, store: map<string, Stored>)
    ensures LinkInv(NewPeer(port, store), [], None) && Applied(NewPeer(port, store))
  {
    hide Construct;
    assert Opening(port)[0..1] == [Construct(Ping)];
    assert REPLIES[..0] == [];
  }

  /** The peer after its replica has heard `m`. */
  function PeerHears(p: Peer, m: Message, restored: map<string, Stored>): Peer {
    var after := ReplicaHear(p.replica, m, p.port, restored);
    p.(told := p.told + [m], replica := after,
       base := if p.replica.state.WaitRdb? then after.store else p.base)
  }

  /** The stages: at most three messages said, or at least five. */
  lemma LinkStage(p: Peer, out: seq<Message>, h: Option<Handle>)
    requires LinkInv(p, out, h)
    ensures var said := p.told + out;
            && (h.Some? <==> p.id.Some?)
            && (|said| <= 3 ==> (h.Some? <==> |said| >= 2))
            && (|said| > 3 ==> |said| >= 5 && |p.told| >= 3 && h.Some? && h.value.state.WRITE?)
            && (h.Some? && h.value.state.WRITE? ==> |said| >= 5)
  {
    hide Construct, TryParse, ToStrings, ToString, AcksOf, SetsOf, AckMessages, Opening;
  }

  lemma LinkHears(p: Peer, out: seq<Message>, h: Option<Handle>, restored: map<string, Stored>)
    requires LinkInv(p, out, h) && Applied(p) && out != []
    ensures LinkInv(PeerHears(p, out[0], restored), out[1..], h) && Applied(PeerHears(p, out[0], restored))
  {
    hide LinkInv, Applied, PeerHears;
    LinkStage(p, out, h);
    if |p.told + out| <= 3 {
      HearsReply(p, out, h, restored);
    } else if |p.told| < 5 {
      HearsSnapshot(p, out, h, restored);
    } else {
      HearsPush(p, out, h, restored);
    }
  }

  lemma HearsReply(p: Peer, out: seq<Message>, h: Option<Handle>, restored: map<string, Stored>)
    requires LinkInv(p, out, h) && out != [] && |p.told + out| <= 3
    ensures LinkInv(PeerHears(p, out[0], restored), out[1..], h) && Applied(PeerHears(p, out[0], restored))
  {
    hide Construct, TryParse, ToStrings;
    var m, after := out[0], PeerHears(p, out[0], restored);
    var said, t := p.told + out, |p.told|;
    assert after.told + out[1..] == said;
    assert m == said[t] && m == REPLIES[t];
    assert |out| == 1 && p.replica.says == [];
    assert ToLower("PONG") == "pong" && ToLower("OK") == "ok";
    OneOf(Opening(p.port), t + 1);
    assert after.replica.says == [Opening(p.port)[t + 1]];
  }

  lemma OneOf(ms: seq<Message>, i: nat)
    requires i < |ms|
    ensures ms[i..i + 1] == [ms[i]]
  {
  }

  lemma HearsSnapshot(p: Peer, out: seq<Message>, h: Option<Handle>, restored: map<string, Stored>)
    requires LinkInv(p, out, h) && out != [] && 3 <= |p.told| < 5 && |p.told + out| > 3
    ensures LinkInv(PeerHears(p, out[0], restored), out[1..], h) && Applied(PeerHears(p, out[0], restored))
  {
    hide Construct, TryParse;
    var m, after := out[0], PeerHears(p, out[0], restored);
    var said, t := p.told + out, |p.told|;
    assert after.told + out[1..] == said && m == said[t];
    assert p.replica.says == [];
    assert Log(after.told) == [];
    if t == 3 {
      HeardBanner(p, out, h, restored);
    }
    assert after.replica.says == AckMessages(AcksOf([])[0..]);
  }

  lemma HeardBanner(p: Peer, out: seq<Message>, h: Option<Handle>, restored: map<string, Stored>)
    requires LinkInv(p, out, h) && out != [] && |p.told| == 3 && |p.told + out| > 3
    ensures out[0].SimpleString?
  {
    hide Construct, TryParse, ToStrings;
    assert (p.told + out)[3] == out[0];
  }

  /** Processing one more message answers at most one more ACK. */
  lemma AcksOfNext(done: seq<Message>, m: Message, k: nat)
    requires k <= |AcksOf(done)|
    ensures k <= |AcksOf(done + [m])| && AcksOf(done) <= AcksOf(done + [m])
    ensures AckMessages(AcksOf(done + [m])[k..]) ==
            AckMessages(AcksOf(done)[k..]) + if m == GETACK then [AckMessage(|ToStrings(done)|)] else []
  {
    hide ToStrings, SetIn, AckMessage;
    LogSnoc(done, m);
    var added := if m == GETACK then [|ToStrings(done)|] else [];
    assert AcksOf(done + [m])[k..] == AcksOf(done)[k..] + added;
    assert AckMessages(AcksOf(done)[k..] + added) == AckMessages(AcksOf(done)[k..]) + AckMessages(added);
  }

  lemma HearsPush(p: Peer, out: seq<Message>, h: Option<Handle>, restored: map<string, Stored>)
    requires LinkInv(p, out, h) && Applied(p) && out != [] && |p.told| >= 5
    ensures LinkInv(PeerHears(p, out[0], restored), out[1..], h) && Applied(PeerHears(p, out[0], restored))
  {
    hide Construct, TryParse, ToStrings, ToString, IsPush, ReplicaProcess, AcksOf, SetsOf, ApplyAll, AckMessages, AckMessage;
    var m, after := out[0], PeerHears(p, out[0], restored);
    var said, done := p.told + out, Log(p.told);
    assert after.told + out[1..] == said;
    assert Log(after.told) == done + [m];
    assert m == Log(said)[|done|];
    assert IsPush(m);
    ProcessPush(p.replica, m);
    LogSnoc(done, m);
    ApplyAppend(p.base, SetsOf(done), m);
    AcksOfNext(done, m, |p.acked|);
  }

  /** A push to a replica in WRITE. */
  lemma LinkPush(p: Peer, out: seq<Message>, h: Handle, m: Message)
    requires LinkInv(p, out, Some(h)) && h.state.WRITE? && IsPush(m)
    ensures LinkInv(p.(since := p.since + SetIn(m)), out + [m], Some(PushHandle(h, m)))
  {
    hide Construct, TryParse, ToStrings, ToString, IsPush, SetIn;
    var said := p.told + out;
    assert p.told + (out + [m]) == said + [m];
    assert Log(said + [m]) == Log(said) + [m];
    LogSnoc(Log(said), m);
  }

  /** Nothing was ever pushed to a replica that is not in WRITE. */
  lemma LinkNotWriting(p: Peer, out: seq<Message>, h: Handle)
    requires LinkInv(p, out, Some(h)) && !h.state.WRITE?
    ensures h.bytesPushed == 0 && h.bytesAck == 0 && Log(p.told + out) == []
  {
    hide Construct, TryParse, ToStrings;
  }

  /** What the master hears next, by stage. */
  lemma LinkNextSaid(p: Peer, out: seq<Message>, h: Option<Handle>)
    requires LinkInv(p, out, h) && p.replica.says != []
    ensures var said := p.told + out;
            && |said| != 4
            && (|said| <= 3 ==> p.replica.says == [Opening(p.port)[|said|]] && out == [])
            && (|said| >= 5 ==> |p.acked| < |AcksOf(Log(p.told))| && p.replica.says[0] == AckMessage(AcksOf(Log(p.told))[|p.acked|]))
  {
    hide Construct, TryParse, ToStrings;
    var said := p.told + out;
    if |said| <= 3 {
      assert |said| < |p.told| + 1;
      assert Opening(p.port)[|said|..|p.told| + 1] == [Opening(p.port)[|said|]];
    }
  }

  lemma LinkPong(p: Peer, out: seq<Message>, h: Option<Handle>)
    requires LinkInv(p, out, h) && p.replica.says != [] && |p.told + out| == 0
    ensures LinkInv(p.(replica := p.replica.(says := p.replica.says[1..])), out + [SimpleString("PONG")], h)
  {
    hide Construct, TryParse, ToStrings;
    LinkNextSaid(p, out, h);
    assert p.told == [] && out == [];
    assert p.told + (out + [SimpleString("PONG")]) == [SimpleString("PONG")] == REPLIES[..1];
    assert Opening(p.port)[1..1] == [];
  }

  lemma LinkOk(p: Peer, out: seq<Message>, h: Option<Handle>, id: ReplicaId, slot: Conn)
    requires LinkInv(p, out, h) && p.replica.says != [] && 1 <= |p.told + out| <= 2
    requires |p.told + out| == 2 ==> p.id == Some(id)
    ensures LinkInv(p.(id := Some(id), replica := p.replica.(says := p.replica.says[1..])), out + [SimpleString("OK")],
                    if h.Some? then h else Some(Handle(MET, slot, 0, 0)))
  {
    hide Construct, TryParse, ToStrings;
    LinkNextSaid(p, out, h);
    var said := p.told + out;
    assert p.told + (out + [SimpleString("OK")]) == said + [SimpleString("OK")] == REPLIES[..|said| + 1];
    assert Opening(p.port)[|said| + 1..|p.told| + 1] == [];
  }

  lemma LinkPsync(p: Peer, out: seq<Message>, h: Option<Handle>, banner: string, dump: string)
    requires LinkInv(p, out, h) && p.replica.says != [] && |p.told + out| == 3
    ensures h.Some? && h.value.state.MET?
    ensures LinkInv(p.(replica := p.replica.(says := p.replica.says[1..])), out + [SimpleString(banner), SyncResponse(dump)],
                    Some(h.value.(state := WRITE)))
  {
    hide Construct, TryParse;
    LinkNextSaid(p, out, h);
    var said := p.told + out;
    var more := [SimpleString(banner), SyncResponse(dump)];
    assert p.told + (out + more) == said + more;
    assert REPLIES[..3] == REPLIES;
    assert (said + more)[..3] == REPLIES;
    assert Log(said + more) == [] && Log(p.told) == [];
    assert AckMessages(AcksOf([])[0..]) == [];
  }

  lemma LinkAck(p: Peer, out: seq<Message>, h: Option<Handle>)
    requires LinkInv(p, out, h) && p.replica.says != [] && |p.told + out| >= 5
    ensures h.Some? && |p.acked| < |AcksOf(Log(p.told))|
    ensures var n := AcksOf(Log(p.told))[|p.acked|];
            LinkInv(p.(acked := p.acked + [n], replica := p.replica.(says := p.replica.says[1..])), out,
                    Some(h.value.(bytesAck := if n < INT32_LIMIT then n else h.value.bytesAck)))
  {
    hide Construct, TryParse, ToStrings, IsPush;
    LinkNextSaid(p, out, h);
    var acks := AcksOf(Log(p.told));
    var n := acks[|p.acked|];
    LatestSnoc(p.acked, n);
    assert AckMessages(acks[|p.acked|..])[1..] == AckMessages(acks[|p.acked| + 1..]);
  }
}
