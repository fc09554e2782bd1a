/**
 Two runs in which a WAIT counts wrongly. In one it loses a replica that has done everything: two WAITs
 overlap, and the second hears the answer to the first one's GETACK, which is too low for it. In the other
 it counts a replica that has done nothing, since the master does not write to it yet.
 */
module WaitRuns {
  import opened Prelude
  import opened Decimal
  import opened Messages
  import opened Commands
  import opened Replicas
  import opened Links
  import opened Replication
  import opened WaitTickets
  import opened WaitSoundness
  import opened ReplicationTheorems

  const HEARS: Step := MasterHears(0, "FULLRESYNC", "REDIS")
  const READS: Step := ReplicaHears(0, map[])
  const WAITS: Step := ClientWait(1)

  const OPENING_STEPS := [Join(0, "6380", map[]), HEARS, READS, HEARS, READS, HEARS, READS, HEARS, READS, READS]
  const ONE_SET := SetMessage("k", "v", None)

  lemma RunMore(store: map<string, Stored>, steps: seq<Step>, w: World, s: Step)
    requires Run(store, steps) == Some(w) && Enabled(w, s)
    ensures Run(store, steps + [s]) == Some(Take(w, s))
  {
    hide Take, Enabled, Start;
    assert (steps + [s])[..|steps|] == steps;
  }

  /** One connection, at a point of the handshake; nobody has asked anything. */
  ghost predicate AtStage(steps: seq<Step>, w: World, told: nat, said: nat) {
    && Run(map[], steps) == Some(w) && w.peers.Keys == {0} && 0 in w.master.outbox && w.peers[0].open
    && |w.peers[0].told| == told && |Said(w, 0)| == said
    && w.master.nextReplica == (if said >= 2 then 1 else 0)
    && w.master.replicas.Keys == (if said >= 2 then {0} else {})
    && w.master.waits == [] && w.master.answers == [] && w.master.timers == map[] && w.master.nextWait == 0
  }

  lemma Joins() returns (w: World)
    ensures AtStage([Join(0, "6380", map[])], w, 0, 0) && w.written == []
  {
    hide NewPeer, Construct;
    var s := Join(0, "6380", map[]);
    RunMore(map[], [], Start(map[]), s);
    assert [] + [s] == [s];
    NewPeerIsFresh();
    w := Take(Start(map[]), s);
  }

  lemma NewPeerIsFresh()
    ensures NewPeer("6380", map[]).told == [] && NewPeer("6380", map[]).open
  {
  }

  lemma Reads(steps: seq<Step>, w: World, told: nat, said: nat) returns (after: World)
    requires told < said && AtStage(steps, w, told, said)
    ensures AtStage(steps + [READS], after, told + 1, said) && after.written == w.written
  {
    hide ReplicaHear, Run, Construct;
    RunMore(map[], steps, w, READS);
    after := Take(w, READS);
    assert Said(after, 0) == Said(w, 0);
  }

  lemma Hears(steps: seq<Step>, w: World, said: nat) returns (after: World)
    requires said <= 3 && AtStage(steps, w, said, said)
    ensures AtStage(steps + [HEARS], after, said, if said == 3 then 5 else said + 1) && after.written == w.written
  {
    hide LinkInv, Applied, Owed, DoMasterHears, Registry, Run, Construct;
    OpenLink(map[], steps, w, 0);
    HasSomethingToSay(w.peers[0], w.master.outbox[0], HandleOf(w.master, w.peers[0]));
    RunMore(map[], steps, w, HEARS);
    after := Take(w, HEARS);
    var more := OpeningShape(w, 0, "FULLRESYNC", "REDIS");
    assert Said(after, 0) == Said(w, 0) + more;
    StaysOpen(w);
  }

  lemma HasSomethingToSay(p: Peer, out: seq<Message>, h: Option<Handle>)
    requires LinkInv(p, out, h) && |p.told + out| == |p.told| <= 3
    ensures p.replica.says != []
  {
    hide Construct, ToStrings, Writes;
    assert |Opening(p.port)| == 4;
  }

  lemma StaysOpen(w: World)
    requires 0 in w.peers && w.peers[0].open && 0 in w.master.outbox && w.peers[0].replica.says != []
    ensures 0 in DoMasterHears(w, 0, "FULLRESYNC", "REDIS").peers && DoMasterHears(w, 0, "FULLRESYNC", "REDIS").peers[0].open
  {
    hide ServerHear, AcksOf, Log;
  }

  lemma Opened() returns (w: World)
    ensures AtStage(OPENING_STEPS, w, 5, 5)
  {
    hide AtStage;
    var s := [Join(0, "6380", map[])];
    w := Joins();
    w := Hears(s, w, 0);
    w := Reads(s + [HEARS], w, 0, 1);
    s := s + [HEARS] + [READS];
    w := Hears(s, w, 1);
    w := Reads(s + [HEARS], w, 1, 2);
    s := s + [HEARS] + [READS];
    w := Hears(s, w, 2);
    w := Reads(s + [HEARS], w, 2, 3);
    s := s + [HEARS] + [READS];
    w := Hears(s, w, 3);
    w := Reads(s + [HEARS], w, 3, 5);
    w := Reads(s + [HEARS] + [READS], w, 4, 5);
    assert s + [HEARS] + [READS] + [READS] == OPENING_STEPS;
  }

  // ----- One SET, two WAITs -----

  /** The replica is written to; `log` was pushed, it has processed `done` messages of it and `acked` ACKs were heard. */
  ghost predicate Writing(steps: seq<Step>, w: World, log: seq<Message>, done: nat, acked: nat, waits: seq<Waiting>, answers: seq<Answer>) {
    && Run(map[], steps) == Some(w) && w.peers.Keys == {0} && 0 in w.master.outbox && w.peers[0].open && w.peers[0].id == Some(0)
    && w.master.replicas.Keys == {0} && w.master.replicas[0].state.WRITE?
    && 0 in w.homes && w.homes[0] == 0 && |w.peers[0].told| == 5 + done && Pushed(w, 0) == log
    && |w.peers[0].acked| == acked
    && w.master.waits == waits && w.master.answers == answers && w.master.nextWait == |waits| + |answers|
    && (forall id | id in w.master.timers :: id < w.master.nextWait)
  }

  lemma StartsWriting(w: World)
    requires AtStage(OPENING_STEPS, w, 5, 5)
    ensures Writing(OPENING_STEPS, w, [], 0, 0, [], [])
  {
    hide LinkInv, Applied, Owed, Run, Construct, Inv, Log;
    OpenLink(map[], OPENING_STEPS, w, 0);
    RegisteredHere(w);
    LinkStage(w.peers[0], w.master.outbox[0], HandleOf(w.master, w.peers[0]));
    NothingAcked(w.peers[0], w.master.outbox[0], HandleOf(w.master, w.peers[0]));
    assert Log(Said(w, 0)) == [] by { NoLog(Said(w, 0)); }
  }

  lemma NoLog(said: seq<Message>)
    ensures |said| == 5 ==> Log(said) == []
  {
  }

  /** The only replica is at the only connection. */
  lemma RegisteredHere(w: World)
    requires Inv(w) && w.peers.Keys == {0} && 0 in w.master.replicas
    ensures 0 in w.homes && w.homes[0] == 0 && w.peers[0].id == Some(0)
  {
    hide LinkHolds;
    assert w.master.replicas[0].slot in w.peers;
  }

  lemma NothingAcked(p: Peer, out: seq<Message>, h: Option<Handle>)
    requires LinkInv(p, out, h) && |p.told + out| == 5 == |p.told|
    ensures p.acked == []
  {
    hide Construct, ToStrings, IsPush;
    assert Log(p.told) == [];
  }

  /** What stays with the replica when something is pushed to it. */
  lemma PushStays(w: World, after: World, m: Message)
    requires Inv(w) && 0 in w.homes && w.homes[0] == 0 && 0 in w.peers && 0 in w.master.outbox && w.peers[0].id == Some(0)
    requires w.master.replicas.Keys == {0} && w.master.replicas[0].state.WRITE? && w.peers[0].open
    requires after.master.replicas == PushTo(w.master, {0}, m).replicas && after.master.outbox == PushTo(w.master, {0}, m).outbox
    requires after.homes == w.homes && 0 in after.peers && after.peers[0].told == w.peers[0].told
    ensures after.master.replicas.Keys == {0} && after.master.replicas[0].state.WRITE? && 0 in after.master.outbox
    ensures Pushed(after, 0) == Pushed(w, 0) + [m]
  {
    hide Inv, LinkInv, Applied, Owed, PushTo, ToString, Registry, Log;
    InvRegistry(w);
    PushEffect(w, {0}, m, 0);
    RegisteredLink(w, 0);
    LinkStage(w.peers[0], w.master.outbox[0], HandleOf(w.master, w.peers[0]));
    assert Said(after, 0) == Said(w, 0) + [m];
    LogGrows(Said(w, 0), m);
    assert HandleOf(PushTo(w.master, {0}, m), w.peers[0]) == Some(PushHandle(w.master.replicas[0], m));
  }

  lemma Sets(steps: seq<Step>, w: World) returns (v: World)
    requires Writing(steps, w, [], 0, 0, [], [])
    ensures Writing(steps + [ClientSet("k", "v", None)], v, [ONE_SET], 0, 0, [], [])
  {
    hide Run, PushTo, SetMessage, Construct, Log, Inv, Pushed;
    var s := ClientSet("k", "v", None);
    RunMore(map[], steps, w, s);
    v := Take(w, s);
    RunKeeps(map[], steps);
    PushIgnores(w.master.(store := w.master.store["k" := Stored("v", None)]), w.master, {0}, ONE_SET);
    PushStays(w, v, ONE_SET);
    assert [] + [ONE_SET] == [ONE_SET];
  }

  /** A WAIT that is set up while everything pushed so far is unacknowledged. */
  function Asking(id: WaitId, log: seq<Message>): Waiting {
    Waiting(id, 1, 0, map[0 := |ToStrings(log)|], {})
  }

  lemma Waits(steps: seq<Step>, w: World, log: seq<Message>, waits: seq<Waiting>) returns (v: World)
    requires Writing(steps, w, log, 0, 0, waits, []) && log != []
    ensures Writing(steps + [WAITS], v, log + [GETACK], 0, 0, waits + [Asking(|waits|, log)], [])
  {
    hide Run, PushTo, Construct, Inv, Pushed, ToStrings, DoWait, Enabled, Take;
    WaitIsTaken(w);
    RunMore(map[], steps, w, WAITS);
    v := Take(w, WAITS);
    RunKeeps(map[], steps);
    NobodyUpToDate(steps, w, log);
    WaitEffect(w, log);
    PushStays(w, v, GETACK);
  }

  lemma WaitIsTaken(w: World)
    ensures Enabled(w, WAITS) && Take(w, WAITS) == DoWait(w, 1)
  {
  }

  lemma WaitEffect(w: World, log: seq<Message>)
    requires w.master.replicas.Keys == {0} && w.master.answers == []
    requires UpToDate(w.master.replicas) == {} && Lagging(w.master.replicas) == map[0 := |ToStrings(log)|]
    ensures var v, pushed := DoWait(w, 1), PushTo(w.master, {0}, GETACK);
            && v.peers == w.peers && v.homes == w.homes && v.master.replicas == pushed.replicas && v.master.outbox == pushed.outbox
            && v.master.waits == w.master.waits + [Asking(w.master.nextWait, log)] && v.master.answers == []
            && v.master.nextWait == w.master.nextWait + 1 && v.master.timers == w.master.timers[w.master.nextWait := true]
  {
    hide PushTo, Construct, WaitFor, UpToDate, Lagging, ToStrings, Pushed, Acks;
    var ma := w.master;
    assert |ma.replicas| == |ma.replicas.Keys| == 1;
    WaitShape(ma, 1);
    assert Lagging(ma.replicas).Keys == {0};
    assert ma.answers + [] == [];
  }

  lemma NobodyUpToDate(steps: seq<Step>, w: World, log: seq<Message>)
    requires Run(map[], steps) == Some(w) && w.master.replicas.Keys == {0} && Pushed(w, 0) == log != []
    ensures UpToDate(w.master.replicas) == {} && Lagging(w.master.replicas) == map[0 := |ToStrings(log)|]
  {
    hide Run, Pushed, Inv, ToStrings, Acks, AcksOf, Latest;
    AckStaysBelow(map[], steps, w, 0);
    RunKeeps(map[], steps);
    Counters(w, 0);
  }

  /** The replica processes the next message. */
  lemma Processes(steps: seq<Step>, w: World, log: seq<Message>, done: nat, acked: nat, waits: seq<Waiting>, answers: seq<Answer>) returns (v: World)
    requires Writing(steps, w, log, done, acked, waits, answers) && done < |log|
    ensures Writing(steps + [READS], v, log, done + 1, acked, waits, answers)
  {
    hide Run, ReplicaHear;
    assert |Said(w, 0)| == 5 + |log|;
    RunMore(map[], steps, w, READS);
    v := Take(w, READS);
    assert Said(v, 0) == Said(w, 0);
  }

  /** The master hears the next ACK. */
  lemma HearsAck(steps: seq<Step>, w: World, log: seq<Message>, done: nat, acked: nat, waits: seq<Waiting>, answers: seq<Answer>, n: nat)
    returns (v: World)
    requires Writing(steps, w, log, done, acked, waits, answers) && done <= |log|
    requires acked < |AcksOf(log[..done])| && AcksOf(log[..done])[acked] == n < INT32_LIMIT
    requires |KeptWaits(waits, 0, n)| + |AckReplies(waits, 0, n)| == |waits|
    ensures Writing(steps + [HEARS], v, log, done, acked + 1, KeptWaits(waits, 0, n), answers + AckReplies(waits, 0, n))
  {
    hide Run, LinkInv, Applied, Owed, DoMasterHears, Registry, KeptWaits, AckReplies, AcksOf, Construct;
    assert Said(w, 0)[5..] == log;
    assert Log(w.peers[0].told) == log[..done];
    OpenLink(map[], steps, w, 0);
    AckIsSaid(w.peers[0], w.master.outbox[0], HandleOf(w.master, w.peers[0]));
    RunMore(map[], steps, w, HEARS);
    v := Take(w, HEARS);
    var r, m := AckShape(w, 0, "FULLRESYNC", "REDIS");
    StaysOpen(w);
    assert Said(v, 0) == Said(w, 0);
    RunKeeps(map[], steps + [HEARS]);
    StillRegistered(w, v);
  }

  lemma StillRegistered(w: World, v: World)
    requires Inv(v) && 0 in v.master.replicas && 0 in v.homes && v.homes[0] == 0
    ensures 0 in v.peers && v.peers[0].id == Some(0)
  {
    hide LinkHolds;
  }

  lemma AckIsSaid(p: Peer, out: seq<Message>, h: Option<Handle>)
    requires LinkInv(p, out, h) && |p.told| >= 5 && |p.acked| < |AcksOf(Log(p.told))|
    ensures p.replica.says != []
  {
    hide Construct, ToStrings, IsPush, AcksOf, Opens;
  }

  // ----- The loss -----

  lemma SmallMessages()
    ensures |ToStrings([ONE_SET])| == 27 && |ToStrings([ONE_SET, GETACK])| == 64
    ensures ONE_SET != GETACK
  {
    SetSize();
    GetackSize();
    hide ToString, Construct;
    ToStringsOne(ONE_SET);
    ToStringsAppend([ONE_SET], [GETACK]);
    ToStringsOne(GETACK);
    assert [ONE_SET] + [GETACK] == [ONE_SET, GETACK];
    SetIsPush("k", "v", None);
  }

  lemma BulkSize(text: string)
    requires 1 <= |text| < 10
    ensures |ToString(BulkString(text))| == |text| + 6
  {
    assert |Print(|text|)| == 1;
  }

  lemma ThreeBulks(a: string, b: string, c: string)
    requires 1 <= |a| < 10 && 1 <= |b| < 10 && 1 <= |c| < 10
    ensures |ToString(Array([BulkString(a), BulkString(b), BulkString(c)]))| == 22 + |a| + |b| + |c|
  {
    BulkSize(a);
    BulkSize(b);
    BulkSize(c);
    var x, y, z := BulkString(a), BulkString(b), BulkString(c);
    assert Print(3) == "3";
    ToStringsOne(z);
    assert [x, y, z][1..] == [y, z] && [y, z][1..] == [z];
    hide Print;
    assert |ToStrings([y, z])| == |ToString(y)| + |ToString(z)|;
    assert |ToStrings([x, y, z])| == |ToString(x)| + |ToStrings([y, z])|;
    assert ToString(Array([x, y, z])) == "*" + Print(3) + CRLF + ToStrings([x, y, z]);
  }

  lemma SetSize()
    ensures |ToString(ONE_SET)| == 27
  {
    ThreeBulks("SET", "k", "v");
    assert Words(Command.Set("k", "v", None)) == ["SET", "k", "v"];
    assert Bulks(["SET", "k", "v"]) == [BulkString("SET"), BulkString("k"), BulkString("v")];
  }

  lemma GetackSize()
    ensures |ToString(GETACK)| == 37
  {
    ThreeBulks("REPLCONF", "GETACK", "*");
    assert Words(ReplConf(["GETACK", "*"])) == ["REPLCONF", "GETACK", "*"];
    assert Bulks(["REPLCONF", "GETACK", "*"]) == [BulkString("REPLCONF"), BulkString("GETACK"), BulkString("*")];
  }

  lemma TwoAcks()
    ensures AcksOf([ONE_SET, GETACK]) == [27] && AcksOf([ONE_SET, GETACK, GETACK]) == [27, 64]
  {
    hide Construct, SetMessage, ToStrings;
    SmallMessages();
    assert AcksOf([]) == [];
    LogSnoc([], ONE_SET);
    assert [] + [ONE_SET] == [ONE_SET];
    LogSnoc([ONE_SET], GETACK);
    assert [ONE_SET] + [GETACK] == [ONE_SET, GETACK];
    LogSnoc([ONE_SET, GETACK], GETACK);
    assert [ONE_SET, GETACK] + [GETACK] == [ONE_SET, GETACK, GETACK];
  }

  /** The first ACK answers the first WAIT, and takes the replica off the second. */
  lemma FirstAck(first: Waiting, second: Waiting)
    requires first == Waiting(0, 1, 0, map[0 := 27], {}) && second == Waiting(1, 1, 0, map[0 := 64], {})
    ensures KeptWaits([first, second], 0, 27) == [Waiting(1, 1, 0, map[], {})]
    ensures AckReplies([first, second], 0, 27) == [Answer(0, 1, false, {0})]
  {
    assert [first, second][1..] == [second] && [second][1..] == [];
    assert map[0 := 64] - {0} == map[];
    assert KeptWaits([second], 0, 27) == [UpdateWait(second, 0, 27)];
    assert AckReplies([second], 0, 27) == [];
    assert {} + {0} == {0} && Replicas.Reply(UpdateWait(first, 0, 27), false) == Answer(0, 1, false, {0});
    assert AckReplies([first, second], 0, 27) == [Answer(0, 1, false, {0})] + AckReplies([second], 0, 27);
  }

  /** The second ACK finds no entry. */
  lemma SecondAck(left: Waiting)
    requires left == Waiting(1, 1, 0, map[], {})
    ensures KeptWaits([left], 0, 64) == [left] && AckReplies([left], 0, 64) == []
  {
    assert [left][1..] == [];
  }

  const LOSING_STEPS := OPENING_STEPS + [ClientSet("k", "v", None), WAITS, WAITS, READS, READS, HEARS, READS, HEARS]

  /**
   After a SET and two WAITs for one replica, the replica has processed everything, and both its ACKs were
   heard. The first WAIT is answered 1. The second has counted nobody and lists nobody: it can only time out.
   */
  lemma SecondWaitLoses() returns (w: World)
    ensures Run(map[], LOSING_STEPS) == Some(w) && w.peers.Keys == {0} && 0 in w.master.outbox
    ensures w.master.outbox[0] == [] && |w.peers[0].acked| == 2
    ensures w.master.answers == [Answer(0, 1, false, {0})] && w.master.waits == [Waiting(1, 1, 0, map[], {})]
  {
    hide AtStage, Writing, KeptWaits, AckReplies, AcksOf, ToStrings, SetMessage, Construct;
    SmallMessages();
    TwoAcks();
    var l1, l2, l3 := [ONE_SET], [ONE_SET, GETACK], [ONE_SET, GETACK, GETACK];
    assert l1 + [GETACK] == l2 && l2 + [GETACK] == l3 && l3[..2] == l2 && l3[..3] == l3;
    var x1, x2, left, one := Asking(0, l1), Asking(1, l2), Waiting(1, 1, 0, map[], {}), [Answer(0, 1, false, {0})];
    assert [] + [x1] == [x1] && [x1] + [x2] == [x1, x2] && [] + one == one && one + [] == one;
    FirstAck(x1, x2);
    SecondAck(left);
    w := Opened();
    StartsWriting(w);
    w := Sets(OPENING_STEPS, w);
    var s := OPENING_STEPS + [ClientSet("k", "v", None)];
    w := Waits(s, w, l1, []);
    w := Waits(s + [WAITS], w, l2, [x1]);
    s := s + [WAITS] + [WAITS];
    w := Processes(s, w, l3, 0, 0, [x1, x2], []);
    w := Processes(s + [READS], w, l3, 1, 0, [x1, x2], []);
    s := s + [READS] + [READS];
    w := HearsAck(s, w, l3, 2, 0, [x1, x2], [], 27);
    w := Processes(s + [HEARS], w, l3, 2, 1, [left], one);
    s := s + [HEARS] + [READS];
    w := HearsAck(s, w, l3, 3, 1, [left], one, 64);
    assert s + [HEARS] == LOSING_STEPS;
    WritingIs(LOSING_STEPS, w, l3, [left], one);
  }

  lemma WritingIs(steps: seq<Step>, w: World, log: seq<Message>, waits: seq<Waiting>, answers: seq<Answer>)
    requires Writing(steps, w, log, 3, 2, waits, answers) && |log| == 3
    ensures Run(map[], steps) == Some(w) && w.peers.Keys == {0} && 0 in w.master.outbox && w.master.outbox[0] == []
    ensures |w.peers[0].acked| == 2 && w.master.answers == answers && w.master.waits == waits
  {
    hide Run;
    assert |Said(w, 0)| == 8;
  }

  /** So when its timer fires the second WAIT is answered 0, though the one replica has done all it asked. */
  lemma SecondWaitTimesOut() returns (w: World)
    ensures Run(map[], LOSING_STEPS + [TimerFires(1)]) == Some(w) && 0 in w.master.outbox && w.master.outbox[0] == []
    ensures w.master.waits == [] && w.master.answers == [Answer(0, 1, false, {0}), Answer(1, 0, true, {})]
  {
    hide Run, Pending, Answered, WaitsHold;
    var before := SecondWaitLoses();
    var left := Waiting(1, 1, 0, map[], {});
    RunKeepsWaits(map[], LOSING_STEPS);
    OnePending(left, 1);
    assert TimerArmed(before.master, 1);
    RunMore(map[], LOSING_STEPS, before, TimerFires(1));
    w := Take(before, TimerFires(1));
    assert [left][1..] == [];
    assert WithoutWait([left], 1) == [] && TimerReplies([left], 1) == [Replicas.Reply(left, true)];
  }

  // ----- Counting too much -----

  const EARLY_STEPS := [Join(0, "6380", map[]), HEARS, READS, HEARS, ClientSet("k", "v", None), WAITS]

  lemma NotWriting(steps: seq<Step>, w: World, told: nat, said: nat)
    requires AtStage(steps, w, told, said) && 2 <= said <= 3
    ensures 0 in w.master.replicas && !w.master.replicas[0].state.WRITE? && w.master.replicas[0].bytesPushed == 0
    ensures 0 in w.homes && w.homes[0] == 0 && w.peers[0].id == Some(0)
  {
    hide Run, Inv, LinkInv, Applied, Owed, Log;
    RunKeeps(map[], steps);
    RegisteredHere(w);
    RegisteredLink(w, 0);
    LinkStage(w.peers[0], w.master.outbox[0], Some(w.master.replicas[0]));
    if !w.master.replicas[0].state.WRITE? {
      LinkNotWriting(w.peers[0], w.master.outbox[0], w.master.replicas[0]);
    }
  }

  /** A SET leaves a replica alone that is not written to. */
  lemma SetPassesBy(w: World, one: SetArgs)
    requires Registry(w) && 0 in w.peers && w.peers[0].id == Some(0) && w.master.replicas.Keys == {0} && !w.master.replicas[0].state.WRITE?
    ensures var v, ma := DoSet(w, one), w.master;
            && 0 in v.master.outbox && v.master.outbox[0] == ma.outbox[0] && v.master.replicas.Keys == {0} && v.master.nextReplica == ma.nextReplica
            && v.master.waits == ma.waits && v.master.answers == ma.answers && v.master.timers == ma.timers && v.master.nextWait == ma.nextWait
            && v.peers.Keys == w.peers.Keys && v.peers[0].told == w.peers[0].told && v.peers[0].open == w.peers[0].open
            && v.written == w.written + [one]
  {
    hide PushTo, SetMessage, Construct, ToString;
    var m, ids := SetMessage(one.key, one.value, one.px), w.master.replicas.Keys;
    PushIgnores(w.master.(store := w.master.store[one.key := Stored(one.value, one.px)]), w.master, ids, m);
    PushEffect(w, ids, m, 0);
  }

  lemma SetsUnwritten(steps: seq<Step>, w: World) returns (v: World)
    requires AtStage(steps, w, 1, 2)
    ensures AtStage(steps + [ClientSet("k", "v", None)], v, 1, 2)
    ensures v.written == w.written + [SetArgs("k", "v", None)]
  {
    hide Run, DoSet, Log, Inv, Registry;
    var s := ClientSet("k", "v", None);
    NotWriting(steps, w, 1, 2);
    RunMore(map[], steps, w, s);
    v := Take(w, s);
    RunKeeps(map[], steps);
    InvRegistry(w);
    SetPassesBy(w, SetArgs("k", "v", None));
  }

  /** What a WAIT for one replica does when the one there is counts as up to date. */
  lemma AnswersAtOnce(w: World)
    requires w.master.replicas.Keys == {0} && w.master.replicas[0].bytesPushed == 0
    requires w.master.nextWait == 0 && w.master.answers == []
    ensures DoWait(w, 1).master.answers == [Answer(0, 1, false, {0})]
    ensures DoWait(w, 1).peers == w.peers && DoWait(w, 1).written == w.written
  {
    hide WaitFor, Pushed, Acks, PushTo, Construct;
    WaitShape(w.master, 1);
    assert |w.master.replicas| == |w.master.replicas.Keys| == 1;
    assert UpToDate(w.master.replicas) == {0};
  }

  /** After a SET, a WAIT for one replica is answered 1, though that replica has only heard PONG. */
  lemma UnwrittenIsCounted() returns (w: World)
    ensures Run(map[], EARLY_STEPS) == Some(w) && w.written == [SetArgs("k", "v", None)]
    ensures w.master.answers == [Answer(0, 1, false, {0})]
    ensures 0 in w.peers && |w.peers[0].told| == 1
  {
    hide AtStage, Take, Enabled, DoWait, Run;
    var s := [Join(0, "6380", map[])];
    w := Joins();
    w := Hears(s, w, 0);
    w := Reads(s + [HEARS], w, 0, 1);
    s := s + [HEARS] + [READS];
    w := Hears(s, w, 1);
    w := SetsUnwritten(s + [HEARS], w);
    s := s + [HEARS] + [ClientSet("k", "v", None)];
    assert AtStage(s, w, 1, 2);
    NotWriting(s, w, 1, 2);
    StageIs(s, w);
    WaitIsTaken(w);
    RunMore(map[], s, w, WAITS);
    AnswersAtOnce(w);
    w := Take(w, WAITS);
    assert s + [WAITS] == EARLY_STEPS;
  }

  lemma StageIs(steps: seq<Step>, w: World)
    requires AtStage(steps, w, 1, 2)
    ensures Run(map[], steps) == Some(w) && 0 in w.peers && |w.peers[0].told| == 1
    ensures w.master.replicas.Keys == {0} && w.master.nextWait == 0 && w.master.answers == []
  {
    hide Run;
  }
}
