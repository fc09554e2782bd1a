/** What replication guarantees, in every state that any run reaches. */
module ReplicationTheorems {
  import opened Prelude
  import opened Decimal
  import opened Messages
  import opened Grammar
  import opened WireRoundTrip
  import opened Commands
  import opened CommandRoundTrip
  import opened Replicas
  import opened Links
  import opened Replication
  import opened WaitSoundness
  import opened Delivery
  import opened WaitTickets

  /** The link of an open connection, in a reachable state. */
  lemma OpenLink(store: map<string, Stored>, steps: seq<Step>, w: World, c: Conn)
    requires Run(store, steps) == Some(w) && c in w.peers && w.peers[c].open
    ensures Inv(w) && c in w.master.outbox
    ensures LinkInv(w.peers[c], w.master.outbox[c], HandleOf(w.master, w.peers[c]))
    ensures Applied(w.peers[c]) && Owed(w, c)
  {
    hide Run, LinkInv, Applied, Owed, Registry;
    RunKeeps(store, steps);
    assert LinkHolds(w, c);
  }

  // ----- Byte conservation -----

  /** The pushed messages a replica has not processed yet. */
  function InFlight(p: Peer, out: seq<Message>): seq<Message> {
    Log(p.told + out)[|Log(p.told)|..]
  }

  lemma LogSplits(p: Peer, out: seq<Message>)
    ensures Log(p.told + out) == Log(p.told) + InFlight(p, out)
    ensures |p.told| >= 5 ==> InFlight(p, out) == out
  {
    assert Log(p.told) <= Log(p.told + out);
  }

  /** What the master counted as pushed is what the replica counted as read, and what is in flight. */
  lemma BytesConserved(store: map<string, Stored>, steps: seq<Step>, w: World, c: Conn)
    requires Run(store, steps) == Some(w) && c in w.peers && w.peers[c].open && w.peers[c].id.Some?
    ensures c in w.master.outbox && w.peers[c].id.value in w.master.replicas
    ensures w.master.replicas[w.peers[c].id.value].bytesPushed ==
            w.peers[c].replica.bytesIn + |ToStrings(InFlight(w.peers[c], w.master.outbox[c]))|
  {
    hide Run, Inv, Applied, Owed, ToString, ToStrings, AcksOf, SetsOf, AckMessages, Opening, IsPush, InFlight;
    OpenLink(store, steps, w, c);
    var p, out := w.peers[c], w.master.outbox[c];
    LogSplits(p, out);
    ToStringsAppend(Log(p.told), InFlight(p, out));
    LinkStage(p, out, HandleOf(w.master, p));
    if |p.told + out| <= 3 {
      LinkNotWriting(p, out, HandleOf(w.master, p).value);
    }
  }

  /** What the invariant says about a replica in command mode. */
  lemma CommandLink(p: Peer, out: seq<Message>, h: Option<Handle>)
    requires LinkInv(p, out, h) && p.replica.state.WaitServerCommands?
    ensures |p.told| >= 5 && p.id.Some? && h.Some? && h.value.state.WRITE?
    ensures SetsOf(Log(p.told + out)) == p.since
    ensures p.acked <= AcksOf(Log(p.told)) && p.replica.says == AckMessages(AcksOf(Log(p.told))[|p.acked|..])
    ensures h.value.bytesAck == Latest(p.acked)
  {
    hide ToStrings, TryParse, Construct, AcksOf, SetsOf, AckMessages, Opening, IsPush, Latest, Wireable;
  }

  // ----- Replication of a prefix -----

  lemma {:induction false} SetsGrow(log: seq<Message>, more: seq<Message>)
    ensures SetsOf(log) <= SetsOf(log + more)
    decreases |more|
  {
    hide SetIn;
    if more == [] {
      assert log + more == log;
    } else {
      var init := more[..|more| - 1];
      SetsGrow(log, init);
      assert log + more == log + init + [more[|more| - 1]];
      LogSnoc(log + init, more[|more| - 1]);
    }
  }

  lemma {:induction false} ApplyAllAppend(store: map<string, Stored>, a: seq<SetArgs>, b: seq<SetArgs>)
    ensures ApplyAll(store, a + b) == ApplyAll(ApplyAll(store, a), b)
    decreases |b|
  {
    if b == [] {
      assert a + b == a;
    } else {
      assert (a + b)[..|a + b| - 1] == a + b[..|b| - 1];
      ApplyAllAppend(store, a, b[..|b| - 1]);
    }
  }

  /**
   A replica in command mode has applied, in order, the first `k` of the SETs the master executed since
   it started to write to it; all of them once the channel is empty. If it started from the master's map,
   its map is the one the master had after those SETs, and equal to the master's when the channel is empty.
   */
  lemma PrefixReplicated(store: map<string, Stored>, steps: seq<Step>, w: World, c: Conn) returns (k: nat)
    requires Run(store, steps) == Some(w) && c in w.peers && w.peers[c].open && w.peers[c].replica.state.WaitServerCommands?
    ensures var p := w.peers[c];
            && c in w.master.outbox && p.start + k <= |w.written|
            && p.replica.store == ApplyAll(p.base, w.written[p.start..p.start + k])
            && (w.master.outbox[c] == [] ==> p.start + k == |w.written|)
            && (p.base == ApplyAll(w.initial, w.written[..p.start]) ==>
                  && p.replica.store == ApplyAll(w.initial, w.written[..p.start + k])
                  && (w.master.outbox[c] == [] ==> p.replica.store == w.master.store))
  {
    hide Run, Inv, LinkInv, Applied, SetsOf, ApplyAll, Log;
    OpenLink(store, steps, w, c);
    MasterStore(w);
    var p, out := w.peers[c], w.master.outbox[c];
    CommandLink(p, out, HandleOf(w.master, p));
    SetsProcessed(p, out, HandleOf(w.master, p));
    k := |SetsOf(Log(p.told))|;
    PrefixApplied(w.initial, p.base, w.written, p.start, SetsOf(Log(p.told)));
    assert w.written[..|w.written|] == w.written;
  }

  lemma MasterStore(w: World)
    requires Inv(w)
    ensures w.master.store == ApplyAll(w.initial, w.written)
  {
  }

  lemma SetsProcessed(p: Peer, out: seq<Message>, h: Option<Handle>)
    requires LinkInv(p, out, h) && Applied(p) && p.replica.state.WaitServerCommands?
    ensures SetsOf(Log(p.told)) <= p.since && p.replica.store == ApplyAll(p.base, SetsOf(Log(p.told)))
    ensures out == [] ==> SetsOf(Log(p.told)) == p.since
  {
    hide LinkInv, SetsOf, InFlight, ApplyAll;
    CommandLink(p, out, h);
    LogSplits(p, out);
    SetsGrow(Log(p.told), InFlight(p, out));
    if out == [] {
      assert p.told + out == p.told;
    }
  }

  lemma PrefixApplied(initial: map<string, Stored>, base: map<string, Stored>, written: seq<SetArgs>, start: nat, sets: seq<SetArgs>)
    requires start <= |written| && sets <= written[start..]
    ensures start + |sets| <= |written| && written[start..start + |sets|] == sets
    ensures base == ApplyAll(initial, written[..start]) ==> ApplyAll(base, sets) == ApplyAll(initial, written[..start + |sets|])
    ensures sets == written[start..] ==> start + |sets| == |written|
  {
    hide ApplyAll;
    assert written[start..start + |sets|] == written[start..][..|sets|] == sets;
    ApplyAllAppend(initial, written[..start], sets);
    assert written[..start] + sets == written[..start + |sets|];
  }

  // ----- ACKs -----

  /**
   Every ACK a replica has sent, heard or not, is the number of bytes pushed to it before the GETACK it
   answers, in order; the master's counter is the last of those heard that fits 32 bits.
   */
  lemma AcksAreExact(store: map<string, Stored>, steps: seq<Step>, w: World, c: Conn) returns (unheard: seq<nat>)
    requires Run(store, steps) == Some(w) && c in w.peers && w.peers[c].open && w.peers[c].replica.state.WaitServerCommands?
    ensures c in w.master.outbox && w.peers[c].id.Some? && w.peers[c].id.value in w.master.replicas
    ensures w.peers[c].replica.says == AckMessages(unheard)
    ensures w.peers[c].acked + unheard == AcksOf(Log(w.peers[c].told))
    ensures w.master.replicas[w.peers[c].id.value].bytesAck == Latest(w.peers[c].acked)
  {
    hide Run, Inv, Applied, Owed, LinkInv, AcksOf, AckMessages, Latest, Log;
    OpenLink(store, steps, w, c);
    var p := w.peers[c];
    CommandLink(p, w.master.outbox[c], HandleOf(w.master, p));
    unheard := AcksOf(Log(p.told))[|p.acked|..];
  }

  lemma {:induction false} LatestIs(offsets: seq<nat>)
    ensures Latest(offsets) == 0 || exists i | 0 <= i < |offsets| :: offsets[i] == Latest(offsets)
    decreases |offsets|
  {
    if offsets != [] {
      var init := offsets[..|offsets| - 1];
      LatestIs(init);
      if Latest(init) != 0 {
        var i :| 0 <= i < |init| && init[i] == Latest(init);
        assert offsets[i] == Latest(init);
      }
      assert offsets[|offsets| - 1] == offsets[|offsets| - 1];
    }
  }

  /** The link behind a registered replica. */
  lemma RegisteredLink(w: World, r: ReplicaId)
    requires Inv(w) && r in w.master.replicas
    ensures r in w.homes && w.homes[r] in w.peers && w.homes[r] in w.master.outbox && w.peers[w.homes[r]].open
    ensures LinkInv(w.peers[w.homes[r]], w.master.outbox[w.homes[r]], Some(w.master.replicas[r]))
  {
    hide LinkInv, Applied, Owed;
    assert LinkHolds(w, w.homes[r]);
  }

  /** The counters of a registered replica, as its channels say. */
  lemma Counters(w: World, r: ReplicaId)
    requires Inv(w) && r in w.master.replicas
    ensures r in w.homes && w.homes[r] in w.peers
    ensures w.master.replicas[r].bytesPushed == |ToStrings(Pushed(w, r))|
    ensures w.master.replicas[r].bytesAck == Latest(Acks(w, r))
    ensures AllPushes(Pushed(w, r)) && Acks(w, r) <= AcksOf(Pushed(w, r))
  {
    hide Inv, LinkInv;
    RegisteredLink(w, r);
    LinkCounters(w.peers[w.homes[r]], w.master.outbox[w.homes[r]], w.master.replicas[r]);
  }

  lemma LinkCounters(p: Peer, out: seq<Message>, h: Handle)
    requires LinkInv(p, out, Some(h))
    ensures h.bytesPushed == |ToStrings(Log(p.told + out))| && h.bytesAck == Latest(p.acked)
    ensures AllPushes(Log(p.told + out)) && p.acked <= AcksOf(Log(p.told + out))
  {
    hide ToString, SetsOf, AckMessages, Opening, IsPush, InFlight;
    LogSplits(p, out);
    AcksGrow(Log(p.told), InFlight(p, out));
  }

  /**
   An ACK counter never passes the pushed bytes, and stays strictly below them as soon as anything was
   pushed: the GETACK itself counts, and is never covered by its own answer. So a replica counts as up to
   date exactly as long as nothing was pushed to it.
   */
  lemma AckStaysBelow(store: map<string, Stored>, steps: seq<Step>, w: World, r: ReplicaId)
    requires Run(store, steps) == Some(w) && r in w.master.replicas
    ensures w.master.replicas[r].bytesAck <= w.master.replicas[r].bytesPushed
    ensures w.master.replicas[r].bytesAck == w.master.replicas[r].bytesPushed <==> Pushed(w, r) == []
    ensures r in UpToDate(w.master.replicas) <==> Pushed(w, r) == []
  {
    hide Inv, Run, Pushed, Acks, AcksOf;
    RunKeeps(store, steps);
    Counters(w, r);
    LatestBelow(Pushed(w, r), Acks(w, r));
    if Pushed(w, r) != [] {
      PushedHasSize(Pushed(w, r));
    } else {
      assert AcksOf([]) == [] by { EmptyLog(); }
    }
  }

  lemma EmptyLog()
    ensures AcksOf([]) == [] && ToStrings([]) == ""
  {
  }

  /** One more ACK heard never lowers the counter. */
  lemma LatestGrows(log: seq<Message>, acked: seq<nat>, more: seq<nat>)
    requires AllPushes(log) && acked + more <= AcksOf(log)
    ensures Latest(acked) <= Latest(acked + more)
    decreases |more|
  {
    hide IsPush, AcksOf;
    if more == [] {
      assert acked + more == acked;
    } else {
      var init, n := more[..|more| - 1], more[|more| - 1];
      assert acked + more == (acked + init) + [n];
      LatestGrows(log, acked, init);
      LatestSnoc(acked + init, n);
      LatestIs(acked + init);
      if Latest(acked + init) != 0 {
        var i :| 0 <= i < |acked + init| && (acked + init)[i] == Latest(acked + init);
        assert AcksOf(log)[i] == (acked + more)[i] && AcksOf(log)[|acked + init|] == n;
        AcksIncrease(log, i, |acked + init|);
      }
    }
  }

  /** Hearing extends what was heard. */
  lemma AcksKept(w: World, s: Step, r: ReplicaId)
    requires Inv(w) && Enabled(w, s) && r in w.homes && r in Take(w, s).master.replicas && AskedBelow(w)
    ensures Acks(w, r) <= Acks(Take(w, s), r)
  {
    hide Inv, Extends, Registry, DoSet, DoWait, DoMasterHears, DoTimer, DoReplicaHears, DoJoin, DoLeave, Acks;
    InvRegistry(w);
    match s
    case ClientSet(key, value, px) => SetExtends(w, SetArgs(key, value, px));
    case ClientWait(count) => WaitExtends(w, count);
    case MasterHears(c, banner, dump) => HearingKeepsAcks(w, c, banner, dump, r);
    case ReplicaHears(c, restored) => ReplicaHearsExtends(w, c, restored);
    case TimerFires(id) => TimerExtends(w, id);
    case Join(c, port, store) => JoinExtends(w, c, port, store);
    case Leave(c) => LeaveExtends(w, c);
  }

  /** Every WAIT on record was set up. */
  ghost predicate AskedBelow(w: World) {
    forall id | id in w.asked :: id < w.master.nextWait
  }

  lemma TimerExtends(w: World, id: WaitId)
    requires Registry(w) && id in w.master.timers
    ensures Extends(w, DoTimer(w, id)) && forall r | r in w.homes :: SameAcks(w, DoTimer(w, id), r)
  {
    hide FireTimer;
    TimerShape(w.master, id);
    SameChannels(w, DoTimer(w, id));
  }

  lemma HearingKeepsAcks(w: World, c: Conn, banner: string, dump: string, r: ReplicaId)
    requires Inv(w) && Enabled(w, MasterHears(c, banner, dump)) && r in w.homes
    requires r in DoMasterHears(w, c, banner, dump).master.replicas
    ensures Acks(w, r) <= Acks(DoMasterHears(w, c, banner, dump), r)
  {
    hide LinkInv, Applied, Owed, DoMasterHears, Registry;
    assert LinkHolds(w, c);
    LinkStage(w.peers[c], w.master.outbox[c], HandleOf(w.master, w.peers[c]));
    if |Said(w, c)| <= 3 {
      var more := OpeningShape(w, c, banner, dump);
      SaidMore(w, DoMasterHears(w, c, banner, dump), c, more);
    } else {
      var q, n := AckShape(w, c, banner, dump);
    }
  }

  /** No step takes back bytes pushed to a replica or ACKed by it. */
  lemma CountersGrow(store: map<string, Stored>, steps: seq<Step>, w: World, s: Step, r: ReplicaId)
    requires Run(store, steps) == Some(w) && Enabled(w, s)
    requires r in w.master.replicas && r in Take(w, s).master.replicas
    ensures w.master.replicas[r].bytesAck <= Take(w, s).master.replicas[r].bytesAck
    ensures w.master.replicas[r].bytesPushed <= Take(w, s).master.replicas[r].bytesPushed
  {
    hide Inv, WaitsHold, TicketsHold, Run, Take, Enabled, Acks, Pushed, AcksOf, Extends;
    hide SameAcks, Latest;
    RunKeeps(store, steps);
    RunKeepsWaits(store, steps);
    AskedIds(w);
    StepKeeps(w, s);
    var after := Take(w, s);
    Counters(w, r);
    Counters(after, r);
    AcksKept(w, s, r);
    LatestGrows(Pushed(after, r), Acks(w, r), Acks(after, r)[|Acks(w, r)|..]);
    assert Acks(w, r) + Acks(after, r)[|Acks(w, r)|..] == Acks(after, r);
    assert after.master.replicas[r].bytesAck == Latest(Acks(after, r));
    StepExtends(w, s);
    ExtendsPushed(w, after, r);
    PrefixShorter(Pushed(w, r), Pushed(after, r));
  }

  lemma ExtendsPushed(w: World, after: World, r: ReplicaId)
    requires Extends(w, after) && r in w.homes && r in after.master.replicas
    ensures Pushed(w, r) <= Pushed(after, r)
  {
  }

  lemma PrefixShorter(a: seq<Message>, b: seq<Message>)
    requires a <= b
    ensures |ToStrings(a)| <= |ToStrings(b)|
  {
    assert b == a + b[|a|..];
    ToStringsAppend(a, b[|a|..]);
  }

  /** Every step extends what was said, heard and asked. */
  lemma StepExtends(w: World, s: Step)
    requires Inv(w) && AskedBelow(w) && Enabled(w, s)
    ensures Extends(w, Take(w, s))
  {
    hide Inv, Extends, Registry, DoSet, DoWait, DoMasterHears, DoTimer, SameAcks;
    InvRegistry(w);
    match s
    case ClientSet(key, value, px) => SetExtends(w, SetArgs(key, value, px));
    case ClientWait(count) => WaitExtends(w, count);
    case MasterHears(c, banner, dump) => HearingExtends(w, c, banner, dump);
    case ReplicaHears(c, restored) => ReplicaHearsExtends(w, c, restored);
    case TimerFires(id) => TimerExtends(w, id);
    case Join(c, port, store) => JoinExtends(w, c, port, store);
    case Leave(c) => LeaveExtends(w, c);
  }

  lemma HearingExtends(w: World, c: Conn, banner: string, dump: string)
    requires Inv(w) && Enabled(w, MasterHears(c, banner, dump))
    ensures Extends(w, DoMasterHears(w, c, banner, dump))
  {
    hide LinkInv, Applied, Owed, DoMasterHears, Registry, Extends, SameAcks;
    assert LinkHolds(w, c);
    LinkStage(w.peers[c], w.master.outbox[c], HandleOf(w.master, w.peers[c]));
    if |Said(w, c)| <= 3 {
      var more := OpeningShape(w, c, banner, dump);
      SaidMore(w, DoMasterHears(w, c, banner, dump), c, more);
    } else {
      var q, n := AckShape(w, c, banner, dump);
      hide HearAck;
      AckExtends(w, DoMasterHears(w, c, banner, dump), c, n);
    }
  }

  // ----- The handshake -----

  /**
   Both ends are always in one of the scripted stages: a PSYNC finds a replica id, nothing is pushed
   before the snapshot is said, and a replica that takes commands has a handle in WRITE.
   */
  lemma Lockstep(store: map<string, Stored>, steps: seq<Step>, w: World, c: Conn)
    requires Run(store, steps) == Some(w) && c in w.peers && w.peers[c].open
    ensures var p := w.peers[c];
            && c in w.master.outbox && p.replica.state == StateAt(|p.told|)
            && (p.id.Some? ==> p.id.value in w.master.replicas)
            && (p.replica.says != [] && p.replica.says[0] == Construct(Psync(["?", "-1"])) ==> p.id.Some?)
            && (p.replica.state.WaitServerCommands? ==> p.id.Some? && w.master.replicas[p.id.value].state.WRITE?)
            && (p.id.Some? && !w.master.replicas[p.id.value].state.WRITE? ==>
                  Said(w, c) <= REPLIES && w.master.replicas[p.id.value].bytesPushed == 0)
            && (p.id.Some? && w.master.replicas[p.id.value].state.WRITE? ==>
                  |Said(w, c)| >= 5 && Said(w, c)[..3] == REPLIES && Said(w, c)[3].SimpleString? && Said(w, c)[4].SyncResponse?
                  && AllPushes(Said(w, c)[5..]))
  {
    hide Run, Inv, Applied, Owed, ToStrings, Construct, TryParse, AcksOf, SetsOf, IsPush, Opening;
    OpenLink(store, steps, w, c);
    var p, out := w.peers[c], w.master.outbox[c];
    LinkStage(p, out, HandleOf(w.master, p));
    if p.replica.says != [] && p.replica.says[0] == Construct(Psync(["?", "-1"])) && |p.told + out| <= 3 {
      LinkNextSaid(p, out, HandleOf(w.master, p));
      PsyncIsLast(p.port, |p.told + out|);
    }
  }

  lemma PsyncIsLast(port: string, n: nat)
    requires n <= 3 && Opening(port)[n] == Construct(Psync(["?", "-1"]))
    ensures n == 3
  {
    hide TryParse;
    OpeningParses(port);
  }

  // ----- ACKs and the GETACKs they answer -----

  lemma SamePushed(w: World, after: World, r: ReplicaId)
    requires r in w.homes && after.homes == w.homes && after.peers == w.peers && after.master.outbox == w.master.outbox
    ensures Pushed(after, r) == Pushed(w, r)
  {
    hide Log;
  }

  /** A push appends the message or nothing. */
  lemma PushAppends(w: World, after: World, ids: set<ReplicaId>, m: Message, r: ReplicaId)
    requires Registry(w) && r in w.homes
    requires after.master.outbox == PushTo(w.master, ids, m).outbox && after.homes == w.homes && after.peers.Keys == w.peers.Keys
    requires forall c | c in w.peers :: after.peers[c].told == w.peers[c].told
    ensures Pushed(after, r) <= Pushed(w, r) + [m] && Pushed(w, r) <= Pushed(after, r)
  {
    hide PushTo, Registry, ToString;
    HomesAreOpen(w);
    var c := w.homes[r];
    PushEffect(w, ids, m, c);
    assert after.master.outbox[c] == w.master.outbox[c] || after.master.outbox[c] == w.master.outbox[c] + [m];
    if after.master.outbox[c] == w.master.outbox[c] {
      assert Said(after, c) == Said(w, c);
    } else {
      assert Said(after, c) == Said(w, c) + [m];
    }
  }

  /** A step pushes at most one message to a replica: a SET its SET, a WAIT a GETACK, the others none. */
  lemma StepPushes(w: World, s: Step, r: ReplicaId)
    requires Inv(w) && Enabled(w, s) && r in w.homes && r in w.master.replicas && r in Take(w, s).master.replicas
    ensures Pushed(w, r) <= Pushed(Take(w, s), r)
    ensures Pushed(Take(w, s), r) <= Pushed(w, r) + (if s.ClientSet? then [SetMessage(s.key, s.value, s.px)] else if s.ClientWait? then [GETACK] else [])
  {
    hide Inv, Registry, DoSet, DoWait, DoMasterHears, DoTimer, DoReplicaHears, DoJoin, DoLeave, Pushed, Construct, SetMessage;
    InvRegistry(w);
    match s
    case ClientSet(key, value, px) => SetPushes(w, SetArgs(key, value, px), r);
    case ClientWait(count) => WaitPushes(w, count, r);
    case MasterHears(c, banner, dump) => HearingPushes(w, c, banner, dump, r);
    case ReplicaHears(c, restored) => ReplicaHearsPushes(w, c, restored, r);
    case TimerFires(id) => TimerPushes(w, id, r);
    case Join(c, port, store) => JoinPushes(w, c, port, store, r);
    case Leave(c) => LeavePushes(w, c, r);
  }

  lemma SetPushes(w: World, one: SetArgs, r: ReplicaId)
    requires Registry(w) && r in w.homes
    ensures Pushed(w, r) <= Pushed(DoSet(w, one), r) <= Pushed(w, r) + [SetMessage(one.key, one.value, one.px)]
  {
    hide PushTo, SetMessage, Pushed, Registry;
    var m, ids := SetMessage(one.key, one.value, one.px), w.master.replicas.Keys;
    PushIgnores(w.master.(store := w.master.store[one.key := Stored(one.value, one.px)]), w.master, ids, m);
    PushAppends(w, DoSet(w, one), ids, m, r);
  }

  lemma WaitPushes(w: World, count: nat, r: ReplicaId)
    requires Registry(w) && r in w.homes
    ensures Pushed(w, r) <= Pushed(DoWait(w, count), r) <= Pushed(w, r) + [GETACK]
  {
    hide PushTo, Pushed, Registry, Construct, WaitFor, Lagging, UpToDate, Acks;
    WaitShape(w.master, count);
    if DoWait(w, count).master.outbox == w.master.outbox {
      SamePushed(w, DoWait(w, count), r);
    } else {
      PushAppends(w, DoWait(w, count), Lagging(w.master.replicas).Keys, GETACK, r);
    }
  }

  lemma ReplicaHearsPushes(w: World, c: Conn, restored: map<string, Stored>, r: ReplicaId)
    requires Registry(w) && r in w.homes && c in w.peers && c in w.master.outbox && w.master.outbox[c] != []
    ensures Pushed(DoReplicaHears(w, c, restored), r) == Pushed(w, r)
  {
    hide Log, ReplicaHear;
    var after := DoReplicaHears(w, c, restored);
    assert Said(after, c) == Said(w, c);
    assert w.homes[r] != c ==> Said(after, w.homes[r]) == Said(w, w.homes[r]);
  }

  lemma TimerPushes(w: World, id: WaitId, r: ReplicaId)
    requires r in w.homes && id in w.master.timers
    ensures Pushed(DoTimer(w, id), r) == Pushed(w, r)
  {
    hide FireTimer, Pushed;
    TimerShape(w.master, id);
    SamePushed(w, DoTimer(w, id), r);
  }

  lemma JoinPushes(w: World, c: Conn, port: string, store: map<string, Stored>, r: ReplicaId)
    requires Registry(w) && r in w.homes && c !in w.peers
    ensures Pushed(DoJoin(w, c, port, store), r) == Pushed(w, r)
  {
    hide Log, NewPeer;
    HomesAreOpen(w);
    assert Said(DoJoin(w, c, port, store), w.homes[r]) == Said(w, w.homes[r]);
  }

  lemma LeavePushes(w: World, c: Conn, r: ReplicaId)
    requires Registry(w) && r in w.homes && c in w.peers
    ensures Pushed(DoLeave(w, c), r) == Pushed(w, r)
  {
    hide Log;
    HomesAreOpen(w);
    assert Said(DoLeave(w, c), w.homes[r]) == Said(w, w.homes[r]);
  }

  lemma HearingPushes(w: World, c: Conn, banner: string, dump: string, r: ReplicaId)
    requires Inv(w) && Enabled(w, MasterHears(c, banner, dump)) && r in w.homes && r in w.master.replicas
    ensures Pushed(DoMasterHears(w, c, banner, dump), r) == Pushed(w, r)
  {
    hide LinkInv, Applied, Owed, DoMasterHears, Registry;
    var after := DoMasterHears(w, c, banner, dump);
    assert LinkHolds(w, c);
    LinkStage(w.peers[c], w.master.outbox[c], HandleOf(w.master, w.peers[c]));
    HomesAreOpen(w) by { InvRegistry(w); }
    if |Said(w, c)| <= 3 {
      var more := OpeningShape(w, c, banner, dump);
      if w.homes[r] == c {
        assert Said(after, c) == Said(w, c) + more;
      } else {
        assert Said(after, w.homes[r]) == Said(w, w.homes[r]);
      }
    } else {
      hide HearAck;
      var q, n := AckShape(w, c, banner, dump);
      HearAckOutbox(w.master, q, n);
      assert Said(after, w.homes[r]) == Said(w, w.homes[r]);
    }
  }

  lemma HearAckOutbox(ma: Master, r: ReplicaId, n: nat)
    requires r in ma.replicas
    ensures HearAck(ma, r, n).outbox == ma.outbox
  {
    hide KeptWaits, AckReplies;
  }

  /** The step that pushed the j-th message to a replica, and the world it was taken in. */
  lemma {:induction false} PushMoment(store: map<string, Stored>, steps: seq<Step>, w: World, r: ReplicaId, j: nat) returns (i: nat, v: World)
    requires Run(store, steps) == Some(w) && r in w.master.replicas && j < |Pushed(w, r)|
    ensures i < |steps| && Run(store, steps[..i]) == Some(v) && r in v.master.replicas && Enabled(v, steps[i])
    ensures Pushed(v, r) == Pushed(w, r)[..j]
    ensures Pushed(w, r)[j] == if steps[i].ClientSet? then SetMessage(steps[i].key, steps[i].value, steps[i].px) else GETACK
    ensures steps[i].ClientSet? || steps[i].ClientWait?
    decreases |steps|
  {
    hide Inv, WaitsHold, TicketsHold, Take, Enabled, Pushed, Extends, SetMessage, Construct;
    if steps != [] {
      var init, last := steps[..|steps| - 1], steps[|steps| - 1];
      var u := Run(store, init).value;
      RunKeeps(store, init);
      RunKeepsWaits(store, init);
      AskedIds(u);
      StepExtends(u, last);
      if r in u.homes {
        OldReplica(u, w, r);
        StepPushes(u, last, r);
        if j < |Pushed(u, r)| {
          i, v := PushMoment(store, init, u, r, j);
          assert init[..i] == steps[..i] && init[i] == steps[i];
          assert Pushed(u, r)[..j] == Pushed(w, r)[..j];
        } else {
          i, v := |init|, u;
          assert Pushed(u, r) == Pushed(w, r)[..j];
        }
      } else {
        NewReplicaHasNothing(u, last, r);
      }
    }
  }

  lemma OldReplica(u: World, w: World, r: ReplicaId)
    requires Extends(u, w) && r in u.homes && r in w.master.replicas
    ensures r in u.master.replicas && Pushed(u, r) <= Pushed(w, r)
  {
    hide Pushed;
  }

  /** Nothing is pushed in the step that registers a replica. */
  lemma NewReplicaHasNothing(w: World, s: Step, r: ReplicaId)
    requires Inv(w) && Enabled(w, s) && r !in w.homes && r in Take(w, s).master.replicas
    ensures Pushed(Take(w, s), r) == []
  {
    InvRegistry(w);
    StepKeeps(w, s);
    hide Inv, DoSet, DoWait, DoMasterHears, DoTimer, PushTo, Construct, WaitFor, SetMessage, FireTimer, Lagging, UpToDate, Acks, Log, Extends;
    assert s.MasterHears? by {
      NewReplicaByHearing(w, s, r);
    }
    var c := s.conn;
    Registering(w, s, r);
    assert |Said(Take(w, s), c)| == 2 && Take(w, s).homes[r] == c;
    assert Log(Said(Take(w, s), c)) == [] by { ShortLog(Said(Take(w, s), c)); }
  }

  lemma ShortLog(said: seq<Message>)
    ensures |said| < 5 ==> Log(said) == []
  {
  }

  lemma NewReplicaByHearing(w: World, s: Step, r: ReplicaId)
    requires Registry(w) && Enabled(w, s) && r !in w.homes && r in Take(w, s).master.replicas
    ensures s.MasterHears?
  {
    hide DoMasterHears, PushTo, Construct, WaitFor, SetMessage, FireTimer, Lagging, UpToDate, Pushed, Acks, PeerHears, NewPeer, AfterSet;
    assert r !in w.master.replicas;
    match s
    case ClientSet(key, value, px) =>
      PushIgnores(w.master.(store := w.master.store[key := Stored(value, px)]), w.master, w.master.replicas.Keys, SetMessage(key, value, px));
      PushKeepsSlots(w.master, w.master.replicas.Keys, SetMessage(key, value, px));
    case ClientWait(count) =>
      WaitShape(w.master, count);
      PushKeepsSlots(w.master, Lagging(w.master.replicas).Keys, GETACK);
    case TimerFires(id) => TimerShape(w.master, id);
    case _ =>
  }

  lemma Registering(w: World, s: Step, r: ReplicaId)
    requires Inv(w) && Enabled(w, s) && s.MasterHears? && r !in w.homes && r in Take(w, s).master.replicas
    requires Inv(Take(w, s))
    ensures s.conn in Take(w, s).peers && s.conn in Take(w, s).master.outbox && |Said(Take(w, s), s.conn)| == 2
    ensures r in Take(w, s).homes && Take(w, s).homes[r] == s.conn
  {
    hide LinkInv, Applied, Owed, DoMasterHears, HearAck, Registry;
    var c, after := s.conn, Take(w, s);
    assert LinkHolds(w, c);
    LinkStage(w.peers[c], w.master.outbox[c], HandleOf(w.master, w.peers[c]));
    ReplicasHaveHomes(w);
    if |Said(w, c)| <= 3 {
      var more := OpeningShape(w, c, s.banner, s.dump);
      assert |Said(w, c)| == 1 && r == w.master.nextReplica;
      assert Said(after, c) == Said(w, c) + more;
      HomeOfNew(w, s, r);
    } else {
      var q, n := AckShape(w, c, s.banner, s.dump);
      HearAckKeys(w.master, q, n);
    }
  }

  lemma ReplicasHaveHomes(w: World)
    requires Inv(w)
    ensures w.master.replicas.Keys <= w.homes.Keys
  {
  }

  lemma HearAckKeys(ma: Master, r: ReplicaId, n: nat)
    requires r in ma.replicas
    ensures HearAck(ma, r, n).replicas.Keys == ma.replicas.Keys
  {
    hide KeptWaits, AckReplies;
  }

  lemma HomeOfNew(w: World, s: Step, r: ReplicaId)
    requires Inv(w) && Enabled(w, s) && s.MasterHears? && |Said(w, s.conn)| == 1 && r == w.master.nextReplica && r !in w.homes
    requires r in Take(w, s).master.replicas && Registry(Take(w, s))
    ensures r in Take(w, s).homes && Take(w, s).homes[r] == s.conn
  {
    hide LinkInv, Applied, Owed, ServerHear;
    var c := s.conn;
    assert LinkHolds(w, c);
    LinkStage(w.peers[c], w.master.outbox[c], HandleOf(w.master, w.peers[c]));
    assert r in Take(w, s).homes;
  }

  /**
   The k-th ACK of a replica is what the master's counter of pushed bytes was when a WAIT pushed the GETACK
   it answers.
   */
  lemma AckIsCounterBefore(store: map<string, Stored>, steps: seq<Step>, w: World, r: ReplicaId, k: nat) returns (i: nat, v: World)
    requires Run(store, steps) == Some(w) && r in w.master.replicas && k < |AcksOf(Pushed(w, r))|
    ensures i < |steps| && steps[i].ClientWait? && Run(store, steps[..i]) == Some(v) && r in v.master.replicas
    ensures v.master.replicas[r].bytesPushed == AcksOf(Pushed(w, r))[k]
    ensures Pushed(v, r) + [GETACK] <= Pushed(w, r) && |AcksOf(Pushed(v, r))| == k
  {
    hide Run, Inv, Pushed, AcksOf, Enabled, Construct, SetMessage, Acks, ToStrings, ToString;
    var j := AckIsOffset(Pushed(w, r), k);
    i, v := PushMoment(store, steps, w, r, j);
    if steps[i].ClientSet? {
      SetIsNoGetack(v, steps[i]);
    }
    RunKeeps(store, steps[..i]);
    Counters(v, r);
    assert Pushed(w, r)[..j] + [GETACK] == Pushed(w, r)[..j + 1];
  }

  lemma SetIsNoGetack(v: World, s: Step)
    requires s.ClientSet? && Enabled(v, s)
    ensures SetMessage(s.key, s.value, s.px) != GETACK
  {
    SetIsPush(s.key, s.value, s.px);
  }

  // ----- Messages as bytes -----

  /** What a replica expects after the messages it has heard. */
  const ReplicaWants: Expectation := heard => ReplicaExpects(StateAt(|heard|))

  /** A replica expects a snapshot exactly when the next message said to it is one. */
  lemma ExpectsSnapshotIff(store: map<string, Stored>, steps: seq<Step>, w: World, c: Conn)
    requires Run(store, steps) == Some(w) && c in w.peers && w.peers[c].open
    ensures ReplicaExpects(w.peers[c].replica.state) == ReplicaWants(w.peers[c].told)
    ensures c in w.master.outbox
    ensures w.master.outbox[c] != [] ==> (ReplicaExpects(w.peers[c].replica.state).ExpectSync? <==> w.master.outbox[c][0].SyncResponse?)
  {
    hide Run, Inv, Applied, Owed, LinkInv, Registry;
    OpenLink(store, steps, w, c);
    NextKind(w.peers[c], w.master.outbox[c], HandleOf(w.master, w.peers[c]));
  }

  lemma NextKind(p: Peer, out: seq<Message>, h: Option<Handle>)
    requires LinkInv(p, out, h)
    ensures p.replica.state == StateAt(|p.told|)
    ensures out != [] ==> (out[0].SyncResponse? <==> |p.told| == 4)
  {
    hide ToStrings, Construct, TryParse, AcksOf, SetsOf, Opening, AckMessages, Latest;
    if out != [] {
      var said, t := p.told + out, |p.told|;
      assert out[0] == said[t];
      if t < 3 {
        assert said[t] == REPLIES[t];
      } else if t >= 5 {
        assert said[t] == Log(said)[t - 5] && IsPush(said[t]);
      }
    }
  }

  /** A SET the wire format can carry. */
  predicate Carried(one: SetArgs) {
    0 < |one.key| < INT32_LIMIT && 0 < |one.value| < INT32_LIMIT
  }

  /** The answer to PSYNC can be carried: a banner of one line, and a dump that is not empty. */
  predicate SnapshotCarried(said: seq<Message>) {
    |said| >= 5 && said[3].SimpleString? && said[4].SyncResponse? ==> FindCrlf(said[3].text).None? && 0 < |said[4].data| < INT32_LIMIT
  }

  lemma {:induction false} PrintShort(n: nat)
    ensures 1 <= |Print(n)| <= 1 + n / 10
  {
    if n >= 10 {
      PrintShort(n / 10);
    }
  }

  lemma PushWireableIff(m: Message)
    requires IsPush(m)
    ensures Wireable(m) <==> forall one | one in SetIn(m) :: Carried(one)
  {
    hide TryParse, Construct, Faithful, Wireable, Sendable;
    if m == GETACK {
      GetackIsPush();
      SendableIff(ReplConf(["GETACK", "*"]));
      assert Sendable(ReplConf(["GETACK", "*"])) by { GetackSendable(); }
    } else {
      var c := TryParse(m).command;
      CommandRoundTripsIff(c);
      SendableIff(c);
      SetSendableIff(c);
      assert SetIn(m) == [SetArgs(c.key, c.value, c.expireMs)];
    }
  }

  lemma GetackSendable()
    ensures Sendable(ReplConf(["GETACK", "*"]))
  {
  }

  lemma SetSendableIff(c: Command)
    requires c.Set? && Faithful(c)
    ensures Sendable(c) <==> Carried(SetArgs(c.key, c.value, c.expireMs))
  {
    if c.expireMs.Some? {
      PrintShort(c.expireMs.value);
    }
    assert Words(c)[1] == c.key && Words(c)[2] == c.value;
  }

  lemma {:induction false} LogWireableIff(log: seq<Message>)
    requires AllPushes(log)
    ensures AllWireable(log) <==> forall one | one in SetsOf(log) :: Carried(one)
    decreases |log|
  {
    hide Wireable, IsPush, SetIn;
    if log != [] {
      var init, m := log[..|log| - 1], log[|log| - 1];
      LogWireableIff(init);
      PushWireableIff(m);
      assert AllWireable(log) <==> AllWireable(init) && Wireable(m);
    }
  }

  /**
   Everything said to a replica can be read at its place, the unterminated snapshot included, exactly if the
   banner, the dump and every SET since then can be carried.
   */
  lemma SaidIsReadableIff(store: map<string, Stored>, steps: seq<Step>, w: World, c: Conn)
    requires Run(store, steps) == Some(w) && c in w.peers && w.peers[c].open
    ensures c in w.master.outbox
    ensures Readable(Said(w, c), [], ReplicaWants) <==>
            SnapshotCarried(Said(w, c)) && forall one | one in w.peers[c].since :: Carried(one)
  {
    OpenLink(store, steps, w, c);
    hide Run, Inv, Applied, Owed, LinkInv, Wireable, WireableAs, SnapshotCarried, Carried, Readable;
    LinkReadableIff(w.peers[c], w.master.outbox[c], HandleOf(w.master, w.peers[c]));
    ReadableIff(Said(w, c));
  }

  lemma ReadableIff(said: seq<Message>)
    ensures Readable(said, [], ReplicaWants) <==>
            forall i | 0 <= i < |said| :: WireableAs(said[i], if i == 4 then ExpectSync else ExpectAny)
  {
    hide WireableAs;
    forall i | 0 <= i < |said|
      ensures WireableAs(said[i], ReplicaWants([] + said[..i])) <==> WireableAs(said[i], if i == 4 then ExpectSync else ExpectAny)
    {
      assert |[] + said[..i]| == i;
    }
  }

  lemma LinkReadableIff(p: Peer, out: seq<Message>, h: Option<Handle>)
    requires LinkInv(p, out, h)
    ensures (forall i | 0 <= i < |p.told + out| :: WireableAs((p.told + out)[i], if i == 4 then ExpectSync else ExpectAny))
            <==> SnapshotCarried(p.told + out) && forall one | one in p.since :: Carried(one)
  {
    hide ToStrings, Construct, TryParse, AcksOf, SetsOf, Opening, AckMessages, Latest, IsPush, Carried, FindCrlf;
    var said := p.told + out;
    if |said| <= 3 {
      forall i | 0 <= i < |said| ensures Wireable(said[i]) {
        assert said[i] == REPLIES[i];
        RepliesWireable(i);
      }
    } else {
      var log := Log(said);
      LogWireableIff(log);
      assert forall i | 0 <= i < |log| :: log[i] == said[i + 5];
      assert forall i | 5 <= i < |said| :: said[i] == log[i - 5];
      RepliesWireable(0);
      RepliesWireable(1);
      RepliesWireable(2);
      assert said[0] == said[..3][0] && said[1] == said[..3][1] && said[2] == said[..3][2];
    }
  }

  lemma RepliesWireable(i: nat)
    requires i < 3
    ensures Wireable(REPLIES[i])
  {
  }

  /**
   From SETs to bytes and back: whatever the write counts and the read chunks, the bytes of an open
   connection are heard as the messages said, in order, with the snapshot framed by its length.
   */
  lemma SaidIsDelivered(store: map<string, Stored>, steps: seq<Step>, w: World, c: Conn, transfer: seq<LinkStep>, l: Link)
    requires Run(store, steps) == Some(w) && c in w.peers && w.peers[c].open
    requires LinkRun(transfer, ReplicaWants) == Some(l)
    requires c in w.master.outbox && l.sent == Said(w, c)
    requires SnapshotCarried(Said(w, c)) && forall one | one in w.peers[c].since :: Carried(one)
    ensures l.reader.Reading? && l.reader.heard <= Said(w, c)
    ensures l.open && l.wire == "" && l.writeBuffer == "" ==> l.reader == Reading(Said(w, c), "")
  {
    hide Run, LinkRun, Readable, Carried, SnapshotCarried;
    SaidIsReadableIff(store, steps, w, c);
    EndToEnd(transfer, ReplicaWants, l);
  }

  // ----- What a replica says, as bytes -----

  /** What the master has heard on a connection. */
  function Spoken(store: map<string, Stored>, steps: seq<Step>, c: Conn): seq<Message>
    decreases |steps|
  {
    if steps == [] then []
    else
      var init, last := steps[..|steps| - 1], steps[|steps| - 1];
      var before := Spoken(store, init, c);
      match Run(store, init)
      case None => before
      case Some(u) => if last.MasterHears? && last.conn == c && Enabled(u, last) then before + [u.peers[c].replica.says[0]] else before
  }

  /** The port stays, nothing told is taken back, and a connection is not opened twice. */
  predicate GoesOn(p: Peer, after: Peer) {
    after.port == p.port && (after.open ==> p.open) && p.told <= after.told
  }

  lemma HeardGoesOn(w: World, c: Conn, banner: string, dump: string)
    requires c in w.peers && c in w.master.outbox && w.peers[c].replica.says != []
    ensures var after := DoMasterHears(w, c, banner, dump);
            after.peers == w.peers[c := after.peers[c]] && GoesOn(w.peers[c], after.peers[c])
  {
    hide ServerHear, AcksOf, Log;
  }

  lemma TellingGoesOn(w: World, c: Conn, restored: map<string, Stored>)
    requires c in w.peers && c in w.master.outbox && w.master.outbox[c] != []
    ensures var after := DoReplicaHears(w, c, restored);
            after.peers == w.peers[c := after.peers[c]] && GoesOn(w.peers[c], after.peers[c])
  {
    hide ReplicaHear;
  }

  lemma SetGoesOn(w: World, one: SetArgs, c: Conn)
    requires c in w.peers
    ensures c in DoSet(w, one).peers && GoesOn(w.peers[c], DoSet(w, one).peers[c])
  {
    hide MasterSet, HandleOf;
  }

  lemma PeerStep(w: World, s: Step, c: Conn)
    requires Enabled(w, s) && c in w.peers
    ensures c in Take(w, s).peers && GoesOn(w.peers[c], Take(w, s).peers[c])
  {
    match s
    case ClientSet(key, value, px) =>
      hide DoSet;
      SetGoesOn(w, SetArgs(key, value, px), c);
    case MasterHears(d, banner, dump) =>
      hide DoMasterHears;
      HeardGoesOn(w, d, banner, dump);
    case ReplicaHears(d, restored) =>
      hide DoReplicaHears;
      TellingGoesOn(w, d, restored);
    case _ =>
      hide WaitFor, FireTimer, RemoveReplica, Pushed, Acks;
  }

  lemma {:induction false} SpokenNeedsPeer(store: map<string, Stored>, steps: seq<Step>, w: World, c: Conn)
    requires Run(store, steps) == Some(w) && c !in w.peers
    ensures Spoken(store, steps, c) == []
    decreases |steps|
  {
    hide Take;
    if steps != [] {
      var init, last := steps[..|steps| - 1], steps[|steps| - 1];
      var u := Run(store, init).value;
      if c in u.peers {
        PeerStep(u, last, c);
      }
      SpokenNeedsPeer(store, init, u, c);
    }
  }

  /** Everything a replica has said can be read, heard or not. */
  lemma {:induction false} SpokenIsWireable(store: map<string, Stored>, steps: seq<Step>, w: World, c: Conn)
    requires Run(store, steps) == Some(w) && c in w.peers && w.peers[c].open
    requires 0 < |w.peers[c].port| < INT32_LIMIT && w.peers[c].replica.bytesIn < UINT64_LIMIT
    ensures AllWireable(Spoken(store, steps, c) + w.peers[c].replica.says)
    decreases |steps|
  {
    hide Inv, Take, Wireable, Enabled;
    ReplicaSaysReadable(store, steps, w, c);
    if steps != [] {
      var init, last := steps[..|steps| - 1], steps[|steps| - 1];
      var u := Run(store, init).value;
      if c in u.peers {
        PeerStep(u, last, c);
        BytesInGrow(store, init, u, steps, w, c);
        SpokenIsWireable(store, init, u, c);
        SaidInEnabled(u, last, c);
        var before, says := Spoken(store, init, c), u.peers[c].replica.says;
        assert forall i | 0 <= i < |before| :: (before + says)[i] == before[i];
        assert says != [] ==> (before + says)[|before|] == says[0];
      } else {
        SpokenNeedsPeer(store, init, u, c);
        SaidInEnabled(u, last, c);
      }
    }
  }

  lemma SaidInEnabled(w: World, s: Step, c: Conn)
    ensures s.MasterHears? && s.conn == c && Enabled(w, s) ==> c in w.peers && w.peers[c].replica.says != []
  {
  }

  lemma BytesInGrow(store: map<string, Stored>, early: seq<Step>, u: World, steps: seq<Step>, w: World, c: Conn)
    requires Run(store, early) == Some(u) && Run(store, steps) == Some(w)
    requires c in u.peers && c in w.peers && u.peers[c].open && w.peers[c].open && u.peers[c].told <= w.peers[c].told
    ensures u.peers[c].replica.bytesIn <= w.peers[c].replica.bytesIn
  {
    hide Run, Inv, Applied, Owed, LinkInv, Log;
    OpenLink(store, early, u, c);
    OpenLink(store, steps, w, c);
    LinkBytesIn(u.peers[c], u.master.outbox[c], HandleOf(u.master, u.peers[c]));
    LinkBytesIn(w.peers[c], w.master.outbox[c], HandleOf(w.master, w.peers[c]));
    LogPrefix(u.peers[c].told, w.peers[c].told);
    assert Log(u.peers[c].told) <= Log(w.peers[c].told);
    PrefixShorter(Log(u.peers[c].told), Log(w.peers[c].told));
  }

  lemma LinkBytesIn(p: Peer, out: seq<Message>, h: Option<Handle>)
    requires LinkInv(p, out, h)
    ensures p.replica.bytesIn == |ToStrings(Log(p.told))|
  {
    hide Opens, Writes, ToStrings, Log;
  }

  lemma LogPrefix(a: seq<Message>, b: seq<Message>)
    requires a <= b
    ensures Log(a) <= Log(b)
  {
  }

  /** The bytes of what a replica says are heard by the master as those messages, in order. */
  lemma SpokenIsDelivered(store: map<string, Stored>, steps: seq<Step>, w: World, c: Conn, transfer: seq<LinkStep>, l: Link)
    requires Run(store, steps) == Some(w) && c in w.peers && w.peers[c].open
    requires 0 < |w.peers[c].port| < INT32_LIMIT && w.peers[c].replica.bytesIn < UINT64_LIMIT
    requires LinkRun(transfer, MasterWants) == Some(l) && l.sent == Spoken(store, steps, c) + w.peers[c].replica.says
    ensures l.reader.Reading? && l.reader.heard <= l.sent
    ensures l.open && l.wire == "" && l.writeBuffer == "" ==> l.reader == Reading(l.sent, "")
  {
    hide Run, LinkRun, Wireable, Spoken;
    SpokenIsWireable(store, steps, w, c);
    assert Readable(l.sent, [], MasterWants);
    hide Readable;
    EndToEnd(transfer, MasterWants, l);
  }

  /** A master never expects a snapshot. */
  const MasterWants: Expectation := heard => ExpectAny

  /** What a replica says and the master has not heard can be read. */
  lemma ReplicaSaysReadable(store: map<string, Stored>, steps: seq<Step>, w: World, c: Conn)
    requires Run(store, steps) == Some(w) && c in w.peers && w.peers[c].open && 0 < |w.peers[c].port| < INT32_LIMIT
    requires w.peers[c].replica.bytesIn < UINT64_LIMIT
    ensures forall i | 0 <= i < |w.peers[c].replica.says| :: Wireable(w.peers[c].replica.says[i])
  {
    hide Run, Inv, LinkInv, Applied, Owed, Wireable;
    OpenLink(store, steps, w, c);
    var p, out := w.peers[c], w.master.outbox[c];
    forall i | 0 <= i < |p.replica.says| ensures Wireable(p.replica.says[i]) {
      SaysWireable(p, out, HandleOf(w.master, p), i);
    }
  }

  lemma SaysWireable(p: Peer, out: seq<Message>, h: Option<Handle>, i: nat)
    requires LinkInv(p, out, h) && i < |p.replica.says|
    requires 0 < |p.port| < INT32_LIMIT && p.replica.bytesIn < UINT64_LIMIT
    ensures Wireable(p.replica.says[i])
  {
    hide ToStrings, Construct, TryParse, AcksOf, SetsOf, Opening, Latest, AckMessage, Wireable, IsPush;
    if |p.told + out| <= 3 {
      OpeningWireable(p.port);
      assert p.replica.says[i] == Opening(p.port)[|p.told + out| + i];
    } else {
      var acks := AcksOf(Log(p.told));
      var n := acks[|p.acked| + i];
      assert p.replica.says[i] == AckMessage(n);
      var j := AckIsOffset(Log(p.told), |p.acked| + i);
      PrefixShorter(Log(p.told)[..j], Log(p.told));
      AckWireable(n);
    }
  }

  lemma OpeningWireable(port: string)
    requires 0 < |port| < INT32_LIMIT
    ensures |Opening(port)| == 4 && forall i | 0 <= i < 4 :: Wireable(Opening(port)[i])
  {
    hide TryParse;
  }

  function Power10(k: nat): nat {
    if k == 0 then 1 else 10 * Power10(k - 1)
  }

  lemma {:induction false} PrintFits(n: nat, k: nat)
    requires n < Power10(k) && k > 0
    ensures |Print(n)| <= k
  {
    if n >= 10 {
      PrintFits(n / 10, k - 1);
    }
  }

  lemma AckWireable(offset: nat)
    requires offset < UINT64_LIMIT
    ensures Wireable(AckMessage(offset))
  {
    assert Power10(4) == 10000 && Power10(8) == 100000000;
    assert Power10(12) == 1000000000000 && Power10(16) == 10000000000000000 && Power10(20) == 100000000000000000000;
    PrintFits(offset, 20);
    AckIsShort(offset);
  }

  lemma AckIsShort(offset: nat)
    requires 0 < |Print(offset)| <= 20
    ensures Wireable(AckMessage(offset))
  {
    hide TryParse, Print;
    var m := AckMessage(offset);
    assert forall i | 0 <= i < |m.elements| :: Wireable(m.elements[i]);
  }
}
