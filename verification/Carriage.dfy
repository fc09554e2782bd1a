/** When everything that a run lets somebody say can be carried as bytes. */
module Carriage {
  import opened Prelude
  import opened Decimal
  import opened Messages
  import opened Grammar
  import opened WireRoundTrip
  import opened Delivery
  import opened Commands
  import opened Replicas
  import opened Links
  import opened Replication
  import opened WaitSoundness
  import opened ReplicationTheorems

  /** No replica has processed more bytes than its 64-bit counter holds. */
  ghost predicate Fits(w: World) {
    forall c | c in w.peers && w.peers[c].open :: w.peers[c].replica.bytesIn < UINT64_LIMIT
  }

  /** What a step lets somebody say can be carried: a SET, a port, the answer to PSYNC. */
  predicate Suits(s: Step) {
    match s
    case ClientSet(key, value, px) => Carried(SetArgs(key, value, px))
    case Join(_, port, _) => 0 < |port| < INT32_LIMIT
    case MasterHears(_, banner, dump) => AnswerSuits(banner, dump)
    case _ => true
  }

  predicate AnswerSuits(banner: string, dump: string) {
    FindCrlf(banner).None? && 0 < |dump| < INT32_LIMIT
  }

  /** What is said on a connection can be carried, offsets aside; `SaidIsReadableIff` says that nothing less will do. */
  ghost predicate PeerSuits(w: World, c: Conn)
    requires c in w.peers && c in w.master.outbox
  {
    && 0 < |w.peers[c].port| < INT32_LIMIT && SnapshotCarried(Said(w, c)) && forall one | one in w.peers[c].since :: Carried(one)
  }

  ghost predicate AllSuit(w: World) {
    forall c | c in w.peers && w.peers[c].open && c in w.master.outbox :: PeerSuits(w, c)
  }

  // ----- What a step says -----

  /** A step that is no hearing leaves what was told and said, and may push more. */
  ghost predicate Quiet(w: World, after: World, d: Conn)
    requires d in w.peers && d in w.master.outbox
  {
    && d in after.peers && d in after.master.outbox && (after.peers[d].open ==> w.peers[d].open)
    && after.peers[d].told == w.peers[d].told && after.peers[d].replica.says == w.peers[d].replica.says
    && w.master.outbox[d] <= after.master.outbox[d] && |after.master.outbox[d]| <= |w.master.outbox[d]| + 1
  }

  lemma ActIsQuiet(w: World, s: Step, d: Conn)
    requires Inv(w) && Enabled(w, s) && !s.MasterHears? && !s.ReplicaHears? && d in w.peers
    ensures d in w.master.outbox && Quiet(w, Take(w, s), d)
  {
    hide Inv, Registry, Quiet, DoSet, DoWait, DoTimer, DoJoin, DoLeave;
    InvRegistry(w);
    Registered(w, d);
    match s
    case ClientSet(key, value, px) => SetIsQuiet(w, SetArgs(key, value, px), d);
    case ClientWait(count) => WaitIsQuiet(w, count, d);
    case TimerFires(id) => TimerIsQuiet(w, id, d);
    case Join(c, port, store) => JoinIsQuiet(w, c, port, store, d);
    case Leave(c) => LeaveIsQuiet(w, c, d);
  }

  lemma TimerIsQuiet(w: World, id: WaitId, d: Conn)
    requires id in w.master.timers && d in w.peers && d in w.master.outbox
    ensures Quiet(w, DoTimer(w, id), d)
  {
    hide FireTimer;
    TimerShape(w.master, id);
  }

  lemma JoinIsQuiet(w: World, c: Conn, port: string, store: map<string, Stored>, d: Conn)
    requires c !in w.peers && d in w.peers && d in w.master.outbox
    ensures Quiet(w, DoJoin(w, c, port, store), d)
  {
    hide NewPeer;
  }

  lemma LeaveIsQuiet(w: World, c: Conn, d: Conn)
    requires c in w.peers && d in w.peers && d in w.master.outbox
    ensures Quiet(w, DoLeave(w, c), d)
  {
  }

  lemma SetIsQuiet(w: World, one: SetArgs, d: Conn)
    requires Registry(w) && d in w.peers && d in w.master.outbox
    ensures Quiet(w, DoSet(w, one), d)
  {
    hide PushTo, SetMessage, HandleOf;
    var stored := w.(master := w.master.(store := w.master.store[one.key := Stored(one.value, one.px)]));
    assert Registry(stored);
    PushEffect(stored, w.master.replicas.Keys, SetMessage(one.key, one.value, one.px), d);
  }

  lemma WaitIsQuiet(w: World, count: nat, d: Conn)
    requires Registry(w) && d in w.peers && d in w.master.outbox
    ensures Quiet(w, DoWait(w, count), d)
  {
    hide PushTo, Construct, WaitFor, HandleOf, Lagging, UpToDate, Pushed, Acks;
    WaitShape(w.master, count);
    PushEffect(w, Lagging(w.master.replicas).Keys, GETACK, d);
  }

  lemma OnlyJoins(w: World, s: Step, d: Conn)
    requires Enabled(w, s) && !s.MasterHears? && !s.ReplicaHears? && d !in w.peers && d in Take(w, s).peers && d in Take(w, s).master.outbox
    ensures Take(w, s).peers[d].told == [] && Take(w, s).master.outbox[d] == [] && Take(w, s).peers[d].since == []
    ensures s.Join? && Take(w, s).peers[d].port == s.port
  {
    hide MasterSet, WaitFor, FireTimer, RemoveReplica, Pushed, Acks, AfterSet;
  }

  lemma HearingPeers(w: World, c: Conn, banner: string, dump: string)
    requires c in w.peers && c in w.master.outbox && w.peers[c].replica.says != []
    ensures var p, after := w.peers[c], DoMasterHears(w, c, banner, dump);
            && after.peers == w.peers[c := after.peers[c]] && after.peers[c].open == p.open
            && after.peers[c].told == p.told && after.peers[c].replica.says == p.replica.says[1..]
  {
    hide ServerHear, AcksOf, Log;
  }

  /** The master answers where it hears. */
  lemma HearingChannels(w: World, c: Conn, banner: string, dump: string)
    requires Inv(w) && Enabled(w, MasterHears(c, banner, dump))
    ensures var outbox := DoMasterHears(w, c, banner, dump).master.outbox;
            && outbox.Keys == w.master.outbox.Keys && (forall d | d in w.master.outbox && d != c :: outbox[d] == w.master.outbox[d])
            && w.master.outbox[c] <= outbox[c]
  {
    hide LinkInv, Applied, Owed, DoMasterHears, Registry;
    SaidCounts(w, c);
    if |Said(w, c)| <= 3 {
      var more := OpeningShape(w, c, banner, dump);
    } else {
      hide HearAck;
      var r, n := AckShape(w, c, banner, dump);
      HearAckOutbox(w.master, r, n);
    }
  }

  // ----- Every step keeps what is said fit to be carried -----

  /** A stream that goes on from a whole snapshot, or that does not reach it. */
  lemma SnapshotStays(said: seq<Message>, after: seq<Message>)
    requires SnapshotCarried(said) && said <= after && (|said| >= 5 || |after| <= 4)
    ensures SnapshotCarried(after)
  {
    hide FindCrlf;
  }

  lemma SaidCounts(w: World, d: Conn)
    requires Inv(w) && d in w.peers && w.peers[d].open && d in w.master.outbox
    ensures |Said(w, d)| <= 3 || |Said(w, d)| >= 5
  {
    hide LinkInv, Applied, Owed, Registry;
    assert LinkHolds(w, d);
    LinkStage(w.peers[d], w.master.outbox[d], HandleOf(w.master, w.peers[d]));
  }

  lemma ActSuits(w: World, s: Step, d: Conn)
    requires Inv(w) && Enabled(w, s) && !s.MasterHears? && !s.ReplicaHears? && Suits(s) && AllSuit(w)
    requires d in Take(w, s).peers && Take(w, s).peers[d].open && d in Take(w, s).master.outbox
    ensures PeerSuits(Take(w, s), d)
  {
    hide Inv, Take, Enabled, SnapshotCarried, Carried;
    if d in w.peers {
      ActIsQuiet(w, s, d);
      PeerStep(w, s, d);
      SaidCounts(w, d);
      SnapshotStays(Said(w, d), Said(Take(w, s), d));
      SinceSuits(w, s, d);
    } else {
      OnlyJoins(w, s, d);
      NothingSaid(Said(Take(w, s), d));
    }
  }

  lemma NothingSaid(said: seq<Message>)
    requires |said| <= 4
    ensures SnapshotCarried(said)
  {
  }

  lemma SinceSuits(w: World, s: Step, d: Conn)
    requires Enabled(w, s) && !s.MasterHears? && !s.ReplicaHears? && Suits(s) && d in w.peers
    ensures d in Take(w, s).peers
    ensures forall one | one in Take(w, s).peers[d].since :: one in w.peers[d].since || Carried(one)
  {
    hide MasterSet, WaitFor, FireTimer, RemoveReplica, Pushed, Acks, HandleOf, NewPeer, Carried;
  }

  /** When the master hears a PSYNC it says the banner and the dump; else it says at most one message. */
  lemma HearingSuits(w: World, c: Conn, banner: string, dump: string)
    requires Inv(w) && Enabled(w, MasterHears(c, banner, dump)) && PeerSuits(w, c) && AnswerSuits(banner, dump)
    ensures c in DoMasterHears(w, c, banner, dump).peers && c in DoMasterHears(w, c, banner, dump).master.outbox
    ensures PeerSuits(DoMasterHears(w, c, banner, dump), c)
  {
    hide Inv, DoMasterHears, SnapshotCarried, Carried, FindCrlf;
    var after, said := DoMasterHears(w, c, banner, dump), Said(w, c);
    HearingPeers(w, c, banner, dump);
    HeardGoesOn(w, c, banner, dump);
    SaidCounts(w, c);
    SinceStays(w, c, banner, dump);
    if |said| <= 2 {
      var more := OpeningShape(w, c, banner, dump);
      NothingSaid(Said(after, c));
    } else if |said| == 3 {
      PsyncShape(w, c, banner, dump);
      AnswerCarried(Said(after, c), banner, dump);
    } else {
      hide HearAck;
      var r, n := AckShape(w, c, banner, dump);
      HearAckOutbox(w.master, r, n);
    }
  }

  lemma SinceStays(w: World, c: Conn, banner: string, dump: string)
    requires c in w.peers && c in w.master.outbox && w.peers[c].replica.says != []
    ensures DoMasterHears(w, c, banner, dump).peers[c].since == w.peers[c].since
  {
    hide ServerHear, AcksOf, Log;
  }

  lemma AnswerCarried(said: seq<Message>, banner: string, dump: string)
    requires |said| == 5 && said[3..] == [SimpleString(banner), SyncResponse(dump)] && AnswerSuits(banner, dump)
    ensures SnapshotCarried(said)
  {
    hide FindCrlf;
    assert said[3] == said[3..][0] && said[4] == said[3..][1];
  }

  lemma TellingSuits(w: World, c: Conn, restored: map<string, Stored>)
    requires c in w.peers && c in w.master.outbox && w.master.outbox[c] != [] && PeerSuits(w, c)
    ensures c in DoReplicaHears(w, c, restored).peers && c in DoReplicaHears(w, c, restored).master.outbox
    ensures PeerSuits(DoReplicaHears(w, c, restored), c)
  {
    hide ReplicaHear, SnapshotCarried, Carried;
    var out := w.master.outbox[c];
    assert w.peers[c].told + [out[0]] + out[1..] == w.peers[c].told + out;
  }

  /** A step keeps everything that can be carried so. */
  lemma StepSuits(w: World, s: Step)
    requires Inv(w) && AllSuit(w) && Enabled(w, s) && Suits(s)
    ensures AllSuit(Take(w, s))
  {
    hide Inv, PeerSuits, DoMasterHears, DoReplicaHears, DoSet, DoWait, DoTimer, DoJoin, DoLeave, AnswerSuits, Carried;
    var after := Take(w, s);
    forall d | d in after.peers && after.peers[d].open && d in after.master.outbox ensures PeerSuits(after, d) {
      match s
      case MasterHears(c, banner, dump) =>
        HeardElsewhere(w, c, banner, dump, d);
        if d == c {
          HearingSuits(w, c, banner, dump);
        }
      case ReplicaHears(c, restored) =>
        ToldElsewhere(w, c, restored, d);
        if d == c {
          TellingSuits(w, c, restored);
        }
      case _ => ActSuits(w, s, d);
    }
  }

  lemma HeardElsewhere(w: World, c: Conn, banner: string, dump: string, d: Conn)
    requires Inv(w) && AllSuit(w) && Enabled(w, MasterHears(c, banner, dump))
    requires var after := DoMasterHears(w, c, banner, dump); d in after.peers && d in after.master.outbox && after.peers[d].open
    ensures d in w.peers && d in w.master.outbox && PeerSuits(w, d)
    ensures d != c ==> PeerSuits(DoMasterHears(w, c, banner, dump), d)
  {
    hide Inv, DoMasterHears, SnapshotCarried, Carried, AllSuit;
    HearingPeers(w, c, banner, dump);
    HearingChannels(w, c, banner, dump);
    SuitsHere(w, d);
  }

  lemma SuitsHere(w: World, d: Conn)
    requires AllSuit(w) && d in w.peers && w.peers[d].open && d in w.master.outbox
    ensures PeerSuits(w, d)
  {
    hide PeerSuits;
  }

  lemma ToldElsewhere(w: World, c: Conn, restored: map<string, Stored>, d: Conn)
    requires AllSuit(w) && Enabled(w, ReplicaHears(c, restored))
    requires var after := DoReplicaHears(w, c, restored); d in after.peers && d in after.master.outbox && after.peers[d].open
    ensures d in w.peers && d in w.master.outbox && PeerSuits(w, d)
    ensures d != c ==> PeerSuits(DoReplicaHears(w, c, restored), d)
  {
    hide SnapshotCarried, Carried, ReplicaHear;
  }

  /** What is said on a run of suiting steps can be carried. */
  lemma {:induction false} RunSuits(store: map<string, Stored>, steps: seq<Step>, w: World)
    requires Run(store, steps) == Some(w) && forall s | s in steps :: Suits(s)
    ensures AllSuit(w)
    decreases |steps|
  {
    hide Inv, Take, Enabled, Suits, PeerSuits;
    if steps != [] {
      var init := steps[..|steps| - 1];
      RunKeeps(store, init);
      RunSuits(store, init, Run(store, init).value);
      StepSuits(Run(store, init).value, steps[|steps| - 1]);
    }
  }

  lemma SaidIsReadable(store: map<string, Stored>, steps: seq<Step>, w: World, c: Conn)
    requires Run(store, steps) == Some(w) && AllSuit(w) && c in w.peers && w.peers[c].open && c in w.master.outbox
    ensures Readable(Said(w, c), [], ReplicaWants)
  {
    hide Run, Readable, SnapshotCarried, Carried;
    SaidIsReadableIff(store, steps, w, c);
  }

  lemma SaysAreWireable(store: map<string, Stored>, steps: seq<Step>, w: World, d: Conn)
    requires Run(store, steps) == Some(w) && AllSuit(w) && Fits(w) && d in w.peers && w.peers[d].open && d in w.master.outbox
    ensures AllWireable(w.peers[d].replica.says)
  {
    hide Run, Wireable, SnapshotCarried, Carried;
    ReplicaSaysReadable(store, steps, w, d);
  }
}
