/**
 A master, its replicas and its clients as a step system: every run of every number of replicas, with
 WAITs pending, timers firing, replicas joining and leaving in any order.
 */
module Replication {
  import opened Prelude
  import opened Decimal
  import opened Messages
  import opened Commands
  import opened Replicas
  import opened Links

  /**
   What was true when a WAIT was set up: the number asked for, and for every registered replica the
   messages pushed to it and the number of its ACKs heard by then.
   */
  datatype Asked = Asked(requested: nat, logs: map<ReplicaId, seq<Message>>, heard: map<ReplicaId, nat>)

  /**
   `master` and the replicas in `peers` are the program's state. `homes` says which connection a replica
   id was given to, `asked` what each WAIT asked, `written` which SETs were executed after `initial`.
   */
  datatype World = World(
    master: Master, peers: map<Conn, Peer>, homes: map<ReplicaId, Conn>, asked: map<WaitId, Asked>,
    initial: map<string, Stored>, written: seq<SetArgs>)

  datatype Step =
    | ClientSet(key: string, value: string, px: Option<int32>)
    | ClientWait(count: nat)
    | MasterHears(conn: Conn, banner: string, dump: string)
    | ReplicaHears(conn: Conn, restored: map<string, Stored>)
    | TimerFires(wait: WaitId)
    | Join(conn: Conn, port: string, store: map<string, Stored>)
    | Leave(conn: Conn)

  function Start(store: map<string, Stored>): World {
    World(Master(store, 0, map[], 0, [], map[], [], map[]), map[], map[], map[], store, [])
  }

  /** The replica handle of a connection. */
  function HandleOf(ma: Master, p: Peer): Option<Handle> {
    if p.id.Some? && p.id.value in ma.replicas then Some(ma.replicas[p.id.value]) else None
  }

  /** Everything said to the replica of a connection, heard or not. */
  function Said(w: World, c: Conn): seq<Message>
    requires c in w.peers && c in w.master.outbox
  {
    w.peers[c].told + w.master.outbox[c]
  }

  /** The messages pushed to a registered replica. */
  function Pushed(w: World, r: ReplicaId): seq<Message> {
    if r in w.homes && w.homes[r] in w.peers && w.homes[r] in w.master.outbox then Log(Said(w, w.homes[r])) else []
  }

  /** The offsets heard from a replica. */
  function Acks(w: World, r: ReplicaId): seq<nat> {
    if r in w.homes && w.homes[r] in w.peers then w.peers[w.homes[r]].acked else []
  }

  predicate Enabled(w: World, s: Step) {
    match s
    case ClientSet(_, _, px) => PxAccepted(px)
    case ClientWait(_) => true
    case MasterHears(c, _, _) => c in w.peers && w.peers[c].open && c in w.master.outbox && w.peers[c].replica.says != []
    case ReplicaHears(c, _) => c in w.peers && w.peers[c].open && c in w.master.outbox && w.master.outbox[c] != []
    case TimerFires(id) => id in w.master.timers
    case Join(c, _, _) => c !in w.peers && c !in w.master.outbox
    case Leave(c) => c in w.peers && w.peers[c].open
  }

  /** The peer of a connection after the master has executed a SET. */
  function AfterSet(ma: Master, p: Peer, one: SetArgs): Peer {
    var h := HandleOf(ma, p);
    if h.Some? && h.value.state.WRITE? then p.(since := p.since + [one]) else p
  }

  /** The peer of a connection after the master has heard the first message its replica said. */
  function AfterHeard(w: World, p: Peer, out: seq<Message>, id: Option<ReplicaId>): Peer
    requires p.replica.says != []
  {
    var acks := AcksOf(Log(p.told));
    p.(id := id,
       replica := p.replica.(says := p.replica.says[1..]),
       acked := if |p.told + out| >= 5 && |p.acked| < |acks| then p.acked + [acks[|p.acked|]] else p.acked,
       start := if |p.told + out| == 3 then |w.written| else p.start)
  }

  function DoSet(w: World, one: SetArgs): World {
    w.(master := MasterSet(w.master, one.key, one.value, one.px),
       peers := map c | c in w.peers :: AfterSet(w.master, w.peers[c], one),
       written := w.written + [one])
  }

  function DoWait(w: World, count: nat): World {
    var ids := w.master.replicas.Keys;
    w.(master := WaitFor(w.master, count),
       asked := w.asked[w.master.nextWait :=
                          Asked(count, map r | r in ids :: Pushed(w, r), map r | r in ids :: |Acks(w, r)|)])
  }

  function DoMasterHears(w: World, c: Conn, banner: string, dump: string): World
    requires c in w.peers && c in w.master.outbox && w.peers[c].replica.says != []
  {
    var p := w.peers[c];
    var (after, id) := ServerHear(w.master, c, p.id, p.replica.says[0], banner, dump);
    w.(master := after,
       peers := w.peers[c := AfterHeard(w, p, w.master.outbox[c], id)],
       homes := if p.id.None? && id.Some? then w.homes[id.value := c] else w.homes)
  }

  function DoReplicaHears(w: World, c: Conn, restored: map<string, Stored>): World
    requires c in w.peers && c in w.master.outbox && w.master.outbox[c] != []
  {
    w.(master := w.master.(outbox := w.master.outbox[c := w.master.outbox[c][1..]]),
       peers := w.peers[c := PeerHears(w.peers[c], w.master.outbox[c][0], restored)])
  }

  function DoTimer(w: World, id: WaitId): World
    requires id in w.master.timers
  {
    w.(master := FireTimer(w.master, id))
  }

  function DoJoin(w: World, c: Conn, port: string, store: map<string, Stored>): World {
    w.(master := w.master.(outbox := w.master.outbox[c := []]), peers := w.peers[c := NewPeer(port, store)])
  }

  function DoLeave(w: World, c: Conn): World
    requires c in w.peers
  {
    var p := w.peers[c];
    w.(master := if p.id.Some? then RemoveReplica(w.master, p.id.value) else w.master,
       peers := w.peers[c := p.(open := false, id := None)])
  }

  function Take(w: World, s: Step): World
    requires Enabled(w, s)
  {
    match s
    case ClientSet(key, value, px) => DoSet(w, SetArgs(key, value, px))
    case ClientWait(count) => DoWait(w, count)
    case MasterHears(c, banner, dump) => DoMasterHears(w, c, banner, dump)
    case ReplicaHears(c, restored) => DoReplicaHears(w, c, restored)
    case TimerFires(id) => DoTimer(w, id)
    case Join(c, port, store) => DoJoin(w, c, port, store)
    case Leave(c) => DoLeave(w, c)
  }

  /** The world after a list of steps, if each was possible when it was taken. */
  function Run(store: map<string, Stored>, steps: seq<Step>): Option<World>
    decreases |steps|
  {
    if steps == [] then Some(Start(store))
    else
      match Run(store, steps[..|steps| - 1])
      case Some(before) =>
        if Enabled(before, steps[|steps| - 1]) then Some(Take(before, steps[|steps| - 1])) else None
      case None => None
  }

  // ----- Invariants -----

  /** Connections, replica ids and handles name each other one to one. */
  ghost predicate Registry(w: World) {
    && w.peers.Keys == w.master.outbox.Keys
    && (forall c | c in w.peers && w.peers[c].id.Some? ::
          var r := w.peers[c].id.value;
          w.peers[c].open && r in w.master.replicas && w.master.replicas[r].slot == c)
    && (forall r | r in w.master.replicas ::
          && r in w.homes && w.homes[r] == w.master.replicas[r].slot
          && w.master.replicas[r].slot in w.peers && w.peers[w.master.replicas[r].slot].id == Some(r))
    && (forall r | r in w.homes :: r < w.master.nextReplica && w.homes[r] in w.peers)
  }

  /** What holds of one connection: the link, the replica's map, and the SETs it is owed. */
  ghost predicate LinkHolds(w: World, c: Conn) {
    && c in w.peers && c in w.master.outbox
    && (w.peers[c].open ==> LinkInv(w.peers[c], w.master.outbox[c], HandleOf(w.master, w.peers[c])))
    && Applied(w.peers[c])
    && Owed(w, c)
  }

  /** While the master writes to a replica, it owes it the tail of its SETs since then. */
  ghost predicate Owed(w: World, c: Conn)
    requires c in w.peers
  {
    var p := w.peers[c];
    var h := HandleOf(w.master, p);
    h.Some? && h.value.state.WRITE? ==> p.start <= |w.written| && p.since == w.written[p.start..]
  }

  ghost predicate LinksHold(w: World) {
    forall c | c in w.peers :: LinkHolds(w, c)
  }

  ghost predicate Inv(w: World) {
    Registry(w) && LinksHold(w) && w.master.store == ApplyAll(w.initial, w.written)
  }

  // ----- The effect of a push, connection by connection -----

  lemma PushEffect(w: World, ids: set<ReplicaId>, m: Message, c: Conn)
    requires Registry(w) && c in w.peers
    ensures var after := PushTo(w.master, ids, m);
            var p := w.peers[c]; var h := HandleOf(w.master, p);
            && after.outbox.Keys == w.master.outbox.Keys && after.replicas.Keys == w.master.replicas.Keys
            && (h.None? ==> HandleOf(after, p) == None && after.outbox[c] == w.master.outbox[c])
            && (h.Some? && p.id.value !in ids ==> HandleOf(after, p) == h && after.outbox[c] == w.master.outbox[c])
            && (h.Some? && p.id.value in ids ==> HandleOf(after, p) == Some(PushHandle(h.value, m)))
            && (h.Some? && p.id.value in ids && h.value.state.WRITE? ==> after.outbox[c] == w.master.outbox[c] + [m])
            && (h.Some? && p.id.value in ids && !h.value.state.WRITE? ==> after.outbox[c] == w.master.outbox[c])
  {
    hide ToString;
    var p := w.peers[c];
    if p.id.Some? {
      var r := p.id.value;
      if r in ids && w.master.replicas[r].state.WRITE? {
        assert WritesTo(w.master.replicas, ids, c);
      }
    }
    if WritesTo(w.master.replicas, ids, c) {
      var id :| id in ids && id in w.master.replicas && w.master.replicas[id].state.WRITE? && w.master.replicas[id].slot == c;
      assert w.peers[w.master.replicas[id].slot].id == Some(id);
    }
  }

  lemma PushKeepsSlots(ma: Master, ids: set<ReplicaId>, m: Message)
    ensures var after := PushTo(ma, ids, m);
            && after.replicas.Keys == ma.replicas.Keys && after.outbox.Keys == ma.outbox.Keys
            && after.nextReplica == ma.nextReplica
            && forall r | r in ma.replicas :: after.replicas[r].slot == ma.replicas[r].slot
  {
    hide ToString, WritesTo;
  }

  /** The registry does not look at counters, channels or stores. */
  lemma RegistryFrame(w: World, after: World)
    requires Registry(w)
    requires after.master.replicas.Keys == w.master.replicas.Keys && after.master.outbox.Keys == w.master.outbox.Keys
    requires after.master.nextReplica == w.master.nextReplica && after.homes == w.homes && after.peers.Keys == w.peers.Keys
    requires forall r | r in w.master.replicas :: after.master.replicas[r].slot == w.master.replicas[r].slot
    requires forall c | c in w.peers :: after.peers[c].id == w.peers[c].id && after.peers[c].open == w.peers[c].open
    ensures Registry(after)
  {
  }

  // ----- Every step keeps the invariant -----

  /** A connection that a step does not touch. */
  lemma Untouched(w: World, after: World, c: Conn)
    requires LinkHolds(w, c)
    requires c in after.peers && c in after.master.outbox && after.peers[c] == w.peers[c]
    requires after.master.outbox[c] == w.master.outbox[c] && after.written == w.written
    requires HandleOf(after.master, w.peers[c]) == HandleOf(w.master, w.peers[c])
    ensures LinkHolds(after, c)
  {
    hide LinkInv, Applied;
  }

  lemma SetKeepsStore(w: World, one: SetArgs)
    requires w.master.store == ApplyAll(w.initial, w.written)
    ensures w.master.store[one.key := Stored(one.value, one.px)] == ApplyAll(w.initial, w.written + [one])
  {
    assert (w.written + [one])[..|w.written|] == w.written;
  }

  lemma SetKeepsLink(w: World, one: SetArgs, c: Conn)
    requires Registry(w) && LinkHolds(w, c)
    requires PxAccepted(one.px)
    ensures LinkHolds(DoSet(w, one), c)
  {
    hide Construct, TryParse, ToString, ToStrings, LinkInv, Applied, IsPush, SetMessage, PushTo, PushHandle;
    var m := SetMessage(one.key, one.value, one.px);
    var ids := w.master.replicas.Keys;
    SetIsPush(one.key, one.value, one.px);
    PushIgnores(w.master.(store := w.master.store[one.key := Stored(one.value, one.px)]), w.master, ids, m);
    PushEffect(w, ids, m, c);
    var p, h := w.peers[c], HandleOf(w.master, w.peers[c]);
    hide Registry;
    if h.Some? && h.value.state.WRITE? {
      LinkPush(p, w.master.outbox[c], h.value, m);
      assert (w.written + [one])[p.start..] == w.written[p.start..] + [one];
      SinceIsHistory(p, one);
    } else if h.Some? {
      PushNotWriting(h.value, m);
    }
  }

  lemma PushNotWriting(h: Handle, m: Message)
    ensures !h.state.WRITE? ==> PushHandle(h, m) == h
    ensures PushHandle(h, m).state == h.state
  {
    hide ToString;
  }

  /** A push looks at the replicas and the channels only. */
  lemma PushIgnores(mb: Master, ma: Master, ids: set<ReplicaId>, m: Message)
    requires mb.replicas == ma.replicas && mb.outbox == ma.outbox
    ensures PushTo(mb, ids, m) == mb.(replicas := PushTo(ma, ids, m).replicas, outbox := PushTo(ma, ids, m).outbox)
  {
    hide ToString, WritesTo, PushHandle;
  }

  /** `Applied` does not look at the SETs still to come. */
  lemma SinceIsHistory(p: Peer, one: SetArgs)
    ensures Applied(p.(since := p.since + [one])) <==> Applied(p)
  {
    hide SetIn, ToStrings;
  }

  lemma SetKeepsRegistry(w: World, one: SetArgs)
    requires Registry(w)
    ensures Registry(DoSet(w, one))
  {
    hide Construct, SetMessage, PushTo;
    var after, m := DoSet(w, one), SetMessage(one.key, one.value, one.px);
    PushIgnores(w.master.(store := w.master.store[one.key := Stored(one.value, one.px)]), w.master, w.master.replicas.Keys, m);
    PushKeepsSlots(w.master, w.master.replicas.Keys, m);
    RegistryFrame(w, after);
  }

  lemma SetKeeps(w: World, one: SetArgs)
    requires Inv(w) && PxAccepted(one.px)
    ensures Inv(DoSet(w, one))
  {
    hide Construct, LinkHolds, PushTo, Registry;
    PushIgnores(w.master.(store := w.master.store[one.key := Stored(one.value, one.px)]), w.master, w.master.replicas.Keys,
                SetMessage(one.key, one.value, one.px));
    SetKeepsRegistry(w, one);
    SetKeepsStore(w, one);
    forall c | c in w.peers ensures LinkHolds(DoSet(w, one), c) {
      SetKeepsLink(w, one, c);
    }
  }

  lemma WaitKeepsLink(w: World, ids: set<ReplicaId>, after: World, c: Conn)
    requires Registry(w) && LinkHolds(w, c)
    requires after.peers == w.peers && after.written == w.written
    requires after.master.replicas == PushTo(w.master, ids, GETACK).replicas
    requires after.master.outbox == PushTo(w.master, ids, GETACK).outbox
    ensures LinkHolds(after, c)
  {
    hide Construct, TryParse, ToString, ToStrings, LinkInv, Applied, IsPush, PushTo, PushHandle;
    PushEffect(w, ids, GETACK, c);
    var p, h := w.peers[c], HandleOf(w.master, w.peers[c]);
    hide Registry;
    GetackIsPush();
    if h.Some? {
      PushNotWriting(h.value, GETACK);
      if h.value.state.WRITE? && p.id.value in ids {
        LinkPush(p, w.master.outbox[c], h.value, GETACK);
        assert p.since + [] == p.since;
        assert p.(since := p.since) == p;
      }
    }
  }

  /** A WAIT either pushes GETACK to the lagging replicas or touches no replica. */
  lemma WaitShape(ma: Master, count: nat)
    ensures var after := WaitFor(ma, count);
            var asks := Min(count, |ma.replicas|) > |UpToDate(ma.replicas)|;
            var pushed := PushTo(ma, Lagging(ma.replicas).Keys, GETACK);
            && after.store == ma.store && after.nextReplica == ma.nextReplica && after.nextWait == ma.nextWait + 1
            && after.replicas == (if asks then pushed.replicas else ma.replicas)
            && after.outbox == (if asks then pushed.outbox else ma.outbox)
            && after.waits == ma.waits + (if asks then [Waiting(ma.nextWait, Min(count, |ma.replicas|), |UpToDate(ma.replicas)|, Lagging(ma.replicas), UpToDate(ma.replicas))] else [])
            && after.timers == (if asks then ma.timers[ma.nextWait := true] else ma.timers)
            && after.answers == ma.answers + (if asks then [] else [Answer(ma.nextWait, |UpToDate(ma.replicas)|, false, UpToDate(ma.replicas))])
  {
    hide Construct, Lagging, UpToDate, PushHandle, WritesTo;
    var ready := UpToDate(ma.replicas);
    var mb := ma.(nextWait := ma.nextWait + 1,
                  waits := ma.waits + [Waiting(ma.nextWait, Min(count, |ma.replicas|), |ready|, Lagging(ma.replicas), ready)],
                  timers := ma.timers[ma.nextWait := true]);
    PushIgnores(mb, ma, Lagging(ma.replicas).Keys, GETACK);
    assert ma.waits + [] == ma.waits && ma.answers + [] == ma.answers;
  }

  lemma WaitKeepsRegistry(w: World, count: nat)
    requires Registry(w)
    ensures Registry(DoWait(w, count))
  {
    hide Construct, PushTo, WaitFor, Pushed, Acks, Lagging, UpToDate;
    WaitShape(w.master, count);
    PushKeepsSlots(w.master, Lagging(w.master.replicas).Keys, GETACK);
    RegistryFrame(w, DoWait(w, count));
  }

  lemma WaitKeeps(w: World, count: nat)
    requires Inv(w)
    ensures Inv(DoWait(w, count))
  {
    hide Construct, LinkHolds, PushTo, WaitFor, Pushed, Acks, Lagging, UpToDate, Registry;
    WaitKeepsRegistry(w, count);
    WaitShape(w.master, count);
    var after := DoWait(w, count);
    forall c | c in w.peers ensures LinkHolds(after, c) {
      if after.master.replicas == w.master.replicas && after.master.outbox == w.master.outbox {
        WaitTouchesNone(w, after, c);
      } else {
        WaitKeepsLink(w, Lagging(w.master.replicas).Keys, after, c);
      }
    }
  }

  lemma WaitTouchesNone(w: World, after: World, c: Conn)
    requires LinkHolds(w, c) && after.peers == w.peers && after.written == w.written
    requires after.master.replicas == w.master.replicas && after.master.outbox == w.master.outbox
    ensures LinkHolds(after, c)
  {
    hide LinkInv, Applied;
  }

  lemma ReplicaHearsKeeps(w: World, c: Conn, restored: map<string, Stored>)
    requires Inv(w) && c in w.peers && w.peers[c].open && c in w.master.outbox && w.master.outbox[c] != []
    ensures Inv(DoReplicaHears(w, c, restored))
  {
    hide LinkInv, Applied, ReplicaHear;
    var after, p := DoReplicaHears(w, c, restored), w.peers[c];
    RegistryFrame(w, after);
    hide Registry;
    assert LinkHolds(w, c);
    LinkHears(p, w.master.outbox[c], HandleOf(w.master, p), restored);
    forall d | d in after.peers ensures LinkHolds(after, d) {
      assert LinkHolds(w, d);
      if d != c {
        Untouched(w, after, d);
      }
    }
  }

  lemma TimerShape(ma: Master, id: WaitId)
    requires id in ma.timers
    ensures var after := FireTimer(ma, id);
            after.replicas == ma.replicas && after.outbox == ma.outbox && after.nextReplica == ma.nextReplica && after.store == ma.store
  {
  }

  lemma TimerKeeps(w: World, id: WaitId)
    requires Inv(w) && id in w.master.timers
    ensures Inv(DoTimer(w, id))
  {
    hide LinkHolds, Registry, FireTimer;
    TimerShape(w.master, id);
    var after := DoTimer(w, id);
    RegistryFrame(w, after);
    forall d | d in after.peers ensures LinkHolds(after, d) {
      WaitTouchesNone(w, after, d);
    }
  }

  lemma JoinKeeps(w: World, c: Conn, port: string, store: map<string, Stored>)
    requires Inv(w) && c !in w.peers
    ensures Inv(DoJoin(w, c, port, store))
  {
    hide Applied, LinkInv;
    var after := DoJoin(w, c, port, store);
    LinkStarts(port, store);
    assert Registry(after);
    hide Registry;
    forall d | d in after.peers ensures LinkHolds(after, d) {
      if d != c {
        assert LinkHolds(w, d);
        Untouched(w, after, d);
      }
    }
  }

  lemma LeaveKeepsRegistry(w: World, c: Conn)
    requires Registry(w) && c in w.peers
    ensures Registry(DoLeave(w, c))
  {
    forall r | r in DoLeave(w, c).master.replicas
      ensures w.homes[r] != c && r in w.master.replicas && DoLeave(w, c).master.replicas[r] == w.master.replicas[r]
    {
      LeftHomes(w, c, r);
    }
  }

  lemma LeftHomes(w: World, c: Conn, r: ReplicaId)
    requires Registry(w) && c in w.peers && r in DoLeave(w, c).master.replicas
    ensures r in w.homes && w.homes[r] != c && r in w.master.replicas && DoLeave(w, c).master.replicas[r] == w.master.replicas[r]
  {
  }

  lemma LeaveKeeps(w: World, c: Conn)
    requires Inv(w) && c in w.peers
    ensures Inv(DoLeave(w, c))
  {
    hide Applied, LinkInv;
    var after, p := DoLeave(w, c), w.peers[c];
    LeaveKeepsRegistry(w, c);
    LeftIsHistory(p);
    forall d | d in after.peers ensures LinkHolds(after, d) {
      assert LinkHolds(w, d);
      if d != c {
        assert w.peers[d].id.Some? ==> w.peers[d].id != p.id;
        Untouched(w, after, d);
      }
    }
  }

  lemma LeftIsHistory(p: Peer)
    ensures Applied(p.(open := false, id := None)) <==> Applied(p)
  {
    hide SetIn, ToStrings;
  }

  // ----- The master hears a replica -----

  lemma HearOpening(ma: Master, c: Conn, id: Option<ReplicaId>, port: string, banner: string, dump: string)
    requires c in ma.outbox && (id.Some? ==> id.value in ma.replicas)
    ensures ServerHear(ma, c, id, Opening(port)[0], banner, dump) == (Say(ma, c, SimpleString("PONG")), id)
    ensures id.None? ==> ServerHear(ma, c, id, Opening(port)[1], banner, dump) ==
                         (Say(AddReplica(ma, c), c, SimpleString("OK")), Some(ma.nextReplica))
    ensures id.Some? ==> ServerHear(ma, c, id, Opening(port)[2], banner, dump) == (Say(ma, c, SimpleString("OK")), id)
    ensures id.Some? ==> ServerHear(ma, c, id, Opening(port)[3], banner, dump) ==
                         (SetReplicaState(Say(Say(ma, c, SimpleString(banner)), c, SyncResponse(dump)), id.value, WRITE), id)
  {
    hide TryParse, Construct, HearAck, ToLower, Opening;
    OpeningParses(port);
  }

  lemma HearAckMessage(ma: Master, c: Conn, r: ReplicaId, n: nat, banner: string, dump: string)
    requires c in ma.outbox && r in ma.replicas
    ensures ServerHear(ma, c, Some(r), AckMessage(n), banner, dump) == (if n < INT32_LIMIT then HearAck(ma, r, n) else ma, Some(r))
  {
    hide TryParse, AckMessage, HearAck, ToLower, ParseInt, Print;
    AckParses(n);
  }

  /** `Applied` looks at the replica's map, what it was told, and its base. */
  lemma HeardIsHistory(p: Peer, q: Peer)
    requires q.told == p.told && q.replica.store == p.replica.store && q.base == p.base
    ensures Applied(q) <==> Applied(p)
  {
    hide SetIn, ToStrings;
  }

  /** What the registry says about one connection. */
  lemma Registered(w: World, c: Conn)
    requires Registry(w) && c in w.peers
    ensures c in w.master.outbox
    ensures w.peers[c].id.Some? ==> w.peers[c].id.value in w.master.replicas && w.master.replicas[w.peers[c].id.value].slot == c
    ensures w.master.nextReplica !in w.master.replicas
    ensures forall d | d in w.peers && d != c :: w.peers[d].id.Some? ==> w.peers[d].id != w.peers[c].id
  {
  }

  /** The other connections, and the map, when the master hears on connection `c`. */
  lemma OthersKeep(w: World, after: World, c: Conn)
    requires Inv(w) && c in w.peers && Registry(after)
    requires c in after.peers && after.peers == w.peers[c := after.peers[c]]
    requires forall d | d in w.peers && d != c :: d in after.master.outbox && after.master.outbox[d] == w.master.outbox[d]
    requires forall r | r in w.master.replicas && w.peers[c].id != Some(r) :: r in after.master.replicas && after.master.replicas[r] == w.master.replicas[r]
    requires after.written == w.written && after.initial == w.initial && after.master.store == w.master.store
    requires LinkHolds(after, c)
    ensures Inv(after)
  {
    hide LinkInv, Applied, Registry;
    Registered(w, c);
    forall d | d in after.peers ensures LinkHolds(after, d) {
      if d != c {
        assert LinkHolds(w, d);
        Registered(w, d);
        Untouched(w, after, d);
      }
    }
  }

  /** The world after the master took a message off connection `c` and answered it with `m`, and no more. */
  function Answers(w: World, c: Conn, m: Message): World
    requires c in w.peers && c in w.master.outbox && w.peers[c].replica.says != []
  {
    var p := w.peers[c];
    w.(master := Say(w.master, c, m), peers := w.peers[c := p.(replica := p.replica.(says := p.replica.says[1..]))])
  }

  lemma AnsweredKeeps(w: World, c: Conn, m: Message)
    requires Inv(w) && c in w.peers && w.peers[c].open && c in w.master.outbox && w.peers[c].replica.says != []
    requires LinkInv(Answers(w, c, m).peers[c], w.master.outbox[c] + [m], HandleOf(w.master, w.peers[c]))
    requires w.peers[c].id.None? || !w.master.replicas[w.peers[c].id.value].state.WRITE?
    ensures Inv(Answers(w, c, m))
  {
    hide LinkInv, Applied, Registry;
    Registered(w, c);
    var after := Answers(w, c, m);
    assert LinkHolds(w, c);
    HeardIsHistory(w.peers[c], after.peers[c]);
    RegistryFrame(w, after);
    OthersKeep(w, after, c);
  }

  /** A PING, and the capabilities, are answered and change nothing else. */
  lemma AnswersShape(w: World, c: Conn, banner: string, dump: string)
    requires Inv(w) && c in w.peers && w.peers[c].open && w.peers[c].replica.says != []
    requires |Said(w, c)| == 0 || |Said(w, c)| == 2
    ensures DoMasterHears(w, c, banner, dump) == Answers(w, c, SimpleString(if |Said(w, c)| == 0 then "PONG" else "OK"))
    ensures |Said(w, c)| == 2 ==> w.peers[c].id.Some?
    ensures w.peers[c].id.None? || !w.master.replicas[w.peers[c].id.value].state.WRITE?
  {
    hide LinkInv, Applied, AcksOf, Log, Opening, ServerHear;
    Registered(w, c);
    var p, out, h := w.peers[c], w.master.outbox[c], HandleOf(w.master, w.peers[c]);
    assert LinkHolds(w, c);
    LinkNextSaid(p, out, h);
    LinkStage(p, out, h);
    HearOpening(w.master, c, p.id, p.port, banner, dump);
    assert DoMasterHears(w, c, banner, dump).peers[c] == p.(replica := p.replica.(says := p.replica.says[1..]));
  }

  lemma PongKeeps(w: World, c: Conn, banner: string, dump: string)
    requires Inv(w) && c in w.peers && w.peers[c].open && w.peers[c].replica.says != [] && |Said(w, c)| == 0
    ensures Inv(DoMasterHears(w, c, banner, dump))
  {
    hide LinkInv, Applied, DoMasterHears, Registry;
    Registered(w, c);
    assert LinkHolds(w, c);
    AnswersShape(w, c, banner, dump);
    LinkPong(w.peers[c], w.master.outbox[c], HandleOf(w.master, w.peers[c]));
    AnsweredKeeps(w, c, SimpleString("PONG"));
  }

  /** `after` is the world in which the replica of connection `c` has got the next id. */
  ghost predicate Registers(w: World, c: Conn, after: World) {
    && c in w.peers && w.peers[c].id.None? && w.peers[c].open
    && c in after.peers && after.peers == w.peers[c := after.peers[c]] && after.peers[c].open && after.peers[c].id == Some(w.master.nextReplica)
    && after.master.replicas == AddReplica(w.master, c).replicas && after.master.nextReplica == w.master.nextReplica + 1
    && after.master.outbox.Keys == w.master.outbox.Keys && after.homes == w.homes[w.master.nextReplica := c]
  }

  lemma RegisteredPeers(w: World, c: Conn, after: World, d: Conn)
    requires Registry(w) && Registers(w, c, after) && d in after.peers && after.peers[d].id.Some?
    ensures var r := after.peers[d].id.value;
            after.peers[d].open && r in after.master.replicas && after.master.replicas[r].slot == d
  {
    assert w.master.nextReplica !in w.master.replicas;
    if d != c {
      assert d in w.peers && w.peers[d].id.Some?;
    }
  }

  lemma RegisteredHomes(w: World, c: Conn, after: World, r: ReplicaId)
    requires Registry(w) && Registers(w, c, after) && r in after.master.replicas
    ensures r in after.homes && after.homes[r] == after.master.replicas[r].slot
    ensures after.master.replicas[r].slot in after.peers && after.peers[after.master.replicas[r].slot].id == Some(r)
  {
    assert w.master.nextReplica !in w.master.replicas;
    if r != w.master.nextReplica {
      assert r in w.master.replicas && r in w.homes;
    }
  }

  lemma RegisterKeepsRegistry(w: World, c: Conn, after: World)
    requires Registry(w) && Registers(w, c, after)
    ensures Registry(after)
  {
    forall d | d in after.peers && after.peers[d].id.Some?
      ensures after.peers[d].open && after.peers[d].id.value in after.master.replicas
      ensures after.master.replicas[after.peers[d].id.value].slot == d
    {
      RegisteredPeers(w, c, after, d);
    }
    forall r | r in after.master.replicas
      ensures r in after.homes && after.homes[r] == after.master.replicas[r].slot
      ensures after.master.replicas[r].slot in after.peers && after.peers[after.master.replicas[r].slot].id == Some(r)
    {
      RegisteredHomes(w, c, after, r);
    }
    assert w.peers.Keys == w.master.outbox.Keys && forall r | r in w.homes :: r < w.master.nextReplica && w.homes[r] in w.peers;
    hide AddReplica;
  }

  lemma PortKeeps(w: World, c: Conn, banner: string, dump: string)
    requires Inv(w) && c in w.peers && w.peers[c].open && w.peers[c].replica.says != [] && |Said(w, c)| == 1
    ensures Inv(DoMasterHears(w, c, banner, dump))
  {
    hide LinkInv, Applied, AcksOf, Opening, ServerHear, Registry;
    Registered(w, c);
    var p, out, h := w.peers[c], w.master.outbox[c], HandleOf(w.master, w.peers[c]);
    var after, id := DoMasterHears(w, c, banner, dump), w.master.nextReplica;
    assert LinkHolds(w, c);
    LinkNextSaid(p, out, h);
    LinkStage(p, out, h);
    LinkOk(p, out, h, id, c);
    HearOpening(w.master, c, p.id, p.port, banner, dump);
    assert after.peers[c] == p.(id := Some(id), replica := p.replica.(says := p.replica.says[1..]));
    HeardIsHistory(p, after.peers[c]);
    RegisterKeepsRegistry(w, c, after);
    assert id !in w.master.replicas;
    OthersKeep(w, after, c);
  }

  lemma CapaKeeps(w: World, c: Conn, banner: string, dump: string)
    requires Inv(w) && c in w.peers && w.peers[c].open && w.peers[c].replica.says != [] && |Said(w, c)| == 2
    ensures Inv(DoMasterHears(w, c, banner, dump))
  {
    hide LinkInv, Applied, DoMasterHears, Registry;
    Registered(w, c);
    assert LinkHolds(w, c);
    AnswersShape(w, c, banner, dump);
    var p := w.peers[c];
    LinkOk(p, w.master.outbox[c], HandleOf(w.master, p), p.id.value, c);
    assert p.id == Some(p.id.value);
    AnsweredKeeps(w, c, SimpleString("OK"));
  }

  /** A PSYNC finds the replica, answers it with a banner and a dump, and starts writing to it. */
  lemma PsyncShape(w: World, c: Conn, banner: string, dump: string)
    requires Inv(w) && c in w.peers && w.peers[c].open && w.peers[c].replica.says != [] && |Said(w, c)| == 3
    ensures c in w.master.outbox && w.peers[c].id.Some? && w.peers[c].id.value in w.master.replicas
    ensures w.master.outbox[c] == []
    ensures var p, r := w.peers[c], w.peers[c].id.value;
            DoMasterHears(w, c, banner, dump) ==
            w.(peers := w.peers[c := p.(start := |w.written|, replica := p.replica.(says := p.replica.says[1..]))],
               master := w.master.(replicas := w.master.replicas[r := w.master.replicas[r].(state := WRITE)],
                                   outbox := w.master.outbox[c := [SimpleString(banner), SyncResponse(dump)]]))
  {
    hide LinkInv, Applied, Owed, AcksOf, Opening, ServerHear;
    Registered(w, c);
    var p, out, h := w.peers[c], w.master.outbox[c], HandleOf(w.master, w.peers[c]);
    assert LinkHolds(w, c);
    LinkNextSaid(p, out, h);
    LinkStage(p, out, h);
    StartsOwingNothing(p, out, h);
    HearOpening(w.master, c, p.id, p.port, banner, dump);
    assert [] + [SimpleString(banner)] + [SyncResponse(dump)] == [SimpleString(banner), SyncResponse(dump)];
    assert DoMasterHears(w, c, banner, dump).peers[c] == p.(start := |w.written|, replica := p.replica.(says := p.replica.says[1..]));
  }

  lemma PsyncKeeps(w: World, c: Conn, banner: string, dump: string)
    requires Inv(w) && c in w.peers && w.peers[c].open && w.peers[c].replica.says != [] && |Said(w, c)| == 3
    ensures Inv(DoMasterHears(w, c, banner, dump))
  {
    hide LinkInv, Applied, Owed, Opening, DoMasterHears, Registry;
    PsyncShape(w, c, banner, dump);
    var p, out, h := w.peers[c], w.master.outbox[c], HandleOf(w.master, w.peers[c]);
    var after := DoMasterHears(w, c, banner, dump);
    assert LinkHolds(w, c);
    LinkPsync(p, out, h, banner, dump);
    StartsOwingNothing(p, out, h);
    var more := [SimpleString(banner), SyncResponse(dump)];
    assert out + more == more;
    StartIsHistory(p.(replica := p.replica.(says := p.replica.says[1..])), more, Some(h.value.(state := WRITE)), |w.written|);
    HeardIsHistory(p, after.peers[c]);
    PsyncKeepsLink(w, after, c, more);
    RegistryFrame(w, after);
    OthersKeep(w, after, c);
  }

  lemma PsyncKeepsLink(w: World, after: World, c: Conn, more: seq<Message>)
    requires c in w.peers && c in after.peers && c in w.master.outbox && c in after.master.outbox && w.peers[c].replica.says != []
    requires w.master.outbox[c] == [] && w.peers[c].since == [] && after.written == w.written && Applied(after.peers[c])
    requires HandleOf(w.master, w.peers[c]).Some? && w.peers[c].id.value in after.master.replicas
    requires after.peers[c] == w.peers[c].(start := |w.written|, replica := w.peers[c].replica.(says := w.peers[c].replica.says[1..]))
    requires after.master.outbox[c] == more
    requires after.master.replicas[w.peers[c].id.value] == HandleOf(w.master, w.peers[c]).value.(state := WRITE)
    requires LinkInv(after.peers[c], more, Some(HandleOf(w.master, w.peers[c]).value.(state := WRITE)))
    ensures LinkHolds(after, c)
  {
    hide LinkInv, Applied;
  }

  lemma StartsOwingNothing(p: Peer, out: seq<Message>, h: Option<Handle>)
    requires LinkInv(p, out, h) && p.replica.says != [] && |p.told + out| == 3
    ensures out == [] && p.since == []
  {
    LinkNextSaid(p, out, h);
    hide ToStrings, Opening;
  }

  lemma StartIsHistory(p: Peer, out: seq<Message>, h: Option<Handle>, start: nat)
    ensures LinkInv(p.(start := start), out, h) <==> LinkInv(p, out, h)
  {
    hide Construct, TryParse, ToStrings, AcksOf, SetsOf, IsPush, Opening, AckMessages;
  }

  lemma AckKeeps(w: World, c: Conn, banner: string, dump: string)
    requires Inv(w) && c in w.peers && w.peers[c].open && w.peers[c].replica.says != [] && |Said(w, c)| >= 5
    ensures Inv(DoMasterHears(w, c, banner, dump))
  {
    hide LinkInv, Applied, AcksOf, Opening, ServerHear, KeptWaits, AckReplies, AckMessage, Registry;
    Registered(w, c);
    var p, out, h := w.peers[c], w.master.outbox[c], HandleOf(w.master, w.peers[c]);
    var after := DoMasterHears(w, c, banner, dump);
    assert LinkHolds(w, c);
    LinkNextSaid(p, out, h);
    LinkAck(p, out, h);
    var n := AcksOf(Log(p.told))[|p.acked|];
    HearAckMessage(w.master, c, p.id.value, n, banner, dump);
    assert after.peers[c] == p.(acked := p.acked + [n], replica := p.replica.(says := p.replica.says[1..]));
    HeardIsHistory(p, after.peers[c]);
    RegistryFrame(w, after);
    OthersKeep(w, after, c);
  }

  lemma MasterHearsKeeps(w: World, c: Conn, banner: string, dump: string)
    requires Inv(w) && Enabled(w, MasterHears(c, banner, dump))
    ensures Inv(DoMasterHears(w, c, banner, dump))
  {
    hide LinkInv, DoMasterHears, Registry;
    assert LinkHolds(w, c);
    LinkNextSaid(w.peers[c], w.master.outbox[c], HandleOf(w.master, w.peers[c]));
    if |Said(w, c)| == 0 {
      PongKeeps(w, c, banner, dump);
    } else if |Said(w, c)| == 1 {
      PortKeeps(w, c, banner, dump);
    } else if |Said(w, c)| == 2 {
      CapaKeeps(w, c, banner, dump);
    } else if |Said(w, c)| == 3 {
      PsyncKeeps(w, c, banner, dump);
    } else {
      AckKeeps(w, c, banner, dump);
    }
  }

  lemma StepKeeps(w: World, s: Step)
    requires Inv(w) && Enabled(w, s)
    ensures Inv(Take(w, s))
  {
    hide Inv, DoSet, DoWait, DoMasterHears, DoReplicaHears, DoTimer, DoJoin, DoLeave;
    match s
    case ClientSet(key, value, px) => SetKeeps(w, SetArgs(key, value, px));
    case ClientWait(count) => WaitKeeps(w, count);
    case MasterHears(c, banner, dump) => MasterHearsKeeps(w, c, banner, dump);
    case ReplicaHears(c, restored) => ReplicaHearsKeeps(w, c, restored);
    case TimerFires(id) => TimerKeeps(w, id);
    case Join(c, port, store) => JoinKeeps(w, c, port, store);
    case Leave(c) => LeaveKeeps(w, c);
  }

  /** The invariant holds after every run. */
  lemma {:induction false} RunKeeps(store: map<string, Stored>, steps: seq<Step>)
    requires Run(store, steps).Some?
    ensures Inv(Run(store, steps).value)
    decreases |steps|
  {
    hide Take, Enabled;
    if steps == [] {
      assert ApplyAll(store, []) == store;
    } else {
      RunKeeps(store, steps[..|steps| - 1]);
      hide Inv;
      StepKeeps(Run(store, steps[..|steps| - 1]).value, steps[|steps| - 1]);
    }
  }
}
