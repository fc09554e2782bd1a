/**
 What the commands of a client do on the master, said of the map, the replicas and the channels. A client is
 a connection no replica is registered on; hearing its SET or its WAIT is a step of `Replication`.
 */
module ClientCommands {
  import opened Prelude
  import opened Decimal
  import opened Messages
  import opened Commands
  import opened CommandRoundTrip
  import opened Replicas
  import opened Links
  import opened Replication

  // ----- SET -----

  /** `key` holds the value, and every other key what it held. */
  ghost predicate Holds(store: map<string, Stored>, was: map<string, Stored>, key: string, value: string, px: Option<int32>) {
    && key in store && store[key] == Stored(value, px)
    && forall k | k != key :: (k in store <==> k in was) && (k in was ==> store[k] == was[k])
  }

  /** Message `m` was counted for the replicas in `ids` that are in WRITE, and for no other. */
  ghost predicate CountedFor(ma: Master, after: Master, ids: set<ReplicaId>, m: Message) {
    && after.replicas.Keys == ma.replicas.Keys
    && forall r | r in ma.replicas ::
         var h, t := ma.replicas[r], after.replicas[r];
         && t.state == h.state && t.slot == h.slot && t.bytesAck == h.bytesAck
         && t.bytesPushed == h.bytesPushed + if r in ids && h.state == WRITE then |ToString(m)| else 0
  }

  /** Some replica in `ids` that is in WRITE has its channel at `c`. */
  ghost predicate Reaches(ma: Master, ids: set<ReplicaId>, c: Conn) {
    exists r | r in ma.replicas :: r in ids && ma.replicas[r].state == WRITE && ma.replicas[r].slot == c
  }

  /** Nothing but the map, the handles and the channels is touched. */
  ghost predicate WaitsAlone(ma: Master, after: Master) {
    after.nextReplica == ma.nextReplica && after.nextWait == ma.nextWait && after.waits == ma.waits
    && after.timers == ma.timers && after.answers == ma.answers
  }

  lemma PushReaches(ma: Master, ids: set<ReplicaId>, m: Message)
    ensures var after := PushTo(ma, ids, m);
            && CountedFor(ma, after, ids, m) && after.store == ma.store && WaitsAlone(ma, after)
            && after.outbox.Keys == ma.outbox.Keys
            && forall c | c in ma.outbox :: after.outbox[c] == ma.outbox[c] + if Reaches(ma, ids, c) then [m] else []
  {
    hide ToString;
    forall c ensures WritesTo(ma.replicas, ids, c) <==> Reaches(ma, ids, c) {
    }
    assert forall c | c in ma.outbox :: ma.outbox[c] + [] == ma.outbox[c];
  }

  /**
   A SET that is heard stores its value under its key, is pushed to every replica in WRITE and counted for
   it, to and for no other, and is answered OK on the connection it came on.
   */
  lemma SetHeard(ma: Master, c: Conn, id: Option<ReplicaId>, key: string, value: string, px: Option<int32>, banner: string, dump: string)
    requires c in ma.outbox && (px.Some? ==> px.value > 0)
    ensures var (after, given) := ServerHear(ma, c, id, Construct(Set(key, value, px)), banner, dump);
            var pushed := Construct(Set(key, value, px));
            && given == id && Holds(after.store, ma.store, key, value, px) && CountedFor(ma, after, ma.replicas.Keys, pushed) && WaitsAlone(ma, after)
            && after.outbox.Keys == ma.outbox.Keys
            && forall d | d in ma.outbox ::
                 after.outbox[d] == ma.outbox[d] + (if Reaches(ma, ma.replicas.Keys, d) then [pushed] else []) + (if d == c then [SimpleString("OK")] else [])
  {
    hide Construct, TryParse, PushTo, ToString;
    CommandRoundTripsIff(Set(key, value, px));
    var stored := ma.(store := ma.store[key := Stored(value, px)]);
    PushReaches(stored, ma.replicas.Keys, SetMessage(key, value, px));
    forall d ensures Reaches(stored, ma.replicas.Keys, d) <==> Reaches(ma, ma.replicas.Keys, d) {
    }
  }

  // ----- WAIT -----

  /** The replicas whose ACKs reach what was pushed to them. */
  ghost function CaughtUp(ma: Master): set<ReplicaId> {
    set r | r in ma.replicas && ma.replicas[r].bytesPushed <= ma.replicas[r].bytesAck
  }

  /** As many as a WAIT asks for, but no more than there are. */
  ghost predicate Enough(ma: Master, count: nat) {
    count <= |CaughtUp(ma)| || |ma.replicas| <= |CaughtUp(ma)|
  }

  /** What a WAIT leaves pending: whom it counts already, and up to which byte it waits for whom. */
  ghost predicate Listed(ma: Master, x: Waiting, count: nat) {
    && x.id == ma.nextWait && x.ready == |x.counted| && x.counted == CaughtUp(ma)
    && x.expected <= count && x.expected <= |ma.replicas| && (x.expected == count || x.expected == |ma.replicas|)
    && (forall r :: r in x.waitlist <==> r in ma.replicas && r !in x.counted)
    && (forall r | r in x.waitlist :: x.waitlist[r] == ma.replicas[r].bytesPushed)
  }

  /**
   A WAIT that is heard is answered at once exactly if enough replicas are up to date, with their number, and
   then touches nothing else. If not, it is listed with a timer, and GETACK is pushed to those that lag and are
   in WRITE.
   */
  lemma WaitHeard(ma: Master, c: Conn, id: Option<ReplicaId>, count: uint64, timeoutMs: uint64, banner: string, dump: string)
    requires c in ma.outbox && count < INT32_LIMIT && timeoutMs < INT32_LIMIT
    ensures var (after, given) := ServerHear(ma, c, id, Construct(Wait(count, timeoutMs)), banner, dump);
            && given == id && after == WaitFor(ma, count)
            && after.store == ma.store && after.nextReplica == ma.nextReplica && after.nextWait == ma.nextWait + 1
            && (Enough(ma, count) ==>
                  && after.answers == ma.answers + [Answer(ma.nextWait, |CaughtUp(ma)|, false, CaughtUp(ma))]
                  && after.replicas == ma.replicas && after.outbox == ma.outbox && after.waits == ma.waits && after.timers == ma.timers)
            && (!Enough(ma, count) ==>
                  var lagging := ma.replicas.Keys - CaughtUp(ma);
                  && after.answers == ma.answers && after.timers == ma.timers[ma.nextWait := true]
                  && |after.waits| == |ma.waits| + 1 && after.waits[..|ma.waits|] == ma.waits && Listed(ma, after.waits[|ma.waits|], count)
                  && CountedFor(ma, after, lagging, GETACK) && after.outbox.Keys == ma.outbox.Keys
                  && forall d | d in ma.outbox :: after.outbox[d] == ma.outbox[d] + if Reaches(ma, lagging, d) then [GETACK] else [])
  {
    hide Construct, TryParse, PushTo, ToString, Listed, CountedFor, WaitFor;
    CommandRoundTripsIff(Wait(count, timeoutMs));
    WaitMeans(ma, count);
  }

  lemma CaughtUpIs(ma: Master)
    ensures CaughtUp(ma) == UpToDate(ma.replicas) && ma.replicas.Keys - CaughtUp(ma) == Lagging(ma.replicas).Keys
  {
  }

  lemma WaitMeans(ma: Master, count: nat)
    ensures var after := WaitFor(ma, count);
            && after.store == ma.store && after.nextReplica == ma.nextReplica && after.nextWait == ma.nextWait + 1
            && (Enough(ma, count) ==>
                  && after.answers == ma.answers + [Answer(ma.nextWait, |CaughtUp(ma)|, false, CaughtUp(ma))]
                  && after.replicas == ma.replicas && after.outbox == ma.outbox && after.waits == ma.waits && after.timers == ma.timers)
            && (!Enough(ma, count) ==>
                  var lagging := ma.replicas.Keys - CaughtUp(ma);
                  && after.answers == ma.answers && after.timers == ma.timers[ma.nextWait := true]
                  && |after.waits| == |ma.waits| + 1 && after.waits[..|ma.waits|] == ma.waits && Listed(ma, after.waits[|ma.waits|], count)
                  && CountedFor(ma, after, lagging, GETACK) && after.outbox.Keys == ma.outbox.Keys
                  && forall d | d in ma.outbox :: after.outbox[d] == ma.outbox[d] + if Reaches(ma, lagging, d) then [GETACK] else [])
  {
    hide Construct, PushTo, ToString, UpToDate, Lagging, CountedFor, Listed, CaughtUp, Reaches, WaitFor;
    CaughtUpIs(ma);
    if Enough(ma, count) {
      AtOnce(ma, count);
    } else {
      Asking(ma, count);
    }
  }

  lemma AtOnce(ma: Master, count: nat)
    requires Enough(ma, count)
    ensures WaitFor(ma, count) ==
            ma.(nextWait := ma.nextWait + 1, answers := ma.answers + [Answer(ma.nextWait, |CaughtUp(ma)|, false, CaughtUp(ma))])
  {
    hide PushTo, UpToDate, Lagging, CaughtUp, Construct;
    CaughtUpIs(ma);
  }

  /** The WAIT as it is listed, before the others are asked. */
  function ListedMaster(ma: Master, count: nat): Master {
    var ready := UpToDate(ma.replicas);
    ma.(nextWait := ma.nextWait + 1,
        waits := ma.waits + [Waiting(ma.nextWait, Min(count, |ma.replicas|), |ready|, Lagging(ma.replicas), ready)],
        timers := ma.timers[ma.nextWait := true])
  }

  lemma Asking(ma: Master, count: nat)
    requires !Enough(ma, count)
    ensures var after, lagging := WaitFor(ma, count), ma.replicas.Keys - CaughtUp(ma);
            && after == PushTo(ListedMaster(ma, count), lagging, GETACK)
            && after.store == ma.store && after.nextReplica == ma.nextReplica && after.nextWait == ma.nextWait + 1
            && after.answers == ma.answers && after.timers == ma.timers[ma.nextWait := true]
            && |after.waits| == |ma.waits| + 1 && after.waits[..|ma.waits|] == ma.waits && Listed(ma, after.waits[|ma.waits|], count)
            && CountedFor(ma, after, lagging, GETACK) && after.outbox.Keys == ma.outbox.Keys
            && forall d | d in ma.outbox :: after.outbox[d] == ma.outbox[d] + if Reaches(ma, lagging, d) then [GETACK] else []
  {
    hide PushTo, UpToDate, Lagging, CaughtUp, Construct, ToString, Listed, CountedFor, Reaches;
    CaughtUpIs(ma);
    var lagging, mid := ma.replicas.Keys - CaughtUp(ma), ListedMaster(ma, count);
    PushReaches(mid, lagging, GETACK);
    NewIsListed(ma, mid.waits[|ma.waits|], count);
    SameReplicas(ma, mid, PushTo(mid, lagging, GETACK), lagging);
  }

  lemma NewIsListed(ma: Master, x: Waiting, count: nat)
    requires x == Waiting(ma.nextWait, Min(count, |ma.replicas|), |UpToDate(ma.replicas)|, Lagging(ma.replicas), UpToDate(ma.replicas))
    ensures Listed(ma, x, count)
  {
    CaughtUpIs(ma);
  }

  lemma SameReplicas(ma: Master, mid: Master, after: Master, ids: set<ReplicaId>)
    requires mid.replicas == ma.replicas && CountedFor(mid, after, ids, GETACK)
    ensures CountedFor(ma, after, ids, GETACK) && forall c :: Reaches(mid, ids, c) <==> Reaches(ma, ids, c)
  {
    hide ToString;
  }

  // ----- A client's connection in the step system -----

  /** The master with a client's channel `c` beside those of the replicas, and nothing on it. */
  function WithClient(ma: Master, c: Conn): Master {
    ma.(outbox := ma.outbox[c := []])
  }

  /** Without it, and what was said on it. */
  function WithoutClient(ma: Master, c: Conn): Master {
    ma.(outbox := ma.outbox - {c})
  }

  lemma NoSlot(w: World, c: Conn)
    requires Registry(w) && c !in w.peers
    ensures c !in w.master.outbox && forall r | r in w.master.replicas :: w.master.replicas[r].slot != c
  {
  }

  /** Pushing does not reach a client. */
  lemma PushPastClient(ma: Master, c: Conn, ids: set<ReplicaId>, m: Message)
    requires c !in ma.outbox && forall r | r in ma.replicas :: ma.replicas[r].slot != c
    ensures PushTo(WithClient(ma, c), ids, m) == WithClient(PushTo(ma, ids, m), c)
  {
    hide PushHandle, WritesTo;
    assert !WritesTo(ma.replicas, ids, c) by { NotWritten(ma, c, ids); }
    assert PushTo(WithClient(ma, c), ids, m).outbox == PushTo(ma, ids, m).outbox[c := []];
  }

  lemma NotWritten(ma: Master, c: Conn, ids: set<ReplicaId>)
    requires forall r | r in ma.replicas :: ma.replicas[r].slot != c
    ensures !WritesTo(ma.replicas, ids, c)
  {
  }

  /** A client's SET is the step `ClientSet`, and the client is told OK. */
  lemma SetIsStep(w: World, c: Conn, key: string, value: string, px: Option<int32>, banner: string, dump: string)
    requires Registry(w) && c !in w.peers && PxAccepted(px)
    ensures Enabled(w, ClientSet(key, value, px))
    ensures var (after, id) := ServerHear(WithClient(w.master, c), c, None, Construct(Set(key, value, px)), banner, dump);
            && id == None && c in after.outbox && after.outbox[c] == [SimpleString("OK")]
            && WithoutClient(after, c) == Take(w, ClientSet(key, value, px)).master
  {
    hide Construct, TryParse, PushTo, Registry;
    CommandRoundTripsIff(Set(key, value, px));
    NoSlot(w, c);
    var stored := w.master.(store := w.master.store[key := Stored(value, px)]);
    PushPastClient(stored, c, w.master.replicas.Keys, SetMessage(key, value, px));
    PushKeepsKeys(stored, w.master.replicas.Keys, SetMessage(key, value, px));
    Unlisted(PushTo(stored, w.master.replicas.Keys, SetMessage(key, value, px)), c, [SimpleString("OK")]);
    assert [] + [SimpleString("OK")] == [SimpleString("OK")];
  }

  lemma PushKeepsKeys(ma: Master, ids: set<ReplicaId>, m: Message)
    ensures PushTo(ma, ids, m).outbox.Keys == ma.outbox.Keys
  {
    hide PushHandle, WritesTo;
  }

  lemma Unlisted(ma: Master, c: Conn, said: seq<Message>)
    requires c !in ma.outbox
    ensures WithoutClient(ma.(outbox := ma.outbox[c := said]), c) == ma
  {
    assert ma.outbox[c := said] - {c} == ma.outbox;
  }

  /** A client's WAIT is the step `ClientWait`; what it is told comes later, or is in the answers. */
  lemma WaitIsStep(w: World, c: Conn, count: uint64, timeoutMs: uint64, banner: string, dump: string)
    requires Registry(w) && c !in w.peers && count < INT32_LIMIT && timeoutMs < INT32_LIMIT
    ensures Enabled(w, ClientWait(count))
    ensures var (after, id) := ServerHear(WithClient(w.master, c), c, None, Construct(Wait(count, timeoutMs)), banner, dump);
            && id == None && c in after.outbox && after.outbox[c] == []
            && WithoutClient(after, c) == Take(w, ClientWait(count)).master
  {
    hide Construct, TryParse, Registry, WaitFor, Pushed, Acks;
    CommandRoundTripsIff(Wait(count, timeoutMs));
    NoSlot(w, c);
    WaitPastClient(w.master, c, count);
    WaitKeepsKeys(w.master, count);
    Unlisted(WaitFor(w.master, count), c, []);
  }

  lemma WaitPastClient(ma: Master, c: Conn, count: nat)
    requires c !in ma.outbox && forall r | r in ma.replicas :: ma.replicas[r].slot != c
    ensures WaitFor(WithClient(ma, c), count) == WithClient(WaitFor(ma, count), c)
  {
    hide PushTo, UpToDate, Lagging, Construct;
    PushPastClient(ListedMaster(ma, count), c, Lagging(ma.replicas).Keys, GETACK);
  }

  lemma WaitKeepsKeys(ma: Master, count: nat)
    ensures WaitFor(ma, count).outbox.Keys == ma.outbox.Keys
  {
    hide PushTo, UpToDate, Lagging, Construct;
    PushKeepsKeys(ListedMaster(ma, count), Lagging(ma.replicas).Keys, GETACK);
  }

  // ----- The rest of what a master hears -----

  /** What is no command is answered with an error, or with nothing, and touches nothing; so does every other command. */
  lemma OthersTouchNothing(ma: Master, c: Conn, id: Option<ReplicaId>, m: Message, banner: string, dump: string)
    requires c in ma.outbox
    requires var p := TryParse(m);
             p.Parsed? ==> !(p.command.Set? || p.command.Wait? || p.command.ReplConf? || p.command.Psync?)
    ensures var (after, given) := ServerHear(ma, c, id, m, banner, dump);
            && given == id && after == ma.(outbox := after.outbox) && after.outbox.Keys == ma.outbox.Keys
            && (forall d | d in ma.outbox && d != c :: after.outbox[d] == ma.outbox[d])
            && (TryParse(m) == Parsed(Ping) ==> after.outbox[c] == ma.outbox[c] + [SimpleString("PONG")])
            && (TryParse(m) != Parsed(Ping) && !TryParse(m).Rejected? ==> after.outbox[c] == ma.outbox[c])
            && (TryParse(m).Rejected? ==> exists text :: after.outbox[c] == ma.outbox[c] + [SimpleError(text)])
  {
    hide TryParse;
  }

  /**
   A PSYNC is answered with the banner and the dump, in this order, and puts the replica of its connection in
   WRITE, if there is one; it touches nothing else.
   */
  lemma PsyncHeard(ma: Master, c: Conn, id: Option<ReplicaId>, m: Message, banner: string, dump: string)
    requires c in ma.outbox && TryParse(m).Parsed? && TryParse(m).command.Psync? && (id.Some? ==> id.value in ma.replicas)
    ensures var (after, given) := ServerHear(ma, c, id, m, banner, dump);
            && given == id && after == ma.(outbox := after.outbox, replicas := after.replicas) && after.outbox.Keys == ma.outbox.Keys
            && after.outbox[c] == ma.outbox[c] + [SimpleString(banner), SyncResponse(dump)]
            && (forall d | d in ma.outbox && d != c :: after.outbox[d] == ma.outbox[d])
            && after.replicas.Keys == ma.replicas.Keys
            && (forall r | r in ma.replicas :: after.replicas[r] == if id == Some(r) then ma.replicas[r].(state := WRITE) else ma.replicas[r])
  {
    hide TryParse;
    assert ma.outbox[c] + [SimpleString(banner)] + [SyncResponse(dump)] == ma.outbox[c] + [SimpleString(banner), SyncResponse(dump)];
  }

  /** An ACK is not confirmed, whatever it says; any other configuration of a registered replica is, and changes nothing. */
  lemma ConfirmedIff(ma: Master, r: ReplicaId, args: seq<string>)
    requires r in ma.replicas
    ensures var (after, confirm) := ProcessConf(ma, r, args);
            var ack := |args| >= 2 && ToLower(args[0]) == "ack";
            && (confirm <==> !ack)
            && (!ack || ParseInt(args[1]).None? ==> after == ma)
            && (ack && ParseInt(args[1]).Some? ==>
                  r in after.replicas && after.replicas[r].bytesAck == ParseInt(args[1]).value % UINT64_LIMIT)
  {
    hide ToLower, ParseInt, KeptWaits, AckReplies, Invalidate;
  }
}
