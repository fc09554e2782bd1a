/** What a WAIT answer means, on every run. */
module WaitSoundness {
  import opened Prelude
  import opened Decimal
  import opened Messages
  import opened Replicas
  import opened Commands
  import opened Links
  import opened Replication
  import opened WaitTickets

  /** The replica has processed every message of `log`. */
  ghost predicate Has(w: World, r: ReplicaId, log: seq<Message>) {
    r in w.homes && w.homes[r] in w.peers && log <= Log(w.peers[w.homes[r]].told)
  }

  /** Since `k` ACKs were heard, none that the master's 32-bit parser accepts has come. */
  ghost predicate NoneSince(acks: seq<nat>, k: nat) {
    k <= |acks| && forall j | k <= j < |acks| :: acks[j] >= INT32_LIMIT
  }

  /** A registered replica in the waitlist of a WAIT: asked after `log`, and not counted yet. */
  ghost predicate Outstanding(w: World, r: ReplicaId, log: seq<Message>, k: nat) {
    r in w.master.replicas ==> log + [GETACK] <= Pushed(w, r) && NoneSince(Acks(w, r), k)
  }

  ghost predicate WaitHolds(w: World, x: Waiting) {
    && x.id in w.asked
    && var a := w.asked[x.id];
    && a.heard.Keys == a.logs.Keys <= w.homes.Keys
    && x.counted !! x.waitlist.Keys && x.counted <= a.logs.Keys && x.waitlist.Keys <= a.logs.Keys
    && |x.counted| == x.ready < x.expected == Min(a.requested, |a.logs|)
    && (forall r | r in x.counted :: Has(w, r, a.logs[r]))
    && (forall r | r in x.waitlist :: x.waitlist[r] == |ToStrings(a.logs[r])| && Outstanding(w, r, a.logs[r], a.heard[r]))
  }

  /**
   A WAIT answer counts distinct replicas, all registered when it was set up, and each of them has
   processed everything pushed to it by then. It reaches what was asked for unless the timer fired.
   */
  ghost predicate AnswerHolds(w: World, a: Answer) {
    && a.id in w.asked
    && var q := w.asked[a.id];
    && a.counted <= q.logs.Keys && |a.counted| == a.count <= |q.logs|
    && (a.byTimer || a.count >= Min(q.requested, |q.logs|))
    && (forall r | r in a.counted :: Has(w, r, q.logs[r]))
  }

  ghost predicate WaitsHold(w: World) {
    && (forall x | x in w.master.waits :: WaitHolds(w, x))
    && (forall a | a in w.master.answers :: AnswerHolds(w, a))
    && (forall id | id in w.asked :: id < w.master.nextWait)
    && (forall id: WaitId | id < w.master.nextWait :: id in w.asked)
  }

  // ----- Logs and ACKs -----

  /** An ACK that reaches the size of a prefix of the log comes from behind that prefix. */
  lemma AckCovers(all: seq<Message>, log: seq<Message>, done: seq<Message>, k: nat)
    requires AllPushes(all) && log <= all && done <= all && k < |AcksOf(done)|
    requires AcksOf(done)[k] >= |ToStrings(log)|
    ensures log <= done
  {
    hide IsPush, AcksOf, ToStrings;
    var j := AckIsOffset(done, k);
    assert done[..j] == all[..j] && log == all[..|log|];
    if j < |log| {
      PrefixSizes(all, j, |log|);
    }
  }

  /** The k-th ACK reaches the size of a prefix exactly when that prefix accounts for at most k ACKs. */
  lemma AckReaches(all: seq<Message>, log: seq<Message>, k: nat)
    requires AllPushes(all) && log <= all && k < |AcksOf(all)|
    ensures AcksOf(all)[k] >= |ToStrings(log)| <==> |AcksOf(log)| <= k
  {
    hide IsPush, AcksOf, ToStrings;
    var j := AckIsOffset(all, k);
    assert log == all[..|log|];
    if j < |log| {
      PrefixSizes(all, j, |log|);
      var next := all[..j] + [GETACK];
      assert next == all[..j + 1] && log == next + all[j + 1..|log|];
      LogSnoc(all[..j], GETACK);
      AcksGrow(next, all[j + 1..|log|]);
    } else {
      assert all[..j] == log + all[|log|..j];
      AcksGrow(log, all[|log|..j]);
      if j > |log| {
        PrefixSizes(all, |log|, j);
      }
    }
  }

  /** Later ACKs are larger. */
  lemma AcksIncrease(log: seq<Message>, i: nat, k: nat)
    requires AllPushes(log) && i < k < |AcksOf(log)|
    ensures AcksOf(log)[i] < AcksOf(log)[k]
  {
    hide IsPush, AcksOf, ToStrings;
    var a := AckIsOffset(log, i);
    var b := AckIsOffset(log, k);
    if a >= b {
      assert log[..a] == log[..b] + log[b..a];
      AcksGrow(log[..b], log[b..a]);
    }
    PrefixSizes(log, a, b);
  }

  /** The master's counter of ACKed bytes stays strictly below what it pushed, once it pushed anything. */
  lemma LatestBelow(log: seq<Message>, acked: seq<nat>)
    requires AllPushes(log) && acked <= AcksOf(log)
    ensures Latest(acked) == 0 || Latest(acked) < |ToStrings(log)|
    decreases |acked|
  {
    if acked != [] {
      var k := |acked| - 1;
      LatestBelow(log, acked[..k]);
      var j := AckIsOffset(log, k);
      hide IsPush, AcksOf, ToStrings;
      PrefixSizes(log, j, |log|);
      assert log[..|log|] == log;
    }
  }

  lemma PushedHasSize(log: seq<Message>)
    requires AllPushes(log) && log != []
    ensures |ToStrings(log)| > 0
  {
    hide IsPush;
    PrefixSizes(log, 0, |log|);
    assert log[..|log|] == log;
  }

  /** A replica that is up to date when a WAIT is set up has nothing to acknowledge. */
  lemma UpToDateMeansNothingPushed(p: Peer, out: seq<Message>, h: Handle)
    requires LinkInv(p, out, Some(h)) && h.bytesAck >= h.bytesPushed
    ensures Log(p.told + out) == []
  {
    hide IsPush, ToStrings, AcksOf, SetsOf, AckMessages, Opening, Latest;
    var said, log, done := p.told + out, Log(p.told + out), Log(p.told);
    if |said| > 3 && log != [] {
      assert log == done + log[|done|..];
      AcksGrow(done, log[|done|..]);
      LatestBelow(log, p.acked);
      PushedHasSize(log);
    }
  }

  // ----- What every step leaves in place -----

  /** Nothing said, heard or asked is taken back; only connection `acking` may have had an ACK heard. */
  ghost predicate Extends(w: World, after: World) {
    && (forall c | c in w.peers :: c in after.peers && w.peers[c].told <= after.peers[c].told)
    && (forall r | r in w.homes :: r in after.homes && after.homes[r] == w.homes[r] && w.homes[r] in w.peers)
    && (forall id | id in w.asked :: id in after.asked && after.asked[id] == w.asked[id])
    && (forall r | r in w.homes && r in after.master.replicas :: r in w.master.replicas && Pushed(w, r) <= Pushed(after, r))
  }

  ghost predicate SameAcks(w: World, after: World, r: ReplicaId) {
    r in after.master.replicas ==> Acks(after, r) == Acks(w, r)
  }

  lemma HasKept(w: World, after: World, r: ReplicaId, log: seq<Message>)
    requires Extends(w, after) && Has(w, r, log)
    ensures Has(after, r, log)
  {
    var c := w.homes[r];
    assert w.peers[c].told <= after.peers[c].told;
    assert Log(w.peers[c].told) <= Log(after.peers[c].told);
  }

  lemma OutstandingKept(w: World, after: World, r: ReplicaId, log: seq<Message>, k: nat)
    requires Extends(w, after) && r in w.homes && Outstanding(w, r, log, k) && SameAcks(w, after, r)
    ensures Outstanding(after, r, log, k)
  {
    hide Pushed, Acks;
  }

  lemma AnswerKept(w: World, after: World, a: Answer)
    requires Extends(w, after) && AnswerHolds(w, a)
    ensures AnswerHolds(after, a)
  {
    hide Extends, Has;
    assert after.asked[a.id] == w.asked[a.id] && a.id in after.asked by { AskedKept(w, after, a.id); }
    forall r | r in a.counted ensures Has(after, r, after.asked[a.id].logs[r]) {
      HasKept(w, after, r, w.asked[a.id].logs[r]);
    }
  }

  lemma AskedKept(w: World, after: World, id: WaitId)
    requires Extends(w, after) && id in w.asked
    ensures id in after.asked && after.asked[id] == w.asked[id]
    ensures w.homes.Keys <= after.homes.Keys
  {
  }

  lemma WaitKept(w: World, after: World, x: Waiting)
    requires Extends(w, after) && WaitHolds(w, x)
    requires forall r | r in x.waitlist :: SameAcks(w, after, r)
    ensures WaitHolds(after, x)
  {
    hide Extends, Has, Outstanding, SameAcks, ToStrings;
    AskedKept(w, after, x.id);
    var a := w.asked[x.id];
    forall r | r in x.counted ensures Has(after, r, a.logs[r]) {
      HasKept(w, after, r, a.logs[r]);
    }
    forall r | r in x.waitlist ensures Outstanding(after, r, a.logs[r], a.heard[r]) {
      OutstandingKept(w, after, r, a.logs[r], a.heard[r]);
    }
  }

  /** A step that hears no ACK and touches no WAIT keeps what holds of them. */
  lemma QuietStep(w: World, after: World)
    requires WaitsHold(w) && Extends(w, after) && forall r | r in w.homes :: SameAcks(w, after, r)
    requires after.master.waits == w.master.waits && after.master.answers == w.master.answers
    requires after.asked == w.asked && after.master.nextWait == w.master.nextWait
    ensures WaitsHold(after)
  {
    hide Extends, SameAcks;
    forall x | x in after.master.waits ensures WaitHolds(after, x) {
      assert WaitHolds(w, x);
      WaitKept(w, after, x);
    }
    forall a | a in after.master.answers ensures AnswerHolds(after, a) {
      AnswerKept(w, after, a);
    }
  }

  // ----- Which steps are quiet -----

  lemma PushedGrows(w: World, after: World, r: ReplicaId, c: Conn, more: seq<Message>)
    requires r in w.homes && w.homes[r] == c && c in w.peers && c in w.master.outbox
    requires r in after.homes && after.homes[r] == c && c in after.peers && c in after.master.outbox
    requires Said(after, c) == Said(w, c) + more
    ensures Pushed(w, r) <= Pushed(after, r)
  {
    assert Log(Said(w, c)) <= Log(Said(w, c) + more);
  }

  lemma SetExtends(w: World, one: SetArgs)
    requires Registry(w)
    ensures Extends(w, DoSet(w, one)) && forall r | r in w.homes :: SameAcks(w, DoSet(w, one), r)
    ensures DoSet(w, one).master.waits == w.master.waits && DoSet(w, one).master.answers == w.master.answers
    ensures DoSet(w, one).master.nextWait == w.master.nextWait && DoSet(w, one).asked == w.asked
  {
    hide PushTo, SetMessage, Log;
    var after, m, ids := DoSet(w, one), SetMessage(one.key, one.value, one.px), w.master.replicas.Keys;
    PushIgnores(w.master.(store := w.master.store[one.key := Stored(one.value, one.px)]), w.master, ids, m);
    PushKeepsSlots(w.master, ids, m);
    PushExtends(w, after, ids, m);
  }

  lemma PushedAfterPush(w: World, after: World, ids: set<ReplicaId>, m: Message, r: ReplicaId)
    requires Registry(w) && r in w.homes
    requires after.master.replicas == PushTo(w.master, ids, m).replicas && after.master.outbox == PushTo(w.master, ids, m).outbox
    requires after.homes == w.homes && after.peers.Keys == w.peers.Keys
    requires forall c | c in w.peers :: after.peers[c].told == w.peers[c].told
    ensures Pushed(w, r) <= Pushed(after, r)
  {
    hide PushTo, Log, Registry, ToString;
    HomesAreOpen(w);
    var c := w.homes[r];
    PushEffect(w, ids, m, c);
    var more := if after.master.outbox[c] == w.master.outbox[c] then [] else [m];
    assert Said(after, c) == Said(w, c) + more;
    PushedGrows(w, after, r, c, more);
  }

  lemma PushExtends(w: World, after: World, ids: set<ReplicaId>, m: Message)
    requires Registry(w)
    requires after.master.replicas == PushTo(w.master, ids, m).replicas && after.master.outbox == PushTo(w.master, ids, m).outbox
    requires after.homes == w.homes && after.peers.Keys == w.peers.Keys
    requires forall c | c in w.peers :: after.peers[c].told == w.peers[c].told && after.peers[c].acked == w.peers[c].acked
    requires forall id | id in w.asked :: id in after.asked && after.asked[id] == w.asked[id]
    ensures Extends(w, after) && forall r | r in w.homes :: SameAcks(w, after, r)
  {
    hide PushTo, Log, Pushed, Registry;
    HomesAreOpen(w);
    PushKeepsSlots(w.master, ids, m);
    forall r | r in w.homes && r in after.master.replicas ensures Pushed(w, r) <= Pushed(after, r) {
      PushedAfterPush(w, after, ids, m, r);
    }
  }

  lemma ReplicaHearsExtends(w: World, c: Conn, restored: map<string, Stored>)
    requires Registry(w) && c in w.peers && c in w.master.outbox && w.master.outbox[c] != []
    ensures Extends(w, DoReplicaHears(w, c, restored))
    ensures forall r | r in w.homes :: SameAcks(w, DoReplicaHears(w, c, restored), r)
  {
    hide Log, ReplicaHear;
    var after := DoReplicaHears(w, c, restored);
    assert Said(after, c) == Said(w, c);
    forall r | r in w.homes && r in after.master.replicas ensures Pushed(w, r) <= Pushed(after, r) {
      assert w.homes[r] != c ==> Said(after, w.homes[r]) == Said(w, w.homes[r]);
      assert Pushed(w, r) == Pushed(after, r);
    }
  }

  lemma JoinExtends(w: World, c: Conn, port: string, store: map<string, Stored>)
    requires Registry(w) && c !in w.peers
    ensures Extends(w, DoJoin(w, c, port, store))
    ensures forall r | r in w.homes :: SameAcks(w, DoJoin(w, c, port, store), r)
  {
    hide Log, NewPeer;
    var after := DoJoin(w, c, port, store);
    forall r | r in w.homes && r in after.master.replicas ensures Pushed(w, r) <= Pushed(after, r) {
      assert Said(after, w.homes[r]) == Said(w, w.homes[r]);
    }
  }

  lemma LeaveExtends(w: World, c: Conn)
    requires Registry(w) && c in w.peers
    ensures Extends(w, DoLeave(w, c))
    ensures forall r | r in w.homes :: SameAcks(w, DoLeave(w, c), r)
  {
    hide Log;
    var after := DoLeave(w, c);
    forall r | r in w.homes && r in after.master.replicas ensures Pushed(w, r) <= Pushed(after, r) {
      assert w.homes[r] in w.master.outbox;
      assert Said(after, w.homes[r]) == Said(w, w.homes[r]);
    }
  }

  /** What the master's own state becomes when it hears the k-th message of a handshake. */
  lemma OpeningHeard(ma: Master, c: Conn, id: Option<ReplicaId>, port: string, k: nat, banner: string, dump: string)
      returns (more: seq<Message>)
    requires c in ma.outbox && (id.Some? ==> id.value in ma.replicas) && k <= 3 && (k == 1 ==> id.None?) && (k >= 2 ==> id.Some?)
    ensures var (after, given) := ServerHear(ma, c, id, Opening(port)[k], banner, dump);
            && after.outbox == ma.outbox[c := ma.outbox[c] + more] && |more| == (if k == 3 then 2 else 1)
            && after.replicas.Keys == ma.replicas.Keys + (if k == 1 then {ma.nextReplica} else {})
            && after.nextReplica == ma.nextReplica + (if k == 1 then 1 else 0)
            && after.waits == ma.waits && after.answers == ma.answers && after.timers == ma.timers && after.nextWait == ma.nextWait
            && (given == if k == 1 then Some(ma.nextReplica) else id)
  {
    hide ServerHear, Opening;
    HearOpening(ma, c, id, port, banner, dump);
    more := if k == 0 then [SimpleString("PONG")]
            else if k <= 2 then [SimpleString("OK")]
            else [SimpleString(banner), SyncResponse(dump)];
    assert ma.outbox[c] + [SimpleString(banner)] + [SyncResponse(dump)] == ma.outbox[c] + [SimpleString(banner), SyncResponse(dump)];
  }

  lemma OpeningStage(w: World, c: Conn, banner: string, dump: string)
    requires Inv(w) && Enabled(w, MasterHears(c, banner, dump)) && |Said(w, c)| <= 3
    ensures var p, k := w.peers[c], |Said(w, c)|;
            && p.replica.says[0] == Opening(p.port)[k] && (p.id.Some? ==> p.id.value in w.master.replicas)
            && (k == 1 ==> p.id.None?) && (k >= 2 ==> p.id.Some?)
    ensures w.master.nextReplica !in w.homes
  {
    hide LinkInv, Applied, AcksOf, Opening;
    assert LinkHolds(w, c);
    LinkNextSaid(w.peers[c], w.master.outbox[c], HandleOf(w.master, w.peers[c]));
    LinkStage(w.peers[c], w.master.outbox[c], HandleOf(w.master, w.peers[c]));
    Registered(w, c);
  }

  /** During the handshake the master answers, and may register the replica. */
  lemma OpeningShape(w: World, c: Conn, banner: string, dump: string) returns (more: seq<Message>)
    requires Inv(w) && Enabled(w, MasterHears(c, banner, dump)) && |Said(w, c)| <= 3
    ensures var after := DoMasterHears(w, c, banner, dump);
            && after.master.outbox == w.master.outbox[c := w.master.outbox[c] + more]
            && |more| == (if |Said(w, c)| == 3 then 2 else 1)
            && after.master.replicas.Keys == w.master.replicas.Keys + (if |Said(w, c)| == 1 then {w.master.nextReplica} else {})
            && after.master.nextReplica == w.master.nextReplica + (if |Said(w, c)| == 1 then 1 else 0)
            && (forall r | r in w.homes :: r in after.homes && after.homes[r] == w.homes[r])
            && after.written == w.written && after.master.waits == w.master.waits && after.master.answers == w.master.answers
            && after.master.timers == w.master.timers
            && after.master.nextWait == w.master.nextWait && after.asked == w.asked
            && after.peers == w.peers[c := after.peers[c]]
            && after.peers[c].told == w.peers[c].told && after.peers[c].acked == w.peers[c].acked
  {
    hide LinkHolds, Registry, AcksOf, Opening, ServerHear, Log;
    OpeningStage(w, c, banner, dump);
    var p := w.peers[c];
    more := OpeningHeard(w.master, c, p.id, p.port, |Said(w, c)|, banner, dump);
  }

  lemma HomesAreOpen(w: World)
    requires Registry(w)
    ensures forall r | r in w.homes :: r < w.master.nextReplica && w.homes[r] in w.peers && w.homes[r] in w.master.outbox
  {
  }

  lemma SaidMore(w: World, after: World, c: Conn, more: seq<Message>)
    requires Registry(w)
    requires c in w.peers && after.peers == w.peers[c := if c in after.peers then after.peers[c] else w.peers[c]]
    requires after.peers[c].told == w.peers[c].told && after.peers[c].acked == w.peers[c].acked
    requires after.master.outbox == w.master.outbox[c := w.master.outbox[c] + more] && after.asked == w.asked
    requires after.master.replicas.Keys <= w.master.replicas.Keys + {w.master.nextReplica}
    requires forall r | r in w.homes :: r in after.homes && after.homes[r] == w.homes[r]
    ensures Extends(w, after) && forall r | r in w.homes :: SameAcks(w, after, r)
  {
    HomesAreOpen(w);
    hide Log, Registry, Pushed, Acks;
    SamePeers(w, after, c);
    forall r | r in w.homes ensures SameAcks(w, after, r) && (r in after.master.replicas ==> Pushed(w, r) <= Pushed(after, r)) {
      PushedMore(w, after, r, c, more);
      AcksFrame(w, after, r);
    }
  }

  lemma SamePeers(w: World, after: World, c: Conn)
    requires c in w.peers && after.peers == w.peers[c := if c in after.peers then after.peers[c] else w.peers[c]]
    requires after.peers[c].told == w.peers[c].told && after.peers[c].acked == w.peers[c].acked
    ensures forall d | d in w.peers :: d in after.peers && after.peers[d].told == w.peers[d].told && after.peers[d].acked == w.peers[d].acked
  {
  }

  lemma AcksFrame(w: World, after: World, r: ReplicaId)
    requires r in w.homes && r in after.homes && after.homes[r] == w.homes[r]
    requires var d := w.homes[r]; d in w.peers && d in after.peers && after.peers[d].acked == w.peers[d].acked
    ensures Acks(after, r) == Acks(w, r)
  {
  }

  lemma PushedMore(w: World, after: World, r: ReplicaId, c: Conn, more: seq<Message>)
    requires r in w.homes && r in after.homes && after.homes[r] == w.homes[r] && c in w.master.outbox
    requires var d := w.homes[r]; d in w.peers && d in after.peers && d in w.master.outbox && after.peers[d].told == w.peers[d].told
    requires after.master.outbox == w.master.outbox[c := w.master.outbox[c] + more]
    ensures Pushed(w, r) <= Pushed(after, r)
  {
    hide Log, Pushed;
    var d := w.homes[r];
    assert Said(after, d) == Said(w, d) + if d == c then more else [];
    PushedGrows(w, after, r, d, if d == c then more else []);
  }

  lemma OpeningKeepsWaits(w: World, c: Conn, banner: string, dump: string)
    requires Inv(w) && WaitsHold(w) && TicketsHold(w.master)
    requires Enabled(w, MasterHears(c, banner, dump)) && |Said(w, c)| <= 3
    ensures WaitsHold(DoMasterHears(w, c, banner, dump)) && TicketsHold(DoMasterHears(w, c, banner, dump).master)
  {
    hide DoMasterHears, LinkHolds, Registry, WaitsHold, TicketsHold, Extends, SameAcks;
    var after := DoMasterHears(w, c, banner, dump);
    var more := OpeningShape(w, c, banner, dump);
    SaidMore(w, after, c, more);
    QuietKeepsWaits(w, after);
  }

  // ----- The master hears an ACK -----

  lemma AckShape(w: World, c: Conn, banner: string, dump: string) returns (r: ReplicaId, n: nat)
    requires Inv(w) && Enabled(w, MasterHears(c, banner, dump)) && |Said(w, c)| >= 5
    ensures var after := DoMasterHears(w, c, banner, dump);
            && w.peers[c].id == Some(r) && r in w.master.replicas && r in w.homes && w.homes[r] == c
            && |w.peers[c].acked| < |AcksOf(Log(w.peers[c].told))| && n == AcksOf(Log(w.peers[c].told))[|w.peers[c].acked|]
            && after.master == (if n < INT32_LIMIT then HearAck(w.master, r, n) else w.master)
            && after.homes == w.homes && after.asked == w.asked
            && after.peers == w.peers[c := after.peers[c]]
            && after.peers[c].told == w.peers[c].told && after.peers[c].acked == w.peers[c].acked + [n]
  {
    hide LinkInv, Applied, AcksOf, Opening, ServerHear, HearAck, AckMessage;
    var p, out, h := w.peers[c], w.master.outbox[c], HandleOf(w.master, w.peers[c]);
    assert LinkHolds(w, c);
    LinkNextSaid(p, out, h);
    LinkStage(p, out, h);
    Registered(w, c);
    r, n := p.id.value, AcksOf(Log(p.told))[|p.acked|];
    HearAckMessage(w.master, c, r, n, banner, dump);
  }

  /** Hearing an ACK takes nothing back. */
  lemma AckExtends(w: World, after: World, c: Conn, n: nat)
    requires Registry(w) && c in w.peers && c in after.peers
    requires after.master.outbox == w.master.outbox && after.master.replicas.Keys == w.master.replicas.Keys
    requires after.homes == w.homes && after.asked == w.asked && after.peers == w.peers[c := after.peers[c]]
    requires after.peers[c].told == w.peers[c].told && after.peers[c].acked == w.peers[c].acked + [n]
    ensures Extends(w, after)
    ensures forall r | r in w.homes && w.peers[c].id != Some(r) :: SameAcks(w, after, r)
  {
    hide Log, Pushed, Acks, Registry;
    HomesAreOpen(w);
    forall r | r in w.homes
      ensures Pushed(after, r) == Pushed(w, r)
      ensures r in after.master.replicas && w.peers[c].id != Some(r) ==> Acks(after, r) == Acks(w, r)
    {
      AckFrames(w, after, c, r);
    }
  }

  lemma AckFrames(w: World, after: World, c: Conn, r: ReplicaId)
    requires Registry(w) && c in w.peers && c in after.peers && r in w.homes
    requires after.master.outbox == w.master.outbox && after.homes == w.homes && after.peers == w.peers[c := after.peers[c]]
    requires after.peers[c].told == w.peers[c].told
    ensures Pushed(after, r) == Pushed(w, r)
    ensures r in after.master.replicas && r in w.master.replicas && w.peers[c].id != Some(r) ==> Acks(after, r) == Acks(w, r)
  {
    hide Log;
  }

  lemma {:induction false} KeptWaitIsUpdated(ws: seq<Waiting>, r: ReplicaId, n: nat, y: Waiting) returns (x: Waiting)
    requires y in KeptWaits(ws, r, n)
    ensures x in ws && !Replies(x, r, n) && y == UpdateWait(x, r, n)
  {
    if !Replies(ws[0], r, n) && y == UpdateWait(ws[0], r, n) {
      x := ws[0];
    } else {
      x := KeptWaitIsUpdated(ws[1..], r, n, y);
    }
  }

  lemma {:induction false} ReplyIsUpdated(ws: seq<Waiting>, r: ReplicaId, n: nat, a: Answer) returns (x: Waiting)
    requires a in AckReplies(ws, r, n)
    ensures x in ws && Replies(x, r, n) && a == Reply(UpdateWait(x, r, n), false)
  {
    if Replies(ws[0], r, n) && a == Reply(UpdateWait(ws[0], r, n), false) {
      x := ws[0];
    } else {
      x := ReplyIsUpdated(ws[1..], r, n, a);
    }
  }

  /** Replica `r`, on connection `c`, is heard to have ACKed `n`. */
  ghost predicate HearsOf(w: World, c: Conn, r: ReplicaId, n: nat) {
    && c in w.peers && w.peers[c].open && c in w.master.outbox && |Said(w, c)| >= 5
    && r in w.master.replicas && r in w.homes && w.homes[r] == c
    && |w.peers[c].acked| < |AcksOf(Log(w.peers[c].told))| && n == AcksOf(Log(w.peers[c].told))[|w.peers[c].acked|]
  }

  /** The replica behind an ACK that reaches the target has processed what the WAIT asked for. */
  lemma AckMeansProcessed(w: World, c: Conn, r: ReplicaId, n: nat, log: seq<Message>, k: nat)
    requires Inv(w) && HearsOf(w, c, r, n)
    requires Outstanding(w, r, log, k) && n >= |ToStrings(log)|
    ensures Has(w, r, log)
  {
    hide AcksOf, ToStrings, IsPush, SetsOf, AckMessages, Opening, Registry, Applied;
    assert LinkHolds(w, c);
    var said := Said(w, c);
    assert Log(w.peers[c].told) <= Log(said);
    assert log <= Log(said);
    AckCovers(Log(said), log, Log(w.peers[c].told), |w.peers[c].acked|);
  }

  lemma SubsetSize<T>(a: set<T>, b: set<T>)
    requires a <= b
    ensures |a| <= |b|
    decreases a
  {
    if a != {} {
      var x :| x in a;
      SubsetSize(a - {x}, b - {x});
    }
  }

  /** A WAIT that hears an ACK stays sound, whether it replies or waits on. */
  /** Those a WAIT counts after an ACK have processed what was pushed to them when it was asked. */
  lemma AckCounts(w: World, after: World, c: Conn, r: ReplicaId, n: nat, x: Waiting, q: ReplicaId)
    requires Inv(w) && Extends(w, after) && WaitHolds(w, x) && HearsOf(w, c, r, n) && q in UpdateWait(x, r, n).counted
    ensures q in w.asked[x.id].logs && Has(after, q, w.asked[x.id].logs[q])
  {
    hide Inv, Extends, Outstanding, Has, ToStrings, AcksOf;
    var a := w.asked[x.id];
    if q !in x.counted {
      AckMeansProcessed(w, c, r, n, a.logs[r], a.heard[r]);
    }
    HasKept(w, after, q, a.logs[q]);
  }

  /** An updated WAIT still divides the replicas it was asked with. */
  lemma UpdateParts(w: World, x: Waiting, r: ReplicaId, n: nat)
    requires WaitHolds(w, x)
    ensures var a, y := w.asked[x.id], UpdateWait(x, r, n);
            && y.counted !! y.waitlist.Keys && y.counted <= a.logs.Keys && y.waitlist.Keys <= x.waitlist.Keys
            && |y.counted| == y.ready <= |a.logs| && y.id == x.id && y.expected == x.expected
            && (forall q | q in y.waitlist :: q != r && y.waitlist[q] == x.waitlist[q])
  {
    hide Has, Outstanding, ToStrings;
    SubsetSize(UpdateWait(x, r, n).counted, w.asked[x.id].logs.Keys);
  }

  lemma AckUpdates(w: World, after: World, c: Conn, r: ReplicaId, n: nat, x: Waiting)
    requires Inv(w) && Extends(w, after) && WaitHolds(w, x) && HearsOf(w, c, r, n)
    requires forall q | q in w.homes && q != r :: SameAcks(w, after, q)
    ensures var y := UpdateWait(x, r, n);
            if Replies(x, r, n) then AnswerHolds(after, Reply(y, false)) else WaitHolds(after, y)
  {
    hide Inv, Extends, Outstanding, Has, SameAcks, ToStrings, AcksOf, HearsOf;
    AskedKept(w, after, x.id);
    UpdateParts(w, x, r, n);
    var a, y := w.asked[x.id], UpdateWait(x, r, n);
    forall q | q in y.counted ensures Has(after, q, a.logs[q]) {
      AckCounts(w, after, c, r, n, x, q);
    }
    forall q | q in y.waitlist ensures Outstanding(after, q, a.logs[q], a.heard[q]) {
      OutstandingKept(w, after, q, a.logs[q], a.heard[q]);
    }
  }

  lemma UnfitAck(w: World, after: World, c: Conn, n: nat)
    requires WaitsHold(w) && Extends(w, after) && n >= INT32_LIMIT && c in w.peers && c in after.peers
    requires forall r | r in w.homes && w.homes[r] != c :: SameAcks(w, after, r)
    requires after.peers[c].acked == w.peers[c].acked + [n]
    requires after.master.waits == w.master.waits && after.master.answers == w.master.answers
    requires after.asked == w.asked && after.master.nextWait == w.master.nextWait
    ensures WaitsHold(after)
  {
    forall x | x in after.master.waits ensures WaitHolds(after, x) {
      assert WaitHolds(w, x);
      UnfitAckKeeps(w, after, c, n, x);
    }
    hide Extends, SameAcks;
    forall a | a in after.master.answers ensures AnswerHolds(after, a) {
      AnswerKept(w, after, a);
    }
  }

  lemma UnfitAckKeeps(w: World, after: World, c: Conn, n: nat, x: Waiting)
    requires WaitHolds(w, x) && Extends(w, after) && n >= INT32_LIMIT && c in w.peers && c in after.peers
    requires forall r | r in w.homes && w.homes[r] != c :: SameAcks(w, after, r)
    requires after.peers[c].acked == w.peers[c].acked + [n]
    ensures WaitHolds(after, x)
  {
    hide Has, ToStrings, Pushed;
    AskedKept(w, after, x.id);
    var a := w.asked[x.id];
    forall r | r in x.counted ensures Has(after, r, a.logs[r]) {
      HasKept(w, after, r, a.logs[r]);
    }
    forall r | r in x.waitlist ensures Outstanding(after, r, a.logs[r], a.heard[r]) {
      if w.homes[r] != c {
        OutstandingKept(w, after, r, a.logs[r], a.heard[r]);
      }
    }
  }

  lemma HeardAckKeepsWaits(w: World, after: World, c: Conn, r: ReplicaId, n: nat)
    requires Inv(w) && WaitsHold(w) && TicketsHold(w.master) && HearsOf(w, c, r, n) && w.peers[c].id == Some(r)
    requires after.master == if n < INT32_LIMIT then HearAck(w.master, r, n) else w.master
    requires after.homes == w.homes && after.asked == w.asked && c in after.peers && after.peers == w.peers[c := after.peers[c]]
    requires after.peers[c].told == w.peers[c].told && after.peers[c].acked == w.peers[c].acked + [n]
    ensures WaitsHold(after) && TicketsHold(after.master)
  {
    InvRegistry(w);
    AckFrame(w.master, after.master, r, n);
    hide Inv, Registry, WaitsHold, TicketsHold, AcksOf, Log, Extends, SameAcks, HearAck;
    assert n < INT32_LIMIT || after.master == w.master;
    AckExtends(w, after, c, n);
    if n < INT32_LIMIT {
      AckKeepsTickets(w.master, r, n);
      FitAck(w, after, c, r, n);
    } else {
      UnfitAck(w, after, c, n);
    }
  }

  /** An ACK pushes nothing and forgets nobody. */
  lemma AckFrame(ma: Master, after: Master, r: ReplicaId, n: nat)
    requires r in ma.replicas && (after == HearAck(ma, r, n) || after == ma)
    ensures after.outbox == ma.outbox && after.replicas.Keys == ma.replicas.Keys
  {
    hide KeptWaits, AckReplies, Invalidate;
  }

  lemma AckKeepsWaits(w: World, c: Conn, banner: string, dump: string)
    requires Inv(w) && WaitsHold(w) && TicketsHold(w.master)
    requires Enabled(w, MasterHears(c, banner, dump)) && |Said(w, c)| >= 5
    ensures WaitsHold(DoMasterHears(w, c, banner, dump)) && TicketsHold(DoMasterHears(w, c, banner, dump).master)
  {
    hide Inv, WaitsHold, TicketsHold, DoMasterHears, AcksOf, Log, HearAck;
    var r, n := AckShape(w, c, banner, dump);
    HeardAckKeepsWaits(w, DoMasterHears(w, c, banner, dump), c, r, n);
  }

  lemma FitAck(w: World, after: World, c: Conn, r: ReplicaId, n: nat)
    requires Inv(w) && WaitsHold(w) && Extends(w, after)
    requires HearsOf(w, c, r, n)
    requires forall q | q in w.homes && q != r :: SameAcks(w, after, q)
    requires after.master == HearAck(w.master, r, n) && after.asked == w.asked
    ensures WaitsHold(after)
  {
    hide Inv, Extends, SameAcks, AcksOf, Log, WaitHolds, AnswerHolds, KeptWaits, AckReplies, UpdateWait, Replies, HearsOf;
    forall y | y in after.master.waits ensures WaitHolds(after, y) {
      var x := KeptWaitIsUpdated(w.master.waits, r, n, y);
      AckUpdates(w, after, c, r, n, x);
    }
    forall a | a in after.master.answers ensures AnswerHolds(after, a) {
      if a in w.master.answers {
        AnswerKept(w, after, a);
      } else {
        var x := ReplyIsUpdated(w.master.waits, r, n, a);
        AckUpdates(w, after, c, r, n, x);
      }
    }
  }

  // ----- A WAIT is set up, a timer fires -----

  lemma {:induction false} TimerReplyIs(ws: seq<Waiting>, id: WaitId, a: Answer) returns (x: Waiting)
    requires a in TimerReplies(ws, id)
    ensures x in ws && a == Reply(x, true)
  {
    if ws[0].id == id && a == Reply(ws[0], true) {
      x := ws[0];
    } else {
      x := TimerReplyIs(ws[1..], id, a);
    }
  }

  lemma {:induction false} WithoutWaitIsPart(ws: seq<Waiting>, id: WaitId, x: Waiting)
    requires x in WithoutWait(ws, id)
    ensures x in ws && x.id != id
  {
    if !(ws[0].id != id && x == ws[0]) {
      WithoutWaitIsPart(ws[1..], id, x);
    }
  }

  lemma TimerKeepsWaits(w: World, id: WaitId)
    requires Registry(w) && WaitsHold(w) && TicketsHold(w.master) && id in w.master.timers
    ensures WaitsHold(DoTimer(w, id)) && TicketsHold(DoTimer(w, id).master)
  {
    TimerKeepsTickets(w.master, id);
    var after := DoTimer(w, id);
    hide TicketsHold, Log, WithoutWait, TimerReplies, AnswerHolds;
    TimerShape(w.master, id);
    assert Extends(w, after) && forall r | r in w.homes :: SameAcks(w, after, r) by {
      SameChannels(w, after);
    }
    hide Extends, SameAcks;
    forall y | y in after.master.waits ensures WaitHolds(after, y) {
      if w.master.timers[id] {
        WithoutWaitIsPart(w.master.waits, id, y);
      }
      assert WaitHolds(w, y);
      WaitKept(w, after, y);
    }
    forall a | a in after.master.answers ensures AnswerHolds(after, a) {
      if a in w.master.answers {
        AnswerKept(w, after, a);
      } else {
        var x := TimerReplyIs(w.master.waits, id, a);
        assert WaitHolds(w, x);
        TimerReplyHolds(w, x);
        AnswerKept(w, after, a);
      }
    }
  }

  lemma SameChannels(w: World, after: World)
    requires Registry(w) && after.peers == w.peers && after.homes == w.homes
    requires forall id | id in w.asked :: id in after.asked && after.asked[id] == w.asked[id]
    requires after.master.outbox == w.master.outbox && after.master.replicas == w.master.replicas
    ensures Extends(w, after) && forall r | r in w.homes :: SameAcks(w, after, r)
  {
    hide Log;
    forall r | r in w.homes ensures Pushed(after, r) == Pushed(w, r) {
    }
  }

  /** A WAIT that gives up has counted no more than it asked. */
  lemma TimerReplyHolds(w: World, x: Waiting)
    requires WaitHolds(w, x)
    ensures AnswerHolds(w, Reply(x, true))
  {
    hide Has, Outstanding, ToStrings;
    SubsetSize(x.counted, w.asked[x.id].logs.Keys);
  }

  lemma WaitExtends(w: World, count: nat)
    requires Registry(w) && forall id | id in w.asked :: id < w.master.nextWait
    ensures Extends(w, DoWait(w, count)) && forall r | r in w.homes :: SameAcks(w, DoWait(w, count), r)
  {
    hide Lagging, UpToDate, PushTo, DoWait, Extends, SameAcks, Registry;
    var after := DoWait(w, count);
    WaitAsks(w, count);
    if after.master.replicas == w.master.replicas && after.master.outbox == w.master.outbox {
      SameChannels(w, after);
    } else {
      PushExtends(w, after, Lagging(w.master.replicas).Keys, GETACK);
    }
  }

  lemma WaitAsks(w: World, count: nat)
    requires forall id | id in w.asked :: id < w.master.nextWait
    ensures var after, pushed := DoWait(w, count), PushTo(w.master, Lagging(w.master.replicas).Keys, GETACK);
            && after.peers == w.peers && after.homes == w.homes
            && (forall id | id in w.asked :: id in after.asked && after.asked[id] == w.asked[id])
            && ((after.master.replicas == w.master.replicas && after.master.outbox == w.master.outbox) ||
                (after.master.replicas == pushed.replicas && after.master.outbox == pushed.outbox))
  {
    hide Construct, Lagging, UpToDate, WaitFor, PushTo, Pushed, Acks;
    WaitShape(w.master, count);
  }

  /** At the time of a WAIT: who is up to date has nothing to do, who lags was pushed exactly its target. */
  lemma AtSetup(w: World, r: ReplicaId)
    requires Inv(w) && r in w.master.replicas
    ensures r in w.homes && w.homes[r] in w.peers && w.homes[r] in w.master.outbox && w.peers[w.homes[r]].open
    ensures w.peers[w.homes[r]].id == Some(r)
    ensures w.master.replicas[r].bytesAck >= w.master.replicas[r].bytesPushed ==> Pushed(w, r) == []
    ensures w.master.replicas[r].bytesAck < w.master.replicas[r].bytesPushed ==>
              w.master.replicas[r].state.WRITE? && w.master.replicas[r].bytesPushed == |ToStrings(Pushed(w, r))|
              && |Said(w, w.homes[r])| >= 5
  {
    hide Applied, ToStrings, AcksOf, SetsOf, AckMessages, Opening, IsPush;
    var c := w.homes[r];
    var p, out, h := w.peers[c], w.master.outbox[c], w.master.replicas[r];
    assert LinkHolds(w, c);
    if h.bytesAck >= h.bytesPushed {
      UpToDateMeansNothingPushed(p, out, h);
    } else {
      LinkStage(p, out, Some(h));
    }
  }

  lemma SetupSizes(replicas: map<ReplicaId, Handle>)
    ensures UpToDate(replicas) + Lagging(replicas).Keys == replicas.Keys
    ensures UpToDate(replicas) !! Lagging(replicas).Keys
    ensures |UpToDate(replicas)| <= |replicas|
    ensures |replicas.Keys| == |replicas|
  {
    assert UpToDate(replicas) + Lagging(replicas).Keys == replicas.Keys;
    SubsetSize(UpToDate(replicas), replicas.Keys);
  }

  lemma UpToDateHas(w: World, after: World, r: ReplicaId)
    requires Inv(w) && r in UpToDate(w.master.replicas) && Extends(w, after)
    ensures Has(after, r, Pushed(w, r))
  {
    AtSetup(w, r);
    hide Extends, Pushed;
    assert Has(w, r, []);
    HasKept(w, after, r, []);
  }

  /** What a WAIT records, and whom it asks. */
  lemma WaitDone(w: World, count: nat)
    requires Registry(w)
    ensures var after, ma, n := DoWait(w, count), w.master, w.master.nextWait;
            var asks := Min(count, |ma.replicas|) > |UpToDate(ma.replicas)|;
            && after.peers == w.peers && after.homes == w.homes
            && n in after.asked && after.asked == w.asked[n := after.asked[n]]
            && after.asked[n].requested == count
            && after.asked[n].logs.Keys == after.asked[n].heard.Keys == ma.replicas.Keys <= w.homes.Keys
            && |after.asked[n].logs| == |ma.replicas|
            && (forall r | r in after.asked[n].logs :: after.asked[n].logs[r] == Pushed(w, r) && after.asked[n].heard[r] == |Acks(w, r)|)
            && after.master.nextWait == n + 1
            && after.master.waits == ma.waits + (if asks then [NewWait(ma, count)] else [])
            && after.master.timers == (if asks then ma.timers[n := true] else ma.timers)
            && after.master.answers == ma.answers + (if asks then [] else [AnswerAtOnce(ma)])
  {
    hide WaitFor, Pushed, Acks, PushTo, UpToDate, Lagging, Construct;
    WaitShape(w.master, count);
    var a := DoWait(w, count).asked[w.master.nextWait];
    assert a.logs.Keys == w.master.replicas.Keys;
    assert |a.logs| == |a.logs.Keys| && |w.master.replicas| == |w.master.replicas.Keys|;
  }

  function NewWait(ma: Master, count: nat): Waiting {
    Waiting(ma.nextWait, Min(count, |ma.replicas|), |UpToDate(ma.replicas)|, Lagging(ma.replicas), UpToDate(ma.replicas))
  }

  function AnswerAtOnce(ma: Master): Answer {
    Answer(ma.nextWait, |UpToDate(ma.replicas)|, false, UpToDate(ma.replicas))
  }

  lemma LaggingAsked(w: World, count: nat, r: ReplicaId)
    requires Inv(w) && r in Lagging(w.master.replicas)
    requires Min(count, |w.master.replicas|) > |UpToDate(w.master.replicas)|
    ensures Outstanding(DoWait(w, count), r, Pushed(w, r), |Acks(w, r)|)
    ensures Lagging(w.master.replicas)[r] == |ToStrings(Pushed(w, r))|
  {
    AtSetup(w, r);
    hide Inv, Log, ToStrings;
    AskedIsPushed(w, count, r) by {
      InvRegistry(w);
    }
    var after, c := DoWait(w, count), w.homes[r];
    hide DoWait;
    LogGrows(Said(w, c), GETACK);
    assert Pushed(after, r) == Pushed(w, r) + [GETACK];
    assert Acks(after, r) == Acks(w, r);
  }

  lemma AskedIsSaid(w: World, r: ReplicaId)
    requires Registry(w) && r in Lagging(w.master.replicas) && w.master.replicas[r].state.WRITE?
    ensures var c, ids := w.homes[r], Lagging(w.master.replicas).Keys;
            var outbox := PushTo(w.master, ids, GETACK).outbox;
            c in w.peers && c in w.master.outbox && c in outbox && outbox[c] == w.master.outbox[c] + [GETACK]
  {
    hide Construct, PushTo;
    PushEffect(w, Lagging(w.master.replicas).Keys, GETACK, w.homes[r]);
  }

  lemma WaitOutbox(w: World, count: nat)
    requires Min(count, |w.master.replicas|) > |UpToDate(w.master.replicas)|
    ensures var after, pushed := DoWait(w, count), PushTo(w.master, Lagging(w.master.replicas).Keys, GETACK);
            after.peers == w.peers && after.homes == w.homes && after.master.outbox == pushed.outbox
  {
    hide Construct, WaitFor, PushTo, Pushed, Acks, UpToDate, Lagging;
    WaitShape(w.master, count);
  }

  lemma RegisteredHome(w: World, r: ReplicaId)
    requires Registry(w) && r in Lagging(w.master.replicas)
    ensures r in w.homes
  {
  }

  lemma AskedIsPushed(w: World, count: nat, r: ReplicaId)
    requires Registry(w) && r in Lagging(w.master.replicas) && w.master.replicas[r].state.WRITE?
    requires Min(count, |w.master.replicas|) > |UpToDate(w.master.replicas)|
    ensures var c, after := w.homes[r], DoWait(w, count);
            && after.peers == w.peers && after.homes == w.homes && c in w.peers && c in after.master.outbox
            && after.master.outbox[c] == w.master.outbox[c] + [GETACK]
            && Said(after, c) == Said(w, c) + [GETACK]
  {
    hide UpToDate, Lagging, Registry, DoWait, PushTo, Construct, ToStrings;
    RegisteredHome(w, r);
    AskedIsSaid(w, r);
    WaitOutbox(w, count);
    var c := w.homes[r];
    assert w.peers[c].told + (w.master.outbox[c] + [GETACK]) == Said(w, c) + [GETACK];
  }

  lemma InvRegistry(w: World)
    requires Inv(w)
    ensures Registry(w)
  {
  }

  lemma LogGrows(said: seq<Message>, m: Message)
    requires |said| >= 5
    ensures Log(said + [m]) == Log(said) + [m]
  {
  }

  /** The WAIT that `WaitFor` leaves pending is sound. */
  lemma NewWaitHolds(w: World, count: nat)
    requires Inv(w) && Extends(w, DoWait(w, count))
    requires Min(count, |w.master.replicas|) > |UpToDate(w.master.replicas)|
    ensures WaitHolds(DoWait(w, count), NewWait(w.master, count))
  {
    hide DoWait, Inv, Registry, Pushed, Acks, Extends, Has, Outstanding, ToStrings, UpToDate, Lagging, WaitHolds, NewWait;
    var after, ready, lagging := DoWait(w, count), UpToDate(w.master.replicas), Lagging(w.master.replicas);
    InvRegistry(w);
    WaitDone(w, count);
    SetupSizes(w.master.replicas);
    var a := after.asked[w.master.nextWait];
    forall r | r in ready ensures Has(after, r, a.logs[r]) {
      UpToDateHas(w, after, r);
    }
    forall r | r in lagging
      ensures Outstanding(after, r, a.logs[r], a.heard[r]) && lagging[r] == |ToStrings(a.logs[r])|
    {
      LaggingAsked(w, count, r);
    }
    NewWaitIntro(w.master, count, after, a);
  }

  lemma NewWaitIntro(ma: Master, count: nat, after: World, a: Asked)
    requires ma.nextWait in after.asked && after.asked[ma.nextWait] == a
    requires a.requested == count && a.logs.Keys == a.heard.Keys == ma.replicas.Keys <= after.homes.Keys && |a.logs| == |ma.replicas|
    requires UpToDate(ma.replicas) !! Lagging(ma.replicas).Keys && UpToDate(ma.replicas) + Lagging(ma.replicas).Keys == ma.replicas.Keys
    requires Min(count, |ma.replicas|) > |UpToDate(ma.replicas)|
    requires forall r | r in UpToDate(ma.replicas) :: Has(after, r, a.logs[r])
    requires forall r | r in Lagging(ma.replicas) ::
               Outstanding(after, r, a.logs[r], a.heard[r]) && Lagging(ma.replicas)[r] == |ToStrings(a.logs[r])|
    ensures WaitHolds(after, NewWait(ma, count))
  {
    hide Has, Outstanding, ToStrings, UpToDate, Lagging;
  }

  lemma NewAnswerHolds(w: World, count: nat)
    requires Inv(w) && Extends(w, DoWait(w, count))
    requires Min(count, |w.master.replicas|) <= |UpToDate(w.master.replicas)|
    ensures AnswerHolds(DoWait(w, count), AnswerAtOnce(w.master))
  {
    hide DoWait, Inv, Registry, Pushed, Acks, Extends, Has, UpToDate, Lagging;
    var after := DoWait(w, count);
    InvRegistry(w);
    WaitDone(w, count);
    SetupSizes(w.master.replicas);
    forall r | r in UpToDate(w.master.replicas) ensures Has(after, r, Pushed(w, r)) {
      UpToDateHas(w, after, r);
    }
  }

  lemma WaitKeepsWaits(w: World, count: nat)
    requires Inv(w) && WaitsHold(w) && TicketsHold(w.master)
    ensures WaitsHold(DoWait(w, count)) && TicketsHold(DoWait(w, count).master)
  {
    hide DoWait, Inv, Extends, SameAcks, WaitHolds, AnswerHolds, TicketsHold, Registry, UpToDate, Lagging, NewWait, AnswerAtOnce, Pushed, Acks;
    var after, ma := DoWait(w, count), w.master;
    InvRegistry(w);
    WaitExtends(w, count);
    NewTickets(w, count);
    WaitDone(w, count);
    forall x | x in after.master.waits ensures WaitHolds(after, x) {
      if x in ma.waits {
        WaitlistHome(w, x);
        WaitKept(w, after, x);
      } else {
        NewWaitHolds(w, count);
      }
    }
    NewAnswersHold(w, count);
  }

  lemma NewAnswersHold(w: World, count: nat)
    requires Inv(w) && WaitsHold(w) && Extends(w, DoWait(w, count))
    ensures forall a | a in DoWait(w, count).master.answers :: AnswerHolds(DoWait(w, count), a)
  {
    hide DoWait, Inv, Extends, WaitHolds, AnswerHolds, Registry, UpToDate, Lagging, NewWait, AnswerAtOnce, Pushed, Acks;
    var after, ma := DoWait(w, count), w.master;
    InvRegistry(w);
    WaitDone(w, count);
    forall a | a in after.master.answers ensures AnswerHolds(after, a) {
      if a in ma.answers {
        AnswerKept(w, after, a);
      } else {
        NewAnswerHolds(w, count);
      }
    }
  }

  lemma NewTickets(w: World, count: nat)
    requires Registry(w) && TicketsHold(w.master)
    ensures TicketsHold(DoWait(w, count).master)
  {
    WaitDone(w, count);
    var after, ma := DoWait(w, count), w.master;
    hide DoWait, TicketsHold, Registry, UpToDate, Lagging, Pushed, Acks;
    if Min(count, |ma.replicas|) > |UpToDate(ma.replicas)| {
      assert after.master.answers == ma.answers;
      WaitIssued(ma, after.master, NewWait(ma, count));
    } else {
      WaitAnsweredAtOnce(ma, after.master, AnswerAtOnce(ma));
    }
  }

  lemma WaitlistHome(w: World, x: Waiting)
    requires WaitHolds(w, x)
    ensures x.waitlist.Keys <= w.homes.Keys
  {
  }

  // ----- All runs -----

  /** A step that leaves the WAITs, the answers and the timers alone, and takes nothing back. */
  lemma QuietKeepsWaits(w: World, after: World)
    requires WaitsHold(w) && TicketsHold(w.master)
    requires Extends(w, after) && forall r | r in w.homes :: SameAcks(w, after, r)
    requires after.master.waits == w.master.waits && after.master.answers == w.master.answers && after.master.timers == w.master.timers
    requires after.asked == w.asked && after.master.nextWait == w.master.nextWait
    ensures WaitsHold(after) && TicketsHold(after.master)
  {
    hide WaitsHold, TicketsHold, Extends, SameAcks;
    TicketsFrame(w.master, after.master);
    QuietStep(w, after);
  }

  lemma SetKeepsWaits(w: World, one: SetArgs)
    requires Inv(w) && WaitsHold(w) && TicketsHold(w.master)
    ensures WaitsHold(DoSet(w, one)) && TicketsHold(DoSet(w, one).master)
  {
    InvRegistry(w);
    hide Inv, WaitsHold, TicketsHold, Extends, SameAcks, Registry, AfterSet, PushTo, SetMessage, Construct;
    SetExtends(w, one);
    SetTickets(w, one);
    QuietStep(w, DoSet(w, one));
  }

  lemma TellingKeepsWaits(w: World, c: Conn, restored: map<string, Stored>)
    requires Inv(w) && WaitsHold(w) && TicketsHold(w.master) && Enabled(w, ReplicaHears(c, restored))
    ensures WaitsHold(DoReplicaHears(w, c, restored)) && TicketsHold(DoReplicaHears(w, c, restored).master)
  {
    InvRegistry(w);
    hide Inv, WaitsHold, TicketsHold, Extends, SameAcks, Registry, PeerHears;
    ReplicaHearsExtends(w, c, restored);
    QuietKeepsWaits(w, DoReplicaHears(w, c, restored));
  }

  lemma JoinKeepsWaits(w: World, c: Conn, port: string, store: map<string, Stored>)
    requires Inv(w) && WaitsHold(w) && TicketsHold(w.master) && c !in w.peers
    ensures WaitsHold(DoJoin(w, c, port, store)) && TicketsHold(DoJoin(w, c, port, store).master)
  {
    InvRegistry(w);
    hide Inv, WaitsHold, TicketsHold, Extends, SameAcks, Registry, NewPeer;
    JoinExtends(w, c, port, store);
    QuietKeepsWaits(w, DoJoin(w, c, port, store));
  }

  lemma LeaveKeepsWaits(w: World, c: Conn)
    requires Inv(w) && WaitsHold(w) && TicketsHold(w.master) && c in w.peers
    ensures WaitsHold(DoLeave(w, c)) && TicketsHold(DoLeave(w, c).master)
  {
    InvRegistry(w);
    hide Inv, WaitsHold, TicketsHold, Extends, SameAcks, Registry;
    LeaveExtends(w, c);
    QuietKeepsWaits(w, DoLeave(w, c));
  }

  lemma StepKeepsWaits(w: World, s: Step)
    requires Inv(w) && WaitsHold(w) && TicketsHold(w.master) && Enabled(w, s)
    ensures WaitsHold(Take(w, s)) && TicketsHold(Take(w, s).master)
  {
    hide Inv, WaitsHold, TicketsHold, DoSet, DoWait, DoMasterHears, DoReplicaHears, DoTimer, DoJoin, DoLeave;
    match s
    case ClientSet(key, value, px) => SetKeepsWaits(w, SetArgs(key, value, px));
    case ClientWait(count) => WaitKeepsWaits(w, count);
    case MasterHears(c, banner, dump) => HearsKeepsWaits(w, c, banner, dump);
    case ReplicaHears(c, restored) => TellingKeepsWaits(w, c, restored);
    case TimerFires(id) =>
      InvRegistry(w);
      TimerKeepsWaits(w, id);
    case Join(c, port, store) => JoinKeepsWaits(w, c, port, store);
    case Leave(c) => LeaveKeepsWaits(w, c);
  }

  lemma AskedIds(w: World)
    requires WaitsHold(w)
    ensures forall id | id in w.asked :: id < w.master.nextWait
  {
  }

  lemma SetTickets(w: World, one: SetArgs)
    requires TicketsHold(w.master)
    ensures TicketsHold(DoSet(w, one).master)
  {
    hide PushTo, SetMessage, TicketsHold;
    PushIgnores(w.master.(store := w.master.store[one.key := Stored(one.value, one.px)]), w.master, w.master.replicas.Keys,
                SetMessage(one.key, one.value, one.px));
    TicketsFrame(w.master, DoSet(w, one).master);
  }

  lemma HearsKeepsWaits(w: World, c: Conn, banner: string, dump: string)
    requires Inv(w) && WaitsHold(w) && TicketsHold(w.master) && Enabled(w, MasterHears(c, banner, dump))
    ensures WaitsHold(DoMasterHears(w, c, banner, dump)) && TicketsHold(DoMasterHears(w, c, banner, dump).master)
  {
    hide LinkInv, Applied, DoMasterHears, WaitsHold, TicketsHold, Registry;
    assert LinkHolds(w, c);
    LinkStage(w.peers[c], w.master.outbox[c], HandleOf(w.master, w.peers[c]));
    if |Said(w, c)| <= 3 {
      OpeningKeepsWaits(w, c, banner, dump);
    } else {
      AckKeepsWaits(w, c, banner, dump);
    }
  }

  lemma {:induction false} RunKeepsWaits(store: map<string, Stored>, steps: seq<Step>)
    requires Run(store, steps).Some?
    ensures WaitsHold(Run(store, steps).value) && TicketsHold(Run(store, steps).value.master)
    decreases |steps|
  {
    hide Take, Enabled;
    if steps != [] {
      RunKeepsWaits(store, steps[..|steps| - 1]);
      RunKeeps(store, steps[..|steps| - 1]);
      hide Inv, WaitsHold, TicketsHold;
      StepKeepsWaits(Run(store, steps[..|steps| - 1]).value, steps[|steps| - 1]);
    }
  }
}
