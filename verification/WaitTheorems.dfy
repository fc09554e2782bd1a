/** What WAIT promises its client, from the step that asks to the end of any run. */
module WaitTheorems {
  import opened Prelude
  import opened Decimal
  import opened Messages
  import opened Commands
  import opened Replicas
  import opened Links
  import opened Replication
  import opened WaitTickets
  import opened WaitSoundness
  import opened ReplicationTheorems

  // ----- From one step of a run to a later one -----

  lemma {:induction false} RunPrefix(store: map<string, Stored>, steps: seq<Step>, i: nat)
    requires i <= |steps| && Run(store, steps).Some?
    ensures Run(store, steps[..i]).Some?
    decreases |steps|
  {
    hide Take, Enabled, Start;
    if i == |steps| {
      assert steps[..i] == steps;
    } else {
      RunPrefix(store, steps[..|steps| - 1], i);
      assert steps[..|steps| - 1][..i] == steps[..i];
    }
  }

  lemma ExtendsItself(w: World)
    requires Registry(w)
    ensures Extends(w, w)
  {
    hide Log;
  }

  lemma ExtendsAcross(u: World, v: World, w: World)
    requires Extends(u, v) && Extends(v, w)
    ensures Extends(u, w)
  {
    hide Pushed;
    forall c | c in u.peers ensures c in w.peers && u.peers[c].told <= w.peers[c].told {
      assert u.peers[c].told <= v.peers[c].told;
      assert v.peers[c].told <= w.peers[c].told;
    }
  }

  /** Nothing said, heard or asked by an earlier step of a run is taken back by a later one. */
  lemma {:induction false} RunExtends(store: map<string, Stored>, steps: seq<Step>, i: nat, v: World, w: World)
    requires i <= |steps| && Run(store, steps[..i]) == Some(v) && Run(store, steps) == Some(w)
    ensures Extends(v, w) && v.master.nextWait <= w.master.nextWait
    decreases |steps|
  {
    hide Inv, WaitsHold, TicketsHold, Extends, Take, Enabled, Registry;
    if i == |steps| {
      assert steps[..i] == steps;
      RunKeeps(store, steps);
      InvRegistry(w);
      ExtendsItself(w);
    } else {
      var init, last := steps[..|steps| - 1], steps[|steps| - 1];
      RunPrefix(store, steps, |init|);
      var u := Run(store, init).value;
      assert init[..i] == steps[..i];
      RunExtends(store, init, i, v, u);
      RunKeeps(store, init);
      RunKeepsWaits(store, init);
      AskedIds(u);
      StepExtends(u, last);
      StepTimers(u, last);
      ExtendsAcross(v, u, w);
    }
  }

  /** WAIT ids are issued in order; a fired timer is gone, and a new one is the newest WAIT's. */
  lemma StepTimers(w: World, s: Step)
    requires Inv(w) && Enabled(w, s)
    ensures w.master.nextWait <= Take(w, s).master.nextWait
    ensures Take(w, s).master.timers.Keys <= w.master.timers.Keys + {w.master.nextWait}
    ensures s.TimerFires? ==> s.wait !in Take(w, s).master.timers
  {
    hide Inv, DoMasterHears, PushTo, WaitFor, SetMessage, PeerHears, NewPeer, WithoutWait, TimerReplies, Lagging, UpToDate, Pushed, Acks, Registry;
    match s
    case ClientSet(key, value, px) =>
      var one := SetArgs(key, value, px);
      PushIgnores(w.master.(store := w.master.store[key := Stored(value, px)]), w.master, w.master.replicas.Keys, SetMessage(key, value, px));
    case ClientWait(count) => WaitShape(w.master, count);
    case MasterHears(c, banner, dump) => HearingTimers(w, c, banner, dump);
    case _ =>
  }

  lemma HearingTimers(w: World, c: Conn, banner: string, dump: string)
    requires Inv(w) && Enabled(w, MasterHears(c, banner, dump))
    ensures DoMasterHears(w, c, banner, dump).master.nextWait == w.master.nextWait
    ensures DoMasterHears(w, c, banner, dump).master.timers.Keys == w.master.timers.Keys
  {
    hide LinkInv, Applied, Owed, DoMasterHears, Registry, KeptWaits, AckReplies, AnswerIds;
    assert LinkHolds(w, c);
    LinkStage(w.peers[c], w.master.outbox[c], HandleOf(w.master, w.peers[c]));
    if |Said(w, c)| <= 3 {
      var more := OpeningShape(w, c, banner, dump);
    } else {
      var r, n := AckShape(w, c, banner, dump);
    }
  }

  // ----- Soundness -----

  /** What a WAIT step puts on record: who was registered, and what had been pushed to each. */
  lemma WaitRecorded(store: map<string, Stored>, steps: seq<Step>, i: nat, v: World, w: World)
    requires i < |steps| && steps[i].ClientWait?
    requires Run(store, steps[..i]) == Some(v) && Run(store, steps) == Some(w)
    ensures var id := v.master.nextWait;
            && id in w.asked && id < w.master.nextWait && w.asked[id].requested == steps[i].count
            && w.asked[id].logs.Keys == v.master.replicas.Keys && |w.asked[id].logs| == |v.master.replicas|
            && v.master.replicas.Keys <= v.homes.Keys <= w.homes.Keys
            && (forall r | r in v.homes :: w.homes[r] == v.homes[r])
            && (forall r | r in v.master.replicas :: w.asked[id].logs[r] == Pushed(v, r))
  {
    hide Inv, Extends, Registry, Pushed, Acks, DoWait, WaitFor;
    var next := steps[..i + 1];
    RunPrefix(store, steps, i + 1);
    assert next[..|next| - 1] == steps[..i] && next[|next| - 1] == steps[i];
    var u := Run(store, next).value;
    assert u == DoWait(v, steps[i].count);
    RunKeeps(store, steps[..i]);
    InvRegistry(v);
    WaitDone(v, steps[i].count);
    RunExtends(store, steps, i + 1, u, w);
    AskedKept(u, w, v.master.nextWait);
    HomesKept(u, w);
  }

  lemma HomesKept(w: World, after: World)
    requires Extends(w, after)
    ensures forall r | r in w.homes :: r in after.homes && after.homes[r] == w.homes[r]
  {
  }

  /**
   The answer to a WAIT counts distinct replicas that were registered when it was asked, and each has by
   then processed everything that had been pushed to it: the SETs are in its map. It counts as many as
   were asked for, or all there were, unless the timer fired.
   */
  lemma WaitIsSound(store: map<string, Stored>, steps: seq<Step>, i: nat, v: World, w: World, a: Answer)
    requires i < |steps| && steps[i].ClientWait?
    requires Run(store, steps[..i]) == Some(v) && Run(store, steps) == Some(w)
    requires a in w.master.answers && a.id == v.master.nextWait
    ensures a.counted <= v.master.replicas.Keys <= v.homes.Keys && |a.counted| == a.count <= |v.master.replicas|
    ensures a.byTimer || a.count >= Min(steps[i].count, |v.master.replicas|)
    ensures forall r | r in a.counted :: v.homes[r] in w.peers
    ensures forall r | r in a.counted :: Processed(w.peers[v.homes[r]], Pushed(v, r))
  {
    hide Inv, Extends, Registry, Pushed, Acks, Run, Processed;
    WaitRecorded(store, steps, i, v, w);
    RunKeeps(store, steps);
    RunKeepsWaits(store, steps);
    assert AnswerHolds(w, a);
    forall r | r in a.counted ensures v.homes[r] in w.peers && Processed(w.peers[v.homes[r]], Pushed(v, r)) {
      assert Has(w, r, Pushed(v, r));
      HasProcessed(w, r, Pushed(v, r));
    }
  }

  /**
   In terms of SETs: a counted replica that the master was writing to has by then executed every SET since
   it started to, in order.
   */
  lemma CountedHasSets(store: map<string, Stored>, steps: seq<Step>, i: nat, v: World, w: World, a: Answer, r: ReplicaId)
    requires i < |steps| && steps[i].ClientWait?
    requires Run(store, steps[..i]) == Some(v) && Run(store, steps) == Some(w)
    requires a in w.master.answers && a.id == v.master.nextWait && r in a.counted
    ensures r in v.homes && v.homes[r] in v.peers && v.homes[r] in w.peers && r in v.master.replicas
    ensures v.master.replicas[r].state.WRITE? ==>
              var early, late := v.peers[v.homes[r]], w.peers[v.homes[r]];
              && early.start <= |v.written|
              && v.written[early.start..] <= SetsOf(Log(late.told))
              && (v.written[early.start..] != [] ==> late.replica.store == ApplyAll(late.base, SetsOf(Log(late.told))))
  {
    hide Inv, Extends, Registry, Run, Processed, SetsOf, Pushed;
    WaitIsSound(store, steps, i, v, w, a);
    RunKeeps(store, steps[..i]);
    RegisteredLink(v, r);
    assert Processed(w.peers[v.homes[r]], Pushed(v, r));
    if v.master.replicas[r].state.WRITE? {
      WritingOwes(v, r);
      ProcessedShows(w.peers[v.homes[r]], Pushed(v, r));
    }
  }

  /** What is pushed to a replica in WRITE carries the SETs since its start. */
  lemma WritingOwes(w: World, r: ReplicaId)
    requires Inv(w) && r in w.master.replicas && w.master.replicas[r].state.WRITE?
    ensures r in w.homes && w.homes[r] in w.peers && w.peers[w.homes[r]].start <= |w.written|
    ensures SetsOf(Pushed(w, r)) == w.written[w.peers[w.homes[r]].start..]
  {
    hide SetsOf, AcksOf, Opening, AckMessages, IsPush, ToStrings, Applied;
    RegisteredLink(w, r);
    var p, out := w.peers[w.homes[r]], w.master.outbox[w.homes[r]];
    assert LinkHolds(w, w.homes[r]);
    LinkStage(p, out, Some(w.master.replicas[r]));
  }

  lemma ProcessedShows(p: Peer, log: seq<Message>)
    requires Processed(p, log)
    ensures SetsOf(log) <= SetsOf(Log(p.told))
    ensures SetsOf(log) != [] ==> p.replica.store == ApplyAll(p.base, SetsOf(Log(p.told)))
  {
    hide SetIn, ApplyAll, Log;
  }

  /**
   A replica that is registered but not written to yet counts as up to date in every WAIT, though it holds
   none of the SETs: it has not even been sent a snapshot.
   */
  lemma UnwrittenCounts(store: map<string, Stored>, steps: seq<Step>, w: World, r: ReplicaId, count: nat)
    requires Run(store, steps) == Some(w) && r in w.master.replicas && !w.master.replicas[r].state.WRITE?
    ensures r in NewWait(w.master, count).counted && r in AnswerAtOnce(w.master).counted
    ensures r in w.homes && w.homes[r] in w.peers && w.homes[r] in w.master.outbox && |Said(w, w.homes[r])| <= 3
  {
    hide Inv, Run, LinkInv, Log;
    RunKeeps(store, steps);
    RegisteredLink(w, r);
    LinkNotWriting(w.peers[w.homes[r]], w.master.outbox[w.homes[r]], w.master.replicas[r]);
    LinkStage(w.peers[w.homes[r]], w.master.outbox[w.homes[r]], Some(w.master.replicas[r]));
  }

  /** The replica has processed `log`, and its map shows the SETs in it. */
  ghost predicate Processed(p: Peer, log: seq<Message>) {
    && log <= Log(p.told) && SetsOf(log) <= SetsOf(Log(p.told))
    && (log != [] ==> p.replica.store == ApplyAll(p.base, SetsOf(Log(p.told))))
  }

  lemma HasProcessed(w: World, r: ReplicaId, log: seq<Message>)
    requires Inv(w) && Has(w, r, log)
    ensures Processed(w.peers[w.homes[r]], log)
  {
    hide Registry, LinkInv, SetsOf, ApplyAll, Owed;
    var p := w.peers[w.homes[r]];
    assert LinkHolds(w, w.homes[r]);
    assert Log(p.told) == log + Log(p.told)[|log|..];
    SetsGrow(log, Log(p.told)[|log|..]);
  }

  // ----- Exactly one answer -----

  lemma {:induction false} FiredIsGone(store: map<string, Stored>, steps: seq<Step>, j: nat, id: WaitId, w: World)
    requires j < |steps| && steps[j] == TimerFires(id) && Run(store, steps) == Some(w)
    requires Run(store, steps[..j]).Some? && id < Run(store, steps[..j]).value.master.nextWait
    ensures id !in w.master.timers
    decreases |steps|
  {
    hide Inv, Take, Enabled, Extends;
    var init, last := steps[..|steps| - 1], steps[|steps| - 1];
    RunPrefix(store, steps, |init|);
    var u := Run(store, init).value;
    RunKeeps(store, init);
    StepTimers(u, last);
    if j < |init| {
      assert init[..j] == steps[..j];
      FiredIsGone(store, init, j, id, u);
      RunExtends(store, init, j, Run(store, steps[..j]).value, u);
    }
  }

  /** A WAIT is pending or answered, once; it is answered as soon as its timer has fired. */
  lemma WaitAnsweredOnce(store: map<string, Stored>, steps: seq<Step>, i: nat, v: World, w: World)
    requires i < |steps| && steps[i].ClientWait?
    requires Run(store, steps[..i]) == Some(v) && Run(store, steps) == Some(w)
    ensures var id := v.master.nextWait;
            && Pending(w.master.waits, id) + Answered(w.master.answers, id) == 1
            && (TimerArmed(w.master, id) <==> Pending(w.master.waits, id) == 1)
            && ((exists j | i < j < |steps| :: steps[j] == TimerFires(id)) ==> Answered(w.master.answers, id) == 1)
  {
    hide Inv, WaitsHold, Run, Pending, Answered;
    var id := v.master.nextWait;
    WaitRecorded(store, steps, i, v, w);
    RunKeepsWaits(store, steps);
    assert Tickets(w.master, id) == 1;
    if exists j | i < j < |steps| :: steps[j] == TimerFires(id) {
      var j :| i < j < |steps| && steps[j] == TimerFires(id);
      RunPrefix(store, steps, j);
      assert steps[..j][..i] == steps[..i] && steps[..j][i] == steps[i];
      WaitRecorded(store, steps[..j], i, v, Run(store, steps[..j]).value);
      FiredIsGone(store, steps, j, id, w);
    }
  }

  // ----- When an ACK counts -----

  /**
   When a replica's next ACK reaches a WAIT that still lists it, the WAIT counts the replica exactly if
   at the time of asking every GETACK pushed to it had been answered and heard. Otherwise the ACK answers
   an older GETACK, and the replica is dropped uncounted although it will get there.
   */
  lemma AckCountsIff(store: map<string, Stored>, steps: seq<Step>, w: World, x: Waiting, r: ReplicaId, n: nat)
    requires Run(store, steps) == Some(w) && x in w.master.waits && r in x.waitlist && r in w.master.replicas
    requires r in w.homes && w.homes[r] in w.peers && w.peers[w.homes[r]].replica.says != []
    requires w.peers[w.homes[r]].replica.says[0] == AckMessage(n) && n < INT32_LIMIT
    ensures x.id in w.asked && r in w.asked[x.id].logs && r in w.asked[x.id].heard
    ensures r in UpdateWait(x, r, n).counted <==> |AcksOf(w.asked[x.id].logs[r])| <= w.asked[x.id].heard[r]
  {
    hide Inv, Run, AcksOf, AckMessage, Log, LinkInv, Pushed, ToStrings, Has;
    RunKeeps(store, steps);
    RunKeepsWaits(store, steps);
    RegisteredLink(w, r);
    assert WaitHolds(w, x);
    var c, log, k := w.homes[r], w.asked[x.id].logs[r], w.asked[x.id].heard[r];
    var p := w.peers[c];
    NextAck(w, r, n);
    if k < |p.acked| {
      AcksIncrease(Pushed(w, r), k, |p.acked|);
    }
    assert log <= log + [GETACK];
    AckReaches(Pushed(w, r), log, k);
  }

  /** The ACK a replica sends next answers the first GETACK that is not answered yet. */
  lemma NextAck(w: World, r: ReplicaId, n: nat)
    requires Inv(w) && r in w.master.replicas && r in w.homes && w.homes[r] in w.peers
    requires Pushed(w, r) != [] && w.peers[w.homes[r]].replica.says != []
    requires w.peers[w.homes[r]].replica.says[0] == AckMessage(n)
    ensures var acked := w.peers[w.homes[r]].acked;
            && AllPushes(Pushed(w, r)) && Acks(w, r) == acked <= AcksOf(Pushed(w, r))
            && |acked| < |AcksOf(Pushed(w, r))| && AcksOf(Pushed(w, r))[|acked|] == n
  {
    hide Inv, AcksOf, AckMessage, LinkInv, Construct, TryParse, InFlight;
    RegisteredLink(w, r);
    Counters(w, r);
    var c := w.homes[r];
    var p, out := w.peers[c], w.master.outbox[c];
    LinkNextSaid(p, out, Some(w.master.replicas[r]));
    AckMessageInjective(n, AcksOf(Log(p.told))[|p.acked|]);
    LogSplits(p, out);
    AcksGrow(Log(p.told), InFlight(p, out));
  }

  lemma AckMessageInjective(a: nat, b: nat)
    ensures AckMessage(a) == AckMessage(b) ==> a == b
  {
    hide TryParse, Print;
    if AckMessage(a) == AckMessage(b) {
      assert AckMessage(a).elements[2] == BulkString(Print(a)) && AckMessage(b).elements[2] == BulkString(Print(b));
      PrintInjective(a, b);
    }
  }
}
