/** What can always be brought to an end: from every state that a run reaches, there is a way on. */
module Progress {
  import opened Prelude
  import opened Messages
  import opened Delivery
  import opened Replicas
  import opened Replication
  import opened WaitTickets
  import opened WaitSoundness
  import opened ReplicationTheorems
  import opened Carriage
  import opened ByteWorlds
  import opened ByteRefinement

  /** A replica can hear all that was said to it; nothing else changes for the master. */
  lemma ReplicaCatchesUp(store: map<string, Stored>, steps: seq<Step>, w: World, c: Conn, restored: map<string, Stored>)
      returns (more: seq<Step>, t: World)
    requires Run(store, steps) == Some(w) && c in w.peers && w.peers[c].open
    ensures Run(store, steps + more) == Some(t) && forall s | s in more :: s == ReplicaHears(c, restored)
    ensures c in w.master.outbox && c in t.peers && c in t.master.outbox && t.master.outbox[c] == []
    ensures t.peers[c].open && t.peers[c].told == Said(w, c)
  {
    hide Run, ReplicaActsAll;
    OpenLink(store, steps, w, c);
    var out := w.master.outbox[c];
    more := ReplicaActsRefines(store, steps, w, c, |out|, restored);
    t := ReplicaActsAll(w, c, out[..|out|], restored);
    assert out[..|out|] == out && out[|out|..] == [];
  }

  /** The master can hear all that a replica said. */
  lemma MasterCatchesUp(store: map<string, Stored>, steps: seq<Step>, w: World, c: Conn, banner: string, dump: string)
      returns (more: seq<Step>, t: World)
    requires Run(store, steps) == Some(w) && c in w.peers && w.peers[c].open
    ensures Run(store, steps + more) == Some(t) && forall s | s in more :: s == MasterHears(c, banner, dump)
    ensures c in t.peers && t.peers[c].open && t.peers[c].replica.says == []
  {
    hide Run, MasterActsAll;
    OpenLink(store, steps, w, c);
    var says := w.peers[c].replica.says;
    more := MasterActsRefines(store, steps, w, c, |says|, banner, dump);
    t := MasterActsAll(w, c, says[..|says|], banner, dump);
    assert says[|says|..] == [];
  }

  /** Every pending WAIT has a timer that can fire, and that ends it. */
  lemma WaitEnds(store: map<string, Stored>, steps: seq<Step>, w: World, x: Waiting)
    requires Run(store, steps) == Some(w) && x in w.master.waits
    ensures Enabled(w, TimerFires(x.id))
    ensures var after := Take(w, TimerFires(x.id)).master;
            Pending(after.waits, x.id) == 0 && Answered(after.answers, x.id) == 1
  {
    hide Run, Inv, WaitsHold, WithoutWait, TimerReplies;
    RunKeepsWaits(store, steps);
    ListedIsPending(w.master.waits, x);
    assert Tickets(w.master, x.id) == if x.id < w.master.nextWait then 1 else 0;
    assert TimerArmed(w.master, x.id);
    TimerKeepsTickets(w.master, x.id);
    var after := FireTimer(w.master, x.id);
    assert Tickets(after, x.id) == 1;
    assert !TimerArmed(after, x.id);
    AtMostOne(after, x.id);
  }

  lemma {:induction false} ListedIsPending(ws: seq<Waiting>, x: Waiting)
    requires x in ws
    ensures Pending(ws, x.id) > 0
  {
    if ws[0] != x {
      assert x in ws[1..];
      ListedIsPending(ws[1..], x);
    }
  }

  lemma AtMostOne(ma: Master, id: WaitId)
    requires TicketsHold(ma) && !TimerArmed(ma, id) && Tickets(ma, id) == 1
    ensures Pending(ma.waits, id) == 0 && Answered(ma.answers, id) == 1
  {
    hide Pending, Answered;
    assert TimerArmed(ma, id) <==> Pending(ma.waits, id) == 1;
  }

  /** Over bytes too: once all is written and read, the replica has heard everything said to it. */
  lemma BytesCatchUp(store: map<string, Stored>, bytes: seq<ByteStep>, b: ByteWorld, c: Conn, restored: map<string, Stored>)
      returns (more: seq<ByteStep>, t: ByteWorld)
    requires ByteRun(store, bytes) == Some(b) && AlwaysFits(store, bytes) && (forall s | s in bytes :: ByteSuits(s)) && IsOpen(b, c)
    ensures |more| == 2 && more[0].WriteDown? && more[0].conn == c && more[1].ReplicaReads? && more[1].conn == c && more[1].restored == restored
    ensures ByteRun(store, bytes + more) == Some(t)
    ensures c in b.world.master.outbox && c in t.world.peers && t.world.peers[c].told == Said(b.world, c)
  {
    hide ByteRun, AlwaysFits, ByteSuits, Run, Suits, Carries, AllSuit, Flush, ReplicaActsAll;
    var steps := BytesRefine(store, bytes, b);
    CarriesChannel(b, c);
    RunSuits(store, steps, b.world);
    var all := WriteDown(c, |b.down[c].writeBuffer|);
    var mid := ByteTake(b, all);
    GoesOnBytes(store, bytes, b, all);
    WriteRefines(b, all);
    assert mid.down[c].writeBuffer == "";
    var read := ReplicaReads(c, |mid.down[c].wire|, restored);
    ReadAllBytes(store, steps, mid, c, restored);
    GoesOnBytes(store, bytes + [all], mid, read);
    more := [all, read];
    t := ByteTake(mid, read);
    assert bytes + [all] + [read] == bytes + more;
  }

  /** Reading all that is written hears all that was said. */
  lemma ReadAllBytes(store: map<string, Stored>, steps: seq<Step>, b: ByteWorld, c: Conn, restored: map<string, Stored>)
    requires Run(store, steps) == Some(b.world) && AllCarry(b) && AllSuit(b.world) && IsOpen(b, c) && b.down[c].writeBuffer == ""
    ensures var read := ReplicaReads(c, |b.down[c].wire|, restored);
            && ByteEnabled(b, read) && c in b.world.master.outbox
            && c in ByteTake(b, read).world.peers && ByteTake(b, read).world.peers[c].told == Said(b.world, c)
  {
    hide Run, Carries, Stream, Readable, Conserved, AllSuit, Flush, ReplicaActsAll, Completed;
    CarriesChannel(b, c);
    CarriesParts(b, c);
    SaidIsReadable(store, steps, b.world, c);
    var l, told := b.down[c], b.world.peers[c].told;
    StreamOpen(l, told, l.sent, ReplicaWants);
    ReadHears(l, told, |l.wire|, ReplicaWants);
    var after := LinkTake(l, Read(|l.wire|), ReplicaWants);
    var news := Completed(l.reader, after.reader);
    Drained(after, told + news, ReplicaWants);
    NextSaid(told, b.world.master.outbox[c], news);
    var hears := ReplicaActsRefines(store, steps, b.world, c, |news|, restored);
    FlushKeys(ReplicaActsAll(b.world, c, news, restored), b.down[c := after], b.up);
  }

  lemma GoesOnBytes(store: map<string, Stored>, bytes: seq<ByteStep>, b: ByteWorld, s: ByteStep)
    requires ByteRun(store, bytes) == Some(b) && ByteEnabled(b, s)
    ensures ByteRun(store, bytes + [s]) == Some(ByteTake(b, s))
  {
    hide ByteTake, ByteEnabled;
    assert (bytes + [s])[..|bytes|] == bytes;
  }

  lemma StreamOpen(l: Link, heard: seq<Message>, said: seq<Message>, wants: Expectation)
    requires Stream(l, heard, said, wants)
    ensures l.open
  {
    hide Conserved;
  }
}
