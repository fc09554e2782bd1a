/** Every run over bytes is a run over messages, and so keeps what replication promises. */
module ByteRefinement {
  import opened Prelude
  import opened Messages
  import opened Grammar
  import opened WireRoundTrip
  import opened Delivery
  import opened Replicas
  import opened Links
  import opened Replication
  import opened WaitSoundness
  import opened ReplicationTheorems
  import opened Carriage
  import opened ByteWorlds
  import opened WaitTheorems

  /** What is to be sent on a connection goes on what was sent, and can be read. */
  ghost predicate Ready(w: World, down: map<Conn, Link>, up: map<Conn, Link>, d: Conn) {
    && d in w.peers && d in w.master.outbox
    && Stream(LinkOf(down, d), w.peers[d].told, LinkOf(down, d).sent, ReplicaWants) && LinkOf(down, d).sent <= Said(w, d)
    && Stream(LinkOf(up, d), LinkOf(up, d).reader.heard, LinkOf(up, d).sent, MasterWants) && LinkOf(up, d).sent <= Uttered(w, up, d)
    && AllWireable(LinkOf(up, d).reader.heard) && AllWireable(w.peers[d].replica.says)
  }

  lemma FlushCarries(w: World, down: map<Conn, Link>, up: map<Conn, Link>, d: Conn)
    requires Ready(w, down, up, d)
    ensures Carries(Flush(w, down, up), d)
  {
    hide Stream, Sends, ReplicaWants, MasterWants, Wireable;
    SendsIs(LinkOf(down, d), w.peers[d].told, Said(w, d), ReplicaWants);
    SendsIs(LinkOf(up, d), LinkOf(up, d).reader.heard, Uttered(w, up, d), MasterWants);
    SentIs(Sends(LinkOf(up, d), Uttered(w, up, d), MasterWants), LinkOf(up, d).reader.heard, Uttered(w, up, d), MasterWants);
  }

  lemma SentIs(l: Link, heard: seq<Message>, said: seq<Message>, wants: Expectation)
    requires Stream(l, heard, said, wants)
    ensures l.sent == said && l.reader.heard == heard && l.open
  {
  }

  lemma PartWireable(heard: seq<Message>, sent: seq<Message>)
    requires heard <= sent && AllWireable(sent)
    ensures AllWireable(heard)
  {
    hide Wireable;
  }

  /** The parts of `Carries`. */
  lemma CarriesParts(b: ByteWorld, d: Conn)
    requires Carries(b, d)
    ensures d in b.down && d in b.up && d in b.world.master.outbox
    ensures LinkOf(b.down, d) == b.down[d] && b.down[d].sent == Said(b.world, d)
    ensures Stream(b.down[d], b.world.peers[d].told, b.down[d].sent, ReplicaWants)
    ensures LinkOf(b.up, d) == b.up[d] && b.up[d].sent == Uttered(b.world, b.up, d)
    ensures Stream(b.up[d], b.up[d].reader.heard, b.up[d].sent, MasterWants)
    ensures AllWireable(b.up[d].reader.heard) && AllWireable(b.up[d].sent)
  {
    hide Wireable, Conserved;
    PartWireable(b.up[d].reader.heard, b.up[d].sent);
  }

  /** A step that is no hearing, after which the streams of the open connections are those before it. */
  lemma ActRefines(store: map<string, Stored>, steps: seq<Step>, b: ByteWorld, s: Step, down: map<Conn, Link>, up: map<Conn, Link>)
    requires Run(store, steps) == Some(b.world) && AllCarry(b) && ByteEnabled(b, Act(s)) && Suits(s) && Fits(Take(b.world, s))
    requires forall x | x in steps :: Suits(x)
    requires var w := Take(b.world, s);
             forall d | d in w.peers && w.peers[d].open :: LinkOf(down, d) == LinkOf(b.down, d) && LinkOf(up, d) == LinkOf(b.up, d)
    ensures Run(store, steps + [s]) == Some(Take(b.world, s)) && AllCarry(Flush(Take(b.world, s), down, up))
  {
    hide Run, Inv, Enabled, Take, AllSuit, Carries, Ready, Flush, Suits, Fits, LinkOf;
    RunKeeps(store, steps);
    StepMore(store, steps, b.world, s);
    var w := Take(b.world, s);
    RunSuits(store, steps + [s], w);
    RunKeeps(store, steps + [s]);
    forall d | d in w.peers && w.peers[d].open ensures Carries(Flush(w, down, up), d) {
      OpenHasChannel(w, d);
      SaysAreWireable(store, steps + [s], w, d);
      if d in b.world.peers {
        ActIsQuiet(b.world, s, d);
        QuietIsReady(b, w, d);
      } else {
        OnlyJoins(b.world, s, d);
        NewIsReady(b, w, d);
      }
      ReadyHere(w, b, down, up, d);
      FlushCarries(w, down, up, d);
    }
    FlushKeys(w, down, up);
  }

  lemma ReadyHere(w: World, b: ByteWorld, down: map<Conn, Link>, up: map<Conn, Link>, d: Conn)
    requires Ready(w, b.down, b.up, d) && LinkOf(down, d) == LinkOf(b.down, d) && LinkOf(up, d) == LinkOf(b.up, d)
    ensures Ready(w, down, up, d)
  {
    hide Stream, Wireable;
  }

  /** A read that meets the end of the stream is a leave. */
  lemma EndRefines(store: map<string, Stored>, steps: seq<Step>, b: ByteWorld, s: ByteStep)
    requires Run(store, steps) == Some(b.world) && AllCarry(b) && ByteEnabled(b, s) && (s.ReplicaMeetsEnd? || s.MasterMeetsEnd?)
    requires Fits(ByteTake(b, s).world) && forall x | x in steps :: Suits(x)
    ensures Run(store, steps + [Step.Leave(s.conn)]) == Some(ByteTake(b, s).world) && AllCarry(ByteTake(b, s))
  {
    hide Run, Fits, AllCarry, Suits, LinkTake, Sends;
    var c, after := s.conn, DoLeave(b.world, s.conn);
    assert Suits(Step.Leave(c)) by { LeaveSuits(c); }
    assert !after.peers[c].open;
    if s.ReplicaMeetsEnd? {
      ActRefines(store, steps, b, Step.Leave(c), b.down[c := LinkTake(b.down[c], ReadEnd(s.count), ReplicaWants)], b.up);
    } else {
      ActRefines(store, steps, b, Step.Leave(c), b.down, b.up[c := LinkTake(b.up[c], ReadEnd(s.count), MasterWants)]);
    }
  }

  lemma LeaveSuits(c: Conn)
    ensures Suits(Step.Leave(c))
  {
  }

  lemma FlushKeys(w: World, down: map<Conn, Link>, up: map<Conn, Link>)
    ensures var after := Flush(w, down, up); after.world == w && after.down.Keys == after.up.Keys == w.peers.Keys
  {
    hide Sends;
  }

  lemma OpenHasChannel(w: World, d: Conn)
    requires Inv(w) && d in w.peers
    ensures d in w.master.outbox
  {
    InvRegistry(w);
    Registered(w, d);
  }

  lemma QuietIsReady(b: ByteWorld, w: World, d: Conn)
    requires d in b.world.peers && b.world.peers[d].open && Carries(b, d) && Quiet(b.world, w, d) && AllWireable(w.peers[d].replica.says)
    ensures Ready(w, b.down, b.up, d)
  {
    hide Stream, Wireable;
    CarriesParts(b, d);
  }

  lemma NewIsReady(b: ByteWorld, w: World, d: Conn)
    requires d !in b.down && d !in b.up && d in w.peers && d in w.master.outbox && w.peers[d].told == []
    requires AllWireable(w.peers[d].replica.says)
    ensures Ready(w, b.down, b.up, d)
  {
    hide Stream, Wireable;
    NewStream(ReplicaWants);
    NewStream(MasterWants);
    assert AllWireable([]);
  }

  lemma ReplicaReadsRefines(store: map<string, Stored>, steps: seq<Step>, b: ByteWorld, s: ByteStep) returns (more: seq<Step>)
    requires Run(store, steps) == Some(b.world) && AllCarry(b) && s.ReplicaReads? && ByteEnabled(b, s) && ByteSuits(s)
    requires Fits(b.world) && Fits(ByteTake(b, s).world) && forall x | x in steps :: Suits(x)
    ensures Run(store, steps + more) == Some(ByteTake(b, s).world) && AllCarry(ByteTake(b, s))
    ensures forall x | x in steps + more :: Suits(x)
  {
    hide Run, Inv, AllSuit, Carries, Ready, Flush, LinkTake, Readable, Stream, Uttered, Completed, ReplicaActed, ReplicaActsAll, Fits;
    var c, w, l := s.conn, b.world, LinkTake(b.down[s.conn], Read(s.count), ReplicaWants);
    var news := Completed(b.down[c].reader, l.reader);
    CarriesChannel(b, c);
    CarriesParts(b, c);
    RunSuits(store, steps, w);
    SaidIsReadable(store, steps, w, c);
    ReadHears(b.down[c], w.peers[c].told, s.count, ReplicaWants);
    NextSaid(w.peers[c].told, w.master.outbox[c], news);
    more := ReplicaActsRefines(store, steps, w, c, |news|, s.restored);
    var after := ReplicaActsAll(w, c, news, s.restored);
    FlushKeys(after, b.down[c := l], b.up);
    assert ByteTake(b, s).world == after;
    RunSuits(store, steps + more, after);
    RunKeeps(store, steps + more);
    forall d | d in after.peers && after.peers[d].open ensures Carries(Flush(after, b.down[c := l], b.up), d) {
      ActedPeers(w, after, c, |news|);
      OpenHasChannel(after, d);
      SaysAreWireable(store, steps + more, after, d);
      assert Carries(b, d);
      ReadIsReady(b, after, c, l, news, d);
      FlushCarries(after, b.down[c := l], b.up, d);
    }
  }

  lemma CarriesChannel(b: ByteWorld, c: Conn)
    requires AllCarry(b) && c in b.world.peers && b.world.peers[c].open
    ensures Carries(b, c) && c in b.world.master.outbox
  {
    hide Stream, Wireable;
  }

  /** The messages heard next are the first of those on their way. */
  lemma NextSaid(told: seq<Message>, out: seq<Message>, news: seq<Message>)
    requires told + news <= told + out
    ensures |news| <= |out| && news == out[..|news|]
  {
    assert forall i | 0 <= i < |news| :: (told + news)[|told| + i] == news[i] && (told + out)[|told| + i] == out[i];
  }

  lemma ActedPeers(w: World, after: World, c: Conn, n: nat)
    requires c in w.peers && c in w.master.outbox && n <= |w.master.outbox[c]| && ReplicaActed(w, after, c, n)
    ensures forall d | d in after.peers :: d in w.peers && after.peers[d].open == w.peers[d].open
  {
  }

  lemma ReadIsReady(b: ByteWorld, after: World, c: Conn, l: Link, news: seq<Message>, d: Conn)
    requires c in b.world.peers && c in b.world.master.outbox && Carries(b, c) && Carries(b, d) && d in after.peers && d in after.master.outbox
    requires |news| <= |b.world.master.outbox[c]| && news == b.world.master.outbox[c][..|news|]
    requires ReplicaActed(b.world, after, c, |news|)
    requires Stream(l, b.world.peers[c].told + news, b.down[c].sent, ReplicaWants)
    requires AllWireable(after.peers[d].replica.says)
    ensures Ready(after, b.down[c := l], b.up, d)
  {
    hide Carries, Wireable, Conserved;
    CarriesParts(b, d);
    CarriesParts(b, c);
    if d == c {
      var out := b.world.master.outbox[c];
      assert b.world.peers[c].told + news + out[|news|..] == b.world.peers[c].told + out;
      UtteredMore(b.up[c].reader.heard, b.world.peers[c].replica.says, after.peers[c].replica.says);
    }
  }

  lemma UtteredMore(heard: seq<Message>, says: seq<Message>, more: seq<Message>)
    requires says <= more
    ensures heard + says <= heard + more
  {
  }

  lemma MasterReadsRefines(store: map<string, Stored>, steps: seq<Step>, b: ByteWorld, s: ByteStep) returns (more: seq<Step>)
    requires Run(store, steps) == Some(b.world) && AllCarry(b) && s.MasterReads? && ByteEnabled(b, s) && ByteSuits(s)
    requires Fits(b.world) && Fits(ByteTake(b, s).world) && forall x | x in steps :: Suits(x)
    ensures Run(store, steps + more) == Some(ByteTake(b, s).world) && AllCarry(ByteTake(b, s))
    ensures forall x | x in steps + more :: Suits(x)
  {
    hide Run, Inv, AllSuit, Carries, Ready, Flush, LinkTake, Readable, Stream, Completed, MasterActed, MasterActsAll, Wireable, Fits, AnswerSuits;
    var c, w, l := s.conn, b.world, LinkTake(b.up[s.conn], Read(s.count), MasterWants);
    var heard, news := b.up[c].reader.heard, Completed(b.up[c].reader, l.reader);
    CarriesChannel(b, c);
    CarriesParts(b, c);
    MasterReadable(b.up[c].sent);
    ReadHears(b.up[c], heard, s.count, MasterWants);
    NextSaid(heard, w.peers[c].replica.says, news);
    more := MasterActsRefines(store, steps, w, c, |news|, s.banner, s.dump);
    var after := MasterActsAll(w, c, news, s.banner, s.dump);
    FlushKeys(after, b.down, b.up[c := l]);
    assert ByteTake(b, s).world == after;
    RunSuits(store, steps + more, after);
    RunKeeps(store, steps + more);
    forall d | d in after.peers && after.peers[d].open ensures Carries(Flush(after, b.down, b.up[c := l]), d) {
      HeardPeers(w, after, c, |news|);
      OpenHasChannel(after, d);
      SaysAreWireable(store, steps + more, after, d);
      assert Carries(b, d);
      HeardIsReady(b, after, c, l, news, d);
      FlushCarries(after, b.down, b.up[c := l], d);
    }
  }

  lemma MasterReadable(sent: seq<Message>)
    requires AllWireable(sent)
    ensures Readable(sent, [], MasterWants)
  {
    hide Wireable;
  }

  lemma HeardPeers(w: World, after: World, c: Conn, n: nat)
    requires c in w.peers && n <= |w.peers[c].replica.says| && MasterActed(w, after, c, n)
    ensures forall d | d in after.peers :: d in w.peers && after.peers[d].open == w.peers[d].open
  {
  }

  lemma HeardIsReady(b: ByteWorld, after: World, c: Conn, l: Link, news: seq<Message>, d: Conn)
    requires c in b.world.peers && Carries(b, c) && Carries(b, d) && d in after.peers && d in after.master.outbox
    requires |news| <= |b.world.peers[c].replica.says| && news == b.world.peers[c].replica.says[..|news|]
    requires MasterActed(b.world, after, c, |news|)
    requires Stream(l, b.up[c].reader.heard + news, b.up[c].sent, MasterWants)
    requires AllWireable(after.peers[d].replica.says)
    ensures Ready(after, b.down, b.up[c := l], d)
  {
    hide Carries, Wireable, Conserved, Stream;
    CarriesParts(b, d);
    CarriesParts(b, c);
    UtteredMore(b.world.peers[d].told, b.world.master.outbox[d], after.master.outbox[d]);
    if d == c {
      var heard, says := b.up[c].reader.heard, b.world.peers[c].replica.says;
      assert heard + news + says[|news|..] == heard + says;
      SentIs(l, heard + news, b.up[c].sent, MasterWants);
      assert heard + news <= heard + says;
      PartWireable(heard + news, b.up[c].sent);
    }
  }

  lemma WriteRefines(b: ByteWorld, s: ByteStep)
    requires AllCarry(b) && ByteEnabled(b, s) && (s.WriteDown? || s.WriteUp?)
    ensures AllCarry(ByteTake(b, s)) && ByteTake(b, s).world == b.world
  {
    hide Carries, Conserved, Wireable, LinkTake;
    var c, after := s.conn, ByteTake(b, s);
    assert Carries(b, c);
    CarriesParts(b, c);
    if s.WriteDown? {
      WriteKeeps(b.down[c], b.world.peers[c].told, s.count, ReplicaWants);
    } else {
      WriteKeeps(b.up[c], b.up[c].reader.heard, s.count, MasterWants);
    }
    forall d | d in b.world.peers && b.world.peers[d].open ensures Carries(after, d) {
      assert Carries(b, d);
      WriteCarries(b, after, c, d);
    }
  }

  lemma WriteCarries(b: ByteWorld, after: ByteWorld, c: Conn, d: Conn)
    requires Carries(b, d) && after.world == b.world && c in b.down && c in b.up && c in after.down && c in after.up
    requires after.down == b.down[c := after.down[c]] && after.up == b.up[c := after.up[c]]
    requires after.down[c] == b.down[c] || (c in b.world.peers && Stream(after.down[c], b.world.peers[c].told, b.down[c].sent, ReplicaWants))
    requires after.up[c] == b.up[c] || Stream(after.up[c], b.up[c].reader.heard, b.up[c].sent, MasterWants)
    ensures Carries(after, d)
  {
    hide Conserved, Wireable;
  }

  lemma ByteStepRefines(store: map<string, Stored>, steps: seq<Step>, b: ByteWorld, s: ByteStep) returns (more: seq<Step>)
    requires Run(store, steps) == Some(b.world) && AllCarry(b) && ByteEnabled(b, s) && ByteSuits(s)
    requires Fits(b.world) && Fits(ByteTake(b, s).world) && forall x | x in steps :: Suits(x)
    ensures Run(store, steps + more) == Some(ByteTake(b, s).world) && AllCarry(ByteTake(b, s))
    ensures forall x | x in steps + more :: Suits(x)
  {
    hide Run, Fits, AllCarry, Take, Enabled, Suits, AnswerSuits;
    if s.Act? {
      FlushKeys(Take(b.world, s.step), b.down, b.up);
      hide Flush;
      ActRefines(store, steps, b, s.step, b.down, b.up);
      more := [s.step];
    } else if s.ReplicaMeetsEnd? || s.MasterMeetsEnd? {
      EndRefines(store, steps, b, s);
      more := [Step.Leave(s.conn)];
      LeaveSuits(s.conn);
    } else if s.ReplicaReads? {
      more := ReplicaReadsRefines(store, steps, b, s);
    } else if s.MasterReads? {
      more := MasterReadsRefines(store, steps, b, s);
    } else {
      WriteRefines(b, s);
      more := [];
      assert steps + more == steps;
    }
  }

  /** A run over bytes goes on as the run over messages it is. */
  lemma {:induction false} BytesGoOn(store: map<string, Stored>, bytes: seq<ByteStep>, i: nat, early: seq<Step>, v: ByteWorld, b: ByteWorld)
      returns (more: seq<Step>)
    requires i <= |bytes| && ByteRun(store, bytes[..i]) == Some(v) && ByteRun(store, bytes) == Some(b)
    requires Run(store, early) == Some(v.world) && AllCarry(v) && forall x | x in early :: Suits(x)
    requires AlwaysFits(store, bytes) && forall s | s in bytes :: ByteSuits(s)
    ensures Run(store, early + more) == Some(b.world) && AllCarry(b)
    ensures forall x | x in early + more :: Suits(x)
    decreases |bytes|
  {
    hide Run, ByteTake, ByteEnabled, Fits, AllCarry, Suits, ByteSuits;
    if i == |bytes| {
      more := [];
      assert bytes[..i] == bytes && early + more == early;
    } else {
      var init := bytes[..|bytes| - 1];
      var before := ByteRun(store, init).value;
      assert forall j | 0 <= j <= |init| :: init[..j] == bytes[..j];
      assert bytes[..|bytes|] == bytes && init[..|init|] == init;
      var rest := BytesGoOn(store, init, i, early, v, before);
      var next := ByteStepRefines(store, early + rest, before, bytes[|bytes| - 1]);
      more := rest + next;
      assert early + rest + next == early + more;
    }
  }

  /**
   A run over bytes, with any write counts and read chunks in any order, is a run over messages, if what the
   steps let somebody say can be carried: what either end has heard is what its world says, and nothing is
   rejected.
   */
  lemma BytesRefine(store: map<string, Stored>, bytes: seq<ByteStep>, b: ByteWorld) returns (steps: seq<Step>)
    requires ByteRun(store, bytes) == Some(b) && AlwaysFits(store, bytes) && forall s | s in bytes :: ByteSuits(s)
    ensures Run(store, steps) == Some(b.world) && AllCarry(b)
    ensures forall x | x in steps :: Suits(x)
  {
    hide AllCarry, AlwaysFits, Suits, ByteSuits;
    NothingCarried(store);
    assert bytes[..0] == [] && ByteRun(store, []) == Some(ByteWorld(Start(store), map[], map[]));
    steps := BytesGoOn(store, bytes, 0, [], ByteWorld(Start(store), map[], map[]), b);
    assert [] + steps == steps;
  }

  lemma NothingCarried(store: map<string, Stored>)
    ensures AllCarry(ByteWorld(Start(store), map[], map[]))
  {
  }

  // ----- What that gives -----

  /** Once the bytes are there, every message was heard. */
  lemma Drained(l: Link, heard: seq<Message>, wants: Expectation)
    requires Stream(l, heard, l.sent, wants) && Readable(l.sent, [], wants) && l.wire == "" && l.writeBuffer == ""
    ensures heard == l.sent
  {
    hide One, Drain, Readable, ToString;
    assert l.dropped == "" && l.taken + "" + "" + "" == l.taken;
    var k, unread := PartHeard(l.sent, [], l.taken, wants);
    assert [] + l.sent[..k] == l.sent && k == |l.sent|;
  }

  /**
   Over bytes, a replica in command mode has applied the first SETs the master executed since it started to
   write to it, in order; all of them as soon as no byte is on its way to it.
   */
  lemma BytesReplicate(store: map<string, Stored>, bytes: seq<ByteStep>, b: ByteWorld, c: Conn) returns (k: nat)
    requires ByteRun(store, bytes) == Some(b) && AlwaysFits(store, bytes) && forall s | s in bytes :: ByteSuits(s)
    requires IsOpen(b, c) && b.world.peers[c].replica.state.WaitServerCommands?
    ensures var w, p, l := b.world, b.world.peers[c], b.down[c];
            && p.start + k <= |w.written| && p.replica.store == ApplyAll(p.base, w.written[p.start..p.start + k])
            && (l.wire == "" && l.writeBuffer == "" ==> p.start + k == |w.written|)
            && (l.wire == "" && l.writeBuffer == "" && p.base == ApplyAll(w.initial, w.written[..p.start]) ==>
                  p.replica.store == w.master.store)
  {
    hide ByteRun, AlwaysFits, ByteSuits, Run, Suits, Carries, Stream, ApplyAll, Readable;
    var steps := BytesRefine(store, bytes, b);
    CarriesChannel(b, c);
    CarriesParts(b, c);
    k := PrefixReplicated(store, steps, b.world, c);
    if b.down[c].wire == "" && b.down[c].writeBuffer == "" {
      RunSuits(store, steps, b.world);
      SaidIsReadable(store, steps, b.world, c);
      Drained(b.down[c], b.world.peers[c].told, ReplicaWants);
      AllTold(b.world.peers[c].told, b.world.master.outbox[c]);
    }
  }

  lemma AllTold(told: seq<Message>, out: seq<Message>)
    requires told == told + out
    ensures out == []
  {
    assert |told + out| == |told| + |out|;
  }

  /**
   Over bytes, the answer to a WAIT counts distinct replicas registered when it was asked, each of which has
   by then read and processed everything that had been pushed to it; and as many as `WaitIsSound` says.
   */
  lemma BytesWait(store: map<string, Stored>, bytes: seq<ByteStep>, i: nat, v: ByteWorld, b: ByteWorld, a: Answer)
    requires ByteRun(store, bytes) == Some(b) && AlwaysFits(store, bytes) && forall s | s in bytes :: ByteSuits(s)
    requires i < |bytes| && bytes[i].Act? && bytes[i].step.ClientWait? && ByteRun(store, bytes[..i]) == Some(v)
    requires a in b.world.master.answers && a.id == v.world.master.nextWait
    ensures var was, w := v.world, b.world;
            && a.counted <= was.master.replicas.Keys <= was.homes.Keys && |a.counted| == a.count <= |was.master.replicas|
            && (a.byTimer || a.count >= Min(bytes[i].step.count, |was.master.replicas|))
            && (forall r | r in a.counted :: was.homes[r] in w.peers && Processed(w.peers[was.homes[r]], Pushed(was, r)))
  {
    hide AlwaysFits, ByteSuits, Run, Suits, AllCarry, Processed, Pushed, ByteTake, ByteEnabled, Fits;
    var upTo := bytes[..i + 1];
    ByteRunPrefix(store, bytes, i + 1);
    PartFits(store, bytes, i);
    PartFits(store, bytes, i + 1);
    assert upTo[..i] == bytes[..i] && upTo[|upTo| - 1] == bytes[i];
    var next := ByteRun(store, upTo).value;
    var early := BytesRefine(store, bytes[..i], v);
    var s := bytes[i].step;
    WaitIsTaken(v, bytes[i], next);
    StepMore(store, early, v.world, s);
    var mid := early + [s];
    SuitsMore(early, s);
    CarryNext(store, upTo, next);
    var rest := BytesGoOn(store, bytes, i + 1, mid, next, b);
    var all := mid + rest;
    assert all[..|early|] == early && all[|early|] == s;
    WaitIsSound(store, all, |early|, v.world, b.world, a);
  }

  lemma CarryNext(store: map<string, Stored>, bytes: seq<ByteStep>, b: ByteWorld)
    requires ByteRun(store, bytes) == Some(b) && AlwaysFits(store, bytes) && forall s | s in bytes :: ByteSuits(s)
    ensures AllCarry(b)
  {
    hide AllCarry, AlwaysFits, ByteSuits, ByteRun, Run, Suits;
    var steps := BytesRefine(store, bytes, b);
  }

  lemma SuitsMore(early: seq<Step>, s: Step)
    requires (forall x | x in early :: Suits(x)) && s.ClientWait?
    ensures forall x | x in early + [s] :: Suits(x)
  {
  }

  lemma WaitIsTaken(v: ByteWorld, s: ByteStep, next: ByteWorld)
    requires s.Act? && s.step.ClientWait? && ByteEnabled(v, s) && next == ByteTake(v, s)
    ensures Enabled(v.world, s.step) && next.world == Take(v.world, s.step)
  {
    hide Take, Sends;
  }

  lemma {:induction false} ByteRunPrefix(store: map<string, Stored>, bytes: seq<ByteStep>, i: nat)
    requires i <= |bytes| && ByteRun(store, bytes).Some?
    ensures ByteRun(store, bytes[..i]).Some?
    decreases |bytes|
  {
    hide ByteTake, ByteEnabled;
    if i == |bytes| {
      assert bytes[..i] == bytes;
    } else {
      ByteRunPrefix(store, bytes[..|bytes| - 1], i);
      assert bytes[..|bytes| - 1][..i] == bytes[..i];
    }
  }

  lemma PartFits(store: map<string, Stored>, bytes: seq<ByteStep>, i: nat)
    requires i <= |bytes| && AlwaysFits(store, bytes)
    ensures AlwaysFits(store, bytes[..i])
  {
    hide Fits, ByteRun;
    assert forall j | 0 <= j <= i :: bytes[..i][..j] == bytes[..j];
  }
}
