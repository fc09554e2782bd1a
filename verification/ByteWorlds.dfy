/**
 Replication over bytes: every connection is two streams of bytes, cut anywhere, and a talker acts on what
 its parser reads. Every run over bytes is a run over messages.
 */
module ByteWorlds {
  import opened Prelude
  import opened Messages
  import opened Grammar
  import opened WireRoundTrip
  import opened Delivery
  import opened Commands
  import opened Replicas
  import opened Links
  import opened Replication
  import opened ReplicationTheorems
  import opened Carriage

  /**
   `down` are the streams to the replicas, `up` those to the master. What `world` says of messages on
   their way is history here: the bytes are in the streams, and nobody looks at the messages.
   */
  datatype ByteWorld = ByteWorld(world: World, down: map<Conn, Link>, up: map<Conn, Link>)

  datatype ByteStep =
    | Act(step: Step)
    | WriteDown(conn: Conn, count: nat)
    | WriteUp(conn: Conn, count: nat)
    | ReplicaReads(conn: Conn, count: nat, restored: map<string, Stored>)
    | MasterReads(conn: Conn, count: nat, banner: string, dump: string)
    | ReplicaMeetsEnd(conn: Conn, count: nat)
    | MasterMeetsEnd(conn: Conn, count: nat)

  function Tail(ms: seq<Message>): seq<Message> {
    if ms == [] then [] else ms[1..]
  }

  /** A replica acts on a message that was read; it takes the place of the first one on its way. */
  function ReplicaActs(w: World, c: Conn, m: Message, restored: map<string, Stored>): World {
    if c !in w.peers || c !in w.master.outbox then w
    else DoReplicaHears(w.(master := w.master.(outbox := w.master.outbox[c := [m] + Tail(w.master.outbox[c])])), c, restored)
  }

  /** The master acts on a message that was read. */
  function MasterActs(w: World, c: Conn, m: Message, banner: string, dump: string): World {
    if c !in w.peers || c !in w.master.outbox then w
    else
      var p := w.peers[c];
      DoMasterHears(w.(peers := w.peers[c := p.(replica := p.replica.(says := [m] + Tail(p.replica.says)))]), c, banner, dump)
  }

  function ReplicaActsAll(w: World, c: Conn, ms: seq<Message>, restored: map<string, Stored>): World
    decreases |ms|
  {
    if ms == [] then w else ReplicaActsAll(ReplicaActs(w, c, ms[0], restored), c, ms[1..], restored)
  }

  function MasterActsAll(w: World, c: Conn, ms: seq<Message>, banner: string, dump: string): World
    decreases |ms|
  {
    if ms == [] then w else MasterActsAll(MasterActs(w, c, ms[0], banner, dump), c, ms[1..], banner, dump)
  }

  /** Sends what is said beyond the messages sent so far. */
  function Sends(l: Link, said: seq<Message>, wants: Expectation): Link {
    if l.sent <= said then SendAll(l, said[|l.sent|..], wants) else l
  }

  function SendAll(l: Link, ms: seq<Message>, wants: Expectation): Link
    decreases |ms|
  {
    if ms == [] then l else SendAll(LinkTake(l, Send(ms[0]), wants), ms[1..], wants)
  }

  function LinkOf(links: map<Conn, Link>, c: Conn): Link {
    if c in links then links[c] else NewLink
  }

  /** All a replica has said: what was read on its stream, and the rest. */
  function Uttered(w: World, up: map<Conn, Link>, c: Conn): seq<Message>
    requires c in w.peers
  {
    LinkOf(up, c).reader.heard + w.peers[c].replica.says
  }

  /** Everybody writes what it has said into its stream. */
  function Flush(w: World, down: map<Conn, Link>, up: map<Conn, Link>): ByteWorld {
    ByteWorld(w,
              map c | c in w.peers :: if c in w.master.outbox then Sends(LinkOf(down, c), Said(w, c), ReplicaWants) else LinkOf(down, c),
              map c | c in w.peers :: Sends(LinkOf(up, c), Uttered(w, up, c), MasterWants))
  }

  /** The messages a read completes. */
  function Completed(before: Reader, after: Reader): seq<Message> {
    if |before.heard| <= |after.heard| then after.heard[|before.heard|..] else []
  }

  predicate ByteEnabled(b: ByteWorld, s: ByteStep) {
    match s
    case Act(step) => !step.MasterHears? && !step.ReplicaHears? && Enabled(b.world, step)
    case WriteDown(c, n) => IsOpen(b, c) && n <= |b.down[c].writeBuffer|
    case WriteUp(c, n) => IsOpen(b, c) && n <= |b.up[c].writeBuffer|
    case ReplicaReads(c, n, _) => IsOpen(b, c) && b.down[c].open && n <= |b.down[c].wire|
    case MasterReads(c, n, _, _) => IsOpen(b, c) && b.up[c].open && n <= |b.up[c].wire|
    case ReplicaMeetsEnd(c, n) => IsOpen(b, c) && b.down[c].open && n <= |b.down[c].wire|
    case MasterMeetsEnd(c, n) => IsOpen(b, c) && b.up[c].open && n <= |b.up[c].wire|
  }

  predicate IsOpen(b: ByteWorld, c: Conn) {
    c in b.world.peers && b.world.peers[c].open && c in b.down && c in b.up
  }

  /**
   One step over bytes; a talker acts on each message that its parser completes, in order. A read that meets the
   end of the stream closes the connection, and what it brought is lost.
   */
  function ByteTake(b: ByteWorld, s: ByteStep): ByteWorld
    requires ByteEnabled(b, s)
  {
    match s
    case Act(step) => Flush(Take(b.world, step), b.down, b.up)
    case WriteDown(c, n) => b.(down := b.down[c := LinkTake(b.down[c], Write(n), ReplicaWants)])
    case WriteUp(c, n) => b.(up := b.up[c := LinkTake(b.up[c], Write(n), MasterWants)])
    case ReplicaReads(c, n, restored) =>
      var l := LinkTake(b.down[c], Read(n), ReplicaWants);
      Flush(ReplicaActsAll(b.world, c, Completed(b.down[c].reader, l.reader), restored), b.down[c := l], b.up)
    case MasterReads(c, n, banner, dump) =>
      var l := LinkTake(b.up[c], Read(n), MasterWants);
      Flush(MasterActsAll(b.world, c, Completed(b.up[c].reader, l.reader), banner, dump), b.down, b.up[c := l])
    case ReplicaMeetsEnd(c, n) => Flush(DoLeave(b.world, c), b.down[c := LinkTake(b.down[c], ReadEnd(n), ReplicaWants)], b.up)
    case MasterMeetsEnd(c, n) => Flush(DoLeave(b.world, c), b.down, b.up[c := LinkTake(b.up[c], ReadEnd(n), MasterWants)])
  }

  function ByteRun(store: map<string, Stored>, steps: seq<ByteStep>): Option<ByteWorld>
    decreases |steps|
  {
    if steps == [] then Some(ByteWorld(Start(store), map[], map[]))
    else
      match ByteRun(store, steps[..|steps| - 1])
      case Some(before) =>
        if ByteEnabled(before, steps[|steps| - 1]) then Some(ByteTake(before, steps[|steps| - 1])) else None
      case None => None
  }

  // ----- What the streams hold -----

  ghost predicate AlwaysFits(store: map<string, Stored>, steps: seq<ByteStep>) {
    forall i | 0 <= i <= |steps| && ByteRun(store, steps[..i]).Some? :: Fits(ByteRun(store, steps[..i]).value.world)
  }

  predicate ByteSuits(s: ByteStep) {
    match s
    case Act(step) => Suits(step)
    case MasterReads(_, _, banner, dump) => AnswerSuits(banner, dump)
    case _ => true
  }

  /** A stream that has lost nothing, of which `heard` was read and `said` was sent. */
  ghost predicate Stream(l: Link, heard: seq<Message>, said: seq<Message>, wants: Expectation) {
    l.open && Conserved(l, wants) && l.sent == said && l.reader.Reading? && l.reader.heard == heard
  }

  /** What holds of one open connection: the messages of the world are those of the streams. */
  ghost predicate Carries(b: ByteWorld, c: Conn) {
    && c in b.world.peers && c in b.world.master.outbox && c in b.down && c in b.up
    && Stream(b.down[c], b.world.peers[c].told, Said(b.world, c), ReplicaWants)
    && Stream(b.up[c], b.up[c].reader.heard, Uttered(b.world, b.up, c), MasterWants)
    && AllWireable(b.up[c].sent)
  }

  ghost predicate AllCarry(b: ByteWorld) {
    b.down.Keys == b.up.Keys == b.world.peers.Keys && forall c | c in b.world.peers && b.world.peers[c].open :: Carries(b, c)
  }

  // ----- Streams -----

  lemma {:induction false} SendAllIs(l: Link, ms: seq<Message>, wants: Expectation)
    requires Conserved(l, wants)
    ensures var after := SendAll(l, ms, wants);
            && Conserved(after, wants) && after.sent == l.sent + ms
            && after.reader == l.reader && after.open == l.open
    decreases |ms|
  {
    hide Conserved, ToString;
    if ms == [] {
      assert l.sent + [] == l.sent;
    } else {
      StepConserves(l, Send(ms[0]), wants);
      SendAllIs(LinkTake(l, Send(ms[0]), wants), ms[1..], wants);
      assert l.sent + [ms[0]] + ms[1..] == l.sent + ms;
    }
  }

  /** Sending what was said since. */
  lemma SendsIs(l: Link, heard: seq<Message>, said: seq<Message>, wants: Expectation)
    requires Stream(l, heard, l.sent, wants) && l.sent <= said
    ensures Stream(Sends(l, said, wants), heard, said, wants)
  {
    hide Conserved, SendAll;
    SendAllIs(l, said[|l.sent|..], wants);
    assert l.sent + said[|l.sent|..] == said;
  }

  lemma NewStream(wants: Expectation)
    ensures Stream(NewLink, [], [], wants)
  {
    hide One;
    EmptyStream([], wants);
  }

  lemma {:induction false} DrainGrows(heard: seq<Message>, unread: string, wants: Expectation)
    ensures heard <= Drain(heard, unread, wants).heard
    decreases |unread|
  {
    var r := One(unread, wants(heard), wants(heard));
    if r.Done? {
      DrainGrows(heard + [r.value], r.rest, wants);
    }
  }

  /** A read hears the next of the messages sent, however the bytes are cut. */
  lemma ReadHears(l: Link, heard: seq<Message>, n: nat, wants: Expectation)
    requires Stream(l, heard, l.sent, wants) && Readable(l.sent, [], wants) && n <= |l.wire|
    ensures var after := LinkTake(l, Read(n), wants);
            var news := Completed(l.reader, after.reader);
            && Stream(after, heard + news, l.sent, wants) && heard + news <= l.sent
  {
    hide One, Drain, Readable, ToString;
    var after := LinkTake(l, Read(n), wants);
    StepConserves(l, Read(n), wants);
    assert after.taken <= ToStrings(l.sent) by {
      assert after.dropped == "" && after.taken + "" == after.taken;
    }
    var k, unread := PartHeard(l.sent, [], after.taken, wants);
    assert [] + l.sent[..k] == l.sent[..k];
    DrainGrows(heard, l.reader.unread + l.wire[..n], wants);
    assert heard + after.reader.heard[|heard|..] == after.reader.heard;
  }

  lemma WriteKeeps(l: Link, heard: seq<Message>, n: nat, wants: Expectation)
    requires Stream(l, heard, l.sent, wants) && n <= |l.writeBuffer|
    ensures Stream(LinkTake(l, Write(n), wants), heard, l.sent, wants)
  {
    hide Conserved;
    StepConserves(l, Write(n), wants);
  }

  // ----- What acting on messages does to the world -----

  /** A replica that hears a message says more, and keeps its connection. */
  lemma SaysMore(p: Peer, m: Message, restored: map<string, Stored>)
    ensures var after := PeerHears(p, m, restored);
            p.replica.says <= after.replica.says && after.open == p.open && after.told == p.told + [m]
  {
    hide Construct, TryParse, ToLower, ToString, AckMessage;
  }

  lemma ReplicaActsIsHears(w: World, c: Conn, restored: map<string, Stored>)
    requires c in w.peers && c in w.master.outbox && w.master.outbox[c] != []
    ensures ReplicaActs(w, c, w.master.outbox[c][0], restored) == DoReplicaHears(w, c, restored)
  {
    hide PeerHears;
    var out := w.master.outbox[c];
    assert [out[0]] + Tail(out) == out;
    assert w.master.outbox[c := out] == w.master.outbox;
  }

  lemma MasterActsIsHears(w: World, c: Conn, banner: string, dump: string)
    requires c in w.peers && c in w.master.outbox && w.peers[c].replica.says != []
    ensures MasterActs(w, c, w.peers[c].replica.says[0], banner, dump) == DoMasterHears(w, c, banner, dump)
  {
    hide DoMasterHears;
    var p := w.peers[c];
    assert [p.replica.says[0]] + Tail(p.replica.says) == p.replica.says;
    assert w.peers[c := p] == w.peers;
  }

  lemma StepMore(store: map<string, Stored>, steps: seq<Step>, w: World, s: Step)
    requires Run(store, steps) == Some(w) && Enabled(w, s)
    ensures Run(store, steps + [s]) == Some(Take(w, s))
  {
    hide Take, Enabled;
    assert (steps + [s])[..|steps|] == steps;
  }

  /** The world after a replica acted on messages: only its connection has changed. */
  ghost predicate ReplicaActed(w: World, after: World, c: Conn, n: nat)
    requires c in w.peers && c in w.master.outbox && n <= |w.master.outbox[c]|
  {
    && after.peers.Keys == w.peers.Keys && c in after.peers && after.peers == w.peers[c := after.peers[c]] && after.peers[c].open == w.peers[c].open
    && after.peers[c].told == w.peers[c].told + w.master.outbox[c][..n]
    && after.master.outbox == w.master.outbox[c := w.master.outbox[c][n..]]
    && w.peers[c].replica.says <= after.peers[c].replica.says
  }

  /** Acting on the next messages said is hearing them. */
  lemma {:induction false} ReplicaActsRefines(store: map<string, Stored>, steps: seq<Step>, w: World, c: Conn, n: nat,
                                              restored: map<string, Stored>) returns (more: seq<Step>)
    requires Run(store, steps) == Some(w) && c in w.peers && w.peers[c].open
    requires c in w.master.outbox && n <= |w.master.outbox[c]|
    ensures var after := ReplicaActsAll(w, c, w.master.outbox[c][..n], restored);
            Run(store, steps + more) == Some(after) && ReplicaActed(w, after, c, n)
    ensures forall s | s in more :: s == ReplicaHears(c, restored)
    decreases n
  {
    hide Run, DoReplicaHears, ReplicaActs;
    var out := w.master.outbox[c];
    if n == 0 {
      more := [];
      assert steps + more == steps && out[..0] == [] && out[0..] == out;
      NothingActed(w, c);
    } else {
      var s := ReplicaHears(c, restored);
      StepMore(store, steps, w, s);
      var next := DoReplicaHears(w, c, restored);
      ReplicaActsIsHears(w, c, restored);
      OneActed(w, c, restored);
      var rest := ReplicaActsRefines(store, steps + [s], next, c, n - 1, restored);
      more := [s] + rest;
      assert steps + [s] + rest == steps + more;
      assert out[..n][0] == out[0] && out[..n][1..] == out[1..][..n - 1];
      ActedTwice(w, next, ReplicaActsAll(w, c, out[..n], restored), c, n);
    }
  }

  lemma NothingActed(w: World, c: Conn)
    requires c in w.peers && c in w.master.outbox
    ensures ReplicaActed(w, w, c, 0)
  {
    assert w.peers[c := w.peers[c]] == w.peers && w.master.outbox[c := w.master.outbox[c]] == w.master.outbox;
    assert w.peers[c].told + [] == w.peers[c].told;
  }

  lemma OneActed(w: World, c: Conn, restored: map<string, Stored>)
    requires c in w.peers && c in w.master.outbox && w.master.outbox[c] != []
    ensures ReplicaActed(w, DoReplicaHears(w, c, restored), c, 1)
  {
    hide PeerHears;
    SaysMore(w.peers[c], w.master.outbox[c][0], restored);
  }

  lemma ActedTwice(w: World, next: World, after: World, c: Conn, n: nat)
    requires c in w.peers && c in w.master.outbox && 0 < n <= |w.master.outbox[c]| && ReplicaActed(w, next, c, 1)
    requires ReplicaActed(next, after, c, n - 1)
    ensures ReplicaActed(w, after, c, n)
  {
    var out := w.master.outbox[c];
    assert w.peers[c].told + out[..1] + out[1..][..n - 1] == w.peers[c].told + out[..n];
    assert out[1..][n - 1..] == out[n..];
  }

  /** The world after the master acted on messages: those are gone, and it may have answered. */
  ghost predicate MasterActed(w: World, after: World, c: Conn, n: nat)
    requires c in w.peers && n <= |w.peers[c].replica.says|
  {
    && after.peers.Keys == w.peers.Keys && after.master.outbox.Keys == w.master.outbox.Keys
    && (forall d | d in w.peers :: after.peers[d].open == w.peers[d].open && after.peers[d].told == w.peers[d].told)
    && (forall d | d in w.peers && d != c :: after.peers[d].replica.says == w.peers[d].replica.says)
    && after.peers[c].replica.says == w.peers[c].replica.says[n..]
    && (forall d | d in w.master.outbox :: w.master.outbox[d] <= after.master.outbox[d])
  }

  lemma OneHeard(w: World, c: Conn, banner: string, dump: string)
    requires Inv(w) && Enabled(w, MasterHears(c, banner, dump))
    ensures MasterActed(w, DoMasterHears(w, c, banner, dump), c, 1)
  {
    hide Inv, DoMasterHears, Log;
    HearingChannels(w, c, banner, dump);
    HearingPeers(w, c, banner, dump);
  }

  lemma {:induction false} MasterActsRefines(store: map<string, Stored>, steps: seq<Step>, w: World, c: Conn, n: nat,
                                             banner: string, dump: string) returns (more: seq<Step>)
    requires Run(store, steps) == Some(w) && c in w.peers && w.peers[c].open
    requires c in w.master.outbox && n <= |w.peers[c].replica.says|
    ensures var after := MasterActsAll(w, c, w.peers[c].replica.says[..n], banner, dump);
            Run(store, steps + more) == Some(after) && MasterActed(w, after, c, n)
    ensures forall s | s in more :: s == MasterHears(c, banner, dump)
    decreases n
  {
    hide Run, Inv, DoMasterHears, MasterActs, MasterActed;
    var says := w.peers[c].replica.says;
    if n == 0 {
      more := [];
      assert steps + more == steps && says[..0] == [];
      NothingHeard(w, c);
    } else {
      var s := MasterHears(c, banner, dump);
      StepMore(store, steps, w, s);
      var next := DoMasterHears(w, c, banner, dump);
      MasterActsIsHears(w, c, banner, dump);
      RunKeeps(store, steps);
      OneHeard(w, c, banner, dump);
      LeftToHear(w, next, c);
      var rest := MasterActsRefines(store, steps + [s], next, c, n - 1, banner, dump);
      more := [s] + rest;
      assert steps + [s] + rest == steps + more;
      assert says[..n][0] == says[0] && says[..n][1..] == says[1..][..n - 1];
      HeardTwice(w, next, MasterActsAll(w, c, says[..n], banner, dump), c, n);
    }
  }

  lemma NothingHeard(w: World, c: Conn)
    requires c in w.peers
    ensures MasterActed(w, w, c, 0)
  {
  }

  lemma HeardTwice(w: World, next: World, after: World, c: Conn, n: nat)
    requires c in w.peers && 0 < n <= |w.peers[c].replica.says| && MasterActed(w, next, c, 1) && MasterActed(next, after, c, n - 1)
    ensures MasterActed(w, after, c, n)
  {
    assert w.peers[c].replica.says[1..][n - 1..] == w.peers[c].replica.says[n..];
    assert forall d | d in w.master.outbox :: w.master.outbox[d] <= next.master.outbox[d] && d in next.master.outbox;
  }

  /** What is left after one message was heard. */
  lemma LeftToHear(w: World, next: World, c: Conn)
    requires c in w.peers && c in w.master.outbox && w.peers[c].replica.says != [] && MasterActed(w, next, c, 1)
    ensures c in next.peers && c in next.master.outbox && next.peers[c].open == w.peers[c].open
    ensures next.peers[c].replica.says == w.peers[c].replica.says[1..]
  {
  }
}
