/** What a replica's map is made of: its own, the snapshot, and the SETs since. */
module ReplicaMaps {
  import opened Prelude
  import opened Messages
  import opened Commands
  import opened Replicas
  import opened Links
  import opened Replication

  /** Key by key, `loaded` is `own` with `restored` put over it. */
  ghost predicate Loaded(loaded: map<string, Stored>, own: map<string, Stored>, restored: map<string, Stored>) {
    && (forall k :: k in loaded <==> k in own || k in restored)
    && (forall k | k in restored :: k in loaded && loaded[k] == restored[k])
    && (forall k | k in own && k !in restored :: k in loaded && loaded[k] == own[k])
  }

  /** A replica that waits for the snapshot loads it, and waits on for any other message. */
  lemma SnapshotLoads(r: Replica, m: Message, port: string, restored: map<string, Stored>)
    requires r.state.WaitRdb?
    ensures var after := ReplicaHear(r, m, port, restored);
            && (m.SyncResponse? ==> after.state.WaitServerCommands? && Loaded(after.store, r.store, restored))
            && (!m.SyncResponse? ==> after == r)
            && after.bytesIn == r.bytesIn && after.says == r.says
  {
  }

  /** What leads a replica on, and what it says then; nothing else does anything before the snapshot. */
  lemma HandshakeMoves(r: Replica, m: Message, port: string, restored: map<string, Stored>)
    requires !r.state.WaitRdb? && !r.state.WaitServerCommands?
    ensures var after := ReplicaHear(r, m, port, restored);
            && after.store == r.store && after.bytesIn == r.bytesIn && r.says <= after.says
            && (after.state != r.state <==>
                  m.SimpleString? && (r.state.WaitPsyncAnswer? || ToLower(m.text) == if r.state.WaitFirstPong? then "pong" else "ok"))
            && (after.state == r.state ==> after == r)
            && (after.state != r.state ==>
                  var said := after.says[|r.says|..];
                  match r.state
                  case WaitFirstPong => after.state.WaitOkForPort? && said == [Construct(ReplConf(["listening-port", port]))]
                  case WaitOkForPort => after.state.WaitOkForCapa? && said == [Construct(ReplConf(["capa", "psync2"]))]
                  case WaitOkForCapa => after.state.WaitPsyncAnswer? && said == [Construct(Psync(["?", "-1"]))]
                  case _ => after.state.WaitRdb? && said == [])
  {
    hide Construct, ToLower;
  }

  /** Every command counts for the offset; of those only a SET changes the map, and only GETACK is answered. */
  lemma CommandsCount(r: Replica, m: Message, port: string, restored: map<string, Stored>)
    requires r.state.WaitServerCommands?
    ensures var after, parsed := ReplicaHear(r, m, port, restored), TryParse(m);
            && after.state == r.state && after.bytesIn == r.bytesIn + (if parsed.Parsed? then |ToString(m)| else 0)
            && (forall k | !(parsed.Parsed? && parsed.command.Set? && parsed.command.key == k) ::
                  (k in after.store <==> k in r.store) && (k in r.store ==> after.store[k] == r.store[k]))
            && (parsed.Parsed? && parsed.command.Set? ==>
                  var c := parsed.command; c.key in after.store && after.store[c.key] == Stored(c.value, c.expireMs))
            && after.says == r.says + if IsGetack(parsed) then [AckMessage(r.bytesIn)] else []
  {
    hide TryParse, ToLower, ToString, AckMessage;
  }

  predicate IsGetack(parsed: Parsed) {
    parsed.Parsed? && parsed.command.ReplConf? && |parsed.command.args| >= 2
    && ToLower(parsed.command.args[0]) == "getack" && parsed.command.args[1] == "*"
  }

  /** Step `j` opened connection `c`, with a replica that had the map `own`. */
  predicate Joined(steps: seq<Step>, j: nat, c: Conn, own: map<string, Stored>) {
    j < |steps| && steps[j].Join? && steps[j].conn == c && steps[j].store == own
  }

  /** In step `i` the replica of connection `c` heard the snapshot, from which it restored a map. */
  ghost predicate HeardSnapshot(store: map<string, Stored>, steps: seq<Step>, i: nat, c: Conn, restored: map<string, Stored>) {
    && i < |steps| && steps[i] == ReplicaHears(c, restored)
    && Run(store, steps[..i]).Some?
    && var u := Run(store, steps[..i]).value;
       && c in u.peers && c in u.master.outbox && u.master.outbox[c] != []
       && u.peers[c].replica.state.WaitRdb? && u.master.outbox[c][0].SyncResponse?
  }

  /** The map a connection's replica has so far: its own, until it has heard the snapshot. */
  ghost predicate MapSoFar(store: map<string, Stored>, steps: seq<Step>, p: Peer, c: Conn, j: nat, i: nat) {
    && j < |steps| && steps[j].Join? && steps[j].conn == c
    && (!p.replica.state.WaitServerCommands? ==> p.replica.store == steps[j].store)
    && (p.replica.state.WaitServerCommands? ==>
          && i < |steps| && steps[i].ReplicaHears? && HeardSnapshot(store, steps, i, c, steps[i].restored) && j < i
          && Loaded(p.base, steps[j].store, steps[i].restored))
  }

  /**
   What a replica in command mode started from: key by key the map it joined with, and over it what it
   restored from the snapshot it heard.
   */
  lemma BaseIsLoaded(store: map<string, Stored>, steps: seq<Step>, w: World, c: Conn) returns (j: nat, i: nat)
    requires Run(store, steps) == Some(w) && c in w.peers && w.peers[c].replica.state.WaitServerCommands?
    ensures j < i < |steps| && steps[j].Join? && Joined(steps, j, c, steps[j].store)
    ensures steps[i].ReplicaHears? && HeardSnapshot(store, steps, i, c, steps[i].restored)
    ensures Loaded(w.peers[c].base, steps[j].store, steps[i].restored)
  {
    hide Run, HeardSnapshot;
    j, i := MapIsSoFar(store, steps, w, c);
  }

  /** Before that it has the map it joined with. */
  lemma OwnMapUntilThen(store: map<string, Stored>, steps: seq<Step>, w: World, c: Conn) returns (j: nat)
    requires Run(store, steps) == Some(w) && c in w.peers && !w.peers[c].replica.state.WaitServerCommands?
    ensures j < |steps| && steps[j].Join? && Joined(steps, j, c, w.peers[c].replica.store)
  {
    hide Run, HeardSnapshot;
    var i;
    j, i := MapIsSoFar(store, steps, w, c);
  }

  lemma {:induction false} MapIsSoFar(store: map<string, Stored>, steps: seq<Step>, w: World, c: Conn) returns (j: nat, i: nat)
    requires Run(store, steps) == Some(w) && c in w.peers
    ensures MapSoFar(store, steps, w.peers[c], c, j, i)
    decreases |steps|
  {
    hide Take, Enabled, MapSoFar;
    if steps == [] {
      assert false;
    } else {
      var init, last := steps[..|steps| - 1], steps[|steps| - 1];
      var u := Run(store, init).value;
      if c in u.peers {
        j, i := MapIsSoFar(store, init, u, c);
        if last.ReplicaHears? && last.conn == c && !u.peers[c].replica.state.WaitServerCommands? {
          i := HearingLoads(store, steps, u, c, j, i);
        } else {
          OthersKeepMap(u, last, c);
          SoFarFrame(store, init, last, u.peers[c], w.peers[c], c, j, i);
          assert init + [last] == steps;
        }
      } else {
        j, i := |init|, 0;
        NewHasOwnMap(store, steps, u, c);
      }
    }
  }

  /** Hearing loads the snapshot or leaves the map alone. */
  lemma HearingLoads(store: map<string, Stored>, steps: seq<Step>, u: World, c: Conn, j: nat, i: nat) returns (at: nat)
    requires steps != [] && var init, last := steps[..|steps| - 1], steps[|steps| - 1];
             && Run(store, init) == Some(u) && Enabled(u, last) && last.ReplicaHears? && last.conn == c && c in u.peers
             && MapSoFar(store, init, u.peers[c], c, j, i)
    requires !u.peers[c].replica.state.WaitServerCommands?
    ensures MapSoFar(store, steps, Take(u, steps[|steps| - 1]).peers[c], c, j, at)
  {
    hide Run, ReplicaHear;
    var init, last := steps[..|steps| - 1], steps[|steps| - 1];
    var r, m, port := u.peers[c].replica, u.master.outbox[c][0], u.peers[c].port;
    at := if Take(u, last).peers[c].replica.state.WaitServerCommands? then |init| else i;
    assert steps[j] == init[j];
    if r.state.WaitRdb? {
      SnapshotLoads(r, m, port, last.restored);
    } else {
      HandshakeMoves(r, m, port, last.restored);
    }
  }

  lemma NewHasOwnMap(store: map<string, Stored>, steps: seq<Step>, u: World, c: Conn)
    requires steps != [] && Enabled(u, steps[|steps| - 1]) && c !in u.peers && c in Take(u, steps[|steps| - 1]).peers
    ensures MapSoFar(store, steps, Take(u, steps[|steps| - 1]).peers[c], c, |steps| - 1, 0)
  {
    hide MasterSet, WaitFor, ServerHear, FireTimer, RemoveReplica, HandleOf, AcksOf, Log, Pushed, Acks, ReplicaHear, Run;
  }

  /** What of a connection matters here stays. */
  predicate SameMap(p: Peer, q: Peer) {
    p.replica.state.WaitServerCommands? == q.replica.state.WaitServerCommands? && p.base == q.base
    && (!p.replica.state.WaitServerCommands? ==> p.replica.store == q.replica.store)
  }

  lemma OthersKeepMap(w: World, s: Step, c: Conn)
    requires Enabled(w, s) && c in w.peers && !(s.ReplicaHears? && s.conn == c && !w.peers[c].replica.state.WaitServerCommands?)
    ensures c in Take(w, s).peers && SameMap(w.peers[c], Take(w, s).peers[c])
  {
    hide MasterSet, WaitFor, ServerHear, FireTimer, RemoveReplica, HandleOf, AcksOf, Log, Pushed, Acks;
    if s.ReplicaHears? && s.conn == c {
      hide ReplicaHear;
      ProcessesOn(w.peers[c].replica, w.master.outbox[c][0], w.peers[c].port, s.restored);
    }
  }

  lemma ProcessesOn(r: Replica, m: Message, port: string, restored: map<string, Stored>)
    requires r.state.WaitServerCommands?
    ensures ReplicaHear(r, m, port, restored).state.WaitServerCommands?
  {
    hide TryParse, ToLower, ToString, AckMessage;
  }

  lemma SoFarFrame(store: map<string, Stored>, init: seq<Step>, last: Step, p: Peer, q: Peer, c: Conn, j: nat, i: nat)
    requires MapSoFar(store, init, p, c, j, i) && SameMap(p, q)
    ensures MapSoFar(store, init + [last], q, c, j, i)
  {
    hide Run;
    var steps := init + [last];
    if p.replica.state.WaitServerCommands? {
      assert steps[i] == init[i] && steps[..i] == init[..i];
    }
  }
}
