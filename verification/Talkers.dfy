/** The two ends of a replication connection as the objects that listen and speak. */
module Talkers {
  import opened Prelude
  import opened Decimal
  import opened Messages
  import opened Commands
  import opened Replicas
  import opened Links
  import opened WaitTickets
  import opened StorageMiddlewares

  /** The talker of a connection to the master; what it says goes to the connection's channel. */
  class ServerTalker {
    const conn: Conn
    const storage: StorageMiddleware
    var replicaId: Option<ReplicaId>

    constructor (conn: Conn, storage: StorageMiddleware)
      ensures this.conn == conn && this.storage == storage && replicaId == None
    {
      this.conn, this.storage, replicaId := conn, storage, None;
    }

    /** The connection has a channel, and no other talker registered a replica on it. */
    ghost predicate Valid()
      reads this, storage
    {
      storage.Valid() && conn in storage.outbox
      && (replicaId.Some? ==> replicaId.value in storage.replicas && storage.replicas[replicaId.value].slot == conn)
      && (replicaId.None? ==> forall r | r in storage.replicas :: storage.replicas[r].slot != conn)
    }

    method Say(m: Message)
      requires Valid()
      modifies storage
      ensures Valid() && storage.Model() == Replicas.Say(old(storage.Model()), conn, m)
    {
      storage.Say(conn, m);
    }

    /** Hears a message, with the banner and the dump a PSYNC is answered with. */
    method Listen(m: Message, banner: string, dump: string)
      requires Valid()
      modifies this, storage
      ensures Valid()
      ensures (storage.Model(), replicaId) == ServerHear(old(storage.Model()), conn, old(replicaId), m, banner, dump)
    {
      hide TryParse, ProcessConf, MasterSet, Replicas.WaitFor, SetReplicaState, Replicas.AddReplica, Valid, TicketsHold, SlotsApart;
      HasChannel();
      match TryParse(m) {
        case Rejected => Say(SimpleError(""));
        case Unchecked =>
        case Parsed(command) =>
          match command {
            case Ping => Say(SimpleString("PONG"));
            case Set(key, value, px) => ListenSet(key, value, px);
            case ReplConf(args) => ListenReplConf(args);
            case Psync(_) => ListenPsync(banner, dump);
            case Wait(count, _) => ListenWait(count);
            case _ =>
          }
      }
    }

    lemma HasChannel()
      requires Valid()
      ensures conn in storage.Model().outbox
    {
    }

    method ListenSet(key: string, value: string, px: Option<int32>)
      requires Valid()
      modifies storage
      ensures Valid()
      ensures conn in MasterSet(old(storage.Model()), key, value, px).outbox
      ensures storage.Model() == Replicas.Say(MasterSet(old(storage.Model()), key, value, px), conn, SimpleString("OK"))
    {
      hide MasterSet, TicketsHold;
      SetKeepsSlots(storage.Model(), key, value, px);
      storage.Set(key, value, px);
      assert conn in storage.Model().outbox && Valid();
      Say(SimpleString("OK"));
    }

    method ListenWait(count: nat)
      requires Valid()
      modifies storage
      ensures Valid() && storage.Model() == Replicas.WaitFor(old(storage.Model()), count)
    {
      hide Replicas.WaitFor, TicketsHold;
      WaitKeepsSlots(storage.Model(), count);
      storage.WaitFor(count);
      assert storage.Model().replicas == storage.replicas;
    }

    method ListenReplConf(args: seq<string>)
      requires Valid()
      modifies this, storage
      ensures Valid()
      ensures var was := old(storage.Model());
              var known := if old(replicaId).Some? then was else Replicas.AddReplica(was, conn);
              var r := if old(replicaId).Some? then old(replicaId).value else was.nextReplica;
              var (after, confirm) := ProcessConf(known, r, args);
              && replicaId == Some(r) && conn in after.outbox
              && storage.Model() == if confirm then Replicas.Say(after, conn, SimpleString("OK")) else after
    {
      hide ProcessConf, TicketsHold;
      if replicaId.None? {
        var id := storage.AddReplica(conn);
        replicaId := Some(id);
      }
      assert Valid();
      ConfKeepsSlots(storage.Model(), replicaId.value, args);
      var confirm := storage.ReplicaProcessConf(replicaId.value, args);
      assert storage.Model().replicas == storage.replicas;
      if confirm {
        Say(SimpleString("OK"));
      }
    }

    method ListenPsync(banner: string, dump: string)
      requires Valid()
      modifies storage
      ensures Valid()
      ensures var said := Replicas.Say(Replicas.Say(old(storage.Model()), conn, SimpleString(banner)), conn, SyncResponse(dump));
              storage.Model() == if replicaId.Some? then SetReplicaState(said, replicaId.value, WRITE) else said
    {
      hide TicketsHold, SetReplicaState;
      Say(SimpleString(banner));
      Say(SyncResponse(dump));
      if replicaId.Some? {
        StateKeepsSlots(storage.Model(), replicaId.value, WRITE);
        storage.ReplicaSetState(replicaId.value, WRITE);
        assert storage.Model().replicas == storage.replicas;
      }
    }

    /** The connection is closed: its replica is forgotten. */
    method Interrupt()
      requires Valid()
      modifies this, storage
      ensures Valid() && replicaId.None?
      ensures storage.Model() ==
              if old(replicaId).Some? then RemoveReplica(old(storage.Model()), old(replicaId).value) else old(storage.Model())
    {
      hide TicketsHold;
      if replicaId.Some? {
        storage.RemoveReplica(replicaId.value);
        replicaId := None;
      }
    }
  }

  /** What a talker looks at: the connections of the replicas, and the channels there are. */
  ghost predicate SameSlots(ma: Master, mb: Master) {
    && mb.outbox.Keys == ma.outbox.Keys && mb.replicas.Keys == ma.replicas.Keys
    && forall r | r in ma.replicas :: mb.replicas[r].slot == ma.replicas[r].slot
  }

  lemma SetKeepsSlots(ma: Master, key: string, value: string, px: Option<int32>)
    ensures SameSlots(ma, MasterSet(ma, key, value, px))
  {
    hide SetMessage, PushHandle, WritesTo;
    var stored := ma.(store := ma.store[key := Stored(value, px)]);
    PushToKeys(stored, ma.replicas.Keys, SetMessage(key, value, px));
  }

  lemma WaitKeepsSlots(ma: Master, count: nat)
    ensures SameSlots(ma, Replicas.WaitFor(ma, count))
  {
    hide Construct, PushHandle, WritesTo, Lagging, UpToDate;
    var ready, lagging := UpToDate(ma.replicas), Lagging(ma.replicas);
    PushToKeys(ma.(nextWait := ma.nextWait + 1,
                   waits := ma.waits + [Waiting(ma.nextWait, Min(count, |ma.replicas|), |ready|, lagging, ready)],
                   timers := ma.timers[ma.nextWait := true]), lagging.Keys, GETACK);
  }

  lemma ConfKeepsSlots(ma: Master, r: ReplicaId, args: seq<string>)
    ensures SameSlots(ma, ProcessConf(ma, r, args).0)
  {
    hide KeptWaits, AckReplies, ParseInt, ToLower, Invalidate;
  }

  lemma StateKeepsSlots(ma: Master, r: ReplicaId, state: ReplState)
    ensures SameSlots(ma, SetReplicaState(ma, r, state))
  {
  }

  /** The talker of a replica towards its master. */
  class ReplicaTalker {
    var state: ReplicaState
    var bytesIn: nat
    var store: map<string, Stored>
    /** What it has said and the master has not heard. */
    var pending: seq<Message>

    constructor (store: map<string, Stored>)
      ensures Model() == NewReplica(store)
    {
      state, bytesIn, pending := WaitFirstPong, 0, [Construct(Ping)];
      this.store := store;
    }

    ghost function Model(): Replica
      reads this
    {
      Replica(state, bytesIn, store, pending)
    }

    method NextSay(m: Message)
      modifies this`pending
      ensures pending == old(pending) + [m]
    {
      pending := pending + [m];
    }

    /** `restored` is what the snapshot parser reads from a dump. */
    method Listen(m: Message, port: string, restored: map<string, Stored>)
      modifies this
      ensures Model() == ReplicaHear(old(Model()), m, port, restored)
    {
      hide Construct, ToLower, ReplicaProcess;
      match state {
        case WaitFirstPong =>
          if m.SimpleString? && ToLower(m.text) == "pong" {
            state := WaitOkForPort;
            NextSay(Construct(ReplConf(["listening-port", port])));
          }
        case WaitOkForPort =>
          if m.SimpleString? && ToLower(m.text) == "ok" {
            state := WaitOkForCapa;
            NextSay(Construct(ReplConf(["capa", "psync2"])));
          }
        case WaitOkForCapa =>
          if m.SimpleString? && ToLower(m.text) == "ok" {
            state := WaitPsyncAnswer;
            NextSay(Construct(Psync(["?", "-1"])));
          }
        case WaitPsyncAnswer =>
          if m.SimpleString? {
            state := WaitRdb;
          }
        case WaitRdb =>
          if m.SyncResponse? {
            store := store + restored;
            state := WaitServerCommands;
          }
        case WaitServerCommands => Process(m);
      }
    }

    /** A snapshot is expected exactly after the four messages of a handshake that come before it. */
    method Expected() returns (e: Messages.Expected)
      ensures forall heard: seq<Message> | state == StateAt(|heard|) :: e.ExpectSync? <==> |heard| == 4
    {
      return if state.WaitRdb? then ExpectSync else ExpectAny;
    }

    /** A command from the master; the offset of an ACK excludes the GETACK it answers. */
    method Process(m: Message)
      modifies this
      ensures Model() == ReplicaProcess(old(Model()), m)
    {
      hide Construct, ToLower, TryParse, ToString;
      match TryParse(m) {
        case Parsed(command) =>
          match command {
            case Set(key, value, px) => store := store[key := Stored(value, px)];
            case ReplConf(args) =>
              if |args| >= 2 && ToLower(args[0]) == "getack" && args[1] == "*" {
                NextSay(AckMessage(bytesIn));
              }
            case _ =>
          }
          bytesIn := bytesIn + Size(m);
        case _ =>
      }
    }
  }
}
