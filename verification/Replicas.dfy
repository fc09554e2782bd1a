/**
 The master's side of replication as functions: replica handles, pushed messages, WAIT.

 The program keeps these in one object that it updates in place; `StorageMiddlewares` does the same and
 is proved against these functions. Byte counters are unbounded here.
 */
module Replicas {
  import opened Prelude
  import opened Decimal
  import opened Messages
  import opened Commands

  type ReplicaId = nat
  type Conn = nat
  type WaitId = nat

  datatype ReplState = MET | RESYNC | WRITE

  /** A registered replica; `slot` is the connection its messages are said on. */
  datatype Handle = Handle(state: ReplState, slot: Conn, bytesPushed: nat, bytesAck: nat)

  /** A pending WAIT. `counted` is auxiliary: the replicas behind `ready`. */
  datatype Waiting = Waiting(id: WaitId, expected: nat, ready: nat, waitlist: map<ReplicaId, nat>, counted: set<ReplicaId>)

  /** A reply to a WAIT. */
  datatype Answer = Answer(id: WaitId, count: nat, byTimer: bool, counted: set<ReplicaId>)

  datatype Stored = Stored(value: string, expireMs: Option<int32>)

  /** `timers` are the queued timeout jobs with their validity; `outbox` is what was said and not yet heard. */
  datatype Master = Master(
    store: map<string, Stored>,
    nextReplica: ReplicaId,
    replicas: map<ReplicaId, Handle>,
    nextWait: WaitId,
    waits: seq<Waiting>,
    timers: map<WaitId, bool>,
    answers: seq<Answer>,
    outbox: map<Conn, seq<Message>>)

  const GETACK := Construct(ReplConf(["GETACK", "*"]))

  function SetMessage(key: string, value: string, px: Option<int32>): Message {
    Construct(Set(key, value, px))
  }

  function AckMessage(offset: nat): Message {
    Construct(ReplConf(["ACK", Print(offset)]))
  }

  function Say(ma: Master, c: Conn, m: Message): Master
    requires c in ma.outbox
  {
    ma.(outbox := ma.outbox[c := ma.outbox[c] + [m]])
  }

  // ----- Pushing -----

  function PushHandle(h: Handle, m: Message): Handle {
    if h.state.WRITE? then h.(bytesPushed := h.bytesPushed + Size(m)) else h
  }

  /** One of the replicas writes to connection `c`. */
  predicate WritesTo(replicas: map<ReplicaId, Handle>, ids: set<ReplicaId>, c: Conn) {
    exists id | id in ids :: id in replicas && replicas[id].state.WRITE? && replicas[id].slot == c
  }

  /** Pushes a message to the given replicas; only those in WRITE get it. */
  function PushTo(ma: Master, ids: set<ReplicaId>, m: Message): Master {
    ma.(replicas := map id | id in ma.replicas :: if id in ids then PushHandle(ma.replicas[id], m) else ma.replicas[id],
        outbox := map c | c in ma.outbox :: if WritesTo(ma.replicas, ids, c) then ma.outbox[c] + [m] else ma.outbox[c])
  }

  function MasterSet(ma: Master, key: string, value: string, px: Option<int32>): Master {
    PushTo(ma.(store := ma.store[key := Stored(value, px)]), ma.replicas.Keys, SetMessage(key, value, px))
  }

  // ----- Registration -----

  function AddReplica(ma: Master, slot: Conn): Master {
    ma.(nextReplica := ma.nextReplica + 1, replicas := ma.replicas[ma.nextReplica := Handle(MET, slot, 0, 0)])
  }

  function RemoveReplica(ma: Master, id: ReplicaId): Master {
    ma.(replicas := ma.replicas - {id})
  }

  function SetReplicaState(ma: Master, id: ReplicaId, state: ReplState): Master {
    if id in ma.replicas then ma.(replicas := ma.replicas[id := ma.replicas[id].(state := state)]) else ma
  }

  // ----- WAIT -----

  function Lagging(replicas: map<ReplicaId, Handle>): map<ReplicaId, nat> {
    map id | id in replicas && replicas[id].bytesAck < replicas[id].bytesPushed :: replicas[id].bytesPushed
  }

  function UpToDate(replicas: map<ReplicaId, Handle>): set<ReplicaId> {
    set id | id in replicas && replicas[id].bytesAck >= replicas[id].bytesPushed
  }

  function Min(a: nat, b: nat): nat {
    if a <= b then a else b
  }

  /** Answers at once if enough replicas are up to date, else asks the others and arms a timer. */
  function WaitFor(ma: Master, count: nat): Master {
    var id := ma.nextWait;
    var expected := Min(count, |ma.replicas|);
    var ready := UpToDate(ma.replicas);
    var lagging := Lagging(ma.replicas);
    if expected <= |ready| then
      ma.(nextWait := id + 1, answers := ma.answers + [Answer(id, |ready|, false, ready)])
    else
      PushTo(ma.(nextWait := id + 1,
                 waits := ma.waits + [Waiting(id, expected, |ready|, lagging, ready)],
                 timers := ma.timers[id := true]),
             lagging.Keys, GETACK)
  }

  /** A WAIT hears an ACK: its entry goes, and counts if the offset reached the target. */
  function UpdateWait(w: Waiting, r: ReplicaId, offset: nat): Waiting {
    if r !in w.waitlist then w
    else if offset < w.waitlist[r] then w.(waitlist := w.waitlist - {r})
    else w.(waitlist := w.waitlist - {r}, ready := w.ready + 1, counted := w.counted + {r})
  }

  /** The update makes the WAIT reply. */
  predicate Replies(w: Waiting, r: ReplicaId, offset: nat) {
    r in w.waitlist && offset >= w.waitlist[r] && w.expected <= w.ready + 1
  }

  function Reply(w: Waiting, byTimer: bool): Answer {
    Answer(w.id, w.ready, byTimer, w.counted)
  }

  /** The WAITs still pending after an ACK, in order. */
  function KeptWaits(ws: seq<Waiting>, r: ReplicaId, offset: nat): seq<Waiting> {
    if ws == [] then []
    else (if Replies(ws[0], r, offset) then [] else [UpdateWait(ws[0], r, offset)]) + KeptWaits(ws[1..], r, offset)
  }

  /** The replies an ACK causes, in order. */
  function AckReplies(ws: seq<Waiting>, r: ReplicaId, offset: nat): seq<Answer> {
    if ws == [] then []
    else (if Replies(ws[0], r, offset) then [Reply(UpdateWait(ws[0], r, offset), false)] else []) + AckReplies(ws[1..], r, offset)
  }

  function AnswerIds(answers: seq<Answer>): set<WaitId> {
    set i | 0 <= i < |answers| :: answers[i].id
  }

  /** Replying invalidates the timeout job. */
  function Invalidate(timers: map<WaitId, bool>, done: set<WaitId>): map<WaitId, bool> {
    map id | id in timers :: timers[id] && id !in done
  }

  function HearAck(ma: Master, r: ReplicaId, offset: nat): Master
    requires r in ma.replicas
  {
    var replies := AckReplies(ma.waits, r, offset);
    ma.(replicas := ma.replicas[r := ma.replicas[r].(bytesAck := offset)],
        waits := KeptWaits(ma.waits, r, offset),
        timers := Invalidate(ma.timers, AnswerIds(replies)),
        answers := ma.answers + replies)
  }

  /** REPLCONF from a replica: `ack` updates counters and is not confirmed, anything else is. */
  function ProcessConf(ma: Master, r: ReplicaId, args: seq<string>): (result: (Master, bool)) {
    if r !in ma.replicas then (ma, false)
    else if args != [] && ToLower(args[0]) == "ack" && |args| >= 2 then
      match ParseInt(args[1])
      case Some(n) => (HearAck(ma, r, AsUInt64(n)), false)
      case None => (ma, false)
    else (ma, true)
  }

  function WithoutWait(ws: seq<Waiting>, id: WaitId): seq<Waiting> {
    if ws == [] then [] else (if ws[0].id == id then [] else [ws[0]]) + WithoutWait(ws[1..], id)
  }

  function TimerReplies(ws: seq<Waiting>, id: WaitId): seq<Answer> {
    if ws == [] then [] else (if ws[0].id == id then [Reply(ws[0], true)] else []) + TimerReplies(ws[1..], id)
  }

  /** The event loop runs a timeout job: it leaves the queue, and replies only if it is still valid. */
  function FireTimer(ma: Master, id: WaitId): Master
    requires id in ma.timers
  {
    var popped := ma.(timers := ma.timers - {id});
    if !ma.timers[id] then popped
    else popped.(waits := WithoutWait(ma.waits, id), answers := ma.answers + TimerReplies(ma.waits, id))
  }

  // ----- The talker of a connection to the master -----

  /**
   The master hears a message on connection `c`, on which replica `id` is registered, if any. `banner`
   and `dump` are the texts it answers PSYNC with. Commands that touch no replication state are left
   out, with their replies, and so is the text of an error.
   */
  function ServerHear(ma: Master, c: Conn, id: Option<ReplicaId>, m: Message, banner: string, dump: string): (Master, Option<ReplicaId>)
    requires c in ma.outbox
  {
    match TryParse(m)
    case Parsed(command) =>
      (match command
       case Ping => (Say(ma, c, SimpleString("PONG")), id)
       case Set(key, value, px) => (Say(MasterSet(ma, key, value, px), c, SimpleString("OK")), id)
       case ReplConf(args) =>
         var known := if id.Some? then ma else AddReplica(ma, c);
         var r := if id.Some? then id.value else ma.nextReplica;
         var (after, confirm) := ProcessConf(known, r, args);
         (if confirm then Say(after, c, SimpleString("OK")) else after, Some(r))
       case Psync(_) =>
         var said := Say(Say(ma, c, SimpleString(banner)), c, SyncResponse(dump));
         (if id.Some? then SetReplicaState(said, id.value, WRITE) else said, id)
       case Wait(count, _) => (WaitFor(ma, count), id)
       case _ => (ma, id))
    case Rejected => (Say(ma, c, SimpleError("")), id)
    case Unchecked => (ma, id)
  }

  // ----- The talker of a replica -----

  datatype ReplicaState = WaitFirstPong | WaitOkForPort | WaitOkForCapa | WaitPsyncAnswer | WaitRdb | WaitServerCommands

  /** `says` is what the replica has said and the master has not heard. */
  datatype Replica = Replica(state: ReplicaState, bytesIn: nat, store: map<string, Stored>, says: seq<Message>)

  function NewReplica(store: map<string, Stored>): Replica {
    Replica(WaitFirstPong, 0, store, [Construct(Ping)])
  }

  /** In which state a snapshot frame is expected. */
  function ReplicaExpects(state: ReplicaState): Expected {
    if state.WaitRdb? then ExpectSync else ExpectAny
  }

  /** Applies a command from the master; every parsed command counts for the offset, an ACK excludes it. */
  function ReplicaProcess(r: Replica, m: Message): Replica {
    match TryParse(m)
    case Parsed(command) =>
      var done := match command
        case Set(key, value, px) => r.(store := r.store[key := Stored(value, px)])
        case ReplConf(args) =>
          if |args| >= 2 && ToLower(args[0]) == "getack" && args[1] == "*"
          then r.(says := r.says + [AckMessage(r.bytesIn)]) else r
        case _ => r;
      done.(bytesIn := r.bytesIn + Size(m))
    case _ => r
  }

  /** The replica hears a message; `restored` is what its snapshot parser reads from a dump. */
  function ReplicaHear(r: Replica, m: Message, port: string, restored: map<string, Stored>): Replica {
    match r.state
    case WaitFirstPong =>
      if m.SimpleString? && ToLower(m.text) == "pong"
      then r.(state := WaitOkForPort, says := r.says + [Construct(ReplConf(["listening-port", port]))]) else r
    case WaitOkForPort =>
      if m.SimpleString? && ToLower(m.text) == "ok"
      then r.(state := WaitOkForCapa, says := r.says + [Construct(ReplConf(["capa", "psync2"]))]) else r
    case WaitOkForCapa =>
      if m.SimpleString? && ToLower(m.text) == "ok"
      then r.(state := WaitPsyncAnswer, says := r.says + [Construct(Psync(["?", "-1"]))]) else r
    case WaitPsyncAnswer => if m.SimpleString? then r.(state := WaitRdb) else r
    case WaitRdb =>
      if m.SyncResponse? then r.(state := WaitServerCommands, store := r.store + restored) else r
    case WaitServerCommands => ReplicaProcess(r, m)
  }
}
