/**
 The object that propagates SETs to replicas and answers WAITs, as the program runs it: updated in
 place, with loops over the replicas in any order and over the pending WAITs while they are erased.
 Each method does to the object exactly what the functions of `Replicas` say.
 */
module StorageMiddlewares {
  import opened Prelude
  import opened Decimal
  import opened Messages
  import opened Commands
  import opened Replicas
  import opened WaitTickets

  /** Every replica has a connection of its own. */
  ghost predicate SlotsApart(replicas: map<ReplicaId, Handle>, outbox: map<Conn, seq<Message>>) {
    && (forall a | a in replicas :: replicas[a].slot in outbox)
    && (forall a, b | a in replicas && b in replicas && a != b :: replicas[a].slot != replicas[b].slot)
  }

  // ----- Specification functions, one element at a time -----

  function PushOne(ma: Master, id: ReplicaId, m: Message): Master
    requires id in ma.replicas && ma.replicas[id].slot in ma.outbox
  {
    var h := ma.replicas[id];
    if h.state.WRITE?
    then ma.(replicas := ma.replicas[id := PushHandle(h, m)], outbox := ma.outbox[h.slot := ma.outbox[h.slot] + [m]])
    else ma
  }

  lemma PushToNone(ma: Master, m: Message)
    ensures PushTo(ma, {}, m) == ma
  {
    hide PushHandle;
  }

  lemma PushToKeys(ma: Master, ids: set<ReplicaId>, m: Message)
    ensures PushTo(ma, ids, m).replicas.Keys == ma.replicas.Keys && PushTo(ma, ids, m).outbox.Keys == ma.outbox.Keys
    ensures forall r | r in ma.replicas :: PushTo(ma, ids, m).replicas[r].slot == ma.replicas[r].slot
    ensures forall r | r in ma.replicas && r !in ids :: PushTo(ma, ids, m).replicas[r] == ma.replicas[r]
  {
    hide WritesTo, ToString;
  }

  lemma CountedMore(ma: Master, ids: set<ReplicaId>, id: ReplicaId, m: Message)
    requires id in ma.replicas && id !in ids
    ensures PushTo(ma, ids + {id}, m).replicas == PushTo(ma, ids, m).replicas[id := PushHandle(ma.replicas[id], m)]
  {
    hide PushHandle, WritesTo;
  }

  lemma SaidToMore(ma: Master, ids: set<ReplicaId>, id: ReplicaId, m: Message)
    requires SlotsApart(ma.replicas, ma.outbox) && id in ma.replicas && id !in ids
    ensures var h, before := ma.replicas[id], PushTo(ma, ids, m).outbox;
            && h.slot in before
            && PushTo(ma, ids + {id}, m).outbox == if h.state.WRITE? then before[h.slot := before[h.slot] + [m]] else before
  {
    hide PushHandle, WritesTo;
    forall c ensures WritesTo(ma.replicas, ids + {id}, c) <==>
                     WritesTo(ma.replicas, ids, c) || (ma.replicas[id].state.WRITE? && ma.replicas[id].slot == c)
    {
      WritesToMore(ma.replicas, ids, id, c);
    }
    NoOtherWrites(ma, ids, id);
  }

  /** Pushing to one more replica, in whatever order they are visited. */
  lemma PushToMore(ma: Master, ids: set<ReplicaId>, id: ReplicaId, m: Message)
    requires SlotsApart(ma.replicas, ma.outbox) && id in ma.replicas && id !in ids
    requires PushTo(ma, ids, m).replicas.Keys == ma.replicas.Keys && PushTo(ma, ids, m).outbox.Keys == ma.outbox.Keys
    requires PushTo(ma, ids, m).replicas[id] == ma.replicas[id]
    ensures PushTo(ma, ids + {id}, m) == PushOne(PushTo(ma, ids, m), id, m)
  {
    CountedMore(ma, ids, id, m);
    SaidToMore(ma, ids, id, m);
    PushIdle(ma.replicas[id], m);
    hide PushHandle, WritesTo, SlotsApart, ToString;
    var before := PushTo(ma, ids, m).replicas;
    assert before == before[id := before[id]];
  }

  lemma PushIdle(h: Handle, m: Message)
    ensures !h.state.WRITE? ==> PushHandle(h, m) == h
  {
  }

  lemma WritesToMore(replicas: map<ReplicaId, Handle>, ids: set<ReplicaId>, id: ReplicaId, c: Conn)
    requires id in replicas
    ensures WritesTo(replicas, ids + {id}, c) <==> WritesTo(replicas, ids, c) || (replicas[id].state.WRITE? && replicas[id].slot == c)
  {
    if WritesTo(replicas, ids, c) {
      var r :| r in ids && r in replicas && replicas[r].state.WRITE? && replicas[r].slot == c;
      assert r in ids + {id};
    }
    if replicas[id].state.WRITE? && replicas[id].slot == c {
      assert id in ids + {id};
    }
  }

  lemma NoOtherWrites(ma: Master, ids: set<ReplicaId>, id: ReplicaId)
    requires SlotsApart(ma.replicas, ma.outbox) && id in ma.replicas && id !in ids
    ensures !WritesTo(ma.replicas, ids, ma.replicas[id].slot)
  {
  }

  lemma {:induction false} KeptSnoc(ws: seq<Waiting>, w: Waiting, r: ReplicaId, offset: nat)
    ensures KeptWaits(ws + [w], r, offset) ==
            KeptWaits(ws, r, offset) + if Replies(w, r, offset) then [] else [UpdateWait(w, r, offset)]
    ensures AckReplies(ws + [w], r, offset) ==
            AckReplies(ws, r, offset) + if Replies(w, r, offset) then [Replicas.Reply(UpdateWait(w, r, offset), false)] else []
  {
    hide UpdateWait, Replies;
    if ws == [] {
      assert ws + [w] == [w] && [w][1..] == [];
    } else {
      assert (ws + [w])[1..] == ws[1..] + [w];
      KeptSnoc(ws[1..], w, r, offset);
    }
  }

  /** A pending WAIT has one place in the list. */
  lemma {:induction false} WithoutOne(ws: seq<Waiting>, i: nat, id: WaitId)
    requires i < |ws| && ws[i].id == id && Pending(ws, id) == 1
    ensures WithoutWait(ws, id) == ws[..i] + ws[i + 1..]
    ensures TimerReplies(ws, id) == [Replicas.Reply(ws[i], true)]
  {
    if i == 0 {
      WithoutNone(ws[1..], id);
    } else {
      var rest := ws[1..];
      assert rest[i - 1] == ws[i];
      PendingMeans(rest, id);
      WithoutOne(rest, i - 1, id);
      assert ws[..i] == [ws[0]] + rest[..i - 1] && ws[i + 1..] == rest[i..];
    }
  }

  lemma {:induction false} WithoutNone(ws: seq<Waiting>, id: WaitId)
    requires Pending(ws, id) == 0
    ensures WithoutWait(ws, id) == ws && TimerReplies(ws, id) == []
  {
    if ws != [] {
      WithoutNone(ws[1..], id);
    }
  }

  lemma {:induction false} PlaceOf(ws: seq<Waiting>, id: WaitId)
    requires Pending(ws, id) > 0
    ensures exists i: nat :: i < |ws| && ws[i].id == id
  {
    PendingMeans(ws, id);
  }

  lemma NoneHeard(ws: seq<Waiting>, armed: map<WaitId, bool>, r: ReplicaId, offset: nat)
    ensures KeptWaits(ws[..0], r, offset) == [] && AckReplies(ws[..0], r, offset) == []
    ensures Invalidate(armed, AnswerIds([])) == armed
  {
  }

  /** One more WAIT hears an ACK. */
  lemma OneHeard(ws: seq<Waiting>, armed: map<WaitId, bool>, k: nat, r: ReplicaId, offset: nat)
    requires k < |ws|
    ensures var replied, x := Replies(ws[k], r, offset), UpdateWait(ws[k], r, offset);
            var before, after := AckReplies(ws[..k], r, offset), AckReplies(ws[..k + 1], r, offset);
            && KeptWaits(ws[..k + 1], r, offset) == KeptWaits(ws[..k], r, offset) + (if replied then [] else [x])
            && after == before + (if replied then [Replicas.Reply(x, false)] else [])
            && Invalidate(armed, AnswerIds(after)) ==
               (if replied then Invalidate(Invalidate(armed, AnswerIds(before)), {ws[k].id}) else Invalidate(armed, AnswerIds(before)))
  {
    hide KeptWaits, AckReplies;
    assert ws[..k + 1] == ws[..k] + [ws[k]];
    KeptSnoc(ws[..k], ws[k], r, offset);
    AnswerIdsSnoc(AckReplies(ws[..k], r, offset), Replicas.Reply(UpdateWait(ws[k], r, offset), false));
    assert AckReplies(ws[..k], r, offset) + [] == AckReplies(ws[..k], r, offset);
  }

  lemma AnswerIdsSnoc(answers: seq<Answer>, a: Answer)
    ensures AnswerIds(answers + [a]) == AnswerIds(answers) + {a.id}
  {
    var all := answers + [a];
    assert all[|answers|] == a;
    forall id | id in AnswerIds(answers) ensures id in AnswerIds(all) {
      var i :| 0 <= i < |answers| && answers[i].id == id;
      assert all[i].id == id;
    }
  }

  lemma SlotIn(ma: Master, id: ReplicaId)
    requires SlotsApart(ma.replicas, ma.outbox) && id in ma.replicas
    ensures ma.replicas[id].slot in ma.outbox
  {
  }

  lemma SlotsStayApart(ma: Master, mb: Master)
    requires SlotsApart(ma.replicas, ma.outbox)
    requires mb.replicas.Keys == ma.replicas.Keys && mb.outbox.Keys == ma.outbox.Keys
    requires forall r | r in ma.replicas :: mb.replicas[r].slot == ma.replicas[r].slot
    ensures SlotsApart(mb.replicas, mb.outbox)
  {
  }

  /** The replicas visited so far. */
  ghost function Among(replicas: map<ReplicaId, Handle>, seen: set<ReplicaId>): map<ReplicaId, Handle> {
    map r | r in seen && r in replicas :: replicas[r]
  }

  lemma AmongNone(replicas: map<ReplicaId, Handle>)
    ensures UpToDate(Among(replicas, {})) == {} && Lagging(Among(replicas, {})) == map[]
  {
  }

  lemma AmongAll(replicas: map<ReplicaId, Handle>)
    ensures Among(replicas, replicas.Keys) == replicas
  {
  }

  lemma AmongMore(replicas: map<ReplicaId, Handle>, seen: set<ReplicaId>, r: ReplicaId)
    requires r in replicas && r !in seen
    ensures var before, after, h := Among(replicas, seen), Among(replicas, seen + {r}), replicas[r];
            if h.bytesAck >= h.bytesPushed
            then UpToDate(after) == UpToDate(before) + {r} && r !in UpToDate(before) && Lagging(after) == Lagging(before)
            else UpToDate(after) == UpToDate(before) && Lagging(after) == Lagging(before)[r := h.bytesPushed]
  {
  }

  lemma LaggingIsPart(replicas: map<ReplicaId, Handle>)
    ensures Lagging(replicas).Keys <= replicas.Keys
  {
  }

  lemma NextInList(was: seq<Waiting>, kept: seq<Waiting>, k: nat, i: nat)
    requires k <= |was| && i == |kept| && i < |kept + was[k..]|
    ensures k < |was| && (kept + was[k..])[i] == was[k]
    ensures (kept + was[k..])[..i] == kept && (kept + was[k..])[i + 1..] == was[k + 1..]
    ensures kept + [] + was[k + 1..] == kept + was[k + 1..]
  {
  }

  lemma Regroup(a: seq<Answer>, b: seq<Answer>, c: seq<Answer>)
    ensures a + b + c == a + (b + c)
  {
  }

  lemma NewIsNotArmed(ma: Master)
    requires TicketsHold(ma)
    ensures Invalidate(ma.timers, {ma.nextWait}) == ma.timers
  {
    hide Pending, Answered;
    assert Tickets(ma, ma.nextWait) == 0;
    assert !TimerArmed(ma, ma.nextWait);
  }

  lemma ArmedIsPending(ma: Master, id: WaitId)
    requires TicketsHold(ma) && id in ma.timers && ma.timers[id]
    ensures Pending(ma.waits, id) == 1
  {
    assert TimerArmed(ma, id);
  }

  lemma PoppedTimer(timers: map<WaitId, bool>, id: WaitId)
    ensures Invalidate(timers, {id}) - {id} == timers - {id}
  {
  }

  /** A WAIT with enough replicas up to date is answered and leaves nothing behind. */
  lemma AnsweredIsWaitFor(ma: Master, count: nat, expected: nat)
    requires TicketsHold(ma) && expected == Min(count, |ma.replicas|) && expected <= |UpToDate(ma.replicas)|
    ensures var ready := UpToDate(ma.replicas);
            var after := ma.(nextWait := ma.nextWait + 1, answers := ma.answers + [Answer(ma.nextWait, |ready|, false, ready)]);
            after == WaitFor(ma, count) && TicketsHold(after)
  {
    hide UpToDate, Lagging, PushTo, TicketsHold;
    WaitAnsweredAtOnce(ma, WaitFor(ma, count), Answer(ma.nextWait, |UpToDate(ma.replicas)|, false, UpToDate(ma.replicas)));
  }

  /** Otherwise it is listed, the others are asked and the timer is armed; pushing does not look at WAITs and timers. */
  lemma AskingIsWaitFor(ma: Master, count: nat, expected: nat)
    requires TicketsHold(ma) && expected == Min(count, |ma.replicas|) && expected > |UpToDate(ma.replicas)|
    ensures var ready, lagging := UpToDate(ma.replicas), Lagging(ma.replicas);
            var listed := ma.(nextWait := ma.nextWait + 1, waits := ma.waits + [Waiting(ma.nextWait, expected, |ready|, lagging, ready)]);
            var after := PushTo(listed, lagging.Keys, GETACK).(timers := ma.timers[ma.nextWait := true]);
            after == WaitFor(ma, count) && TicketsHold(after)
  {
    hide UpToDate, Lagging, WritesTo, PushHandle, Construct, TicketsHold;
    var ready := UpToDate(ma.replicas);
    WaitIssued(ma, WaitFor(ma, count), Waiting(ma.nextWait, expected, |ready|, Lagging(ma.replicas), ready));
  }

  class StorageMiddleware {
    var store: map<string, Stored>
    var nextReplica: ReplicaId
    var replicas: map<ReplicaId, Handle>
    var nextWait: WaitId
    var waits: seq<Waiting>
    /** The timeout jobs in the event loop, with their validity. */
    var timers: map<WaitId, bool>
    /** The replies to WAITs so far. */
    var answers: seq<Answer>
    /** What was said on each connection and not heard yet. */
    var outbox: map<Conn, seq<Message>>

    constructor (store: map<string, Stored>)
      ensures Valid() && Model() == Master(store, 0, map[], 0, [], map[], [], map[])
    {
      this.store, nextReplica, replicas, nextWait := store, 0, map[], 0;
      waits, timers, answers, outbox := [], map[], [], map[];
    }

    ghost function Model(): Master
      reads this
    {
      Master(store, nextReplica, replicas, nextWait, waits, timers, answers, outbox)
    }

    ghost predicate Valid()
      reads this
    {
      SlotsApart(replicas, outbox) && TicketsHold(Model()) && forall r | r in replicas :: r < nextReplica
    }

    // ----- Pushing -----

    method PushToReplica(id: ReplicaId, m: Message)
      requires id in replicas && replicas[id].slot in outbox
      modifies this`replicas, this`outbox
      ensures Model() == PushOne(old(Model()), id, m)
    {
      hide ToString;
      var h := replicas[id];
      if h.state != WRITE {
        return;
      }
      replicas := replicas[id := h.(bytesPushed := h.bytesPushed + Size(m))];
      outbox := outbox[h.slot := outbox[h.slot] + [m]];
    }

    /** Pushes to the given replicas, in any order. */
    method PushAll(ids: set<ReplicaId>, m: Message)
      requires SlotsApart(replicas, outbox) && ids <= replicas.Keys
      modifies this`replicas, this`outbox
      ensures Model() == PushTo(old(Model()), ids, m)
      ensures SlotsApart(replicas, outbox) && replicas.Keys == old(replicas.Keys)
    {
      hide PushTo, PushOne, SlotsApart;
      ghost var was := Model();
      var todo := ids;
      PushToNone(was, m);
      assert ids - todo == {};
      while todo != {}
        invariant todo <= ids && Model() == PushTo(was, ids - todo, m)
        decreases |todo|
      {
        var id :| id in todo;
        PushToKeys(was, ids - todo, m);
        SlotIn(was, id);
        PushToMore(was, ids - todo, id, m);
        assert ids - (todo - {id}) == ids - todo + {id};
        PushToReplica(id, m);
        todo := todo - {id};
      }
      assert ids - todo == ids;
      PushToKeys(was, ids, m);
      SlotsStayApart(was, Model());
    }

    method Push(m: Message)
      requires SlotsApart(replicas, outbox)
      modifies this`replicas, this`outbox
      ensures Model() == PushTo(old(Model()), old(replicas.Keys), m)
      ensures SlotsApart(replicas, outbox) && replicas.Keys == old(replicas.Keys)
    {
      PushAll(replicas.Keys, m);
    }

    method Set(key: string, value: string, px: Option<int32>)
      requires Valid()
      modifies this
      ensures Valid() && Model() == MasterSet(old(Model()), key, value, px)
    {
      hide PushTo, SlotsApart, TicketsHold, Construct;
      ghost var was := Model();
      store := store[key := Stored(value, px)];
      Push(Construct(Command.Set(key, value, px)));
      TicketsFrame(was, Model());
    }

    // ----- Registration -----

    method AddReplica(slot: Conn) returns (id: ReplicaId)
      requires Valid() && slot in outbox && forall r | r in replicas :: replicas[r].slot != slot
      modifies this
      ensures Valid() && id == old(nextReplica) && Model() == Replicas.AddReplica(old(Model()), slot)
    {
      hide TicketsHold;
      TicketsFrame(Model(), Replicas.AddReplica(Model(), slot));
      id := nextReplica;
      nextReplica := nextReplica + 1;
      replicas := replicas[id := Handle(MET, slot, 0, 0)];
    }

    method RemoveReplica(id: ReplicaId)
      requires Valid()
      modifies this
      ensures Valid() && Model() == Replicas.RemoveReplica(old(Model()), id)
    {
      hide TicketsHold;
      TicketsFrame(Model(), Replicas.RemoveReplica(Model(), id));
      replicas := replicas - {id};
    }

    method ReplicaSetState(id: ReplicaId, state: ReplState)
      requires Valid()
      modifies this
      ensures Valid() && Model() == SetReplicaState(old(Model()), id, state)
    {
      hide TicketsHold;
      TicketsFrame(Model(), SetReplicaState(Model(), id, state));
      if id in replicas {
        replicas := replicas[id := replicas[id].(state := state)];
      }
    }

    method Say(c: Conn, m: Message)
      requires Valid() && c in outbox
      modifies this`outbox
      ensures Valid() && Model() == Replicas.Say(old(Model()), c, m)
    {
      hide TicketsHold;
      TicketsFrame(Model(), Replicas.Say(Model(), c, m));
      outbox := outbox[c := outbox[c] + [m]];
    }

    // ----- WAIT -----

    /** The WAIT at position `i` replies: its job is invalidated and it leaves the list. */
    method Reply(i: nat, byTimer: bool)
      requires i < |waits|
      modifies this`answers, this`timers, this`waits
      ensures answers == old(answers) + [Replicas.Reply(old(waits[i]), byTimer)]
      ensures timers == Invalidate(old(timers), {old(waits[i].id)})
      ensures waits == old(waits[..i] + waits[i + 1..])
    {
      var w := waits[i];
      answers := answers + [Answer(w.id, w.ready, byTimer, w.counted)];
      if w.id in timers {
        timers := timers[w.id := false];
      }
      waits := waits[..i] + waits[i + 1..];
    }

    /** The WAIT at position `i` hears an ACK; it may reply, and then leaves the list. */
    method UpdateReplicaAck(i: nat, r: ReplicaId, offset: nat) returns (replied: bool)
      requires i < |waits|
      modifies this`answers, this`timers, this`waits
      ensures var w := old(waits[i]);
              && replied == Replies(w, r, offset)
              && waits == old(waits[..i]) + (if replied then [] else [UpdateWait(w, r, offset)]) + old(waits[i + 1..])
              && answers == old(answers) + (if replied then [Replicas.Reply(UpdateWait(w, r, offset), false)] else [])
              && timers == (if replied then Invalidate(old(timers), {w.id}) else old(timers))
    {
      var w := waits[i];
      assert waits == waits[..i] + [w] + waits[i + 1..];
      assert answers == answers + [];
      if r !in w.waitlist {
        return false;
      }
      var expectedBytes := w.waitlist[r];
      w := w.(waitlist := w.waitlist - {r});
      waits := waits[i := w];
      assert waits == old(waits[..i]) + [w] + old(waits[i + 1..]);
      if offset < expectedBytes {
        return false;
      }
      w := w.(ready := w.ready + 1, counted := w.counted + {r});
      waits := waits[i := w];
      assert waits == old(waits[..i]) + [w] + old(waits[i + 1..]);
      if w.expected <= w.ready {
        Reply(i, false);
        assert waits == old(waits[..i]) + [] + old(waits[i + 1..]);
        return true;
      }
      return false;
    }

    /** Every pending WAIT hears of an ACK once, though some leave the list on the way. */
    method UpdateWaits(r: ReplicaId, offset: nat)
      modifies this`waits, this`answers, this`timers
      ensures waits == KeptWaits(old(waits), r, offset)
      ensures answers == old(answers) + AckReplies(old(waits), r, offset)
      ensures timers == Invalidate(old(timers), AnswerIds(AckReplies(old(waits), r, offset)))
    {
      hide *;
      ghost var was, before, armed, k := waits, answers, timers, 0;
      var i := 0;
      NoneHeard(was, armed, r, offset);
      assert waits == [] + was[0..] && answers == before + [];
      while i < |waits|
        invariant 0 <= k <= |was| && i == |KeptWaits(was[..k], r, offset)|
        invariant waits == KeptWaits(was[..k], r, offset) + was[k..]
        invariant answers == before + AckReplies(was[..k], r, offset)
        invariant timers == Invalidate(armed, AnswerIds(AckReplies(was[..k], r, offset)))
        decreases |was| - k
      {
        ghost var kept, replies := KeptWaits(was[..k], r, offset), AckReplies(was[..k], r, offset);
        NextInList(was, kept, k, i);
        OneHeard(was, armed, k, r, offset);
        var replied := UpdateReplicaAck(i, r, offset);
        k := k + 1;
        if !replied {
          i := i + 1;
        }
        Regroup(before, replies, if replied then [Replicas.Reply(UpdateWait(was[k - 1], r, offset), false)] else []);
      }
      assert k == |was| && was[..k] == was && was[k..] == [];
    }

    /** An ACK: the counter is set, and the WAITs hear of it. */
    method HearAck(r: ReplicaId, offset: nat)
      requires Valid() && r in replicas
      modifies this
      ensures Valid() && Model() == Replicas.HearAck(old(Model()), r, offset)
    {
      hide KeptWaits, AckReplies, Invalidate, TicketsHold, AnswerIds, SlotsApart;
      ghost var was := Model();
      AckKeepsTickets(Model(), r, offset);
      replicas := replicas[r := replicas[r].(bytesAck := offset)];
      UpdateWaits(r, offset);
      SlotsStayApart(was, Model());
    }

    /** REPLCONF from a replica; false means it is not to be confirmed. */
    method ReplicaProcessConf(r: ReplicaId, args: seq<string>) returns (confirm: bool)
      requires Valid()
      modifies this
      ensures Valid() && (Model(), confirm) == ProcessConf(old(Model()), r, args)
    {
      hide Replicas.HearAck, ParseInt, ToLower, SlotsApart, TicketsHold;
      if r !in replicas {
        return false;
      }
      if args != [] && ToLower(args[0]) == "ack" && |args| >= 2 {
        var bytes := ParseInt(args[1]);
        if bytes.Some? {
          HearAck(r, AsUInt64(bytes.value));
        }
        return false;
      }
      return true;
    }

    /** Splits the replicas, in any order, into those up to date and those to be asked. */
    method Setup() returns (ready: nat, waitlist: map<ReplicaId, nat>, counted: set<ReplicaId>)
      ensures counted == UpToDate(replicas) && ready == |counted| && waitlist == Lagging(replicas)
    {
      hide UpToDate, Lagging, Among;
      var todo := replicas.Keys;
      ready, waitlist, counted := 0, map[], {};
      AmongNone(replicas);
      assert replicas.Keys - todo == {};
      while todo != {}
        invariant todo <= replicas.Keys
        invariant counted == UpToDate(Among(replicas, replicas.Keys - todo)) && ready == |counted|
        invariant waitlist == Lagging(Among(replicas, replicas.Keys - todo))
        decreases |todo|
      {
        var r :| r in todo;
        AmongMore(replicas, replicas.Keys - todo, r);
        assert replicas.Keys - (todo - {r}) == replicas.Keys - todo + {r};
        if replicas[r].bytesAck >= replicas[r].bytesPushed {
          ready := ready + 1;
          counted := counted + {r};
        } else {
          waitlist := waitlist[r := replicas[r].bytesPushed];
        }
        todo := todo - {r};
      }
      AmongAll(replicas);
      assert replicas.Keys - todo == replicas.Keys;
    }

    /** Answers at once if enough replicas are up to date, else asks the others and arms a timer. */
    method WaitFor(count: nat)
      requires Valid()
      modifies this
      ensures Valid() && Model() == Replicas.WaitFor(old(Model()), count)
    {
      hide Replicas.WaitFor, PushTo, UpToDate, Lagging, SlotsApart, Construct, TicketsHold, Invalidate;
      ghost var was := Model();
      NewIsNotArmed(was);
      LaggingIsPart(replicas);
      var id := nextWait;
      nextWait := nextWait + 1;
      var expected := if count <= |replicas| then count else |replicas|;
      var ready, waitlist, counted := Setup();
      waits := waits + [Waiting(id, expected, ready, waitlist, counted)];
      if expected <= ready {
        assert waits[|waits| - 1] == Waiting(id, expected, ready, waitlist, counted);
        Reply(|waits| - 1, false);
        assert waits == was.waits;
        AnsweredIsWaitFor(was, count, expected);
      } else {
        PushAll(waitlist.Keys, GETACK);
        timers := timers[id := true];
        AskingIsWaitFor(was, count, expected);
      }
    }

    /** The event loop runs a timeout job; an invalidated one is only dropped. */
    method FireTimer(id: WaitId)
      requires Valid() && id in timers
      modifies this
      ensures Valid() && Model() == Replicas.FireTimer(old(Model()), id)
    {
      hide SlotsApart, TicketsHold, WithoutWait, TimerReplies, Pending;
      TimerKeepsTickets(Model(), id);
      ghost var was := Model();
      if timers[id] {
        ArmedIsPending(Model(), id);
        PlaceOf(waits, id);
        var i: nat :| i < |waits| && waits[i].id == id;
        WithoutOne(waits, i, id);
        Reply(i, true);
      }
      timers := timers - {id};
      PoppedTimer(was.timers, id);
    }
  }
}
