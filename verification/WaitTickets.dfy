/** Every WAIT is pending or answered, never both and never twice, and only pending ones have a valid timer. */
module WaitTickets {
  import opened Replicas

  /** How often a WAIT is pending. */
  function Pending(ws: seq<Waiting>, id: WaitId): nat {
    if ws == [] then 0 else (if ws[0].id == id then 1 else 0) + Pending(ws[1..], id)
  }

  /** How often a WAIT was answered. */
  function Answered(answers: seq<Answer>, id: WaitId): nat {
    if answers == [] then 0 else (if answers[0].id == id then 1 else 0) + Answered(answers[1..], id)
  }

  function Tickets(ma: Master, id: WaitId): nat {
    Pending(ma.waits, id) + Answered(ma.answers, id)
  }

  predicate TimerArmed(ma: Master, id: WaitId) {
    id in ma.timers && ma.timers[id]
  }

  /** Each WAIT issued so far is in exactly one place, once; the valid timeout jobs are the pending ones'. */
  ghost predicate TicketsHold(ma: Master) {
    forall id: WaitId ::
      Tickets(ma, id) == (if id < ma.nextWait then 1 else 0) && (TimerArmed(ma, id) <==> Pending(ma.waits, id) == 1)
  }

  lemma {:induction false} PendingAppend(a: seq<Waiting>, b: seq<Waiting>, id: WaitId)
    ensures Pending(a + b, id) == Pending(a, id) + Pending(b, id)
  {
    if a == [] {
      assert a + b == b;
    } else {
      assert (a + b)[1..] == a[1..] + b;
      PendingAppend(a[1..], b, id);
    }
  }

  lemma {:induction false} AnsweredAppend(a: seq<Answer>, b: seq<Answer>, id: WaitId)
    ensures Answered(a + b, id) == Answered(a, id) + Answered(b, id)
  {
    if a == [] {
      assert a + b == b;
    } else {
      assert (a + b)[1..] == a[1..] + b;
      AnsweredAppend(a[1..], b, id);
    }
  }

  lemma OnePending(x: Waiting, id: WaitId)
    ensures Pending([x], id) == if x.id == id then 1 else 0
  {
    assert [x][1..] == [];
  }

  lemma OneAnswered(a: Answer, id: WaitId)
    ensures Answered([a], id) == if a.id == id then 1 else 0
  {
    assert [a][1..] == [];
  }

  lemma {:induction false} AnsweredMeans(answers: seq<Answer>, id: WaitId)
    ensures Answered(answers, id) > 0 <==> id in AnswerIds(answers)
  {
    if answers != [] {
      AnsweredMeans(answers[1..], id);
      assert forall i | 0 <= i < |answers[1..]| :: answers[1..][i] == answers[i + 1];
      if id in AnswerIds(answers) && answers[0].id != id {
        var i :| 0 <= i < |answers| && answers[i].id == id;
        assert answers[1..][i - 1].id == id;
      }
      if id in AnswerIds(answers[1..]) {
        var i :| 0 <= i < |answers[1..]| && answers[1..][i].id == id;
        assert answers[i + 1].id == id;
      }
      if answers[0].id == id {
        assert answers[0].id in AnswerIds(answers);
      }
    }
  }

  lemma {:induction false} PendingMeans(ws: seq<Waiting>, id: WaitId)
    ensures Pending(ws, id) > 0 <==> exists x :: x in ws && x.id == id
  {
    if ws != [] {
      PendingMeans(ws[1..], id);
      assert ws == [ws[0]] + ws[1..];
    }
  }

  /** An ACK visits every pending WAIT once: it is kept or it replies. */
  lemma {:induction false} AckConserves(ws: seq<Waiting>, r: ReplicaId, offset: nat, id: WaitId)
    ensures Pending(KeptWaits(ws, r, offset), id) + Answered(AckReplies(ws, r, offset), id) == Pending(ws, id)
  {
    if ws != [] {
      AckConserves(ws[1..], r, offset, id);
      var kept, replies := KeptWaits(ws[1..], r, offset), AckReplies(ws[1..], r, offset);
      var first := UpdateWait(ws[0], r, offset);
      if Replies(ws[0], r, offset) {
        AnsweredAppend([Reply(first, false)], replies, id);
        OneAnswered(Reply(first, false), id);
        assert [] + kept == kept;
      } else {
        PendingAppend([first], kept, id);
        OnePending(first, id);
        assert [] + replies == replies;
      }
    }
  }

  lemma {:induction false} TimerConserves(ws: seq<Waiting>, fired: WaitId, id: WaitId)
    ensures Pending(WithoutWait(ws, fired), id) == if id == fired then 0 else Pending(ws, id)
    ensures Answered(TimerReplies(ws, fired), id) == if id == fired then Pending(ws, id) else 0
  {
    if ws != [] {
      TimerConserves(ws[1..], fired, id);
      if ws[0].id == fired {
        AnsweredAppend([Reply(ws[0], true)], TimerReplies(ws[1..], fired), id);
        OneAnswered(Reply(ws[0], true), id);
        assert [] + WithoutWait(ws[1..], fired) == WithoutWait(ws[1..], fired);
      } else {
        PendingAppend([ws[0]], WithoutWait(ws[1..], fired), id);
        OnePending(ws[0], id);
        assert [] + TimerReplies(ws[1..], fired) == TimerReplies(ws[1..], fired);
      }
    }
  }

  lemma WaitIssued(ma: Master, after: Master, x: Waiting)
    requires TicketsHold(ma) && x.id == ma.nextWait
    requires after.nextWait == ma.nextWait + 1 && after.waits == ma.waits + [x] && after.answers == ma.answers
    requires after.timers == ma.timers[ma.nextWait := true]
    ensures TicketsHold(after)
  {
    hide Pending, Answered;
    forall id: WaitId
      ensures Tickets(after, id) == (if id < after.nextWait then 1 else 0) && (TimerArmed(after, id) <==> Pending(after.waits, id) == 1)
    {
      assert Tickets(ma, id) == if id < ma.nextWait then 1 else 0;
      PendingAppend(ma.waits, [x], id);
      OnePending(x, id);
    }
  }

  lemma WaitAnsweredAtOnce(ma: Master, after: Master, a: Answer)
    requires TicketsHold(ma) && a.id == ma.nextWait
    requires after.nextWait == ma.nextWait + 1 && after.waits == ma.waits && after.answers == ma.answers + [a]
    requires after.timers == ma.timers
    ensures TicketsHold(after)
  {
    hide Pending, Answered;
    forall id: WaitId
      ensures Tickets(after, id) == (if id < after.nextWait then 1 else 0) && (TimerArmed(after, id) <==> Pending(after.waits, id) == 1)
    {
      assert Tickets(ma, id) == if id < ma.nextWait then 1 else 0;
      AnsweredAppend(ma.answers, [a], id);
      OneAnswered(a, id);
    }
  }

  lemma AckKeepsTickets(ma: Master, r: ReplicaId, offset: nat)
    requires TicketsHold(ma) && r in ma.replicas
    ensures TicketsHold(HearAck(ma, r, offset))
  {
    hide KeptWaits, AckReplies, Pending, Answered, AnswerIds;
    var after, replies := HearAck(ma, r, offset), AckReplies(ma.waits, r, offset);
    forall id: WaitId
      ensures Tickets(after, id) == (if id < after.nextWait then 1 else 0) && (TimerArmed(after, id) <==> Pending(after.waits, id) == 1)
    {
      assert Tickets(ma, id) == if id < ma.nextWait then 1 else 0;
      AckConserves(ma.waits, r, offset, id);
      AnsweredAppend(ma.answers, replies, id);
      AnsweredMeans(replies, id);
    }
  }

  lemma TimerKeepsTickets(ma: Master, fired: WaitId)
    requires TicketsHold(ma) && fired in ma.timers
    ensures TicketsHold(FireTimer(ma, fired))
  {
    hide WithoutWait, TimerReplies, Pending, Answered;
    var after := FireTimer(ma, fired);
    forall id: WaitId
      ensures Tickets(after, id) == (if id < after.nextWait then 1 else 0) && (TimerArmed(after, id) <==> Pending(after.waits, id) == 1)
    {
      assert Tickets(ma, id) == if id < ma.nextWait then 1 else 0;
      TimerConserves(ma.waits, fired, id);
      AnsweredAppend(ma.answers, TimerReplies(ma.waits, fired), id);
    }
  }

  /** Tickets look at the WAITs, their answers and their timers only. */
  lemma TicketsFrame(ma: Master, mb: Master)
    requires TicketsHold(ma) && mb.waits == ma.waits && mb.answers == ma.answers && mb.timers == ma.timers && mb.nextWait == ma.nextWait
    ensures TicketsHold(mb)
  {
    hide Pending, Answered;
    assert forall id: WaitId :: Tickets(mb, id) == Tickets(ma, id) && TimerArmed(mb, id) == TimerArmed(ma, id);
  }
}
