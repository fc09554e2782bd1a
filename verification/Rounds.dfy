/**
 The blocked readers under the event loop that runs their jobs. An iteration of the loop runs the one-time
 queue, the repeated jobs and the timers; commands run in the repeated jobs, of which the poller is one. So no
 command runs from the timers to the end of the next queue: that is a round here. The loop has other jobs too,
 that do what they like to it.
 */
module Rounds {
  import opened Prelude
  import opened Decimal
  import opened StreamIds
  import opened Streams
  import opened BlockingReads
  import opened BlockingTheorems
  import L = EventLoops

  /** What a job of the loop does to the blocked readers: it wakes those of a posted list, or is a reader's timeout. */
  datatype Duty = Wakes | TimesOut(reader: Reader) | Other

  type Duties = L.JobId -> Duty

  /** The steps that the jobs called by the loop are for the readers. */
  function StepsOf(s: ReadState, log: seq<L.Event>, duty: Duties): seq<Step>
    decreases |log|
  {
    if log == [] then []
    else
      var step := StepOf(s, log[0], duty);
      step + StepsOf(After(s, step), log[1..], duty)
  }

  function StepOf(s: ReadState, e: L.Event, duty: Duties): seq<Step> {
    if e.Dropped? then []
    else
      match duty(e.id)
      case Wakes => if Enabled(s, Job) then [Job] else []
      case TimesOut(h) => if Enabled(s, Timeout(h)) then [Timeout(h)] else []
      case Other => []
  }

  /** The state after some steps; a step that is not possible is left out. */
  function After(s: ReadState, steps: seq<Step>): ReadState
    decreases |steps|
  {
    if steps == [] then s else After(if Enabled(s, steps[0]) then Take(s, steps[0]) else s, steps[1..])
  }

  /** The one-time jobs that wake readers. */
  function WakeIds(jobs: seq<L.Job>, duty: Duties): set<L.JobId> {
    set j | j in jobs && duty(j.id).Wakes? :: j.id
  }

  /** The loop has a job for each the readers are due, and their timers. */
  ghost predicate Serves(l: L.Loop, s: ReadState, duty: Duties) {
    && |WakeIds(l.onetime, duty)| == |s.jobs|
    && (forall h | h in s.timers && Held(s, h) :: TimerOf(l, s, duty, h))
  }

  ghost predicate TimerOf(l: L.Loop, s: ReadState, duty: Duties, h: Reader)
    requires h in s.timers
  {
    exists t | t in l.timeouts :: duty(t.job.id) == TimesOut(h) && t.fireTime == s.timers[h]
  }

  /** From one pass of the repeated jobs to the next: the timers, and the one-time queue. */
  function Round(l: L.Loop, clock: L.Clock): L.Loop {
    L.RunOnetime(L.RunTimeouts(l, 0, clock), clock)
  }

  /** What a round logs. */
  function Logged(l: L.Loop, clock: L.Clock): seq<L.Event> {
    var log := Round(l, clock).log;
    if |l.log| <= |log| then log[|l.log|..] else []
  }

  /**
   Nobody stops a job that wakes readers, whose handle was told to forget; and a timeout job is stopped only
   when the reader's handle is gone.
   */
  ghost predicate StopsRightly(invalid: set<L.JobId>, t: ReadState, duty: Duties) {
    forall id | id in invalid :: !duty(id).Wakes? && (duty(id).TimesOut? ==> !Held(t, duty(id).reader))
  }

  /** No string has taken a key that somebody waits on. */
  ghost predicate AllCastable(s: ReadState) {
    forall h | Held(s, h) :: Castable(s, h)
  }

  // ----- Steps from a log -----

  /** The steps that jobs and timers are. */
  ghost predicate OnlyCalls(steps: seq<Step>) {
    forall m | m in steps :: m.Job? || m.Timeout?
  }

  lemma {:induction false} RunOn(texts: set<string>, steps: seq<Step>, s: ReadState, more: seq<Step>)
    requires Run(texts, steps) == Some(s)
    requires |more| <= 1 && forall m | m in more :: Enabled(s, m)
    ensures Run(texts, steps + more) == Some(After(s, more))
  {
    hide Take, Enabled;
    if more == [] {
      assert steps + more == steps;
    } else {
      var all := steps + more;
      assert all[..|all| - 1] == steps && all[|all| - 1] == more[0] && more[0] in more;
      assert After(s, more) == After(Take(s, more[0]), more[1..]);
    }
  }

  lemma StepIsEnabled(s: ReadState, e: L.Event, duty: Duties)
    ensures |StepOf(s, e, duty)| <= 1 && OnlyCalls(StepOf(s, e, duty))
    ensures forall m | m in StepOf(s, e, duty) :: Enabled(s, m)
  {
  }

  lemma {:induction false} AfterAppend(s: ReadState, a: seq<Step>, b: seq<Step>)
    ensures After(s, a + b) == After(After(s, a), b)
    decreases |a|
  {
    hide Take, Enabled;
    if a == [] {
      assert a + b == b;
    } else {
      assert (a + b)[0] == a[0] && (a + b)[1..] == a[1..] + b;
      AfterAppend(if Enabled(s, a[0]) then Take(s, a[0]) else s, a[1..], b);
    }
  }

  /** What a log does to the readers is a run of theirs. */
  lemma {:induction false} LogIsRun(texts: set<string>, steps: seq<Step>, s: ReadState, log: seq<L.Event>, duty: Duties)
    requires Run(texts, steps) == Some(s)
    ensures var more := StepsOf(s, log, duty); Run(texts, steps + more) == Some(After(s, more)) && OnlyCalls(more)
    decreases |log|
  {
    hide Run, After, StepOf;
    if log == [] {
      assert steps + [] == steps && After(s, []) == s by { NoSteps(s); }
    } else {
      var step := StepOf(s, log[0], duty);
      StepIsEnabled(s, log[0], duty);
      RunOn(texts, steps, s, step);
      var rest := StepsOf(After(s, step), log[1..], duty);
      LogIsRun(texts, steps + step, After(s, step), log[1..], duty);
      AfterAppend(s, step, rest);
      assert steps + step + rest == steps + (step + rest);
    }
  }

  lemma NoSteps(s: ReadState)
    ensures After(s, []) == s
  {
  }

  /** After a log, one entry at a time. */
  lemma AfterMore(s: ReadState, log: seq<L.Event>, duty: Duties)
    requires log != []
    ensures var u := After(s, StepOf(s, log[0], duty));
            After(s, StepsOf(s, log, duty)) == After(u, StepsOf(u, log[1..], duty))
  {
    hide After, StepOf;
    var step := StepOf(s, log[0], duty);
    AfterAppend(s, step, StepsOf(After(s, step), log[1..], duty));
  }

  // ----- What a call changes -----

  /** A job and a timer leave the streams, hold no further reader and record no new one. */
  ghost predicate Calls(s: ReadState, t: ReadState) {
    && t.streams == s.streams && t.texts == s.texts && t.handles == s.handles && t.limits == s.limits && t.nextReader == s.nextReader
    && t.timers.Keys <= s.timers.Keys && |t.jobs| <= |s.jobs|
    && (forall h | Held(t, h) :: Held(s, h))
  }

  lemma StillCastable(s: ReadState, t: ReadState)
    requires AllCastable(s) && Calls(s, t)
    ensures AllCastable(t)
  {
    hide Held, Keys;
  }

  /** With no string in the way jobs and timers run. */
  lemma CallsRun(s: ReadState)
    requires AllCastable(s)
    ensures Enabled(s, Job) <==> s.jobs != []
    ensures forall h :: Enabled(s, Timeout(h)) <==> h in s.timers
  {
    hide Held, Keys;
  }

  lemma StepCalls(s: ReadState, e: L.Event, duty: Duties)
    requires Inv(s) && AllCastable(s)
    ensures var t := After(s, StepOf(s, e, duty));
            && Inv(t) && Calls(s, t) && AllCastable(t)
            && |t.jobs| == (if e.Ran? && duty(e.id).Wakes? && s.jobs != [] then |s.jobs| - 1 else |s.jobs|)
            && (forall h | e.Ran? && duty(e.id) == TimesOut(h) && h in s.timers :: !Held(t, h))
  {
    hide Inv, Held, WakeAll, Wake, AllCastable;
    CallsRun(s);
    var step := StepOf(s, e, duty);
    NoSteps(s);
    StillCastable(s, s);
    if step != [] {
      StepIsEnabled(s, e, duty);
      assert step[0] in step;
      var t := Take(s, step[0]);
      assert After(s, step) == After(t, step[1..]) && step[1..] == [];
      NoSteps(t);
      StepKeeps(s, step[0]);
      if step[0].Job? {
        JobCalls(s);
      } else {
        TimeoutCalls(s, step[0].reader);
      }
      StillCastable(s, t);
    }
  }

  lemma JobCalls(s: ReadState)
    requires s.jobs != []
    ensures Calls(s, RunJob(s)) && RunJob(s).jobs == s.jobs[1..]
  {
    hide Held, WakeAll;
    var popped := s.(jobs := s.jobs[1..]);
    WakeAllAdds(popped, s.jobs[0]);
    forall h | Held(RunJob(s), h) ensures Held(s, h) {
      HeldBeforeAll(popped, s.jobs[0], h);
      HeldIsLists(s, popped, h);
    }
  }

  lemma TimeoutCalls(s: ReadState, x: Reader)
    requires Inv(s) && x in s.timers
    ensures Calls(s, FireTimer(s, x)) && FireTimer(s, x).jobs == s.jobs && !Held(FireTimer(s, x), x)
  {
    hide Held, Wake, Inv;
    var popped := s.(timers := s.timers - {x});
    WakeAdds(popped, x);
    forall h | Held(FireTimer(s, x), h) ensures Held(s, h) && h != x {
      HeldAfter(s, x, h);
      HeldIsLists(s, popped, h);
    }
  }

  /** Calls in a row. */
  lemma {:induction false} LogCalls(s: ReadState, log: seq<L.Event>, duty: Duties)
    requires Inv(s) && AllCastable(s)
    ensures var t := After(s, StepsOf(s, log, duty)); Inv(t) && Calls(s, t)
    decreases |log|
  {
    hide Inv, Held, StepOf, After, AllCastable;
    if log == [] {
      NoSteps(s);
    } else {
      var u := After(s, StepOf(s, log[0], duty));
      StepCalls(s, log[0], duty);
      LogCalls(u, log[1..], duty);
      AfterMore(s, log, duty);
    }
  }

  // ----- Every posted list is woken -----

  /** The ids of the wake jobs a log says were called. */
  function WokenIds(log: seq<L.Event>, duty: Duties): set<L.JobId> {
    set e | e in log && e.Ran? && duty(e.id).Wakes? :: e.id
  }

  lemma WokenMore(log: seq<L.Event>, duty: Duties)
    requires log != []
    ensures WokenIds(log, duty) ==
            WokenIds(log[1..], duty) + if log[0].Ran? && duty(log[0].id).Wakes? then {log[0].id} else {}
  {
    assert forall e :: e in log <==> e == log[0] || e in log[1..];
  }

  /** As many jobs have gone as different wake jobs were called. */
  lemma {:induction false} JobsGo(s: ReadState, log: seq<L.Event>, duty: Duties)
    requires Inv(s) && AllCastable(s)
    ensures var t := After(s, StepsOf(s, log, duty)); t.jobs == [] || |t.jobs| + |WokenIds(log, duty)| <= |s.jobs|
    decreases |log|
  {
    hide Inv, StepOf, After, WokenIds, AllCastable;
    if log == [] {
      NoSteps(s);
      assert WokenIds(log, duty) == {} by { NoneWoken(duty); }
    } else {
      var u := After(s, StepOf(s, log[0], duty));
      StepCalls(s, log[0], duty);
      JobsGo(u, log[1..], duty);
      AfterMore(s, log, duty);
      LogCalls(u, log[1..], duty);
      WokenMore(log, duty);
    }
  }

  lemma NoneWoken(duty: Duties)
    ensures WokenIds([], duty) == {}
  {
  }

  lemma SubsetIsSmaller(a: set<L.JobId>, b: set<L.JobId>)
    requires a <= b
    ensures |a| <= |b|
  {
    assert b == a + (b - a);
  }

  /** If every wake job of the queue is called, nothing is left to wake. */
  lemma AllWoken(s: ReadState, log: seq<L.Event>, duty: Duties, ids: set<L.JobId>)
    requires Inv(s) && AllCastable(s) && |ids| == |s.jobs| && forall id | id in ids :: duty(id).Wakes? && L.Ran(id) in log
    ensures After(s, StepsOf(s, log, duty)).jobs == []
  {
    hide Inv, StepsOf, After, AllCastable;
    JobsGo(s, log, duty);
    assert forall id | id in ids :: id in WokenIds(log, duty);
    SubsetIsSmaller(ids, WokenIds(log, duty));
  }

  // ----- Every timeout is met -----

  /** A reader that is held after a log whose timeouts include its own was never on a timer. */
  lemma {:induction false} TimedOut(s: ReadState, log: seq<L.Event>, duty: Duties, id: L.JobId, h: Reader)
    requires Inv(s) && AllCastable(s) && TimersHold(s) && L.Ran(id) in log && duty(id) == TimesOut(h) && h in s.limits
    ensures !Held(After(s, StepsOf(s, log, duty)), h)
    decreases |log|
  {
    hide Inv, Held, StepOf, After, TimersHold, AllCastable;
    var u := After(s, StepOf(s, log[0], duty));
    StepCalls(s, log[0], duty);
    AfterMore(s, log, duty);
    LogCalls(u, log[1..], duty);
    if log[0] == L.Ran(id) {
      if Held(s, h) {
        TimerIsArmed(s, h);
      }
    } else {
      assert L.Ran(id) in log[1..];
      CallTimers(s, log[0], duty);
      TimedOut(u, log[1..], duty, id, h);
    }
  }

  lemma TimerIsArmed(s: ReadState, h: Reader)
    requires TimersHold(s) && Held(s, h) && h in s.limits
    ensures h in s.timers && s.timers[h] == s.limits[h]
  {
  }

  lemma CallTimers(s: ReadState, e: L.Event, duty: Duties)
    requires Inv(s) && TimersHold(s)
    ensures TimersHold(After(s, StepOf(s, e, duty)))
  {
    hide Inv, TimersHold, Take, Enabled;
    var step := StepOf(s, e, duty);
    NoSteps(s);
    StepIsEnabled(s, e, duty);
    if step != [] {
      assert step[0] in step && step[1..] == [];
      NoSteps(Take(s, step[0]));
      StepTimers(s, step[0]);
    }
  }

  // ----- A round -----

  lemma RoundLogs(l: L.Loop, clock: L.Clock)
    requires L.Consistent(l)
    ensures var passed, after := L.RunTimeouts(l, 0, clock), Round(l, clock);
            && l.log <= passed.log <= after.log && passed.invalid <= after.invalid
            && l.onetime <= passed.onetime && passed.timeouts <= after.timeouts
            && L.Consistent(passed) && L.Consistent(after) && after.onetime == []
  {
    hide L.Consistent, L.RunOnetime, L.RunTimeouts;
    L.PassRunsValid(l, 0, clock);
    L.OnetimeDrains(L.RunTimeouts(l, 0, clock), clock);
  }

  /** A part of the log. */
  lemma PartOfLog(a: seq<L.Event>, b: seq<L.Event>, c: seq<L.Event>, e: L.Event)
    requires a <= b <= c
    ensures e in b[|a|..] || e in c[|b|..] ==> e in c[|a|..]
  {
    assert forall i | |a| <= i < |b| :: c[|a|..][i - |a|] == b[i];
    assert forall i | |b| <= i < |c| :: c[|a|..][i - |a|] == c[i];
  }

  /** Every wake job of the queue is called. */
  lemma WakeJobsRun(l: L.Loop, clock: L.Clock, duty: Duties, id: L.JobId)
    requires L.Consistent(l) && id in WakeIds(l.onetime, duty) && id !in Round(l, clock).invalid
    ensures L.Ran(id) in Logged(l, clock)
  {
    hide L.Consistent, L.RunOnetime, L.RunTimeouts;
    RoundLogs(l, clock);
    var passed := L.RunTimeouts(l, 0, clock);
    var k :| 0 <= k < |l.onetime| && l.onetime[k].id == id;
    L.QueuedJobsRun(passed, clock, k);
    PartOfLog(l.log, passed.log, Round(l, clock).log, L.Ran(id));
  }

  /** Every timer due at the first reading of the pass is called, unless it was stopped. */
  lemma DueJobsRun(l: L.Loop, clock: L.Clock, t: L.Timed)
    requires L.Consistent(l) && L.Steady(clock) && t in l.timeouts
    requires t.fireTime <= clock(l.tick) && t.job.id !in Round(l, clock).invalid
    ensures L.Ran(t.job.id) in Logged(l, clock)
  {
    hide L.Consistent, L.RunOnetime, L.RunTimeouts, L.Steady;
    RoundLogs(l, clock);
    var k :| 0 <= k < |l.timeouts| && l.timeouts[k] == t;
    L.DueTimersRun(l, 0, clock, k);
    PartOfLog(l.log, L.RunTimeouts(l, 0, clock).log, Round(l, clock).log, L.Ran(t.job.id));
  }

  /** A timer is still armed after a round, or was called, or stopped. */
  lemma TimerStays(l: L.Loop, clock: L.Clock, t: L.Timed)
    requires L.Consistent(l) && t in l.timeouts && t.job.id !in Round(l, clock).invalid && L.Ran(t.job.id) !in Logged(l, clock)
    ensures t in Round(l, clock).timeouts
  {
    hide L.Consistent, L.RunOnetime, L.RunTimeouts;
    RoundLogs(l, clock);
    L.TimersKeptOrRun(l, 0, clock, t);
    PartOfLog(l.log, L.RunTimeouts(l, 0, clock).log, Round(l, clock).log, L.Ran(t.job.id));
  }

  /**
   A round serves all readers: what it does to them is a run of theirs, after which no job is left, nobody
   waits who could read, and nobody waits whose timeout was due when the round began. Whoever it let go has one
   answer.
   */
  lemma RoundServes(texts: set<string>, steps: seq<Step>, s: ReadState, l: L.Loop, clock: L.Clock, duty: Duties)
    requires Run(texts, steps) == Some(s) && AllCastable(s) && L.Consistent(l) && L.Steady(clock)
    requires Serves(l, s, duty)
    requires StopsRightly(Round(l, clock).invalid, After(s, StepsOf(s, Logged(l, clock), duty)), duty)
    ensures var more := StepsOf(s, Logged(l, clock), duty);
            var t := After(s, more);
            && Run(texts, steps + more) == Some(t) && OnlyCalls(more) && t.jobs == []
            && (forall h | Held(t, h) :: h in t.handles && ReadAll(t.streams, t.handles[h]) == [])
            && (forall h | Held(t, h) && h in t.limits :: t.limits[h] > clock(l.tick))
            && (forall h | Held(s, h) && !Held(t, h) :: Answered(t.replies, h) == 1)
            && L.Consistent(Round(l, clock)) && Serves(Round(l, clock), t, duty)
  {
    RunKeeps(texts, steps);
    TimersAreReaders(texts, steps);
    hide *;
    hide Run, Inv, Held, After, StepsOf, StepOf, Answered, ReadAll, TimersHold, AllCastable, Round, Logged, WakeIds, OnlyCalls, L.Consistent, L.Steady;
    var log := Logged(l, clock);
    var more := StepsOf(s, log, duty);
    var t := After(s, more);
    LogIsRun(texts, steps, s, log, duty);
    LogCalls(s, log, duty);
    forall id | id in WakeIds(l.onetime, duty) ensures duty(id).Wakes? && L.Ran(id) in log {
      WakeIdWakes(l.onetime, duty, id);
      WakeJobsRun(l, clock, duty, id);
    }
    AllWoken(s, log, duty, WakeIds(l.onetime, duty));
    forall h | Held(t, h) ensures h in t.handles && ReadAll(t.streams, t.handles[h]) == [] {
      NoLostWakeup(texts, steps + more, t, h);
    }
    forall h | Held(t, h) && h in t.limits ensures t.limits[h] > clock(l.tick) {
      InTime(s, l, clock, duty, h);
    }
    forall h | Held(s, h) && !Held(t, h) ensures Answered(t.replies, h) == 1 {
      LetGoIsAnswered(texts, steps, s, steps + more, t, h);
    }
    RoundLogs(l, clock);
    assert WakeIds(Round(l, clock).onetime, duty) == {} by { NoneQueued(duty); }
    forall h | h in t.timers && Held(t, h) ensures TimerOf(Round(l, clock), t, duty, h) {
      TimersAreReaders(texts, steps + more);
      StillTimed(s, t, l, clock, duty, h);
    }
  }

  lemma NoneQueued(duty: Duties)
    ensures WakeIds([], duty) == {}
  {
  }

  lemma WakeIdWakes(jobs: seq<L.Job>, duty: Duties, id: L.JobId)
    requires id in WakeIds(jobs, duty)
    ensures duty(id).Wakes?
  {
  }

  lemma InTime(s: ReadState, l: L.Loop, clock: L.Clock, duty: Duties, h: Reader)
    requires Inv(s) && AllCastable(s) && TimersHold(s) && L.Consistent(l) && L.Steady(clock) && Serves(l, s, duty)
    requires StopsRightly(Round(l, clock).invalid, After(s, StepsOf(s, Logged(l, clock), duty)), duty)
    requires Held(After(s, StepsOf(s, Logged(l, clock), duty)), h) && h in s.limits
    ensures s.limits[h] > clock(l.tick)
  {
    hide Inv, Held, After, StepsOf, TimersHold, AllCastable, Round, Logged, L.Consistent, L.Steady, L.RunOnetime;
    var log := Logged(l, clock);
    LogCalls(s, log, duty);
    TimerIsArmed(s, h);
    assert TimerOf(l, s, duty, h);
    var timer :| timer in l.timeouts && duty(timer.job.id) == TimesOut(h) && timer.fireTime == s.timers[h];
    if timer.fireTime <= clock(l.tick) {
      DueJobsRun(l, clock, timer);
      TimedOut(s, log, duty, timer.job.id, h);
    }
  }

  lemma StillTimed(s: ReadState, t: ReadState, l: L.Loop, clock: L.Clock, duty: Duties, h: Reader)
    requires Inv(s) && AllCastable(s) && TimersHold(s) && TimersHold(t) && L.Consistent(l) && Serves(l, s, duty)
    requires t == After(s, StepsOf(s, Logged(l, clock), duty)) && StopsRightly(Round(l, clock).invalid, t, duty)
    requires h in t.timers && Held(t, h)
    ensures TimerOf(Round(l, clock), t, duty, h)
  {
    hide Inv, Held, After, StepsOf, TimersHold, AllCastable, Round, Logged, L.Consistent;
    var log := Logged(l, clock);
    LogCalls(s, log, duty);
    TimersAreLimits(t, h);
    TimerIsArmed(s, h);
    TimerIsArmed(t, h);
    assert TimerOf(l, s, duty, h);
    var timer :| timer in l.timeouts && duty(timer.job.id) == TimesOut(h) && timer.fireTime == s.timers[h];
    if L.Ran(timer.job.id) in log {
      TimedOut(s, log, duty, timer.job.id, h);
    }
    TimerStays(l, clock, timer);
  }

  lemma TimersAreLimits(s: ReadState, h: Reader)
    requires TimersHold(s) && h in s.timers
    ensures h in s.limits
  {
  }

  lemma LetGoIsAnswered(texts: set<string>, steps: seq<Step>, s: ReadState, all: seq<Step>, t: ReadState, h: Reader)
    requires Run(texts, steps) == Some(s) && Run(texts, all) == Some(t) && Calls(s, t) && Held(s, h) && !Held(t, h)
    ensures Answered(t.replies, h) == 1
  {
    hide Run, Held, Answered, Inv;
    RunKeeps(texts, steps);
    HeldHandle(texts, steps, s, h);
    HandlesAreOld(texts, steps, s);
    NamesAStream(s, h);
    AnsweredOrListed(texts, all, t, h);
  }

  lemma NamesAStream(s: ReadState, h: Reader)
    requires Inv(s) && Held(s, h)
    ensures h in s.handles && s.handles[h] != []
  {
    hide Answered, Keys, NoRepeats, OneAnswer, WakeupsDue, StreamsSorted, TextsApart, Held;
    HeldIffBlocked(s, h);
  }

  // ----- Between the rounds -----

  /** An accepted XADD posts its job to the loop. */
  lemma PostingServes(l: L.Loop, clock: L.Clock, s: ReadState, duty: Duties, job: L.Job,
                      key: string, asked: InputStreamId, values: seq<(string, string)>, now: uint64)
    requires Serves(l, s, duty) && duty(job.id).Wakes? && forall j | j in l.onetime :: j.id != job.id
    requires XAdd(s, key, asked, values, now).1.Added?
    ensures Serves(L.DoAct(l, L.Post(job), clock), XAdd(s, key, asked, values, now).0, duty)
  {
    hide Held, Choose, Appended, Entries;
    var t := XAdd(s, key, asked, values, now).0;
    var after := L.DoAct(l, L.Post(job), clock);
    assert WakeIds(after.onetime, duty) == WakeIds(l.onetime, duty) + {job.id} by {
      assert forall j :: j in after.onetime <==> j in l.onetime || j == job;
    }
    forall h | h in t.timers && Held(t, h) ensures TimerOf(after, t, duty, h) {
      HeldIsLists(s, t, h);
      assert TimerOf(l, s, duty, h);
    }
  }

  /** An XREAD that blocks with a time limit arms its timer. */
  lemma ArmingServes(l: L.Loop, clock: L.Clock, s: ReadState, duty: Duties, job: L.Job, request: ReadRequest, ms: nat)
    requires Inv(s) && Serves(l, s, duty) && duty(job.id) == TimesOut(s.nextReader) && ms > 0 && ReadAll(s.streams, request) == []
    ensures Serves(L.DoAct(l, L.Arm(job, ms), clock), XRead(s, request, Some(ms), clock(l.tick)), duty)
  {
    hide Held, Inv, ReadAll, Keys, Resolve, Enlist, WakeIds;
    var t := XRead(s, request, Some(ms), clock(l.tick));
    var after := L.DoAct(l, L.Arm(job, ms), clock);
    var timer := L.Timed(job, clock(l.tick) + ms);
    assert after.timeouts[|l.timeouts|] == timer;
    forall h | h in t.timers && Held(t, h) ensures TimerOf(after, t, duty, h) {
      if h == s.nextReader {
        assert timer in after.timeouts && timer.fireTime == t.timers[h];
      } else {
        StillHeld(s, request, ms, clock(l.tick), h);
        assert TimerOf(l, s, duty, h);
      }
    }
  }

  lemma StillHeld(s: ReadState, request: ReadRequest, ms: nat, now: nat, h: Reader)
    requires ReadAll(s.streams, request) == [] && Held(XRead(s, request, Some(ms), now), h) && h != s.nextReader
    ensures Held(s, h)
  {
    hide ReadAll, Keys, Resolve, Enlist;
    HeldUnlessNew(s, Keys(request), h);
  }

  // ----- Whole runs of the loop -----

  /**
   What the repeated jobs do in between: a command, whose job goes to the queue or to the timers if it has
   one, and anything else that is done to the loop; and a round.
   */
  datatype Turn = Command(step: Step, job: L.Job) | Elsewhere(act: L.Act) | Pass

  datatype Server = Server(readers: ReadState, loop: L.Loop)

  /** An XREAD arms a timer if it blocks with a time limit. */
  predicate Arms(s: ReadState, step: Step) {
    step.Read? && step.block.Some? && step.block.value > 0 && ReadAll(s.streams, step.request) == []
  }

  /** An XADD posts a job if it is accepted. */
  predicate Posts(s: ReadState, step: Step) {
    step.Add? && XAdd(s, step.key, step.asked, step.values, step.now).1.Added?
  }

  ghost predicate TurnEnabled(v: Server, turn: Turn, duty: Duties, clock: L.Clock) {
    match turn
    case Command(step, job) =>
      && !step.Job? && !step.Timeout? && Enabled(v.readers, step)
      && (Posts(v.readers, step) ==> duty(job.id).Wakes? && forall j | j in v.loop.onetime :: j.id != job.id)
      && (Arms(v.readers, step) ==> duty(job.id) == TimesOut(v.readers.nextReader) && step.at == clock(v.loop.tick))
    case Elsewhere(act) => act.Drop? || !duty(act.job.id).Wakes?
    case Pass =>
      && AllCastable(v.readers)
      && StopsRightly(Round(v.loop, clock).invalid, After(v.readers, StepsOf(v.readers, Logged(v.loop, clock), duty)), duty)
  }

  /** What a command does to the loop. */
  function Scheduled(v: Server, step: Step, job: L.Job, clock: L.Clock): L.Loop {
    if Posts(v.readers, step) then L.DoAct(v.loop, L.Post(job), clock)
    else if Arms(v.readers, step) then L.DoAct(v.loop, L.Arm(job, step.block.value), clock)
    else v.loop
  }

  ghost function TakeTurn(v: Server, turn: Turn, duty: Duties, clock: L.Clock): Server
    requires TurnEnabled(v, turn, duty, clock)
  {
    match turn
    case Command(step, job) => Server(Take(v.readers, step), Scheduled(v, step, job, clock))
    case Elsewhere(act) => v.(loop := L.DoAct(v.loop, act, clock))
    case Pass => Server(After(v.readers, StepsOf(v.readers, Logged(v.loop, clock), duty)), Round(v.loop, clock))
  }

  /** The server after some turns, if each was possible when it was taken; `idle` is the loop it starts with. */
  ghost function Serve(texts: set<string>, idle: L.Loop, turns: seq<Turn>, duty: Duties, clock: L.Clock): Option<Server>
    decreases |turns|
  {
    if turns == [] then Some(Server(Start(texts), idle))
    else
      match Serve(texts, idle, turns[..|turns| - 1], duty, clock)
      case Some(before) =>
        if TurnEnabled(before, turns[|turns| - 1], duty, clock)
        then Some(TakeTurn(before, turns[|turns| - 1], duty, clock)) else None
      case None => None
  }

  lemma QuietServes(l: L.Loop, after: L.Loop, s: ReadState, t: ReadState, duty: Duties)
    requires Serves(l, s, duty) && WakeIds(after.onetime, duty) == WakeIds(l.onetime, duty) && l.timeouts <= after.timeouts
    requires |t.jobs| == |s.jobs| && forall h | h in t.timers && Held(t, h) :: h in s.timers && Held(s, h) && t.timers[h] == s.timers[h]
    ensures Serves(after, t, duty)
  {
    hide Held, WakeIds;
    forall h | h in t.timers && Held(t, h) ensures TimerOf(after, t, duty, h) {
      assert TimerOf(l, s, duty, h);
    }
  }

  /** A command and what it schedules keep the loop and the readers in agreement. */
  lemma CommandServes(v: Server, step: Step, job: L.Job, duty: Duties, clock: L.Clock)
    requires Inv(v.readers) && TimersHold(v.readers) && Serves(v.loop, v.readers, duty) && TurnEnabled(v, Command(step, job), duty, clock)
    ensures Serves(Scheduled(v, step, job, clock), Take(v.readers, step), duty)
  {
    hide Inv, TimersHold, Held, ReadAll, Enlist, Resolve, Keys, WakeIds, Choose, Appended, Entries, Serves;
    var s, t := v.readers, Take(v.readers, step);
    if Posts(s, step) {
      PostingServes(v.loop, clock, s, duty, job, step.key, step.asked, step.values, step.now);
    } else if Arms(s, step) {
      ArmingServes(v.loop, clock, s, duty, job, step.request, step.block.value);
    } else {
      forall h | h in t.timers && Held(t, h) ensures h in s.timers && Held(s, h) && t.timers[h] == s.timers[h] {
        StillTimers(s, step, h);
      }
      assert |t.jobs| == |s.jobs|;
      QuietServes(v.loop, v.loop, s, t, duty);
    }
  }

  lemma StillTimers(s: ReadState, step: Step, h: Reader)
    requires Inv(s) && TimersHold(s) && Enabled(s, step) && !step.Job? && !step.Timeout? && !Posts(s, step) && !Arms(s, step)
    requires h in Take(s, step).timers && Held(Take(s, step), h)
    ensures h in s.timers && Held(s, h) && Take(s, step).timers[h] == s.timers[h]
  {
    hide Inv, Held, ReadAll, Enlist, Resolve, Keys, Choose, Appended, Entries;
    var t := Take(s, step);
    if step.Read? {
      ReadHolds(s, step, h);
    } else {
      HeldIsLists(s, t, h);
    }
  }

  lemma ReadHolds(s: ReadState, step: Step, h: Reader)
    requires Inv(s) && TimersHold(s) && step.Read? && h in s.timers && Held(XRead(s, step.request, step.block, step.at), h)
    ensures Held(s, h)
  {
    hide Inv, ReadAll, Enlist, Resolve, Keys;
    NewIsNotHeld(s);
    assert h in s.limits.Keys && h in s.handles.Keys;
    var t := XRead(s, step.request, step.block, step.at);
    if t.waitlists == s.waitlists {
      HeldIsLists(s, t, h);
    } else {
      HeldUnlessNew(s, Keys(step.request), h);
    }
  }

  lemma ElsewhereServes(v: Server, act: L.Act, duty: Duties, clock: L.Clock)
    requires Serves(v.loop, v.readers, duty) && TurnEnabled(v, Elsewhere(act), duty, clock)
    ensures Serves(L.DoAct(v.loop, act, clock), v.readers, duty)
  {
    var after := L.DoAct(v.loop, act, clock);
    assert WakeIds(after.onetime, duty) == WakeIds(v.loop.onetime, duty) by {
      if act.Post? {
        assert forall j :: j in after.onetime <==> j in v.loop.onetime || j == act.job;
      }
    }
    hide Serves;
    ServesMore(v.loop, after, v.readers, duty);
  }

  lemma ServesMore(l: L.Loop, after: L.Loop, s: ReadState, duty: Duties)
    requires Serves(l, s, duty) && WakeIds(after.onetime, duty) == WakeIds(l.onetime, duty) && l.timeouts <= after.timeouts
    ensures Serves(after, s, duty)
  {
    hide Held, WakeIds;
    QuietServes(l, after, s, s, duty);
  }

  /** What a round that began at time `began` leaves. */
  ghost predicate Served(t: ReadState, began: nat) {
    && t.jobs == []
    && (forall h | Held(t, h) :: h in t.handles && ReadAll(t.streams, t.handles[h]) == [])
    && (forall h | Held(t, h) && h in t.limits :: t.limits[h] > began)
  }

  /** What a turn does to the readers is a run of theirs. */
  lemma TurnServes(texts: set<string>, steps: seq<Step>, v: Server, turn: Turn, duty: Duties, clock: L.Clock) returns (more: seq<Step>)
    requires Run(texts, steps) == Some(v.readers) && L.Consistent(v.loop) && L.Steady(clock) && Serves(v.loop, v.readers, duty)
    requires TurnEnabled(v, turn, duty, clock)
    ensures var after := TakeTurn(v, turn, duty, clock);
            && Run(texts, steps + more) == Some(after.readers) && L.Consistent(after.loop) && Serves(after.loop, after.readers, duty)
            && (turn.Pass? ==> Served(after.readers, clock(v.loop.tick)))
  {
    hide Run, Inv, Serves, L.Consistent, L.Steady, Take, Enabled, StepsOf, After, Round, Logged, StopsRightly, AllCastable, Posts, Arms, Held, L.DoAct;
    match turn
    case Command(step, job) =>
      RunKeeps(texts, steps);
      TimersAreReaders(texts, steps);
      more := [step];
      RunMore(texts, steps, v.readers, step);
      CommandServes(v, step, job, duty, clock);
      ScheduledIsConsistent(v, step, job, clock);
    case Elsewhere(act) =>
      more := [];
      assert steps + [] == steps;
      ElsewhereServes(v, act, duty, clock);
      L.ActAdds(v.loop, act, clock);
    case Pass =>
      more := StepsOf(v.readers, Logged(v.loop, clock), duty);
      RoundServes(texts, steps, v.readers, v.loop, clock, duty);
  }

  lemma RunMore(texts: set<string>, steps: seq<Step>, s: ReadState, step: Step)
    requires Run(texts, steps) == Some(s) && Enabled(s, step)
    ensures Run(texts, steps + [step]) == Some(Take(s, step))
  {
    hide Enabled, Take;
    assert (steps + [step])[..|steps|] == steps;
  }

  lemma ScheduledIsConsistent(v: Server, step: Step, job: L.Job, clock: L.Clock)
    requires L.Consistent(v.loop)
    ensures L.Consistent(Scheduled(v, step, job, clock))
  {
    hide L.Consistent, Posts, Arms, L.DoAct;
    L.ActAdds(v.loop, L.Post(job), clock);
    if step.Read? && step.block.Some? {
      L.ActAdds(v.loop, L.Arm(job, step.block.value), clock);
    }
    ArmsIsRead(v.readers, step);
  }

  lemma ArmsIsRead(s: ReadState, step: Step)
    ensures Arms(s, step) ==> step.Read? && step.block.Some?
  {
  }

  /**
   On every run of the loop, with any commands between the rounds and any other jobs, what happens to the
   readers is a run of theirs and the loop holds their jobs and timers; and after every round no job is left,
   nobody waits who could read, and nobody waits whose timeout was due when the round began.
   */
  lemma {:induction false} LoopServes(texts: set<string>, idle: L.Loop, turns: seq<Turn>, duty: Duties, clock: L.Clock, v: Server)
      returns (steps: seq<Step>)
    requires L.Consistent(idle) && WakeIds(idle.onetime, duty) == {} && L.Steady(clock)
    requires Serve(texts, idle, turns, duty, clock) == Some(v)
    ensures Run(texts, steps) == Some(v.readers) && L.Consistent(v.loop) && Serves(v.loop, v.readers, duty)
    ensures turns != [] && turns[|turns| - 1].Pass? ==>
              && Serve(texts, idle, turns[..|turns| - 1], duty, clock).Some?
              && Served(v.readers, clock(Serve(texts, idle, turns[..|turns| - 1], duty, clock).value.loop.tick))
    decreases |turns|
  {
    hide Run, L.Consistent, L.Steady, Serves, Served, TakeTurn, TurnEnabled, WakeIds;
    if turns == [] {
      steps := [];
      NothingServed(texts, idle, duty);
    } else {
      var before := Serve(texts, idle, turns[..|turns| - 1], duty, clock).value;
      var early := LoopServes(texts, idle, turns[..|turns| - 1], duty, clock, before);
      var more := TurnServes(texts, early, before, turns[|turns| - 1], duty, clock);
      steps := early + more;
    }
  }

  // ----- A round is possible -----

  /** No job of the loop does anything to the loop. */
  ghost predicate Inert(l: L.Loop) {
    (forall j | j in l.onetime :: j.acts == []) && (forall t | t in l.timeouts :: t.job.acts == [])
  }

  lemma InertCall(l: L.Loop, job: L.Job, clock: L.Clock)
    requires Inert(l) && job.acts == []
    ensures var after := L.CallJob(l, job, clock); Inert(after) && after == l.(log := after.log)
  {
  }

  lemma {:induction false} InertQueue(l: L.Loop, clock: L.Clock)
    requires Inert(l)
    ensures L.RunOnetime(l, clock).invalid == l.invalid
    decreases L.Work(l)
  {
    hide L.CallJob, L.Work;
    if l.onetime != [] {
      L.WorkLess(l, clock);
      InertCall(l.(onetime := l.onetime[1..]), l.onetime[0], clock);
      InertQueue(L.CallJob(l.(onetime := l.onetime[1..]), l.onetime[0], clock), clock);
    }
  }

  lemma {:induction false} InertPass(l: L.Loop, i: nat, clock: L.Clock)
    requires Inert(l) && i <= |l.timeouts|
    ensures Inert(L.RunTimeouts(l, i, clock)) && L.RunTimeouts(l, i, clock).invalid == l.invalid
    decreases L.Work(l), |l.timeouts| - i
  {
    hide L.CallJob, L.Work, L.JobWork;
    if i < |l.timeouts| {
      if clock(l.tick) >= l.timeouts[i].fireTime {
        L.DueLess(l, i, clock);
        InertCall(L.Popped(l, i), l.timeouts[i].job, clock);
        InertPass(L.CallJob(L.Popped(l, i), l.timeouts[i].job, clock), i, clock);
      } else {
        L.ReadingIsNoWork(l);
        InertPass(l.(tick := l.tick + 1), i + 1, clock);
      }
    }
  }

  /** Jobs that do nothing to the loop stand in nobody's way. */
  lemma RoundPossible(v: Server, duty: Duties, clock: L.Clock)
    requires Inert(v.loop) && v.loop.invalid == {} && AllCastable(v.readers)
    ensures TurnEnabled(v, Pass, duty, clock)
  {
    hide Inert, AllCastable, L.RunOnetime, L.RunTimeouts;
    InertPass(v.loop, 0, clock);
    InertQueue(L.RunTimeouts(v.loop, 0, clock), clock);
  }

  lemma NothingServed(texts: set<string>, idle: L.Loop, duty: Duties)
    requires WakeIds(idle.onetime, duty) == {}
    ensures Run(texts, []) == Some(Start(texts)) && Serves(idle, Start(texts), duty)
  {
    hide WakeIds;
    assert forall h :: !Held(Start(texts), h);
  }
}
