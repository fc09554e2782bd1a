/**
 The event loop: one-time jobs, timeout jobs and their handles. What a job does to the loop is part of
 it: it may post jobs, arm timers and invalidate jobs, in order. The clock is read once for every timer
 looked at or armed; the k-th reading is `clock(k)`.
 */
module EventLoops {

  type JobId = nat

  datatype Job = Job(id: JobId, acts: seq<Act>)

  datatype Act = Post(job: Job) | Arm(job: Job, ms: nat) | Drop(id: JobId)

  datatype Timed = Timed(job: Job, fireTime: nat)

  /** A job's function was called, or the job was invalidated. */
  datatype Event = Ran(id: JobId) | Dropped(id: JobId)

  /** `tick` counts the clock readings, `log` is history. */
  datatype Loop = Loop(onetime: seq<Job>, timeouts: seq<Timed>, invalid: set<JobId>, tick: nat, log: seq<Event>)

  type Clock = nat -> nat

  /** Later readings are not earlier times. */
  ghost predicate Steady(clock: Clock) {
    forall i: nat, j: nat | i <= j :: clock(i) <= clock(j)
  }

  /** No job runs after it was invalidated. */
  ghost predicate NeverAfterDrop(log: seq<Event>) {
    forall i, j | 0 <= i < j < |log| && log[i].Dropped? && log[j].Ran? :: log[i].id != log[j].id
  }

  ghost predicate Consistent(l: Loop) {
    (forall id :: id in l.invalid <==> Dropped(id) in l.log) && NeverAfterDrop(l.log)
  }

  function DoAct(l: Loop, act: Act, clock: Clock): Loop {
    match act
    case Post(job) => l.(onetime := l.onetime + [job])
    case Arm(job, ms) => l.(timeouts := l.timeouts + [Timed(job, clock(l.tick) + ms)], tick := l.tick + 1)
    case Drop(id) => l.(invalid := l.invalid + {id}, log := l.log + [Dropped(id)])
  }

  /** A job's acts when it is called. */
  function Perform(l: Loop, acts: seq<Act>, clock: Clock): Loop
    decreases |acts|
  {
    if acts == [] then l else Perform(DoAct(l, acts[0], clock), acts[1..], clock)
  }

  /** Calls a job unless it was invalidated. */
  function CallJob(l: Loop, job: Job, clock: Clock): Loop {
    if job.id in l.invalid then l else Perform(l.(log := l.log + [Ran(job.id)]), job.acts, clock)
  }

  // ----- Finitely much work -----

  function JobWork(job: Job): nat
    decreases job
  {
    1 + ActsWork(job.acts)
  }

  function ActsWork(acts: seq<Act>): nat
    decreases acts
  {
    if acts == [] then 0
    else ActWork(acts[0]) + ActsWork(acts[1..])
  }

  function ActWork(act: Act): nat
    decreases act
  {
    if act.Drop? then 0 else JobWork(act.job)
  }

  function OnetimeWork(jobs: seq<Job>): nat {
    if jobs == [] then 0 else OnetimeWork(jobs[..|jobs| - 1]) + JobWork(jobs[|jobs| - 1])
  }

  function TimedWork(jobs: seq<Timed>): nat {
    if jobs == [] then 0 else TimedWork(jobs[..|jobs| - 1]) + JobWork(jobs[|jobs| - 1].job)
  }

  function Work(l: Loop): nat {
    OnetimeWork(l.onetime) + TimedWork(l.timeouts)
  }

  lemma OnetimeMore(jobs: seq<Job>, job: Job)
    ensures OnetimeWork(jobs + [job]) == OnetimeWork(jobs) + JobWork(job)
  {
    assert (jobs + [job])[..|jobs|] == jobs;
  }

  lemma TimedMore(jobs: seq<Timed>, t: Timed)
    ensures TimedWork(jobs + [t]) == TimedWork(jobs) + JobWork(t.job)
  {
    assert (jobs + [t])[..|jobs|] == jobs;
  }

  lemma {:induction false} OnetimeTail(jobs: seq<Job>)
    requires jobs != []
    ensures OnetimeWork(jobs) == JobWork(jobs[0]) + OnetimeWork(jobs[1..])
    decreases |jobs|
  {
    hide JobWork;
    if |jobs| == 1 {
      assert jobs[..0] == [] && jobs[1..] == [];
    } else {
      var init := jobs[..|jobs| - 1];
      OnetimeTail(init);
      assert jobs[1..] == init[1..] + [jobs[|jobs| - 1]];
      OnetimeMore(init[1..], jobs[|jobs| - 1]);
    }
  }

  lemma {:induction false} TimedWithout(jobs: seq<Timed>, i: nat)
    requires i < |jobs|
    ensures TimedWork(jobs) == JobWork(jobs[i].job) + TimedWork(jobs[..i] + jobs[i + 1..])
    decreases |jobs|
  {
    hide JobWork;
    var last := jobs[|jobs| - 1];
    if i == |jobs| - 1 {
      assert jobs[..i] + jobs[i + 1..] == jobs[..i];
    } else {
      var init := jobs[..|jobs| - 1];
      TimedWithout(init, i);
      assert jobs[..i] + jobs[i + 1..] == init[..i] + init[i + 1..] + [last];
      TimedMore(init[..i] + init[i + 1..], last);
    }
  }

  /** Both lists, what is invalid, the log and the readings only grow. */
  ghost predicate Extends(l: Loop, after: Loop) {
    l.onetime <= after.onetime && l.timeouts <= after.timeouts && l.invalid <= after.invalid && l.log <= after.log && l.tick <= after.tick
  }

  lemma ActAdds(l: Loop, act: Act, clock: Clock)
    ensures var after := DoAct(l, act, clock);
            && Work(after) == Work(l) + ActWork(act) && Extends(l, after) && (Consistent(l) ==> Consistent(after))
    ensures forall i | |l.log| <= i < |DoAct(l, act, clock).log| :: DoAct(l, act, clock).log[i].Dropped?
  {
    hide JobWork, OnetimeWork, TimedWork;
    match act
    case Post(job) => OnetimeMore(l.onetime, job);
    case Arm(job, ms) => TimedMore(l.timeouts, Timed(job, clock(l.tick) + ms));
    case Drop(id) =>
      forall x ensures Dropped(x) in l.log + [Dropped(id)] <==> Dropped(x) in l.log || x == id {
        assert (l.log + [Dropped(id)])[|l.log|] == Dropped(id);
      }
  }

  /** Acts add work, and only that of the jobs they carry. */
  lemma {:induction false} PerformAdds(l: Loop, acts: seq<Act>, clock: Clock)
    ensures var after := Perform(l, acts, clock);
            && Work(after) == Work(l) + ActsWork(acts) && Extends(l, after) && (Consistent(l) ==> Consistent(after))
    ensures forall i | |l.log| <= i < |Perform(l, acts, clock).log| :: Perform(l, acts, clock).log[i].Dropped?
    decreases |acts|
  {
    hide Work, DoAct, ActWork, Consistent;
    if acts != [] {
      var next := DoAct(l, acts[0], clock);
      ActAdds(l, acts[0], clock);
      PerformAdds(next, acts[1..], clock);
      var after := Perform(l, acts, clock);
      assert forall i | |l.log| <= i < |next.log| :: after.log[i] == next.log[i];
    }
  }

  /** A call logs its job first, unless that is invalid, and no other job. */
  lemma CallAdds(l: Loop, job: Job, clock: Clock)
    ensures var after := CallJob(l, job, clock);
            && Work(after) < Work(l) + JobWork(job) && Extends(l, after) && (Consistent(l) ==> Consistent(after))
            && (job.id in l.invalid ==> after == l)
            && (job.id !in l.invalid ==> |l.log| < |after.log| && after.log[|l.log|] == Ran(job.id))
            && forall i | |l.log| < i < |after.log| :: after.log[i].Dropped?
  {
    hide OnetimeWork, TimedWork, Perform;
    if job.id !in l.invalid {
      var called := l.(log := l.log + [Ran(job.id)]);
      PerformAdds(called, job.acts, clock);
      if Consistent(l) {
        RunsValid(l.log, job.id);
      }
    }
  }

  lemma RunsValid(log: seq<Event>, id: JobId)
    requires NeverAfterDrop(log) && Dropped(id) !in log
    ensures NeverAfterDrop(log + [Ran(id)])
    ensures forall x :: Dropped(x) in log + [Ran(id)] <==> Dropped(x) in log
  {
    assert forall i | 0 <= i < |log| :: log[i] in log;
  }

  // ----- The one-time queue -----

  lemma WorkLess(l: Loop, clock: Clock)
    requires l.onetime != []
    ensures Work(CallJob(l.(onetime := l.onetime[1..]), l.onetime[0], clock)) < Work(l)
  {
    hide CallJob, JobWork;
    OnetimeTail(l.onetime);
    CallAdds(l.(onetime := l.onetime[1..]), l.onetime[0], clock);
  }

  /** Runs one-time jobs, the posted ones too, until there is none. */
  function RunOnetime(l: Loop, clock: Clock): Loop
    decreases Work(l)
  {
    if l.onetime == [] then l
    else
      WorkLess(l, clock);
      RunOnetime(CallJob(l.(onetime := l.onetime[1..]), l.onetime[0], clock), clock)
  }

  /** The front job, and the rest of the queue. */
  lemma FrontStep(l: Loop, clock: Clock)
    requires l.onetime != []
    ensures var rest, job := l.(onetime := l.onetime[1..]), l.onetime[0];
            var next := CallJob(rest, job, clock);
            && rest.onetime <= next.onetime && RunOnetime(l, clock) == RunOnetime(next, clock) && Work(next) < Work(l)
            && l.timeouts <= next.timeouts && l.invalid <= next.invalid && l.log <= next.log && l.tick <= next.tick
            && (Consistent(l) ==> Consistent(next))
            && (job.id !in l.invalid ==> |l.log| < |next.log| && next.log[|l.log|] == Ran(job.id))
  {
    hide Work, CallJob, JobWork, Consistent;
    WorkLess(l, clock);
    SameLog(l, l.(onetime := l.onetime[1..]));
    CallAdds(l.(onetime := l.onetime[1..]), l.onetime[0], clock);
  }

  /**
   When the one-time queue has run it is empty, and no job ran after it had been invalidated, be it before
   or by a job of the queue; the front of the queue ran first.
   */
  lemma {:induction false} OnetimeDrains(l: Loop, clock: Clock)
    requires Consistent(l)
    ensures var after := RunOnetime(l, clock);
            && after.onetime == [] && Consistent(after)
            && l.log <= after.log && l.invalid <= after.invalid && l.timeouts <= after.timeouts && l.tick <= after.tick
            && (l.onetime != [] && l.onetime[0].id !in l.invalid ==> |l.log| < |after.log| && after.log[|l.log|] == Ran(l.onetime[0].id))
    decreases Work(l)
  {
    hide Work, CallJob, Consistent;
    if l.onetime != [] {
      FrontStep(l, clock);
      OnetimeDrains(CallJob(l.(onetime := l.onetime[1..]), l.onetime[0], clock), clock);
    }
  }

  /** A queued job runs, unless somebody invalidates it. */
  lemma {:induction false} QueuedJobsRun(l: Loop, clock: Clock, k: nat)
    requires Consistent(l) && k < |l.onetime|
    ensures var after, id := RunOnetime(l, clock), l.onetime[k].id;
            && l.log <= after.log && l.invalid <= after.invalid
            && (id !in after.invalid ==> Ran(id) in after.log[|l.log|..])
    decreases Work(l)
  {
    hide Work, CallJob, Consistent, RunOnetime;
    var next, after := CallJob(l.(onetime := l.onetime[1..]), l.onetime[0], clock), RunOnetime(l, clock);
    FrontStep(l, clock);
    OnetimeDrains(l, clock);
    OnetimeDrains(next, clock);
    if k == 0 {
      assert l.onetime[0].id !in after.invalid ==> after.log[|l.log|..][0] == Ran(l.onetime[0].id);
    } else {
      assert next.onetime[k - 1] == l.onetime[1..][k - 1] == l.onetime[k];
      QueuedJobsRun(next, clock, k - 1);
      assert after.log[|next.log|..] == after.log[|l.log|..][|next.log| - |l.log|..];
    }
  }

  lemma SameLog(l: Loop, after: Loop)
    requires after.invalid == l.invalid && after.log == l.log
    ensures Consistent(l) <==> Consistent(after)
  {
  }

  // ----- The timeouts -----

  /** The loop after the clock was read for the timer at position `i`, which is due and leaves the list. */
  function Popped(l: Loop, i: nat): Loop
    requires i < |l.timeouts|
  {
    l.(timeouts := l.timeouts[..i] + l.timeouts[i + 1..], tick := l.tick + 1)
  }

  lemma DueLess(l: Loop, i: nat, clock: Clock)
    requires i < |l.timeouts|
    ensures var next := CallJob(Popped(l, i), l.timeouts[i].job, clock);
            Popped(l, i).timeouts <= next.timeouts && Work(next) < Work(l)
  {
    hide CallJob, JobWork;
    TimedWithout(l.timeouts, i);
    CallAdds(Popped(l, i), l.timeouts[i].job, clock);
  }

  lemma ReadingIsNoWork(l: Loop)
    ensures Work(l.(tick := l.tick + 1)) == Work(l)
  {
  }

  /** One pass over the timeout list from position `i`: due jobs leave it and are called. */
  function RunTimeouts(l: Loop, i: nat, clock: Clock): Loop
    requires i <= |l.timeouts|
    decreases Work(l), |l.timeouts| - i
  {
    if i == |l.timeouts| then l
    else if clock(l.tick) >= l.timeouts[i].fireTime then
      DueLess(l, i, clock);
      RunTimeouts(CallJob(Popped(l, i), l.timeouts[i].job, clock), i, clock)
    else
      ReadingIsNoWork(l);
      RunTimeouts(l.(tick := l.tick + 1), i + 1, clock)
  }

  /** The timers that fire later than `now`. */
  function LaterThan(timeouts: seq<Timed>, now: nat): seq<Timed> {
    if timeouts == [] then []
    else (if timeouts[0].fireTime > now then [timeouts[0]] else []) + LaterThan(timeouts[1..], now)
  }

  lemma {:induction false} LaterAppend(a: seq<Timed>, b: seq<Timed>, now: nat)
    ensures LaterThan(a + b, now) == LaterThan(a, now) + LaterThan(b, now)
  {
    if a == [] {
      assert a + b == b;
    } else {
      assert (a + b)[0] == a[0] && (a + b)[1..] == a[1..] + b;
      LaterAppend(a[1..], b, now);
    }
  }

  lemma LaterWithoutDue(timeouts: seq<Timed>, i: nat, more: seq<Timed>, now: nat)
    requires i < |timeouts| && timeouts[i].fireTime <= now
    ensures LaterThan(timeouts, now) <= LaterThan(timeouts[..i] + timeouts[i + 1..] + more, now)
  {
    var due := timeouts[i];
    assert timeouts == timeouts[..i] + ([due] + timeouts[i + 1..]);
    LaterAppend(timeouts[..i], [due] + timeouts[i + 1..], now);
    assert ([due] + timeouts[i + 1..])[1..] == timeouts[i + 1..];
    LaterAppend(timeouts[..i], timeouts[i + 1..], now);
    LaterAppend(timeouts[..i] + timeouts[i + 1..], more, now);
  }

  /** One due job of a pass, and the rest of it. */
  lemma DueStep(l: Loop, i: nat, clock: Clock)
    requires i < |l.timeouts| && l.timeouts[i].fireTime <= clock(l.tick)
    ensures var rest, job := Popped(l, i), l.timeouts[i].job;
            var next := CallJob(rest, job, clock);
            && rest.timeouts <= next.timeouts && RunTimeouts(l, i, clock) == RunTimeouts(next, i, clock) && Work(next) < Work(l)
            && l.onetime <= next.onetime && l.invalid <= next.invalid && l.log <= next.log && l.tick < next.tick
            && (Consistent(l) ==> Consistent(next))
            && (job.id !in l.invalid ==> |l.log| < |next.log| && next.log[|l.log|] == Ran(job.id))
  {
    hide Work, CallJob, JobWork, Consistent;
    DueLess(l, i, clock);
    SameLog(l, Popped(l, i));
    CallAdds(Popped(l, i), l.timeouts[i].job, clock);
  }

  lemma NotDueStep(l: Loop, i: nat, clock: Clock)
    requires i < |l.timeouts| && l.timeouts[i].fireTime > clock(l.tick)
    ensures var next := l.(tick := l.tick + 1);
            RunTimeouts(l, i, clock) == RunTimeouts(next, i + 1, clock) && Work(next) == Work(l) && (Consistent(l) ==> Consistent(next))
  {
    hide CallJob, JobWork, OnetimeWork, TimedWork;
    SameLog(l, l.(tick := l.tick + 1));
  }

  /** No job runs in a pass after it was invalidated, be it before the pass or by an earlier job of it. */
  lemma {:induction false} PassRunsValid(l: Loop, i: nat, clock: Clock)
    requires i <= |l.timeouts| && Consistent(l)
    ensures var after := RunTimeouts(l, i, clock);
            Consistent(after) && l.log <= after.log && l.invalid <= after.invalid && l.onetime <= after.onetime && l.tick <= after.tick
    decreases Work(l), |l.timeouts| - i
  {
    hide Work, CallJob, JobWork, Consistent;
    if i < |l.timeouts| {
      if clock(l.tick) >= l.timeouts[i].fireTime {
        DueStep(l, i, clock);
        PassRunsValid(CallJob(Popped(l, i), l.timeouts[i].job, clock), i, clock);
      } else {
        NotDueStep(l, i, clock);
        PassRunsValid(l.(tick := l.tick + 1), i + 1, clock);
      }
    }
  }

  /**
   A pass leaves no timer that was due at its first clock reading, not even one armed by a job it ran,
   though jobs leave the list while it is walked and time goes on.
   */
  lemma {:induction false} PassLeavesNoneDue(l: Loop, i: nat, clock: Clock, first: nat)
    requires i <= |l.timeouts| && Steady(clock) && first <= clock(l.tick)
    requires forall j | 0 <= j < i :: l.timeouts[j].fireTime > first
    ensures forall t | t in RunTimeouts(l, i, clock).timeouts :: t.fireTime > first
    decreases Work(l), |l.timeouts| - i
  {
    hide Work, CallJob, JobWork, Consistent;
    if i < |l.timeouts| {
      if clock(l.tick) >= l.timeouts[i].fireTime {
        DueStep(l, i, clock);
        var next := CallJob(Popped(l, i), l.timeouts[i].job, clock);
        assert clock(l.tick) <= clock(next.tick);
        assert forall j | 0 <= j < i :: next.timeouts[j] == l.timeouts[j];
        PassLeavesNoneDue(next, i, clock, first);
      } else {
        NotDueStep(l, i, clock);
        assert clock(l.tick) <= clock(l.tick + 1);
        PassLeavesNoneDue(l.(tick := l.tick + 1), i + 1, clock, first);
      }
    }
  }

  /** The timers that fire later than the time the pass ends at are kept, in their order. */
  lemma {:induction false} PassKeepsLater(l: Loop, i: nat, clock: Clock, end: nat)
    requires i <= |l.timeouts| && Steady(clock) && clock(RunTimeouts(l, i, clock).tick) <= end
    ensures LaterThan(l.timeouts, end) <= LaterThan(RunTimeouts(l, i, clock).timeouts, end)
    ensures l.tick <= RunTimeouts(l, i, clock).tick
    decreases Work(l), |l.timeouts| - i
  {
    hide Work, CallJob, JobWork, Consistent, LaterThan;
    if i < |l.timeouts| {
      if clock(l.tick) >= l.timeouts[i].fireTime {
        DueStep(l, i, clock);
        var rest := Popped(l, i);
        var next := CallJob(rest, l.timeouts[i].job, clock);
        PassKeepsLater(next, i, clock, end);
        assert clock(l.tick) <= clock(RunTimeouts(l, i, clock).tick);
        assert next.timeouts == rest.timeouts + next.timeouts[|rest.timeouts|..];
        LaterWithoutDue(l.timeouts, i, next.timeouts[|rest.timeouts|..], end);
      } else {
        NotDueStep(l, i, clock);
        PassKeepsLater(l.(tick := l.tick + 1), i + 1, clock, end);
      }
    }
  }

  /** Every timer that is due from the position on runs its job, unless somebody invalidates it. */
  lemma {:induction false} DueTimersRun(l: Loop, i: nat, clock: Clock, k: nat)
    requires i <= k < |l.timeouts| && l.timeouts[k].fireTime <= clock(l.tick) && Steady(clock) && Consistent(l)
    ensures var after, id := RunTimeouts(l, i, clock), l.timeouts[k].job.id;
            && l.log <= after.log && l.invalid <= after.invalid
            && (id !in after.invalid ==> Ran(id) in after.log[|l.log|..])
    decreases Work(l), |l.timeouts| - i
  {
    hide Work, CallJob, JobWork, RunTimeouts, Consistent;
    PassRunsValid(l, i, clock);
    var after := RunTimeouts(l, i, clock);
    if clock(l.tick) >= l.timeouts[i].fireTime {
      DueStep(l, i, clock);
      var rest := Popped(l, i);
      var next := CallJob(rest, l.timeouts[i].job, clock);
      PassRunsValid(next, i, clock);
      if k == i {
        assert l.timeouts[i].job.id !in after.invalid ==> after.log[|l.log|..][0] == Ran(l.timeouts[i].job.id);
      } else {
        assert next.timeouts[k - 1] == rest.timeouts[k - 1] == l.timeouts[k];
        assert clock(l.tick) <= clock(next.tick);
        DueTimersRun(next, i, clock, k - 1);
        assert after.log[|next.log|..] == after.log[|l.log|..][|next.log| - |l.log|..];
      }
    } else {
      NotDueStep(l, i, clock);
      assert clock(l.tick) <= clock(l.tick + 1);
      DueTimersRun(l.(tick := l.tick + 1), i + 1, clock, k);
    }
  }

  /** A timer from the position on is kept, or its job ran, or somebody invalidated it. */
  lemma {:induction false} TimersKeptOrRun(l: Loop, i: nat, clock: Clock, t: Timed)
    requires i <= |l.timeouts| && t in l.timeouts && Consistent(l)
    ensures var after, id := RunTimeouts(l, i, clock), t.job.id;
            && l.log <= after.log && l.invalid <= after.invalid
            && (t in after.timeouts || id in after.invalid || Ran(id) in after.log[|l.log|..])
    decreases Work(l), |l.timeouts| - i
  {
    hide Work, CallJob, JobWork, RunTimeouts, Consistent;
    PassRunsValid(l, i, clock);
    if i == |l.timeouts| {
      assert RunTimeouts(l, i, clock) == l by { PassEnds(l, clock); }
    } else if clock(l.tick) >= l.timeouts[i].fireTime {
      DueStep(l, i, clock);
      var rest, after := Popped(l, i), RunTimeouts(l, i, clock);
      var next := CallJob(rest, l.timeouts[i].job, clock);
      PassRunsValid(next, i, clock);
      if t == l.timeouts[i] {
        assert t.job.id !in after.invalid ==> after.log[|l.log|..][0] == Ran(t.job.id);
      } else {
        StaysListed(l.timeouts, i, t);
        assert t in next.timeouts;
        TimersKeptOrRun(next, i, clock, t);
        assert after.log[|next.log|..] == after.log[|l.log|..][|next.log| - |l.log|..];
      }
    } else {
      NotDueStep(l, i, clock);
      TimersKeptOrRun(l.(tick := l.tick + 1), i + 1, clock, t);
    }
  }

  lemma PassEnds(l: Loop, clock: Clock)
    ensures RunTimeouts(l, |l.timeouts|, clock) == l
  {
  }

  lemma StaysListed(timeouts: seq<Timed>, i: nat, t: Timed)
    requires i < |timeouts| && t in timeouts && t != timeouts[i]
    ensures t in timeouts[..i] + timeouts[i + 1..]
  {
    var k :| 0 <= k < |timeouts| && timeouts[k] == t;
    if k < i {
      assert timeouts[..i][k] == t;
    } else {
      assert timeouts[i + 1..][k - i - 1] == t;
    }
  }

  // ----- Invalidating, arming, and the order of the queue -----

  /** The jobs that some acts invalidate. */
  predicate Drops(acts: seq<Act>, id: JobId) {
    exists i | 0 <= i < |acts| :: acts[i] == Drop(id)
  }

  lemma {:induction false} PerformDrops(l: Loop, acts: seq<Act>, clock: Clock, id: JobId)
    ensures id in Perform(l, acts, clock).invalid <==> id in l.invalid || Drops(acts, id)
    decreases |acts|
  {
    if acts != [] {
      PerformDrops(DoAct(l, acts[0], clock), acts[1..], clock, id);
      assert forall i | 0 <= i < |acts[1..]| :: acts[1..][i] == acts[i + 1];
      if Drops(acts, id) && acts[0] != Drop(id) {
        var i :| 0 <= i < |acts| && acts[i] == Drop(id);
        assert acts[1..][i - 1] == Drop(id);
      }
      if Drops(acts[1..], id) {
        var i :| 0 <= i < |acts[1..]| && acts[1..][i] == Drop(id);
        assert acts[i + 1] == Drop(id);
      }
    }
  }

  /** A job that runs makes exactly those invalid that it drops, and one that is called when invalid none. */
  lemma CallDrops(l: Loop, job: Job, clock: Clock, id: JobId)
    ensures id in CallJob(l, job, clock).invalid <==> id in l.invalid || (job.id !in l.invalid && Drops(job.acts, id))
  {
    hide Drops;
    PerformDrops(l.(log := l.log + [Ran(job.id)]), job.acts, clock, id);
  }

  /** What is invalid does not run any more, neither from the queue nor by a timer. */
  lemma InvalidNeverRuns(l: Loop, clock: Clock, id: JobId)
    requires Consistent(l) && id in l.invalid
    ensures var drained, passed := RunOnetime(l, clock), RunTimeouts(l, 0, clock);
            && l.log <= drained.log && l.log <= passed.log && id in drained.invalid && id in passed.invalid
            && Ran(id) !in drained.log[|l.log|..] && Ran(id) !in passed.log[|l.log|..]
  {
    hide RunOnetime, RunTimeouts;
    OnetimeDrains(l, clock);
    PassRunsValid(l, 0, clock);
    NotAfterDrop(l.log, RunOnetime(l, clock).log, id);
    NotAfterDrop(l.log, RunTimeouts(l, 0, clock).log, id);
  }

  lemma NotAfterDrop(log: seq<Event>, after: seq<Event>, id: JobId)
    requires log <= after && Dropped(id) in log && NeverAfterDrop(after)
    ensures Ran(id) !in after[|log|..]
  {
    var i :| 0 <= i < |log| && log[i] == Dropped(id);
    assert after[i] == Dropped(id);
    assert forall j | 0 <= j < |after[|log|..]| :: after[|log|..][j] == after[|log| + j];
  }

  /** A timer armed for `ms` milliseconds stays through every pass that ends before they are over. */
  lemma ArmedStays(l: Loop, clock: Clock, job: Job, ms: nat)
    requires Steady(clock)
    ensures var armed := DoAct(l, Arm(job, ms), clock);
            var after := RunTimeouts(armed, 0, clock);
            clock(after.tick) < clock(l.tick) + ms ==> exists t | t in after.timeouts :: t.job == job && t.fireTime == clock(l.tick) + ms
  {
    hide RunTimeouts, Steady;
    var armed := DoAct(l, Arm(job, ms), clock);
    var after := RunTimeouts(armed, 0, clock);
    var timer, end := Timed(job, clock(l.tick) + ms), clock(after.tick);
    if end < timer.fireTime {
      PassKeepsLater(armed, 0, clock, end);
      assert armed.timeouts[|l.timeouts|] == timer;
      LaterHas(armed.timeouts, end, timer);
      LaterHas(after.timeouts, end, timer);
    }
  }

  lemma {:induction false} LaterHas(timeouts: seq<Timed>, now: nat, t: Timed)
    ensures t in LaterThan(timeouts, now) <==> t in timeouts && t.fireTime > now
  {
    if timeouts != [] {
      LaterHas(timeouts[1..], now, t);
      assert timeouts == [timeouts[0]] + timeouts[1..];
    }
  }

  /** It runs in every pass that begins when they are over, unless somebody invalidates it. */
  lemma ArmedRuns(l: Loop, clock: Clock, job: Job, ms: nat, later: nat)
    requires Steady(clock) && Consistent(l) && l.tick < later && clock(l.tick) + ms <= clock(later)
    ensures var armed := DoAct(l, Arm(job, ms), clock).(tick := later);
            var after := RunTimeouts(armed, 0, clock);
            l.log <= after.log && (job.id !in after.invalid ==> Ran(job.id) in after.log[|l.log|..])
  {
    hide RunTimeouts, Steady, Consistent;
    var armed := DoAct(l, Arm(job, ms), clock).(tick := later);
    assert armed.timeouts[|l.timeouts|] == Timed(job, clock(l.tick) + ms);
    SameLog(l, armed);
    DueTimersRun(armed, 0, clock, |l.timeouts|);
  }

  /** Queued jobs run in the order they were queued in. */
  lemma {:induction false} QueueOrder(l: Loop, clock: Clock, i: nat, j: nat) returns (p: nat, q: nat)
    requires Consistent(l) && i < j < |l.onetime|
    requires l.onetime[i].id !in RunOnetime(l, clock).invalid && l.onetime[j].id !in RunOnetime(l, clock).invalid
    ensures var log := RunOnetime(l, clock).log;
            |l.log| <= p < q < |log| && log[p] == Ran(l.onetime[i].id) && log[q] == Ran(l.onetime[j].id)
    decreases Work(l)
  {
    hide Work, CallJob, Consistent, RunOnetime;
    var next, after := CallJob(l.(onetime := l.onetime[1..]), l.onetime[0], clock), RunOnetime(l, clock);
    FrontStep(l, clock);
    OnetimeDrains(l, clock);
    OnetimeDrains(next, clock);
    assert next.onetime[j - 1] == l.onetime[1..][j - 1] == l.onetime[j];
    if i == 0 {
      p := |l.log|;
      QueuedJobsRun(next, clock, j - 1);
      var more := after.log[|next.log|..];
      var k :| 0 <= k < |more| && more[k] == Ran(l.onetime[j].id);
      q := |next.log| + k;
    } else {
      assert next.onetime[i - 1] == l.onetime[1..][i - 1] == l.onetime[i];
      p, q := QueueOrder(next, clock, i - 1, j - 1);
    }
  }

  // ----- The object -----

  class EventLoop {
    var onetimeJobs: seq<Job>
    var timeoutJobs: seq<Timed>
    /** The jobs whose wrapper is not valid any more. */
    var invalid: set<JobId>
    /** How often the clock was read. */
    var tick: nat
    ghost var log: seq<Event>

    constructor ()
      ensures Model() == Loop([], [], {}, 0, []) && Valid()
    {
      onetimeJobs, timeoutJobs, invalid, tick, log := [], [], {}, 0, [];
    }

    ghost function Model(): Loop
      reads this
    {
      Loop(onetimeJobs, timeoutJobs, invalid, tick, log)
    }

    /** No job has run after it was invalidated. */
    ghost predicate Valid()
      reads this
    {
      Consistent(Model())
    }

    method PostJob(job: Job) returns (handle: JobHandle)
      requires Valid()
      modifies this`onetimeJobs
      ensures Valid() && onetimeJobs == old(onetimeJobs) + [job]
      ensures fresh(handle) && handle.loop == this && handle.job == job.id && handle.doInvalidate
    {
      onetimeJobs := onetimeJobs + [job];
      handle := new JobHandle(this, job.id);
    }

    method SetTimeout(ms: nat, job: Job, clock: Clock) returns (handle: JobHandle)
      requires Valid()
      modifies this`timeoutJobs, this`tick
      ensures Valid() && timeoutJobs == old(timeoutJobs) + [Timed(job, clock(old(tick)) + ms)] && tick == old(tick) + 1
      ensures fresh(handle) && handle.loop == this && handle.job == job.id && handle.doInvalidate
    {
      timeoutJobs := timeoutJobs + [Timed(job, clock(tick) + ms)];
      tick := tick + 1;
      handle := new JobHandle(this, job.id);
    }

    /** Calls a job; what its function does to the loop are its acts. */
    method Call(job: Job, clock: Clock)
      requires Valid()
      modifies this
      ensures Valid() && Model() == CallJob(old(Model()), job, clock)
    {
      CallAdds(Model(), job, clock);
      hide Consistent;
      if job.id in invalid {
        return;
      }
      log := log + [Ran(job.id)];
      ghost var start := Model();
      var i := 0;
      assert job.acts[0..] == job.acts;
      while i < |job.acts|
        invariant 0 <= i <= |job.acts|
        invariant Perform(Model(), job.acts[i..], clock) == Perform(start, job.acts, clock)
      {
        assert job.acts[i..][1..] == job.acts[i + 1..];
        match job.acts[i] {
          case Post(next) => onetimeJobs := onetimeJobs + [next];
          case Arm(next, ms) =>
            timeoutJobs := timeoutJobs + [Timed(next, clock(tick) + ms)];
            tick := tick + 1;
          case Drop(id) =>
            invalid := invalid + {id};
            log := log + [Dropped(id)];
        }
        i := i + 1;
      }
    }

    method RunOnetimeJobs(clock: Clock)
      requires Valid()
      modifies this
      ensures Valid() && Model() == RunOnetime(old(Model()), clock)
    {
      hide CallJob, Work, Consistent;
      while |onetimeJobs| > 0
        invariant RunOnetime(Model(), clock) == RunOnetime(old(Model()), clock) && Valid()
        decreases Work(Model())
      {
        WorkLess(Model(), clock);
        SameLog(Model(), Model().(onetime := onetimeJobs[1..]));
        var job := onetimeJobs[0];
        onetimeJobs := onetimeJobs[1..];
        Call(job, clock);
      }
    }

    /** Walks the list while it changes: a due job is erased before it is called. */
    method RunTimeoutJobs(clock: Clock)
      requires Valid()
      modifies this
      ensures Valid() && Model() == RunTimeouts(old(Model()), 0, clock)
    {
      hide CallJob, Work, Consistent;
      var i := 0;
      while i < |timeoutJobs|
        invariant 0 <= i <= |timeoutJobs| && Valid()
        invariant RunTimeouts(Model(), i, clock) == RunTimeouts(old(Model()), 0, clock)
        decreases Work(Model()), |timeoutJobs| - i
      {
        DueLess(Model(), i, clock);
        ReadingIsNoWork(Model());
        SameLog(Model(), Popped(Model(), i));
        SameLog(Model(), Model().(tick := tick + 1));
        var job := timeoutJobs[i];
        var now := clock(tick);
        tick := tick + 1;
        if now >= job.fireTime {
          timeoutJobs := timeoutJobs[..i] + timeoutJobs[i + 1..];
          Call(job.job, clock);
        } else {
          i := i + 1;
        }
      }
    }
  }

  /** A handle stops its job when it is invalidated, which its end does too, unless it was told to forget. */
  class JobHandle {
    const loop: EventLoop
    const job: JobId
    var doInvalidate: bool

    constructor (loop: EventLoop, job: JobId)
      ensures this.loop == loop && this.job == job && doInvalidate
    {
      this.loop, this.job, doInvalidate := loop, job, true;
    }

    method Forget()
      modifies this
      ensures !doInvalidate
    {
      doInvalidate := false;
    }

    method Invalidate()
      requires loop.Valid()
      modifies loop`invalid, loop`log
      ensures loop.Valid()
      ensures loop.invalid == if doInvalidate then old(loop.invalid) + {job} else old(loop.invalid)
    {
      if !doInvalidate {
        return;
      }
      ActAdds(loop.Model(), Drop(job), n => 0);
      loop.invalid := loop.invalid + {job};
      loop.log := loop.log + [Dropped(job)];
    }
  }
}
