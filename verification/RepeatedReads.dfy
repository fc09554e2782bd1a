/**
 What an XREAD that names a stream twice does to the others: who waits behind the place it left is not woken
 any more.
 */
module RepeatedReads {
  import opened Prelude
  import opened StreamIds
  import opened Streams
  import opened BlockingReads
  import opened Waitlists
  import opened AllReads

  // ----- Behind a place that was left -----

  /** In a list, `h` stands before every place of `r`. */
  predicate Behind(list: seq<Reader>, h: Reader, r: Reader) {
    exists i | 0 <= i < |list| :: list[i] == h && r !in list[..i]
  }

  /** Reader `r` waits on `key` alone, behind a place that `h` left there, in the list and in all jobs. */
  ghost predicate Stuck(s: ReadState, key: string, h: Reader, r: Reader) {
    && Spent(s, h) && Times(s.handles[h], key) > 1
    && r in s.handles && !Spent(s, r) && Keys(s.handles[r]) == {key}
    && Behind(List(s.waitlists, key), h, r)
    && (forall j | 0 <= j < |s.jobs| && r in s.jobs[j] :: Behind(s.jobs[j], h, r))
  }

  lemma {:induction false} EraseKeepsBehind(list: seq<Reader>, x: Reader, h: Reader, r: Reader)
    requires Behind(list, h, r) && x != h && x != r
    ensures Behind(EraseLast(list, x), h, r)
  {
    var i :| 0 <= i < |list| && list[i] == h && r !in list[..i];
    var init, last := list[..|list| - 1], list[|list| - 1];
    if i == |list| - 1 {
      assert r !in EraseLast(init, x) by { EraseIsPart(init, x); }
      var rest := EraseLast(init, x);
      assert (rest + [last])[|rest|] == h && (rest + [last])[..|rest|] == rest;
    } else {
      assert init[i] == h && init[..i] == list[..i];
      if last != x {
        EraseKeepsBehind(init, x, h, r);
        BehindMore(EraseLast(init, x), [last], h, r);
      }
    }
  }

  lemma BehindMore(list: seq<Reader>, more: seq<Reader>, h: Reader, r: Reader)
    requires Behind(list, h, r)
    ensures Behind(list + more, h, r)
  {
    var i :| 0 <= i < |list| && list[i] == h && r !in list[..i];
    assert (list + more)[i] == h && (list + more)[..i] == list[..i];
  }

  /** A job that holds `r` behind `h` stops before it gets there. */
  lemma {:induction false} WakeListStops(s: ReadState, job: seq<Reader>, key: string, h: Reader, r: Reader)
    requires InvEach(s) && Stuck(s, key, h, r) && (r in job ==> Behind(job, h, r))
    ensures Stuck(WakeList(s, job), key, h, r)
    decreases |job|
  {
    hide InvEach, Stuck, Behind;
    if job != [] && WakeEach(s, job[0]).Some? {
      hide WakeEach;
      NextIsNeither(s, job, key, h, r);
      WakeKeepsStuck(s, job[0], key, h, r);
      WakeListStops(WakeEach(s, job[0]).value, job[1..], key, h, r);
    }
  }

  lemma NextIsNeither(s: ReadState, job: seq<Reader>, key: string, h: Reader, r: Reader)
    requires InvEach(s) && Stuck(s, key, h, r) && (r in job ==> Behind(job, h, r))
    requires job != [] && WakeEach(s, job[0]).Some?
    ensures job[0] != r && job[0] != h && (r in job[1..] ==> Behind(job[1..], h, r))
  {
    hide Times, Keys, Answered, StreamsSorted, ReadersOld, PlacesExact, ReadAll, Leave, Held;
    StuckIsHeld(s, key, h, r);
    if r in job {
      var i :| 0 <= i < |job| && job[i] == h && r !in job[..i];
      if i > 0 {
        assert job[..i][0] == job[0] && job[1..][i - 1] == h && job[1..][..i - 1] == job[..i][1..];
      }
    }
  }

  lemma StuckIsHeld(s: ReadState, key: string, h: Reader, r: Reader)
    requires InvEach(s) && Stuck(s, key, h, r)
    ensures Held(s, h) && WakeEach(s, h) == None
  {
    hide Times, Keys, Answered, StreamsSorted, ReadersOld, PlacesExact, Held;
    ListedIff(s, h, key);
    HeldIfListed(s, h);
  }

  lemma WakeKeepsStuck(s: ReadState, x: Reader, key: string, h: Reader, r: Reader)
    requires InvEach(s) && Stuck(s, key, h, r) && x != h && x != r && WakeEach(s, x).Some?
    ensures InvEach(WakeEach(s, x).value) && Stuck(WakeEach(s, x).value, key, h, r)
  {
    hide InvEach, Behind, Times, Keys, Answered, ReadAll, Leave, Held, List;
    if Held(s, x) && x in s.handles {
      ReplyKeepsEach(s, x);
      LeaveKeepsBehind(s.waitlists, Keys(s.handles[x]), x, key, h, r);
    }
  }

  lemma LeaveKeepsBehind(waitlists: map<string, seq<Reader>>, keys: set<string>, x: Reader, key: string, h: Reader, r: Reader)
    requires Behind(List(waitlists, key), h, r) && x != h && x != r
    ensures Behind(List(Leave(waitlists, keys, x), key), h, r)
  {
    hide Behind, EraseLast;
    if key in waitlists && key in keys {
      EraseKeepsBehind(waitlists[key], x, h, r);
    }
  }

  lemma {:induction false} EnlistedBehind(waitlists: map<string, seq<Reader>>, request: ReadRequest, n: Reader, key: string, h: Reader, r: Reader)
    requires Behind(List(waitlists, key), h, r)
    ensures Behind(List(EnlistEach(waitlists, request, n), key), h, r)
    decreases |request|
  {
    hide Behind;
    if request != [] {
      var init := request[..|request| - 1];
      EnlistedBehind(waitlists, init, n, key, h, r);
      BehindMore(List(EnlistEach(waitlists, init, n), key), [n], h, r);
    }
  }

  lemma StuckFrame(s: ReadState, t: ReadState, key: string, h: Reader, r: Reader)
    requires Stuck(s, key, h, r) && t.handles == s.handles && t.replies == s.replies && t.waitlists == s.waitlists
    requires forall j | 0 <= j < |t.jobs| && r in t.jobs[j] :: Behind(t.jobs[j], h, r)
    ensures Stuck(t, key, h, r)
  {
    hide Behind, Times, Keys, Answered, List;
  }

  lemma StuckJobs(s: ReadState, key: string, h: Reader, r: Reader)
    requires Stuck(s, key, h, r)
    ensures forall j | 0 <= j < |s.jobs| && r in s.jobs[j] :: Behind(s.jobs[j], h, r)
    ensures Behind(List(s.waitlists, key), h, r) && r in s.handles && !Spent(s, r) && Keys(s.handles[r]) == {key}
  {
    hide Behind, Times, Keys, Answered, List;
  }

  lemma ReadKeepsStuck(s: ReadState, request: ReadRequest, block: Option<nat>, now: nat, key: string, h: Reader, r: Reader)
    requires InvEach(s) && Stuck(s, key, h, r)
    ensures Stuck(ReadEach(s, request, block, now), key, h, r)
  {
    hide Behind, Times, Keys, Answered, List, StreamsSorted, PlacesExact, EnlistEach, Enlist, Resolve, ReadAll;
    var n := s.nextReader;
    assert h != n && r != n;
    if Waits(s, request, block) {
      EnlistedBehind(s.waitlists, request, n, key, h, r);
    } else {
      AnsweredMore(s.replies, Reply(n, ReadAll(s.streams, request)), h);
      AnsweredMore(s.replies, Reply(n, ReadAll(s.streams, request)), r);
    }
  }

  /** Nothing but its own timer gets such a reader out. */
  lemma StepKeepsStuck(s: ReadState, step: Step, key: string, h: Reader, r: Reader)
    requires InvEach(s) && Stuck(s, key, h, r) && EnabledEach(s, step) && step != Timeout(r)
    ensures Stuck(TakeEach(s, step), key, h, r)
  {
    hide InvEach, Stuck, Behind, Spent, Keys, List, ReadEach, WakeList, Choose, Appended, Entries;
    StuckJobs(s, key, h, r);
    match step
    case Add(k, asked, values, now) =>
      if k != key {
        ListedAlone(s, key, r, k);
      }
      StuckFrame(s, XAdd(s, k, asked, values, now).0, key, h, r);
    case Read(request, block, now) => ReadKeepsStuck(s, request, block, now, key, h, r);
    case Job =>
      var popped := s.(jobs := s.jobs[1..]);
      PopKeepsEach(s, popped);
      StuckFrame(s, popped, key, h, r);
      WakeListStops(popped, s.jobs[0], key, h, r);
    case Timeout(x) =>
      var popped := s.(timers := s.timers - {x});
      PopKeepsEach(s, popped);
      StuckFrame(s, popped, key, h, r);
      WakeListStops(popped, [x], key, h, r);
    case Store(k) => StuckFrame(s, Overwrite(s, k), key, h, r);
    case Erase(k) => StuckFrame(s, Expire(s, k), key, h, r);
  }

  lemma ListedAlone(s: ReadState, key: string, r: Reader, k: string)
    requires InvEach(s) && r in s.handles && !Spent(s, r) && Keys(s.handles[r]) == {key} && k != key
    ensures r !in List(s.waitlists, k)
  {
    hide StreamsSorted, ReadersOld, PlacesExact, Keys, Times, List, Spent;
    ListedIff(s, r, k);
  }

  /** A reader that comes to wait on a key where a place was left is stuck. */
  lemma NewIsStuck(s: ReadState, request: ReadRequest, block: Option<nat>, now: nat, key: string, h: Reader)
    requires InvEach(s) && Spent(s, h) && Times(s.handles[h], key) > 1
    requires Waits(s, request, block) && Keys(request) == {key}
    ensures Stuck(ReadEach(s, request, block, now), key, h, s.nextReader)
  {
    hide Times, Keys, Answered, List, StreamsSorted, PlacesExact, EnlistEach, Enlist, Resolve, ReadAll, Behind;
    var n := s.nextReader;
    ListedIff(s, h, key);
    ListedAreOld(s, key);
    FirstPlace(List(s.waitlists, key), h, n);
    EnlistedBehind(s.waitlists, request, n, key, h, n);
    SameKeys(s.streams, request);
    assert forall j | 0 <= j < |s.jobs| :: n !in s.jobs[j];
  }

  lemma FirstPlace(list: seq<Reader>, h: Reader, r: Reader)
    requires h in list && r !in list
    ensures Behind(list, h, r)
  {
    var i :| 0 <= i < |list| && list[i] == h;
    assert forall x | x in list[..i] :: x in list;
  }

  lemma {:induction false} RunEachPrefix(texts: set<string>, steps: seq<Step>, i: nat)
    requires i <= |steps| && RunEach(texts, steps).Some?
    ensures RunEach(texts, steps[..i]).Some?
    decreases |steps|
  {
    hide TakeEach, EnabledEach;
    if i == |steps| {
      assert steps[..i] == steps;
    } else {
      RunEachPrefix(texts, steps[..|steps| - 1], i);
      assert steps[..|steps| - 1][..i] == steps[..i];
    }
  }

  lemma {:induction false} StaysStuck(texts: set<string>, steps: seq<Step>, i: nat, v: ReadState, s: ReadState, key: string, h: Reader, r: Reader)
    requires i <= |steps| && RunEach(texts, steps[..i]) == Some(v) && RunEach(texts, steps) == Some(s)
    requires Stuck(v, key, h, r) && forall j | i <= j < |steps| :: steps[j] != Timeout(r)
    ensures Stuck(s, key, h, r)
    decreases |steps|
  {
    hide InvEach, Stuck, TakeEach, EnabledEach;
    if i == |steps| {
      assert steps[..i] == steps;
    } else {
      var init := steps[..|steps| - 1];
      RunEachPrefix(texts, steps, |init|);
      assert init[..i] == steps[..i];
      var u := RunEach(texts, init).value;
      StaysStuck(texts, init, i, v, u, key, h, r);
      RunKeepsEach(texts, init, u);
      StepKeepsStuck(u, steps[|steps| - 1], key, h, r);
    }
  }

  /**
   Once a reader that named a key twice was answered, whoever comes to wait on that key alone is never
   answered, whatever is added and whatever else happens, unless its own timer fires.
   */
  lemma LaterReadersStarve(texts: set<string>, steps: seq<Step>, i: nat, v: ReadState, s: ReadState, key: string, h: Reader)
    requires i < |steps| && RunEach(texts, steps[..i]) == Some(v) && RunEach(texts, steps) == Some(s)
    requires Spent(v, h) && Times(v.handles[h], key) > 1
    requires steps[i].Read? && Waits(v, steps[i].request, steps[i].block) && Keys(steps[i].request) == {key}
    requires forall j | i < j < |steps| :: steps[j] != Timeout(v.nextReader)
    ensures Answered(s.replies, v.nextReader) == 0 && v.nextReader in s.handles && v.nextReader in List(s.waitlists, key)
  {
    hide RunEach, InvEach, Stuck, ReadEach, Waits, Keys, Times, Answered, List, Behind;
    var next := steps[..i + 1];
    RunEachPrefix(texts, steps, i + 1);
    assert next[..|next| - 1] == steps[..i] && next[|next| - 1] == steps[i];
    var u := ReadEach(v, steps[i].request, steps[i].block, steps[i].at);
    assert RunEach(texts, next) == Some(u) by { LastEach(texts, next, v); }
    RunKeepsEach(texts, steps[..i], v);
    NewIsStuck(v, steps[i].request, steps[i].block, steps[i].at, key, h);
    StaysStuck(texts, steps, i + 1, u, s, key, h, v.nextReader);
    RunKeepsEach(texts, steps, s);
    StuckIsListed(s, key, h, v.nextReader);
  }

  lemma LastEach(texts: set<string>, steps: seq<Step>, before: ReadState)
    requires steps != [] && RunEach(texts, steps[..|steps| - 1]) == Some(before) && RunEach(texts, steps).Some?
    ensures EnabledEach(before, steps[|steps| - 1]) && RunEach(texts, steps) == Some(TakeEach(before, steps[|steps| - 1]))
  {
    hide TakeEach, EnabledEach;
  }

  lemma StuckIsListed(s: ReadState, key: string, h: Reader, r: Reader)
    requires InvEach(s) && Stuck(s, key, h, r)
    ensures Answered(s.replies, r) == 0 && r in s.handles && r in List(s.waitlists, key)
  {
    hide StreamsSorted, ReadersOld, PlacesExact, Keys, Times, List, Behind, Answered;
    ListedIff(s, r, key);
  }

  // ----- A run -----

  /** A request that names a key twice. */
  function Twice(key: string): ReadRequest {
    [(key, After(NULL_ID)), (key, After(NULL_ID))]
  }

  const FIRST := Entry(StreamId(1, 1), [])
  const SECOND := Entry(StreamId(2, 1), [])

  /** Somebody blocks on a key twice and is answered; somebody else waits for what comes next, and it comes. */
  function StarvingSteps(key: string): seq<Step> {
    [Read(Twice(key), Some(0), 0), Add(key, FullId(FIRST.id), [], 1), Job,
     Read([(key, NextExpected)], Some(0), 0), Add(key, FullId(SECOND.id), [], 1), Job]
  }

  /** The states it goes through. */
  function StarvingState(key: string, n: nat): ReadState
    requires 1 <= n <= 6
  {
    var one, two := map[0 := Twice(key)], map[0 := Twice(key), 1 := [(key, After(FIRST.id))]];
    var first, second := map[key := [FIRST]], map[key := [FIRST, SECOND]];
    var answer := [Reply(0, [(key, [FIRST]), (key, [FIRST])])];
    match n
    case 1 => ReadState(map[], {}, one, map[key := [0, 0]], [], map[], 1, [], map[])
    case 2 => ReadState(first, {}, one, map[key := [0, 0]], [[0, 0]], map[], 1, [], map[])
    case 3 => ReadState(first, {}, one, map[key := [0]], [], map[], 1, answer, map[])
    case 4 => ReadState(first, {}, two, map[key := [0, 1]], [], map[], 2, answer, map[])
    case 5 => ReadState(second, {}, two, map[key := [0, 1]], [[0, 1]], map[], 2, answer, map[])
    case 6 => ReadState(second, {}, two, map[key := [0, 1]], [], map[], 2, answer, map[])
  }

  lemma NewerHere()
    ensures Newer([], NULL_ID) == [] && Newer([FIRST], NULL_ID) == [FIRST] && Newer([FIRST, SECOND], FIRST.id) == [SECOND]
  {
    assert [FIRST][1..] == [] && [FIRST, SECOND][1..] == [SECOND] && [SECOND][1..] == [];
    assert Newer([SECOND], FIRST.id) == [SECOND];
  }

  /** What a request of one key, or of the same key twice, reads. */
  lemma ReadsTwice(streams: map<string, seq<Entry>>, p: (string, ReadStreamId))
    ensures ReadAll(streams, [p]) == if ReadOne(streams, p) != [] then [(p.0, ReadOne(streams, p))] else []
    ensures ReadAll(streams, [p, p]) == ReadAll(streams, [p]) + ReadAll(streams, [p])
  {
    hide ReadOne;
    assert [p, p][1..] == [p] && [p][1..] == [] && ReadAll(streams, []) == [];
  }

  lemma TwiceListed(waitlists: map<string, seq<Reader>>, p: (string, ReadStreamId), h: Reader)
    ensures EnlistEach(waitlists, [p], h) == waitlists[p.0 := List(waitlists, p.0) + [h]]
    ensures EnlistEach(waitlists, [p, p], h) == waitlists[p.0 := List(waitlists, p.0) + [h] + [h]]
  {
    assert [p, p][..1] == [p] && [p][..0] == [] && EnlistEach(waitlists, [], h) == waitlists;
  }

  lemma BlocksTwice(key: string)
    ensures EnabledEach(Start({}), StarvingSteps(key)[0])
    ensures TakeEach(Start({}), StarvingSteps(key)[0]) == StarvingState(key, 1)
  {
    hide ReadAll, EnlistEach, Newer;
    var request, s := Twice(key), Start({});
    NewerHere();
    ReadsTwice(s.streams, request[0]);
    TwiceListed(s.waitlists, request[0], 0);
    assert Resolve(s.streams, request) == request;
    assert [] + [0] + [0] == [0, 0];
  }

  lemma AddsFirst(key: string)
    ensures XAdd(StarvingState(key, 1), key, FullId(FIRST.id), [], 1).0 == StarvingState(key, 2)
  {
    assert [] + [[0, 0]] == [[0, 0]];
  }

  lemma AnswersOnce(key: string)
    ensures EnabledEach(StarvingState(key, 2), Job) && RunJobEach(StarvingState(key, 2)) == StarvingState(key, 3)
  {
    hide ReadAll, Newer, Leave;
    var s, request := StarvingState(key, 2).(jobs := []), Twice(key);
    NewerHere();
    ReadsTwice(s.streams, request[0]);
    assert [(key, [FIRST])] + [(key, [FIRST])] == [(key, [FIRST]), (key, [FIRST])];
    HoldsZero(s, key);
    assert Keys(request) == {key} by {
      assert request[0] in request;
    }
    LeavesOne(key);
    var t := ReplyEach(s, 0);
    assert t == StarvingState(key, 3);
    ThrowsNow(t, key);
    assert [0, 0][1..] == [0] && s.jobs == [[0, 0]][1..];
    assert WakeList(s, [0, 0]) == WakeList(t, [0]);
  }

  lemma HoldsZero(s: ReadState, key: string)
    requires key in s.waitlists && 0 in s.waitlists[key] && s.replies == []
    ensures Held(s, 0) && !Spent(s, 0)
  {
  }

  lemma LeavesOne(key: string)
    ensures Leave(map[key := [0, 0]], {key}, 0) == map[key := [0]]
  {
    assert [0, 0][..1] == [0];
    assert EraseLast([0, 0], 0) == [0];
  }

  /** The place that was left throws. */
  lemma ThrowsNow(s: ReadState, key: string)
    requires key in s.waitlists && 0 in s.waitlists[key] && 0 in s.handles && |s.replies| == 1 && s.replies[0].reader == 0
    ensures WakeEach(s, 0) == None && Held(s, 0) && Spent(s, 0)
    ensures forall job | job != [] && job[0] == 0 :: WakeList(s, job) == s
  {
    assert s.replies[..0] == [];
    assert Answered(s.replies, 0) == 1;
  }

  lemma NextWaits(key: string)
    ensures EnabledEach(StarvingState(key, 3), StarvingSteps(key)[3])
    ensures TakeEach(StarvingState(key, 3), StarvingSteps(key)[3]) == StarvingState(key, 4)
  {
    hide ReadAll, EnlistEach, Newer;
    var request, s := [(key, NextExpected)], StarvingState(key, 3);
    ReadsTwice(s.streams, request[0]);
    TwiceListed(s.waitlists, request[0], 1);
    assert Resolve(s.streams, request) == [(key, After(FIRST.id))];
    assert [0] + [1] == [0, 1];
  }

  lemma AddsSecond(key: string)
    ensures XAdd(StarvingState(key, 4), key, FullId(SECOND.id), [], 1).0 == StarvingState(key, 5)
  {
    assert [FIRST][1..] == [] && Emplace([], SECOND) == [SECOND];
    assert Emplace([FIRST], SECOND) == [FIRST, SECOND];
    assert [] + [[0, 1]] == [[0, 1]];
  }

  lemma StopsShort(key: string)
    ensures EnabledEach(StarvingState(key, 5), Job) && RunJobEach(StarvingState(key, 5)) == StarvingState(key, 6)
  {
    var s := StarvingState(key, 5);
    assert s.jobs[1..] == [];
    ThrowsNow(s.(jobs := []), key);
  }

  lemma RunsOn(texts: set<string>, steps: seq<Step>, n: nat, s: ReadState, t: ReadState)
    requires n < |steps| && RunEach(texts, steps[..n]) == Some(s) && EnabledEach(s, steps[n]) && TakeEach(s, steps[n]) == t
    ensures RunEach(texts, steps[..n + 1]) == Some(t)
  {
    hide TakeEach, EnabledEach;
    assert steps[..n + 1][..n] == steps[..n] && steps[..n + 1][n] == steps[n];
  }

  /** Nothing is left to run, there is an entry for reader 1, and it waits. */
  lemma RepeatedKeyStarves(key: string)
    ensures RunEach({}, StarvingSteps(key)) == Some(StarvingState(key, 6))
    ensures var s := StarvingState(key, 6);
            && s.jobs == [] && Held(s, 1) && !Spent(s, 1) && ReadAll(s.streams, s.handles[1]) == [(key, [SECOND])]
  {
    hide XAdd, RunJobEach, ReadEach, StarvingState, RunEach, Spent, CastableEach, Held, ReadAll;
    var steps := StarvingSteps(key);
    BlocksTwice(key);
    AddsFirst(key);
    AnswersOnce(key);
    NextWaits(key);
    AddsSecond(key);
    StopsShort(key);
    assert RunEach({}, steps[..0]) == Some(Start({})) by {
      NoStepsEach({});
      assert steps[..0] == [];
    }
    RunsOn({}, steps, 0, Start({}), StarvingState(key, 1));
    RunsOn({}, steps, 1, StarvingState(key, 1), StarvingState(key, 2));
    RunsOn({}, steps, 2, StarvingState(key, 2), StarvingState(key, 3));
    RunsOn({}, steps, 3, StarvingState(key, 3), StarvingState(key, 4));
    RunsOn({}, steps, 4, StarvingState(key, 4), StarvingState(key, 5));
    RunsOn({}, steps, 5, StarvingState(key, 5), StarvingState(key, 6));
    assert steps[..6] == steps;
    StarvesAtLast(key);
  }

  lemma NoStepsEach(texts: set<string>)
    ensures RunEach(texts, []) == Some(Start(texts))
  {
  }

  lemma StarvesAtLast(key: string)
    ensures var s := StarvingState(key, 6);
            && s.jobs == [] && Held(s, 1) && 1 in s.handles && !Spent(s, 1) && ReadAll(s.streams, s.handles[1]) == [(key, [SECOND])]
  {
    hide ReadAll, Newer;
    var s := StarvingState(key, 6);
    assert key in s.waitlists && 1 in s.waitlists[key];
    assert s.replies[..0] == [] && Answered(s.replies, 1) == 0;
    NewerHere();
    ReadsTwice(s.streams, (key, After(FIRST.id)));
  }
}
