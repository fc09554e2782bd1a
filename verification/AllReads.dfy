/**
 XREAD BLOCK for every request, those that name a stream twice too. Such a reader leaves a place behind when
 it is answered. Its callback was moved away then, so the next wakeup of that place throws, and the job that
 was to wake others behind it ends there. `BlockingReads` has the runs in which nobody blocks so.
 */
module AllReads {
  import opened Prelude
  import opened Decimal
  import opened StreamIds
  import opened Streams
  import opened BlockingReads
  import opened BlockingTheorems
  import opened Waitlists

  /** A reader that blocked and was answered: its request and its callback were moved away. */
  predicate Spent(s: ReadState, h: Reader) {
    h in s.handles && Answered(s.replies, h) > 0
  }

  function ReadEach(s: ReadState, request: ReadRequest, block: Option<nat>, now: nat): ReadState {
    var t := XRead(s, request, block, now);
    if Waits(s, request, block) then t.(waitlists := EnlistEach(s.waitlists, request, s.nextReader)) else t
  }

  function ReplyEach(s: ReadState, h: Reader): ReadState
    requires h in s.handles
  {
    s.(replies := s.replies + [Reply(h, ReadAll(s.streams, s.handles[h]))],
       waitlists := Leave(s.waitlists, Keys(s.handles[h]), h))
  }

  /** Locks a handle and lets it answer; `None` if that throws. */
  function WakeEach(s: ReadState, h: Reader): Option<ReadState> {
    if !Held(s, h) || h !in s.handles then Some(s)
    else if Spent(s, h) then None
    else Some(ReplyEach(s, h))
  }

  /** The handles of a job in order, up to one that throws. */
  function WakeList(s: ReadState, job: seq<Reader>): ReadState
    decreases |job|
  {
    if job == [] then s
    else
      match WakeEach(s, job[0])
      case Some(t) => WakeList(t, job[1..])
      case None => s
  }

  function RunJobEach(s: ReadState): ReadState
    requires s.jobs != []
  {
    WakeList(s.(jobs := s.jobs[1..]), s.jobs[0])
  }

  function FireTimerEach(s: ReadState, h: Reader): ReadState {
    WakeList(s.(timers := s.timers - {h}), [h])
  }

  // ----- Runs -----

  /** No key that the reader is answered with holds a string. */
  predicate CastableEach(s: ReadState, h: Reader) {
    Held(s, h) && h in s.handles && !Spent(s, h) ==> Keys(s.handles[h]) !! s.texts
  }

  predicate EnabledEach(s: ReadState, step: Step) {
    match step
    case Add(_, _, _, _) => true
    case Read(request, _, _) => Keys(request) !! s.texts
    case Job => s.jobs != [] && forall h | h in s.jobs[0] :: CastableEach(s, h)
    case Timeout(h) => h in s.timers && CastableEach(s, h)
    case Store(_) => true
    case Erase(key) => key in s.texts
  }

  function TakeEach(s: ReadState, step: Step): ReadState
    requires EnabledEach(s, step)
  {
    match step
    case Add(key, asked, values, now) => XAdd(s, key, asked, values, now).0
    case Read(request, block, now) => ReadEach(s, request, block, now)
    case Job => RunJobEach(s)
    case Timeout(h) => FireTimerEach(s, h)
    case Store(key) => Overwrite(s, key)
    case Erase(key) => Expire(s, key)
  }

  function RunEach(texts: set<string>, steps: seq<Step>): Option<ReadState>
    decreases |steps|
  {
    if steps == [] then Some(Start(texts))
    else
      match RunEach(texts, steps[..|steps| - 1])
      case Some(before) =>
        if EnabledEach(before, steps[|steps| - 1]) then Some(TakeEach(before, steps[|steps| - 1])) else None
      case None => None
  }

  /** An XREAD that does not block, or finds something, is answered at once whatever keys it names. */
  lemma AnsweredAtOnceEach(s: ReadState, request: ReadRequest, block: Option<nat>, now: nat)
    requires StreamsSorted(s) && (block.None? || ReadAll(s.streams, request) != [])
    ensures var t := ReadEach(s, request, block, now);
            && t == s.(nextReader := s.nextReader + 1, replies := t.replies) && s.replies <= t.replies
            && |t.replies| == |s.replies| + 1 && IsAnswer(s, request, block, t.replies[|s.replies|])
  {
    hide StreamsSorted, Delivers, DistinctKeys, ReadAll;
    AnsweredAtOnce(s, request, block, now);
  }

  // ----- What holds of the lists -----

  /** How many places a reader has in the list of a key: once for every mention, one less when it was answered. */
  function PlacesLeft(s: ReadState, h: Reader, key: string): nat {
    if h !in s.handles then 0
    else
      var times := Times(s.handles[h], key);
      if Spent(s, h) && times > 0 then times - 1 else times
  }

  ghost predicate PlacesExact(s: ReadState) {
    forall key, h: Reader :: Places(List(s.waitlists, key), h) == PlacesLeft(s, h, key)
  }

  /** Readers are numbered as they come; nobody is answered twice. */
  ghost predicate ReadersOld(s: ReadState) {
    && (forall h | h in s.handles :: h < s.nextReader && Keys(s.handles[h]) <= s.waitlists.Keys)
    && (forall h: Reader :: Answered(s.replies, h) <= if h < s.nextReader then 1 else 0)
    && (forall j, h | 0 <= j < |s.jobs| && h in s.jobs[j] :: h < s.nextReader)
  }

  ghost predicate InvEach(s: ReadState) {
    StreamsSorted(s) && TextsApart(s) && ReadersOld(s) && PlacesExact(s)
  }

  lemma {:induction false} EraseKeepsOthers(list: seq<Reader>, h: Reader, x: Reader)
    requires x != h
    ensures Places(EraseLast(list, h), x) == Places(list, x)
  {
    if list != [] && list[|list| - 1] != h {
      EraseKeepsOthers(list[..|list| - 1], h, x);
      PlacesMore(EraseLast(list[..|list| - 1], h), list[|list| - 1], x);
    }
  }

  lemma LeftPlaces(waitlists: map<string, seq<Reader>>, keys: set<string>, h: Reader, x: Reader, key: string)
    ensures var before, after := Places(List(waitlists, key), x), Places(List(Leave(waitlists, keys, h), key), x);
            after == if x == h && key in keys && before > 0 then before - 1 else before
  {
    hide Places, EraseLast;
    if key in waitlists && key in keys {
      if x == h {
        EraseTakesOne(waitlists[key], h);
      } else {
        EraseKeepsOthers(waitlists[key], h, x);
      }
    } else if key !in waitlists {
      assert Places([], x) == 0 by { NoPlaces(x); }
    }
  }

  lemma NoPlaces(h: Reader)
    ensures Places([], h) == 0
  {
  }

  /** A reader is in the lists of its keys until it is answered, then in those of the keys it named twice. */
  lemma ListedIff(s: ReadState, h: Reader, key: string)
    requires PlacesExact(s)
    ensures h in List(s.waitlists, key) <==>
            h in s.handles && if Spent(s, h) then Times(s.handles[h], key) > 1 else key in Keys(s.handles[h])
  {
    hide Places, Times, Keys, Spent;
    PlacesIn(List(s.waitlists, key), h);
    assert Places(List(s.waitlists, key), h) == PlacesLeft(s, h, key);
    if h in s.handles {
      TimesIn(s.handles[h], key);
    }
  }

  // ----- Every step keeps that -----

  lemma {:induction false} EnlistedKeys(waitlists: map<string, seq<Reader>>, request: ReadRequest, h: Reader)
    ensures EnlistEach(waitlists, request, h).Keys == waitlists.Keys + Keys(request)
    decreases |request|
  {
    hide Keys;
    if request == [] {
      NoKeys();
    } else {
      EnlistedKeys(waitlists, request[..|request| - 1], h);
      LastKey(request);
    }
  }

  lemma {:induction false} SameTimes(a: ReadRequest, b: ReadRequest, key: string)
    requires |a| == |b| && forall i | 0 <= i < |a| :: a[i].0 == b[i].0
    ensures Times(a, key) == Times(b, key)
    decreases |a|
  {
    if a != [] {
      SameTimes(a[..|a| - 1], b[..|b| - 1], key);
    }
  }

  lemma ResolvedTimes(streams: map<string, seq<Entry>>, request: ReadRequest, key: string)
    ensures Times(Resolve(streams, request), key) == Times(request, key)
  {
    SameTimes(Resolve(streams, request), request, key);
  }

  lemma BlockKeepsEach(s: ReadState, request: ReadRequest, block: Option<nat>, now: nat)
    requires InvEach(s) && Waits(s, request, block)
    ensures InvEach(ReadEach(s, request, block, now))
  {
    hide StreamsSorted, Answered, Keys, Times, Places, ReadAll, Resolve, Enlist, EnlistEach, List;
    var t, n := ReadEach(s, request, block, now), s.nextReader;
    var resolved := Resolve(s.streams, request);
    assert t.handles == s.handles[n := resolved];
    SortedFrame(s, t);
    SameKeys(s.streams, request);
    EnlistedKeys(s.waitlists, request, n);
    assert n !in s.handles && Answered(s.replies, n) == 0;
    forall key, h: Reader ensures Places(List(t.waitlists, key), h) == PlacesLeft(t, h, key) {
      EnlistedPlaces(s.waitlists, request, n, h, key);
      assert Places(List(s.waitlists, key), h) == PlacesLeft(s, h, key);
      ResolvedTimes(s.streams, request, key);
    }
  }

  lemma SortedFrame(s: ReadState, t: ReadState)
    requires t.streams == s.streams && t.texts == s.texts
    ensures StreamsSorted(s) ==> StreamsSorted(t)
    ensures TextsApart(s) ==> TextsApart(t)
  {
    hide Sorted;
  }

  lemma AnswerKeepsEach(s: ReadState, request: ReadRequest, block: Option<nat>, now: nat)
    requires InvEach(s) && !Waits(s, request, block)
    ensures InvEach(ReadEach(s, request, block, now))
  {
    hide StreamsSorted, Answered, Keys, Times, Places, ReadAll, List;
    var t, n := ReadEach(s, request, block, now), s.nextReader;
    SortedFrame(s, t);
    forall h: Reader ensures Answered(t.replies, h) == Answered(s.replies, h) + if h == n then 1 else 0 {
      AnsweredMore(s.replies, Reply(n, ReadAll(s.streams, request)), h);
    }
    forall key, h: Reader ensures Places(List(t.waitlists, key), h) == PlacesLeft(t, h, key) {
      assert Places(List(s.waitlists, key), h) == PlacesLeft(s, h, key);
    }
  }

  lemma ReplyKeepsEach(s: ReadState, h: Reader)
    requires InvEach(s) && h in s.handles && !Spent(s, h)
    ensures InvEach(ReplyEach(s, h)) && Spent(ReplyEach(s, h), h)
    ensures forall x | x != h :: Spent(ReplyEach(s, h), x) == Spent(s, x)
  {
    hide StreamsSorted, Answered, Keys, Times, Places, ReadAll, Leave, List;
    var t := ReplyEach(s, h);
    SortedFrame(s, t);
    LeaveKeys(s.waitlists, Keys(s.handles[h]), h);
    forall x: Reader ensures Answered(t.replies, x) == Answered(s.replies, x) + if x == h then 1 else 0 {
      AnsweredMore(s.replies, Reply(h, ReadAll(s.streams, s.handles[h])), x);
    }
    forall key, x: Reader ensures Places(List(t.waitlists, key), x) == PlacesLeft(t, x, key) {
      LeftPlaces(s.waitlists, Keys(s.handles[h]), h, x, key);
      assert Places(List(s.waitlists, key), x) == PlacesLeft(s, x, key);
      TimesIn(s.handles[h], key);
    }
  }

  lemma LeaveKeys(waitlists: map<string, seq<Reader>>, keys: set<string>, h: Reader)
    ensures Leave(waitlists, keys, h).Keys == waitlists.Keys
  {
  }

  /** What waking touches. */
  ghost predicate OnlyAnswers(s: ReadState, t: ReadState) {
    t == s.(replies := t.replies, waitlists := t.waitlists) && s.replies <= t.replies
  }

  lemma {:induction false} WakeListKeeps(s: ReadState, job: seq<Reader>)
    requires InvEach(s)
    ensures InvEach(WakeList(s, job)) && OnlyAnswers(s, WakeList(s, job))
    decreases |job|
  {
    hide InvEach, Held, Spent, ReadAll, Leave, Keys;
    if job != [] && WakeEach(s, job[0]).Some? {
      if Held(s, job[0]) && job[0] in s.handles {
        ReplyKeepsEach(s, job[0]);
      }
      WakeListKeeps(WakeEach(s, job[0]).value, job[1..]);
    }
  }

  /** A change of streams, strings, jobs or timers that keeps what is said of those. */
  lemma FrameEach(s: ReadState, t: ReadState)
    requires InvEach(s) && t.handles == s.handles && t.waitlists == s.waitlists && t.replies == s.replies && t.nextReader == s.nextReader
    requires StreamsSorted(t) && TextsApart(t)
    requires forall j, h | 0 <= j < |t.jobs| && h in t.jobs[j] :: h < s.nextReader
    ensures InvEach(t)
  {
    hide StreamsSorted, Answered, Keys, Times, Places, List;
    forall key, h: Reader ensures Places(List(t.waitlists, key), h) == PlacesLeft(t, h, key) {
      assert Places(List(s.waitlists, key), h) == PlacesLeft(s, h, key);
    }
  }

  lemma ListedAreOld(s: ReadState, key: string)
    requires InvEach(s)
    ensures forall h | h in List(s.waitlists, key) :: h < s.nextReader
  {
    hide List, Keys, Times, Spent, PlacesExact, StreamsSorted;
    forall h | h in List(s.waitlists, key) ensures h < s.nextReader {
      ListedIff(s, h, key);
    }
  }

  lemma AddKeepsEach(s: ReadState, key: string, asked: InputStreamId, values: seq<(string, string)>, now: uint64)
    requires InvEach(s)
    ensures InvEach(XAdd(s, key, asked, values, now).0)
  {
    hide PlacesExact, ReadersOld, Choose, Appended, Sorted, List;
    var t, data := XAdd(s, key, asked, values, now).0, Entries(s.streams, key);
    if key !in s.texts && Choose(data, asked, now).Added? {
      EntriesSorted(s, key);
      AppendsAtEndIff(data, asked, values, now);
      AddedSorted(s, t, key);
      ListedAreOld(s, key);
      JobsAreOld(s);
      assert t.streams.Keys == s.streams.Keys + {key};
      FrameEach(s, t);
    }
  }

  lemma JobsAreOld(s: ReadState)
    requires ReadersOld(s)
    ensures forall j, h | 0 <= j < |s.jobs| && h in s.jobs[j] :: h < s.nextReader
  {
  }

  lemma StepKeepsEach(s: ReadState, step: Step)
    requires InvEach(s) && EnabledEach(s, step)
    ensures InvEach(TakeEach(s, step))
  {
    hide InvEach, XAdd, ReadEach, WakeList, Waits, ReadersOld, StreamsSorted, PlacesExact;
    match step
    case Add(key, asked, values, now) => AddKeepsEach(s, key, asked, values, now);
    case Read(request, block, now) =>
      if Waits(s, request, block) {
        BlockKeepsEach(s, request, block, now);
      } else {
        AnswerKeepsEach(s, request, block, now);
      }
    case Job =>
      PopKeepsEach(s, s.(jobs := s.jobs[1..]));
      WakeListKeeps(s.(jobs := s.jobs[1..]), s.jobs[0]);
    case Timeout(h) =>
      PopKeepsEach(s, s.(timers := s.timers - {h}));
      WakeListKeeps(s.(timers := s.timers - {h}), [h]);
    case Store(key) => TextKeepsEach(s, Overwrite(s, key));
    case Erase(key) => TextKeepsEach(s, Expire(s, key));
  }

  lemma PopKeepsEach(s: ReadState, t: ReadState)
    requires InvEach(s) && t == s.(jobs := t.jobs, timers := t.timers) && (t.jobs == s.jobs || (s.jobs != [] && t.jobs == s.jobs[1..]))
    ensures InvEach(t)
  {
    hide PlacesExact, Answered, Keys;
    SortedFrame(s, t);
    hide StreamsSorted;
    FrameEach(s, t);
  }

  lemma TextKeepsEach(s: ReadState, t: ReadState)
    requires InvEach(s) && t == s.(streams := t.streams, texts := t.texts) && (s.streams.Keys !! s.texts ==> t.streams.Keys !! t.texts)
    requires forall key | key in t.streams :: key in s.streams && t.streams[key] == s.streams[key]
    ensures InvEach(t)
  {
    hide PlacesExact, Answered, Keys, Sorted;
    FrameEach(s, t);
  }

  lemma {:induction false} RunKeepsEach(texts: set<string>, steps: seq<Step>, s: ReadState)
    requires RunEach(texts, steps) == Some(s)
    ensures InvEach(s)
    decreases |steps|
  {
    hide InvEach, TakeEach, EnabledEach;
    if steps == [] {
      StartKeepsEach(texts);
    } else {
      var init := steps[..|steps| - 1];
      RunKeepsEach(texts, init, RunEach(texts, init).value);
      StepKeepsEach(RunEach(texts, init).value, steps[|steps| - 1]);
    }
  }

  lemma StartKeepsEach(texts: set<string>)
    ensures InvEach(Start(texts))
  {
  }

  // ----- Who is listed -----

  /**
   On every run a reader is answered once at most. One that blocked is in the lists of its keys until then;
   after that it is in those of the keys it named twice, for ever.
   */
  lemma ListedOnRuns(texts: set<string>, steps: seq<Step>, s: ReadState, h: Reader, key: string)
    requires RunEach(texts, steps) == Some(s)
    ensures Answered(s.replies, h) <= 1
    ensures h in List(s.waitlists, key) <==>
            h in s.handles && if Spent(s, h) then Times(s.handles[h], key) > 1 else key in Keys(s.handles[h])
  {
    hide RunEach, Answered, Keys, Times, Spent, StreamsSorted, List, PlacesExact;
    RunKeepsEach(texts, steps, s);
    ListedIff(s, h, key);
  }

  /** An answer takes its reader out of all lists exactly if the request named no stream twice. */
  lemma AnswerLeavesIff(texts: set<string>, steps: seq<Step>, s: ReadState, h: Reader)
    requires RunEach(texts, steps) == Some(s) && h in s.handles && !Spent(s, h)
    ensures (forall key :: h !in List(ReplyEach(s, h).waitlists, key)) <==> DistinctKeys(s.handles[h])
    ensures !Held(ReplyEach(s, h), h) <==> DistinctKeys(s.handles[h])
  {
    hide RunEach, Answered, Keys, Times, DistinctKeys, StreamsSorted, ReadersOld, Leave, ReadAll, Places;
    RunKeepsEach(texts, steps, s);
    forall key ensures Places(List(s.waitlists, key), h) == Times(s.handles[h], key) {
      assert Places(List(s.waitlists, key), h) == PlacesLeft(s, h, key);
    }
    LeavesIff(s.waitlists, s.handles[h], h);
    HeldIfListed(ReplyEach(s, h), h);
  }

  lemma HeldIfListed(s: ReadState, h: Reader)
    ensures !Held(s, h) <==> forall key :: h !in List(s.waitlists, key)
  {
    if Held(s, h) {
      var key :| key in s.waitlists && h in s.waitlists[key];
      assert h in List(s.waitlists, key);
    }
  }

  // ----- Runs in which nobody blocks with a repeated key -----

  lemma DistinctResolved(streams: map<string, seq<Entry>>, request: ReadRequest)
    ensures DistinctKeys(Resolve(streams, request)) <==> DistinctKeys(request)
  {
    assert forall i | 0 <= i < |request| :: Resolve(streams, request)[i].0 == request[i].0;
  }

  /** Where lists are exact a handle that can be locked was not answered, and has one place in a list at most. */
  lemma WakeIsPlain(s: ReadState, h: Reader)
    requires ListsExact(s)
    ensures Held(s, h) ==> h in s.handles && !Spent(s, h)
    ensures WakeEach(s, h) == Some(Wake(s, h))
  {
    hide Keys, Answered, DistinctKeys, ReadAll, Held, Leave, Delist, NoRepeats;
    HeldIffBlocked(s, h);
    if Held(s, h) {
      NoRepeatedPlaces(s);
      LeaveIsDelist(s.waitlists, Keys(s.handles[h]), h);
    }
  }

  lemma NoRepeatedPlaces(s: ReadState)
    requires ListsExact(s)
    ensures forall key | key in s.waitlists :: NoRepeats(s.waitlists[key])
  {
    hide Keys, Answered, DistinctKeys;
  }

  lemma {:induction false} WakeListIsPlain(s: ReadState, job: seq<Reader>)
    requires Mid(s, job)
    ensures WakeList(s, job) == WakeAll(s, job)
    decreases |job|
  {
    hide Mid, Wake, WakeEach;
    if job != [] {
      MidIsExact(s, job);
      WakeIsPlain(s, job[0]);
      assert job == [job[0]] + job[1..];
      WakeKeeps(s, job[0], job[1..]);
      WakeListIsPlain(Wake(s, job[0]), job[1..]);
    }
  }

  lemma MidIsExact(s: ReadState, woken: seq<Reader>)
    requires Mid(s, woken)
    ensures ListsExact(s)
  {
    hide ListsExact, OneAnswer, WakeupsDue, StreamsSorted;
  }

  lemma CastablesAgree(s: ReadState, h: Reader)
    requires ListsExact(s)
    ensures CastableEach(s, h) <==> Castable(s, h)
  {
    hide ListsExact, Held, Spent, Keys;
    WakeIsPlain(s, h);
  }

  /** A step is one of `BlockingReads` unless it blocks with a repeated key, and then it is the same. */
  lemma StepIsPlain(s: ReadState, step: Step)
    requires Inv(s)
    ensures Enabled(s, step) <==>
            EnabledEach(s, step) && (step.Read? && Waits(s, step.request, step.block) ==> DistinctKeys(step.request))
    ensures Enabled(s, step) ==> TakeEach(s, step) == Take(s, step)
  {
    hide Inv, ListsExact, Castable, CastableEach, XAdd, WakeAll, WakeList, Keys, DistinctKeys, ReadAll, Resolve, Enlist, EnlistEach, Wake, WakeEach;
    InvIsExact(s);
    match step
    case Read(request, block, now) =>
      if Waits(s, request, block) && DistinctKeys(request) {
        EnlistEachIs(s.waitlists, request, s.nextReader);
      }
    case Job =>
      if s.jobs != [] {
        forall h ensures CastableEach(s, h) <==> Castable(s, h) {
          CastablesAgree(s, h);
        }
        JobStarts(s);
        WakeListIsPlain(s.(jobs := s.jobs[1..]), s.jobs[0]);
      }
    case Timeout(h) =>
      CastablesAgree(s, h);
      TimerPops(s, h);
      WakeListIsPlain(s.(timers := s.timers - {h}), [h]);
      assert WakeAll(s.(timers := s.timers - {h}), [h]) == Wake(s.(timers := s.timers - {h}), h) by {
        OneAwoken(s.(timers := s.timers - {h}), h);
      }
    case _ =>
  }

  lemma OneAwoken(s: ReadState, h: Reader)
    ensures WakeAll(s, [h]) == Wake(s, h)
  {
    hide Wake;
    assert [h][1..] == [];
    assert WakeAll(Wake(s, h), []) == Wake(s, h);
  }

  lemma InvIsExact(s: ReadState)
    requires Inv(s)
    ensures ListsExact(s) && forall h | h in s.handles :: DistinctKeys(s.handles[h])
  {
    hide Answered, Keys, NoRepeats, DistinctKeys, OneAnswer, WakeupsDue, StreamsSorted;
  }

  /** Nobody has blocked with a repeated key. */
  predicate AllDistinct(s: ReadState) {
    forall h | h in s.handles :: DistinctKeys(s.handles[h])
  }

  /** Requests of blocked readers stay on record. */
  lemma HandlesStay(s: ReadState, step: Step, h: Reader)
    requires InvEach(s) && EnabledEach(s, step) && h in s.handles
    ensures h in TakeEach(s, step).handles && TakeEach(s, step).handles[h] == s.handles[h]
  {
    hide WakeList, ReadAll, Keys, Resolve, Enlist, EnlistEach, PlacesExact, StreamsSorted, Answered, Choose, Appended, Entries;
    match step
    case Job =>
      PopKeepsEach(s, s.(jobs := s.jobs[1..]));
      WakeListKeeps(s.(jobs := s.jobs[1..]), s.jobs[0]);
    case Timeout(x) =>
      PopKeepsEach(s, s.(timers := s.timers - {x}));
      WakeListKeeps(s.(timers := s.timers - {x}), [x]);
    case _ =>
  }

  lemma BlockedIsRecorded(s: ReadState, request: ReadRequest, block: Option<nat>, now: nat)
    requires Waits(s, request, block) && AllDistinct(ReadEach(s, request, block, now))
    ensures DistinctKeys(request)
  {
    hide DistinctKeys, ReadAll, Keys, Enlist, EnlistEach;
    var t := ReadEach(s, request, block, now);
    assert s.nextReader in t.handles && t.handles[s.nextReader] == Resolve(s.streams, request);
    DistinctResolved(s.streams, request);
  }

  /** The runs of `BlockingReads` are exactly those in which nobody has blocked with a repeated key. */
  lemma {:induction false} PlainIff(texts: set<string>, steps: seq<Step>, s: ReadState)
    ensures Run(texts, steps) == Some(s) <==> RunEach(texts, steps) == Some(s) && AllDistinct(s)
    decreases |steps|
  {
    hide Inv, InvEach, Take, TakeEach, Enabled, EnabledEach, AllDistinct;
    if steps == [] {
      assert AllDistinct(Start(texts)) by { NobodyBlocked(texts); }
    } else {
      var init, last := steps[..|steps| - 1], steps[|steps| - 1];
      if Run(texts, steps) == Some(s) {
        var u := Run(texts, init).value;
        PlainIff(texts, init, u);
        RunKeeps(texts, init);
        StepIsPlain(u, last);
        RunKeeps(texts, steps);
        PlainIsDistinct(s);
      }
      if RunEach(texts, steps) == Some(s) && AllDistinct(s) {
        var u := RunEach(texts, init).value;
        RunKeepsEach(texts, init, u);
        StillDistinct(u, last);
        PlainIff(texts, init, u);
        RunKeeps(texts, init);
        StepIsPlain(u, last);
        LastIsPlain(u, last);
      }
    }
  }

  lemma NobodyBlocked(texts: set<string>)
    ensures AllDistinct(Start(texts))
  {
  }

  lemma PlainIsDistinct(s: ReadState)
    requires Inv(s)
    ensures AllDistinct(s)
  {
    hide Inv, DistinctKeys;
    InvIsExact(s);
  }

  lemma StillDistinct(s: ReadState, step: Step)
    requires InvEach(s) && EnabledEach(s, step) && AllDistinct(TakeEach(s, step))
    ensures AllDistinct(s)
  {
    hide InvEach, TakeEach, EnabledEach, DistinctKeys;
    forall h | h in s.handles ensures DistinctKeys(s.handles[h]) {
      HandlesStay(s, step, h);
    }
  }

  lemma LastIsPlain(s: ReadState, step: Step)
    requires EnabledEach(s, step) && AllDistinct(TakeEach(s, step))
    ensures step.Read? && Waits(s, step.request, step.block) ==> DistinctKeys(step.request)
  {
    hide ReadEach, DistinctKeys, AllDistinct, Waits;
    if step.Read? && Waits(s, step.request, step.block) {
      BlockedIsRecorded(s, step.request, step.block, step.at);
    }
  }

  /** So where nobody has, no wakeup is lost. */
  lemma WakeupsKept(texts: set<string>, steps: seq<Step>, s: ReadState, h: Reader)
    requires RunEach(texts, steps) == Some(s) && AllDistinct(s) && Held(s, h)
    ensures h in s.handles
    ensures ReadAll(s.streams, s.handles[h]) != [] ==> exists j | 0 <= j < |s.jobs| :: h in s.jobs[j]
    ensures s.jobs == [] ==> ReadAll(s.streams, s.handles[h]) == []
  {
    hide Run, RunEach, AllDistinct, Held, ReadAll;
    PlainIff(texts, steps, s);
    NoLostWakeup(texts, steps, s, h);
  }
}
