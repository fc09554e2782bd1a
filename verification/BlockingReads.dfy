/**
 XREAD BLOCK as a step system: readers wait on several streams, an XADD posts a job that wakes the ones
 on its stream, a timer ends a wait. Steps come in any order.

 A reader that blocks does so with distinct keys; `AllReads` has the others. The program casts what it finds
 under a key to a stream without a check, so a step in which a key that is read holds a string is none.
 */
module BlockingReads {
  import opened Prelude
  import opened Decimal
  import opened StreamIds
  import opened Streams

  /** XREADs, numbered in the order they come. */
  type Reader = nat

  type ReadRequest = seq<(string, ReadStreamId)>

  datatype Reply = Reply(reader: Reader, result: seq<(string, seq<Entry>)>)

  /**
   `handles` are the requests of the readers that blocked, `waitlists` the handles waiting per key,
   `jobs` the posted one-time jobs with the handles each will wake, `timers` the timeout jobs with the
   times they fire at. `limits` is history: the times at which readers with a timeout are to give up.
   */
  datatype ReadState = ReadState(
    streams: map<string, seq<Entry>>, texts: set<string>,
    handles: map<Reader, ReadRequest>, waitlists: map<string, seq<Reader>>, jobs: seq<seq<Reader>>, timers: map<Reader, nat>,
    nextReader: Reader, replies: seq<Reply>, limits: map<Reader, nat>)

  function List(waitlists: map<string, seq<Reader>>, key: string): seq<Reader> {
    if key in waitlists then waitlists[key] else []
  }

  function Entries(streams: map<string, seq<Entry>>, key: string): seq<Entry> {
    if key in streams then streams[key] else []
  }

  function Keys(request: ReadRequest): set<string> {
    set p | p in request :: p.0
  }

  /** The entries a position asks for. */
  function ReadOne(streams: map<string, seq<Entry>>, p: (string, ReadStreamId)): seq<Entry> {
    if p.1.NextExpected? then [] else Newer(Entries(streams, p.0), p.1.id)
  }

  /** The streams with something to read, in the order asked. */
  function ReadAll(streams: map<string, seq<Entry>>, request: ReadRequest): seq<(string, seq<Entry>)> {
    if request == [] then []
    else
      var entries := ReadOne(streams, request[0]);
      (if entries != [] then [(request[0].0, entries)] else []) + ReadAll(streams, request[1..])
  }

  function Last(data: seq<Entry>): StreamId {
    if data == [] then NULL_ID else data[|data| - 1].id
  }

  /** `$` becomes the last id there is. */
  function ResolveOne(streams: map<string, seq<Entry>>, p: (string, ReadStreamId)): (string, ReadStreamId) {
    (p.0, if p.1.NextExpected? then After(Last(Entries(streams, p.0))) else p.1)
  }

  function Resolve(streams: map<string, seq<Entry>>, request: ReadRequest): ReadRequest {
    seq(|request|, i requires 0 <= i < |request| => ResolveOne(streams, request[i]))
  }

  /** The handle joins the lists of its keys. */
  function Enlist(waitlists: map<string, seq<Reader>>, keys: set<string>, h: Reader): map<string, seq<Reader>> {
    map k | k in waitlists.Keys + keys :: List(waitlists, k) + if k in keys then [h] else []
  }

  function Without(list: seq<Reader>, h: Reader): seq<Reader> {
    if list == [] then [] else (if list[0] == h then [] else [list[0]]) + Without(list[1..], h)
  }

  function Delist(waitlists: map<string, seq<Reader>>, keys: set<string>, h: Reader): map<string, seq<Reader>> {
    map k | k in waitlists :: if k in keys then Without(waitlists[k], h) else waitlists[k]
  }

  /** A handle lives as long as a list holds it; a weak pointer to it can be locked exactly then. */
  predicate Held(s: ReadState, h: Reader) {
    exists key | key in s.waitlists :: h in s.waitlists[key]
  }

  /** An XADD; if it is accepted it posts a job to wake the readers of its key. */
  function XAdd(s: ReadState, key: string, asked: InputStreamId, values: seq<(string, string)>, now: uint64): (ReadState, Added) {
    if key in s.texts then (s, Refused(WrongKeyType))
    else
      var data := Entries(s.streams, key);
      var r := Choose(data, asked, now);
      if r.Refused? then (s, r)
      else
        (s.(streams := s.streams[key := Appended(data, asked, values, now)], jobs := s.jobs + [List(s.waitlists, key)]), r)
  }

  /** An XREAD answers at once if it does not block or has something to read, else it waits. */
  function XRead(s: ReadState, request: ReadRequest, block: Option<nat>, now: nat): ReadState {
    var h := s.nextReader;
    var result := ReadAll(s.streams, request);
    if block.None? || result != [] then
      s.(nextReader := h + 1, replies := s.replies + [Reply(h, result)])
    else
      s.(nextReader := h + 1, handles := s.handles[h := Resolve(s.streams, request)],
         waitlists := Enlist(s.waitlists, Keys(request), h),
         timers := if block.value > 0 then s.timers[h := now + block.value] else s.timers,
         limits := if block.value > 0 then s.limits[h := now + block.value] else s.limits)
  }

  /** The handle answers, with whatever there is, and leaves its lists. */
  function ReplyTo(s: ReadState, h: Reader): ReadState
    requires h in s.handles
  {
    s.(replies := s.replies + [Reply(h, ReadAll(s.streams, s.handles[h]))],
       waitlists := Delist(s.waitlists, Keys(s.handles[h]), h))
  }

  function Wake(s: ReadState, h: Reader): ReadState {
    if Held(s, h) && h in s.handles then ReplyTo(s, h) else s
  }

  function WakeAll(s: ReadState, job: seq<Reader>): ReadState
    decreases |job|
  {
    if job == [] then s else WakeAll(Wake(s, job[0]), job[1..])
  }

  function RunJob(s: ReadState): ReadState
    requires s.jobs != []
  {
    WakeAll(s.(jobs := s.jobs[1..]), s.jobs[0])
  }

  function FireTimer(s: ReadState, h: Reader): ReadState {
    Wake(s.(timers := s.timers - {h}), h)
  }

  /** A SET or a restored key: a string replaces whatever the key held. */
  function Overwrite(s: ReadState, key: string): ReadState {
    s.(streams := s.streams - {key}, texts := s.texts + {key})
  }

  /** A GET finds an expired string and erases it. */
  function Expire(s: ReadState, key: string): ReadState {
    s.(texts := s.texts - {key})
  }

  // ----- Runs -----

  datatype Step =
    | Add(key: string, asked: InputStreamId, values: seq<(string, string)>, now: uint64)
    | Read(request: ReadRequest, block: Option<nat>, at: nat)
    | Job
    | Timeout(reader: Reader)
    | Store(key: string)
    | Erase(key: string)

  /** An XREAD that blocks. */
  predicate Waits(s: ReadState, request: ReadRequest, block: Option<nat>) {
    block.Some? && ReadAll(s.streams, request) == []
  }

  /** No key that the reader is answered with holds a string. */
  predicate Castable(s: ReadState, h: Reader) {
    Held(s, h) && h in s.handles ==> Keys(s.handles[h]) !! s.texts
  }

  predicate Enabled(s: ReadState, step: Step) {
    match step
    case Add(_, _, _, _) => true
    case Read(request, block, _) => Keys(request) !! s.texts && (Waits(s, request, block) ==> DistinctKeys(request))
    case Job => s.jobs != [] && forall h | h in s.jobs[0] :: Castable(s, h)
    case Timeout(h) => h in s.timers && Castable(s, h)
    case Store(_) => true
    case Erase(key) => key in s.texts
  }

  function Take(s: ReadState, step: Step): ReadState
    requires Enabled(s, step)
  {
    match step
    case Add(key, asked, values, now) => XAdd(s, key, asked, values, now).0
    case Read(request, block, now) => XRead(s, request, block, now)
    case Job => RunJob(s)
    case Timeout(h) => FireTimer(s, h)
    case Store(key) => Overwrite(s, key)
    case Erase(key) => Expire(s, key)
  }

  function Start(texts: set<string>): ReadState {
    ReadState(map[], texts, map[], map[], [], map[], 0, [], map[])
  }

  /** The state after a list of steps, if each was possible when it was taken. */
  function Run(texts: set<string>, steps: seq<Step>): Option<ReadState>
    decreases |steps|
  {
    if steps == [] then Some(Start(texts))
    else
      match Run(texts, steps[..|steps| - 1])
      case Some(before) =>
        if Enabled(before, steps[|steps| - 1]) then Some(Take(before, steps[|steps| - 1])) else None
      case None => None
  }

  // ----- Invariants -----

  /** How often a reader was answered. */
  function Answered(replies: seq<Reply>, h: Reader): nat {
    if replies == [] then 0 else Answered(replies[..|replies| - 1], h) + if replies[|replies| - 1].reader == h then 1 else 0
  }

  /** A reader that blocked and has no answer yet. */
  predicate Blocked(s: ReadState, h: Reader) {
    h in s.handles && Answered(s.replies, h) == 0
  }

  /** The list of a key holds exactly the blocked readers that asked for it, each once. */
  ghost predicate ListsExact(s: ReadState) {
    && (forall key, h | h in List(s.waitlists, key) :: Blocked(s, h) && key in Keys(s.handles[h]))
    && (forall h, key | Blocked(s, h) && key in Keys(s.handles[h]) :: h in List(s.waitlists, key))
    && (forall h | h in s.handles :: DistinctKeys(s.handles[h]) && h < s.nextReader)
    && (forall h | h in s.handles && s.handles[h] == [] :: Answered(s.replies, h) == 0)
    && (forall key | key in s.waitlists :: NoRepeats(s.waitlists[key]))
  }

  predicate NoRepeats(list: seq<Reader>) {
    forall i, j | 0 <= i < j < |list| :: list[i] != list[j]
  }

  /** Every reader has one answer, unless it is blocked; then it has none. */
  ghost predicate OneAnswer(s: ReadState) {
    forall h: Reader :: Answered(s.replies, h) == if h < s.nextReader && !Blocked(s, h) then 1 else 0
  }

  /** There is something for the reader to read. */
  predicate Satisfied(streams: map<string, seq<Entry>>, request: ReadRequest) {
    exists p | p in request :: ReadOne(streams, p) != []
  }

  /** A blocked reader that could read is in a posted job, or in `woken`, the one that is running. */
  ghost predicate WakeupsDue(s: ReadState, woken: seq<Reader>) {
    forall h | Blocked(s, h) && Satisfied(s.streams, s.handles[h]) :: h in woken || exists j | 0 <= j < |s.jobs| :: h in s.jobs[j]
  }

  /** No key is both a stream and a string. */
  ghost predicate TextsApart(s: ReadState) {
    s.streams.Keys !! s.texts
  }

  ghost predicate StreamsSorted(s: ReadState) {
    forall key | key in s.streams :: Sorted(s.streams[key])
  }

  ghost predicate Inv(s: ReadState) {
    ListsExact(s) && OneAnswer(s) && WakeupsDue(s, []) && StreamsSorted(s) && TextsApart(s)
  }

  // ----- Facts about requests and lists -----

  lemma {:induction false} ReadAllEmptyIff(streams: map<string, seq<Entry>>, request: ReadRequest)
    ensures ReadAll(streams, request) == [] <==> !Satisfied(streams, request)
  {
    hide ReadOne;
    if request != [] {
      ReadAllEmptyIff(streams, request[1..]);
      if ReadOne(streams, request[0]) != [] {
        assert request[0] in request;
      }
      assert forall p :: p in request <==> p == request[0] || p in request[1..];
    }
  }

  lemma {:induction false} WithoutIs(list: seq<Reader>, h: Reader)
    ensures forall x :: x in Without(list, h) <==> x in list && x != h
    ensures NoRepeats(list) ==> NoRepeats(Without(list, h))
  {
    if list != [] {
      WithoutIs(list[1..], h);
      assert list == [list[0]] + list[1..];
      if NoRepeats(list) {
        assert forall i, j | 0 <= i < j < |list[1..]| :: list[1..][i] == list[i + 1] && list[1..][j] == list[j + 1];
        assert list[0] !in list[1..];
      }
    }
  }

  lemma AnsweredMore(replies: seq<Reply>, r: Reply, h: Reader)
    ensures Answered(replies + [r], h) == Answered(replies, h) + if r.reader == h then 1 else 0
  {
    assert (replies + [r])[..|replies|] == replies;
  }

  lemma EnlistIs(waitlists: map<string, seq<Reader>>, keys: set<string>, h: Reader)
    ensures forall key :: List(Enlist(waitlists, keys, h), key) == List(waitlists, key) + if key in keys then [h] else []
  {
  }

  lemma DelistIs(waitlists: map<string, seq<Reader>>, keys: set<string>, h: Reader, key: string)
    ensures List(Delist(waitlists, keys, h), key) == if key in keys then Without(List(waitlists, key), h) else List(waitlists, key)
  {
  }

  lemma ResolveKeys(streams: map<string, seq<Entry>>, request: ReadRequest)
    ensures Keys(Resolve(streams, request)) == Keys(request) && |Resolve(streams, request)| == |request|
    ensures DistinctKeys(request) ==> DistinctKeys(Resolve(streams, request))
    ensures forall p | p in request :: ResolveOne(streams, p) in Resolve(streams, request)
    ensures forall q | q in Resolve(streams, request) :: exists p :: p in request && q == ResolveOne(streams, p)
  {
    hide Newer;
    var resolved := Resolve(streams, request);
    assert forall i | 0 <= i < |request| :: resolved[i].0 == request[i].0;
    forall p | p in request ensures ResolveOne(streams, p) in resolved {
      var i :| 0 <= i < |request| && request[i] == p;
      assert resolved[i] == ResolveOne(streams, p);
    }
    forall q | q in resolved ensures exists p :: p in request && q == ResolveOne(streams, p) {
      var i :| 0 <= i < |resolved| && resolved[i] == q;
      assert request[i] in request;
    }
    SameKeys(streams, request);
  }

  lemma SameKeys(streams: map<string, seq<Entry>>, request: ReadRequest)
    ensures Keys(Resolve(streams, request)) == Keys(request)
  {
    var resolved := Resolve(streams, request);
    forall k | k in Keys(request) ensures k in Keys(resolved) {
      var i :| 0 <= i < |request| && request[i].0 == k;
      assert resolved[i] in resolved && resolved[i].0 == k;
    }
    forall k | k in Keys(resolved) ensures k in Keys(request) {
      var i :| 0 <= i < |resolved| && resolved[i].0 == k;
      assert request[i] in request && request[i].0 == k;
    }
  }

  /** Nothing is above the last id. */
  lemma NothingAfterLast(data: seq<Entry>)
    requires Sorted(data) && data != []
    ensures Newer(data, Last(data)) == []
  {
    NewerSlice(data, Last(data), |data|);
  }

  // ----- Every step keeps the invariant -----

  /** A handle lives exactly while its reader is blocked on some stream. */
  lemma HeldIffBlocked(s: ReadState, h: Reader)
    requires ListsExact(s)
    ensures Held(s, h) <==> Blocked(s, h) && s.handles[h] != []
  {
    if Blocked(s, h) && s.handles[h] != [] {
      var p := s.handles[h][0];
      assert p in s.handles[h] && p.0 in Keys(s.handles[h]);
      assert h in List(s.waitlists, p.0);
    }
    if Held(s, h) {
      var key :| key in s.waitlists && h in s.waitlists[key];
      assert h in List(s.waitlists, key);
      assert s.handles[h] != [];
    }
  }

  ghost predicate Mid(s: ReadState, woken: seq<Reader>) {
    ListsExact(s) && OneAnswer(s) && WakeupsDue(s, woken) && StreamsSorted(s) && TextsApart(s)
  }

  lemma ReplyKeepsLists(s: ReadState, h: Reader)
    requires ListsExact(s) && Blocked(s, h) && s.handles[h] != []
    ensures ListsExact(ReplyTo(s, h))
    ensures forall x :: Blocked(ReplyTo(s, h), x) <==> Blocked(s, x) && x != h
  {
    hide Keys, Answered, ReadAll, Delist;
    var t := ReplyTo(s, h);
    var r := Reply(h, ReadAll(s.streams, s.handles[h]));
    forall x ensures Blocked(t, x) <==> Blocked(s, x) && x != h {
      AnsweredMore(s.replies, r, x);
    }
    forall x | x in t.handles && t.handles[x] == [] ensures Answered(t.replies, x) == 0 {
      AnsweredMore(s.replies, r, x);
    }
    forall key ensures forall x :: x in List(t.waitlists, key) <==> x in List(s.waitlists, key) && x != h {
      DelistIs(s.waitlists, Keys(s.handles[h]), h, key);
      WithoutIs(List(s.waitlists, key), h);
    }
    assert t.waitlists.Keys == s.waitlists.Keys by { DelistKeys(s.waitlists, Keys(s.handles[h]), h); }
    forall key | key in t.waitlists ensures NoRepeats(t.waitlists[key]) {
      DelistIs(s.waitlists, Keys(s.handles[h]), h, key);
      WithoutIs(List(s.waitlists, key), h);
    }
  }

  lemma DelistKeys(waitlists: map<string, seq<Reader>>, keys: set<string>, h: Reader)
    ensures Delist(waitlists, keys, h).Keys == waitlists.Keys
  {
  }

  lemma ReplyKeepsAnswers(s: ReadState, h: Reader)
    requires ListsExact(s) && OneAnswer(s) && Blocked(s, h) && s.handles[h] != []
    ensures OneAnswer(ReplyTo(s, h))
  {
    ReplyKeepsLists(s, h);
    hide Keys, Answered, ReadAll, Delist, ListsExact, Blocked;
    var t := ReplyTo(s, h);
    assert h < s.nextReader by { BlockedIsOld(s, h); }
    forall x: Reader ensures Answered(t.replies, x) == if x < t.nextReader && !Blocked(t, x) then 1 else 0 {
      AnsweredMore(s.replies, Reply(h, ReadAll(s.streams, s.handles[h])), x);
    }
  }

  lemma BlockedIsOld(s: ReadState, h: Reader)
    requires ListsExact(s) && Blocked(s, h)
    ensures h < s.nextReader && h in s.handles
  {
  }

  /** Waking a reader answers it if it is still blocked, and leaves the others due as they are. */
  lemma WakeKeeps(s: ReadState, h: Reader, woken: seq<Reader>)
    requires Mid(s, [h] + woken)
    ensures Mid(Wake(s, h), woken) && Wake(s, h).jobs == s.jobs && Wake(s, h).streams == s.streams
  {
    hide Held, Keys, Answered, ReadAll, Delist, Satisfied, Sorted, ListsExact, OneAnswer, Blocked, NoRepeats, DistinctKeys;
    HeldIffBlocked(s, h);
    NothingAsked(s.streams);
    var t := Wake(s, h);
    if Held(s, h) {
      ReplyKeepsLists(s, h);
      ReplyKeepsAnswers(s, h);
    }
    assert forall x :: Blocked(t, x) ==> Blocked(s, x) && (x == h ==> s.handles[h] == []) by {
      assert !Held(s, h) ==> t == s;
      BlockedHasHandle(s);
    }
    BlockedHasHandle(t);
    forall x | Blocked(t, x) && Satisfied(t.streams, t.handles[x])
      ensures x in woken || exists j | 0 <= j < |t.jobs| :: x in t.jobs[j]
    {
      assert Blocked(s, x) && x != h;
      assert x in [h] + woken ==> x in woken;
    }
  }

  lemma NothingAsked(streams: map<string, seq<Entry>>)
    ensures !Satisfied(streams, [])
  {
  }

  lemma BlockedHasHandle(s: ReadState)
    ensures forall x | Blocked(s, x) :: x in s.handles
  {
  }

  lemma {:induction false} WakeAllKeeps(s: ReadState, job: seq<Reader>)
    requires Mid(s, job)
    ensures Mid(WakeAll(s, job), []) && WakeAll(s, job).jobs == s.jobs && WakeAll(s, job).streams == s.streams
    decreases |job|
  {
    hide Mid, Wake;
    if job != [] {
      assert job == [job[0]] + job[1..];
      WakeKeeps(s, job[0], job[1..]);
      WakeAllKeeps(Wake(s, job[0]), job[1..]);
    }
  }

  /** A job that is taken from the queue leaves its readers due. */
  lemma JobStarts(s: ReadState)
    requires Inv(s) && s.jobs != []
    ensures Mid(s.(jobs := s.jobs[1..]), s.jobs[0])
  {
    hide Satisfied, Answered, Keys, DistinctKeys, Sorted;
    var t := s.(jobs := s.jobs[1..]);
    forall h | Blocked(t, h) && Satisfied(t.streams, t.handles[h])
      ensures h in s.jobs[0] || exists j | 0 <= j < |t.jobs| :: h in t.jobs[j]
    {
      assert Blocked(s, h);
      var j :| 0 <= j < |s.jobs| && h in s.jobs[j];
      if j > 0 {
        assert t.jobs[j - 1] == s.jobs[j];
      }
    }
    JobsFrame(s, t);
  }

  lemma RunJobKeeps(s: ReadState)
    requires Inv(s) && s.jobs != []
    ensures Inv(RunJob(s))
  {
    hide WakeAll, ListsExact, OneAnswer, WakeupsDue, StreamsSorted, TextsApart;
    JobStarts(s);
    WakeAllKeeps(s.(jobs := s.jobs[1..]), s.jobs[0]);
  }

  /** Lists, answers and positions do not look at the jobs and timers. */
  lemma JobsFrame(s: ReadState, t: ReadState)
    requires t == s.(jobs := t.jobs, timers := t.timers)
    ensures ListsExact(s) ==> ListsExact(t)
    ensures OneAnswer(s) ==> OneAnswer(t)
    ensures StreamsSorted(s) ==> StreamsSorted(t)
    ensures TextsApart(s) ==> TextsApart(t)
  {
    hide Answered, Keys, DistinctKeys, Sorted, NoRepeats;
    assert forall h :: Blocked(t, h) == Blocked(s, h);
  }

  lemma TimerPops(s: ReadState, h: Reader)
    requires Inv(s)
    ensures Mid(s.(timers := s.timers - {h}), []) && Mid(s.(timers := s.timers - {h}), [h])
  {
    hide Satisfied, Answered, Keys, DistinctKeys, ListsExact, OneAnswer, StreamsSorted;
    var t := s.(timers := s.timers - {h});
    JobsFrame(s, t);
    assert forall x :: Blocked(t, x) == Blocked(s, x);
  }

  lemma FireTimerKeeps(s: ReadState, h: Reader)
    requires Inv(s)
    ensures Inv(FireTimer(s, h))
  {
    hide Wake, ListsExact, OneAnswer, WakeupsDue, StreamsSorted;
    TimerPops(s, h);
    assert [h] + [] == [h];
    WakeKeeps(s.(timers := s.timers - {h}), h, []);
  }

  // ----- XADD -----

  lemma AddKeepsDue(s: ReadState, t: ReadState, key: string)
    requires ListsExact(s) && WakeupsDue(s, [])
    requires t.handles == s.handles && t.replies == s.replies && t.jobs == s.jobs + [List(s.waitlists, key)]
    requires forall k | k != key :: Entries(t.streams, k) == Entries(s.streams, k)
    ensures WakeupsDue(t, [])
  {
    hide Answered, Newer, NoRepeats;
    forall h | Blocked(t, h) && Satisfied(t.streams, t.handles[h])
      ensures exists j | 0 <= j < |t.jobs| :: h in t.jobs[j]
    {
      assert Blocked(s, h);
      var p :| p in t.handles[h] && ReadOne(t.streams, p) != [];
      if p.0 == key {
        assert key in Keys(s.handles[h]);
        assert t.jobs[|s.jobs|] == List(s.waitlists, key);
      } else {
        assert ReadOne(s.streams, p) != [];
        var j :| 0 <= j < |s.jobs| && h in s.jobs[j];
        assert t.jobs[j] == s.jobs[j];
      }
    }
  }

  lemma AddKeeps(s: ReadState, key: string, asked: InputStreamId, values: seq<(string, string)>, now: uint64)
    requires Inv(s)
    ensures Inv(XAdd(s, key, asked, values, now).0)
  {
    hide Answered, Keys, DistinctKeys, NoRepeats, Choose, Appended, Overflows, Satisfied;
    var t := XAdd(s, key, asked, values, now).0;
    var data := Entries(s.streams, key);
    if key !in s.texts && Choose(data, asked, now).Added? {
      var id := Choose(data, asked, now).id;
      EntriesSorted(s, key);
      AppendsAtEndIff(data, asked, values, now);
      assert forall k | k != key :: Entries(t.streams, k) == Entries(s.streams, k);
      AddKeepsDue(s, t, key);
      AddedSorted(s, t, key);
      ListsFrame(s, t);
      assert t.streams.Keys == s.streams.Keys + {key};
    }
  }

  lemma EntriesSorted(s: ReadState, key: string)
    requires StreamsSorted(s)
    ensures Sorted(Entries(s.streams, key))
  {
  }

  lemma AddedSorted(s: ReadState, t: ReadState, key: string)
    requires StreamsSorted(s) && key in t.streams && t.streams == s.streams[key := t.streams[key]] && Sorted(t.streams[key])
    ensures StreamsSorted(t)
  {
    hide Sorted;
  }

  lemma ListsFrame(s: ReadState, t: ReadState)
    requires t.handles == s.handles && t.replies == s.replies && t.waitlists == s.waitlists && t.nextReader == s.nextReader
    ensures ListsExact(s) ==> ListsExact(t)
    ensures OneAnswer(s) ==> OneAnswer(t)
    ensures forall h :: Blocked(t, h) == Blocked(s, h)
  {
    hide Answered, Keys, DistinctKeys, NoRepeats;
    assert forall h :: Blocked(t, h) == Blocked(s, h);
  }

  // ----- SET and expiry -----

  lemma StoreKeeps(s: ReadState, key: string)
    requires Inv(s)
    ensures Inv(Overwrite(s, key))
  {
    hide Answered, Keys, DistinctKeys, NoRepeats, Sorted, Satisfied;
    var t := Overwrite(s, key);
    ListsFrame(s, t);
    forall h | Blocked(t, h) && Satisfied(t.streams, t.handles[h]) ensures exists j | 0 <= j < |t.jobs| :: h in t.jobs[j] {
      LessToRead(s.streams, t.streams, key, s.handles[h]);
    }
  }

  /** Without a stream there is no more to read. */
  lemma LessToRead(streams: map<string, seq<Entry>>, fewer: map<string, seq<Entry>>, key: string, request: ReadRequest)
    requires fewer == streams - {key} && Satisfied(fewer, request)
    ensures Satisfied(streams, request)
  {
    hide Newer;
    var p :| p in request && ReadOne(fewer, p) != [];
    if p.0 == key {
      NothingUnder(fewer, p);
    }
    assert ReadOne(streams, p) == ReadOne(fewer, p);
  }

  lemma NothingUnder(streams: map<string, seq<Entry>>, p: (string, ReadStreamId))
    requires p.0 !in streams
    ensures ReadOne(streams, p) == []
  {
  }

  lemma EraseKeeps(s: ReadState, key: string)
    requires Inv(s)
    ensures Inv(Expire(s, key))
  {
    hide Answered, Keys, DistinctKeys, NoRepeats, Sorted, Satisfied;
    var t := Expire(s, key);
    ListsFrame(s, t);
  }

  // ----- XREAD -----

  /** The next reader has no answer yet. */
  lemma NextIsNew(s: ReadState)
    requires OneAnswer(s) && ListsExact(s)
    ensures Answered(s.replies, s.nextReader) == 0 && s.nextReader !in s.handles
    ensures forall key :: s.nextReader !in List(s.waitlists, key)
  {
    hide Keys, NoRepeats;
    assert s.nextReader !in s.handles;
    forall key ensures s.nextReader !in List(s.waitlists, key) {
      assert s.nextReader in List(s.waitlists, key) ==> Blocked(s, s.nextReader);
    }
  }

  lemma ReadAnswersAtOnce(s: ReadState, r: Reply)
    requires Inv(s) && r.reader == s.nextReader
    ensures Inv(s.(nextReader := s.nextReader + 1, replies := s.replies + [r]))
  {
    hide Answered, Keys, DistinctKeys, NoRepeats, Satisfied, Sorted;
    var t := s.(nextReader := s.nextReader + 1, replies := s.replies + [r]);
    NextIsNew(s);
    forall h ensures Answered(t.replies, h) == Answered(s.replies, h) + if h == r.reader then 1 else 0 {
      AnsweredMore(s.replies, r, h);
    }
    assert forall h :: Blocked(t, h) == Blocked(s, h);
  }

  lemma BlockKeepsLists(s: ReadState, t: ReadState, h: Reader, request: ReadRequest)
    requires ListsExact(s) && OneAnswer(s) && h == s.nextReader && DistinctKeys(request)
    requires t.handles == s.handles[h := request] && t.replies == s.replies && t.nextReader == h + 1
    requires t.waitlists == Enlist(s.waitlists, Keys(request), h)
    ensures ListsExact(t) && OneAnswer(t)
    ensures forall x :: Blocked(t, x) <==> Blocked(s, x) || x == h
  {
    hide Answered, Keys, Enlist;
    NextIsNew(s);
    EnlistIs(s.waitlists, Keys(request), h);
    assert forall x :: Blocked(t, x) <==> Blocked(s, x) || x == h;
    forall key | key in t.waitlists ensures NoRepeats(t.waitlists[key]) {
      assert t.waitlists[key] == List(t.waitlists, key);
      assert NoRepeats(List(s.waitlists, key));
    }
  }

  /** A reader blocks only if there is nothing for it, even with `$` resolved. */
  lemma BlockedIsNotSatisfied(s: ReadState, request: ReadRequest)
    requires StreamsSorted(s) && !Satisfied(s.streams, request)
    ensures !Satisfied(s.streams, Resolve(s.streams, request))
  {
    hide Sorted, Newer;
    ResolveKeys(s.streams, request);
    hide Resolve;
    forall q | q in Resolve(s.streams, request) ensures ReadOne(s.streams, q) == [] {
      var p :| p in request && q == ResolveOne(s.streams, p);
      assert ReadOne(s.streams, p) == [];
      if p.1.NextExpected? {
        EntriesSorted(s, p.0);
        if Entries(s.streams, p.0) != [] {
          NothingAfterLast(Entries(s.streams, p.0));
        } else {
          assert Newer([], NULL_ID) == [] by { NoneNewer(); }
        }
      }
    }
  }

  lemma NoneNewer()
    ensures Newer([], NULL_ID) == []
  {
  }

  lemma ReadKeeps(s: ReadState, request: ReadRequest, block: Option<nat>, now: nat)
    requires Inv(s) && (Waits(s, request, block) ==> DistinctKeys(request))
    ensures Inv(XRead(s, request, block, now))
  {
    hide Answered, Keys, DistinctKeys, NoRepeats, Satisfied, Sorted, ReadAll, Resolve, Enlist;
    var t, h := XRead(s, request, block, now), s.nextReader;
    ReadAllEmptyIff(s.streams, request);
    if block.None? || ReadAll(s.streams, request) != [] {
      ReadAnswersAtOnce(s, Reply(h, ReadAll(s.streams, request)));
    } else {
      NextIsNew(s);
      ResolveKeys(s.streams, request);
      BlockedIsNotSatisfied(s, request);
      BlockKeepsLists(s, t, h, Resolve(s.streams, request));
      BlockKeepsDue(s, t, h);
    }
  }

  lemma BlockKeepsDue(s: ReadState, t: ReadState, h: Reader)
    requires WakeupsDue(s, []) && t.jobs == s.jobs && t.streams == s.streams
    requires h in t.handles && t.handles == s.handles[h := t.handles[h]] && !Satisfied(s.streams, t.handles[h])
    requires forall x :: Blocked(t, x) <==> Blocked(s, x) || x == h
    ensures WakeupsDue(t, [])
  {
    hide Blocked, Satisfied;
  }

  lemma StepKeeps(s: ReadState, step: Step)
    requires Inv(s) && Enabled(s, step)
    ensures Inv(Take(s, step))
  {
    hide Inv, XAdd, XRead, RunJob, FireTimer, Overwrite, Expire, DistinctKeys;
    match step
    case Add(key, asked, values, now) => AddKeeps(s, key, asked, values, now);
    case Read(request, block, now) => ReadKeeps(s, request, block, now);
    case Job => RunJobKeeps(s);
    case Timeout(h) => FireTimerKeeps(s, h);
    case Store(key) => StoreKeeps(s, key);
    case Erase(key) => EraseKeeps(s, key);
  }

  lemma {:induction false} RunKeeps(texts: set<string>, steps: seq<Step>)
    requires Run(texts, steps).Some?
    ensures Inv(Run(texts, steps).value)
    decreases |steps|
  {
    hide Take, Enabled;
    if steps != [] {
      RunKeeps(texts, steps[..|steps| - 1]);
      hide Inv;
      StepKeeps(Run(texts, steps[..|steps| - 1]).value, steps[|steps| - 1]);
    }
  }

  lemma SortedNow(s: ReadState, key: string)
    requires Inv(s)
    ensures Sorted(Entries(s.streams, key))
  {
  }
}
