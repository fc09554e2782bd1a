/** What blocked readers are promised, on every run. */
module BlockingTheorems {
  import opened Prelude
  import opened Decimal
  import opened StreamIds
  import opened Streams
  import opened BlockingReads

  /**
   Every XREAD has one answer, or is held by exactly the lists of its keys; only one that blocked without
   naming a stream has neither.
   */
  lemma AnsweredOrListed(texts: set<string>, steps: seq<Step>, s: ReadState, h: Reader)
    requires Run(texts, steps) == Some(s) && h < s.nextReader
    ensures Answered(s.replies, h) <= 1 && !(Answered(s.replies, h) == 1 && Held(s, h))
    ensures Answered(s.replies, h) == 1 || Held(s, h) <==> !(h in s.handles && s.handles[h] == [])
    ensures Held(s, h) ==> h in s.handles && forall key :: h in List(s.waitlists, key) <==> key in Keys(s.handles[h])
  {
    hide Run, Answered, Keys, Held;
    RunKeeps(texts, steps);
    HeldIffBlocked(s, h);
  }

  /** No lost wakeup: once the posted jobs have run, no blocked reader has anything to read. */
  lemma NoLostWakeup(texts: set<string>, steps: seq<Step>, s: ReadState, h: Reader)
    requires Run(texts, steps) == Some(s) && Held(s, h)
    ensures h in s.handles
    ensures ReadAll(s.streams, s.handles[h]) != [] ==> exists j | 0 <= j < |s.jobs| :: h in s.jobs[j]
    ensures s.jobs == [] ==> ReadAll(s.streams, s.handles[h]) == []
  {
    hide Run, Answered, Keys, Held, ReadAll, Satisfied;
    RunKeeps(texts, steps);
    HeldIffBlocked(s, h);
    ReadAllEmptyIff(s.streams, s.handles[h]);
  }

  /** A handle that is held is a blocked reader's, with distinct keys. */
  lemma HeldHandle(texts: set<string>, steps: seq<Step>, s: ReadState, h: Reader)
    requires Run(texts, steps) == Some(s) && Held(s, h)
    ensures h in s.handles && Blocked(s, h) && DistinctKeys(s.handles[h])
  {
    hide Run, Answered, Keys, Held, DistinctKeys;
    RunKeeps(texts, steps);
    HeldIffBlocked(s, h);
  }

  // ----- From the step that blocks to any later one -----

  lemma {:induction false} RunPrefix(texts: set<string>, steps: seq<Step>, i: nat)
    requires i <= |steps| && Run(texts, steps).Some?
    ensures Run(texts, steps[..i]).Some?
    decreases |steps|
  {
    hide Take, Enabled, Start;
    if i == |steps| {
      assert steps[..i] == steps;
    } else {
      RunPrefix(texts, steps[..|steps| - 1], i);
      assert steps[..|steps| - 1][..i] == steps[..i];
    }
  }

  /** What is recorded of a reader stays, and a reader that is blocked was not answered before. */
  ghost predicate Grows(s: ReadState, t: ReadState) {
    && s.nextReader <= t.nextReader && s.replies <= t.replies
    && (forall h | h < s.nextReader && h in s.handles :: h in t.handles && t.handles[h] == s.handles[h])
    && (forall h | h in s.handles && Blocked(t, h) :: Blocked(s, h))
  }

  /** The replies a job or a timer adds: those of readers held until then, with all there is for them now. */
  ghost predicate AddsReplies(s: ReadState, t: ReadState) {
    && s.replies <= t.replies
    && forall k | |s.replies| <= k < |t.replies| ::
         var r := t.replies[k];
         Held(s, r.reader) && r.reader in s.handles && r.result == ReadAll(s.streams, s.handles[r.reader])
  }

  lemma HeldBefore(s: ReadState, h: Reader, x: Reader)
    requires Held(Wake(s, h), x)
    ensures Held(s, x)
  {
    hide ReadAll, Keys;
    var t := Wake(s, h);
    var key :| key in t.waitlists && x in t.waitlists[key];
    if t.waitlists != s.waitlists {
      WithoutIs(s.waitlists[key], h);
    }
  }

  /** Waking touches answers and lists only. */
  lemma WakeAdds(s: ReadState, h: Reader)
    ensures var t := Wake(s, h); t == s.(replies := t.replies, waitlists := t.waitlists) && AddsReplies(s, t)
  {
    hide Held, ReadAll, Delist, Keys;
  }

  lemma {:induction false} WakeAllAdds(s: ReadState, job: seq<Reader>)
    ensures var t := WakeAll(s, job); t == s.(replies := t.replies, waitlists := t.waitlists) && AddsReplies(s, t)
    decreases |job|
  {
    hide Held, ReadAll, Delist, Keys, Wake;
    if job != [] {
      var u := Wake(s, job[0]);
      WakeAdds(s, job[0]);
      WakeAllAdds(u, job[1..]);
      var t := WakeAll(s, job);
      forall k | |s.replies| <= k < |t.replies|
        ensures Held(s, t.replies[k].reader) && t.replies[k].reader in s.handles
        ensures t.replies[k].result == ReadAll(s.streams, s.handles[t.replies[k].reader])
      {
        if k < |u.replies| {
          assert t.replies[k] == u.replies[k];
        } else {
          HeldBefore(s, job[0], t.replies[k].reader);
        }
      }
    }
  }

  lemma HeldIsLists(s: ReadState, t: ReadState, h: Reader)
    requires t.waitlists == s.waitlists
    ensures Held(t, h) == Held(s, h)
  {
  }

  /** A step that wakes readers answers those, and no others, with what their streams hold. */
  lemma StepAddsReplies(s: ReadState, step: Step)
    requires Enabled(s, step) && (step.Job? || step.Timeout?)
    ensures AddsReplies(s, Take(s, step)) && Take(s, step).streams == s.streams
  {
    hide Held, ReadAll, WakeAll, Wake;
    var popped := if step.Job? then s.(jobs := s.jobs[1..]) else s.(timers := s.timers - {step.reader});
    if step.Job? {
      WakeAllAdds(popped, s.jobs[0]);
    } else {
      WakeAdds(popped, step.reader);
    }
    forall h ensures Held(popped, h) == Held(s, h) {
      HeldIsLists(s, popped, h);
    }
  }

  lemma {:induction false} AnsweredGrows(a: seq<Reply>, b: seq<Reply>, h: Reader)
    requires a <= b
    ensures Answered(a, h) <= Answered(b, h)
    decreases |b|
  {
    if |a| < |b| {
      AnsweredGrows(a, b[..|b| - 1], h);
    } else {
      assert a == b;
    }
  }

  lemma BlockedBefore(s: ReadState, t: ReadState, h: Reader)
    requires s.replies <= t.replies && h in s.handles && Blocked(t, h)
    ensures Blocked(s, h)
  {
    hide Answered;
    AnsweredGrows(s.replies, t.replies, h);
  }

  lemma StepGrows(s: ReadState, step: Step)
    requires Enabled(s, step) && forall h | h in s.handles :: h < s.nextReader
    ensures Grows(s, Take(s, step))
  {
    hide WakeAll, Wake, Held, ReadAll, Keys, Enlist, Resolve, Blocked, DistinctKeys, Entries, Choose, Appended, Overflows;
    var t := Take(s, step);
    if step.Job? {
      StepAddsReplies(s, step);
      WakeAllAdds(s.(jobs := s.jobs[1..]), s.jobs[0]);
    } else if step.Timeout? {
      StepAddsReplies(s, step);
      WakeAdds(s.(timers := s.timers - {step.reader}), step.reader);
    }
    forall h | h in s.handles && Blocked(t, h) ensures Blocked(s, h) {
      BlockedBefore(s, t, h);
    }
  }

  lemma {:induction false} RunGrows(texts: set<string>, steps: seq<Step>, i: nat, v: ReadState, s: ReadState)
    requires i <= |steps| && Run(texts, steps[..i]) == Some(v) && Run(texts, steps) == Some(s)
    ensures Grows(v, s)
    decreases |steps|
  {
    hide Inv, Take, Enabled, Entries, Answered, Keys;
    if i == |steps| {
      assert steps[..i] == steps;
    } else {
      var init, last := steps[..|steps| - 1], steps[|steps| - 1];
      RunPrefix(texts, steps, |init|);
      assert init[..i] == steps[..i];
      var u := Run(texts, init).value;
      RunGrows(texts, init, i, v, u);
      HandlesAreOld(texts, init, u);
      HandlesAreOld(texts, steps[..i], v);
      StepGrows(u, last);
      GrowsAcross(v, u, s);
    }
  }

  lemma HandlesAreOld(texts: set<string>, steps: seq<Step>, s: ReadState)
    requires Run(texts, steps) == Some(s)
    ensures forall h | h in s.handles :: h < s.nextReader
  {
    hide Run, Answered, Keys, DistinctKeys, NoRepeats;
    RunKeeps(texts, steps);
  }

  lemma GrowsAcross(u: ReadState, v: ReadState, w: ReadState)
    requires Grows(u, v) && Grows(v, w) && forall h | h in u.handles :: h < u.nextReader
    ensures Grows(u, w)
  {
    hide Blocked;
  }

  // ----- Blocking without a stream -----

  /** The XREAD of step `i` blocked. */
  predicate Blocks(steps: seq<Step>, i: nat, v: ReadState) {
    i < |steps| && steps[i].Read? && steps[i].block.Some? && ReadAll(v.streams, steps[i].request) == []
  }

  /** What is on record of an XREAD that blocked, at any later time. */
  lemma BlockRecorded(texts: set<string>, steps: seq<Step>, i: nat, v: ReadState, s: ReadState)
    requires Blocks(steps, i, v) && Run(texts, steps[..i]) == Some(v) && Run(texts, steps) == Some(s)
    ensures var h, request := v.nextReader, steps[i].request;
            && h < s.nextReader && h in s.handles && s.handles[h] == Resolve(v.streams, request)
            && DistinctKeys(request) && Keys(s.handles[h]) == Keys(request)
  {
    hide Inv, Entries, Enlist, Resolve, Answered, DistinctKeys, ReadAll, Keys;
    var next, h := steps[..i + 1], v.nextReader;
    RunPrefix(texts, steps, i + 1);
    assert next[..|next| - 1] == steps[..i] && next[|next| - 1] == steps[i];
    var u := Run(texts, next).value;
    assert u == XRead(v, steps[i].request, steps[i].block, steps[i].at);
    RunGrows(texts, steps, i + 1, u, s);
    ResolveKeys(v.streams, steps[i].request);
  }

  /** An XREAD that blocks without naming a stream is never answered and waits nowhere. */
  lemma EmptyReadIsLost(texts: set<string>, steps: seq<Step>, i: nat, v: ReadState, s: ReadState)
    requires i < |steps| && steps[i].Read? && steps[i].block.Some? && steps[i].request == []
    requires Run(texts, steps[..i]) == Some(v) && Run(texts, steps) == Some(s)
    ensures Answered(s.replies, v.nextReader) == 0 && !Held(s, v.nextReader)
    ensures Wake(s, v.nextReader) == s
  {
    hide Run, Answered, Keys, Held, DistinctKeys;
    assert ReadAll(v.streams, []) == [];
    BlockRecorded(texts, steps, i, v, s);
    assert Resolve(v.streams, []) == [];
    AnsweredOrListed(texts, steps, s, v.nextReader);
  }

  // ----- What a blocked reader would read -----

  lemma {:induction false} NewerEmptyIff(data: seq<Entry>, id: StreamId)
    ensures Newer(data, id) == [] <==> forall e | e in data :: !id.Less(e.id)
  {
    if data != [] {
      NewerEmptyIff(data[1..], id);
      assert forall e :: e in data <==> e == data[0] || e in data[1..];
    }
  }

  /** Above the last of the first `n` entries come the others, unless one of them is 0-0. */
  lemma NewerThanLast(data: seq<Entry>, n: nat)
    requires Sorted(data) && n <= |data| && forall j | n <= j < |data| :: !data[j].id.IsNull()
    ensures Newer(data, Last(data[..n])) == data[n..]
  {
    NewerSlice(data, Last(data[..n]), n);
  }

  /** From step `i` on, no SET took the key, and no XADD to the stream an id below its top, nor 0-0. */
  ghost predicate OnlyGrows(texts: set<string>, steps: seq<Step>, i: nat, key: string) {
    && (forall j | i <= j < |steps| && steps[j].Store? :: steps[j].key != key)
    && forall j | i <= j < |steps| && steps[j].Add? && steps[j].key == key && Run(texts, steps[..j]).Some? ::
      AtTop(Entries(Run(texts, steps[..j]).value.streams, key), steps[j].asked, steps[j].now)
  }

  predicate AtTop(data: seq<Entry>, asked: InputStreamId, now: uint64) {
    var r := Choose(data, asked, now);
    r.Added? ==> !Overflows(data, asked, now) && !r.id.IsNull()
  }

  /** A stream has grown at its end, and not by 0-0. */
  predicate GrewAtEnd(before: seq<Entry>, after: seq<Entry>) {
    before <= after && forall j | |before| <= j < |after| :: !after[j].id.IsNull()
  }

  lemma StepGrowsStream(s: ReadState, step: Step, key: string)
    requires Inv(s) && Enabled(s, step) && !(step.Store? && step.key == key)
    requires step.Add? && step.key == key ==> AtTop(Entries(s.streams, key), step.asked, step.now)
    ensures GrewAtEnd(Entries(s.streams, key), Entries(Take(s, step).streams, key))
  {
    hide Inv, WakeAll, Wake, Held, ReadAll, Enlist, Resolve, Choose, Appended, Overflows, Sorted, DistinctKeys, Keys, Blocked;
    match step
    case Add(k, asked, values, now) =>
      SortedNow(s, k);
      AppendsAtEndIff(Entries(s.streams, k), asked, values, now);
    case Job => WakeAllAdds(s.(jobs := s.jobs[1..]), s.jobs[0]);
    case Timeout(x) => WakeAdds(s.(timers := s.timers - {x}), x);
    case _ =>
  }

  lemma GrewTwice(a: seq<Entry>, b: seq<Entry>, c: seq<Entry>)
    requires GrewAtEnd(a, b) && GrewAtEnd(b, c)
    ensures GrewAtEnd(a, c)
  {
    assert forall j | |a| <= j < |b| :: c[j] == b[j];
  }

  /** A stream only grows at its end, if no SET takes its key and every XADD to it takes an id at its top. */
  lemma {:induction false} StreamGrows(texts: set<string>, steps: seq<Step>, i: nat, v: ReadState, s: ReadState, key: string)
    requires i <= |steps| && Run(texts, steps[..i]) == Some(v) && Run(texts, steps) == Some(s) && OnlyGrows(texts, steps, i, key)
    ensures GrewAtEnd(Entries(v.streams, key), Entries(s.streams, key))
    decreases |steps|
  {
    hide Inv, Take, Enabled, Entries, AtTop;
    if i == |steps| {
      assert steps[..i] == steps;
    } else {
      var init, last := steps[..|steps| - 1], steps[|steps| - 1];
      RunPrefix(texts, steps, |init|);
      assert init[..i] == steps[..i];
      var u := Run(texts, init).value;
      assert OnlyGrows(texts, init, i, key) by {
        assert forall j | i <= j < |init| :: init[j] == steps[j] && init[..j] == steps[..j];
      }
      StreamGrows(texts, init, i, v, u, key);
      RunKeeps(texts, init);
      StepGrowsStream(u, last, key);
      GrewTwice(Entries(v.streams, key), Entries(u.streams, key), Entries(s.streams, key));
    }
  }

  /** There is an entry, appended since, for a position. */
  predicate Appeared(before: seq<Entry>, after: seq<Entry>, position: ReadStreamId) {
    |before| <= |after| && exists e | e in after[|before|..] :: position.NextExpected? || position.id.Less(e.id)
  }

  /** An entry that a stream did not hold is above a position. */
  predicate NewAbove(before: seq<Entry>, after: seq<Entry>, position: StreamId) {
    exists e | e in after :: e !in before && position.Less(e.id)
  }

  /** What a position of a request that blocked would read later, whatever became of its stream. */
  lemma ReadsIffNew(v: map<string, seq<Entry>>, s: map<string, seq<Entry>>, p: (string, ReadStreamId))
    requires ReadOne(v, ResolveOne(v, p)) == []
    ensures ReadOne(s, ResolveOne(v, p)) != [] <==> NewAbove(Entries(v, p.0), Entries(s, p.0), ResolveOne(v, p).1.id)
  {
    hide Newer, Entries;
    NewerEmptyIff(Entries(v, p.0), ResolveOne(v, p).1.id);
    NewerEmptyIff(Entries(s, p.0), ResolveOne(v, p).1.id);
  }

  /** If the stream only grew at its end, these are the entries appended since that are above the position. */
  lemma ReadsIffAppeared(v: map<string, seq<Entry>>, s: map<string, seq<Entry>>, p: (string, ReadStreamId))
    requires GrewAtEnd(Entries(v, p.0), Entries(s, p.0)) && Sorted(Entries(s, p.0)) && ReadOne(v, p) == []
    ensures ReadOne(s, ResolveOne(v, p)) != [] <==> Appeared(Entries(v, p.0), Entries(s, p.0), p.1)
    ensures p.1.NextExpected? ==> ReadOne(s, ResolveOne(v, p)) == Entries(s, p.0)[|Entries(v, p.0)|..]
  {
    hide Sorted, Newer, Entries;
    var before, after := Entries(v, p.0), Entries(s, p.0);
    var more := after[|before|..];
    assert after == before + more && after[..|before|] == before;
    if p.1.NextExpected? {
      NewerThanLast(after, |before|);
      assert more != [] ==> more[0] in more;
    } else {
      NewerGrows(before, more, p.1.id);
      NewerEmptyIff(more, p.1.id);
      assert [] + Newer(more, p.1.id) == Newer(more, p.1.id);
    }
  }

  /** What is known of one position of a request that blocked. */
  lemma PositionReads(texts: set<string>, steps: seq<Step>, i: nat, v: ReadState, s: ReadState, p: (string, ReadStreamId))
    requires Blocks(steps, i, v) && Run(texts, steps[..i]) == Some(v) && Run(texts, steps) == Some(s)
    requires Held(s, v.nextReader) && p in steps[i].request
    ensures ReadOne(v.streams, ResolveOne(v.streams, p)) == []
    ensures OnlyGrows(texts, steps, i, p.0) ==>
              && GrewAtEnd(Entries(v.streams, p.0), Entries(s.streams, p.0))
              && (ReadOne(s.streams, ResolveOne(v.streams, p)) != [] <==> Appeared(Entries(v.streams, p.0), Entries(s.streams, p.0), p.1))
              && (p.1.NextExpected? ==> ReadOne(s.streams, ResolveOne(v.streams, p)) == Entries(s.streams, p.0)[|Entries(v.streams, p.0)|..])
  {
    hide Inv, Run, Held, ReadAll, ReadOne, Entries, DistinctKeys, Resolve, ResolveOne, Appeared, Sorted, OnlyGrows, GrewAtEnd, Take, Enabled;
    var request, h := steps[i].request, v.nextReader;
    BlockRecorded(texts, steps, i, v, s);
    HeldHandle(texts, steps, s, h);
    ReadAllEmptyIff(v.streams, request);
    RunKeeps(texts, steps[..i]);
    BlockedIsNotSatisfied(v, request) by { StreamsAreSorted(v); }
    ResolveKeys(v.streams, request);
    assert p.0 in Keys(request);
    if OnlyGrows(texts, steps, i, p.0) {
      StreamGrows(texts, steps, i, v, s, p.0);
      RunKeeps(texts, steps);
      SortedNow(s, p.0);
      ReadsIffAppeared(v.streams, s.streams, p);
    }
  }

  lemma StreamsAreSorted(s: ReadState)
    requires Inv(s)
    ensures StreamsSorted(s)
  {
    hide Sorted;
  }

  /**
   Whenever a blocked reader is answered later, the answer is empty unless a stream it names holds an entry,
   not there when it blocked, that is above its position. A `$` stands for the last id there was then.
   */
  lemma AnswerIsNonEmptyIff(texts: set<string>, steps: seq<Step>, i: nat, v: ReadState, s: ReadState)
    requires Blocks(steps, i, v) && Run(texts, steps[..i]) == Some(v) && Run(texts, steps) == Some(s)
    requires Held(s, v.nextReader)
    ensures v.nextReader in s.handles
    ensures ReadAll(s.streams, s.handles[v.nextReader]) != [] <==>
            exists p | p in steps[i].request ::
              NewAbove(Entries(v.streams, p.0), Entries(s.streams, p.0), ResolveOne(v.streams, p).1.id)
  {
    hide Inv, Run, Held, ReadAll, ReadOne, Entries, DistinctKeys, Keys, Resolve, NewAbove, OnlyGrows, GrewAtEnd, Appeared;
    var request := steps[i].request;
    BlockRecorded(texts, steps, i, v, s);
    ReadAllEmptyIff(s.streams, s.handles[v.nextReader]);
    ResolveKeys(v.streams, request);
    forall p | p in request
      ensures ReadOne(s.streams, ResolveOne(v.streams, p)) != [] <==>
              NewAbove(Entries(v.streams, p.0), Entries(s.streams, p.0), ResolveOne(v.streams, p).1.id)
    {
      PositionReads(texts, steps, i, v, s, p);
      ReadsIffNew(v.streams, s.streams, p);
    }
  }

  /** An XADD gives something to a position exactly if its id is above it. */
  lemma AddGivesIff(data: seq<Entry>, e: Entry, position: StreamId)
    requires Sorted(data) && Newer(data, position) == []
    ensures Newer(Emplace(data, e), position) != [] <==> position.Less(e.id)
  {
    hide Newer;
    var after := Emplace(data, e);
    NewerEmptyIff(data, position);
    NewerEmptyIff(after, position);
    EmplaceKeeps(data, e);
    hide Emplace;
    if position.Less(e.id) {
      assert forall i | 0 <= i < |data| :: data[i] in data;
      EmplaceAbove(data, e);
      assert e in data + [e];
    }
  }

  /**
   With no job due, an accepted XADD on a stream that a blocked reader waits on gives it something exactly
   if the new id is above the reader's position, overflow or not. Otherwise the wakeup is spurious.
   */
  lemma WakeGivesIff(texts: set<string>, steps: seq<Step>, s: ReadState, h: Reader, key: string, position: StreamId,
                     asked: InputStreamId, values: seq<(string, string)>, now: uint64)
    requires Run(texts, steps) == Some(s) && s.jobs == [] && Held(s, h)
    requires h in s.handles && (key, After(position)) in s.handles[h] && XAdd(s, key, asked, values, now).1.Added?
    ensures var t, r := XAdd(s, key, asked, values, now).0, Choose(Entries(s.streams, key), asked, now);
            && t.jobs == [List(s.waitlists, key)] && h in List(s.waitlists, key) && h in t.handles
            && (ReadAll(t.streams, t.handles[h]) != [] <==> position.Less(r.id))
  {
    hide Run, Held, ReadAll, Newer, Sorted, Choose, Emplace, Inv, Overflows;
    var t, data, p := XAdd(s, key, asked, values, now).0, Entries(s.streams, key), (key, After(position));
    var request := s.handles[h];
    HeldHandle(texts, steps, s, h);
    assert p.0 in Keys(request);
    AnsweredOrListed(texts, steps, s, h) by {
      HandlesAreOld(texts, steps, s);
    }
    NoLostWakeup(texts, steps, s, h);
    ReadAllEmptyIff(s.streams, request);
    ReadAllEmptyIff(t.streams, request);
    RunKeeps(texts, steps);
    SortedNow(s, key);
    AddGivesIff(data, Entry(Choose(data, asked, now).id, values), position);
    forall q | q in request && q != p ensures ReadOne(t.streams, q) == [] {
      OtherKey(request, p, q);
      assert ReadOne(s.streams, q) == [];
    }
    assert ReadOne(s.streams, p) == [];
  }

  lemma OtherKey(request: ReadRequest, p: (string, ReadStreamId), q: (string, ReadStreamId))
    requires DistinctKeys(request) && p in request && q in request && p != q
    ensures p.0 != q.0
  {
    var i :| 0 <= i < |request| && request[i] == p;
    var j :| 0 <= j < |request| && request[j] == q;
    assert i < j || j < i;
  }

  // ----- What a reply holds -----

  /** The entries a result holds for a key; none if the key is not in it. */
  function ResultFor(result: seq<(string, seq<Entry>)>, key: string): seq<Entry> {
    if result == [] then [] else if result[0].0 == key then result[0].1 else ResultFor(result[1..], key)
  }

  /** A result holds for each key asked what its position asks for, and nothing else; no key is listed empty. */
  lemma {:induction false} ReadAllHolds(streams: map<string, seq<Entry>>, request: ReadRequest)
    requires DistinctKeys(request)
    ensures forall p | p in request :: ResultFor(ReadAll(streams, request), p.0) == ReadOne(streams, p)
    ensures forall key | key !in Keys(request) :: ResultFor(ReadAll(streams, request), key) == []
    ensures forall q | q in ReadAll(streams, request) :: q.0 in Keys(request) && q.1 != []
  {
    hide ReadOne;
    if request != [] {
      var rest, first := request[1..], request[0];
      assert forall i | 0 <= i < |rest| :: rest[i] == request[i + 1];
      ReadAllHolds(streams, rest);
      assert forall p :: p in request <==> p == first || p in rest;
      RestKeys(request);
      var here := if ReadOne(streams, first) != [] then [(first.0, ReadOne(streams, first))] else [];
      if here != [] {
        assert (here + ReadAll(streams, rest))[1..] == ReadAll(streams, rest);
      } else {
        assert here + ReadAll(streams, rest) == ReadAll(streams, rest);
      }
    }
  }

  lemma RestKeys(request: ReadRequest)
    requires request != [] && DistinctKeys(request)
    ensures Keys(request) == Keys(request[1..]) + {request[0].0} && request[0].0 !in Keys(request[1..])
  {
    var rest := request[1..];
    assert forall i | 0 <= i < |rest| :: rest[i] == request[i + 1];
    assert forall p :: p in request <==> p == request[0] || p in rest;
  }

  /** `part` is the end of a stream that begins behind a position: what is above it, in order. */
  ghost predicate IsAbove(part: seq<Entry>, data: seq<Entry>, position: StreamId) {
    exists k | 0 <= k <= |data| ::
      && part == data[k..]
      && (forall i | 0 <= i < k :: data[i].id.AtMost(position)) && (forall i | k <= i < |data| :: position.Less(data[i].id))
  }

  /** What a position asks for: for an id what is above it, for `$` nothing. */
  lemma ReadOneIs(streams: map<string, seq<Entry>>, p: (string, ReadStreamId))
    requires Sorted(Entries(streams, p.0))
    ensures p.1.NextExpected? ==> ReadOne(streams, p) == []
    ensures p.1.After? ==> IsAbove(ReadOne(streams, p), Entries(streams, p.0), p.1.id)
  {
    if p.1.After? {
      var data, id := Entries(streams, p.0), p.1.id;
      NewerIs(data, id);
      var k := UpperBound(data, id);
      UpperBoundIs(data, id);
      assert forall i | 0 <= i < k :: data[i].id.AtMost(id);
    }
  }

  /** A request names one key before another. */
  predicate Before(request: ReadRequest, first: string, second: string) {
    exists i, j | 0 <= i < j < |request| :: request[i].0 == first && request[j].0 == second
  }

  /** The streams of a result are in the order in which they were asked for. */
  ghost predicate InOrder(result: seq<(string, seq<Entry>)>, request: ReadRequest) {
    forall a, b | 0 <= a < b < |result| :: Before(request, result[a].0, result[b].0)
  }

  lemma {:induction false} ReadAllInOrder(streams: map<string, seq<Entry>>, request: ReadRequest)
    ensures InOrder(ReadAll(streams, request), request)
  {
    hide ReadOne, InOrder;
    if request == [] {
      NothingInOrder();
    } else {
      ReadAllInOrder(streams, request[1..]);
      ReadAllKeys(streams, request[1..]);
      var here := if ReadOne(streams, request[0]) != [] then [(request[0].0, ReadOne(streams, request[0]))] else [];
      InOrderMore(here, ReadAll(streams, request[1..]), request);
    }
  }

  lemma NothingInOrder()
    ensures InOrder([], [])
  {
  }

  /** One stream in front of those of the rest of a request. */
  lemma InOrderMore(here: seq<(string, seq<Entry>)>, more: seq<(string, seq<Entry>)>, request: ReadRequest)
    requires request != [] && InOrder(more, request[1..]) && |here| <= 1 && (here != [] ==> here[0].0 == request[0].0)
    requires forall q | q in more :: exists j | 0 <= j < |request[1..]| :: request[1..][j].0 == q.0
    ensures InOrder(here + more, request)
  {
    hide Before;
    var result, n := here + more, |here|;
    forall a, b | 0 <= a < b < |result| ensures Before(request, result[a].0, result[b].0) {
      if a < n {
        assert more[b - n] in more;
        BeforeLater(request, more[b - n].0);
      } else {
        BeforeTail(request, more[a - n].0, more[b - n].0);
      }
    }
  }

  lemma BeforeTail(request: ReadRequest, first: string, second: string)
    requires request != [] && Before(request[1..], first, second)
    ensures Before(request, first, second)
  {
    var i, j :| 0 <= i < j < |request[1..]| && request[1..][i].0 == first && request[1..][j].0 == second;
    assert request[i + 1].0 == first && request[j + 1].0 == second;
  }

  lemma BeforeLater(request: ReadRequest, second: string)
    requires request != [] && exists j | 0 <= j < |request[1..]| :: request[1..][j].0 == second
    ensures Before(request, request[0].0, second)
  {
    var j :| 0 <= j < |request[1..]| && request[1..][j].0 == second;
    assert request[j + 1].0 == second;
  }

  lemma {:induction false} ReadAllKeys(streams: map<string, seq<Entry>>, request: ReadRequest)
    ensures forall q | q in ReadAll(streams, request) :: exists j | 0 <= j < |request| :: request[j].0 == q.0
  {
    hide ReadOne;
    if request != [] {
      ReadAllKeys(streams, request[1..]);
      forall q | q in ReadAll(streams, request) ensures exists j | 0 <= j < |request| :: request[j].0 == q.0 {
        if q in ReadAll(streams, request[1..]) {
          var j :| 0 <= j < |request[1..]| && request[1..][j].0 == q.0;
          assert request[j + 1].0 == q.0;
        }
      }
    }
  }

  /**
   A result is what was asked for: for each key the end of its stream above the position, nothing for `$`,
   in the order asked, and no empty stream.
   */
  ghost predicate Delivers(streams: map<string, seq<Entry>>, request: ReadRequest, result: seq<(string, seq<Entry>)>) {
    && (forall p | p in request ::
          if p.1.After? then IsAbove(ResultFor(result, p.0), Entries(streams, p.0), p.1.id) else ResultFor(result, p.0) == [])
    && (forall q | q in result :: q.0 in Keys(request) && q.1 != []) && InOrder(result, request)
  }

  lemma ReadAllDelivers(s: ReadState, request: ReadRequest)
    requires StreamsSorted(s) && DistinctKeys(request)
    ensures Delivers(s.streams, request, ReadAll(s.streams, request))
  {
    hide Sorted, ReadOne, ReadAll, IsAbove, InOrder, DistinctKeys, Keys;
    ReadAllHolds(s.streams, request);
    ReadAllInOrder(s.streams, request);
    forall p | p in request
      ensures var part := ResultFor(ReadAll(s.streams, request), p.0);
              if p.1.After? then IsAbove(part, Entries(s.streams, p.0), p.1.id) else part == []
    {
      EntriesSorted(s, p.0);
      ReadOneIs(s.streams, p);
    }
  }

  /** An answer to the next reader, of what it asked for as the streams are now. */
  ghost predicate IsAnswer(s: ReadState, request: ReadRequest, block: Option<nat>, r: Reply) {
    r.reader == s.nextReader && (DistinctKeys(request) ==> Delivers(s.streams, request, r.result)) && (block.Some? ==> r.result != [])
  }

  /**
   An XREAD that does not block, or finds something, has one reply at once, of what it asked for as the
   streams are then, and changes nothing else.
   */
  lemma AnsweredAtOnce(s: ReadState, request: ReadRequest, block: Option<nat>, now: nat)
    requires StreamsSorted(s) && (block.None? || ReadAll(s.streams, request) != [])
    ensures var t := XRead(s, request, block, now);
            && t == s.(nextReader := s.nextReader + 1, replies := t.replies) && s.replies <= t.replies
            && |t.replies| == |s.replies| + 1 && IsAnswer(s, request, block, t.replies[|s.replies|])
  {
    hide ReadAll, Delivers, DistinctKeys, StreamsSorted;
    if DistinctKeys(request) {
      ReadAllDelivers(s, request);
    }
  }

  /** An XREAD that blocks has no reply, is listed, and with a time limit has its timer at that time from now. */
  lemma BlocksUntil(s: ReadState, request: ReadRequest, ms: nat, now: nat)
    requires ReadAll(s.streams, request) == []
    ensures var t := XRead(s, request, Some(ms), now);
            && t.replies == s.replies && t.nextReader == s.nextReader + 1 && s.nextReader in t.handles && t.jobs == s.jobs
            && (ms > 0 ==> s.nextReader in t.timers && t.timers[s.nextReader] == now + ms && t.limits[s.nextReader] == now + ms)
            && (forall h | h != s.nextReader || ms == 0 :: (h in t.timers <==> h in s.timers) && (h in s.timers ==> t.timers[h] == s.timers[h]))
            && (forall key, h | h != s.nextReader :: h in List(t.waitlists, key) <==> h in List(s.waitlists, key))
            && (forall key | key in Keys(request) :: s.nextReader in List(t.waitlists, key))
  {
    hide ReadAll, Keys, Resolve;
    EnlistIs(s.waitlists, Keys(request), s.nextReader);
  }

  /** What an XADD does to the streams: the new entry, if it is accepted and its id was not taken, and nothing else. */
  lemma AddHolds(s: ReadState, key: string, asked: InputStreamId, values: seq<(string, string)>, now: uint64)
    requires StreamsSorted(s)
    ensures var (t, r) := XAdd(s, key, asked, values, now);
            && (r == Refused(WrongKeyType) <==> key in s.texts)
            && (r.Refused? ==> t == s)
            && (r.Added? ==>
                  && (forall k | k != key :: Entries(t.streams, k) == Entries(s.streams, k))
                  && (forall e :: e in Entries(t.streams, key) <==>
                        e in Entries(s.streams, key) || (e == Entry(r.id, values) && forall x | x in Entries(s.streams, key) :: x.id != r.id))
                  && t.texts == s.texts && t.replies == s.replies && t.handles == s.handles && t.waitlists == s.waitlists && t.timers == s.timers
                  && t.jobs == s.jobs + [List(s.waitlists, key)])
  {
    hide Emplace, Sorted, Choose;
    EntriesSorted(s, key);
    var r := Choose(Entries(s.streams, key), asked, now);
    ChoiceError(Entries(s.streams, key), asked, now);
    if r.Added? {
      EmplaceHolds(Entries(s.streams, key), Entry(r.id, values));
    }
  }

  lemma ChoiceError(data: seq<Entry>, asked: InputStreamId, now: uint64)
    ensures Choose(data, asked, now) != Refused(WrongKeyType)
  {
    RefusedIff(data, asked, now);
  }

  /** A SET puts a string where a stream was, an expiry leaves nothing; other keys keep what they have. */
  lemma TextsChange(s: ReadState, key: string)
    ensures var t, u := Overwrite(s, key), Expire(s, key);
            && key in t.texts && Entries(t.streams, key) == [] && key !in u.texts && u.streams == s.streams
            && (forall k | k != key :: (k in t.texts <==> k in s.texts) && Entries(t.streams, k) == Entries(s.streams, k) && (k in u.texts <==> k in s.texts))
            && t == s.(streams := t.streams, texts := t.texts) && u == s.(texts := u.texts)
  {
  }

  /**
   What a job or a timer answers to a reader that blocked at step `i`: for each position exactly what its
   stream holds for it now. For a `$` that is exactly the entries appended since the reader blocked, if since
   then no SET took the key, and no XADD to the stream an id below its top, or 0-0.
   */
  lemma WokenReadsNew(texts: set<string>, steps: seq<Step>, i: nat, v: ReadState, s: ReadState, step: Step, k: nat)
    requires Blocks(steps, i, v) && Run(texts, steps[..i]) == Some(v) && Run(texts, steps) == Some(s)
    requires Enabled(s, step) && (step.Job? || step.Timeout?)
    requires |s.replies| <= k < |Take(s, step).replies| && Take(s, step).replies[k].reader == v.nextReader
    ensures var result := Take(s, step).replies[k].result;
            forall p | p in steps[i].request ::
              && ResultFor(result, p.0) == ReadOne(s.streams, ResolveOne(v.streams, p))
              && (p.1.NextExpected? && OnlyGrows(texts, steps, i, p.0) ==>
                    && Entries(v.streams, p.0) <= Entries(s.streams, p.0)
                    && ResultFor(result, p.0) == Entries(s.streams, p.0)[|Entries(v.streams, p.0)|..])
  {
    hide Inv, Enabled, Run, Held, ReadAll, ReadOne, Take, Entries, DistinctKeys, Keys, Resolve, Appeared, OnlyGrows;
    var h, request := v.nextReader, steps[i].request;
    StepAddsReplies(s, step);
    BlockRecorded(texts, steps, i, v, s);
    HeldHandle(texts, steps, s, h);
    ReadAllHolds(s.streams, s.handles[h]);
    ResolveKeys(v.streams, request);
    var result := Take(s, step).replies[k].result;
    forall p | p in request
      ensures ResultFor(result, p.0) == ReadOne(s.streams, ResolveOne(v.streams, p))
      ensures p.1.NextExpected? && OnlyGrows(texts, steps, i, p.0) ==>
                && Entries(v.streams, p.0) <= Entries(s.streams, p.0)
                && ResultFor(result, p.0) == Entries(s.streams, p.0)[|Entries(v.streams, p.0)|..]
    {
      PositionReads(texts, steps, i, v, s, p);
      assert ResolveOne(v.streams, p) in s.handles[h];
    }
  }

  // ----- Timeouts -----

  /** Timers are those of readers that blocked, and a reader that waits with a time limit has one for it. */
  ghost predicate TimersHold(s: ReadState) {
    && s.timers.Keys <= s.limits.Keys <= s.handles.Keys
    && forall h | h in s.limits && Held(s, h) :: h in s.timers && s.timers[h] == s.limits[h]
  }

  lemma StepTimers(s: ReadState, step: Step)
    requires Inv(s) && TimersHold(s) && Enabled(s, step)
    ensures TimersHold(Take(s, step))
  {
    hide Inv, WakeAll, Wake, Held, ReadAll, Delist, Keys, Enlist, Resolve, Choose, Appended, Overflows, DistinctKeys;
    var t := Take(s, step);
    match step
    case Job =>
      var popped := s.(jobs := s.jobs[1..]);
      WakeAllAdds(popped, s.jobs[0]);
      forall h ensures Held(t, h) ==> Held(s, h) {
        HeldBeforeAll(popped, s.jobs[0], h);
        HeldIsLists(s, popped, h);
      }
    case Timeout(x) =>
      var popped := s.(timers := s.timers - {x});
      WakeAdds(popped, x);
      forall h ensures Held(t, h) ==> Held(s, h) && h != x {
        HeldIsLists(s, popped, h);
        HeldAfter(s, x, h);
      }
    case Read(request, block, at) => ReadTimers(s, request, block, at);
    case _ =>
      forall h ensures Held(t, h) == Held(s, h) {
        HeldIsLists(s, t, h);
      }
  }

  lemma {:induction false} HeldBeforeAll(s: ReadState, job: seq<Reader>, x: Reader)
    ensures Held(WakeAll(s, job), x) ==> Held(s, x)
    decreases |job|
  {
    hide Held, Wake;
    if job != [] {
      HeldBeforeAll(Wake(s, job[0]), job[1..], x);
      if Held(Wake(s, job[0]), x) {
        HeldBefore(s, job[0], x);
      }
    }
  }

  /** A timer that fires lets its reader go, and takes up no other. */
  lemma HeldAfter(s: ReadState, x: Reader, h: Reader)
    requires Inv(s)
    ensures Held(FireTimer(s, x), h) ==> Held(s.(timers := s.timers - {x}), h) && h != x
  {
    hide Held, Wake, Inv;
    var popped := s.(timers := s.timers - {x});
    if Held(FireTimer(s, x), h) {
      HeldBefore(popped, x, h);
      if h == x {
        Released(s, x);
      }
    }
  }

  lemma Released(s: ReadState, h: Reader)
    requires Inv(s)
    ensures !Held(FireTimer(s, h), h)
  {
    hide Answered, Keys, DistinctKeys, NoRepeats, WakeupsDue, StreamsSorted, TextsApart, Delist, ReadAll, Held;
    FireTimerKeeps(s, h);
    var popped := s.(timers := s.timers - {h});
    JobsFrame(s, popped);
    HeldIffBlocked(popped, h);
    if Held(popped, h) {
      ReplyKeepsLists(popped, h);
      HeldIffBlocked(FireTimer(s, h), h);
    }
  }

  /** Waking a reader takes it out of all lists, and no other out of any. */
  lemma WakeReleases(s: ReadState, h: Reader, x: Reader)
    requires ListsExact(s)
    ensures Held(Wake(s, h), x) <==> Held(s, x) && x != h
  {
    hide Answered, Keys, DistinctKeys, NoRepeats, ReadAll, Held, Delist;
    HeldIffBlocked(s, h);
    HeldIffBlocked(s, x);
    if Held(s, h) {
      ReplyKeepsLists(s, h);
      HeldIffBlocked(ReplyTo(s, h), x);
    }
  }

  lemma {:induction false} WakeAllReleases(s: ReadState, job: seq<Reader>, x: Reader)
    requires Mid(s, job)
    ensures Held(WakeAll(s, job), x) <==> Held(s, x) && x !in job
    decreases |job|
  {
    hide Mid, Wake, Held;
    if job != [] {
      assert job == [job[0]] + job[1..];
      MidLists(s, job);
      WakeReleases(s, job[0], x);
      WakeKeeps(s, job[0], job[1..]);
      WakeAllReleases(Wake(s, job[0]), job[1..], x);
    }
  }

  lemma MidLists(s: ReadState, woken: seq<Reader>)
    requires Mid(s, woken)
    ensures ListsExact(s)
  {
    hide ListsExact, OneAnswer, WakeupsDue, StreamsSorted;
  }

  /** A job lets exactly the readers of the oldest posted list go, and a timer its reader. */
  lemma LetsGoExactly(texts: set<string>, steps: seq<Step>, s: ReadState, h: Reader)
    requires Run(texts, steps) == Some(s)
    ensures s.jobs != [] ==> (Held(RunJob(s), h) <==> Held(s, h) && h !in s.jobs[0]) && RunJob(s).jobs == s.jobs[1..]
    ensures forall x :: Held(FireTimer(s, x), h) <==> Held(s, h) && h != x
  {
    hide Run, Inv, Mid, Held, WakeAll, Wake;
    RunKeeps(texts, steps);
    if s.jobs != [] {
      var popped := s.(jobs := s.jobs[1..]);
      JobStarts(s);
      WakeAllReleases(popped, s.jobs[0], h);
      WakeAllAdds(popped, s.jobs[0]);
      HeldIsLists(s, popped, h);
    }
    forall x ensures Held(FireTimer(s, x), h) <==> Held(s, h) && h != x {
      var popped := s.(timers := s.timers - {x});
      TimerPops(s, x);
      MidLists(popped, []);
      WakeReleases(popped, x, h);
      HeldIsLists(s, popped, h);
    }
  }

  lemma ReadTimers(s: ReadState, request: ReadRequest, block: Option<nat>, at: nat)
    requires Inv(s) && TimersHold(s)
    ensures TimersHold(XRead(s, request, block, at))
  {
    hide Keys, Resolve, ReadAll, Inv;
    var t, n := XRead(s, request, block, at), s.nextReader;
    NewIsNotHeld(s);
    forall h | h in t.limits && Held(t, h) ensures h in t.timers && t.timers[h] == t.limits[h] {
      if h != n {
        HeldUnlessNew(s, Keys(request), h);
      }
    }
  }

  lemma NewIsNotHeld(s: ReadState)
    requires Inv(s)
    ensures s.nextReader !in s.handles
  {
    hide Answered, Keys, DistinctKeys, NoRepeats, OneAnswer, WakeupsDue, StreamsSorted, TextsApart;
  }

  lemma HeldUnlessNew(s: ReadState, keys: set<string>, h: Reader)
    requires h != s.nextReader
    ensures (exists key | key in Enlist(s.waitlists, keys, s.nextReader) :: h in Enlist(s.waitlists, keys, s.nextReader)[key]) ==> Held(s, h)
  {
    var more := Enlist(s.waitlists, keys, s.nextReader);
    if exists key | key in more :: h in more[key] {
      var key :| key in more && h in more[key];
      assert h in List(s.waitlists, key);
    }
  }

  lemma {:induction false} TimersAreReaders(texts: set<string>, steps: seq<Step>)
    requires Run(texts, steps).Some?
    ensures TimersHold(Run(texts, steps).value)
    decreases |steps|
  {
    hide Take, Enabled, Held;
    if steps != [] {
      RunKeeps(texts, steps[..|steps| - 1]);
      hide Inv;
      TimersAreReaders(texts, steps[..|steps| - 1]);
      StepTimers(Run(texts, steps[..|steps| - 1]).value, steps[|steps| - 1]);
    } else {
      assert Start(texts).timers.Keys == {} && Start(texts).limits.Keys == {};
    }
  }

  /** When its timer fires a reader that named a stream is answered, now or already, and waits nowhere. */
  lemma TimeoutAnswers(texts: set<string>, steps: seq<Step>, s: ReadState, h: Reader)
    requires Run(texts, steps) == Some(s) && Enabled(s, Timeout(h))
    ensures h in s.handles
    ensures Answered(FireTimer(s, h).replies, h) == if s.handles[h] == [] then 0 else 1
    ensures forall key :: h !in List(FireTimer(s, h).waitlists, key)
  {
    hide Run, Answered, Keys, DistinctKeys, NoRepeats, WakeupsDue, StreamsSorted, TextsApart, Delist, ReadAll, Held;
    RunKeeps(texts, steps);
    TimersAreReaders(texts, steps);
    FireTimerKeeps(s, h);
    var popped := s.(timers := s.timers - {h});
    JobsFrame(s, popped);
    HeldIffBlocked(popped, h);
    if Held(popped, h) {
      ReplyKeepsLists(popped, h);
    }
    assert !Held(FireTimer(s, h), h) && (Blocked(FireTimer(s, h), h) ==> s.handles[h] == []) by {
      HeldIffBlocked(FireTimer(s, h), h);
    }
    NotHeldAnywhere(FireTimer(s, h), h);
  }

  lemma NotHeldAnywhere(s: ReadState, h: Reader)
    requires !Held(s, h)
    ensures forall key :: h !in List(s.waitlists, key)
  {
  }

  // ----- A spurious wakeup -----

  /** One reader of one key, alone in its list. */
  ghost predicate OneWaits(s: ReadState, key: string, p: StreamId) {
    && s.handles == map[0 := [(key, After(p))]] && s.waitlists == map[key := [0]]
    && s.replies == [] && s.jobs == [] && s.texts == {} && s.streams == map[]
  }

  lemma BlocksAlone(key: string, p: StreamId)
    ensures OneWaits(XRead(Start({}), [(key, After(p))], Some(0), 0), key, p)
  {
    var request, s := [(key, After(p))], Start({});
    assert request[1..] == [] && ReadAll(s.streams, request) == [];
    assert (key, After(p)) in request;
    assert Keys(request) == {key};
    assert Resolve(s.streams, request) == request;
    assert Enlist(map[], {key}, 0) == map[key := [0]] by {
      assert List(map[], key) + [0] == [0];
    }
  }

  lemma AddsBelow(s: ReadState, key: string, low: StreamId, high: StreamId)
    requires OneWaits(s, key, high) && !low.IsNull() && low.Less(high)
    ensures var t := XAdd(s, key, FullId(low), [], 1).0;
            && t.jobs == [[0]] && t.handles == s.handles && t.waitlists == s.waitlists && t.replies == [] && t.texts == {}
            && ReadAll(t.streams, t.handles[0]) == []
  {
    var t := XAdd(s, key, FullId(low), [], 1).0;
    assert t.streams == map[key := [Entry(low, [])]];
    assert [Entry(low, [])][1..] == [] && Newer([Entry(low, [])], high) == [];
    var request := [(key, After(high))];
    assert request[1..] == [] && ReadAll(t.streams, request) == [];
  }

  lemma WakesForNothing(s: ReadState, key: string)
    requires s.jobs == [[0]] && 0 in s.handles && s.waitlists == map[key := [0]] && s.replies == []
    requires ReadAll(s.streams, s.handles[0]) == []
    ensures RunJob(s).replies == [Reply(0, [])]
  {
    hide ReadAll, Delist, Keys;
    var t := s.(jobs := []);
    assert s.jobs[1..] == [] && [0][1..] == [];
    assert key in t.waitlists && Held(t, 0);
    assert WakeAll(Wake(t, 0), []) == Wake(t, 0);
  }

  /** An entry below the position of a blocked reader wakes it all the same, and it is answered with nothing. */
  lemma SpuriousReply(key: string, low: StreamId, high: StreamId)
    requires !low.IsNull() && low.Less(high)
    ensures var steps := [Read([(key, After(high))], Some(0), 0), Add(key, FullId(low), [], 1), Job];
            Run({}, steps).Some? && Run({}, steps).value.replies == [Reply(0, [])]
  {
    hide XRead, XAdd, RunJob, OneWaits, ReadAll, Held;
    var request := [(key, After(high))];
    var steps := [Read(request, Some(0), 0), Add(key, FullId(low), [], 1), Job];
    var s0 := Start({});
    var s1 := XRead(s0, request, Some(0), 0);
    var s2 := XAdd(s1, key, FullId(low), [], 1).0;
    BlocksAlone(key, high);
    AddsBelow(s1, key, low, high);
    WakesForNothing(s2, key) by {
      WaitsAlone(s1, key, high);
    }
    assert steps[..2][..1] == [steps[0]] && steps[..2][1] == steps[1] && [steps[0]][..0] == [];
    assert Run({}, []) == Some(s0);
    assert Run({}, [steps[0]]) == Some(s1);
    assert Run({}, steps[..2]) == Some(s2);
  }

  lemma WaitsAlone(s: ReadState, key: string, p: StreamId)
    requires OneWaits(s, key, p)
    ensures 0 in s.handles && s.waitlists == map[key := [0]]
  {
  }
}
