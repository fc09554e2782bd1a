/**
 The object that holds streams and blocked readers, as the program runs it: lists and jobs updated in
 place, a handle alive while a list holds it. Each method does what the functions of `AllReads` say.
 */
module Storages {
  import opened Prelude
  import opened Decimal
  import opened StreamIds
  import opened Streams
  import opened BlockingReads
  import opened BlockingTheorems
  import opened Waitlists
  import opened AllReads

  lemma ReadAllFrom(streams: map<string, seq<Entry>>, request: ReadRequest, i: nat)
    requires i < |request|
    ensures ReadAll(streams, request[i..]) ==
            (if ReadOne(streams, request[i]) != [] then [(request[i].0, ReadOne(streams, request[i]))] else [])
            + ReadAll(streams, request[i + 1..])
  {
    hide ReadOne;
    assert request[i..][1..] == request[i + 1..];
  }

  lemma ResolveMore(streams: map<string, seq<Entry>>, request: ReadRequest, i: nat)
    requires i < |request|
    ensures Resolve(streams, request[..i + 1]) == Resolve(streams, request[..i]) + [ResolveOne(streams, request[i])]
  {
    hide ResolveOne;
    assert request[..i + 1] == request[..i] + [request[i]];
  }

  class Storage {
    var streams: map<string, seq<Entry>>
    /** The keys that hold strings. */
    var texts: set<string>
    /** The requests of the readers that blocked. */
    var handles: map<Reader, ReadRequest>
    var waitlists: map<string, seq<Reader>>
    /** The posted one-time jobs: weak pointers to the handles each will wake. */
    var jobs: seq<seq<Reader>>
    /** The timeout jobs, with the time each is due. */
    var timers: map<Reader, nat>
    /** The readers that were answered after they blocked: their callbacks were moved away. */
    var spent: set<Reader>
    var nextReader: Reader
    var replies: seq<Reply>
    /** When the timeout of each reader that had one was due. */
    ghost var limits: map<Reader, nat>

    constructor (texts: set<string>)
      ensures Valid() && Model() == Start(texts)
    {
      this.texts := texts;
      streams, handles, waitlists, jobs, timers, spent, nextReader, replies := map[], map[], map[], [], map[], {}, 0, [];
      limits := map[];
      new;
      StartKeepsEach(texts);
    }

    ghost function Model(): ReadState
      reads this
    {
      ReadState(streams, texts, handles, waitlists, jobs, timers, nextReader, replies, limits)
    }

    /** Lists hold what is left of the readers' places, and answers are single. */
    ghost predicate Valid()
      reads this
    {
      InvEach(Model()) && Moved()
    }

    /** A callback was moved away exactly when its reader was answered. */
    ghost predicate Moved()
      reads this
    {
      forall h :: h in spent <==> Spent(Model(), h)
    }

    /** Adds to a stream, which is created only if the entry is accepted, and posts a job for its readers. */
    method XAdd(key: string, asked: InputStreamId, values: seq<(string, string)>, now: uint64) returns (r: Added)
      requires Valid()
      modifies this
      ensures Valid() && (Model(), r) == BlockingReads.XAdd(old(Model()), key, asked, values, now)
    {
      hide InvEach, Choose, Appended, Sorted, Entries, Answered;
      ghost var was := Model();
      AddKeepsEach(was, key, asked, values, now);
      SortedHere(was);
      if key in texts {
        return Refused(WrongKeyType);
      }
      r := AppendTo(key, asked, values, now);
      if r.Refused? {
        return;
      }
      var job := Waiting(key);
      jobs := jobs + [job];
    }

    /** Appends to the stream of a key; a refused entry creates no stream. */
    method AppendTo(key: string, asked: InputStreamId, values: seq<(string, string)>, now: uint64) returns (r: Added)
      requires Sorted(Entries(streams, key))
      modifies this`streams
      ensures r == Choose(Entries(old(streams), key), asked, now)
      ensures streams == if r.Refused? then old(streams) else old(streams)[key := Appended(Entries(old(streams), key), asked, values, now)]
    {
      hide Choose, Appended, Sorted;
      var stored := new StreamValue();
      if key in streams {
        stored.data := streams[key];
      }
      r := stored.Append(asked, values, now);
      if r.Added? {
        streams := streams[key := stored.data];
      }
    }

    /** Weak pointers to the handles that wait on a key now. */
    method Waiting(key: string) returns (job: seq<Reader>)
      ensures job == List(waitlists, key)
    {
      var waiting := if key in waitlists then waitlists[key] else [];
      var i := 0;
      job := [];
      while i < |waiting|
        invariant 0 <= i <= |waiting| && job == waiting[..i]
      {
        job := job + [waiting[i]];
        i := i + 1;
      }
    }

    /** Reads the streams of a request, in order. What a key holds is cast to a stream without a check. */
    method ReadStreams(request: ReadRequest) returns (result: seq<(string, seq<Entry>)>)
      requires Keys(request) !! texts && forall key :: Sorted(Entries(streams, key))
      ensures result == ReadAll(streams, request)
    {
      hide ReadAll, Sorted, Newer, Keys;
      result := [];
      var i := 0;
      assert request[0..] == request;
      while i < |request|
        invariant 0 <= i <= |request|
        invariant result + ReadAll(streams, request[i..]) == ReadAll(streams, request)
      {
        ReadAllFrom(streams, request, i);
        ghost var before, more := result, ReadAll(streams, request[i + 1..]);
        var (key, id) := request[i];
        if key in streams {
          var stored := new StreamValue();
          stored.data := streams[key];
          assert stored.data == Entries(streams, key);
          var entries := stored.XRead(id);
          if entries != [] {
            result := result + [(key, entries)];
          }
        } else {
          assert ReadOne(streams, request[i]) == [] by { AbsentIsEmpty(streams, request[i]); }
        }
        Regroup(before, result[|before|..], more);
        i := i + 1;
      }
      assert request[i..] == [] && result + [] == result;
      assert ReadAll(streams, []) == [] by { NoStreams(streams); }
    }

    /** Answers an XREAD, or blocks it. */
    method XRead(request: ReadRequest, block: Option<nat>, now: nat)
      requires Valid() && Keys(request) !! texts
      modifies this
      ensures Valid() && Model() == ReadEach(old(Model()), request, block, now)
    {
      hide InvEach, ReadAll, EnlistEach, Enlist, Resolve, Keys, Entries, Sorted, Spent;
      ghost var was := Model();
      StepKeepsEach(was, Step.Read(request, block, now));
      ReadSpends(was, request, block, now);
      SortedHere(was);
      var result := ReadStreams(request);
      var h := nextReader;
      nextReader := nextReader + 1;
      if block.Some? && result == [] {
        Setup(h, request, block.value, now);
      } else {
        replies := replies + [BlockingReads.Reply(h, result)];
      }
    }

    /**
     The handle joins the list of each key, once for every mention, `$` becomes the last id, and a positive
     timeout is armed.
     */
    method Setup(h: Reader, request: ReadRequest, timeoutMs: nat, now: nat)
      requires forall key :: Sorted(Entries(streams, key))
      modifies this`handles, this`waitlists, this`timers, this`limits
      ensures handles == old(handles)[h := Resolve(streams, request)]
      ensures waitlists == EnlistEach(old(waitlists), request, h)
      ensures timers == if timeoutMs > 0 then old(timers)[h := now + timeoutMs] else old(timers)
      ensures limits == if timeoutMs > 0 then old(limits)[h := now + timeoutMs] else old(limits)
    {
      hide EnlistEach, Resolve, Sorted;
      var resolved, i := [], 0;
      NothingEnlisted(streams, waitlists, request, h);
      while i < |request|
        invariant 0 <= i <= |request|
        invariant waitlists == EnlistEach(old(waitlists), request[..i], h)
        invariant resolved == Resolve(streams, request[..i])
        invariant handles == old(handles) && timers == old(timers) && limits == old(limits)
      {
        EnlistMore(old(waitlists), request, i, h);
        ResolveMore(streams, request, i);
        var (key, id) := request[i];
        waitlists := waitlists[key := (if key in waitlists then waitlists[key] else []) + [h]];
        if id.NextExpected? {
          if key in streams {
            var stored := new StreamValue();
            stored.data := streams[key];
            assert stored.data == Entries(streams, key);
            var last := stored.LastId();
            id := After(last);
          } else {
            id := After(NULL_ID);
          }
        }
        resolved := resolved + [(key, id)];
        i := i + 1;
      }
      assert request[..|request|] == request;
      handles := handles[h := resolved];
      if timeoutMs > 0 {
        timers, limits := timers[h := now + timeoutMs], limits[h := now + timeoutMs];
      }
    }

    /** The places a handle remembers are erased, one per key, in any order of the keys. */
    method LeaveLists(keys: set<string>, h: Reader)
      requires keys <= waitlists.Keys
      modifies this`waitlists
      ensures waitlists == Leave(old(waitlists), keys, h)
    {
      hide Leave, EraseLast;
      var todo := keys;
      LeaveNone(waitlists, h);
      assert keys - todo == {};
      while todo != {}
        invariant todo <= keys && waitlists == Leave(old(waitlists), keys - todo, h)
        decreases |todo|
      {
        var key :| key in todo;
        LeaveMore(old(waitlists), keys - todo, key, h);
        assert keys - (todo - {key}) == keys - todo + {key};
        waitlists := waitlists[key := EraseLast(waitlists[key], h)];
        todo := todo - {key};
      }
      assert keys - todo == keys;
    }

    /** A blocked reader is answered with whatever there is, and leaves the places it remembers. */
    method Reply(h: Reader)
      requires (forall key :: Sorted(Entries(streams, key))) && h in handles && h !in spent
      requires Keys(handles[h]) !! texts && Keys(handles[h]) <= waitlists.Keys
      modifies this`replies, this`waitlists, this`spent
      ensures Model() == ReplyEach(old(Model()), h) && spent == old(spent) + {h}
    {
      hide ReadAll, Leave, Keys, Entries, Sorted;
      var request := handles[h];
      spent := spent + {h};
      var result := ReadStreams(request);
      replies := replies + [BlockingReads.Reply(h, result)];
      LeaveLists(Keys(request), h);
    }

    /** Locks a weak pointer to a handle and answers its reader; the callback that was moved away throws. */
    method Wake(h: Reader) returns (thrown: bool)
      requires Valid() && CastableEach(Model(), h)
      modifies this`replies, this`waitlists, this`spent
      ensures Valid() && WakeEach(old(Model()), h) == if thrown then None else Some(Model())
      ensures thrown ==> Model() == old(Model())
    {
      hide InvEach, ReplyEach, Sorted, Entries, Keys, Answered;
      ghost var was := Model();
      var alive := exists key | key in waitlists :: h in waitlists[key];
      assert alive == Held(Model(), h);
      if !alive {
        return false;
      }
      AliveHasHandle(was, h);
      if h in spent {
        return true;
      }
      SortedHere(was);
      ReplyKeepsEach(was, h);
      Reply(h);
      return false;
    }

    /** A posted job runs: the handles that are still alive answer, in order, until one throws. */
    method RunJob()
      requires Valid() && jobs != [] && forall h | h in jobs[0] :: CastableEach(Model(), h)
      modifies this
      ensures Valid() && Model() == RunJobEach(old(Model()))
    {
      hide InvEach, WakeEach, CastableEach, Answered;
      ghost var was := Model();
      PopKeepsEach(was, was.(jobs := was.jobs[1..]));
      var job, i := jobs[0], 0;
      jobs := jobs[1..];
      assert job[0..] == job;
      CastableFrame(was, Model(), job);
      while i < |job|
        invariant 0 <= i <= |job| && Valid() && forall h | h in job[i..] :: CastableEach(Model(), h)
        invariant WakeList(Model(), job[i..]) == RunJobEach(was)
      {
        assert job[i..][0] == job[i] && job[i..][1..] == job[i + 1..] && job[i] in job[i..];
        ghost var before := Model();
        var thrown := Wake(job[i]);
        if thrown {
          return;
        }
        CastableLater(before, job[i], job[i + 1..]);
        i := i + 1;
      }
      assert job[i..] == [];
    }

    /** A SET or a restored key: a string replaces what the key held. */
    method Set(key: string)
      requires Valid()
      modifies this
      ensures Valid() && Model() == Overwrite(old(Model()), key)
    {
      hide InvEach, Answered;
      StepKeepsEach(Model(), Store(key));
      streams := streams - {key};
      texts := texts + {key};
    }

    /** A GET whose string has expired erases the key. */
    method EraseExpired(key: string)
      requires Valid() && key in texts
      modifies this
      ensures Valid() && Model() == Expire(old(Model()), key)
    {
      hide InvEach, Answered;
      StepKeepsEach(Model(), Erase(key));
      texts := texts - {key};
    }

    /** The timeout job of a reader runs; if it throws the loop catches that. */
    method FireTimer(h: Reader)
      requires Valid() && h in timers && CastableEach(Model(), h)
      modifies this
      ensures Valid() && Model() == FireTimerEach(old(Model()), h)
    {
      hide InvEach, WakeEach, CastableEach, Answered;
      ghost var was := Model();
      PopKeepsEach(was, was.(timers := was.timers - {h}));
      timers := timers - {h};
      CastableFrame(was, Model(), [h]);
      OneWoken(Model(), h);
      assert h in [h];
      var thrown := Wake(h);
    }
  }

  lemma SortedHere(s: ReadState)
    requires InvEach(s)
    ensures forall key :: Sorted(Entries(s.streams, key))
  {
    hide Sorted, ReadersOld, PlacesExact;
    assert Sorted([]) by { EmptySorted(); }
  }

  /** An XREAD moves no callback of a blocked reader away. */
  lemma ReadSpends(s: ReadState, request: ReadRequest, block: Option<nat>, now: nat)
    requires InvEach(s)
    ensures forall h :: Spent(ReadEach(s, request, block, now), h) == Spent(s, h)
  {
    hide Answered, Keys, PlacesExact, StreamsSorted, ReadAll, Resolve, Enlist, EnlistEach;
    var t := ReadEach(s, request, block, now);
    forall h ensures Spent(t, h) == Spent(s, h) {
      AnsweredMore(s.replies, BlockingReads.Reply(s.nextReader, ReadAll(s.streams, request)), h);
    }
  }

  lemma AliveHasHandle(s: ReadState, h: Reader)
    requires InvEach(s) && Held(s, h)
    ensures h in s.handles && Keys(s.handles[h]) <= s.waitlists.Keys
  {
    hide Answered, Keys, Spent, Times, StreamsSorted, PlacesExact;
    var key :| key in s.waitlists && h in s.waitlists[key];
    assert h in List(s.waitlists, key);
    ListedIff(s, h, key);
  }

  lemma CastableFrame(s: ReadState, t: ReadState, job: seq<Reader>)
    requires t == s.(jobs := t.jobs, timers := t.timers)
    ensures forall h | h in job :: CastableEach(t, h) == CastableEach(s, h)
  {
    hide Keys, Answered;
    forall h | h in job ensures CastableEach(t, h) == CastableEach(s, h) {
      HeldIsLists(s, t, h);
    }
  }

  /** Waking a reader makes no other harder to answer. */
  lemma CastableLater(s: ReadState, h: Reader, rest: seq<Reader>)
    requires InvEach(s) && WakeEach(s, h).Some? && forall x | x in rest :: CastableEach(s, x)
    ensures forall x | x in rest :: CastableEach(WakeEach(s, h).value, x)
  {
    hide InvEach, Keys, Answered, ReadAll, Held, Leave;
    var t := WakeEach(s, h).value;
    forall x | x in rest ensures CastableEach(t, x) {
      if Held(s, h) && h in s.handles {
        ReplyKeepsEach(s, h);
        if Held(t, x) {
          StillListed(s.waitlists, Keys(s.handles[h]), h, x);
          HeldIfListed(s, x);
          HeldIfListed(t, x);
        }
      }
    }
  }

  lemma StillListed(waitlists: map<string, seq<Reader>>, keys: set<string>, h: Reader, x: Reader)
    ensures forall key :: x in List(Leave(waitlists, keys, h), key) ==> x in List(waitlists, key)
  {
    hide EraseLast;
    forall key ensures x in List(Leave(waitlists, keys, h), key) ==> x in List(waitlists, key) {
      if key in waitlists {
        EraseIsPart(waitlists[key], h);
      }
    }
  }

  lemma OneWoken(s: ReadState, h: Reader)
    ensures WakeList(s, [h]) == match WakeEach(s, h) case Some(t) => t case None => s
  {
    hide WakeEach;
    assert [h][1..] == [];
  }

  lemma Regroup(a: seq<(string, seq<Entry>)>, b: seq<(string, seq<Entry>)>, c: seq<(string, seq<Entry>)>)
    ensures a + b + c == a + (b + c)
  {
  }

  lemma EmptySorted()
    ensures Sorted([])
  {
  }

  lemma AbsentIsEmpty(streams: map<string, seq<Entry>>, p: (string, ReadStreamId))
    requires p.0 !in streams
    ensures ReadOne(streams, p) == []
  {
  }

  lemma NoStreams(streams: map<string, seq<Entry>>)
    ensures ReadAll(streams, []) == []
  {
  }

  lemma NothingEnlisted(streams: map<string, seq<Entry>>, waitlists: map<string, seq<Reader>>, request: ReadRequest, h: Reader)
    ensures EnlistEach(waitlists, request[..0], h) == waitlists && Resolve(streams, request[..0]) == []
  {
    assert request[..0] == [];
  }

  lemma EnlistMore(waitlists: map<string, seq<Reader>>, request: ReadRequest, i: nat, h: Reader)
    requires i < |request|
    ensures var before, key := EnlistEach(waitlists, request[..i], h), request[i].0;
            EnlistEach(waitlists, request[..i + 1], h) == before[key := List(before, key) + [h]]
  {
    assert request[..i + 1][..i] == request[..i];
  }
}
