/**
 Joining and leaving wait lists, for requests that may name a stream twice. A handle joins a list once for
 every mention of its key, but remembers one place per key, the last, and leaves only that.
 */
module Waitlists {
  import opened StreamIds
  import opened BlockingReads

  /** The handle joins the list of each key in turn. */
  function EnlistEach(waitlists: map<string, seq<Reader>>, request: ReadRequest, h: Reader): map<string, seq<Reader>>
    decreases |request|
  {
    if request == [] then waitlists
    else
      var before, key := EnlistEach(waitlists, request[..|request| - 1], h), request[|request| - 1].0;
      before[key := List(before, key) + [h]]
  }

  /** A list without the place a handle took last. */
  function EraseLast(list: seq<Reader>, h: Reader): seq<Reader> {
    if list == [] then []
    else
      var init, last := list[..|list| - 1], list[|list| - 1];
      if last == h then init else EraseLast(init, h) + [last]
  }

  function Leave(waitlists: map<string, seq<Reader>>, keys: set<string>, h: Reader): map<string, seq<Reader>> {
    map k | k in waitlists :: if k in keys then EraseLast(waitlists[k], h) else waitlists[k]
  }

  /** How many places a handle has in a list. */
  function Places(list: seq<Reader>, h: Reader): nat {
    if list == [] then 0 else Places(list[..|list| - 1], h) + if list[|list| - 1] == h then 1 else 0
  }

  /** How often a request names a key. */
  function Times(request: ReadRequest, key: string): nat
    decreases |request|
  {
    if request == [] then 0 else Times(request[..|request| - 1], key) + if request[|request| - 1].0 == key then 1 else 0
  }

  lemma {:induction false} PlacesIn(list: seq<Reader>, h: Reader)
    ensures h in list <==> Places(list, h) > 0
  {
    if list != [] {
      PlacesIn(list[..|list| - 1], h);
      assert list == list[..|list| - 1] + [list[|list| - 1]];
    }
  }

  lemma PlacesMore(list: seq<Reader>, x: Reader, h: Reader)
    ensures Places(list + [x], h) == Places(list, h) + if x == h then 1 else 0
  {
    assert (list + [x])[..|list|] == list;
  }

  /** Erasing takes one place, if there is one. */
  lemma {:induction false} EraseTakesOne(list: seq<Reader>, h: Reader)
    ensures Places(EraseLast(list, h), h) == if Places(list, h) > 0 then Places(list, h) - 1 else 0
  {
    if list != [] && list[|list| - 1] != h {
      EraseTakesOne(list[..|list| - 1], h);
      PlacesMore(EraseLast(list[..|list| - 1], h), list[|list| - 1], h);
    }
  }

  lemma {:induction false} EraseIsPart(list: seq<Reader>, x: Reader)
    ensures forall y | y in EraseLast(list, x) :: y in list
  {
    if list != [] {
      EraseIsPart(list[..|list| - 1], x);
    }
  }

  /** A handle has as many places in a list as the request names the key, more than it had. */
  lemma {:induction false} EnlistedPlaces(waitlists: map<string, seq<Reader>>, request: ReadRequest, h: Reader, x: Reader, key: string)
    ensures Places(List(EnlistEach(waitlists, request, h), key), x) ==
            Places(List(waitlists, key), x) + if x == h then Times(request, key) else 0
    decreases |request|
  {
    if request != [] {
      var init, last := request[..|request| - 1], request[|request| - 1].0;
      EnlistedPlaces(waitlists, init, h, x, key);
      PlacesMore(List(EnlistEach(waitlists, init, h), last), h, x);
    }
  }

  lemma {:induction false} TimesIn(request: ReadRequest, key: string)
    ensures key in Keys(request) <==> Times(request, key) > 0
    decreases |request|
  {
    if request != [] {
      var init := request[..|request| - 1];
      TimesIn(init, key);
      assert forall p :: p in request <==> p in init || p == request[|request| - 1];
    }
  }

  /** The keys of a request differ exactly if it names none twice. */
  lemma {:induction false} DistinctIff(request: ReadRequest)
    ensures DistinctKeys(request) <==> forall key | key in Keys(request) :: Times(request, key) == 1
    decreases |request|
  {
    hide Keys, Times, DistinctKeys;
    if request == [] {
      NoKeys();
    } else {
      var init, last := request[..|request| - 1], request[|request| - 1].0;
      DistinctIff(init);
      LastKey(request);
      forall key {:trigger Times(request, key)} {:trigger Times(init, key)}
        ensures Times(request, key) == Times(init, key) + if last == key then 1 else 0
      {
        LastTimes(request, key);
      }
      TimesIn(init, last);
    }
  }

  lemma NoKeys()
    ensures Keys([]) == {} && DistinctKeys([])
  {
  }

  lemma LastTimes(request: ReadRequest, key: string)
    requires request != []
    ensures Times(request, key) == Times(request[..|request| - 1], key) + if request[|request| - 1].0 == key then 1 else 0
  {
  }

  lemma LastKey(request: ReadRequest)
    requires request != []
    ensures var init, last := request[..|request| - 1], request[|request| - 1].0;
            && Keys(request) == Keys(init) + {last} && (DistinctKeys(request) <==> DistinctKeys(init) && last !in Keys(init))
  {
    var init, last := request[..|request| - 1], request[|request| - 1];
    assert forall p :: p in request <==> p in init || p == last;
    assert forall i | 0 <= i < |init| :: init[i] == request[i] && init[i] in init;
  }

  /**
   A reader that has a place for every mention of a key, and is answered, leaves all lists exactly if its
   request names no stream twice.
   */
  lemma LeavesIff(waitlists: map<string, seq<Reader>>, request: ReadRequest, h: Reader)
    requires forall key :: Places(List(waitlists, key), h) == Times(request, key)
    ensures (forall key :: h !in List(Leave(waitlists, Keys(request), h), key)) <==> DistinctKeys(request)
  {
    hide Keys, Times, Places, EraseLast, DistinctKeys;
    var after := Leave(waitlists, Keys(request), h);
    DistinctIff(request);
    forall key ensures h in List(after, key) <==> Times(request, key) > 1 {
      TimesIn(request, key);
      PlacesIn(List(after, key), h);
      EraseTakesOne(List(waitlists, key), h);
      assert List(after, key) == if key in Keys(request) then EraseLast(List(waitlists, key), h) else List(waitlists, key) by {
        assert EraseLast([], h) == [] by { NothingToErase(h); }
      }
    }
    forall key | key in Keys(request) ensures Times(request, key) > 0 {
      TimesIn(request, key);
    }
    forall key | Times(request, key) > 1 ensures key in Keys(request) {
      TimesIn(request, key);
    }
  }

  lemma NothingToErase(h: Reader)
    ensures EraseLast([], h) == []
  {
  }

  // ----- With different keys -----

  /** Joining each list in turn is joining the lists of the keys. */
  lemma {:induction false} EnlistEachIs(waitlists: map<string, seq<Reader>>, request: ReadRequest, h: Reader)
    requires DistinctKeys(request)
    ensures EnlistEach(waitlists, request, h) == Enlist(waitlists, Keys(request), h)
    decreases |request|
  {
    hide Keys, DistinctKeys, Enlist;
    if request == [] {
      NoKeys();
      EnlistNone(waitlists, h);
    } else {
      var init, last := request[..|request| - 1], request[|request| - 1].0;
      LastKey(request);
      EnlistEachIs(waitlists, init, h);
      EnlistOne(waitlists, Keys(init), last, h);
    }
  }

  lemma EnlistNone(waitlists: map<string, seq<Reader>>, h: Reader)
    ensures Enlist(waitlists, {}, h) == waitlists
  {
    assert forall k | k in waitlists :: List(waitlists, k) + [] == waitlists[k];
  }

  lemma EnlistOne(waitlists: map<string, seq<Reader>>, keys: set<string>, key: string, h: Reader)
    requires key !in keys
    ensures var before := Enlist(waitlists, keys, h);
            Enlist(waitlists, keys + {key}, h) == before[key := List(before, key) + [h]]
  {
    var before, after := Enlist(waitlists, keys, h), Enlist(waitlists, keys + {key}, h);
    assert List(waitlists, key) + [] == List(waitlists, key);
    assert List(before, key) == List(waitlists, key);
    assert after.Keys == before.Keys + {key};
  }

  /** A handle with one place at most leaves it. */
  lemma {:induction false} EraseIsWithout(list: seq<Reader>, h: Reader)
    requires NoRepeats(list)
    ensures EraseLast(list, h) == Without(list, h)
    decreases |list|
  {
    hide NoRepeats;
    if list != [] {
      var init, last := list[..|list| - 1], list[|list| - 1];
      assert list == init + [last];
      WithoutAppend(init, [last], h);
      assert [last][1..] == [];
      InitRepeats(list);
      EraseIsWithout(init, h);
      if last == h {
        WithoutNone(init, h);
      }
    }
  }

  lemma InitRepeats(list: seq<Reader>)
    requires list != [] && NoRepeats(list)
    ensures NoRepeats(list[..|list| - 1]) && list[|list| - 1] !in list[..|list| - 1]
  {
  }

  lemma {:induction false} WithoutAppend(a: seq<Reader>, b: seq<Reader>, h: Reader)
    ensures Without(a + b, h) == Without(a, h) + Without(b, h)
  {
    if a == [] {
      assert a + b == b;
    } else {
      assert (a + b)[1..] == a[1..] + b;
      WithoutAppend(a[1..], b, h);
    }
  }

  lemma {:induction false} WithoutNone(list: seq<Reader>, h: Reader)
    requires h !in list
    ensures Without(list, h) == list
  {
    if list != [] {
      WithoutNone(list[1..], h);
      assert list == [list[0]] + list[1..];
    }
  }

  lemma LeaveIsDelist(waitlists: map<string, seq<Reader>>, keys: set<string>, h: Reader)
    requires forall k | k in waitlists :: NoRepeats(waitlists[k])
    ensures Leave(waitlists, keys, h) == Delist(waitlists, keys, h)
  {
    hide NoRepeats, EraseLast, Without;
    forall k | k in waitlists ensures EraseLast(waitlists[k], h) == Without(waitlists[k], h) {
      EraseIsWithout(waitlists[k], h);
    }
  }

  lemma LeaveNone(waitlists: map<string, seq<Reader>>, h: Reader)
    ensures Leave(waitlists, {}, h) == waitlists
  {
  }

  lemma LeaveMore(waitlists: map<string, seq<Reader>>, keys: set<string>, key: string, h: Reader)
    requires key !in keys && key in waitlists
    ensures var before := Leave(waitlists, keys, h);
            key in before && Leave(waitlists, keys + {key}, h) == before[key := EraseLast(before[key], h)]
  {
    hide EraseLast;
  }
}
