/** Stream values: appending with wildcard ids, and reading ranges of the ordered entries. */
module Streams {
  import opened Decimal
  import opened StreamIds

  datatype Entry = Entry(id: StreamId, values: seq<(string, string)>)

  datatype StreamError = MustBeNotZeroId | MustBeMoreThanTop | WrongKeyType

  /** The outcome of an XADD. */
  datatype Added = Added(id: StreamId) | Refused(error: StreamError)

  /** Entries are kept in the order of their ids, each id once. */
  predicate Sorted(data: seq<Entry>) {
    forall i, j | 0 <= i < j < |data| :: data[i].id.Less(data[j].id)
  }

  /** An id that may be given to a new entry. */
  predicate Above(data: seq<Entry>, id: StreamId) {
    forall i | 0 <= i < |data| :: data[i].id.Less(id)
  }

  /** `++last_id.id` on a 64-bit counter. */
  function Bump(id: StreamId): StreamId {
    StreamId(id.ms, if id.id == UINT64_LIMIT - 1 then 0 else id.id + 1)
  }

  /** The id an XADD gives, or why it is refused; `now` is the clock in milliseconds. */
  function Choose(data: seq<Entry>, asked: InputStreamId, now: uint64): Added {
    match asked
    case FullId(id) =>
      if id.IsNull() then Refused(MustBeNotZeroId)
      else if data != [] && id.AtMost(data[|data| - 1].id) then Refused(MustBeMoreThanTop)
      else Added(id)
    case IdWildcard(ms) =>
      if data == [] then Added(StreamId(ms, if ms == 0 then 1 else 0))
      else
        var top := data[|data| - 1].id;
        if ms < top.ms then Refused(MustBeMoreThanTop)
        else if ms == top.ms then Added(Bump(top))
        else Added(StreamId(ms, 0))
    case GeneralWildcard =>
      if data != [] && now <= data[|data| - 1].id.ms then Added(Bump(data[|data| - 1].id))
      else Added(StreamId(now, 0))
  }

  /** The ordered map keeps the entry it has if the id is taken, and otherwise inserts in order. */
  function Emplace(data: seq<Entry>, e: Entry): seq<Entry> {
    if data == [] then [e]
    else if data[0].id == e.id then data
    else if e.id.Less(data[0].id) then [e] + data
    else [data[0]] + Emplace(data[1..], e)
  }

  /** The entries after an XADD. */
  function Appended(data: seq<Entry>, asked: InputStreamId, values: seq<(string, string)>, now: uint64): seq<Entry> {
    match Choose(data, asked, now)
    case Added(id) => Emplace(data, Entry(id, values))
    case Refused(_) => data
  }

  /** The one case in which the sequence number of the last id wraps around. */
  predicate Overflows(data: seq<Entry>, asked: InputStreamId, now: uint64) {
    data != [] && var top := data[|data| - 1].id;
    top.id == UINT64_LIMIT - 1 &&
    match asked
    case FullId(_) => false
    case IdWildcard(ms) => ms == top.ms
    case GeneralWildcard => now <= top.ms
  }

  // ----- Appending -----

  lemma {:induction false} EmplaceAbove(data: seq<Entry>, e: Entry)
    requires Above(data, e.id)
    ensures Emplace(data, e) == data + [e]
  {
    if data != [] {
      assert data[0].id.Less(e.id);
      assert forall i | 0 <= i < |data[1..]| :: data[1..][i] == data[i + 1];
      EmplaceAbove(data[1..], e);
    }
  }

  lemma {:induction false} EmplaceKeeps(data: seq<Entry>, e: Entry)
    requires Sorted(data)
    ensures Sorted(Emplace(data, e))
    ensures forall x | x in Emplace(data, e) :: x in data || x == e
    ensures forall x | x in data :: x in Emplace(data, e)
    ensures |Emplace(data, e)| <= |data| + 1
  {
    if data != [] && data[0].id != e.id && !e.id.Less(data[0].id) {
      var rest, more := data[1..], Emplace(data[1..], e);
      assert forall i | 0 <= i < |rest| :: rest[i] == data[i + 1];
      EmplaceKeeps(rest, e);
      forall j | 0 <= j < |more| ensures data[0].id.Less(more[j].id) {
        assert more[j] in more;
      }
      forall x | x in data ensures x in [data[0]] + more {
        assert x == data[0] || x in rest;
      }
    } else {
      if data != [] && e.id.Less(data[0].id) {
        forall j | 0 <= j < |data| ensures e.id.Less(data[j].id) {
          assert j > 0 ==> data[0].id.Less(data[j].id);
        }
      }
    }
  }

  lemma TopIsMost(data: seq<Entry>, id: StreamId)
    requires Sorted(data) && data != []
    ensures Above(data, id) <==> data[|data| - 1].id.Less(id)
  {
  }

  /** Only a wrapped sequence number gives an id that is not above all the others. */
  lemma ChooseAboveIff(data: seq<Entry>, asked: InputStreamId, now: uint64)
    requires Sorted(data) && Choose(data, asked, now).Added?
    ensures Above(data, Choose(data, asked, now).id) <==> !Overflows(data, asked, now)
  {
    if data != [] {
      TopIsMost(data, Choose(data, asked, now).id);
    }
  }

  /** An XADD appends at the end exactly if it is accepted and does not overflow; it never changes an entry. */
  lemma AppendsAtEndIff(data: seq<Entry>, asked: InputStreamId, values: seq<(string, string)>, now: uint64)
    requires Sorted(data)
    ensures var after, r := Appended(data, asked, values, now), Choose(data, asked, now);
            && Sorted(after)
            && (forall e | e in data :: e in after)
            && (r.Refused? ==> after == data)
            && ((r.Added? && after == data + [Entry(r.id, values)]) <==> (r.Added? && !Overflows(data, asked, now)))
  {
    var r := Choose(data, asked, now);
    if r.Added? {
      EmplaceKeeps(data, Entry(r.id, values));
      ChooseAboveIff(data, asked, now);
      if Above(data, r.id) {
        EmplaceAbove(data, Entry(r.id, values));
      } else {
        var i :| 0 <= i < |data| && !data[i].id.Less(r.id);
        var longer := data + [Entry(r.id, values)];
        assert longer[i] == data[i] && longer[|data|] == Entry(r.id, values);
        assert !Sorted(longer);
      }
    }
  }

  predicate NoZero(data: seq<Entry>) {
    forall i | 0 <= i < |data| :: !data[i].id.IsNull()
  }

  /** When an XADD gives the id 0-0: on an empty stream with the clock at zero, or wrapping at time zero. */
  lemma ZeroIdIff(data: seq<Entry>, asked: InputStreamId, now: uint64)
    requires Sorted(data) && Choose(data, asked, now).Added?
    ensures Choose(data, asked, now).id.IsNull() <==>
            (data == [] && asked.GeneralWildcard? && now == 0) ||
            (Overflows(data, asked, now) && data[|data| - 1].id.ms == 0)
  {
  }

  /** Why an XADD is refused: the id 0-0 always, and any other id or wildcard exactly if it cannot be above the top. */
  lemma RefusedIff(data: seq<Entry>, asked: InputStreamId, now: uint64)
    ensures var r := Choose(data, asked, now);
            && (r == Refused(MustBeNotZeroId) <==> asked == FullId(StreamId(0, 0)))
            && (r == Refused(MustBeMoreThanTop) <==>
                  && data != [] && asked != FullId(StreamId(0, 0))
                  && var top := data[|data| - 1].id;
                     match asked
                     case FullId(id) => id.ms < top.ms || (id.ms == top.ms && id.id <= top.id)
                     case IdWildcard(ms) => ms < top.ms
                     case GeneralWildcard => false)
            && r != Refused(WrongKeyType)
  {
  }

  /** An accepted entry is there afterwards unless its id was taken; then the one that was there stays. Nothing else comes or goes. */
  lemma {:induction false} EmplaceHolds(data: seq<Entry>, e: Entry)
    requires Sorted(data)
    ensures forall x :: x in Emplace(data, e) <==> x in data || (x == e && forall y | y in data :: y.id != e.id)
  {
    if data != [] {
      var rest := data[1..];
      assert forall i | 0 <= i < |rest| :: rest[i] == data[i + 1];
      assert forall y :: y in data <==> y == data[0] || y in rest;
      if data[0].id != e.id && !e.id.Less(data[0].id) {
        EmplaceHolds(rest, e);
      } else if e.id.Less(data[0].id) {
        forall y | y in data ensures y.id != e.id {
          var i :| 0 <= i < |data| && data[i] == y;
        }
      }
    }
  }

  /** What a requested id allows a new entry to be. */
  predicate Allowed(data: seq<Entry>, asked: InputStreamId, now: uint64, id: StreamId) {
    Above(data, id) &&
    match asked
    case FullId(full) => id == full && !id.IsNull()
    case IdWildcard(ms) => id.ms == ms && !id.IsNull()
    case GeneralWildcard => StreamId(now, 0).AtMost(id)
  }

  /**
   An XADD that does not overflow takes the least id its request allows, and is refused only if there is
   none: `ms-*` the least with that time, `*` the least not before the clock, always above the top.
   */
  lemma TakesLeastAllowed(data: seq<Entry>, asked: InputStreamId, now: uint64)
    requires Sorted(data) && !Overflows(data, asked, now)
    ensures var r := Choose(data, asked, now);
            && (r.Added? ==> Allowed(data, asked, now, r.id) && forall id | Allowed(data, asked, now, id) :: r.id.AtMost(id))
            && (r.Refused? ==> forall id :: !Allowed(data, asked, now, id))
  {
    var r := Choose(data, asked, now);
    if r.Added? {
      ChooseAboveIff(data, asked, now);
    }
    forall id | Allowed(data, asked, now, id) ensures r.Added? && r.id.AtMost(id) {
      if data != [] {
        TopIsMost(data, id);
      }
    }
  }

  /** Where the last id has run out, a wildcard is not refused: it takes sequence number 0 and lands below the top. */
  lemma OverflowLandsBelow(data: seq<Entry>, asked: InputStreamId, values: seq<(string, string)>, now: uint64)
    requires Sorted(data) && Overflows(data, asked, now)
    ensures var r, top := Choose(data, asked, now), data[|data| - 1].id;
            && r == Added(StreamId(top.ms, 0)) && r.id.Less(top)
            && Appended(data, asked, values, now) != []
            && Appended(data, asked, values, now)[|Appended(data, asked, values, now)| - 1] == data[|data| - 1]
  {
    EmplaceBelow(data, Entry(StreamId(data[|data| - 1].id.ms, 0), values));
  }

  lemma {:induction false} EmplaceBelow(data: seq<Entry>, e: Entry)
    requires data != [] && e.id.Less(data[|data| - 1].id)
    ensures Emplace(data, e) != [] && Emplace(data, e)[|Emplace(data, e)| - 1] == data[|data| - 1]
  {
    if |data| > 1 && data[0].id != e.id && !e.id.Less(data[0].id) {
      EmplaceBelow(data[1..], e);
    }
  }

  // ----- Any sequence of XADDs -----

  datatype Request = Request(asked: InputStreamId, values: seq<(string, string)>, now: uint64)

  function AppendAll(data: seq<Entry>, requests: seq<Request>): seq<Entry>
    decreases |requests|
  {
    if requests == [] then data
    else
      var r := requests[|requests| - 1];
      Appended(AppendAll(data, requests[..|requests| - 1]), r.asked, r.values, r.now)
  }

  /** No request of the sequence wraps, and the clock is positive, though it may go back. */
  predicate Fits(data: seq<Entry>, requests: seq<Request>)
    decreases |requests|
  {
    requests == [] ||
    (var init, r := requests[..|requests| - 1], requests[|requests| - 1];
     Fits(data, init) && r.now > 0 && !Overflows(AppendAll(data, init), r.asked, r.now))
  }

  /** Over any sequence of XADDs the entries stay strictly increasing, never 0-0, and only grow at the end. */
  lemma {:induction false} StaysSorted(data: seq<Entry>, requests: seq<Request>)
    requires Sorted(data) && NoZero(data)
    ensures Sorted(AppendAll(data, requests))
    ensures Fits(data, requests) ==> NoZero(AppendAll(data, requests)) && data <= AppendAll(data, requests)
    decreases |requests|
  {
    if requests != [] {
      var init, r := requests[..|requests| - 1], requests[|requests| - 1];
      StaysSorted(data, init);
      var before := AppendAll(data, init);
      AppendsAtEndIff(before, r.asked, r.values, r.now);
      if Choose(before, r.asked, r.now).Added? {
        ZeroIdIff(before, r.asked, r.now);
      }
    }
  }

  // ----- Reading -----

  /** Where the first entry not below `id` is. */
  function LowerBound(data: seq<Entry>, id: StreamId): (k: nat)
    ensures k <= |data|
  {
    if data == [] || !data[0].id.Less(id) then 0 else 1 + LowerBound(data[1..], id)
  }

  /** Where the first entry above `id` is. */
  function UpperBound(data: seq<Entry>, id: StreamId): (k: nat)
    ensures k <= |data|
  {
    if data == [] || id.Less(data[0].id) then 0 else 1 + UpperBound(data[1..], id)
  }

  lemma {:induction false} LowerBoundIs(data: seq<Entry>, id: StreamId)
    requires Sorted(data)
    ensures forall i | 0 <= i < |data| :: data[i].id.Less(id) <==> i < LowerBound(data, id)
  {
    if data != [] {
      var rest := data[1..];
      assert forall i | 0 <= i < |rest| :: rest[i] == data[i + 1];
      LowerBoundIs(rest, id);
      forall i | 0 <= i < |data| ensures data[i].id.Less(id) <==> i < LowerBound(data, id) {
        if i > 0 {
          assert data[i] == rest[i - 1] && data[0].id.Less(data[i].id);
        }
      }
    }
  }

  lemma {:induction false} UpperBoundIs(data: seq<Entry>, id: StreamId)
    requires Sorted(data)
    ensures forall i | 0 <= i < |data| :: data[i].id.AtMost(id) <==> i < UpperBound(data, id)
  {
    if data != [] {
      var rest := data[1..];
      assert forall i | 0 <= i < |rest| :: rest[i] == data[i + 1];
      UpperBoundIs(rest, id);
      forall i | 0 <= i < |data| ensures data[i].id.AtMost(id) <==> i < UpperBound(data, id) {
        if i > 0 {
          assert data[i] == rest[i - 1] && data[0].id.Less(data[i].id);
        }
      }
    }
  }

  /** The two bounds differ by the entry that has the id, if there is one. */
  lemma BoundsMeet(data: seq<Entry>, id: StreamId)
    requires Sorted(data)
    ensures var k := LowerBound(data, id);
            UpperBound(data, id) == if k < |data| && data[k].id == id then k + 1 else k
  {
    LowerBoundIs(data, id);
    UpperBoundIs(data, id);
    var k, u := LowerBound(data, id), UpperBound(data, id);
    hide LowerBound, UpperBound;
    if u > k {
      assert data[k].id.AtMost(id) && !data[k].id.Less(id);
      assert u > k + 1 ==> data[k + 1].id.AtMost(id);
    } else if k < |data| {
      assert !data[k].id.AtMost(id);
    }
  }

  /** A pair of positions; it is a range only if the first is not behind the second. */
  datatype Range = Range(begin: nat, end: nat)

  /** The program leaves the other bound kinds at 0-0: `+` on the left, `-` on the right. */
  function LeftBegin(data: seq<Entry>, left: BoundStreamId): nat {
    match left
    case LeftUnbound => 0
    case RightUnbound => LowerBound(data, NULL_ID)
    case Bound(id) => LowerBound(data, id)
  }

  function RightEnd(data: seq<Entry>, right: BoundStreamId): nat {
    match right
    case RightUnbound => |data|
    case LeftUnbound => UpperBound(data, NULL_ID)
    case Bound(id) => UpperBound(data, id)
  }

  /** The entries that lie within bounds, in order. */
  function Within(data: seq<Entry>, left: BoundStreamId, right: BoundStreamId): seq<Entry> {
    if data == [] then []
    else (if InBounds(data[0].id, left, right) then [data[0]] else []) + Within(data[1..], left, right)
  }

  predicate NotBefore(id: StreamId, left: BoundStreamId) {
    left.LeftUnbound? || (left.Bound? ==> left.id.AtMost(id))
  }

  predicate NotAfter(id: StreamId, right: BoundStreamId) {
    right.RightUnbound? || id.AtMost(if right.Bound? then right.id else NULL_ID)
  }

  predicate InBounds(id: StreamId, left: BoundStreamId, right: BoundStreamId) {
    NotBefore(id, left) && NotAfter(id, right)
  }

  /** The entries above an id, in order. */
  function Newer(data: seq<Entry>, id: StreamId): seq<Entry> {
    if data == [] then [] else (if id.Less(data[0].id) then [data[0]] else []) + Newer(data[1..], id)
  }

  lemma LeftBeginIs(data: seq<Entry>, left: BoundStreamId)
    requires Sorted(data)
    ensures LeftBegin(data, left) <= |data|
    ensures forall i | 0 <= i < |data| :: NotBefore(data[i].id, left) <==> LeftBegin(data, left) <= i
  {
    LowerBoundIs(data, if left.Bound? then left.id else NULL_ID);
  }

  lemma RightEndIs(data: seq<Entry>, right: BoundStreamId)
    requires Sorted(data)
    ensures RightEnd(data, right) <= |data|
    ensures forall i | 0 <= i < |data| :: NotAfter(data[i].id, right) <==> i < RightEnd(data, right)
  {
    UpperBoundIs(data, if right.Bound? then right.id else NULL_ID);
  }

  /** A slice that holds exactly the entries in bounds is what filtering gives. */
  lemma {:induction false} WithinSlice(data: seq<Entry>, left: BoundStreamId, right: BoundStreamId, b: nat, e: nat)
    requires b <= e <= |data|
    requires forall i | 0 <= i < |data| :: InBounds(data[i].id, left, right) <==> b <= i < e
    ensures Within(data, left, right) == data[b..e]
    decreases |data|
  {
    hide InBounds, Sorted;
    if data != [] {
      var rest := data[1..];
      assert forall i | 0 <= i < |rest| :: rest[i] == data[i + 1];
      if e == 0 {
        WithinSlice(rest, left, right, 0, 0);
        assert rest[0..0] == data[b..e] == [];
      } else if b == 0 {
        assert InBounds(data[0].id, left, right);
        WithinSlice(rest, left, right, 0, e - 1);
        FirstOfSlice(data, e);
      } else {
        assert !InBounds(data[0].id, left, right);
        WithinSlice(rest, left, right, b - 1, e - 1);
        assert data[b..e] == rest[b - 1..e - 1];
      }
    }
  }

  lemma FirstOfSlice(data: seq<Entry>, e: nat)
    requires 0 < e <= |data|
    ensures data[0..e] == [data[0]] + data[1..][0..e - 1]
  {
  }

  lemma {:induction false} NewerSlice(data: seq<Entry>, id: StreamId, b: nat)
    requires b <= |data| && forall i | 0 <= i < |data| :: id.Less(data[i].id) <==> b <= i
    ensures Newer(data, id) == data[b..]
    decreases |data|
  {
    if data != [] {
      var rest := data[1..];
      assert forall i | 0 <= i < |rest| :: rest[i] == data[i + 1];
      NewerSlice(rest, id, if b == 0 then 0 else b - 1);
    }
  }

  lemma NewerIs(data: seq<Entry>, id: StreamId)
    requires Sorted(data)
    ensures Newer(data, id) == data[UpperBound(data, id)..]
  {
    UpperBoundIs(data, id);
    NewerSlice(data, id, UpperBound(data, id));
  }

  /** An entry that is behind the right bound and before the left one. */
  predicate Between(id: StreamId, left: BoundStreamId, right: BoundStreamId) {
    !NotBefore(id, left) && !NotAfter(id, right)
  }

  /**
   XRANGE gives a pair of positions that is a range exactly if no entry lies strictly between the right
   bound and the left one; then it holds the entries in bounds, all of them and in order.
   */
  lemma RangeIff(data: seq<Entry>, left: BoundStreamId, right: BoundStreamId)
    requires Sorted(data)
    ensures var b, e := LeftBegin(data, left), RightEnd(data, right);
            && (b <= e <==> forall i | 0 <= i < |data| :: !Between(data[i].id, left, right))
            && (b <= e ==> e <= |data| && data[b..e] == Within(data, left, right))
  {
    LeftBeginIs(data, left);
    RightEndIs(data, right);
    var b, e := LeftBegin(data, left), RightEnd(data, right);
    if b <= e {
      WithinSlice(data, left, right, b, e);
    } else {
      assert Between(data[e].id, left, right);
    }
  }

  /** With the bounds in order, XRANGE always gives a range. */
  lemma OrderedBounds(data: seq<Entry>, left: StreamId, right: StreamId)
    requires Sorted(data) && left.AtMost(right)
    ensures LeftBegin(data, Bound(left)) <= RightEnd(data, Bound(right))
  {
    RangeIff(data, Bound(left), Bound(right));
  }

  /** XRANGE up to an id and XREAD after it are the whole stream. */
  lemma RangeThenRead(data: seq<Entry>, id: StreamId)
    requires Sorted(data)
    ensures Within(data, LeftUnbound, Bound(id)) + Newer(data, id) == data
  {
    RangeIff(data, LeftUnbound, Bound(id));
    NewerIs(data, id);
  }

  /** Reads of a growing stream, each after the last entry seen so far. */
  function Pages(snapshots: seq<seq<Entry>>, seen: StreamId): seq<Entry>
    decreases |snapshots|
  {
    if snapshots == [] then []
    else
      var page := Newer(snapshots[0], seen);
      page + Pages(snapshots[1..], if page == [] then seen else page[|page| - 1].id)
  }

  /** The stream only grows at its end from one read to the next. */
  predicate Growing(snapshots: seq<seq<Entry>>) {
    && (forall i | 0 <= i < |snapshots| :: Sorted(snapshots[i]))
    && (forall i | 0 < i < |snapshots| :: snapshots[i - 1] <= snapshots[i])
  }

  lemma {:induction false} NewerGrows(data: seq<Entry>, more: seq<Entry>, id: StreamId)
    ensures Newer(data + more, id) == Newer(data, id) + Newer(more, id)
  {
    if data == [] {
      assert data + more == more;
    } else {
      assert (data + more)[0] == data[0] && (data + more)[1..] == data[1..] + more;
      NewerGrows(data[1..], more, id);
    }
  }

  /** Reading after the last entry of a page gives what was appended since, and misses nothing. */
  lemma NextPage(data: seq<Entry>, more: seq<Entry>, seen: StreamId)
    requires Sorted(data + more)
    ensures var page := Newer(data, seen);
            var next := if page == [] then seen else page[|page| - 1].id;
            Newer(data + more, seen) == page + Newer(data + more, next)
  {
    hide Newer, UpperBound;
    var all, u := data + more, UpperBound(data, seen);
    assert forall i | 0 <= i < |data| :: all[i] == data[i];
    UpperBoundIs(data, seen);
    NewerSlice(data, seen, u);
    if u < |data| {
      var top := data[|data| - 1].id;
      assert all[|data| - 1].id == top && seen.Less(top);
      assert forall i | |data| <= i < |all| :: top.Less(all[i].id);
      NewerSlice(all, seen, u);
      NewerSlice(all, top, |data|);
      assert all[u..] == data[u..] + all[|data|..];
    }
  }

  /** Paging by the last id seen returns every entry exactly once, whatever is appended in between. */
  lemma {:induction false} PagesCoverOnce(snapshots: seq<seq<Entry>>, seen: StreamId)
    requires Growing(snapshots) && snapshots != []
    ensures Pages(snapshots, seen) == Newer(snapshots[|snapshots| - 1], seen)
    decreases |snapshots|
  {
    hide Newer, Growing;
    var page := Newer(snapshots[0], seen);
    var next := if page == [] then seen else page[|page| - 1].id;
    var rest, last := snapshots[1..], snapshots[|snapshots| - 1];
    if rest == [] {
      assert Pages(rest, next) == [] && page + [] == page;
    } else {
      GrowingTail(snapshots);
      PagesCoverOnce(rest, next);
      PrefixOfLast(snapshots);
      assert last == snapshots[0] + last[|snapshots[0]|..];
      NextPage(snapshots[0], last[|snapshots[0]|..], seen);
    }
  }

  lemma GrowingTail(snapshots: seq<seq<Entry>>)
    requires Growing(snapshots) && |snapshots| > 1
    ensures Growing(snapshots[1..]) && snapshots[1..][|snapshots| - 2] == snapshots[|snapshots| - 1] && Sorted(snapshots[|snapshots| - 1])
  {
    hide Sorted;
    var rest := snapshots[1..];
    assert forall i | 0 <= i < |rest| :: rest[i] == snapshots[i + 1];
  }

  lemma {:induction false} PrefixOfLast(snapshots: seq<seq<Entry>>)
    requires Growing(snapshots) && snapshots != []
    ensures snapshots[0] <= snapshots[|snapshots| - 1]
    decreases |snapshots|
  {
    if |snapshots| > 1 {
      var rest := snapshots[1..];
      assert forall i | 0 <= i < |rest| :: rest[i] == snapshots[i + 1];
      PrefixOfLast(rest);
      assert snapshots[0] <= snapshots[1];
    }
  }

  // ----- The object -----

  class StreamValue {
    var data: seq<Entry>

    constructor ()
      ensures data == []
    {
      data := [];
    }

    /** Adds an entry; a refused request changes nothing. */
    method Append(asked: InputStreamId, values: seq<(string, string)>, now: uint64) returns (r: Added)
      requires Sorted(data)
      modifies this
      ensures Sorted(data)
      ensures r == Choose(old(data), asked, now) && data == Appended(old(data), asked, values, now)
    {
      AppendsAtEndIff(data, asked, values, now);
      hide Emplace, Sorted;
      if asked.FullId? && asked.id.IsNull() {
        return Refused(MustBeNotZeroId);
      }
      var id;
      if |data| > 0 {
        var lastId := data[|data| - 1].id;
        if asked.GeneralWildcard? {
          if now <= lastId.ms {
            id := Bump(lastId);
          } else {
            id := StreamId(now, 0);
          }
        } else if asked.IdWildcard? {
          if asked.ms < lastId.ms {
            return Refused(MustBeMoreThanTop);
          } else if asked.ms == lastId.ms {
            id := Bump(lastId);
          } else {
            id := StreamId(asked.ms, 0);
          }
        } else if asked.id.ms < lastId.ms {
          return Refused(MustBeMoreThanTop);
        } else if asked.id.ms == lastId.ms && asked.id.id <= lastId.id {
          return Refused(MustBeMoreThanTop);
        } else {
          id := asked.id;
        }
      } else if asked.GeneralWildcard? {
        id := StreamId(now, 0);
      } else if asked.IdWildcard? {
        if asked.ms == 0 {
          id := StreamId(0, 1);
        } else {
          id := StreamId(asked.ms, 0);
        }
      } else {
        id := asked.id;
      }
      data := Emplace(data, Entry(id, values));
      return Added(id);
    }

    /** The positions XRANGE iterates between. */
    method XRange(left: BoundStreamId, right: BoundStreamId) returns (r: Range)
      requires Sorted(data)
      ensures r.begin <= r.end <==> forall i | 0 <= i < |data| :: !Between(data[i].id, left, right)
      ensures r.begin <= r.end ==> r.end <= |data| && data[r.begin..r.end] == Within(data, left, right)
    {
      RangeIff(data, left, right);
      var begin := if left.LeftUnbound? then 0 else LowerBound(data, if left.Bound? then left.id else NULL_ID);
      var end := if right.RightUnbound? then |data| else UpperBound(data, if right.Bound? then right.id else NULL_ID);
      return Range(begin, end);
    }

    /** The entries XREAD gives: those above the id; none for `$`. */
    method XRead(id: ReadStreamId) returns (entries: seq<Entry>)
      requires Sorted(data)
      ensures entries == if id.NextExpected? then [] else Newer(data, id.id)
    {
      if id.NextExpected? {
        return [];
      }
      hide Sorted, LowerBound, UpperBound, Newer;
      BoundsMeet(data, id.id);
      NewerIs(data, id.id);
      var begin := LowerBound(data, id.id);
      if begin == |data| {
        return [];
      } else if data[begin].id == id.id {
        begin := begin + 1;
      }
      return data[begin..];
    }

    method LastId() returns (id: StreamId)
      requires Sorted(data)
      ensures data == [] ==> id == NULL_ID
      ensures data != [] ==> id == data[|data| - 1].id && forall e | e in data :: e.id.AtMost(id)
    {
      if |data| == 0 {
        return NULL_ID;
      }
      return data[|data| - 1].id;
    }
  }
}
