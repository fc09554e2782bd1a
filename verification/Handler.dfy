/**
 One end of a connection: partial reads and writes around the parser. What the system calls do is an
 oracle, a list of results that runs out into "would block".
 */
module Handlers {
  import opened Prelude
  import opened Messages
  import opened Grammar
  import opened Pieces
  import opened MessageParsers
  import opened Delivery

  /** A `read` call: some bytes (none means the peer closed), nothing now, a reset, another error. */
  datatype ReadResult = Bytes(data: string) | ReadBlocks | ReadReset | ReadFails

  /** A `write` call. */
  datatype WriteResult = Accepted(count: nat) | WriteBlocks | WriteReset | WriteFails

  /** How a method ends: normally, by the connection-reset exception, by another exception. */
  datatype Status = Fine | ConnReset | Thrown

  /** What a talker says when it hears the last of some messages. */
  type Talk = seq<Message> -> seq<Message>

  const CHUNK: nat := 1024

  /** The bytes that arrive before the calls stop giving any. */
  function Arrived(calls: seq<ReadResult>): string {
    if calls == [] || !calls[0].Bytes? || calls[0].data == "" then ""
    else calls[0].data + Arrived(calls[1..])
  }

  function ReadStatus(calls: seq<ReadResult>): Status {
    if calls == [] then Fine
    else
      match calls[0]
      case Bytes(data) => if data == "" then ConnReset else ReadStatus(calls[1..])
      case ReadBlocks => Fine
      case ReadReset => ConnReset
      case ReadFails => Thrown
  }

  /** The bytes of one `write` call: the system takes at most what it is offered. */
  function Step(offered: nat, count: nat): nat {
    var most := if offered < CHUNK then offered else CHUNK;
    if count <= most then count else most
  }

  /** How many of `size` bytes the calls pass on before they stop. */
  function Transfer(size: nat, writes: seq<WriteResult>): (n: nat)
    ensures n <= size
  {
    if size == 0 || writes == [] || !writes[0].Accepted? then 0
    else
      var n := Step(size, writes[0].count);
      n + Transfer(size - n, writes[1..])
  }

  function TransferStatus(size: nat, writes: seq<WriteResult>): Status {
    if size == 0 || writes == [] then Fine
    else
      match writes[0]
      case Accepted(count) => TransferStatus(size - Step(size, count), writes[1..])
      case WriteBlocks => Fine
      case WriteReset => ConnReset
      case WriteFails => Thrown
  }

  // ----- What calls do, said of the list of their results -----

  /** The bytes that the first `k` calls accepted. */
  ghost function Accepts(writes: seq<WriteResult>, k: nat): nat
    requires k <= |writes| && forall i | 0 <= i < k :: writes[i].Accepted?
  {
    if k == 0 then 0 else Accepts(writes, k - 1) + writes[k - 1].count
  }

  /**
   The first `k` calls of a write of `size` bytes accept some, each no more than it was offered: what is left,
   but at most 1024 bytes. There is something left before each.
   */
  ghost predicate Obeys(size: nat, writes: seq<WriteResult>, k: nat) {
    && k <= |writes| && (forall i | 0 <= i < k :: writes[i].Accepted?)
    && forall i | 0 <= i < k ::
         var done := Accepts(writes, i);
         done < size && writes[i].count <= 1024 && done + writes[i].count <= size
  }

  /** After `k` calls the write stops: all is written, or there is no call that accepts more. */
  ghost predicate Stops(size: nat, writes: seq<WriteResult>, k: nat)
    requires Obeys(size, writes, k)
  {
    Accepts(writes, k) == size || k == |writes| || !writes[k].Accepted?
  }

  lemma {:induction false} AcceptsTail(writes: seq<WriteResult>, k: nat)
    requires 0 < k <= |writes| && forall i | 0 <= i < k :: writes[i].Accepted?
    ensures Accepts(writes, k) == writes[0].count + Accepts(writes[1..], k - 1)
  {
    if k > 1 {
      AcceptsTail(writes, k - 1);
    }
  }

  /**
   What passes on is what the calls accepted before the write stopped, to the byte, and it ends as the call
   at which it stopped says.
   */
  lemma {:induction false} TransferIsAccepted(size: nat, writes: seq<WriteResult>, k: nat)
    requires Obeys(size, writes, k) && Stops(size, writes, k)
    ensures Transfer(size, writes) == Accepts(writes, k)
    ensures TransferStatus(size, writes) ==
            if Accepts(writes, k) == size || k == |writes| || writes[k].WriteBlocks? then Fine
            else if writes[k].WriteReset? then ConnReset else Thrown
    decreases k
  {
    hide Obeys, Stops, Accepts;
    if k > 0 {
      FirstAccepted(size, writes, k);
      assert k < |writes| ==> writes[1..][k - 1] == writes[k];
      TransferIsAccepted(size - writes[0].count, writes[1..], k - 1);
    } else {
      NoneAccepted(size, writes);
    }
  }

  lemma NoneAccepted(size: nat, writes: seq<WriteResult>)
    requires Obeys(size, writes, 0) && Stops(size, writes, 0)
    ensures Accepts(writes, 0) == 0 && (size == 0 || writes == [] || !writes[0].Accepted?)
  {
  }

  lemma FirstAccepted(size: nat, writes: seq<WriteResult>, k: nat)
    requires k > 0 && Obeys(size, writes, k) && Stops(size, writes, k)
    ensures k <= |writes| && forall i | 0 <= i < k - 1 :: writes[1..][i].Accepted?
    ensures size > 0 && writes != [] && writes[0].Accepted? && writes[0].count <= size && writes[0].count <= 1024
    ensures Obeys(size - writes[0].count, writes[1..], k - 1) && Stops(size - writes[0].count, writes[1..], k - 1)
    ensures Accepts(writes, k) == writes[0].count + Accepts(writes[1..], k - 1)
  {
    hide Accepts;
    var rest := writes[1..];
    assert Accepts(writes, 0) == 0 && Accepts(rest, 0) == 0 by { NoCalls(writes, rest); }
    assert forall i | 0 <= i < k - 1 :: rest[i] == writes[i + 1];
    forall i | 0 <= i < k ensures Accepts(writes, i + 1) == writes[0].count + Accepts(rest, i) {
      AcceptsTail(writes, i + 1);
    }
    forall i | 0 <= i < k - 1 ensures var done := Accepts(rest, i); done < size - writes[0].count && done + rest[i].count <= size - writes[0].count {
      assert Accepts(writes, i + 1) == writes[0].count + Accepts(rest, i);
    }
    assert Accepts(writes, k - 1 + 1) == writes[0].count + Accepts(rest, k - 1);
  }

  lemma NoCalls(a: seq<WriteResult>, b: seq<WriteResult>)
    ensures Accepts(a, 0) == 0 && Accepts(b, 0) == 0
  {
  }

  /**
   A partial write: what the system accepts of what it is offered goes, and that is what is left, but at most
   1024 bytes; then no more can be written now.
   */
  lemma PartialWrite(size: nat, k: nat)
    ensures var n := Transfer(size, [Accepted(k), WriteBlocks]);
            n <= k && n <= size && n <= 1024 && (n == k || n == size || n == 1024)
    ensures TransferStatus(size, [Accepted(k), WriteBlocks]) == Fine
  {
    var writes := [Accepted(k), WriteBlocks];
    assert writes[1..] == [WriteBlocks];
  }

  /** The first `k` calls each bring some bytes, and there is no further call that does. */
  ghost predicate Brings(calls: seq<ReadResult>, k: nat) {
    && k <= |calls| && (forall i | 0 <= i < k :: calls[i].Bytes? && calls[i].data != "")
    && (k == |calls| || !calls[k].Bytes? || calls[k].data == "")
  }

  /** What arrives is what those calls bring, one after the other, and the read ends as the next call says. */
  lemma {:induction false} ArrivedIsBrought(calls: seq<ReadResult>, k: nat)
    requires Brings(calls, k)
    ensures Arrived(calls) == Flatten(seq(k, i requires 0 <= i < k => calls[i].data))
    ensures ReadStatus(calls) ==
            if k == |calls| || calls[k].ReadBlocks? then Fine else if calls[k].ReadFails? then Thrown else ConnReset
    decreases k
  {
    if k > 0 {
      var parts := seq(k, i requires 0 <= i < k => calls[i].data);
      ArrivedIsBrought(calls[1..], k - 1);
      assert parts[1..] == seq(k - 1, i requires 0 <= i < k - 1 => calls[1..][i].data);
    }
  }

  /** One more `write` call of a transfer. */
  lemma TransferStep(size: nat, writes: seq<WriteResult>, i: nat)
    requires size > 0 && i < |writes|
    ensures var r := writes[i];
            if r.Accepted? then
              && Transfer(size, writes[i..]) == Step(size, r.count) + Transfer(size - Step(size, r.count), writes[i + 1..])
              && TransferStatus(size, writes[i..]) == TransferStatus(size - Step(size, r.count), writes[i + 1..])
            else
              && Transfer(size, writes[i..]) == 0
              && TransferStatus(size, writes[i..]) == if r.WriteBlocks? then Fine else if r.WriteReset? then ConnReset else Thrown
  {
    assert writes[i..][1..] == writes[i + 1..];
  }

  lemma NoTransfer(size: nat, writes: seq<WriteResult>)
    requires size == 0 || writes == []
    ensures Transfer(size, writes) == 0 && TransferStatus(size, writes).Fine?
  {
  }

  /** What is left after a talker's messages were sent: how it ended, and the bytes passed on. */
  datatype Sending = Sending(status: Status, open: bool, writeBuffer: string, sent: string, left: seq<Message>)

  /** The calls for the next message, and those for the ones after it. */
  function First(writes: seq<seq<WriteResult>>): seq<WriteResult> {
    if writes == [] then [] else writes[0]
  }

  function Later(writes: seq<seq<WriteResult>>): seq<seq<WriteResult>> {
    if writes == [] then [] else writes[1..]
  }

  /** A closed connection has no descriptor to write to, which is an exception of another kind. */
  function WriteStatus(open: bool, size: nat, writes: seq<WriteResult>): Status {
    if size == 0 then Fine else if !open then Thrown else TransferStatus(size, writes)
  }

  function Passed(open: bool, size: nat, writes: seq<WriteResult>): (n: nat)
    ensures n <= size
  {
    if open then Transfer(size, writes) else 0
  }

  /** Sends messages in order until one makes the talker leave, or the connection fails. */
  function SendAll(open: bool, buffer: string, said: seq<Message>, writes: seq<seq<WriteResult>>): Sending
    decreases |said|
  {
    if said == [] then Sending(Fine, open, buffer, "", [])
    else if said[0].Leave? then Sending(Fine, false, buffer, "", said[1..])
    else
      var all := buffer + ToString(said[0]);
      var n := Passed(open, |all|, First(writes));
      match WriteStatus(open, |all|, First(writes))
      case Fine =>
        var rest := SendAll(open, all[n..], said[1..], Later(writes));
        rest.(sent := all[..n] + rest.sent)
      case ConnReset => Sending(Fine, false, all, all[..n], said[1..])
      case Thrown => Sending(Thrown, open, all, all[..n], said[1..])
  }

  predicate NoLeave(said: seq<Message>) {
    forall i | 0 <= i < |said| :: !said[i].Leave?
  }

  /**
   What was sent of what a talker said, `k` messages of it. All of it, if nothing failed and it did not
   leave. All up to where it leaves, if it does, and nothing behind that. If the connection failed, the
   bytes passed on are still the first ones, and no message is skipped.
   */
  ghost predicate SentInOrder(open: bool, buffer: string, said: seq<Message>, r: Sending, k: nat) {
    && k <= |said| && r.left == said[k..]
    && r.sent <= buffer + ToStrings(said[..k])
    && (r.status.Fine? && r.open ==> NoLeave(said))
    && (r.status.Fine? && r.open == open && NoLeave(said) ==> k == |said| && r.sent + r.writeBuffer == buffer + ToStrings(said[..k]))
    && (k > 0 && said[k - 1].Leave? ==>
          r.status.Fine? && !r.open && NoLeave(said[..k - 1]) && r.sent + r.writeBuffer == buffer + ToStrings(said[..k]))
  }

  lemma {:induction false} SendAllMeans(open: bool, buffer: string, said: seq<Message>, writes: seq<seq<WriteResult>>) returns (k: nat)
    ensures SentInOrder(open, buffer, said, SendAll(open, buffer, said, writes), k)
    ensures !open ==> !SendAll(open, buffer, said, writes).open
    decreases |said|
  {
    hide ToString, ToStrings, Passed, SendAll, SentInOrder, WriteStatus;
    k := 0;
    if said == [] {
      SendNone(open, buffer, writes);
      NothingSent(open, buffer, said);
    } else {
      SendOne(open, buffer, said, writes);
      var all := buffer + ToString(said[0]);
      var n := Passed(open, |all|, First(writes));
      if !said[0].Leave? && WriteStatus(open, |all|, First(writes)).Fine? {
        k := SendAllMeans(open, all[n..], said[1..], Later(writes));
        MoreSent(open, buffer, said, n, SendAll(open, all[n..], said[1..], Later(writes)), k);
        k := k + 1;
      } else {
        k := 1;
        OneSent(open, buffer, said, n, WriteStatus(open, |all|, First(writes)));
      }
    }
  }

  lemma NothingSent(open: bool, buffer: string, said: seq<Message>)
    requires said == []
    ensures SentInOrder(open, buffer, said, Sending(Fine, open, buffer, "", []), 0)
  {
    assert "" + buffer == buffer + "";
  }

  lemma OneSent(open: bool, buffer: string, said: seq<Message>, n: nat, status: Status)
    requires said != [] && n <= |buffer + ToString(said[0])| && (said[0].Leave? || (!status.Fine? && (status.ConnReset? ==> open)))
    ensures var all := buffer + ToString(said[0]);
            var r := if said[0].Leave? then Sending(Fine, false, buffer, "", said[1..])
                     else Sending(if status.Thrown? then Thrown else Fine, open && status.Thrown?, all, all[..n], said[1..]);
            SentInOrder(open, buffer, said, r, 1)
  {
    hide ToString;
    LeaveIsSilent();
    FirstText(said);
    assert said[..0] == [] && "" + buffer == buffer + "";
  }

  lemma FirstText(said: seq<Message>)
    requires said != []
    ensures ToStrings(said[..1]) == ToString(said[0])
  {
    hide ToString;
    assert said[..1] == [said[0]];
    ToStringsOne(said[0]);
  }

  lemma LeaveIsSilent()
    ensures ToString(Leave) == ""
  {
  }

  /** Putting the first message in front of what was sent of the others. */
  lemma MoreSent(open: bool, buffer: string, said: seq<Message>, n: nat, rest: Sending, k: nat)
    requires said != [] && !said[0].Leave? && n <= |buffer + ToString(said[0])|
    requires SentInOrder(open, (buffer + ToString(said[0]))[n..], said[1..], rest, k)
    ensures SentInOrder(open, buffer, said, rest.(sent := (buffer + ToString(said[0]))[..n] + rest.sent), k + 1)
  {
    hide ToString, ToStrings;
    var all, tail := buffer + ToString(said[0]), ToStrings(said[1..][..k]);
    assert said[..k + 1] == [said[0]] + said[1..][..k];
    assert ToStrings(said[..k + 1]) == ToString(said[0]) + tail by {
      ToStringsAppend([said[0]], said[1..][..k]);
      ToStringsOne(said[0]);
    }
    assert all + tail == buffer + ToStrings(said[..k + 1]);
    InFront(all, n, rest.sent, rest.writeBuffer, tail);
    NoLeaveTail(said, k);
  }

  lemma NoLeaveTail(said: seq<Message>, k: nat)
    requires said != [] && !said[0].Leave? && k <= |said[1..]|
    ensures NoLeave(said) <==> NoLeave(said[1..])
    ensures k > 0 && NoLeave(said[1..][..k - 1]) ==> NoLeave(said[..k])
    ensures k > 0 ==> said[k] == said[1..][k - 1]
    ensures said[k + 1..] == said[1..][k..]
  {
    assert forall i | 0 <= i < |said[1..]| :: said[1..][i] == said[i + 1];
    if k > 0 {
      assert forall i | 0 < i < k :: said[..k][i] == said[1..][..k - 1][i - 1];
    }
  }

  lemma InFront(all: string, n: nat, sent: string, rest: string, tail: string)
    requires n <= |all|
    ensures sent <= all[n..] + tail ==> all[..n] + sent <= all + tail
    ensures sent + rest == all[n..] + tail ==> all[..n] + sent + rest == all + tail
  {
    assert all[..n] + (all[n..] + tail) == all + tail;
    assert all[..n] + sent + rest == all[..n] + (sent + rest);
    if sent <= all[n..] + tail {
      var more := (all[n..] + tail)[|sent|..];
      assert all[..n] + sent + more == all[..n] + (sent + more);
    }
  }

  lemma Joined(wire: string, sent: string, rest: string, buffer: string, texts: string)
    ensures sent + rest == buffer + texts ==> wire + sent + rest == wire + buffer + texts
  {
    assert wire + sent + rest == wire + (sent + rest) && wire + buffer + texts == wire + (buffer + texts);
  }

  /** What the talker says, in order, on the messages heard from the `from`-th on. */
  function Answers(says: Talk, from: nat, heard: seq<Message>): seq<Message>
    decreases |heard|
  {
    if |heard| <= from then [] else Answers(says, from, heard[..|heard| - 1]) + says(heard)
  }

  lemma NoAnswers(says: Talk, heard: seq<Message>)
    ensures Answers(says, |heard|, heard) == []
  {
  }

  lemma AnswersMore(says: Talk, from: nat, heard: seq<Message>, m: Message)
    requires from <= |heard|
    ensures Answers(says, from, heard + [m]) == Answers(says, from, heard) + says(heard + [m])
  {
    assert (heard + [m])[..|heard|] == heard;
  }

  /** What the talker says on the `n`-th message it hears. */
  function AnswerTo(says: Talk, heard: seq<Message>, n: nat): seq<Message>
    requires n <= |heard|
  {
    says(heard[..n])
  }

  /** The talker's answers, message by message of those heard since. */
  lemma {:induction false} AnswersAre(says: Talk, from: nat, heard: seq<Message>)
    requires from <= |heard|
    ensures Answers(says, from, heard) ==
            Concat(seq(|heard| - from, i requires 0 <= i < |heard| - from => AnswerTo(says, heard, from + i + 1)))
    decreases |heard|
  {
    if |heard| > from {
      var init := heard[..|heard| - 1];
      AnswersAre(says, from, init);
      var parts := seq(|heard| - from, i requires 0 <= i < |heard| - from => AnswerTo(says, heard, from + i + 1));
      var early := seq(|init| - from, i requires 0 <= i < |init| - from => AnswerTo(says, init, from + i + 1));
      forall n | 0 <= n <= |init| ensures AnswerTo(says, init, n) == AnswerTo(says, heard, n) {
        assert init[..n] == heard[..n];
      }
      assert parts[..|parts| - 1] == early;
      assert heard[..|heard|] == heard && AnswerTo(says, heard, |heard|) == says(heard);
      assert from + (|parts| - 1) + 1 == |heard| && parts[|parts| - 1] == AnswerTo(says, heard, |heard|);
    }
  }

  /** Several lists of messages, one after the other. */
  function Concat(parts: seq<seq<Message>>): seq<Message> {
    if parts == [] then [] else Concat(parts[..|parts| - 1]) + parts[|parts| - 1]
  }

  /** The calls that the `k`-th message is sent with. */
  function CallsOf(writes: seq<seq<WriteResult>>, k: nat): seq<WriteResult> {
    if k < |writes| then writes[k] else []
  }

  /** What waits to be written when the `k`-th message is to be sent, if nothing failed before. */
  ghost function Waiting(open: bool, buffer: string, said: seq<Message>, writes: seq<seq<WriteResult>>, k: nat): string
    requires k <= |said|
  {
    if k == 0 then buffer
    else
      var all := Waiting(open, buffer, said, writes, k - 1) + ToString(said[k - 1]);
      all[Passed(open, |all|, CallsOf(writes, k - 1))..]
  }

  /** Up to the `k`-th message nothing failed, and the talker did not leave. */
  ghost predicate GoesWell(open: bool, buffer: string, said: seq<Message>, writes: seq<seq<WriteResult>>, k: nat) {
    && k <= |said|
    && forall i | 0 <= i < k ::
         !said[i].Leave? && WriteStatus(open, |Waiting(open, buffer, said, writes, i) + ToString(said[i])|, CallsOf(writes, i)).Fine?
  }

  lemma {:induction false} WaitingTail(open: bool, buffer: string, said: seq<Message>, writes: seq<seq<WriteResult>>, k: nat)
    requires 0 < k <= |said|
    ensures var all := buffer + ToString(said[0]);
            Waiting(open, buffer, said, writes, k) == Waiting(open, all[Passed(open, |all|, First(writes))..], said[1..], Later(writes), k - 1)
  {
    hide ToString, Passed;
    if k > 1 {
      WaitingTail(open, buffer, said, writes, k - 1);
    }
  }

  /**
   Sending stops at the first message at which the connection fails or the talker leaves: a reset closes the
   connection, any other failure is passed on, a leave closes it in good order. The messages behind it are left.
   */
  lemma {:induction false} SendAllStops(open: bool, buffer: string, said: seq<Message>, writes: seq<seq<WriteResult>>, k: nat)
    requires GoesWell(open, buffer, said, writes, k)
    ensures var r := SendAll(open, buffer, said, writes);
            && (k == |said| ==> r.status.Fine? && r.open == open && r.left == [] && r.writeBuffer == Waiting(open, buffer, said, writes, k))
            && (k < |said| && said[k].Leave? ==> r.status.Fine? && !r.open && r.left == said[k + 1..] && r.writeBuffer == Waiting(open, buffer, said, writes, k))
            && (k < |said| && !said[k].Leave? ==>
                  var all := Waiting(open, buffer, said, writes, k) + ToString(said[k]);
                  var failed := WriteStatus(open, |all|, CallsOf(writes, k));
                  !failed.Fine? ==>
                    && r.left == said[k + 1..] && r.writeBuffer == all
                    && (if failed.ConnReset? then r.status.Fine? && !r.open else r.status.Thrown? && r.open == open))
    decreases k
  {
    hide ToString, Passed, WriteStatus, GoesWell, Waiting, SendAll;
    if said == [] {
      SendNone(open, buffer, writes);
      WaitsFirst(open, buffer, said, writes);
    } else {
      SendOne(open, buffer, said, writes);
      WaitsFirst(open, buffer, said, writes);
      if k > 0 {
        GoesWellTail(open, buffer, said, writes, k);
        var all := buffer + ToString(said[0]);
        SendAllStops(open, all[Passed(open, |all|, First(writes))..], said[1..], Later(writes), k - 1);
        if k < |said| {
          assert said[1..][k - 1] == said[k] && CallsOf(Later(writes), k - 1) == CallsOf(writes, k) && said[1..][k..] == said[k + 1..];
        }
      }
    }
  }

  lemma WaitsFirst(open: bool, buffer: string, said: seq<Message>, writes: seq<seq<WriteResult>>)
    ensures Waiting(open, buffer, said, writes, 0) == buffer && CallsOf(writes, 0) == First(writes)
  {
  }

  lemma GoesWellTail(open: bool, buffer: string, said: seq<Message>, writes: seq<seq<WriteResult>>, k: nat)
    requires GoesWell(open, buffer, said, writes, k) && k > 0
    ensures var all := buffer + ToString(said[0]);
            var rest := all[Passed(open, |all|, First(writes))..];
            && !said[0].Leave? && WriteStatus(open, |all|, First(writes)).Fine?
            && GoesWell(open, rest, said[1..], Later(writes), k - 1)
            && Waiting(open, buffer, said, writes, k) == Waiting(open, rest, said[1..], Later(writes), k - 1)
  {
    hide ToString, Passed, WriteStatus, Waiting;
    var all := buffer + ToString(said[0]);
    var rest := all[Passed(open, |all|, First(writes))..];
    WaitsFirst(open, buffer, said, writes);
    WaitingTail(open, buffer, said, writes, k);
    forall i | 0 <= i < k - 1
      ensures !said[1..][i].Leave?
      ensures WriteStatus(open, |Waiting(open, rest, said[1..], Later(writes), i) + ToString(said[1..][i])|, CallsOf(Later(writes), i)).Fine?
    {
      WaitingTail(open, buffer, said, writes, i + 1);
      assert said[1..][i] == said[i + 1] && CallsOf(Later(writes), i) == CallsOf(writes, i + 1);
    }
  }

  /** A write on a connection that was closed throws, if there is anything to write. */
  lemma ClosedThrows(size: nat, writes: seq<WriteResult>)
    ensures WriteStatus(false, size, writes) == (if size == 0 then Fine else Thrown) && Passed(false, size, writes) == 0
  {
  }

  class Handler {
    const wants: Expectation
    const says: Talk
    const readBuffer: CharBuffer
    const parser: MessageParser
    var open: bool
    var writeBuffer: string
    /** What the talker has heard, and what it has to say. */
    var heard: seq<Message>
    var pending: seq<Message>
    /** Every byte the system has accepted, and whether the poller watches for room to write more. */
    var wire: string
    var polled: bool
    ghost var reader: Reader

    constructor (wants: Expectation, says: Talk)
      ensures Valid() && fresh(readBuffer) && fresh(parser) && fresh(parser.rawMessages)
      ensures this.wants == wants && this.says == says && reader == Reading([], "")
      ensures open && heard == [] && pending == [] && wire == "" && writeBuffer == "" && Watched()
    {
      this.wants, this.says := wants, says;
      var buffer := new CharBuffer();
      readBuffer := buffer;
      parser := new MessageParser(buffer);
      open := true;
      writeBuffer, heard, pending, wire, polled := "", [], [], "", false;
      reader := Reading([], "");
    }

    /** The parser is where the reader of the specification is. */
    ghost predicate Valid()
      reads this, readBuffer, parser, parser.rawMessages
    {
      parser.buffer == readBuffer
      && reader.Reading? && reader.heard == heard
      && parser.Holds(reader.unread, wants(heard))
    }

    /** Bytes that wait to be written are never forgotten: the poller will report room for them. */
    predicate Watched()
      reads this`writeBuffer, this`polled
    {
      writeBuffer != "" ==> polled
    }

    method Close()
      modifies this`open
      ensures !open
    {
      open := false;
    }

    method Read(calls: seq<ReadResult>) returns (status: Status)
      modifies readBuffer
      ensures status == ReadStatus(calls)
      ensures readBuffer.bytes == old(readBuffer.bytes) + Arrived(calls)
    {
      var i := 0;
      while i < |calls|
        invariant 0 <= i <= |calls|
        invariant readBuffer.bytes + Arrived(calls[i..]) == old(readBuffer.bytes) + Arrived(calls)
        invariant ReadStatus(calls[i..]) == ReadStatus(calls)
      {
        assert calls[i..][1..] == calls[i + 1..];
        match calls[i] {
          case Bytes(data) =>
            if data == "" {
              return ConnReset;
            }
            readBuffer.bytes := readBuffer.bytes + data;
          case ReadBlocks => return Fine;
          case ReadReset => return ConnReset;
          case ReadFails => return Thrown;
        }
        i := i + 1;
      }
      return Fine;
    }

    /** Hears every complete message of what has arrived; the talker's answers join what it has to say. */
    method HearAll(ghost goal: Reader, ghost start: string) returns (status: Status)
      requires parser.buffer == readBuffer && reader.Reading? && reader.heard == heard
      requires goal.Reading? ==> goal == Drain(heard, start, wants) && parser.Holds(start, wants(heard))
      modifies this`heard, this`pending, this`reader, readBuffer, parser, parser.rawMessages
      ensures goal.Reading? ==> status.Fine? && Valid() && reader == goal
      ensures |old(heard)| <= |heard| && pending == old(pending) + Answers(says, |old(heard)|, heard)
      ensures status.Fine? || status.Thrown?
    {
      hide Drain, Answers, One;
      ghost var unread, from := start, |heard|;
      NoAnswers(says, heard);
      assert pending == pending + [];
      while true
        invariant parser.buffer == readBuffer && from <= |heard|
        invariant goal.Reading? ==> goal == Drain(heard, unread, wants) && parser.Holds(unread, wants(heard))
        invariant pending == old(pending) + Answers(says, from, heard)
        decreases parser.Work()
      {
        DrainStep(heard, unread, wants);
        var message := parser.TryParse(wants(heard), unread);
        match message {
          case Failed => return Thrown;
          case NotYet => break;
          case Got(m) =>
            AnswersMore(says, from, heard, m);
            heard := heard + [m];
            pending := pending + says(heard);
            unread := readBuffer.bytes;
        }
      }
      reader := Reading(heard, unread);
      return Fine;
    }

    /**
     Reads what there is, hears every complete message in it, and sends what the talker says. A reset or
     the end of the stream closes the connection before any byte of this read is looked at.
     */
    method ProcessRead(calls: seq<ReadResult>, writes: seq<seq<WriteResult>>) returns (status: Status)
      requires Valid() && open && Watched()
      modifies this, readBuffer, parser, parser.rawMessages
      ensures ReadStatus(calls).Thrown? ==>
                status.Thrown? && open && heard == old(heard) && pending == old(pending) && wire == old(wire) && writeBuffer == old(writeBuffer)
      ensures ReadStatus(calls).ConnReset? ==>
                var r := SendAll(false, old(writeBuffer), old(pending), writes);
                && !open && heard == old(heard) && reader == old(reader)
                && status == r.status && writeBuffer == r.writeBuffer && wire == old(wire) + r.sent && pending == r.left
      ensures ReadStatus(calls).Fine? && Feed(old(reader), Arrived(calls), wants).Reading? ==>
                && Valid() && reader == Feed(old(reader), Arrived(calls), wants)
                && var r := SendAll(true, old(writeBuffer), old(pending) + Answers(says, |old(heard)|, heard), writes);
                && status == r.status && open == r.open && writeBuffer == r.writeBuffer && wire == old(wire) + r.sent && pending == r.left
                && (status.Fine? && open ==> Watched())
    {
      hide Drain, SendAll, Answers;
      status := Read(calls);
      if status.Thrown? {
        return;
      }
      if status.ConnReset? {
        Close();
        ghost var k := SendAllMeans(open, writeBuffer, pending, writes);
      } else {
        ghost var goal := Feed(old(reader), Arrived(calls), wants);
        ghost var unread := old(reader).unread + Arrived(calls);
        CutsFeed(old(reader).unread, None, wants(heard), parser.rawMessages.items, old(readBuffer.bytes), parser.pending, Arrived(calls));
        status := HearAll(goal, unread);
        if status.Thrown? {
          return;
        }
      }
      status := ProcessWrite(writes);
    }

    /** Passes the write buffer on in pieces of at most 1024 bytes, as far as the system accepts them. */
    method Write(writes: seq<WriteResult>) returns (status: Status)
      modifies this`writeBuffer, this`wire, this`polled
      ensures status == WriteStatus(open, |old(writeBuffer)|, writes)
      ensures wire == old(wire) + old(writeBuffer)[..Passed(open, |old(writeBuffer)|, writes)]
      ensures writeBuffer == if status.Fine? then old(writeBuffer)[Passed(open, |old(writeBuffer)|, writes)..] else old(writeBuffer)
      ensures status.Fine? && old(writeBuffer) != "" ==> Watched() && (writeBuffer == "" ==> !polled)
      ensures !status.Fine? || old(writeBuffer) == "" ==> polled == old(polled)
    {
      hide Transfer, TransferStatus;
      if |writeBuffer| == 0 {
        NoTransfer(0, writes);
        return Fine;
      }
      if !open {
        return Thrown;
      }
      var transferredTotal, i := 0, 0;
      assert writes[0..] == writes;
      while transferredTotal < |writeBuffer| && i < |writes|
        invariant 0 <= transferredTotal <= |writeBuffer| && 0 <= i <= |writes|
        invariant writeBuffer == old(writeBuffer) && polled == old(polled)
        invariant wire == old(wire) + writeBuffer[..transferredTotal]
        invariant transferredTotal + Transfer(|writeBuffer| - transferredTotal, writes[i..]) == Transfer(|writeBuffer|, writes)
        invariant TransferStatus(|writeBuffer| - transferredTotal, writes[i..]) == TransferStatus(|writeBuffer|, writes)
        decreases |writes| - i
      {
        TransferStep(|writeBuffer| - transferredTotal, writes, i);
        var maxWrite := if transferredTotal + CHUNK < |writeBuffer| then transferredTotal + CHUNK else |writeBuffer|;
        match writes[i] {
          case Accepted(count) =>
            var taken := if count <= maxWrite - transferredTotal then count else maxWrite - transferredTotal;
            wire := wire + writeBuffer[transferredTotal..transferredTotal + taken];
            transferredTotal := transferredTotal + taken;
          case WriteBlocks => break;
          case WriteReset => return ConnReset;
          case WriteFails => return Thrown;
        }
        i := i + 1;
      }
      if transferredTotal == |writeBuffer| || i == |writes| {
        NoTransfer(|writeBuffer| - transferredTotal, writes[i..]);
      }
      writeBuffer := writeBuffer[transferredTotal..];
      polled := |writeBuffer| != 0;
      return Fine;
    }

    method SendMessage(m: Message, writes: seq<WriteResult>) returns (status: Status)
      requires Watched()
      modifies this`writeBuffer, this`wire, this`polled
      ensures var all := old(writeBuffer) + ToString(m);
              && status == WriteStatus(open, |all|, writes)
              && wire == old(wire) + all[..Passed(open, |all|, writes)]
              && writeBuffer == (if status.Fine? then all[Passed(open, |all|, writes)..] else all)
      ensures status.Fine? ==> Watched() && wire + writeBuffer == old(wire + writeBuffer) + ToString(m)
    {
      hide ToString, WriteStatus, Passed;
      writeBuffer := writeBuffer + ToString(m);
      ghost var all, n := writeBuffer, Passed(open, |writeBuffer|, writes);
      status := Write(writes);
      assert all[..n] + all[n..] == all;
    }

    /**
     Sends what the talker says until it leaves or the connection fails; nothing is lost, reordered or
     sent twice, and bytes that wait are watched.
     */
    method ProcessWrite(writes: seq<seq<WriteResult>>) returns (status: Status)
      requires Watched()
      modifies this`open, this`writeBuffer, this`pending, this`wire, this`polled
      ensures var r := SendAll(old(open), old(writeBuffer), old(pending), writes);
              && status == r.status && open == r.open && writeBuffer == r.writeBuffer && wire == old(wire) + r.sent && pending == r.left
      ensures status.Fine? && old(open) && open ==> pending == [] && wire + writeBuffer == old(wire + writeBuffer) + ToStrings(old(pending))
      ensures status.Fine? && open ==> Watched()
    {
      hide *;
      ghost var start, goal, sent := wire, SendAll(open, writeBuffer, pending, writes), "";
      AllSent(start, open, writeBuffer, pending, writes);
      var todo := writes;
      assert wire + sent == wire && goal.(sent := sent + goal.sent) == goal;
      while |pending| > 0
        invariant open == old(open) && Watched() && wire == start + sent
        invariant var r := SendAll(open, writeBuffer, pending, todo); goal == r.(sent := sent + r.sent)
        decreases |pending|
      {
        ghost var all := writeBuffer + ToString(pending[0]);
        ghost var n := Passed(open, |all|, First(todo));
        SendOne(open, writeBuffer, pending, todo);
        var message := pending[0];
        pending := pending[1..];
        if message.Leave? {
          Close();
          assert sent + "" == sent;
          return Fine;
        }
        status := SendMessage(message, First(todo));
        Regroup(start, sent, all[..n]);
        if status.ConnReset? {
          Close();
          return Fine;
        }
        if status.Thrown? {
          return Thrown;
        }
        todo := Later(todo);
        Regroup(sent, all[..n], SendAll(open, writeBuffer, pending, todo).sent);
        sent := sent + all[..n];
      }
      SendNone(open, writeBuffer, todo);
      assert sent + "" == sent;
      return Fine;
    }
  }

  lemma Regroup(a: string, b: string, c: string)
    ensures a + b + c == a + (b + c)
  {
  }

  /** A talker that does not leave has everything sent, if nothing fails. */
  lemma AllSent(wire: string, open: bool, buffer: string, said: seq<Message>, writes: seq<seq<WriteResult>>)
    ensures var r := SendAll(open, buffer, said, writes);
            r.status.Fine? && open && r.open ==> r.left == [] && wire + r.sent + r.writeBuffer == wire + buffer + ToStrings(said)
  {
    hide ToString, ToStrings, SendAll;
    var r := SendAll(open, buffer, said, writes);
    var k := SendAllMeans(open, buffer, said, writes);
    assert said[..|said|] == said;
    Joined(wire, r.sent, r.writeBuffer, buffer, ToStrings(said));
  }

  lemma SendNone(open: bool, buffer: string, writes: seq<seq<WriteResult>>)
    ensures SendAll(open, buffer, [], writes) == Sending(Fine, open, buffer, "", [])
  {
  }

  /** One message of those to be sent. */
  lemma SendOne(open: bool, buffer: string, said: seq<Message>, writes: seq<seq<WriteResult>>)
    requires said != []
    ensures var r, all := SendAll(open, buffer, said, writes), buffer + ToString(said[0]);
            var n, status := Passed(open, |all|, First(writes)), WriteStatus(open, |all|, First(writes));
            && (status.ConnReset? ==> open)
            && if said[0].Leave? then r == Sending(Fine, false, buffer, "", said[1..])
            else if status.Fine? then
              var rest := SendAll(open, all[n..], said[1..], Later(writes));
              r == rest.(sent := all[..n] + rest.sent)
            else r == Sending(if status.Thrown? then Thrown else Fine, open && status.Thrown?, all, all[..n], said[1..])
  {
    hide ToString, Passed;
    assert !open ==> !WriteStatus(open, |buffer + ToString(said[0])|, First(writes)).ConnReset?;
  }

  /** One message of those to be heard. */
  lemma DrainStep(heard: seq<Message>, unread: string, wants: Expectation)
    ensures var r := One(unread, wants(heard), wants(heard));
            Drain(heard, unread, wants) ==
            if r.Done? then Drain(heard + [r.value], r.rest, wants) else if r.Incomplete? then Reading(heard, unread) else Broken(heard)
  {
    hide One;
  }
}
