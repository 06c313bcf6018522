/** Bounded capture of one output pipe (`CaptureStream`, `CaptureStorage` and `pump_fair` in supervisor.rs). */
module Capture {
  import opened Base
  import opened Outcome
  import opened Policy

  const READ_CHUNK: nat := 8 * 1024
  const CHUNKS_PER_STREAM_TURN: nat := 8

  type Chunk = s: seq<byte> | 1 <= |s| <= READ_CHUNK witness [0]

  /** What one `read` answers; `grown` says whether the buffer could grow for this chunk. */
  datatype Read =
    | Data(chunk: Chunk, grown: bool)
    | EndOfFile
    | Interrupted
    | WouldBlock
    | ReadError(error: KernelError)

  datatype Storage =
    | Bounded(bytes: seq<byte>, limit: nat, overflow: OverflowBehavior)
    | Unbounded(bytes: seq<byte>)

  /**
   * The abstract value of a capture stream. An open pipe carries the answers it has still to give;
   * one that has run out of answers would block. `drained` and `consumed` are history: every byte
   * read so far, and every answer read so far.
   */
  datatype Stream = Stream(
    name: StreamName,
    pipe: Option<seq<Read>>,
    storage: Storage,
    discarded: nat,
    overflow: Option<nat>,
    failure: Option<CaptureFailure>,
    eof: bool,
    redirected: bool,
    drained: seq<byte>,
    consumed: seq<Read>)
  {
    predicate Terminal() {
      redirected || eof || failure.Some?
    }

    predicate FailsClosed() {
      storage.Bounded? && storage.overflow.FailClosed?
    }
  }

  function NewStream(name: StreamName, pipe: Option<seq<Read>>, policy: CapturePolicy): Stream {
    var storage := match policy
      case BoundedCapture(limit, overflow) => Bounded([], limit, overflow)
      case UnboundedCapture => Unbounded([]);
    Stream(name, pipe, storage, 0, None, None, false, pipe.None?, [], [])
  }

  function RecordFailure(s: Stream, error: IoError): Stream {
    s.(failure := KeepFirst(s.failure, ReadFailure(error)), pipe := None)
  }

  /** `make_nonblocking`: `error` is the answer of the two `fcntl` calls on an open pipe. */
  function MakeNonblocking(s: Stream, error: Option<IoError>): Stream {
    if s.pipe.Some? && error.Some? then RecordFailure(s, error.value) else s
  }

  function CloseUnallocated(s: Stream): Stream {
    s.(failure := KeepFirst(s.failure, AllocationFailure), pipe := None)
  }

  function Retain(s: Stream, chunk: Chunk, grown: bool): Stream {
    var read := s.(drained := s.drained + chunk);
    match s.storage
    case Unbounded(bytes) =>
      if grown then read.(storage := Unbounded(bytes + chunk))
      else CloseUnallocated(read.(discarded := SaturatingCount(s.discarded, |chunk|)))
    case Bounded(bytes, limit, behavior) =>
      var retained := Min(|chunk|, SaturatingSub(limit, |bytes|));
      var dropped := |chunk| - retained;
      var counted := read.(
        discarded := SaturatingCount(s.discarded, dropped),
        overflow := if dropped > 0 && behavior.FailClosed? then KeepFirst(s.overflow, limit) else s.overflow);
      if retained == 0 then counted
      else if grown then counted.(storage := Bounded(bytes + chunk[..retained], limit, behavior))
      else CloseUnallocated(counted.(discarded := SaturatingCount(counted.discarded, retained)))
  }

  /** The effect of one read answer on an open stream. */
  function Absorb(s: Stream, answer: Read): Stream {
    var seen := s.(consumed := s.consumed + [answer]);
    match answer
    case Data(chunk, grown) => Retain(seen, chunk, grown)
    case EndOfFile => seen.(eof := true, pipe := None)
    case Interrupted => seen
    case WouldBlock => seen
    case ReadError(error) => RecordFailure(seen, error)
  }

  function Pump(s: Stream, budget: nat): Stream
    decreases budget, s
  {
    if budget == 0 || s.pipe.None? || s.pipe.value == [] then s
    else
      var answer := s.pipe.value[0];
      var next := Absorb(s.(pipe := Some(s.pipe.value[1..])), answer);
      if answer.Data? || answer.Interrupted? then Pump(next, budget - 1) else next
  }

  /** `pump_fair`: one turn, with the stream that goes first alternating between turns. */
  function PumpFair(out: Stream, err: Stream, outReady: bool, errReady: bool): (Stream, Stream) {
    (if outReady then Pump(out, CHUNKS_PER_STREAM_TURN) else out,
     if errReady then Pump(err, CHUNKS_PER_STREAM_TURN) else err)
  }

  function Report(s: Stream): CaptureReport {
    var captured :=
      if s.redirected then REDIRECTED_CAPTURE
      else if s.eof then SettledCapture(s.storage.bytes, s.discarded)
      else IncompleteCapture(s.storage.bytes, s.discarded);
    CaptureReport(s.name, captured, s.failure)
  }

  // ---------------------------------------------------------------------------------------------
  // The stream invariant.

  /**
   * What a stream's fields say about the bytes drained so far: a bounded prefix is retained, every
   * other drained byte is counted (until the counter saturates), a fail-closed overflow is recorded
   * exactly when the limit was passed, and the pipe is gone exactly when the stream is terminal for
   * one and only one reason.
   */
  ghost predicate Faithful(s: Stream) {
    var bytes := s.storage.bytes;
    && (s.pipe.None? <==> s.Terminal())
    && !(s.redirected && s.eof) && !(s.redirected && s.failure.Some?) && !(s.eof && s.failure.Some?)
    && (s.redirected ==> s.drained == [])
    && bytes <= s.drained
    && s.discarded == Min(U64_MAX, |s.drained| - |bytes|)
    && (s.failure == Some(AllocationFailure) ==> |bytes| < |s.drained|)
    && (s.storage.Unbounded? && s.failure != Some(AllocationFailure) ==> bytes == s.drained)
    && (s.storage.Bounded? ==> |bytes| <= s.storage.limit)
    && (s.storage.Bounded? && s.failure != Some(AllocationFailure) ==>
          |bytes| == Min(s.storage.limit, |s.drained|))
    && s.overflow == (if s.FailsClosed() && |s.drained| > s.storage.limit then Some(s.storage.limit) else None)
  }

  /** The parts of a stream fixed when it is created. */
  ghost predicate SameShape(s: Stream, t: Stream) {
    && s.name == t.name
    && s.redirected == t.redirected
    && s.storage.Bounded? == t.storage.Bounded?
    && (s.storage.Bounded? ==> s.storage.limit == t.storage.limit && s.storage.overflow == t.storage.overflow)
  }

  lemma NewStreamFaithful(name: StreamName, pipe: Option<seq<Read>>, policy: CapturePolicy, error: Option<IoError>)
    ensures Faithful(MakeNonblocking(NewStream(name, pipe, policy), error))
    ensures SameShape(NewStream(name, pipe, policy), MakeNonblocking(NewStream(name, pipe, policy), error))
  {
  }

  lemma AbsorbFaithful(s: Stream, answer: Read)
    requires Faithful(s) && s.pipe.Some?
    ensures Faithful(Absorb(s, answer))
    ensures SameShape(s, Absorb(s, answer))
    ensures s.drained <= Absorb(s, answer).drained
    ensures |Absorb(s, answer).drained| <= |s.drained| + READ_CHUNK
  {
    if answer.Data? && s.storage.Bounded? {
      var chunk := answer.chunk;
      var retained := Min(|chunk|, SaturatingSub(s.storage.limit, |s.storage.bytes|));
      assert (s.drained + chunk)[..|s.storage.bytes|] == s.storage.bytes;
      if retained > 0 {
        assert s.storage.bytes == s.drained;
        assert s.drained + chunk[..retained] <= s.drained + chunk;
      }
    }
  }

  lemma {:induction false} PumpFaithful(s: Stream, budget: nat)
    requires Faithful(s)
    ensures Faithful(Pump(s, budget))
    ensures SameShape(s, Pump(s, budget))
    ensures s.drained <= Pump(s, budget).drained
    ensures |Pump(s, budget).drained| <= |s.drained| + budget * READ_CHUNK
    decreases budget
  {
    if budget > 0 && s.pipe.Some? && s.pipe.value != [] {
      var answer := s.pipe.value[0];
      var fed := s.(pipe := Some(s.pipe.value[1..]));
      AbsorbFaithful(fed, answer);
      if answer.Data? || answer.Interrupted? {
        PumpFaithful(Absorb(fed, answer), budget - 1);
      }
    }
  }

  /**
   * A ready stream gets its whole turn: with the pipe still open and not drained dry, either every
   * unit of budget went to one answer or the pipe said it would block.
   */
  lemma {:induction false} PumpUsesItsBudget(s: Stream, budget: nat)
    ensures var t := Pump(s, budget);
      && |s.consumed| <= |t.consumed| <= |s.consumed| + budget
      && (t.pipe.Some? && t.pipe.value != [] ==>
            |t.consumed| == |s.consumed| + budget || (t.consumed != [] && t.consumed[|t.consumed| - 1].WouldBlock?))
    decreases budget
  {
    if budget > 0 && s.pipe.Some? && s.pipe.value != [] {
      var answer := s.pipe.value[0];
      var fed := s.(pipe := Some(s.pipe.value[1..]));
      ConsumedGrows(fed, answer);
      if answer.Data? || answer.Interrupted? {
        PumpUsesItsBudget(Absorb(fed, answer), budget - 1);
      } else {
        AbsorbKeepsOrDropsPipe(fed, answer);
      }
    }
  }

  /** A terminal stream is never read again, whatever its budget. */
  lemma TerminalStreamIsInert(s: Stream, budget: nat)
    requires Faithful(s) && s.Terminal()
    ensures Pump(s, budget) == s
  {
  }

  /** The simple specification: what a capture of the bytes `drained` must look like at end of file. */
  lemma ReportIsTheBoundedPrefix(s: Stream)
    requires Faithful(s)
    ensures var r := Report(s);
      && r.captured.bytes <= s.drained
      && (s.storage.Bounded? ==> |r.captured.bytes| <= s.storage.limit)
      && (r.captured.completeness.Complete? <==> s.eof && r.captured.bytes == s.drained)
      && (r.captured.completeness.Truncated? <==> s.eof && r.captured.bytes != s.drained)
      && (r.captured.completeness.Incomplete? <==> !s.redirected && !s.eof)
      && (r.captured.completeness.Redirected? <==> s.redirected)
      && (s.eof && s.storage.Unbounded? ==> r.captured.bytes == s.drained)
      && (s.eof && s.storage.Bounded? ==>
            r.captured.bytes == s.drained[..Min(s.storage.limit, |s.drained|)])
      && (r.captured.completeness.Truncated? || r.captured.completeness.Incomplete? ==>
            r.captured.completeness.discarded == Min(U64_MAX, |s.drained| - |r.captured.bytes|))
  {
    assert s.storage.bytes == s.drained[..|s.storage.bytes|];
  }

  // ---------------------------------------------------------------------------------------------
  // Schedule independence.

  /** A stream with the answers it has not given yet forgotten. */
  function Forget(s: Stream): Stream {
    s.(pipe := if s.pipe.Some? then Some([]) else None)
  }

  /** The stream obtained by absorbing answers one after another, with no turns and no budgets. */
  function Replay(base: Stream, answers: seq<Read>): Stream
    decreases |answers|
  {
    if answers == [] then base else Absorb(Replay(base, answers[..|answers| - 1]), answers[|answers| - 1])
  }

  /**
   * `s` is `base` after some of the answers of its pipe, taken in order and none after the one that
   * closed it; nothing else about how it was pumped is left in it.
   */
  ghost predicate Replayed(base: Stream, s: Stream) {
    && Forget(s) == Replay(Forget(base), s.consumed)
    && Unclosed(Forget(base), s.consumed)
    && (base.pipe.None? ==> s.pipe.None? && s.consumed == [])
    && (base.pipe.Some? ==> s.consumed <= base.pipe.value)
    && (s.pipe.Some? ==> s.consumed + s.pipe.value == base.pipe.value)
  }

  /** No answer was taken after one that closed the pipe. */
  ghost predicate Unclosed(base: Stream, answers: seq<Read>)
    decreases |answers|
  {
    answers != [] ==>
      var before := answers[..|answers| - 1];
      Replay(base, before).pipe.Some? && Unclosed(base, before)
  }

  lemma UnclosedOneMore(base: Stream, answers: seq<Read>, answer: Read)
    requires Unclosed(base, answers) && Replay(base, answers).pipe.Some?
    ensures Unclosed(base, answers + [answer])
  {
    var all := answers + [answer];
    assert all[..|all| - 1] == answers;
  }

  lemma {:induction false} UnclosedBefore(base: Stream, answers: seq<Read>, n: nat)
    requires Unclosed(base, answers) && n < |answers|
    ensures Replay(base, answers[..n]).pipe.Some?
    decreases |answers|
  {
    var before := answers[..|answers| - 1];
    if n < |before| {
      UnclosedBefore(base, before, n);
      assert before[..n] == answers[..n];
    }
  }

  lemma ReplayOneMore(base: Stream, answers: seq<Read>, answer: Read)
    ensures Replay(base, answers + [answer]) == Absorb(Replay(base, answers), answer)
  {
    var all := answers + [answer];
    assert all[..|all| - 1] == answers;
  }

  lemma ForgetRetains(s: Stream, feed: seq<Read>, chunk: Chunk, grown: bool)
    requires s.pipe.Some?
    ensures Forget(Retain(s.(pipe := Some(feed)), chunk, grown)) == Retain(Forget(s), chunk, grown)
  {
  }

  lemma ForgetAbsorbs(s: Stream, feed: seq<Read>, answer: Read)
    requires s.pipe.Some?
    ensures Forget(Absorb(s.(pipe := Some(feed)), answer)) == Absorb(Forget(s), answer)
  {
    if answer.Data? {
      ForgetRetains(s.(consumed := s.consumed + [answer]), feed, answer.chunk, answer.grown);
    }
  }

  lemma ConsumedGrows(s: Stream, answer: Read)
    ensures Absorb(s, answer).consumed == s.consumed + [answer]
  {
  }

  lemma AbsorbReplays(base: Stream, s: Stream)
    requires Replayed(base, s) && s.pipe.Some? && s.pipe.value != []
    ensures Replayed(base, Absorb(s.(pipe := Some(s.pipe.value[1..])), s.pipe.value[0]))
  {
    var answer := s.pipe.value[0];
    var fed := s.(pipe := Some(s.pipe.value[1..]));
    ConsumedGrows(fed, answer);
    ForgetAbsorbs(s, s.pipe.value[1..], answer);
    ReplayOneMore(Forget(base), s.consumed, answer);
    UnclosedOneMore(Forget(base), s.consumed, answer);
    assert s.consumed + s.pipe.value == (s.consumed + [answer]) + s.pipe.value[1..];
    AbsorbKeepsOrDropsPipe(fed, answer);
  }

  lemma AbsorbKeepsOrDropsPipe(s: Stream, answer: Read)
    ensures Absorb(s, answer).pipe == s.pipe || Absorb(s, answer).pipe.None?
  {
  }

  /** Whatever the turns and budgets were, the stream is a function of the answers it consumed. */
  lemma {:induction false} PumpReplays(base: Stream, s: Stream, budget: nat)
    requires Replayed(base, s)
    ensures Replayed(base, Pump(s, budget))
    decreases budget
  {
    if budget > 0 && s.pipe.Some? && s.pipe.value != [] {
      var answer := s.pipe.value[0];
      var next := Absorb(s.(pipe := Some(s.pipe.value[1..])), answer);
      AbsorbReplays(base, s);
      assert Replayed(base, next);
      if answer.Data? || answer.Interrupted? {
        PumpReplays(base, next, budget - 1);
      }
    }
  }

  lemma FewerAnswersLeaveItOpen(base: Stream, s: Stream, t: Stream)
    requires Replayed(base, s) && Replayed(base, t)
    ensures |s.consumed| < |t.consumed| ==> s.pipe.Some?
  {
    if |s.consumed| < |t.consumed| {
      UnclosedBefore(Forget(base), t.consumed, |s.consumed|);
      assert s.consumed == t.consumed[..|s.consumed|];
    }
  }

  /** A pipe that closed was closed by one particular answer, however it was pumped. */
  lemma ClosedAlike(base: Stream, s: Stream, t: Stream)
    requires Replayed(base, s) && Replayed(base, t) && s.pipe.None? && t.pipe.None?
    ensures Forget(s) == Forget(t)
  {
    FewerAnswersLeaveItOpen(base, s, t);
    FewerAnswersLeaveItOpen(base, t, s);
    assert s.consumed == t.consumed;
  }

  // ---------------------------------------------------------------------------------------------
  // What a pipe carries.

  function Payload(answer: Read): seq<byte> {
    if answer.Data? then answer.chunk else []
  }

  function Bytes(answers: seq<Read>): seq<byte> {
    if answers == [] then [] else Payload(answers[0]) + Bytes(answers[1..])
  }

  /** The pipe is gone for good, whatever the stream does with its bytes. */
  predicate Closes(answer: Read) {
    answer.EndOfFile? || answer.ReadError?
  }

  /** All the bytes a pipe has to give: what it carries before its end of file or its first error. */
  function Written(feed: seq<Read>): seq<byte> {
    if feed == [] || Closes(feed[0]) then [] else Payload(feed[0]) + Written(feed[1..])
  }

  lemma {:induction false} BytesOneMore(answers: seq<Read>, answer: Read)
    ensures Bytes(answers + [answer]) == Bytes(answers) + Payload(answer)
  {
    var all := answers + [answer];
    if answers == [] {
      assert all[0] == answer && all[1..] == [];
    } else {
      assert all[0] == answers[0] && all[1..] == answers[1..] + [answer];
      BytesOneMore(answers[1..], answer);
    }
  }

  /** Only the last of the answers may close the pipe, so the bytes they carry come first in it. */
  lemma {:induction false} BytesAreWritten(answers: seq<Read>, rest: seq<Read>)
    requires forall i :: 0 <= i < |answers| - 1 ==> !Closes(answers[i])
    ensures Bytes(answers) <= Written(answers + rest)
    ensures answers != [] && Closes(answers[|answers| - 1]) ==> Bytes(answers) == Written(answers + rest)
  {
    if answers != [] {
      var tail := answers[1..];
      assert (answers + rest)[0] == answers[0] && (answers + rest)[1..] == tail + rest;
      if Closes(answers[0]) {
        assert tail == [];
      } else {
        BytesAreWritten(tail, rest);
        if tail != [] {
          assert tail[|tail| - 1] == answers[|answers| - 1];
        }
      }
    }
  }

  lemma AbsorbDrains(s: Stream, answer: Read)
    ensures Absorb(s, answer).drained == s.drained + Payload(answer)
  {
  }

  lemma {:induction false} ReplayDrains(base: Stream, answers: seq<Read>)
    ensures Replay(base, answers).drained == base.drained + Bytes(answers)
    decreases |answers|
  {
    if answers != [] {
      var before, last := answers[..|answers| - 1], answers[|answers| - 1];
      ReplayDrains(base, before);
      AbsorbDrains(Replay(base, before), last);
      BytesOneMore(before, last);
      assert before + [last] == answers;
      assert base.drained + Bytes(before) + Payload(last) == base.drained + Bytes(answers);
    }
  }

  lemma ClosingIsLast(base: Stream, answers: seq<Read>)
    requires Unclosed(base, answers)
    ensures forall i :: 0 <= i < |answers| - 1 ==> !Closes(answers[i])
  {
    forall i | 0 <= i < |answers| - 1
      ensures !Closes(answers[i])
    {
      UnclosedBefore(base, answers, i + 1);
      assert answers[..i + 1] == answers[..i] + [answers[i]];
      ReplayOneMore(base, answers[..i], answers[i]);
    }
  }

  lemma {:induction false} EndOfFileCloses(base: Stream, answers: seq<Read>)
    requires !base.eof
    ensures Replay(base, answers).eof ==> Replay(base, answers).pipe.None?
    ensures Replay(base, answers).eof && Unclosed(base, answers) ==>
              answers != [] && answers[|answers| - 1].EndOfFile?
    decreases |answers|
  {
    if answers != [] {
      var before, last := answers[..|answers| - 1], answers[|answers| - 1];
      EndOfFileCloses(base, before);
      AbsorbKeepsOrDropsPipe(Replay(base, before), last);
    }
  }

  /**
   * The drained bytes are the first bytes of the pipe, and at end of file they are all of them: no
   * byte is lost, duplicated or reordered between the pipe and the stream.
   */
  lemma DrainedIsWritten(base: Stream, s: Stream)
    requires Replayed(base, s) && base.pipe.Some? && base.drained == [] && !base.eof
    ensures s.drained == Bytes(s.consumed)
    ensures s.drained <= Written(base.pipe.value)
    ensures s.eof ==> s.drained == Written(base.pipe.value)
  {
    var feed := base.pipe.value;
    ReplayDrains(Forget(base), s.consumed);
    assert s.drained == Forget(s).drained;
    ClosingIsLast(Forget(base), s.consumed);
    EndOfFileCloses(Forget(base), s.consumed);
    assert feed == s.consumed + feed[|s.consumed|..];
    BytesAreWritten(s.consumed, feed[|s.consumed|..]);
    assert s.eof == Forget(s).eof;
  }

  // ---------------------------------------------------------------------------------------------
  // How a stream ends.

  /** A pipe as it is handed over: open, and nothing read of it yet. */
  ghost predicate Untouched(s: Stream) {
    && s.pipe.Some? && s.consumed == [] && s.drained == [] && s.storage.bytes == []
    && !s.eof && !s.redirected && s.failure.None?
  }

  lemma {:induction false} ReplayFaithful(base: Stream, answers: seq<Read>)
    requires Faithful(base) && Unclosed(base, answers)
    ensures Faithful(Replay(base, answers))
    ensures SameShape(base, Replay(base, answers))
    decreases |answers|
  {
    if answers != [] {
      var before, last := answers[..|answers| - 1], answers[|answers| - 1];
      ReplayFaithful(base, before);
      AbsorbFaithful(Replay(base, before), last);
    }
  }

  /** What a storage keeps of the bytes drained when every growth succeeds. */
  function KeptBy(storage: Storage, drained: seq<byte>): seq<byte> {
    if storage.Bounded? then drained[..Min(storage.limit, |drained|)] else drained
  }

  /**
   * A stream says of its pipe exactly what the last answer said: end of file, the error that was
   * read, or a buffer that could not grow, and then what had been kept before that chunk is intact.
   */
  ghost predicate EndsAsRead(s: Stream) {
    && (s.pipe.Some? ==> !s.eof && s.failure.None?)
    && (s.pipe.None? ==>
          && s.consumed != []
          && var last := s.consumed[|s.consumed| - 1];
             && (s.eof <==> last.EndOfFile?)
             && (last.ReadError? <==> s.failure.Some? && s.failure.value.ReadFailure?)
             && (last.ReadError? ==> s.failure == Some(ReadFailure(last.error)))
             && (last.Data? <==> s.failure == Some(AllocationFailure))
             && (last.Data? ==>
                   !last.grown && s.storage.bytes == KeptBy(s.storage, Bytes(s.consumed[..|s.consumed| - 1]))))
  }

  lemma AbsorbEndsAsRead(s: Stream, answer: Read)
    requires Faithful(s) && s.pipe.Some? && s.drained == Bytes(s.consumed)
    ensures EndsAsRead(Absorb(s, answer))
  {
    var t := Absorb(s, answer);
    assert t.consumed[..|t.consumed| - 1] == s.consumed;
    assert s.storage.bytes == s.drained[..|s.storage.bytes|];
  }

  lemma {:induction false} ReplayConsumes(base: Stream, answers: seq<Read>)
    ensures Replay(base, answers).consumed == base.consumed + answers
    decreases |answers|
  {
    if answers != [] {
      var before, last := answers[..|answers| - 1], answers[|answers| - 1];
      ReplayConsumes(base, before);
      ConsumedGrows(Replay(base, before), last);
      assert before + [last] == answers;
    }
  }

  lemma StreamsEndAsRead(base: Stream, s: Stream)
    requires Faithful(base) && Untouched(base) && Replayed(base, s)
    ensures EndsAsRead(s)
  {
    if s.consumed != [] {
      var before := s.consumed[..|s.consumed| - 1];
      ReplayFaithful(Forget(base), before);
      ReplayDrains(Forget(base), before);
      ReplayConsumes(Forget(base), before);
      AbsorbEndsAsRead(Replay(Forget(base), before), s.consumed[|s.consumed| - 1]);
      assert EndsAsRead(Forget(s));
    } else {
      assert Forget(s) == Forget(base);
    }
    assert s.eof == Forget(s).eof && s.failure == Forget(s).failure && s.storage == Forget(s).storage;
    assert s.consumed == Forget(s).consumed;
  }

  /** Growth that fails closes the stream exactly when there was something to keep of the chunk. */
  lemma FailedGrowthCloses(s: Stream, chunk: Chunk)
    requires Faithful(s) && s.pipe.Some?
    ensures Retain(s, chunk, false).pipe.None? <==> s.storage.Unbounded? || |s.storage.bytes| < s.storage.limit
    ensures Retain(s, chunk, false).pipe.Some? ==> Retain(s, chunk, false) == Retain(s, chunk, true)
  {
  }

  // ---------------------------------------------------------------------------------------------
  // Turns.

  /** Which of the two pipes `poll` reported in one turn. */
  datatype Readiness = Readiness(out: bool, err: bool)

  /** A series of fair turns, in the order the source runs them. */
  function PumpTurns(out: Stream, err: Stream, outFirst: bool, turns: seq<Readiness>): (Stream, Stream)
    decreases |turns|
  {
    if turns == [] then (out, err)
    else
      var t := turns[0];
      var next :=
        if outFirst then
          var o := if t.out then Pump(out, CHUNKS_PER_STREAM_TURN) else out;
          var e := if t.err then Pump(err, CHUNKS_PER_STREAM_TURN) else err;
          (o, e)
        else
          var e := if t.err then Pump(err, CHUNKS_PER_STREAM_TURN) else err;
          var o := if t.out then Pump(out, CHUNKS_PER_STREAM_TURN) else out;
          (o, e);
      PumpTurns(next.0, next.1, !outFirst, turns[1..])
  }

  /** One stream pumped alone, `n` full turns in a row. */
  function PumpAlone(s: Stream, n: nat): Stream
    decreases n
  {
    if n == 0 then s else PumpAlone(Pump(s, CHUNKS_PER_STREAM_TURN), n - 1)
  }

  lemma {:induction false} PumpAloneAdds(s: Stream, m: nat, n: nat)
    ensures PumpAlone(PumpAlone(s, m), n) == PumpAlone(s, m + n)
    decreases m
  {
    if m > 0 {
      PumpAloneAdds(Pump(s, CHUNKS_PER_STREAM_TURN), m - 1, n);
    }
  }

  function OutTurns(turns: seq<Readiness>): nat {
    if turns == [] then 0 else (if turns[0].out then 1 else 0) + OutTurns(turns[1..])
  }

  function ErrTurns(turns: seq<Readiness>): nat {
    if turns == [] then 0 else (if turns[0].err then 1 else 0) + ErrTurns(turns[1..])
  }

  /**
   * Fairness and independence together: however turns interleave and whoever goes first, each stream
   * ends exactly as if it had been pumped alone for the number of turns in which it was ready.
   */
  lemma {:induction false} TurnsAreIndependent(out: Stream, err: Stream, outFirst: bool, turns: seq<Readiness>)
    ensures PumpTurns(out, err, outFirst, turns)
         == (PumpAlone(out, OutTurns(turns)), PumpAlone(err, ErrTurns(turns)))
    decreases |turns|
  {
    if turns != [] {
      var next := PumpFair(out, err, turns[0].out, turns[0].err);
      TurnsAreIndependent(next.0, next.1, !outFirst, turns[1..]);
    }
  }

  // ---------------------------------------------------------------------------------------------
  // Draining to end of file.

  /** The kernel's side of a pipe whose last writer is gone: finitely many bytes, then end of file. */
  ghost predicate WillEnd(feed: seq<Read>) {
    && feed != []
    && feed[|feed| - 1].EndOfFile?
    && forall i :: 0 <= i < |feed| - 1 ==> feed[i].Interrupted? || (feed[i].Data? && feed[i].grown)
  }

  ghost predicate Drainable(s: Stream) {
    s.pipe.Some? ==> WillEnd(s.pipe.value)
  }

  function Pending(s: Stream): nat {
    if s.pipe.Some? then |s.pipe.value| else 0
  }

  /** Every pump turn of a drainable open stream makes progress and keeps it drainable. */
  lemma {:induction false} PumpProgress(s: Stream, budget: nat)
    requires Faithful(s) && Drainable(s)
    ensures Drainable(Pump(s, budget))
    ensures Pending(Pump(s, budget)) <= Pending(s)
    ensures Pump(s, budget).failure == s.failure && Pump(s, budget).redirected == s.redirected
    ensures budget > 0 && s.pipe.Some? ==> Pending(Pump(s, budget)) < Pending(s)
    decreases budget
  {
    if budget > 0 && s.pipe.Some? {
      var feed := s.pipe.value;
      var answer := feed[0];
      var fed := s.(pipe := Some(feed[1..]));
      var next := Absorb(fed, answer);
      AbsorbFaithful(fed, answer);
      if answer.EndOfFile? {
        assert next.pipe.None?;
      } else {
        assert |feed| > 1;
        assert WillEnd(feed[1..]);
        PumpProgress(next, budget - 1);
      }
    }
  }

  // ---------------------------------------------------------------------------------------------
  // The imperative capture stream.

  class CaptureStream {
    const name: StreamName
    var pipe: Option<seq<Read>>
    var storage: Storage
    var discarded: nat
    var overflow: Option<nat>
    var failure: Option<CaptureFailure>
    var eof: bool
    const redirected: bool
    ghost var drained: seq<byte>
    ghost var consumed: seq<Read>

    ghost function View(): Stream
      reads this
    {
      Stream(name, pipe, storage, discarded, overflow, failure, eof, redirected, drained, consumed)
    }

    constructor (name: StreamName, pipe: Option<seq<Read>>, policy: CapturePolicy)
      ensures View() == NewStream(name, pipe, policy)
    {
      this.name := name;
      this.pipe := pipe;
      this.storage := match policy
        case BoundedCapture(limit, behavior) => Bounded([], limit, behavior)
        case UnboundedCapture => Unbounded([]);
      this.discarded, this.overflow, this.failure := 0, None, None;
      this.eof, this.redirected := false, pipe.None?;
      this.drained, this.consumed := [], [];
    }

    method RecordError(error: IoError)
      modifies this
      ensures View() == RecordFailure(old(View()), error)
    {
      failure := KeepFirst(failure, ReadFailure(error));
      pipe := None;
    }

    method SetNonblocking(error: Option<IoError>)
      modifies this
      ensures View() == MakeNonblocking(old(View()), error)
    {
      if pipe.Some? && error.Some? {
        RecordError(error.value);
      }
    }

    method RetainChunk(chunk: Chunk, grown: bool)
      modifies this
      ensures View() == Retain(old(View()), chunk, grown)
    {
      drained := drained + chunk;
      var allocationFailed := false;
      match storage {
        case Unbounded(bytes) =>
          if grown {
            storage := Unbounded(bytes + chunk);
          } else {
            discarded := SaturatingCount(discarded, |chunk|);
            allocationFailed := true;
          }
        case Bounded(bytes, limit, behavior) =>
          var retained := Min(|chunk|, SaturatingSub(limit, |bytes|));
          var dropped := |chunk| - retained;
          discarded := SaturatingCount(discarded, dropped);
          if dropped > 0 && behavior.FailClosed? {
            overflow := KeepFirst(overflow, limit);
          }
          if retained > 0 {
            if grown {
              storage := Bounded(bytes + chunk[..retained], limit, behavior);
            } else {
              discarded := SaturatingCount(discarded, retained);
              allocationFailed := true;
            }
          }
      }
      if allocationFailed {
        failure := KeepFirst(failure, AllocationFailure);
        pipe := None;
      }
    }

    /** `Read::read` on the open pipe: takes the next answer. */
    method NextRead() returns (answer: Read)
      requires pipe.Some? && pipe.value != []
      modifies this
      ensures answer == old(pipe.value)[0]
      ensures View() == old(View()).(pipe := Some(old(pipe.value)[1..]), consumed := old(consumed) + [answer])
    {
      answer := pipe.value[0];
      pipe := Some(pipe.value[1..]);
      consumed := consumed + [answer];
    }

    method PumpChunks(chunkBudget: nat)
      modifies this
      ensures View() == Pump(old(View()), chunkBudget)
    {
      for n := 0 to chunkBudget
        invariant Pump(View(), chunkBudget - n) == Pump(old(View()), chunkBudget)
      {
        if pipe.None? || pipe.value == [] {
          return;
        }
        var answer := NextRead();
        match answer {
          case EndOfFile =>
            eof := true;
            pipe := None;
            return;
          case Data(chunk, grown) =>
            RetainChunk(chunk, grown);
          case Interrupted =>
          case WouldBlock =>
            return;
          case ReadError(error) =>
            RecordError(error);
            return;
        }
      }
    }

    predicate HasFailed()
      reads this
    {
      failure.Some?
    }

    predicate IsTerminal()
      reads this
      ensures IsTerminal() == View().Terminal()
    {
      redirected || eof || failure.Some?
    }

    function IntoReport(): (r: CaptureReport)
      reads this
      ensures r == Report(View())
    {
      var captured :=
        if redirected then REDIRECTED_CAPTURE
        else if eof then SettledCapture(storage.bytes, discarded)
        else IncompleteCapture(storage.bytes, discarded);
      CaptureReport(name, captured, failure)
    }
  }

  method PumpBothFairly(out: CaptureStream, err: CaptureStream, outReady: bool, errReady: bool, outFirst: bool)
    returns (nextFirst: bool)
    requires out != err
    modifies out, err
    ensures (out.View(), err.View()) == PumpFair(old(out.View()), old(err.View()), outReady, errReady)
    ensures nextFirst == !outFirst
  {
    if outFirst {
      if outReady {
        out.PumpChunks(CHUNKS_PER_STREAM_TURN);
      }
      if errReady {
        err.PumpChunks(CHUNKS_PER_STREAM_TURN);
      }
    } else {
      if errReady {
        err.PumpChunks(CHUNKS_PER_STREAM_TURN);
      }
      if outReady {
        out.PumpChunks(CHUNKS_PER_STREAM_TURN);
      }
    }
    nextFirst := !outFirst;
  }
}
