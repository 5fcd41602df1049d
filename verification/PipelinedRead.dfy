/** Buffered reads of src/client.rs: the plain loop and the pipelined one, against any server and
    any order of replies. */
module PipelinedRead {
  import opened Errors
  import opened Server
  import opened Ranges
  import opened Reassembly
  import opened HonestRead
  import opened Answers

  // ---------------------------------------------------------------- scheduling

  predicate Fits(s: seq<Range>, chunk: nat) {
    forall i | 0 <= i < |s| :: s[i].lo < s[i].hi <= s[i].lo + chunk
  }

  /** Gaps left by short reads come first, then fresh ranges in order. */
  class ChunkScheduler {
    var gaps: seq<Range>
    var nextOffset: nat
    const end: nat
    const chunkSize: nat

    constructor (start: nat, end: nat, chunkSize: nat)
      ensures gaps == [] && nextOffset == start && this.end == end && this.chunkSize == chunkSize
    {
      this.gaps, this.nextOffset, this.end, this.chunkSize := [], start, end, chunkSize;
    }

    method PushGap(gap: Range)
      modifies this`gaps
      ensures gaps == old(gaps) + [gap]
    {
      gaps := gaps + [gap];
    }

    /** A gap never exceeds a chunk, so asking for a gap asks for all of it. */
    method NextRange(eofObserved: bool) returns (r: Option<Range>)
      requires Fits(gaps, chunkSize) && 0 < chunkSize && nextOffset <= end
      modifies this`gaps, this`nextOffset
      ensures Fits(gaps, chunkSize) && nextOffset <= end
      ensures r.None? ==> gaps == old(gaps) == [] && nextOffset == old(nextOffset) && (eofObserved || nextOffset == end)
      ensures r.Some? && old(gaps) != [] ==> old(gaps) == gaps + [r.value] && nextOffset == old(nextOffset)
      ensures r.Some? && old(gaps) == [] ==> gaps == [] && r.value == Range(old(nextOffset), nextOffset)
      ensures r.Some? ==> r.value.lo < r.value.hi <= r.value.lo + chunkSize
    {
      if gaps != [] {
        var gap := gaps[|gaps| - 1];
        gaps := gaps[..|gaps| - 1];
        var len := Min(gap.hi - gap.lo, chunkSize);
        return Some(Range(gap.lo, gap.lo + len));
      }
      if eofObserved || nextOffset >= end {
        return None;
      }
      var offset := nextOffset;
      nextOffset := offset + Min(end - offset, chunkSize);
      return Some(Range(offset, nextOffset));
    }
  }

  // ---------------------------------------------------------------- reassembly in place

  class PipelinedEmit {
    var out: seq<Byte>
    var completed: seq<ReadOutput>
    var nextOffset: nat
    var eofAt: Option<nat>
    var eofUpperBound: Option<nat>
    var firstError: Option<Error>
    const requirements: Requirements
    ghost var emitted: seq<ReadOutput>

    constructor (prefix: seq<Byte>, start: nat, requirements: Requirements)
      ensures Now() == Emit(prefix, [], start, None, None, None, []) && this.requirements == requirements
    {
      this.out, this.completed, this.nextOffset := prefix, [], start;
      this.eofAt, this.eofUpperBound, this.firstError, this.requirements, this.emitted := None, None, None, requirements, [];
    }

    ghost function Now(): Emit
      reads this
    {
      Emit(out, completed, nextOffset, eofAt, eofUpperBound, firstError, emitted)
    }

    method RecordError(err: Error)
      modifies this`firstError
      ensures Now() == Fail(old(Now()), err)
    {
      if firstError.None? {
        firstError := Some(err);
      }
    }

    method ObserveEofUpperBound(at: nat)
      modifies this`firstError, this`eofUpperBound
      ensures Now() == ObserveUpper(old(Now()), at)
    {
      if eofAt.Some? && eofAt.value > at {
        RecordError(Protocol);
      }
      eofUpperBound := Some(if eofUpperBound.Some? then Min(eofUpperBound.value, at) else at);
    }

    method ObserveExactEof(at: nat)
      modifies this`firstError, this`eofUpperBound, this`eofAt
      ensures Now() == ObserveExact(old(Now()), at)
    {
      if eofUpperBound.Some? && at > eofUpperBound.value {
        RecordError(Protocol);
      }
      if eofAt.None? {
        eofAt := Some(at);
      } else if eofAt.value != at {
        RecordError(Protocol);
      }
      ObserveEofUpperBound(at);
    }

    method EmitRead(read: ReadOutput)
      modifies this`firstError, this`eofUpperBound, this`eofAt, this`out, this`nextOffset, this`emitted
      ensures Now() == EmitOne(old(Now()), read, requirements)
    {
      hide ObserveExact, ObserveUpper, Fail;
      if read.data == [] {
        ObserveExactEof(read.offset);
        return;
      }
      if !WithinLimit(|out|, |read.data|, requirements.limit) {
        RecordError(BufferedReadTooLarge(requirements.expectedLen, requirements.limit.value));
        return;
      }
      nextOffset := nextOffset + |read.data|;
      out := out + read.data;
      emitted := emitted + [read];
      if read.eof {
        ObserveExactEof(nextOffset);
      }
    }

    /** Takes the first queued reply that continues the output. */
    method TakeCompleted() returns (r: Option<ReadOutput>)
      modifies this`completed
      ensures var i := Position(old(completed), nextOffset);
              if i == |old(completed)| then r.None? && completed == old(completed)
              else r == Some(old(completed)[i]) && completed == SwapRemove(old(completed), i)
    {
      var i := 0;
      while i < |completed| && completed[i].offset != nextOffset
        invariant i <= |completed| && forall j | 0 <= j < i :: completed[j].offset != nextOffset
      {
        i := i + 1;
      }
      if i == |completed| {
        return None;
      }
      r := Some(completed[i]);
      completed := completed[i := completed[|completed| - 1]][..|completed| - 1];
    }

    method DrainQueued()
      modifies this
      ensures Now() == Drain(old(Now()), requirements)
    {
      ghost var e0 := Now();
      while eofAt.None? || nextOffset < eofAt.value
        invariant Drain(Now(), requirements) == Drain(e0, requirements)
        decreases |completed|
      {
        ghost var e := Now();
        var taken := TakeCompleted();
        if taken.None? {
          break;
        }
        EmitRead(taken.value);
        ghost var i := Position(e.completed, e.next);
        TakeShrinks(e, i, requirements);
        assert Now() == Take(e, i, requirements);
        if firstError.Some? || (eofAt.Some? && nextOffset >= eofAt.value) {
          return;
        }
      }
    }

    method RecordRead(read: ReadOutput)
      modifies this
      ensures Now() == Record(old(Now()), read, requirements)
    {
      if read.eof {
        if read.data == [] && read.offset != nextOffset {
          ObserveEofUpperBound(read.End());
        } else {
          ObserveExactEof(read.End());
        }
      }
      if eofAt.Some? && read.data != [] && read.End() > eofAt.value {
        RecordError(Protocol);
        return;
      }
      if read.offset == nextOffset {
        EmitRead(read);
        DrainQueued();
      } else {
        completed := completed + [read];
      }
    }

    method FinishReads() returns (r: Result<bool, Error>)
      ensures r == Finish(Now(), requirements)
    {
      if firstError.Some? {
        return Err(firstError.value);
      }
      if eofAt.Some? {
        var i := 0;
        while i < |completed|
          invariant i <= |completed| && forall j | 0 <= j < i :: !BeyondEof(Now(), completed[j])
        {
          if completed[i].data != [] && completed[i].End() > eofAt.value {
            assert BeyondEof(Now(), completed[i]);
            return Err(Protocol);
          }
          i := i + 1;
        }
      }
      if eofAt.Some? && nextOffset < eofAt.value {
        return Err(Protocol);
      }
      if eofAt.None? && eofUpperBound.Some? && nextOffset < eofUpperBound.value {
        return Err(Protocol);
      }
      return ValidateObservedEof(requirements.expectedEof, eofAt);
    }
  }

  // ---------------------------------------------------------------- what a finished read proves

  /** The output is the prefix followed by a contiguous run of received replies from `start`, which
      stops at the requested end if no reply said EOF, and otherwise at the one EOF that was
      reported; an expected EOF was met, and the limit was not exceeded. */
  ghost predicate Gathered(out: seq<Byte>, prefix: seq<Byte>, start: nat, end: nat, q: Requirements, received: set<ReadOutput>, emitted: seq<ReadOutput>, next: nat) {
    && |prefix| <= |out| && out[..|prefix|] == prefix && Chain(emitted, start, next, out[|prefix|..])
    && (forall r :: r in emitted ==> r in received) && next <= end
    && ((next == end && forall r :: r in received ==> !r.eof) || OneEof(received, next))
    && (q.expectedEof.Some? ==> next == q.expectedEof.value.offset && OneEof(received, next))
    && (emitted != [] ==> WithinLimit(0, |out|, q.limit))
  }

  // ---------------------------------------------------------------- what the log says

  /** What the answers since `from`, taken in the order in which they came, make of `e`. */
  ghost function Replay(log: seq<Answer>, from: nat, e: Emit, q: Requirements): Emit {
    if |log| <= from then e
    else
      var m, last := Replay(log[..|log| - 1], from, e, q), log[|log| - 1];
      if !last.HandleRead? then m else if last.reply.Ok? then Record(m, last.reply.value, q) else Fail(m, last.reply.error)
  }

  /** The result of a read whose answers were taken. */
  function Concluded(e: Emit, q: Requirements): Result<seq<Byte>, Error> {
    match Finish(e, q)
    case Err(x) => Err(x)
    case Ok(_) => Ok(e.out)
  }

  /** Nothing read yet, after `prefix`. */
  function Begin(prefix: seq<Byte>, start: nat): Emit {
    Emit(prefix, [], start, None, None, None, [])
  }

  lemma ReplayPush(log: seq<Answer>, from: nat, e: Emit, q: Requirements, fh: nat, read: Result<ReadOutput, Error>)
    requires from <= |log|
    ensures Replay(log + [HandleRead(fh, read)], from, e, q)
         == if read.Ok? then Record(Replay(log, from, e, q), read.value, q) else Fail(Replay(log, from, e, q), read.error)
  {
    hide Record, Fail;
    assert (log + [HandleRead(fh, read)])[..|log|] == log;
  }

  /** The first answer that is an error is the one the caller is told. */
  ghost predicate Tells(log: seq<Answer>, from: nat, r: Result<seq<Byte>, Error>) {
    forall i: nat :: FirstFailure(log, from, i) ==> r == Err(log[i].Failure())
  }

  /** The error a read ends with if answer `i` is the first failed one: that one, unless an earlier reply
      had already raised an error of its own. */
  ghost function Told(log: seq<Answer>, from: nat, i: nat, e: Emit, q: Requirements): Error
    requires i < |log| && log[i].Failed()
  {
    var raised := Replay(log[..i], from, e, q).error;
    if raised.Some? then raised.value else log[i].Failure()
  }

  lemma {:induction false} ReplayTells(log: seq<Answer>, from: nat, i: nat, e: Emit, q: Requirements, fh: nat)
    requires FirstFailure(log, from, i) && ReadsOf(fh, log, from)
    ensures Replay(log, from, e, q).error == Some(Told(log, from, i, e, q))
    decreases |log|
  {
    hide Record;
    var init, last := log[..|log| - 1], log[|log| - 1];
    if i < |init| {
      ReplayTells(init, from, i, e, q, fh);
      assert init[..i] == log[..i];
      if last.reply.Ok? {
        RecordKeepsError(Replay(init, from, e, q), last.reply.value, q);
      }
    } else {
      assert init == log[..i];
    }
  }

  /** A read that ends as its log says ends with the first failure, or with what was raised before it. */
  lemma FailureTold(log: seq<Answer>, from: nat, i: nat, e: Emit, q: Requirements, fh: nat)
    requires FirstFailure(log, from, i) && ReadsOf(fh, log, from)
    ensures Concluded(Replay(log, from, e, q), q) == Err(Told(log, from, i, e, q))
  {
    hide Replay, Told;
    ReplayTells(log, from, i, e, q, fh);
  }

  // ---------------------------------------------------------------- the pipelined loop

  lemma ScheduleFresh(e: Emit, flying: seq<Range>, at: nat, to: nat, prefix: seq<Byte>, start: nat, received: set<ReadOutput>, q: Requirements)
    requires Sound(e, flying, [], at, prefix, start, received, q) && at < to
    ensures Sound(e, flying + [Range(at, to)], [], to, prefix, start, received, q)
  {
    hide EofKnown, Emitted;
    forall p: nat
      ensures Owned(e, flying + [Range(at, to)], [], to, p)
    {
      assert Owned(e, flying, [], at, p);
      HitsAppend(flying, Range(at, to), p);
    }
  }

  lemma ScheduleGap(e: Emit, flying: seq<Range>, gaps: seq<Range>, gap: Range, at: nat, prefix: seq<Byte>, start: nat, received: set<ReadOutput>, q: Requirements)
    requires Sound(e, flying, gaps + [gap], at, prefix, start, received, q)
    ensures Sound(e, flying + [gap], gaps, at, prefix, start, received, q)
  {
    hide EofKnown, Emitted;
    forall p: nat
      ensures Owned(e, flying + [gap], gaps, at, p)
    {
      assert Owned(e, flying, gaps + [gap], at, p);
      GapOwners(e, flying, gaps, gap, p);
    }
  }

  lemma GapOwners(e: Emit, flying: seq<Range>, gaps: seq<Range>, gap: Range, p: nat)
    ensures Owners(e, flying + [gap], gaps, p) == Owners(e, flying, gaps + [gap], p)
  {
    hide ClaimsOf;
    HitsAppend(flying, gap, p);
    HitsAppend(gaps, gap, p);
  }

  lemma StartSound(prefix: seq<Byte>, start: nat, q: Requirements)
    ensures var e := Emit(prefix, [], start, None, None, None, []); Sound(e, [], [], start, prefix, start, {}, q) && Waiting(e)
  {
    var e := Emit(prefix, [], start, None, None, None, []);
    forall p: nat
      ensures Owned(e, [], [], start, p)
    {
    }
  }

  lemma FinishGathered(e: Emit, at: nat, end: nat, q: Requirements, prefix: seq<Byte>, start: nat, received: set<ReadOutput>)
    requires Sound(e, [], [], at, prefix, start, received, q) && Waiting(e) && (e.upper.Some? || at == end) && at <= end && Finish(e, q).Ok?
    ensures Gathered(e.out, prefix, start, end, q, received, e.emitted, e.next)
  {
    hide EofKnown, Chain;
    FinishMeans(e, at, end, q, prefix, start, received);
  }

  /** Everything the loop keeps true. */
  ghost predicate Invariant(e: Emit, flying: seq<Range>, gaps: seq<Range>, at: nat, end: nat, chunk: nat, prefix: seq<Byte>, start: nat,
                            received: set<ReadOutput>, q: Requirements, file: seq<Byte>, honest: bool) {
    && Fits(flying, chunk) && Fits(gaps, chunk) && at <= end
    && (e.error.None? ==> Sound(e, flying, gaps, at, prefix, start, received, q) && Waiting(e))
    && (honest ==> HonestSoFar(e, file, start, at, end, prefix, q) && forall r :: r in received ==> Honest(file, r))
  }

  method Schedule(emit: PipelinedEmit, scheduler: ChunkScheduler, flying0: seq<Range>, depth: nat,
                  ghost prefix: seq<Byte>, ghost start: nat, ghost received: set<ReadOutput>, ghost file: seq<Byte>, ghost honest: bool)
    returns (flying: seq<Range>)
    requires 0 < depth && 0 < scheduler.chunkSize
    requires Invariant(emit.Now(), flying0, scheduler.gaps, scheduler.nextOffset, scheduler.end, scheduler.chunkSize, prefix, start, received, emit.requirements, file, honest)
    modifies scheduler
    ensures Invariant(emit.Now(), flying, scheduler.gaps, scheduler.nextOffset, scheduler.end, scheduler.chunkSize, prefix, start, received, emit.requirements, file, honest)
    ensures Bytes(flying) + Bytes(scheduler.gaps) + (scheduler.end - scheduler.nextOffset) == old(Bytes(flying0) + Bytes(scheduler.gaps) + (scheduler.end - scheduler.nextOffset))
    ensures flying == [] && emit.firstError.None? ==> scheduler.gaps == [] && (emit.eofUpperBound.Some? || scheduler.nextOffset == scheduler.end)
  {
    hide Sound, Waiting, HonestSoFar, Bytes;
    flying := flying0;
    ghost var e, q := emit.Now(), emit.requirements;
    while emit.firstError.None? && |flying| < depth
      invariant Invariant(e, flying, scheduler.gaps, scheduler.nextOffset, scheduler.end, scheduler.chunkSize, prefix, start, received, q, file, honest)
      invariant Bytes(flying) + Bytes(scheduler.gaps) + (scheduler.end - scheduler.nextOffset) == old(Bytes(flying0) + Bytes(scheduler.gaps) + (scheduler.end - scheduler.nextOffset))
      decreases depth - |flying|
    {
      ghost var gaps0, at0 := scheduler.gaps, scheduler.nextOffset;
      var range := scheduler.NextRange(emit.eofUpperBound.Some?);
      if range.None? {
        return;
      }
      HitsAppend(flying, range.value, 0);
      if gaps0 != [] {
        HitsAppend(scheduler.gaps, range.value, 0);
        ScheduleGap(e, flying, scheduler.gaps, range.value, at0, prefix, start, received, q);
      } else {
        ScheduleFresh(e, flying, at0, scheduler.nextOffset, prefix, start, received, q);
      }
      LaterHonest(e, file, start, at0, scheduler.nextOffset, scheduler.end, prefix, q);
      flying := flying + [range.value];
    }
  }

  lemma LaterHonest(e: Emit, file: seq<Byte>, start: nat, at: nat, to: nat, end: nat, prefix: seq<Byte>, q: Requirements)
    requires at <= to
    ensures HonestSoFar(e, file, start, at, end, prefix, q) ==> HonestSoFar(e, file, start, to, end, prefix, q)
  {
  }

  /** One of the requests in flight is answered. */
  method TakeAnswer(net: Connection, ghost fh: nat, emit: PipelinedEmit, scheduler: ChunkScheduler, flying0: seq<Range>, ghost before: seq<Answer>,
                    ghost e0: Emit, ghost prefix: seq<Byte>, ghost start: nat, ghost received0: set<ReadOutput>, ghost honest0: bool)
    returns (flying: seq<Range>, ghost received: set<ReadOutput>, ghost honest: bool)
    requires flying0 != [] && Logged(net, before, fh, honest0, received0) && emit.Now() == Replay(net.log, |before|, e0, emit.requirements)
    requires Invariant(emit.Now(), flying0, scheduler.gaps, scheduler.nextOffset, scheduler.end, scheduler.chunkSize, prefix, start, received0, emit.requirements, net.world.File(fh), honest0)
    modifies net`log, emit, scheduler`gaps
    ensures Logged(net, before, fh, honest, received) && |net.log| == |old(net.log)| + 1
    ensures emit.Now() == Replay(net.log, |before|, e0, emit.requirements)
    ensures Invariant(emit.Now(), flying, scheduler.gaps, scheduler.nextOffset, scheduler.end, scheduler.chunkSize, prefix, start, received, emit.requirements, net.world.File(fh), honest)
    ensures Bytes(flying) + Bytes(scheduler.gaps) < Bytes(flying0) + Bytes(old(scheduler.gaps))
  {
    hide Invariant, Record, Bytes, Received, AllAnswered, ReadsOf, Answer.Answered, SwapRemove, Honest, Replay, Fail;
    ghost var e, gaps, at, end, chunk, q, file := emit.Now(), scheduler.gaps, scheduler.nextOffset, scheduler.end, scheduler.chunkSize, emit.requirements, net.world.File(fh);
    var i :| 0 <= i < |flying0|;
    FlyingRange(e, flying0, gaps, at, end, chunk, prefix, start, received0, q, file, honest0, i);
    HitsSwapRemove(flying0, i, 0);
    ghost var log := net.log;
    var read := net.Read(fh, flying0[i].lo, flying0[i].hi - flying0[i].lo);
    LoggedPush(net, before, log, fh, honest0, received0, read);
    ReplayPush(log, |before|, e0, q, fh, read);
    honest := honest0 && HandleRead(fh, read).Answered(net.world);
    InvariantWeaker(e, flying0, gaps, at, end, chunk, prefix, start, received0, q, file);
    received := received0;
    if read.Ok? {
      Recorded(e, flying0, gaps, at, end, chunk, i, read.value, q, prefix, start, received0, file, honest);
      if read.value.Gap().Some? {
        HitsAppend(gaps, read.value.Gap().value, 0);
        scheduler.PushGap(read.value.Gap().value);
      }
      emit.RecordRead(read.value);
      received := received + {read.value};
    } else {
      emit.RecordError(read.error);
      Failed(e, flying0, gaps, at, end, chunk, i, read.error, q, prefix, start, received0, file);
      assert received0 + {} == received0;
    }
    flying := SwapRemove(flying0, i);
  }

  /** Up to `depth` READs in flight, answered in any order. */
  method ReadPipelined(net: Connection, ghost fh: nat, prefix: seq<Byte>, start: nat, total: nat, chunkSize: nat, depth: nat, requirements: Requirements)
    returns (r: Result<seq<Byte>, Error>, ghost emitted: seq<ReadOutput>, ghost next: nat)
    requires 0 < chunkSize && 0 < depth && 0 < total
    modifies net`log
    ensures old(net.log) <= net.log && ReadsOf(fh, net.log, |old(net.log)|)
    ensures |net.log| <= |old(net.log)| + total
    ensures r.Ok? ==> Gathered(r.value, prefix, start, start + total, requirements, Received(net.log, |old(net.log)|), emitted, next)
    ensures AllAnswered(net.world, net.log, |old(net.log)|) ==> r == ReadResult(net.world.File(fh), start, start + total, prefix, requirements)
    ensures r == Concluded(Replay(net.log, |old(net.log)|, Begin(prefix, start), requirements), requirements)
  {
    hide Invariant, Bytes, Finish, Gathered, ReadResult, Received, AllAnswered, ReadsOf, Replay;
    ghost var file, n0, honest, received: set<ReadOutput> := net.world.File(fh), |net.log|, true, {};
    NothingYet(net, fh);
    NothingReplayed(net.log, Begin(prefix, start), requirements);
    var scheduler := new ChunkScheduler(start, start + total, chunkSize);
    var emit := new PipelinedEmit(prefix, start, requirements);
    var flying: seq<Range> := [];
    StartInvariant(prefix, start, start + total, chunkSize, requirements, file);
    NoBytes();
    ghost var end, q := start + total, requirements;
    while true
      invariant fresh(scheduler) && fresh(emit) && scheduler.end == end && scheduler.chunkSize == chunkSize && emit.requirements == q
      invariant Invariant(emit.Now(), flying, scheduler.gaps, scheduler.nextOffset, end, chunkSize, prefix, start, received, q, file, honest)
      invariant Logged(net, old(net.log), fh, honest, received) && emit.Now() == Replay(net.log, |old(net.log)|, Begin(prefix, start), q)
      invariant |net.log| - n0 + Bytes(flying) + Bytes(scheduler.gaps) + (end - scheduler.nextOffset) <= total
      decreases Bytes(flying) + Bytes(scheduler.gaps) + (end - scheduler.nextOffset)
    {
      flying := Schedule(emit, scheduler, flying, depth, prefix, start, received, file, honest);
      Within(emit.Now(), flying, scheduler.gaps, scheduler.nextOffset, end, chunkSize, prefix, start, received, q, file, honest);
      if flying == [] {
        break;
      }
      flying, received, honest := TakeAnswer(net, fh, emit, scheduler, flying, old(net.log), Begin(prefix, start), prefix, start, received, honest);
    }
    emitted, next := emit.emitted, emit.nextOffset;
    var done := emit.FinishReads();
    Ended(emit.Now(), scheduler.gaps, scheduler.nextOffset, end, chunkSize, q, prefix, start, received, file, honest);
    if done.Err? {
      return Err(done.error), emitted, next;
    }
    return Ok(emit.out), emitted, next;
  }

  lemma Within(e: Emit, flying: seq<Range>, gaps: seq<Range>, at: nat, end: nat, chunk: nat, prefix: seq<Byte>, start: nat,
               received: set<ReadOutput>, q: Requirements, file: seq<Byte>, honest: bool)
    requires Invariant(e, flying, gaps, at, end, chunk, prefix, start, received, q, file, honest)
    ensures at <= end
  {
    hide Sound, Waiting, HonestSoFar;
  }

  /** What the log says since `before`: READs of one file only, whether all were answered honestly, and
      what was received. */
  ghost predicate Logged(net: Connection, before: seq<Answer>, fh: nat, honest: bool, received: set<ReadOutput>)
    reads net
  {
    && before <= net.log && ReadsOf(fh, net.log, |before|)
    && honest == AllAnswered(net.world, net.log, |before|) && received == Received(net.log, |before|)
  }

  /** One more answer in the log. */
  lemma LoggedPush(net: Connection, before: seq<Answer>, log: seq<Answer>, fh: nat, honest: bool, received: set<ReadOutput>, read: Result<ReadOutput, Error>)
    requires before <= log && ReadsOf(fh, log, |before|) && net.log == log + [HandleRead(fh, read)]
    requires honest == AllAnswered(net.world, log, |before|) && received == Received(log, |before|)
    ensures Logged(net, before, fh, honest && HandleRead(fh, read).Answered(net.world), received + if read.Ok? then {read.value} else {})
    ensures HandleRead(fh, read).Answered(net.world) <==> read.Ok? && Honest(net.world.File(fh), read.value)
  {
    hide AllAnswered, Received;
    LogPush(net.world, log, HandleRead(fh, read), |before|);
  }

  lemma StartInvariant(prefix: seq<Byte>, start: nat, end: nat, chunk: nat, q: Requirements, file: seq<Byte>)
    requires start <= end
    ensures Invariant(Emit(prefix, [], start, None, None, None, []), [], [], start, end, chunk, prefix, start, {}, q, file, true)
  {
    hide Sound, Waiting, HonestSoFar;
    StartSound(prefix, start, q);
    StartHonest(prefix, start, end, q, file);
  }

  lemma FlyingRange(e: Emit, flying: seq<Range>, gaps: seq<Range>, at: nat, end: nat, chunk: nat, prefix: seq<Byte>, start: nat,
                    received: set<ReadOutput>, q: Requirements, file: seq<Byte>, honest: bool, i: nat)
    requires Invariant(e, flying, gaps, at, end, chunk, prefix, start, received, q, file, honest) && i < |flying|
    ensures flying[i].lo < flying[i].hi
  {
    hide Sound, Waiting, HonestSoFar;
  }

  lemma InvariantWeaker(e: Emit, flying: seq<Range>, gaps: seq<Range>, at: nat, end: nat, chunk: nat, prefix: seq<Byte>, start: nat,
                        received: set<ReadOutput>, q: Requirements, file: seq<Byte>)
    ensures Invariant(e, flying, gaps, at, end, chunk, prefix, start, received, q, file, true)
        ==> Invariant(e, flying, gaps, at, end, chunk, prefix, start, received, q, file, false)
  {
    hide Sound, Waiting, HonestSoFar;
  }

  lemma NothingReplayed(log: seq<Answer>, e: Emit, q: Requirements)
    ensures Replay(log, |log|, e, q) == e
  {
  }

  lemma NothingYet(net: Connection, fh: nat)
    ensures Logged(net, net.log, fh, true, {})
  {
  }

  lemma NoBytes()
    ensures Bytes([]) == 0
  {
  }

  lemma StartHonest(prefix: seq<Byte>, start: nat, end: nat, q: Requirements, file: seq<Byte>)
    ensures HonestSoFar(Emit(prefix, [], start, None, None, None, []), file, start, start, end, prefix, q)
  {
  }

  lemma FitsRemoved(s: seq<Range>, i: nat, chunk: nat)
    requires Fits(s, chunk) && i < |s|
    ensures Fits(SwapRemove(s, i), chunk)
  {
  }

  /** A reply keeps the invariant. */
  lemma Recorded(e: Emit, flying: seq<Range>, gaps: seq<Range>, at: nat, end: nat, chunk: nat, i: nat, r: ReadOutput, q: Requirements,
                 prefix: seq<Byte>, start: nat, received: set<ReadOutput>, file: seq<Byte>, honest: bool)
    requires Invariant(e, flying, gaps, at, end, chunk, prefix, start, received, q, file, honest)
    requires i < |flying| && flying[i] == Range(r.offset, r.offset + r.requested) && r.Acceptable() && (honest ==> Honest(file, r))
    ensures Invariant(Record(e, r, q), SwapRemove(flying, i), AddGap(gaps, r), at, end, chunk, prefix, start, received + {r}, q, file, honest)
    ensures Width(r.Claim()) > 0 && (r.Gap().Some? ==> Width(r.Gap().value) < Width(flying[i]))
  {
    hide Sound, Waiting, HonestSoFar, Record, SwapRemove;
    FitsRemoved(flying, i, chunk);
    assert Fits(AddGap(gaps, r), chunk);
    var f := Record(e, r, q);
    RecordKeepsError(e, r, q);
    if e.error.None? {
      if f.error.None? {
        RecordSound(e, flying, gaps, at, i, r, q, prefix, start, received);
      }
      if honest {
        RecordHonest(e, flying, gaps, at, end, i, r, q, prefix, start, received, file);
      }
    } else if honest {
      HonestStays(e, f, file, start, at, end, prefix, q);
    }
  }

  lemma RecordKeepsError(e: Emit, r: ReadOutput, q: Requirements)
    ensures e.error.Some? ==> Record(e, r, q).error == e.error
  {
    hide Drain, EmitOne, ObserveRead;
    if e.error.Some? {
      var f := Observe(e, r);
      ObserveStays(e, r);
      EmitStays(f, r, q);
      DrainKeepsError(EmitOne(f, r, q), q);
    }
  }

  lemma ObserveStays(e: Emit, r: ReadOutput)
    requires e.error.Some?
    ensures Observe(e, r).error == e.error
  {
  }

  lemma EmitStays(e: Emit, r: ReadOutput, q: Requirements)
    requires e.error.Some?
    ensures EmitOne(e, r, q).error == e.error
  {
  }

  lemma HonestStays(e: Emit, f: Emit, file: seq<Byte>, start: nat, at: nat, end: nat, prefix: seq<Byte>, q: Requirements)
    requires e.error.Some? && f.error == e.error && HonestSoFar(e, file, start, at, end, prefix, q)
    ensures HonestSoFar(f, file, start, at, end, prefix, q)
  {
  }

  /** A failed READ stops the scheduling but not the requests in flight. */
  lemma Failed(e: Emit, flying: seq<Range>, gaps: seq<Range>, at: nat, end: nat, chunk: nat, i: nat, err: Error, q: Requirements,
               prefix: seq<Byte>, start: nat, received: set<ReadOutput>, file: seq<Byte>)
    requires Invariant(e, flying, gaps, at, end, chunk, prefix, start, received, q, file, false) && i < |flying|
    ensures Invariant(Fail(e, err), SwapRemove(flying, i), gaps, at, end, chunk, prefix, start, received, q, file, false)
  {
    hide Sound, Waiting, HonestSoFar, SwapRemove;
    FitsRemoved(flying, i, chunk);
  }

  lemma Ended(e: Emit, gaps: seq<Range>, at: nat, end: nat, chunk: nat, q: Requirements, prefix: seq<Byte>, start: nat, received: set<ReadOutput>, file: seq<Byte>, honest: bool)
    requires Invariant(e, [], gaps, at, end, chunk, prefix, start, received, q, file, honest) && start < end
    requires e.error.None? ==> gaps == [] && (e.upper.Some? || at == end)
    ensures Finish(e, q).Ok? ==> Gathered(e.out, prefix, start, end, q, received, e.emitted, e.next)
    ensures honest ==> ReadResult(file, start, end, prefix, q) == (if Finish(e, q).Ok? then Ok(e.out) else Err(Finish(e, q).error))
  {
    hide Sound, Waiting, HonestSoFar, ReadResult, Gathered;
    if Finish(e, q).Ok? {
      FinishGathered(e, at, end, q, prefix, start, received);
    }
    if honest {
      FinishHonest(e, at, end, q, prefix, start, received, file);
    }
  }

  // ---------------------------------------------------------------- the plain loop

  /** Everything the plain loop keeps true. */
  ghost predicate Reading(out: seq<Byte>, prefix: seq<Byte>, start: nat, next: nat, emitted: seq<ReadOutput>, received: set<ReadOutput>,
                          observedEof: Option<nat>, q: Requirements, file: seq<Byte>, honest: bool) {
    && |prefix| <= |out| && out[..|prefix|] == prefix && Chain(emitted, start, next, out[|prefix|..])
    && (forall x :: x in emitted ==> x in received) && (emitted != [] ==> WithinLimit(0, |out|, q.limit))
    && (observedEof.None? ==> forall x :: x in received ==> !x.eof && x.End() <= next)
    && (observedEof.Some? ==> observedEof.value == next && OneEof(received, next))
    && (honest ==> (forall x :: x in received ==> Honest(file, x)) && (observedEof.Some? ==> next == Max(start, |file|)))
  }

  lemma ReadingHonest(out: seq<Byte>, prefix: seq<Byte>, start: nat, next: nat, emitted: seq<ReadOutput>, received: set<ReadOutput>,
                      observedEof: Option<nat>, q: Requirements, file: seq<Byte>)
    requires Reading(out, prefix, start, next, emitted, received, observedEof, q, file, true)
    ensures start <= next <= Max(start, |file|) && |out| == |prefix| + (next - start)
    ensures out == prefix + (if next > start then file[start..next] else [])
    ensures observedEof.None? && next > start ==> next < |file|
    ensures next > start ==> WithinLimit(0, |out|, q.limit)
  {
    ChainHonest(emitted, start, next, out[|prefix|..], file);
    assert out == prefix + out[|prefix|..];
  }

  lemma ReadingStep(out: seq<Byte>, prefix: seq<Byte>, start: nat, emitted: seq<ReadOutput>, received: set<ReadOutput>,
                    q: Requirements, file: seq<Byte>, honest: bool, r: ReadOutput)
    requires Reading(out, prefix, start, r.offset, emitted, received, None, q, file, honest) && (honest ==> Honest(file, r))
    requires WithinLimit(|out|, |r.data|, q.limit) || r.data == []
    ensures Reading(out + r.data, prefix, start, r.End(), if r.data == [] then emitted else emitted + [r], received + {r},
                    if r.eof then Some(r.End()) else None, q, file, honest)
  {
    hide Chain, OneEof;
    if honest {
      ReadingHonest(out, prefix, start, r.offset, emitted, received, None, q, file);
    }
    ReceivedStep(received, r);
    if r.data == [] {
      assert out + r.data == out;
    } else {
      ChainStep(emitted, start, r, out[|prefix|..]);
      assert (out + r.data)[|prefix|..] == out[|prefix|..] + r.data;
    }
  }

  /** A first EOF is the one EOF. */
  lemma ReceivedStep(received: set<ReadOutput>, r: ReadOutput)
    requires forall x :: x in received ==> !x.eof && x.End() <= r.offset
    ensures if r.eof then OneEof(received + {r}, r.End()) else forall x :: x in received + {r} ==> !x.eof && x.End() <= r.End()
  {
    assert r in received + {r};
  }

  lemma ReadingEnds(out: seq<Byte>, prefix: seq<Byte>, start: nat, end: nat, next: nat, emitted: seq<ReadOutput>, received: set<ReadOutput>,
                    observedEof: Option<nat>, q: Requirements, file: seq<Byte>, honest: bool)
    requires Reading(out, prefix, start, next, emitted, received, observedEof, q, file, honest) && next <= end && start < end
    requires observedEof.Some? || next == end
    ensures ValidateObservedEof(q.expectedEof, observedEof).Ok? ==> Gathered(out, prefix, start, end, q, received, emitted, next)
    ensures honest && ValidateObservedEof(q.expectedEof, observedEof).Ok? ==> ReadResult(file, start, end, prefix, q) == Ok(out)
    ensures honest && ValidateObservedEof(q.expectedEof, observedEof).Err? ==>
      ReadResult(file, start, end, prefix, q) == Err(ValidateObservedEof(q.expectedEof, observedEof).error)
  {
    hide Chain;
    if honest {
      ReadingHonest(out, prefix, start, next, emitted, received, observedEof, q, file);
    }
  }

  /** One READ after the other until the end or EOF. */
  method ReadSequential(net: Connection, ghost fh: nat, prefix: seq<Byte>, start: nat, total: nat, chunkSize: nat, requirements: Requirements)
    returns (r: Result<seq<Byte>, Error>, ghost emitted: seq<ReadOutput>, ghost next: nat)
    requires 0 < chunkSize && 0 < total
    modifies net`log
    ensures old(net.log) <= net.log && ReadsOf(fh, net.log, |old(net.log)|)
    ensures r.Ok? ==> Gathered(r.value, prefix, start, start + total, requirements, Received(net.log, |old(net.log)|), emitted, next)
    ensures AllAnswered(net.world, net.log, |old(net.log)|) ==> r == ReadResult(net.world.File(fh), start, start + total, prefix, requirements)
    ensures r == Concluded(Replay(net.log, |old(net.log)|, Begin(prefix, start), requirements), requirements)
    ensures Tells(net.log, |old(net.log)|, r)
  {
    hide Replay, Record, Concluded, Fail, InStep, Answer.Failed, Reading, Gathered, ReadResult, ValidateObservedEof, Received, AllAnswered;
    ghost var file, n0, honest, received: set<ReadOutput> := net.world.File(fh), |net.log|, true, {};
    NothingYet(net, fh);
    var out, offset, remaining, observedEof: Option<nat> := prefix, start, total, None;
    emitted, next := [], start;
    ReadingStarts(prefix, start, requirements, file);
    NothingReplayed(net.log, Begin(prefix, start), requirements);
    ghost var e := Begin(prefix, start);
    BeginsInStep(prefix, start);
    var stopped := false;
    while !stopped && remaining > 0
      invariant 0 <= remaining && offset + remaining == start + total && offset == next && start <= next
      invariant Reading(out, prefix, start, next, emitted, received, observedEof, requirements, file, honest)
      invariant stopped == observedEof.Some? && Logged(net, old(net.log), fh, honest, received)
      invariant e == Replay(net.log, n0, Begin(prefix, start), requirements) && InStep(e, out, offset, observedEof) && (observedEof.Some? ==> observedEof.value == offset)
      invariant forall i | n0 <= i < |net.log| :: !net.log[i].Failed()
      decreases remaining, !stopped
    {
      var count := Min(remaining, chunkSize);
      ghost var log := net.log;
      var read := net.Read(fh, offset, count);
      LogPush(net.world, log, HandleRead(fh, read), n0);
      ReplayPush(log, n0, Begin(prefix, start), requirements, fh, read);
      ReadFailed(fh, read);
      if read.Ok? {
        RecordInStep(e, out, offset, read.value, requirements);
      } else {
        FailConcludes(e, out, offset, read.error, requirements);
      }
      ReadingWeaker(out, prefix, start, next, emitted, received, observedEof, requirements, file, honest);
      honest := honest && HandleRead(fh, read).Answered(net.world);
      if read.Err? {
        return Err(read.error), emitted, next;
      }
      if read.value.data != [] && !WithinLimit(|out|, |read.value.data|, requirements.limit) {
        if honest {
          ReadingTooMuch(out, prefix, start, start + total, emitted, received, requirements, file, read.value);
        }
        return Err(BufferedReadTooLarge(requirements.expectedLen, requirements.limit.value)), emitted, next;
      }
      ReadingStep(out, prefix, start, emitted, received, requirements, file, honest, read.value);
      e := Record(e, read.value, requirements);
      received := received + {read.value};
      emitted := if read.value.data == [] then emitted else emitted + [read.value];
      if read.value.eof {
        observedEof := Some(offset + |read.value.data|);
      }
      offset := offset + |read.value.data|;
      remaining := remaining - |read.value.data|;
      out := out + read.value.data;
      next := offset;
      stopped := read.value.eof;
    }
    ReadingEnds(out, prefix, start, start + total, next, emitted, received, observedEof, requirements, file, honest);
    StepsConclude(e, out, offset, observedEof, requirements);
    var valid := ValidateObservedEof(requirements.expectedEof, observedEof);
    if valid.Err? {
      return Err(valid.error), emitted, next;
    }
    return Ok(out), emitted, next;
  }

  /** Reassembly that gets its replies in order has nothing queued. */
  predicate InStep(e: Emit, out: seq<Byte>, offset: nat, eof: Option<nat>) {
    e.error.None? && e.completed == [] && e.out == out && e.next == offset && e.eofAt == eof == e.upper
  }

  lemma BeginsInStep(prefix: seq<Byte>, start: nat)
    ensures InStep(Begin(prefix, start), prefix, start, None)
  {
  }

  lemma RecordInStep(e: Emit, out: seq<Byte>, offset: nat, r: ReadOutput, q: Requirements)
    requires InStep(e, out, offset, None) && r.offset == offset && r.Acceptable()
    ensures if r.data != [] && !WithinLimit(|out|, |r.data|, q.limit)
            then Concluded(Record(e, r, q), q) == Err(BufferedReadTooLarge(q.expectedLen, q.limit.value))
            else InStep(Record(e, r, q), out + r.data, r.End(), if r.eof then Some(r.End()) else None)
  {
    if r.data == [] {
      assert out + r.data == out;
    }
  }

  lemma FailConcludes(e: Emit, out: seq<Byte>, offset: nat, x: Error, q: Requirements)
    requires InStep(e, out, offset, None)
    ensures Concluded(Fail(e, x), q) == Err(x)
  {
  }

  lemma StepsConclude(e: Emit, out: seq<Byte>, offset: nat, eof: Option<nat>, q: Requirements)
    requires InStep(e, out, offset, eof) && (eof.Some? ==> eof.value == offset)
    ensures Concluded(e, q) == match ValidateObservedEof(q.expectedEof, eof) { case Err(x) => Err(x) case Ok(_) => Ok(out) }
  {
  }

  lemma ReadFailed(fh: nat, read: Result<ReadOutput, Error>)
    ensures HandleRead(fh, read).Failed() == read.Err? && (read.Err? ==> HandleRead(fh, read).Failure() == read.error)
  {
  }

  lemma ReadingStarts(prefix: seq<Byte>, start: nat, q: Requirements, file: seq<Byte>)
    ensures Reading(prefix, prefix, start, start, [], {}, None, q, file, true)
  {
  }

  lemma ReadingWeaker(out: seq<Byte>, prefix: seq<Byte>, start: nat, next: nat, emitted: seq<ReadOutput>, received: set<ReadOutput>,
                      observedEof: Option<nat>, q: Requirements, file: seq<Byte>, honest: bool)
    requires Reading(out, prefix, start, next, emitted, received, observedEof, q, file, honest)
    ensures Reading(out, prefix, start, next, emitted, received, observedEof, q, file, false)
  {
    hide Chain;
  }

  lemma ReadingTooMuch(out: seq<Byte>, prefix: seq<Byte>, start: nat, end: nat, emitted: seq<ReadOutput>, received: set<ReadOutput>,
                       q: Requirements, file: seq<Byte>, r: ReadOutput)
    requires Reading(out, prefix, start, r.offset, emitted, received, None, q, file, true) && Honest(file, r) && r.End() <= end
    requires r.data != [] && !WithinLimit(|out|, |r.data|, q.limit)
    ensures ReadResult(file, start, end, prefix, q) == Err(BufferedReadTooLarge(q.expectedLen, q.limit.value))
  {
    ReadingHonest(out, prefix, start, r.offset, emitted, received, None, q, file);
  }
}
