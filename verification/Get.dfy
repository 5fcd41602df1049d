/** `get` and `get_known_size` (src/client.rs) while the path may be rebound between RPCs. Files are
    immutable once published; a path compound resolves the path once and reads what it resolved. */
module Get {
  import opened Errors
  import opened Server
  import opened Reassembly
  import opened HonestRead
  import opened Answers
  import opened PipelinedRead

  /** Honest replies make the gathered bytes the file's, and a met EOF expectation its size. */
  lemma GatheredIsPart(out: seq<Byte>, prefix: seq<Byte>, start: nat, end: nat, q: Requirements, received: set<ReadOutput>, emitted: seq<ReadOutput>, next: nat, file: seq<Byte>)
    requires Gathered(out, prefix, start, end, q, received, emitted, next) && start < end && forall r :: r in received ==> Honest(file, r)
    ensures out == prefix + Part(file, start, end)
    ensures q.expectedEof.Some? && q.expectedEof.value.offset == end ==> |file| == end
  {
    ChainHonest(emitted, start, next, out[|prefix|..], file);
    assert out == prefix + out[|prefix|..];
  }

  datatype Limits = Limits(granularity: nat, chunkSize: nat, depth: nat, maxBuffered: Option<nat>)
  {
    predicate Valid() {
      0 < granularity && 0 < chunkSize && 0 < depth
    }
  }

  predicate Exact(q: Requirements, end: nat) {
    q.expectedEof.Some? && q.expectedEof.value.offset == end
  }

  function ValidateExpectedEof(expected: Option<ExpectedEof>, observedEnd: nat, eof: bool): (r: Result<bool, Error>)
    ensures r.Ok? <==> (expected.Some? ==> if eof then observedEnd == expected.value.offset else observedEnd < expected.value.offset)
  {
    if expected.None? then Ok(true)
    else if eof then (if observedEnd == expected.value.offset then Ok(true) else Err(SizeExpectationError(expected.value, Some(observedEnd))))
    else if observedEnd >= expected.value.offset then Err(SizeExpectationError(expected.value, None))
    else Ok(true)
  }

  /** What an honest file makes of a read of `[start, end)`. */
  predicate Faithful(r: Result<seq<Byte>, Error>, file: seq<Byte>, prefix: seq<Byte>, start: nat, end: nat, q: Requirements) {
    r.Ok? ==> r.value == prefix + Part(file, start, end) && (Exact(q, end) ==> |file| == end)
  }

  /** Expectations the callers use: none, or an EOF exactly at the end of the range. */
  predicate Plain(q: Requirements, end: nat) {
    q.expectedEof.None? || Exact(q, end)
  }

  /** Of a read that goes on from `e` with the answers from `at` on: the first failed answer is the one the
      caller is told, unless a reply since `at` had already raised an error of its own. */
  ghost predicate TellsAfter(log: seq<Answer>, from: nat, at: nat, e: Emit, q: Requirements, r: Result<seq<Byte>, Error>) {
    forall i: nat :: FirstFailure(log, from, i) ==> r == Err(if at <= i then Told(log, at, i, e, q) else log[i].Failure())
  }

  /** Where a read goes on after the path READ logged at `at`. */
  ghost function Resumed(log: seq<Answer>, at: nat): Emit {
    if at < |log| && log[at].PathRead? && log[at].reply.Ok? then Begin(log[at].reply.value.data, log[at].reply.value.End()) else Begin([], 0)
  }

  lemma ConcludedTells(log: seq<Answer>, from: nat, fh: nat, e: Emit, q: Requirements, r: Result<seq<Byte>, Error>)
    requires ReadsOf(fh, log, from) && r == Concluded(Replay(log, from, e, q), q)
    ensures TellsAfter(log, from, from, e, q, r)
  {
    hide Replay, Concluded, Told, Answer.Failed;
    forall i: nat | FirstFailure(log, from, i)
      ensures r == Err(Told(log, from, i, e, q))
    {
      FailureTold(log, from, i, e, q, fh);
    }
  }

  /** Before a later part there was an answer that did not fail. */
  lemma TellsLater(before: seq<Answer>, a: Answer, log: seq<Answer>, at: nat, e: Emit, q: Requirements, r: Result<seq<Byte>, Error>)
    requires before + [a] <= log && !a.Failed()
    ensures TellsAfter(log, |before| + 1, at, e, q, r) ==> TellsAfter(log, |before|, at, e, q, r)
    ensures Tells(log, |before| + 1, r) ==> Tells(log, |before|, r)
  {
    hide Told, Answer.Failed;
    assert log[|before|] == a;
    forall i: nat | FirstFailure(log, |before|, i)
      ensures FirstFailure(log, |before| + 1, i)
    {
    }
  }

  /** Nothing but this answer since. */
  lemma OnlyAnswer(before: seq<Answer>, a: Answer, log: seq<Answer>)
    requires log == before + [a]
    ensures forall i: nat :: FirstFailure(log, |before|, i) ==> i == |before| && log[i] == a && a.Failed()
  {
    hide Answer.Failed;
  }

  /** Reads the rest of a file by handle after `prefix`. */
  method ReadAfterPrefix(net: Connection, ghost fh: nat, limits: Limits, prefix: seq<Byte>, start: nat, remaining: nat, q: Requirements)
    returns (r: Result<seq<Byte>, Error>)
    requires limits.Valid() && 0 < remaining
    modifies net`log
    ensures old(net.log) <= net.log
    ensures AllTruthful(net.world, net.log, |old(net.log)|) ==> Faithful(r, net.world.File(fh), prefix, start, start + remaining, q)
    ensures AllAnswered(net.world, net.log, |old(net.log)|) ==> r == ReadResult(net.world.File(fh), start, start + remaining, prefix, q)
    ensures TellsAfter(net.log, |old(net.log)|, |old(net.log)|, Begin(prefix, start), q, r)
  {
    hide ReadResult, Honest, Gathered, AllAnswered, AllTruthful, Part, Received, Replay, Concluded, FirstFailure, Told;
    ghost var emitted, next;
    if remaining <= limits.granularity || limits.depth <= 1 {
      r, emitted, next := ReadSequential(net, fh, prefix, start, remaining, limits.chunkSize, q);
    } else {
      r, emitted, next := ReadPipelined(net, fh, prefix, start, remaining, limits.granularity, limits.depth, q);
    }
    ConcludedTells(net.log, |old(net.log)|, fh, Begin(prefix, start), q, r);
    if r.Ok? && AllTruthful(net.world, net.log, |old(net.log)|) {
      ReceivedHonest(net.world, net.log, |old(net.log)|, fh);
      GatheredIsPart(r.value, prefix, start, start + remaining, q, Received(net.log, |old(net.log)|), emitted, next, net.world.File(fh));
    }
  }

  lemma WholeReply(x: ReadOutput, file: seq<Byte>)
    requires Honest(file, x) && (x.eof || |x.data| == x.requested) && |x.data| <= x.requested
    ensures x.data == Part(file, x.offset, x.offset + x.requested)
    ensures SeenEof(file, x.offset, x.offset + x.requested) == if x.eof then Some(x.End()) else None
  {
  }

  lemma PartsJoin(x: ReadOutput, file: seq<Byte>, end: nat)
    requires Honest(file, x) && !x.eof && x.End() <= end
    ensures x.data + Part(file, x.End(), end) == Part(file, x.offset, end)
    ensures SeenEof(file, x.End(), end) == SeenEof(file, x.offset, end)
  {
  }

  /** Checking one reply that answers the whole range is checking the range. */
  lemma WholeReplyResult(x: ReadOutput, file: seq<Byte>, q: Requirements)
    requires Honest(file, x) && (x.eof || |x.data| == x.requested) && |x.data| <= x.requested && 0 < x.requested
    requires Plain(q, x.offset + x.requested)
    ensures ReadResult(file, x.offset, x.offset + x.requested, [], q) ==
      if !WithinLimit(0, |x.data|, q.limit) then Err(BufferedReadTooLarge(q.expectedLen, q.limit.value))
      else if ValidateExpectedEof(q.expectedEof, x.End(), x.eof).Err? then Err(ValidateExpectedEof(q.expectedEof, x.End(), x.eof).error)
      else Ok(x.data)
  {
    WholeReply(x, file);
    assert [] + x.data == x.data;
  }

  /** Going on after a short first reply is reading the whole range. */
  lemma PrefixResult(x: ReadOutput, file: seq<Byte>, end: nat, q: Requirements)
    requires Honest(file, x) && !x.eof && x.End() < end && WithinLimit(0, |x.data|, q.limit)
    ensures ReadResult(file, x.End(), end, x.data, q) == ReadResult(file, x.offset, end, [], q)
  {
    PartsJoin(x, file, end);
    assert [] + Part(file, x.offset, end) == Part(file, x.offset, end);
  }

  lemma TooLongReply(x: ReadOutput, file: seq<Byte>, end: nat, q: Requirements)
    requires Honest(file, x) && x.End() <= end && !WithinLimit(0, |x.data|, q.limit)
    ensures ReadResult(file, x.offset, end, [], q) == Err(BufferedReadTooLarge(q.expectedLen, q.limit.value))
  {
  }

  /** Reads `remaining` bytes by handle: one READ if that suffices. */
  method ReadHandle(net: Connection, ghost fh: nat, limits: Limits, start: nat, remaining: nat, q: Requirements) returns (r: Result<seq<Byte>, Error>)
    requires limits.Valid()
    modifies net`log
    ensures old(net.log) <= net.log
    ensures remaining == 0 ==> r == Ok([]) && net.log == old(net.log)
    ensures 0 < remaining && AllTruthful(net.world, net.log, |old(net.log)|) ==> Faithful(r, net.world.File(fh), [], start, start + remaining, q)
    ensures 0 < remaining && AllAnswered(net.world, net.log, |old(net.log)|) && Plain(q, start + remaining) ==>
      r == ReadResult(net.world.File(fh), start, start + remaining, [], q)
    ensures 0 < remaining <= limits.granularity ==> Tells(net.log, |old(net.log)|, r)
    ensures remaining > limits.granularity ==> TellsAfter(net.log, |old(net.log)|, |old(net.log)|, Begin([], start), q, r)
  {
    hide ReadResult, Honest, Gathered, AllAnswered, AllTruthful, Part, Received, Replay, Concluded, FirstFailure, Told;
    if remaining == 0 {
      return Ok([]);
    }
    if remaining <= limits.granularity {
      r := ReadSingleChunk(net, fh, limits, start, remaining, q);
      return;
    }
    ghost var emitted, next;
    if limits.depth <= 1 {
      r, emitted, next := ReadSequential(net, fh, [], start, remaining, limits.chunkSize, q);
    } else {
      r, emitted, next := ReadPipelined(net, fh, [], start, remaining, limits.granularity, limits.depth, q);
    }
    ConcludedTells(net.log, |old(net.log)|, fh, Begin([], start), q, r);
    if r.Ok? && AllTruthful(net.world, net.log, |old(net.log)|) {
      ReceivedHonest(net.world, net.log, |old(net.log)|, fh);
      GatheredIsPart(r.value, [], start, start + remaining, q, Received(net.log, |old(net.log)|), emitted, next, net.world.File(fh));
    }
  }

  /** A first answer, and a log that went on from there. */
  lemma FirstAnswer(world: World, before: seq<Answer>, a: Answer, log: seq<Answer>)
    requires before + [a] <= log
    ensures AllTruthful(world, log, |before|) ==> a.Truthful(world) && AllTruthful(world, log, |before| + 1)
    ensures AllAnswered(world, log, |before|) ==> a.Answered(world) && AllAnswered(world, log, |before| + 1)
    ensures AllAnswered(world, log, |before|) ==> AllTruthful(world, log, |before|)
  {
    hide Answer.Answered, Answer.Truthful;
    assert log[|before|] == a;
    forall i | |before| <= i < |log|
      ensures log[i].Answered(world) ==> log[i].Truthful(world)
    {
      AnsweredIsTruthful(world, log[i]);
    }
  }

  lemma AnsweredIsTruthful(world: World, a: Answer)
    ensures a.Answered(world) ==> a.Truthful(world)
  {
    hide Answer.Truthful;
  }

  /** What one reply that needs no continuation is checked for. */
  function CheckReply(x: ReadOutput, q: Requirements): Result<seq<Byte>, Error> {
    if !WithinLimit(0, |x.data|, q.limit) then Err(BufferedReadTooLarge(q.expectedLen, q.limit.value))
    else
      match ValidateExpectedEof(q.expectedEof, x.End(), x.eof)
      case Err(e) => Err(e)
      case Ok(_) => Ok(x.data)
  }

  /** Reply checked, range read. */
  lemma CheckedReply(x: ReadOutput, file: seq<Byte>, q: Requirements)
    requires Honest(file, x) && x.Acceptable() && (x.eof || |x.data| == x.requested)
    ensures Faithful(CheckReply(x, q), file, [], x.offset, x.offset + x.requested, q)
    ensures Plain(q, x.offset + x.requested) ==> CheckReply(x, q) == ReadResult(file, x.offset, x.offset + x.requested, [], q)
  {
    hide ReadResult, Part, Honest;
    WholeReply(x, file);
    assert [] + x.data == x.data;
    if Plain(q, x.offset + x.requested) {
      WholeReplyResult(x, file, q);
    }
    if CheckReply(x, q).Ok? && Exact(q, x.offset + x.requested) {
      MetExpectation(x, file, q);
    }
  }

  method ReadSingleChunk(net: Connection, ghost fh: nat, limits: Limits, start: nat, count: nat, q: Requirements) returns (r: Result<seq<Byte>, Error>)
    requires limits.Valid() && 0 < count
    modifies net`log
    ensures old(net.log) <= net.log
    ensures AllTruthful(net.world, net.log, |old(net.log)|) ==> Faithful(r, net.world.File(fh), [], start, start + count, q)
    ensures AllAnswered(net.world, net.log, |old(net.log)|) && Plain(q, start + count) ==> r == ReadResult(net.world.File(fh), start, start + count, [], q)
    ensures Tells(net.log, |old(net.log)|, r)
  {
    hide ReadResult, ValidateExpectedEof, Part, Honest, AllAnswered, AllTruthful, Gathered, Received, Replay, Concluded, FirstFailure, Told;
    ghost var file, log := net.world.File(fh), net.log;
    var read := net.Read(fh, start, count);
    FirstAnswer(net.world, log, HandleRead(fh, read), net.log);
    OnlyAnswer(log, HandleRead(fh, read), net.log);
    if read.Err? {
      return Err(read.error);
    }
    var x := read.value;
    if !WithinLimit(0, |x.data|, q.limit) {
      if Honest(file, x) {
        TooLongReply(x, file, start + count, q);
      }
      return Err(BufferedReadTooLarge(q.expectedLen, q.limit.value));
    }
    if x.eof || |x.data| == count {
      if Honest(file, x) {
        CheckedReply(x, file, q);
      }
      var valid := ValidateExpectedEof(q.expectedEof, x.End(), x.eof);
      if valid.Err? {
        return Err(valid.error);
      }
      return Ok(x.data);
    }
    ghost var emitted, next;
    r, emitted, next := ReadSequential(net, fh, x.data, x.End(), count - |x.data|, limits.chunkSize, q);
    FirstAnswer(net.world, log, HandleRead(fh, read), net.log);
    TellsLater(log, HandleRead(fh, read), net.log, 0, Begin([], 0), q, r);
    if Honest(file, x) {
      PrefixResult(x, file, start + count, q);
    }
    if r.Ok? && AllTruthful(net.world, net.log, |log|) {
      ReceivedHonest(net.world, net.log, |log| + 1, fh);
      GatheredIsPart(r.value, x.data, x.End(), start + count, q, Received(net.log, |log| + 1), emitted, next, file);
      PartsJoin(x, file, start + count);
      assert [] + Part(file, start, start + count) == Part(file, start, start + count);
    }
  }

  /** An accepted reply that was expected to end the file did. */
  lemma MetExpectation(x: ReadOutput, file: seq<Byte>, q: Requirements)
    requires Honest(file, x) && x.Acceptable() && Exact(q, x.offset + x.requested) && (x.eof || |x.data| == x.requested)
    requires ValidateExpectedEof(q.expectedEof, x.End(), x.eof).Ok?
    ensures |file| == x.offset + x.requested
  {
  }

  // ---------------------------------------------------------------- reads through the path

  ghost predicate RangeOf(r: Result<seq<Byte>, Error>, world: World, when: nat, start: nat, len: nat, q: Requirements) {
    r.Ok? ==> world.Bound(when) && r.value == Part(world.File(when), start, start + len) && (Exact(q, start + len) ==> |world.File(when)| == start + len)
  }

  lemma FaithfulRange(r: Result<seq<Byte>, Error>, world: World, when: nat, start: nat, len: nat, q: Requirements)
    requires world.Bound(when) && Faithful(r, world.File(when), [], start, start + len, q)
    ensures RangeOf(r, world, when, start, len, q)
  {
    hide Part;
    assert [] + Part(world.File(when), start, start + len) == Part(world.File(when), start, start + len);
  }

  /** A range of at most one granule: one path READ, or else the path is resolved again and read by
      handle; the first reply is dropped then, as it may be about another file. */
  method ReadSmallRange(net: Connection, limits: Limits, start: nat, len: nat, q: Requirements) returns (r: Result<seq<Byte>, Error>, ghost when: nat)
    requires limits.Valid() && 0 < len <= limits.granularity
    modifies net`log, net`now
    ensures old(net.log) <= net.log && old(net.now) <= when <= net.now
    ensures AllTruthful(net.world, net.log, |old(net.log)|) ==> RangeOf(r, net.world, when, start, len, q)
    ensures AllAnswered(net.world, net.log, |old(net.log)|) && Plain(q, start + len) ==>
      net.world.Bound(when) && r == ReadResult(net.world.File(when), start, start + len, [], q)
    ensures Tells(net.log, |old(net.log)|, r)
  {
    hide ReadResult, ValidateExpectedEof, Part, Honest, AllAnswered, AllTruthful, RangeOf, Faithful, FirstFailure, Told;
    ghost var log := net.log;
    var read, size;
    read, size, when := net.ReadPath(start, len);
    ghost var first := PathRead(when, size, read);
    FirstAnswer(net.world, log, first, net.log);
    OnlyAnswer(log, first, net.log);
    if read.Err? {
      NoRange(read.error, net.world, when, start, len, q);
      return Err(read.error), when;
    }
    var x := read.value;
    ghost var file := net.world.File(when);
    if !WithinLimit(0, |x.data|, q.limit) {
      NoRange(BufferedReadTooLarge(q.expectedLen, q.limit.value), net.world, when, start, len, q);
      if Honest(file, x) {
        TooLongReply(x, file, start + len, q);
      }
      return Err(BufferedReadTooLarge(q.expectedLen, q.limit.value)), when;
    }
    if x.eof || |x.data| == len {
      if Honest(file, x) && net.world.Bound(when) {
        CheckedReply(x, file, q);
        FaithfulRange(CheckReply(x, q), net.world, when, start, len, q);
      }
      var valid := ValidateExpectedEof(q.expectedEof, start + |x.data|, x.eof);
      if valid.Err? {
        return Err(valid.error), when;
      }
      return Ok(x.data), when;
    }
    ghost var log1 := net.log;
    var found;
    found, when := net.LookupFile();
    FirstAnswer(net.world, log, first, net.log);
    FirstAnswer(net.world, log1, Looked(when, found), net.log);
    OnlyAnswer(log1, Looked(when, found), net.log);
    TellsLater(log, first, net.log, 0, Begin([], 0), q, if found.Err? then Err(found.error) else Ok([]));
    if found.Err? {
      NoRange(found.error, net.world, when, start, len, q);
      return Err(found.error), when;
    }
    r := ReadHandle(net, when, limits, start, len, q);
    FirstAnswer(net.world, log, first, net.log);
    FirstAnswer(net.world, log1, Looked(when, found), net.log);
    TellsLater(log1, Looked(when, found), net.log, 0, Begin([], 0), q, r);
    TellsLater(log, first, net.log, 0, Begin([], 0), q, r);
    if net.world.Bound(when) && Faithful(r, net.world.File(when), [], start, start + len, q) {
      FaithfulRange(r, net.world, when, start, len, q);
    }
  }

  lemma NoRange(e: Error, world: World, when: nat, start: nat, len: nat, q: Requirements)
    ensures RangeOf(Err(e), world, when, start, len, q)
  {
  }

  /** A larger range: the first granule through the path, the rest from the handle it resolved. */
  method ReadRange(net: Connection, limits: Limits, start: nat, len: nat, q: Requirements) returns (r: Result<seq<Byte>, Error>, ghost when: nat)
    requires limits.Valid() && 0 < len
    modifies net`log, net`now
    ensures old(net.log) <= net.log && old(net.now) <= when <= net.now
    ensures AllTruthful(net.world, net.log, |old(net.log)|) ==> RangeOf(r, net.world, when, start, len, q)
    ensures AllAnswered(net.world, net.log, |old(net.log)|) && Plain(q, start + len) ==>
      net.world.Bound(when) && r == ReadResult(net.world.File(when), start, start + len, [], q)
    ensures if len <= limits.granularity then Tells(net.log, |old(net.log)|, r)
            else TellsAfter(net.log, |old(net.log)|, |old(net.log)| + 1, Resumed(net.log, |old(net.log)|), q, r)
  {
    hide ReadResult, ValidateExpectedEof, Part, Honest, AllAnswered, AllTruthful, FirstFailure, Told;
    if len <= limits.granularity {
      r, when := ReadSmallRange(net, limits, start, len, q);
      return;
    }
    ghost var log := net.log;
    var read, size;
    read, size, when := net.ReadPath(start, limits.granularity);
    FirstAnswer(net.world, log, PathRead(when, size, read), net.log);
    OnlyAnswer(log, PathRead(when, size, read), net.log);
    if read.Err? {
      return Err(read.error), when;
    }
    var x := read.value;
    ghost var file := net.world.File(when);
    if !WithinLimit(0, |x.data|, q.limit) {
      if Honest(file, x) {
        TooLongReply(x, file, start + len, q);
      }
      return Err(BufferedReadTooLarge(q.expectedLen, q.limit.value)), when;
    }
    if x.eof {
      var valid := ValidateExpectedEof(q.expectedEof, start + |x.data|, true);
      if Honest(file, x) {
        EofIsEnd(x, file, start + len, q);
      }
      if valid.Err? {
        return Err(valid.error), when;
      }
      return Ok(x.data), when;
    }
    r := ReadAfterPrefix(net, when, limits, x.data, start + |x.data|, len - |x.data|, q);
    FirstAnswer(net.world, log, PathRead(when, size, read), net.log);
    TellsLater(log, PathRead(when, size, read), net.log, |log| + 1, Resumed(net.log, |log|), q, r);
    if Honest(file, x) {
      PrefixResult(x, file, start + len, q);
      PartsJoin(x, file, start + len);
    }
  }

  lemma EofIsEnd(x: ReadOutput, file: seq<Byte>, end: nat, q: Requirements)
    requires Honest(file, x) && x.eof && |x.data| <= x.requested && x.offset + x.requested <= end && x.offset < end
    requires WithinLimit(0, |x.data|, q.limit)
    ensures x.data == Part(file, x.offset, end)
    ensures Plain(q, end) && ValidateExpectedEof(q.expectedEof, x.End(), true).Ok? ==> ReadResult(file, x.offset, end, [], q) == Ok(x.data)
    ensures Plain(q, end) && ValidateExpectedEof(q.expectedEof, x.End(), true).Err? ==>
      ReadResult(file, x.offset, end, [], q) == Err(ValidateExpectedEof(q.expectedEof, x.End(), true).error)
  {
    assert [] + x.data == x.data;
  }

  // ---------------------------------------------------------------- whole files

  /** An Ok result is the whole content of the file the path was bound to at `when`. */
  ghost predicate WholeFile(r: Result<seq<Byte>, Error>, world: World, when: nat) {
    r.Ok? ==> world.Bound(when) && r.value == world.File(when)
  }

  /** What `get` demands after its probe, logged at `at`: the size resolved with it. */
  ghost function SizeRequirements(log: seq<Answer>, at: nat, limits: Limits): Requirements {
    var size := if at < |log| && log[at].PathRead? then log[at].size else 0;
    Requirements(Some(size), Some(ResolvedWithFile(size)), limits.maxBuffered)
  }

  /** One probe that also resolves handle and size, then the rest of that same file. */
  method GetOnce(net: Connection, limits: Limits) returns (r: Result<seq<Byte>, Error>, ghost when: nat)
    requires limits.Valid() && (limits.maxBuffered.Some? ==> 0 < limits.maxBuffered.value)
    modifies net`log, net`now
    ensures old(net.log) <= net.log && old(net.now) <= when <= net.now
    ensures AllTruthful(net.world, net.log, |old(net.log)|) ==>
      WholeFile(r, net.world, when) && (r.Ok? ==> WithinLimit(0, |r.value|, limits.maxBuffered))
    ensures AllAnswered(net.world, net.log, |old(net.log)|) ==>
      r == if WithinLimit(0, |net.world.File(when)|, limits.maxBuffered) then Ok(net.world.File(when))
           else Err(BufferedReadTooLarge(Some(|net.world.File(when)|), limits.maxBuffered.value))
    ensures TellsAfter(net.log, |old(net.log)|, |old(net.log)| + 1, Resumed(net.log, |old(net.log)|), SizeRequirements(net.log, |old(net.log)|, limits), r)
  {
    hide AllAnswered, AllTruthful, FirstFailure, Told;
    var limit := limits.maxBuffered;
    var count := if limit.Some? && limit.value < limits.granularity then limit.value else limits.granularity;
    ghost var log := net.log;
    var read, size;
    read, size, when := net.ReadPath(0, count);
    FirstAnswer(net.world, log, PathRead(when, size, read), net.log);
    OnlyAnswer(log, PathRead(when, size, read), net.log);
    if read.Err? {
      return Err(read.error), when;
    }
    var x := read.value;
    if !WithinLimit(0, size, limit) {
      return Err(BufferedReadTooLarge(Some(size), limit.value)), when;
    }
    if |x.data| == size {
      var valid := ValidateExpectedEof(Some(ResolvedWithFile(size)), |x.data|, x.eof);
      if valid.Err? {
        return Err(valid.error), when;
      }
      return Ok(x.data), when;
    }
    if |x.data| > size || x.eof {
      return Err(SizeExpectationError(ResolvedWithFile(size), if x.eof then Some(|x.data|) else None)), when;
    }
    var q := Requirements(Some(size), Some(ResolvedWithFile(size)), limit);
    r := ReadAfterPrefix(net, when, limits, x.data, |x.data|, size - |x.data|, q);
    FirstAnswer(net.world, log, PathRead(when, size, read), net.log);
    TellsLater(log, PathRead(when, size, read), net.log, |log| + 1, Resumed(net.log, |log|), q, r);
    if PathRead(when, size, read).Truthful(net.world) {
      PartsJoin(x, net.world.File(when), size);
      assert Part(net.world.File(when), 0, size) == net.world.File(when);
    }
  }

  /** With a size supplied by the caller, a file of any other size is never returned. */
  method GetKnownSizeOnce(net: Connection, limits: Limits, size: nat) returns (r: Result<seq<Byte>, Error>, ghost when: nat)
    requires limits.Valid()
    modifies net`log, net`now
    ensures old(net.log) <= net.log && old(net.now) <= when <= net.now
    ensures AllTruthful(net.world, net.log, |old(net.log)|) ==> WholeFile(r, net.world, when) && (r.Ok? ==> |r.value| == size)
    ensures !WithinLimit(0, size, limits.maxBuffered) ==> r == Err(BufferedReadTooLarge(Some(size), limits.maxBuffered.value))
    ensures AllAnswered(net.world, net.log, |old(net.log)|) && WithinLimit(0, size, limits.maxBuffered) ==>
      if |net.world.File(when)| == size then r.Ok? else r.Err? && r.error.FileSizeMismatch?
    ensures if size <= limits.granularity then Tells(net.log, |old(net.log)|, r)
            else TellsAfter(net.log, |old(net.log)|, |old(net.log)| + 1, Resumed(net.log, |old(net.log)|),
                            Requirements(Some(size), Some(CallerSupplied(size)), limits.maxBuffered), r)
  {
    hide AllAnswered, AllTruthful, Told;
    var limit := limits.maxBuffered;
    if !WithinLimit(0, size, limit) {
      return Err(BufferedReadTooLarge(Some(size), limit.value)), net.now;
    }
    if size == 0 {
      ghost var log := net.log;
      var read, seen;
      read, seen, when := net.ReadPath(0, 1);
      FirstAnswer(net.world, log, PathRead(when, seen, read), net.log);
      OnlyAnswer(log, PathRead(when, seen, read), net.log);
      if read.Err? {
        return Err(read.error), when;
      }
      var valid := ValidateExpectedEof(Some(CallerSupplied(0)), |read.value.data|, read.value.eof);
      if valid.Err? {
        return Err(valid.error), when;
      }
      return Ok([]), when;
    }
    var q := Requirements(Some(size), Some(CallerSupplied(size)), limit);
    r, when := ReadRange(net, limits, 0, size, q);
  }
}
