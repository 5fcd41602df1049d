/** Reassembly against a server that serves one unchanging file: nothing but the size limit can go
    wrong, whatever the order of the replies, and the result is the one the plain loop computes. */
module HonestRead {
  import opened Errors
  import opened Server
  import opened Ranges
  import opened Reassembly

  /** The reply is a nonempty part of the file, flagged EOF exactly at its end; past the end it is
      empty. */
  predicate Honest(file: seq<Byte>, r: ReadOutput) {
    if r.offset < |file| then
      && r.data != [] && r.End() <= |file| && r.data == file[r.offset..r.End()]
      && (r.eof <==> r.End() == |file|)
    else r.data == [] && r.eof
  }

  function Max(a: nat, b: nat): nat { if a < b then b else a }

  function Min(a: nat, b: nat): nat { if a < b then a else b }

  /** The bytes of the file between `start` and `end`. */
  function Part(file: seq<Byte>, start: nat, end: nat): seq<Byte> {
    if start < Min(end, |file|) then file[start..Min(end, |file|)] else []
  }

  /** Where a read from `start` up to `end` sees EOF, if it does. */
  function SeenEof(file: seq<Byte>, start: nat, end: nat): Option<nat> {
    if |file| <= end then Some(Max(start, |file|)) else None
  }

  predicate TooMuch(file: seq<Byte>, start: nat, end: nat, prefix: seq<Byte>, q: Requirements) {
    Part(file, start, end) != [] && !WithinLimit(|prefix|, |Part(file, start, end)|, q.limit)
  }

  /** What a read of `[start, end)` of an unchanging file returns. */
  function ReadResult(file: seq<Byte>, start: nat, end: nat, prefix: seq<Byte>, q: Requirements): Result<seq<Byte>, Error> {
    if TooMuch(file, start, end, prefix, q) then Err(BufferedReadTooLarge(q.expectedLen, q.limit.value))
    else
      match ValidateObservedEof(q.expectedEof, SeenEof(file, start, end))
      case Err(e) => Err(e)
      case Ok(_) => Ok(prefix + Part(file, start, end))
  }

  /** Emitted replies of an honest server are the file's bytes. */
  lemma {:induction false} ChainHonest(s: seq<ReadOutput>, start: nat, next: nat, data: seq<Byte>, file: seq<Byte>)
    requires Chain(s, start, next, data) && forall r :: r in s ==> Honest(file, r)
    ensures start <= next && |data| == next - start
    ensures next == start || (next <= |file| && data == file[start..next])
    ensures next > start && (forall r :: r in s ==> !r.eof) ==> next < |file|
  {
    if s != [] {
      var r := s[|s| - 1];
      assert r in s;
      ChainHonest(s[..|s| - 1], start, r.offset, data[..|data| - |r.data|], file);
      assert data == data[..|data| - |r.data|] + r.data;
    }
  }

  /** The state of reassembly when every reply so far was honest. */
  predicate HonestSoFar(e: Emit, file: seq<Byte>, start: nat, at: nat, end: nat, prefix: seq<Byte>, q: Requirements) {
    if e.error.Some? then TooMuch(file, start, end, prefix, q) && e.error.value == BufferedReadTooLarge(q.expectedLen, q.limit.value)
    else
      && (e.eofAt.Some? ==> e.eofAt.value == Max(start, |file|))
      && (e.upper.Some? ==> e.upper.value >= Max(start, |file|) && at >= Max(start, |file|))
  }

  lemma EmittedHonest(e: Emit, file: seq<Byte>, prefix: seq<Byte>, start: nat, received: set<ReadOutput>, q: Requirements)
    requires Emitted(e, prefix, start, received, q) && forall r :: r in received ==> Honest(file, r)
    ensures start <= e.next <= Max(start, |file|) && |e.out| == |prefix| + (e.next - start)
    ensures e.next > start ==> e.out == prefix + file[start..e.next]
    ensures e.next == start ==> e.out == prefix
    ensures e.next > start && e.upper.None? ==> e.next < |file|
    ensures e.next > start ==> WithinLimit(0, |e.out|, q.limit)
  {
    ChainHonest(e.emitted, start, e.next, e.out[|prefix|..], file);
    assert e.out == prefix + e.out[|prefix|..];
  }

  lemma ExactHonest(e: Emit, file: seq<Byte>, start: nat, at: nat, end: nat, prefix: seq<Byte>, q: Requirements)
    requires HonestSoFar(e, file, start, at, end, prefix, q) && at >= Max(start, |file|)
    ensures HonestSoFar(ObserveExact(e, Max(start, |file|)), file, start, at, end, prefix, q)
    ensures ObserveExact(e, Max(start, |file|)).error == e.error
  {
  }

  lemma TakeHonest(e: Emit, flying: seq<Range>, gaps: seq<Range>, at: nat, end: nat, i: nat, q: Requirements, prefix: seq<Byte>, start: nat,
                   received: set<ReadOutput>, file: seq<Byte>)
    requires Sound(e, flying, gaps, at, prefix, start, received, q) && e.error.None? && i < |e.completed| && e.completed[i].offset == e.next
    requires HonestSoFar(e, file, start, at, end, prefix, q) && at <= end && forall r :: r in received ==> Honest(file, r)
    ensures HonestSoFar(Take(e, i, q), file, start, at, end, prefix, q)
  {
    hide Tiled, EofKnown, SwapRemove, ObserveExact;
    var r, m := e.completed[i], e.(completed := SwapRemove(e.completed, i));
    QueueOwners(e, flying, gaps, at, i, 0);
    EmittedHonest(e, file, prefix, start, received, q);
    assert r in received;
    TiledBound(e, flying, gaps, at);
    if r.data == [] {
      ExactHonest(m, file, start, at, end, prefix, q);
    } else if WithinLimit(|e.out|, |r.data|, q.limit) && r.eof {
      ExactHonest(m.(next := m.next + |r.data|, out := m.out + r.data, emitted := m.emitted + [r]), file, start, at, end, prefix, q);
    }
  }

  lemma TiledBound(e: Emit, flying: seq<Range>, gaps: seq<Range>, at: nat)
    requires Tiled(e, flying, gaps, at)
    ensures e.next <= at
  {
  }

  lemma {:induction false} DrainHonest(e: Emit, flying: seq<Range>, gaps: seq<Range>, at: nat, end: nat, q: Requirements, prefix: seq<Byte>, start: nat,
                                       received: set<ReadOutput>, file: seq<Byte>)
    requires Sound(e, flying, gaps, at, prefix, start, received, q) && e.error.None?
    requires HonestSoFar(e, file, start, at, end, prefix, q) && at <= end && forall r :: r in received ==> Honest(file, r)
    ensures HonestSoFar(Drain(e, q), file, start, at, end, prefix, q)
    decreases |e.completed|
  {
    hide Sound, Take, HonestSoFar;
    var i := Position(e.completed, e.next);
    if BelowEof(e) && i < |e.completed| {
      TakeShrinks(e, i, q);
      TakeHonest(e, flying, gaps, at, end, i, q, prefix, start, received, file);
      var f := Take(e, i, q);
      if f.error.None? && BelowEof(f) {
        TakeSound(e, flying, gaps, at, i, q, prefix, start, received);
        DrainHonest(f, flying, gaps, at, end, q, prefix, start, received, file);
      }
    }
  }

  lemma ObserveHonest(e: Emit, flying: seq<Range>, gaps: seq<Range>, at: nat, end: nat, i: nat, r: ReadOutput, q: Requirements, prefix: seq<Byte>, start: nat,
                      received: set<ReadOutput>, file: seq<Byte>)
    requires Sound(e, flying, gaps, at, prefix, start, received, q) && e.error.None? && Honest(file, r)
    requires i < |flying| && flying[i] == Range(r.offset, r.offset + r.requested) && r.Acceptable()
    requires HonestSoFar(e, file, start, at, end, prefix, q) && forall w :: w in received ==> Honest(file, w)
    ensures HonestSoFar(Observe(e, r), file, start, at, end, prefix, q) && Observe(e, r).error.None? && !BeyondEof(Observe(e, r), r)
  {
    hide Tiled, EofKnown;
    FlyingBounds(e, flying, gaps, at, i);
    EmittedHonest(e, file, prefix, start, received, q);
    if r.eof && (r.data != [] || r.offset == e.next) {
      assert r.End() == Max(start, |file|);
      ExactHonest(e, file, start, at, end, prefix, q);
    }
  }

  /** An honest reply never raises anything but the size limit. */
  lemma RecordHonest(e: Emit, flying: seq<Range>, gaps: seq<Range>, at: nat, end: nat, i: nat, r: ReadOutput, q: Requirements, prefix: seq<Byte>, start: nat,
                     received: set<ReadOutput>, file: seq<Byte>)
    requires Sound(e, flying, gaps, at, prefix, start, received, q) && Waiting(e) && e.error.None? && Honest(file, r)
    requires i < |flying| && flying[i] == Range(r.offset, r.offset + r.requested) && r.Acceptable()
    requires HonestSoFar(e, file, start, at, end, prefix, q) && at <= end && forall w :: w in received ==> Honest(file, w)
    ensures HonestSoFar(Record(e, r, q), file, start, at, end, prefix, q)
  {
    hide Tiled, EofKnown, Emitted, Drain, EmitOne, SwapRemove, Observe, HonestSoFar;
    ObserveHonest(e, flying, gaps, at, end, i, r, q, prefix, start, received, file);
    RecordIs(e, r, q);
    var f := Observe(e, r);
    var m, fl, gs, got := Queue(f, r), SwapRemove(flying, i), AddGap(gaps, r), received + {r};
    ObserveMeans(e, r);
    QueueTiled(e, flying, gaps, at, i, r);
    QueueEofKnown(e, flying, gaps, at, i, r);
    QueueEmitted(e, r, prefix, start, received, q);
    QueueHonest(f, r, file, start, at, end, prefix, q);
    if r.offset == f.next {
      TakeLast(f, r, q);
      TakeHonest(m, fl, gs, at, end, |m.completed| - 1, q, prefix, start, got, file);
      if EmitOne(f, r, q).error.None? {
        BelowOrEmpty(f, r);
        TakeSound(m, fl, gs, at, |m.completed| - 1, q, prefix, start, got);
        DrainHonest(EmitOne(f, r, q), fl, gs, at, end, q, prefix, start, got, file);
      } else {
        TooMuchIs(m, f, r, file, start, at, end, prefix, q);
        StoppedDrain(f, r, q);
      }
    }
  }

  lemma RecordIs(e: Emit, r: ReadOutput, q: Requirements)
    requires !BeyondEof(Observe(e, r), r)
    ensures var f := Observe(e, r); Record(e, r, q) == if r.offset == f.next then Drain(EmitOne(f, r, q), q) else Queue(f, r)
  {
    hide Drain, EmitOne;
  }

  lemma QueueHonest(f: Emit, r: ReadOutput, file: seq<Byte>, start: nat, at: nat, end: nat, prefix: seq<Byte>, q: Requirements)
    requires HonestSoFar(f, file, start, at, end, prefix, q)
    ensures HonestSoFar(Queue(f, r), file, start, at, end, prefix, q)
  {
  }

  lemma TooMuchIs(m: Emit, f: Emit, r: ReadOutput, file: seq<Byte>, start: nat, at: nat, end: nat, prefix: seq<Byte>, q: Requirements)
    requires HonestSoFar(EmitOne(f, r, q), file, start, at, end, prefix, q) && EmitOne(f, r, q).error.Some?
    ensures EmitOne(f, r, q).error.value.BufferedReadTooLarge?
  {
    hide EmitOne;
  }

  /** Over the limit nothing is emitted any more. */
  lemma StoppedDrain(f: Emit, r: ReadOutput, q: Requirements)
    requires f.error.None? && Waiting(f) && EmitOne(f, r, q).error.Some? && EmitOne(f, r, q).error.value.BufferedReadTooLarge?
    ensures Drain(EmitOne(f, r, q), q) == EmitOne(f, r, q)
  {
  }

  /** What is left when nothing is in flight and nothing left to ask. */
  lemma FinishHonest(e: Emit, at: nat, end: nat, q: Requirements, prefix: seq<Byte>, start: nat, received: set<ReadOutput>, file: seq<Byte>)
    requires e.error.None? ==> Sound(e, [], [], at, prefix, start, received, q) && Waiting(e) && (e.upper.Some? || at == end)
    requires HonestSoFar(e, file, start, at, end, prefix, q) && start < end && at <= end && forall r :: r in received ==> Honest(file, r)
    ensures match Finish(e, q)
            case Err(x) => ReadResult(file, start, end, prefix, q) == Err(x)
            case Ok(_) => ReadResult(file, start, end, prefix, q) == Ok(e.out)
  {
    hide Tiled;
    if e.error.None? {
      EmittedHonest(e, file, prefix, start, received, q);
      TiledBound(e, [], [], at);
      if e.next < at && BelowEof(e) {
        StuckIsReady(e, at);
      }
      NothingBeyond(e, file, start, at, end, prefix, q, received);
      if e.eofAt.None? && e.upper.Some? {
        var w :| w in e.completed && w.data == [] && w.offset == e.upper.value;
        var j :| 0 <= j < |e.completed| && e.completed[j] == w;
        QueueOwners(e, [], [], at, j, 0);
      }
      assert e.eofAt == SeenEof(file, start, end);
      assert e.out == prefix + Part(file, start, end);
    }
  }

  lemma NothingBeyond(e: Emit, file: seq<Byte>, start: nat, at: nat, end: nat, prefix: seq<Byte>, q: Requirements, received: set<ReadOutput>)
    requires HonestSoFar(e, file, start, at, end, prefix, q) && Emitted(e, prefix, start, received, q) && forall r :: r in received ==> Honest(file, r)
    ensures forall i | 0 <= i < |e.completed| :: !BeyondEof(e, e.completed[i])
  {
    forall i | 0 <= i < |e.completed|
      ensures !BeyondEof(e, e.completed[i])
    {
      assert e.completed[i] in received;
    }
  }
}
