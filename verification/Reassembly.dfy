/** Reassembly of out-of-order READ replies (`PipelinedEmit` of src/client.rs): its transition
    functions on values, and the invariants they keep. */
module Reassembly {
  import opened Errors
  import opened Server
  import opened Ranges

  /** A reply to a READ of `requested` bytes at `offset`. */
  datatype ReadOutput = ReadOutput(offset: nat, requested: nat, data: seq<Byte>, eof: bool)
  {
    function End(): nat { offset + |data| }

    /** What `validate_read_reply` lets through. */
    predicate Acceptable() {
      0 < requested && |data| <= requested && (data == [] ==> eof)
    }

    /** The positions this reply answers for: an EOF answers for all that was asked. */
    function Claim(): Range {
      Range(offset, if eof then offset + requested else End())
    }

    /** What a short reply leaves to be asked again. */
    function Gap(): Option<Range> {
      if !eof && |data| < requested then Some(Range(End(), offset + requested)) else None
    }
  }

  datatype ExpectedEof = CallerSupplied(offset: nat) | ResolvedWithFile(offset: nat)

  datatype Requirements = Requirements(expectedLen: Option<nat>, expectedEof: Option<ExpectedEof>, limit: Option<nat>)

  function SizeExpectationError(x: ExpectedEof, actual: Option<nat>): Error {
    if x.CallerSupplied? then FileSizeMismatch(x.offset, actual) else Protocol
  }

  function ValidateObservedEof(expected: Option<ExpectedEof>, observed: Option<nat>): (r: Result<bool, Error>)
    ensures r.Ok? <==> (expected.Some? ==> observed == Some(expected.value.offset))
  {
    if expected.None? then Ok(true)
    else if observed.None? then Err(SizeExpectationError(expected.value, None))
    else if expected.value.offset != observed.value then Err(SizeExpectationError(expected.value, observed))
    else Ok(true)
  }

  predicate WithinLimit(current: nat, more: nat, limit: Option<nat>) {
    limit.Some? ==> current + more <= limit.value
  }

  // ---------------------------------------------------------------- transitions

  datatype Emit = Emit(out: seq<Byte>, completed: seq<ReadOutput>, next: nat, eofAt: Option<nat>, upper: Option<nat>,
                       error: Option<Error>, emitted: seq<ReadOutput>)

  function Fail(e: Emit, err: Error): Emit {
    if e.error.Some? then e else e.(error := Some(err))
  }

  function ObserveUpper(e: Emit, at: nat): Emit {
    var f := if e.eofAt.Some? && e.eofAt.value > at then Fail(e, Protocol) else e;
    f.(upper := Some(if e.upper.Some? && e.upper.value < at then e.upper.value else at))
  }

  function ObserveExact(e: Emit, at: nat): Emit {
    var f := if e.upper.Some? && at > e.upper.value then Fail(e, Protocol) else e;
    var g := if f.eofAt.None? then f.(eofAt := Some(at)) else if f.eofAt.value == at then f else Fail(f, Protocol);
    ObserveUpper(g, at)
  }

  function ObserveRead(e: Emit, r: ReadOutput): Emit {
    if r.data == [] && r.offset != e.next then ObserveUpper(e, r.End()) else ObserveExact(e, r.End())
  }

  function EmitOne(e: Emit, r: ReadOutput, q: Requirements): Emit {
    if r.data == [] then ObserveExact(e, r.offset)
    else if !WithinLimit(|e.out|, |r.data|, q.limit) then Fail(e, BufferedReadTooLarge(q.expectedLen, q.limit.value))
    else
      var f := e.(next := e.next + |r.data|, out := e.out + r.data, emitted := e.emitted + [r]);
      if r.eof then ObserveExact(f, f.next) else f
  }

  /** The first queued reply that continues the output, or the length of the queue. */
  function Position(s: seq<ReadOutput>, next: nat): (i: nat)
    ensures i <= |s| && (i < |s| ==> s[i].offset == next) && forall j | 0 <= j < i :: s[j].offset != next
  {
    if s == [] || s[0].offset == next then 0 else 1 + Position(s[1..], next)
  }

  predicate BelowEof(e: Emit) {
    e.eofAt.None? || e.next < e.eofAt.value
  }

  function Take(e: Emit, i: nat, q: Requirements): Emit
    requires i < |e.completed|
  {
    EmitOne(e.(completed := SwapRemove(e.completed, i)), e.completed[i], q)
  }

  function Drain(e: Emit, q: Requirements): Emit
    decreases |e.completed|
  {
    var i := Position(e.completed, e.next);
    if !BelowEof(e) || i == |e.completed| then e
    else
      var f := Take(e, i, q);
      TakeShrinks(e, i, q);
      if f.error.Some? || !BelowEof(f) then f else Drain(f, q)
  }

  lemma TakeShrinks(e: Emit, i: nat, q: Requirements)
    requires i < |e.completed|
    ensures |Take(e, i, q).completed| < |e.completed|
  {
  }

  predicate BeyondEof(e: Emit, r: ReadOutput) {
    e.eofAt.Some? && r.data != [] && r.End() > e.eofAt.value
  }

  function Record(e: Emit, r: ReadOutput, q: Requirements): Emit {
    var f := if r.eof then ObserveRead(e, r) else e;
    if BeyondEof(f, r) then Fail(f, Protocol)
    else if r.offset == f.next then Drain(EmitOne(f, r, q), q)
    else f.(completed := f.completed + [r])
  }

  function Finish(e: Emit, q: Requirements): Result<bool, Error> {
    if e.error.Some? then Err(e.error.value)
    else if exists i | 0 <= i < |e.completed| :: BeyondEof(e, e.completed[i]) then Err(Protocol)
    else if e.eofAt.Some? && e.next < e.eofAt.value then Err(Protocol)
    else if e.eofAt.None? && e.upper.Some? && e.next < e.upper.value then Err(Protocol)
    else ValidateObservedEof(q.expectedEof, e.eofAt)
  }

  // ---------------------------------------------------------------- invariants

  function ClaimsOf(s: seq<ReadOutput>): (r: seq<Range>)
    ensures |r| == |s| && forall i | 0 <= i < |s| :: r[i] == s[i].Claim()
  {
    seq(|s|, i requires 0 <= i < |s| => s[i].Claim())
  }

  /** How many parties answer for position `p`: requests in flight, gaps to ask again, replies
      waiting for their turn. */
  function Owners(e: Emit, flying: seq<Range>, gaps: seq<Range>, p: nat): nat {
    Hits(flying, p) + Hits(gaps, p) + Hits(ClaimsOf(e.completed), p)
  }

  predicate Past(e: Emit, p: nat) {
    e.eofAt.Some? && e.eofAt.value <= p
  }

  /** Each position handed out and not emitted has exactly one owner, unless it is past EOF. */
  predicate Owned(e: Emit, flying: seq<Range>, gaps: seq<Range>, at: nat, p: nat) {
    && ((p < e.next || at <= p) ==> Owners(e, flying, gaps, p) == 0)
    && (e.next <= p < at ==> Owners(e, flying, gaps, p) <= 1 && (Owners(e, flying, gaps, p) == 1 || Past(e, p)))
  }

  ghost predicate Tiled(e: Emit, flying: seq<Range>, gaps: seq<Range>, at: nat) {
    && e.next <= at
    && (forall i | 0 <= i < |e.completed| :: e.completed[i].Acceptable())
    && forall p: nat :: Owned(e, flying, gaps, at, p)
  }

  /** What is known about EOF is backed by a reply still in the queue, or was reached. */
  predicate EofKnown(e: Emit) {
    && (e.eofAt.None? && e.upper.Some? ==> exists r :: r in e.completed && r.data == [] && r.offset == e.upper.value)
    && (e.eofAt.Some? ==>
          && e.upper == e.eofAt && e.next <= e.eofAt.value
          && (e.next == e.eofAt.value || exists r :: r in e.completed && r.data != [] && r.eof && r.End() == e.eofAt.value))
  }

  /** No queued reply could be emitted now. */
  predicate Waiting(e: Emit) {
    BelowEof(e) ==> forall i | 0 <= i < |e.completed| :: e.completed[i].offset != e.next
  }

  /** The output is the contiguous run of the emitted replies. */
  predicate Chain(s: seq<ReadOutput>, start: nat, next: nat, data: seq<Byte>) {
    if s == [] then next == start && data == []
    else
      var r := s[|s| - 1];
      && r.data != [] && r.End() == next
      && |data| >= |r.data| && data[|data| - |r.data|..] == r.data
      && Chain(s[..|s| - 1], start, r.offset, data[..|data| - |r.data|])
  }

  ghost predicate Emitted(e: Emit, prefix: seq<Byte>, start: nat, received: set<ReadOutput>, q: Requirements) {
    && |prefix| <= |e.out| && e.out[..|prefix|] == prefix && Chain(e.emitted, start, e.next, e.out[|prefix|..])
    && (e.emitted != [] ==> WithinLimit(0, |e.out|, q.limit))
    && Heard(e, received)
  }

  /** Everything kept was received, all data received is kept, and EOF is what the replies said. */
  ghost predicate Heard(e: Emit, received: set<ReadOutput>) {
    && (forall r :: r in e.emitted ==> r in received) && (forall r :: r in e.completed ==> r in received)
    && (forall r :: r in received && r.data != [] ==> r in e.emitted || r in e.completed)
    && (e.eofAt.Some? ==> exists r :: r in received && r.eof && r.End() == e.eofAt.value)
    && (forall r :: r in received && r.eof ==> e.upper.Some? && e.upper.value <= r.End())
  }

  /** The one EOF of all that was received: some reply says it, none says an earlier one, and no
      reply brought data from beyond it. */
  ghost predicate OneEof(received: set<ReadOutput>, at: nat) {
    && (exists r :: r in received && r.eof && r.End() == at)
    && forall r :: r in received ==> (r.eof ==> at <= r.End()) && (r.data != [] ==> r.End() <= at)
  }

  // ---------------------------------------------------------------- one observation

  /** An exact EOF that raises no error is the one known, and now the bound. */
  lemma ExactMeans(e: Emit, at: nat)
    requires e.error.None? && ObserveExact(e, at).error.None?
    ensures ObserveExact(e, at) == e.(eofAt := Some(at), upper := Some(at))
    ensures (e.eofAt.Some? ==> e.eofAt.value == at) && (e.upper.Some? ==> at <= e.upper.value)
  {
  }

  lemma QueueOwners(e: Emit, flying: seq<Range>, gaps: seq<Range>, at: nat, i: nat, p: nat)
    requires Tiled(e, flying, gaps, at) && i < |e.completed|
    ensures Owned(e, flying, gaps, at, p)
    ensures One(e.completed[i].Claim(), p) <= Owners(e, flying, gaps, p)
    ensures Owners(e.(completed := SwapRemove(e.completed, i)), flying, gaps, p) == Owners(e, flying, gaps, p) - One(e.completed[i].Claim(), p)
    ensures e.completed[i].Acceptable() && e.next <= e.completed[i].offset && e.completed[i].Claim().hi <= at
  {
    var c := ClaimsOf(e.completed);
    HitsAt(c, i, p);
    HitsSwapRemove(c, i, p);
    assert ClaimsOf(SwapRemove(e.completed, i)) == SwapRemove(c, i);
    var k := e.completed[i].Claim();
    HitsAt(c, i, k.lo);
    HitsAt(c, i, k.hi - 1);
    assert Owned(e, flying, gaps, at, k.lo) && Owned(e, flying, gaps, at, k.hi - 1) && Owned(e, flying, gaps, at, p);
  }

  /** Emitting a reply that continues the output keeps every position owned. */
  lemma TakeTiled(e: Emit, flying: seq<Range>, gaps: seq<Range>, at: nat, i: nat, q: Requirements)
    requires Tiled(e, flying, gaps, at) && e.error.None? && i < |e.completed| && e.completed[i].offset == e.next
    requires Take(e, i, q).error.None?
    ensures Tiled(Take(e, i, q), flying, gaps, at)
  {
    hide Tiled;
    var r, m, f := e.completed[i], e.(completed := SwapRemove(e.completed, i)), Take(e, i, q);
    TakeShape(e, i, q);
    QueueOwners(e, flying, gaps, at, i, 0);
    forall p: nat
      ensures Owned(f, flying, gaps, at, p)
    {
      QueueOwners(e, flying, gaps, at, i, p);
      assert Owners(f, flying, gaps, p) == Owners(m, flying, gaps, p);
    }
    TiledFrom(e, f, flying, gaps, at);
  }

  lemma TiledFrom(e: Emit, f: Emit, flying: seq<Range>, gaps: seq<Range>, at: nat)
    requires Tiled(e, flying, gaps, at) && f.next <= at && (forall r :: r in f.completed ==> r in e.completed)
    requires forall p: nat :: Owned(f, flying, gaps, at, p)
    ensures Tiled(f, flying, gaps, at)
  {
    forall i | 0 <= i < |f.completed|
      ensures f.completed[i].Acceptable()
    {
      assert f.completed[i] in e.completed;
    }
  }

  /** What taking a reply does when it raises no error. */
  lemma TakeShape(e: Emit, i: nat, q: Requirements)
    requires e.error.None? && i < |e.completed| && Take(e, i, q).error.None? && e.completed[i].offset == e.next
    ensures var r, m, f := e.completed[i], SwapRemove(e.completed, i), Take(e, i, q);
            && f.completed == m && f.next == r.End()
            && f.out == e.out + r.data && f.emitted == (if r.data == [] then e.emitted else e.emitted + [r])
            && (if r.eof || r.data == [] then f.eofAt == Some(r.End()) == f.upper else f.eofAt == e.eofAt && f.upper == e.upper)
            && (r.eof || r.data == [] ==> (e.eofAt.Some? ==> e.eofAt.value == r.End()) && (e.upper.Some? ==> r.End() <= e.upper.value))
  {
    var r, m := e.completed[i], e.(completed := SwapRemove(e.completed, i));
    if r.data == [] {
      ExactMeans(m, r.offset);
    } else if r.eof && WithinLimit(|e.out|, |r.data|, q.limit) {
      var f := m.(next := m.next + |r.data|, out := m.out + r.data, emitted := m.emitted + [r]);
      ExactMeans(f, f.next);
    }
  }

  lemma TakeEofKnown(e: Emit, flying: seq<Range>, gaps: seq<Range>, at: nat, i: nat, q: Requirements)
    requires Tiled(e, flying, gaps, at) && e.error.None? && i < |e.completed| && e.completed[i].offset == e.next
    requires Take(e, i, q).error.None? && EofKnown(e) && (BelowEof(e) || e.completed[i].data == [])
    ensures EofKnown(Take(e, i, q))
  {
    var r, f := e.completed[i], Take(e, i, q);
    TakeShape(e, i, q);
    TakeTiled(e, flying, gaps, at, i, q);
    QueueOwners(e, flying, gaps, at, i, 0);
    if f.eofAt.None? && f.upper.Some? {
      var w :| w in e.completed && w.data == [] && w.offset == e.upper.value;
      var j :| 0 <= j < |e.completed| && e.completed[j] == w;
      SwapRemoveKeeps(e.completed, i, j);
    } else if f.eofAt.Some? && f.next != f.eofAt.value {
      var w :| w in e.completed && w.data != [] && w.eof && w.End() == e.eofAt.value;
      var j :| 0 <= j < |e.completed| && e.completed[j] == w;
      SwapRemoveKeeps(e.completed, i, j);
      var k :| 0 <= k < |f.completed| && f.completed[k] == w;
      QueueOwners(f, flying, gaps, at, k, 0);
    }
  }

  lemma TakeEmitted(e: Emit, i: nat, q: Requirements, prefix: seq<Byte>, start: nat, received: set<ReadOutput>)
    requires e.error.None? && i < |e.completed| && e.completed[i].offset == e.next && e.completed[i].Acceptable()
    requires Take(e, i, q).error.None? && Emitted(e, prefix, start, received, q)
    ensures Emitted(Take(e, i, q), prefix, start, received, q)
  {
    hide Take, Chain, SwapRemove, Heard;
    var r, f := e.completed[i], Take(e, i, q);
    TakeShape(e, i, q);
    TakeFits(e, i, q);
    TakeHeard(e, i, q, received);
    if r.data == [] {
      assert f.out == e.out;
    } else {
      ChainStep(e.emitted, start, r, e.out[|prefix|..]);
      assert f.out[|prefix|..] == e.out[|prefix|..] + r.data;
      assert f.out[..|prefix|] == prefix;
    }
  }

  lemma TakeHeard(e: Emit, i: nat, q: Requirements, received: set<ReadOutput>)
    requires e.error.None? && i < |e.completed| && e.completed[i].offset == e.next && e.completed[i].Acceptable()
    requires Take(e, i, q).error.None? && Heard(e, received)
    ensures Heard(Take(e, i, q), received)
  {
    hide Take, SwapRemove;
    var r, f := e.completed[i], Take(e, i, q);
    TakeShape(e, i, q);
    assert r in e.completed;
    forall w
      ensures w in f.completed ==> w in e.completed
      ensures w in e.completed ==> w == r || w in f.completed
    {
      SwapRemoveIn(e.completed, i, w);
    }
  }

  lemma SwapRemoveIn(s: seq<ReadOutput>, i: nat, w: ReadOutput)
    requires i < |s|
    ensures w in SwapRemove(s, i) ==> w in s
    ensures w in s ==> w == s[i] || w in SwapRemove(s, i)
  {
    if w in s && w != s[i] {
      var j :| 0 <= j < |s| && s[j] == w;
      SwapRemoveKeeps(s, i, j);
    }
  }

  /** What was emitted stays within the limit. */
  lemma TakeFits(e: Emit, i: nat, q: Requirements)
    requires e.error.None? && i < |e.completed| && Take(e, i, q).error.None?
    ensures e.completed[i].data != [] ==> WithinLimit(0, |e.out| + |e.completed[i].data|, q.limit)
  {
  }

  /** One more reply at the end continues the chain. */
  lemma ChainStep(s: seq<ReadOutput>, start: nat, r: ReadOutput, data: seq<Byte>)
    requires Chain(s, start, r.offset, data) && r.data != []
    ensures Chain(s + [r], start, r.End(), data + r.data)
  {
    assert (s + [r])[..|s|] == s;
    assert (data + r.data)[|data|..] == r.data && (data + r.data)[..|data|] == data;
  }

  // ---------------------------------------------------------------- recording a reply

  ghost predicate Sound(e: Emit, flying: seq<Range>, gaps: seq<Range>, at: nat, prefix: seq<Byte>, start: nat, received: set<ReadOutput>, q: Requirements) {
    Tiled(e, flying, gaps, at) && EofKnown(e) && Emitted(e, prefix, start, received, q)
  }

  lemma TakeSound(e: Emit, flying: seq<Range>, gaps: seq<Range>, at: nat, i: nat, q: Requirements, prefix: seq<Byte>, start: nat, received: set<ReadOutput>)
    requires Sound(e, flying, gaps, at, prefix, start, received, q) && e.error.None? && i < |e.completed| && e.completed[i].offset == e.next
    requires Take(e, i, q).error.None? && (BelowEof(e) || e.completed[i].data == [])
    ensures Sound(Take(e, i, q), flying, gaps, at, prefix, start, received, q)
  {
    hide Tiled, EofKnown, Emitted, Take;
    TakeTiled(e, flying, gaps, at, i, q);
    TakeEofKnown(e, flying, gaps, at, i, q);
    QueueOwners(e, flying, gaps, at, i, 0);
    TakeEmitted(e, i, q, prefix, start, received);
  }

  lemma {:induction false} DrainSound(e: Emit, flying: seq<Range>, gaps: seq<Range>, at: nat, q: Requirements, prefix: seq<Byte>, start: nat, received: set<ReadOutput>)
    requires Sound(e, flying, gaps, at, prefix, start, received, q) && e.error.None? && Drain(e, q).error.None?
    ensures Sound(Drain(e, q), flying, gaps, at, prefix, start, received, q) && Waiting(Drain(e, q))
    decreases |e.completed|
  {
    hide Sound, Take;
    var i := Position(e.completed, e.next);
    if BelowEof(e) && i < |e.completed| {
      TakeShrinks(e, i, q);
      TakeSound(e, flying, gaps, at, i, q, prefix, start, received);
      if BelowEof(Take(e, i, q)) {
        DrainSound(Take(e, i, q), flying, gaps, at, q, prefix, start, received);
      }
    }
  }

  function AddGap(gaps: seq<Range>, r: ReadOutput): seq<Range> {
    if r.Gap().Some? then gaps + [r.Gap().value] else gaps
  }

  function Queue(e: Emit, r: ReadOutput): Emit {
    e.(completed := e.completed + [r])
  }

  function Observe(e: Emit, r: ReadOutput): Emit {
    if r.eof then ObserveRead(e, r) else e
  }

  /** A reply takes over exactly the positions of its request. */
  lemma QueuedOwners(e: Emit, flying: seq<Range>, gaps: seq<Range>, i: nat, r: ReadOutput, p: nat)
    requires i < |flying| && flying[i] == Range(r.offset, r.offset + r.requested) && r.Acceptable()
    ensures Owners(Queue(e, r), SwapRemove(flying, i), AddGap(gaps, r), p) == Owners(e, flying, gaps, p)
  {
    QueuedClaims(e.completed, r);
    hide ClaimsOf, Hits, SwapRemove;
    HitsSwapRemove(flying, i, p);
    HitsAppend(ClaimsOf(e.completed), r.Claim(), p);
    if r.Gap().Some? {
      HitsAppend(gaps, r.Gap().value, p);
    }
  }

  lemma QueuedClaims(completed: seq<ReadOutput>, r: ReadOutput)
    ensures ClaimsOf(completed + [r]) == ClaimsOf(completed) + [r.Claim()]
  {
  }

  lemma ObserveMeans(e: Emit, r: ReadOutput)
    requires e.error.None? && Observe(e, r).error.None?
    ensures var f := Observe(e, r);
            && f == e.(eofAt := f.eofAt, upper := f.upper)
            && (!r.eof ==> f == e)
            && (r.eof && (r.data != [] || r.offset == e.next) ==> f.eofAt == f.upper == Some(r.End()) && (e.eofAt.Some? ==> e.eofAt == f.eofAt))
            && (r.eof && r.data == [] && r.offset != e.next ==>
                  && f.eofAt == e.eofAt && (e.eofAt.Some? ==> e.eofAt.value <= r.offset)
                  && f.upper == Some(if e.upper.Some? && e.upper.value < r.offset then e.upper.value else r.offset))
  {
    if r.eof && (r.data != [] || r.offset == e.next) {
      ExactMeans(e, r.End());
    }
  }

  /** The bound on EOF only comes down, and to no more than the reply's end. */
  lemma ObserveLowers(e: Emit, r: ReadOutput)
    requires e.error.None? && Observe(e, r).error.None?
    ensures r.eof ==> Observe(e, r).upper.Some? && Observe(e, r).upper.value <= r.End()
    ensures e.upper.Some? ==> Observe(e, r).upper.Some? && Observe(e, r).upper.value <= e.upper.value
  {
  }

  lemma FlyingBounds(e: Emit, flying: seq<Range>, gaps: seq<Range>, at: nat, i: nat)
    requires Tiled(e, flying, gaps, at) && i < |flying| && flying[i].lo < flying[i].hi
    ensures e.next <= flying[i].lo && flying[i].hi <= at
  {
    HitsAt(flying, i, flying[i].lo);
    HitsAt(flying, i, flying[i].hi - 1);
    assert Owned(e, flying, gaps, at, flying[i].lo) && Owned(e, flying, gaps, at, flying[i].hi - 1);
  }

  lemma QueueTiled(e: Emit, flying: seq<Range>, gaps: seq<Range>, at: nat, i: nat, r: ReadOutput)
    requires Tiled(e, flying, gaps, at) && e.error.None? && Observe(e, r).error.None?
    requires i < |flying| && flying[i] == Range(r.offset, r.offset + r.requested) && r.Acceptable()
    ensures Tiled(Queue(Observe(e, r), r), SwapRemove(flying, i), AddGap(gaps, r), at)
  {
    hide Observe;
    var f := Queue(Observe(e, r), r);
    ObserveMeans(e, r);
    forall p: nat
      ensures Owned(f, SwapRemove(flying, i), AddGap(gaps, r), at, p)
    {
      QueuedOwners(e, flying, gaps, i, r, p);
      assert Owned(e, flying, gaps, at, p);
      assert Owners(f, SwapRemove(flying, i), AddGap(gaps, r), p) == Owners(Queue(e, r), SwapRemove(flying, i), AddGap(gaps, r), p);
    }
  }

  lemma QueueEofKnown(e: Emit, flying: seq<Range>, gaps: seq<Range>, at: nat, i: nat, r: ReadOutput)
    requires Tiled(e, flying, gaps, at) && EofKnown(e) && e.error.None? && Observe(e, r).error.None?
    requires i < |flying| && flying[i] == Range(r.offset, r.offset + r.requested) && r.Acceptable()
    ensures EofKnown(Queue(Observe(e, r), r))
  {
    hide Observe, Tiled;
    FlyingBounds(e, flying, gaps, at, i);
    var f := Queue(Observe(e, r), r);
    ObserveMeans(e, r);
    assert r in f.completed;
    forall w | w in e.completed
      ensures w in f.completed
    {
    }
  }

  lemma QueueEmitted(e: Emit, r: ReadOutput, prefix: seq<Byte>, start: nat, received: set<ReadOutput>, q: Requirements)
    requires Emitted(e, prefix, start, received, q) && e.error.None? && Observe(e, r).error.None?
    ensures Emitted(Queue(Observe(e, r), r), prefix, start, received + {r}, q)
  {
    hide Observe, Chain, Heard;
    ObserveMeans(e, r);
    QueueHeard(e, r, received);
  }

  lemma QueueHeard(e: Emit, r: ReadOutput, received: set<ReadOutput>)
    requires Heard(e, received) && e.error.None? && Observe(e, r).error.None?
    ensures Heard(Queue(Observe(e, r), r), received + {r})
  {
    hide Observe;
    ObserveMeans(e, r);
    ObserveLowers(e, r);
    var f := Queue(Observe(e, r), r);
    assert forall w :: w in e.completed ==> w in f.completed;
    assert r in f.completed && r in received + {r};
    if f.eofAt.Some? && f.eofAt == e.eofAt {
      var w :| w in received && w.eof && w.End() == e.eofAt.value;
      assert w in received + {r};
    }
  }

  /** Recording a reply keeps the invariants, or records an error. */
  lemma RecordSound(e: Emit, flying: seq<Range>, gaps: seq<Range>, at: nat, i: nat, r: ReadOutput, q: Requirements, prefix: seq<Byte>, start: nat, received: set<ReadOutput>)
    requires Sound(e, flying, gaps, at, prefix, start, received, q) && Waiting(e) && e.error.None? && Record(e, r, q).error.None?
    requires i < |flying| && flying[i] == Range(r.offset, r.offset + r.requested) && r.Acceptable()
    ensures Sound(Record(e, r, q), SwapRemove(flying, i), AddGap(gaps, r), at, prefix, start, received + {r}, q) && Waiting(Record(e, r, q))
  {
    hide Tiled, EofKnown, Emitted, Drain, EmitOne, SwapRemove;
    var f := Observe(e, r);
    ObserveKeepsError(e, r, q);
    ObserveMeans(e, r);
    QueueTiled(e, flying, gaps, at, i, r);
    QueueEofKnown(e, flying, gaps, at, i, r);
    QueueEmitted(e, r, prefix, start, received, q);
    var m := Queue(f, r);
    if r.offset == f.next {
      TakeLast(f, r, q);
      DrainKeepsError(EmitOne(f, r, q), q);
      BelowOrEmpty(f, r);
      TakeSound(m, SwapRemove(flying, i), AddGap(gaps, r), at, |m.completed| - 1, q, prefix, start, received + {r});
      DrainSound(EmitOne(f, r, q), SwapRemove(flying, i), AddGap(gaps, r), at, q, prefix, start, received + {r});
    }
  }

  lemma BelowOrEmpty(f: Emit, r: ReadOutput)
    requires !BeyondEof(f, r) && r.offset == f.next
    ensures BelowEof(f) || r.data == []
  {
  }

  lemma TakeLast(f: Emit, r: ReadOutput, q: Requirements)
    ensures var m := Queue(f, r); Take(m, |m.completed| - 1, q) == EmitOne(f, r, q)
  {
    assert SwapRemove(f.completed + [r], |f.completed|) == f.completed;
  }

  lemma {:induction false} DrainKeepsError(e: Emit, q: Requirements)
    ensures e.error.Some? ==> Drain(e, q).error == e.error
    decreases |e.completed|
  {
    var i := Position(e.completed, e.next);
    if BelowEof(e) && i < |e.completed| {
      TakeShrinks(e, i, q);
      DrainKeepsError(Take(e, i, q), q);
    }
  }

  lemma ObserveKeepsError(e: Emit, r: ReadOutput, q: Requirements)
    requires Record(e, r, q).error.None?
    ensures Observe(e, r).error.None? && !BeyondEof(Observe(e, r), r)
  {
    if r.offset == Observe(e, r).next {
      DrainKeepsError(EmitOne(Observe(e, r), r, q), q);
    }
  }

  // ---------------------------------------------------------------- the end

  lemma {:induction false} ChainBounds(s: seq<ReadOutput>, start: nat, next: nat, data: seq<Byte>)
    requires Chain(s, start, next, data)
    ensures forall r :: r in s ==> r.End() <= next
  {
    if s != [] {
      var r := s[|s| - 1];
      ChainBounds(s[..|s| - 1], start, r.offset, data[..|data| - |r.data|]);
      assert s == s[..|s| - 1] + [r];
    }
  }

  /** With nothing in flight and nothing left to ask, success means that the output reaches the
      requested end and no reply said EOF, or exactly the one EOF that was reported. */
  lemma FinishMeans(e: Emit, at: nat, end: nat, q: Requirements, prefix: seq<Byte>, start: nat, received: set<ReadOutput>)
    requires Sound(e, [], [], at, prefix, start, received, q) && Waiting(e) && (e.upper.Some? || at == end)
    requires Finish(e, q).Ok?
    ensures (e.eofAt == Some(e.next) && OneEof(received, e.next)) || (e.eofAt.None? && e.next == end && forall r :: r in received ==> !r.eof)
    ensures q.expectedEof.Some? ==> e.next == q.expectedEof.value.offset && e.eofAt == Some(e.next)
  {
    ChainBounds(e.emitted, start, e.next, e.out[|prefix|..]);
    if e.eofAt.None? && e.next < at {
      StuckIsReady(e, at);
    }
    if e.eofAt.None? && e.upper.Some? {
      var w :| w in e.completed && w.data == [] && w.offset == e.upper.value;
      var j :| 0 <= j < |e.completed| && e.completed[j] == w;
      QueueOwners(e, [], [], at, j, 0);
    }
  }

  /** Below EOF, a position nobody is asking for is the start of a queued reply. */
  lemma StuckIsReady(e: Emit, at: nat)
    requires Tiled(e, [], [], at) && e.next < at && BelowEof(e)
    ensures !Waiting(e)
  {
    assert Owned(e, [], [], at, e.next);
    var i := HitsFrom(ClaimsOf(e.completed), e.next);
    QueueOwners(e, [], [], at, i, 0);
    assert e.completed[i].offset == e.next;
  }
}
