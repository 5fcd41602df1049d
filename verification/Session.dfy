/** The session's request path (src/nfs4/session.rs): one compound, its decoding, and the retry of
    transient statuses, against a server that may do anything `CallOk` allows. */
module Session {
  import opened Errors
  import opened Server
  import opened ServerLemmas
  import opened Decode
  import opened Runs
  import opened Content
  import opened Compounds
  import opened Publishing

  // ---------------------------------------------------------------- decoders as values

  datatype Decoder =
    | ByClose(shape: CloseShape, verifier: Option<nat>)
    | ByRenamePublish(lookups: nat)
    | ByLinkRemovePublish(lookups: nat)
    | ByOpen(lookups: nat)
    | ByWrite
    | ByWriteCommit
    | ByFused(lookups: nat, createNew: bool)
    | ByRemove(lookups: nat)

  datatype Answer =
    | Finished
    | OpenAnswer(open: OpenOutcome)
    | WriteAnswer(write: WriteData)
    | CommitAnswer(write: WriteData, verifier: nat)
    | FusedAnswer(fused: FusedOutcome)
    | RemoveAnswer(removed: RemoveOutcome)

  function PlanOf(d: Decoder): seq<OpCode> {
    match d
    case ByClose(shape, v) => ClosePlan(shape, v.Some?)
    case ByRenamePublish(n) => RenamePublishPlan(n)
    case ByLinkRemovePublish(n) => LinkRemovePublishPlan(n)
    case ByOpen(n) => OpenPlan(n)
    case ByWrite => WRITE_PLAN
    case ByWriteCommit => WRITE_COMMIT_PLAN
    case ByFused(n, createNew) => FusedPlan(n, createNew)
    case ByRemove(n) => RemovePlan(n)
  }

  /** The verifiers in the response do not disagree. */
  predicate Agrees(d: Decoder, w: Wire) {
    match d
    case ByClose(_, v) => VerifierAgrees(w, v)
    case ByFused(n, createNew) => FusedAgrees(w, FusedOpenAt(n, createNew))
    case _ => true
  }

  predicate GoodAnswer(d: Decoder, w: Wire, a: Answer) {
    match d
    case ByClose(_, v) => a == Finished && GoodUpTo(PlanOf(d), w, |PlanOf(d)|) && (v.Some? ==> VerifierAt(w, 2, v.value))
    case ByRenamePublish(_) => a == Finished && GoodUpTo(PlanOf(d), w, |PlanOf(d)|)
    case ByLinkRemovePublish(_) => a == Finished && GoodUpTo(PlanOf(d), w, |PlanOf(d)|)
    case ByOpen(n) =>
      && a.OpenAnswer?
      && if a.open.Opened? then GoodUpTo(PlanOf(d), w, |PlanOf(d)|) && BodyIs(w, 3 + n, HandleBody(a.open.handle))
         else FailedAt(PlanOf(d), w, 2 + n, EXIST, OPEN)
    case ByWrite => a.WriteAnswer? && GoodUpTo(PlanOf(d), w, |PlanOf(d)|) && WroteAt(w, 2, a.write)
    case ByWriteCommit => a.CommitAnswer? && GoodUpTo(PlanOf(d), w, |PlanOf(d)|) && WroteAt(w, 2, a.write) && VerifierAt(w, 3, a.verifier)
    case ByFused(n, createNew) =>
      && a.FusedAnswer?
      && var o := FusedOpenAt(n, createNew);
         if a.fused.FusedOpened? then GoodUpTo(PlanOf(d), w, |PlanOf(d)|) && FusedCommitted(w, o) && WroteAt(w, o + 2, a.fused.write) && BodyIs(w, o + 1, HandleBody(a.fused.handle))
         else FailedAt(PlanOf(d), w, o, EXIST, OPEN)
    case ByRemove(_) => a.RemoveAnswer?
  }

  /** A failure after the commit reply proves that the verifiers matched. */
  predicate PastCommit(d: Decoder, w: Wire, e: DecodeError) {
    match d
    case ByClose(_, v) => v.Some? && e.replyIndex.Some? && e.replyIndex.value > 2 ==> VerifierAt(w, 2, v.value)
    case ByFused(n, createNew) =>
      e.replyIndex.Some? && e.replyIndex.value > FusedOpenAt(n, createNew) + 3 ==> FusedCommitted(w, FusedOpenAt(n, createNew))
    case _ => true
  }

  predicate DecodeSpec(d: Decoder, w: Wire, r: Decoded<Answer>) {
    if r.Ok? then GoodAnswer(d, w, r.value)
    else SoundError(PlanOf(d), w, r.error, Agrees(d, w)) && PastCommit(d, w, r.error)
  }

  method DecodeBy(d: Decoder, w: Wire) returns (r: Decoded<Answer>)
    ensures DecodeSpec(d, w, r)
  {
    hide GoodUpTo, SoundError, FusedCommitted, FusedAgrees, FailedAt, ClosePlan, FusedPlan;
    match d
    case ByClose(shape, v) =>
      var _ :- DecodeClose(w, shape, v);
      return Ok(Finished);
    case ByRenamePublish(n) =>
      var _ :- DecodeRenamePublish(w, n);
      return Ok(Finished);
    case ByLinkRemovePublish(n) =>
      var _ :- DecodeLinkRemovePublish(w, n);
      return Ok(Finished);
    case ByOpen(n) =>
      var o :- DecodeOpen(w, n);
      return Ok(OpenAnswer(o));
    case ByWrite =>
      var o :- DecodeWrite(w);
      return Ok(WriteAnswer(o));
    case ByWriteCommit =>
      var o :- DecodeWriteCommit(w);
      return Ok(CommitAnswer(o.0, o.1));
    case ByFused(n, createNew) =>
      var o :- DecodeFused(w, n, createNew);
      return Ok(FusedAnswer(o));
    case ByRemove(n) =>
      var o :- DecodeRemove(w, n);
      return Ok(RemoveAnswer(o));
  }

  // ---------------------------------------------------------------- one compound

  /** The answer leaves doubt about what happened: nothing came back, something unreadable came
      back, or the server restarted meanwhile. */
  predicate Unclear(plan: seq<OpCode>, res: CallResult, s0: State, s1: State) {
    res.Lost? || s0.boot != s1.boot || (res.Answered? && !Intact(plan, res.wire))
  }

  predicate FullWrites(ops: seq<Op>, run: seq<Step>) {
    |run| <= |ops| && forall i | 0 <= i < |run| && ops[i].Write? && run[i].reply.body.WriteBody? :: run[i].reply.body.count == |ops[i].data|
  }

  /** Everything went as asked, or the only refusal was that the destination exists. */
  predicate Smooth(ops: seq<Op>, res: CallResult, run: seq<Step>, s0: State, s1: State) {
    && res.Answered? && !Unclear(CodesOf(ops), res, s0, s1) && FullWrites(ops, run)
    && (res.wire.status == OK || (res.wire.status == EXIST && CodesOf(ops)[|res.wire.replies| - 1] == LINK))
  }

  /** Late OPENs only await names this put already used. */
  predicate NamesBelow(s: State, next: nat) {
    forall n | n in AwaitedNames(s.limbo) :: n.Temp? && n.id < next
  }

  /** What a put can look back on. */
  datatype View = View(s: State, ambiguous: bool, calm: bool)

  /** Nothing is ever taken back, and doubt and trouble are never forgotten. */
  predicate Onward(a: View, b: View) {
    && Grows(a.s, b.s)
    && (a.ambiguous ==> b.ambiguous) && (b.calm ==> a.calm)
    && (!b.ambiguous ==> a.s.boot == b.s.boot)
  }

  /** ...and nothing was published. */
  predicate Quietly(a: View, b: View) {
    Onward(a, b) && Weight(b.s, Publishes) <= Weight(a.s, Publishes) && Weight(b.s, Replaces) <= Weight(a.s, Replaces)
  }

  /** Ghost record of the last compound of an exchange. */
  datatype Seen = Seen(pre: State, wire: Wire, run: seq<Step>)

  /** What may be rewritten by a compound, read off its operations. */
  predicate StaticCover(ops: seq<Op>, x: Extent) {
    forall i | 0 <= i < |ops| ::
      && WellNamed(ops[i])
      && (ops[i].Open? ==> ops[i].name in x.names)
      && (ops[i].Write? ==> i == 1 && ops[0] == PutFh(FileOf(x.fid)) && x.lo <= ops[1].offset && ops[1].offset + |ops[1].data| <= x.hi)
  }

  predicate Vague(e: Error) {
    !e.RequestNotSent? && !e.Nfs?
  }

  /** An answer as asked for, except perhaps for an existing destination. */
  predicate SmoothWire(ops: seq<Op>, w: Wire, run: seq<Step>) {
    && Intact(CodesOf(ops), w) && FullWrites(ops, run)
    && (w.status == OK || (w.status == EXIST && CodesOf(ops)[|w.replies| - 1] == LINK))
  }

  /** The last compound of an exchange was answered: what ran, and what its answer was taken for. */
  predicate Settled(t: Target, s0: State, ops: seq<Op>, d: Decoder, x: Extent, r: Decoded<Answer>, seen: Seen, s1: State) {
    && Steady(s0, seen.pre, x)
    && RunOk(t, seen.pre, Full(ops), seen.run, s1) && Faithful(seen.run, seen.wire)
    && DecodeSpec(d, seen.wire, r)
  }

  /** What an exchange guarantees whatever the network and the server do. */
  predicate Exchanged(t: Target, s0: State, ops: seq<Op>, d: Decoder, x: Extent, r: Decoded<Answer>, seen: Seen, s1: State) {
    && Loose(s0, s1, Full(ops))
    && (r.Ok? || r.error.status.Some? ==> Settled(t, s0, ops, d, x, r, seen, s1))
    && (r.Err? ==> r.error.error.SessionLevel())
    && (r.Err? && r.error.status.None? && !Vague(r.error.error) ==>
          Steady(s0, s1, x) && (r.error.error.Nfs? ==> r.error.error.op == SEQUENCE))
  }

  /** Without doubtful answers the server is the same instance, every answer was read whole, and
      an error without a status means that the verifiers disagree. */
  predicate Clear(t: Target, s0: State, ops: seq<Op>, d: Decoder, x: Extent, r: Decoded<Answer>, seen: Seen, s1: State) {
    && s0.boot == s1.boot
    && (r.Ok? || r.error.status.Some? || Vague(r.error.error) ==>
          Settled(t, s0, ops, d, x, r, seen, s1) && Intact(CodesOf(Full(ops)), seen.wire))
    && (r.Err? && Vague(r.error.error) ==> !Agrees(d, seen.wire))
  }

  lemma StaticCovered(t: Target, s0: State, ops: seq<Op>, run: seq<Step>, s1: State, x: Extent)
    requires RunOk(t, s0, Full(ops), run, s1) && StaticCover(ops, x)
    ensures |run| <= |Full(ops)| && RunCovered(run, Full(ops), x)
  {
    hide RunOk, Valid, Rely, WellNamed;
    RunLength(t, s0, Full(ops), run, s1);
    if |run| > 2 && ops[1].Write? {
      CurIsFile(t, s0, Full(ops), run, s1, x.fid, 2);
    }
    forall i | 0 <= i < |run|
      ensures Covers(run[i].pre, run[i].c, Full(ops)[i], x)
    {
      assert i > 0 ==> Full(ops)[i] == ops[i - 1];
      assert WellNamed(Full(ops)[0]) by { assert Full(ops)[0] == Sequence; SequenceWellNamed(); }
    }
  }

  lemma SequenceWellNamed()
    ensures WellNamed(Sequence)
  {
  }

  /** Nothing but the retry counter tells one failed attempt from none. */
  predicate Steady(s: State, s': State, x: Extent) {
    Evolves(s, s', x) && NoHeavier(s, s')
  }

  lemma SteadyTrans(s: State, m: State, e: State, x: Extent)
    requires Steady(s, m, x) && Steady(m, e, x)
    ensures Steady(s, e, x)
  {
    hide Evolves;
    EvolvesTrans(s, m, e, x);
  }

  lemma RelySteady(s: State, s': State, x: Extent)
    requires Rely(s, s')
    ensures Steady(s, s', x)
  {
    hide Evolves;
    EvolvesWiden(s, s', x);
  }

  /** A transient failure that is safe to replay ran nothing that must not run twice. */
  lemma SafeRetryIsSteady(t: Target, s0: State, ops: seq<Op>, run: seq<Step>, s1: State, w: Wire, e: DecodeError, x: Extent)
    requires RunOk(t, s0, Full(ops), run, s1) && Faithful(run, w) && StaticCover(ops, x)
    requires Located(CodesOf(Full(ops)), w, e) && e.status.Some? && TransientRetryIsSafe(ops, e)
    ensures Steady(s0, s1, x)
  {
    hide RunOk, Evolves, Faithful, FailedAt;
    var i := e.replyIndex.value;
    FailureIsWhereItStopped(t, s0, Full(ops), run, s1, w, i, e.error.status, e.error.op);
    StaticCovered(t, s0, ops, run, s1, x);
    RunEvolves(t, s0, Full(ops), run, s1, x, |run|);
    forall k: Kind
      ensures Weight(s1, k) <= Weight(s0, k)
    {
      RunWeight(t, s0, Full(ops), run, s1, k, |run|);
      var done := Full(ops)[..i];
      forall j | 0 <= j < |done|
        ensures !IsKind(done[j], k)
      {
        assert j > 0 ==> done[j] == ops[j - 1];
      }
      CountNone(done, k);
    }
  }

  /** A failed SEQUENCE ran nothing. */
  lemma SequenceFailedIsRely(t: Target, s0: State, ops: seq<Op>, run: seq<Step>, s1: State, w: Wire)
    requires RunOk(t, s0, Full(ops), run, s1) && Faithful(run, w)
    requires (w.replies == [] && w.status != OK) || (w.replies != [] && w.replies[0].Readable? && w.replies[0].reply.status != OK && w.replies[0].reply.op == SEQUENCE)
    ensures Rely(s0, s1)
  {
    if run != [] {
      RunStart(t, s0, Full(ops), run, s1);
      RunStep(t, s0, Full(ops), run, s1, 0);
      assert w.replies[0].Readable?;
      assert |run| == 1;
      assert run[0].post == run[0].pre;
      RelyTrans(s0, run[0].pre, s1);
    }
  }

  class NfsSession {
    const target: Target
    const path: seq<string>
    const transientRetries: nat
    const writeChunkSize: nat
    const pipelineDepth: nat  // 1 when writes are not pipelined
    var s: State
    var calls: nat
    var ambiguous: bool      // some answer left doubt
    var calm: bool           // every answer was as asked
    var nextTemp: nat
    var fusedSupported: bool
    ghost var used: set<Name> // temporary names sent in an OPEN

    constructor (target: Target, path: seq<string>, transientRetries: nat, writeChunkSize: nat, pipelineDepth: nat, s: State)
      requires Valid(s) && path == target.path && s.limbo == [] && 0 < writeChunkSize
      ensures Ready() && this.target == target && this.path == path && this.transientRetries == transientRetries
      ensures this.writeChunkSize == writeChunkSize && this.pipelineDepth == pipelineDepth
      ensures this.s == s && calls == 0 && !ambiguous && calm && used == {}
    {
      this.target, this.path, this.transientRetries, this.s := target, path, transientRetries, s;
      this.writeChunkSize, this.pipelineDepth := writeChunkSize, pipelineDepth;
      calls, ambiguous, calm, nextTemp, fusedSupported, used := 0, false, true, 0, true, {};
    }

    ghost predicate Ready()
      reads this
    {
      && Valid(s) && path == target.path && NamesBelow(s, nextTemp)
      && 0 < writeChunkSize && (calm ==> !ambiguous)
    }

    ghost function Now(): View
      reads this
    {
      View(s, ambiguous, calm)
    }

    /** The client's requests name only files it knows and temporary names it generated. */
    ghost predicate Sendable(ops: seq<Op>)
      reads this
    {
      Known(s, Full(ops)) && forall n | n in OpenedNames(Full(ops)) :: n.id < nextTemp
    }

    /** The network and the server: any behaviour `CallOk` allows. */
    method Call(ops: seq<Op>) returns (res: CallResult, run: seq<Step>)
      requires Ready() && Sendable(ops)
      modifies this`s, this`calls, this`ambiguous, this`calm
      ensures Ready() && Loose(old(s), s, Full(ops))
      ensures CallOk(target, old(s), Full(ops), res, run, s)
      ensures calls == old(calls) + 1
      ensures ambiguous == (old(ambiguous) || Unclear(CodesOf(Full(ops)), res, old(s), s))
      ensures calm == (old(calm) && Smooth(Full(ops), res, run, old(s), s))
    {
      hide Rely, Valid, RunOk, Faithful, Intact, Loose;
      var s1: State := *;
      res, run := *, *;
      if !CallOk(target, s, Full(ops), res, run, s1) {
        RelyRefl(s);
        res, run, s1 := Unsent(RequestNotSent(ConnectionLost)), [], s;
      }
      CallLoose(target, s, Full(ops), res, run, s1);
      LooseNames(s, s1, Full(ops), nextTemp);
      ambiguous := ambiguous || Unclear(CodesOf(Full(ops)), res, s, s1);
      calm := calm && Smooth(Full(ops), res, run, s, s1);
      calls := calls + 1;
      s := s1;
    }

    /** Sends one compound and checks its SEQUENCE result. */
    method CompoundRawOnce(ops: seq<Op>) returns (r: Result<Wire, Error>, run: seq<Step>)
      requires Ready() && Sendable(ops)
      modifies this`s, this`calls, this`ambiguous, this`calm
      ensures Ready() && Sendable(ops) && Loose(old(s), s, Full(ops))
      ensures calls == old(calls) + 1
      ensures r.Ok? ==> RunOk(target, old(s), Full(ops), run, s) && Faithful(run, r.value)
      ensures r.Err? ==> r.error.SessionLevel()
      ensures r.Err? && !Vague(r.error) ==> Rely(old(s), s) && (r.error.Nfs? ==> r.error.op == SEQUENCE)
      ensures old(ambiguous) ==> ambiguous
      ensures !ambiguous ==> s.boot == old(s).boot
      ensures !ambiguous && r.Err? ==> !Vague(r.error)
      ensures !ambiguous && r.Ok? ==> Intact(CodesOf(Full(ops)), r.value)
      ensures calm ==> old(calm) && r.Ok? && SmoothWire(Full(ops), r.value, run)
    {
      hide Rely, Valid, RunOk, Faithful, Loose, FullWrites, CodesOf;
      ghost var s0 := s;
      var res;
      res, run := Call(ops);
      StillKnown(s0, s, ops);
      if !res.Answered? {
        return Err(res.error), run;
      }
      var w := res.wire;
      FullCodes(ops);
      var head := DecodeSequence(w);
      if head.Err? {
        if head.error.Nfs? {
          SequenceFailedIsRely(target, s0, ops, run, s, w);
        }
        return Err(head.error), run;
      }
      return Ok(w), run;
    }

    /** Sends a compound and decodes its answer, replaying it while the failure is transient, safe
        to replay and within the retry budget that `attempts` counts. */
    method CompoundDecode(ops: seq<Op>, d: Decoder, retry: bool, attempts: nat, ghost x: Extent)
      returns (r: Decoded<Answer>, used: nat, ghost seen: Seen)
      requires Ready() && Sendable(ops) && CodesOf(Full(ops)) == PlanOf(d)
      requires (retry ==> StaticCover(ops, x)) && attempts <= transientRetries
      modifies this`s, this`calls, this`ambiguous, this`calm
      ensures Ready() && Sendable(ops)
      ensures attempts <= used <= transientRetries && calls == old(calls) + 1 + (used - attempts)
      ensures !retry ==> used == attempts
      ensures Exchanged(target, old(s), ops, d, x, r, seen, s)
      ensures retry && r.Err? && TransientStatus(r.error).Some? && TransientRetryIsSafe(ops, r.error) ==> used == transientRetries
      ensures old(ambiguous) ==> ambiguous
      ensures !ambiguous ==> Clear(target, old(s), ops, d, x, r, seen, s)
      ensures calm ==> old(calm) && Settled(target, old(s), ops, d, x, r, seen, s) && SmoothWire(Full(ops), seen.wire, seen.run)
    {
      hide Valid, RunOk, Faithful, Loose, DecodeSpec, CodesOf, SmoothWire, StaticCover, TransientRetryIsSafe, Intact, Steady, NamesBelow, Known, OpenedNames, Located, PlanOf, Agrees, Rely;
      used := attempts;
      SteadyRefl(s, x);
      while true
        invariant Ready() && Sendable(ops) && Steady(old(s), s, x)
        invariant attempts <= used <= transientRetries && calls == old(calls) + (used - attempts)
        invariant !retry ==> used == attempts
        invariant old(ambiguous) ==> ambiguous
        invariant !ambiguous ==> s.boot == old(s).boot
        invariant calm ==> old(calm)
        decreases transientRetries - used
      {
        ghost var s0 := s;
        var raw, run := CompoundRawOnce(ops);
        SteadyLoose(old(s), s0, s, x, Full(ops));
        if raw.Err? {
          if !Vague(raw.error) {
            RelySteady(s0, s, x);
            SteadyTrans(old(s), s0, s, x);
          }
          seen := Seen(s0, Wire(OK, []), []);
          return Err(Plain(raw.error)), used, seen;
        }
        seen := Seen(s0, raw.value, run);
        r := DecodeBy(d, raw.value);
        if r.Ok? {
          return;
        }
        SoundErrors(d, raw.value, r.error);
        if retry && TransientRetryIsSafe(ops, r.error) && TransientStatus(r.error).Some? && used < transientRetries {
          SafeRetryIsSteady(target, s0, ops, run, s, raw.value, r.error, x);
          SteadyTrans(old(s), s0, s, x);
          used := used + 1;
        } else {
          return;
        }
      }
    }
  }

  lemma RelyRefl(s: State)
    requires Valid(s)
    ensures Rely(s, s)
  {
    hide Evolves;
    EvolvesRefl(s, NOWHERE);
  }

  lemma CallLoose(t: Target, s0: State, ops: seq<Op>, res: CallResult, run: seq<Step>, s1: State)
    requires Valid(s0) && Known(s0, ops) && CallOk(t, s0, ops, res, run, s1)
    ensures Loose(s0, s1, ops)
  {
    hide Rely, Valid, RunOk, Faithful, Loose, Known;
    match res
    case Unsent(_) => RelyLoose(s0, ops, s1);
    case Lost(_) => PostedLoose(s0, ops, s1);
    case Answered(_) => RunLoose(t, s0, ops, run, s1);
  }

  lemma LooseNames(s0: State, s1: State, ops: seq<Op>, next: nat)
    requires Loose(s0, s1, ops) && NamesBelow(s0, next) && Known(s0, ops)
    requires forall n | n in OpenedNames(ops) :: n.id < next
    ensures Valid(s1) && NamesBelow(s1, next)
  {
    hide Valid, Weight, CountOps;
    forall n | n in OpenedNames(ops)
      ensures n.Temp?
    {
      var i :| 0 <= i < |ops| && ops[i] == Open(n);
      assert OpKnown(ops[i], s0.files.Keys);
    }
  }

  lemma StillKnown(s0: State, s1: State, ops: seq<Op>)
    requires Known(s0, Full(ops)) && Loose(s0, s1, Full(ops))
    ensures Known(s1, Full(ops))
  {
    hide Valid, Weight, CountOps, AwaitedNames, WellNamed;
    forall i | 0 <= i < |Full(ops)|
      ensures OpKnown(Full(ops)[i], s1.files.Keys)
    {
      assert OpKnown(Full(ops)[i], s0.files.Keys);
    }
  }

  lemma FullCodes(ops: seq<Op>)
    ensures |CodesOf(Full(ops))| == |ops| + 1 && CodesOf(Full(ops))[0] == SEQUENCE
  {
  }

  lemma SteadyRefl(s: State, x: Extent)
    requires Valid(s)
    ensures Steady(s, s, x)
  {
    hide Evolves;
    EvolvesRefl(s, x);
  }

  lemma SteadyLoose(s: State, m: State, e: State, x: Extent, ops: seq<Op>)
    requires Steady(s, m, x) && Loose(m, e, ops)
    ensures Loose(s, e, ops)
  {
    hide FilesEvolve, Valid, AwaitedNames, Weight, CountOps;
  }

  lemma SoundErrors(d: Decoder, w: Wire, e: DecodeError)
    requires DecodeSpec(d, w, Err(e))
    ensures Located(PlanOf(d), w, e) && e.error.SessionLevel() && !e.error.RequestNotSent?
    ensures e.error.Nfs? <==> e.status.Some?
    ensures Agrees(d, w) && Intact(PlanOf(d), w) ==> e.status.Some?
  {
    hide PlanOf, Agrees, FailedAt, Intact;
  }
}
