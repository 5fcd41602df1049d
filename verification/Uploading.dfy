/** Getting the body into a temporary file (src/client.rs): the guarded OPEN with its name retries,
    the single-chunk, sequential and pipelined writes, and their verifier bookkeeping. */
module Uploading {
  import opened Errors
  import opened Server
  import opened ServerLemmas
  import opened Decode
  import opened Runs
  import opened Content
  import opened Compounds
  import opened Publishing
  import opened Fused
  import opened Writing
  import opened Session

  const TEMP_FILE_CREATE_RETRIES := 8

  // ---------------------------------------------------------------- lemmas about one exchange

  lemma QuietExchange(a: View, b: View, ops: seq<Op>)
    requires Loose(a.s, b.s, Full(ops)) && forall i | 0 <= i < |ops| :: !IsKind(ops[i], Publishes)
    requires (a.ambiguous ==> b.ambiguous) && (b.calm ==> a.calm) && (!b.ambiguous ==> a.s.boot == b.s.boot)
    ensures Quietly(a, b)
  {
    hide Grows, Weight, AwaitedNames;
    CountNone(Full(ops), Publishes);
    CountNone(Full(ops), Replaces);
  }

  lemma QuietTrans(a: View, b: View, c: View)
    requires Quietly(a, b) && Quietly(b, c)
    ensures Quietly(a, c)
  {
    hide Valid, Weight;
  }

  lemma QuietRefl(a: View)
    requires Valid(a.s)
    ensures Quietly(a, a)
  {
    hide Valid, Weight;
  }

  /** Without trouble every exchange succeeds. */
  lemma SmoothMeansOk(d: Decoder, ops: seq<Op>, w: Wire, run: seq<Step>, r: Decoded<Answer>)
    requires DecodeSpec(d, w, r) && CodesOf(ops) == PlanOf(d) && Agrees(d, w)
    ensures SmoothWire(ops, w, run) && LINK !in PlanOf(d) ==> r.Ok?
  {
    hide Located, PlanOf, CodesOf, FullWrites, GoodAnswer, PastCommit, Agrees;
    if SmoothWire(ops, w, run) && LINK !in PlanOf(d) {
      assert PlanOf(d)[|w.replies| - 1] in PlanOf(d);
    }
  }

  lemma SteadyEvolves(s: State, s': State, x: Extent)
    requires Steady(s, s', x)
    ensures Evolves(s, s', x) && AwaitedNames(s'.limbo) <= AwaitedNames(s.limbo) && s.boot <= s'.boot
  {
    hide Valid, FilesEvolve, AwaitedNames;
  }

  // ---------------------------------------------------------------- OPEN

  lemma OpenSetup(s: State, path: seq<string>, temp: Name)
    requires temp.Temp?
    ensures var ops := OpenOps(path, temp);
            && Known(s, Full(ops)) && OpenedNames(Full(ops)) == {temp}
            && StaticCover(ops, Extent(0, 0, 0, {temp}))
            && CodesOf(Full(ops)) == PlanOf(ByOpen(|path|)) && LINK !in PlanOf(ByOpen(|path|))
            && forall i | 0 <= i < |ops| :: !IsKind(ops[i], Publishes)
  {
    hide PathOps, CodesOf;
    var ops := OpenOps(path, temp);
    OpenLayout(path, temp);
    OpenMatches(path, temp);
    assert Full(ops)[2 + |path|] == Open(temp);
    forall i | 0 <= i < |ops|
      ensures WellNamed(ops[i]) && !IsKind(ops[i], Publishes) && !ops[i].Write? && (ops[i].Open? ==> ops[i].name == temp)
    {
      assert ops[i] == Full(ops)[i + 1];
      if i < 1 + |path| {
        assert ops[i] == PathOps(path)[i];
      }
    }
  }

  /** The handle an OPEN answers with is a file of this put, empty and reachable only through the
      temporary name. */
  lemma OpenAnswered(t: Target, s0: State, path: seq<string>, temp: Name, x: Extent, a: OpenOutcome, seen: Seen, s1: State)
    requires Settled(t, s0, OpenOps(path, temp), ByOpen(|path|), x, Ok(OpenAnswer(a)), seen, s1) && path == t.path
    requires temp.Temp? && temp !in AwaitedNames(s0.limbo)
    ensures a.Opened? ==> a.handle.FileOf? && Own(s1, a.handle.fid) && Leads(s1, temp, a.handle.fid)
    ensures SmoothWire(Full(OpenOps(path, temp)), seen.wire, seen.run) ==> a.Opened?
  {
    hide RunOk, Valid, Own, Leads, AwaitedNames, Evolves, OpenOps, CodesOf, PathPlan, FullWrites, NoHeavier;
    OpenMatches(path, temp);
    var ops, n := Full(OpenOps(path, temp)), |path|;
    assert |OpenPlan(n)| == 4 + n && OpenPlan(n)[2 + n] == OPEN;
    if a.Opened? {
      SteadyEvolves(s0, seen.pre, x);
      SuccessMeansAllRan(t, seen.pre, ops, seen.run, s1, seen.wire, 4 + n);
      OpenCount(path, temp);
      OpenRun(t, seen.pre, path, temp, seen.run, s1);
    }
  }

  lemma OpenCount(path: seq<string>, temp: Name)
    ensures |Full(OpenOps(path, temp))| == 4 + |path|
  {
  }

  lemma OpenWeight(s: State, s': State, path: seq<string>, temp: Name)
    requires Loose(s, s', Full(OpenOps(path, temp))) && temp.Temp?
    ensures Weight(s', Opens) <= Weight(s, Opens) + 1
  {
    hide Grows, Weight, AwaitedNames, OpenOps;
    OpenLayout(path, temp);
    CountOnce(Full(OpenOps(path, temp)), Opens, 2 + |path|);
  }

  method FreshTemp(session: NfsSession) returns (temp: Name)
    requires session.Ready()
    modifies session`nextTemp
    ensures session.Ready() && temp == Temp(old(session.nextTemp)) && session.nextTemp == old(session.nextTemp) + 1
    ensures temp !in AwaitedNames(session.s.limbo)
  {
    temp := Temp(session.nextTemp);
    session.nextTemp := session.nextTemp + 1;
  }

  /** One guarded OPEN, which runs at most once however often the compound is replayed. */
  method OpenFile(session: NfsSession, temp: Name) returns (r: Result<OpenOutcome, Error>)
    requires session.Ready() && temp.Temp? && temp.id < session.nextTemp && temp !in AwaitedNames(session.s.limbo)
    modifies session`s, session`calls, session`ambiguous, session`calm, session`used
    ensures session.Ready() && Quietly(old(session.Now()), session.Now()) && session.used == old(session.used) + {temp}
    ensures Weight(session.s, Opens) <= Weight(old(session.s), Opens) + 1
    ensures r.Err? ==> r.error.SessionLevel()
    ensures r.Ok? && r.value.Opened? ==>
      r.value.handle.FileOf? && Own(session.s, r.value.handle.fid) && Leads(session.s, temp, r.value.handle.fid)
    ensures session.calm ==> r.Ok? && r.value.Opened?
  {
    hide Valid, Known, OpenedNames, StaticCover, CodesOf, PlanOf, Loose, OpenOps, Steady, RunOk, Faithful, Own, Leads, AwaitedNames, SmoothWire, Quietly, GoodUpTo, BodyIs;
    ghost var v0 := session.Now();
    ghost var x := Extent(0, 0, 0, {temp});
    var ops := OpenOps(session.path, temp);
    OpenSetup(session.s, session.path, temp);
    session.used := session.used + {temp};
    var a, _, seen := session.CompoundDecode(ops, ByOpen(|session.path|), true, 0, x);
    QuietExchange(v0, session.Now(), ops);
    OpenWeight(v0.s, session.s, session.path, temp);
    if a.Err? {
      if session.calm {
        SmoothMeansOk(ByOpen(|session.path|), Full(ops), seen.wire, seen.run, a);
      }
      return Err(a.error.error);
    }
    OpenAnswered(session.target, v0.s, session.path, temp, x, a.value.open, seen, session.s);
    return Ok(a.value.open);
  }

  datatype TempFile = TempFile(name: Name, fid: Fid)

  /** Tries up to eight fresh names. */
  method OpenTempFile(session: NfsSession) returns (r: Result<TempFile, Error>)
    requires session.Ready()
    modifies session`s, session`calls, session`ambiguous, session`calm, session`nextTemp, session`used
    ensures session.Ready() && Quietly(old(session.Now()), session.Now())
    ensures r.Err? ==> r.error.SessionLevel()
    ensures r.Ok? ==> Own(session.s, r.value.fid) && Leads(session.s, r.value.name, r.value.fid)
    ensures session.calm ==> r.Ok? && session.used == old(session.used) + {r.value.name}
  {
    hide Valid, Own, Leads, Quietly;
    ghost var v0 := session.Now();
    QuietRefl(v0);
    var tries := 0;
    while tries < TEMP_FILE_CREATE_RETRIES
      invariant session.Ready() && Quietly(v0, session.Now())
      invariant session.calm ==> tries == 0 && session.used == old(session.used)
    {
      var temp := FreshTemp(session);
      ghost var v := session.Now();
      var attempt := OpenFile(session, temp);
      QuietBoot(v, session.Now());
      QuietTrans(v0, v, session.Now());
      if attempt.Err? {
        return Err(attempt.error);
      }
      if attempt.value.Opened? {
        return Ok(TempFile(temp, attempt.value.handle.fid));
      }
      tries := tries + 1;
    }
    return Err(Protocol);
  }

  // ---------------------------------------------------------------- WRITE

  function Promise(w: WriteData): Option<nat> {
    if RequiresCommit(w) then Some(w.verifier) else None
  }

  /** The server took the first `w.count` bytes of the chunk, on the terms of its reply. */
  predicate Stored(s0: State, s1: State, fid: Fid, body: seq<Byte>, off: nat, len: nat, w: WriteData) {
    && Evolves(s0, s1, Extent(fid, off, off + len, {}))
    && (w.count <= len ==> Kept(s1, fid, body, off, off + w.count, Promise(w)))
  }

  lemma WriteSetup(s: State, fid: Fid, off: nat, d: seq<Byte>)
    requires fid in s.files
    ensures var ops := WriteOps(fid, off, d);
            && Known(s, Full(ops)) && OpenedNames(Full(ops)) == {}
            && StaticCover(ops, Extent(fid, off, off + |d|, {}))
            && CodesOf(Full(ops)) == PlanOf(ByWrite) && LINK !in PlanOf(ByWrite)
            && forall i | 0 <= i < |ops| :: !IsKind(ops[i], Publishes)
  {
  }

  lemma WriteCommitSetup(s: State, fid: Fid, off: nat, d: seq<Byte>)
    requires fid in s.files
    ensures var ops := WriteCommitOps(fid, off, d);
            && Known(s, Full(ops)) && OpenedNames(Full(ops)) == {}
            && StaticCover(ops, Extent(fid, off, off + |d|, {}))
            && CodesOf(Full(ops)) == PlanOf(ByWriteCommit) && LINK !in PlanOf(ByWriteCommit)
            && forall i | 0 <= i < |ops| :: !IsKind(ops[i], Publishes)
  {
  }

  /** The server instance an operation ran on is the one at both ends, if those are the same. */
  lemma BootBetween(t: Target, s0: State, ops: seq<Op>, run: seq<Step>, s1: State, k: nat)
    requires RunOk(t, s0, ops, run, s1) && k < |run| && forall i | 0 <= i < |ops| :: WellNamed(ops[i])
    ensures s0.boot <= run[k].pre.boot <= s1.boot
  {
    hide RunOk, Valid, Rely, OpStep, WellNamed;
    RunGrows(t, s0, ops, run, s1, k);
    RunStep(t, s0, ops, run, s1, k);
    var e := run[k];
    RunGrowsTo(t, s0, ops, run, s1, k);
  }

  lemma {:induction false} RunGrowsTo(t: Target, s0: State, ops: seq<Op>, run: seq<Step>, s1: State, k: nat)
    requires RunOk(t, s0, ops, run, s1) && k < |run| && forall i | 0 <= i < |ops| :: WellNamed(ops[i])
    ensures Grows(run[k].pre, s1)
    decreases |run| - k
  {
    hide RunOk, Valid, Rely, OpStep, WellNamed;
    RunLength(t, s0, ops, run, s1);
    RunStep(t, s0, ops, run, s1, k);
    var e := run[k];
    StepGrows(t, e.pre, e.c, ops[k], e.post, e.c', e.reply);
    RelyGrows(e.post, StateAt(run, s1, k + 1));
    if k + 1 < |run| {
      RunGrowsTo(t, s0, ops, run, s1, k + 1);
    }
  }

  lemma GrowsBoot(t: Target, s0: State, ops: seq<Op>, run: seq<Step>, s1: State)
    requires RunOk(t, s0, ops, run, s1) && forall i | 0 <= i < |ops| :: WellNamed(ops[i])
    ensures s0.boot <= s1.boot
  {
    hide RunOk, WellNamed;
    RunGrows(t, s0, ops, run, s1, |run|);
  }

  lemma WriteReplyBoot(t: Target, e: Step, op: Op)
    requires Valid(e.pre) && OpStep(t, e.pre, e.c, op, e.post, e.c', e.reply) && e.reply.status == OK
    ensures op.Write? ==> e.reply.body.WriteBody? && e.reply.body.verifier == e.pre.boot
    ensures op.Commit? ==> e.reply.body == VerifierBody(e.pre.boot)
  {
  }

  /** A reply body that is not malformed is the one the server gave. */
  lemma BodyIsTrue(run: seq<Step>, w: Wire, at: nat, b: Body)
    requires Faithful(run, w) && BodyIs(w, at, b) && b != Malformed
    ensures at < |run| && run[at].reply.body == b
  {
  }

  lemma WriteAnswered(t: Target, s0: State, fid: Fid, body: seq<Byte>, off: nat, d: seq<Byte>, w: WriteData, seen: Seen, s1: State)
    requires off + |d| <= |body| && d == body[off..off + |d|]
    requires Settled(t, s0, WriteOps(fid, off, d), ByWrite, Extent(fid, off, off + |d|, {}), Ok(WriteAnswer(w)), seen, s1)
    ensures Own(s0, fid) ==> Stored(s0, s1, fid, body, off, |d|, w)
    ensures s0.boot == s1.boot ==> w.verifier == s1.boot
    ensures SmoothWire(Full(WriteOps(fid, off, d)), seen.wire, seen.run) ==> w.count == |d|
  {
    hide RunOk, Valid, Kept, Own, Evolves, NoHeavier, AwaitedNames, Faithful, OpStep, Intact, Rely;
    var ops, x := Full(WriteOps(fid, off, d)), Extent(fid, off, off + |d|, {});
    var run := seen.run;
    assert CodesOf(ops) == WRITE_PLAN;
    SuccessMeansAllRan(t, seen.pre, ops, run, s1, seen.wire, 3);
    BodyIsTrue(run, seen.wire, 2, WriteBody(w.count, w.level, w.verifier));
    SteadyEvolves(s0, seen.pre, x);
    RunStep(t, seen.pre, ops, run, s1, 2);
    WriteReplyBoot(t, run[2], ops[2]);
    BootBetween(t, seen.pre, ops, run, s1, 2);
    if Own(s0, fid) {
      OwnEvolves(s0, seen.pre, x, fid);
      WriteRun(t, seen.pre, fid, body, off, d, run, s1);
      WriteCovered(t, seen.pre, ops, run, s1, fid, off, d);
      RunEvolves(t, seen.pre, ops, run, s1, x, |run|);
      EvolvesTrans(s0, seen.pre, s1, x);
    }
  }

  /** One WRITE of the body's bytes from `off` on. */
  method WriteOnce(session: NfsSession, fid: Fid, body: seq<Byte>, off: nat, len: nat) returns (r: Result<WriteData, Error>)
    requires session.Ready() && fid in session.s.files && off + len <= |body|
    modifies session`s, session`calls, session`ambiguous, session`calm
    ensures session.Ready() && Quietly(old(session.Now()), session.Now())
    ensures r.Err? ==> r.error.SessionLevel()
    ensures r.Ok? && Own(old(session.s), fid) ==> Stored(old(session.s), session.s, fid, body, off, len, r.value)
    ensures r.Ok? && !session.ambiguous ==> r.value.verifier == session.s.boot
    ensures session.calm ==> r.Ok? && r.value.count == len
  {
    hide Valid, Known, OpenedNames, StaticCover, CodesOf, PlanOf, Loose, WriteOps, Steady, RunOk, Faithful, Own, AwaitedNames, SmoothWire, Quietly, Stored, GoodUpTo, BodyIs;
    ghost var v0 := session.Now();
    var d := body[off..off + len];
    ghost var x := Extent(fid, off, off + len, {});
    var ops := WriteOps(fid, off, d);
    WriteSetup(session.s, fid, off, d);
    var a, _, seen := session.CompoundDecode(ops, ByWrite, true, 0, x);
    QuietExchange(v0, session.Now(), ops);
    if a.Err? {
      if session.calm {
        SmoothMeansOk(ByWrite, Full(ops), seen.wire, seen.run, a);
      }
      return Err(a.error.error);
    }
    WriteAnswered(session.target, v0.s, fid, body, off, d, a.value.write, seen, session.s);
    return Ok(a.value.write);
  }

  /** What the WRITE and COMMIT replies say, if the client read them, is what the server did. */
  lemma WriteCommitReplies(t: Target, s: State, fid: Fid, off: nat, d: seq<Byte>, w: WriteData, v: nat, wire: Wire, run: seq<Step>, s1: State)
    requires RunOk(t, s, Full(WriteCommitOps(fid, off, d)), run, s1) && Faithful(run, wire)
    requires GoodUpTo(WRITE_COMMIT_PLAN, wire, 4) && WroteAt(wire, 2, w) && VerifierAt(wire, 3, v)
    ensures OkOps(run) == 4 == |run| && run[2].reply.body == WriteBody(w.count, w.level, w.verifier) && run[3].reply.body == VerifierBody(v)
    ensures s.boot == s1.boot ==> w.verifier == v
  {
    hide RunOk, Valid, OpStep, Faithful, Rely, CommitCount, GoodUpTo, BodyIs;
    var ops := Full(WriteCommitOps(fid, off, d));
    assert CodesOf(ops) == WRITE_COMMIT_PLAN;
    RunLength(t, s, ops, run, s1);
    SuccessMeansAllRan(t, s, ops, run, s1, wire, 4);
    BodyIsTrue(run, wire, 2, WriteBody(w.count, w.level, w.verifier));
    BodyIsTrue(run, wire, 3, VerifierBody(v));
    RunStep(t, s, ops, run, s1, 2);
    RunStep(t, s, ops, run, s1, 3);
    WriteReplyBoot(t, run[2], ops[2]);
    WriteReplyBoot(t, run[3], ops[3]);
    BootBetween(t, s, ops, run, s1, 2);
    BootBetween(t, s, ops, run, s1, 3);
  }

  lemma WriteCommitAnswered(t: Target, s0: State, fid: Fid, body: seq<Byte>, off: nat, d: seq<Byte>, w: WriteData, v: nat, seen: Seen, s1: State)
    requires off + |d| <= |body| && d == body[off..off + |d|]
    requires Settled(t, s0, WriteCommitOps(fid, off, d), ByWriteCommit, Extent(fid, off, off + |d|, {}), Ok(CommitAnswer(w, v)), seen, s1)
    ensures Own(s0, fid) && (RequiresCommit(w) ==> v == w.verifier) ==>
      && Evolves(s0, s1, Extent(fid, off, off + |d|, {}))
      && (w.count <= |d| ==> Kept(s1, fid, body, off, off + w.count, None))
    ensures s0.boot == s1.boot ==> w.verifier == v
    ensures SmoothWire(Full(WriteCommitOps(fid, off, d)), seen.wire, seen.run) ==> w.count == |d|
  {
    hide RunOk, Valid, Kept, Own, Evolves, NoHeavier, AwaitedNames, Faithful, GoodUpTo, BodyIs, Intact, Rely, CommitCount;
    var ops, x := Full(WriteCommitOps(fid, off, d)), Extent(fid, off, off + |d|, {});
    var run := seen.run;
    WriteCommitReplies(t, seen.pre, fid, off, d, w, v, seen.wire, run, s1);
    SteadyEvolves(s0, seen.pre, x);
    GrowsBoot(t, seen.pre, ops, run, s1);
    if Own(s0, fid) && (RequiresCommit(w) ==> v == w.verifier) {
      OwnEvolves(s0, seen.pre, x, fid);
      WriteCommitRun(t, seen.pre, fid, body, off, d, run, s1);
      assert ops[..3] == Full(WriteOps(fid, off, d));
      WriteCovered(t, seen.pre, ops, run, s1, fid, off, d);
      RunEvolves(t, seen.pre, ops, run, s1, x, |run|);
      EvolvesTrans(s0, seen.pre, s1, x);
    }
  }

  /** A WRITE and the COMMIT of the same range in one compound. */
  method WriteAndCommit(session: NfsSession, fid: Fid, body: seq<Byte>, off: nat, len: nat) returns (r: Result<(WriteData, nat), Error>)
    requires session.Ready() && fid in session.s.files && off + len <= |body|
    modifies session`s, session`calls, session`ambiguous, session`calm
    ensures session.Ready() && Quietly(old(session.Now()), session.Now())
    ensures r.Err? ==> r.error.SessionLevel()
    ensures r.Ok? && Own(old(session.s), fid) && (RequiresCommit(r.value.0) ==> r.value.1 == r.value.0.verifier) ==>
      && Evolves(old(session.s), session.s, Extent(fid, off, off + len, {}))
      && (r.value.0.count <= len ==> Kept(session.s, fid, body, off, off + r.value.0.count, None))
    ensures r.Ok? && !session.ambiguous ==> r.value.0.verifier == r.value.1
    ensures session.calm ==> r.Ok? && r.value.0.count == len
  {
    hide Valid, Known, OpenedNames, StaticCover, CodesOf, PlanOf, Loose, WriteCommitOps, Steady, RunOk, Faithful, Own, AwaitedNames, SmoothWire, Quietly, Evolves, Kept, GoodUpTo, BodyIs;
    ghost var v0 := session.Now();
    var d := body[off..off + len];
    ghost var x := Extent(fid, off, off + len, {});
    var ops := WriteCommitOps(fid, off, d);
    WriteCommitSetup(session.s, fid, off, d);
    var a, _, seen := session.CompoundDecode(ops, ByWriteCommit, true, 0, x);
    QuietExchange(v0, session.Now(), ops);
    if a.Err? {
      if session.calm {
        SmoothMeansOk(ByWriteCommit, Full(ops), seen.wire, seen.run, a);
      }
      return Err(a.error.error);
    }
    WriteCommitAnswered(session.target, v0.s, fid, body, off, d, a.value.write, a.value.verifier, seen, session.s);
    return Ok((a.value.write, a.value.verifier));
  }

  // ---------------------------------------------------------------- bookkeeping

  /** `validate_write_reply`: a reply must make progress and not claim more than was sent. */
  function ValidateWriteReply(w: WriteData, requested: nat): (r: Result<nat, Error>)
    ensures r.Ok? <==> 0 < w.count <= requested
    ensures r.Ok? ==> r.value == w.count
  {
    if w.count == 0 || w.count > requested then Err(Protocol) else Ok(w.count)
  }

  datatype WriteOutcome = WriteOutcome(bytes: nat, verifier: Option<nat>)
  {
    /** Unstable parts must all come from the same server instance. */
    function Merge(other: WriteOutcome): Result<WriteOutcome, Error> {
      if verifier.Some? && other.verifier.Some? && verifier != other.verifier then Err(ConnectionLost)
      else Ok(WriteOutcome(bytes + other.bytes, if verifier.Some? then verifier else other.verifier))
    }
  }

  const NOTHING_WRITTEN := WriteOutcome(0, None)

  /** Merging keeps what either side promised about its own bytes. */
  lemma MergeKeeps(s: State, fid: Fid, body: seq<Byte>, a: WriteOutcome, b: WriteOutcome, lo: nat, hi: nat)
    requires a.Merge(b).Ok? && (Kept(s, fid, body, lo, hi, a.verifier) || Kept(s, fid, body, lo, hi, b.verifier))
    ensures Kept(s, fid, body, lo, hi, a.Merge(b).value.verifier)
  {
    forall i | lo <= i < hi
      ensures Held(s, fid, body, i, a.Merge(b).value.verifier)
    {
      assert Held(s, fid, body, i, a.verifier) || Held(s, fid, body, i, b.verifier);
    }
  }

  lemma KeptJoin(s: State, fid: Fid, body: seq<Byte>, lo: nat, mid: nat, hi: nat, v: Option<nat>)
    requires lo <= mid <= hi && Kept(s, fid, body, lo, mid, v) && Kept(s, fid, body, mid, hi, v)
    ensures Kept(s, fid, body, lo, hi, v)
  {
  }

  lemma KeptNothing(s: State, fid: Fid, body: seq<Byte>, at: nat, v: Option<nat>)
    requires Own(s, fid) && at <= |body|
    ensures Kept(s, fid, body, at, at, v)
  {
  }

  // ---------------------------------------------------------------- the unpipelined writes

  /** What a finished write leaves behind. */
  predicate Uploaded(s: State, fid: Fid, temp: Name, body: seq<Byte>, o: WriteOutcome) {
    o.bytes == |body| && Kept(s, fid, body, 0, |body|, o.verifier) && Leads(s, temp, fid)
  }

  /** A body of one chunk: WRITE and COMMIT together until everything is stable. */
  method WriteSingleChunkCommitted(session: NfsSession, file: TempFile, body: seq<Byte>) returns (r: Result<WriteOutcome, Error>)
    requires session.Ready() && Own(session.s, file.fid) && Leads(session.s, file.name, file.fid)
    modifies session`s, session`calls, session`ambiguous, session`calm
    ensures session.Ready() && Quietly(old(session.Now()), session.Now())
    ensures r.Err? ==> r.error.SessionLevel()
    ensures r.Ok? ==> Uploaded(session.s, file.fid, file.name, body, r.value) && r.value.verifier.None?
    ensures session.calm ==> r.Ok?
  {
    hide Valid, Own, Leads, Quietly, Kept, Evolves;
    ghost var v0 := session.Now();
    QuietRefl(v0);
    KeptNothing(session.s, file.fid, body, 0, None);
    var written := 0;
    while written < |body|
      invariant written <= |body| && session.Ready() && Quietly(v0, session.Now())
      invariant Kept(session.s, file.fid, body, 0, written, None) && Leads(session.s, file.name, file.fid)
    {
      ghost var v := session.Now();
      OwnKept(session.s, file.fid, body, 0, written, None);
      var reply := WriteAndCommit(session, file.fid, body, written, |body| - written);
      QuietTrans(v0, v, session.Now());
      if reply.Err? {
        return Err(reply.error);
      }
      var (w, commitVerifier) := reply.value;
      var count := ValidateWriteReply(w, |body| - written);
      if count.Err? {
        return Err(count.error);
      }
      if RequiresCommit(w) && commitVerifier != w.verifier {
        return Err(ConnectionLost);
      }
      ghost var x := Extent(file.fid, written, written + (|body| - written), {});
      KeptEvolves(v.s, session.s, x, file.fid, body, 0, written, None);
      LeadsEvolves(v.s, session.s, x, file.name, file.fid);
      KeptJoin(session.s, file.fid, body, 0, written, written + count.value, None);
      written := written + count.value;
    }
    return Ok(WriteOutcome(written, None));
  }

  lemma OwnKept(s: State, fid: Fid, body: seq<Byte>, lo: nat, hi: nat, v: Option<nat>)
    requires Kept(s, fid, body, lo, hi, v)
    ensures Own(s, fid) && fid in s.files
  {
  }

  /** Writes `len` bytes of the body from `start` on, one chunk after the other. */
  method WriteChunkAll(session: NfsSession, file: TempFile, body: seq<Byte>, start: nat, len: nat) returns (r: Result<WriteOutcome, Error>)
    requires session.Ready() && file.fid in session.s.files && start + len <= |body|
    requires Own(session.s, file.fid)
    modifies session`s, session`calls, session`ambiguous, session`calm
    ensures session.Ready() && Quietly(old(session.Now()), session.Now())
    ensures r.Err? ==> r.error.SessionLevel()
    ensures r.Ok? ==>
      && r.value.bytes == len && Kept(session.s, file.fid, body, start, start + len, r.value.verifier)
      && Evolves(old(session.s), session.s, Extent(file.fid, start, start + len, {}))
    ensures r.Ok? && !session.ambiguous ==> r.value.verifier.Some? ==> r.value.verifier.value == session.s.boot
    ensures session.calm ==> r.Ok?
  {
    hide Valid, Own, Quietly, Kept, Evolves;
    ghost var v0, x := session.Now(), Extent(file.fid, start, start + len, {});
    QuietRefl(v0);
    EvolvesRefl(v0.s, x);
    KeptNothing(session.s, file.fid, body, start, None);
    var written, outcome := 0, NOTHING_WRITTEN;
    while written < len
      invariant written <= len && session.Ready() && Quietly(v0, session.Now()) && outcome.bytes == written
      invariant Kept(session.s, file.fid, body, start, start + written, outcome.verifier) && Evolves(v0.s, session.s, x)
      invariant !session.ambiguous ==> outcome.verifier.Some? ==> outcome.verifier.value == session.s.boot
    {
      ghost var v := session.Now();
      var end := if written + session.writeChunkSize < len then written + session.writeChunkSize else len;
      OwnKept(session.s, file.fid, body, start, start + written, outcome.verifier);
      var reply := WriteOnce(session, file.fid, body, start + written, end - written);
      QuietBoot(v, session.Now());
      QuietTrans(v0, v, session.Now());
      if reply.Err? {
        return Err(reply.error);
      }
      var count := ValidateWriteReply(reply.value, end - written);
      if count.Err? {
        return Err(count.error);
      }
      var part := WriteOutcome(count.value, Promise(reply.value));
      var merged := outcome.Merge(part);
      if merged.Err? {
        return Err(merged.error);
      }
      ghost var y := Extent(file.fid, start + written, start + end, {});
      KeptEvolves(v.s, session.s, y, file.fid, body, start, start + written, outcome.verifier);
      MergeKeeps(session.s, file.fid, body, outcome, part, start, start + written);
      MergeKeeps(session.s, file.fid, body, outcome, part, start + written, start + written + count.value);
      KeptJoin(session.s, file.fid, body, start, start + written, start + written + count.value, merged.value.verifier);
      EvolvesWidenTo(v.s, session.s, y, x);
      EvolvesTrans(v0.s, v.s, session.s, x);
      outcome := merged.value;
      written := written + count.value;
    }
    return Ok(outcome);
  }

  lemma QuietBoot(a: View, b: View)
    requires Quietly(a, b)
    ensures !b.ambiguous ==> a.s.boot == b.s.boot && !a.ambiguous
    ensures a.s.files.Keys <= b.s.files.Keys && (b.calm ==> a.calm)
  {
    hide Valid, Weight;
  }

  lemma EvolvesWidenTo(s: State, s': State, y: Extent, x: Extent)
    requires Evolves(s, s', y) && y.fid == x.fid && x.lo <= y.lo && y.hi <= x.hi && y.names <= x.names
    ensures Evolves(s, s', x)
  {
    hide FileOk, EntryOk, FileEvolves, Touched, AwaitedNames;
    forall f | f in s.mine && !Touched(s.limbo, f)
      ensures FileEvolves(s.files[f], s'.files[f], s.boot == s'.boot, if f == x.fid then x.lo else 0, if f == x.fid then x.hi else 0)
    {
      if f == x.fid {
        FileEvolvesWidenTo(s.files[f], s'.files[f], s.boot == s'.boot, y.lo, y.hi, x.lo, x.hi);
      }
    }
  }

  lemma FileEvolvesWidenTo(f: File, g: File, sameBoot: bool, lo: nat, hi: nat, lo': nat, hi': nat)
    requires FileEvolves(f, g, sameBoot, lo, hi) && lo' <= lo && hi <= hi'
    ensures FileEvolves(f, g, sameBoot, lo', hi')
  {
  }
}
