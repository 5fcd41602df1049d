/** What the OPEN, WRITE and WRITE+COMMIT compounds leave behind. */
module Writing {
  import opened Errors
  import opened Server
  import opened ServerLemmas
  import opened Decode
  import opened Runs
  import opened Content
  import opened Compounds
  import opened Publishing
  import opened Fused

  /** A file just opened under a fresh temporary name is this put's alone. */
  lemma OpenRun(t: Target, s0: State, path: seq<string>, temp: Name, run: seq<Step>, s1: State)
    requires RunOk(t, s0, Full(OpenOps(path, temp)), run, s1) && OkOps(run) == 4 + |path|
    requires path == t.path && temp.Temp? && temp !in AwaitedNames(s0.limbo)
    ensures var f := run[2 + |path|].c'.cur;
            f.FileFh? && Own(s1, f.fid) && Leads(s1, temp, f.fid) && run[3 + |path|].reply.body == HandleBody(FileOf(f.fid))
  {
    hide RunOk, Valid, Rely, OpStep, Leads, Empty, AwaitedNames, Grows, WalkAt, Here;
    var ops, o := Full(OpenOps(path, temp)), 2 + |path|;
    OpenLayout(path, temp);
    RunLength(t, s0, ops, run, s1);
    RunGrows(t, s0, ops, run, s1, o);
    RunStep(t, s0, ops, run, s1, o);
    RunStep(t, s0, ops, run, s1, o + 1);
    var e, g := run[o], run[o + 1];
    WalkedHere(t, s0, ops, run, s1, 1, path);
    OpenMakesEmpty(t, e.pre, e.c, temp, e.post, e.c', e.reply);
    var fid := e.c'.cur.fid;
    EmptyEvolves(e.post, g.pre, fid);
    GetFhIdle(t, g);
    GetFhAnswers(t, g);
    EmptyEvolves(g.post, s1, fid);
    EmptyOwn(s1, fid);
    RelyEvolves(e.post, g.pre);
    LeadsEvolves(e.post, g.pre, NOWHERE, temp, fid);
    RelyEvolves(g.post, s1);
    LeadsEvolves(g.post, s1, NOWHERE, temp, fid);
  }

  lemma EmptyOwn(s: State, fid: Fid)
    requires Empty(s, fid)
    ensures Own(s, fid)
  {
  }

  lemma GetFhAnswers(t: Target, e: Step)
    requires Valid(e.pre) && OpStep(t, e.pre, e.c, GetFh, e.post, e.c', e.reply) && e.reply.status == OK
    ensures e.c.cur.FileFh? && e.reply.body == HandleBody(FileOf(e.c.cur.fid))
  {
  }

  lemma OpenLayout(path: seq<string>, temp: Name)
    requires temp.Temp?
    ensures var ops := Full(OpenOps(path, temp));
            && |ops| == 4 + |path| && WalkAt(ops, 1, path) && ops[2 + |path|] == Open(temp) && ops[3 + |path|] == GetFh
            && (forall i | 0 <= i < |ops| :: WellNamed(ops[i]) && (ops[i].PutFh? ==> ops[i].handle.ExportRoot?))
            && (forall i | 0 <= i < |ops| && i != 2 + |path| :: !ops[i].Open?)
            && (forall i | 0 <= i < |ops| :: !IsKind(ops[i], Publishes) && !IsKind(ops[i], Closes))
  {
    hide PathOps, WalkAt;
    var ops := Full(OpenOps(path, temp));
    WalkWithin([Sequence], PathOps(path), [Open(temp), GetFh], 0, path);
    assert ops == [Sequence] + PathOps(path) + [Open(temp), GetFh];
    forall i | 1 <= i < 2 + |path|
      ensures Walks(ops[i])
    {
      assert ops[i] == PathOps(path)[i - 1];
    }
  }

  // ---------------------------------------------------------------- writes

  lemma WriteStepKeeps(t: Target, e: Step, fid: Fid, body: seq<Byte>, off: nat, d: seq<Byte>)
    requires Valid(e.pre) && OpStep(t, e.pre, e.c, Write(off, d), e.post, e.c', e.reply) && e.reply.status == OK
    requires e.c.cur == FileFh(fid) && Own(e.pre, fid) && off + |d| <= |body| && d == body[off..off + |d|]
    ensures e.reply.body.WriteBody? && e.reply.body.count <= |d|
    ensures Kept(e.post, fid, body, off, off + e.reply.body.count, VerifierOf(e.reply.body))
  {
    hide AwaitedNames, CountOps, LimboCount;
    var b := e.reply.body;
    var g := WriteFile(e.pre.files[fid], off, d[..b.count], b.level);
    assert e.post.files[fid] == g;
    forall i | off <= i < off + b.count
      ensures Held(e.post, fid, body, i, VerifierOf(b))
    {
      assert g.data[off + (i - off)] == d[i - off];
    }
  }

  lemma CommitStepKeeps(t: Target, e: Step, fid: Fid, body: seq<Byte>, off: nat, count: nat, hi: nat, v: Option<nat>)
    requires Valid(e.pre) && OpStep(t, e.pre, e.c, Commit(off, count), e.post, e.c', e.reply) && e.reply.status == OK
    requires e.c.cur == FileFh(fid) && Kept(e.pre, fid, body, off, hi, v) && (count == 0 || hi <= off + count)
    requires v.Some? ==> e.reply.body == VerifierBody(v.value)
    ensures Kept(e.post, fid, body, off, hi, None)
  {
    hide AwaitedNames, CountOps, LimboCount;
    var g := CommitFile(e.pre.files[fid], off, count);
    forall i | off <= i < hi
      ensures Held(e.post, fid, body, i, None)
    {
      assert Held(e.pre, fid, body, i, v);
      assert i in g.stable;
    }
  }

  lemma WriteCovered(t: Target, s0: State, ops: seq<Op>, run: seq<Step>, s1: State, fid: Fid, off: nat, d: seq<Byte>)
    requires RunOk(t, s0, ops, run, s1) && 3 <= |ops| <= 4
    requires ops[..3] == Full(WriteOps(fid, off, d)) && (|ops| == 4 ==> ops[3].Commit?)
    ensures |run| <= |ops| && RunCovered(run, ops, Extent(fid, off, off + |d|, {}))
    ensures |run| > 2 ==> run[2].c.cur == FileFh(fid)
    ensures |run| > 3 ==> run[3].c.cur == FileFh(fid)
  {
    hide RunOk, Valid, Rely;
    RunLength(t, s0, ops, run, s1);
    assert ops[0] == ops[..3][0] && ops[1] == ops[..3][1] && ops[2] == ops[..3][2];
    if |run| > 2 {
      CurIsFile(t, s0, ops, run, s1, fid, 2);
    }
    if |run| > 3 {
      CurIsFile(t, s0, ops, run, s1, fid, 3);
    }
  }

  /** A WRITE that came back keeps what it counted, with the verifier it reported. */
  lemma WriteRun(t: Target, s0: State, fid: Fid, body: seq<Byte>, off: nat, d: seq<Byte>, run: seq<Step>, s1: State)
    requires RunOk(t, s0, Full(WriteOps(fid, off, d)), run, s1) && OkOps(run) == 3
    requires Own(s0, fid) && off + |d| <= |body| && d == body[off..off + |d|]
    ensures run[2].reply.body.WriteBody? && run[2].reply.body.count <= |d|
    ensures Kept(s1, fid, body, off, off + run[2].reply.body.count, VerifierOf(run[2].reply.body))
  {
    hide RunOk, Valid, Rely, OpStep, Kept, Own, Evolves;
    var ops := Full(WriteOps(fid, off, d));
    RunLength(t, s0, ops, run, s1);
    WriteCovered(t, s0, ops, run, s1, fid, off, d);
    RunEvolves(t, s0, ops, run, s1, Extent(fid, off, off + |d|, {}), 2);
    OwnEvolves(s0, run[2].pre, Extent(fid, off, off + |d|, {}), fid);
    RunStep(t, s0, ops, run, s1, 2);
    WriteStepKeeps(t, run[2], fid, body, off, d);
    RelyEvolves(run[2].post, s1);
    KeptEvolves(run[2].post, s1, NOWHERE, fid, body, off, off + run[2].reply.body.count, VerifierOf(run[2].reply.body));
  }

  /** A WRITE+COMMIT that came back with matching verifiers keeps what it counted as stable. */
  lemma WriteCommitRun(t: Target, s0: State, fid: Fid, body: seq<Byte>, off: nat, d: seq<Byte>, run: seq<Step>, s1: State)
    requires RunOk(t, s0, Full(WriteCommitOps(fid, off, d)), run, s1) && OkOps(run) == 4
    requires Own(s0, fid) && off + |d| <= |body| && d == body[off..off + |d|]
    requires run[2].reply.body.WriteBody? && VerifierOf(run[2].reply.body).Some? ==> run[3].reply.body == VerifierBody(run[2].reply.body.verifier)
    ensures run[2].reply.body.WriteBody? && run[2].reply.body.count <= |d|
    ensures Kept(s1, fid, body, off, off + run[2].reply.body.count, None)
  {
    hide RunOk, Valid, Rely, OpStep, Kept, Own, Evolves;
    var ops := Full(WriteCommitOps(fid, off, d));
    assert ops[..3] == Full(WriteOps(fid, off, d));
    RunLength(t, s0, ops, run, s1);
    WriteCovered(t, s0, ops, run, s1, fid, off, d);
    RunEvolves(t, s0, ops, run, s1, Extent(fid, off, off + |d|, {}), 2);
    OwnEvolves(s0, run[2].pre, Extent(fid, off, off + |d|, {}), fid);
    RunStep(t, s0, ops, run, s1, 2);
    RunStep(t, s0, ops, run, s1, 3);
    WriteStepKeeps(t, run[2], fid, body, off, d);
    var n, v := run[2].reply.body.count, VerifierOf(run[2].reply.body);
    RelyEvolves(run[2].post, run[3].pre);
    KeptEvolves(run[2].post, run[3].pre, NOWHERE, fid, body, off, off + n, v);
    CommitStepKeeps(t, run[3], fid, body, off, CommitCount(|d|), off + n, v);
    RelyEvolves(run[3].post, s1);
    KeptEvolves(run[3].post, s1, NOWHERE, fid, body, off, off + n, None);
  }
}
