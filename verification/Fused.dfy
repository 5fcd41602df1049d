/** The single-compound put: what its run publishes. */
module Fused {
  import opened Errors
  import opened Server
  import opened ServerLemmas
  import opened Decode
  import opened Runs
  import opened Content
  import opened Compounds
  import opened Publishing

  /** Where the fused compound publishes. */
  function FusedPublishAt(n: nat, createNew: bool): nat {
    FusedOpenAt(n, createNew) + if createNew then 7 + n else 6
  }

  /** Of no consequence outside the directory path. */
  predicate Idle(op: Op) {
    Inert(op) && !IsKind(op, Publishes) && (op.PutFh? ==> op.handle.ExportRoot?)
  }

  predicate FusedLaidOut(ops: seq<Op>, path: seq<string>, createNew: bool, temp: Name, dest: Name, body: seq<Byte>) {
    var o, p := FusedOpenAt(|path|, createNew), FusedPublishAt(|path|, createNew);
    && |ops| == p + (if createNew then 2 else 1)
    && WalkAt(ops, 1, path) && (createNew ==> WalkAt(ops, o + 6, path))
    && (!createNew ==> ops[o - 1] == SaveFh && ops[o + 5] == RestoreFh)
    && ops[o] == Open(temp) && ops[o + 1] == GetFh && ops[o + 2] == Write(0, body)
    && ops[o + 3] == Commit(0, CommitCount(|body|)) && ops[o + 4] == Verify(|body|)
    && (createNew ==> ops[o + 5] == SaveFh && forall i | o + 6 <= i < p :: KeepsSaved(ops[i]))
    && ops[p] == (if createNew then Link(dest) else Rename(temp, dest))
    && temp.Temp? && !dest.Temp?
    && (forall i | 0 <= i < |ops| && i != p && i != o && i != o + 2 :: Idle(ops[i]))
  }

  lemma FusedFirst(ops: seq<Op>, path: seq<string>, createNew: bool, temp: Name, dest: Name, body: seq<Byte>)
    requires FusedLaidOut(ops, path, createNew, temp, dest, body)
    ensures var o := FusedOpenAt(|path|, createNew);
            && |ops| > o + 5 && ops[o] == Open(temp) && ops[o + 1] == GetFh && ops[o + 2] == Write(0, body)
            && ops[o + 3] == Commit(0, CommitCount(|body|)) && ops[o + 4] == Verify(|body|)
  {
  }

  lemma FusedRest(ops: seq<Op>, path: seq<string>, createNew: bool, temp: Name, dest: Name, body: seq<Byte>)
    requires FusedLaidOut(ops, path, createNew, temp, dest, body)
    ensures forall i | 0 <= i < |ops| && i != FusedPublishAt(|path|, createNew) :: !IsKind(ops[i], Publishes)
    ensures forall i | 0 <= i < |ops| :: WellNamed(ops[i]) && (ops[i].PutFh? ==> ops[i].handle.ExportRoot?)
    ensures forall i | 0 <= i < |ops| && i != FusedOpenAt(|path|, createNew) && i != FusedOpenAt(|path|, createNew) + 2 :: Inert(ops[i])
  {
    forall i | 0 <= i < |ops| && i != FusedPublishAt(|path|, createNew) && i != FusedOpenAt(|path|, createNew) && i != FusedOpenAt(|path|, createNew) + 2
      ensures Idle(ops[i])
    {
    }
  }

  lemma FusedHeadIdle(path: seq<string>, createNew: bool)
    ensures |[Sequence] + FusedHeadOps(path, createNew)| == FusedOpenAt(|path|, createNew) > 1
    ensures forall i | 0 <= i < FusedOpenAt(|path|, createNew) :: Idle(([Sequence] + FusedHeadOps(path, createNew))[i])
    ensures WalkAt([Sequence] + FusedHeadOps(path, createNew), 1, path)
    ensures !createNew ==> ([Sequence] + FusedHeadOps(path, createNew))[FusedOpenAt(|path|, createNew) - 1] == SaveFh
  {
    hide PathOps, WalkAt;
    var rest := if createNew then [] else [SaveFh];
    WalkWithin([Sequence], PathOps(path), rest, 0, path);
    assert [Sequence] + FusedHeadOps(path, createNew) == [Sequence] + PathOps(path) + rest;
  }

  lemma FusedTailIdle(path: seq<string>, temp: Name, dest: Name, createNew: bool)
    requires temp.Temp? && !dest.Temp?
    ensures var tail, p := FusedTailOps(path, temp, dest, createNew), FusedPublishAt(|path|, createNew) - FusedOpenAt(|path|, createNew) - 5;
            && |tail| == p + (if createNew then 2 else 1)
            && tail[p] == (if createNew then Link(dest) else Rename(temp, dest))
            && (createNew ==> tail[0] == SaveFh && WalkAt(tail, 1, path) && forall i | 1 <= i < p :: KeepsSaved(tail[i]))
            && (!createNew ==> tail[0] == RestoreFh)
            && Inert(tail[p]) && forall i | 0 <= i < |tail| && i != p :: Idle(tail[i])
  {
    hide PathOps, PublishTail;
  }

  lemma FusedLayout(path: seq<string>, temp: Name, dest: Name, body: seq<Byte>, createNew: bool)
    requires temp.Temp? && !dest.Temp?
    ensures FusedLaidOut(Full(FusedOps(path, temp, dest, body, createNew)), path, createNew, temp, dest, body)
  {
    var head := [Sequence] + FusedHeadOps(path, createNew);
    var middle, tail := FusedMiddleOps(temp, body), FusedTailOps(path, temp, dest, createNew);
    FusedSplit(path, temp, dest, body, createNew);
    FusedHeadIdle(path, createNew);
    FusedTailIdle(path, temp, dest, createNew);
    hide PathOps, PublishTail, CommitCount, FusedHeadOps, FusedTailOps, FusedOps, Full, FusedOpenAt, FusedPublishAt, WalkAt;
    var ops := Full(FusedOps(path, temp, dest, body, createNew));
    PartsAt(head, middle, tail);
    FusedWalks(head, middle, tail, createNew, path);
    forall i | 0 <= i < |ops| && i != FusedPublishAt(|path|, createNew) && i != |head| && i != |head| + 2
      ensures Idle(ops[i])
    {
      assert i < |head| ==> ops[i] == head[i];
      assert i >= |head| + 5 ==> ops[i] == tail[i - |head| - 5];
    }
  }

  lemma FusedWalks(head: seq<Op>, middle: seq<Op>, tail: seq<Op>, createNew: bool, path: seq<string>)
    requires WalkAt(head, 1, path) && (createNew ==> WalkAt(tail, 1, path))
    ensures WalkAt(head + middle + tail, 1, path)
    ensures createNew ==> WalkAt(head + middle + tail, |head| + |middle| + 1, path)
  {
    hide WalkAt;
    WalkWithin([], head, middle + tail, 1, path);
    assert [] + head + (middle + tail) == head + middle + tail;
    if createNew {
      WalkWithin(head + middle, tail, [], 1, path);
      assert head + middle + tail + [] == head + middle + tail;
    }
  }

  lemma PartsAt(a: seq<Op>, b: seq<Op>, c: seq<Op>)
    ensures var s := a + b + c;
            && (forall i | 0 <= i < |a| :: s[i] == a[i])
            && (forall i | |a| <= i < |a| + |b| :: s[i] == b[i - |a|])
            && forall i | |a| + |b| <= i < |s| :: s[i] == c[i - |a| - |b|]
  {
  }

  lemma FusedSplit(path: seq<string>, temp: Name, dest: Name, body: seq<Byte>, createNew: bool)
    ensures Full(FusedOps(path, temp, dest, body, createNew))
         == ([Sequence] + FusedHeadOps(path, createNew)) + FusedMiddleOps(temp, body) + FusedTailOps(path, temp, dest, createNew)
  {
    hide FusedHeadOps, FusedMiddleOps, FusedTailOps;
  }

  // ---------------------------------------------------------------- the run

  predicate Empty(s: State, fid: Fid) {
    Own(s, fid) && s.files[fid].data == []
  }

  /** The OPEN creates an empty file that only this put knows. */
  lemma OpenMakesEmpty(t: Target, s: State, c: Ctx, temp: Name, s': State, c': Ctx, r: Reply)
    requires Valid(s) && OpStep(t, s, c, Open(temp), s', c', r) && r.status == OK && Here(t, c.cur)
    requires temp.Temp? && temp !in AwaitedNames(s.limbo)
    ensures c'.cur.FileFh? && Empty(s', c'.cur.fid) && Leads(s', temp, c'.cur.fid) && c'.cur.fid !in s.files
  {
    hide FileOk, AwaitedNames, CountOps, LimboCount;
    var f := c'.cur.fid;
    forall j | 0 <= j < |s.limbo|
      ensures !EntryTouches(s.limbo[j], f)
    {
      assert EntryOk(s.limbo[j], s.files.Keys);
      assert forall i | 0 <= i < |s.limbo[j].ops| :: OpKnown(s.limbo[j].ops[i], s.files.Keys);
    }
  }

  lemma EmptyEvolves(s: State, s': State, fid: Fid)
    requires Rely(s, s') && Empty(s, fid)
    ensures Empty(s', fid)
  {
    hide NamesEvolve, NoHeavier;
  }

  /** At most `n` bytes, all of them the body's. */
  predicate Wrote(s: State, fid: Fid, body: seq<Byte>, n: nat, v: Option<nat>) {
    Kept(s, fid, body, 0, n, v) && |s.files[fid].data| <= n
  }

  lemma WroteEvolves(s: State, s': State, fid: Fid, body: seq<Byte>, n: nat, v: Option<nat>)
    requires Rely(s, s') && Wrote(s, fid, body, n, v)
    ensures Wrote(s', fid, body, n, v)
  {
    hide NamesEvolve, NoHeavier, Held;
    KeptEvolves(s, s', NOWHERE, fid, body, 0, n, v);
    assert Own(s, fid);
  }

  function VerifierOf(b: Body): Option<nat>
    requires b.WriteBody?
  {
    if b.level.FileSync? then None else Some(b.verifier)
  }

  lemma WriteMakesWrote(t: Target, s: State, c: Ctx, body: seq<Byte>, s': State, c': Ctx, r: Reply, fid: Fid)
    requires Valid(s) && OpStep(t, s, c, Write(0, body), s', c', r) && r.status == OK
    requires Empty(s, fid) && c.cur == FileFh(fid)
    ensures r.body.WriteBody? && r.body.count <= |body| && Wrote(s', fid, body, r.body.count, VerifierOf(r.body))
  {
    hide AwaitedNames, CountOps, LimboCount;
    var d := body[..r.body.count];
    var g := WriteFile(s.files[fid], 0, d, r.body.level);
    assert s'.files[fid] == g && g.data == d;
    forall i | 0 <= i < |d|
      ensures Held(s', fid, body, i, VerifierOf(r.body))
    {
      assert g.data[i] == body[i];
    }
  }

  lemma CommitMakesStable(t: Target, s: State, c: Ctx, body: seq<Byte>, n: nat, v: Option<nat>, s': State, c': Ctx, r: Reply, fid: Fid)
    requires Valid(s) && OpStep(t, s, c, Commit(0, CommitCount(|body|)), s', c', r) && r.status == OK
    requires Wrote(s, fid, body, n, v) && c.cur == FileFh(fid)
    requires v.Some? ==> r.body == VerifierBody(v.value)
    ensures Wrote(s', fid, body, n, None)
  {
    hide AwaitedNames, CountOps, LimboCount, Held, FileOk;
    CommitSecures(s, fid, body, n, v, 0, CommitCount(|body|));
  }

  /** From a successful VERIFY on, the new file is secured. */
  lemma FusedSecures(t: Target, s0: State, ops: seq<Op>, run: seq<Step>, s1: State, path: seq<string>, createNew: bool,
                     temp: Name, body: seq<Byte>, k: nat)
    requires RunOk(t, s0, ops, run, s1) && FusedLaidOut(ops, path, createNew, temp, t.dest, body)
    requires path == t.path && temp.Temp? && temp !in AwaitedNames(s0.limbo)
    requires OkOps(run) > FusedOpenAt(|path|, createNew) + 4 && FusedOpenAt(|path|, createNew) + 4 < k <= |run|
    requires RunCommitted(run, FusedOpenAt(|path|, createNew))
    ensures run[FusedOpenAt(|path|, createNew)].c'.cur.FileFh?
    ensures Secured(StateAt(run, s1, k), run[FusedOpenAt(|path|, createNew)].c'.cur.fid, temp, body)
  {
    hide RunOk, Evolves, Valid, Rely, Secured, RunCommitted, FusedLaidOut, AwaitedNames;
    var o := FusedOpenAt(|path|, createNew);
    var fid := FusedWritten(t, s0, ops, run, s1, path, createNew, temp, body);
    RunLength(t, s0, ops, run, s1);
    assert CoveredBetween(run, ops, NOWHERE, o + 4, k) by { FusedInertAfter(run, ops, path, createNew, temp, t.dest, body, k); }
    RunEvolvesFrom(t, s0, ops, run, s1, NOWHERE, o + 4, k);
    SecuredEvolves(run[o + 4].pre, StateAt(run, s1, k), fid, temp, body);
  }

  lemma FusedInertAfter(run: seq<Step>, ops: seq<Op>, path: seq<string>, createNew: bool, temp: Name, dest: Name, body: seq<Byte>, k: nat)
    requires FusedLaidOut(ops, path, createNew, temp, dest, body) && FusedOpenAt(|path|, createNew) + 4 < k <= |run| <= |ops|
    ensures CoveredBetween(run, ops, NOWHERE, FusedOpenAt(|path|, createNew) + 4, k)
  {
    FusedRest(ops, path, createNew, temp, dest, body);
    forall i | FusedOpenAt(|path|, createNew) + 4 <= i < k
      ensures Covers(run[i].pre, run[i].c, ops[i], NOWHERE)
    {
      assert Inert(ops[i]);
    }
  }

  /** The run's WRITE was stable, or its COMMIT came from the same instance. */
  predicate RunCommitted(run: seq<Step>, o: nat) {
    o + 3 < |run| && run[o + 2].reply.body.WriteBody? &&
    (VerifierOf(run[o + 2].reply.body).Some? ==> run[o + 3].reply.body == VerifierBody(run[o + 2].reply.body.verifier))
  }

  /** The file was created at `o` and its first bytes written. */
  predicate Created(run: seq<Step>, o: nat, temp: Name, body: seq<Byte>, fid: Fid) {
    && o + 3 < |run|
    && run[o].c'.cur == FileFh(fid) && Leads(run[o].post, temp, fid)
    && run[o + 2].reply.body.WriteBody? && run[o + 2].reply.body.count <= |body|
    && Wrote(run[o + 3].pre, fid, body, run[o + 2].reply.body.count, VerifierOf(run[o + 2].reply.body))
  }

  /** The created file holds the whole body, stable, when VERIFY sees it. */
  predicate Complete(run: seq<Step>, o: nat, temp: Name, body: seq<Byte>, fid: Fid) {
    && o + 4 < |run| && run[o].c'.cur == FileFh(fid) && Secured(run[o + 4].pre, fid, temp, body)
    && run[o + 2].reply.body.WriteBody? && run[o + 2].reply.body.count == |body|
  }

  lemma FusedStaysFresh(t: Target, s0: State, ops: seq<Op>, run: seq<Step>, s1: State, path: seq<string>, createNew: bool, temp: Name, body: seq<Byte>, k: nat)
    requires RunOk(t, s0, ops, run, s1) && FusedLaidOut(ops, path, createNew, temp, t.dest, body)
    requires temp !in AwaitedNames(s0.limbo) && k < |run|
    ensures temp !in AwaitedNames(run[k].pre.limbo)
  {
    hide RunOk, FusedLaidOut, Grows, AwaitedNames;
    FusedRest(ops, path, createNew, temp, t.dest, body);
    RunGrows(t, s0, ops, run, s1, k);
  }

  /** The OPEN acts in the destination's directory, which the RENAME's compound also keeps saved. */
  lemma FusedEnters(t: Target, s0: State, ops: seq<Op>, run: seq<Step>, s1: State, path: seq<string>, createNew: bool, temp: Name, body: seq<Byte>)
    requires RunOk(t, s0, ops, run, s1) && FusedLaidOut(ops, path, createNew, temp, t.dest, body) && path == t.path
    requires |run| > FusedOpenAt(|path|, createNew)
    ensures Here(t, run[FusedOpenAt(|path|, createNew)].c.cur)
    ensures !createNew ==> Here(t, run[FusedOpenAt(|path|, createNew)].c.saved)
  {
    hide RunOk, WalkAt, Here, Idle;
    RunLength(t, s0, ops, run, s1);
    WalkedHere(t, s0, ops, run, s1, 1, path);
    if !createNew {
      var k := 2 + |path|;
      CurKept(t, s0, ops, run, s1, k, k + 1);
      SaveStep(t, s0, ops, run, s1, k);
    }
  }

  /** The publish operation acts there too. */
  lemma FusedReturns(t: Target, s0: State, ops: seq<Op>, run: seq<Step>, s1: State, path: seq<string>, createNew: bool, temp: Name, body: seq<Byte>)
    requires RunOk(t, s0, ops, run, s1) && FusedLaidOut(ops, path, createNew, temp, t.dest, body) && path == t.path
    requires |run| > FusedPublishAt(|path|, createNew)
    ensures Here(t, run[FusedPublishAt(|path|, createNew)].c.cur)
    ensures !createNew ==> Here(t, run[FusedPublishAt(|path|, createNew)].c.saved)
    ensures createNew && |run| > FusedPublishAt(|path|, createNew) + 1 ==> Here(t, run[FusedPublishAt(|path|, createNew) + 1].c.cur)
  {
    hide RunOk, WalkAt, Here, OpStep;
    RunLength(t, s0, ops, run, s1);
    var o, p := FusedOpenAt(|path|, createNew), FusedPublishAt(|path|, createNew);
    if createNew {
      PublishesHere(t, s0, ops, run, s1, o + 6, path, true);
    } else {
      FusedEnters(t, s0, ops, run, s1, path, createNew, temp, body);
      SavedKept(t, s0, ops, run, s1, o, o + 5);
      SavedKept(t, s0, ops, run, s1, o, p);
      RestoreStep(t, s0, ops, run, s1, o + 5);
    }
  }

  lemma RestoreStep(t: Target, s0: State, ops: seq<Op>, run: seq<Step>, s1: State, k: nat)
    requires RunOk(t, s0, ops, run, s1) && k + 1 < |run| && ops[k] == RestoreFh
    ensures run[k + 1].c.cur == run[k].c.saved
  {
    hide Valid, Rely, RunOk;
    RunStep(t, s0, ops, run, s1, k);
  }

  /** OPEN and GETFH. */
  lemma FusedOpened(t: Target, s0: State, ops: seq<Op>, run: seq<Step>, s1: State, path: seq<string>, createNew: bool, temp: Name, body: seq<Byte>)
    returns (fid: Fid)
    requires RunOk(t, s0, ops, run, s1) && FusedLaidOut(ops, path, createNew, temp, t.dest, body)
    requires path == t.path && temp.Temp? && temp !in AwaitedNames(s0.limbo)
    requires |run| > FusedOpenAt(|path|, createNew) + 2
    ensures var o := FusedOpenAt(|path|, createNew);
            && run[o].c'.cur == FileFh(fid) && Leads(run[o].post, temp, fid)
            && Empty(run[o + 2].pre, fid) && run[o + 2].c.cur == FileFh(fid)
  {
    hide RunOk, FusedLaidOut, Evolves, Valid, Rely, Leads, OpStep, AwaitedNames, Empty;
    var o := FusedOpenAt(|path|, createNew);
    RunLength(t, s0, ops, run, s1);
    FusedFirst(ops, path, createNew, temp, t.dest, body);
    FusedStaysFresh(t, s0, ops, run, s1, path, createNew, temp, body, o);
    RunStep(t, s0, ops, run, s1, o);
    RunStep(t, s0, ops, run, s1, o + 1);
    var e, g := run[o], run[o + 1];
    FusedEnters(t, s0, ops, run, s1, path, createNew, temp, body);
    OpenMakesEmpty(t, e.pre, e.c, temp, e.post, e.c', e.reply);
    fid := e.c'.cur.fid;
    StepKeepsCur(t, g.pre, g.c, GetFh, g.post, g.c', g.reply);
    EmptyEvolves(e.post, g.pre, fid);
    GetFhIdle(t, g);
    EmptyEvolves(g.post, run[o + 2].pre, fid);
  }

  /** WRITE. */
  lemma FusedCreated(t: Target, s0: State, ops: seq<Op>, run: seq<Step>, s1: State, path: seq<string>, createNew: bool, temp: Name, body: seq<Byte>)
    returns (fid: Fid)
    requires RunOk(t, s0, ops, run, s1) && FusedLaidOut(ops, path, createNew, temp, t.dest, body)
    requires path == t.path && temp.Temp? && temp !in AwaitedNames(s0.limbo)
    requires |run| > FusedOpenAt(|path|, createNew) + 3
    ensures Created(run, FusedOpenAt(|path|, createNew), temp, body, fid)
  {
    hide RunOk, FusedLaidOut, Evolves, Valid, Rely, Leads, Kept, OpStep, AwaitedNames, Wrote, Empty;
    var o := FusedOpenAt(|path|, createNew);
    RunLength(t, s0, ops, run, s1);
    FusedFirst(ops, path, createNew, temp, t.dest, body);
    fid := FusedOpened(t, s0, ops, run, s1, path, createNew, temp, body);
    RunStep(t, s0, ops, run, s1, o + 2);
    var e := run[o + 2];
    WriteMakesWrote(t, e.pre, e.c, body, e.post, e.c', e.reply, fid);
    WroteEvolves(e.post, run[o + 3].pre, fid, body, e.reply.body.count, VerifierOf(e.reply.body));
  }

  /** COMMIT and VERIFY. */
  lemma FusedWritten(t: Target, s0: State, ops: seq<Op>, run: seq<Step>, s1: State, path: seq<string>, createNew: bool, temp: Name, body: seq<Byte>)
    returns (fid: Fid)
    requires RunOk(t, s0, ops, run, s1) && FusedLaidOut(ops, path, createNew, temp, t.dest, body)
    requires path == t.path && temp.Temp? && temp !in AwaitedNames(s0.limbo)
    requires OkOps(run) > FusedOpenAt(|path|, createNew) + 4
    requires RunCommitted(run, FusedOpenAt(|path|, createNew))
    ensures Complete(run, FusedOpenAt(|path|, createNew), temp, body, fid)
  {
    hide RunOk, FusedLaidOut, AwaitedNames, RunCommitted, Created, Complete;
    RunLength(t, s0, ops, run, s1);
    FusedFirst(ops, path, createNew, temp, t.dest, body);
    fid := FusedCreated(t, s0, ops, run, s1, path, createNew, temp, body);
    FusedFinished(t, s0, ops, run, s1, FusedOpenAt(|path|, createNew), temp, body, fid);
  }

  lemma FusedFinished(t: Target, s0: State, ops: seq<Op>, run: seq<Step>, s1: State, o: nat, temp: Name, body: seq<Byte>, fid: Fid)
    requires RunOk(t, s0, ops, run, s1) && OkOps(run) > o + 4 && Created(run, o, temp, body, fid) && RunCommitted(run, o)
    requires o + 4 < |ops| && ops[o + 1] == GetFh && ops[o + 2].Write?
    requires ops[o + 3] == Commit(0, CommitCount(|body|)) && ops[o + 4] == Verify(|body|)
    ensures Complete(run, o, temp, body, fid)
  {
    hide RunOk, Evolves, Valid, Rely, Leads, Own, Durable, Kept, OpStep, AwaitedNames, Wrote;
    RunLength(t, s0, ops, run, s1);
    var e, g, h := run[o + 2], run[o + 3], run[o + 4];
    var m, v := e.reply.body.count, VerifierOf(e.reply.body);
    RunStep(t, s0, ops, run, s1, o);
    RunStep(t, s0, ops, run, s1, o + 3);
    RunStep(t, s0, ops, run, s1, o + 4);
    FusedStaysOn(t, s0, ops, run, s1, o, fid);
    CommitMakesStable(t, g.pre, g.c, body, m, v, g.post, g.c', g.reply, fid);
    WroteEvolves(g.post, h.pre, fid, body, m, None);
    VerifyFinishes(t, h, fid, body, m);
    LeadsToVerify(run, temp, fid, s0, ops, s1, t, o);
  }

  lemma FusedStaysOn(t: Target, s0: State, ops: seq<Op>, run: seq<Step>, s1: State, o: nat, fid: Fid)
    requires RunOk(t, s0, ops, run, s1) && o + 4 < |run| && run[o].c'.cur == FileFh(fid)
    requires KeepsCur(ops[o + 1]) && KeepsCur(ops[o + 2]) && KeepsCur(ops[o + 3])
    ensures run[o + 3].c.cur == FileFh(fid) && run[o + 4].c.cur == FileFh(fid)
  {
    hide RunOk, KeepsCur;
    RunStep(t, s0, ops, run, s1, o);
    CurKept(t, s0, ops, run, s1, o + 1, o + 3);
    CurKept(t, s0, ops, run, s1, o + 3, o + 4);
  }

  lemma GetFhIdle(t: Target, e: Step)
    requires Valid(e.pre) && OpStep(t, e.pre, e.c, GetFh, e.post, e.c', e.reply)
    ensures e.post == e.pre
  {
  }

  lemma VerifyFinishes(t: Target, e: Step, fid: Fid, body: seq<Byte>, m: nat)
    requires Valid(e.pre) && OpStep(t, e.pre, e.c, Verify(|body|), e.post, e.c', e.reply) && e.reply.status == OK
    requires Wrote(e.pre, fid, body, m, None) && e.c.cur == FileFh(fid) && m <= |body|
    ensures Own(e.pre, fid) && Durable(e.pre.files[fid], body) && m == |body|
  {
    hide Held, Durable;
    VerifySecures(e.pre, fid, body);
  }

  lemma LeadsToVerify(run: seq<Step>, temp: Name, fid: Fid, s0: State, ops: seq<Op>, s1: State, t: Target, o: nat)
    requires RunOk(t, s0, ops, run, s1) && o + 4 < |run| && Leads(run[o].post, temp, fid)
    requires forall i | o + 1 <= i < o + 4 :: !ops[i].Open? && WellNamed(ops[i])
    ensures Leads(run[o + 4].pre, temp, fid)
  {
    hide RunOk, Evolves, Valid, OpStep, Leads;
    RunLength(t, s0, ops, run, s1);
    RunStep(t, s0, ops, run, s1, o);
    RelyEvolves(run[o].post, run[o + 1].pre);
    LeadsEvolves(run[o].post, run[o + 1].pre, NOWHERE, temp, fid);
    var i := o + 1;
    while i < o + 4
      invariant o + 1 <= i <= o + 4 && Leads(run[i].pre, temp, fid)
    {
      RunStep(t, s0, ops, run, s1, i);
      var e, op := run[i], ops[i];
      var x := Extent(if e.c.cur.FileFh? then e.c.cur.fid else 0, if op.Write? then op.offset else 0,
                      if op.Write? then op.offset + |op.data| else 0, {});
      OpStepEvolves(t, e.pre, e.c, op, e.post, e.c', e.reply, x);
      LeadsEvolves(e.pre, e.post, x, temp, fid);
      RelyEvolves(e.post, run[i + 1].pre);
      LeadsEvolves(e.post, run[i + 1].pre, NOWHERE, temp, fid);
      i := i + 1;
    }
  }

  /** Reaching past the publish operation of the fused compound means it published. */
  lemma FusedPublishes(t: Target, s0: State, ops: seq<Op>, run: seq<Step>, s1: State, path: seq<string>, createNew: bool, temp: Name, body: seq<Byte>)
    requires RunOk(t, s0, ops, run, s1) && FusedLaidOut(ops, path, createNew, temp, t.dest, body)
    requires path == t.path && temp.Temp? && temp !in AwaitedNames(s0.limbo) && Unpublished(s0)
    requires OkOps(run) > FusedPublishAt(|path|, createNew)
    requires RunCommitted(run, FusedOpenAt(|path|, createNew))
    ensures exists fid :: Published(s1, fid, body)
  {
    hide RunOk, Evolves, Valid, Rely, Secured, Unpublished, OpStep, AwaitedNames, Published;
    var o, p := FusedOpenAt(|path|, createNew), FusedPublishAt(|path|, createNew);
    RunLength(t, s0, ops, run, s1);
    FusedSecures(t, s0, ops, run, s1, path, createNew, temp, body, p);
    var fid := run[o].c'.cur.fid;
    RunStep(t, s0, ops, run, s1, o);
    if createNew {
      CurKept(t, s0, ops, run, s1, o + 1, o + 5);
      SaveStep(t, s0, ops, run, s1, o + 5);
      SavedKept(t, s0, ops, run, s1, o + 6, p);
    }
    FusedRest(ops, path, createNew, temp, t.dest, body);
    FusedReturns(t, s0, ops, run, s1, path, createNew, temp, body);
    PublishStep(t, s0, ops, run, s1, p, fid, temp, body);
  }
}
