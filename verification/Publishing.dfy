/** What the publish compounds publish: the put's own file, holding exactly the body, all of it
    stable; and what has been secured once the CLOSE succeeded. */
module Publishing {
  import opened Errors
  import opened Server
  import opened ServerLemmas
  import opened Decode
  import opened Runs
  import opened Content
  import opened Compounds

  lemma {:induction false} CountNone(ops: seq<Op>, k: Kind)
    requires forall i | 0 <= i < |ops| :: !IsKind(ops[i], k)
    ensures CountOps(ops, k) == 0
  {
    if ops != [] {
      CountNone(ops[..|ops| - 1], k);
    }
  }

  lemma {:induction false} CountOnce(ops: seq<Op>, k: Kind, p: nat)
    requires p < |ops| && forall i | 0 <= i < |ops| && i != p :: !IsKind(ops[i], k)
    ensures CountOps(ops, k) <= 1
  {
    if p == |ops| - 1 {
      CountNone(ops[..|ops| - 1], k);
    } else {
      CountOnce(ops[..|ops| - 1], k, p);
    }
  }

  /** Neither writes nor creates: it moves nothing of its own. */
  predicate Inert(op: Op) {
    !op.Write? && !op.Open? && WellNamed(op)
  }

  lemma InertCovered(run: seq<Step>, ops: seq<Op>)
    requires |run| <= |ops| && forall i | 0 <= i < |ops| :: Inert(ops[i])
    ensures RunCovered(run, ops, NOWHERE)
  {
    forall i | 0 <= i < |run|
      ensures Covers(run[i].pre, run[i].c, ops[i], NOWHERE)
    {
      assert Inert(ops[i]);
    }
  }

  // ---------------------------------------------------------------- close, then publish

  /** Where things are in the close-and-publish compound. */
  datatype Layout = Layout(commit: bool, path: seq<string>, createNew: bool) {
    function Verify(): nat { if commit then 3 else 2 }
    function Close(): nat { Verify() + 1 }
    function Walk(): nat { Close() + if createNew then 2 else 1 }
    function Publish(): nat { Verify() + 4 + |path| }
  }

  predicate LaidOut(ops: seq<Op>, l: Layout, fid: Fid, temp: Name, dest: Name, size: nat) {
    && |ops| == l.Publish() + (if l.createNew then 2 else 1)
    && ops[1] == PutFh(FileOf(fid))
    && (l.commit ==> ops[2] == Commit(0, CommitCount(size)))
    && ops[l.Verify()] == Verify(size) && ops[l.Close()] == Close
    && (l.createNew ==> ops[l.Close() + 1] == SaveFh && forall i | l.Close() + 2 <= i < l.Publish() :: KeepsSaved(ops[i]))
    && WalkAt(ops, l.Walk(), l.path) && (!l.createNew ==> ops[l.Publish() - 1] == SaveFh)
    && ops[l.Publish()] == (if l.createNew then Link(dest) else Rename(temp, dest))
    && (forall i | 0 <= i < |ops| && i != l.Publish() :: !IsKind(ops[i], Publishes))
    && (forall i | 0 <= i < |ops| && i != l.Close() :: !IsKind(ops[i], Closes))
    && (forall i | 0 <= i < |ops| :: Inert(ops[i]) && (ops[i].PutFh? && ops[i].handle.FileOf? ==> ops[i].handle.fid == fid))
  }

  lemma ClosePublishLayout(fid: Fid, path: seq<string>, temp: Name, dest: Name, size: nat, commit: bool, createNew: bool)
    requires temp.Temp? && !dest.Temp?
    ensures LaidOut(Full(ClosePublishOps(fid, path, temp, dest, size, commit, createNew)), Layout(commit, path, createNew), fid, temp, dest, size)
  {
    hide PathOps, PublishTail, ClosePublishOps, CommitCount, WalkAt;
    CloseHeadTail(fid, path, temp, dest, size, commit, createNew);
    var head, tail := CloseHead(fid, size, commit), PublishTail(path, temp, dest, createNew);
    var ops := head + tail;
    var l := Layout(commit, path, createNew);
    assert |head| == l.Close() + 1;
    WalkWithin(head, tail, [], l.Walk() - |head|, path);
    assert head + tail + [] == ops;
    forall i | |head| <= i < |ops|
      ensures ops[i] == tail[i - |head|]
      ensures Inert(ops[i]) && !IsKind(ops[i], Closes) && !(ops[i].PutFh? && ops[i].handle.FileOf?)
      ensures i != l.Publish() ==> !IsKind(ops[i], Publishes)
    {
    }
    forall i | 0 <= i < |head|
      ensures Inert(ops[i]) && !IsKind(ops[i], Publishes)
    {
      assert ops[i] == head[i];
    }
  }

  /** The put's file holds exactly the body, stable, and its temporary name leads to it. */
  predicate Secured(s: State, fid: Fid, temp: Name, body: seq<Byte>) {
    Own(s, fid) && Durable(s.files[fid], body) && Leads(s, temp, fid)
  }

  lemma SecuredEvolves(s: State, s': State, fid: Fid, temp: Name, body: seq<Byte>)
    requires Evolves(s, s', NOWHERE) && Secured(s, fid, temp, body)
    ensures Secured(s', fid, temp, body)
  {
    hide Evolves, Own, Durable, Leads;
    DurableEvolves(s, s', NOWHERE, fid, body);
    LeadsEvolves(s, s', NOWHERE, temp, fid);
  }

  /** PUTFH, then operations that leave the current file alone. */
  lemma CurIsFile(t: Target, s0: State, ops: seq<Op>, run: seq<Step>, s1: State, fid: Fid, k: nat)
    requires RunOk(t, s0, ops, run, s1) && 2 <= k < |run|
    requires ops[1] == PutFh(FileOf(fid)) && forall i | 2 <= i < k :: KeepsCur(ops[i])
    ensures run[k].c.cur == FileFh(fid)
  {
    hide RunOk, Valid, Rely;
    RunLength(t, s0, ops, run, s1);
    RunStep(t, s0, ops, run, s1, 1);
    CurKept(t, s0, ops, run, s1, 2, k);
  }

  /** Before the VERIFY, the bytes are stable: written so, or committed by the same instance. */
  lemma BeforeVerify(t: Target, s0: State, ops: seq<Op>, run: seq<Step>, s1: State, l: Layout,
                     fid: Fid, temp: Name, dest: Name, body: seq<Byte>, v: Option<nat>)
    requires RunOk(t, s0, ops, run, s1) && LaidOut(ops, l, fid, temp, dest, |body|) && l.commit == v.Some?
    requires Kept(s0, fid, body, 0, |body|, v)
    requires |run| > l.Verify()
    requires v.Some? ==> run[2].reply.body == VerifierBody(v.value)
    ensures Kept(run[l.Verify()].pre, fid, body, 0, |body|, None)
  {
    hide RunOk, Kept, Evolves, Valid, Rely;
    RunLength(t, s0, ops, run, s1);
    InertCovered(run, ops);
    RunEvolves(t, s0, ops, run, s1, NOWHERE, 2);
    KeptEvolves(s0, run[2].pre, NOWHERE, fid, body, 0, |body|, v);
    if l.commit {
      CurIsFile(t, s0, ops, run, s1, fid, 2);
      RunStep(t, s0, ops, run, s1, 2);
      assert Rely(run[2].post, run[3].pre);
      RelyEvolves(run[2].post, run[3].pre);
      CommitSecures(run[2].pre, fid, body, |body|, v, 0, CommitCount(|body|));
      KeptEvolves(run[2].post, run[3].pre, NOWHERE, fid, body, 0, |body|, None);
    }
  }

  lemma RelyEvolves(s: State, s': State)
    requires Rely(s, s')
    ensures Evolves(s, s', NOWHERE)
  {
  }

  /** From a successful VERIFY on, the file is secured. */
  lemma CloseSecures(t: Target, s0: State, ops: seq<Op>, run: seq<Step>, s1: State, l: Layout,
                     fid: Fid, temp: Name, dest: Name, body: seq<Byte>, v: Option<nat>, k: nat)
    requires RunOk(t, s0, ops, run, s1) && LaidOut(ops, l, fid, temp, dest, |body|) && l.commit == v.Some?
    requires Kept(s0, fid, body, 0, |body|, v) && Leads(s0, temp, fid)
    requires OkOps(run) > l.Verify() && l.Verify() < k <= |run|
    requires v.Some? ==> run[2].reply.body == VerifierBody(v.value)
    ensures Secured(StateAt(run, s1, k), fid, temp, body)
  {
    hide RunOk, Kept, Evolves, Valid, Rely, Leads, Own, Durable;
    var at := l.Verify();
    RunLength(t, s0, ops, run, s1);
    InertCovered(run, ops);
    BeforeVerify(t, s0, ops, run, s1, l, fid, temp, dest, body, v);
    CurIsFile(t, s0, ops, run, s1, fid, at);
    RunStep(t, s0, ops, run, s1, at);
    assert run[at].reply.status == OK;
    VerifySecures(run[at].pre, fid, body);
    KeptOwn(run[at].pre, fid, body, None);
    RunEvolves(t, s0, ops, run, s1, NOWHERE, at);
    LeadsEvolves(s0, run[at].pre, NOWHERE, temp, fid);
    assert CoveredBetween(run, ops, NOWHERE, at, k);
    RunEvolvesFrom(t, s0, ops, run, s1, NOWHERE, at, k);
    SecuredEvolves(run[at].pre, StateAt(run, s1, k), fid, temp, body);
  }

  lemma KeptOwn(s: State, fid: Fid, body: seq<Byte>, v: Option<nat>)
    requires Kept(s, fid, body, 0, |body|, v)
    ensures Own(s, fid)
  {
  }

  // ---------------------------------------------------------------- the publication

  /** This put changed what the destination stands for exactly once, to its own file `fid`, which
      held exactly the body then, all stable; and no request at large can publish again. */
  predicate Published(s: State, fid: Fid, body: seq<Byte>) {
    && |s.changes| == 1 && s.changes[0].now.BoundTo? && s.changes[0].now.fid == fid && Durable(s.changes[0].now.file, body)
    && s.published == 1 && LimboCount(s.limbo, Publishes) == 0
  }

  /** This put left the destination alone, and no request at large can publish. */
  predicate Unpublished(s: State) {
    s.changes == [] && Weight(s, Publishes) == 0
  }

  /** A successful LINK or RENAME of a secured file, first of its kind, is the publication. */
  lemma PublishStep(t: Target, s0: State, ops: seq<Op>, run: seq<Step>, s1: State, p: nat, fid: Fid, temp: Name, body: seq<Byte>)
    requires RunOk(t, s0, ops, run, s1) && p < OkOps(run)
    requires forall i | 0 <= i < |ops| && i != p :: !IsKind(ops[i], Publishes)
    requires forall i | 0 <= i < |ops| :: WellNamed(ops[i])
    requires Unpublished(s0) && Secured(run[p].pre, fid, temp, body)
    requires Here(t, run[p].c.cur)
    requires (ops[p] == Rename(temp, t.dest) && Here(t, run[p].c.saved)) || (ops[p] == Link(t.dest) && run[p].c.saved == FileFh(fid))
    ensures Published(s1, fid, body)
  {
    hide RunOk, Evolves, Rely, Secured, OpStep, Durable, LimboCount, CountOps, AwaitedNames, Valid;
    RunLength(t, s0, ops, run, s1);
    assert run[p].reply.status == OK by { RunStatus(t, s0, ops, run, s1, p); }
    PublishWeights(t, s0, ops, run, s1, p);
    RunStep(t, s0, ops, run, s1, p);
    RunStateValid(t, s0, ops, run, s1, |run|);
    PublishOp(t, run[p], ops[p], fid, temp, body);
    RunGrowsFrom(t, s0, ops, run, s1, p);
    ChangesBounded(s1);
  }

  lemma RunStatus(t: Target, s0: State, ops: seq<Op>, run: seq<Step>, s1: State, p: nat)
    requires RunOk(t, s0, ops, run, s1) && p < OkOps(run)
    ensures run[p].reply.status == OK
  {
    hide Rely, OpStep, Valid;
  }

  lemma ChangesBounded(s: State)
    requires Valid(s)
    ensures |s.changes| <= s.published
  {
  }

  /** The operation itself: it makes the destination stand for the secured file. */
  lemma PublishOp(t: Target, e: Step, op: Op, fid: Fid, temp: Name, body: seq<Byte>)
    requires Valid(e.pre) && OpStep(t, e.pre, e.c, op, e.post, e.c', e.reply) && e.reply.status == OK
    requires e.pre.published == 0 && Secured(e.pre, fid, temp, body)
    requires Here(t, e.c.cur)
    requires (op == Rename(temp, t.dest) && Here(t, e.c.saved)) || (op == Link(t.dest) && e.c.saved == FileFh(fid))
    ensures e.post.published == 1 && |e.post.changes| == 1
    ensures e.post.changes[0].now.BoundTo? && e.post.changes[0].now.fid == fid && Durable(e.post.changes[0].now.file, body)
  {
    hide Durable, AwaitedNames;
    assert t.dest in e.pre.dir ==> e.pre.dir[t.dest] !in e.pre.mine;
  }

  lemma PublishWeights(t: Target, s0: State, ops: seq<Op>, run: seq<Step>, s1: State, p: nat)
    requires RunOk(t, s0, ops, run, s1) && p < OkOps(run)
    requires forall i | 0 <= i < |ops| && i != p :: !IsKind(ops[i], Publishes)
    requires Unpublished(s0)
    ensures Weight(run[p].pre, Publishes) == 0 && Weight(s1, Publishes) <= 1
  {
    hide RunOk, Weight, LimboCount;
    RunLength(t, s0, ops, run, s1);
    RunWeight(t, s0, ops, run, s1, Publishes, p);
    RunWeight(t, s0, ops, run, s1, Publishes, |run|);
    CountNone(ops[..p], Publishes);
    CountOnce(ops, Publishes, p);
    CountOpsMonotone(ops, OkOps(run), Publishes);
  }

  lemma RunGrowsFrom(t: Target, s0: State, ops: seq<Op>, run: seq<Step>, s1: State, p: nat)
    requires RunOk(t, s0, ops, run, s1) && p < |run|
    requires forall i | 0 <= i < |ops| :: WellNamed(ops[i])
    ensures run[p].post.published <= s1.published && run[p].post.changes <= s1.changes
    decreases |run| - p
  {
    hide Evolves, OpStep, Valid;
    RunStep(t, s0, ops, run, s1, p);
    RelyEvolves(run[p].post, StateAt(run, s1, p + 1));
    EvolvesLog(run[p].post, StateAt(run, s1, p + 1));
    if p + 1 < |run| {
      RunStep(t, s0, ops, run, s1, p + 1);
      var e := run[p + 1];
      StepGrows(t, e.pre, e.c, ops[p + 1], e.post, e.c', e.reply);
      RunGrowsFrom(t, s0, ops, run, s1, p + 1);
    }
  }

  lemma EvolvesLog(s: State, s': State)
    requires Evolves(s, s', NOWHERE)
    ensures s.published <= s'.published && s.changes <= s'.changes
  {
  }

  /** Reaching past the publish operation of a close-and-publish compound means it published. */
  lemma ClosePublishPublishes(t: Target, s0: State, ops: seq<Op>, run: seq<Step>, s1: State, l: Layout,
                              fid: Fid, temp: Name, body: seq<Byte>, v: Option<nat>)
    requires RunOk(t, s0, ops, run, s1) && LaidOut(ops, l, fid, temp, t.dest, |body|) && l.commit == v.Some?
    requires Kept(s0, fid, body, 0, |body|, v) && Leads(s0, temp, fid) && Unpublished(s0)
    requires OkOps(run) > l.Publish() && l.path == t.path
    requires v.Some? ==> run[2].reply.body == VerifierBody(v.value)
    ensures Published(s1, fid, body)
  {
    hide RunOk, Kept, Evolves, Valid, Rely, Leads, Own, Durable, Unpublished, OpStep, WalkAt, Here;
    RunLength(t, s0, ops, run, s1);
    var p := l.Publish();
    CloseSecures(t, s0, ops, run, s1, l, fid, temp, t.dest, body, v, p);
    PublishesHere(t, s0, ops, run, s1, l.Walk(), l.path, l.createNew);
    if l.createNew {
      CurIsFile(t, s0, ops, run, s1, fid, l.Close() + 1);
      SaveStep(t, s0, ops, run, s1, l.Close() + 1);
      SavedKept(t, s0, ops, run, s1, l.Close() + 2, p);
    }
    assert forall i | 0 <= i < |ops| :: Inert(ops[i]);
    PublishStep(t, s0, ops, run, s1, p, fid, temp, body);
  }

  /** After the walk that starts at `w`, LINK and the REMOVE behind it act in the destination's
      directory, and RENAME acts within it. */
  lemma PublishesHere(t: Target, s0: State, ops: seq<Op>, run: seq<Step>, s1: State, w: nat, path: seq<string>, createNew: bool)
    requires RunOk(t, s0, ops, run, s1) && WalkAt(ops, w, path) && path == t.path
    requires var p := w + 1 + |path| + if createNew then 0 else 1;
             p < |run| && (if createNew then ops[p].Link? else ops[p - 1] == SaveFh)
    ensures var p := w + 1 + |path| + if createNew then 0 else 1;
            && Here(t, run[p].c.cur) && (!createNew ==> Here(t, run[p].c.saved))
            && (createNew && p + 1 < |run| ==> Here(t, run[p + 1].c.cur))
  {
    hide RunOk, WalkAt, Here;
    WalkedHere(t, s0, ops, run, s1, w, path);
    var p := w + 1 + |path|;
    if !createNew {
      CurKept(t, s0, ops, run, s1, p, p + 1);
      SaveStep(t, s0, ops, run, s1, p);
    } else if p + 1 < |run| {
      CurKept(t, s0, ops, run, s1, p, p + 1);
    }
  }

  /** A compound that ran to its end and ended by taking the temporary name away leaves it free. */
  lemma LastTakesName(t: Target, s0: State, ops: seq<Op>, run: seq<Step>, s1: State, temp: Name)
    requires RunOk(t, s0, ops, run, s1) && OkOps(run) == |ops| > 0 && temp.Temp? && temp !in AwaitedNames(s0.limbo)
    requires forall i | 0 <= i < |ops| :: WellNamed(ops[i])
    requires var last, c := ops[|ops| - 1], run[|ops| - 1].c;
             (last == Remove(temp) && Here(t, c.cur)) || (last.Rename? && last.oldName == temp && Here(t, c.saved))
    ensures Gone(s1, temp)
  {
    hide RunOk, Valid, Rely, OpStep, AwaitedNames, Grows, Here;
    RunLength(t, s0, ops, run, s1);
    var k := |ops| - 1;
    RunGrows(t, s0, ops, run, s1, k);
    RunStep(t, s0, ops, run, s1, k);
    assert WellNamed(ops[k]);
    TakesName(t, run[k], ops[k], temp);
    RelyEvolves(run[k].post, s1);
    GoneEvolves(run[k].post, s1, NOWHERE, temp);
  }

  lemma TakesName(t: Target, e: Step, op: Op, temp: Name)
    requires Valid(e.pre) && OpStep(t, e.pre, e.c, op, e.post, e.c', e.reply) && e.reply.status == OK && WellNamed(op)
    requires (op == Remove(temp) && Here(t, e.c.cur)) || (op.Rename? && op.oldName == temp && Here(t, e.c.saved))
    requires temp.Temp? && temp !in AwaitedNames(e.pre.limbo)
    ensures Gone(e.post, temp)
  {
    hide AwaitedNames;
  }

  lemma SaveStep(t: Target, s0: State, ops: seq<Op>, run: seq<Step>, s1: State, k: nat)
    requires RunOk(t, s0, ops, run, s1) && k + 1 < |run| && ops[k] == SaveFh
    ensures run[k + 1].c.saved == run[k].c.cur
  {
    hide Valid, Rely, RunOk;
    RunStep(t, s0, ops, run, s1, k);
  }

  /** Not reaching past it means nothing was published. */
  lemma NotReachedNotPublished(t: Target, s0: State, ops: seq<Op>, run: seq<Step>, s1: State, p: nat)
    requires RunOk(t, s0, ops, run, s1) && OkOps(run) <= p <= |ops| && Unpublished(s0)
    requires forall i | 0 <= i < p :: !IsKind(ops[i], Publishes)
    ensures Unpublished(s1)
  {
    hide RunOk, LimboCount;
    RunLength(t, s0, ops, run, s1);
    RunWeight(t, s0, ops, run, s1, Publishes, |run|);
    CountNone(ops[..OkOps(run)], Publishes);
    RunStateValid(t, s0, ops, run, s1, |run|);
  }

  // ---------------------------------------------------------------- the publish alone

  /** Where the publish operation is in the compound that follows a lost publish. */
  function PublishIndex(n: nat, createNew: bool): nat {
    if createNew then 4 + n else 3 + n
  }

  predicate TailOnly(ops: seq<Op>, path: seq<string>, createNew: bool, fid: Fid, temp: Name, dest: Name) {
    var p := PublishIndex(|path|, createNew);
    && |ops| == p + (if createNew then 2 else 1)
    && (createNew ==> ops[1] == PutFh(FileOf(fid)) && ops[2] == SaveFh && forall i | 3 <= i < p :: KeepsSaved(ops[i]))
    && WalkAt(ops, if createNew then 3 else 1, path) && (!createNew ==> ops[p - 1] == SaveFh)
    && ops[p] == (if createNew then Link(dest) else Rename(temp, dest))
    && (forall i | 0 <= i < |ops| && i != p :: !IsKind(ops[i], Publishes))
    && (forall i | 0 <= i < |ops| :: !IsKind(ops[i], Closes))
    && (forall i | 0 <= i < |ops| :: Inert(ops[i]) && (ops[i].PutFh? && ops[i].handle.FileOf? ==> ops[i].handle.fid == fid))
  }

  lemma PublishLayout(fid: Fid, path: seq<string>, temp: Name, dest: Name, createNew: bool)
    requires temp.Temp? && !dest.Temp?
    ensures TailOnly(Full(PublishOps(fid, path, temp, dest, createNew)), path, createNew, fid, temp, dest)
  {
    hide PathOps, PublishTail, WalkAt;
    var head := [Sequence] + if createNew then [PutFh(FileOf(fid))] else [];
    var tail := PublishTail(path, temp, dest, createNew);
    var ops := Full(PublishOps(fid, path, temp, dest, createNew));
    assert ops == head + tail;
    WalkWithin(head, tail, [], if createNew then 1 else 0, path);
    assert head + tail + [] == ops;
    forall i | |head| <= i < |ops|
      ensures ops[i] == tail[i - |head|] && Inert(ops[i]) && !(ops[i].PutFh? && ops[i].handle.FileOf?)
      ensures i != PublishIndex(|path|, createNew) ==> !IsKind(ops[i], Publishes)
    {
    }
    forall i | 0 <= i < |head|
      ensures Inert(ops[i]) && !IsKind(ops[i], Publishes)
    {
      assert ops[i] == head[i];
    }
  }

  lemma PublishPublishes(t: Target, s0: State, ops: seq<Op>, run: seq<Step>, s1: State, path: seq<string>, createNew: bool,
                         fid: Fid, temp: Name, body: seq<Byte>)
    requires RunOk(t, s0, ops, run, s1) && TailOnly(ops, path, createNew, fid, temp, t.dest)
    requires Secured(s0, fid, temp, body) && Unpublished(s0)
    requires OkOps(run) > PublishIndex(|path|, createNew) && path == t.path
    ensures Published(s1, fid, body)
  {
    hide RunOk, Evolves, Valid, Rely, Secured, Unpublished, OpStep, WalkAt, Here;
    RunLength(t, s0, ops, run, s1);
    var p := PublishIndex(|path|, createNew);
    PublishesHere(t, s0, ops, run, s1, if createNew then 3 else 1, path, createNew);
    InertCovered(run, ops);
    RunEvolves(t, s0, ops, run, s1, NOWHERE, p);
    SecuredEvolves(s0, run[p].pre, fid, temp, body);
    if createNew {
      CurIsFile(t, s0, ops, run, s1, fid, 2);
      SaveStep(t, s0, ops, run, s1, 2);
      SavedKept(t, s0, ops, run, s1, 3, p);
    }
    assert forall i | 0 <= i < |ops| :: Inert(ops[i]);
    PublishStep(t, s0, ops, run, s1, p, fid, temp, body);
  }
}
