/** Which bytes of a file are known to hold the body, through restarts, and what the COMMIT,
    VERIFY and publish operations of a compound make of that. */
module Content {
  import opened Errors
  import opened Server
  import opened ServerLemmas
  import opened Decode
  import opened Runs

  /** Byte `i` of the body is safe: stable, or written to the server instance `v` and still there
      unless that instance is gone. */
  predicate Held(s: State, f: Fid, body: seq<Byte>, i: nat, v: Option<nat>)
    requires i < |body| && f in s.files
  {
    var d := s.files[f];
    || (i in d.stable && i < |d.data| && d.data[i] == body[i])
    || (v.Some? && v.value <= s.boot && (s.boot == v.value ==> i < |d.data| && d.data[i] == body[i]))
  }

  /** The file is this put's own and out of reach of late requests. */
  predicate Own(s: State, f: Fid) {
    f in s.mine && f in s.files && !Touched(s.limbo, f)
  }

  predicate Kept(s: State, f: Fid, body: seq<Byte>, lo: nat, hi: nat, v: Option<nat>) {
    Own(s, f) && hi <= |body| && forall i | lo <= i < hi :: Held(s, f, body, i, v)
  }

  /** The file holds exactly the body, all of it on stable storage. */
  predicate Durable(file: File, body: seq<Byte>) {
    file.data == body && forall i: nat | i < |body| :: i in file.stable
  }

  lemma OwnEvolves(s: State, s': State, x: Extent, f: Fid)
    requires Evolves(s, s', x) && Own(s, f)
    ensures Own(s', f)
  {
  }

  lemma KeptEvolves(s: State, s': State, x: Extent, f: Fid, body: seq<Byte>, lo: nat, hi: nat, v: Option<nat>)
    requires Evolves(s, s', x) && Kept(s, f, body, lo, hi, v)
    requires f != x.fid || hi <= x.lo || x.hi <= lo
    ensures Kept(s', f, body, lo, hi, v)
  {
    hide NamesEvolve;
    assert FileEvolves(s.files[f], s'.files[f], s.boot == s'.boot,
                     if f == x.fid then x.lo else 0, if f == x.fid then x.hi else 0);
    forall i | lo <= i < hi
      ensures Held(s', f, body, i, v)
    {
      assert Held(s, f, body, i, v);
    }
  }

  lemma DurableEvolves(s: State, s': State, x: Extent, f: Fid, body: seq<Byte>)
    requires Evolves(s, s', x) && Own(s, f) && Durable(s.files[f], body)
    requires f != x.fid || x.lo >= x.hi
    ensures Own(s', f) && Durable(s'.files[f], body)
  {
    hide NamesEvolve;
    assert FileEvolves(s.files[f], s'.files[f], s.boot == s'.boot,
                     if f == x.fid then x.lo else 0, if f == x.fid then x.hi else 0);
    assert forall i | 0 <= i < |body| :: i in s.files[f].stable && s.files[f].data[i] == s'.files[f].data[i];
    assert |body| > 0 ==> |body| - 1 in s.files[f].stable;
    assert s'.files[f].data == body;
  }

  /** A COMMIT answered by the instance that took the writes makes them stable. */
  lemma CommitSecures(s: State, f: Fid, body: seq<Byte>, n: nat, v: Option<nat>, off: nat, count: nat)
    requires Valid(s) && Kept(s, f, body, 0, n, v) && off == 0 && (count == 0 || n <= count)
    requires v.Some? ==> s.boot == v.value
    ensures Kept(s.(files := s.files[f := CommitFile(s.files[f], off, count)]), f, body, 0, n, None)
  {
    var g := CommitFile(s.files[f], off, count);
    forall i | 0 <= i < n
      ensures i < |g.data| && g.data[i] == body[i] && i in g.stable
    {
      assert Held(s, f, body, i, v);
    }
  }

  /** If the size matches too, the file is the body. */
  lemma VerifySecures(s: State, f: Fid, body: seq<Byte>)
    requires Valid(s) && Kept(s, f, body, 0, |body|, None) && |s.files[f].data| == |body|
    ensures Durable(s.files[f], body)
  {
    forall i | 0 <= i < |body|
      ensures s.files[f].data[i] == body[i] && i in s.files[f].stable
    {
      assert Held(s, f, body, i, None);
    }
  }

  /** The temporary name was given to our file in the destination's directory and, if still there,
      leads to it. */
  predicate Leads(s: State, temp: Name, f: Fid) {
    temp.Temp? && temp !in AwaitedNames(s.limbo) && FidAt(s.made, temp) == Some(f) && (temp in s.dir ==> s.dir[temp] == f)
  }

  lemma LeadsEvolves(s: State, s': State, x: Extent, temp: Name, f: Fid)
    requires Evolves(s, s', x) && Leads(s, temp, f) && temp !in x.names
    ensures Leads(s', temp, f)
  {
  }

  // ---------------------------------------------------------------- registers

  /** The temporary name is free and no late request will create it. */
  predicate Gone(s: State, temp: Name) {
    temp.Temp? && temp !in s.dir && temp !in AwaitedNames(s.limbo)
  }

  lemma GoneEvolves(s: State, s': State, x: Extent, temp: Name)
    requires Evolves(s, s', x) && Gone(s, temp) && temp !in x.names
    ensures Gone(s', temp)
  {
    hide Valid, FilesEvolve, AwaitedNames;
  }

  /** The operations from `a` on enter the directory that `path` leads to. */
  predicate WalkAt(ops: seq<Op>, a: nat, path: seq<string>) {
    && a + |path| < |ops| && ops[a] == PutFh(ExportRoot)
    && forall i | 0 <= i < |path| :: ops[a + 1 + i] == Lookup(path[i])
  }

  /** A run that comes past the walk is in the directory the path names, component by component. */
  lemma {:induction false} Walked(t: Target, s0: State, ops: seq<Op>, run: seq<Step>, s1: State, a: nat, path: seq<string>, k: nat)
    requires RunOk(t, s0, ops, run, s1) && WalkAt(ops, a, path)
    requires k <= |path| && a + 1 + k < |run|
    ensures run[a + 1 + k].c.cur == PathFh(path[..k])
  {
    hide RunOk, Valid, Rely;
    RunLength(t, s0, ops, run, s1);
    RunStep(t, s0, ops, run, s1, a + k);
    if k > 0 {
      Walked(t, s0, ops, run, s1, a, path, k - 1);
      assert ops[a + 1 + (k - 1)] == Lookup(path[k - 1]);
      assert path[..k] == path[..k - 1] + [path[k - 1]];
    }
  }

  /** Past the whole walk, the current directory is the destination's. */
  lemma WalkedHere(t: Target, s0: State, ops: seq<Op>, run: seq<Step>, s1: State, a: nat, path: seq<string>)
    requires RunOk(t, s0, ops, run, s1) && WalkAt(ops, a, path) && path == t.path
    requires a + 1 + |path| < |run|
    ensures Here(t, run[a + 1 + |path|].c.cur)
  {
    hide RunOk, WalkAt;
    Walked(t, s0, ops, run, s1, a, path, |path|);
    assert path[..|path|] == path;
  }

  predicate KeepsCur(op: Op) {
    op.Sequence? || op.SaveFh? || op.GetFh? || op.Close? || op.Write? || op.Commit? || op.Verify? || op.Link? || op.Rename? || op.Remove?
  }

  predicate KeepsSaved(op: Op) {
    !op.SaveFh?
  }

  lemma StepKeepsCur(t: Target, s: State, c: Ctx, op: Op, s': State, c': Ctx, r: Reply)
    requires Valid(s) && OpStep(t, s, c, op, s', c', r)
    ensures KeepsCur(op) ==> c'.cur == c.cur
    ensures KeepsSaved(op) ==> c'.saved == c.saved
  {
    hide Valid, WriteFile, CommitFile;
  }

  lemma {:induction false} CurKept(t: Target, s0: State, ops: seq<Op>, run: seq<Step>, s1: State, a: nat, k: nat)
    requires RunOk(t, s0, ops, run, s1) && a <= k < |run|
    requires forall i | a <= i < k :: KeepsCur(ops[i])
    ensures run[k].c.cur == run[a].c.cur
  {
    hide RunOk, Valid, Rely, OpStep, KeepsCur;
    if a < k {
      RunLength(t, s0, ops, run, s1);
      CurKept(t, s0, ops, run, s1, a, k - 1);
      RunStep(t, s0, ops, run, s1, k - 1);
      var e := run[k - 1];
      StepKeepsCur(t, e.pre, e.c, ops[k - 1], e.post, e.c', e.reply);
    }
  }

  lemma {:induction false} SavedKept(t: Target, s0: State, ops: seq<Op>, run: seq<Step>, s1: State, a: nat, k: nat)
    requires RunOk(t, s0, ops, run, s1) && a <= k < |run|
    requires forall i | a <= i < k :: KeepsSaved(ops[i])
    ensures run[k].c.saved == run[a].c.saved
  {
    hide RunOk, Valid, Rely, OpStep, KeepsSaved;
    if a < k {
      RunLength(t, s0, ops, run, s1);
      SavedKept(t, s0, ops, run, s1, a, k - 1);
      RunStep(t, s0, ops, run, s1, k - 1);
      var e := run[k - 1];
      StepKeepsCur(t, e.pre, e.c, ops[k - 1], e.post, e.c', e.reply);
    }
  }
}
