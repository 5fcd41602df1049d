/** State movements compose, every operation and every outside event is one, and no kind of
    operation can run more often than it was requested. */
module ServerLemmas {
  import opened Errors
  import opened Server

  lemma CountOpsHead(ops: seq<Op>, k: Kind)
    requires ops != []
    ensures CountOps(ops, k) == CountOps(ops[1..], k) + if IsKind(ops[0], k) then 1 else 0
  {
    if |ops| > 1 {
      CountOpsHead(ops[..|ops| - 1], k);
      assert ops[..|ops| - 1][1..] == ops[1..][..|ops[1..]| - 1];
    }
  }

  lemma FileEvolvesTrans(f: File, g: File, h: File, b1: bool, b2: bool, lo: nat, hi: nat)
    requires FileEvolves(f, g, b1, lo, hi) && FileEvolves(g, h, b2, lo, hi)
    ensures FileEvolves(f, h, b1 && b2, lo, hi)
  {
  }

  lemma FileEvolvesWiden(f: File, g: File, b: bool, lo: nat, hi: nat)
    requires FileEvolves(f, g, b, 0, 0)
    ensures FileEvolves(f, g, b, lo, hi)
  {
  }

  lemma EvolvesRefl(s: State, x: Extent)
    requires Valid(s)
    ensures Evolves(s, s, x)
  {
  }

  lemma EvolvesTrans(s: State, m: State, e: State, x: Extent)
    requires Evolves(s, m, x) && Evolves(m, e, x)
    ensures Evolves(s, e, x)
  {
    forall f | f in s.mine && !Touched(s.limbo, f)
      ensures f in e.mine && !Touched(e.limbo, f)
      ensures FileEvolves(s.files[f], e.files[f], s.boot == e.boot,
                if f == x.fid then x.lo else 0, if f == x.fid then x.hi else 0)
    {
      FileEvolvesTrans(s.files[f], m.files[f], e.files[f], s.boot == m.boot, m.boot == e.boot,
                if f == x.fid then x.lo else 0, if f == x.fid then x.hi else 0);
    }
  }

  lemma EvolvesWiden(s: State, e: State, x: Extent)
    requires Evolves(s, e, NOWHERE)
    ensures Evolves(s, e, x)
  {
    forall f | f in s.mine && !Touched(s.limbo, f)
      ensures FileEvolves(s.files[f], e.files[f], s.boot == e.boot,
                if f == x.fid then x.lo else 0, if f == x.fid then x.hi else 0)
    {
      FileEvolvesWiden(s.files[f], e.files[f], s.boot == e.boot,
                if f == x.fid then x.lo else 0, if f == x.fid then x.hi else 0);
    }
  }

  lemma RelyTrans(s: State, m: State, e: State)
    requires Rely(s, m) && Rely(m, e)
    ensures Rely(s, e)
  {
    EvolvesTrans(s, m, e, NOWHERE);
  }

  /** What an operation may touch: a WRITE its own range of an old file, an OPEN its own name. */
  predicate Covers(s: State, c: Ctx, op: Op, x: Extent) {
    && (op.Write? && c.cur.FileFh? && c.cur.fid in s.mine ==>
          c.cur.fid == x.fid && x.lo <= op.offset && op.offset + |op.data| <= x.hi)
    && (op.Open? ==> op.name in x.names || op.name in AwaitedNames(s.limbo))
    && WellNamed(op)
  }

  lemma WriteEvolves(f: File, off: nat, d: seq<Byte>, n: nat, level: Stability, lo: nat, hi: nat)
    requires FileOk(f) && n <= |d| && lo <= off && off + |d| <= hi
    ensures FileEvolves(f, WriteFile(f, off, d[..n], level), true, lo, hi)
  {
  }

  lemma CommitEvolves(f: File, off: nat, n: nat, lo: nat, hi: nat)
    requires FileOk(f)
    ensures FileEvolves(f, CommitFile(f, off, n), true, lo, hi)
  {
  }

  /** A step that only replaces one file, or adds one. */
  lemma FileStepEvolves(s: State, s': State, f: Fid, x: Extent)
    requires Valid(s) && Valid(s') && s'.limbo == s.limbo && s'.boot == s.boot
    requires s.mine <= s'.mine <= s.mine + {f}
    requires forall g | g in s.files && g != f :: g in s'.files && s'.files[g] == s.files[g]
    requires f in s'.files
    requires f in s.mine ==> FileEvolves(s.files[f], s'.files[f], true,
                               if f == x.fid then x.lo else 0, if f == x.fid then x.hi else 0)
    ensures FilesEvolve(s, s', x)
  {
  }

  lemma SuccessKeepsValid(t: Target, s: State, c: Ctx, op: Op, s': State, c': Ctx, b: Body)
    requires Valid(s) && Success(t, s, c, op, s', c', b) && WellNamed(op)
    ensures Valid(s')
  {
    hide WriteFile, CommitFile, Splice, EntryTouches;
  }

  lemma SuccessEvolves(t: Target, s: State, c: Ctx, op: Op, s': State, c': Ctx, b: Body, x: Extent)
    requires Valid(s) && Success(t, s, c, op, s', c', b) && Covers(s, c, op, x)
    ensures Valid(s') && FilesEvolve(s, s', x)
  {
    SuccessKeepsValid(t, s, c, op, s', c', b);
    match op
    case Open(n) =>
      FileStepEvolves(s, s', c'.cur.fid, x);
    case Write(off, d) =>
      var f := s.files[c.cur.fid];
      WriteEvolves(f, off, d, b.count, b.level, x.lo, x.hi);
      FileStepEvolves(s, s', c.cur.fid, x);
    case Commit(off, n) =>
      CommitEvolves(s.files[c.cur.fid], off, n, if c.cur.fid == x.fid then x.lo else 0, if c.cur.fid == x.fid then x.hi else 0);
      FileStepEvolves(s, s', c.cur.fid, x);
    case _ =>
  }

  /** One operation moves the state like outside activity would, apart from its own extent. */
  lemma OpStepEvolves(t: Target, s: State, c: Ctx, op: Op, s': State, c': Ctx, r: Reply, x: Extent)
    requires Valid(s) && OpStep(t, s, c, op, s', c', r) && Covers(s, c, op, x)
    ensures Evolves(s, s', x) && s'.limbo == s.limbo
  {
    hide Success, Refusal, AfterRefusal, FilesEvolve, NamesEvolve, Valid;
    if r.status == OK {
      SuccessEvolves(t, s, c, op, s', c', r.body, x);
      SuccessNames(t, s, c, op, s', c', r.body, x.names);
      SuccessGrows(t, s, c, op, s', c', r.body);
    } else {
      RefusalEvolves(t, s, c, op, r, x);
    }
  }

  lemma RefusalEvolves(t: Target, s: State, c: Ctx, op: Op, r: Reply, x: Extent)
    requires Valid(s) && Refusal(t, s, c, op, r)
    ensures Evolves(s, AfterRefusal(t, s, c, op, r), x) && AfterRefusal(t, s, c, op, r).limbo == s.limbo
  {
  }

  lemma SuccessGrows(t: Target, s: State, c: Ctx, op: Op, s': State, c': Ctx, b: Body)
    requires Valid(s) && Success(t, s, c, op, s', c', b)
    ensures s.boot == s'.boot && s.mine <= s'.mine && s.files.Keys <= s'.files.Keys && s.occupied == s'.occupied
    ensures s.published <= s'.published && s.renamed <= s'.renamed && s.changes <= s'.changes && s.opens <= s'.opens && s.closes <= s'.closes
  {
    hide Valid, WriteFile, CommitFile, Rebind;
  }

  lemma SuccessNames(t: Target, s: State, c: Ctx, op: Op, s': State, c': Ctx, b: Body, names: set<Name>)
    requires Valid(s) && Success(t, s, c, op, s', c', b) && WellNamed(op) && (op.Open? ==> op.name in names || op.name in AwaitedNames(s.limbo))
    ensures NamesEvolve(s, s', names) && s'.limbo == s.limbo
  {
    hide Valid, WriteFile, CommitFile, Splice, AwaitedNames;
  }

  /** An operation ticks its own kind, and only when it succeeds. */
  lemma OpStepWeight(t: Target, s: State, c: Ctx, op: Op, s': State, c': Ctx, r: Reply, k: Kind)
    requires Valid(s) && OpStep(t, s, c, op, s', c', r)
    ensures Weight(s', k) == Weight(s, k) + if IsKind(op, k) && r.status == OK then 1 else 0
  {
    hide Valid, LimboCount, Success;
    if r.status == OK {
      SuccessCounts(t, s, c, op, s', c', r.body);
    }
  }

  lemma SuccessCounts(t: Target, s: State, c: Ctx, op: Op, s': State, c': Ctx, b: Body)
    requires Valid(s) && Success(t, s, c, op, s', c', b)
    ensures s'.limbo == s.limbo
    ensures s'.opens == s.opens + (if op.Open? then 1 else 0) && s'.closes == s.closes + (if op.Close? then 1 else 0)
    ensures s'.published == s.published + (if op.Link? || op.Rename? then 1 else 0) && s'.renamed == s.renamed + if op.Rename? then 1 else 0
  {
    hide Valid, WriteFile, CommitFile, Rebind, Here;
  }

  /** The registers of a request name files that exist. */
  lemma SuccessHandles(t: Target, s: State, c: Ctx, op: Op, s': State, c': Ctx, b: Body)
    requires Valid(s) && Success(t, s, c, op, s', c', b) && OpKnown(op, s.files.Keys) && FhKnown(c.cur, s.files.Keys) && FhKnown(c.saved, s.files.Keys)
    ensures s.files.Keys <= s'.files.Keys && FhKnown(c'.cur, s'.files.Keys) && FhKnown(c'.saved, s'.files.Keys)
  {
    hide Valid, WriteFile, CommitFile, Rebind, Here;
  }

  /** An operation changes what the destination stands for exactly when it is on record. */
  lemma ChangeIsRecorded(t: Target, s: State, c: Ctx, op: Op, s': State, c': Ctx, r: Reply)
    requires Valid(s) && OpStep(t, s, c, op, s', c', r)
    ensures FidAt(s'.dir, t.dest) == FidAt(s.dir, t.dest) <==> s'.changes == s.changes
    ensures s'.changes != s.changes ==> |s'.changes| == |s.changes| + 1 && s.changes <= s'.changes
  {
    hide Valid, WriteFile, CommitFile;
  }

  // ---------------------------------------------------------------- outside events are `Rely`

  lemma OtherStepIsRely(s: State, s': State)
    requires Valid(s) && OtherStep(s, s')
    ensures Rely(s, s')
  {
  }

  lemma RestartStepIsRely(s: State, s': State)
    requires Valid(s) && RestartStep(s, s')
    ensures Rely(s, s')
  {
  }

  lemma {:induction false} LimboCountSplit(a: seq<Late>, b: seq<Late>, k: Kind)
    ensures LimboCount(a + b, k) == LimboCount(a, k) + LimboCount(b, k)
  {
    if b == [] {
      assert a + b == a;
    } else {
      LimboCountSplit(a, b[..|b| - 1], k);
      assert (a + b)[..|a + b| - 1] == a + b[..|b| - 1];
    }
  }

  lemma LimboCountAfter(limbo: seq<Late>, j: nat, c: Ctx, ok: bool, k: Kind)
    requires j < |limbo| && limbo[j].ops != []
    ensures LimboCount(LimboAfter(limbo, j, c, ok), k) + (if ok && IsKind(limbo[j].ops[0], k) then 1 else 0)
         <= LimboCount(limbo, k)
  {
    hide CountOps, LimboCount;
    CountOpsHead(limbo[j].ops, k);
    LimboCountWithout(limbo, j, k);
    if ok && |limbo[j].ops| > 1 {
      var e' := Late(c, limbo[j].ops[1..]);
      LimboCountWithout(limbo[j := e'], j, k);
      assert Without(limbo[j := e'], j) == Without(limbo, j);
    }
  }

  lemma LimboCountWithout(limbo: seq<Late>, j: nat, k: Kind)
    requires j < |limbo|
    ensures LimboCount(limbo, k) == LimboCount(Without(limbo, j), k) + CountOps(limbo[j].ops, k)
  {
    hide CountOps;
    var a, e, b := limbo[..j], limbo[j], limbo[j + 1..];
    assert limbo == a + ([e] + b);
    LimboCountSplit(a, [e] + b, k);
    LimboCountSplit([e], b, k);
    LimboCountSplit(a, b, k);
    assert LimboCount([e], k) == LimboCount([], k) + CountOps(e.ops, k);
  }

  lemma LimboShrinks(s: State, j: nat, m: State, c': Ctx, r: Reply, t: Target)
    requires Valid(s) && j < |s.limbo| && s.limbo[j].ops != []
    requires OpStep(t, s, s.limbo[j].c, s.limbo[j].ops[0], m, c', r)
    ensures var l' := LimboAfter(s.limbo, j, c', r.status == OK);
            && (forall f | f in s.mine :: Touched(l', f) ==> Touched(s.limbo, f))
            && AwaitedNames(l') <= AwaitedNames(s.limbo)
  {
    var l' := LimboAfter(s.limbo, j, c', r.status == OK);
    forall f | f in s.mine && Touched(l', f)
      ensures Touched(s.limbo, f)
    {
      var i :| 0 <= i < |l'| && EntryTouches(l'[i], f);
      if l' == Without(s.limbo, j) {
        assert l'[i] == if i < j then s.limbo[i] else s.limbo[i + 1];
      } else if i == j {
        assert EntryTouches(s.limbo[j], f);
      }
    }
    forall n | Awaited(l', n)
      ensures Awaited(s.limbo, n)
    {
      var i :| 0 <= i < |l'| && Open(n) in l'[i].ops;
      if l' == Without(s.limbo, j) {
        assert l'[i] == if i < j then s.limbo[i] else s.limbo[i + 1];
      } else if i == j {
        assert Open(n) in s.limbo[j].ops;
      }
    }
  }

  lemma LimboStaysOk(s: State, j: nat, m: State, c': Ctx, r: Reply, t: Target)
    requires Valid(s) && j < |s.limbo| && s.limbo[j].ops != []
    requires OpStep(t, s, s.limbo[j].c, s.limbo[j].ops[0], m, c', r)
    ensures var l' := LimboAfter(s.limbo, j, c', r.status == OK);
            forall i | 0 <= i < |l'| :: EntryOk(l'[i], m.files.Keys)
  {
    var l' := LimboAfter(s.limbo, j, c', r.status == OK);
    var e := s.limbo[j];
    assert EntryOk(e, s.files.Keys) && OpKnown(e.ops[0], s.files.Keys);
    hide Success, WellNamed;
    if r.status == OK {
      SuccessHandles(t, s, e.c, e.ops[0], m, c', r.body);
      assert EntryOk(Late(c', e.ops[1..]), m.files.Keys);
    }
    forall i | 0 <= i < |l'|
      ensures EntryOk(l'[i], m.files.Keys)
    {
      if l' == Without(s.limbo, j) {
        assert l'[i] == if i < j then s.limbo[i] else s.limbo[i + 1];
      }
    }
  }

  /** A late operation only reaches what its request named, so it too is outside activity. */
  lemma LateStepIsRely(t: Target, s: State, j: nat, m: State, c': Ctx, r: Reply, s': State)
    requires Valid(s) && j < |s.limbo| && s.limbo[j].ops != [] && LateStep(t, s, j, m, c', r, s')
    ensures Rely(s, s')
  {
    hide FilesEvolve, NamesEvolve, Success, FileOk, CountOps, LimboCount, AwaitedNames;
    var op, c := s.limbo[j].ops[0], s.limbo[j].c;
    var x := if op.Write? && c.cur.FileFh? then Extent(c.cur.fid, op.offset, op.offset + |op.data|, {}) else NOWHERE;
    assert EntryOk(s.limbo[j], s.files.Keys) && OpKnown(op, s.files.Keys);
    if op.Open? {
      assert Awaited(s.limbo, op.name);
    }
    OpStepEvolves(t, s, c, op, m, c', r, x);
    LimboShrinks(s, j, m, c', r, t);
    LimboStaysOk(s, j, m, c', r, t);
    forall k
      ensures Weight(s', k) <= Weight(s, k)
    {
      OpStepWeight(t, s, c, op, m, c', r, k);
      LimboCountAfter(s.limbo, j, c', r.status == OK, k);
    }
    assert EntryTouches(s.limbo[j], x.fid) || x == NOWHERE;
    EvolvesLimbo(s, m, s', x);
  }

  /** If the extent lies in a file a late request touches, it does not count. */
  lemma EvolvesLimbo(s: State, m: State, s': State, x: Extent)
    requires Evolves(s, m, x) && s' == m.(limbo := s'.limbo) && m.limbo == s.limbo
    requires x == NOWHERE || (x.names == {} && Touched(s.limbo, x.fid))
    requires forall f | f in s.mine :: Touched(s'.limbo, f) ==> Touched(s.limbo, f)
    requires AwaitedNames(s'.limbo) <= AwaitedNames(s.limbo)
    requires forall j | 0 <= j < |s'.limbo| :: EntryOk(s'.limbo[j], m.files.Keys)
    ensures Evolves(s, s', NOWHERE)
  {
  }
}
