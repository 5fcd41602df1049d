/** The compounds of a put (src/nfs4/session.rs, src/nfs4.rs), the agreement of each with its
    decoder, and what running each one publishes. */
module Compounds {
  import opened Errors
  import opened Server
  import opened ServerLemmas
  import opened Decode
  import opened Runs
  import opened Content

  function Full(ops: seq<Op>): seq<Op> {
    [Sequence] + ops
  }

  /** Moves along the directory path. */
  predicate Walks(op: Op) {
    op.Lookup? || op == PutFh(ExportRoot)
  }

  function PathOps(path: seq<string>): (r: seq<Op>)
    ensures |r| == 1 + |path| && r[0] == PutFh(ExportRoot)
    ensures forall i | 0 <= i < |r| :: Walks(r[i])
    ensures WalkAt(r, 0, path)
  {
    [PutFh(ExportRoot)] + seq(|path|, i requires 0 <= i < |path| => Lookup(path[i]))
  }

  /** A COMMIT count of zero means to the end of the file. */
  function CommitCount(bytes: nat): nat {
    if bytes < 0x1_0000_0000 then bytes else 0
  }

  function OpenOps(path: seq<string>, temp: Name): seq<Op> {
    PathOps(path) + [Open(temp), GetFh]
  }

  function WriteOps(fid: Fid, off: nat, d: seq<Byte>): seq<Op> {
    [PutFh(FileOf(fid)), Write(off, d)]
  }

  function WriteCommitOps(fid: Fid, off: nat, d: seq<Byte>): seq<Op> {
    [PutFh(FileOf(fid)), Write(off, d), Commit(off, CommitCount(|d|))]
  }

  function CloseOps(fid: Fid): seq<Op> {
    [PutFh(FileOf(fid)), Close]
  }

  function RemoveOps(path: seq<string>, name: Name): seq<Op> {
    PathOps(path) + [Remove(name)]
  }

  function PublishTail(path: seq<string>, temp: Name, dest: Name, createNew: bool): (r: seq<Op>)
    ensures var n := |path|;
            if createNew then
              && |r| == n + 4 && r[0] == SaveFh && r[n + 2] == Link(dest) && r[n + 3] == Remove(temp)
              && WalkAt(r, 1, path) && forall i | 1 <= i <= n + 1 :: Walks(r[i])
            else
              && |r| == n + 3 && r[n + 1] == SaveFh && r[n + 2] == Rename(temp, dest)
              && WalkAt(r, 0, path) && forall i | 0 <= i <= n :: Walks(r[i])
  {
    hide PathOps;
    if createNew then
      WalkWithin([SaveFh], PathOps(path), [Link(dest), Remove(temp)], 0, path);
      [SaveFh] + PathOps(path) + [Link(dest), Remove(temp)]
    else
      WalkWithin([], PathOps(path), [SaveFh, Rename(temp, dest)], 0, path);
      assert [] + PathOps(path) == PathOps(path);
      PathOps(path) + [SaveFh, Rename(temp, dest)]
  }

  /** A walk stays a walk in the middle of a longer compound. */
  lemma WalkWithin(x: seq<Op>, y: seq<Op>, z: seq<Op>, a: nat, path: seq<string>)
    requires WalkAt(y, a, path)
    ensures WalkAt(x + y + z, |x| + a, path)
  {
    var ops := x + y + z;
    assert forall i | 0 <= i < |y| :: ops[|x| + i] == y[i];
    forall i | 0 <= i < |path|
      ensures ops[|x| + a + 1 + i] == Lookup(path[i])
    {
      assert ops[|x| + (a + 1 + i)] == y[a + 1 + i];
    }
  }

  /** COMMIT when needed, VERIFY of the size, CLOSE, then the publish, in one compound. */
  function ClosePublishOps(fid: Fid, path: seq<string>, temp: Name, dest: Name, size: nat, commit: bool, createNew: bool): seq<Op> {
    [PutFh(FileOf(fid))] + (if commit then [Commit(0, CommitCount(size))] else []) + [Verify(size), Close]
    + PublishTail(path, temp, dest, createNew)
  }

  function CloseHead(fid: Fid, size: nat, commit: bool): seq<Op> {
    [Sequence, PutFh(FileOf(fid))] + (if commit then [Commit(0, CommitCount(size))] else []) + [Verify(size), Close]
  }

  lemma CloseHeadTail(fid: Fid, path: seq<string>, temp: Name, dest: Name, size: nat, commit: bool, createNew: bool)
    ensures Full(ClosePublishOps(fid, path, temp, dest, size, commit, createNew))
         == CloseHead(fid, size, commit) + PublishTail(path, temp, dest, createNew)
  {
    hide PublishTail;
  }

  /** The publish alone, once CLOSE is known to have succeeded. */
  function PublishOps(fid: Fid, path: seq<string>, temp: Name, dest: Name, createNew: bool): seq<Op> {
    (if createNew then [PutFh(FileOf(fid))] else []) + PublishTail(path, temp, dest, createNew)
  }

  function FusedHeadOps(path: seq<string>, createNew: bool): seq<Op> {
    PathOps(path) + if createNew then [] else [SaveFh]
  }

  function FusedMiddleOps(temp: Name, body: seq<Byte>): seq<Op> {
    [Open(temp), GetFh, Write(0, body), Commit(0, CommitCount(|body|)), Verify(|body|)]
  }

  function FusedTailOps(path: seq<string>, temp: Name, dest: Name, createNew: bool): seq<Op> {
    if createNew then PublishTail(path, temp, dest, true) else [RestoreFh, Rename(temp, dest)]
  }

  /** The whole put in one compound. */
  function FusedOps(path: seq<string>, temp: Name, dest: Name, body: seq<Byte>, createNew: bool): seq<Op> {
    FusedHeadOps(path, createNew) + FusedMiddleOps(temp, body) + FusedTailOps(path, temp, dest, createNew)
  }

  // ---------------------------------------------------------------- each decoder answers its request

  function ShapeOf(n: nat, createNew: bool): CloseShape {
    if createNew then ThenLinkRemove(n) else ThenRename(n)
  }

  lemma CodesAppend(a: seq<Op>, b: seq<Op>)
    ensures CodesOf(a + b) == CodesOf(a) + CodesOf(b)
  {
  }

  lemma PathCodes(path: seq<string>)
    ensures CodesOf(PathOps(path)) == PathPlan(|path|)
  {
  }

  lemma TailCodes(path: seq<string>, temp: Name, dest: Name, createNew: bool)
    ensures CodesOf(PublishTail(path, temp, dest, createNew))
         == if createNew then [SAVEFH] + PathPlan(|path|) + [LINK, REMOVE] else PathPlan(|path|) + [SAVEFH, RENAME]
  {
    PathCodes(path);
    if createNew {
      CodesAppend([SaveFh] + PathOps(path), [Link(dest), Remove(temp)]);
      CodesAppend([SaveFh], PathOps(path));
    } else {
      CodesAppend(PathOps(path), [SaveFh, Rename(temp, dest)]);
    }
  }

  lemma CloseHeadCodes(fid: Fid, size: nat, commit: bool)
    ensures CodesOf(CloseHead(fid, size, commit)) == [SEQUENCE, PUTFH] + (if commit then [COMMIT] else []) + [VERIFY, CLOSE]
  {
  }

  lemma ClosePlanParts(n: nat, commit: bool, createNew: bool)
    ensures ClosePlan(ShapeOf(n, createNew), commit)
         == ([SEQUENCE, PUTFH] + (if commit then [COMMIT] else []) + [VERIFY, CLOSE])
            + if createNew then [SAVEFH] + PathPlan(n) + [LINK, REMOVE] else PathPlan(n) + [SAVEFH, RENAME]
  {
    hide PathPlan;
  }

  /** Each compound is decoded by a plan that names exactly its operations, in order. */
  lemma ClosePublishMatches(fid: Fid, path: seq<string>, temp: Name, dest: Name, size: nat, commit: bool, createNew: bool)
    ensures CodesOf(Full(ClosePublishOps(fid, path, temp, dest, size, commit, createNew)))
         == ClosePlan(ShapeOf(|path|, createNew), commit)
  {
    hide CodesOf, PathOps, PathPlan, PublishTail, CloseHead, ClosePublishOps, ClosePlan;
    TailCodes(path, temp, dest, createNew);
    CloseHeadTail(fid, path, temp, dest, size, commit, createNew);
    CodesAppend(CloseHead(fid, size, commit), PublishTail(path, temp, dest, createNew));
    CloseHeadCodes(fid, size, commit);
    ClosePlanParts(|path|, commit, createNew);
  }

  lemma PublishMatches(fid: Fid, path: seq<string>, temp: Name, dest: Name, createNew: bool)
    ensures CodesOf(Full(PublishOps(fid, path, temp, dest, createNew)))
         == if createNew then LinkRemovePublishPlan(|path|) else RenamePublishPlan(|path|)
  {
    hide PathOps, PathPlan, PublishTail;
    TailCodes(path, temp, dest, createNew);
    var tail := PublishTail(path, temp, dest, createNew);
    var head := [Sequence] + if createNew then [PutFh(FileOf(fid))] else [];
    assert Full(PublishOps(fid, path, temp, dest, createNew)) == head + tail;
    CodesAppend(head, tail);
    assert CodesOf(head) == [SEQUENCE] + if createNew then [PUTFH] else [];
  }

  lemma RemoveMatches(path: seq<string>, name: Name)
    ensures CodesOf(Full(RemoveOps(path, name))) == RemovePlan(|path|)
  {
    hide PathOps, PathPlan;
    PathCodes(path);
    CodesAppend([Sequence], PathOps(path) + [Remove(name)]);
    CodesAppend(PathOps(path), [Remove(name)]);
  }

  lemma OpenMatches(path: seq<string>, temp: Name)
    ensures CodesOf(Full(OpenOps(path, temp))) == OpenPlan(|path|)
  {
    hide PathOps, PathPlan;
    PathCodes(path);
    CodesAppend([Sequence], PathOps(path) + [Open(temp), GetFh]);
    CodesAppend(PathOps(path), [Open(temp), GetFh]);
  }

  lemma FusedHeadCodes(path: seq<string>, createNew: bool)
    ensures CodesOf([Sequence] + FusedHeadOps(path, createNew))
         == [SEQUENCE] + PathPlan(|path|) + if createNew then [] else [SAVEFH]
  {
    PathCodes(path);
    CodesAppend([Sequence], PathOps(path));
    if !createNew {
      CodesAppend([Sequence] + PathOps(path), [SaveFh]);
      assert [Sequence] + FusedHeadOps(path, false) == [Sequence] + PathOps(path) + [SaveFh];
    }
  }

  lemma FusedMiddleCodes(temp: Name, body: seq<Byte>)
    ensures CodesOf(FusedMiddleOps(temp, body)) == [OPEN, GETFH, WRITE, COMMIT, VERIFY]
  {
  }

  lemma FusedPlanParts(n: nat, createNew: bool)
    ensures FusedPlan(n, createNew)
         == ([SEQUENCE] + PathPlan(n) + if createNew then [] else [SAVEFH]) + [OPEN, GETFH, WRITE, COMMIT, VERIFY]
            + if createNew then [SAVEFH] + PathPlan(n) + [LINK, REMOVE] else [RESTOREFH, RENAME]
  {
    hide PathPlan;
  }

  lemma FusedMatches(path: seq<string>, temp: Name, dest: Name, body: seq<Byte>, createNew: bool)
    ensures CodesOf(Full(FusedOps(path, temp, dest, body, createNew))) == FusedPlan(|path|, createNew)
  {
    var h, m, tail := FusedHeadOps(path, createNew), FusedMiddleOps(temp, body), FusedTailOps(path, temp, dest, createNew);
    assert CodesOf([RestoreFh, Rename(temp, dest)]) == [RESTOREFH, RENAME];
    hide CodesOf, PathPlan, FusedHeadOps, FusedMiddleOps, PublishTail, FusedPlan;
    assert Full(h + m + tail) == [Sequence] + h + m + tail;
    FusedHeadCodes(path, createNew);
    FusedMiddleCodes(temp, body);
    TailCodes(path, temp, dest, true);
    CodesAppend([Sequence] + h + m, tail);
    CodesAppend([Sequence] + h, m);
    FusedPlanParts(|path|, createNew);
  }
}
