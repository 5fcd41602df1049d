/** `NfsClient::put` (src/client.rs) and the publish compounds under it (src/nfs4/session.rs). */
module Put {
  import opened Errors
  import opened Server
  import opened ServerLemmas
  import opened Decode
  import opened Runs
  import opened Content
  import opened Compounds
  import opened Publishing
  import opened Fused
  import opened Writing
  import opened Session
  import opened Uploading
  import opened PipelinedWrite

  // ---------------------------------------------------------------- classification

  datatype PublishError = WasPublished | DestinationExists | NoPublish | Unknown

  /** An error that names the operation it stopped at proves that nothing after it ran. */
  predicate ProvesOperationNotRun(e: Error) {
    e.RequestNotSent? || (e.Nfs? && e.op != ILLEGAL)
  }

  function ClassifyPublishError(createNew: bool, e: Error): PublishError {
    if createNew && e.IsNfsOperation(REMOVE) then WasPublished
    else if createNew && e.IsNfsError(EXIST, LINK) then DestinationExists
    else if ProvesOperationNotRun(e) then NoPublish
    else Unknown
  }

  ghost predicate PublishedBody(s: State, body: seq<Byte>) {
    exists fid :: Published(s, fid, body)
  }

  /** This put changed the destination at most once, counting what requests at large may do. */
  predicate AtMostOnce(s: State) {
    Weight(s, Publishes) <= 1 && |s.changes| <= 1
  }

  /** Whatever this put made the destination stand for, nothing stood there before, and no request
      at large can replace a name. */
  predicate NeverReplaces(s: State) {
    Weight(s, Replaces) == 0 && forall c | c in s.changes :: c.before.None?
  }

  lemma NoRenames(s: State)
    requires Valid(s) && Weight(s, Replaces) == 0
    ensures NeverReplaces(s)
  {
  }

  lemma {:induction false} FewerReplace(ops: seq<Op>)
    ensures CountOps(ops, Replaces) <= CountOps(ops, Publishes)
  {
    if ops != [] {
      FewerReplace(ops[..|ops| - 1]);
    }
  }

  lemma {:induction false} FewerReplaceLate(limbo: seq<Late>)
    ensures LimboCount(limbo, Replaces) <= LimboCount(limbo, Publishes)
  {
    if limbo != [] {
      FewerReplaceLate(limbo[..|limbo| - 1]);
      FewerReplace(limbo[|limbo| - 1].ops);
    }
  }

  lemma UnpublishedReplacesNothing(s: State)
    requires Valid(s) && Unpublished(s)
    ensures NeverReplaces(s)
  {
    hide LimboCount;
    FewerReplaceLate(s.limbo);
  }

  /** What the result of a publish-capable exchange means, from view `a` to view `b`. */
  ghost predicate Verdict(createNew: bool, r: Result<bool, Error>, body: seq<Byte>, a: View, b: View) {
    && (createNew ==> NeverReplaces(b.s))
    && match r
       case Ok(_) => PublishedBody(b.s, body)
       case Err(e) =>
         && e.SessionLevel()
         && match ClassifyPublishError(createNew, e)
            case WasPublished => PublishedBody(b.s, body)
            case DestinationExists => Unpublished(b.s) && |a.s.occupied| < |b.s.occupied|
            case NoPublish => Unpublished(b.s)
            case Unknown => AtMostOnce(b.s) && b.ambiguous
  }

  // ---------------------------------------------------------------- publish-capable compounds

  /** Position `p` is the one publish of the compound; only the REMOVE of a create-new follows. */
  predicate PublishesAt(ops: seq<Op>, p: nat, createNew: bool, temp: Name, dest: Name, path: seq<string>) {
    && |ops| == p + (if createNew then 2 else 1)
    && ops[p] == (if createNew then Link(dest) else Rename(temp, dest))
    && (createNew ==> ops[p + 1].Remove? && |path| < p && WalkAt(ops, p - 1 - |path|, path))
    && forall i | 0 <= i < p :: !IsKind(ops[i], Publishes) && !ops[i].Remove?
  }

  lemma ExistOccupies(t: Target, s0: State, ops: seq<Op>, run: seq<Step>, s1: State, p: nat, path: seq<string>)
    requires RunOk(t, s0, ops, run, s1) && |run| == p + 1 && ops[p] == Link(t.dest)
    requires |path| < p && WalkAt(ops, p - 1 - |path|, path) && path == t.path
    requires forall i | 0 <= i < |ops| :: WellNamed(ops[i])
    requires run[p].reply.op == LINK && run[p].reply.status == EXIST
    ensures |s0.occupied| < |s1.occupied|
  {
    hide RunOk, Valid, Rely, OpStep, WellNamed, WalkAt, Here;
    RunGrows(t, s0, ops, run, s1, p);
    RunStep(t, s0, ops, run, s1, p);
    WalkedHere(t, s0, ops, run, s1, p - 1 - |path|, path);
    ExistStep(t, run[p]);
    RelyGrows(run[p].post, s1);
  }

  lemma ExistStep(t: Target, e: Step)
    requires Valid(e.pre) && OpStep(t, e.pre, e.c, Link(t.dest), e.post, e.c', e.reply)
    requires e.reply.op == LINK && e.reply.status == EXIST && Here(t, e.c.cur)
    ensures |e.post.occupied| == |e.pre.occupied| + 1
  {
  }

  lemma CodesAt(ops: seq<Op>)
    ensures |CodesOf(ops)| == |ops| && forall i | 0 <= i < |ops| :: CodesOf(ops)[i] == CodeOf(ops[i]) && CodesOf(ops)[i] != ILLEGAL
  {
  }

  /** What a failure of a publish-capable compound means. */
  lemma FailureVerdict(t: Target, s0: State, ops: seq<Op>, run: seq<Step>, s1: State, w: Wire, e: DecodeError,
                       p: nat, createNew: bool, temp: Name, body: seq<Byte>, path: seq<string>)
    requires path == t.path
    requires RunOk(t, s0, ops, run, s1) && Faithful(run, w) && Located(CodesOf(ops), w, e) && e.status.Some?
    requires PublishesAt(ops, p, createNew, temp, t.dest, path) && Unpublished(s0)
    requires forall i | 0 <= i < |ops| :: WellNamed(ops[i])
    requires OkOps(run) > p && e.error.op != ILLEGAL ==> PublishedBody(s1, body)
    ensures match ClassifyPublishError(createNew, e.error)
            case WasPublished => PublishedBody(s1, body)
            case DestinationExists => Unpublished(s1) && |s0.occupied| < |s1.occupied|
            case NoPublish => Unpublished(s1)
            case Unknown => e.error.op == ILLEGAL
  {
    hide RunOk, PublishedBody, Unpublished, Faithful, FailedAt, CodesOf, WellNamed, WalkAt;
    if e.error.op != ILLEGAL {
      var i := e.replyIndex.value;
      FailureIsWhereItStopped(t, s0, ops, run, s1, w, i, e.error.status, e.error.op);
      FailedOpIs(CodesOf(ops), w, i, e.error.status, e.error.op);
      CodesAt(ops);
      if i <= p {
        NotReachedNotPublished(t, s0, ops, run, s1, p);
      }
      if e.error.IsNfsError(EXIST, LINK) && createNew {
        assert i == p;
        ExistOccupies(t, s0, ops, run, s1, p, path);
      }
    }
  }

  /** Without doubt every error names the operation it stopped at. */
  lemma ClearNamesOperation(t: Target, s0: State, ops: seq<Op>, d: Decoder, x: Extent, e: DecodeError, seen: Seen, s1: State)
    requires Clear(t, s0, ops, d, x, Err(e), seen, s1) && CodesOf(Full(ops)) == PlanOf(d)
    requires e.status.Some? || Vague(e.error) ==> Agrees(d, seen.wire)
    requires e.status.None? && e.error.Nfs? ==> e.error.op == SEQUENCE
    ensures ProvesOperationNotRun(e.error)
  {
    hide Steady, RunOk, Faithful, CodesOf, PlanOf, Agrees, PastCommit, Located;
    CodesAt(Full(ops));
  }

  /** Without trouble a publish-capable exchange succeeds or finds the destination taken. */
  lemma SmoothVerdict(d: Decoder, ops: seq<Op>, w: Wire, run: seq<Step>, r: Decoded<Answer>)
    requires DecodeSpec(d, w, r) && CodesOf(ops) == PlanOf(d) && Agrees(d, w) && SmoothWire(ops, w, run)
    ensures r.Err? ==> r.error.error == Nfs(EXIST, LINK) && LINK in PlanOf(d)
  {
    hide PlanOf, CodesOf, Agrees, PastCommit, GoodAnswer, Located, FullWrites;
  }

  predicate NamesFailure(r: Decoded<Answer>) {
    r.Err? && r.error.status.Some? && r.error.error.Nfs? && r.error.error.op != ILLEGAL
  }

  /** Every error of a publish-capable exchange says what its class promises. */
  lemma ExchangeVerdict(t: Target, a: View, b: View, ops: seq<Op>, d: Decoder, x: Extent, e: DecodeError, seen: Seen,
                        p: nat, createNew: bool, temp: Name, body: seq<Byte>, path: seq<string>)
    requires path == t.path
    requires Exchanged(t, a.s, ops, d, x, Err(e), seen, b.s) && CodesOf(Full(ops)) == PlanOf(d)
    requires PublishesAt(Full(ops), p, createNew, temp, t.dest, path) && Unpublished(a.s)
    requires forall i | 0 <= i < |Full(ops)| :: WellNamed(Full(ops)[i])
    requires NamesFailure(Err(e)) && OkOps(seen.run) > p ==> PublishedBody(b.s, body)
    requires !b.ambiguous ==> Clear(t, a.s, ops, d, x, Err(e), seen, b.s)
    requires !b.ambiguous && (e.status.Some? || Vague(e.error)) ==> Agrees(d, seen.wire)
    ensures Verdict(createNew, Err(e.error), body, a, b)
  {
    hide RunOk, PublishedBody, Faithful, CodesOf, WellNamed, PlanOf, Loose, Evolves, NoHeavier, Unpublished, AtMostOnce, Located, Clear, DecodeSpec, Agrees, PublishesAt, NeverReplaces;
    SmallWeight(a.s, b.s, Full(ops), p, createNew, temp, t.dest, path);
    if !b.ambiguous {
      ClearNamesOperation(t, a.s, ops, d, x, e, seen, b.s);
    }
    if e.status.Some? {
      SoundErrors(d, seen.wire, e);
      StatusIsNfs(PlanOf(d), seen.wire, e);
      SteadyUnpublished(a.s, seen.pre, x);
      FailureVerdict(t, seen.pre, Full(ops), seen.run, b.s, seen.wire, e, p, createNew, temp, body, path);
      SteadyOccupied(a.s, seen.pre, x);
    } else if !Vague(e.error) {
      SteadyUnpublished(a.s, b.s, x);
    }
  }

  lemma StatusIsNfs(plan: seq<OpCode>, w: Wire, e: DecodeError)
    requires Located(plan, w, e) && e.status.Some?
    ensures e.error.Nfs?
  {
  }

  lemma SteadyOccupied(s: State, s': State, x: Extent)
    requires Steady(s, s', x)
    ensures |s.occupied| <= |s'.occupied|
  {
  }

  /** A publish-capable exchange adds one publish, and no replacement to a create-new put. */
  lemma SmallWeight(s: State, s': State, ops: seq<Op>, p: nat, createNew: bool, temp: Name, dest: Name, path: seq<string>)
    requires Loose(s, s', ops) && PublishesAt(ops, p, createNew, temp, dest, path) && Unpublished(s)
    ensures AtMostOnce(s') && (createNew ==> NeverReplaces(s'))
  {
    hide AwaitedNames, LimboCount, WalkAt, NeverReplaces, Valid;
    CountOnce(ops, Publishes, p);
    ChangesBounded(s');
    UnpublishedReplacesNothing(s);
    ReplacesNothing(s);
    if createNew {
      CountNone(ops, Replaces);
      NoRenames(s');
    }
  }

  lemma ReplacesNothing(s: State)
    requires NeverReplaces(s)
    ensures Weight(s, Replaces) == 0
  {
  }

  // ---------------------------------------------------------------- CLOSE and publish

  lemma InertSetup(s: State, ops: seq<Op>, fid: Fid)
    requires fid in s.files
    requires forall i | 0 <= i < |Full(ops)| :: Inert(Full(ops)[i]) && (Full(ops)[i].PutFh? && Full(ops)[i].handle.FileOf? ==> Full(ops)[i].handle.fid == fid)
    ensures Known(s, Full(ops)) && OpenedNames(Full(ops)) == {} && StaticCover(ops, NOWHERE)
    ensures forall i | 0 <= i < |Full(ops)| :: WellNamed(Full(ops)[i])
  {
    forall i | 0 <= i < |ops|
      ensures Inert(ops[i])
    {
      assert ops[i] == Full(ops)[i + 1];
    }
  }

  lemma ClosePublishesAt(ops: seq<Op>, l: Layout, fid: Fid, temp: Name, dest: Name, size: nat, path: seq<string>)
    requires ops == Full(ClosePublishOps(fid, path, temp, dest, size, l.commit, l.createNew)) && l.path == path && temp.Temp? && !dest.Temp?
    ensures LaidOut(ops, l, fid, temp, dest, size) && PublishesAt(ops, l.Publish(), l.createNew, temp, dest, path)
  {
    hide PathOps, PublishTail, ClosePublishOps, CommitCount, LaidOut, WalkAt;
    ClosePublishLayout(fid, path, temp, dest, size, l.commit, l.createNew);
    LaidOutPublishes(ops, l, fid, temp, dest, size);
    CloseHeadTail(fid, path, temp, dest, size, l.commit, l.createNew);
    var head, tail := CloseHead(fid, size, l.commit), PublishTail(path, temp, dest, l.createNew);
    forall i | |head| <= i < |ops|
      ensures ops[i] == tail[i - |head|]
    {
    }
    forall i | 0 <= i < l.Publish()
      ensures !ops[i].Remove?
    {
      if i < |head| {
        assert ops[i] == head[i];
      }
    }
  }

  /** What the answer to a close-and-publish compound settles. */
  lemma ClosePublishSettled(t: Target, s0: State, fid: Fid, path: seq<string>, temp: Name, body: seq<Byte>, v: Option<nat>,
                            createNew: bool, r: Decoded<Answer>, seen: Seen, s1: State)
    requires Kept(s0, fid, body, 0, |body|, v) && Leads(s0, temp, fid) && Unpublished(s0) && path == t.path
    requires Settled(t, s0, ClosePublishOps(fid, path, temp, t.dest, |body|, v.Some?, createNew),
                     ByClose(ShapeOf(|path|, createNew), v), NOWHERE, r, seen, s1)
    ensures var l := Layout(v.Some?, path, createNew);
            && (r.Ok? ==> Published(s1, fid, body) && Gone(s1, temp))
            && (NamesFailure(r) && OkOps(seen.run) > l.Publish() ==> Published(s1, fid, body))
            && (NamesFailure(r) && l.Close() < OkOps(seen.run) <= l.Publish() ==> Secured(s1, fid, temp, body) && Unpublished(s1))
  {
    hide RunOk, Kept, Leads, Unpublished, Evolves, Published, Secured, ClosePlan, LaidOut, CodesOf, ClosePublishOps, Faithful, FailedAt, GoodUpTo, NoHeavier, BodyIs;
    var ops, l := Full(ClosePublishOps(fid, path, temp, t.dest, |body|, v.Some?, createNew)), Layout(v.Some?, path, createNew);
    LeadsNot(s0, temp, fid);
    ClosePublishesAt(ops, l, fid, temp, t.dest, |body|, path);
    ClosePublishMatches(fid, path, temp, t.dest, |body|, v.Some?, createNew);
    LaidOutPublishes(ops, l, fid, temp, t.dest, |body|);
    CodesAt(ops);
    SteadyEvolves(s0, seen.pre, NOWHERE);
    KeptEvolves(s0, seen.pre, NOWHERE, fid, body, 0, |body|, v);
    LeadsEvolves(s0, seen.pre, NOWHERE, temp, fid);
    SteadyUnpublished(s0, seen.pre, NOWHERE);
    if r.Ok? {
      SuccessMeansAllRan(t, seen.pre, ops, seen.run, s1, seen.wire, |ops|);
      VerifierSeen(seen.run, seen.wire, v);
      ClosePublishPublishes(t, seen.pre, ops, seen.run, s1, l, fid, temp, body, v);
      ClosePublishEnds(t, seen.pre, fid, path, temp, |body|, v.Some?, createNew, seen.run, s1);
    } else if NamesFailure(r) {
      var i := r.error.replyIndex.value;
      FailureIsWhereItStopped(t, seen.pre, ops, seen.run, s1, seen.wire, i, r.error.error.status, r.error.error.op);
      if i > l.Close() {
        VerifierSeen(seen.run, seen.wire, v);
        if i > l.Publish() {
          ClosePublishPublishes(t, seen.pre, ops, seen.run, s1, l, fid, temp, body, v);
        } else {
          CloseSecures(t, seen.pre, ops, seen.run, s1, l, fid, temp, t.dest, body, v, |seen.run|);
          LaidOutPublishes(ops, l, fid, temp, t.dest, |body|);
          NotReachedNotPublished(t, seen.pre, ops, seen.run, s1, l.Publish());
        }
      }
    }
  }

  lemma ClosePublishEnds(t: Target, s: State, fid: Fid, path: seq<string>, temp: Name, size: nat, commit: bool, createNew: bool, run: seq<Step>, s1: State)
    requires temp.Temp? && temp !in AwaitedNames(s.limbo) && path == t.path
    requires RunOk(t, s, Full(ClosePublishOps(fid, path, temp, t.dest, size, commit, createNew)), run, s1)
    requires OkOps(run) >= |Full(ClosePublishOps(fid, path, temp, t.dest, size, commit, createNew))|
    ensures Gone(s1, temp)
  {
    hide RunOk, AwaitedNames, PathOps, PublishTail, ClosePublishOps, CommitCount, WalkAt, Here;
    var ops, l := Full(ClosePublishOps(fid, path, temp, t.dest, size, commit, createNew)), Layout(commit, path, createNew);
    ClosePublishLayout(fid, path, temp, t.dest, size, commit, createNew);
    CloseHeadTail(fid, path, temp, t.dest, size, commit, createNew);
    var tail := PublishTail(path, temp, t.dest, createNew);
    assert ops[|ops| - 1] == tail[|tail| - 1];
    RunLength(t, s, ops, run, s1);
    PublishesHere(t, s, ops, run, s1, l.Walk(), path, createNew);
    assert forall i | 0 <= i < |ops| :: Inert(ops[i]);
    LastTakesName(t, s, ops, run, s1, temp);
  }

  lemma PublishEnds(t: Target, s: State, fid: Fid, path: seq<string>, temp: Name, createNew: bool, run: seq<Step>, s1: State)
    requires temp.Temp? && temp !in AwaitedNames(s.limbo) && path == t.path
    requires RunOk(t, s, Full(PublishOps(fid, path, temp, t.dest, createNew)), run, s1)
    requires OkOps(run) >= |Full(PublishOps(fid, path, temp, t.dest, createNew))|
    ensures Gone(s1, temp)
  {
    hide RunOk, AwaitedNames, PathOps, PublishTail, WalkAt, Here;
    var ops := Full(PublishOps(fid, path, temp, t.dest, createNew));
    PublishLayout(fid, path, temp, t.dest, createNew);
    var tail := PublishTail(path, temp, t.dest, createNew);
    assert ops[|ops| - 1] == tail[|tail| - 1];
    RunLength(t, s, ops, run, s1);
    PublishesHere(t, s, ops, run, s1, if createNew then 3 else 1, path, createNew);
    assert forall i | 0 <= i < |ops| :: Inert(ops[i]);
    LastTakesName(t, s, ops, run, s1, temp);
  }

  lemma LaidOutPublishes(ops: seq<Op>, l: Layout, fid: Fid, temp: Name, dest: Name, size: nat)
    requires LaidOut(ops, l, fid, temp, dest, size)
    ensures |ops| == l.Publish() + (if l.createNew then 2 else 1)
    ensures ops[l.Publish()] == if l.createNew then Link(dest) else Rename(temp, dest)
    ensures forall i | 0 <= i < l.Publish() :: !IsKind(ops[i], Publishes)
    ensures WalkAt(ops, l.Walk(), l.path)
  {
  }

  lemma SteadyUnpublished(s: State, s': State, x: Extent)
    requires Steady(s, s', x) && Unpublished(s)
    ensures Unpublished(s')
  {
    hide FilesEvolve, NamesEvolve, LimboCount;
    ChangesBounded(s');
  }

  lemma VerifierSeen(run: seq<Step>, w: Wire, v: Option<nat>)
    requires Faithful(run, w) && (v.Some? ==> VerifierAt(w, 2, v.value))
    ensures v.Some? ==> |run| > 2 && run[2].reply.body == VerifierBody(v.value)
  {
    if v.Some? {
      BodyIsTrue(run, w, 2, VerifierBody(v.value));
    }
  }

  /** On one server instance the COMMIT of the close compound carries the verifier of the writes. */
  lemma CloseAgrees(t: Target, s0: State, ops: seq<Op>, shape: CloseShape, v: Option<nat>, seen: Seen, s1: State)
    requires RunOk(t, seen.pre, ops, seen.run, s1) && Faithful(seen.run, seen.wire) && s0.boot <= seen.pre.boot
    requires s0.boot == s1.boot && (v.Some? ==> v.value == s0.boot && |ops| > 2 && ops[2].Commit?)
    requires Intact(CodesOf(ops), seen.wire) && forall i | 0 <= i < |ops| :: WellNamed(ops[i])
    ensures Agrees(ByClose(shape, v), seen.wire)
  {
    hide RunOk, Faithful, WellNamed, OpStep;
    var w := seen.wire;
    if v.Some? && |w.replies| > 2 && w.replies[2].reply.status == OK {
      CodesAt(ops);
      assert w.replies[2].Readable? && w.replies[2].reply.body.VerifierBody?;
      RunsThere(seen.run, w, 2);
      RunStep(t, seen.pre, ops, seen.run, s1, 2);
      WriteReplyBoot(t, seen.run[2], ops[2]);
      BootBetween(t, seen.pre, ops, seen.run, s1, 2);
    }
  }

  lemma RunsThere(run: seq<Step>, w: Wire, i: nat)
    requires Faithful(run, w) && i < |w.replies| && w.replies[i].Readable?
    ensures i < |run| && run[i].reply.status == w.replies[i].reply.status
    ensures w.replies[i].reply.body == run[i].reply.body || w.replies[i].reply.body == Malformed
  {
  }

  lemma ClosePublishWeights(s: State, s': State, ops: seq<Op>, l: Layout, fid: Fid, temp: Name, dest: Name, size: nat)
    requires Loose(s, s', ops) && LaidOut(ops, l, fid, temp, dest, size)
    ensures Grows(s, s') && Weight(s', Closes) <= Weight(s, Closes) + 1
  {
    hide Grows, Weight, AwaitedNames;
    CountOnce(ops, Closes, l.Close());
  }

  lemma PublishWeight(s: State, s': State, ops: seq<Op>, path: seq<string>, createNew: bool, fid: Fid, temp: Name, dest: Name)
    requires Loose(s, s', ops) && TailOnly(ops, path, createNew, fid, temp, dest)
    ensures Grows(s, s') && Weight(s', Closes) <= Weight(s, Closes)
  {
    hide Grows, Weight, AwaitedNames;
    CountNone(ops, Closes);
  }

  function PublishDecoder(n: nat, createNew: bool): Decoder {
    if createNew then ByLinkRemovePublish(n) else ByRenamePublish(n)
  }

  lemma PublishSetup(s: State, t: Target, file: TempFile, path: seq<string>, createNew: bool)
    requires file.fid in s.files && file.name.Temp?
    ensures var ops := PublishOps(file.fid, path, file.name, t.dest, createNew);
            && Known(s, Full(ops)) && OpenedNames(Full(ops)) == {} && StaticCover(ops, NOWHERE)
            && TailOnly(Full(ops), path, createNew, file.fid, file.name, t.dest)
            && (forall i | 0 <= i < |Full(ops)| :: WellNamed(Full(ops)[i]))
            && PublishesAt(Full(ops), PublishIndex(|path|, createNew), createNew, file.name, t.dest, path)
            && CodesOf(Full(ops)) == PlanOf(PublishDecoder(|path|, createNew))
  {
    hide PathOps, PublishTail, CodesOf, TailOnly, Known, StaticCover, OpenedNames;
    var ops := PublishOps(file.fid, path, file.name, t.dest, createNew);
    PublishLayout(file.fid, path, file.name, t.dest, createNew);
    TailOnlyInert(Full(ops), path, createNew, file.fid, file.name, t.dest);
    InertSetup(s, ops, file.fid);
    PublishMatches(file.fid, path, file.name, t.dest, createNew);
    hide Full, PublishOps, WellNamed;
    RemovesLast(file.fid, path, file.name, t.dest, createNew);
  }

  /** The only REMOVE of the publish compound is its last operation. */
  lemma RemovesLast(fid: Fid, path: seq<string>, temp: Name, dest: Name, createNew: bool)
    ensures var ops, p := Full(PublishOps(fid, path, temp, dest, createNew)), PublishIndex(|path|, createNew);
            |ops| > p && (forall i | 0 <= i < p :: !ops[i].Remove?) && (createNew ==> |ops| > p + 1 && ops[p + 1].Remove?)
  {
    hide PathOps, PublishTail;
    var head := [Sequence] + if createNew then [PutFh(FileOf(fid))] else [];
    var tail := PublishTail(path, temp, dest, createNew);
    var ops := Full(PublishOps(fid, path, temp, dest, createNew));
    assert ops == head + tail;
    forall i | 0 <= i < |ops|
      ensures i >= |head| ==> ops[i] == tail[i - |head|]
      ensures i < |head| ==> !ops[i].Remove?
    {
    }
  }

  lemma TailOnlyInert(ops: seq<Op>, path: seq<string>, createNew: bool, fid: Fid, temp: Name, dest: Name)
    requires TailOnly(ops, path, createNew, fid, temp, dest)
    ensures |ops| == PublishIndex(|path|, createNew) + (if createNew then 2 else 1)
    ensures ops[PublishIndex(|path|, createNew)] == if createNew then Link(dest) else Rename(temp, dest)
    ensures forall i | 0 <= i < PublishIndex(|path|, createNew) :: !IsKind(ops[i], Publishes)
    ensures WalkAt(ops, if createNew then 3 else 1, path) && (!createNew ==> ops[PublishIndex(|path|, createNew) - 1] == SaveFh)
    ensures forall i | 0 <= i < |ops| :: Inert(ops[i]) && (ops[i].PutFh? && ops[i].handle.FileOf? ==> ops[i].handle.fid == fid)
  {
  }

  lemma PublishAnswer(n: nat, createNew: bool, w: Wire, a: Answer)
    requires DecodeSpec(PublishDecoder(n, createNew), w, Ok(a))
    ensures var plan := if createNew then LinkRemovePublishPlan(n) else RenamePublishPlan(n); GoodUpTo(plan, w, |plan|)
  {
  }

  lemma PublishSettled(t: Target, s0: State, file: TempFile, path: seq<string>, body: seq<Byte>, createNew: bool, r: Decoded<Answer>, seen: Seen, s1: State)
    requires Secured(s0, file.fid, file.name, body) && Unpublished(s0) && path == t.path
    requires Settled(t, s0, PublishOps(file.fid, path, file.name, t.dest, createNew), PublishDecoder(|path|, createNew), NOWHERE, r, seen, s1)
    ensures r.Ok? ==> Published(s1, file.fid, body) && Gone(s1, file.name)
    ensures NamesFailure(r) && OkOps(seen.run) > PublishIndex(|path|, createNew) ==> Published(s1, file.fid, body)
  {
    hide RunOk, Unpublished, Evolves, Published, Secured, TailOnly, CodesOf, PublishOps, Faithful, FailedAt, GoodUpTo, NoHeavier, DecodeSpec, RenamePublishPlan, LinkRemovePublishPlan;
    var ops := Full(PublishOps(file.fid, path, file.name, t.dest, createNew));
    SecuredLeads(s0, file.fid, file.name, body);
    PublishLayout(file.fid, path, file.name, t.dest, createNew);
    TailOnlyInert(ops, path, createNew, file.fid, file.name, t.dest);
    PublishMatches(file.fid, path, file.name, t.dest, createNew);
    CodesAt(ops);
    SteadyEvolves(s0, seen.pre, NOWHERE);
    SecuredEvolves(s0, seen.pre, file.fid, file.name, body);
    SteadyUnpublished(s0, seen.pre, NOWHERE);
    if r.Ok? {
      PublishAnswer(|path|, createNew, seen.wire, r.value);
      SuccessMeansAllRan(t, seen.pre, ops, seen.run, s1, seen.wire, |ops|);
      SecuredLeads(seen.pre, file.fid, file.name, body);
      PublishEnds(t, seen.pre, file.fid, path, file.name, createNew, seen.run, s1);
    }
    if r.Ok? || (NamesFailure(r) && OkOps(seen.run) > PublishIndex(|path|, createNew)) {
      PublishPublishes(t, seen.pre, ops, seen.run, s1, path, createNew, file.fid, file.name, body);
    }
  }

  /** The server asks to come back later, at an operation up to and including the publish. */
  predicate Delayed(e: Error) {
    e.Nfs? && (e.status == DELAY || e.status == GRACE) && e.op != SEQUENCE && e.op != REMOVE && e.op != ILLEGAL
  }

  lemma DelayedIsAt(ops: seq<Op>, p: nat, createNew: bool, temp: Name, dest: Name, path: seq<string>, w: Wire, e: DecodeError)
    requires PublishesAt(Full(ops), p, createNew, temp, dest, path) && Located(CodesOf(Full(ops)), w, e) && Delayed(e.error)
    ensures TransientStatus(e).Some? && NamesFailure(Err(e)) && e.replyIndex.Some? && 0 < e.replyIndex.value <= p
  {
    hide CodesOf, FailedAt, WalkAt;
    CodesAt(Full(ops));
    FailedOpIs(CodesOf(Full(ops)), w, e.replyIndex.value, e.error.status, e.error.op);
  }

  lemma NothingGuardedYet(ops: seq<Op>, e: DecodeError, n: nat)
    requires e.replyIndex.Some? && e.replyIndex.value <= n <= |Full(ops)|
    requires forall i | 0 <= i < n :: !Full(ops)[i].Open? && !IsKind(Full(ops)[i], Closes) && !IsKind(Full(ops)[i], Publishes)
    ensures TransientRetryIsSafe(ops, e)
  {
    forall i | 0 <= i < |ops| && i + 1 < e.replyIndex.value
      ensures !(ops[i].Open? || ops[i].Close? || ops[i].Link? || ops[i].Rename?)
    {
      assert ops[i] == Full(ops)[i + 1];
    }
  }

  lemma DelayedPublish(ops: seq<Op>, path: seq<string>, createNew: bool, fid: Fid, temp: Name, dest: Name, w: Wire, e: DecodeError)
    requires TailOnly(Full(ops), path, createNew, fid, temp, dest) && Located(CodesOf(Full(ops)), w, e) && Delayed(e.error)
    requires PublishesAt(Full(ops), PublishIndex(|path|, createNew), createNew, temp, dest, path)
    ensures TransientStatus(e).Some? && TransientRetryIsSafe(ops, e)
  {
    hide Full, Located, TransientRetryIsSafe, PublishesAt, WalkAt;
    var p := PublishIndex(|path|, createNew);
    DelayedIsAt(ops, p, createNew, temp, dest, path, w, e);
    assert forall i | 0 <= i < p :: Inert(Full(ops)[i]);
    NothingGuardedYet(ops, e, p);
  }

  /** A delay of the close-and-publish compound is replayed whole, or resumed after the CLOSE. */
  lemma DelayedClose(ops: seq<Op>, l: Layout, fid: Fid, temp: Name, dest: Name, size: nat, w: Wire, e: DecodeError)
    requires LaidOut(Full(ops), l, fid, temp, dest, size) && Located(CodesOf(Full(ops)), w, e) && Delayed(e.error)
    requires PublishesAt(Full(ops), l.Publish(), l.createNew, temp, dest, l.path)
    ensures TransientStatus(e).Some? && (TransientRetryIsSafe(ops, e) || Resumable(ops, e))
  {
    hide Full, Located, TransientRetryIsSafe, PublishesAt, WalkAt, Resumable;
    DelayedIsAt(ops, l.Publish(), l.createNew, temp, dest, l.path, w, e);
    if e.replyIndex.value <= l.Close() {
      assert forall i | 0 <= i < l.Close() :: Inert(Full(ops)[i]);
      NothingGuardedYet(ops, e, l.Close());
    } else {
      ResumableMeans(ops, l, fid, temp, dest, size, w, e);
    }
  }

  /** The publish that finishes a put whose CLOSE succeeded, within the same retry budget. */
  method PublishAfterClose(session: NfsSession, file: TempFile, createNew: bool, attempts: nat, ghost body: seq<Byte>)
    returns (r: Result<bool, Error>, used: nat)
    requires session.Ready() && attempts <= session.transientRetries
    requires Secured(session.s, file.fid, file.name, body) && Unpublished(session.s)
    modifies session`s, session`calls, session`ambiguous, session`calm
    ensures session.Ready() && Onward(old(session.Now()), session.Now())
    ensures attempts <= used <= session.transientRetries && session.calls == old(session.calls) + 1 + (used - attempts)
    ensures Weight(session.s, Closes) <= Weight(old(session.s), Closes)
    ensures Verdict(createNew, r, body, old(session.Now()), session.Now()) && (r.Ok? ==> Gone(session.s, file.name))
    ensures r.Err? && Delayed(r.error) ==> used == session.transientRetries
  {
    hide Delayed, TransientRetryIsSafe, Gone, Valid, Known, OpenedNames, StaticCover, CodesOf, PlanOf, Loose, PublishOps, Steady, RunOk, Faithful, SmoothWire, Secured, Unpublished, PublishesAt, TailOnly, Grows, Weight, DecodeSpec, Published, Clear, Verdict, WellNamed;
    ghost var v0 := session.Now();
    SecuredKnown(session.s, file.fid, file.name, body);
    ghost var t, n := session.target, |session.path|;
    var ops, d := PublishOps(file.fid, session.path, file.name, session.target.dest, createNew), PublishDecoder(|session.path|, createNew);
    SecuredLeads(session.s, file.fid, file.name, body);
    PublishSetup(session.s, t, file, session.path, createNew);
    var a, u, seen := session.CompoundDecode(ops, d, true, attempts, NOWHERE);
    used := u;
    ClearBoot(t, v0, session.Now(), ops, d, NOWHERE, a, seen);
    PublishWeight(v0.s, session.s, Full(ops), session.path, createNew, file.fid, file.name, t.dest);
    if a.Ok? || a.error.status.Some? {
      PublishSettled(t, v0.s, file, session.path, body, createNew, a, seen, session.s);
    }
    if a.Ok? {
      SmallWeight(v0.s, session.s, Full(ops), PublishIndex(n, createNew), createNew, file.name, t.dest, session.path);
      OkVerdict(createNew, file.fid, body, v0, session.Now());
      return Ok(true), used;
    }
    ExchangeVerdict(t, v0, session.Now(), ops, d, NOWHERE, a.error, seen, PublishIndex(n, createNew), createNew, file.name, body, session.path);
    if Delayed(a.error.error) {
      DelayedHasStatus(t, v0.s, ops, d, a, seen, session.s);
      DelayedPublish(ops, session.path, createNew, file.fid, file.name, t.dest, seen.wire, a.error);
    }
    return Err(a.error.error), used;
  }

  lemma DelayedHasStatus(t: Target, s0: State, ops: seq<Op>, d: Decoder, r: Decoded<Answer>, seen: Seen, s1: State)
    requires Exchanged(t, s0, ops, d, NOWHERE, r, seen, s1) && r.Err? && Delayed(r.error.error)
    ensures r.error.status.Some? && Located(PlanOf(d), seen.wire, r.error)
  {
    hide RunOk, Faithful, Steady, Loose, PlanOf, Located, PastCommit, Agrees;
    assert !Vague(r.error.error);
    SoundErrors(d, seen.wire, r.error);
  }

  lemma SecuredLeads(s: State, fid: Fid, temp: Name, body: seq<Byte>)
    requires Secured(s, fid, temp, body)
    ensures temp.Temp? && temp !in AwaitedNames(s.limbo)
  {
  }

  lemma SecuredKnown(s: State, fid: Fid, temp: Name, body: seq<Byte>)
    requires Secured(s, fid, temp, body)
    ensures fid in s.files
  {
  }

  lemma ClearBoot(t: Target, a: View, b: View, ops: seq<Op>, d: Decoder, x: Extent, r: Decoded<Answer>, seen: Seen)
    requires !b.ambiguous ==> Clear(t, a.s, ops, d, x, r, seen, b.s)
    ensures !b.ambiguous ==> a.s.boot == b.s.boot
  {
    hide Settled, Intact;
  }

  lemma OkVerdict(createNew: bool, fid: Fid, body: seq<Byte>, a: View, b: View)
    requires Published(b.s, fid, body) && (createNew ==> NeverReplaces(b.s))
    ensures Verdict(createNew, Ok(true), body, a, b) && PublishedBody(b.s, body)
  {
  }

  lemma CloseSetup(s: State, t: Target, file: TempFile, path: seq<string>, size: nat, commit: bool, createNew: bool)
    requires file.fid in s.files && file.name.Temp?
    ensures var ops, l := ClosePublishOps(file.fid, path, file.name, t.dest, size, commit, createNew), Layout(commit, path, createNew);
            && Known(s, Full(ops)) && OpenedNames(Full(ops)) == {} && StaticCover(ops, NOWHERE)
            && LaidOut(Full(ops), l, file.fid, file.name, t.dest, size)
            && (forall i | 0 <= i < |Full(ops)| :: WellNamed(Full(ops)[i]))
            && PublishesAt(Full(ops), l.Publish(), createNew, file.name, t.dest, path)
            && (commit ==> |Full(ops)| > 2 && Full(ops)[2].Commit?)
  {
    hide ClosePublishOps, Known, OpenedNames, StaticCover, PublishesAt;
    var ops, l := ClosePublishOps(file.fid, path, file.name, t.dest, size, commit, createNew), Layout(commit, path, createNew);
    ClosePublishesAt(Full(ops), l, file.fid, file.name, t.dest, size, path);
    InertSetup(s, ops, file.fid);
  }

  /** The two ways on after a failed close-and-publish compound: CLOSE done and the publish
      refused for a while, or give up. */
  predicate Resumable(ops: seq<Op>, e: DecodeError) {
    && CompletedOperation(ops, e, CLOSE) && !CompletedOperation(ops, e, LINK) && !CompletedOperation(ops, e, RENAME)
    && TransientStatus(e).Some?
  }

  /** Resuming is allowed exactly when the run stopped between CLOSE and the publish. */
  lemma ResumableMeans(ops: seq<Op>, l: Layout, fid: Fid, temp: Name, dest: Name, size: nat, w: Wire, e: DecodeError)
    requires LaidOut(Full(ops), l, fid, temp, dest, size) && Located(CodesOf(Full(ops)), w, e)
    ensures Resumable(ops, e) <==>
      TransientStatus(e).Some? && NamesFailure(Err(e)) && l.Close() < e.replyIndex.value <= l.Publish()
  {
    hide FailedAt, GoodUpTo, CodesOf, CompletedOperation, LaidOut;
    if e.status.Some? && e.replyIndex.Some? {
      FailedOpIs(CodesOf(Full(ops)), w, e.replyIndex.value, e.error.status, e.error.op);
      CodesAt(Full(ops));
      OnlyAt(ops, l, fid, temp, dest, size);
      CompletedMeans(ops, e, CLOSE, l.Close() - 1);
      CompletedMeans(ops, e, if l.createNew then LINK else RENAME, l.Publish() - 1);
      NeverCompleted(ops, e, if l.createNew then RENAME else LINK);
    } else if e.replyIndex.None? {
      NothingCompleted(ops, e);
    }
  }

  predicate Only(ops: seq<Op>, code: OpCode, k: nat) {
    forall j | 0 <= j < |ops| :: CodeOf(ops[j]) == code <==> j == k
  }

  lemma OnlyAt(ops: seq<Op>, l: Layout, fid: Fid, temp: Name, dest: Name, size: nat)
    requires LaidOut(Full(ops), l, fid, temp, dest, size)
    ensures |ops| >= l.Publish() && Only(ops, CLOSE, l.Close() - 1)
    ensures Only(ops, if l.createNew then LINK else RENAME, l.Publish() - 1)
    ensures forall j | 0 <= j < |ops| :: CodeOf(ops[j]) != if l.createNew then RENAME else LINK
  {
    assert Full(ops)[l.Close()] == ops[l.Close() - 1] && Full(ops)[l.Publish()] == ops[l.Publish() - 1];
    forall j | 0 <= j < |ops|
      ensures IsKind(ops[j], Closes) ==> j == l.Close() - 1
      ensures IsKind(ops[j], Publishes) ==> j == l.Publish() - 1
    {
      assert ops[j] == Full(ops)[j + 1];
    }
  }

  lemma CompletedMeans(ops: seq<Op>, e: DecodeError, code: OpCode, k: nat)
    requires e.replyIndex.Some? && k < |ops| && Only(ops, code, k)
    ensures CompletedOperation(ops, e, code) <==> k + 1 < e.replyIndex.value
  {
    assert CodeOf(ops[k]) == code;
  }

  lemma NeverCompleted(ops: seq<Op>, e: DecodeError, code: OpCode)
    requires forall j | 0 <= j < |ops| :: CodeOf(ops[j]) != code
    ensures !CompletedOperation(ops, e, code)
  {
  }

  lemma NothingCompleted(ops: seq<Op>, e: DecodeError)
    requires e.replyIndex.None?
    ensures !CompletedOperation(ops, e, CLOSE)
  {
  }

  lemma FailedOpIs(plan: seq<OpCode>, w: Wire, i: nat, status: nat, op: OpCode)
    requires FailedAt(plan, w, i, status, op)
    ensures i < |plan| && (op == plan[i] || (op == ILLEGAL && status == OP_ILLEGAL))
  {
  }

  /** Closes the file and publishes it, all in one compound; if only the publish was refused for a
      while, publishes alone. */
  method ClosePublish(session: NfsSession, file: TempFile, size: nat, verifier: Option<nat>, createNew: bool, ghost body: seq<Byte>)
    returns (r: Result<bool, Error>)
    requires session.Ready() && size == |body| && Kept(session.s, file.fid, body, 0, |body|, verifier)
    requires Leads(session.s, file.name, file.fid) && Unpublished(session.s)
    requires !session.ambiguous ==> verifier.Some? ==> verifier.value == session.s.boot
    modifies session`s, session`calls, session`ambiguous, session`calm
    ensures session.Ready() && Onward(old(session.Now()), session.Now())
    ensures session.calls <= old(session.calls) + 1 + session.transientRetries
    ensures r.Err? && Delayed(r.error) ==> session.calls == old(session.calls) + 1 + session.transientRetries
    ensures Weight(session.s, Closes) <= Weight(old(session.s), Closes) + 1
    ensures Verdict(createNew, r, body, old(session.Now()), session.Now()) && (r.Ok? ==> Gone(session.s, file.name))
    ensures session.calm ==> r.Ok? || (createNew && r.error == Nfs(EXIST, LINK) && file.name !in AwaitedNames(session.s.limbo))
  {
    hide Delayed, TransientRetryIsSafe, Gone, AwaitedNames, Valid, Known, OpenedNames, StaticCover, CodesOf, PlanOf, Loose, ClosePublishOps, Steady, RunOk, Faithful, SmoothWire, Kept, Leads, Secured, Unpublished, PublishesAt, LaidOut, Grows, Weight, DecodeSpec, Published, Clear, Verdict, WellNamed, CompletedOperation, Agrees;
    ghost var v0, t, l := session.Now(), session.target, Layout(verifier.Some?, session.path, createNew);
    OwnKept(session.s, file.fid, body, 0, |body|, verifier);
    var ops := ClosePublishOps(file.fid, session.path, file.name, session.target.dest, size, verifier.Some?, createNew);
    var d := ByClose(ShapeOf(|session.path|, createNew), verifier);
    LeadsNot(session.s, file.name, file.fid);
    CloseSetup(session.s, t, file, session.path, size, verifier.Some?, createNew);
    CloseDecodes(file.fid, session.path, file.name, t.dest, size, verifier, createNew);
    var a, used, seen := session.CompoundDecode(ops, d, true, 0, NOWHERE);
    ghost var v1 := session.Now();
    ClearBoot(t, v0, v1, ops, d, NOWHERE, a, seen);
    ClosePublishWeights(v0.s, v1.s, Full(ops), l, file.fid, file.name, t.dest, size);
    CloseClear(t, v0, v1, ops, d, verifier, a, seen);
    if a.Ok? || a.error.status.Some? {
      ClosePublishSettled(t, v0.s, file.fid, session.path, file.name, body, verifier, createNew, a, seen, v1.s);
    }
    if a.Ok? {
      SmallWeight(v0.s, v1.s, Full(ops), l.Publish(), createNew, file.name, t.dest, session.path);
      OkVerdict(createNew, file.fid, body, v0, v1);
      return Ok(true);
    }
    NamedPublished(a, seen.run, l.Publish(), v1.s, file.fid, body);
    ExchangeVerdict(t, v0, v1, ops, d, NOWHERE, a.error, seen, l.Publish(), createNew, file.name, body, session.path);
    if session.calm {
      SoundErrors(d, seen.wire, a.error);
      SettledNames(t, v0.s, ops, seen, v1.s, NOWHERE);
      CalmClose(d, ops, seen, a, createNew, |session.path|, verifier);
    }
    if Delayed(a.error.error) {
      DelayedHasStatus(t, v0.s, ops, d, a, seen, v1.s);
      DelayedClose(ops, l, file.fid, file.name, t.dest, size, seen.wire, a.error);
    }
    if Resumable(ops, a.error) && used < session.transientRetries {
      ResumedIsSecured(t, ops, l, file, size, seen, a, d, v0.s, v1.s, body);
      var p, _ := PublishAfterClose(session, file, createNew, used + 1, body);
      VerdictFrom(createNew, p, body, v0, v1, session.Now());
      return p;
    }
    return Err(a.error.error);
  }

  lemma LeadsNot(s: State, temp: Name, fid: Fid)
    requires Leads(s, temp, fid)
    ensures temp.Temp? && temp !in AwaitedNames(s.limbo)
  {
  }

  lemma CloseDecodes(fid: Fid, path: seq<string>, temp: Name, dest: Name, size: nat, v: Option<nat>, createNew: bool)
    ensures CodesOf(Full(ClosePublishOps(fid, path, temp, dest, size, v.Some?, createNew))) == PlanOf(ByClose(ShapeOf(|path|, createNew), v))
  {
    hide CodesOf, ClosePublishOps, ClosePlan;
    ClosePublishMatches(fid, path, temp, dest, size, v.Some?, createNew);
  }

  lemma NamedPublished(a: Decoded<Answer>, run: seq<Step>, p: nat, s: State, fid: Fid, body: seq<Byte>)
    requires NamesFailure(a) && OkOps(run) > p ==> Published(s, fid, body)
    ensures NamesFailure(a) && OkOps(run) > p ==> PublishedBody(s, body)
  {
    hide Published, NamesFailure;
  }

  /** A clear answer to the close compound never has verifiers that disagree. */
  lemma CloseClear(t: Target, a: View, b: View, ops: seq<Op>, d: Decoder, v: Option<nat>, r: Decoded<Answer>, seen: Seen)
    requires d.ByClose? && d.verifier == v && (!b.ambiguous ==> Clear(t, a.s, ops, d, NOWHERE, r, seen, b.s))
    requires !b.ambiguous ==> v.Some? ==> v.value == a.s.boot
    requires v.Some? ==> |Full(ops)| > 2 && Full(ops)[2].Commit?
    requires forall i | 0 <= i < |Full(ops)| :: WellNamed(Full(ops)[i])
    ensures !b.ambiguous && (r.Ok? || r.error.status.Some? || Vague(r.error.error)) ==> Agrees(d, seen.wire)
  {
    hide RunOk, Faithful, DecodeSpec, Evolves, CodesOf, WellNamed, Intact, Agrees, NoHeavier;
    if !b.ambiguous && (r.Ok? || r.error.status.Some? || Vague(r.error.error)) {
      SteadyEvolves(a.s, seen.pre, NOWHERE);
      CloseAgrees(t, a.s, Full(ops), d.shape, v, seen, b.s);
    }
  }

  lemma CalmClose(d: Decoder, ops: seq<Op>, seen: Seen, a: Decoded<Answer>, createNew: bool, n: nat, v: Option<nat>)
    requires d == ByClose(ShapeOf(n, createNew), v) && DecodeSpec(d, seen.wire, a) && CodesOf(Full(ops)) == PlanOf(d)
    requires Agrees(d, seen.wire) && SmoothWire(Full(ops), seen.wire, seen.run)
    ensures a.Err? ==> a.error.error == Nfs(EXIST, LINK) && a.error.status == Some(EXIST) && createNew
  {
    hide PastCommit, GoodAnswer, FullWrites, CodesOf, FailedAt;
  }

  lemma ResumedIsSecured(t: Target, ops: seq<Op>, l: Layout, file: TempFile, size: nat, seen: Seen, a: Decoded<Answer>, d: Decoder, s0: State, s1: State, body: seq<Byte>)
    requires LaidOut(Full(ops), l, file.fid, file.name, t.dest, size) && CodesOf(Full(ops)) == PlanOf(d)
    requires a.Err? && Resumable(ops, a.error) && (a.error.status.Some? ==> Settled(t, s0, ops, d, NOWHERE, a, seen, s1))
    requires NamesFailure(a) && l.Close() < OkOps(seen.run) <= l.Publish() ==> Secured(s1, file.fid, file.name, body) && Unpublished(s1)
    ensures Secured(s1, file.fid, file.name, body) && Unpublished(s1)
  {
    hide RunOk, Faithful, LaidOut, CodesOf, PlanOf, Secured, Unpublished, Steady, PastCommit, Agrees, FailedAt, CompletedOperation;
    ResumableMeans(ops, l, file.fid, file.name, t.dest, size, seen.wire, a.error);
    var i := a.error.replyIndex.value;
    FailureIsWhereItStopped(t, seen.pre, Full(ops), seen.run, s1, seen.wire, i, a.error.error.status, a.error.error.op);
  }

  lemma VerdictFrom(createNew: bool, r: Result<bool, Error>, body: seq<Byte>, a: View, b: View, c: View)
    requires Onward(a, b) && Onward(b, c) && Verdict(createNew, r, body, b, c)
    ensures Onward(a, c) && Verdict(createNew, r, body, a, c)
  {
    hide Valid, PublishedBody, Weight, NeverReplaces;
  }

  // ---------------------------------------------------------------- the put in one compound

  const MAX_FUSED_PUT_BYTES := 128 * 1024

  /** A failure that says the server does not take the compound's shape. */
  predicate RejectsShape(e: Error) {
    || e.Unsupported?
    || (e.Nfs? && (e.status == NOTSUPP || e.status == OP_ILLEGAL))
    || (e.Nfs? && (e.status == INVAL || e.status == BAD_STATEID) && (e.op == WRITE || e.op == COMMIT || e.op == VERIFY))
  }

  datatype FusedTry = FusedDone(fid: Fid) | NameTaken

  lemma FusedSetup(s: State, t: Target, temp: Name, path: seq<string>, body: seq<Byte>, createNew: bool)
    requires temp.Temp?
    ensures var ops := FusedOps(path, temp, t.dest, body, createNew);
            && Known(s, Full(ops)) && OpenedNames(Full(ops)) <= {temp}
            && FusedLaidOut(Full(ops), path, createNew, temp, t.dest, body)
            && (forall i | 0 <= i < |Full(ops)| :: WellNamed(Full(ops)[i]))
            && PublishesAt(Full(ops), FusedPublishAt(|path|, createNew), createNew, temp, t.dest, path)
            && CodesOf(Full(ops)) == PlanOf(ByFused(|path|, createNew))
  {
    hide FusedOps, FusedLaidOut, CodesOf, FusedPlan, Known, WellNamed, PublishesAt;
    var ops := Full(FusedOps(path, temp, t.dest, body, createNew));
    FusedLayout(path, temp, t.dest, body, createNew);
    FusedMatches(path, temp, t.dest, body, createNew);
    FusedRest(ops, path, createNew, temp, t.dest, body);
    FusedKnown(s, ops, path, createNew, temp, t.dest, body);
    FusedPublishesAt(ops, path, createNew, temp, t.dest, body);
  }

  lemma FusedKnown(s: State, ops: seq<Op>, path: seq<string>, createNew: bool, temp: Name, dest: Name, body: seq<Byte>)
    requires FusedLaidOut(ops, path, createNew, temp, dest, body)
    ensures Known(s, ops) && OpenedNames(ops) <= {temp}
  {
    hide FusedLaidOut;
    FusedFirst(ops, path, createNew, temp, dest, body);
    FusedRest(ops, path, createNew, temp, dest, body);
    forall x | x in OpenedNames(ops)
      ensures x == temp
    {
      var i :| 0 <= i < |ops| && ops[i] == Open(x);
      assert !Inert(ops[i]);
    }
  }

  lemma FusedPublishesAt(ops: seq<Op>, path: seq<string>, createNew: bool, temp: Name, dest: Name, body: seq<Byte>)
    requires FusedLaidOut(ops, path, createNew, temp, dest, body) && CodesOf(ops) == FusedPlan(|path|, createNew)
    ensures PublishesAt(ops, FusedPublishAt(|path|, createNew), createNew, temp, dest, path)
  {
    hide CodesOf, FusedPlan;
    CodesAt(ops);
    FusedRest(ops, path, createNew, temp, dest, body);
    FusedRemoves(|path|, createNew);
    forall i | 0 <= i < |ops|
      ensures ops[i].Remove? <==> createNew && i == FusedPublishAt(|path|, createNew) + 1
    {
      assert CodesOf(ops)[i] == CodeOf(ops[i]);
    }
  }

  lemma FusedRemoves(n: nat, createNew: bool)
    ensures forall i | 0 <= i < |FusedPlan(n, createNew)| :: FusedPlan(n, createNew)[i] == REMOVE <==> createNew && i == FusedPublishAt(n, createNew) + 1
  {
    hide FusedPlan;
    var plan, o := FusedPlan(n, createNew), FusedOpenAt(n, createNew);
    assert forall i | o < i < o + 5 :: plan[i] != REMOVE;
  }

  lemma CommittedSeen(run: seq<Step>, w: Wire, o: nat)
    requires Faithful(run, w) && FusedCommitted(w, o)
    ensures RunCommitted(run, o)
  {
    RunsThere(run, w, o + 2);
    RunsThere(run, w, o + 3);
  }

  /** What a successful answer to a fused put settles. */
  lemma FusedAnswered(t: Target, s0: State, path: seq<string>, temp: Name, body: seq<Byte>, createNew: bool, a: FusedOutcome, seen: Seen, s1: State)
    requires path == t.path && temp.Temp? && temp !in AwaitedNames(s0.limbo) && Unpublished(s0)
    requires Settled(t, s0, FusedOps(path, temp, t.dest, body, createNew), ByFused(|path|, createNew), NOWHERE, Ok(FusedAnswer(a)), seen, s1)
    ensures a.FusedOpened? ==> PublishedBody(s1, body) && Gone(s1, temp) && a.write.count == |body| && a.handle.FileOf? && a.handle.fid in s1.files
    ensures a.FusedExists? ==> Unpublished(s1)
    ensures SmoothWire(Full(FusedOps(path, temp, t.dest, body, createNew)), seen.wire, seen.run) ==> a.FusedOpened?
  {
    hide RunOk, Unpublished, Evolves, Published, AwaitedNames, FusedPlan, CodesOf, FusedOps, Faithful, GoodUpTo, FailedAt, NoHeavier, FusedCommitted, BodyIs, SmoothWire;
    FusedMatches(path, temp, t.dest, body, createNew);
    SteadyEvolves(s0, seen.pre, NOWHERE);
    SteadyUnpublished(s0, seen.pre, NOWHERE);
    if a.FusedOpened? {
      FusedDoneSettled(t, seen.pre, path, temp, body, createNew, a.write, seen.wire, seen.run, s1);
      FusedHandle(t, seen.pre, path, temp, body, createNew, a.handle, seen.wire, seen.run, s1);
    } else {
      FusedTakenSettled(t, seen.pre, path, temp, body, createNew, seen.wire, seen.run, s1);
    }
  }

  lemma FusedDoneSettled(t: Target, s: State, path: seq<string>, temp: Name, body: seq<Byte>, createNew: bool, a: WriteData, w: Wire, run: seq<Step>, s1: State)
    requires path == t.path && temp.Temp? && temp !in AwaitedNames(s.limbo) && Unpublished(s)
    requires RunOk(t, s, Full(FusedOps(path, temp, t.dest, body, createNew)), run, s1) && Faithful(run, w)
    requires GoodUpTo(FusedPlan(|path|, createNew), w, |FusedPlan(|path|, createNew)|)
    requires FusedCommitted(w, FusedOpenAt(|path|, createNew)) && WroteAt(w, FusedOpenAt(|path|, createNew) + 2, a)
    ensures PublishedBody(s1, body) && Gone(s1, temp) && a.count == |body|
  {
    hide Gone, RunOk, Unpublished, Published, AwaitedNames, FusedPlan, FusedLaidOut, CodesOf, FusedOps, Faithful, GoodUpTo, FusedCommitted, BodyIs, RunCommitted;
    var ops, n := Full(FusedOps(path, temp, t.dest, body, createNew)), |path|;
    FusedLayout(path, temp, t.dest, body, createNew);
    FusedMatches(path, temp, t.dest, body, createNew);
    FusedLength(ops, path, createNew, temp, t.dest, body);
    SuccessMeansAllRan(t, s, ops, run, s1, w, |FusedPlan(n, createNew)|);
    CommittedSeen(run, w, FusedOpenAt(n, createNew));
    FusedPublishes(t, s, ops, run, s1, path, createNew, temp, body);
    var _ := FusedWritten(t, s, ops, run, s1, path, createNew, temp, body);
    FusedEnds(t, s, path, temp, body, createNew, run, s1);
    BodyIsTrue(run, w, FusedOpenAt(n, createNew) + 2, WriteBody(a.count, a.level, a.verifier));
  }

  lemma FusedEnds(t: Target, s: State, path: seq<string>, temp: Name, body: seq<Byte>, createNew: bool, run: seq<Step>, s1: State)
    requires path == t.path && temp.Temp? && temp !in AwaitedNames(s.limbo)
    requires RunOk(t, s, Full(FusedOps(path, temp, t.dest, body, createNew)), run, s1)
    requires OkOps(run) >= |Full(FusedOps(path, temp, t.dest, body, createNew))|
    ensures Gone(s1, temp)
  {
    hide RunOk, AwaitedNames, PathOps, PublishTail, FusedHeadOps, FusedMiddleOps, FusedOps, FusedLaidOut, Here;
    var ops := Full(FusedOps(path, temp, t.dest, body, createNew));
    FusedLayout(path, temp, t.dest, body, createNew);
    FusedRest(ops, path, createNew, temp, t.dest, body);
    FusedSplit(path, temp, t.dest, body, createNew);
    var tail := FusedTailOps(path, temp, t.dest, createNew);
    assert ops[|ops| - 1] == tail[|tail| - 1];
    RunLength(t, s, ops, run, s1);
    FusedLength(ops, path, createNew, temp, t.dest, body);
    FusedReturns(t, s, ops, run, s1, path, createNew, temp, body);
    LastTakesName(t, s, ops, run, s1, temp);
  }

  /** The handle a fused put answers with is one the server knows. */
  lemma FusedHandle(t: Target, s: State, path: seq<string>, temp: Name, body: seq<Byte>, createNew: bool, h: Handle, w: Wire, run: seq<Step>, s1: State)
    requires path == t.path && temp.Temp? && temp !in AwaitedNames(s.limbo)
    requires RunOk(t, s, Full(FusedOps(path, temp, t.dest, body, createNew)), run, s1) && Faithful(run, w)
    requires GoodUpTo(FusedPlan(|path|, createNew), w, |FusedPlan(|path|, createNew)|)
    requires BodyIs(w, FusedOpenAt(|path|, createNew) + 1, HandleBody(h))
    ensures h.FileOf? && h.fid in s1.files
  {
    hide RunOk, Valid, OpStep, AwaitedNames, FusedPlan, FusedLaidOut, CodesOf, FusedOps, Faithful, GoodUpTo, BodyIs, WellNamed, Leads;
    var ops, n := Full(FusedOps(path, temp, t.dest, body, createNew)), |path|;
    var o := FusedOpenAt(n, createNew);
    FusedLayout(path, temp, t.dest, body, createNew);
    FusedMatches(path, temp, t.dest, body, createNew);
    FusedFirst(ops, path, createNew, temp, t.dest, body);
    FusedRest(ops, path, createNew, temp, t.dest, body);
    SuccessMeansAllRan(t, s, ops, run, s1, w, |FusedPlan(n, createNew)|);
    BodyIsTrue(run, w, o + 1, HandleBody(h));
    RunStep(t, s, ops, run, s1, o);
    RunStep(t, s, ops, run, s1, o + 1);
    GetFhAnswers(t, run[o + 1]);
    var fid := Fused.FusedOpened(t, s, ops, run, s1, path, createNew, temp, body);
    RunGrowsTo(t, s, ops, run, s1, o + 2);
  }

  lemma FusedTakenSettled(t: Target, s: State, path: seq<string>, temp: Name, body: seq<Byte>, createNew: bool, w: Wire, run: seq<Step>, s1: State)
    requires temp.Temp? && Unpublished(s)
    requires RunOk(t, s, Full(FusedOps(path, temp, t.dest, body, createNew)), run, s1) && Faithful(run, w)
    requires FailedAt(FusedPlan(|path|, createNew), w, FusedOpenAt(|path|, createNew), EXIST, OPEN)
    ensures Unpublished(s1) && !SmoothWire(Full(FusedOps(path, temp, t.dest, body, createNew)), w, run)
  {
    hide RunOk, Unpublished, FusedPlan, FusedLaidOut, CodesOf, FusedOps, Faithful, FailedAt, SmoothWire;
    var ops, n := Full(FusedOps(path, temp, t.dest, body, createNew)), |path|;
    FusedLayout(path, temp, t.dest, body, createNew);
    FusedMatches(path, temp, t.dest, body, createNew);
    FusedLength(ops, path, createNew, temp, t.dest, body);
    FailureIsWhereItStopped(t, s, ops, run, s1, w, FusedOpenAt(n, createNew), EXIST, OPEN);
    FusedRest(ops, path, createNew, temp, t.dest, body);
    NotReachedNotPublished(t, s, ops, run, s1, FusedPublishAt(n, createNew));
    NotSmooth(ops, w, run, FusedOpenAt(n, createNew), EXIST, OPEN);
  }

  /** A failure past the publish means that it happened. */
  lemma FusedFailed(t: Target, s0: State, path: seq<string>, temp: Name, body: seq<Byte>, createNew: bool, e: DecodeError, seen: Seen, s1: State)
    requires path == t.path && temp.Temp? && temp !in AwaitedNames(s0.limbo) && Unpublished(s0)
    requires Settled(t, s0, FusedOps(path, temp, t.dest, body, createNew), ByFused(|path|, createNew), NOWHERE, Err(e), seen, s1)
    ensures NamesFailure(Err(e)) && OkOps(seen.run) > FusedPublishAt(|path|, createNew) ==> PublishedBody(s1, body)
  {
    hide RunOk, Unpublished, Evolves, Published, AwaitedNames, FusedPlan, FusedLaidOut, CodesOf, FusedOps, Faithful, FailedAt, NoHeavier, FusedCommitted, FusedAgrees, RunCommitted;
    var ops, n := Full(FusedOps(path, temp, t.dest, body, createNew)), |path|;
    if NamesFailure(Err(e)) && OkOps(seen.run) > FusedPublishAt(n, createNew) {
      FusedLayout(path, temp, t.dest, body, createNew);
      FusedMatches(path, temp, t.dest, body, createNew);
      SteadyEvolves(s0, seen.pre, NOWHERE);
      SteadyUnpublished(s0, seen.pre, NOWHERE);
      FailureIsWhereItStopped(t, seen.pre, ops, seen.run, s1, seen.wire, e.replyIndex.value, e.error.status, e.error.op);
      CommittedSeen(seen.run, seen.wire, FusedOpenAt(n, createNew));
      FusedPublishes(t, seen.pre, ops, seen.run, s1, path, createNew, temp, body);
    }
  }

  lemma FusedLength(ops: seq<Op>, path: seq<string>, createNew: bool, temp: Name, dest: Name, body: seq<Byte>)
    requires FusedLaidOut(ops, path, createNew, temp, dest, body)
    ensures |ops| == FusedPublishAt(|path|, createNew) + (if createNew then 2 else 1)
    ensures ops[FusedOpenAt(|path|, createNew) + 3].Commit?
  {
  }

  /** A refusal of anything but LINK is trouble. */
  lemma NotSmooth(ops: seq<Op>, w: Wire, run: seq<Step>, i: nat, status: nat, op: OpCode)
    requires FailedAt(CodesOf(ops), w, i, status, op) && op != LINK
    ensures !SmoothWire(ops, w, run)
  {
    hide CodesOf, FullWrites;
    CodesAt(ops);
  }

  /** On one server instance the WRITE and COMMIT of the fused compound agree. */
  lemma FusedClear(t: Target, a: View, b: View, ops: seq<Op>, path: seq<string>, createNew: bool, temp: Name, body: seq<Byte>, r: Decoded<Answer>, seen: Seen)
    requires !b.ambiguous ==> Clear(t, a.s, ops, ByFused(|path|, createNew), NOWHERE, r, seen, b.s)
    requires FusedLaidOut(Full(ops), path, createNew, temp, t.dest, body) && CodesOf(Full(ops)) == FusedPlan(|path|, createNew)
    ensures !b.ambiguous && (r.Ok? || r.error.status.Some? || Vague(r.error.error)) ==> Agrees(ByFused(|path|, createNew), seen.wire)
  {
    hide RunOk, Faithful, DecodeSpec, Evolves, CodesOf, NoHeavier, FusedLaidOut, FusedPlan, Intact, FusedAgrees;
    if !b.ambiguous && (r.Ok? || r.error.status.Some? || Vague(r.error.error)) {
      SteadyEvolves(a.s, seen.pre, NOWHERE);
      FusedRunAgrees(t, seen.pre, Full(ops), path, createNew, temp, body, seen.wire, seen.run, b.s);
    }
  }

  lemma FusedRunAgrees(t: Target, s: State, ops: seq<Op>, path: seq<string>, createNew: bool, temp: Name, body: seq<Byte>, w: Wire, run: seq<Step>, s1: State)
    requires RunOk(t, s, ops, run, s1) && Faithful(run, w) && s1.boot <= s.boot
    requires FusedLaidOut(ops, path, createNew, temp, t.dest, body) && Intact(FusedPlan(|path|, createNew), w)
    ensures FusedAgrees(w, FusedOpenAt(|path|, createNew))
  {
    hide RunOk, Faithful, FusedLaidOut, FusedPlan, OpStep, WellNamed, Intact, FusedOpenAt, FusedPublishAt, Valid, Rely;
    var o := FusedOpenAt(|path|, createNew);
    if o + 3 < |w.replies| && (forall i | o + 2 <= i <= o + 3 :: w.replies[i].Readable? && w.replies[i].reply.status == OK) {
      FusedFirst(ops, path, createNew, temp, t.dest, body);
      FusedRest(ops, path, createNew, temp, t.dest, body);
      FusedLength(ops, path, createNew, temp, t.dest, body);
      FusedBodies(|path|, createNew, w);
      ReplyBoot(t, s, ops, run, s1, w, o + 2);
      ReplyBoot(t, s, ops, run, s1, w, o + 3);
    }
  }

  /** A verifier the client read is the one of the server instance that ran the operation. */
  lemma ReplyBoot(t: Target, s: State, ops: seq<Op>, run: seq<Step>, s1: State, w: Wire, k: nat)
    requires RunOk(t, s, ops, run, s1) && Faithful(run, w) && forall i | 0 <= i < |ops| :: WellNamed(ops[i])
    requires k < |w.replies| && w.replies[k].Readable? && w.replies[k].reply.status == OK && w.replies[k].reply.body != Malformed && k < |ops|
    ensures k < |run| && s.boot <= run[k].pre.boot <= s1.boot
    ensures ops[k].Write? ==> w.replies[k].reply.body.WriteBody? && w.replies[k].reply.body.verifier == run[k].pre.boot
    ensures ops[k].Commit? ==> w.replies[k].reply.body == VerifierBody(run[k].pre.boot)
  {
    hide RunOk, Faithful, OpStep, WellNamed, Valid, Rely;
    RunsThere(run, w, k);
    RunStep(t, s, ops, run, s1, k);
    WriteReplyBoot(t, run[k], ops[k]);
    BootBetween(t, s, ops, run, s1, k);
  }

  lemma FusedBodies(n: nat, createNew: bool, w: Wire)
    requires Intact(FusedPlan(n, createNew), w) && FusedOpenAt(n, createNew) + 3 < |w.replies|
    requires forall i | FusedOpenAt(n, createNew) + 2 <= i <= FusedOpenAt(n, createNew) + 3 :: w.replies[i].Readable? && w.replies[i].reply.status == OK
    ensures w.replies[FusedOpenAt(n, createNew) + 2].reply.body.WriteBody?
    ensures w.replies[FusedOpenAt(n, createNew) + 3].reply.body.VerifierBody?
  {
    hide FusedPlan;
  }

  lemma LooseOnward(a: View, b: View, ops: seq<Op>)
    requires Loose(a.s, b.s, ops) && (a.ambiguous ==> b.ambiguous) && (b.calm ==> a.calm) && (!b.ambiguous ==> a.s.boot == b.s.boot)
    ensures Onward(a, b)
  {
    hide Grows, Weight, AwaitedNames;
  }

  lemma CalmFused(d: Decoder, ops: seq<Op>, seen: Seen, a: Decoded<Answer>, createNew: bool, n: nat)
    requires d == ByFused(n, createNew) && DecodeSpec(d, seen.wire, a) && CodesOf(Full(ops)) == PlanOf(d)
    requires Agrees(d, seen.wire) && SmoothWire(Full(ops), seen.wire, seen.run)
    ensures a.Err? ==> a.error.error == Nfs(EXIST, LINK) && createNew
  {
    SmoothVerdict(d, Full(ops), seen.wire, seen.run, a);
    hide FusedPlan, DecodeSpec, Agrees, SmoothWire, CodesOf;
    if LINK in FusedPlan(n, createNew) && !createNew {
      FusedLinks(n);
    }
  }

  lemma FusedLinks(n: nat)
    ensures LINK !in FusedPlan(n, false)
  {
  }

  /** Writes and publishes in one compound if the body and the session allow it. */
  method TryPutFused(session: NfsSession, temp: Name, body: seq<Byte>, createNew: bool) returns (r: Result<Option<FusedTry>, Error>)
    requires session.Ready() && temp.Temp? && temp.id < session.nextTemp && temp !in AwaitedNames(session.s.limbo)
    requires Unpublished(session.s)
    modifies session`s, session`calls, session`ambiguous, session`calm, session`fusedSupported, session`used
    ensures session.Ready() && Onward(old(session.Now()), session.Now())
    ensures r == Ok(None) ==> session.Now() == old(session.Now()) && session.calls == old(session.calls) && session.used == old(session.used)
    ensures session.used <= old(session.used) + {temp}
    ensures r.Ok? && r.value.Some? ==>
      if r.value.value.FusedDone? then
        && PublishedBody(session.s, body) && Gone(session.s, temp) && r.value.value.fid in session.s.files
        && (createNew ==> NeverReplaces(session.s))
      else Unpublished(session.s)
    ensures r.Err? ==> Verdict(createNew, Err(r.error), body, old(session.Now()), session.Now())
    ensures session.calm ==> r != Ok(Some(NameTaken)) && (r.Err? ==> createNew && r.error == Nfs(EXIST, LINK) && temp !in AwaitedNames(session.s.limbo))
  {
    hide Gone, Valid, Known, OpenedNames, CodesOf, PlanOf, FusedOps, SmoothWire, Unpublished, PublishesAt, FusedLaidOut, PublishedBody, Clear, Verdict, WellNamed, AwaitedNames, Exchanged, Settled, Onward, FusedMeans;
    ghost var v0 := session.Now();
    StayOnward(v0);
    if |body| > session.writeChunkSize || |body| > MAX_FUSED_PUT_BYTES || !session.fusedSupported {
      return Ok(None);
    }
    var ops, d := FusedOps(session.path, temp, session.target.dest, body, createNew), ByFused(|session.path|, createNew);
    var fits := *;  // the negotiated request size and operation count
    if !fits {
      return Ok(None);
    }
    FusedSetup(session.s, session.target, temp, session.path, body, createNew);
    session.used := session.used + {temp};
    var a, _, seen := session.CompoundDecode(ops, d, false, 0, NOWHERE);
    ghost var v1 := session.Now();
    FusedExchange(session.target, v0, v1, session.path, temp, body, createNew, a, seen);
    FusedMeaning(a, temp, body, createNew, v0, v1);
    if a.Err? {
      if RejectsShape(a.error.error) {
        session.fusedSupported := false;
      }
      return Err(a.error.error);
    }
    if a.value.fused.FusedExists? {
      return Ok(Some(NameTaken));
    }
    if a.value.fused.write.count != |body| {
      return Err(Protocol);
    }
    return Ok(Some(FusedDone(a.value.fused.handle.fid)));
  }

  /** What the outcome of a fused exchange means. */
  ghost predicate FusedMeans(a: Decoded<Answer>, temp: Name, body: seq<Byte>, createNew: bool, v0: View, v1: View) {
    && Onward(v0, v1) && (createNew ==> NeverReplaces(v1.s))
    && match a
       case Err(e) =>
         && Verdict(createNew, Err(e.error), body, v0, v1)
         && (v1.calm ==> createNew && e.error == Nfs(EXIST, LINK) && temp !in AwaitedNames(v1.s.limbo))
       case Ok(x) =>
         && x.FusedAnswer?
         && if x.fused.FusedExists? then Unpublished(v1.s) && !v1.calm
            else PublishedBody(v1.s, body) && Gone(v1.s, temp) && x.fused.handle.FileOf? && x.fused.handle.fid in v1.s.files && x.fused.write.count == |body|
  }

  lemma FusedMeaning(a: Decoded<Answer>, temp: Name, body: seq<Byte>, createNew: bool, v0: View, v1: View)
    requires FusedMeans(a, temp, body, createNew, v0, v1)
    ensures Onward(v0, v1) && (createNew ==> NeverReplaces(v1.s))
    ensures a.Err? ==> Verdict(createNew, Err(a.error.error), body, v0, v1)
    ensures a.Err? && v1.calm ==> createNew && a.error.error == Nfs(EXIST, LINK) && temp !in AwaitedNames(v1.s.limbo)
    ensures a.Ok? ==> a.value.FusedAnswer?
    ensures a.Ok? && a.value.fused.FusedExists? ==> Unpublished(v1.s) && !v1.calm
    ensures a.Ok? && a.value.fused.FusedOpened? ==> PublishedBody(v1.s, body) && Gone(v1.s, temp) && a.value.fused.handle.FileOf? && a.value.fused.handle.fid in v1.s.files
    ensures a.Ok? && a.value.fused.FusedOpened? && a.value.fused.write.count != |body| ==> Verdict(createNew, Err(Protocol), body, v0, v1) && !v1.calm
  {
    hide Gone, Onward, Verdict, PublishedBody, Unpublished;
  }

  lemma FusedExchange(t: Target, v0: View, v1: View, path: seq<string>, temp: Name, body: seq<Byte>, createNew: bool, a: Decoded<Answer>, seen: Seen)
    requires path == t.path && temp.Temp? && temp !in AwaitedNames(v0.s.limbo) && Unpublished(v0.s)
    requires (v0.ambiguous ==> v1.ambiguous) && (v1.calm ==> v0.calm && !v1.ambiguous)
    requires var ops, d := FusedOps(path, temp, t.dest, body, createNew), ByFused(|path|, createNew);
             && Exchanged(t, v0.s, ops, d, NOWHERE, a, seen, v1.s)
             && (!v1.ambiguous ==> Clear(t, v0.s, ops, d, NOWHERE, a, seen, v1.s))
             && (v1.calm ==> Settled(t, v0.s, ops, d, NOWHERE, a, seen, v1.s) && SmoothWire(Full(ops), seen.wire, seen.run))
    ensures FusedMeans(a, temp, body, createNew, v0, v1)
  {
    hide Gone, CodesOf, PlanOf, Loose, FusedOps, Steady, RunOk, Faithful, SmoothWire, Unpublished, PublishesAt, FusedLaidOut, DecodeSpec, PublishedBody, Clear, Verdict, WellNamed, Agrees, AwaitedNames, Known, OpenedNames, Onward;
    var ops, d, n := FusedOps(path, temp, t.dest, body, createNew), ByFused(|path|, createNew), |path|;
    FusedSetup(v0.s, t, temp, path, body, createNew);
    ClearBoot(t, v0, v1, ops, d, NOWHERE, a, seen);
    LooseOnward(v0, v1, Full(ops));
    SmallWeight(v0.s, v1.s, Full(ops), FusedPublishAt(n, createNew), createNew, temp, t.dest, path);
    FusedPlanIs(n, createNew);
    FusedClear(t, v0, v1, ops, path, createNew, temp, body, a, seen);
    if v1.calm {
      SettledNames(t, v0.s, ops, seen, v1.s, NOWHERE);
    }
    if a.Err? {
      FusedErrVerdict(t, v0, v1, path, temp, body, createNew, a.error, seen);
    } else {
      FusedOkAnswer(n, createNew, seen.wire, a.value);
      FusedAnswered(t, v0.s, path, temp, body, createNew, a.value.fused, seen, v1.s);
    }
  }

  /** An answered exchange leaves no new name to be created later. */
  lemma SettledNames(t: Target, s0: State, ops: seq<Op>, seen: Seen, s1: State, x: Extent)
    requires Steady(s0, seen.pre, x) && RunOk(t, seen.pre, Full(ops), seen.run, s1) && forall i | 0 <= i < |Full(ops)| :: WellNamed(Full(ops)[i])
    ensures AwaitedNames(s1.limbo) <= AwaitedNames(s0.limbo)
  {
    hide RunOk, Evolves, AwaitedNames, WellNamed, NoHeavier;
    SteadyEvolves(s0, seen.pre, x);
    RunGrows(t, seen.pre, Full(ops), seen.run, s1, |seen.run|);
  }

  lemma FusedErrVerdict(t: Target, a: View, b: View, path: seq<string>, temp: Name, body: seq<Byte>, createNew: bool, e: DecodeError, seen: Seen)
    requires path == t.path && temp.Temp? && temp !in AwaitedNames(a.s.limbo) && Unpublished(a.s)
    requires var ops, d := FusedOps(path, temp, t.dest, body, createNew), ByFused(|path|, createNew);
             && Exchanged(t, a.s, ops, d, NOWHERE, Err(e), seen, b.s)
             && (!b.ambiguous ==> Clear(t, a.s, ops, d, NOWHERE, Err(e), seen, b.s))
             && (!b.ambiguous && (e.status.Some? || Vague(e.error)) ==> Agrees(d, seen.wire))
             && (b.calm ==> !b.ambiguous && Settled(t, a.s, ops, d, NOWHERE, Err(e), seen, b.s) && SmoothWire(Full(ops), seen.wire, seen.run))
    ensures Verdict(createNew, Err(e.error), body, a, b)
    ensures b.calm ==> createNew && e.error == Nfs(EXIST, LINK)
  {
    hide CodesOf, PlanOf, Loose, FusedOps, Steady, RunOk, Faithful, SmoothWire, Unpublished, PublishesAt, FusedLaidOut, Weight, DecodeSpec, PublishedBody, Clear, Verdict, WellNamed, Agrees, AwaitedNames, Known, OpenedNames;
    var ops, d, n := FusedOps(path, temp, t.dest, body, createNew), ByFused(|path|, createNew), |path|;
    FusedSetup(a.s, t, temp, path, body, createNew);
    if e.status.Some? {
      FusedFailed(t, a.s, path, temp, body, createNew, e, seen, b.s);
    }
    ExchangeVerdict(t, a, b, ops, d, NOWHERE, e, seen, FusedPublishAt(n, createNew), createNew, temp, body, path);
    if b.calm {
      SoundErrors(d, seen.wire, e);
      CalmFused(d, ops, seen, Err(e), createNew, n);
    }
  }

  lemma StayOnward(a: View)
    requires Valid(a.s)
    ensures Onward(a, a)
  {
    hide Valid;
  }

  lemma FusedPlanIs(n: nat, createNew: bool)
    ensures PlanOf(ByFused(n, createNew)) == FusedPlan(n, createNew)
  {
    hide FusedPlan;
  }

  lemma FusedOkAnswer(n: nat, createNew: bool, w: Wire, a: Answer)
    requires DecodeSpec(ByFused(n, createNew), w, Ok(a))
    ensures a.FusedAnswer?
  {
    hide GoodUpTo, FusedPlan, FailedAt, FusedCommitted;
  }

  // ---------------------------------------------------------------- cleaning up

  /** CLOSE of a file outside any publish. */
  method CloseFile(session: NfsSession, fid: Fid) returns (r: Result<bool, Error>)
    requires session.Ready() && fid in session.s.files
    modifies session`s, session`calls, session`ambiguous, session`calm
    ensures session.Ready() && Quietly(old(session.Now()), session.Now())
    ensures r.Err? ==> r.error.SessionLevel()
    ensures session.calm ==> r.Ok? && Evolves(old(session.s), session.s, NOWHERE)
  {
    hide Evolves, Valid, Known, OpenedNames, StaticCover, CodesOf, PlanOf, Loose, CloseOps, Steady, RunOk, Faithful, SmoothWire, Quietly, DecodeSpec;
    ghost var v0 := session.Now();
    var ops, d := CloseOps(fid), ByClose(FileOnly, None);
    CloseOnlySetup(session.s, fid);
    var a, _, seen := session.CompoundDecode(ops, d, true, 0, NOWHERE);
    QuietExchange(v0, session.Now(), ops);
    if session.calm {
      InertExchange(session.target, v0.s, ops, seen, session.s);
      SmoothMeansOk(d, Full(ops), seen.wire, seen.run, a);
    }
    if a.Err? {
      return Err(a.error.error);
    }
    return Ok(true);
  }

  /** An answered exchange that neither opens nor writes touches nothing of this put. */
  lemma InertExchange(t: Target, s0: State, ops: seq<Op>, seen: Seen, s1: State)
    requires Steady(s0, seen.pre, NOWHERE) && RunOk(t, seen.pre, Full(ops), seen.run, s1) && StaticCover(ops, NOWHERE)
    ensures Evolves(s0, s1, NOWHERE)
  {
    hide RunOk, Evolves, StaticCover, NoHeavier;
    StaticCovered(t, seen.pre, ops, seen.run, s1, NOWHERE);
    RunEvolves(t, seen.pre, Full(ops), seen.run, s1, NOWHERE, |seen.run|);
    EvolvesTrans(s0, seen.pre, s1, NOWHERE);
  }

  lemma CloseOnlySetup(s: State, fid: Fid)
    requires fid in s.files
    ensures var ops := CloseOps(fid);
            && Known(s, Full(ops)) && OpenedNames(Full(ops)) == {} && StaticCover(ops, NOWHERE)
            && CodesOf(Full(ops)) == PlanOf(ByClose(FileOnly, None)) && LINK !in PlanOf(ByClose(FileOnly, None))
            && forall i | 0 <= i < |ops| :: !IsKind(ops[i], Publishes)
  {
  }

  /** REMOVE of the temporary name; whatever comes of it is ignored. */
  method RemoveTemp(session: NfsSession, name: Name)
    requires session.Ready() && name.Temp?
    modifies session`s, session`calls, session`ambiguous, session`calm
    ensures session.Ready() && Quietly(old(session.Now()), session.Now())
    ensures session.calm && name !in AwaitedNames(old(session.s.limbo)) ==> Gone(session.s, name)
  {
    hide Gone, AwaitedNames, Valid, Known, OpenedNames, StaticCover, CodesOf, PlanOf, Loose, RemoveOps, Steady, RunOk, Faithful, SmoothWire, Quietly, DecodeSpec;
    ghost var v0 := session.Now();
    var ops := RemoveOps(session.path, name);
    RemoveSetup(session.s, session.path, name);
    var _, _, seen := session.CompoundDecode(ops, ByRemove(|session.path|), true, 0, NOWHERE);
    QuietExchange(v0, session.Now(), ops);
    if session.calm && name !in AwaitedNames(v0.s.limbo) {
      RemoveDone(session.target, v0.s, session.path, name, seen, session.s);
    }
  }

  /** Without trouble the name is free afterwards. */
  lemma RemoveDone(t: Target, s0: State, path: seq<string>, name: Name, seen: Seen, s1: State)
    requires name.Temp? && name !in AwaitedNames(s0.limbo) && Steady(s0, seen.pre, NOWHERE) && path == t.path
    requires RunOk(t, seen.pre, Full(RemoveOps(path, name)), seen.run, s1) && Faithful(seen.run, seen.wire)
    requires SmoothWire(Full(RemoveOps(path, name)), seen.wire, seen.run)
    ensures Gone(s1, name)
  {
    hide RunOk, Faithful, AwaitedNames, Evolves, NoHeavier, PathOps, FullWrites, CodesOf, Gone, WalkAt, Here;
    var ops := Full(RemoveOps(path, name));
    RemoveSetup(s0, path, name);
    RemoveIsLast(path, name);
    CodesAt(ops);
    SteadyEvolves(s0, seen.pre, NOWHERE);
    RunLength(t, seen.pre, ops, seen.run, s1);
    SuccessMeansAllRan(t, seen.pre, ops, seen.run, s1, seen.wire, |ops|);
    WalkedHere(t, seen.pre, ops, seen.run, s1, 1, path);
    LastTakesName(t, seen.pre, ops, seen.run, s1, name);
  }

  lemma RemoveIsLast(path: seq<string>, name: Name)
    requires name.Temp?
    ensures var ops := Full(RemoveOps(path, name));
            && |ops| == 3 + |path| && ops[|ops| - 1] == Remove(name) && WalkAt(ops, 1, path)
            && forall i | 0 <= i < |ops| :: WellNamed(ops[i]) && !ops[i].Link?
  {
    hide PathOps, WalkAt;
    var ops := Full(RemoveOps(path, name));
    WalkWithin([Sequence], PathOps(path), [Remove(name)], 0, path);
    assert ops == [Sequence] + PathOps(path) + [Remove(name)];
    forall i | 0 <= i < |ops|
      ensures WellNamed(ops[i]) && !ops[i].Link?
    {
      if 0 < i < |ops| - 1 {
        assert ops[i] == PathOps(path)[i - 1];
      }
    }
  }

  lemma RemoveSetup(s: State, path: seq<string>, name: Name)
    requires name.Temp?
    ensures var ops := RemoveOps(path, name);
            && Known(s, Full(ops)) && OpenedNames(Full(ops)) == {} && StaticCover(ops, NOWHERE)
            && CodesOf(Full(ops)) == PlanOf(ByRemove(|path|))
            && forall i | 0 <= i < |ops| :: !IsKind(ops[i], Publishes)
  {
    hide PathOps, CodesOf;
    RemoveMatches(path, name);
    var ops := RemoveOps(path, name);
    forall i | 0 <= i < |Full(ops)|
      ensures Inert(Full(ops)[i]) && !(Full(ops)[i].PutFh? && Full(ops)[i].handle.FileOf?) && !IsKind(Full(ops)[i], Publishes)
    {
      if 0 < i < |Full(ops)| - 1 {
        assert Full(ops)[i] == PathOps(path)[i - 1];
      }
    }
    forall i | 0 <= i < |ops|
      ensures Inert(ops[i]) && !IsKind(ops[i], Publishes)
    {
      assert ops[i] == Full(ops)[i + 1];
    }
  }

  lemma PublishedStays(a: View, b: View, body: seq<Byte>)
    requires PublishedBody(a.s, body) && Quietly(a, b)
    ensures PublishedBody(b.s, body)
  {
    hide Durable, LimboCount, AwaitedNames;
    var fid :| Published(a.s, fid, body);
    ChangesBounded(b.s);
    assert b.s.changes == a.s.changes;
    assert Published(b.s, fid, body);
  }

  lemma UnpublishedStays(a: View, b: View)
    requires Unpublished(a.s) && Quietly(a, b)
    ensures Unpublished(b.s)
  {
  }

  lemma NeverReplacesStays(a: View, b: View)
    requires NeverReplaces(a.s) && Quietly(a, b)
    ensures NeverReplaces(b.s)
  {
    hide LimboCount;
    NoRenames(b.s);
  }

  lemma VerdictStays(createNew: bool, e: Error, body: seq<Byte>, a: View, b: View, c: View)
    requires Verdict(createNew, Err(e), body, a, b) && Quietly(b, c)
    ensures Verdict(createNew, Err(e), body, a, c)
  {
    hide PublishedBody, Unpublished, NeverReplaces;
    if createNew {
      NeverReplacesStays(b, c);
    }
    match ClassifyPublishError(createNew, e)
    case WasPublished => PublishedStays(b, c, body);
    case Unknown => ChangesBounded(c.s);
    case _ => UnpublishedStays(b, c);
  }

  // ---------------------------------------------------------------- writing the body

  method WriteBytes(session: NfsSession, file: TempFile, body: seq<Byte>) returns (r: Result<WriteOutcome, Error>)
    requires session.Ready() && Own(session.s, file.fid) && Leads(session.s, file.name, file.fid)
    modifies session`s, session`calls, session`ambiguous, session`calm
    ensures session.Ready() && Quietly(old(session.Now()), session.Now())
    ensures r.Err? ==> r.error.SessionLevel()
    ensures r.Ok? ==> Uploaded(session.s, file.fid, file.name, body, r.value)
    ensures r.Ok? && !session.ambiguous ==> r.value.verifier.Some? ==> r.value.verifier.value == session.s.boot
    ensures session.calm ==> r.Ok?
  {
    hide Valid, Own, Leads, Quietly, Kept, Evolves;
    ghost var v0 := session.Now();
    if body == [] {
      QuietRefl(v0);
      KeptNothing(session.s, file.fid, body, 0, None);
      return Ok(NOTHING_WRITTEN);
    }
    if |body| <= session.writeChunkSize {
      r := WriteSingleChunkCommitted(session, file, body);
      return;
    }
    if session.pipelineDepth <= 1 {
      OwnIn(session.s, file.fid);
      r := WriteChunkAll(session, file, body, 0, |body|);
      if r.Ok? {
        LeadsEvolves(v0.s, session.s, Extent(file.fid, 0, 0 + |body|, {}), file.name, file.fid);
      }
      return;
    }
    r := WriteChunkAllPipelined(session, file, body, session.pipelineDepth);
  }

  lemma OwnIn(s: State, fid: Fid)
    requires Own(s, fid)
    ensures fid in s.files
  {
  }

  // ---------------------------------------------------------------- one attempt

  /** What `put` tells its caller, from the view `a` at its start to the view `b` at its end:
      success is one change of the destination, to a file of exactly the body with every byte of it
      stable; "already exists" is a foreign file at the destination, which was left alone; "outcome
      unknown" is at most one change after an answer that left doubt; and after any other error
      the destination was left alone and nothing still in flight can change it. A create-new put
      never replaced a file, nor can anything of it still in flight, whatever it tells. */
  ghost predicate PutResult(createNew: bool, r: Result<bool, Error>, body: seq<Byte>, a: View, b: View) {
    && (createNew ==> NeverReplaces(b.s))
    && match r
       case Ok(_) => PublishedBody(b.s, body)
       case Err(AlreadyExists) => createNew && Unpublished(b.s) && FoundForeign(a.s, b.s)
       case Err(OutcomeUnknown) => AtMostOnce(b.s) && b.ambiguous
       case Err(_) => Unpublished(b.s)
  }

  /** Since `s` the destination was seen to hold a file that is not this put's. */
  predicate FoundForeign(s: State, s': State) {
    exists i | |s.occupied| <= i < |s'.occupied| :: s'.occupied[i] !in s'.mine
  }

  lemma OccupiedIsForeign(s: State, s': State)
    requires Valid(s') && Unpublished(s') && |s.occupied| < |s'.occupied|
    ensures FoundForeign(s, s')
  {
    assert s'.occupied[|s.occupied|] in s'.occupied;
  }

  lemma FoundForeignEarlier(s: State, m: State, e: State)
    requires FoundForeign(m, e) && |s.occupied| <= |m.occupied|
    ensures FoundForeign(s, e)
  {
  }

  /** `publish_result`, and the error half of the fused attempt. */
  function PublishResult(createNew: bool, e: Error): Result<bool, Error> {
    match ClassifyPublishError(createNew, e)
    case WasPublished => Ok(true)
    case DestinationExists => Err(AlreadyExists)
    case NoPublish => Err(e)
    case Unknown => Err(OutcomeUnknown)
  }

  lemma PublishResultHolds(createNew: bool, e: Error, body: seq<Byte>, a: View, b: View)
    requires Verdict(createNew, Err(e), body, a, b) && Valid(b.s)
    ensures PutResult(createNew, PublishResult(createNew, e), body, a, b)
  {
    hide Unpublished, PublishedBody, Valid, Weight, NeverReplaces;
    if ClassifyPublishError(createNew, e).DestinationExists? {
      OccupiedIsForeign(a.s, b.s);
    }
  }

  lemma OnwardTrans(a: View, b: View, c: View)
    requires Onward(a, b) && Onward(b, c)
    ensures Onward(a, c)
  {
    hide Valid;
  }

  lemma QuietOnward(a: View, b: View)
    requires Quietly(a, b)
    ensures Onward(a, b)
  {
  }

  lemma PutResultFrom(createNew: bool, r: Result<bool, Error>, body: seq<Byte>, a: View, b: View, c: View)
    requires Onward(a, b) && Onward(b, c) && PutResult(createNew, r, body, b, c)
    ensures Onward(a, c) && PutResult(createNew, r, body, a, c)
  {
    hide Valid, PublishedBody, Weight, FoundForeign, NeverReplaces;
    if r == Err(AlreadyExists) {
      FoundForeignEarlier(a.s, b.s, c.s);
    }
  }

  /** Every temporary name this put has used since is free again. */
  predicate NothingLeft(s: State, used0: set<Name>, used: set<Name>) {
    forall n | n in used && n !in used0 :: Gone(s, n)
  }

  /** The fused attempt: done, or `Ok(false)` to go on with the separate compounds. */
  method PutOnceFused(session: NfsSession, body: seq<Byte>, createNew: bool) returns (r: Result<bool, Error>)
    requires session.Ready() && Unpublished(session.s)
    modifies session`s, session`calls, session`ambiguous, session`calm, session`nextTemp, session`fusedSupported, session`used
    ensures session.Ready() && Onward(old(session.Now()), session.Now())
    ensures r == Ok(false) ==> Unpublished(session.s)
    ensures r != Ok(false) ==> PutResult(createNew, r, body, old(session.Now()), session.Now())
    ensures session.calm ==> r.Ok? || (createNew && r.error == AlreadyExists)
    ensures session.calm ==> if r == Ok(false) then session.used == old(session.used) else NothingLeft(session.s, old(session.used), session.used)
  {
    hide Gone, Valid, Onward, Quietly, Unpublished, NeverReplaces, PublishedBody, Verdict, PutResult, AwaitedNames;
    ghost var v0 := session.Now();
    StayOnward(v0);
    if |body| > session.writeChunkSize || |body| > MAX_FUSED_PUT_BYTES || !session.fusedSupported {
      return Ok(false);
    }
    var tries := 0;
    while tries < TEMP_FILE_CREATE_RETRIES
      invariant session.Ready() && Onward(v0, session.Now()) && Unpublished(session.s)
      invariant session.calm ==> session.used == old(session.used)
    {
      var temp := FreshTemp(session);
      ghost var v := session.Now();
      var attempt := TryPutFused(session, temp, body, createNew);
      ghost var v1 := session.Now();
      OnwardCalm(v, v1);
      OnwardTrans(v0, v, v1);
      if attempt.Err? {
        RemoveTemp(session, temp);
        ghost var v2 := session.Now();
        QuietOnward(v1, v2);
        OnwardCalm(v1, v2);
        OnwardTrans(v0, v1, v2);
        OnwardTrans(v, v1, v2);
        VerdictStays(createNew, attempt.error, body, v, v1, v2);
        PublishResultHolds(createNew, attempt.error, body, v, v2);
        PutResultFrom(createNew, PublishResult(createNew, attempt.error), body, v0, v, v2);
        r := PublishResult(createNew, attempt.error);
        if ClassifyPublishError(createNew, attempt.error).NoPublish? && !attempt.error.IsRetryable() {
          NoPublishMeans(createNew, attempt.error, body, v, v2);
          return Ok(false);
        }
        return;
      }
      if attempt.value.None? {
        return Ok(false);
      }
      if attempt.value.value.FusedDone? {
        var deferred := *;
        if !deferred {
          var _ := CloseFile(session, attempt.value.value.fid);
          if session.calm {
            GoneEvolves(v1.s, session.s, NOWHERE, temp);
          }
          QuietOnward(v1, session.Now());
          OnwardCalm(v1, session.Now());
          OnwardTrans(v0, v1, session.Now());
          PublishedStays(v1, session.Now(), body);
          if createNew {
            NeverReplacesStays(v1, session.Now());
          }
        }
        DoneHolds(createNew, body, v0, session.Now());
        return Ok(true);
      }
      tries := tries + 1;
    }
    return Ok(false);
  }

  lemma OnwardCalm(a: View, b: View)
    requires Onward(a, b)
    ensures b.calm ==> a.calm
  {
  }

  lemma NoPublishMeans(createNew: bool, e: Error, body: seq<Byte>, a: View, b: View)
    requires Verdict(createNew, Err(e), body, a, b) && ClassifyPublishError(createNew, e).NoPublish?
    ensures Unpublished(b.s)
  {
  }

  lemma DoneHolds(createNew: bool, body: seq<Byte>, a: View, b: View)
    requires PublishedBody(b.s, body) && (createNew ==> NeverReplaces(b.s))
    ensures PutResult(createNew, Ok(true), body, a, b)
  {
  }

  /** Work of this client that the model leaves open (creating parent directories, building a new
      session): other than its own requests, anything may happen meanwhile. */
  method OutsideWork(session: NfsSession) returns (r: Result<bool, Error>)
    requires session.Ready()
    modifies session`s, session`ambiguous, session`calm
    ensures session.Ready() && Quietly(old(session.Now()), session.Now())
    ensures r.Err? ==> r.error.SessionLevel()
    ensures !session.calm
  {
    hide Valid, Rely, Quietly, AwaitedNames;
    ghost var v0 := session.Now();
    var s1: State := *;
    r := *;
    if !Rely(session.s, s1) {
      RelyRefl(session.s);
      s1 := session.s;
    }
    if r.Err? && !r.error.SessionLevel() {
      r := Err(Protocol);
    }
    RelyQuiet(v0, s1, session.nextTemp);
    session.ambiguous := session.ambiguous || session.s.boot != s1.boot;
    session.s, session.calm := s1, false;
  }

  lemma RelyQuiet(a: View, s1: State, next: nat)
    requires Rely(a.s, s1) && NamesBelow(a.s, next)
    ensures Valid(s1) && NamesBelow(s1, next) && Quietly(a, View(s1, a.ambiguous || a.s.boot != s1.boot, false))
  {
    hide AwaitedNames, FilesEvolve, Weight;
  }

  /** Opens the temporary file, creating the parent directories if the path does not resolve. */
  method OpenForPut(session: NfsSession) returns (r: Result<TempFile, Error>)
    requires session.Ready()
    modifies session`s, session`calls, session`ambiguous, session`calm, session`nextTemp, session`used
    ensures session.Ready() && Quietly(old(session.Now()), session.Now())
    ensures r.Err? ==> r.error.SessionLevel()
    ensures r.Ok? ==> Own(session.s, r.value.fid) && Leads(session.s, r.value.name, r.value.fid)
    ensures session.calm ==> r.Ok? && session.used == old(session.used) + {r.value.name}
  {
    hide Valid, Quietly, Own, Leads;
    ghost var v0 := session.Now();
    r := OpenTempFile(session);
    if r.Ok? || !r.error.IsNfsError(NOENT, LOOKUP) {
      return;
    }
    ghost var v1 := session.Now();
    var dirs := OutsideWork(session);
    ghost var v2 := session.Now();
    QuietTrans(v0, v1, v2);
    if dirs.Err? {
      return Err(dirs.error);
    }
    r := OpenTempFile(session);
    QuietTrans(v0, v2, session.Now());
    QuietBoot(v2, session.Now());
  }

  /** Gives a file that could not be written back to the server: CLOSE, then REMOVE. */
  method Discard(session: NfsSession, file: TempFile, cause: Error) returns (e: Error)
    requires session.Ready() && file.fid in session.s.files && file.name.Temp? && cause.SessionLevel()
    modifies session`s, session`calls, session`ambiguous, session`calm
    ensures session.Ready() && Quietly(old(session.Now()), session.Now())
    ensures e.SessionLevel() && (cause.RequiresSessionRebuild() ==> e.RequiresSessionRebuild())
  {
    hide Valid, Quietly, AwaitedNames, Gone, Evolves;
    ghost var v0 := session.Now();
    var closed := CloseFile(session, file.fid);
    ghost var v1 := session.Now();
    RemoveTemp(session, file.name);
    QuietTrans(v0, v1, session.Now());
    if closed.Ok? {
      return cause;
    }
    CloseFailureKeepsClasses(cause, closed.error);
    return cause.WithCloseFailure(closed.error);
  }

  /** The put in separate compounds: OPEN, the writes, then close and publish. */
  method PutSeparately(session: NfsSession, body: seq<Byte>, createNew: bool) returns (r: Result<bool, Error>)
    requires session.Ready() && Unpublished(session.s)
    modifies session`s, session`calls, session`ambiguous, session`calm, session`nextTemp, session`used
    ensures session.Ready() && Onward(old(session.Now()), session.Now())
    ensures PutResult(createNew, r, body, old(session.Now()), session.Now())
    ensures session.calm ==> r.Ok? || (createNew && r.error == AlreadyExists)
    ensures session.calm ==> NothingLeft(session.s, old(session.used), session.used)
  {
    hide Gone, AwaitedNames, Valid, Onward, Quietly, Unpublished, Verdict, PutResult, Own, Leads, Kept, NeverReplaces, PublishedBody;
    ghost var v1 := session.Now();
    var file := OpenForPut(session);
    ghost var v2 := session.Now();
    UnpublishedStays(v1, v2);
    QuietOnward(v1, v2);
    if file.Err? {
      NothingPublished(createNew, file.error, body, v1, v2);
      return Err(file.error);
    }
    OwnIn(session.s, file.value.fid);
    LeadsNot(session.s, file.value.name, file.value.fid);
    var written := WriteBytes(session, file.value, body);
    ghost var v3 := session.Now();
    UnpublishedStays(v2, v3);
    QuietOnward(v2, v3);
    QuietBoot(v2, v3);
    OnwardTrans(v1, v2, v3);
    if written.Err? {
      var e := Discard(session, file.value, written.error);
      UnpublishedStays(v3, session.Now());
      QuietOnward(v3, session.Now());
      OnwardCalm(v3, session.Now());
      OnwardTrans(v1, v3, session.Now());
      NothingPublished(createNew, e, body, v1, session.Now());
      return Err(e);
    }
    r := PublishWritten(session, file.value, body, written.value, createNew);
    OnwardCalm(v3, session.Now());
    OnwardTrans(v1, v3, session.Now());
    PutResultFrom(createNew, r, body, v1, v3, session.Now());
  }

  /** Close and publish; what was not published has its temporary name removed. */
  method PublishWritten(session: NfsSession, file: TempFile, body: seq<Byte>, written: WriteOutcome, createNew: bool) returns (r: Result<bool, Error>)
    requires session.Ready() && Unpublished(session.s) && Uploaded(session.s, file.fid, file.name, body, written)
    requires !session.ambiguous ==> written.verifier.Some? ==> written.verifier.value == session.s.boot
    modifies session`s, session`calls, session`ambiguous, session`calm
    ensures session.Ready() && Onward(old(session.Now()), session.Now())
    ensures PutResult(createNew, r, body, old(session.Now()), session.Now())
    ensures session.calm ==> (r.Ok? || (createNew && r.error == AlreadyExists)) && Gone(session.s, file.name)
  {
    hide Gone, AwaitedNames, Valid, Onward, Quietly, Unpublished, Verdict, PutResult, Own, Leads, Kept, NeverReplaces, PublishedBody;
    ghost var v3 := session.Now();
    LeadsNot(session.s, file.name, file.fid);
    var published := ClosePublish(session, file, written.bytes, written.verifier, createNew, body);
    ghost var v4 := session.Now();
    if published.Ok? {
      VerdictDone(createNew, body, v3, v4);
      DoneHolds(createNew, body, v3, v4);
      return Ok(true);
    }
    RemoveTemp(session, file.name);
    ghost var v5 := session.Now();
    QuietOnward(v4, v5);
    OnwardCalm(v4, v5);
    OnwardTrans(v3, v4, v5);
    VerdictStays(createNew, published.error, body, v3, v4, v5);
    PublishResultHolds(createNew, published.error, body, v3, v5);
    return PublishResult(createNew, published.error);
  }

  /** One attempt on one session. */
  method PutOnce(session: NfsSession, body: seq<Byte>, createNew: bool) returns (r: Result<bool, Error>)
    requires session.Ready() && Unpublished(session.s)
    modifies session`s, session`calls, session`ambiguous, session`calm, session`nextTemp, session`fusedSupported, session`used
    ensures session.Ready() && Onward(old(session.Now()), session.Now())
    ensures PutResult(createNew, r, body, old(session.Now()), session.Now())
    ensures session.calm ==> r.Ok? || (createNew && r.error == AlreadyExists)
    ensures session.calm ==> NothingLeft(session.s, old(session.used), session.used)
  {
    hide Valid, Onward, Unpublished, PutResult, NothingLeft;
    ghost var v0 := session.Now();
    r := PutOnceFused(session, body, createNew);
    if r != Ok(false) {
      return;
    }
    ghost var v1 := session.Now();
    r := PutSeparately(session, body, createNew);
    OnwardCalm(v1, session.Now());
    PutResultFrom(createNew, r, body, v0, v1, session.Now());
  }

  lemma NothingPublished(createNew: bool, e: Error, body: seq<Byte>, a: View, b: View)
    requires Valid(b.s) && Unpublished(b.s) && e.SessionLevel()
    ensures PutResult(createNew, Err(e), body, a, b)
  {
    hide Valid, Unpublished, NeverReplaces;
    UnpublishedReplacesNothing(b.s);
  }

  lemma VerdictDone(createNew: bool, body: seq<Byte>, a: View, b: View)
    requires exists r: Result<bool, Error> :: r.Ok? && Verdict(createNew, r, body, a, b)
    ensures PublishedBody(b.s, body) && (createNew ==> NeverReplaces(b.s))
  {
    hide PublishedBody, NeverReplaces;
  }

  // ---------------------------------------------------------------- put

  datatype PutMode = Overwrite | IfNotExists

  const RECONNECT_RETRIES := 1

  /** Only an error that asks for a new session is retried, so nothing was published before. */
  lemma RetriedAfterNothing(createNew: bool, e: Error, body: seq<Byte>, a: View, b: View)
    requires PutResult(createNew, Err(e), body, a, b) && e.RequiresSessionRebuild()
    ensures Unpublished(b.s)
  {
  }

  /** The whole put: attempts over fresh sessions, as many as the reconnect budget allows. The
      history of doubtful and of calm answers starts with it. */
  method Put(session: NfsSession, body: seq<Byte>, mode: PutMode) returns (r: Result<bool, Error>)
    requires session.Ready() && Unpublished(session.s)
    modifies session`s, session`calls, session`ambiguous, session`calm, session`nextTemp, session`fusedSupported, session`used
    ensures session.Ready()
    ensures PutResult(mode.IfNotExists?, r, body, View(old(session.s), false, true), session.Now())
    ensures session.calm ==> r.Ok? || (mode.IfNotExists? && r.error == AlreadyExists)
    ensures session.calm ==> NothingLeft(session.s, old(session.used), session.used)
  {
    hide NothingLeft, Valid, Onward, Quietly, Unpublished, PutResult, PublishedBody;
    session.ambiguous, session.calm := false, true;
    ghost var v0 := session.Now();
    StayOnward(v0);
    var attempts := 0;
    while true
      invariant session.Ready() && Unpublished(session.s) && Onward(v0, session.Now())
      invariant session.calm ==> session.used == old(session.used)
      invariant attempts <= RECONNECT_RETRIES
      decreases RECONNECT_RETRIES - attempts
    {
      ghost var v1 := session.Now();
      r := PutOnce(session, body, mode.IfNotExists?);
      ghost var v2 := session.Now();
      OnwardCalm(v1, v2);
      PutResultFrom(mode.IfNotExists?, r, body, v0, v1, v2);
      if r.Ok? || !r.error.RequiresSessionRebuild() || attempts >= RECONNECT_RETRIES {
        return;
      }
      RetriedAfterNothing(mode.IfNotExists?, r.error, body, v0, v2);
      attempts := attempts + 1;
      var rebuilt := OutsideWork(session);
      UnpublishedStays(v2, session.Now());
      QuietOnward(v2, session.Now());
      OnwardTrans(v0, v2, session.Now());
      if rebuilt.Err? {
        NothingPublished(mode.IfNotExists?, rebuilt.error, body, v0, session.Now());
        return Err(rebuilt.error);
      }
    }
  }

  /** Whatever happens, a put changes the destination at most once: to its body if it reports
      success, and not at all if it reports an error other than an unknown outcome. A create-new
      put never changes it from one file to another. */
  lemma PutPublishesOnce(createNew: bool, r: Result<bool, Error>, body: seq<Byte>, a: View, b: View)
    requires PutResult(createNew, r, body, a, b)
    ensures Weight(b.s, Publishes) <= 1 && |b.s.changes| <= 1
    ensures r.Ok? ==> |b.s.changes| == 1 && b.s.changes[0].now.BoundTo? && Durable(b.s.changes[0].now.file, body)
    ensures r.Err? && r.error != OutcomeUnknown ==> b.s.changes == [] && Weight(b.s, Publishes) == 0
    ensures createNew ==> Weight(b.s, Replaces) == 0 && forall c | c in b.s.changes :: c.before.None?
  {
    hide Durable;
  }
}
