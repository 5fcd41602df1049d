/** When a fused compound that ran to its end publishes the body, and when it need not: the verifiers
    of its WRITE and COMMIT are compared only after the compound ran, so a server restart between
    the two can publish other bytes. */
module TornFused {
  import opened Errors
  import opened Server
  import opened ServerLemmas
  import opened Decode
  import opened Runs
  import opened Content
  import opened Compounds
  import opened Publishing
  import opened Fused
  import opened Session
  import opened Put
  import opened Torn

  /** The compound ran to its end; its WRITE answered with the stability `level` and the verifier `v`,
      its COMMIT with the verifier `c`. */
  predicate FusedRanToEnd(t: Target, s0: State, path: seq<string>, temp: Name, body: seq<Byte>, level: Stability, v: nat, c: nat,
                          createNew: bool, run: seq<Step>, s1: State) {
    var ops, o := Full(FusedOps(path, temp, t.dest, body, createNew)), FusedOpenAt(|path|, createNew);
    && path == t.path && temp.Temp? && temp !in AwaitedNames(s0.limbo) && Unpublished(s0)
    && RunOk(t, s0, ops, run, s1) && OkOps(run) == |ops| && o + 3 < |run|
    && run[o + 2].reply.body.WriteBody? && run[o + 2].reply.body.level == level && run[o + 2].reply.body.verifier == v
    && run[o + 3].reply.body == VerifierBody(c)
  }

  ghost predicate AlwaysPublishesFused(body: seq<Byte>, level: Stability, v: nat, c: nat) {
    forall t: Target, s0: State, path: seq<string>, temp: Name, createNew: bool, run: seq<Step>, s1: State ::
      FusedRanToEnd(t, s0, path, temp, body, level, v, c, createNew, run, s1) ==> PublishedBody(s1, body)
  }

  /** Whether what a finished fused compound published is the body is exactly what the decoder checks:
      the WRITE was stable, or the COMMIT carries its verifier. */
  lemma FusedPublishesExactlyWhen(body: seq<Byte>, level: Stability, v: nat, c: nat)
    requires body != [] && v <= c
    ensures AlwaysPublishesFused(body, level, v, c) <==> level.FileSync? || c == v
  {
    hide FusedRanToEnd, PublishedBody;
    if level.FileSync? || c == v {
      forall t: Target, s0: State, path: seq<string>, temp: Name, createNew: bool, run: seq<Step>, s1: State
        | FusedRanToEnd(t, s0, path, temp, body, level, v, c, createNew, run, s1)
        ensures PublishedBody(s1, body)
      {
        AgreeingPublishes(t, s0, path, temp, body, level, v, c, createNew, run, s1);
      }
    } else {
      TornRunsFused(body, level, v, c);
      TornIsNotTheBody(body, c);
    }
  }

  lemma AgreeingPublishes(t: Target, s0: State, path: seq<string>, temp: Name, body: seq<Byte>, level: Stability, v: nat, c: nat,
                          createNew: bool, run: seq<Step>, s1: State)
    requires FusedRanToEnd(t, s0, path, temp, body, level, v, c, createNew, run, s1) && (level.FileSync? || c == v)
    ensures PublishedBody(s1, body)
  {
    hide RunOk, Unpublished, Published, FusedLaidOut, FusedOps, AwaitedNames;
    var ops := Full(FusedOps(path, temp, t.dest, body, createNew));
    FusedLayout(path, temp, t.dest, body, createNew);
    FusedLength(ops, path, createNew, temp, t.dest, body);
    FusedPublishes(t, s0, ops, run, s1, path, createNew, temp, body);
  }

  // ---------------------------------------------------------------- a torn publication

  function Before(v: nat): State {
    State(map[], map[], {}, map[], v, [], 0, 0, 0, 0, [], [])
  }

  function Opened(v: nat): State {
    State(map[Temp(0) := 0], map[0 := File([], {})], {0}, map[Temp(0) := 0], v, [], 1, 0, 0, 0, [], [])
  }

  function Renamed(body: seq<Byte>, c: nat): State
    requires body != []
  {
    var s := AfterCommit(body, c);
    s.(dir := map[TORN_TARGET.dest := 0], published := 1, renamed := 1, changes := [Change(None, BoundTo(0, s.files[0]))])
  }

  const IN_FILE := Ctx(FileFh(0), PathFh([]))

  function TornFusedRun(body: seq<Byte>, level: Stability, v: nat, c: nat): seq<Step>
    requires body != []
  {
    var e, o, w, s, m := Before(v), Opened(v), BeforeRestart(body, v), AfterRestart(body, c), AfterCommit(body, c);
    [Step(e, START, e, START, Went(SEQUENCE)), Step(e, START, e, IN_DIR, Went(PUTFH)), Step(e, IN_DIR, e, SAVED_DIR, Went(SAVEFH)),
     Step(e, SAVED_DIR, o, IN_FILE, Went(OPEN)), Step(o, IN_FILE, o, IN_FILE, Reply(GETFH, OK, HandleBody(FileOf(0)))),
     Step(o, IN_FILE, w, IN_FILE, Reply(WRITE, OK, WriteBody(|body|, level, v))),
     Step(s, IN_FILE, m, IN_FILE, Reply(COMMIT, OK, VerifierBody(c))), Step(m, IN_FILE, m, IN_FILE, Went(VERIFY)),
     Step(m, IN_FILE, m, SAVED_DIR, Went(RESTOREFH)), Step(m, SAVED_DIR, Renamed(body, c), SAVED_DIR, Went(RENAME))]
  }

  function TornFusedOps(body: seq<Byte>): seq<Op> {
    [Sequence, PutFh(ExportRoot), SaveFh, Open(Temp(0)), GetFh, Write(0, body), Commit(0, CommitCount(|body|)), Verify(|body|),
     RestoreFh, Rename(Temp(0), TORN_TARGET.dest)]
  }

  lemma TornFusedOpsAre(body: seq<Byte>)
    ensures Full(FusedOps([], Temp(0), TORN_TARGET.dest, body, false)) == TornFusedOps(body)
  {
    assert PathOps([]) == [PutFh(ExportRoot)];
  }

  lemma TornFusedStates(body: seq<Byte>, v: nat, c: nat)
    requires body != []
    ensures Valid(Before(v)) && Valid(Opened(v)) && Valid(Renamed(body, c)) && Unpublished(Before(v))
  {
  }

  predicate FusedStepOk(body: seq<Byte>, level: Stability, v: nat, c: nat, i: nat)
    requires body != [] && i < 10
  {
    var e := TornFusedRun(body, level, v, c)[i];
    Valid(e.pre) && OpStep(TORN_TARGET, e.pre, e.c, TornFusedOps(body)[i], e.post, e.c', e.reply)
  }

  lemma OpensFile(body: seq<Byte>, level: Stability, v: nat, c: nat, i: nat)
    requires body != [] && i < 5 && Valid(Before(v)) && Valid(Opened(v))
    ensures FusedStepOk(body, level, v, c, i)
  {
    hide Valid, AfterCommit, AfterRestart, Renamed, BeforeRestart;
  }

  lemma WritesFile(body: seq<Byte>, level: Stability, v: nat, c: nat)
    requires body != [] && Valid(Opened(v)) && !level.FileSync?
    ensures FusedStepOk(body, level, v, c, 5)
  {
    hide Valid, AfterCommit, AfterRestart, Renamed;
    assert body[..|body|] == body;
    var f := WriteFile(File([], {}), 0, body, level);
    assert f.data == body && f.stable == {};
  }

  lemma CommitsFile(body: seq<Byte>, level: Stability, v: nat, c: nat, i: nat)
    requires body != [] && 6 <= i < 9 && Valid(AfterRestart(body, c)) && Valid(AfterCommit(body, c))
    ensures FusedStepOk(body, level, v, c, i)
  {
    hide Valid, Renamed, BeforeRestart;
  }

  lemma RenamesFile(body: seq<Byte>, level: Stability, v: nat, c: nat)
    requires body != [] && Valid(AfterCommit(body, c))
    ensures FusedStepOk(body, level, v, c, 9)
  {
    hide Valid, BeforeRestart;
    assert AfterCommit(body, c).dir - {Temp(0)} == map[];
  }

  lemma FusedSteps(body: seq<Byte>, level: Stability, v: nat, c: nat, i: nat)
    requires body != [] && i < 10 && !level.FileSync? && v < c
    ensures FusedStepOk(body, level, v, c, i)
  {
    hide Valid, Rely, FusedStepOk, AfterCommit, AfterRestart, BeforeRestart, Before, Opened;
    TornStates(body, v, c);
    RelyValid(BeforeRestart(body, v), AfterRestart(body, c));
    TornFusedStates(body, v, c);
    if i < 5 {
      OpensFile(body, level, v, c, i);
    } else if i == 5 {
      WritesFile(body, level, v, c);
    } else if i < 9 {
      CommitsFile(body, level, v, c, i);
    } else {
      RenamesFile(body, level, v, c);
    }
  }

  lemma FusedShape(body: seq<Byte>, level: Stability, v: nat, c: nat)
    requires body != []
    ensures var run := TornFusedRun(body, level, v, c);
            && |run| == 10 == |TornFusedOps(body)| && OkOps(run) == 10 && run[0].c == START && run[0].pre == Before(v) && run[9].post == Renamed(body, c)
            && run[5].reply.body == WriteBody(|body|, level, v) && run[6].reply.body == VerifierBody(c)
            && run[5].post == BeforeRestart(body, v) && run[6].pre == AfterRestart(body, c)
            && forall i | 0 <= i < 9 :: run[i].reply.status == OK && run[i + 1].c == run[i].c' && (i != 5 ==> run[i].post == run[i + 1].pre)
  {
    hide Renamed, AfterCommit, AfterRestart, BeforeRestart;
  }

  lemma FusedLinks(body: seq<Byte>, level: Stability, v: nat, c: nat, i: nat)
    requires body != [] && v < c && !level.FileSync? && i < 9
    ensures var run := TornFusedRun(body, level, v, c);
            |run| == 10 && run[i].reply.status == OK && run[i + 1].c == run[i].c' && Rely(run[i].post, run[i + 1].pre)
  {
    hide Valid, OpStep, Rely, Renamed, AfterCommit, AfterRestart, BeforeRestart, Before, TornFusedRun, TornFusedOps;
    FusedShape(body, level, v, c);
    if i == 5 {
      TornStates(body, v, c);
    } else {
      FusedSteps(body, level, v, c, i + 1);
      RelyRefl(TornFusedRun(body, level, v, c)[i + 1].pre);
    }
  }

  lemma FusedRunOk(body: seq<Byte>, level: Stability, v: nat, c: nat)
    requires body != [] && v < c && !level.FileSync?
    ensures RunOk(TORN_TARGET, Before(v), TornFusedOps(body), TornFusedRun(body, level, v, c), Renamed(body, c))
  {
    hide Valid, OpStep, Rely, Renamed, Before, TornFusedRun, TornFusedOps, Unpublished, BeforeRestart, AfterRestart;
    TornFusedStates(body, v, c);
    FusedShape(body, level, v, c);
    RelyRefl(Before(v));
    RelyRefl(Renamed(body, c));
    var run := TornFusedRun(body, level, v, c);
    forall i | 0 <= i < |run|
      ensures Valid(run[i].pre) && OpStep(TORN_TARGET, run[i].pre, run[i].c, TornFusedOps(body)[i], run[i].post, run[i].c', run[i].reply)
    {
      FusedSteps(body, level, v, c, i);
    }
    forall i | 0 <= i < |run| - 1
      ensures run[i].reply.status == OK && run[i + 1].c == run[i].c' && Rely(run[i].post, run[i + 1].pre)
    {
      FusedLinks(body, level, v, c, i);
    }
  }

  lemma TornRunsFused(body: seq<Byte>, level: Stability, v: nat, c: nat)
    requires body != [] && v < c && !level.FileSync?
    ensures FusedRanToEnd(TORN_TARGET, Before(v), [], Temp(0), body, level, v, c, false, TornFusedRun(body, level, v, c), Renamed(body, c))
  {
    TornFusedStates(body, v, c);
    hide Valid, RunOk, Unpublished, FusedOps, Full, TornFusedRun, TornFusedOps, Renamed;
    FusedShape(body, level, v, c);
    TornFusedOpsAre(body);
    FusedRunOk(body, level, v, c);
  }

  lemma TornIsNotTheBody(body: seq<Byte>, c: nat)
    requires body != []
    ensures !PublishedBody(Renamed(body, c), body) && Renamed(body, c).changes[0].now.file.data != body
  {
  }

  // ---------------------------------------------------------------- how it is reported

  /** Whenever WRITE and COMMIT disagree, whatever follows them in the response, the put is reported as of
      unknown outcome. */
  lemma DisagreementIsUnknown(n: nat, createNew: bool, w: Wire, r: Decoded<Answer>)
    requires var o := FusedOpenAt(n, createNew); GoodUpTo(FusedPlan(n, createNew), w, o + 4) && !FusedCommitted(w, o)
    requires DecodeSpec(ByFused(n, createNew), w, r)
    ensures r.Err? && ClassifyPublishError(createNew, r.error.error) == Unknown
  {
    hide FusedPlan, FusedCommitted, GoodUpTo, FailedAt, WroteAt, BodyIs, Intact;
    var o := FusedOpenAt(n, createNew);
    if r.Err? && r.error.error.Nfs? && r.error.replyIndex.Some? {
      FailedLater(FusedPlan(n, createNew), w, r.error.replyIndex.value, r.error.error.status, r.error.error.op, o + 4);
    } else if r.Ok? && r.value.FusedAnswer? && r.value.fused.FusedExists? {
      FailedLater(FusedPlan(n, createNew), w, o, EXIST, OPEN, o + 4);
    }
  }

  /** What failed comes after what succeeded. */
  lemma FailedLater(plan: seq<OpCode>, w: Wire, i: nat, status: nat, op: OpCode, n: nat)
    requires FailedAt(plan, w, i, status, op) && GoodUpTo(plan, w, n)
    ensures n <= i
  {
  }
}
