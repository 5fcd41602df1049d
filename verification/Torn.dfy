/** When a close-and-publish compound that ran to its end publishes the body, and when it need not:
    the COMMIT verifier is compared only after the compound ran, so a server restart between the
    writes and the COMMIT can publish other bytes. */
module Torn {
  import opened Errors
  import opened Server
  import opened ServerLemmas
  import opened Decode
  import opened Runs
  import opened Content
  import opened Compounds
  import opened Publishing
  import opened Session
  import opened Put

  /** The compound ran to its end, its COMMIT answered with the verifier `c`, and the writes had
      been acknowledged under the verifier `v`. */
  predicate RanToEnd(t: Target, s0: State, fid: Fid, path: seq<string>, temp: Name, body: seq<Byte>, v: nat, c: nat,
                     createNew: bool, run: seq<Step>, s1: State) {
    && Kept(s0, fid, body, 0, |body|, Some(v)) && Leads(s0, temp, fid) && Unpublished(s0) && path == t.path
    && RunOk(t, s0, Full(ClosePublishOps(fid, path, temp, t.dest, |body|, true, createNew)), run, s1)
    && OkOps(run) == |Full(ClosePublishOps(fid, path, temp, t.dest, |body|, true, createNew))|
    && run[2].reply.body == VerifierBody(c)
  }

  ghost predicate AlwaysPublishesBody(body: seq<Byte>, v: nat, c: nat) {
    forall t: Target, s0: State, fid: Fid, path: seq<string>, temp: Name, createNew: bool, run: seq<Step>, s1: State ::
      RanToEnd(t, s0, fid, path, temp, body, v, c, createNew, run, s1) ==> Published(s1, fid, body)
  }

  /** Whether what a finished compound published is the body is exactly the verifier comparison. */
  lemma PublishesBodyExactlyWhen(body: seq<Byte>, v: nat, c: nat)
    requires body != [] && v <= c
    ensures AlwaysPublishesBody(body, v, c) <==> c == v
  {
    hide RanToEnd, Published;
    if c == v {
      forall t: Target, s0: State, fid: Fid, path: seq<string>, temp: Name, createNew: bool, run: seq<Step>, s1: State
        | RanToEnd(t, s0, fid, path, temp, body, v, c, createNew, run, s1)
        ensures Published(s1, fid, body)
      {
        MatchingPublishes(t, s0, fid, path, temp, body, v, createNew, run, s1);
      }
    } else {
      var run, s1 := TornRun(body, c), AfterRename(body, c);
      TornRuns(body, v, c);
      assert RanToEnd(TORN_TARGET, BeforeRestart(body, v), 0, [], Temp(0), body, v, c, false, run, s1);
      TornIsNotBody(body, c);
    }
  }

  lemma MatchingPublishes(t: Target, s0: State, fid: Fid, path: seq<string>, temp: Name, body: seq<Byte>, v: nat,
                          createNew: bool, run: seq<Step>, s1: State)
    requires RanToEnd(t, s0, fid, path, temp, body, v, v, createNew, run, s1)
    ensures Published(s1, fid, body)
  {
    hide RunOk, Kept, Leads, Unpublished, Published, LaidOut, ClosePublishOps;
    var ops, l := Full(ClosePublishOps(fid, path, temp, t.dest, |body|, true, createNew)), Layout(true, path, createNew);
    LeadsNot(s0, temp, fid);
    ClosePublishLayout(fid, path, temp, t.dest, |body|, true, createNew);
    LaidOutPublishes(ops, l, fid, temp, t.dest, |body|);
    ClosePublishPublishes(t, s0, ops, run, s1, l, fid, temp, body, Some(v));
  }

  // ---------------------------------------------------------------- a torn publication

  const TORN_TARGET: Target := Place(User("destination"), [])

  function Damaged(body: seq<Byte>): (r: seq<Byte>)
    requires body != []
    ensures |r| == |body| && r != body
  {
    assert (if body[0] == 0 then 1 else 0) as Byte != body[0];
    body[0 := if body[0] == 0 then 1 else 0]
  }

  /** Everything written, nothing stable yet. */
  function BeforeRestart(body: seq<Byte>, v: nat): State {
    State(map[Temp(0) := 0], map[0 := File(body, {})], {0}, map[Temp(0) := 0], v, [], 1, 0, 0, 0, [], [])
  }

  function AfterRestart(body: seq<Byte>, c: nat): State
    requires body != []
  {
    State(map[Temp(0) := 0], map[0 := File(Damaged(body), {})], {0}, map[Temp(0) := 0], c, [], 1, 0, 0, 0, [], [])
  }

  function AfterCommit(body: seq<Byte>, c: nat): State
    requires body != []
  {
    var s := AfterRestart(body, c);
    s.(files := s.files[0 := CommitFile(s.files[0], 0, CommitCount(|body|))])
  }

  function AfterClose(body: seq<Byte>, c: nat): State
    requires body != []
  {
    AfterCommit(body, c).(closes := 1)
  }

  function AfterRename(body: seq<Byte>, c: nat): State
    requires body != []
  {
    var s := AfterClose(body, c);
    s.(dir := map[TORN_TARGET.dest := 0], published := 1, renamed := 1, changes := [Change(None, BoundTo(0, s.files[0]))])
  }

  function Went(op: OpCode): Reply {
    Reply(op, OK, NoBody)
  }

  const ON_FILE := Ctx(FileFh(0), NoFh)
  const IN_DIR := Ctx(PathFh([]), NoFh)
  const SAVED_DIR := Ctx(PathFh([]), PathFh([]))

  function TornRun(body: seq<Byte>, c: nat): seq<Step>
    requires body != []
  {
    var s, m, k, e := AfterRestart(body, c), AfterCommit(body, c), AfterClose(body, c), AfterRename(body, c);
    [Step(s, START, s, START, Went(SEQUENCE)), Step(s, START, s, ON_FILE, Went(PUTFH)),
     Step(s, ON_FILE, m, ON_FILE, Reply(COMMIT, OK, VerifierBody(c))), Step(m, ON_FILE, m, ON_FILE, Went(VERIFY)),
     Step(m, ON_FILE, k, ON_FILE, Went(CLOSE)), Step(k, ON_FILE, k, IN_DIR, Went(PUTFH)),
     Step(k, IN_DIR, k, SAVED_DIR, Went(SAVEFH)), Step(k, SAVED_DIR, e, SAVED_DIR, Went(RENAME))]
  }

  function TornOps(size: nat): seq<Op> {
    [Sequence, PutFh(FileOf(0)), Commit(0, CommitCount(size)), Verify(size), Close, PutFh(ExportRoot), SaveFh, Rename(Temp(0), TORN_TARGET.dest)]
  }

  lemma TornOpsAre(size: nat)
    ensures Full(ClosePublishOps(0, [], Temp(0), TORN_TARGET.dest, size, true, false)) == TornOps(size)
  {
    assert PathOps([]) == [PutFh(ExportRoot)];
  }

  lemma TornStates(body: seq<Byte>, v: nat, c: nat)
    requires body != [] && v < c
    ensures Valid(BeforeRestart(body, v)) && Rely(BeforeRestart(body, v), AfterRestart(body, c))
    ensures Valid(AfterCommit(body, c)) && Valid(AfterClose(body, c)) && Valid(AfterRename(body, c))
  {
    RestartStepIsRely(BeforeRestart(body, v), AfterRestart(body, c));
  }

  predicate TornStepOk(body: seq<Byte>, c: nat, i: nat)
    requires body != [] && i < 8
  {
    var e := TornRun(body, c)[i];
    Valid(e.pre) && OpStep(TORN_TARGET, e.pre, e.c, TornOps(|body|)[i], e.post, e.c', e.reply)
  }

  lemma TornIdle(body: seq<Byte>, c: nat, i: nat)
    requires body != [] && i in {0, 1, 3, 5, 6} && Valid(AfterRestart(body, c)) && Valid(AfterCommit(body, c)) && Valid(AfterClose(body, c))
    ensures TornStepOk(body, c, i)
  {
    hide Valid, AfterRename;
  }

  lemma TornWork(body: seq<Byte>, c: nat, i: nat)
    requires body != [] && i in {2, 4} && Valid(AfterRestart(body, c)) && Valid(AfterCommit(body, c))
    ensures TornStepOk(body, c, i)
  {
    hide Valid, AfterRename;
  }

  lemma TornRename(body: seq<Byte>, c: nat)
    requires body != [] && Valid(AfterClose(body, c))
    ensures TornStepOk(body, c, 7)
  {
    hide Valid;
    assert AfterClose(body, c).dir - {Temp(0)} == map[];
  }

  lemma TornSteps(body: seq<Byte>, c: nat, i: nat)
    requires body != [] && i < 8 && Valid(AfterRestart(body, c)) && Valid(AfterCommit(body, c)) && Valid(AfterClose(body, c))
    ensures TornStepOk(body, c, i)
  {
    hide Valid, TornStepOk;
    if i == 7 {
      TornRename(body, c);
    } else if i == 2 || i == 4 {
      TornWork(body, c, i);
    } else {
      TornIdle(body, c, i);
    }
  }

  lemma TornRuns(body: seq<Byte>, v: nat, c: nat)
    requires body != [] && v < c
    ensures RanToEnd(TORN_TARGET, BeforeRestart(body, v), 0, [], Temp(0), body, v, c, false, TornRun(body, c), AfterRename(body, c))
  {
    hide Valid, RunOk, Rely, Kept, Leads, Unpublished, ClosePublishOps, Full, TornRun, TornOps;
    TornOpsAre(|body|);
    TornBefore(body, v);
    TornRunOk(body, v, c);
    TornReplies(body, c);
  }

  lemma TornReplies(body: seq<Byte>, c: nat)
    requires body != []
    ensures |TornOps(|body|)| == 8 && OkOps(TornRun(body, c)) == 8 == |TornRun(body, c)| && TornRun(body, c)[2].reply.body == VerifierBody(c)
  {
    hide AfterRename, AfterClose, AfterCommit, AfterRestart;
  }

  lemma TornRunOk(body: seq<Byte>, v: nat, c: nat)
    requires body != [] && v < c
    ensures RunOk(TORN_TARGET, BeforeRestart(body, v), TornOps(|body|), TornRun(body, c), AfterRename(body, c))
  {
    TornStates(body, v, c);
    hide Valid, OpStep, Rely, AfterRename, AfterClose, AfterCommit, AfterRestart, TornRun;
    var run := TornRun(body, c);
    TornEnds(body, c);
    RelyValid(BeforeRestart(body, v), AfterRestart(body, c));
    RelyRefl(AfterRename(body, c));
    forall i | 0 <= i < |run|
      ensures Valid(run[i].pre) && OpStep(TORN_TARGET, run[i].pre, run[i].c, TornOps(|body|)[i], run[i].post, run[i].c', run[i].reply)
    {
      TornSteps(body, c, i);
    }
    forall i | 0 <= i < |run| - 1
      ensures run[i].reply.status == OK && run[i + 1].c == run[i].c' && Rely(run[i].post, run[i + 1].pre)
    {
      TornLink(body, c, i);
      RelyRefl(run[i + 1].pre);
    }
  }

  lemma TornLink(body: seq<Byte>, c: nat, i: nat)
    requires body != [] && i < 7
    ensures var run := TornRun(body, c); run[i].reply.status == OK && run[i + 1].c == run[i].c' && run[i].post == run[i + 1].pre
  {
    hide AfterRename, AfterClose, AfterCommit, AfterRestart;
  }

  lemma TornEnds(body: seq<Byte>, c: nat)
    requires body != []
    ensures var run := TornRun(body, c); |run| == 8 && run[0].c == START && run[0].pre == AfterRestart(body, c) && run[7].post == AfterRename(body, c)
  {
    hide AfterRename, AfterClose, AfterCommit, AfterRestart;
  }

  lemma RelyValid(s: State, s': State)
    requires Rely(s, s')
    ensures Valid(s')
  {
  }

  lemma TornBefore(body: seq<Byte>, v: nat)
    ensures Kept(BeforeRestart(body, v), 0, body, 0, |body|, Some(v)) && Leads(BeforeRestart(body, v), Temp(0), 0) && Unpublished(BeforeRestart(body, v))
  {
  }

  lemma TornIsNotBody(body: seq<Byte>, c: nat)
    requires body != []
    ensures !Published(AfterRename(body, c), 0, body) && AfterRename(body, c).changes[0].now.file.data != body
  {
  }

  // ---------------------------------------------------------------- how it is reported

  /** Whenever the COMMIT carried another verifier, whatever follows it in the response, the put is
      reported as of unknown outcome. */
  lemma MismatchIsUnknown(shape: CloseShape, v: nat, c: nat, w: Wire, r: Decoded<Answer>, createNew: bool)
    requires c != v && GoodUpTo(ClosePlan(shape, true), w, 3) && VerifierAt(w, 2, c)
    requires DecodeSpec(ByClose(shape, Some(v)), w, r)
    ensures r.Err? && ClassifyPublishError(createNew, r.error.error) == Unknown
  {
    hide ClosePlan;
    assert !VerifierAt(w, 2, v);
  }
}
