/** One COMPOUND call: what the server may do with it, what may come back, and what that proves. */
module Runs {
  import opened Errors
  import opened Server
  import opened ServerLemmas
  import opened Decode

  /** One executed operation: the state and registers around it, and its reply. */
  datatype Step = Step(pre: State, c: Ctx, post: State, c': Ctx, reply: Reply)

  /** The server ran a prefix of `ops`, each after the previous one succeeded, with anything
      happening in between; it stopped early only at a failure. */
  predicate RunOk(t: Target, s0: State, ops: seq<Op>, run: seq<Step>, s1: State) {
    && |run| <= |ops| && Valid(s0)
    && (forall i | 0 <= i < |run| ::
          Valid(run[i].pre) && OpStep(t, run[i].pre, run[i].c, ops[i], run[i].post, run[i].c', run[i].reply))
    && (forall i | 0 <= i < |run| - 1 ::
          run[i].reply.status == OK && run[i + 1].c == run[i].c' && Rely(run[i].post, run[i + 1].pre))
    && if run == [] then Rely(s0, s1)
       else
         && run[0].c == START && Rely(s0, run[0].pre) && Rely(run[|run| - 1].post, s1)
         && (|run| < |ops| ==> run[|run| - 1].reply.status != OK)
  }

  /** A response may be cut short or unreadable in places, but no reply in it is made up, and it
      is empty with a failed status only if nothing ran. */
  predicate Faithful(run: seq<Step>, w: Wire) {
    && (forall i | 0 <= i < |w.replies| && w.replies[i].Readable? ::
          && i < |run|
          && w.replies[i].reply.op == run[i].reply.op && w.replies[i].reply.status == run[i].reply.status
          && (w.replies[i].reply.body == run[i].reply.body || w.replies[i].reply.body == Malformed))
    && (w.replies == [] && w.status != OK ==> run == [])
  }

  datatype CallResult = Unsent(error: Error) | Lost(error: Error) | Answered(wire: Wire)

  function Posted(s: State, ops: seq<Op>): State {
    s.(limbo := s.limbo + [Late(START, ops)])
  }

  /** Everything one call can do: never leave the client, vanish with its request still at large,
      or be answered. */
  predicate CallOk(t: Target, s0: State, ops: seq<Op>, res: CallResult, run: seq<Step>, s1: State) {
    match res
    case Unsent(e) => Rely(s0, s1) && e.RequestNotSent?
    case Lost(e) => Rely(Posted(s0, ops), s1) && (e.Io? || e.Rpc? || e.ConnectionLost? || e.Timeout?)
    case Answered(w) => RunOk(t, s0, ops, run, s1) && Faithful(run, w)
  }

  /** The state before operation `k`, or after the whole run. */
  function StateAt(run: seq<Step>, s1: State, k: nat): State {
    if k < |run| then run[k].pre else s1
  }

  /** How many operations of the run succeeded. */
  function OkOps(run: seq<Step>): (n: nat)
    ensures n <= |run|
  {
    if run != [] && run[|run| - 1].reply.status != OK then |run| - 1 else |run|
  }

  predicate CoveredBetween(run: seq<Step>, ops: seq<Op>, x: Extent, a: nat, k: nat)
    requires |run| <= |ops| && a <= k <= |run|
  {
    forall i | a <= i < k :: Covers(run[i].pre, run[i].c, ops[i], x)
  }

  predicate RunCovered(run: seq<Step>, ops: seq<Op>, x: Extent)
    requires |run| <= |ops|
  {
    CoveredBetween(run, ops, x, 0, |run|)
  }

  lemma RunStep(t: Target, s0: State, ops: seq<Op>, run: seq<Step>, s1: State, k: nat)
    requires RunOk(t, s0, ops, run, s1) && k < |run|
    ensures Valid(run[k].pre) && OpStep(t, run[k].pre, run[k].c, ops[k], run[k].post, run[k].c', run[k].reply)
    ensures Rely(run[k].post, StateAt(run, s1, k + 1))
    ensures k + 1 < |run| ==> run[k].reply.status == OK && run[k + 1].c == run[k].c'
  {
    hide Rely, OpStep, Valid;
  }

  lemma RunStart(t: Target, s0: State, ops: seq<Op>, run: seq<Step>, s1: State)
    requires RunOk(t, s0, ops, run, s1)
    ensures Rely(s0, StateAt(run, s1, 0))
    ensures run != [] ==> run[0].c == START
  {
    hide Rely, OpStep, Valid;
  }

  lemma RunStateValid(t: Target, s0: State, ops: seq<Op>, run: seq<Step>, s1: State, k: nat)
    requires RunOk(t, s0, ops, run, s1) && k <= |run|
    ensures Valid(StateAt(run, s1, k))
  {
    hide RunOk, OpStep, Valid;
    RunStart(t, s0, ops, run, s1);
    if k < |run| {
      RunStep(t, s0, ops, run, s1, k);
    } else if k > 0 {
      RunStep(t, s0, ops, run, s1, k - 1);
    }
  }

  /** Between any two points, a run only touches its own extent. */
  lemma {:induction false} RunEvolvesFrom(t: Target, s0: State, ops: seq<Op>, run: seq<Step>, s1: State, x: Extent, a: nat, k: nat)
    requires RunOk(t, s0, ops, run, s1) && a <= k <= |run| && CoveredBetween(run, ops, x, a, k)
    ensures Evolves(StateAt(run, s1, a), StateAt(run, s1, k), x)
  {
    hide RunOk, Evolves, OpStep, Valid, Covers, NoHeavier;
    if a == k {
      RunStateValid(t, s0, ops, run, s1, a);
      EvolvesRefl(StateAt(run, s1, a), x);
    } else {
      RunLength(t, s0, ops, run, s1);
      RunEvolvesFrom(t, s0, ops, run, s1, x, a, k - 1);
      RunStep(t, s0, ops, run, s1, k - 1);
      var e := run[k - 1];
      OpStepEvolves(t, e.pre, e.c, ops[k - 1], e.post, e.c', e.reply, x);
      EvolvesWiden(e.post, StateAt(run, s1, k), x);
      EvolvesTrans(StateAt(run, s1, a), e.pre, e.post, x);
      EvolvesTrans(StateAt(run, s1, a), e.post, StateAt(run, s1, k), x);
    }
  }

  lemma RunEvolves(t: Target, s0: State, ops: seq<Op>, run: seq<Step>, s1: State, x: Extent, k: nat)
    requires RunOk(t, s0, ops, run, s1) && RunCovered(run, ops, x) && k <= |run|
    ensures Evolves(s0, StateAt(run, s1, k), x)
  {
    hide Evolves, OpStep, Valid, Covers, NoHeavier;
    RunStart(t, s0, ops, run, s1);
    EvolvesWiden(s0, StateAt(run, s1, 0), x);
    assert CoveredBetween(run, ops, x, 0, k);
    RunEvolvesFrom(t, s0, ops, run, s1, x, 0, k);
    EvolvesTrans(s0, StateAt(run, s1, 0), StateAt(run, s1, k), x);
  }

  /** ...and has run each kind of operation at most as often as it succeeded. */
  lemma {:induction false} RunWeight(t: Target, s0: State, ops: seq<Op>, run: seq<Step>, s1: State, kind: Kind, k: nat)
    requires RunOk(t, s0, ops, run, s1) && k <= |run|
    ensures Weight(StateAt(run, s1, k), kind)
         <= Weight(s0, kind) + CountOps(ops[..if k < OkOps(run) then k else OkOps(run)], kind)
  {
    hide Evolves, OpStep, Valid;
    if k == 0 {
      RunStart(t, s0, ops, run, s1);
    } else {
      RunWeight(t, s0, ops, run, s1, kind, k - 1);
      RunStep(t, s0, ops, run, s1, k - 1);
      var e := run[k - 1];
      OpStepWeight(t, e.pre, e.c, ops[k - 1], e.post, e.c', e.reply, kind);
      assert ops[..k][..k - 1] == ops[..k - 1];
    }
  }

  // ---------------------------------------------------------------- what is kept whatever happens

  /** What holds of every call, even one whose answer is lost. */
  predicate Grows(s: State, s': State) {
    && Valid(s) && Valid(s')
    && s.boot <= s'.boot && s.mine <= s'.mine && s.files.Keys <= s'.files.Keys
    && s.published <= s'.published && s.renamed <= s'.renamed && s.changes <= s'.changes && s.occupied <= s'.occupied
  }

  predicate Loose(s: State, s': State, ops: seq<Op>) {
    && Grows(s, s')
    && AwaitedNames(s'.limbo) <= AwaitedNames(s.limbo) + OpenedNames(ops)
    && Weight(s', Opens) <= Weight(s, Opens) + CountOps(ops, Opens)
    && Weight(s', Closes) <= Weight(s, Closes) + CountOps(ops, Closes)
    && Weight(s', Publishes) <= Weight(s, Publishes) + CountOps(ops, Publishes)
    && Weight(s', Replaces) <= Weight(s, Replaces) + CountOps(ops, Replaces)
  }

  predicate Known(s: State, ops: seq<Op>) {
    forall i | 0 <= i < |ops| :: OpKnown(ops[i], s.files.Keys)
  }

  lemma StepGrows(t: Target, s: State, c: Ctx, op: Op, s': State, c': Ctx, r: Reply)
    requires Valid(s) && OpStep(t, s, c, op, s', c', r) && WellNamed(op)
    ensures Grows(s, s') && s'.limbo == s.limbo
  {
    hide OpStep, Valid, FilesEvolve, NamesEvolve;
    var f := if c.cur.FileFh? then c.cur.fid else 0;
    var x := Extent(f, if op.Write? then op.offset else 0, if op.Write? then op.offset + |op.data| else 0,
                    if op.Open? then {op.name} else {});
    OpStepEvolves(t, s, c, op, s', c', r, x);
  }

  lemma RelyGrows(s: State, s': State)
    requires Rely(s, s')
    ensures Grows(s, s') && AwaitedNames(s'.limbo) <= AwaitedNames(s.limbo)
  {
    hide FilesEvolve, Valid, AwaitedNames, NoHeavier;
  }

  lemma {:induction false} RunGrows(t: Target, s0: State, ops: seq<Op>, run: seq<Step>, s1: State, k: nat)
    requires RunOk(t, s0, ops, run, s1) && k <= |run|
    requires forall i | 0 <= i < |ops| :: WellNamed(ops[i])
    ensures Grows(s0, StateAt(run, s1, k)) && AwaitedNames(StateAt(run, s1, k).limbo) <= AwaitedNames(s0.limbo)
  {
    hide RunOk, OpStep, Valid, Rely, AwaitedNames, WellNamed;
    if k == 0 {
      RunStart(t, s0, ops, run, s1);
      RelyGrows(s0, StateAt(run, s1, 0));
    } else {
      RunGrows(t, s0, ops, run, s1, k - 1);
      RunLength(t, s0, ops, run, s1);
      RunStep(t, s0, ops, run, s1, k - 1);
      var e := run[k - 1];
      StepGrows(t, e.pre, e.c, ops[k - 1], e.post, e.c', e.reply);
      RelyGrows(e.post, StateAt(run, s1, k));
    }
  }

  lemma {:induction false} CountOpsMonotone(ops: seq<Op>, n: nat, k: Kind)
    requires n <= |ops|
    ensures CountOps(ops[..n], k) <= CountOps(ops, k)
    decreases |ops| - n
  {
    if n == |ops| {
      assert ops[..n] == ops;
    } else {
      CountOpsMonotone(ops, n + 1, k);
      assert ops[..n + 1][..n] == ops[..n];
    }
  }

  lemma RunLoose(t: Target, s0: State, ops: seq<Op>, run: seq<Step>, s1: State)
    requires RunOk(t, s0, ops, run, s1) && Known(s0, ops)
    ensures Loose(s0, s1, ops)
  {
    hide RunOk, Grows, AwaitedNames, Weight, CountOps;
    assert forall i | 0 <= i < |ops| :: OpKnown(ops[i], s0.files.Keys);
    assert |run| <= |ops| by { RunLength(t, s0, ops, run, s1); }
    RunGrows(t, s0, ops, run, s1, |run|);
    forall k: Kind
      ensures Weight(s1, k) <= Weight(s0, k) + CountOps(ops, k)
    {
      RunWeight(t, s0, ops, run, s1, k, |run|);
      CountOpsMonotone(ops, OkOps(run), k);
    }
  }

  lemma RunLength(t: Target, s0: State, ops: seq<Op>, run: seq<Step>, s1: State)
    requires RunOk(t, s0, ops, run, s1)
    ensures |run| <= |ops|
  {
  }

  lemma PostedLoose(s0: State, ops: seq<Op>, s1: State)
    requires Valid(s0) && Known(s0, ops) && Rely(Posted(s0, ops), s1)
    ensures Loose(s0, s1, ops)
  {
    hide FilesEvolve, FileOk;
    forall k {
      LimboCountSplit(s0.limbo, [Late(START, ops)], k);
    }
    var p := Posted(s0, ops);
    assert p.limbo[..|p.limbo| - 1] == s0.limbo;
  }

  lemma RelyLoose(s0: State, ops: seq<Op>, s1: State)
    requires Rely(s0, s1)
    ensures Loose(s0, s1, ops)
  {
    hide FilesEvolve, FileOk;
  }

  // ---------------------------------------------------------------- what an answer proves

  /** A located failure is where the run stopped. */
  lemma FailureIsWhereItStopped(t: Target, s0: State, ops: seq<Op>, run: seq<Step>, s1: State, w: Wire, i: nat, status: nat, op: OpCode)
    requires RunOk(t, s0, ops, run, s1) && Faithful(run, w)
    requires FailedAt(CodesOf(ops), w, i, status, op)
    ensures |run| == i + 1 && OkOps(run) == i && run[i].reply.status == status && run[i].reply.op == op
  {
    hide Rely, OpStep, Valid;
  }

  /** A fully successful answer means every operation ran and succeeded. */
  lemma SuccessMeansAllRan(t: Target, s0: State, ops: seq<Op>, run: seq<Step>, s1: State, w: Wire, n: nat)
    requires RunOk(t, s0, ops, run, s1) && Faithful(run, w)
    requires GoodUpTo(CodesOf(ops), w, n)
    ensures n <= OkOps(run) <= |ops|
    ensures forall i | 0 <= i < n :: run[i].reply.status == OK
  {
    hide Rely, OpStep, Valid;
    assert n > 0 ==> w.replies[n - 1].Readable?;
  }
}
