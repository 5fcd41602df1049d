/** The reconnect coordinator of src/client.rs as the steps of any number of callers and connect
    tasks over a shared generation counter, coordinator and clock. */
module Reconnect {
  import opened Errors

  datatype Coordinator =
    | Idle
    | Connecting(generation: nat, task: nat)
    | Failed(generation: nat, retryAfter: Option<nat>)

  datatype TaskPhase = Dialing | Connected | Refused | Installed | Finishing(ok: bool) | Reported(ok: bool) | Dead

  /** A spawned connect task, and for its history when it started and when a failure it recorded
      may be retried. */
  datatype Task = Task(failed: nat, phase: TaskPhase, startedAt: nat, finished: bool, retryAt: Option<nat>)

  datatype Caller = Calling | Holding(failed: nat) | Awaiting(failed: nat, task: nat) | Succeeded(failed: nat) | GaveUp(failed: nat)

  datatype State = State(generation: nat, coordinator: Coordinator, now: nat, tasks: seq<Task>, callers: seq<Caller>, installs: seq<nat>)

  datatype Action =
    | Snapshot(c: nat)
    | Reconnect(c: nat)
    | Await(c: nat)
    | Again(c: nat)
    | Dial(t: nat, ok: bool)
    | Install(t: nat)
    | Finish(t: nat, overflow: bool)
    | Report(t: nat)
    | Die(t: nat)
    | Tick(delta: nat)

  function CallerAt(s: State, c: nat): Caller {
    if c < |s.callers| then s.callers[c] else Calling
  }

  predicate TaskIn(s: State, t: nat, p: TaskPhase) {
    t < |s.tasks| && s.tasks[t].phase == p
  }

  predicate Enabled(s: State, a: Action) {
    match a
    case Snapshot(c) => c < |s.callers| && s.callers[c].Calling?
    case Reconnect(c) => CallerAt(s, c).Holding?
    case Await(c) =>
      && CallerAt(s, c).Awaiting? && CallerAt(s, c).task < |s.tasks|
      && (s.tasks[CallerAt(s, c).task].phase.Reported? || s.tasks[CallerAt(s, c).task].phase.Dead?)
    case Again(c) => CallerAt(s, c).Succeeded? || CallerAt(s, c).GaveUp?
    case Dial(t, _) => TaskIn(s, t, Dialing)
    case Install(t) => TaskIn(s, t, Connected)
    case Finish(t, _) => TaskIn(s, t, Installed) || TaskIn(s, t, Refused)
    case Report(t) => t < |s.tasks| && s.tasks[t].phase.Finishing?
    case Die(t) => t < |s.tasks| && !s.tasks[t].phase.Reported?
    case Tick(_) => true
  }

  /** Whether the coordinator tells a caller of the current generation to come back later. */
  predicate BackingOff(s: State) {
    && s.coordinator.Failed? && s.coordinator.generation == s.generation
    && (s.coordinator.retryAfter.Some? ==> s.now < s.coordinator.retryAfter.value)
  }

  /** A caller starts a connect task. */
  predicate Spawns(s: State, a: Action)
    requires Enabled(s, a)
  {
    && a.Reconnect? && CallerAt(s, a.c).failed == s.generation
    && !(s.coordinator.Connecting? && s.coordinator.generation == s.generation) && !BackingOff(s)
  }

  function NextCaller(s: State, a: Action): Caller
    requires Enabled(s, a) && (a.Snapshot? || a.Reconnect? || a.Await? || a.Again?)
  {
    match a
    case Snapshot(_) => Holding(s.generation)
    case Reconnect(c) =>
      var failed := CallerAt(s, c).failed;
      if failed != s.generation then Succeeded(failed)
      else if s.coordinator.Connecting? && s.coordinator.generation == failed then Awaiting(failed, s.coordinator.task)
      else if BackingOff(s) then GaveUp(failed)
      else Awaiting(failed, |s.tasks|)
    case Await(c) =>
      var caller := CallerAt(s, c);
      if s.tasks[caller.task].phase == Reported(true) then Succeeded(caller.failed) else GaveUp(caller.failed)
    case Again(_) => Calling
  }

  function RetryAt(s: State, backoff: nat, overflow: bool): Option<nat> {
    if overflow then None else Some(s.now + backoff)
  }

  function NextTask(s: State, a: Action, backoff: nat): Task
    requires Enabled(s, a) && (a.Dial? || a.Install? || a.Finish? || a.Report? || a.Die?)
  {
    var x := s.tasks[a.t];
    match a
    case Dial(_, ok) => x.(phase := if ok then Connected else Refused)
    case Install(_) => x.(phase := Installed)
    case Finish(_, overflow) =>
      if x.phase.Installed? then x.(phase := Finishing(true), finished := true)
      else x.(phase := Finishing(false), finished := true, retryAt := RetryAt(s, backoff, overflow))
    case Report(_) => x.(phase := Reported(x.phase.ok))
    case Die(_) => x.(phase := Dead)
  }

  predicate Bumps(s: State, a: Action)
    requires Enabled(s, a)
  {
    a.Install? && s.tasks[a.t].failed == s.generation
  }

  function NextCoordinator(s: State, a: Action, backoff: nat): Coordinator
    requires Enabled(s, a)
  {
    if Spawns(s, a) then Connecting(s.generation, |s.tasks|)
    else if a.Finish? && s.coordinator.Connecting? && s.coordinator.generation == s.tasks[a.t].failed then
      if s.tasks[a.t].phase.Installed? then Idle else Failed(s.tasks[a.t].failed, RetryAt(s, backoff, a.overflow))
    else s.coordinator
  }

  function NextTasks(s: State, a: Action, backoff: nat): seq<Task>
    requires Enabled(s, a)
  {
    if Spawns(s, a) then s.tasks + [Task(s.generation, Dialing, s.now, false, None)]
    else if a.Dial? || a.Install? || a.Finish? || a.Report? || a.Die? then s.tasks[a.t := NextTask(s, a, backoff)]
    else s.tasks
  }

  function Apply(s: State, a: Action, backoff: nat): State
    requires Enabled(s, a)
  {
    State(
      if Bumps(s, a) then s.generation + 1 else s.generation,
      NextCoordinator(s, a, backoff),
      if a.Tick? then s.now + a.delta else s.now,
      NextTasks(s, a, backoff),
      if (a.Snapshot? || a.Reconnect? || a.Await? || a.Again?) && a.c < |s.callers| then s.callers[a.c := NextCaller(s, a)] else s.callers,
      if Bumps(s, a) then s.installs + [a.t] else s.installs)
  }

  function Init(callers: nat): State {
    State(0, Idle, 0, [], seq(callers, _ => Calling), [])
  }

  predicate Run(states: seq<State>, actions: seq<Action>, backoff: nat) {
    && |states| == |actions| + 1
    && forall k | 0 <= k < |actions| :: Enabled(states[k], actions[k]) && states[k + 1] == Apply(states[k], actions[k], backoff)
  }

  // ---------------------------------------------------------------- invariants

  /** A connect task that has neither installed its session nor recorded its failure. */
  predicate Open(x: Task) {
    x.phase.Dialing? || x.phase.Connected? || x.phase.Refused?
  }

  /** What is known of a task of generation `failed`. */
  predicate TaskOk(x: Task, generation: nat, now: nat) {
    && x.failed <= generation && x.startedAt <= now
    && (Open(x) ==> !x.finished)
    && (x.phase.Installed? || x.phase == Finishing(true) || x.phase == Reported(true) ==> x.failed < generation)
    && (x.phase == Finishing(false) || x.phase == Reported(false) ==> x.finished)
  }

  /** Every task for the current generation is accounted for by the coordinator: it is the one
      connecting, or its failure's backoff is no longer than the coordinator enforces. */
  predicate Tracked(s: State, t: nat)
    requires t < |s.tasks|
  {
    var x, c := s.tasks[t], s.coordinator;
    x.failed == s.generation ==>
      || c == Connecting(s.generation, t)
      || (x.finished && x.retryAt.Some? && c.Failed? && c.generation == s.generation && (c.retryAfter.Some? ==> x.retryAt.value <= c.retryAfter.value))
      || (x.finished && x.retryAt.Some? && c.Connecting? && c.generation == s.generation && c.task < |s.tasks| && x.retryAt.value <= s.tasks[c.task].startedAt)
      || (x.finished && x.retryAt.None? && c == Failed(s.generation, None))
  }

  /** Of two tasks for one generation the earlier recorded its failure, and the later started no
      sooner than that failure's backoff allows. */
  predicate Spaced(x: Task, y: Task) {
    x.failed == y.failed ==> !Open(x) && x.finished && x.retryAt.Some? && x.retryAt.value <= y.startedAt
  }

  predicate CallerOk(s: State, c: Caller) {
    match c
    case Calling => true
    case Holding(g) => g <= s.generation
    case Awaiting(g, t) => g <= s.generation && t < |s.tasks| && s.tasks[t].failed == g
    case Succeeded(g) => g < s.generation
    case GaveUp(_) => true
  }

  predicate Inv(s: State) {
    && (forall t | 0 <= t < |s.tasks| :: TaskOk(s.tasks[t], s.generation, s.now))
    && (forall t | 0 <= t < |s.tasks| :: Tracked(s, t))
    && (forall i, j | 0 <= i < j < |s.tasks| :: Spaced(s.tasks[i], s.tasks[j]))
    && CoordinatorOk(s)
    && (forall c | 0 <= c < |s.callers| :: CallerOk(s, s.callers[c]))
    && Replaced(s)
  }

  predicate CoordinatorOk(s: State) {
    && (s.coordinator.Connecting? ==>
          && s.coordinator.task < |s.tasks| && s.tasks[s.coordinator.task].failed == s.coordinator.generation <= s.generation
          && (s.coordinator.generation == s.generation ==> Open(s.tasks[s.coordinator.task]) || s.tasks[s.coordinator.task].phase.Dead?))
    && (s.coordinator.Failed? ==> s.coordinator.generation <= s.generation)
  }

  /** Generation `k` was replaced by exactly one task, which had been started for it. */
  predicate Replaced(s: State) {
    |s.installs| == s.generation && forall k | 0 <= k < |s.installs| :: s.installs[k] < |s.tasks| && s.tasks[s.installs[k]].failed == k
  }

  // ---------------------------------------------------------------- steps

  lemma TaskOkStep(s: State, a: Action, backoff: nat, t: nat)
    requires Inv(s) && Enabled(s, a) && t < |Apply(s, a, backoff).tasks|
    ensures TaskOk(Apply(s, a, backoff).tasks[t], Apply(s, a, backoff).generation, Apply(s, a, backoff).now)
  {
    hide Tracked, Spaced, CoordinatorOk, CallerOk, Replaced;
    assert t < |s.tasks| ==> TaskOk(s.tasks[t], s.generation, s.now);
  }

  lemma TrackedStep(s: State, a: Action, backoff: nat, t: nat)
    requires Inv(s) && Enabled(s, a) && t < |Apply(s, a, backoff).tasks|
    ensures Tracked(Apply(s, a, backoff), t)
  {
    hide Spaced, CallerOk, Replaced;
    assert t < |s.tasks| ==> TaskOk(s.tasks[t], s.generation, s.now) && Tracked(s, t);
    if a.Finish? {
      assert TaskOk(s.tasks[a.t], s.generation, s.now) && Tracked(s, a.t);
    }
  }

  lemma SpacedStep(s: State, a: Action, backoff: nat, i: nat, j: nat)
    requires Inv(s) && Enabled(s, a) && i < j < |Apply(s, a, backoff).tasks|
    ensures Spaced(Apply(s, a, backoff).tasks[i], Apply(s, a, backoff).tasks[j])
  {
    hide CallerOk, Replaced, CoordinatorOk;
    assert TaskOk(s.tasks[i], s.generation, s.now) && Tracked(s, i);
    assert j < |s.tasks| ==> Spaced(s.tasks[i], s.tasks[j]);
  }

  lemma CallerStep(s: State, a: Action, backoff: nat, c: nat)
    requires Inv(s) && Enabled(s, a) && c < |s.callers| == |Apply(s, a, backoff).callers|
    ensures CallerOk(Apply(s, a, backoff), Apply(s, a, backoff).callers[c])
  {
    hide Tracked, Spaced, Replaced;
    assert CallerOk(s, s.callers[c]);
    if a.Await? {
      var x := s.tasks[CallerAt(s, a.c).task];
      assert TaskOk(x, s.generation, s.now);
    }
  }

  lemma RestStep(s: State, a: Action, backoff: nat)
    requires Inv(s) && Enabled(s, a)
    ensures CoordinatorOk(Apply(s, a, backoff)) && Replaced(Apply(s, a, backoff))
  {
    hide Tracked, Spaced, CallerOk;
    if a.Finish? {
      assert TaskOk(s.tasks[a.t], s.generation, s.now);
    }
  }

  lemma InvStep(s: State, a: Action, backoff: nat)
    requires Inv(s) && Enabled(s, a)
    ensures Inv(Apply(s, a, backoff))
  {
    hide Enabled, TaskOk, Tracked, Spaced, CallerOk, CoordinatorOk, Replaced, NextTasks, NextCoordinator, NextCaller, Bumps;
    var s' := Apply(s, a, backoff);
    RestStep(s, a, backoff);
    forall t | 0 <= t < |s'.tasks|
      ensures TaskOk(s'.tasks[t], s'.generation, s'.now) && Tracked(s', t)
    {
      TaskOkStep(s, a, backoff, t);
      TrackedStep(s, a, backoff, t);
    }
    forall i, j | 0 <= i < j < |s'.tasks|
      ensures Spaced(s'.tasks[i], s'.tasks[j])
    {
      SpacedStep(s, a, backoff, i, j);
    }
    forall c | 0 <= c < |s'.callers|
      ensures CallerOk(s', s'.callers[c])
    {
      CallerStep(s, a, backoff, c);
    }
  }

  lemma {:induction false} RunInv(callers: nat, states: seq<State>, actions: seq<Action>, backoff: nat, k: nat)
    requires Run(states, actions, backoff) && states[0] == Init(callers) && k < |states|
    ensures Inv(states[k])
  {
    if k > 0 {
      hide Inv, Apply, Enabled;
      RunInv(callers, states, actions, backoff, k - 1);
      InvStep(states[k - 1], actions[k - 1], backoff);
    }
  }

  // ---------------------------------------------------------------- what callers can rely on

  /** `s` is a state of some run. */
  ghost predicate Reachable(s: State, backoff: nat) {
    exists callers: nat, states: seq<State>, actions: seq<Action> ::
      Run(states, actions, backoff) && states[0] == Init(callers) && states[|actions|] == s
  }

  lemma ReachableInv(s: State, backoff: nat)
    requires Reachable(s, backoff)
    ensures Inv(s)
  {
    hide Inv, Init, Apply, Enabled;
    var callers: nat, states: seq<State>, actions: seq<Action> :| Run(states, actions, backoff) && states[0] == Init(callers) && states[|actions|] == s;
    RunInv(callers, states, actions, backoff, |actions|);
  }

  /** Single flight: no two open connect tasks for one generation. */
  lemma SingleFlight(s: State, backoff: nat, i: nat, j: nat)
    requires Reachable(s, backoff) && i < |s.tasks| && j < |s.tasks| && Open(s.tasks[i]) && Open(s.tasks[j]) && s.tasks[i].failed == s.tasks[j].failed
    ensures i == j
  {
    hide Reachable;
    ReachableInv(s, backoff);
    assert i < j ==> Spaced(s.tasks[i], s.tasks[j]);
    assert j < i ==> Spaced(s.tasks[j], s.tasks[i]);
  }

  /** Each generation was replaced once, by a task of its own, and no others were. */
  lemma ReplacedOnce(s: State, backoff: nat, k: nat)
    requires Reachable(s, backoff)
    ensures k < s.generation <==> k < |s.installs|
    ensures k < s.generation ==> s.installs[k] < |s.tasks| && s.tasks[s.installs[k]].failed == k
  {
    hide Reachable;
    ReachableInv(s, backoff);
  }

  /** A caller that was told Ok holds a generation that has been replaced. */
  lemma OkMeansReplaced(s: State, backoff: nat, c: nat)
    requires Reachable(s, backoff) && c < |s.callers| && s.callers[c].Succeeded?
    ensures s.callers[c].failed < s.generation
  {
    hide Reachable;
    ReachableInv(s, backoff);
    assert CallerOk(s, s.callers[c]);
  }

  /** A task past its installation, and not dead since. */
  predicate PastInstall(p: TaskPhase) {
    p.Installed? || p == Finishing(true) || p == Reported(true)
  }

  lemma InstallStep(s: State, a: Action, backoff: nat, t: nat)
    requires Enabled(s, a) && t < |Apply(s, a, backoff).tasks| && !Apply(s, a, backoff).tasks[t].phase.Dead?
    ensures PastInstall(Apply(s, a, backoff).tasks[t].phase) <==> a == Install(t) || (t < |s.tasks| && PastInstall(s.tasks[t].phase))
    ensures t < |s.tasks| ==> !s.tasks[t].phase.Dead?
  {
  }

  /** A task that has not died is past its installation exactly when it installed its session. */
  lemma {:induction false} InstalledExactlyWhen(callers: nat, states: seq<State>, actions: seq<Action>, backoff: nat, k: nat, t: nat)
    requires Run(states, actions, backoff) && states[0] == Init(callers) && k < |states|
    requires t < |states[k].tasks| && !states[k].tasks[t].phase.Dead?
    ensures PastInstall(states[k].tasks[t].phase) <==> exists m | 0 <= m < k :: actions[m] == Install(t)
  {
    hide Apply, PastInstall;
    if k > 0 {
      var s, a := states[k - 1], actions[k - 1];
      assert states[k - 1 + 1] == Apply(s, a, backoff);
      InstallStep(s, a, backoff, t);
      if t < |s.tasks| {
        InstalledExactlyWhen(callers, states, actions, backoff, k - 1, t);
      } else {
        NoInstallBefore(states, actions, backoff, k - 1, t);
      }
    }
  }

  lemma {:induction false} NoInstallBefore(states: seq<State>, actions: seq<Action>, backoff: nat, k: nat, t: nat)
    requires Run(states, actions, backoff) && k < |states| && |states[k].tasks| <= t
    ensures forall m | 0 <= m < k :: actions[m] != Install(t)
  {
    if k > 0 {
      assert states[k - 1 + 1] == Apply(states[k - 1], actions[k - 1], backoff);
      NoInstallBefore(states, actions, backoff, k - 1, t);
    }
  }

  /** A caller waiting for a connect task is told Ok exactly when that task installed its session and
      lived to report it. One that comes with a generation is told Ok at once exactly when that
      generation was replaced meanwhile. */
  lemma ToldOkExactlyWhen(callers: nat, states: seq<State>, actions: seq<Action>, backoff: nat, k: nat, c: nat)
    requires Run(states, actions, backoff) && states[0] == Init(callers) && k < |actions| && c < |states[k].callers|
    ensures actions[k] == Await(c) ==>
      var t := CallerAt(states[k], c).task;
      states[k + 1].callers[c].Succeeded? <==> !states[k].tasks[t].phase.Dead? && exists m | 0 <= m < k :: actions[m] == Install(t)
    ensures actions[k] == Reconnect(c) ==>
      (states[k + 1].callers[c].Succeeded? <==> states[k].callers[c].failed < states[k].generation)
  {
    hide Inv, NextTasks, NextCoordinator, Bumps, Init;
    var s := states[k];
    RunInv(callers, states, actions, backoff, k);
    if actions[k] == Await(c) {
      var t := s.callers[c].task;
      if !s.tasks[t].phase.Dead? {
        InstalledExactlyWhen(callers, states, actions, backoff, k, t);
      }
    } else if actions[k] == Reconnect(c) {
      HeldIsOld(s, c);
    }
  }

  lemma HeldIsOld(s: State, c: nat)
    requires Inv(s) && c < |s.callers| && s.callers[c].Holding?
    ensures s.callers[c].failed <= s.generation
  {
    hide Tracked, Spaced, TaskOk, CoordinatorOk, Replaced;
    assert CallerOk(s, s.callers[c]);
  }

  /** Step `m` recorded the failure of task `t`, to be retried from `at` on. */
  predicate FailedAt(states: seq<State>, actions: seq<Action>, backoff: nat, t: nat, m: nat, at: nat) {
    && m < |actions| && m < |states| && actions[m] == Finish(t, false) && TaskIn(states[m], t, Refused)
    && states[m].now + backoff == at
  }

  lemma {:induction false} FailureRecorded(callers: nat, states: seq<State>, actions: seq<Action>, backoff: nat, k: nat, t: nat) returns (m: nat)
    requires Run(states, actions, backoff) && states[0] == Init(callers) && k < |states|
    requires t < |states[k].tasks| && states[k].tasks[t].retryAt.Some?
    ensures m < k && FailedAt(states, actions, backoff, t, m, states[k].tasks[t].retryAt.value)
  {
    var s, a := states[k - 1], actions[k - 1];
    assert states[k - 1 + 1] == Apply(s, a, backoff);
    if t < |s.tasks| && s.tasks[t].retryAt == states[k].tasks[t].retryAt {
      m := FailureRecorded(callers, states, actions, backoff, k - 1, t);
    } else {
      m := k - 1;
    }
  }

  /** Another connect task for a generation starts only after the failure of the one before was
      recorded, and no sooner than the backoff later. */
  lemma BackoffKept(callers: nat, states: seq<State>, actions: seq<Action>, backoff: nat, k: nat, i: nat, j: nat) returns (m: nat)
    requires Run(states, actions, backoff) && states[0] == Init(callers) && k < |states|
    requires i < j < |states[k].tasks| && states[k].tasks[i].failed == states[k].tasks[j].failed
    ensures m < k && actions[m] == Finish(i, false) && TaskIn(states[m], i, Refused)
    ensures states[m].now + backoff <= states[k].tasks[j].startedAt
  {
    hide Apply, Enabled;
    RunInv(callers, states, actions, backoff, k);
    assert Spaced(states[k].tasks[i], states[k].tasks[j]);
    m := FailureRecorded(callers, states, actions, backoff, k, i);
  }

  // ---------------------------------------------------------------- when a generation can be replaced

  /** The current generation's connect task died before reporting. */
  predicate Stranded(s: State) {
    s.coordinator.Connecting? && s.coordinator.generation == s.generation && TaskIn(s, s.coordinator.task, Dead)
  }

  /** A failure was recorded without a time from which it may be retried. */
  predicate Barred(s: State) {
    s.coordinator == Failed(s.generation, None)
  }

  lemma StuckStep(s: State, a: Action, backoff: nat)
    requires Inv(s) && (Stranded(s) || Barred(s)) && Enabled(s, a)
    ensures Stranded(Apply(s, a, backoff)) == Stranded(s) && Barred(Apply(s, a, backoff)) == Barred(s)
    ensures Apply(s, a, backoff).generation == s.generation
  {
    hide Spaced, CallerOk, Replaced;
    if a.Install? || a.Finish? {
      assert TaskOk(s.tasks[a.t], s.generation, s.now) && Tracked(s, a.t);
    }
  }

  /** From then on the generation is never replaced, and every caller of it is refused. */
  lemma {:induction false} StuckForever(s: State, states: seq<State>, actions: seq<Action>, backoff: nat, k: nat)
    requires Inv(s) && (Stranded(s) || Barred(s)) && Run(states, actions, backoff) && states[0] == s && k < |states|
    ensures Inv(states[k]) && (Stranded(states[k]) || Barred(states[k])) && states[k].generation == s.generation
    ensures k < |actions| && actions[k].Await? && CallerAt(states[k], actions[k].c).failed == s.generation ==>
      NextCaller(states[k], actions[k]) == GaveUp(s.generation)
    decreases k
  {
    hide Inv, Apply, Stranded, Barred, NextCaller;
    if k > 0 {
      StuckForever(s, states, actions, backoff, k - 1);
      InvStep(states[k - 1], actions[k - 1], backoff);
      StuckStep(states[k - 1], actions[k - 1], backoff);
    }
    if k < |actions| && actions[k].Await? && CallerAt(states[k], actions[k].c).failed == s.generation {
      AwaitOutcome(states[k], actions[k]);
    }
  }

  lemma AwaitOutcome(s: State, a: Action)
    requires Inv(s) && Enabled(s, a) && a.Await? && CallerAt(s, a.c).failed == s.generation
    ensures NextCaller(s, a) == GaveUp(s.generation)
  {
    hide Spaced, Replaced, CoordinatorOk;
    assert CallerOk(s, s.callers[a.c]);
    assert TaskOk(s.tasks[s.callers[a.c].task], s.generation, s.now);
  }

  /** Some run leads from `s` to a later generation. */
  ghost predicate CanReplace(s: State, backoff: nat) {
    exists states: seq<State>, actions: seq<Action> ::
      Run(states, actions, backoff) && states[0] == s && states[|actions|].generation > s.generation
  }

  lemma ReplaceAfter(s: State, a: Action, backoff: nat)
    requires Enabled(s, a) && Apply(s, a, backoff).generation == s.generation && CanReplace(Apply(s, a, backoff), backoff)
    ensures CanReplace(s, backoff)
  {
    hide Apply, Enabled;
    var s' := Apply(s, a, backoff);
    var states: seq<State>, actions: seq<Action> :| Run(states, actions, backoff) && states[0] == s' && states[|actions|].generation > s'.generation;
    var longer, acts := [s] + states, [a] + actions;
    forall k | 0 <= k < |acts|
      ensures Enabled(longer[k], acts[k]) && longer[k + 1] == Apply(longer[k], acts[k], backoff)
    {
      assert k > 0 ==> longer[k] == states[k - 1] && acts[k] == actions[k - 1] && longer[k + 1] == states[k - 1 + 1];
    }
    assert Run(longer, acts, backoff) && longer[0] == s && longer[|acts|] == states[|actions|];
  }

  lemma InstallReplaces(s: State, t: nat, backoff: nat)
    requires TaskIn(s, t, Connected) && s.tasks[t].failed == s.generation
    ensures CanReplace(s, backoff)
  {
    var states, actions := [s, Apply(s, Install(t), backoff)], [Install(t)];
    assert Run(states, actions, backoff) && states[0] == s && states[|actions|].generation > s.generation;
  }

  lemma DialReplaces(s: State, t: nat, backoff: nat)
    requires TaskIn(s, t, Dialing) && s.tasks[t].failed == s.generation
    ensures CanReplace(s, backoff)
  {
    hide CanReplace;
    InstallReplaces(Apply(s, Dial(t, true), backoff), t, backoff);
    ReplaceAfter(s, Dial(t, true), backoff);
  }

  /** A caller that arrives now starts a connect task. */
  lemma CallerReplaces(s: State, c: nat, backoff: nat)
    requires c < |s.callers| && s.callers[c].Calling?
    requires !(s.coordinator.Connecting? && s.coordinator.generation == s.generation) && !BackingOff(s)
    ensures CanReplace(s, backoff)
  {
    hide CanReplace;
    var s1 := Apply(s, Snapshot(c), backoff);
    var s2 := Apply(s1, Reconnect(c), backoff);
    DialReplaces(s2, |s.tasks|, backoff);
    ReplaceAfter(s1, Reconnect(c), backoff);
    ReplaceAfter(s, Snapshot(c), backoff);
  }

  /** One that waits for the backoff to pass can. */
  lemma BackoffPasses(s: State, c: nat, backoff: nat)
    requires c < |s.callers| && s.callers[c].Calling?
    requires s.coordinator.Failed? && s.coordinator.retryAfter.Some?
    ensures CanReplace(s, backoff)
  {
    hide CanReplace;
    var wait := Tick(s.coordinator.retryAfter.value);
    CallerReplaces(Apply(s, wait, backoff), c, backoff);
    ReplaceAfter(s, wait, backoff);
  }

  /** As long as callers arrive, a generation can be replaced exactly when its connect task has not
      died and no failure without a retry time was recorded for it. */
  lemma ReplaceableExactlyWhen(s: State, c: nat, backoff: nat)
    requires Reachable(s, backoff) && c < |s.callers| && s.callers[c].Calling?
    ensures CanReplace(s, backoff) <==> !Stranded(s) && !Barred(s)
  {
    hide Reachable;
    ReachableInv(s, backoff);
    if Stranded(s) || Barred(s) {
      if CanReplace(s, backoff) {
        hide Inv, Stranded, Barred;
        var states: seq<State>, actions: seq<Action> :| Run(states, actions, backoff) && states[0] == s && states[|actions|].generation > s.generation;
        StuckForever(s, states, actions, backoff, |actions|);
      }
    } else {
      NotStuck(s, c, backoff);
    }
  }

  lemma NotStuck(s: State, c: nat, backoff: nat)
    requires Inv(s) && c < |s.callers| && s.callers[c].Calling? && !Stranded(s) && !Barred(s)
    ensures CanReplace(s, backoff)
  {
    hide CanReplace, TaskOk, Tracked, Spaced, CallerOk, Replaced;
    if s.coordinator.Connecting? && s.coordinator.generation == s.generation {
      var t := s.coordinator.task;
      match s.tasks[t].phase {
        case Dialing => DialReplaces(s, t, backoff);
        case Connected => InstallReplaces(s, t, backoff);
        case Refused =>
          BackoffPasses(Apply(s, Finish(t, false), backoff), c, backoff);
          ReplaceAfter(s, Finish(t, false), backoff);
      }
    } else if BackingOff(s) {
      BackoffPasses(s, c, backoff);
    } else {
      CallerReplaces(s, c, backoff);
    }
  }

  lemma ReachableInit(callers: nat, backoff: nat)
    ensures Reachable(Init(callers), backoff)
  {
    var states: seq<State>, actions: seq<Action> := [Init(callers)], [];
    assert Run(states, actions, backoff) && states[0] == Init(callers) && states[|actions|] == Init(callers);
  }

  lemma ReachableStep(s: State, a: Action, backoff: nat)
    requires Reachable(s, backoff) && Enabled(s, a)
    ensures Reachable(Apply(s, a, backoff), backoff)
  {
    hide Apply, Enabled, Init;
    var callers: nat, states: seq<State>, actions: seq<Action> :| Run(states, actions, backoff) && states[0] == Init(callers) && states[|actions|] == s;
    var longer, acts := states + [Apply(s, a, backoff)], actions + [a];
    assert Run(longer, acts, backoff) && longer[0] == Init(callers) && longer[|acts|] == Apply(s, a, backoff);
  }

  /** A connect task that dies at once gets there. */
  lemma StrandedReachable(backoff: nat) returns (s: State)
    ensures Reachable(s, backoff) && Stranded(s)
  {
    hide Reachable;
    ReachableInit(1, backoff);
    var s1 := Apply(Init(1), Snapshot(0), backoff);
    ReachableStep(Init(1), Snapshot(0), backoff);
    var s2 := Apply(s1, Reconnect(0), backoff);
    ReachableStep(s1, Reconnect(0), backoff);
    s := Apply(s2, Die(0), backoff);
    ReachableStep(s2, Die(0), backoff);
  }

  /** A connect that fails when its retry time overflows gets to the other case. */
  lemma BarredReachable(backoff: nat) returns (s: State)
    ensures Reachable(s, backoff) && Barred(s)
  {
    hide Reachable;
    ReachableInit(1, backoff);
    var s1 := Apply(Init(1), Snapshot(0), backoff);
    ReachableStep(Init(1), Snapshot(0), backoff);
    var s2 := Apply(s1, Reconnect(0), backoff);
    ReachableStep(s1, Reconnect(0), backoff);
    var s3 := Apply(s2, Dial(0, false), backoff);
    ReachableStep(s2, Dial(0, false), backoff);
    s := Apply(s3, Finish(0, true), backoff);
    ReachableStep(s3, Finish(0, true), backoff);
  }
}
