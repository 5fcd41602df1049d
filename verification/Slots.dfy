/** The NFSv4.1 slot table (src/nfs4/slots.rs) and the request path that uses it
    (src/nfs4/session.rs), as the steps of any number of concurrent tasks against a server that
    executes a slot's next sequence id once. */
module Slots {
  import opened Errors

  const SEQ_MOD: nat := 0x1_0000_0000

  /** A slot as the client holds it, then as the world knows it: how many requests were sent on
      it, the sequence ids the server executed, and a request still on its way. */
  datatype Slot = Slot(sequenceid: nat, usable: bool, holder: Option<nat>, sent: nat, seen: seq<nat>, wire: Option<nat>)

  /** Where a task is in `acquire_for_request`, the request, and the two drops that follow it. */
  datatype Phase =
    | Waiting
    | Permitted
    | Scanning(index: nat, bound: nat, sawLocked: bool)
    | Parked
    | Failed
    | Locked(slot: nat)
    | Holding(slot: nat)
    | Choosing(slot: nat, enforced: nat, target: nat, above: nat)
    | Ready(slot: nat, enforced: nat, target: nat, highest: nat)
    | Sent(slot: nat)
    | Leaving(slot: nat, outstanding: bool)
    | Releasing(slot: nat, retire: bool)
    | Returning(retire: bool)
    | Finished
  {
    predicate HoldsSlot() {
      Locked? || Holding? || Choosing? || Ready? || Sent? || Leaving?
    }

    predicate Flagged() {
      HoldsSlot() && !Locked?
    }

    predicate HoldsPermit() {
      Permitted? || Scanning? || HoldsSlot() || Releasing? || Returning?
    }

    /** Its permit will be forgotten instead of returned. */
    predicate Retires() {
      (Releasing? || Returning?) && retire
    }

    /** What is known of the request on the slot it holds. */
    function Doubt(): Doubt {
      if Sent? then InFlight else if Leaving? && outstanding then Abandoned else Sure
    }
  }

  datatype Doubt = Sure | InFlight | Abandoned

  datatype State = State(slots: seq<Slot>, active: seq<bool>, free: nat, closed: bool, live: nat, enforced: nat, target: nat, tasks: seq<Phase>)

  datatype Action =
    | TakePermit(t: nat)
    | Refused(t: nat)
    | StartScan(t: nat)
    | TryLock(t: nat)
    | EndScan(t: nat)
    | Wake(t: nat)
    | SetFlag(t: nat)
    | ReadLimits(t: nat)
    | ReadFlag(t: nat)
    | Send(t: nat)
    | Answered(t: nat)
    | GiveUp(t: nat)
    | Cancel(t: nat)
    | DropGuard(t: nat)
    | ClearFlag(t: nat)
    | ReturnPermit(t: nat)
    | Again(t: nat)
    | Deliver(slot: nat)
    | Lose(slot: nat)
    | UpdateLimits(highest: nat, targetHighest: nat)

  function Min(a: nat, b: nat): nat { if a < b then a else b }

  function Max(a: nat, b: nat): nat { if a < b then b else a }

  function At(s: State, t: nat): Phase {
    if t < |s.tasks| then s.tasks[t] else Finished
  }

  predicate SlotExists(s: State, i: nat) {
    i < |s.slots| && i < |s.active|
  }

  predicate Enabled(s: State, a: Action) {
    match a
    case TakePermit(t) => At(s, t).Waiting? && !s.closed && s.free > 0
    case Refused(t) => At(s, t).Waiting? && s.closed
    case StartScan(t) => At(s, t).Permitted?
    case TryLock(t) => At(s, t).Scanning? && At(s, t).index <= At(s, t).bound && SlotExists(s, At(s, t).index)
    case EndScan(t) => At(s, t).Scanning? && At(s, t).index > At(s, t).bound
    case Wake(t) => At(s, t).Parked?
    case SetFlag(t) => At(s, t).Locked? && SlotExists(s, At(s, t).slot)
    case ReadLimits(t) => At(s, t).Holding?
    case ReadFlag(t) => At(s, t).Choosing? && At(s, t).above <= |s.active|
    case Send(t) => At(s, t).Ready? && SlotExists(s, At(s, t).slot)
    case Answered(t) => At(s, t).Sent? && SlotExists(s, At(s, t).slot) && |s.slots[At(s, t).slot].seen| == s.slots[At(s, t).slot].sent
    case GiveUp(t) => At(s, t).Holding? || At(s, t).Choosing? || At(s, t).Ready? || At(s, t).Sent?
    case Cancel(t) => At(s, t).Ready?
    case DropGuard(t) => At(s, t).Leaving? && SlotExists(s, At(s, t).slot)
    case ClearFlag(t) => At(s, t).Releasing? && SlotExists(s, At(s, t).slot)
    case ReturnPermit(t) => At(s, t).Returning?
    case Again(t) => At(s, t).Finished? && t < |s.tasks|
    case Deliver(i) => SlotExists(s, i) && s.slots[i].wire.Some?
    case Lose(i) => SlotExists(s, i) && s.slots[i].wire.Some?
    case UpdateLimits(_, _) => s.slots != []
  }

  function TaskOf(a: Action): Option<nat> {
    if a.Deliver? || a.Lose? || a.UpdateLimits? then None else Some(a.t)
  }

  /** `try_lock` succeeds on a free usable slot. */
  predicate Takes(s: State, a: Action)
    requires Enabled(s, a)
  {
    a.TryLock? && s.slots[s.tasks[a.t].index].holder.None? && s.slots[s.tasks[a.t].index].usable
  }

  /** The guard's drop retires a slot whose request is still outstanding. */
  predicate Retire(s: State, a: Action)
    requires Enabled(s, a)
  {
    a.DropGuard? && s.tasks[a.t].outstanding && s.slots[s.tasks[a.t].slot].usable
  }

  /** The highest flagged slot once the flags at and above `above` were read as clear. */
  function AfterFlag(s: State, p: Phase): Phase
    requires p.Choosing? && p.above <= |s.active|
  {
    if p.above > 0 && !s.active[p.above - 1] then p.(above := p.above - 1)
    else
      var highest := if p.above > 0 then p.above - 1 else 0;
      if highest <= p.enforced then Ready(p.slot, p.enforced, p.target, Max(highest, p.target)) else Holding(p.slot)
  }

  /** Where a step takes its task. A request is armed when it is ready; one cancelled between that and
      being sent counts as outstanding. */
  function NextPhase(s: State, a: Action): Phase
    requires Enabled(s, a) && TaskOf(a).Some?
  {
    var p := At(s, a.t);
    match a
    case TakePermit(_) => Permitted
    case Refused(_) => Failed
    case StartScan(_) => Scanning(0, s.target, false)
    case TryLock(_) =>
      if Takes(s, a) then Locked(p.index) else p.(index := p.index + 1, sawLocked := p.sawLocked || s.slots[p.index].holder.Some?)
    case EndScan(_) => if p.sawLocked then Parked else Failed
    case Wake(_) => Waiting
    case SetFlag(_) => Holding(p.slot)
    case ReadLimits(_) =>
      if p.slot > s.target || p.slot > s.enforced then Leaving(p.slot, false) else Choosing(p.slot, s.enforced, s.target, |s.active|)
    case ReadFlag(_) => AfterFlag(s, p)
    case Send(_) => Sent(p.slot)
    case Answered(_) => Leaving(p.slot, false)
    case GiveUp(_) => Leaving(p.slot, p.Sent?)
    case Cancel(_) => Leaving(p.slot, true)
    case DropGuard(_) => Releasing(p.slot, Retire(s, a))
    case ClearFlag(_) => Returning(p.retire)
    case ReturnPermit(_) => Finished
    case Again(_) => Waiting
  }

  /** The slot whose record a step may change. */
  function SlotOf(s: State, a: Action): Option<nat>
    requires Enabled(s, a)
  {
    match a
    case TryLock(t) => Some(s.tasks[t].index)
    case Send(t) => Some(s.tasks[t].slot)
    case Answered(t) => Some(s.tasks[t].slot)
    case DropGuard(t) => Some(s.tasks[t].slot)
    case Deliver(i) => Some(i)
    case Lose(i) => Some(i)
    case _ => None
  }

  /** What a step makes of that slot. */
  function NextSlot(s: State, a: Action): Slot
    requires Enabled(s, a) && SlotOf(s, a).Some?
  {
    var x := s.slots[SlotOf(s, a).value];
    match a
    case TryLock(t) => if Takes(s, a) then x.(holder := Some(t)) else x
    case Send(_) => x.(sent := x.sent + 1, wire := Some(x.sequenceid))
    case Answered(_) => x.(sequenceid := (x.sequenceid + 1) % SEQ_MOD)
    case DropGuard(_) => x.(holder := None, usable := x.usable && !Retire(s, a))
    case Deliver(_) => x.(seen := x.seen + [x.wire.value], wire := None)
    case Lose(_) => x.(wire := None)
  }

  function NextActive(s: State, a: Action): seq<bool>
    requires Enabled(s, a)
  {
    match a
    case SetFlag(t) => s.active[s.tasks[t].slot := true]
    case ClearFlag(t) => s.active[s.tasks[t].slot := false]
    case _ => s.active
  }

  function NextFree(s: State, a: Action): nat
    requires Enabled(s, a)
  {
    match a
    case TakePermit(_) => s.free - 1
    case EndScan(_) => s.free + 1
    case ReturnPermit(t) => s.free + if s.tasks[t].retire then 0 else 1
    case _ => s.free
  }

  function Apply(s: State, a: Action): State
    requires Enabled(s, a)
  {
    State(
      if SlotOf(s, a).Some? then s.slots[SlotOf(s, a).value := NextSlot(s, a)] else s.slots,
      NextActive(s, a),
      NextFree(s, a),
      s.closed || (Retire(s, a) && s.live == 1),
      if Retire(s, a) && s.live > 0 then s.live - 1 else s.live,
      if a.UpdateLimits? then Min(a.highest, |s.slots| - 1) else s.enforced,
      if a.UpdateLimits? then Min(a.targetHighest, Min(a.highest, |s.slots| - 1)) else s.target,
      if TaskOf(a).Some? then s.tasks[a.t := NextPhase(s, a)] else s.tasks)
  }

  function FreshSlots(n: nat): seq<Slot> {
    seq(n, _ => Slot(1, true, None, 0, [], None))
  }

  /** `SlotTable::new` with at least one slot and any number of tasks about to use it. */
  function Init(n: nat, tasks: nat): State {
    var count := Max(n, 1);
    State(FreshSlots(count), seq(count, _ => false), count, false, count, count - 1, count - 1, seq(tasks, _ => Waiting))
  }

  /** A run: states joined by enabled actions. */
  predicate Run(states: seq<State>, actions: seq<Action>) {
    && |states| == |actions| + 1
    && forall k | 0 <= k < |actions| :: Enabled(states[k], actions[k]) && states[k + 1] == Apply(states[k], actions[k])
  }

  // ---------------------------------------------------------------- counting

  function Permits(tasks: seq<Phase>): nat {
    if tasks == [] then 0 else Permits(tasks[..|tasks| - 1]) + if tasks[|tasks| - 1].HoldsPermit() then 1 else 0
  }

  function Retirements(tasks: seq<Phase>): nat {
    if tasks == [] then 0 else Retirements(tasks[..|tasks| - 1]) + if tasks[|tasks| - 1].Retires() then 1 else 0
  }

  function Usable(slots: seq<Slot>): nat {
    if slots == [] then 0 else Usable(slots[..|slots| - 1]) + if slots[|slots| - 1].usable then 1 else 0
  }

  lemma {:induction false} PhaseCounts(tasks: seq<Phase>, t: nat, p: Phase)
    requires t < |tasks|
    ensures Permits(tasks[t := p]) == Permits(tasks) - (if tasks[t].HoldsPermit() then 1 else 0) + if p.HoldsPermit() then 1 else 0
    ensures Retirements(tasks[t := p]) == Retirements(tasks) - (if tasks[t].Retires() then 1 else 0) + if p.Retires() then 1 else 0
  {
    var init := tasks[..|tasks| - 1];
    if t == |tasks| - 1 {
      assert tasks[t := p][..|tasks| - 1] == init;
    } else {
      PhaseCounts(init, t, p);
      assert tasks[t := p][..|tasks| - 1] == init[t := p];
    }
  }

  lemma {:induction false} UsableCounts(slots: seq<Slot>, i: nat, x: Slot)
    requires i < |slots|
    ensures Usable(slots[i := x]) == Usable(slots) - (if slots[i].usable then 1 else 0) + if x.usable then 1 else 0
  {
    var init := slots[..|slots| - 1];
    if i == |slots| - 1 {
      assert slots[i := x][..|slots| - 1] == init;
    } else {
      UsableCounts(init, i, x);
      assert slots[i := x][..|slots| - 1] == init[i := x];
    }
  }

  // ---------------------------------------------------------------- invariants

  /** Limits stay inside the table. */
  predicate Bounded(s: State) {
    && 0 < |s.slots| == |s.active| && s.target <= s.enforced < |s.slots|
    && forall t | 0 <= t < |s.tasks| :: PhaseBounded(s.tasks[t], |s.slots|)
  }

  predicate PhaseBounded(p: Phase, n: nat) {
    && (p.Scanning? ==> p.bound < n)
    && (p.HoldsSlot() || p.Releasing? ==> p.slot < n)
    && (p.Choosing? ==> p.slot <= p.target <= p.enforced < n && p.above <= n)
    && (p.Ready? ==> p.slot <= p.target <= p.highest <= p.enforced < n)
  }

  /** A slot is held by exactly the one task that says so. */
  predicate Exclusive(s: State) {
    && (forall t | 0 <= t < |s.tasks| && s.tasks[t].HoldsSlot() :: s.tasks[t].slot < |s.slots| && s.slots[s.tasks[t].slot].holder == Some(t))
    && (forall i | 0 <= i < |s.slots| && s.slots[i].holder.Some? ::
          var t := s.slots[i].holder.value; t < |s.tasks| && s.tasks[t].HoldsSlot() && s.tasks[t].slot == i)
  }

  /** Sequence numbers: the server saw 1, 2, 3, ... modulo 2^32; a slot that can be used next has
      nothing in flight and carries the successor of the last one. */
  predicate Numbered(x: Slot, doubt: Doubt) {
    && (forall k | 0 <= k < |x.seen| :: x.seen[k] == (k + 1) % SEQ_MOD)
    && |x.seen| <= x.sent <= |x.seen| + 1
    && (x.wire.Some? ==> x.sent == |x.seen| + 1 && x.wire.value == x.sent % SEQ_MOD)
    && (x.usable && doubt.InFlight? ==> 0 < x.sent && x.sequenceid == x.sent % SEQ_MOD)
    && (x.usable && doubt.Sure? ==> x.sent == |x.seen| && x.wire.None? && x.sequenceid == (x.sent + 1) % SEQ_MOD)
    && (!x.usable ==> x.holder.None?)
  }

  function DoubtOf(s: State, i: nat): Doubt
    requires i < |s.slots|
  {
    if s.slots[i].holder.Some? then At(s, s.slots[i].holder.value).Doubt() else Sure
  }

  predicate InSequence(s: State) {
    forall i | 0 <= i < |s.slots| :: Numbered(s.slots[i], DoubtOf(s, i))
  }

  /** Permits: what is free or held is one per live slot, plus those about to be forgotten. */
  predicate Accounted(s: State) {
    && s.live == Usable(s.slots)
    && s.free + Permits(s.tasks) == s.live + Retirements(s.tasks)
    && (s.closed <==> s.live == 0)
  }

  /** A task that will clear flag `f`. */
  predicate Owns(p: Phase, f: nat) {
    (p.Flagged() || p.Releasing?) && p.slot == f
  }

  predicate FlagsOwned(s: State) {
    forall f | 0 <= f < |s.active| && s.active[f] :: exists t | 0 <= t < |s.tasks| :: Owns(s.tasks[t], f)
  }

  predicate Inv(s: State) {
    Bounded(s) && Exclusive(s) && InSequence(s) && Accounted(s) && FlagsOwned(s)
  }

  // ---------------------------------------------------------------- what a step touches

  lemma TaskExists(s: State, a: Action)
    requires Enabled(s, a) && TaskOf(a).Some?
    ensures a.t < |s.tasks|
  {
  }

  lemma Sizes(s: State, a: Action)
    requires Enabled(s, a)
    ensures |Apply(s, a).slots| == |s.slots| && |Apply(s, a).tasks| == |s.tasks| && |Apply(s, a).active| == |s.active|
    ensures SlotOf(s, a).Some? ==> SlotOf(s, a).value < |s.slots|
  {
    hide NextPhase, NextSlot, NextFree, Retire;
  }

  predicate SameHold(p: Phase, q: Phase) {
    p.HoldsSlot() == q.HoldsSlot() && (p.HoldsSlot() ==> p.slot == q.slot)
  }

  lemma HoldEffect(s: State, a: Action)
    requires Enabled(s, a) && TaskOf(a).Some?
    ensures !Takes(s, a) && !a.DropGuard? ==> SameHold(At(s, a.t), NextPhase(s, a))
    ensures Takes(s, a) ==> At(s, a.t).Scanning? && NextPhase(s, a) == Locked(At(s, a.t).index)
    ensures Takes(s, a) ==> At(s, a.t).index < |s.slots| && s.slots[At(s, a.t).index].holder.None?
    ensures a.DropGuard? ==> !NextPhase(s, a).HoldsSlot() && At(s, a.t).HoldsSlot()
  {
  }

  lemma HolderEffect(s: State, a: Action)
    requires Enabled(s, a) && SlotOf(s, a).Some?
    ensures SlotOf(s, a).value < |s.slots|
    ensures NextSlot(s, a).holder == if Takes(s, a) then Some(a.t) else if a.DropGuard? then None else s.slots[SlotOf(s, a).value].holder
  {
  }

  // ---------------------------------------------------------------- every step keeps them

  lemma NextPhaseBounded(s: State, a: Action)
    requires Bounded(s) && Enabled(s, a) && TaskOf(a).Some?
    ensures PhaseBounded(NextPhase(s, a), |s.slots|)
  {
    assert PhaseBounded(s.tasks[a.t], |s.slots|);
  }

  lemma BoundedStep(s: State, a: Action)
    requires Bounded(s) && Enabled(s, a)
    ensures Bounded(Apply(s, a))
  {
    hide PhaseBounded, Enabled, NextPhase, NextSlot, NextFree, Retire, NextActive;
    Sizes(s, a);
    if TaskOf(a).Some? {
      TaskExists(s, a);
      NextPhaseBounded(s, a);
    }
  }

  lemma ExclusiveKeep(s: State, s': State, t: nat)
    requires Exclusive(s) && t < |s.tasks| == |s'.tasks| && |s'.slots| == |s.slots| && SameHold(s.tasks[t], s'.tasks[t])
    requires s'.tasks == s.tasks[t := s'.tasks[t]] && forall i | 0 <= i < |s.slots| :: s'.slots[i].holder == s.slots[i].holder
    ensures Exclusive(s')
  {
  }

  lemma ExclusiveTake(s: State, s': State, t: nat, k: nat)
    requires Exclusive(s) && t < |s.tasks| == |s'.tasks| && |s'.slots| == |s.slots| && k < |s.slots|
    requires !s.tasks[t].HoldsSlot() && s'.tasks == s.tasks[t := Locked(k)] && s.slots[k].holder.None?
    requires forall i | 0 <= i < |s.slots| :: s'.slots[i].holder == if i == k then Some(t) else s.slots[i].holder
    ensures Exclusive(s')
  {
  }

  lemma ExclusiveDrop(s: State, s': State, t: nat, k: nat)
    requires Exclusive(s) && t < |s.tasks| == |s'.tasks| && |s'.slots| == |s.slots| && k < |s.slots|
    requires s.tasks[t].HoldsSlot() && s.tasks[t].slot == k && s'.tasks == s.tasks[t := s'.tasks[t]] && !s'.tasks[t].HoldsSlot()
    requires forall i | 0 <= i < |s.slots| :: s'.slots[i].holder == if i == k then None else s.slots[i].holder
    ensures Exclusive(s')
  {
  }

  lemma ExclusiveStep(s: State, a: Action)
    requires Exclusive(s) && Enabled(s, a)
    ensures Exclusive(Apply(s, a))
  {
    hide Enabled, Exclusive, SameHold, NextPhase, NextSlot, NextActive, NextFree, Retire;
    var s' := Apply(s, a);
    Sizes(s, a);
    if SlotOf(s, a).Some? {
      HolderEffect(s, a);
    }
    if TaskOf(a).None? {
      ExclusiveSame(s, s');
    } else {
      TaskExists(s, a);
      HoldEffect(s, a);
      if Takes(s, a) {
        ExclusiveTake(s, s', a.t, s.tasks[a.t].index);
      } else if a.DropGuard? {
        ExclusiveDrop(s, s', a.t, s.tasks[a.t].slot);
      } else {
        ExclusiveKeep(s, s', a.t);
      }
    }
  }

  lemma ExclusiveSame(s: State, s': State)
    requires Exclusive(s) && s'.tasks == s.tasks && |s'.slots| == |s.slots|
    requires forall i | 0 <= i < |s.slots| :: s'.slots[i].holder == s.slots[i].holder
    ensures Exclusive(s')
  {
  }

  /** What the holder of an untouched slot knows of its request does not change, unless it gives up. */
  lemma SureElsewhere(s: State, a: Action, i: nat)
    requires Exclusive(s) && Enabled(s, a) && i < |s.slots| && SlotOf(s, a) != Some(i)
    ensures i < |Apply(s, a).slots| && Apply(s, a).slots[i] == s.slots[i]
    ensures DoubtOf(Apply(s, a), i) == DoubtOf(s, i) || DoubtOf(Apply(s, a), i).Abandoned?
  {
    hide Enabled, NextPhase, NextSlot, NextActive, NextFree, Retire;
    Sizes(s, a);
    if TaskOf(a).Some? {
      TaskExists(s, a);
      if s.slots[i].holder == Some(a.t) {
        assert s.tasks[a.t].HoldsSlot() && s.tasks[a.t].slot == i;
        SureMoves(s, a, i);
      }
    }
  }

  lemma SureMoves(s: State, a: Action, i: nat)
    requires Enabled(s, a) && TaskOf(a).Some? && At(s, a.t).HoldsSlot() && At(s, a.t).slot == i && SlotOf(s, a) != Some(i)
    ensures NextPhase(s, a).Doubt() == At(s, a.t).Doubt() || NextPhase(s, a).Doubt().Abandoned?
  {
  }

  lemma NumberedRequest(s: State, a: Action, i: nat)
    requires Exclusive(s) && Enabled(s, a) && (a.Send? || a.Answered? || a.DropGuard?) && SlotOf(s, a) == Some(i) && Numbered(s.slots[i], DoubtOf(s, i))
    ensures Numbered(NextSlot(s, a), if a.DropGuard? then Sure else NextPhase(s, a).Doubt())
  {
    assert s.slots[i].holder == Some(a.t);
  }

  lemma NumberedServer(x: Slot, doubt: Doubt)
    requires Numbered(x, doubt) && x.wire.Some?
    ensures Numbered(x.(seen := x.seen + [x.wire.value], wire := None), doubt) && Numbered(x.(wire := None), doubt)
  {
  }

  lemma NumberedTouched(s: State, a: Action, i: nat)
    requires Exclusive(s) && Enabled(s, a) && SlotOf(s, a) == Some(i) && i < |s.slots| && Numbered(s.slots[i], DoubtOf(s, i))
    ensures Numbered(Apply(s, a).slots[i], DoubtOf(Apply(s, a), i))
  {
    hide Numbered;
    if a.Deliver? || a.Lose? {
      NumberedServer(s.slots[i], DoubtOf(s, i));
    } else if a.TryLock? {
      NumberedTaken(s.slots[i], a.t);
    } else {
      TaskExists(s, a);
      assert s.slots[i].holder == Some(a.t);
      NumberedRequest(s, a, i);
    }
  }

  lemma NumberedTaken(x: Slot, t: nat)
    ensures Numbered(x, Sure) && x.usable ==> Numbered(x.(holder := Some(t)), Sure)
  {
  }

  lemma InSequenceStep(s: State, a: Action)
    requires Exclusive(s) && InSequence(s) && Enabled(s, a)
    ensures InSequence(Apply(s, a))
  {
    hide Numbered, Enabled, Exclusive, DoubtOf, NextPhase, NextSlot, NextActive, NextFree, Retire;
    Sizes(s, a);
    forall i | 0 <= i < |s.slots|
      ensures Numbered(Apply(s, a).slots[i], DoubtOf(Apply(s, a), i))
    {
      assert Numbered(s.slots[i], DoubtOf(s, i));
      if SlotOf(s, a) == Some(i) {
        NumberedTouched(s, a, i);
      } else {
        SureElsewhere(s, a, i);
        AbandonedIsWeaker(s.slots[i], DoubtOf(s, i));
      }
    }
  }

  lemma AbandonedIsWeaker(x: Slot, doubt: Doubt)
    requires Numbered(x, doubt)
    ensures Numbered(x, Abandoned)
  {
  }

  function One(b: bool): nat {
    if b then 1 else 0
  }

  /** A step moves at most one permit, between the semaphore and its task; a retirement is paid
      for by the live count. */
  lemma PermitEffect(s: State, a: Action)
    requires Enabled(s, a) && TaskOf(a).Some?
    ensures NextFree(s, a) + One(NextPhase(s, a).HoldsPermit()) + One(Retire(s, a)) + One(At(s, a.t).Retires())
         == s.free + One(At(s, a.t).HoldsPermit()) + One(NextPhase(s, a).Retires())
  {
  }

  lemma UsableEffect(s: State, a: Action)
    requires Enabled(s, a)
    ensures SlotOf(s, a).Some? ==> SlotOf(s, a).value < |s.slots| && One(NextSlot(s, a).usable) + One(Retire(s, a)) == One(s.slots[SlotOf(s, a).value].usable)
    ensures Retire(s, a) ==> SlotOf(s, a).Some?
  {
  }

  lemma UsableStep(s: State, a: Action)
    requires Enabled(s, a)
    ensures Usable(Apply(s, a).slots) + One(Retire(s, a)) == Usable(s.slots)
  {
    hide Enabled, NextPhase, NextSlot, NextActive, NextFree, Retire, SlotOf, Usable;
    UsableEffect(s, a);
    if SlotOf(s, a).Some? {
      UsableCounts(s.slots, SlotOf(s, a).value, NextSlot(s, a));
    }
  }

  lemma PermitStep(s: State, a: Action)
    requires Enabled(s, a)
    ensures Apply(s, a).free + Permits(Apply(s, a).tasks) + One(Retire(s, a)) + Retirements(s.tasks)
         == s.free + Permits(s.tasks) + Retirements(Apply(s, a).tasks)
  {
    hide Enabled, NextPhase, NextSlot, NextActive, NextFree, Retire, SlotOf, Permits, Retirements;
    if TaskOf(a).Some? {
      TaskExists(s, a);
      PermitEffect(s, a);
      PhaseCounts(s.tasks, a.t, NextPhase(s, a));
    } else {
      NoTask(s, a);
    }
  }

  lemma AccountedStep(s: State, a: Action)
    requires Accounted(s) && Enabled(s, a)
    ensures Accounted(Apply(s, a))
  {
    hide Enabled, NextPhase, NextSlot, NextActive, NextFree, Retire, SlotOf, Permits, Retirements, Usable;
    UsableStep(s, a);
    PermitStep(s, a);
  }

  lemma NoTask(s: State, a: Action)
    requires Enabled(s, a) && TaskOf(a).None?
    ensures NextFree(s, a) == s.free && !Retire(s, a)
  {
  }

  lemma OwnsEffect(s: State, a: Action, f: nat)
    requires Enabled(s, a) && TaskOf(a).Some?
    ensures Owns(At(s, a.t), f) ==> Owns(NextPhase(s, a), f) || (a.ClearFlag? && f < |s.active| && !NextActive(s, a)[f])
    ensures f < |s.active| == |NextActive(s, a)| && NextActive(s, a)[f] ==> s.active[f] || Owns(NextPhase(s, a), f)
  {
  }

  lemma FlagsOwnedStep(s: State, a: Action)
    requires FlagsOwned(s) && Enabled(s, a)
    ensures FlagsOwned(Apply(s, a))
  {
    hide Enabled, NextPhase, NextSlot, NextFree, Retire, SlotOf, Owns;
    Sizes(s, a);
    var s' := Apply(s, a);
    forall f | 0 <= f < |s'.active| && s'.active[f]
      ensures exists t | 0 <= t < |s'.tasks| :: Owns(s'.tasks[t], f)
    {
      if TaskOf(a).Some? {
        TaskExists(s, a);
        OwnsEffect(s, a, f);
        if !Owns(s'.tasks[a.t], f) {
          var t :| 0 <= t < |s.tasks| && Owns(s.tasks[t], f);
          assert Owns(s'.tasks[t], f);
        }
      }
    }
  }

  lemma InvStep(s: State, a: Action)
    requires Inv(s) && Enabled(s, a)
    ensures Inv(Apply(s, a))
  {
    hide Apply, Enabled, Bounded, Exclusive, InSequence, Accounted, FlagsOwned;
    FlagsOwnedStep(s, a);
    BoundedStep(s, a);
    ExclusiveStep(s, a);
    InSequenceStep(s, a);
    AccountedStep(s, a);
  }

  lemma {:induction false} FreshUsable(n: nat)
    ensures Usable(FreshSlots(n)) == n
  {
    if n > 0 {
      FreshUsable(n - 1);
      assert FreshSlots(n)[..n - 1] == FreshSlots(n - 1);
    }
  }

  lemma {:induction false} NobodyHolds(tasks: seq<Phase>)
    requires forall t | 0 <= t < |tasks| :: tasks[t] == Waiting
    ensures Permits(tasks) == 0 && Retirements(tasks) == 0
  {
    if tasks != [] {
      NobodyHolds(tasks[..|tasks| - 1]);
    }
  }

  lemma InitInv(n: nat, tasks: nat)
    ensures Inv(Init(n, tasks))
  {
    FreshUsable(Max(n, 1));
    NobodyHolds(Init(n, tasks).tasks);
  }

  /** In every reachable state, whatever its tasks, the network and the server's limits did. */
  lemma {:induction false} RunInv(n: nat, tasks: nat, states: seq<State>, actions: seq<Action>, k: nat)
    requires Run(states, actions) && states[0] == Init(n, tasks) && k < |states|
    ensures Inv(states[k])
  {
    hide Inv, Init, Apply, Enabled;
    if k == 0 {
      InitInv(n, tasks);
    } else {
      RunInv(n, tasks, states, actions, k - 1);
      InvStep(states[k - 1], actions[k - 1]);
    }
  }

  /** `s` is a state of some run of any number of tasks on any number of slots. */
  ghost predicate Reachable(s: State) {
    exists n: nat, tasks: nat, states: seq<State>, actions: seq<Action> ::
      Run(states, actions) && states[0] == Init(n, tasks) && states[|actions|] == s
  }

  lemma ReachableInv(s: State)
    requires Reachable(s)
    ensures Inv(s)
  {
    hide Inv, Init, Apply, Enabled;
    var n: nat, tasks: nat, states: seq<State>, actions: seq<Action> :| Run(states, actions) && states[0] == Init(n, tasks) && states[|actions|] == s;
    RunInv(n, tasks, states, actions, |actions|);
  }

  // ---------------------------------------------------------------- exactly-once slots

  function Last(x: Slot): nat {
    if x.seen == [] then 0 else x.seen[|x.seen| - 1]
  }

  /** An idle usable slot carries the server's last sequence id plus one, with nothing in flight. */
  lemma IdleSlotIsNext(s: State, i: nat)
    requires Reachable(s) && i < |s.slots| && s.slots[i].usable && s.slots[i].holder.None?
    ensures s.slots[i].sequenceid == (Last(s.slots[i]) + 1) % SEQ_MOD
    ensures s.slots[i].wire.None? && s.slots[i].sent == |s.slots[i].seen|
  {
    hide Reachable;
    ReachableInv(s);
    var x := s.slots[i];
    assert Numbered(x, DoubtOf(s, i));
    if x.seen != [] {
      NextMod(|x.seen|);
    }
  }

  lemma NextMod(k: nat)
    ensures (k % SEQ_MOD + 1) % SEQ_MOD == (k + 1) % SEQ_MOD
  {
  }

  /** The server never sees a slot and sequence id again within 2^32 requests on that slot. */
  lemma NoRepeats(s: State, i: nat, a: nat, b: nat)
    requires Reachable(s) && i < |s.slots| && a < b < |s.slots[i].seen| && s.slots[i].seen[a] == s.slots[i].seen[b]
    ensures b - a >= SEQ_MOD
  {
    hide Reachable;
    ReachableInv(s);
    assert Numbered(s.slots[i], DoubtOf(s, i));
  }

  /** A retired slot stays retired and sends nothing more: a request of unknown fate is the last. */
  lemma RetiredStep(s: State, a: Action, i: nat)
    requires Inv(s) && Enabled(s, a) && i < |s.slots| && !s.slots[i].usable
    ensures i < |Apply(s, a).slots| && !Apply(s, a).slots[i].usable && Apply(s, a).slots[i].sent == s.slots[i].sent
  {
    hide Bounded, Accounted, Numbered;
    assert s.slots[i].holder.None? by { RetiredIsFree(s, i); }
  }

  lemma RetiredIsFree(s: State, i: nat)
    requires InSequence(s) && i < |s.slots| && !s.slots[i].usable
    ensures s.slots[i].holder.None?
  {
    assert Numbered(s.slots[i], DoubtOf(s, i));
  }

  /** Step `a` leaves the fate of a request on slot `i` unknown: its task stops waiting for the answer,
      or is cancelled when the request was about to be sent. */
  predicate LosesTrack(s: State, a: Action, i: nat) {
    || (a.GiveUp? && At(s, a.t) == Sent(i))
    || (a.Cancel? && At(s, a.t).Ready? && At(s, a.t).slot == i)
  }

  /** The slot is about to be retired, or is. */
  predicate Doomed(s: State, i: nat) {
    i < |s.slots| && (!s.slots[i].usable || (s.slots[i].holder.Some? && At(s, s.slots[i].holder.value) == Leaving(i, true)))
  }

  lemma DoomedStep(s: State, a: Action, i: nat)
    requires Inv(s) && Enabled(s, a) && Doomed(s, i)
    ensures Doomed(Apply(s, a), i) && Apply(s, a).slots[i].sent == s.slots[i].sent
  {
    hide Bounded, Accounted, InSequence, Exclusive, FlagsOwned, Enabled, Apply;
    if !s.slots[i].usable {
      RetiredStep(s, a, i);
    } else if SlotOf(s, a) == Some(i) {
      DoomedTouched(s, a, i);
    } else {
      DoomedElsewhere(s, a, i);
    }
  }

  lemma DoomedTouched(s: State, a: Action, i: nat)
    requires Exclusive(s) && Enabled(s, a) && Doomed(s, i) && s.slots[i].usable && SlotOf(s, a) == Some(i)
    ensures Doomed(Apply(s, a), i) && Apply(s, a).slots[i].sent == s.slots[i].sent
  {
    hide NextActive, NextFree;
    if TaskOf(a).Some? && !a.TryLock? {
      TaskExists(s, a);
      assert s.slots[i].holder == Some(a.t);
    }
  }

  lemma DoomedElsewhere(s: State, a: Action, i: nat)
    requires Exclusive(s) && Enabled(s, a) && Doomed(s, i) && s.slots[i].usable && SlotOf(s, a) != Some(i)
    ensures Doomed(Apply(s, a), i) && Apply(s, a).slots[i].sent == s.slots[i].sent
  {
    hide NextActive, NextFree, Exclusive, NextSlot;
    SureElsewhere(s, a, i);
  }

  lemma DoomedStart(s: State, a: Action, i: nat)
    requires Inv(s) && Enabled(s, a) && LosesTrack(s, a, i)
    ensures Doomed(Apply(s, a), i) && Apply(s, a).slots[i].sent == s.slots[i].sent
  {
    hide Bounded, Accounted, Numbered, FlagsOwned;
    TaskExists(s, a);
  }

  /** A slot whose request's fate became unknown is never used again. */
  lemma {:induction false} RetiredForever(n: nat, tasks: nat, states: seq<State>, actions: seq<Action>, i: nat, j: nat, k: nat)
    requires Run(states, actions) && states[0] == Init(n, tasks) && j < k < |states| && LosesTrack(states[j], actions[j], i)
    ensures i < |states[j].slots| && Doomed(states[k], i) && states[k].slots[i].sent == states[j].slots[i].sent
    decreases k
  {
    hide Inv, Init, Apply, Enabled, LosesTrack, Doomed;
    RunInv(n, tasks, states, actions, k - 1);
    assert states[k - 1 + 1] == Apply(states[k - 1], actions[k - 1]);
    if k - 1 == j {
      DoomedStart(states[j], actions[j], i);
      DoomedSlot(states[k], i);
      Sizes(states[j], actions[j]);
    } else {
      RetiredForever(n, tasks, states, actions, i, j, k - 1);
      DoomedSlot(states[k - 1], i);
      DoomedStep(states[k - 1], actions[k - 1], i);
      DoomedSlot(states[k], i);
    }
  }

  lemma DoomedSlot(s: State, i: nat)
    requires Doomed(s, i)
    ensures i < |s.slots|
  {
  }

  // ---------------------------------------------------------------- accounting

  /** Between releases, free and held permits make up the live slots; the semaphore is closed
      exactly when none is left. */
  lemma PermitsMatchLive(s: State)
    requires Reachable(s) && forall t | 0 <= t < |s.tasks| :: !s.tasks[t].Retires()
    ensures s.free + Permits(s.tasks) == s.live == Usable(s.slots) && (s.closed <==> Usable(s.slots) == 0)
  {
    hide Reachable;
    ReachableInv(s);
    NoneRetires(s.tasks);
  }

  lemma {:induction false} NoneRetires(tasks: seq<Phase>)
    requires forall t | 0 <= t < |tasks| :: !tasks[t].Retires()
    ensures Retirements(tasks) == 0
  {
    if tasks != [] {
      NoneRetires(tasks[..|tasks| - 1]);
    }
  }

  /** An issued highest slot id lies between the slot held and the enforced limit read. */
  lemma IssuedHighestIsLegal(s: State, t: nat)
    requires Reachable(s) && t < |s.tasks| && s.tasks[t].Ready?
    ensures s.tasks[t].slot <= s.tasks[t].target <= s.tasks[t].highest <= s.tasks[t].enforced < |s.slots|
  {
    hide Reachable;
    ReachableInv(s);
    assert PhaseBounded(s.tasks[t], |s.slots|);
  }

  /** The highest slot id and target the server last sent before step `m`, or those of the new table. */
  function LastSent(actions: seq<Action>, m: nat, first: nat): (nat, nat)
    requires m <= |actions|
  {
    if m == 0 then (first, first)
    else if actions[m - 1].UpdateLimits? then (actions[m - 1].highest, actions[m - 1].targetHighest)
    else LastSent(actions, m - 1, first)
  }

  /** The table enforces what the server last sent, as far as it has slots. */
  lemma {:induction false} LimitsAreLast(n: nat, tasks: nat, states: seq<State>, actions: seq<Action>, m: nat)
    requires Run(states, actions) && states[0] == Init(n, tasks) && m <= |actions|
    ensures |states[m].slots| == Max(n, 1)
    ensures var (h, target) := LastSent(actions, m, Max(n, 1) - 1);
            states[m].enforced == Min(h, |states[m].slots| - 1) && states[m].target == Min(target, states[m].enforced)
  {
    hide NextSlot, NextFree, Retire;
    if m > 0 {
      LimitsAreLast(n, tasks, states, actions, m - 1);
      assert states[m - 1 + 1] == Apply(states[m - 1], actions[m - 1]);
    }
  }

  /** In a choice, or ready to send what it chose, under these limits. */
  predicate Under(p: Phase, enforced: nat, target: nat) {
    (p.Choosing? || p.Ready?) && p.enforced == enforced && p.target == target
  }

  lemma LimitsKept(s: State, a: Action, t: nat, enforced: nat, target: nat)
    requires Enabled(s, a) && t < |Apply(s, a).tasks| && Under(Apply(s, a).tasks[t], enforced, target)
    ensures t < |s.tasks|
    ensures if a == ReadLimits(t) then enforced == s.enforced && target == s.target else Under(s.tasks[t], enforced, target)
  {
    hide NextSlot, NextFree, SlotOf, Retire;
  }

  lemma {:induction false} LimitsWereRead(n: nat, tasks: nat, states: seq<State>, actions: seq<Action>, t: nat, k: nat, enforced: nat, target: nat) returns (m: nat)
    requires Run(states, actions) && states[0] == Init(n, tasks) && k < |states| && t < |states[k].tasks| && Under(states[k].tasks[t], enforced, target)
    ensures m < k && actions[m] == ReadLimits(t) && states[m].enforced == enforced && states[m].target == target
    ensures forall x | m < x <= k :: t < |states[x].tasks| && Under(states[x].tasks[t], enforced, target)
  {
    hide Apply, Enabled;
    if k == 0 {
      assert false;
    } else {
      assert states[k - 1 + 1] == Apply(states[k - 1], actions[k - 1]);
      LimitsKept(states[k - 1], actions[k - 1], t, enforced, target);
      if actions[k - 1] == ReadLimits(t) {
        m := k - 1;
      } else {
        m := LimitsWereRead(n, tasks, states, actions, t, k - 1, enforced, target);
      }
    }
  }

  /** A request is sent on a slot within the target, with a highest slot id within the limit, that the
      server had last sent when its choice began. */
  lemma IssuedWithinLastSent(n: nat, tasks: nat, states: seq<State>, actions: seq<Action>, t: nat, k: nat) returns (m: nat)
    requires Run(states, actions) && states[0] == Init(n, tasks) && k < |states| && t < |states[k].tasks| && states[k].tasks[t].Ready?
    ensures m < k && actions[m] == ReadLimits(t) && forall x | m < x <= k :: t < |states[x].tasks| && (states[x].tasks[t].Choosing? || states[x].tasks[t].Ready?)
    ensures var (h, target) := LastSent(actions, m, Max(n, 1) - 1);
            states[k].tasks[t].slot <= target && states[k].tasks[t].highest <= h
  {
    hide Apply, Enabled, LastSent;
    var p := states[k].tasks[t];
    m := LimitsWereRead(n, tasks, states, actions, t, k, p.enforced, p.target);
    LimitsAreLast(n, tasks, states, actions, m);
    RunInv(n, tasks, states, actions, k);
    assert PhaseBounded(p, |states[k].slots|);
  }

  /** At step `m` task `t`, while choosing, read flag `f` and found it clear. */
  predicate SawClear(states: seq<State>, t: nat, f: nat, m: nat) {
    && m < |states| && t < |states[m].tasks| && f < |states[m].active|
    && states[m].tasks[t].Choosing? && states[m].tasks[t].above == f + 1 && !states[m].active[f]
  }

  /** From step `m` up to step `k`, task `t` is in one and the same choice. */
  predicate OneChoice(states: seq<State>, t: nat, m: nat, k: nat) {
    && m <= k <= |states| && (forall x | m <= x < k :: t < |states[x].tasks| && states[x].tasks[t].Choosing?)
    && forall x | m < x < k :: states[x].tasks[t].above <= states[x - 1].tasks[t].above
  }

  /** While a choice is under way, every flag already passed was seen clear in it. */
  lemma {:induction false} PassedFlagsWereClear(n: nat, tasks: nat, states: seq<State>, actions: seq<Action>, t: nat, k: nat, f: nat) returns (m: nat)
    requires Run(states, actions) && states[0] == Init(n, tasks) && k < |states| && t < |states[k].tasks|
    requires states[k].tasks[t].Choosing? && states[k].tasks[t].above <= f < |states[k].active|
    ensures m < k && SawClear(states, t, f, m) && OneChoice(states, t, m, k + 1)
  {
    hide Inv, Apply, Enabled;
    if k == 0 {
      assert false;
    } else {
      var s, a := states[k - 1], actions[k - 1];
      assert states[k - 1 + 1] == Apply(s, a);
      ChoosingCameFrom(s, a, t);
      if a == ReadFlag(t) && s.tasks[t].above == f + 1 {
        m := k - 1;
      } else {
        m := PassedFlagsWereClear(n, tasks, states, actions, t, k - 1, f);
      }
    }
  }

  lemma ChoosingCameFrom(s: State, a: Action, t: nat)
    requires Enabled(s, a) && t < |Apply(s, a).tasks| && Apply(s, a).tasks[t].Choosing?
    ensures t < |s.tasks| && |Apply(s, a).active| == |s.active|
    ensures Apply(s, a).tasks[t].above == |s.active| || (s.tasks[t].Choosing? &&
      if a == ReadFlag(t) then s.tasks[t].above == Apply(s, a).tasks[t].above + 1 <= |s.active| && !s.active[Apply(s, a).tasks[t].above]
      else s.tasks[t] == Apply(s, a).tasks[t])
  {
    hide NextSlot, NextFree, SlotOf, Retire;
  }

  /** Every flag above an issued highest slot id was seen clear at some step `m` of that very choice,
      which ended at step `e` with the id it has been ready to issue since. */
  lemma {:induction false} IssuedHighestCoversFlagsSeen(n: nat, tasks: nat, states: seq<State>, actions: seq<Action>, t: nat, k: nat, f: nat)
    returns (m: nat, e: nat)
    requires Run(states, actions) && states[0] == Init(n, tasks) && k < |states| && t < |states[k].tasks|
    requires states[k].tasks[t].Ready? && states[k].tasks[t].highest < f < |states[k].active|
    ensures m < e <= k && SawClear(states, t, f, m) && OneChoice(states, t, m, e)
    ensures forall x | e <= x <= k :: t < |states[x].tasks| && states[x].tasks[t] == states[k].tasks[t]
  {
    hide Inv, Apply, Enabled;
    if k == 0 {
      assert false;
    } else {
      var s, a := states[k - 1], actions[k - 1];
      assert states[k - 1 + 1] == Apply(s, a);
      ReadyCameFrom(s, a, t);
      if a == ReadFlag(t) {
        m := PassedFlagsWereClear(n, tasks, states, actions, t, k - 1, f);
        e := k;
      } else {
        m, e := IssuedHighestCoversFlagsSeen(n, tasks, states, actions, t, k - 1, f);
      }
    }
  }

  lemma ReadyCameFrom(s: State, a: Action, t: nat)
    requires Enabled(s, a) && t < |Apply(s, a).tasks| && Apply(s, a).tasks[t].Ready?
    ensures t < |s.tasks| && |Apply(s, a).active| == |s.active|
    ensures if a == ReadFlag(t) then s.tasks[t].Choosing? && s.tasks[t].above <= Apply(s, a).tasks[t].highest + 1
            else s.tasks[t] == Apply(s, a).tasks[t]
  {
    hide NextSlot, NextFree, SlotOf, Retire;
  }

  // ---------------------------------------------------------------- flags and holders

  /** A previous holder has unlocked the slot but not yet cleared its flag. */
  predicate PendingRelease(s: State, i: nat) {
    exists u | 0 <= u < |s.tasks| :: s.tasks[u].Releasing? && s.tasks[u].slot == i
  }

  predicate HoldsFlagged(s: State, t: nat, i: nat) {
    t < |s.tasks| && s.tasks[t].Flagged() && s.tasks[t].slot == i && i < |s.active|
  }

  /** A run during which `t` holds slot `i` all along, and in the end the slot's flag is clear. */
  predicate HiddenRun(s: State, t: nat, i: nat, states: seq<State>, actions: seq<Action>) {
    && Run(states, actions) && states[0] == s
    && (forall k | 0 <= k < |states| :: HoldsFlagged(states[k], t, i))
    && !states[|states| - 1].active[i]
  }

  lemma FlagStep(s: State, a: Action, t: nat, i: nat)
    requires Inv(s) && Enabled(s, a) && HoldsFlagged(s, t, i) && HoldsFlagged(Apply(s, a), t, i) && s.active[i] && !PendingRelease(s, i)
    ensures Apply(s, a).active[i] && !PendingRelease(Apply(s, a), i)
  {
    hide InSequence, Accounted, Bounded, NextSlot, NextFree, SlotOf, Retire;
    if TaskOf(a).Some? {
      TaskExists(s, a);
      var u := a.t;
      assert !(s.tasks[u].Releasing? && s.tasks[u].slot == i);
      assert s.slots[i].holder == Some(t);
      assert a.DropGuard? ==> s.tasks[u].slot != i || u == t;
      assert !(NextPhase(s, a).Releasing? && NextPhase(s, a).slot == i);
    }
  }

  lemma {:induction false} FlagStays(s: State, t: nat, i: nat, states: seq<State>, actions: seq<Action>, k: nat)
    requires Inv(s) && Run(states, actions) && states[0] == s && k < |states| && HoldsFlagged(s, t, i)
    requires (forall j | 0 <= j < |states| :: HoldsFlagged(states[j], t, i)) && s.active[i] && !PendingRelease(s, i)
    ensures Inv(states[k]) && i < |states[k].active| && states[k].active[i] && !PendingRelease(states[k], i)
  {
    hide Inv, Apply, Enabled, PendingRelease;
    assert HoldsFlagged(states[k], t, i);
    if k > 0 {
      FlagStays(s, t, i, states, actions, k - 1);
      InvStep(states[k - 1], actions[k - 1]);
      FlagStep(states[k - 1], actions[k - 1], t, i);
    }
  }

  lemma FlagLost(s: State, t: nat, i: nat, u: nat) returns (states: seq<State>, actions: seq<Action>)
    requires Inv(s) && HoldsFlagged(s, t, i) && u < |s.tasks| && s.tasks[u].Releasing? && s.tasks[u].slot == i
    ensures HiddenRun(s, t, i, states, actions)
  {
    hide InSequence, Accounted, Exclusive;
    assert PhaseBounded(s.tasks[u], |s.slots|);
    var a := ClearFlag(u);
    states, actions := [s, Apply(s, a)], [a];
  }

  /** The flag of a slot can vanish under its holder exactly when an earlier holder's release was
      still pending at the time: the unlock comes before the flag is cleared. */
  lemma HolderHiddenExactlyWhen(s: State, t: nat, i: nat)
    requires Inv(s) && HoldsFlagged(s, t, i) && s.active[i]
    ensures PendingRelease(s, i) <==> exists states: seq<State>, actions: seq<Action> :: HiddenRun(s, t, i, states, actions)
  {
    hide Inv;
    if PendingRelease(s, i) {
      var u :| 0 <= u < |s.tasks| && s.tasks[u].Releasing? && s.tasks[u].slot == i;
      var states, actions := FlagLost(s, t, i, u);
    } else if exists states: seq<State>, actions: seq<Action> :: HiddenRun(s, t, i, states, actions) {
      var states: seq<State>, actions: seq<Action> :| HiddenRun(s, t, i, states, actions);
      FlagStays(s, t, i, states, actions, |states| - 1);
    }
  }

  // ---------------------------------------------------------------- requests in flight and the issued id

  /** Inside `request_highest_slotid` for slot `slot`. */
  predicate InChoice(p: Phase, slot: nat) {
    p == Holding(slot) || (p.Choosing? && p.slot == slot)
  }

  /** A run from `s` during which `t` chooses the highest slot id of its request on `slot` while the
      request of `u` on slot `i` stays in flight. */
  predicate ChoiceRun(s: State, t: nat, u: nat, i: nat, slot: nat, states: seq<State>, actions: seq<Action>) {
    && Run(states, actions) && states[0] == s
    && (forall k | 0 <= k < |states| :: t < |states[k].tasks| && u < |states[k].tasks| && states[k].tasks[u] == Sent(i))
    && (forall k | 0 <= k < |actions| :: InChoice(states[k].tasks[t], slot))
    && states[|actions|].tasks[t].Ready?
  }

  /** However the choice goes, the issued id reports slot `i`. */
  ghost predicate AlwaysReported(s: State, t: nat, u: nat, i: nat, slot: nat) {
    forall states: seq<State>, actions: seq<Action> ::
      ChoiceRun(s, t, u, i, slot, states, actions) ==> i <= states[|actions|].tasks[t].highest
  }

  /** A request in flight all along is sure to be reported by a choice that starts now exactly when
      its slot is below the chooser's, or its flag is set with no earlier release of it pending. */
  lemma ReportedExactlyWhen(s: State, t: nat, u: nat, i: nat)
    requires Reachable(s) && t < |s.tasks| && u < |s.tasks| && s.tasks[t].Holding? && s.tasks[u] == Sent(i)
    ensures AlwaysReported(s, t, u, i, s.tasks[t].slot) <==>
      s.tasks[t].slot > i || (i < |s.active| && s.active[i] && !PendingRelease(s, i))
  {
    hide Reachable, Inv, Apply, Enabled, InChoice, PendingRelease;
    ReachableInv(s);
    var slot := s.tasks[t].slot;
    if slot > i || (i < |s.active| && s.active[i] && !PendingRelease(s, i)) {
      forall states: seq<State>, actions: seq<Action> | ChoiceRun(s, t, u, i, slot, states, actions)
        ensures i <= states[|actions|].tasks[t].highest
      {
        Reported(s, t, u, i, slot, states, actions);
      }
    } else {
      MissNow(s, t, u, i, slot);
      hide AlwaysReported;
      MissRefutes(s, t, u, i, slot);
    }
  }

  lemma MissRefutes(s: State, t: nat, u: nat, i: nat, slot: nat)
    requires CanMiss(s, t, u, i, slot)
    ensures !AlwaysReported(s, t, u, i, slot)
  {
    hide Apply, Enabled, InChoice;
    var states: seq<State>, actions: seq<Action> :| ChoiceRun(s, t, u, i, slot, states, actions) && states[|actions|].tasks[t].highest < i;
  }

  // ---- it is reported

  /** What a choice keeps: below `i` only if its own slot is above it or the flag was not yet passed. */
  predicate OnCourse(p: Phase, i: nat, slot: nat) {
    && (p.Choosing? ==> slot > i || p.above > i)
    && (p.Ready? ==> p.slot == slot && (slot > i || p.highest >= i))
  }

  lemma CourseStep(s: State, a: Action, t: nat, i: nat, slot: nat)
    requires Enabled(s, a) && t < |s.tasks| && InChoice(s.tasks[t], slot) && OnCourse(s.tasks[t], i, slot)
    requires t < |Apply(s, a).tasks| && (InChoice(Apply(s, a).tasks[t], slot) || Apply(s, a).tasks[t].Ready?)
    requires i < |s.active| && (slot > i || s.active[i])
    ensures OnCourse(Apply(s, a).tasks[t], i, slot)
  {
    hide NextSlot, NextFree, SlotOf, Retire, NextActive;
  }

  lemma {:induction false} InvAlong(s: State, states: seq<State>, actions: seq<Action>, k: nat)
    requires Inv(s) && Run(states, actions) && states[0] == s && k < |states|
    ensures Inv(states[k]) && |states[k].active| == |s.active|
  {
    hide Inv, Apply, Enabled;
    if k > 0 {
      InvAlong(s, states, actions, k - 1);
      assert states[k - 1 + 1] == Apply(states[k - 1], actions[k - 1]);
      InvStep(states[k - 1], actions[k - 1]);
      Sizes(states[k - 1], actions[k - 1]);
    }
  }

  lemma {:induction false} StaysOnCourse(s: State, t: nat, u: nat, i: nat, slot: nat, states: seq<State>, actions: seq<Action>, k: nat)
    requires Inv(s) && ChoiceRun(s, t, u, i, slot, states, actions) && k < |states| && s.tasks[t] == Holding(slot)
    requires i < |s.active| && (slot > i || (s.active[i] && !PendingRelease(s, i)))
    ensures OnCourse(states[k].tasks[t], i, slot)
  {
    hide Inv, Apply, Enabled, PendingRelease, OnCourse, InChoice;
    if k == 0 {
      CourseStart(i, slot);
    } else {
      StaysOnCourse(s, t, u, i, slot, states, actions, k - 1);
      assert states[k - 1 + 1] == Apply(states[k - 1], actions[k - 1]);
      InvAlong(s, states, actions, k - 1);
      if slot <= i {
        forall j | 0 <= j < |states|
          ensures HoldsFlagged(states[j], u, i)
        {
          InvAlong(s, states, actions, j);
        }
        FlagStays(s, u, i, states, actions, k - 1);
      }
      CourseStep(states[k - 1], actions[k - 1], t, i, slot);
    }
  }

  lemma CourseStart(i: nat, slot: nat)
    ensures OnCourse(Holding(slot), i, slot)
  {
  }

  lemma Reported(s: State, t: nat, u: nat, i: nat, slot: nat, states: seq<State>, actions: seq<Action>)
    requires Inv(s) && ChoiceRun(s, t, u, i, slot, states, actions) && s.tasks[t] == Holding(slot)
    requires slot > i || (i < |s.active| && s.active[i] && !PendingRelease(s, i))
    ensures i <= states[|actions|].tasks[t].highest
  {
    hide PendingRelease, Exclusive, InSequence, Accounted, FlagsOwned;
    var e := states[|actions|];
    assert PhaseBounded(s.tasks[u], |s.slots|);
    StaysOnCourse(s, t, u, i, slot, states, actions, |actions|);
    InvAlong(s, states, actions, |actions|);
    assert PhaseBounded(e.tasks[t], |e.slots|);
  }

  // ---- it can be missed

  /** Some run of the choice issues an id below slot `i`. */
  ghost predicate CanMiss(s: State, t: nat, u: nat, i: nat, slot: nat) {
    exists states: seq<State>, actions: seq<Action> ::
      ChoiceRun(s, t, u, i, slot, states, actions) && states[|actions|].tasks[t].highest < i
  }

  lemma MissAfter(s: State, a: Action, t: nat, u: nat, i: nat, slot: nat)
    requires Enabled(s, a) && t < |s.tasks| && u < |s.tasks| && InChoice(s.tasks[t], slot) && s.tasks[u] == Sent(i)
    requires CanMiss(Apply(s, a), t, u, i, slot)
    ensures CanMiss(s, t, u, i, slot)
  {
    hide Apply, Enabled, InChoice;
    var states: seq<State>, actions: seq<Action> :|
      ChoiceRun(Apply(s, a), t, u, i, slot, states, actions) && states[|actions|].tasks[t].highest < i;
    var longer, acts := [s] + states, [a] + actions;
    forall k | 0 <= k < |acts|
      ensures Enabled(longer[k], acts[k]) && longer[k + 1] == Apply(longer[k], acts[k])
    {
      assert k > 0 ==> longer[k] == states[k - 1] && acts[k] == actions[k - 1] && longer[k + 1] == states[k - 1 + 1];
    }
    assert longer[|acts|] == states[|actions|];
    assert ChoiceRun(s, t, u, i, slot, longer, acts);
  }

  /** All flags from `i` on are clear. */
  predicate ClearFrom(s: State, i: nat) {
    forall f | i <= f < |s.active| :: !s.active[f]
  }

  lemma {:induction false} MissByReading(s: State, t: nat, u: nat, i: nat, slot: nat)
    requires t < |s.tasks| && u < |s.tasks| && s.tasks[u] == Sent(i) && s.tasks[t].Choosing? && slot < i && s.active != []
    requires s.tasks[t] == Choosing(slot, |s.active| - 1, slot, s.tasks[t].above) && s.tasks[t].above <= |s.active| && ClearFrom(s, i)
    ensures CanMiss(s, t, u, i, slot)
    decreases s.tasks[t].above
  {
    var a, above := ReadFlag(t), s.tasks[t].above;
    if above > 0 && !s.active[above - 1] {
      hide CanMiss;
      MissByReading(Apply(s, a), t, u, i, slot);
      MissAfter(s, a, t, u, i, slot);
    } else {
      var states, actions := [s, Apply(s, a)], [a];
      assert ChoiceRun(s, t, u, i, slot, states, actions) && states[|actions|].tasks[t].highest < i;
    }
  }

  lemma MissByLimits(s: State, t: nat, u: nat, i: nat, slot: nat)
    requires t < |s.tasks| && u < |s.tasks| && s.tasks[u] == Sent(i) && s.tasks[t] == Holding(slot) && slot < i < |s.slots| == |s.active|
    requires ClearFrom(s, i)
    ensures CanMiss(s, t, u, i, slot)
  {
    hide CanMiss;
    var low := UpdateLimits(|s.slots| - 1, slot);
    var s1 := Apply(s, low);
    MissByReading(Apply(s1, ReadLimits(t)), t, u, i, slot);
    MissAfter(s1, ReadLimits(t), t, u, i, slot);
    MissAfter(s, low, t, u, i, slot);
  }

  /** Besides `u`, no task before `n` has anything to do with a slot from `i` on; and the flag of `i`
      is clear, or about to be cleared by a task from `n` on. */
  predicate Evicted(s: State, u: nat, i: nat, n: nat) {
    && (forall x | 0 <= x < n && x < |s.tasks| && x != u :: !Bothers(s.tasks[x], i))
    && (i < |s.active| ==> !s.active[i] || exists x | n <= x < |s.tasks| :: x != u && s.tasks[x].Releasing? && s.tasks[x].slot == i)
  }

  function Rank(p: Phase): nat {
    if p.Releasing? then 0 else if p.Leaving? then 1 else 2
  }

  /** The next step of a task on its way out. */
  function WayOut(s: State, n: nat): Action
    requires n < |s.tasks|
  {
    if s.tasks[n].Releasing? then ClearFlag(n) else if s.tasks[n].Leaving? then DropGuard(n) else GiveUp(n)
  }

  lemma WayOutStep(s: State, n: nat, i: nat, f: nat)
    requires Bounded(s) && n < |s.tasks| && Owns(s.tasks[n], f)
    ensures Enabled(s, WayOut(s, n)) && f < |s.active|
    ensures var s' := Apply(s, WayOut(s, n));
            && s'.tasks == s.tasks[n := s'.tasks[n]]
            && if s.tasks[n].Releasing? then s'.active == s.active[f := false] && s'.tasks[n].Returning?
               else s'.active == s.active && Owns(s'.tasks[n], f) && Rank(s'.tasks[n]) < Rank(s.tasks[n])
  {
    assert PhaseBounded(s.tasks[n], |s.slots|);
  }

  lemma EvictedStep(s: State, s': State, u: nat, i: nat, n: nat, f: nat)
    requires Evicted(s, u, i, n) && n < |s.tasks| == |s'.tasks| && n != u && i <= f < |s.active| && s'.tasks == s.tasks[n := s'.tasks[n]]
    requires Owns(s.tasks[n], f)
    requires if s.tasks[n].Releasing? then s'.active == s.active[f := false] && s'.tasks[n].Returning?
             else s'.active == s.active && Owns(s'.tasks[n], f)
    ensures Evicted(s', u, i, if s.tasks[n].Releasing? then n + 1 else n)
  {
    if i < |s'.active| && s'.active[i] {
      var x :| n <= x < |s.tasks| && x != u && s.tasks[x].Releasing? && s.tasks[x].slot == i;
      assert s.tasks[n].Releasing? ==> f != i;
      assert x != n ==> s'.tasks[x] == s.tasks[x];
    }
  }

  lemma {:induction false} MissByEvicting(s: State, t: nat, u: nat, i: nat, slot: nat, n: nat)
    requires Inv(s) && t < |s.tasks| && u < |s.tasks| && s.tasks[u] == Sent(i) && s.tasks[t] == Holding(slot) && slot < i
    requires n <= |s.tasks| && Evicted(s, u, i, n)
    ensures CanMiss(s, t, u, i, slot)
    decreases |s.tasks| - n, if n < |s.tasks| then Rank(s.tasks[n]) else 0
  {
    hide CanMiss, InSequence, Exclusive, Accounted, Apply, Enabled, Evicted, FlagsOwned, Rank;
    assert PhaseBounded(s.tasks[u], |s.slots|);
    if n == |s.tasks| {
      AllEvicted(s, u, i);
      MissByLimits(s, t, u, i, slot);
    } else if n == u || !Bothers(s.tasks[n], i) {
      NotBothered(s, u, i, n);
      MissByEvicting(s, t, u, i, slot, n + 1);
    } else {
      var a, f := WayOut(s, n), s.tasks[n].slot;
      WayOutStep(s, n, i, f);
      InvStep(s, a);
      EvictedStep(s, Apply(s, a), u, i, n, f);
      MissByEvicting(Apply(s, a), t, u, i, slot, if s.tasks[n].Releasing? then n + 1 else n);
      MissAfter(s, a, t, u, i, slot);
    }
  }

  /** Has something to do with a slot from `i` on. */
  predicate Bothers(p: Phase, i: nat) {
    (p.Flagged() || p.Releasing?) && p.slot >= i
  }

  lemma NotBothered(s: State, u: nat, i: nat, n: nat)
    requires Evicted(s, u, i, n) && n < |s.tasks| && (n == u || !Bothers(s.tasks[n], i))
    ensures Evicted(s, u, i, n + 1)
  {
  }

  lemma AllEvicted(s: State, u: nat, i: nat)
    requires FlagsOwned(s) && u < |s.tasks| && s.tasks[u] == Sent(i) && Evicted(s, u, i, |s.tasks|)
    ensures ClearFrom(s, i)
  {
    forall f | i <= f < |s.active|
      ensures !s.active[f]
    {
      assert forall x | 0 <= x < |s.tasks| :: Owns(s.tasks[x], f) ==> x == u && f == i;
    }
  }

  lemma MissNow(s: State, t: nat, u: nat, i: nat, slot: nat)
    requires Inv(s) && t < |s.tasks| && u < |s.tasks| && s.tasks[u] == Sent(i) && s.tasks[t] == Holding(slot)
    requires slot <= i && !(i < |s.active| && s.active[i] && !PendingRelease(s, i))
    ensures CanMiss(s, t, u, i, slot)
  {
    hide CanMiss, InSequence, Accounted, FlagsOwned;
    assert slot != i;
    MissByEvicting(s, t, u, i, slot, 0);
  }

  // ---- and that happens

  lemma ReachableInit(n: nat, tasks: nat)
    ensures Reachable(Init(n, tasks))
  {
    var states: seq<State>, actions: seq<Action> := [Init(n, tasks)], [];
    assert Run(states, actions) && states[0] == Init(n, tasks) && states[|actions|] == Init(n, tasks);
  }

  lemma ReachableStep(s: State, a: Action)
    requires Reachable(s) && Enabled(s, a)
    ensures Reachable(Apply(s, a))
  {
    hide Apply, Enabled, Init;
    var n: nat, tasks: nat, states: seq<State>, actions: seq<Action> :| Run(states, actions) && states[0] == Init(n, tasks) && states[|actions|] == s;
    var longer, acts := states + [Apply(s, a)], actions + [a];
    forall k | 0 <= k < |acts|
      ensures Enabled(longer[k], acts[k]) && longer[k + 1] == Apply(longer[k], acts[k])
    {
      assert k < |actions| ==> longer[k] == states[k] && acts[k] == actions[k] && longer[k + 1] == states[k + 1];
    }
    assert Run(longer, acts) && longer[0] == Init(n, tasks) && longer[|acts|] == Apply(s, a);
  }

  lemma {:induction false} ReachableAlong(s: State, states: seq<State>, actions: seq<Action>, k: nat)
    requires Reachable(s) && Run(states, actions) && states[0] == s && k < |states|
    ensures Reachable(states[k])
  {
    hide Reachable, Apply, Enabled;
    if k > 0 {
      ReachableAlong(s, states, actions, k - 1);
      ReachableStep(states[k - 1], actions[k - 1]);
      assert states[k - 1 + 1] == Apply(states[k - 1], actions[k - 1]);
    }
  }

  const IDLE := Slot(1, true, None, 0, [], None)

  /** Three tasks on three slots; the third slot is never used. */
  function Three(h0: Option<nat>, h1: Option<nat>, f0: bool, f1: bool, free: nat, a: Phase, b: Phase, c: Phase): State {
    State([IDLE.(holder := h0), IDLE.(holder := h1), IDLE], [f0, f1, false], free, false, 3, 2, 2, [a, b, c])
  }

  lemma Goes(s: State, a: Action, s': State)
    requires Reachable(s) && Enabled(s, a) && Apply(s, a) == s'
    ensures Reachable(s')
  {
    hide Reachable, Apply, Enabled;
    ReachableStep(s, a);
  }

  const A_HOLDS := Three(Some(0), None, true, false, 2, Holding(0), Waiting, Waiting)

  lemma InitIs()
    ensures Reachable(Three(None, None, false, false, 3, Waiting, Waiting, Waiting))
  {
    hide Reachable;
    ReachableInit(3, 3);
    assert FreshSlots(3) == [IDLE, IDLE, IDLE];
    assert Init(3, 3) == Three(None, None, false, false, 3, Waiting, Waiting, Waiting);
  }

  /** The first task takes slot 0. */
  lemma FirstHolds()
    ensures Reachable(A_HOLDS)
  {
    hide Reachable;
    InitIs();
    var s0 := Three(None, None, false, false, 3, Waiting, Waiting, Waiting);
    var s1 := Three(None, None, false, false, 2, Permitted, Waiting, Waiting);
    var s2 := Three(None, None, false, false, 2, Scanning(0, 2, false), Waiting, Waiting);
    var s3 := Three(Some(0), None, false, false, 2, Locked(0), Waiting, Waiting);
    Goes(s0, TakePermit(0), s1);
    Goes(s1, StartScan(0), s2);
    Goes(s2, TryLock(0), s3);
    Goes(s3, SetFlag(0), A_HOLDS);
  }

  const B_HOLDS := Three(Some(0), Some(1), true, true, 1, Holding(0), Holding(1), Waiting)

  /** The second takes slot 1... */
  lemma SecondHolds()
    ensures Reachable(B_HOLDS)
  {
    hide Reachable;
    FirstHolds();
    var s1 := Three(Some(0), None, true, false, 1, Holding(0), Permitted, Waiting);
    var s2 := Three(Some(0), None, true, false, 1, Holding(0), Scanning(0, 2, false), Waiting);
    var s3 := Three(Some(0), None, true, false, 1, Holding(0), Scanning(1, 2, true), Waiting);
    var s4 := Three(Some(0), Some(1), true, false, 1, Holding(0), Locked(1), Waiting);
    Goes(A_HOLDS, TakePermit(1), s1);
    Goes(s1, StartScan(1), s2);
    Goes(s2, TryLock(1), s3);
    Goes(s3, TryLock(1), s4);
    Goes(s4, SetFlag(1), B_HOLDS);
  }

  const B_RELEASES := Three(Some(0), None, true, true, 0, Holding(0), Releasing(1, false), Permitted)

  /** ...gives it up, and has unlocked it but not cleared its flag when the third comes along. */
  lemma SecondReleases()
    ensures Reachable(B_RELEASES)
  {
    hide Reachable;
    SecondHolds();
    var s1 := Three(Some(0), Some(1), true, true, 1, Holding(0), Leaving(1, false), Waiting);
    var s2 := Three(Some(0), None, true, true, 1, Holding(0), Releasing(1, false), Waiting);
    Goes(B_HOLDS, GiveUp(1), s1);
    Goes(s1, DropGuard(1), s2);
    Goes(s2, TakePermit(2), B_RELEASES);
  }

  const C_HOLDS := Three(Some(0), Some(2), true, true, 0, Holding(0), Releasing(1, false), Holding(1))

  /** The third takes slot 1... */
  lemma ThirdHolds()
    ensures Reachable(C_HOLDS)
  {
    hide Reachable;
    SecondReleases();
    var s1 := Three(Some(0), None, true, true, 0, Holding(0), Releasing(1, false), Scanning(0, 2, false));
    var s2 := Three(Some(0), None, true, true, 0, Holding(0), Releasing(1, false), Scanning(1, 2, true));
    var s3 := Three(Some(0), Some(2), true, true, 0, Holding(0), Releasing(1, false), Locked(1));
    Goes(B_RELEASES, StartScan(2), s1);
    Goes(s1, TryLock(2), s2);
    Goes(s2, TryLock(2), s3);
    Goes(s3, SetFlag(2), C_HOLDS);
  }

  const C_SENT := C_HOLDS.(slots := [C_HOLDS.slots[0], Slot(1, true, Some(2), 1, [], Some(1)), IDLE],
                           tasks := [Holding(0), Releasing(1, false), Sent(1)])

  /** ...and sends its request. */
  lemma ThirdSends()
    ensures Reachable(C_SENT)
  {
    hide Reachable;
    ThirdHolds();
    var s1 := C_HOLDS.(tasks := [Holding(0), Releasing(1, false), Choosing(1, 2, 2, 3)]);
    var s2 := C_HOLDS.(tasks := [Holding(0), Releasing(1, false), Choosing(1, 2, 2, 2)]);
    var s3 := C_HOLDS.(tasks := [Holding(0), Releasing(1, false), Ready(1, 2, 2, 2)]);
    Goes(C_HOLDS, ReadLimits(2), s1);
    Goes(s1, ReadFlag(2), s2);
    Goes(s2, ReadFlag(2), s3);
    Goes(s3, Send(2), C_SENT);
  }

  /** A request is ready to go out with a highest slot id below a slot in use. */
  lemma UnreportedReachable() returns (s: State, t: nat, u: nat)
    ensures Reachable(s) && t < |s.tasks| && u < |s.tasks| && s.tasks[t].Ready? && s.tasks[u].Sent? && s.tasks[t].highest < s.tasks[u].slot
  {
    hide Reachable, Inv;
    ThirdSends();
    ReachableInv(C_SENT);
    assert C_SENT.tasks[1].Releasing? && C_SENT.tasks[1].slot == 1;
    MissNow(C_SENT, 0, 2, 1, 0);
    hide ChoiceRun;
    var states: seq<State>, actions: seq<Action> :| ChoiceRun(C_SENT, 0, 2, 1, 0, states, actions) && states[|actions|].tasks[0].highest < 1;
    s := MissedEnd(C_SENT, states, actions);
    t, u := 0, 2;
  }

  lemma MissedEnd(s0: State, states: seq<State>, actions: seq<Action>) returns (s: State)
    requires Reachable(s0) && ChoiceRun(s0, 0, 2, 1, 0, states, actions) && states[|actions|].tasks[0].highest < 1
    ensures Reachable(s) && 2 < |s.tasks| && s.tasks[0].Ready? && s.tasks[0].highest < 1 && s.tasks[2] == Sent(1)
  {
    hide Reachable, Apply, Enabled;
    s := states[|actions|];
    ReachableAlong(s0, states, actions, |actions|);
  }
}
