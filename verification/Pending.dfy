/** Pending RPC calls (src/rpc.rs): callers registering, enqueueing and waiting while the reader
    delivers replies and reader or writer may fail at any time, as steps in any order. */
module Pending {
  import opened Errors

  /** What a reply channel is filled with: a reply, or the error of a broken transport. */
  datatype Value = Reply(content: nat) | Broken

  datatype Outcome = NotSent | Stopped | Answered(value: Value) | TimedOut | Cancelled

  datatype Phase =
    | Fresh
    | Opened
    | Registered(xid: nat)
    | Checked(xid: nat)
    | Queued(xid: nat)
    | Waiting(xid: nat)
    | Done(outcome: Outcome)
  {
    predicate Active() {
      Registered? || Checked? || Queued? || Waiting?
    }
  }

  /** A call: where it is, what its reply channel was filled with, whether it reached the queue. */
  datatype Call = Call(phase: Phase, result: Option<Value>, enqueued: bool)

  datatype Entry = Entry(owner: nat, sender: bool)

  datatype Reader = Reading | Took(owner: nat, content: nat) | Closing | Ended

  datatype Writer = Writing | Failing | Stopped

  datatype State = State(calls: seq<Call>, pending: map<nat, Entry>, reader: Reader, writer: Writer, closed: bool, drained: bool)

  datatype Action =
    | CheckOpen(c: nat)
    | Register(c: nat, x: nat)
    | CheckAgain(c: nat)
    | Enqueue(c: nat)
    | CheckThird(c: nat)
    | Receive(c: nat)
    | Expire(c: nat)
    | Cancel(c: nat)
    | ReaderTake(x: nat, content: nat)
    | ReaderSend
    | ReaderFail
    | ReaderDrain
    | WriterFail
    | WriterDrain

  predicate ByCall(a: Action) {
    a.CheckOpen? || a.Register? || a.CheckAgain? || a.Enqueue? || a.CheckThird? || a.Receive? || a.Expire? || a.Cancel?
  }

  predicate Enabled(s: State, a: Action) {
    if ByCall(a) then a.c < |s.calls| && EnabledCall(s, a, s.calls[a.c])
    else
      match a
      case ReaderTake(x, _) => s.reader.Reading? && x in s.pending && s.pending[x].sender
      case ReaderSend => s.reader.Took?
      case ReaderFail => s.reader.Reading?
      case ReaderDrain => s.reader.Closing?
      case WriterFail => s.writer.Writing?
      case _ => s.writer.Failing?
  }

  predicate EnabledCall(s: State, a: Action, call: Call)
    requires ByCall(a)
  {
    match a
    case CheckOpen(_) => call.phase.Fresh?
    case Register(_, x) => call.phase.Opened? && x !in s.pending
    case CheckAgain(_) => call.phase.Registered?
    case Enqueue(_) => call.phase.Checked?
    case CheckThird(_) => call.phase.Queued?
    case Receive(_) => call.phase.Waiting? && call.result.Some?
    case Expire(_) => call.phase.Waiting? && call.result.None?
    case Cancel(_) => call.phase.Active() || call.phase.Opened?
  }

  function NextCall(s: State, a: Action): Call
    requires ByCall(a) && Enabled(s, a)
  {
    var call := s.calls[a.c];
    match a
    case CheckOpen(_) => call.(phase := if s.closed then Done(NotSent) else Opened)
    case Register(_, x) => call.(phase := Registered(x))
    case CheckAgain(_) => call.(phase := if s.closed then Done(NotSent) else Checked(call.phase.xid))
    case Enqueue(_) =>
      if s.writer.Stopped? then call.(phase := Done(NotSent)) else call.(phase := Queued(call.phase.xid), enqueued := true)
    case CheckThird(_) => call.(phase := if s.closed then Done(Outcome.Stopped) else Waiting(call.phase.xid))
    case Receive(_) => call.(phase := Done(Answered(call.result.value)))
    case Expire(_) => call.(phase := Done(TimedOut))
    case Cancel(_) => call.(phase := Done(Cancelled))
  }

  /** A finished call drops its registration, which removes its xid from the table. */
  function NextPending(s: State, a: Action): map<nat, Entry>
    requires Enabled(s, a)
  {
    if a.Register? then s.pending[a.x := Entry(a.c, true)]
    else if ByCall(a) && s.calls[a.c].phase.Active() && NextCall(s, a).phase.Done? then s.pending - {s.calls[a.c].phase.xid}
    else if a.ReaderTake? then s.pending[a.x := s.pending[a.x].(sender := false)]
    else if a.ReaderDrain? || a.WriterDrain? then map[]
    else s.pending
  }

  /** Whose reply channels a step fills. */
  predicate Fills(s: State, a: Action, c: nat)
    requires Enabled(s, a)
  {
    || (a.ReaderSend? && s.reader.owner == c)
    || ((a.ReaderDrain? || a.WriterDrain?) && exists x :: x in s.pending && s.pending[x] == Entry(c, true))
  }

  /** What a step fills reply channels with. */
  function Filling(s: State, a: Action): Value
    requires Enabled(s, a)
  {
    if a.ReaderSend? then Reply(s.reader.content) else Broken
  }

  function NextCalls(s: State, a: Action): seq<Call>
    requires Enabled(s, a)
  {
    if ByCall(a) then s.calls[a.c := NextCall(s, a)]
    else seq(|s.calls|, c requires 0 <= c < |s.calls| => if Fills(s, a, c) then s.calls[c].(result := Some(Filling(s, a))) else s.calls[c])
  }

  function Apply(s: State, a: Action): State
    requires Enabled(s, a)
  {
    State(
      NextCalls(s, a),
      NextPending(s, a),
      if a.ReaderTake? then Took(s.pending[a.x].owner, a.content) else if a.ReaderSend? then Reading
      else if a.ReaderFail? then Closing else if a.ReaderDrain? then Ended else s.reader,
      if a.WriterFail? then Failing else if a.WriterDrain? then Writer.Stopped else s.writer,
      s.closed || a.ReaderFail? || a.WriterFail?,
      s.drained || a.ReaderDrain? || a.WriterDrain?)
  }

  function Init(calls: nat): State {
    State(seq(calls, _ => Call(Fresh, None, false)), map[], Reading, Writing, false, false)
  }

  predicate Run(states: seq<State>, actions: seq<Action>) {
    && |states| == |actions| + 1
    && forall k | 0 <= k < |actions| :: Enabled(states[k], actions[k]) && states[k + 1] == Apply(states[k], actions[k])
  }

  // ---------------------------------------------------------------- invariant

  predicate Listed(s: State, c: nat, x: nat) {
    x in s.pending && s.pending[x] == Entry(c, true)
  }

  /** The reader has the call's reply in hand. */
  predicate Taken(s: State, c: nat) {
    s.reader.Took? && s.reader.owner == c
  }

  /** A call past its first check is answered, being answered, or still listed in a table that
      was not drained. */
  predicate Safe(s: State, c: nat)
    requires c < |s.calls|
  {
    var call := s.calls[c];
    && (call.phase.Active() && (!s.drained || !call.phase.Registered?) ==>
          call.result.Some? || Taken(s, c) || (!s.drained && Listed(s, c, call.phase.xid)))
    && (call.phase.Active() && !s.drained ==> call.phase.xid in s.pending && s.pending[call.phase.xid].owner == c)
    && (call.phase == Done(NotSent) || call.phase.Fresh? || call.phase.Opened? || call.phase.Registered? || call.phase.Checked? ==> !call.enqueued)
  }

  /** Each xid in the table belongs to the live call that registered it. */
  predicate Homed(s: State) {
    forall x | x in s.pending ::
      var o := s.pending[x].owner; o < |s.calls| && s.calls[o].phase.Active() && s.calls[o].phase.xid == x
  }

  predicate Inv(s: State) {
    && Homed(s)
    && (s.drained ==> s.closed)
    && (s.reader.Closing? || s.reader.Ended? || s.writer.Failing? || s.writer.Stopped? ==> s.closed)
    && (s.reader.Ended? || s.writer.Stopped? ==> s.drained)
    && forall c | 0 <= c < |s.calls| :: Safe(s, c)
  }

  lemma SafeByCall(s: State, a: Action, c: nat)
    requires Inv(s) && ByCall(a) && Enabled(s, a) && c < |s.calls|
    ensures |NextCalls(s, a)| == |s.calls| && Safe(Apply(s, a), c)
  {
    hide Homed;
    assert Safe(s, c) && Safe(s, a.c);
  }

  lemma SafeByTransport(s: State, a: Action, c: nat)
    requires Inv(s) && !ByCall(a) && Enabled(s, a) && c < |s.calls|
    ensures |NextCalls(s, a)| == |s.calls| && Safe(Apply(s, a), c)
  {
    assert Safe(s, c);
    if Listed(s, c, if s.calls[c].phase.Active() then s.calls[c].phase.xid else 0) {
      assert (a.ReaderDrain? || a.WriterDrain?) ==> Fills(s, a, c);
    }
  }

  lemma HomedStep(s: State, a: Action)
    requires Homed(s) && Enabled(s, a)
    ensures Homed(Apply(s, a))
  {
  }

  lemma InvStep(s: State, a: Action)
    requires Inv(s) && Enabled(s, a)
    ensures Inv(Apply(s, a))
  {
    hide Safe, Homed, NextPending, NextCalls;
    HomedStep(s, a);
    forall c | 0 <= c < |s.calls|
      ensures |NextCalls(s, a)| == |s.calls| && Safe(Apply(s, a), c)
    {
      if ByCall(a) {
        SafeByCall(s, a, c);
      } else {
        SafeByTransport(s, a, c);
      }
    }
    CallCount(s, a);
  }

  lemma CallCount(s: State, a: Action)
    requires Enabled(s, a)
    ensures |NextCalls(s, a)| == |s.calls|
  {
  }

  lemma {:induction false} RunInv(calls: nat, states: seq<State>, actions: seq<Action>, k: nat)
    requires Run(states, actions) && states[0] == Init(calls) && k < |states|
    ensures Inv(states[k])
  {
    if k > 0 {
      hide Inv, Apply, Enabled;
      RunInv(calls, states, actions, k - 1);
      InvStep(states[k - 1], actions[k - 1]);
    }
  }

  // ---------------------------------------------------------------- no orphaned call

  /** `s` is a state of some run. */
  ghost predicate Reachable(s: State) {
    exists calls: nat, states: seq<State>, actions: seq<Action> :: Run(states, actions) && states[0] == Init(calls) && states[|actions|] == s
  }

  lemma ReachableInv(s: State)
    requires Reachable(s)
    ensures Inv(s)
  {
    hide Inv, Init, Apply, Enabled;
    var calls: nat, states: seq<State>, actions: seq<Action> :| Run(states, actions) && states[0] == Init(calls) && states[|actions|] == s;
    RunInv(calls, states, actions, |actions|);
  }

  /** A waiting call without a result is being answered or still listed for the next failure to
      find; once the reader has ended, every waiting call has its result. */
  lemma NoOrphan(s: State, c: nat)
    requires Reachable(s) && c < |s.calls| && s.calls[c].phase.Waiting?
    ensures s.calls[c].result.Some? || Taken(s, c) || (!s.drained && Listed(s, c, s.calls[c].phase.xid))
    ensures s.reader.Ended? ==> s.calls[c].result.Some?
  {
    hide Reachable;
    ReachableInv(s);
    assert Safe(s, c);
  }

  /** A reply is handed to the live call that registered its xid. */
  lemma RepliesGoHome(s: State, x: nat, content: nat)
    requires Reachable(s) && Enabled(s, ReaderTake(x, content))
    ensures Apply(s, ReaderTake(x, content)).reader.Took?
    ensures var c := Apply(s, ReaderTake(x, content)).reader.owner; c < |s.calls| && s.calls[c].phase.Active() && s.calls[c].phase.xid == x
  {
    hide Reachable;
    ReachableInv(s);
  }

  /** "Not sent" is never said of a request that reached the queue. */
  lemma NotSentIsTrue(s: State, c: nat)
    requires Reachable(s) && c < |s.calls| && s.calls[c].phase == Done(NotSent)
    ensures !s.calls[c].enqueued
  {
    hide Reachable;
    ReachableInv(s);
    assert Safe(s, c);
  }

  // ---------------------------------------------------------------- what a call is told

  /** The step that ends call `c` with outcome `o`: it takes what its channel holds, its timeout fires
      while the channel is empty, it is dropped, or it finds the transport closed. */
  predicate Ends(s: State, a: Action, c: nat, o: Outcome) {
    && c < |s.calls|
    && match o
       case Answered(value) => a == Receive(c) && s.calls[c].result == Some(value)
       case TimedOut => a == Expire(c) && s.calls[c].result.None?
       case Cancelled => a == Cancel(c)
       case NotSent => ((a == CheckOpen(c) || a == CheckAgain(c)) && s.closed) || (a == Enqueue(c) && s.writer.Stopped?)
       case Stopped => a == CheckThird(c) && s.closed
  }

  lemma EndStep(s: State, a: Action, c: nat)
    requires Enabled(s, a) && c < |s.calls|
    ensures c < |Apply(s, a).calls| == |s.calls|
    ensures s.calls[c].phase.Done? ==> Apply(s, a).calls[c].phase == s.calls[c].phase
    ensures !s.calls[c].phase.Done? ==> forall o :: Apply(s, a).calls[c].phase == Done(o) <==> Ends(s, a, c, o)
    ensures s.calls[c].phase.Done? ==> forall o :: !Ends(s, a, c, o)
  {
    hide NextPending, NextCalls, NextCall, EnabledCall, Ends;
    CallTotal(s, a);
    if ByCall(a) && a.c == c {
      OwnStep(s, a, c);
    } else {
      OtherStep(s, a, c);
    }
  }

  lemma OwnStep(s: State, a: Action, c: nat)
    requires Enabled(s, a) && c < |s.calls| && ByCall(a) && a.c == c
    ensures NextCalls(s, a)[c] == NextCall(s, a) && !s.calls[c].phase.Done?
    ensures forall o :: NextCall(s, a).phase == Done(o) <==> Ends(s, a, c, o)
  {
  }

  lemma OtherStep(s: State, a: Action, c: nat)
    requires Enabled(s, a) && c < |s.calls| && !(ByCall(a) && a.c == c)
    ensures |NextCalls(s, a)| == |s.calls| && NextCalls(s, a)[c].phase == s.calls[c].phase
    ensures forall o :: !Ends(s, a, c, o)
  {
    hide Fills, Filling, NextCall, EnabledCall;
  }

  /** A call has ended with an outcome exactly when the step for it was taken. */
  lemma {:induction false} OutcomeExactlyWhen(calls: nat, states: seq<State>, actions: seq<Action>, k: nat, c: nat, o: Outcome)
    requires Run(states, actions) && states[0] == Init(calls) && k < |states| && c < calls
    ensures c < |states[k].calls|
    ensures states[k].calls[c].phase == Done(o) <==> exists n | 0 <= n < k :: Ends(states[n], actions[n], c, o)
  {
    hide Apply, Enabled, Ends;
    if k > 0 {
      OutcomeExactlyWhen(calls, states, actions, k - 1, c, o);
      var s, a := states[k - 1], actions[k - 1];
      assert states[k - 1 + 1] == Apply(s, a);
      EndStep(s, a, c);
      if Ends(s, a, c, o) {
        assert Ends(states[k - 1], actions[k - 1], c, o);
      }
    }
  }

  /** The step that brought what call `c` was told: a reply read for the xid it is registered under, or
      a failed transport while it was listed. */
  predicate Brings(s: State, a: Action, c: nat, value: Value) {
    && c < |s.calls|
    && match value
       case Reply(content) => s.calls[c].phase.Active() && a == ReaderTake(s.calls[c].phase.xid, content)
       case Broken => (a.ReaderDrain? || a.WriterDrain?) && s.calls[c].phase.Active() && Listed(s, c, s.calls[c].phase.xid)
  }

  lemma {:induction false} TakenFrom(calls: nat, states: seq<State>, actions: seq<Action>, k: nat) returns (m: nat)
    requires Run(states, actions) && states[0] == Init(calls) && k < |states| && states[k].reader.Took?
    ensures m < k && Brings(states[m], actions[m], states[k].reader.owner, Reply(states[k].reader.content))
  {
    hide NextCalls, NextPending, Inv;
    var s, a := states[k - 1], actions[k - 1];
    assert states[k - 1 + 1] == Apply(s, a);
    if a.ReaderTake? {
      m := k - 1;
      RunInv(calls, states, actions, m);
      TakeIsHome(s, a.x);
    } else {
      m := TakenFrom(calls, states, actions, k - 1);
    }
  }

  lemma TakeIsHome(s: State, x: nat)
    requires Inv(s) && x in s.pending
    ensures var o := s.pending[x].owner; o < |s.calls| && s.calls[o].phase.Active() && s.calls[o].phase.xid == x
  {
  }

  lemma FilledBy(s: State, a: Action, c: nat)
    requires Inv(s) && Enabled(s, a) && c < |s.calls|
    ensures c < |Apply(s, a).calls|
    ensures Apply(s, a).calls[c].result != s.calls[c].result ==>
      || (a.ReaderSend? && Taken(s, c) && Apply(s, a).calls[c].result == Some(Reply(s.reader.content)))
      || (Apply(s, a).calls[c].result == Some(Broken) && Brings(s, a, c, Broken))
  {
    hide NextPending, Safe;
    if !ByCall(a) && Fills(s, a, c) && !a.ReaderSend? {
      var x :| x in s.pending && s.pending[x] == Entry(c, true);
      TakeIsHome(s, x);
    }
  }

  /** Whatever a call was told came from such a step: no reply of another call, none made up. */
  lemma {:induction false} ToldFrom(calls: nat, states: seq<State>, actions: seq<Action>, k: nat, c: nat) returns (m: nat)
    requires Run(states, actions) && states[0] == Init(calls) && k < |states| && c < |states[k].calls| && states[k].calls[c].result.Some?
    ensures m < k && Brings(states[m], actions[m], c, states[k].calls[c].result.value)
  {
    hide Apply, Enabled, Inv, Brings;
    if k == 0 {
      assert false;
    } else {
      var s, a := states[k - 1], actions[k - 1];
      assert states[k - 1 + 1] == Apply(s, a);
      RunInv(calls, states, actions, k - 1);
      CallTotal(s, a);
      FilledBy(s, a, c);
      if states[k].calls[c].result == s.calls[c].result {
        m := ToldFrom(calls, states, actions, k - 1, c);
      } else if states[k].calls[c].result == Some(Broken) {
        m := k - 1;
      } else {
        m := TakenFrom(calls, states, actions, k - 1);
      }
    }
  }

  lemma CallTotal(s: State, a: Action)
    requires Enabled(s, a)
    ensures |Apply(s, a).calls| == |s.calls|
  {
    hide NextPending;
  }

  /** A call that ends answered was told what was read for its own xid while it was registered, or that
      the transport failed then, and took it before its timeout. */
  lemma AnsweredWithItsOwn(calls: nat, states: seq<State>, actions: seq<Action>, k: nat, c: nat) returns (m: nat, n: nat)
    requires Run(states, actions) && states[0] == Init(calls) && k < |states| && c < calls && c < |states[k].calls|
    requires states[k].calls[c].phase.Done? && states[k].calls[c].phase.outcome.Answered?
    ensures m < n < k && actions[n] == Receive(c) && Brings(states[m], actions[m], c, states[k].calls[c].phase.outcome.value)
  {
    hide Apply, Enabled, Brings;
    var o := states[k].calls[c].phase.outcome;
    OutcomeExactlyWhen(calls, states, actions, k, c, o);
    n :| 0 <= n < k && Ends(states[n], actions[n], c, o);
    m := ToldFrom(calls, states, actions, n, c);
  }
}
