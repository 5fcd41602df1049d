/** The pipelined upload of src/client.rs: up to `depth` chunk writers in flight, served by the
    server in any order and collected in any order. Each `WRITE` is one atomic step; its order
    among the others is arbitrary. */
module PipelinedWrite {
  import opened Errors
  import opened Server
  import opened ServerLemmas
  import opened Decode
  import opened Runs
  import opened Content
  import opened Fused
  import opened Session
  import opened Uploading

  /** One `write_chunk` future: its first WRITE and what `write_chunk_all` added after it. */
  datatype Task = Task(start: nat, done: nat, end: nat, first: WriteOutcome, rest: WriteOutcome, failed: Option<Error>)
  {
    predicate Finished() {
      failed.Some? || start + done >= end
    }

    function Outcome(): Result<WriteOutcome, Error> {
      if failed.Some? then Err(failed.value) else first.Merge(rest)
    }
  }

  function Left(t: Task): nat {
    if t.Finished() then 0 else t.end - t.start - t.done
  }

  function Width(t: Task): nat {
    if t.start < t.end then t.end - t.start else 0
  }

  function Total(tasks: seq<Task>, f: Task -> nat): nat {
    if tasks == [] then 0 else Total(tasks[..|tasks| - 1], f) + f(tasks[|tasks| - 1])
  }

  lemma {:induction false} TotalSplit(a: seq<Task>, b: seq<Task>, f: Task -> nat)
    ensures Total(a + b, f) == Total(a, f) + Total(b, f)
  {
    if b == [] {
      assert a + b == a;
    } else {
      TotalSplit(a, b[..|b| - 1], f);
      assert (a + b)[..|a + b| - 1] == a + b[..|b| - 1];
    }
  }

  lemma TotalAt(tasks: seq<Task>, i: nat, t: Task, f: Task -> nat)
    requires i < |tasks|
    ensures Total(tasks[i := t], f) == Total(tasks, f) - f(tasks[i]) + f(t)
    ensures Total(tasks[..i] + tasks[i + 1..], f) == Total(tasks, f) - f(tasks[i])
  {
    assert tasks == tasks[..i] + [tasks[i]] + tasks[i + 1..];
    assert tasks[i := t] == tasks[..i] + [t] + tasks[i + 1..];
    TotalSplit(tasks[..i] + [tasks[i]], tasks[i + 1..], f);
    TotalSplit(tasks[..i], [tasks[i]], f);
    TotalSplit(tasks[..i] + [t], tasks[i + 1..], f);
    TotalSplit(tasks[..i], [t], f);
    TotalSplit(tasks[..i], tasks[i + 1..], f);
  }

  // ---------------------------------------------------------------- what holds throughout

  predicate Shaped(t: Task, next: nat) {
    && t.start < t.end <= next && t.start + t.done <= t.end
    && (t.failed.Some? ==> t.failed.value.SessionLevel())
    && t.first.bytes + t.rest.bytes == t.done
    && (t.done == 0 ==> t.first == NOTHING_WRITTEN) && (t.first.bytes == 0 ==> t.done == 0)
  }

  /** Chunks are taken in order and never overlap. */
  predicate InOrder(tasks: seq<Task>, next: nat) {
    && (forall i | 0 <= i < |tasks| :: Shaped(tasks[i], next))
    && forall i, j | 0 <= i < j < |tasks| :: tasks[i].end <= tasks[j].start
  }

  predicate TaskKept(s: State, fid: Fid, body: seq<Byte>, t: Task) {
    && Kept(s, fid, body, t.start, t.start + t.first.bytes, t.first.verifier)
    && Kept(s, fid, body, t.start + t.first.bytes, t.start + t.first.bytes + t.rest.bytes, t.rest.verifier)
  }

  predicate InTask(t: Task, p: nat) {
    t.start <= p < t.end
  }

  predicate Collected(tasks: seq<Task>, next: nat, p: nat) {
    p < next && forall i | 0 <= i < |tasks| :: !InTask(tasks[i], p)
  }

  /** Every byte handed out is either in a chunk still in flight or safe on the terms of the
      outcome collected so far. */
  ghost predicate Accounted(s: State, fid: Fid, body: seq<Byte>, tasks: seq<Task>, next: nat, v: Option<nat>) {
    && Own(s, fid)
    && (forall i | 0 <= i < |tasks| :: TaskKept(s, fid, body, tasks[i]))
    && forall p: nat | Collected(tasks, next, p) :: Kept(s, fid, body, p, p + 1, v)
  }

  predicate Clean(tasks: seq<Task>, firstError: Option<Error>) {
    firstError.None? && forall i | 0 <= i < |tasks| :: tasks[i].failed.None?
  }

  predicate From(o: WriteOutcome, boot: nat) {
    o.verifier.Some? ==> o.verifier.value == boot
  }

  predicate OneBoot(tasks: seq<Task>, o: WriteOutcome, boot: nat) {
    From(o, boot) && forall i | 0 <= i < |tasks| :: From(tasks[i].first, boot) && From(tasks[i].rest, boot)
  }

  // ---------------------------------------------------------------- one WRITE of one chunk

  /** The chunk after a reply for its remaining bytes. */
  function Advanced(t: Task, w: WriteData): (t': Task)
    requires !t.Finished()
  {
    var count := ValidateWriteReply(w, t.end - t.start - t.done);
    if count.Err? then t.(failed := Some(count.error))
    else
      var part := WriteOutcome(count.value, Promise(w));
      if t.done == 0 then t.(done := count.value, first := part)
      else
        var merged := t.rest.Merge(part);
        if merged.Err? then t.(failed := Some(merged.error))
        else t.(done := t.done + count.value, rest := merged.value)
  }

  lemma AdvancedShaped(t: Task, w: WriteData, next: nat)
    requires !t.Finished() && Shaped(t, next)
    ensures Shaped(Advanced(t, w), next) && Left(Advanced(t, w)) < Left(t)
    ensures Advanced(t, w).start == t.start && Advanced(t, w).end == t.end
  {
  }

  lemma AdvancedKept(s: State, s': State, fid: Fid, body: seq<Byte>, t: Task, w: WriteData, next: nat)
    requires !t.Finished() && Shaped(t, next) && TaskKept(s, fid, body, t) && Advanced(t, w).failed.None?
    requires Stored(s, s', fid, body, t.start + t.done, t.end - t.start - t.done, w)
    ensures TaskKept(s', fid, body, Advanced(t, w))
  {
    hide Kept, Evolves;
    var x, t' := Extent(fid, t.start + t.done, t.end, {}), Advanced(t, w);
    var mid, lo := t.start + t.first.bytes, t.start + t.done;
    KeptEvolves(s, s', x, fid, body, t.start, mid, t.first.verifier);
    KeptEvolves(s, s', x, fid, body, mid, lo, t.rest.verifier);
    if t.done == 0 {
      OwnKept(s', fid, body, t.start, mid, t.first.verifier);
      KeptUpTo(s', fid, body, t.start, lo + w.count, Promise(w));
      KeptNothing(s', fid, body, t.start + w.count, t'.rest.verifier);
    } else {
      var part := WriteOutcome(w.count, Promise(w));
      MergeKeeps(s', fid, body, t.rest, part, mid, lo);
      MergeKeeps(s', fid, body, t.rest, part, lo, lo + w.count);
      KeptJoin(s', fid, body, mid, lo, lo + w.count, t'.rest.verifier);
    }
  }

  lemma KeptUpTo(s: State, fid: Fid, body: seq<Byte>, lo: nat, hi: nat, v: Option<nat>)
    requires Kept(s, fid, body, lo, hi, v)
    ensures hi <= |body|
  {
  }

  lemma AdvancedAccounted(s: State, s': State, fid: Fid, body: seq<Byte>, tasks: seq<Task>, i: nat, w: WriteData, next: nat, v: Option<nat>)
    requires i < |tasks| && !tasks[i].Finished() && InOrder(tasks, next) && Accounted(s, fid, body, tasks, next, v)
    requires Advanced(tasks[i], w).failed.None?
    requires Stored(s, s', fid, body, tasks[i].start + tasks[i].done, tasks[i].end - tasks[i].start - tasks[i].done, w)
    ensures Accounted(s', fid, body, tasks[i := Advanced(tasks[i], w)], next, v)
  {
    hide Kept, Evolves, Own, Advanced;
    var t := tasks[i];
    var tasks', x := tasks[i := Advanced(t, w)], Extent(fid, t.start + t.done, t.end, {});
    AdvancedShaped(t, w, next);
    OwnEvolves(s, s', x, fid);
    forall j | 0 <= j < |tasks'|
      ensures TaskKept(s', fid, body, tasks'[j])
    {
      if j == i {
        AdvancedKept(s, s', fid, body, t, w, next);
      } else {
        var u := tasks[j];
        KeptEvolves(s, s', x, fid, body, u.start, u.start + u.first.bytes, u.first.verifier);
        KeptEvolves(s, s', x, fid, body, u.start + u.first.bytes, u.start + u.done, u.rest.verifier);
      }
    }
    forall p: nat | Collected(tasks', next, p)
      ensures Kept(s', fid, body, p, p + 1, v)
    {
      forall j | 0 <= j < |tasks|
        ensures !InTask(tasks[j], p)
      {
        assert !InTask(tasks'[j], p);
      }
      assert Collected(tasks, next, p);
      KeptEvolves(s, s', x, fid, body, p, p + 1, v);
    }
  }

  // ---------------------------------------------------------------- one finished chunk collected

  function Removed(tasks: seq<Task>, i: nat): seq<Task>
    requires i < |tasks|
  {
    tasks[..i] + tasks[i + 1..]
  }

  lemma CollectedAccounted(s: State, fid: Fid, body: seq<Byte>, tasks: seq<Task>, i: nat, next: nat, o: WriteOutcome, part: WriteOutcome)
    requires i < |tasks| && tasks[i].Finished() && InOrder(tasks, next) && Accounted(s, fid, body, tasks, next, o.verifier)
    requires tasks[i].Outcome() == Ok(part) && o.Merge(part).Ok?
    ensures Accounted(s, fid, body, Removed(tasks, i), next, o.Merge(part).value.verifier)
  {
    hide Kept, Own;
    var t, v := tasks[i], o.Merge(part).value.verifier;
    var mid := t.start + t.first.bytes;
    MergeKeeps(s, fid, body, t.first, t.rest, t.start, mid);
    MergeKeeps(s, fid, body, t.first, t.rest, mid, t.end);
    KeptJoin(s, fid, body, t.start, mid, t.end, part.verifier);
    MergeKeeps(s, fid, body, o, part, t.start, t.end);
    forall p: nat | Collected(Removed(tasks, i), next, p)
      ensures Kept(s, fid, body, p, p + 1, v)
    {
      if InTask(t, p) {
        KeptWithin(s, fid, body, t.start, t.end, p, v);
      } else {
        forall j | 0 <= j < |tasks|
          ensures !InTask(tasks[j], p)
        {
          assert j < i ==> tasks[j] == Removed(tasks, i)[j];
          assert j > i ==> tasks[j] == Removed(tasks, i)[j - 1];
        }
        assert Collected(tasks, next, p);
        MergeKeeps(s, fid, body, o, part, p, p + 1);
      }
    }
  }

  lemma KeptWithin(s: State, fid: Fid, body: seq<Byte>, lo: nat, hi: nat, p: nat, v: Option<nat>)
    requires Kept(s, fid, body, lo, hi, v) && lo <= p < hi
    ensures Kept(s, fid, body, p, p + 1, v)
  {
  }

  lemma AllCollected(s: State, fid: Fid, body: seq<Byte>, v: Option<nat>)
    requires Accounted(s, fid, body, [], |body|, v)
    ensures Kept(s, fid, body, 0, |body|, v)
  {
    forall i: nat | i < |body|
      ensures Held(s, fid, body, i, v)
    {
      assert Collected([], |body|, i);
    }
  }

  lemma PushedAccounted(s: State, fid: Fid, body: seq<Byte>, tasks: seq<Task>, next: nat, end: nat, v: Option<nat>)
    requires next < end <= |body| && InOrder(tasks, next) && Accounted(s, fid, body, tasks, next, v)
    ensures Accounted(s, fid, body, tasks + [Task(next, 0, end, NOTHING_WRITTEN, NOTHING_WRITTEN, None)], end, v)
  {
    hide Kept, Own;
    var t := Task(next, 0, end, NOTHING_WRITTEN, NOTHING_WRITTEN, None);
    KeptNothing(s, fid, body, next, None);
    forall p: nat | Collected(tasks + [t], end, p)
      ensures Kept(s, fid, body, p, p + 1, v)
    {
      assert !InTask((tasks + [t])[|tasks|], p);
      forall j | 0 <= j < |tasks|
        ensures !InTask(tasks[j], p)
      {
        assert !InTask((tasks + [t])[j], p);
      }
      assert Collected(tasks, next, p);
    }
  }

  // ---------------------------------------------------------------- the loop

  /** The loop invariant, over what the session can see. */
  ghost predicate Going(v: View, file: TempFile, body: seq<Byte>, tasks: seq<Task>, next: nat, o: WriteOutcome, firstError: Option<Error>) {
    && InOrder(tasks, next) && next <= |body|
    && (Clean(tasks, firstError) ==> Accounted(v.s, file.fid, body, tasks, next, o.verifier) && Leads(v.s, file.name, file.fid))
    && (!v.ambiguous ==> OneBoot(tasks, o, v.s.boot))
    && (v.calm ==> Clean(tasks, firstError) && !v.ambiguous)
  }

  lemma InOrderAt(tasks: seq<Task>, i: nat, t': Task, next: nat)
    requires i < |tasks| && InOrder(tasks, next)
    requires Shaped(t', next) && t'.start == tasks[i].start && t'.end == tasks[i].end
    ensures InOrder(tasks[i := t'], next)
  {
    hide Shaped;
  }

  lemma OneBootAt(tasks: seq<Task>, i: nat, t': Task, o: WriteOutcome, boot: nat)
    requires i < |tasks| && OneBoot(tasks, o, boot) && From(t'.first, boot) && From(t'.rest, boot)
    ensures OneBoot(tasks[i := t'], o, boot)
  {
    hide From;
  }

  /** A failed request leaves the rest as it was, but the upload is no longer clean. */
  lemma FailedGoing(v: View, v': View, file: TempFile, body: seq<Byte>, tasks: seq<Task>, i: nat, e: Error, next: nat, o: WriteOutcome, firstError: Option<Error>)
    requires Going(v, file, body, tasks, next, o, firstError) && i < |tasks|
    requires e.SessionLevel() && !v'.calm && (!v'.ambiguous ==> !v.ambiguous && v.s.boot == v'.s.boot)
    ensures Going(v', file, body, tasks[i := tasks[i].(failed := Some(e))], next, o, firstError)
  {
    hide Accounted, Leads, InOrder, OneBoot;
    var t' := tasks[i].(failed := Some(e));
    assert !Clean(tasks[i := t'], firstError) by { assert tasks[i := t'][i] == t'; }
    ShapedAt(tasks, i, next);
    InOrderAt(tasks, i, t', next);
    if !v'.ambiguous {
      assert OneBoot(tasks, o, v.s.boot);
      BootAt(tasks, i, o, v.s.boot);
      OneBootAt(tasks, i, t', o, v.s.boot);
    }
  }

  lemma ShapedAt(tasks: seq<Task>, i: nat, next: nat)
    requires i < |tasks| && InOrder(tasks, next)
    ensures Shaped(tasks[i], next)
  {
  }

  lemma BootAt(tasks: seq<Task>, i: nat, o: WriteOutcome, boot: nat)
    requires i < |tasks| && OneBoot(tasks, o, boot)
    ensures From(o, boot) && From(tasks[i].first, boot) && From(tasks[i].rest, boot)
  {
  }

  lemma AdvancedBoot(t: Task, w: WriteData, boot: nat)
    requires !t.Finished() && From(t.first, boot) && From(t.rest, boot) && w.verifier == boot
    ensures From(Advanced(t, w).first, boot) && From(Advanced(t, w).rest, boot)
    ensures w.count == t.end - t.start - t.done ==> Advanced(t, w).failed.None?
  {
  }

  lemma AdvancedGoing(v: View, v': View, file: TempFile, body: seq<Byte>, tasks: seq<Task>, i: nat, w: WriteData, next: nat, o: WriteOutcome, firstError: Option<Error>)
    requires Going(v, file, body, tasks, next, o, firstError) && i < |tasks| && !tasks[i].Finished()
    requires (v'.calm ==> v.calm && !v'.ambiguous) && (!v'.ambiguous ==> !v.ambiguous && v.s.boot == v'.s.boot)
    requires Own(v.s, file.fid) ==> Stored(v.s, v'.s, file.fid, body, tasks[i].start + tasks[i].done, Left(tasks[i]), w)
    requires !v'.ambiguous ==> w.verifier == v'.s.boot
    requires v'.calm ==> w.count == Left(tasks[i])
    ensures Going(v', file, body, tasks[i := Advanced(tasks[i], w)], next, o, firstError)
  {
    hide Accounted, Leads, InOrder, OneBoot, Own, Stored, Advanced, Clean, From;
    var t, t' := tasks[i], Advanced(tasks[i], w);
    ShapedAt(tasks, i, next);
    AdvancedShaped(t, w, next);
    InOrderAt(tasks, i, t', next);
    if !v'.ambiguous {
      BootAt(tasks, i, o, v.s.boot);
      AdvancedBoot(t, w, v.s.boot);
      OneBootAt(tasks, i, t', o, v.s.boot);
    }
    if Clean(tasks[i := t'], firstError) {
      StillClean(tasks, i, t', firstError);
      AccountedOwn(v.s, file.fid, body, tasks, next, o.verifier);
      AdvancedAccounted(v.s, v'.s, file.fid, body, tasks, i, w, next, o.verifier);
      StoredEvolves(v.s, v'.s, file.fid, body, t.start + t.done, Left(t), w);
      LeadsEvolves(v.s, v'.s, Extent(file.fid, t.start + t.done, t.end, {}), file.name, file.fid);
    } else if v'.calm {
      CleanAt(tasks, i, t', firstError);
    }
  }

  lemma CleanAt(tasks: seq<Task>, i: nat, t': Task, firstError: Option<Error>)
    requires i < |tasks| && Clean(tasks, firstError) && t'.failed.None?
    ensures Clean(tasks[i := t'], firstError)
  {
  }

  lemma StillClean(tasks: seq<Task>, i: nat, t': Task, firstError: Option<Error>)
    requires i < |tasks| && !tasks[i].Finished() && Clean(tasks[i := t'], firstError)
    ensures Clean(tasks, firstError) && t'.failed.None?
  {
    assert tasks[i := t'][i] == t';
    forall j | 0 <= j < |tasks|
      ensures tasks[j].failed.None?
    {
      assert j != i ==> tasks[i := t'][j] == tasks[j];
    }
  }

  lemma AccountedOwn(s: State, fid: Fid, body: seq<Byte>, tasks: seq<Task>, next: nat, v: Option<nat>)
    requires Accounted(s, fid, body, tasks, next, v)
    ensures Own(s, fid)
  {
  }

  lemma StoredEvolves(s0: State, s1: State, fid: Fid, body: seq<Byte>, off: nat, len: nat, w: WriteData)
    requires Stored(s0, s1, fid, body, off, len, w)
    ensures Evolves(s0, s1, Extent(fid, off, off + len, {}))
  {
  }

  /** Lets one unfinished chunk make one request. */
  method Advance(session: NfsSession, file: TempFile, body: seq<Byte>, tasks: seq<Task>, i: nat, ghost next: nat, ghost o: WriteOutcome, ghost firstError: Option<Error>)
    returns (r: seq<Task>)
    requires session.Ready() && file.fid in session.s.files && i < |tasks| && !tasks[i].Finished()
    requires Going(session.Now(), file, body, tasks, next, o, firstError)
    modifies session`s, session`calls, session`ambiguous, session`calm
    ensures session.Ready() && file.fid in session.s.files && Quietly(old(session.Now()), session.Now())
    ensures |r| == |tasks| && Total(r, Left) < Total(tasks, Left) && Total(r, Width) == Total(tasks, Width)
    ensures Going(session.Now(), file, body, r, next, o, firstError)
  {
    hide Valid, Quietly, Own, Going, Stored, Total, Advanced, ValidateWriteReply;
    ghost var v := session.Now();
    var t := tasks[i];
    GoingShaped(v, file, body, tasks, i, next, o, firstError);
    var reply := WriteOnce(session, file.fid, body, t.start + t.done, t.end - t.start - t.done);
    QuietBoot(v, session.Now());
    var t';
    if reply.Err? {
      t' := t.(failed := Some(reply.error));
      FailedGoing(v, session.Now(), file, body, tasks, i, reply.error, next, o, firstError);
    } else {
      t' := Advanced(t, reply.value);
      AdvancedShaped(t, reply.value, next);
      AdvancedGoing(v, session.Now(), file, body, tasks, i, reply.value, next, o, firstError);
    }
    r := tasks[i := t'];
    TotalAt(tasks, i, t', Left);
    TotalAt(tasks, i, t', Width);
  }

  lemma GoingShaped(v: View, file: TempFile, body: seq<Byte>, tasks: seq<Task>, i: nat, next: nat, o: WriteOutcome, firstError: Option<Error>)
    requires Going(v, file, body, tasks, next, o, firstError) && i < |tasks|
    ensures Shaped(tasks[i], next) && next <= |body|
  {
  }

  // ---------------------------------------------------------------- collecting and starting chunks

  function Insert(first: Option<Error>, e: Error): Option<Error> {
    if first.Some? then first else Some(e)
  }

  /** Merges a finished chunk into the outcome, keeping the first error. */
  function Collect(o: WriteOutcome, firstError: Option<Error>, part: Result<WriteOutcome, Error>): (WriteOutcome, Option<Error>) {
    match part
    case Err(e) => (o, Insert(firstError, e))
    case Ok(p) =>
      match o.Merge(p)
      case Err(e) => (WriteOutcome(o.bytes + p.bytes, o.verifier), Insert(firstError, e))
      case Ok(merged) => (merged, firstError)
  }

  lemma CollectGoing(v: View, file: TempFile, body: seq<Byte>, tasks: seq<Task>, i: nat, next: nat, o: WriteOutcome, firstError: Option<Error>)
    requires Going(v, file, body, tasks, next, o, firstError) && i < |tasks| && tasks[i].Finished()
    requires firstError.Some? ==> firstError.value.SessionLevel()
    ensures var (o', e') := Collect(o, firstError, tasks[i].Outcome());
            && Going(v, file, body, Removed(tasks, i), next, o', e')
            && (e'.Some? ==> e'.value.SessionLevel())
            && (e'.None? ==> o'.bytes == o.bytes + Width(tasks[i]))
  {
    hide Accounted, Leads, From, InOrder, OneBoot, Clean;
    var (o', e') := Collect(o, firstError, tasks[i].Outcome());
    var t, rest := tasks[i], Removed(tasks, i);
    ShapedAt(tasks, i, next);
    RemovedInOrder(tasks, i, next);
    if !v.ambiguous {
      BootAt(tasks, i, o, v.s.boot);
      MergeFrom(t.first, t.rest, v.s.boot);
      if t.failed.None? {
        MergeFrom(o, t.Outcome().value, v.s.boot);
      }
      RemovedOneBoot(tasks, i, o, o', v.s.boot);
    }
    RemovedClean(tasks, i, firstError);
    assert Clean(rest, e') ==> e' == firstError && firstError.None? by { CleanNone(rest, e'); }
    if Clean(rest, e') {
      CollectedAccounted(v.s, file.fid, body, tasks, i, next, o, t.Outcome().value);
    }
  }

  lemma RemovedInOrder(tasks: seq<Task>, i: nat, next: nat)
    requires i < |tasks| && InOrder(tasks, next)
    ensures InOrder(Removed(tasks, i), next)
  {
    hide Shaped;
  }

  lemma RemovedOneBoot(tasks: seq<Task>, i: nat, o: WriteOutcome, o': WriteOutcome, boot: nat)
    requires i < |tasks| && OneBoot(tasks, o, boot) && From(o', boot)
    ensures OneBoot(Removed(tasks, i), o', boot)
  {
    hide From;
  }

  lemma RemovedClean(tasks: seq<Task>, i: nat, firstError: Option<Error>)
    requires i < |tasks|
    ensures Clean(tasks, firstError) <==> Clean(Removed(tasks, i), firstError) && tasks[i].failed.None?
  {
    var rest := Removed(tasks, i);
    if Clean(rest, firstError) && tasks[i].failed.None? {
      forall j | 0 <= j < |tasks|
        ensures tasks[j].failed.None?
      {
        assert j < i ==> tasks[j] == rest[j];
        assert j > i ==> tasks[j] == rest[j - 1];
      }
    }
  }

  lemma CleanNone(tasks: seq<Task>, firstError: Option<Error>)
    ensures Clean(tasks, firstError) ==> firstError.None?
  {
  }

  lemma MergeFrom(a: WriteOutcome, b: WriteOutcome, boot: nat)
    requires From(a, boot) && From(b, boot)
    ensures a.Merge(b).Ok? && From(a.Merge(b).value, boot)
  {
  }

  lemma PushGoing(v: View, file: TempFile, body: seq<Byte>, tasks: seq<Task>, next: nat, end: nat, o: WriteOutcome)
    requires Going(v, file, body, tasks, next, o, None) && next < end <= |body|
    ensures var t := Task(next, 0, end, NOTHING_WRITTEN, NOTHING_WRITTEN, None);
            Going(v, file, body, tasks + [t], end, o, None) && Total(tasks + [t], Width) == Total(tasks, Width) + end - next
  {
    hide Accounted, Leads, InOrder, OneBoot, Clean, Total;
    var t := Task(next, 0, end, NOTHING_WRITTEN, NOTHING_WRITTEN, None);
    PushedWidth(tasks, t);
    PushedShape(tasks, next, end, o, v.s.boot);
    if Clean(tasks, None) {
      PushedAccounted(v.s, file.fid, body, tasks, next, end, o.verifier);
    }
  }

  lemma PushedWidth(tasks: seq<Task>, t: Task)
    ensures Total(tasks + [t], Width) == Total(tasks, Width) + Width(t)
  {
    assert (tasks + [t])[..|tasks|] == tasks;
  }

  lemma PushedShape(tasks: seq<Task>, next: nat, end: nat, o: WriteOutcome, boot: nat)
    requires InOrder(tasks, next) && next < end
    ensures var all := tasks + [Task(next, 0, end, NOTHING_WRITTEN, NOTHING_WRITTEN, None)];
            && InOrder(all, end) && (OneBoot(tasks, o, boot) ==> OneBoot(all, o, boot)) && (Clean(all, None) <==> Clean(tasks, None))
  {
    var all := tasks + [Task(next, 0, end, NOTHING_WRITTEN, NOTHING_WRITTEN, None)];
    assert forall j | 0 <= j < |tasks| :: tasks[j] == all[j];
  }

  /** Starts chunks in order while there is room and nothing failed. */
  method Fill(ghost v: View, ghost file: TempFile, body: seq<Byte>, tasks: seq<Task>, next: nat, chunk: nat, depth: nat, ghost o: WriteOutcome, firstError: Option<Error>)
    returns (r: seq<Task>, n: nat)
    requires Going(v, file, body, tasks, next, o, firstError) && 0 < chunk && 0 < depth
    ensures Going(v, file, body, r, n, o, firstError) && next <= n <= |body|
    ensures Total(r, Width) + next == Total(tasks, Width) + n && |r| + next <= |tasks| + n
    ensures r == [] ==> firstError.Some? || n == |body|
  {
    hide Going, Total;
    r, n := tasks, next;
    NextBound(v, file, body, r, n, o, firstError);
    while firstError.None? && |r| < depth && n < |body|
      invariant Going(v, file, body, r, n, o, firstError) && next <= n <= |body|
      invariant Total(r, Width) + next == Total(tasks, Width) + n && |r| + next <= |tasks| + n
    {
      var end := if n + chunk < |body| then n + chunk else |body|;
      PushGoing(v, file, body, r, n, end, o);
      r, n := r + [Task(n, 0, end, NOTHING_WRITTEN, NOTHING_WRITTEN, None)], end;
    }
  }

  lemma NextBound(v: View, file: TempFile, body: seq<Byte>, tasks: seq<Task>, next: nat, o: WriteOutcome, firstError: Option<Error>)
    requires Going(v, file, body, tasks, next, o, firstError)
    ensures next <= |body|
  {
  }

  /** Waits for the next finished chunk while the others go on in any order. */
  method Next(session: NfsSession, file: TempFile, body: seq<Byte>, tasks: seq<Task>, ghost next: nat, ghost o: WriteOutcome, ghost firstError: Option<Error>)
    returns (r: seq<Task>, i: nat)
    requires session.Ready() && file.fid in session.s.files && tasks != []
    requires Going(session.Now(), file, body, tasks, next, o, firstError)
    modifies session`s, session`calls, session`ambiguous, session`calm
    ensures session.Ready() && file.fid in session.s.files && Quietly(old(session.Now()), session.Now())
    ensures |r| == |tasks| && i < |r| && r[i].Finished() && Total(r, Width) == Total(tasks, Width)
    ensures Going(session.Now(), file, body, r, next, o, firstError)
  {
    hide Valid, Quietly, Going, Total;
    ghost var v0 := session.Now();
    QuietRefl(v0);
    r := tasks;
    i :| 0 <= i < |r|;
    while !r[i].Finished()
      invariant session.Ready() && file.fid in session.s.files && Quietly(v0, session.Now())
      invariant |r| == |tasks| && i < |r| && Total(r, Width) == Total(tasks, Width)
      invariant Going(session.Now(), file, body, r, next, o, firstError)
      decreases Total(r, Left)
    {
      ghost var v := session.Now();
      r := Advance(session, file, body, r, i, next, o, firstError);
      QuietTrans(v0, v, session.Now());
      i :| 0 <= i < |r|;
    }
  }

  method WriteChunkAllPipelined(session: NfsSession, file: TempFile, body: seq<Byte>, depth: nat) returns (r: Result<WriteOutcome, Error>)
    requires session.Ready() && Own(session.s, file.fid) && Leads(session.s, file.name, file.fid) && 0 < depth
    modifies session`s, session`calls, session`ambiguous, session`calm
    ensures session.Ready() && Quietly(old(session.Now()), session.Now())
    ensures r.Err? ==> r.error.SessionLevel()
    ensures r.Ok? ==> Uploaded(session.s, file.fid, file.name, body, r.value)
    ensures r.Ok? && !session.ambiguous ==> r.value.verifier.Some? ==> r.value.verifier.value == session.s.boot
    ensures session.calm ==> r.Ok?
  {
    hide Valid, Quietly, Going, Total, Own, Leads, Uploaded;
    ghost var v0 := session.Now();
    QuietRefl(v0);
    var tasks: seq<Task>, next, outcome, firstError: Option<Error> := [], 0, NOTHING_WRITTEN, None;
    StartGoing(v0, file, body);
    while true
      invariant session.Ready() && file.fid in session.s.files && Quietly(v0, session.Now())
      invariant Going(session.Now(), file, body, tasks, next, outcome, firstError) && next <= |body|
      invariant firstError.Some? ==> firstError.value.SessionLevel()
      invariant firstError.None? ==> outcome.bytes + Total(tasks, Width) == next
      decreases 2 * (|body| - next) + |tasks|
    {
      tasks, next := Fill(session.Now(), file, body, tasks, next, session.writeChunkSize, depth, outcome, firstError);
      if tasks == [] {
        break;
      }
      ghost var v := session.Now();
      var i;
      tasks, i := Next(session, file, body, tasks, next, outcome, firstError);
      QuietTrans(v0, v, session.Now());
      CollectGoing(session.Now(), file, body, tasks, i, next, outcome, firstError);
      TotalAt(tasks, i, tasks[i], Width);
      var (o, e) := Collect(outcome, firstError, tasks[i].Outcome());
      tasks, outcome, firstError := Removed(tasks, i), o, e;
    }
    GoingEnds(session.Now(), file, body, next, outcome, firstError);
    if firstError.Some? {
      return Err(firstError.value);
    }
    return Ok(outcome);
  }

  lemma StartGoing(v: View, file: TempFile, body: seq<Byte>)
    requires Own(v.s, file.fid) && Leads(v.s, file.name, file.fid) && (v.calm ==> !v.ambiguous)
    ensures file.fid in v.s.files && Going(v, file, body, [], 0, NOTHING_WRITTEN, None) && Total([], Width) == 0
  {
    hide Leads;
  }

  lemma GoingEnds(v: View, file: TempFile, body: seq<Byte>, next: nat, o: WriteOutcome, firstError: Option<Error>)
    requires Going(v, file, body, [], next, o, firstError) && (firstError.None? ==> next == |body| == o.bytes)
    ensures firstError.None? ==> Uploaded(v.s, file.fid, file.name, body, o)
    ensures !v.ambiguous ==> From(o, v.s.boot)
    ensures v.calm ==> firstError.None?
  {
    hide Accounted, Leads, Kept;
    if firstError.None? {
      AllCollected(v.s, file.fid, body, o.verifier);
    }
  }
}
