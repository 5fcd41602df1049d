/** Reply decoding of the publish, write and open compounds (src/nfs4/codec.rs): the
    `CompoundReplies` cursor and the decoders built on it, over reply lists. */
module Decode {
  import opened Errors
  import opened Server

  /** A reply as it arrives: its header may be unreadable. */
  datatype WireReply = Garbled | Readable(reply: Reply)

  datatype Wire = Wire(status: nat, replies: seq<WireReply>)

  datatype DecodeError = DecodeError(status: Option<nat>, replyIndex: Option<nat>, error: Error)

  type Decoded<+T> = Result<T, DecodeError>

  function Plain(e: Error): DecodeError {
    DecodeError(None, None, e)
  }

  function NfsAt(status: nat, op: OpCode, index: Option<nat>): DecodeError {
    DecodeError(Some(status), index, Nfs(status, op))
  }

  function TransientStatus(e: DecodeError): Option<nat> {
    if e.status == Some(DELAY) || e.status == Some(GRACE) then e.status else None
  }

  function CodesOf(ops: seq<Op>): seq<OpCode> {
    seq(|ops|, i requires 0 <= i < |ops| => CodeOf(ops[i]))
  }

  /** Whether an operation succeeded before the reply that failed. */
  predicate CompletedOperation(ops: seq<Op>, e: DecodeError, code: OpCode) {
    var index := if e.replyIndex.Some? then e.replyIndex.value else 0;
    var completed := if index == 0 then 0 else index - 1;
    exists i | 0 <= i < |ops| && i < completed :: CodeOf(ops[i]) == code
  }

  /** A transient failure may be replayed only if nothing that must not run twice ran before it. */
  predicate TransientRetryIsSafe(ops: seq<Op>, e: DecodeError) {
    && e.replyIndex.Some?
    && var completed := if e.replyIndex.value == 0 then 0 else e.replyIndex.value - 1;
       forall i | 0 <= i < |ops| && i < completed ::
         !(ops[i].Open? || ops[i].Close? || ops[i].Link? || ops[i].Rename?)
  }

  // ---------------------------------------------------------------- what a decode result proves

  /** The first `n` replies are the ones of the request, and all succeeded. */
  predicate GoodUpTo(plan: seq<OpCode>, w: Wire, n: nat) {
    && n <= |plan| && n <= |w.replies|
    && forall i | 0 <= i < n ::
         w.replies[i].Readable? && w.replies[i].reply.op == plan[i] && w.replies[i].reply.status == OK
  }

  /** The server reported this failure for the operation at position `i` of the request, after
      every earlier one succeeded. */
  predicate FailedAt(plan: seq<OpCode>, w: Wire, i: nat, status: nat, op: OpCode) {
    && i < |plan| && i < |w.replies| && GoodUpTo(plan, w, i)
    && w.replies[i].Readable? && status != OK
    && w.replies[i].reply.status == status && w.replies[i].reply.op == op
    && (op == plan[i] || (op == ILLEGAL && status == OP_ILLEGAL))
  }

  /** An error that names an NFS status is located, unless it carries the ILLEGAL marker. */
  predicate Located(plan: seq<OpCode>, w: Wire, e: DecodeError) {
    && e.error.SessionLevel() && !e.error.RequestNotSent?
    && (e.error.Nfs? <==> e.status.Some?)
    && (e.error.Nfs? ==>
          && e.status == Some(e.error.status)
          && if e.replyIndex.Some? then FailedAt(plan, w, e.replyIndex.value, e.error.status, e.error.op)
             else e.error.op == ILLEGAL)
  }

  predicate BodyIs(w: Wire, at: nat, b: Body) {
    at < |w.replies| && w.replies[at].Readable? && w.replies[at].reply.status == OK && w.replies[at].reply.body == b
  }

  predicate BodyFits(op: OpCode, b: Body) {
    match op
    case GETFH => b.HandleBody?
    case WRITE => b.WriteBody?
    case COMMIT => b.VerifierBody?
    case _ => b == NoBody
  }

  /** The response a server sends: one reply per operation run, the last one failed or complete. */
  predicate Intact(plan: seq<OpCode>, w: Wire) {
    && 0 < |w.replies| <= |plan|
    && (forall i | 0 <= i < |w.replies| ::
          && w.replies[i].Readable? && w.replies[i].reply.op == plan[i]
          && (i < |w.replies| - 1 ==> w.replies[i].reply.status == OK)
          && (w.replies[i].reply.status == OK ==> BodyFits(plan[i], w.replies[i].reply.body)))
    && w.status == LastStatus(w)
    && (w.status == OK ==> |w.replies| == |plan|)
  }

  function LastStatus(w: Wire): nat {
    if w.replies != [] && w.replies[|w.replies| - 1].Readable? then w.replies[|w.replies| - 1].reply.status else OK
  }

  /** On an intact response the error is exactly the failure the server reported. */
  predicate Exact(plan: seq<OpCode>, w: Wire, e: DecodeError) {
    Intact(plan, w) ==>
      w.status != OK && e == NfsAt(w.status, plan[|w.replies| - 1], Some(|w.replies| - 1))
  }

  /** An error met while consuming the replies from position `at` on. */
  predicate ErrorFrom(plan: seq<OpCode>, w: Wire, e: DecodeError, at: nat) {
    && Located(plan, w, e) && Exact(plan, w, e)
    && (e.replyIndex.Some? ==> at <= e.replyIndex.value < |w.replies|)
  }

  function Headed(w: WireReply, expected: OpCode): Result<bool, Error> {
    match w
    case Garbled => Err(Xdr)
    case Readable(r) =>
      if r.op == expected then (if r.status == OK then Ok(true) else Err(Nfs(r.status, r.op)))
      else if r.op == ILLEGAL && r.status == OP_ILLEGAL then Err(Nfs(r.status, ILLEGAL))
      else Err(Protocol)
  }

  function AtReply(e: Error, index: nat): DecodeError {
    DecodeError(if e.Nfs? then Some(e.status) else None, Some(index), e)
  }

  predicate RenameTailAt(plan: seq<OpCode>, at: nat, n: nat) {
    && at + 3 + n <= |plan|
    && plan[at] == PUTFH && (forall i | at + 1 <= i < at + 1 + n :: plan[i] == LOOKUP)
    && plan[at + 1 + n] == SAVEFH && plan[at + 2 + n] == RENAME
  }

  predicate LinkRemoveTailAt(plan: seq<OpCode>, at: nat, n: nat) {
    && at + 4 + n <= |plan|
    && plan[at] == SAVEFH && plan[at + 1] == PUTFH && (forall i | at + 2 <= i < at + 2 + n :: plan[i] == LOOKUP)
    && plan[at + 2 + n] == LINK && plan[at + 3 + n] == REMOVE
  }

  /** Walks the replies of one response; `plan` is the list of operations it must answer. */
  class CompoundReplies {
    const wire: Wire
    var decoded: nat
    ghost const plan: seq<OpCode>
    ghost var asked: nat

    ghost predicate Valid()
      reads this
    {
      && asked <= |plan|
      && decoded == (if asked < |wire.replies| then asked else |wire.replies|)
      && GoodUpTo(plan, wire, decoded)
    }

    constructor (wire: Wire, ghost plan: seq<OpCode>)
      ensures Valid() && this.wire == wire && this.plan == plan && asked == 0
    {
      this.wire := wire;
      this.decoded := 0;
      this.plan := plan;
      this.asked := 0;
    }

    /** Consumes the next reply header when one remains, expecting `op`. */
    method Advance(op: OpCode) returns (r: Decoded<bool>)
      requires Valid() && asked < |plan| && plan[asked] == op && op != ILLEGAL
      modifies this
      ensures r.Ok? ==>
        && Valid() && asked == old(asked) + 1
        && r.value == (old(asked) < |wire.replies|)
        && (r.value ==> decoded == asked && GoodUpTo(plan, wire, asked))
      ensures r.Err? ==> ErrorFrom(plan, wire, r.error, old(asked)) && r.error.replyIndex == Some(old(asked))
    {
      if decoded >= |wire.replies| {
        asked := asked + 1;
        return Ok(false);
      }
      match Headed(wire.replies[decoded], op)
      case Ok(_) =>
        decoded := decoded + 1;
        asked := asked + 1;
        return Ok(true);
      case Err(e) =>
        return Err(AtReply(e, decoded));
    }

    /** Consumes an expected reply and its result body. */
    method Result(op: OpCode) returns (r: Decoded<Option<Body>>)
      requires Valid() && asked < |plan| && plan[asked] == op && op != ILLEGAL
      modifies this
      ensures r.Ok? ==>
        && Valid() && asked == old(asked) + 1
        && r.value.Some? == (old(asked) < |wire.replies|)
        && (r.value.Some? ==> decoded == asked && BodyFits(op, r.value.value) && BodyIs(wire, old(asked), r.value.value))
      ensures r.Err? ==> ErrorFrom(plan, wire, r.error, old(asked))
      ensures r.Err? && r.error.replyIndex.Some? ==> r.error.replyIndex.value == old(asked)
    {
      var present :- Advance(op);
      if !present {
        return Ok(None);
      }
      var b := wire.replies[decoded - 1].reply.body;
      if !BodyFits(op, b) {
        return Err(Plain(Xdr));
      }
      return Ok(Some(b));
    }

    /** Like `Advance` for a guarded create: EXIST is an answer, not an error. */
    method AdvanceOrExist(op: OpCode) returns (r: Decoded<Option<bool>>)
      requires Valid() && asked < |plan| && plan[asked] == op && op != ILLEGAL
      modifies this
      ensures r.Ok? && r.value != Some(true) ==>
        && Valid() && asked == old(asked) + 1
        && r.value.Some? == (old(asked) < |wire.replies|)
        && (r.value.Some? ==> decoded == asked && GoodUpTo(plan, wire, asked))
      ensures r.Ok? && r.value == Some(true) ==> FailedAt(plan, wire, old(asked), EXIST, op)
      ensures r.Err? ==> ErrorFrom(plan, wire, r.error, old(asked)) && r.error.error != Nfs(EXIST, op)
      ensures r.Err? && r.error.replyIndex.Some? ==> r.error.replyIndex.value == old(asked)
    {
      if decoded >= |wire.replies| {
        asked := asked + 1;
        return Ok(None);
      }
      match Headed(wire.replies[decoded], op)
      case Ok(_) =>
        if !BodyFits(op, wire.replies[decoded].reply.body) {
          return Err(Plain(Unsupported));
        }
        decoded := decoded + 1;
        asked := asked + 1;
        return Ok(Some(false));
      case Err(e) =>
        if e == Nfs(EXIST, op) {
          return Ok(Some(true));
        }
        return Err(AtReply(e, decoded));
    }

    /** Like `Advance` for the steps of a REMOVE: NOENT means the name is gone. */
    method AdvanceOrMissing(op: OpCode) returns (r: Decoded<bool>)
      requires Valid() && asked < |plan| && plan[asked] == op && op != ILLEGAL
      modifies this
      ensures r.Ok? && r.value ==> FailedAt(plan, wire, old(asked), NOENT, op)
      ensures r.Ok? && !r.value ==> Valid() && asked == old(asked) + 1
      ensures r.Err? ==> ErrorFrom(plan, wire, r.error, old(asked))
    {
      if decoded >= |wire.replies| {
        asked := asked + 1;
        return Ok(false);
      }
      match Headed(wire.replies[decoded], op)
      case Ok(_) =>
        if !BodyFits(op, wire.replies[decoded].reply.body) {
          return Err(Plain(Xdr));
        }
        decoded := decoded + 1;
        asked := asked + 1;
        return Ok(false);
      case Err(e) =>
        if e == Nfs(NOENT, op) && (op == PUTFH || op == LOOKUP || op == REMOVE) {
          return Ok(true);
        }
        return Err(AtReply(e, decoded));
    }

    /** LOOKUP replies of a path; stops at the first one missing. */
    method Lookups(count: nat) returns (r: Decoded<bool>)
      requires Valid() && asked + count <= |plan|
      requires forall i | asked <= i < asked + count :: plan[i] == LOOKUP
      modifies this
      ensures r.Ok? ==> Valid() && asked == old(asked) + count
      ensures r.Err? ==> ErrorFrom(plan, wire, r.error, old(asked))
      ensures r.Err? && r.error.replyIndex.Some? ==> r.error.replyIndex.value < old(asked) + count
    {
      var i := 0;
      while i < count
        invariant 0 <= i <= count && Valid() && asked == old(asked) + i
        decreases count - i
      {
        var present :- Advance(LOOKUP);
        if !present {
          asked := asked + (count - i - 1);
          break;
        }
        i := i + 1;
      }
      return Ok(true);
    }

    method Finish() returns (r: Decoded<bool>)
      requires Valid() && asked == |plan|
      ensures r.Ok? ==> |wire.replies| <= |plan| && (Intact(plan, wire) ==> |wire.replies| == |plan|)
      ensures r.Err? ==> Located(plan, wire, r.error) && !Intact(plan, wire) && r.error.replyIndex.None?
    {
      if decoded < |wire.replies| {
        return Err(Plain(Protocol));
      }
      if wire.status != OK {
        return Err(NfsAt(wire.status, ILLEGAL, None));
      }
      return Ok(true);
    }

    /** The RENAME tail: the directory path, SAVEFH, RENAME. True when the last reply was there. */
    method RenamePublish(lookups: nat) returns (r: Decoded<bool>)
      requires Valid() && RenameTailAt(plan, asked, lookups)
      modifies this
      ensures r.Ok? ==>
        && Valid() && asked == old(asked) + 3 + lookups
        && r.value == (asked <= |wire.replies|)
      ensures r.Err? ==> ErrorFrom(plan, wire, r.error, old(asked))
    {
      hide Located, Intact, GoodUpTo;
      var _ :- Advance(PUTFH);
      var _ :- Lookups(lookups);
      var _ :- Advance(SAVEFH);
      var body :- Result(RENAME);
      return Ok(body.Some?);
    }

    /** The create-new tail: SAVEFH, the directory path, LINK, REMOVE. */
    method LinkRemovePublish(lookups: nat) returns (r: Decoded<bool>)
      requires Valid() && LinkRemoveTailAt(plan, asked, lookups)
      modifies this
      ensures r.Ok? ==>
        && Valid() && asked == old(asked) + 4 + lookups
        && r.value == (asked <= |wire.replies|)
      ensures r.Err? ==> ErrorFrom(plan, wire, r.error, old(asked))
    {
      hide Located, Intact, GoodUpTo;
      var _ :- Advance(SAVEFH);
      var _ :- Advance(PUTFH);
      var _ :- Lookups(lookups);
      var _ :- Result(LINK);
      var removed :- Result(REMOVE);
      return Ok(removed.Some?);
    }
  }

  // ---------------------------------------------------------------- the decoders

  /** Operations answered by a resolved export path of `n` components. */
  function PathPlan(n: nat): (r: seq<OpCode>)
    ensures |r| == n + 1 && r[0] == PUTFH
    ensures forall i | 1 <= i <= n :: r[i] == LOOKUP
  {
    [PUTFH] + seq(n, _ => LOOKUP)
  }

  datatype CloseShape = FileOnly | ThenRename(lookups: nat) | ThenLinkRemove(lookups: nat)

  function ReplyCount(shape: CloseShape): nat {
    match shape
    case FileOnly => 3
    case ThenRename(n) => 7 + n
    case ThenLinkRemove(n) => 8 + n
  }

  function ClosePlan(shape: CloseShape, commit: bool): (r: seq<OpCode>)
    ensures |r| == ReplyCount(shape) + if commit then 1 else 0
    ensures r[0] == SEQUENCE && r[1] == PUTFH && (commit ==> r[2] == COMMIT)
    ensures var at := if commit then 3 else 2;
            match shape
            case FileOnly => r[at] == CLOSE
            case ThenRename(n) => r[at] == VERIFY && r[at + 1] == CLOSE && RenameTailAt(r, at + 2, n)
            case ThenLinkRemove(n) => r[at] == VERIFY && r[at + 1] == CLOSE && LinkRemoveTailAt(r, at + 2, n)
  {
    [SEQUENCE, PUTFH] + (if commit then [COMMIT] else []) +
    match shape
    case FileOnly => [CLOSE]
    case ThenRename(n) => [VERIFY, CLOSE] + PathPlan(n) + [SAVEFH, RENAME]
    case ThenLinkRemove(n) => [VERIFY, CLOSE, SAVEFH] + PathPlan(n) + [LINK, REMOVE]
  }

  /** The reply at position `at` carried this verifier. */
  predicate VerifierAt(w: Wire, at: nat, v: nat) {
    BodyIs(w, at, VerifierBody(v))
  }

  /** No successful COMMIT reply at position 2 carried another verifier. */
  predicate VerifierAgrees(w: Wire, v: Option<nat>) {
    v.Some? && |w.replies| > 2 && w.replies[2].Readable? && w.replies[2].reply.status == OK ==>
      w.replies[2].reply.body == VerifierBody(v.value)
  }

  /** What every decoder promises of an error. */
  predicate SoundError(plan: seq<OpCode>, w: Wire, e: DecodeError, agrees: bool) {
    Located(plan, w, e) && (agrees ==> Exact(plan, w, e))
  }

  /** `CompoundReplies::new` followed by the SEQUENCE reply. */
  method Start(w: Wire, expected: nat, ghost plan: seq<OpCode>) returns (r: Decoded<CompoundReplies>)
    requires expected == |plan| > 0 && plan[0] == SEQUENCE
    ensures r.Ok? ==>
      fresh(r.value) && r.value.Valid() && r.value.wire == w && r.value.plan == plan && r.value.asked == 1
    ensures r.Err? ==> ErrorFrom(plan, w, r.error, 0)
    ensures r.Err? && r.error.replyIndex.Some? ==> r.error.replyIndex.value == 0
  {
    if |w.replies| > expected {
      return Err(Plain(Protocol));
    }
    var replies := new CompoundReplies(w, plan);
    var _ :- replies.Result(SEQUENCE);
    return Ok(replies);
  }

  lemma OversizedIsSound(plan: seq<OpCode>, w: Wire)
    requires |w.replies| > |plan|
    ensures SoundError(plan, w, Plain(Protocol), true)
  {
  }

  /** An error without a status points at no operation. */
  lemma BailIsSound(plan: seq<OpCode>, w: Wire, e: Error)
    requires e.SessionLevel() && !e.RequestNotSent? && !e.Nfs?
    ensures Located(plan, w, Plain(e))
  {
  }

  /** How the close compound starts. */
  predicate CloseHeadAt(plan: seq<OpCode>, commit: bool, verify: bool) {
    var at := if commit then 3 else 2;
    && |plan| > at + (if verify then 1 else 0)
    && plan[1] == PUTFH && (commit ==> plan[2] == COMMIT) && (verify ==> plan[at] == VERIFY)
    && plan[at + if verify then 1 else 0] == CLOSE
  }

  /** Up to and including CLOSE. The verifier is checked before any later reply is looked at. */
  method CloseReplies(replies: CompoundReplies, verifier: Option<nat>, verify: bool) returns (r: Decoded<bool>)
    requires replies.Valid() && replies.asked == 1 && CloseHeadAt(replies.plan, verifier.Some?, verify)
    modifies replies
    ensures r.Ok? ==>
      && replies.Valid() && replies.asked == (if verifier.Some? then 4 else 3) + (if verify then 1 else 0)
      && r.value == (replies.asked <= |replies.wire.replies|)
      && (verifier.Some? && 2 < |replies.wire.replies| ==> VerifierAt(replies.wire, 2, verifier.value))
    ensures r.Err? ==>
      && Located(replies.plan, replies.wire, r.error)
      && (VerifierAgrees(replies.wire, verifier) ==> Exact(replies.plan, replies.wire, r.error))
      && (verifier.Some? && r.error.replyIndex.Some? && r.error.replyIndex.value > 2 ==> VerifierAt(replies.wire, 2, verifier.value))
  {
    hide Located, Intact, GoodUpTo;
    var _ :- replies.Advance(PUTFH);
    if verifier.Some? {
      var committed :- replies.Result(COMMIT);
      if committed.Some? && committed.value.verifier != verifier.value {
        BailIsSound(replies.plan, replies.wire, ConnectionLost);
        return Err(Plain(ConnectionLost));
      }
    }
    if verify {
      var _ :- replies.Advance(VERIFY);
    }
    var sawClose :- replies.Result(CLOSE);
    return Ok(sawClose.Some?);
  }

  /** A CLOSE on its own or followed by a publish. */
  method DecodeClose(w: Wire, shape: CloseShape, verifier: Option<nat>) returns (r: Decoded<bool>)
    ensures r.Ok? ==>
      && GoodUpTo(ClosePlan(shape, verifier.Some?), w, |ClosePlan(shape, verifier.Some?)|)
      && (verifier.Some? ==> VerifierAt(w, 2, verifier.value))
    ensures r.Err? ==> SoundError(ClosePlan(shape, verifier.Some?), w, r.error, VerifierAgrees(w, verifier))
    ensures r.Err? && verifier.Some? && r.error.replyIndex.Some? && r.error.replyIndex.value > 2 ==>
      VerifierAt(w, 2, verifier.value)
  {
    hide Located, Intact, GoodUpTo, ClosePlan, VerifierAgrees, VerifierAt;
    var expected := ReplyCount(shape) + if verifier.Some? then 1 else 0;
    ghost var plan := ClosePlan(shape, verifier.Some?);
    var replies :- Start(w, expected, plan);
    var published :- CloseReplies(replies, verifier, !shape.FileOnly?);
    var sawClose := published;
    match shape {
      case FileOnly =>
      case ThenRename(n) => published :- replies.RenamePublish(n);
      case ThenLinkRemove(n) => published :- replies.LinkRemovePublish(n);
    }
    var _ :- replies.Finish();
    if !sawClose || !published {
      BailIsSound(plan, w, Protocol);
      return Err(Plain(Protocol));
    }
    return Ok(true);
  }

  function RenamePublishPlan(n: nat): (r: seq<OpCode>)
    ensures |r| == 4 + n && r[0] == SEQUENCE && RenameTailAt(r, 1, n)
  {
    [SEQUENCE] + PathPlan(n) + [SAVEFH, RENAME]
  }

  method DecodeRenamePublish(w: Wire, lookups: nat) returns (r: Decoded<bool>)
    ensures r.Ok? ==> GoodUpTo(RenamePublishPlan(lookups), w, 4 + lookups)
    ensures r.Err? ==> SoundError(RenamePublishPlan(lookups), w, r.error, true)
  {
    hide Located, Intact, GoodUpTo;
    var replies :- Start(w, 4 + lookups, RenamePublishPlan(lookups));
    var published :- replies.RenamePublish(lookups);
    var _ :- replies.Finish();
    if !published {
      BailIsSound(RenamePublishPlan(lookups), w, Protocol);
      return Err(Plain(Protocol));
    }
    return Ok(true);
  }

  function LinkRemovePublishPlan(n: nat): (r: seq<OpCode>)
    ensures |r| == 6 + n && r[0] == SEQUENCE && r[1] == PUTFH && LinkRemoveTailAt(r, 2, n)
  {
    [SEQUENCE, PUTFH, SAVEFH] + PathPlan(n) + [LINK, REMOVE]
  }

  method DecodeLinkRemovePublish(w: Wire, lookups: nat) returns (r: Decoded<bool>)
    ensures r.Ok? ==> GoodUpTo(LinkRemovePublishPlan(lookups), w, 6 + lookups)
    ensures r.Err? ==> SoundError(LinkRemovePublishPlan(lookups), w, r.error, true)
  {
    hide Located, Intact, GoodUpTo;
    var replies :- Start(w, 6 + lookups, LinkRemovePublishPlan(lookups));
    var _ :- replies.Advance(PUTFH);
    var published :- replies.LinkRemovePublish(lookups);
    var _ :- replies.Finish();
    if !published {
      BailIsSound(LinkRemovePublishPlan(lookups), w, Protocol);
      return Err(Plain(Protocol));
    }
    return Ok(true);
  }

  datatype OpenOutcome = Opened(handle: Handle) | Exists

  function OpenPlan(n: nat): seq<OpCode> {
    [SEQUENCE] + PathPlan(n) + [OPEN, GETFH]
  }

  method DecodeOpen(w: Wire, lookups: nat) returns (r: Decoded<OpenOutcome>)
    ensures r.Ok? && r.value.Opened? ==>
      && GoodUpTo(OpenPlan(lookups), w, 4 + lookups)
      && BodyIs(w, 3 + lookups, HandleBody(r.value.handle))
    ensures r.Ok? && r.value.Exists? ==> FailedAt(OpenPlan(lookups), w, 2 + lookups, EXIST, OPEN)
    ensures r.Err? ==> SoundError(OpenPlan(lookups), w, r.error, true)
  {
    hide Located, Intact, GoodUpTo;
    var replies :- Start(w, 4 + lookups, OpenPlan(lookups));
    var _ :- replies.Advance(PUTFH);
    var _ :- replies.Lookups(lookups);
    var exists_ :- replies.AdvanceOrExist(OPEN);
    if exists_ == Some(true) {
      return Ok(Exists);
    }
    var got :- replies.Result(GETFH);
    var _ :- replies.Finish();
    if got.None? {
      BailIsSound(OpenPlan(lookups), w, Protocol);
      return Err(Plain(Protocol));
    }
    return Ok(Opened(got.value.handle));
  }

  function RemovePlan(n: nat): (r: seq<OpCode>)
    ensures |r| == 3 + n && r[0] == SEQUENCE && r[1] == PUTFH && r[2 + n] == REMOVE
    ensures forall i | 2 <= i < 2 + n :: r[i] == LOOKUP
  {
    [SEQUENCE] + PathPlan(n) + [REMOVE]
  }

  datatype RemoveOutcome = Removed | Missing

  /** REMOVE: a missing name or parent counts as already removed. */
  method DecodeRemove(w: Wire, lookups: nat) returns (r: Decoded<RemoveOutcome>)
    ensures r == Ok(Removed) ==> GoodUpTo(RemovePlan(lookups), w, 3 + lookups)
    ensures r == Ok(Missing) ==> exists i | 0 <= i < 3 + lookups :: FailedAt(RemovePlan(lookups), w, i, NOENT, RemovePlan(lookups)[i])
    ensures r.Err? ==> SoundError(RemovePlan(lookups), w, r.error, true)
  {
    hide Located, Intact, GoodUpTo, RemovePlan, FailedAt;
    ghost var plan := RemovePlan(lookups);
    if |w.replies| > 3 + lookups {
      OversizedIsSound(plan, w);
      return Err(Plain(Protocol));
    }
    var replies := new CompoundReplies(w, plan);
    var i := 0;
    while i < 3 + lookups
      invariant 0 <= i <= 3 + lookups && replies.wire == w && replies.plan == plan
      invariant replies.Valid() && replies.asked == i
      invariant fresh(replies)
    {
      var op := if i == 0 then SEQUENCE else if i == 1 then PUTFH else if i < 2 + lookups then LOOKUP else REMOVE;
      var missing :- replies.AdvanceOrMissing(op);
      if missing {
        return Ok(Missing);
      }
      i := i + 1;
    }
    var _ :- replies.Finish();
    if |w.replies| < 3 + lookups {
      BailIsSound(plan, w, Protocol);
      return Err(Plain(Protocol));
    }
    return Ok(Removed);
  }

  datatype WriteData = WriteData(count: nat, level: Stability, verifier: nat)

  function AsWrite(b: Body): WriteData
    requires b.WriteBody?
  {
    WriteData(b.count, b.level, b.verifier)
  }

  predicate RequiresCommit(w: WriteData) {
    !w.level.FileSync?
  }

  const WRITE_PLAN := [SEQUENCE, PUTFH, WRITE]
  const WRITE_COMMIT_PLAN := [SEQUENCE, PUTFH, WRITE, COMMIT]

  predicate WroteAt(w: Wire, at: nat, d: WriteData) {
    BodyIs(w, at, WriteBody(d.count, d.level, d.verifier))
  }

  method DecodeWrite(w: Wire) returns (r: Decoded<WriteData>)
    ensures r.Ok? ==> GoodUpTo(WRITE_PLAN, w, 3) && WroteAt(w, 2, r.value)
    ensures r.Err? ==> SoundError(WRITE_PLAN, w, r.error, true)
  {
    hide Located, Intact, GoodUpTo;
    var replies :- Start(w, 3, WRITE_PLAN);
    var _ :- replies.Advance(PUTFH);
    var wrote :- replies.Result(WRITE);
    var _ :- replies.Finish();
    if wrote.None? {
      BailIsSound(WRITE_PLAN, w, Protocol);
      return Err(Plain(Protocol));
    }
    return Ok(AsWrite(wrote.value));
  }

  method DecodeWriteCommit(w: Wire) returns (r: Decoded<(WriteData, nat)>)
    ensures r.Ok? ==> GoodUpTo(WRITE_COMMIT_PLAN, w, 4) && WroteAt(w, 2, r.value.0) && VerifierAt(w, 3, r.value.1)
    ensures r.Err? ==> SoundError(WRITE_COMMIT_PLAN, w, r.error, true)
  {
    hide Located, Intact, GoodUpTo;
    var replies :- Start(w, 4, WRITE_COMMIT_PLAN);
    var _ :- replies.Advance(PUTFH);
    var wrote :- replies.Result(WRITE);
    var committed :- replies.Result(COMMIT);
    var _ :- replies.Finish();
    if wrote.None? || committed.None? {
      BailIsSound(WRITE_COMMIT_PLAN, w, Protocol);
      return Err(Plain(Protocol));
    }
    return Ok((AsWrite(wrote.value), committed.value.verifier));
  }

  predicate MiddleAt(plan: seq<OpCode>, at: nat) {
    at + 4 <= |plan| && plan[at] == GETFH && plan[at + 1] == WRITE && plan[at + 2] == COMMIT && plan[at + 3] == VERIFY
  }

  function FusedPlan(n: nat, createNew: bool): (r: seq<OpCode>)
    ensures |r| == if createNew then 11 + 2 * n else 10 + n
    ensures r[0] == SEQUENCE && r[1] == PUTFH && forall i | 2 <= i < 2 + n :: r[i] == LOOKUP
    ensures var open := FusedOpenAt(n, createNew);
            && r[open] == OPEN && MiddleAt(r, open + 1)
            && if createNew then LinkRemoveTailAt(r, open + 5, n)
               else r[2 + n] == SAVEFH && r[open + 5] == RESTOREFH && r[open + 6] == RENAME
  {
    if createNew then
      [SEQUENCE] + PathPlan(n) + [OPEN, GETFH, WRITE, COMMIT, VERIFY, SAVEFH] + PathPlan(n) + [LINK, REMOVE]
    else
      [SEQUENCE] + PathPlan(n) + [SAVEFH, OPEN, GETFH, WRITE, COMMIT, VERIFY, RESTOREFH, RENAME]
  }

  /** Position of the guarded OPEN in the fused compound. */
  function FusedOpenAt(n: nat, createNew: bool): nat {
    if createNew then 2 + n else 3 + n
  }

  /** WRITE and COMMIT replies of the fused compound agree on the verifier, or none was needed. */
  predicate FusedCommitted(w: Wire, open: nat) {
    && open + 3 < |w.replies|
    && w.replies[open + 2].Readable? && w.replies[open + 2].reply.body.WriteBody?
    && w.replies[open + 3].Readable? && w.replies[open + 3].reply.body.VerifierBody?
    && (!w.replies[open + 2].reply.body.level.FileSync? ==>
          w.replies[open + 2].reply.body.verifier == w.replies[open + 3].reply.body.verifier)
  }

  predicate FusedAgrees(w: Wire, open: nat) {
    && open + 3 < |w.replies|
    && (forall i | open + 2 <= i <= open + 3 :: w.replies[i].Readable? && w.replies[i].reply.status == OK) ==>
    FusedCommitted(w, open)
  }

  datatype FusedOutcome = FusedOpened(handle: Handle, write: WriteData) | FusedExists

  /** WRITE and COMMIT of the fused compound, with the verifier check between them. */
  method FusedWrite(replies: CompoundReplies) returns (r: Decoded<Option<WriteData>>)
    requires replies.Valid() && replies.asked > 1 && replies.asked + 2 <= |replies.plan|
    requires replies.plan[replies.asked] == WRITE && replies.plan[replies.asked + 1] == COMMIT
    modifies replies
    ensures r.Ok? ==>
      && replies.Valid() && replies.asked == old(replies.asked) + 2
      && (replies.asked <= |replies.wire.replies| ==> FusedCommitted(replies.wire, replies.asked - 4))
      && r.value.Some? == (old(replies.asked) < |replies.wire.replies|)
      && (r.value.Some? ==> WroteAt(replies.wire, old(replies.asked), r.value.value))
    ensures r.Err? ==>
      && Located(replies.plan, replies.wire, r.error)
      && (FusedAgrees(replies.wire, old(replies.asked) - 2) ==> Exact(replies.plan, replies.wire, r.error))
      && (r.error.replyIndex.Some? ==> r.error.replyIndex.value <= old(replies.asked) + 1)
  {
    hide Located, Intact, GoodUpTo;
    var wrote :- replies.Result(WRITE);
    var committed :- replies.Result(COMMIT);
    if committed.Some? {
      if RequiresCommit(AsWrite(wrote.value)) && committed.value.verifier != wrote.value.verifier {
        BailIsSound(replies.plan, replies.wire, ConnectionLost);
        return Err(Plain(ConnectionLost));
      }
    }
    return Ok(if wrote.Some? then Some(AsWrite(wrote.value)) else None);
  }

  /** The middle of the fused compound: GETFH, WRITE, COMMIT, VERIFY. */
  method FusedMiddle(replies: CompoundReplies) returns (r: Decoded<FusedOutcome>)
    requires replies.Valid() && replies.asked > 0 && MiddleAt(replies.plan, replies.asked)
    modifies replies
    ensures r.Ok? ==>
      && replies.Valid() && replies.asked == old(replies.asked) + 4
      && (replies.asked <= |replies.wire.replies| ==>
            && r.value.FusedOpened? && WroteAt(replies.wire, replies.asked - 3, r.value.write)
            && BodyIs(replies.wire, replies.asked - 4, HandleBody(r.value.handle)))
      && (old(replies.asked) + 3 <= |replies.wire.replies| ==> FusedCommitted(replies.wire, replies.asked - 5))
    ensures r.Err? ==>
      && Located(replies.plan, replies.wire, r.error)
      && (FusedAgrees(replies.wire, old(replies.asked) - 1) ==> Exact(replies.plan, replies.wire, r.error))
      && (r.error.replyIndex.Some? && r.error.replyIndex.value > old(replies.asked) + 2 ==>
            FusedCommitted(replies.wire, old(replies.asked) - 1))
  {
    hide Located, Intact, GoodUpTo, FusedCommitted, FusedAgrees, Exact;
    var got :- replies.Result(GETFH);
    var wrote :- FusedWrite(replies);
    var _ :- replies.Advance(VERIFY);
    if got.Some? && wrote.Some? {
      return Ok(FusedOpened(got.value.handle, wrote.value));
    }
    return Ok(FusedExists);
  }

  /** The head of the fused compound, up to the guarded OPEN. */
  method FusedOpen(replies: CompoundReplies, lookups: nat, createNew: bool) returns (r: Decoded<Option<bool>>)
    requires replies.Valid() && replies.plan == FusedPlan(lookups, createNew) && replies.asked == 1
    modifies replies
    ensures r.Ok? && r.value != Some(true) ==>
      replies.Valid() && replies.asked == FusedOpenAt(lookups, createNew) + 1
    ensures r.Ok? && r.value == Some(true) ==>
      FailedAt(replies.plan, replies.wire, FusedOpenAt(lookups, createNew), EXIST, OPEN)
    ensures r.Err? ==> ErrorFrom(replies.plan, replies.wire, r.error, 0)
    ensures r.Err? && r.error.replyIndex.Some? ==> r.error.replyIndex.value <= FusedOpenAt(lookups, createNew)
  {
    hide Located, Intact, GoodUpTo, FusedPlan;
    var _ :- replies.Advance(PUTFH);
    var _ :- replies.Lookups(lookups);
    if !createNew {
      var _ :- replies.Advance(SAVEFH);
    }
    r := replies.AdvanceOrExist(OPEN);
  }

  /** The publish at the end of the fused compound. */
  method FusedPublish(replies: CompoundReplies, lookups: nat, createNew: bool) returns (r: Decoded<bool>)
    requires replies.Valid() && replies.plan == FusedPlan(lookups, createNew)
    requires replies.asked == FusedOpenAt(lookups, createNew) + 5
    modifies replies
    ensures r.Ok? ==>
      replies.Valid() && replies.asked == |replies.plan| && r.value == (|replies.plan| <= |replies.wire.replies|)
    ensures r.Err? ==> ErrorFrom(replies.plan, replies.wire, r.error, old(replies.asked))
  {
    hide Located, Intact, GoodUpTo, FusedPlan;
    if createNew {
      r := replies.LinkRemovePublish(lookups);
    } else {
      var _ :- replies.Advance(RESTOREFH);
      var body :- replies.Result(RENAME);
      r := Ok(body.Some?);
    }
  }

  method DecodeFused(w: Wire, lookups: nat, createNew: bool) returns (r: Decoded<FusedOutcome>)
    ensures r.Ok? && r.value.FusedOpened? ==>
      var plan, open := FusedPlan(lookups, createNew), FusedOpenAt(lookups, createNew);
      && GoodUpTo(plan, w, |plan|) && FusedCommitted(w, open) && WroteAt(w, open + 2, r.value.write)
      && BodyIs(w, open + 1, HandleBody(r.value.handle))
    ensures r.Ok? && r.value.FusedExists? ==>
      FailedAt(FusedPlan(lookups, createNew), w, FusedOpenAt(lookups, createNew), EXIST, OPEN)
    ensures r.Err? ==>
      && SoundError(FusedPlan(lookups, createNew), w, r.error, FusedAgrees(w, FusedOpenAt(lookups, createNew)))
      && (r.error.replyIndex.Some? && r.error.replyIndex.value > FusedOpenAt(lookups, createNew) + 3 ==>
            FusedCommitted(w, FusedOpenAt(lookups, createNew)))
  {
    hide Located, Intact, GoodUpTo, FusedCommitted, FusedAgrees, FusedPlan;
    var expected := if createNew then 11 + 2 * lookups else 10 + lookups;
    ghost var plan := FusedPlan(lookups, createNew);
    ghost var open := FusedOpenAt(lookups, createNew);
    var replies :- Start(w, expected, plan);
    var exists_ :- FusedOpen(replies, lookups, createNew);
    if exists_ == Some(true) {
      return Ok(FusedExists);
    }
    var outcome :- FusedMiddle(replies);
    var published :- FusedPublish(replies, lookups, createNew);
    var _ :- replies.Finish();
    if !published || outcome.FusedExists? {
      BailIsSound(plan, w, Protocol);
      return Err(Plain(Protocol));
    }
    return Ok(outcome);
  }

  predicate SequenceReadable(w: Wire) {
    && w.replies != [] && w.replies[0].Readable? && w.replies[0].reply.op == SEQUENCE
    && (w.replies[0].reply.status == OK ==> w.replies[0].reply.body == NoBody)
  }

  /** `decode_sequence_result`: an empty reply list with a failed status stands for SEQUENCE. */
  method DecodeSequence(w: Wire) returns (r: Result<bool, Error>)
    ensures r.Ok? ==> GoodUpTo([SEQUENCE], w, 1)
    ensures r.Err? ==> r.error.SessionLevel() && !r.error.RequestNotSent?
    ensures r.Err? && r.error.Nfs? ==>
      && r.error.op == SEQUENCE && r.error.status != OK
      && if w.replies == [] then w.status == r.error.status
         else w.replies[0].Readable? && w.replies[0].reply.op == SEQUENCE && w.replies[0].reply.status == r.error.status
    ensures SequenceReadable(w) ==>
      if w.replies[0].reply.status == OK then r.Ok? else r == Err(Nfs(w.replies[0].reply.status, SEQUENCE))
  {
    if w.replies == [] {
      return Err(if w.status == OK then Protocol else Nfs(w.status, SEQUENCE));
    }
    if w.replies[0].Garbled? {
      return Err(Xdr);
    }
    var first := w.replies[0].reply;
    if first.op != SEQUENCE {
      return Err(Protocol);
    }
    if first.status != OK {
      return Err(Nfs(first.status, SEQUENCE));
    }
    if first.body != NoBody {
      return Err(Protocol);
    }
    return Ok(true);
  }
}
