/** The server as reads see it: each request is answered somehow, and the log keeps the answers. */
module Answers {
  import opened Errors
  import opened Server
  import opened Reassembly
  import opened HonestRead

  /** Immutable file contents, and what the path is bound to at each instant. */
  datatype World = World(contents: map<Fid, seq<Byte>>, binding: nat -> Option<Fid>)
  {
    predicate Bound(when: nat) {
      binding(when).Some? && binding(when).value in contents
    }

    function File(when: nat): seq<Byte> {
      if Bound(when) then contents[binding(when).value] else []
    }
  }

  /** An answer, with the instant at which the path was resolved to the file it is about. */
  datatype Answer =
    | HandleRead(when: nat, reply: Result<ReadOutput, Error>)
    | PathRead(when: nat, size: nat, reply: Result<ReadOutput, Error>)
    | Looked(when: nat, found: Result<bool, Error>)
  {
    /** Nothing false was accepted. */
    ghost predicate Truthful(world: World) {
      match this
      case HandleRead(_, reply) => reply.Ok? ==> Honest(world.File(when), reply.value)
      case PathRead(_, size, reply) => reply.Ok? ==> world.Bound(when) && size == |world.File(when)| && Honest(world.File(when), reply.value)
      case Looked(_, found) => found.Ok? ==> world.Bound(when)
    }

    /** ...and there was an answer. */
    ghost predicate Answered(world: World) {
      Truthful(world) && !Failed()
    }

    predicate Failed() {
      if Looked? then found.Err? else reply.Err?
    }

    function Failure(): Error
      requires Failed()
    {
      if Looked? then found.error else reply.error
    }
  }

  ghost predicate AllTruthful(world: World, log: seq<Answer>, from: nat) {
    forall i | from <= i < |log| :: log[i].Truthful(world)
  }

  ghost predicate AllAnswered(world: World, log: seq<Answer>, from: nat) {
    forall i | from <= i < |log| :: log[i].Answered(world)
  }

  /** The first answer since `from` that is an error. */
  ghost predicate FirstFailure(log: seq<Answer>, from: nat, i: nat) {
    from <= i < |log| && log[i].Failed() && forall j | from <= j < i :: !log[j].Failed()
  }

  /** From `from` on, only READs of the file that was bound at `fh`. */
  ghost predicate ReadsOf(fh: nat, log: seq<Answer>, from: nat) {
    forall i | from <= i < |log| :: log[i].HandleRead? && log[i].when == fh
  }

  /** The replies accepted from `from` on. */
  ghost function Received(log: seq<Answer>, from: nat): set<ReadOutput> {
    if |log| <= from then {}
    else
      var last := log[|log| - 1];
      Received(log[..|log| - 1], from) + if !last.Looked? && last.reply.Ok? then {last.reply.value} else {}
  }

  lemma LogPush(world: World, log: seq<Answer>, a: Answer, from: nat)
    requires from <= |log|
    ensures AllAnswered(world, log + [a], from) <==> AllAnswered(world, log, from) && a.Answered(world)
    ensures Received(log + [a], from) == Received(log, from) + if !a.Looked? && a.reply.Ok? then {a.reply.value} else {}
  {
    hide Answer.Answered;
    assert (log + [a])[..|log|] == log;
    if AllAnswered(world, log + [a], from) {
      assert (log + [a])[|log|] == a;
      forall i | from <= i < |log|
        ensures log[i].Answered(world)
      {
        assert (log + [a])[i] == log[i];
      }
    }
  }

  lemma {:induction false} ReceivedHonest(world: World, log: seq<Answer>, from: nat, fh: nat)
    requires AllTruthful(world, log, from) && ReadsOf(fh, log, from)
    ensures forall x :: x in Received(log, from) ==> Honest(world.File(fh), x)
  {
    hide Honest;
    if from < |log| {
      ReceivedHonest(world, log[..|log| - 1], from, fh);
      assert log[|log| - 1].Truthful(world);
    }
  }

  /** The connection: answers are arbitrary, except that `validate_read_reply` was passed. */
  class Connection {
    ghost const world: World
    ghost var log: seq<Answer>
    ghost var now: nat

    constructor (ghost world: World, ghost now: nat)
      ensures this.world == world && log == [] && this.now == now
    {
      this.world, this.log, this.now := world, [], now;
    }

    /** A READ through a handle that was resolved at instant `fh`. */
    method Read(ghost fh: nat, offset: nat, count: nat) returns (r: Result<ReadOutput, Error>)
      requires 0 < count
      modifies this`log
      ensures log == old(log) + [HandleRead(fh, r)]
      ensures r.Ok? ==> r.value.offset == offset && r.value.requested == count && r.value.Acceptable()
    {
      r := AnyReply(offset, count);
      log := log + [HandleRead(fh, r)];
    }

    /** A compound that resolves the path at some instant and reads what it resolved, with the size. */
    method ReadPath(offset: nat, count: nat) returns (r: Result<ReadOutput, Error>, size: nat, ghost when: nat)
      requires 0 < count
      modifies this`log, this`now
      ensures log == old(log) + [PathRead(when, size, r)] && old(now) <= when <= now
      ensures r.Ok? ==> r.value.offset == offset && r.value.requested == count && r.value.Acceptable()
    {
      when := Passes();
      size := *;
      r := AnyReply(offset, count);
      log := log + [PathRead(when, size, r)];
    }

    /** LOOKUP of the path for a handle. */
    method LookupFile() returns (r: Result<bool, Error>, ghost when: nat)
      modifies this`log, this`now
      ensures log == old(log) + [Looked(when, r)] && old(now) <= when <= now
    {
      when := Passes();
      var answer: Result<bool, Error> := *;
      match answer {
        case Ok(_) => r := Ok(true);
        case Err(e) => r := Err(e);
      }
      log := log + [Looked(when, r)];
    }

    /** Time passes. */
    ghost method Passes() returns (when: nat)
      modifies this`now
      ensures old(now) <= when <= now
    {
      var later: int;
      when, later := *, *;
      if now <= when <= later {
        now := later;
      } else {
        when := now;
      }
    }
  }

  /** Any answer of the network; `validate_read_reply` lets only acceptable ones through. */
  method AnyReply(offset: nat, count: nat) returns (r: Result<ReadOutput, Error>)
    requires 0 < count
    ensures r.Ok? ==> r.value.offset == offset && r.value.requested == count && r.value.Acceptable()
  {
    var reply: Result<(seq<Byte>, bool), Error> := *;
    match reply
    case Err(e) =>
      return Err(e);
    case Ok((data, eof)) =>
      if |data| > count || (data == [] && !eof) {
        return Err(Protocol);
      }
      return Ok(ReadOutput(offset, count, data, eof));
  }
}
