/** Record marking over a byte stream (section 11 of RFC 5531) as src/rpc.rs does it: batches of
    calls written with partial vectored writes, and records read back from fragments. */
module Framing {
  import opened Errors
  import opened Encoding
  import opened Grammar

  const LAST_FRAGMENT: nat := 0x8000_0000

  function Marker(last: bool, size: nat): Bytes {
    U32((if last then LAST_FRAGMENT else 0) + size)
  }

  // ---------------------------------------------------------------- writing

  /** An encoded call: header, payload segments, and the record length announced for it. */
  datatype Request = Request(header: Bytes, segments: seq<Bytes>, recordLen: nat)

  /** The record of a call: header, credential, empty verifier, payload, each padded. */
  function Record(r: Request, auth: Bytes): Bytes {
    r.header + auth + Zeros(Padding(|auth|)) + Zeros(8) + Concat(r.segments) + Zeros(Padding(|Concat(r.segments)|))
  }

  predicate Announced(r: Request, auth: Bytes) {
    r.recordLen == |Record(r, auth)| && [] !in r.segments && r.header != []
  }

  function Frame(r: Request, auth: Bytes): Bytes {
    Marker(true, r.recordLen) + Record(r, auth)
  }

  function Frames(batch: seq<Request>, auth: Bytes): Bytes {
    if batch == [] then [] else Frames(batch[..|batch| - 1], auth) + Frame(batch[|batch| - 1], auth)
  }

  /** The slices of one record, without empty ones. */
  function Slices(r: Request, auth: Bytes): seq<Bytes> {
    [Marker(true, r.recordLen), r.header] + (if auth == [] then [] else [auth])
    + (if Padding(|auth|) == 0 then [] else [Zeros(Padding(|auth|))]) + [Zeros(8)]
    + r.segments + (if Padding(|Concat(r.segments)|) == 0 then [] else [Zeros(Padding(|Concat(r.segments)|))])
  }

  lemma {:induction false} ConcatAppend(a: seq<Bytes>, b: seq<Bytes>)
    ensures Concat(a + b) == Concat(a) + Concat(b)
  {
    if b == [] {
      assert a + b == a;
    } else {
      ConcatAppend(a, b[..|b| - 1]);
      assert (a + b)[..|a + b| - 1] == a + b[..|b| - 1];
    }
  }

  lemma ConcatOne(x: Bytes)
    ensures Concat([x]) == x
  {
    assert Concat([x]) == Concat([]) + x;
  }

  lemma SlicesAre(r: Request, auth: Bytes)
    ensures Concat(Slices(r, auth)) == Frame(r, auth)
  {
    hide Concat, Padding, U32;
    var head, pad, tail := Marker(true, r.recordLen), Zeros(Padding(|auth|)), Zeros(Padding(|Concat(r.segments)|));
    var a := if auth == [] then [] else [auth];
    var p := if Padding(|auth|) == 0 then [] else [pad];
    var t := if Padding(|Concat(r.segments)|) == 0 then [] else [tail];
    ConcatAppend([head, r.header] + a + p + [Zeros(8)] + r.segments, t);
    ConcatAppend([head, r.header] + a + p + [Zeros(8)], r.segments);
    ConcatAppend([head, r.header] + a + p, [Zeros(8)]);
    ConcatAppend([head, r.header] + a, p);
    ConcatAppend([head, r.header], a);
    ConcatAppend([head], [r.header]);
    assert [head, r.header] == [head] + [r.header];
    ConcatOne(head);
    ConcatOne(r.header);
    ConcatOne(auth);
    ConcatOne(pad);
    ConcatOne(Zeros(8));
    ConcatOne(tail);
    ConcatNone();
  }

  lemma ConcatNone()
    ensures Concat([]) == []
  {
  }

  predicate NoneEmpty(s: seq<Bytes>) {
    forall i | 0 <= i < |s| :: s[i] != []
  }

  lemma {:induction false} NoneEmptyHasBytes(s: seq<Bytes>)
    requires NoneEmpty(s) && s != []
    ensures Concat(s) != []
  {
    assert s[|s| - 1] != [];
  }

  lemma SlicesNonEmpty(r: Request, auth: Bytes)
    requires Announced(r, auth)
    ensures NoneEmpty(Slices(r, auth))
  {
    hide U32, Padding;
    forall i | 0 <= i < |r.segments|
      ensures r.segments[i] != []
    {
      assert r.segments[i] in r.segments;
    }
  }

  lemma {:induction false} ConcatHead(s: seq<Bytes>)
    requires s != []
    ensures Concat(s) == s[0] + Concat(s[1..])
  {
    assert s == [s[0]] + s[1..];
    ConcatAppend([s[0]], s[1..]);
    ConcatOne(s[0]);
  }

  /** `IoSlice::advance_slices`: drops what was written, whole slices and the start of one. */
  method AdvanceSlices(slices: seq<Bytes>, written: nat) returns (rest: seq<Bytes>)
    requires written <= |Concat(slices)| && NoneEmpty(slices)
    ensures Concat(rest) == Concat(slices)[written..] && NoneEmpty(rest)
  {
    rest := slices;
    var left := written;
    assert Concat(slices)[0..] == Concat(slices);
    while rest != [] && left >= |rest[0]|
      invariant 0 <= left <= written && |Concat(rest)| >= left && Concat(rest) == Concat(slices)[written - left..] && NoneEmpty(rest)
      decreases |rest|
    {
      ConcatHead(rest);
      assert Concat(rest[1..]) == Concat(rest)[|rest[0]|..];
      assert Concat(slices)[written - left..][|rest[0]|..] == Concat(slices)[written - left + |rest[0]|..];
      left := left - |rest[0]|;
      rest := rest[1..];
    }
    if rest != [] {
      ConcatHead(rest);
      ConcatHead([rest[0][left..]] + rest[1..]);
      assert ([rest[0][left..]] + rest[1..])[1..] == rest[1..];
      assert Concat(rest)[left..] == rest[0][left..] + Concat(rest[1..]);
      assert Concat(slices)[written - left..][left..] == Concat(slices)[written..];
      rest := [rest[0][left..]] + rest[1..];
    }
  }

  /** The stream; it takes any number of bytes at a time, or fails. */
  class Sink {
    ghost var wire: Bytes

    method WriteVectored(slices: seq<Bytes>) returns (r: Result<nat, Error>)
      modifies this
      ensures r.Err? ==> wire == old(wire)
      ensures r.Ok? ==> r.value <= |Concat(slices)| && wire == old(wire) + Concat(slices)[..r.value]
    {
      var written: int := *;
      if 0 <= written <= |Concat(slices)| {
        wire := wire + Concat(slices)[..written];
        return Ok(written);
      }
      return Err(Io);
    }
  }

  /** Writes a batch, however little of it the stream takes at a time. */
  method WriteRecordBatch(sink: Sink, batch: seq<Request>, auth: Bytes) returns (r: Result<bool, Error>)
    requires forall i | 0 <= i < |batch| :: Announced(batch[i], auth)
    modifies sink
    ensures r.Ok? ==> sink.wire == old(sink.wire) + Frames(batch, auth)
    ensures r.Err? ==> old(sink.wire) <= sink.wire <= old(sink.wire) + Frames(batch, auth)
    ensures (exists i | 0 <= i < |batch| :: batch[i].recordLen >= LAST_FRAGMENT) ==> r.Err? && sink.wire == old(sink.wire)
  {
    hide Slices, Announced, Frame;
    for i := 0 to |batch|
      invariant sink.wire == old(sink.wire) && forall j | 0 <= j < i :: batch[j].recordLen < LAST_FRAGMENT
    {
      if batch[i].recordLen >= LAST_FRAGMENT {
        return Err(Rpc);
      }
    }
    var slices: seq<Bytes> := [];
    for i := 0 to |batch|
      invariant sink.wire == old(sink.wire) && Concat(slices) == Frames(batch[..i], auth) && NoneEmpty(slices)
    {
      SlicesAre(batch[i], auth);
      SlicesNonEmpty(batch[i], auth);
      ConcatAppend(slices, Slices(batch[i], auth));
      assert batch[..i + 1][..i] == batch[..i];
      slices := slices + Slices(batch[i], auth);
    }
    assert batch[..|batch|] == batch;
    ghost var all := sink.wire + Concat(slices);
    while slices != []
      invariant old(sink.wire) <= sink.wire && sink.wire + Concat(slices) == all && NoneEmpty(slices)
      decreases |Concat(slices)|
    {
      NoneEmptyHasBytes(slices);
      ghost var before, wire := Concat(slices), sink.wire;
      var written := sink.WriteVectored(slices);
      if written.Err? || written.value == 0 {
        assert sink.wire == wire && sink.wire <= all;
        return Err(Io);
      }
      slices := AdvanceSlices(slices, written.value);
      assert sink.wire + Concat(slices) == wire + before;
    }
    return Ok(true);
  }

  // ---------------------------------------------------------------- reading

  predicate IsLast(marker: nat) {
    marker >= LAST_FRAGMENT
  }

  function SizeOf(marker: nat): nat {
    marker % LAST_FRAGMENT
  }

  /** What `read_record` makes of a stream: the record and what is left, or an error. */
  function ParseRecord(stream: Bytes, read: Bytes, limit: nat): Result<(Bytes, Bytes), Error>
    decreases |stream|
  {
    if |stream| < 4 then Err(Io)
    else
      var marker := Word(stream);
      var last, size := IsLast(marker), SizeOf(marker);
      if |read| + size > limit then Err(Rpc)
      else if |stream| < 4 + size then Err(Io)
      else if last then Ok((read + stream[4..4 + size], stream[4 + size..]))
      else ParseRecord(stream[4 + size..], read + stream[4..4 + size], limit)
  }

  /** A record cut into fragments. */
  function Fragmented(fragments: seq<Bytes>): Bytes {
    if fragments == [] then []
    else Marker(|fragments| == 1, |fragments[0]|) + fragments[0] + Fragmented(fragments[1..])
  }

  lemma MarkerReads(last: bool, size: nat)
    requires size < LAST_FRAGMENT
    ensures |Marker(last, size)| == 4 && IsLast(Word(Marker(last, size))) == last && SizeOf(Word(Marker(last, size))) == size
  {
    hide U32;
    WordOfU32((if last then LAST_FRAGMENT else 0) + size);
  }

  lemma FragmentReads(f: Bytes, last: bool, tail: Bytes, read: Bytes, limit: nat)
    requires |f| < LAST_FRAGMENT && |read| + |f| <= limit
    ensures ParseRecord(Marker(last, |f|) + (f + tail), read, limit) == if last then Ok((read + f, tail)) else ParseRecord(tail, read + f, limit)
  {
    hide Word, Marker, IsLast, SizeOf;
    var stream := Marker(last, |f|) + (f + tail);
    MarkerReads(last, |f|);
    assert stream[..4] == Marker(last, |f|);
    WordPrefix(stream);
    assert stream[4..4 + |f|] == f && stream[4 + |f|..] == tail;
  }

  /** Any fragmentation of a record within the limit reads back as the record. */
  lemma {:induction false} FragmentsReadBack(fragments: seq<Bytes>, rest: Bytes, read: Bytes, limit: nat)
    requires fragments != [] && |read| + |Concat(fragments)| <= limit
    requires forall i | 0 <= i < |fragments| :: |fragments[i]| < LAST_FRAGMENT
    ensures ParseRecord(Fragmented(fragments) + rest, read, limit) == Ok((read + Concat(fragments), rest))
  {
    hide ParseRecord, Marker, Concat;
    var f, tail := fragments[0], Fragmented(fragments[1..]) + rest;
    ConcatHead(fragments);
    FragmentReads(f, |fragments| == 1, tail, read, limit);
    assert Fragmented(fragments) + rest == Marker(|fragments| == 1, |f|) + (f + tail);
    if |fragments| == 1 {
      ConcatNone();
      assert Concat(fragments[1..]) == [] && tail == rest;
      assert read + Concat(fragments) == read + f;
    } else {
      FragmentsReadBack(fragments[1..], rest, read + f, limit);
      assert read + f + Concat(fragments[1..]) == read + Concat(fragments);
    }
  }

  /** A written frame reads back as its record. */
  lemma FrameReadsBack(r: Request, auth: Bytes, rest: Bytes, limit: nat)
    requires Announced(r, auth) && r.recordLen < LAST_FRAGMENT && r.recordLen <= limit
    ensures ParseRecord(Frame(r, auth) + rest, [], limit) == Ok((Record(r, auth), rest))
  {
    hide Record, Marker, ParseRecord;
    var record := Record(r, auth);
    FragmentIs(record);
    ConcatOne(record);
    FragmentsReadBack([record], rest, [], limit);
    assert [] + Concat([record]) == record;
  }

  lemma FragmentIs(record: Bytes)
    ensures Fragmented([record]) == Marker(true, |record|) + record
  {
    assert [record][1..] == [];
  }

  function ParseAll(stream: Bytes, count: nat, limit: nat): Result<(seq<Bytes>, Bytes), Error> {
    if count == 0 then Ok(([], stream))
    else
      match ParseAll(stream, count - 1, limit)
      case Err(e) => Err(e)
      case Ok((records, rest)) =>
        match ParseRecord(rest, [], limit)
        case Err(e) => Err(e)
        case Ok((record, left)) => Ok((records + [record], left))
  }

  function Records(batch: seq<Request>, auth: Bytes): seq<Bytes> {
    seq(|batch|, i requires 0 <= i < |batch| => Record(batch[i], auth))
  }

  /** A written batch reads back as its records, in order. */
  lemma {:induction false} BatchReadsBack(batch: seq<Request>, auth: Bytes, rest: Bytes, limit: nat)
    requires forall i | 0 <= i < |batch| :: Announced(batch[i], auth) && batch[i].recordLen < LAST_FRAGMENT && batch[i].recordLen <= limit
    ensures ParseAll(Frames(batch, auth) + rest, |batch|, limit) == Ok((Records(batch, auth), rest))
  {
    hide ParseRecord, Frame, Record, Announced;
    if batch == [] {
      assert Frames(batch, auth) + rest == rest;
    } else {
      var init, last := batch[..|batch| - 1], batch[|batch| - 1];
      BatchReadsBack(init, auth, Frame(last, auth) + rest, limit);
      FrameReadsBack(last, auth, rest, limit);
      assert Frames(init, auth) + (Frame(last, auth) + rest) == Frames(batch, auth) + rest;
      assert Records(batch, auth) == Records(init, auth) + [Record(last, auth)];
    }
  }

  /** The incoming stream, delivered in pieces of any size. */
  class Source {
    var stream: Bytes

    constructor (stream: Bytes)
      ensures this.stream == stream
    {
      this.stream := stream;
    }

    /** One read: some of the next bytes, at most `most`, or nothing at the end. */
    method ReadSome(most: nat) returns (got: Bytes)
      requires 0 < most
      modifies this
      ensures |got| <= most && old(stream) == got + stream && (got == [] <==> old(stream) == [])
    {
      var k: int := *;
      if !(0 < k <= most && k <= |stream|) {
        k := if stream == [] then 0 else 1;
      }
      got := stream[..k];
      stream := stream[k..];
    }

    method ReadExact(len: nat) returns (r: Result<Bytes, Error>)
      modifies this
      ensures |old(stream)| >= len ==> r == Ok(old(stream)[..len]) && stream == old(stream)[len..]
      ensures |old(stream)| < len ==> r == Err(Io)
    {
      var out: Bytes := [];
      while |out| < len
        invariant |out| <= len && out + stream == old(stream)
        decreases len - |out|
      {
        var got := ReadSome(len - |out|);
        if got == [] {
          assert out + [] == out;
          return Err(Io);
        }
        out := out + got;
      }
      return Ok(out);
    }
  }

  /** Reads one record, fragment by fragment, however the bytes arrive. */
  method ReadRecord(source: Source, limit: nat) returns (r: Result<Bytes, Error>)
    modifies source
    ensures match ParseRecord(old(source.stream), [], limit)
            case Ok((record, rest)) => r == Ok(record) && source.stream == rest
            case Err(e) => r == Err(e)
  {
    hide Word, IsLast, SizeOf;
    var out: Bytes := [];
    ghost var all := source.stream;
    while true
      invariant ParseRecord(source.stream, out, limit) == ParseRecord(all, [], limit)
      decreases |source.stream|
    {
      ghost var before := source.stream;
      var head := source.ReadExact(4);
      if head.Err? {
        return Err(head.error);
      }
      var marker := Word(head.value);
      WordPrefix(before);
      var last, size := IsLast(marker), SizeOf(marker);
      if |out| + size > limit {
        return Err(Rpc);
      }
      var body := source.ReadExact(size);
      if body.Err? {
        return Err(body.error);
      }
      assert before[4..][..size] == before[4..4 + size] && before[4..][size..] == before[4 + size..];
      out := out + body.value;
      if last {
        return Ok(out);
      }
    }
  }

  lemma WordPrefix(s: Bytes)
    ensures |s| >= 4 ==> Word(s[..4]) == Word(s)
  {
  }
}
