/** Compound encoding (src/nfs4/codec.rs, src/nfs4/ops.rs, src/xdr.rs): the flat encoding, the
    segmented one that keeps WRITE bodies apart, their lengths, and the negotiated size check. */
module Encoding {
  import opened Errors
  import opened Grammar

  // ---------------------------------------------------------------- XDR

  function U32(v: nat): (r: Bytes)
    ensures |r| == 4
  {
    [(v / 0x100_0000 % 256) as Byte, (v / 0x1_0000 % 256) as Byte, (v / 0x100 % 256) as Byte, (v % 256) as Byte]
  }

  function U64(v: nat): (r: Bytes)
    ensures |r| == 8
  {
    U32(v / WORD) + U32(v % WORD)
  }

  /** How many words hold that many bytes. */
  function Quads(len: nat): nat {
    (len + 3) / 4
  }

  function Padding(len: nat): (r: nat)
    ensures r < 4 && len + r == 4 * Quads(len)
  {
    (4 - len % 4) % 4
  }

  function Zeros(n: nat): (r: Bytes)
    ensures |r| == n
  {
    seq(n, _ => 0)
  }

  /** Bytes of known length, padded to a word. */
  function Padded(len: nat): (r: nat)
    ensures r == 4 * Quads(len) && len <= r < len + 4
  {
    len + Padding(len)
  }

  function OpaqueLen(len: nat): nat {
    4 + Padded(len)
  }

  function Opaque(v: Bytes): (r: Bytes)
    ensures |r| == OpaqueLen(|v|)
  {
    if v == [] then U32(0) else U32(|v|) + v + Zeros(Padding(|v|))
  }

  function Words(ws: seq<nat>): (r: Bytes)
    ensures |r| == 4 * |ws|
  {
    if ws == [] then [] else Words(ws[..|ws| - 1]) + U32(ws[|ws| - 1])
  }

  // ---------------------------------------------------------------- operations

  predicate StateIdOk(s: StateId) {
    |s.other| == 12
  }

  /** Fixed-width fields have their widths. */
  predicate OpOk(op: NfsOp) {
    match op
    case Close(_, s) => StateIdOk(s)
    case Read(s, _, _) => StateIdOk(s)
    case Write(s, _, _) => StateIdOk(s)
    case ReadDir(_, v, _, _, _) => |v| == 8
    case ExchangeId(v, _) => |v| == 8
    case _ => true
  }

  /** Attributes to set: SIZE is bit 4 of word 0, MODE bit 1 of word 1. */
  datatype SetAttrs = SetAttrs(size: Option<nat>, mode: Option<nat>)
  {
    function BitmapWords(): nat {
      if mode.Some? then 2 else if size.Some? then 1 else 0
    }

    function ValuesLen(): nat {
      (if size.Some? then 8 else 0) + if mode.Some? then 4 else 0
    }

    function Bitmap(): (r: seq<nat>)
      ensures |r| == BitmapWords()
    {
      var first := if size.Some? then 16 else 0;
      if mode.Some? then [first, 2] else if size.Some? then [first] else []
    }

    function Encode(): Bytes {
      U32(BitmapWords()) + Words(Bitmap()) + U32(ValuesLen())
      + (if size.Some? then U64(size.value) else []) + if mode.Some? then U32(mode.value) else []
    }

    function EncodedLen(): nat {
      4 + BitmapWords() * 4 + OpaqueLen(ValuesLen())
    }
  }

  function EncodeBitmap(words: seq<nat>): Bytes {
    U32(|words|) + Words(words)
  }

  function EncodeStateId(s: StateId): Bytes {
    U32(s.seqid) + s.other
  }

  function EncodeChannelAttrs(maxRequest: nat, maxResponse: nat, slots: nat): Bytes {
    Words([0, maxRequest, maxResponse, maxResponse, 64, slots, 0])
  }

  function OpCodeOf(op: NfsOp): nat {
    match op
    case PutRootFh => 24
    case PutFh(_) => 22
    case Lookup(_) => 15
    case SaveFh => 32
    case RestoreFh => 31
    case GetFh => 10
    case GetAttr(_) => 9
    case Open(_, _, _, _, _) => 18
    case Close(_, _) => 4
    case Read(_, _, _) => 25
    case Write(_, _, _) => 38
    case Commit(_, _) => 5
    case Link(_) => 11
    case Remove(_) => 28
    case Verify(_) => 37
    case Rename(_, _) => 29
    case CreateDir(_, _) => 6
    case ReadDir(_, _, _, _, _) => 26
    case ExchangeId(_, _) => 42
    case CreateSession(_, _, _, _, _) => 43
    case ReclaimComplete(_) => 58
  }

  /** What follows the operation code. */
  function EncodeArgs(op: NfsOp): Bytes {
    match op
    case PutRootFh => []
    case PutFh(fh) => Opaque(fh)
    case Lookup(name) => Opaque(name)
    case SaveFh => []
    case RestoreFh => []
    case GetFh => []
    case GetAttr(bitmap) => EncodeBitmap(bitmap)
    case Open(seqid, clientid, owner, name, mode) =>
      U32(seqid) + U32(0x402) + U32(0) + U64(clientid) + Opaque(owner) + U32(1) + U32(1)
      + SetAttrs(Some(0), Some(mode)).Encode() + U32(0) + Opaque(name)
    case Close(seqid, stateid) => U32(seqid) + EncodeStateId(stateid)
    case Read(stateid, offset, count) => EncodeStateId(stateid) + U64(offset) + U32(count)
    case Write(stateid, offset, data) => EncodeStateId(stateid) + U64(offset) + U32(0) + Opaque(data)
    case Commit(offset, count) => U64(offset) + U32(count)
    case Link(name) => Opaque(name)
    case Remove(name) => Opaque(name)
    case Verify(size) => SetAttrs(Some(size), None).Encode()
    case Rename(o, n) => Opaque(o) + Opaque(n)
    case CreateDir(name, mode) => U32(2) + Opaque(name) + SetAttrs(None, Some(mode)).Encode()
    case ReadDir(cookie, verifier, dircount, maxcount, attrs) =>
      U64(cookie) + verifier + U32(dircount) + U32(maxcount) + EncodeBitmap(attrs)
    case ExchangeId(verifier, owner) => verifier + Opaque(owner) + U32(0x1_0000) + U32(0) + U32(0)
    case CreateSession(clientid, sequenceid, req, resp, slots) =>
      U64(clientid) + U32(sequenceid) + U32(0) + EncodeChannelAttrs(req, resp, slots) + EncodeChannelAttrs(8192, 8192, 1) + U32(0) + U32(0)
    case ReclaimComplete(oneFs) => U32(if oneFs then 1 else 0)
  }

  function Encode(op: NfsOp): Bytes {
    U32(OpCodeOf(op)) + EncodeArgs(op)
  }

  /** `NfsOp::encoded_len`, counted without encoding. */
  function EncodedLen(op: NfsOp): nat {
    4 + match op
        case PutRootFh => 0
        case PutFh(fh) => OpaqueLen(|fh|)
        case Lookup(name) => OpaqueLen(|name|)
        case SaveFh => 0
        case RestoreFh => 0
        case GetFh => 0
        case GetAttr(bitmap) => 4 + |bitmap| * 4
        case Open(_, _, owner, name, _) =>
          4 + 4 + 4 + 8 + OpaqueLen(|owner|) + 4 + (4 + SetAttrs(Some(0), Some(0)).EncodedLen()) + 4 + OpaqueLen(|name|)
        case Close(_, _) => 4 + 16
        case Read(_, _, _) => 16 + 8 + 4
        case Write(_, _, data) => 16 + 8 + 4 + OpaqueLen(|data|)
        case Commit(_, _) => 8 + 4
        case Link(name) => OpaqueLen(|name|)
        case Remove(name) => OpaqueLen(|name|)
        case Verify(_) => SetAttrs(Some(0), None).EncodedLen()
        case Rename(o, n) => OpaqueLen(|o|) + OpaqueLen(|n|)
        case CreateDir(name, _) => 4 + OpaqueLen(|name|) + SetAttrs(None, Some(0)).EncodedLen()
        case ReadDir(_, _, _, _, attrs) => 8 + Padded(8) + 4 + 4 + (4 + |attrs| * 4)
        case ExchangeId(_, owner) => Padded(8) + OpaqueLen(|owner|) + 4 + 4 + 4
        case CreateSession(_, _, _, _, _) => 8 + 4 + 4 + 28 + 28 + 4 + 4
        case ReclaimComplete(_) => 4
  }

  lemma SetAttrsLen(a: SetAttrs)
    ensures |a.Encode()| == a.EncodedLen() == 8 + 4 * a.BitmapWords() + a.ValuesLen()
  {
    assert Quads(0) == 0 && Quads(4) == 1 && Quads(8) == 2 && Quads(12) == 3;
    hide U32, U64, Words, Padding, Quads;
  }

  /** The counted length of an operation is the length of its encoding: whole words. */
  lemma OpLenExact(op: NfsOp) returns (words: nat)
    requires OpOk(op)
    ensures |Encode(op)| == EncodedLen(op) == 4 * words
  {
    hide Encode, EncodedLen, OpOk;
    if op.Open? || op.Verify? || op.CreateDir? {
      words := AttrOpLen(op);
    } else if op.ReadDir? || op.ExchangeId? || op.CreateSession? || op.GetAttr? || op.ReclaimComplete? {
      words := SessionOpLen(op);
    } else if op.Close? || op.Read? || op.Write? || op.Commit? {
      words := DataOpLen(op);
    } else {
      words := NameOpLen(op);
    }
  }

  lemma AttrOpLen(op: NfsOp) returns (words: nat)
    requires op.Open? || op.Verify? || op.CreateDir?
    ensures |Encode(op)| == EncodedLen(op) == 4 * words
  {
    hide U32, U64, Opaque, Words, Padding, Quads, SetAttrs.Encode, SetAttrs.EncodedLen;
    match op
    case Open(_, _, owner, name, mode) =>
      SetAttrsLen(SetAttrs(Some(0), Some(mode)));
      SetAttrsLen(SetAttrs(Some(0), Some(0)));
      words := 18 + Quads(|owner|) + Quads(|name|);
    case Verify(size) =>
      SetAttrsLen(SetAttrs(Some(size), None));
      SetAttrsLen(SetAttrs(Some(0), None));
      words := 6;
    case CreateDir(name, mode) =>
      SetAttrsLen(SetAttrs(None, Some(mode)));
      SetAttrsLen(SetAttrs(None, Some(0)));
      words := 8 + Quads(|name|);
  }

  lemma SessionOpLen(op: NfsOp) returns (words: nat)
    requires OpOk(op) && (op.ReadDir? || op.ExchangeId? || op.CreateSession? || op.GetAttr? || op.ReclaimComplete?)
    ensures |Encode(op)| == EncodedLen(op) == 4 * words
  {
    assert Quads(8) == 2;
    hide U32, U64, Opaque, Words, Padding, Quads;
    words := match op
      case ReadDir(_, _, _, _, attrs) => 8 + |attrs|
      case ExchangeId(_, owner) => 7 + Quads(|owner|)
      case CreateSession(_, _, _, _, _) => 21
      case GetAttr(bitmap) => 2 + |bitmap|
      case ReclaimComplete(_) => 2;
  }

  lemma DataOpLen(op: NfsOp) returns (words: nat)
    requires OpOk(op) && (op.Close? || op.Read? || op.Write? || op.Commit?)
    ensures |Encode(op)| == EncodedLen(op) == 4 * words
  {
    hide U32, U64, Opaque, Padding, Quads;
    words := match op
      case Close(_, _) => 6
      case Read(_, _, _) => 8
      case Write(_, _, data) => 9 + Quads(|data|)
      case Commit(_, _) => 4;
  }

  lemma NameOpLen(op: NfsOp) returns (words: nat)
    requires op.PutRootFh? || op.PutFh? || op.Lookup? || op.SaveFh? || op.RestoreFh? || op.GetFh? || op.Link? || op.Remove? || op.Rename?
    ensures |Encode(op)| == EncodedLen(op) == 4 * words
  {
    hide U32, Opaque, Padding, Quads;
    words := match op
      case PutFh(fh) => 2 + Quads(|fh|)
      case Lookup(name) => 2 + Quads(|name|)
      case Link(name) => 2 + Quads(|name|)
      case Remove(name) => 2 + Quads(|name|)
      case Rename(o, n) => 3 + Quads(|o|) + Quads(|n|)
      case PutRootFh => 1
      case SaveFh => 1
      case RestoreFh => 1
      case GetFh => 1;
  }

  // ---------------------------------------------------------------- compounds

  function EncodeSequence(q: SequenceArgs): Bytes {
    U32(53) + q.sessionid + U32(q.sequenceid) + U32(q.slotid) + U32(q.highestSlotid) + U32(if q.cachethis then 1 else 0)
  }

  function EncodeOps(ops: seq<NfsOp>): Bytes {
    if ops == [] then [] else EncodeOps(ops[..|ops| - 1]) + Encode(ops[|ops| - 1])
  }

  /** Tag, minor version, operation count, SEQUENCE. */
  function EncodeHead(tag: Bytes, q: SequenceArgs, count: nat): Bytes {
    Opaque(tag) + U32(1) + U32(count) + EncodeSequence(q)
  }

  /** The flat encoding of `encode_compound_inner`. */
  function EncodeFlat(tag: Bytes, q: SequenceArgs, ops: seq<NfsOp>): Bytes {
    EncodeHead(tag, q, |ops| + 1) + EncodeOps(ops)
  }

  function OpsLen(ops: seq<NfsOp>): nat {
    if ops == [] then 0 else OpsLen(ops[..|ops| - 1]) + EncodedLen(ops[|ops| - 1])
  }

  /** `compound_with_sequence_encoded_len`, counted without encoding. */
  function CompoundLen(tag: Bytes, ops: seq<NfsOp>): nat {
    OpaqueLen(|tag|) + 4 + 4 + OpsLen(ops) + (4 + Padded(16) + 4 + 4 + 4 + 4)
  }

  predicate OpsOk(ops: seq<NfsOp>) {
    forall i | 0 <= i < |ops| :: OpOk(ops[i])
  }

  lemma {:induction false} OpsLenExact(ops: seq<NfsOp>) returns (words: nat)
    requires OpsOk(ops)
    ensures |EncodeOps(ops)| == OpsLen(ops) == 4 * words
  {
    hide Encode, EncodedLen, OpOk;
    if ops == [] {
      words := 0;
    } else {
      var rest := OpsLenExact(ops[..|ops| - 1]);
      var last := OpLenExact(ops[|ops| - 1]);
      words := rest + last;
    }
  }

  /** The counted length of a compound is the length of its encoding, a multiple of four. */
  lemma CompoundLenExact(tag: Bytes, q: SequenceArgs, ops: seq<NfsOp>)
    requires OpsOk(ops) && |q.sessionid| == 16
    ensures |EncodeFlat(tag, q, ops)| == CompoundLen(tag, ops) && CompoundLen(tag, ops) % 4 == 0
  {
    assert Quads(16) == 4;
    hide U32, Opaque, EncodeOps, OpsLen, OpOk, Quads, Padding;
    var words := OpsLenExact(ops);
    assert |EncodeSequence(q)| == 36;
    FourTimes(12 + Quads(|tag|) + words);
  }

  lemma FourTimes(k: nat)
    ensures 4 * k % 4 == 0
  {
  }

  function Concat(segments: seq<Bytes>): Bytes {
    if segments == [] then [] else Concat(segments[..|segments| - 1]) + segments[|segments| - 1]
  }

  lemma ConcatPush(segments: seq<Bytes>, x: Bytes)
    ensures Concat(segments + [x]) == Concat(segments) + x
  {
    assert (segments + [x])[..|segments|] == segments;
  }

  /** `RpcPayload::from_segments`: empty ranges are dropped and lengths added up. */
  method FromSegments(raw: seq<Bytes>) returns (segments: seq<Bytes>, len: nat)
    ensures Concat(segments) == Concat(raw) && len == |Concat(raw)| && [] !in segments
    ensures forall x | x in raw && x != [] :: x in segments
  {
    segments, len := [], 0;
    for i := 0 to |raw|
      invariant Concat(segments) == Concat(raw[..i]) && len == |Concat(segments)| && [] !in segments
      invariant forall x | x in raw[..i] && x != [] :: x in segments
    {
      assert raw[..i + 1] == raw[..i] + [raw[i]];
      ConcatPush(raw[..i], raw[i]);
      if raw[i] != [] {
        ConcatPush(segments, raw[i]);
        segments, len := segments + [raw[i]], len + |raw[i]|;
      } else {
        assert Concat(raw[..i]) + [] == Concat(raw[..i]);
      }
    }
    assert raw[..|raw|] == raw;
  }

  lemma EncodeOpsPush(ops: seq<NfsOp>, i: nat)
    requires i < |ops|
    ensures EncodeOps(ops[..i + 1]) == EncodeOps(ops[..i]) + Encode(ops[i])
  {
    assert ops[..i + 1][..i] == ops[..i];
  }

  /** What precedes a WRITE's body, the body, and its padding are the WRITE's encoding. */
  lemma WriteParts(op: NfsOp)
    requires op.Write?
    ensures U32(38) + EncodeStateId(op.stateid) + U64(op.offset) + U32(0) + U32(|op.data|) + op.data + Zeros(Padding(|op.data|)) == Encode(op)
  {
    hide U32, U64;
    if op.data == [] {
      assert Zeros(Padding(0)) == [];
    }
  }

  lemma Join(a: Bytes, b: Bytes, c: Bytes)
    ensures a + (b + c) == a + b + c
  {
  }

  /** Closing a segment before the body and opening the next after it changes no byte. */
  lemma SplitWrite(raw: seq<Bytes>, buf: Bytes, head: Bytes, data: Bytes, padding: Bytes)
    ensures Concat(raw + [buf + head] + [data]) + padding == Concat(raw) + buf + (head + data + padding)
  {
    hide Concat;
    calc {
      Concat(raw + [buf + head] + [data]) + padding;
      { ConcatPush(raw + [buf + head], data); }
      Concat(raw + [buf + head]) + data + padding;
      { ConcatPush(raw, buf + head); }
      Concat(raw) + (buf + head) + data + padding;
      { Join(Concat(raw), buf, head); }
      Concat(raw) + buf + head + data + padding;
      { Regroup(Concat(raw) + buf, head, data, padding); }
      Concat(raw) + buf + (head + data + padding);
    }
  }

  lemma Regroup(a: Bytes, b: Bytes, c: Bytes, d: Bytes)
    ensures a + b + c + d == a + (b + c + d)
  {
    Join(a, b + c, d);
    Join(a, b, c);
  }

  // ---------------------------------------------------------------- what the bytes say

  predicate Wide(v: nat) {
    v < WORD * WORD
  }

  predicate StateIdFits(s: StateId) {
    StateIdOk(s) && s.seqid < WORD
  }

  predicate WordsFit(ws: seq<nat>) {
    |ws| < WORD && forall i | 0 <= i < |ws| :: ws[i] < WORD
  }

  /** Every field fits its width. */
  predicate OpFits(op: NfsOp) {
    match op
    case PutRootFh => true
    case PutFh(fh) => |fh| < WORD
    case Lookup(name) => |name| < WORD
    case SaveFh => true
    case RestoreFh => true
    case GetFh => true
    case GetAttr(bitmap) => WordsFit(bitmap)
    case Open(seqid, clientid, owner, name, mode) => seqid < WORD && Wide(clientid) && |owner| < WORD && |name| < WORD && mode < WORD
    case Close(seqid, stateid) => seqid < WORD && StateIdFits(stateid)
    case Read(stateid, offset, count) => StateIdFits(stateid) && Wide(offset) && count < WORD
    case Write(stateid, offset, data) => StateIdFits(stateid) && Wide(offset) && |data| < WORD
    case Commit(offset, count) => Wide(offset) && count < WORD
    case Link(name) => |name| < WORD
    case Remove(name) => |name| < WORD
    case Verify(size) => Wide(size)
    case Rename(o, n) => |o| < WORD && |n| < WORD
    case CreateDir(name, mode) => |name| < WORD && mode < WORD
    case ReadDir(cookie, verifier, dircount, maxcount, attrs) =>
      Wide(cookie) && |verifier| == 8 && dircount < WORD && maxcount < WORD && WordsFit(attrs)
    case ExchangeId(verifier, owner) => |verifier| == 8 && |owner| < WORD
    case CreateSession(clientid, sequenceid, req, resp, slots) => Wide(clientid) && sequenceid < WORD && req < WORD && resp < WORD && slots < WORD
    case ReclaimComplete(_) => true
  }

  predicate CompoundFits(tag: Bytes, q: SequenceArgs, ops: seq<NfsOp>) {
    && |tag| < WORD && |q.sessionid| == 16 && q.sequenceid < WORD && q.slotid < WORD && q.highestSlotid < WORD
    && |ops| + 1 < WORD && forall i | 0 <= i < |ops| :: OpFits(ops[i])
  }

  lemma WordOfU32(v: nat)
    requires v < WORD
    ensures Word(U32(v)) == v
  {
  }

  lemma U32Reads(v: nat, rest: Bytes)
    requires v < WORD
    ensures ReadU32(U32(v) + rest) == Ok((v, rest))
  {
    WordOfU32(v);
    hide U32;
    var b := U32(v) + rest;
    assert b[4..] == rest && Word(b) == Word(U32(v));
  }

  lemma ExactlyReads(v: nat, rest: Bytes)
    requires v < WORD
    ensures ReadExactly(U32(v) + rest, v) == Ok((v, rest))
  {
    hide U32, ReadU32;
    U32Reads(v, rest);
  }

  lemma U64Reads(v: nat, rest: Bytes)
    requires Wide(v)
    ensures ReadU64(U64(v) + rest) == Ok((v, rest))
  {
    hide U32, ReadU32;
    Join(U32(v / WORD), U32(v % WORD), rest);
    U32Reads(v / WORD, U32(v % WORD) + rest);
    U32Reads(v % WORD, rest);
  }

  lemma FixedReads(v: Bytes, rest: Bytes)
    ensures ReadFixed(v + rest, |v|) == Ok((v, rest))
  {
  }

  lemma OpaqueReads(v: Bytes, rest: Bytes)
    requires |v| < WORD
    ensures ReadOpaque(Opaque(v) + rest) == Ok((v, rest))
  {
    hide U32, ReadU32, ReadFixed;
    var pad := Zeros(Padding(|v|));
    if v == [] {
      U32Reads(0, rest);
      assert [] + rest == rest;
      FixedReads([], rest);
    } else {
      Join(U32(|v|) + v, pad, rest);
      Join(U32(|v|), v, pad + rest);
      U32Reads(|v|, v + (pad + rest));
      FixedReads(v, pad + rest);
      FixedReads(pad, rest);
    }
  }

  lemma WordsHead(ws: seq<nat>)
    requires ws != []
    ensures Words(ws) == U32(ws[0]) + Words(ws[1..])
  {
    hide U32;
    if |ws| == 1 {
      assert ws[..0] == [] && ws[1..] == [];
      assert [] + U32(ws[0]) == U32(ws[0]) == U32(ws[0]) + [];
    } else {
      var init, last := ws[..|ws| - 1], ws[|ws| - 1];
      WordsHead(init);
      assert init[1..] == ws[1..][..|ws[1..]| - 1];
      Join(U32(ws[0]), Words(init[1..]), U32(last));
    }
  }

  lemma {:induction false} WordsRead(ws: seq<nat>, rest: Bytes)
    requires forall i | 0 <= i < |ws| :: ws[i] < WORD
    ensures ReadWords(Words(ws) + rest, |ws|) == Ok((ws, rest))
  {
    hide U32, ReadU32;
    if ws == [] {
      assert [] + rest == rest;
    } else {
      hide Words;
      WordsHead(ws);
      Join(U32(ws[0]), Words(ws[1..]), rest);
      U32Reads(ws[0], Words(ws[1..]) + rest);
      WordsRead(ws[1..], rest);
      assert [ws[0]] + ws[1..] == ws;
    }
  }

  lemma BitmapReads(ws: seq<nat>, rest: Bytes)
    requires WordsFit(ws)
    ensures ReadBitmap(EncodeBitmap(ws) + rest) == Ok((ws, rest))
  {
    hide U32, ReadU32, Words, ReadWords;
    Join(U32(|ws|), Words(ws), rest);
    U32Reads(|ws|, Words(ws) + rest);
    WordsRead(ws, rest);
  }

  lemma StateIdReads(s: StateId, rest: Bytes)
    requires StateIdFits(s)
    ensures ReadStateId(EncodeStateId(s) + rest) == Ok((s, rest))
  {
    hide U32, ReadU32, ReadFixed;
    Join(U32(s.seqid), s.other, rest);
    U32Reads(s.seqid, s.other + rest);
    FixedReads(s.other, rest);
  }

  lemma AttrsRead(a: SetAttrs, rest: Bytes)
    requires (a.size.Some? ==> Wide(a.size.value)) && (a.mode.Some? ==> a.mode.value < WORD)
    ensures ReadAttrs(a.Encode() + rest) == Ok(((a.size, a.mode), rest))
  {
    hide U32, U64, ReadU32, ReadU64, ReadExactly, Words, ReadWords, ReadBitmap;
    var bits, size, mode := a.Bitmap(), if a.size.Some? then U64(a.size.value) else [], if a.mode.Some? then U32(a.mode.value) else [];
    var head := EncodeBitmap(bits);
    Join(head + U32(a.ValuesLen()) + size, mode, rest);
    Join(head + U32(a.ValuesLen()), size, mode + rest);
    Join(head, U32(a.ValuesLen()), size + (mode + rest));
    BitmapReads(bits, U32(a.ValuesLen()) + (size + (mode + rest)));
    ExactlyReads(a.ValuesLen(), size + (mode + rest));
    if a.size.Some? {
      U64Reads(a.size.value, mode + rest);
    } else {
      assert [] + (mode + rest) == mode + rest;
    }
    if a.mode.Some? {
      U32Reads(a.mode.value, rest);
    } else {
      assert [] + rest == rest;
    }
  }

  /** What the arguments say: a name or two. */
  lemma NamesRead(op: NfsOp, rest: Bytes)
    requires OpFits(op) && (op.PutFh? || op.Lookup? || op.Link? || op.Remove? || op.Rename?)
    ensures ReadArgs(OpCodeOf(op), EncodeArgs(op) + rest) == Ok((op, rest))
  {
    hide Opaque, ReadOpaque;
    if op.Rename? {
      Join(Opaque(op.oldName), Opaque(op.newName), rest);
      OpaqueReads(op.oldName, Opaque(op.newName) + rest);
      OpaqueReads(op.newName, rest);
    } else {
      OpaqueReads(if op.PutFh? then op.handle else op.name, rest);
    }
  }

  lemma PlainReads(op: NfsOp, rest: Bytes)
    requires OpFits(op) && (op.PutRootFh? || op.SaveFh? || op.RestoreFh? || op.GetFh? || op.GetAttr? || op.ReclaimComplete?)
    ensures ReadArgs(OpCodeOf(op), EncodeArgs(op) + rest) == Ok((op, rest))
  {
    hide U32, ReadU32, EncodeBitmap, ReadBitmap;
    assert [] + rest == rest;
    if op.GetAttr? {
      BitmapReads(op.bitmap, rest);
    } else if op.ReclaimComplete? {
      U32Reads(if op.oneFs then 1 else 0, rest);
    }
  }

  lemma CloseReads(op: NfsOp, rest: Bytes)
    requires OpFits(op) && (op.Close? || op.Commit?)
    ensures ReadArgs(OpCodeOf(op), EncodeArgs(op) + rest) == Ok((op, rest))
  {
    hide U32, U64, EncodeStateId, ReadU32, ReadU64, ReadStateId;
    if op.Close? {
      Join(U32(op.seqid), EncodeStateId(op.stateid), rest);
      U32Reads(op.seqid, EncodeStateId(op.stateid) + rest);
      StateIdReads(op.stateid, rest);
    } else {
      Join(U64(op.offset), U32(op.count), rest);
      U64Reads(op.offset, U32(op.count) + rest);
      U32Reads(op.count, rest);
    }
  }

  lemma ReadReads(op: NfsOp, rest: Bytes)
    requires OpFits(op) && op.Read?
    ensures ReadArgs(OpCodeOf(op), EncodeArgs(op) + rest) == Ok((op, rest))
  {
    hide U32, U64, EncodeStateId, ReadU32, ReadU64, ReadStateId;
    var s, o, c := EncodeStateId(op.stateid), U64(op.offset), U32(op.count);
    Join(s + o, c, rest);
    Join(s, o, c + rest);
    StateIdReads(op.stateid, o + (c + rest));
    U64Reads(op.offset, c + rest);
    U32Reads(op.count, rest);
  }

  lemma WriteReads(op: NfsOp, rest: Bytes)
    requires OpFits(op) && op.Write?
    ensures ReadArgs(OpCodeOf(op), EncodeArgs(op) + rest) == Ok((op, rest))
  {
    hide U32, U64, EncodeStateId, Opaque, ReadU64, ReadStateId, ReadExactly, ReadOpaque;
    var s, o, z, d := EncodeStateId(op.stateid), U64(op.offset), U32(0), Opaque(op.data);
    Join(s + o + z, d, rest);
    Join(s + o, z, d + rest);
    Join(s, o, z + (d + rest));
    StateIdReads(op.stateid, o + (z + (d + rest)));
    U64Reads(op.offset, z + (d + rest));
    ExactlyReads(0, d + rest);
    OpaqueReads(op.data, rest);
  }

  lemma AttrOpReads(op: NfsOp, rest: Bytes)
    requires OpFits(op) && (op.Verify? || op.CreateDir?)
    ensures ReadArgs(OpCodeOf(op), EncodeArgs(op) + rest) == Ok((op, rest))
  {
    hide U32, Opaque, SetAttrs.Encode, ReadAttrs, ReadExactly, ReadOpaque;
    if op.Verify? {
      AttrsRead(SetAttrs(Some(op.size), None), rest);
    } else {
      var k, n, a := U32(2), Opaque(op.name), SetAttrs(None, Some(op.mode)).Encode();
      Join(k + n, a, rest);
      Join(k, n, a + rest);
      ExactlyReads(2, n + (a + rest));
      OpaqueReads(op.name, a + rest);
      AttrsRead(SetAttrs(None, Some(op.mode)), rest);
    }
  }

  lemma CreationReads(op: NfsOp, rest: Bytes)
    requires OpFits(op) && op.Open?
    ensures ReadCreation(op.seqid, op.clientid, op.owner,
              U32(1) + (U32(1) + (SetAttrs(Some(0), Some(op.fileMode)).Encode() + (U32(0) + (Opaque(op.name) + rest))))) == Ok((op, rest))
  {
    hide U32, Opaque, SetAttrs.Encode, ReadAttrs, ReadExactly, ReadOpaque;
    var a, z, n := SetAttrs(Some(0), Some(op.fileMode)).Encode(), U32(0), Opaque(op.name);
    ExactlyReads(1, U32(1) + (a + (z + (n + rest))));
    ExactlyReads(1, a + (z + (n + rest)));
    AttrsRead(SetAttrs(Some(0), Some(op.fileMode)), z + (n + rest));
    ExactlyReads(0, n + rest);
    OpaqueReads(op.name, rest);
  }

  lemma OpenReads(op: NfsOp, rest: Bytes)
    requires OpFits(op) && op.Open?
    ensures ReadArgs(OpCodeOf(op), EncodeArgs(op) + rest) == Ok((op, rest))
  {
    hide U32, U64, Opaque, SetAttrs.Encode, ReadU32, ReadU64, ReadExactly, ReadOpaque, ReadCreation;
    var s, x, z, c, o := U32(op.seqid), U32(0x402), U32(0), U64(op.clientid), Opaque(op.owner);
    var i, a, n := U32(1), SetAttrs(Some(0), Some(op.fileMode)).Encode(), Opaque(op.name);
    var r4 := n + rest;
    var r3 := z + r4;
    var r2 := a + r3;
    var r1 := i + r2;
    var r0 := i + r1;
    Join(s + x + z + c + o + i + i + a + z, n, rest);
    Join(s + x + z + c + o + i + i + a, z, r4);
    Join(s + x + z + c + o + i + i, a, r3);
    Join(s + x + z + c + o + i, i, r2);
    Join(s + x + z + c + o, i, r1);
    Join(s + x + z + c, o, r0);
    Join(s + x + z, c, o + r0);
    Join(s + x, z, c + (o + r0));
    Join(s, x, z + (c + (o + r0)));
    U32Reads(op.seqid, x + (z + (c + (o + r0))));
    ExactlyReads(0x402, z + (c + (o + r0)));
    ExactlyReads(0, c + (o + r0));
    U64Reads(op.clientid, o + r0);
    OpaqueReads(op.owner, r0);
    CreationReads(op, rest);
  }

  lemma ReadDirReads(op: NfsOp, rest: Bytes)
    requires OpFits(op) && op.ReadDir?
    ensures ReadArgs(OpCodeOf(op), EncodeArgs(op) + rest) == Ok((op, rest))
  {
    hide U32, U64, EncodeBitmap, ReadU32, ReadU64, ReadFixed, ReadBitmap;
    var c, v, d, m, a := U64(op.cookie), op.verifier, U32(op.dircount), U32(op.maxcount), EncodeBitmap(op.attrs);
    Join(c + v + d + m, a, rest);
    Join(c + v + d, m, a + rest);
    Join(c + v, d, m + (a + rest));
    Join(c, v, d + (m + (a + rest)));
    U64Reads(op.cookie, v + (d + (m + (a + rest))));
    FixedReads(op.verifier, d + (m + (a + rest)));
    U32Reads(op.dircount, m + (a + rest));
    U32Reads(op.maxcount, a + rest);
    BitmapReads(op.attrs, rest);
  }

  lemma ExchangeIdReads(op: NfsOp, rest: Bytes)
    requires OpFits(op) && op.ExchangeId?
    ensures ReadArgs(OpCodeOf(op), EncodeArgs(op) + rest) == Ok((op, rest))
  {
    hide U32, Opaque, ReadExactly, ReadFixed, ReadOpaque;
    var v, o, f, z := op.verifier, Opaque(op.owner), U32(0x1_0000), U32(0);
    Join(v + o + f + z, z, rest);
    Join(v + o + f, z, z + rest);
    Join(v + o, f, z + (z + rest));
    Join(v, o, f + (z + (z + rest)));
    FixedReads(op.verifier, o + (f + (z + (z + rest))));
    OpaqueReads(op.owner, f + (z + (z + rest)));
    ExactlyReads(0x1_0000, z + (z + rest));
    ExactlyReads(0, z + rest);
    ExactlyReads(0, rest);
  }

  lemma ChannelReads(req: nat, resp: nat, slots: nat, rest: Bytes)
    requires req < WORD && resp < WORD && slots < WORD
    ensures ReadChannel(EncodeChannelAttrs(req, resp, slots) + rest) == Ok(((req, resp, slots), rest))
  {
    hide Words, ReadWords;
    WordsRead([0, req, resp, resp, 64, slots, 0], rest);
  }

  lemma CreateSessionReads(op: NfsOp, rest: Bytes)
    requires OpFits(op) && op.CreateSession?
    ensures ReadArgs(OpCodeOf(op), EncodeArgs(op) + rest) == Ok((op, rest))
  {
    hide U32, U64, EncodeChannelAttrs, ReadU32, ReadU64, ReadExactly, ReadChannel;
    var c, s, z := U64(op.clientid), U32(op.sequenceid), U32(0);
    var f, b := EncodeChannelAttrs(op.maxRequest, op.maxResponse, op.slots), EncodeChannelAttrs(8192, 8192, 1);
    var r1 := z + (z + rest);
    Join(c + s + z + f + b + z, z, rest);
    Join(c + s + z + f + b, z, z + rest);
    Join(c + s + z + f, b, r1);
    Join(c + s + z, f, b + r1);
    Join(c + s, z, f + (b + r1));
    Join(c, s, z + (f + (b + r1)));
    U64Reads(op.clientid, s + (z + (f + (b + r1))));
    U32Reads(op.sequenceid, z + (f + (b + r1)));
    ExactlyReads(0, f + (b + r1));
    ChannelReads(op.maxRequest, op.maxResponse, op.slots, b + r1);
    ChannelReads(8192, 8192, 1, r1);
    ExactlyReads(0, z + rest);
    ExactlyReads(0, rest);
  }

  /** An encoded operation reads back as that operation, whatever follows it. */
  lemma OpReadsBack(op: NfsOp, rest: Bytes)
    requires OpFits(op)
    ensures ReadOp(Encode(op) + rest) == Ok((op, rest))
  {
    hide U32, ReadU32, EncodeArgs, ReadArgs, OpFits;
    var code := OpCodeOf(op);
    Join(U32(code), EncodeArgs(op), rest);
    U32Reads(code, EncodeArgs(op) + rest);
    match op
    case Open(_, _, _, _, _) => OpenReads(op, rest);
    case Close(_, _) => CloseReads(op, rest);
    case Commit(_, _) => CloseReads(op, rest);
    case Read(_, _, _) => ReadReads(op, rest);
    case Write(_, _, _) => WriteReads(op, rest);
    case Verify(_) => AttrOpReads(op, rest);
    case CreateDir(_, _) => AttrOpReads(op, rest);
    case ReadDir(_, _, _, _, _) => ReadDirReads(op, rest);
    case ExchangeId(_, _) => ExchangeIdReads(op, rest);
    case CreateSession(_, _, _, _, _) => CreateSessionReads(op, rest);
    case PutFh(_) => NamesRead(op, rest);
    case Lookup(_) => NamesRead(op, rest);
    case Link(_) => NamesRead(op, rest);
    case Remove(_) => NamesRead(op, rest);
    case Rename(_, _) => NamesRead(op, rest);
    case _ => PlainReads(op, rest);
  }

  lemma EncodeOpsHead(ops: seq<NfsOp>)
    requires ops != []
    ensures EncodeOps(ops) == Encode(ops[0]) + EncodeOps(ops[1..])
  {
    hide Encode;
    if |ops| == 1 {
      assert ops[..0] == [] && ops[1..] == [];
      assert [] + Encode(ops[0]) == Encode(ops[0]) == Encode(ops[0]) + [];
    } else {
      var init, last := ops[..|ops| - 1], ops[|ops| - 1];
      EncodeOpsHead(init);
      assert init[1..] == ops[1..][..|ops[1..]| - 1];
      Join(Encode(ops[0]), EncodeOps(init[1..]), Encode(last));
    }
  }

  lemma {:induction false} OpsReadBack(ops: seq<NfsOp>, rest: Bytes)
    requires forall i | 0 <= i < |ops| :: OpFits(ops[i])
    ensures ReadOps(EncodeOps(ops) + rest, |ops|) == Ok((ops, rest))
  {
    hide Encode, ReadOp, OpFits;
    if ops == [] {
      assert [] + rest == rest;
    } else {
      hide EncodeOps;
      EncodeOpsHead(ops);
      Join(Encode(ops[0]), EncodeOps(ops[1..]), rest);
      OpReadsBack(ops[0], EncodeOps(ops[1..]) + rest);
      OpsReadBack(ops[1..], rest);
      assert [ops[0]] + ops[1..] == ops;
    }
  }

  lemma SequenceReads(q: SequenceArgs, rest: Bytes)
    requires |q.sessionid| == 16 && q.sequenceid < WORD && q.slotid < WORD && q.highestSlotid < WORD
    ensures ReadSequence(EncodeSequence(q) + rest) == Ok((q, rest))
  {
    hide U32, ReadU32, ReadExactly, ReadFixed;
    var k, i, s, t, h, c := U32(53), q.sessionid, U32(q.sequenceid), U32(q.slotid), U32(q.highestSlotid), U32(if q.cachethis then 1 else 0);
    Join(k + i + s + t + h, c, rest);
    Join(k + i + s + t, h, c + rest);
    Join(k + i + s, t, h + (c + rest));
    Join(k + i, s, t + (h + (c + rest)));
    Join(k, i, s + (t + (h + (c + rest))));
    ExactlyReads(53, i + (s + (t + (h + (c + rest)))));
    FixedReads(q.sessionid, s + (t + (h + (c + rest))));
    U32Reads(q.sequenceid, t + (h + (c + rest)));
    U32Reads(q.slotid, h + (c + rest));
    U32Reads(q.highestSlotid, c + rest);
    U32Reads(if q.cachethis then 1 else 0, rest);
  }

  /** An encoded compound reads back as its tag, its SEQUENCE and its operations in order. */
  lemma CompoundReadsBack(tag: Bytes, q: SequenceArgs, ops: seq<NfsOp>, rest: Bytes)
    requires CompoundFits(tag, q, ops)
    ensures ReadCompound(EncodeFlat(tag, q, ops) + rest) == Ok((Compound(tag, q, ops), rest))
  {
    hide U32, Opaque, EncodeSequence, EncodeOps, ReadU32, ReadExactly, ReadOpaque, ReadSequence, ReadOps, OpFits;
    var t, m, n, s, o := Opaque(tag), U32(1), U32(|ops| + 1), EncodeSequence(q), EncodeOps(ops);
    Join(t + m + n + s, o, rest);
    Join(t + m + n, s, o + rest);
    Join(t + m, n, s + (o + rest));
    Join(t, m, n + (s + (o + rest)));
    OpaqueReads(tag, m + (n + (s + (o + rest))));
    ExactlyReads(1, n + (s + (o + rest)));
    U32Reads(|ops| + 1, s + (o + rest));
    SequenceReads(q, o + rest);
    OpsReadBack(ops, rest);
  }

  // ---------------------------------------------------------------- the segmented encoding

  /** `encode_compound_with_sequence`: each WRITE body becomes a segment of its own, uncopied; the
      segments together are the flat encoding, and read back as the compound. */
  method EncodeSegments(tag: Bytes, q: SequenceArgs, ops: seq<NfsOp>) returns (segments: seq<Bytes>, len: nat)
    ensures CompoundFits(tag, q, ops) ==> ReadCompound(Concat(segments)) == Ok((Compound(tag, q, ops), []))
    ensures Concat(segments) == EncodeFlat(tag, q, ops) && len == |EncodeFlat(tag, q, ops)| && [] !in segments
    ensures forall i | 0 <= i < |ops| && ops[i].Write? && ops[i].data != [] :: ops[i].data in segments
  {
    hide EncodeHead, Encode, U32, U64, Opaque, EncodeStateId, ReadCompound, CompoundFits;
    var raw: seq<Bytes> := [];
    var buf := EncodeHead(tag, q, |ops| + 1);
    for i := 0 to |ops|
      invariant Concat(raw) + buf == EncodeHead(tag, q, |ops| + 1) + EncodeOps(ops[..i])
      invariant forall j | 0 <= j < i && ops[j].Write? && ops[j].data != [] :: ops[j].data in raw
    {
      EncodeOpsPush(ops, i);
      if ops[i].Write? {
        var data := ops[i].data;
        WriteParts(ops[i]);
        var head := U32(38) + EncodeStateId(ops[i].stateid) + U64(ops[i].offset) + U32(0) + U32(|data|);
        SplitWrite(raw, buf, head, data, Zeros(Padding(|data|)));
        Join(EncodeHead(tag, q, |ops| + 1), EncodeOps(ops[..i]), Encode(ops[i]));
        raw := raw + [buf + head] + [data];
        buf := Zeros(Padding(|data|));
      } else {
        Join(Concat(raw), buf, Encode(ops[i]));
        Join(EncodeHead(tag, q, |ops| + 1), EncodeOps(ops[..i]), Encode(ops[i]));
        buf := buf + Encode(ops[i]);
      }
    }
    assert ops[..|ops|] == ops;
    ConcatPush(raw, buf);
    segments, len := FromSegments(raw + [buf]);
    if CompoundFits(tag, q, ops) {
      CompoundReadsBack(tag, q, ops, []);
      assert EncodeFlat(tag, q, ops) + [] == EncodeFlat(tag, q, ops);
    }
  }

  // ---------------------------------------------------------------- the negotiated size check

  /** AUTH_SYS credentials within the limits of section 8.2 of RFC 5531. */
  datatype AuthSys = AuthSys(machineName: Bytes, uid: nat, gid: nat, gids: seq<nat>)
  {
    predicate Valid() {
      |machineName| <= 255 && |gids| <= 16 && BodyLen() <= 400
    }

    function BodyLen(): nat {
      16 + OpaqueLen(|machineName|) + 4 * |gids|
    }
  }

  /** `encoded_call_len`: call header, credential, verifier, payload. */
  function CallLen(auth: AuthSys, payload: nat): nat {
    32 + Padded(auth.BodyLen()) + 8 + Padded(payload)
  }

  const CHANNEL_PAYLOAD_RESERVE := 1024

  function ChannelPayload(limit: nat): nat {
    if limit > CHANNEL_PAYLOAD_RESERVE then limit - CHANNEL_PAYLOAD_RESERVE else 1
  }

  /** The negotiated `write_chunk_size`. */
  function WriteChunk(configured: nat, limit: nat): nat {
    if configured < ChannelPayload(limit) then configured else ChannelPayload(limit)
  }

  const WRITE_TAG: Bytes := [0x77, 0x72, 0x69, 0x74, 0x65]
  const WRITE_COMMIT_TAG: Bytes := [0x77, 0x72, 0x69, 0x74, 0x65, 0x2d, 0x63, 0x6f, 0x6d, 0x6d, 0x69, 0x74]

  /** The WRITE compounds of the client: PUTFH, WRITE, and COMMIT for a single chunk. */
  function WriteCallLen(auth: AuthSys, handle: Bytes, stateid: StateId, offset: nat, data: Bytes, commit: bool): nat {
    var ops := [PutFh(handle), Write(stateid, offset, data)];
    if commit then CallLen(auth, CompoundLen(WRITE_COMMIT_TAG, ops + [Commit(offset, |data|)]))
    else CallLen(auth, CompoundLen(WRITE_TAG, ops))
  }

  lemma WriteCallIs(auth: AuthSys, handle: Bytes, stateid: StateId, offset: nat, data: Bytes, commit: bool)
    ensures WriteCallLen(auth, handle, stateid, offset, data, commit) ==
      (if commit then 180 else 160) + Padded(|auth.machineName|) + 4 * |auth.gids| + Padded(|handle|) + Padded(|data|)
  {
    hide OpsLen, Quads, Padding, CompoundLen, CallLen;
    WritePayloadLen(handle, stateid, offset, data);
    if commit {
      CallLenOf(auth, 30 + Quads(|handle|) + Quads(|data|));
    } else {
      CallLenOf(auth, 25 + Quads(|handle|) + Quads(|data|));
    }
  }

  lemma CallLenOf(auth: AuthSys, words: nat)
    ensures CallLen(auth, 4 * words) == 60 + Padded(|auth.machineName|) + 4 * |auth.gids| + 4 * words
  {
    hide Quads, Padding;
    PaddedWords(5 + Quads(|auth.machineName|) + |auth.gids|);
    PaddedWords(words);
  }

  lemma WritePayloadLen(handle: Bytes, stateid: StateId, offset: nat, data: Bytes)
    ensures var ops := [PutFh(handle), Write(stateid, offset, data)];
            && CompoundLen(WRITE_TAG, ops) == 4 * (25 + Quads(|handle|) + Quads(|data|))
            && CompoundLen(WRITE_COMMIT_TAG, ops + [Commit(offset, |data|)]) == 4 * (30 + Quads(|handle|) + Quads(|data|))
  {
    WriteOpsLen(handle, stateid, offset, data);
    assert Quads(16) == 4 && Quads(12) == 3 && Quads(5) == 2;
    hide OpsLen, Quads, Padding;
  }

  lemma WriteOpsLen(handle: Bytes, stateid: StateId, offset: nat, data: Bytes)
    ensures var ops := [PutFh(handle), Write(stateid, offset, data)];
            && OpsLen(ops) == 44 + Padded(|handle|) + Padded(|data|)
            && OpsLen(ops + [Commit(offset, |data|)]) == 60 + Padded(|handle|) + Padded(|data|)
  {
    hide Padding, Quads;
    var ops := [PutFh(handle), Write(stateid, offset, data)];
    assert ops[..1] == [PutFh(handle)] && [PutFh(handle)][..0] == [];
    assert OpsLen([PutFh(handle)]) == 8 + Padded(|handle|);
    assert OpsLen(ops) == OpsLen([PutFh(handle)]) + EncodedLen(ops[1]);
    assert (ops + [Commit(offset, |data|)])[..2] == ops;
  }

  lemma PaddedWords(k: nat)
    ensures Padded(4 * k) == 4 * k
  {
  }

  const MAX_HANDLE := 128

  /** Every WRITE compound of the client passes the negotiated request limit. */
  ghost predicate AlwaysFits(configured: nat, limit: nat) {
    forall auth: AuthSys, handle: Bytes, stateid: StateId, offset: nat, data: Bytes, commit: bool
      | auth.Valid() && |handle| <= MAX_HANDLE && |data| <= WriteChunk(configured, limit) ::
      WriteCallLen(auth, handle, stateid, offset, data, commit) <= limit
  }

  lemma PaddedMono(a: nat, b: nat)
    requires a <= b
    ensures Padded(a) <= Padded(b)
  {
  }

  /** The bound is met exactly when the largest call fits: 628 bytes around a whole chunk. */
  lemma FitsExactlyWhen(configured: nat, limit: nat)
    ensures AlwaysFits(configured, limit) <==> 628 + Padded(WriteChunk(configured, limit)) <= limit
  {
    assert Quads(255) == 64 && Quads(128) == 32;
    hide Quads, Padding, WriteCallLen, WriteChunk;
    var chunk := WriteChunk(configured, limit);
    if 628 + Padded(chunk) <= limit {
      forall auth: AuthSys, handle: Bytes, stateid: StateId, offset: nat, data: Bytes, commit: bool
        | auth.Valid() && |handle| <= MAX_HANDLE && |data| <= chunk
        ensures WriteCallLen(auth, handle, stateid, offset, data, commit) <= limit
      {
        WriteCallIs(auth, handle, stateid, offset, data, commit);
        PaddedMono(|auth.machineName|, 255);
        PaddedMono(|handle|, MAX_HANDLE);
        PaddedMono(|data|, chunk);
      }
    } else {
      var auth := AuthSys(Zeros(255), 0, 0, seq(16, _ => 0));
      assert auth.Valid() by { PaddedWords(85); }
      WriteCallIs(auth, Zeros(MAX_HANDLE), StateId(0, []), 0, Zeros(chunk), true);
      assert !(WriteCallLen(auth, Zeros(MAX_HANDLE), StateId(0, []), 0, Zeros(chunk), true) <= limit);
    }
  }

  /** Above the reserve the check always passes; at or below it, exactly from 632 bytes on. */
  lemma ReserveIsEnough(configured: nat, limit: nat)
    requires 0 < configured
    ensures limit > CHANNEL_PAYLOAD_RESERVE ==> AlwaysFits(configured, limit)
    ensures limit <= CHANNEL_PAYLOAD_RESERVE ==> (AlwaysFits(configured, limit) <==> 632 <= limit)
  {
    hide AlwaysFits, Padding;
    FitsExactlyWhen(configured, limit);
  }
}
