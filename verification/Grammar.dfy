/** Compounds as the server reads them: XDR items (RFC 4506) and the arguments of the operations the
    client sends (section 18 of RFC 5661), from bytes to values. Nothing here knows of the encoder. */
module Grammar {
  import opened Errors
  import Server

  type Byte = Server.Byte
  type Bytes = seq<Byte>

  const WORD: nat := 0x1_0000_0000

  datatype StateId = StateId(seqid: nat, other: Bytes)

  datatype NfsOp =
    | PutRootFh
    | PutFh(handle: Bytes)
    | Lookup(name: Bytes)
    | SaveFh
    | RestoreFh
    | GetFh
    | GetAttr(bitmap: seq<nat>)
    | Open(seqid: nat, clientid: nat, owner: Bytes, name: Bytes, fileMode: nat)
    | Close(seqid: nat, stateid: StateId)
    | Read(stateid: StateId, offset: nat, count: nat)
    | Write(stateid: StateId, offset: nat, data: Bytes)
    | Commit(offset: nat, count: nat)
    | Link(name: Bytes)
    | Remove(name: Bytes)
    | Verify(size: nat)
    | Rename(oldName: Bytes, newName: Bytes)
    | CreateDir(name: Bytes, mode: nat)
    | ReadDir(cookie: nat, verifier: Bytes, dircount: nat, maxcount: nat, attrs: seq<nat>)
    | ExchangeId(verifier: Bytes, owner: Bytes)
    | CreateSession(clientid: nat, sequenceid: nat, maxRequest: nat, maxResponse: nat, slots: nat)
    | ReclaimComplete(oneFs: bool)

  datatype SequenceArgs = SequenceArgs(sessionid: Bytes, sequenceid: nat, slotid: nat, highestSlotid: nat, cachethis: bool)

  datatype Compound = Compound(tag: Bytes, sequence: SequenceArgs, ops: seq<NfsOp>)

  /** What was read and what is left, or malformed. */
  type Parsed<T> = Result<(T, Bytes), Error>

  // ---------------------------------------------------------------- items

  /** Four bytes, most significant first. */
  function Word(b: Bytes): nat
    requires |b| >= 4
  {
    b[0] as nat * 0x100_0000 + b[1] as nat * 0x1_0000 + b[2] as nat * 0x100 + b[3] as nat
  }

  function ReadU32(b: Bytes): Parsed<nat> {
    if |b| < 4 then Err(Xdr) else Ok((Word(b), b[4..]))
  }

  function ReadU64(b: Bytes): Parsed<nat> {
    var high :- ReadU32(b);
    var low :- ReadU32(high.1);
    Ok((high.0 * WORD + low.0, low.1))
  }

  function ReadFixed(b: Bytes, n: nat): Parsed<Bytes> {
    if |b| < n then Err(Xdr) else Ok((b[..n], b[n..]))
  }

  /** A length, that many bytes, and zeros up to the next word. */
  function ReadOpaque(b: Bytes): Parsed<Bytes> {
    var len :- ReadU32(b);
    var data :- ReadFixed(len.1, len.0);
    var pad :- ReadFixed(data.1, (4 - len.0 % 4) % 4);
    if forall i | 0 <= i < |pad.0| :: pad.0[i] == 0 then Ok((data.0, pad.1)) else Err(Xdr)
  }

  function ReadWords(b: Bytes, n: nat): Parsed<seq<nat>> {
    if n == 0 then Ok(([], b))
    else
      var first :- ReadU32(b);
      var rest :- ReadWords(first.1, n - 1);
      Ok(([first.0] + rest.0, rest.1))
  }

  function ReadBitmap(b: Bytes): Parsed<seq<nat>> {
    var n :- ReadU32(b);
    ReadWords(n.1, n.0)
  }

  /** A word that has to be there. */
  function ReadExactly(b: Bytes, v: nat): Parsed<nat> {
    var w :- ReadU32(b);
    if w.0 == v then Ok(w) else Err(Xdr)
  }

  function ReadStateId(b: Bytes): Parsed<StateId> {
    var seqid :- ReadU32(b);
    var other :- ReadFixed(seqid.1, 12);
    Ok((StateId(seqid.0, other.0), other.1))
  }

  /** Attributes to set: SIZE is bit 4 of word 0, MODE bit 1 of word 1; no other is known here. */
  function ReadAttrs(b: Bytes): Parsed<(Option<nat>, Option<nat>)> {
    var map_ :- ReadBitmap(b);
    var bits := map_.0;
    if |bits| > 2 || (|bits| > 0 && bits[0] != 0 && bits[0] != 0x10) || (|bits| > 1 && bits[1] != 0 && bits[1] != 2) then Err(Xdr)
    else
      var hasSize, hasMode := |bits| > 0 && bits[0] == 0x10, |bits| > 1 && bits[1] == 2;
      var len :- ReadExactly(map_.1, (if hasSize then 8 else 0) + if hasMode then 4 else 0);
      var size :- if hasSize then ReadU64(len.1) else Ok((0, len.1));
      var mode :- if hasMode then ReadU32(size.1) else Ok((0, size.1));
      Ok(((if hasSize then Some(size.0) else None, if hasMode then Some(mode.0) else None), mode.1))
  }

  // ---------------------------------------------------------------- operations

  function ReadOp(b: Bytes): Parsed<NfsOp> {
    var code :- ReadU32(b);
    ReadArgs(code.0, code.1)
  }

  function ReadArgs(code: nat, b: Bytes): Parsed<NfsOp> {
    match code
    case 4 => ReadClose(b)
    case 5 => ReadCommit(b)
    case 6 => ReadCreateDir(b)
    case 9 => (var m :- ReadBitmap(b); Ok((GetAttr(m.0), m.1)))
    case 10 => Ok((GetFh, b))
    case 11 => (var n :- ReadOpaque(b); Ok((Link(n.0), n.1)))
    case 15 => (var n :- ReadOpaque(b); Ok((Lookup(n.0), n.1)))
    case 18 => ReadOpen(b)
    case 22 => (var n :- ReadOpaque(b); Ok((PutFh(n.0), n.1)))
    case 24 => Ok((PutRootFh, b))
    case 25 => ReadRead(b)
    case 26 => ReadReadDir(b)
    case 28 => (var n :- ReadOpaque(b); Ok((Remove(n.0), n.1)))
    case 29 => ReadRename(b)
    case 31 => Ok((RestoreFh, b))
    case 32 => Ok((SaveFh, b))
    case 37 => ReadVerify(b)
    case 38 => ReadWrite(b)
    case 42 => ReadExchangeId(b)
    case 43 => ReadCreateSession(b)
    case 58 => (var w :- ReadU32(b); if w.0 <= 1 then Ok((ReclaimComplete(w.0 == 1), w.1)) else Err(Xdr))
    case _ => Err(Xdr)
  }

  function ReadClose(b: Bytes): Parsed<NfsOp> {
    var seqid :- ReadU32(b);
    var stateid :- ReadStateId(seqid.1);
    Ok((Close(seqid.0, stateid.0), stateid.1))
  }

  function ReadCommit(b: Bytes): Parsed<NfsOp> {
    var offset :- ReadU64(b);
    var count :- ReadU32(offset.1);
    Ok((Commit(offset.0, count.0), count.1))
  }

  /** CREATE of a directory. */
  function ReadCreateDir(b: Bytes): Parsed<NfsOp> {
    var kind :- ReadExactly(b, 2);
    var name :- ReadOpaque(kind.1);
    var attrs :- ReadAttrs(name.1);
    if attrs.0.0.None? && attrs.0.1.Some? then Ok((CreateDir(name.0, attrs.0.1.value), attrs.1)) else Err(Xdr)
  }

  /** OPEN for writing without a delegation, guarded create of an empty file. */
  function ReadOpen(b: Bytes): Parsed<NfsOp> {
    var seqid :- ReadU32(b);
    var access :- ReadExactly(seqid.1, 0x402);
    var deny :- ReadExactly(access.1, 0);
    var clientid :- ReadU64(deny.1);
    var owner :- ReadOpaque(clientid.1);
    ReadCreation(seqid.0, clientid.0, owner.0, owner.1)
  }

  function ReadCreation(seqid: nat, clientid: nat, owner: Bytes, b: Bytes): Parsed<NfsOp> {
    var create :- ReadExactly(b, 1);
    var guarded :- ReadExactly(create.1, 1);
    var attrs :- ReadAttrs(guarded.1);
    var claim :- ReadExactly(attrs.1, 0);
    var name :- ReadOpaque(claim.1);
    if attrs.0.0 == Some(0) && attrs.0.1.Some? then Ok((Open(seqid, clientid, owner, name.0, attrs.0.1.value), name.1)) else Err(Xdr)
  }

  function ReadRead(b: Bytes): Parsed<NfsOp> {
    var stateid :- ReadStateId(b);
    var offset :- ReadU64(stateid.1);
    var count :- ReadU32(offset.1);
    Ok((Read(stateid.0, offset.0, count.0), count.1))
  }

  function ReadReadDir(b: Bytes): Parsed<NfsOp> {
    var cookie :- ReadU64(b);
    var verifier :- ReadFixed(cookie.1, 8);
    var dircount :- ReadU32(verifier.1);
    var maxcount :- ReadU32(dircount.1);
    var attrs :- ReadBitmap(maxcount.1);
    Ok((ReadDir(cookie.0, verifier.0, dircount.0, maxcount.0, attrs.0), attrs.1))
  }

  /** The old name, then the new one. */
  function ReadRename(b: Bytes): Parsed<NfsOp> {
    var oldName :- ReadOpaque(b);
    var newName :- ReadOpaque(oldName.1);
    Ok((Rename(oldName.0, newName.0), newName.1))
  }

  /** VERIFY of the size alone. */
  function ReadVerify(b: Bytes): Parsed<NfsOp> {
    var attrs :- ReadAttrs(b);
    if attrs.0.0.Some? && attrs.0.1.None? then Ok((Verify(attrs.0.0.value), attrs.1)) else Err(Xdr)
  }

  /** WRITE asking for no stability. */
  function ReadWrite(b: Bytes): Parsed<NfsOp> {
    var stateid :- ReadStateId(b);
    var offset :- ReadU64(stateid.1);
    var stable :- ReadExactly(offset.1, 0);
    var data :- ReadOpaque(stable.1);
    Ok((Write(stateid.0, offset.0, data.0), data.1))
  }

  /** EXCHANGE_ID without pNFS, state protection or implementation id. */
  function ReadExchangeId(b: Bytes): Parsed<NfsOp> {
    var verifier :- ReadFixed(b, 8);
    var owner :- ReadOpaque(verifier.1);
    var flags :- ReadExactly(owner.1, 0x1_0000);
    var protect :- ReadExactly(flags.1, 0);
    var impl :- ReadExactly(protect.1, 0);
    Ok((ExchangeId(verifier.0, owner.0), impl.1))
  }

  /** Channel attributes: header padding, request, response and cached response size, operations,
      requests, no RDMA. */
  function ReadChannel(b: Bytes): Parsed<(nat, nat, nat)> {
    var ws :- ReadWords(b, 7);
    var w := ws.0;
    if |w| == 7 && w[0] == 0 && w[2] == w[3] && w[4] == 64 && w[6] == 0 then Ok(((w[1], w[2], w[5]), ws.1)) else Err(Xdr)
  }

  function ReadCreateSession(b: Bytes): Parsed<NfsOp> {
    var clientid :- ReadU64(b);
    var sequenceid :- ReadU32(clientid.1);
    var flags :- ReadExactly(sequenceid.1, 0);
    var fore :- ReadChannel(flags.1);
    var back :- ReadChannel(fore.1);
    var program :- ReadExactly(back.1, 0);
    var security :- ReadExactly(program.1, 0);
    if back.0 == (8192, 8192, 1) then
      Ok((CreateSession(clientid.0, sequenceid.0, fore.0.0, fore.0.1, fore.0.2), security.1))
    else Err(Xdr)
  }

  // ---------------------------------------------------------------- compounds

  function ReadSequence(b: Bytes): Parsed<SequenceArgs> {
    var code :- ReadExactly(b, 53);
    var sessionid :- ReadFixed(code.1, 16);
    var sequenceid :- ReadU32(sessionid.1);
    var slotid :- ReadU32(sequenceid.1);
    var highest :- ReadU32(slotid.1);
    var cache :- ReadU32(highest.1);
    if cache.0 <= 1 then Ok((SequenceArgs(sessionid.0, sequenceid.0, slotid.0, highest.0, cache.0 == 1), cache.1)) else Err(Xdr)
  }

  function ReadOps(b: Bytes, n: nat): Parsed<seq<NfsOp>>
    decreases n
  {
    hide ReadOp;
    if n == 0 then Ok(([], b))
    else
      var first :- ReadOp(b);
      var rest :- ReadOps(first.1, n - 1);
      Ok(([first.0] + rest.0, rest.1))
  }

  /** Tag, minor version 1, and as many operations as announced, SEQUENCE first. */
  function ReadCompound(b: Bytes): Parsed<Compound> {
    var tag :- ReadOpaque(b);
    var minor :- ReadExactly(tag.1, 1);
    var count :- ReadU32(minor.1);
    if count.0 == 0 then Err(Xdr)
    else
      var sequence :- ReadSequence(count.1);
      var ops :- ReadOps(sequence.1, count.0 - 1);
      Ok((Compound(tag.0, sequence.0, ops.0), ops.1))
  }
}
