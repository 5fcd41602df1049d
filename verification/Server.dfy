/** The NFSv4.1 server as one `put` sees it: the destination directory, the files this put
    creates, and the requests it sent whose fate it does not know. A COMPOUND runs operation by
    operation and stops at the first failure (section 16.2 of RFC 5661); other clients, restarts
    and late requests act in between. */
module Server {
  import opened Errors

  newtype Byte = x: int | 0 <= x < 256

  type Fid = nat

  /** Names this put generates (a reserved prefix plus a fresh ULID) are a class of their own. */
  datatype Name = Temp(id: nat) | User(text: string)

  datatype Handle = ExportRoot | FileOf(fid: Fid)

  datatype Stability = Unstable | DataSync | FileSync

  datatype Op =
    | Sequence
    | PutFh(handle: Handle)
    | Lookup(component: string)
    | SaveFh
    | RestoreFh
    | GetFh
    | Open(name: Name)
    | Close
    | Write(offset: nat, data: seq<Byte>)
    | Commit(offset: nat, count: nat)
    | Verify(size: nat)
    | Link(name: Name)
    | Rename(oldName: Name, newName: Name)
    | Remove(name: Name)

  function CodeOf(op: Op): OpCode {
    match op
    case Sequence => SEQUENCE
    case PutFh(_) => PUTFH
    case Lookup(_) => LOOKUP
    case SaveFh => SAVEFH
    case RestoreFh => RESTOREFH
    case GetFh => GETFH
    case Open(_) => OPEN
    case Close => CLOSE
    case Write(_, _) => WRITE
    case Commit(_, _) => COMMIT
    case Verify(_) => VERIFY
    case Link(_) => LINK
    case Rename(_, _) => RENAME
    case Remove(_) => REMOVE
  }

  /** The operations that must not run twice; RENAME publishes too, and may replace a name. */
  datatype Kind = Opens | Closes | Publishes | Replaces

  predicate IsKind(op: Op, k: Kind) {
    match k
    case Opens => op.Open?
    case Closes => op.Close?
    case Publishes => op.Link? || op.Rename?
    case Replaces => op.Rename?
  }

  function CountOps(ops: seq<Op>, k: Kind): nat {
    if ops == [] then 0
    else CountOps(ops[..|ops| - 1], k) + if IsKind(ops[|ops| - 1], k) then 1 else 0
  }

  /** File contents as READ shows them, and the byte positions that are on stable storage. */
  datatype File = File(data: seq<Byte>, stable: set<nat>)

  predicate FileOk(f: File) {
    forall i | i in f.stable :: i < |f.data|
  }

  /** Filehandle registers of a running compound. A path handle is the directory that the components
      lead to from the export root. */
  datatype Fh = NoFh | PathFh(components: seq<string>) | FileFh(fid: Fid)

  datatype Ctx = Ctx(cur: Fh, saved: Fh)

  const START := Ctx(NoFh, NoFh)

  /** A request in flight whose fate the client does not know: what is left of it to run. */
  datatype Late = Late(c: Ctx, ops: seq<Op>)

  /** What a name stands for at one instant: nothing, or a file with its contents. */
  datatype Binding = Unbound | BoundTo(fid: Fid, file: File)

  /** One change of what a name stands for: the file before, and what it is now. */
  datatype Change = Change(before: Option<Fid>, now: Binding)

  datatype State = State(
    dir: map<Name, Fid>,
    files: map<Fid, File>,
    mine: set<Fid>,              // files created by this put
    made: map<Name, Fid>,        // names this put's OPENs gave in the directory
    boot: nat,                   // server instance; its write verifier
    limbo: seq<Late>,
    opens: nat,                  // successful OPENs of this put
    closes: nat,                 // successful CLOSEs of this put
    published: nat,              // successful LINKs and RENAMEs of this put
    renamed: nat,                // successful RENAMEs of this put
    changes: seq<Change>,        // what this put made the destination stand for, change by change
    occupied: seq<Fid>)          // files found at the destination by a refused LINK

  datatype Place = Place(dest: Name, path: seq<string>)

  /** Where the put goes: a name of the user's, in the directory the path leads to. */
  type Target = p: Place | p.dest.User? witness Place(User(""), [])

  /** The handle is the destination's directory; what is done in others is not followed. */
  predicate Here(t: Target, h: Fh) {
    h == PathFh(t.path)
  }

  function FidAt(dir: map<Name, Fid>, n: Name): Option<Fid> {
    if n in dir then Some(dir[n]) else None
  }

  /** An operation of this put turns the directory into `dir`. If that changes what the destination
      stands for, the change is recorded, whatever the operation. */
  function Rebind(t: Target, s: State, dir: map<Name, Fid>): (r: State)
    ensures r == s.(dir := dir, changes := r.changes) && s.changes <= r.changes
  {
    var before, now := FidAt(s.dir, t.dest), FidAt(dir, t.dest);
    var binding := if now.Some? && now.value in s.files then BoundTo(now.value, s.files[now.value]) else Unbound;
    s.(dir := dir, changes := if now == before then s.changes else s.changes + [Change(before, binding)])
  }

  function Done(s: State, k: Kind): nat {
    match k
    case Opens => s.opens
    case Closes => s.closes
    case Publishes => s.published
    case Replaces => s.renamed
  }

  function LimboCount(limbo: seq<Late>, k: Kind): nat {
    if limbo == [] then 0 else LimboCount(limbo[..|limbo| - 1], k) + CountOps(limbo[|limbo| - 1].ops, k)
  }

  /** How often an operation kind ran or may still run. */
  function Weight(s: State, k: Kind): nat {
    Done(s, k) + LimboCount(s.limbo, k)
  }

  predicate OnFile(h: Fh, f: Fid) {
    h == FileFh(f)
  }

  predicate EntryTouches(e: Late, f: Fid) {
    OnFile(e.c.cur, f) || OnFile(e.c.saved, f) || PutFh(FileOf(f)) in e.ops
  }

  predicate Touched(limbo: seq<Late>, f: Fid) {
    exists j | 0 <= j < |limbo| :: EntryTouches(limbo[j], f)
  }

  predicate Awaited(limbo: seq<Late>, n: Name) {
    exists j | 0 <= j < |limbo| :: Open(n) in limbo[j].ops
  }

  /** Names a late OPEN may still create. */
  function AwaitedNames(limbo: seq<Late>): (r: set<Name>)
    ensures forall n :: n in r <==> Awaited(limbo, n)
  {
    if limbo == [] then {}
    else
      var last := limbo[|limbo| - 1];
      assert limbo == limbo[..|limbo| - 1] + [last];
      AwaitedNames(limbo[..|limbo| - 1]) + OpenedNames(last.ops)
  }

  function OpenedNames(ops: seq<Op>): (r: set<Name>)
    ensures forall n :: n in r <==> Open(n) in ops
  {
    set i | 0 <= i < |ops| && ops[i].Open? :: ops[i].name
  }

  predicate WellNamed(op: Op) {
    && (op.Open? ==> op.name.Temp?)
    && (op.Link? ==> !op.name.Temp?)
    && (op.Rename? ==> op.oldName.Temp? && !op.newName.Temp?)
    && (op.Remove? ==> op.name.Temp?)
  }

  predicate FhKnown(h: Fh, files: set<Fid>) {
    h.FileFh? ==> h.fid in files
  }

  predicate OpKnown(op: Op, files: set<Fid>) {
    WellNamed(op) && (op.PutFh? && op.handle.FileOf? ==> op.handle.fid in files)
  }

  /** A late request only names files that exist, and creates and removes only temporary names. */
  predicate EntryOk(e: Late, files: set<Fid>) {
    FhKnown(e.c.cur, files) && FhKnown(e.c.saved, files) && forall i | 0 <= i < |e.ops| :: OpKnown(e.ops[i], files)
  }

  /** Until something was published, this put's files carry only temporary names, no file of this
      put was found at the destination, and this put has not changed what the destination is. Only
      a RENAME replaces what the destination stood for. */
  predicate Valid(s: State) {
    && s.mine <= s.files.Keys
    && (forall f | f in s.mine :: FileOk(s.files[f]))
    && (forall j | 0 <= j < |s.limbo| :: EntryOk(s.limbo[j], s.files.Keys))
    && (forall n | n in s.dir :: s.dir[n] in s.files)
    && (forall n | n in s.dir && s.dir[n] in s.mine :: n.Temp? || s.published > 0)
    && (forall f | f in s.occupied :: f in s.files && (f in s.mine ==> s.published > 0))
    && |s.changes| <= s.published && s.renamed <= s.published
    && (s.renamed == 0 ==> forall c | c in s.changes :: c.before.None?)
  }

  // ---------------------------------------------------------------- one operation

  datatype Body = NoBody | HandleBody(handle: Handle)
                | WriteBody(count: nat, level: Stability, verifier: nat)
                | VerifierBody(verifier: nat) | Malformed

  datatype Reply = Reply(op: OpCode, status: nat, body: Body)

  function Splice(data: seq<Byte>, off: nat, d: seq<Byte>): (r: seq<Byte>)
    ensures |r| == if d == [] then |data| else if |data| < off + |d| then off + |d| else |data|
    ensures forall i | 0 <= i < |d| :: r[off + i] == d[i]
    ensures forall i | 0 <= i < |data| && !(off <= i < off + |d|) :: r[i] == data[i]
  {
    if d == [] then data
    else
      var base := if |data| < off then data + seq(off - |data|, _ => 0) else data;
      base[..off] + d + if off + |d| < |base| then base[off + |d|..] else []
  }

  function Span(lo: nat, hi: nat): (r: set<nat>)
    ensures forall i: nat :: i in r <==> lo <= i < hi
  {
    if hi <= lo then {} else Span(lo, hi - 1) + {hi - 1}
  }

  function WriteFile(f: File, off: nat, d: seq<Byte>, level: Stability): (r: File)
    requires FileOk(f)
    ensures FileOk(r)
  {
    var kept := set i | i in f.stable && !(off <= i < off + |d|);
    var synced := if level.FileSync? then Span(off, off + |d|) else {};
    File(Splice(f.data, off, d), kept + synced)
  }

  function CommitFile(f: File, off: nat, count: nat): (r: File)
    requires FileOk(f)
    ensures FileOk(r)
  {
    File(f.data, f.stable + Span(off, if count == 0 || |f.data| < off + count then |f.data| else off + count))
  }

  /** A failed operation changes nothing, and EXIST is only reported about a name that is there. */
  predicate Refusal(t: Target, s: State, c: Ctx, op: Op, r: Reply) {
    && r.body == NoBody
    && (r.op == CodeOf(op) || (r.op == ILLEGAL && r.status == OP_ILLEGAL))
    && (r.op == LINK && r.status == EXIST && Here(t, c.cur) ==> op.name in s.dir)
    && (r.op == OPEN && r.status == EXIST && Here(t, c.cur) ==> op.name in s.dir)
  }

  function AfterRefusal(t: Target, s: State, c: Ctx, op: Op, r: Reply): State
    requires Refusal(t, s, c, op, r)
  {
    if r.op == LINK && r.status == EXIST && Here(t, c.cur) && op.name == t.dest
    then s.(occupied := s.occupied + [s.dir[op.name]])
    else s
  }

  predicate Success(t: Target, s: State, c: Ctx, op: Op, s': State, c': Ctx, b: Body)
    requires Valid(s)
  {
    match op
    case Sequence => s' == s && c' == c && b == NoBody
    case PutFh(h) =>
      && s' == s && b == NoBody
      && c' == c.(cur := if h.FileOf? then FileFh(h.fid) else PathFh([]))
    case Lookup(component) =>
      && s' == s && b == NoBody
      && c.cur.PathFh? && c' == c.(cur := PathFh(c.cur.components + [component]))
    case SaveFh => s' == s && b == NoBody && !c.cur.NoFh? && c' == c.(saved := c.cur)
    case RestoreFh => s' == s && b == NoBody && !c.saved.NoFh? && c' == c.(cur := c.saved)
    case GetFh =>
      && s' == s && c' == c
      && c.cur.FileFh? && b == HandleBody(FileOf(c.cur.fid))
    case Open(n) =>
      && b == NoBody && c.cur.PathFh? && (Here(t, c.cur) ==> n !in s.dir)
      && c'.cur.FileFh? && c'.saved == c.saved
      && c'.cur.fid !in s.files
      && var d := if Here(t, c.cur) then Rebind(t, s, s.dir[n := c'.cur.fid]).(made := s.made[n := c'.cur.fid]) else s;
         s' == d.(files := s.files[c'.cur.fid := File([], {})], mine := s.mine + {c'.cur.fid}, opens := s.opens + 1)
    case Close => b == NoBody && c' == c && s' == s.(closes := s.closes + 1)
    case Write(off, d) =>
      && c' == c && c.cur.FileFh? && c.cur.fid in s.mine
      && b.WriteBody? && b.count <= |d| && b.verifier == s.boot
      && s' == s.(files := s.files[c.cur.fid := WriteFile(s.files[c.cur.fid], off, d[..b.count], b.level)])
    case Commit(off, n) =>
      && c' == c && c.cur.FileFh? && c.cur.fid in s.mine
      && b == VerifierBody(s.boot)
      && s' == s.(files := s.files[c.cur.fid := CommitFile(s.files[c.cur.fid], off, n)])
    case Verify(size) =>
      && s' == s && c' == c && b == NoBody
      && c.cur.FileFh? && c.cur.fid in s.mine && |s.files[c.cur.fid].data| == size
    case Link(n) =>
      && c' == c && b == NoBody
      && c.saved.FileFh? && c.saved.fid in s.mine && c.cur.PathFh? && (Here(t, c.cur) ==> n !in s.dir)
      && var d := if Here(t, c.cur) then Rebind(t, s, s.dir[n := c.saved.fid]) else s;
         s' == d.(published := s.published + 1)
    case Rename(o, n) =>
      && c' == c && b == NoBody
      && c.saved.PathFh? && c.cur.PathFh? && (Here(t, c.saved) ==> o in s.dir)
      && (Here(t, c.cur) ==> n in s'.dir && s'.dir[n] in s.files && (Here(t, c.saved) ==> s'.dir[n] == s.dir[o]))
      && var left := if Here(t, c.saved) then s.dir - {o} else s.dir;
         s' == Rebind(t, s, if Here(t, c.cur) then left[n := s'.dir[n]] else left).(published := s.published + 1, renamed := s.renamed + 1)
    case Remove(n) =>
      && c' == c && b == NoBody
      && c.cur.PathFh? && (Here(t, c.cur) ==> n in s.dir)
      && s' == if Here(t, c.cur) then Rebind(t, s, s.dir - {n}) else s
  }

  predicate OpStep(t: Target, s: State, c: Ctx, op: Op, s': State, c': Ctx, r: Reply)
    requires Valid(s)
  {
    if r.status == OK then r.op == CodeOf(op) && Success(t, s, c, op, s', c', r.body)
    else Refusal(t, s, c, op, r) && c' == c && s' == AfterRefusal(t, s, c, op, r)
  }

  // ---------------------------------------------------------------- how states may move

  /** What one call may touch: a byte range of one file, and the temporary names it creates. */
  datatype Extent = Extent(fid: Fid, lo: nat, hi: nat, names: set<Name>)

  const NOWHERE := Extent(0, 0, 0, {})

  /** Outside the extent, a byte survives if it is stable or the server did not restart. */
  predicate FileEvolves(f: File, f': File, sameBoot: bool, lo: nat, hi: nat) {
    && FileOk(f')
    && |f'.data| <= (if lo < hi && |f.data| < hi then hi else |f.data|)
    && forall i | 0 <= i < |f.data| && !(lo <= i < hi) && (sameBoot || i in f.stable) ::
         i < |f'.data| && f'.data[i] == f.data[i] && (i in f.stable ==> i in f'.stable)
  }

  predicate FilesEvolve(s: State, s': State, x: Extent)
    requires s.mine <= s.files.Keys && s'.mine <= s'.files.Keys
  {
    forall f | f in s.mine && !Touched(s.limbo, f) ::
      && f in s'.mine
      && !Touched(s'.limbo, f)
      && FileEvolves(s.files[f], s'.files[f], s.boot == s'.boot,
                     if f == x.fid then x.lo else 0, if f == x.fid then x.hi else 0)
  }

  predicate NamesEvolve(s: State, s': State, names: set<Name>) {
    && AwaitedNames(s'.limbo) <= AwaitedNames(s.limbo)
    && (forall n | n in s'.dir && n.Temp? && n !in AwaitedNames(s.limbo) && n !in names ::
          n in s.dir && s.dir[n] == s'.dir[n])
    && forall n | n in s.made && n !in AwaitedNames(s.limbo) && n !in names :: n in s'.made && s'.made[n] == s.made[n]
  }

  /** What any amount of outside activity, plus acting on the extent `x`, can do to the state. */
  predicate Evolves(s: State, s': State, x: Extent) {
    && Valid(s) && Valid(s')
    && s.boot <= s'.boot
    && s.mine <= s'.mine
    && s.files.Keys <= s'.files.Keys
    && FilesEvolve(s, s', x)
    && NamesEvolve(s, s', x.names)
    && s.published <= s'.published && s.renamed <= s'.renamed && s.changes <= s'.changes && s.occupied <= s'.occupied
    && s.opens <= s'.opens && s.closes <= s'.closes
  }

  predicate NoHeavier(s: State, s': State) {
    && Weight(s', Opens) <= Weight(s, Opens)
    && Weight(s', Closes) <= Weight(s, Closes)
    && Weight(s', Publishes) <= Weight(s, Publishes)
    && Weight(s', Replaces) <= Weight(s, Replaces)
  }

  /** What happens without the client acting. */
  predicate Rely(s: State, s': State) {
    Evolves(s, s', NOWHERE) && NoHeavier(s, s')
  }

  // ---------------------------------------------------------------- outside events

  /** Another client, or the server flushing its cache: it never creates this put's temporary
      names, never writes this put's files and never names one that was not published. It may
      remove temporary names (a sweep) and do anything to other names and files. */
  predicate OtherStep(s: State, s': State) {
    && s' == s.(dir := s'.dir, files := s'.files)
    && s.files.Keys <= s'.files.Keys
    && (forall f | f in s.mine && f in s.files ::
          FileOk(s'.files[f]) && s'.files[f].data == s.files[f].data && s.files[f].stable <= s'.files[f].stable)
    && (forall n | n in s'.dir :: s'.dir[n] in s'.files)
    && (forall n | n in s'.dir && n.Temp? :: n in s.dir && s.dir[n] == s'.dir[n])
    && (forall n | n in s'.dir && s'.dir[n] in s.mine && !n.Temp? ::
          s.published > 0 || (n in s.dir && s.dir[n] == s'.dir[n]))
  }

  /** A server restart takes a new write verifier and may lose every byte that was not stable. */
  predicate RestartStep(s: State, s': State) {
    && s' == s.(boot := s'.boot, files := s'.files)
    && s.boot < s'.boot
    && s.files.Keys == s'.files.Keys
    && (forall f | f in s.mine && f in s.files :: FileEvolves(s.files[f], s'.files[f], false, 0, 0))
  }

  function Without(limbo: seq<Late>, j: nat): seq<Late>
    requires j < |limbo|
  {
    limbo[..j] + limbo[j + 1..]
  }

  function LimboAfter(limbo: seq<Late>, j: nat, c: Ctx, ok: bool): seq<Late>
    requires j < |limbo| && limbo[j].ops != []
  {
    if ok && |limbo[j].ops| > 1 then limbo[j := Late(c, limbo[j].ops[1..])] else Without(limbo, j)
  }

  /** The server runs the next operation of a request the client has given up on. */
  predicate LateStep(t: Target, s: State, j: nat, m: State, c': Ctx, r: Reply, s': State)
    requires Valid(s) && j < |s.limbo| && s.limbo[j].ops != []
  {
    && OpStep(t, s, s.limbo[j].c, s.limbo[j].ops[0], m, c', r)
    && s' == m.(limbo := LimboAfter(s.limbo, j, c', r.status == OK))
  }
}
