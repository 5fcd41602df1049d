/** One sweep attempt over a directory (src/client.rs): it removes stale temporary files while
    other clients may remove entries too. */
module Sweep {
  import opened Errors
  import opened Ranges
  import opened Listing

  /** Which names are temporary files, and when they were created. */
  type Created = string -> Option<nat>

  predicate IsStale(created: Created, cutoff: nat, name: string) {
    !IsDot(name) && created(name).Some? && created(name).value <= cutoff
  }

  /** The page holds exactly the entries still there from position `lo` to position `hi`. */
  predicate PageOf(alive: set<nat>, lo: nat, hi: nat, page: seq<nat>) {
    && (forall m | lo <= m < hi && m in alive :: m in page)
    && forall m | m in page :: lo <= m < hi && m in alive
  }

  /** The directory during the sweep: its entries in cookie order, which of them are still there,
      which this attempt removed, and how many empty pages without EOF the server will still send. */
  class Directory {
    const entries: seq<Entry>
    var alive: set<nat>
    var blanks: nat
    ghost var mine: set<nat>

    ghost predicate Valid()
      reads this
    {
      WellFormed(entries) && (forall i | i in alive :: i < |entries|) && (forall i | i in mine :: i < |entries|) && alive !! mine
    }

    constructor (entries: seq<Entry>, alive: set<nat>, blanks: nat)
      requires WellFormed(entries) && forall i | i in alive :: i < |entries|
      ensures Valid() && this.entries == entries && this.alive == alive && this.blanks == blanks && mine == {}
    {
      this.entries, this.alive, this.blanks, this.mine := entries, alive, blanks, {};
    }

    /** Other clients remove whatever they like. */
    method Others(alone: bool)
      requires Valid()
      modifies this`alive
      ensures Valid() && alive <= old(alive) && (alone ==> alive == old(alive))
    {
      var left: set<nat> := *;
      if !alone && left <= alive {
        alive := left;
      }
    }

    /** READDIR after the cookie of position `i`: the entries still there up to the last one sent, or to
        the end if it says EOF; or an error. The cookie returned is the last entry's, and 0 on an
        empty page. */
    method ReadPage(cookie: nat, ghost i: nat, alone: bool) returns (r: Result<(seq<nat>, bool), Error>, lastCookie: nat, ghost next: nat)
      requires Valid() && i <= |entries| && cookie == CookieAt(entries, i)
      modifies this`alive, this`blanks
      ensures Valid() && alive <= old(alive) && (alone ==> alive == old(alive)) && blanks <= old(blanks)
      ensures r.Err? ==> r.error == Io
      ensures r.Ok? ==>
        && i <= next <= |entries| && PageOf(alive, i, next, r.value.0)
        && (r.value.1 ==> next == |entries|)
        && (r.value.0 == [] ==> lastCookie == 0 && (!r.value.1 ==> blanks < old(blanks)))
        && (r.value.0 != [] && !r.value.1 ==> i < next && lastCookie == CookieAt(entries, next))
    {
      Others(alone);
      var at := Resume(entries, cookie, i);
      var failed: bool, blank: bool, end: int, eof: bool := *, *, *, *;
      if failed {
        return Err(Io), 0, at;
      }
      if blank && blanks > 0 {
        blanks := blanks - 1;
        return Ok(([], false)), 0, at;
      }
      end := if at <= end <= |entries| then end else |entries|;
      var page, wire := Collect(at, end);
      if page == [] {
        end := |entries|;
        page, wire := Collect(at, end);
      }
      eof := end == |entries| && (eof || page == []);
      var decoded, taken := DecodeReaddir(wire, eof, None);
      assert taken == |wire|;
      return Ok((page, eof)), decoded.lastCookie, if eof then |entries| else page[|page| - 1] + 1;
    }

    /** The entries still there from position `lo` to position `hi`, in order. */
    method Collect(lo: nat, hi: nat) returns (page: seq<nat>, wire: seq<Entry>)
      requires Valid() && lo <= hi <= |entries|
      ensures PageOf(alive, lo, hi, page) && |wire| == |page|
      ensures page != [] ==>
        var last := page[|page| - 1];
        lo <= last < hi && PageOf(alive, lo, last + 1, page) && wire[|page| - 1] == entries[last]
    {
      page, wire := [], [];
      for k := lo to hi
        invariant PageOf(alive, lo, k, page) && |wire| == |page|
        invariant page != [] ==>
          var last := page[|page| - 1];
          lo <= last < k && PageOf(alive, lo, last + 1, page) && wire[|page| - 1] == entries[last]
      {
        if k in alive {
          page, wire := page + [k], wire + [entries[k]];
        }
      }
    }

    /** REMOVE of one listed entry: done by this attempt, found missing, or of unknown outcome. */
    method RemoveAt(k: nat, alone: bool) returns (r: Result<bool, Error>)
      requires Valid() && k < |entries|
      modifies this`alive, this`mine
      ensures Valid() && alive <= old(alive) && old(mine) <= mine
      ensures r.Ok? ==> k !in alive
      ensures r == Ok(true) ==> k in old(alive) && mine == old(mine) + {k}
      ensures r != Ok(true) ==> mine == old(mine)
      ensures alone && r.Ok? ==> alive == old(alive) - {k} && (r == Ok(true) <==> k in old(alive))
      ensures mine <= old(mine) + old(alive) && (alone && r.Ok? ==> old(alive) + old(mine) == alive + mine)
    {
      Others(alone);
      var failed: bool, executed: bool := *, *;
      if failed {
        if executed {
          alive := alive - {k};
        }
        return Err(Io);
      }
      if k in alive {
        alive, mine := alive - {k}, mine + {k};
        return Ok(true);
      }
      return Ok(false);
    }
  }

  /** What a round of removals did: whatever this attempt removed was named and there. */
  predicate RemovedOnly(names: seq<nat>, alive0: set<nat>, mine0: set<nat>, alive: set<nat>, mine: set<nat>) {
    && alive <= alive0 && mine0 <= mine
    && forall k | k in mine && k !in mine0 :: k in names && k in alive0
  }

  /** Every name started is still in flight or gone. */
  predicate Pursued(names: seq<nat>, started: nat, flying: seq<nat>, alive: set<nat>) {
    && started <= |names| && (forall k :: k in flying ==> k in names)
    && forall i | 0 <= i < started :: names[i] in flying || names[i] !in alive
  }

  lemma PursuedStart(names: seq<nat>, started: nat, flying: seq<nat>, alive: set<nat>)
    requires Pursued(names, started, flying, alive) && started < |names|
    ensures Pursued(names, started + 1, flying + [names[started]], alive)
  {
  }

  lemma PursuedDone(names: seq<nat>, started: nat, flying: seq<nat>, alive: set<nat>, i: nat, alive': set<nat>)
    requires Pursued(names, started, flying, alive) && i < |flying| && alive' <= alive && flying[i] !in alive'
    ensures Pursued(names, started, SwapRemove(flying, i), alive')
  {
    forall j | 0 <= j < started
      ensures names[j] in SwapRemove(flying, i) || names[j] !in alive'
    {
      if names[j] in alive' {
        var m :| 0 <= m < |flying| && flying[m] == names[j];
        SwapRemoveKeeps(flying, i, m);
      }
    }
  }

  lemma FlyingDrops(names: seq<nat>, flying: seq<nat>, i: nat)
    requires i < |flying| && forall k :: k in flying ==> k in names
    ensures forall k :: k in SwapRemove(flying, i) ==> k in names
  {
  }

  lemma RemovedMore(names: seq<nat>, k: nat, alive0: set<nat>, mine0: set<nat>, alive: set<nat>, mine: set<nat>, alive': set<nat>, mine': set<nat>)
    requires RemovedOnly(names, alive0, mine0, alive, mine) && k in names && alive' <= alive && mine <= mine' <= mine + {k}
    requires k in mine' && k !in mine ==> k in alive
    ensures RemovedOnly(names, alive0, mine0, alive', mine')
  {
  }

  /** Removes the named entries, several at a time, answered in any order; after the first error no
      further one is started. */
  method RemoveTempNames(dir: Directory, names: seq<nat>, depth: nat, removed0: nat, alone: bool) returns (removed: nat, first: Option<Error>)
    requires dir.Valid() && 0 < depth && removed0 == |dir.mine| && forall k | k in names :: k < |dir.entries|
    modifies dir`alive, dir`mine
    ensures dir.Valid() && removed == |dir.mine| && RemovedOnly(names, old(dir.alive), old(dir.mine), dir.alive, dir.mine)
    ensures first.None? ==> forall k | k in names :: k !in dir.alive
    ensures first.None? && alone ==> dir.alive + dir.mine == old(dir.alive) + old(dir.mine)
  {
    hide Pursued, RemovedOnly;
    removed, first := removed0, None;
    var started: nat, flying: seq<nat> := 0, [];
    NothingYet(names, dir.alive, dir.mine);
    while true
      invariant dir.Valid() && removed == |dir.mine| && RemovedOnly(names, old(dir.alive), old(dir.mine), dir.alive, dir.mine)
      invariant started <= |names| && forall k :: k in flying ==> k in names
      invariant first.None? ==> Pursued(names, started, flying, dir.alive)
      invariant first.None? && alone ==> dir.alive + dir.mine == old(dir.alive) + old(dir.mine)
      decreases |names| - started, |flying|
    {
      if first.None? {
        flying, started := Start(names, flying, started, depth, dir.alive);
      }
      if flying == [] {
        if first.None? {
          AllPursued(names, started, dir.alive);
        }
        break;
      }
      var i :| 0 <= i < |flying|;
      var k := flying[i];
      assert k in names;
      ghost var alive, mine := dir.alive, dir.mine;
      var outcome := dir.RemoveAt(k, alone);
      RemovedMore(names, k, old(dir.alive), old(dir.mine), alive, mine, dir.alive, dir.mine);
      if outcome.Err? {
        first := if first.None? then Some(outcome.error) else first;
      } else {
        if outcome.value {
          removed := removed + 1;
        }
        if first.None? {
          PursuedDone(names, started, flying, alive, i, dir.alive);
        }
      }
      FlyingDrops(names, flying, i);
      flying := SwapRemove(flying, i);
    }
  }

  /** Starts removals while there is room. */
  method Start(names: seq<nat>, flying0: seq<nat>, started0: nat, depth: nat, ghost alive: set<nat>) returns (flying: seq<nat>, started: nat)
    requires 0 < depth && Pursued(names, started0, flying0, alive)
    ensures Pursued(names, started, flying, alive) && (flying == [] ==> started == |names|)
    ensures started0 <= started && (started == started0 ==> flying == flying0) && forall k :: k in flying ==> k in names
  {
    flying, started := flying0, started0;
    while |flying| < depth && started < |names|
      invariant started0 <= started && Pursued(names, started, flying, alive) && (started == started0 ==> flying == flying0)
    {
      PursuedStart(names, started, flying, alive);
      flying, started := flying + [names[started]], started + 1;
    }
  }

  lemma AllPursued(names: seq<nat>, started: nat, alive: set<nat>)
    requires started == |names| && Pursued(names, started, [], alive)
    ensures forall k | k in names :: k !in alive
  {
  }

  lemma NothingYet(names: seq<nat>, alive: set<nat>, mine: set<nat>)
    ensures RemovedOnly(names, alive, mine, alive, mine) && Pursued(names, 0, [], alive)
  {
  }

  // ---------------------------------------------------------------- whether the scan ends

  /** What a server sends after each position of a directory that does not change: how many entries, and
      whether it says EOF. */
  type Policy = seq<(nat, bool)>

  predicate Lawful(dir: seq<Entry>, p: Policy) {
    |p| == |dir| + 1 && forall i | 0 <= i < |p| :: Answer(dir, i, p[i].0, p[i].1)
  }

  datatype Cursor = At(i: nat) | Ended | Refused

  /** The page after a cursor: the end, no progress at the start, the entry after the last one sent, or,
      after an empty page, the start again. */
  function Onward(p: Policy, c: Cursor): Cursor {
    if !c.At? || c.i >= |p| then c
    else if p[c.i].1 then Ended
    else if p[c.i].0 > 0 then At(c.i + p[c.i].0)
    else if c.i == 0 then Refused else At(0)
  }

  /** Where the scan is after `k` pages, if none of them holds a stale name. */
  function Scan(p: Policy, k: nat): Cursor {
    if k == 0 then At(0) else Onward(p, Scan(p, k - 1))
  }

  /** The page after the first `k` is empty without EOF. */
  predicate Blank(p: Policy, k: nat) {
    Scan(p, k).At? && Scan(p, k).i < |p| && !Useful(p[Scan(p, k).i].0, p[Scan(p, k).i].1)
  }

  /** `Onward` is what the loop of `SweepOnce` does with the cookie of the page. */
  lemma OnwardIsCookie(dir: seq<Entry>, p: Policy, i: nat)
    requires WellFormed(dir) && i <= |dir| && Lawful(dir, p) && !p[i].1
    ensures var n := p[i].0; var last := CookieAt(dir[i..i + n], n);
            match Onward(p, At(i))
            case At(j) => j <= |dir| && last != CookieAt(dir, i) && last == CookieAt(dir, j)
            case Refused => last == CookieAt(dir, i)
            case Ended => false
  {
    var j := if p[i].0 > 0 then i + p[i].0 else 0;
    assert Answer(dir, i, p[i].0, p[i].1);
    if i != j && CookieAt(dir, i) == CookieAt(dir, j) {
      TokenPosition(dir, i, j);
    }
  }

  lemma {:induction false} ScanForward(dir: seq<Entry>, p: Policy, k: nat)
    requires Lawful(dir, p) && forall m: nat :: !Blank(p, m)
    ensures Scan(p, k).Ended? || (Scan(p, k).At? && k <= Scan(p, k).i <= |dir|)
  {
    if k > 0 {
      ScanForward(dir, p, k - 1);
      assert !Blank(p, k - 1);
      assert Scan(p, k - 1).At? ==> Answer(dir, Scan(p, k - 1).i, p[Scan(p, k - 1).i].0, p[Scan(p, k - 1).i].1);
    }
  }

  lemma {:induction false} ScanStops(p: Policy, a: nat, b: nat)
    requires a <= b && !Scan(p, a).At?
    ensures Scan(p, b) == Scan(p, a)
    decreases b
  {
    if a < b {
      ScanStops(p, a, b - 1);
    }
  }

  lemma {:induction false} ScanRepeats(p: Policy, k: nat, m: nat)
    requires Scan(p, k + 1) == At(0)
    ensures Scan(p, k + 1 + m) == Scan(p, m)
  {
    if m > 0 {
      ScanRepeats(p, k, m - 1);
    }
  }

  /** A scan that came back to the start goes round for ever. */
  lemma {:induction false} NeverEnds(p: Policy, k: nat, m: nat)
    requires Scan(p, k).At? && Scan(p, k + 1) == At(0)
    ensures Scan(p, m).At?
    decreases m
  {
    if m <= k {
      if !Scan(p, m).At? {
        ScanStops(p, m, k);
      }
    } else {
      ScanRepeats(p, k, m - k - 1);
      NeverEnds(p, k, m - k - 1);
    }
  }

  /** After an empty page without EOF the scan fails at the start of the directory, and from anywhere else
      it never ends. */
  lemma BlankPageFails(p: Policy, k: nat, m: nat)
    requires Blank(p, k)
    ensures !Scan(p, m).Ended?
    ensures if Scan(p, k).i == 0 then Scan(p, k + 1).Refused? else Scan(p, m).At?
  {
    if Scan(p, k).i > 0 {
      NeverEnds(p, k, m);
    } else if m > k {
      ScanStops(p, k + 1, m);
    } else if !Scan(p, m).At? {
      ScanStops(p, m, k);
    }
  }

  /** The scan of a directory that does not change reaches its end exactly when no page it gets is empty
      without EOF. */
  lemma ScanEndsExactlyWhen(dir: seq<Entry>, p: Policy)
    requires Lawful(dir, p)
    ensures (exists k: nat :: Scan(p, k).Ended?) <==> forall k: nat :: !Blank(p, k)
  {
    if k: nat :| Blank(p, k) {
      forall m: nat
        ensures !Scan(p, m).Ended?
      {
        BlankPageFails(p, k, m);
      }
    } else {
      ScanForward(dir, p, |dir| + 1);
    }
  }

  const TWO_FILES := [Entry(1, "a"), Entry(2, "b")]

  const STUBBORN: Policy := [(1, false), (0, false), (0, true)]

  /** One entry first, and an empty page without EOF after it: the scan goes round for ever. */
  lemma EndlessScan(m: nat)
    ensures Lawful(TWO_FILES, STUBBORN) && Scan(STUBBORN, m).At?
  {
    assert Scan(STUBBORN, 1) == At(1);
    NeverEnds(STUBBORN, 1, m);
  }

  // ---------------------------------------------------------------- the attempt

  /** What an attempt that reports `n` did: every entry it removed was a temporary file no newer than
      the cutoff, and every temporary file it left is newer. */
  ghost predicate Swept(dir: Directory, created: Created, cutoff: nat, n: nat, alive0: set<nat>, alone: bool)
    reads dir
  {
    && n == |dir.mine|
    && (forall k | k in dir.mine ::
          && k in alive0 && k < |dir.entries| && dir.entries[k].name !in [".", ".."]
          && created(dir.entries[k].name).Some? && created(dir.entries[k].name).value <= cutoff)
    && (forall k | k in dir.alive && k < |dir.entries| && created(dir.entries[k].name).Some? && dir.entries[k].name !in [".", ".."] ::
          cutoff < created(dir.entries[k].name).value)
    && (alone ==> dir.alive + dir.mine == alive0)
  }

  lemma SweptSo(dir: Directory, created: Created, cutoff: nat, n: nat, alive0: set<nat>, alone: bool)
    requires n == |dir.mine| && (alone ==> dir.alive + dir.mine == alive0)
    requires forall k | k in dir.mine :: k in alive0 && StaleAt(dir.entries, created, cutoff, k)
    requires forall k | k in dir.alive && k < |dir.entries| :: !StaleAt(dir.entries, created, cutoff, k)
    ensures Swept(dir, created, cutoff, n, alive0, alone)
  {
    forall k | k in dir.alive && k < |dir.entries| && created(dir.entries[k].name).Some? && dir.entries[k].name !in [".", ".."]
      ensures cutoff < created(dir.entries[k].name).value
    {
      assert !StaleAt(dir.entries, created, cutoff, k);
    }
  }

  /** Scans from the start; a page with stale names has them removed and the scan starts over. An Ok
      count is exactly the entries this attempt removed, all of them stale; no stale one is left. An
      empty page without EOF fails the attempt at the start of the directory and sends it back
      there from anywhere else, so that it ends as long as there are only so many of them. */
  method SweepOnce(dir: Directory, created: Created, cutoff: nat, depth: nat, alone: bool) returns (r: Result<nat, Error>)
    requires dir.Valid() && dir.mine == {} && 0 < depth
    modifies dir
    ensures r.Ok? ==> Swept(dir, created, cutoff, r.value, old(dir.alive), alone)
    ensures r == Err(Protocol) ==> dir.blanks < old(dir.blanks)
  {
    hide Swept, StaleAt;
    var removed: nat, cookie: nat := 0, 0;
    ghost var i: nat := 0;
    while true
      invariant dir.Valid() && removed == |dir.mine| && i <= |dir.entries| && cookie == CookieAt(dir.entries, i) && dir.alive <= old(dir.alive)
      invariant forall k | k in dir.mine :: k in old(dir.alive) && StaleAt(dir.entries, created, cutoff, k)
      invariant forall k | k in dir.alive && k < i :: !StaleAt(dir.entries, created, cutoff, k)
      invariant alone ==> dir.alive + dir.mine == old(dir.alive)
      invariant dir.blanks <= old(dir.blanks)
      decreases dir.alive, dir.blanks, |dir.entries| - i
    {
      var page, lastCookie, next := dir.ReadPage(cookie, i, alone);
      if page.Err? {
        return Err(page.error);
      }
      var stale := StaleOf(dir.entries, created, cutoff, page.value.0);
      if stale != [] {
        ghost var there := dir.alive;
        var count, failed := RemoveTempNames(dir, stale, depth, removed, alone);
        if failed.Some? {
          return Err(OutcomeUnknown);
        }
        assert stale[0] in stale && stale[0] in there && stale[0] !in dir.alive;
        removed, cookie, i := count, 0, 0;
      } else {
        if page.value.1 {
          SweptSo(dir, created, cutoff, removed, old(dir.alive), alone);
          return Ok(removed);
        }
        if lastCookie == cookie {
          return Err(Protocol);
        }
        cookie, i := lastCookie, if page.value.0 == [] then 0 else next;
      }
    }
  }

  predicate StaleAt(entries: seq<Entry>, created: Created, cutoff: nat, k: nat) {
    k < |entries| && IsStale(created, cutoff, entries[k].name)
  }

  method StaleOf(entries: seq<Entry>, created: Created, cutoff: nat, page: seq<nat>) returns (stale: seq<nat>)
    ensures forall k :: k in stale <==> k in page && StaleAt(entries, created, cutoff, k)
  {
    stale := [];
    for m := 0 to |page|
      invariant forall k :: k in stale <==> k in page[..m] && StaleAt(entries, created, cutoff, k)
    {
      assert page[..m + 1] == page[..m] + [page[m]];
      if StaleAt(entries, created, cutoff, page[m]) {
        stale := stale + [page[m]];
      }
    }
    assert page[..|page|] == page;
  }
}
