/** Directory listing by pages and the sweep of stale temporary files (src/client.rs,
    src/nfs4/codec.rs) over a READDIR that resumes after a cookie (section 18.23 of RFC 5661). */
module Listing {
  import opened Errors

  datatype Entry = Entry(cookie: nat, name: string)

  predicate IsDot(name: string) {
    name == "." || name == ".."
  }

  /** The names a listing shows, in order. */
  function Names(s: seq<Entry>): seq<string> {
    if s == [] then []
    else Names(s[..|s| - 1]) + if IsDot(s[|s| - 1].name) then [] else [s[|s| - 1].name]
  }

  lemma {:induction false} NamesAppend(a: seq<Entry>, b: seq<Entry>)
    ensures Names(a + b) == Names(a) + Names(b)
  {
    if b == [] {
      assert a + b == a;
    } else {
      NamesAppend(a, b[..|b| - 1]);
      assert (a + b)[..|a + b| - 1] == a + b[..|b| - 1];
    }
  }

  lemma NamesPush(s: seq<Entry>, i: nat)
    requires i < |s|
    ensures Names(s[..i + 1]) == Names(s[..i]) + if IsDot(s[i].name) then [] else [s[i].name]
  {
    assert s[..i + 1][..i] == s[..i];
  }

  /** Cookies identify entries and are never the start of the directory. */
  predicate WellFormed(dir: seq<Entry>) {
    && (forall i | 0 <= i < |dir| :: dir[i].cookie != 0)
    && forall i, j | 0 <= i < j < |dir| :: dir[i].cookie != dir[j].cookie
  }

  /** The cookie to continue after the first `i` entries. */
  function CookieAt(dir: seq<Entry>, i: nat): nat
    requires i <= |dir|
  {
    if i == 0 then 0 else dir[i - 1].cookie
  }

  datatype DirPage = DirPage(entries: seq<string>, eof: bool, lastCookie: nat)

  /** `decode_readdir`: keeps at most `limit` names, skipping "." and "..", and remembers the cookie
      of the last entry it looked at. */
  method DecodeReaddir(wire: seq<Entry>, eof: bool, limit: Option<nat>) returns (page: DirPage, ghost taken: nat)
    ensures taken <= |wire| && page.entries == Names(wire[..taken]) && page.lastCookie == CookieAt(wire, taken)
    ensures page.eof == (eof && taken == |wire|)
    ensures taken < |wire| ==> limit == Some(|page.entries|)
    ensures limit.Some? ==> |page.entries| <= limit.value
  {
    var entries: seq<string>, lastCookie, i := [], 0, 0;
    while i < |wire|
      invariant i <= |wire| && entries == Names(wire[..i]) && lastCookie == CookieAt(wire, i)
      invariant limit.Some? ==> |entries| <= limit.value
    {
      if limit == Some(|entries|) {
        return DirPage(entries, false, lastCookie), i;
      }
      NamesPush(wire, i);
      if !IsDot(wire[i].name) {
        entries := entries + [wire[i].name];
      }
      lastCookie := wire[i].cookie;
      i := i + 1;
    }
    return DirPage(entries, eof, lastCookie), i;
  }

  // ---------------------------------------------------------------- one page of an unchanged directory

  /** What a server may answer to READDIR after the first `i` entries: the next `n` of them, and EOF
      only at the end. */
  predicate Answer(dir: seq<Entry>, i: nat, n: nat, eof: bool) {
    i + n <= |dir| && (eof ==> i + n == |dir|)
  }

  /** The server does not send an empty page unless it is the last. */
  predicate Useful(n: nat, eof: bool) {
    n > 0 || eof
  }

  datatype ListResult = ListResult(entries: seq<string>, next: Option<nat>)

  /** The page is the names of the entries from position `i` to position `j`, and the token
      continues exactly there. */
  predicate Continues(dir: seq<Entry>, i: nat, j: nat, r: ListResult) {
    && i <= j <= |dir| && r.entries == Names(dir[i..j])
    && (r.next.None? ==> j == |dir|)
    && (r.next.Some? ==> i < j && r.next.value == CookieAt(dir, j))
  }

  /** `list_page_once`: one page after position `i`. It goes on where the last one ended exactly when
      the server's page is not empty without EOF; such a page fails the listing at its start, and
      later sends it back to the start, to repeat every name. */
  method ListPage(dir: seq<Entry>, i: nat, limit: nat, n: nat, eof: bool) returns (r: Result<ListResult, Error>, ghost j: nat)
    requires WellFormed(dir) && i <= |dir| && 0 < limit && Answer(dir, i, n, eof)
    ensures Useful(n, eof) <==> r.Ok? && Continues(dir, i, j, r.value)
    ensures r.Ok? ==> |r.value.entries| <= limit
    ensures !Useful(n, eof) ==> if i == 0 then r.Err? else r == Ok(ListResult([], Some(0)))
  {
    var cookie := CookieAt(dir, i);
    var page, taken := DecodeReaddir(dir[i..i + n], eof, Some(limit));
    j := i + taken;
    assert dir[i..i + n][..taken] == dir[i..j];
    if page.eof {
      return Ok(ListResult(page.entries, None)), j;
    }
    if page.lastCookie == cookie {
      return Err(Protocol), j;
    }
    return Ok(ListResult(page.entries, Some(page.lastCookie))), j;
  }

  // ---------------------------------------------------------------- following the tokens

  /** Finds the position a token stands for. */
  lemma TokenPosition(dir: seq<Entry>, i: nat, j: nat)
    requires WellFormed(dir) && i <= |dir| && j <= |dir| && CookieAt(dir, i) == CookieAt(dir, j)
    ensures i == j
  {
  }

  /** Pages of any size, cut anywhere by the caller's limits, give every name once and in order, and
      the walk ends. */
  method ListAll(dir: seq<Entry>) returns (all: seq<string>)
    requires WellFormed(dir)
    ensures all == Names(dir)
  {
    var token: Option<nat>, done := Some(0), false;
    ghost var i := 0;
    all := [];
    while !done
      invariant i <= |dir| && all == Names(dir[..i])
      invariant done ==> i == |dir|
      invariant !done ==> token == Some(CookieAt(dir, i))
      decreases |dir| - i, !done
    {
      var at := Resume(dir, token.value, i);
      var limit, n, eof := AnyPage(dir, at);
      var page, j := ListPage(dir, at, limit, n, eof);
      NamesAppend(dir[..i], dir[i..j]);
      assert dir[..i] + dir[i..j] == dir[..j];
      all := all + page.value.entries;
      i := j;
      token := page.value.next;
      done := token.None?;
    }
    assert dir[..|dir|] == dir;
  }

  /** The server finds the entry a cookie belongs to. */
  method Resume(dir: seq<Entry>, cookie: nat, ghost i: nat) returns (at: nat)
    requires WellFormed(dir) && i <= |dir| && cookie == CookieAt(dir, i)
    ensures at == i
  {
    at := 0;
    while CookieAt(dir, at) != cookie
      invariant at <= i
      decreases i - at
    {
      at := at + 1;
    }
    TokenPosition(dir, i, at);
  }

  /** Any limit of the caller and any useful answer of the server. */
  method AnyPage(dir: seq<Entry>, i: nat) returns (limit: nat, n: nat, eof: bool)
    requires i <= |dir|
    ensures 0 < limit && Answer(dir, i, n, eof) && Useful(n, eof)
  {
    var l: int, k: int, e: bool := *, *, *;
    limit := if l > 0 then l else 1;
    if 0 <= k && Answer(dir, i, k, e) && Useful(k, e) {
      n, eof := k, e;
    } else {
      n, eof := |dir| - i, true;
    }
  }
}
