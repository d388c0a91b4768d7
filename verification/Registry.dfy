/**
 The registry of servers: heartbeats put an address in, a query returns the sorted
 addresses whose last heartbeat is in date and drops the others on the way.
 */
module Registry {
  import opened Common
  import opened ServerList
  import opened Sorting

  // -------------------------------------------------------------------- sorted output

  predicate Less(a: string, b: string) {
    b != "" && (a == "" || a[0] < b[0] || (a[0] == b[0] && Less(a[1..], b[1..])))
  }

  /** The first `i` characters are the same, and then the one text ends or is smaller. */
  predicate SmallerAt(a: string, b: string, i: nat) {
    i <= |a| && i < |b| && a[..i] == b[..i] && (i < |a| ==> a[i] < b[i])
  }

  /** The order is the one of the dictionary. */
  lemma {:induction false} LessIff(a: string, b: string)
    ensures Less(a, b) <==> exists i: nat :: SmallerAt(a, b, i)
  {
    if b != "" {
      if a == "" || a[0] < b[0] {
        assert SmallerAt(a, b, 0);
      } else {
        LessIff(a[1..], b[1..]);
        if a[0] == b[0] && Less(a[1..], b[1..]) {
          var i: nat :| SmallerAt(a[1..], b[1..], i);
          Longer(a, b, i);
        }
        forall i: nat | SmallerAt(a, b, i) ensures Less(a, b) { Shorter(a, b, i); }
      }
    }
  }

  lemma Longer(a: string, b: string, i: nat)
    requires a != "" && b != "" && a[0] == b[0] && SmallerAt(a[1..], b[1..], i)
    ensures SmallerAt(a, b, i + 1)
  {
    assert a[..i + 1] == [a[0]] + a[1..][..i] && b[..i + 1] == [b[0]] + b[1..][..i];
  }

  lemma Shorter(a: string, b: string, i: nat)
    requires a != "" && b != "" && !(a[0] < b[0]) && SmallerAt(a, b, i)
    ensures 0 < i && a[0] == b[0] && SmallerAt(a[1..], b[1..], i - 1)
  {
    if 0 < i {
      assert a[..i][0] == a[0] && b[..i][0] == b[0];
      assert a[1..][..i - 1] == a[..i][1..] && b[1..][..i - 1] == b[..i][1..];
    }
  }

  predicate Ascending(s: seq<string>) {
    forall i, j :: 0 <= i < j < |s| ==> Less(s[i], s[j])
  }

  predicate AtMost(a: string, b: string) {
    a == b || Less(a, b)
  }

  lemma {:induction false} LessIsTotal(a: string, b: string)
    ensures a == b || Less(a, b) || Less(b, a)
    ensures !(Less(a, b) && Less(b, a)) && !Less(a, a)
  {
    if a != "" && b != "" {
      LessIsTotal(a[1..], b[1..]);
      LessIsTotal(a[1..], a[1..]);
      assert a == [a[0]] + a[1..] && b == [b[0]] + b[1..];
    } else if a != "" {
      LessIsTotal(a[1..], a[1..]);
    }
  }

  lemma {:induction false} LessIsTransitive(a: string, b: string, c: string)
    requires Less(a, b) && Less(b, c)
    ensures Less(a, c)
  {
    if a != "" && a[0] == b[0] == c[0] {
      LessIsTransitive(a[1..], b[1..], c[1..]);
    }
  }

  lemma OrderIsTotal()
    ensures TotalOrder(AtMost)
  {
    forall a: string, b: string ensures AtMost(a, b) || AtMost(b, a) { LessIsTotal(a, b); }
    forall a: string, b: string, c: string | AtMost(a, b) && AtMost(b, c) ensures AtMost(a, c) {
      if a != b && b != c { LessIsTransitive(a, b, c); }
    }
  }

  /** `sort.Strings` on different addresses. */
  lemma SortAscends(s: seq<string>)
    requires NoDup(s)
    ensures Ascending(Sort(s, AtMost))
    ensures forall x :: x in Sort(s, AtMost) <==> x in s
  {
    OrderIsTotal();
    SortSorts(s, AtMost);
    SortKeepsNoDup(s, AtMost);
  }

  function First(s: seq<string>): string {
    if s == [] then "" else s[0]
  }

  lemma FirstIsIn(s: seq<string>)
    ensures s == [] || First(s) in s
  {
  }

  /** A set of addresses has one sorted list: the map's walking order is not seen. */
  lemma {:induction false} AscendingUnique(s: seq<string>, t: seq<string>)
    requires Ascending(s) && Ascending(t) && forall x :: x in s <==> x in t
    ensures s == t
  {
    if s == [] {
      FirstIsIn(t);
    } else {
      assert s[0] in t && t != [];
      assert t[0] in s;
      HeadsAgree(s, t);
      forall x ensures x in s[1..] <==> x in t[1..] { TailMembers(s, x); TailMembers(t, x); }
      AscendingUnique(s[1..], t[1..]);
    }
  }

  lemma HeadsAgree(s: seq<string>, t: seq<string>)
    requires Ascending(s) && Ascending(t) && s != [] && t != [] && s[0] in t && t[0] in s
    ensures s[0] == t[0]
  {
    LessIsTotal(s[0], t[0]);
  }

  lemma TailMembers(s: seq<string>, x: string)
    requires Ascending(s) && s != []
    ensures x in s[1..] <==> x in s && x != s[0]
  {
    LessIsTotal(s[0], s[0]);
    assert x in s <==> x == s[0] || x in s[1..];
  }

  // -------------------------------------------------------------------- the registry

  predicate InDate(timeout: int, start: int, now: int) {
    timeout == 0 || start + timeout > now
  }

  /** What a query leaves behind, having read the clock once per address. */
  function Purged(servers: map<string, int>, timeout: int, reading: string -> int): map<string, int> {
    map a | a in servers && InDate(timeout, servers[a], reading(a)) :: servers[a]
  }

  datatype Request = Get | Post(server: string) | OtherMethod

  datatype Response = Servers(header: string) | Accepted | ServerError | NotAllowed

  class MyRegistry {
    const timeout: int
    var servers: map<string, int>  // each address's last heartbeat

    constructor (timeout: int)
      ensures this.timeout == timeout && servers == map[]
    {
      this.timeout := timeout;
      servers := map[];
    }

    method PutServer(addr: string, now: int)
      modifies this
      ensures servers == old(servers)[addr := now]
    {
      servers := servers[addr := now];
    }

    /** The addresses in date, sorted; the others are deleted while walking the map. */
    method AliveServers(reading: string -> int) returns (alive: seq<string>)
      modifies this
      ensures servers == Purged(old(servers), timeout, reading)
      ensures Ascending(alive) && forall a :: a in alive <==> a in servers
      ensures forall a :: a in alive <==>
                a in old(servers) && (timeout == 0 || reading(a) < old(servers)[a] + timeout)
      ensures forall a :: a in servers ==> servers[a] == old(servers)[a]
    {
      alive := [];
      var left := servers.Keys;
      while left != {}
        invariant left <= servers.Keys <= old(servers).Keys
        invariant forall a :: a in servers ==> servers[a] == old(servers)[a]
        invariant forall a :: a in old(servers) && a !in left ==>
                    (a in servers <==> InDate(timeout, old(servers)[a], reading(a)))
        invariant forall a :: a in alive <==> a in servers && a !in left
        invariant NoDup(alive)
      {
        var addr := Pick(left);
        left := left - {addr};
        if timeout == 0 || servers[addr] + timeout > reading(addr) {
          alive := alive + [addr];
        } else {
          servers := servers - {addr};
        }
      }
      SortAscends(alive);
      alive := Sort(alive, AtMost);
    }

    /** The list goes out comma-joined; a heartbeat needs an address. */
    method ServeHTTP(req: Request, now: int, reading: string -> int) returns (resp: Response)
      modifies this
      ensures match req
              case Get =>
                servers == Purged(old(servers), timeout, reading) && resp.Servers?
                && forall alive: seq<string> ::
                     Ascending(alive) && (forall a :: a in alive <==> a in servers) ==> resp.header == Join(alive)
              case Post(addr) =>
                if addr == "" then resp == ServerError && servers == old(servers)
                else resp == Accepted && servers == old(servers)[addr := now]
              case OtherMethod => resp == NotAllowed && servers == old(servers)
    {
      match req
      case Get =>
        var found := AliveServers(reading);
        resp := Servers(Join(found));
        forall alive: seq<string> | Ascending(alive) && (forall a :: a in alive <==> a in servers)
          ensures resp.header == Join(alive)
        {
          AscendingUnique(alive, found);
        }
      case Post(addr) =>
        if addr == "" { return ServerError; }
        PutServer(addr, now);
        resp := Accepted;
      case OtherMethod =>
        resp := NotAllowed;
    }
  }

  // ------------------------------------------------------------------------ histories

  datatype Event = Beat(addr: string, now: int) | Query(lo: int, hi: int, reading: string -> int)

  function Start(e: Event): int {
    if e.Beat? then e.now else e.lo
  }

  function End(e: Event): int {
    if e.Beat? then e.now else e.hi
  }

  /** The clock does not go back: not between events, nor within a query. */
  ghost predicate Ordered(h: seq<Event>) {
    h == [] ||
    var last := |h| - 1;
    && Ordered(h[..last])
    && (h[last].Query? ==> h[last].lo <= h[last].hi && forall a :: h[last].lo <= h[last].reading(a) <= h[last].hi)
    && (0 < last ==> End(h[last - 1]) <= Start(h[last]))
  }

  /** The registry's map after a history. */
  function Replay(timeout: int, h: seq<Event>): map<string, int> {
    if h == [] then map[]
    else
      var before := Replay(timeout, h[..|h| - 1]);
      match h[|h| - 1]
      case Beat(addr, now) => before[addr := now]
      case Query(_, _, reading) => Purged(before, timeout, reading)
  }

  function LastBeat(h: seq<Event>, a: string): Option<int> {
    if h == [] then None
    else
      var e := h[|h| - 1];
      if e.Beat? && e.addr == a then Some(e.now) else LastBeat(h[..|h| - 1], a)
  }

  /** An address is kept with its last heartbeat, or that heartbeat is out of date. */
  lemma {:induction false} ReplayKeepsLastBeat(timeout: int, h: seq<Event>, a: string)
    requires Ordered(h)
    ensures a in Replay(timeout, h) ==> LastBeat(h, a) == Some(Replay(timeout, h)[a])
    ensures a !in Replay(timeout, h) && LastBeat(h, a).Some? ==>
              h != [] && timeout != 0 && LastBeat(h, a).value + timeout <= End(h[|h| - 1])
  {
    if h != [] {
      ReplayKeepsLastBeat(timeout, h[..|h| - 1], a);
    }
  }

  /** A query returns exactly the addresses whose latest heartbeat is still in date,
      whatever earlier queries purged; with timeout 0, every address ever put. */
  lemma QuerySeesLatestBeats(timeout: int, h: seq<Event>, q: Event, a: string)
    requires q.Query? && Ordered(h + [q])
    ensures a in Replay(timeout, h + [q]) <==>
              LastBeat(h, a).Some? && (timeout == 0 || q.reading(a) < LastBeat(h, a).value + timeout)
  {
    var all := h + [q];
    assert all[..|h|] == h;
    ReplayKeepsLastBeat(timeout, h, a);
    if h != [] { assert all[|h| - 1] == h[|h| - 1]; }
  }

  /** With a timeout an address is seen while its last heartbeat is younger than that, and
      no longer once it is as old. */
  lemma {:induction false} BeatsExpire(timeout: int, h: seq<Event>, q: Event, a: string)
    requires q.Query? && Ordered(h + [q]) && timeout != 0 && LastBeat(h, a).Some?
    ensures var age := q.reading(a) - LastBeat(h, a).value;
      && (age < timeout ==> a in Replay(timeout, h + [q]))
      && (timeout <= age ==> a !in Replay(timeout, h + [q]))
  {
    QuerySeesLatestBeats(timeout, h, q, a);
  }

  function BeatsOnly(h: seq<Event>): seq<Event> {
    if h == [] then []
    else
      var rest := BeatsOnly(h[..|h| - 1]);
      if h[|h| - 1].Beat? then rest + [h[|h| - 1]] else rest
  }

  lemma {:induction false} BeatsOnlyKeepsLast(h: seq<Event>, a: string)
    ensures LastBeat(BeatsOnly(h), a) == LastBeat(h, a)
  {
    if h != [] {
      var rest := BeatsOnly(h[..|h| - 1]);
      BeatsOnlyKeepsLast(h[..|h| - 1], a);
      if h[|h| - 1].Beat? { assert (rest + [h[|h| - 1]])[..|rest|] == rest; }
    }
  }

  lemma {:induction false} BeatsOnlyOrdered(h: seq<Event>)
    requires Ordered(h)
    ensures Ordered(BeatsOnly(h))
    ensures var b := BeatsOnly(h); b != [] ==> h != [] && End(b[|b| - 1]) <= End(h[|h| - 1])
  {
    if h != [] {
      var rest, last := BeatsOnly(h[..|h| - 1]), h[|h| - 1];
      BeatsOnlyOrdered(h[..|h| - 1]);
      if last.Beat? {
        assert (rest + [last])[..|rest|] == rest;
      } else {
        QueryTakesTime(h);
      }
    }
  }

  lemma QueryTakesTime(h: seq<Event>)
    requires Ordered(h) && h != [] && h[|h| - 1].Query?
    ensures Start(h[|h| - 1]) <= End(h[|h| - 1])
  {
  }

  /** Purging is never visible: a query answers as if no query had come before it. */
  lemma PurgingIsInvisible(timeout: int, h: seq<Event>, q: Event, a: string)
    requires q.Query? && Ordered(h + [q])
    ensures a in Replay(timeout, h + [q]) <==> a in Replay(timeout, BeatsOnly(h) + [q])
  {
    assert (h + [q])[..|h|] == h;
    BeatsOnlyOrdered(h);
    BeatsOnlyKeepsLast(h, a);
    var b := BeatsOnly(h);
    assert (b + [q])[..|b|] == b;
    if b != [] {
      assert (b + [q])[|b| - 1] == b[|b| - 1] && (h + [q])[|h| - 1] == h[|h| - 1];
    }
    assert Ordered(b + [q]) by { LastStaysOrdered(h, b, q); }
    QuerySeesLatestBeats(timeout, h, q, a);
    QuerySeesLatestBeats(timeout, b, q, a);
  }

  lemma LastStaysOrdered(h: seq<Event>, b: seq<Event>, q: Event)
    requires q.Query? && Ordered(h + [q]) && Ordered(b)
    requires b != [] ==> h != [] && End(b[|b| - 1]) <= End(h[|h| - 1])
    ensures Ordered(b + [q])
  {
    var x, y := h + [q], b + [q];
    assert x[..|h|] == h && y[..|b|] == b && x[|h|] == q && y[|b|] == q;
    if b != [] { assert y[|b| - 1] == b[|b| - 1] && x[|h| - 1] == h[|h| - 1]; }
  }
}
