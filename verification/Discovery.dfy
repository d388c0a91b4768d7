/**
 Choosing among the known servers: a list given by hand, or one refreshed from the
 registry when it has grown old; round robin over either.
 */
module Discovery {
  import opened Common
  import opened ServerList

  const RANDOM_SELECT := 0
  const ROUND_ROBIN_SELECT := 1
  const MAX_INT32 := 0x7fff_ffff
  const DEFAULT_UPDATE_TIMEOUT := 10_000_000_000  // ten seconds, in nanoseconds

  datatype DiscoveryError = NoServers | UnsupportedMode | RegistryUnreachable

  // --------------------------------------------------------------------- the choices

  /** What `Get` answers for a mode, an index and a draw of the random source. */
  function Chosen(servers: seq<string>, index: nat, mode: int, draw: nat): (r: Result<string, DiscoveryError>)
    ensures r.Ok? ==> r.value in servers
  {
    if servers == [] then Err(NoServers)
    else if mode == RANDOM_SELECT then Ok(servers[draw % |servers|])
    else if mode == ROUND_ROBIN_SELECT then Ok(servers[index % |servers|])
    else Err(UnsupportedMode)
  }

  function NextIndex(n: nat, index: nat, mode: int): nat {
    if n != 0 && mode == ROUND_ROBIN_SELECT then (index + 1) % n else index
  }

  class MultiServersDiscovery {
    var servers: seq<string>
    var index: nat

    constructor (servers: seq<string>, initial: nat)
      requires initial < MAX_INT32 - 1
      ensures this.servers == servers && index == initial
    {
      this.servers := servers;
      index := initial;
    }

    method Update(servers: seq<string>)
      modifies this`servers
      ensures this.servers == servers
    {
      this.servers := servers;
    }

    method Get(mode: int, draw: nat) returns (r: Result<string, DiscoveryError>)
      modifies this`index
      ensures r == Chosen(servers, old(index), mode, draw)
      ensures index == NextIndex(|servers|, old(index), mode)
    {
      var n := |servers|;
      if n == 0 { return Err(NoServers); }
      if mode == RANDOM_SELECT {
        r := Ok(servers[draw % n]);
      } else if mode == ROUND_ROBIN_SELECT {
        r := Ok(servers[index % n]);
        index := (index + 1) % n;
      } else {
        r := Err(UnsupportedMode);
      }
    }

    method GetAll() returns (all: seq<string>)
      ensures all == servers
    {
      all := servers;
    }
  }

  // ------------------------------------------------------------------------- fairness

  /** One selection, with its draw if it is random. */
  datatype Select = Select(mode: int, draw: nat)

  function IndexAfter(n: nat, index: nat, window: seq<Select>): nat {
    if window == [] then index
    else NextIndex(n, IndexAfter(n, index, window[..|window| - 1]), window[|window| - 1].mode)
  }

  /** How many selections of the window are round robin. */
  function Turns(window: seq<Select>): nat {
    if window == [] then 0
    else Turns(window[..|window| - 1]) + if window[|window| - 1].mode == ROUND_ROBIN_SELECT then 1 else 0
  }

  /** How many round-robin selections of the window choose position `p` of `n`. */
  function Hits(n: nat, index: nat, window: seq<Select>, p: nat): nat
    requires 0 < n
  {
    if window == [] then 0
    else
      var before := window[..|window| - 1];
      Hits(n, index, before, p)
      + if window[|window| - 1].mode == ROUND_ROBIN_SELECT && IndexAfter(n, index, before) % n == p then 1 else 0
  }

  /** What successive `Get`s answer, one for each selection. */
  function Answers(servers: seq<string>, index: nat, window: seq<Select>)
    : (answers: seq<Result<string, DiscoveryError>>)
    ensures |answers| == |window|
  {
    if window == [] then []
    else
      var before, last := window[..|window| - 1], window[|window| - 1];
      Answers(servers, index, before)
      + [Chosen(servers, IndexAfter(|servers|, index, before), last.mode, last.draw)]
  }

  /** How many of the answers name the address. */
  function Named(answers: seq<Result<string, DiscoveryError>>, a: string): nat {
    if answers == [] then 0 else Named(answers[..|answers| - 1], a) + One(answers[|answers| - 1] == Ok(a))
  }

  /** How many random selections draw position `p` of `n`. */
  function Drawn(n: nat, window: seq<Select>, p: nat): nat
    requires 0 < n
  {
    if window == [] then 0
    else
      var last := window[|window| - 1];
      Drawn(n, window[..|window| - 1], p) + One(last.mode == RANDOM_SELECT && last.draw % n == p)
  }

  /** How far position `p` is ahead of the start, going round. */
  function Ahead(n: nat, start: nat, p: nat): nat
    requires start < n && p < n
  {
    if start <= p then p - start else p + n - start
  }

  /** The position `r` steps after the start, for `r` below `n`. */
  function Round(n: nat, start: nat, r: nat): nat
    requires start < n && r < n
  {
    if start + r < n then start + r else start + r - n
  }

  lemma {:induction false} NextTurn(n: nat, m: nat)
    requires 0 < n
    ensures if m % n + 1 < n then (m + 1) / n == m / n && (m + 1) % n == m % n + 1
            else (m + 1) / n == m / n + 1 && (m + 1) % n == 0
  {
    var q, r := m / n, m % n;
    assert m == q * n + r;
    if r + 1 < n {
      Divided(n, m + 1, q, r + 1);
    } else {
      assert m + 1 == (q + 1) * n;
      Divided(n, m + 1, q + 1, 0);
    }
  }

  lemma {:induction false} Divided(n: nat, m: nat, q: nat, r: nat)
    requires m == q * n + r && r < n
    ensures m / n == q && m % n == r
  {
    Multiplied(q + 1, m / n, n);
    Multiplied(m / n + 1, q, n);
  }

  lemma Multiplied(a: nat, b: nat, n: nat)
    ensures a <= b ==> a * n <= b * n
  {
    if a <= b { assert b * n == a * n + (b - a) * n; }
  }

  lemma WrapOnce(n: nat, index: nat)
    requires 0 < n
    ensures ((index + 1) % n) % n == if index % n + 1 < n then index % n + 1 else 0
  {
    NextTurn(n, index);
    Divided(n, (index + 1) % n, 0, (index + 1) % n);
  }

  /** One more turn, in quotient and remainder. */
  predicate Turned(n: nat, q: nat, r: nat, q': nat, r': nat) {
    if r + 1 < n then q' == q && r' == r + 1 else q' == q + 1 && r' == 0
  }

  lemma TurnShare(n: nat, start: nat, p: nat, q: nat, r: nat, q': nat, r': nat)
    requires start < n && p < n && r < n && Turned(n, q, r, q', r')
    ensures q + One(Ahead(n, start, p) < r) + One(Round(n, start, r) == p) == q' + One(Ahead(n, start, p) < r')
    ensures Round(n, start, r') == if Round(n, start, r) + 1 < n then Round(n, start, r) + 1 else 0
  {
  }

  /** Where round robin stands after the window's turns, and what it chose by then. */
  ghost predicate StandsAt(n: nat, index: nat, window: seq<Select>, p: nat, start: nat, q: nat, r: nat)
    requires p < n && start < n && r < n
  {
    && IndexAfter(n, index, window) % n == Round(n, start, r)
    && Hits(n, index, window, p) == q + One(Ahead(n, start, p) < r)
  }

  lemma {:induction false} Standing(n: nat, index: nat, window: seq<Select>, p: nat, start: nat)
    returns (q: nat, r: nat)
    requires p < n && start == index % n
    ensures r < n && Turns(window) == q * n + r && StandsAt(n, index, window, p, start, q, r)
  {
    if window == [] {
      q, r := 0, 0;
    } else {
      var before, last := window[..|window| - 1], window[|window| - 1];
      q, r := Standing(n, index, before, p, start);
      if last.mode == ROUND_ROBIN_SELECT {
        var q', r' := if r + 1 < n then q else q + 1, if r + 1 < n then r + 1 else 0;
        OneTurn(n, index, window, p, start, q, r, q', r');
        TurnCount(n, Turns(before), q, r, q', r');
        q, r := q', r';
      }
    }
  }

  lemma TurnCount(n: nat, t: nat, q: nat, r: nat, q': nat, r': nat)
    requires r < n && t == q * n + r && Turned(n, q, r, q', r')
    ensures t + 1 == q' * n + r'
  {
    assert (q + 1) * n == q * n + n;
  }

  lemma {:induction false} OneTurn(n: nat, index: nat, window: seq<Select>, p: nat, start: nat,
                                  q: nat, r: nat, q': nat, r': nat)
    requires p < n && start < n && r < n && Turned(n, q, r, q', r')
    requires window != [] && window[|window| - 1].mode == ROUND_ROBIN_SELECT
    requires StandsAt(n, index, window[..|window| - 1], p, start, q, r)
    ensures StandsAt(n, index, window, p, start, q', r')
  {
    WrapOnce(n, IndexAfter(n, index, window[..|window| - 1]));
    TurnShare(n, start, p, q, r, q', r');
  }

  lemma {:induction false} ShareOfHits(n: nat, index: nat, window: seq<Select>, p: nat)
    requires p < n
    ensures Turns(window) / n <= Hits(n, index, window, p) <= (Turns(window) + n - 1) / n
  {
    var q, r := Standing(n, index, window, p, index % n);
    Divided(n, Turns(window), q, r);
    RoundedUp(n, Turns(window));
  }

  lemma {:induction false} RoundedUp(n: nat, t: nat)
    requires 0 < n
    ensures (t + n - 1) / n == t / n + One(0 < t % n)
  {
    var q, r := t / n, t % n;
    assert t == q * n + r;
    if r == 0 {
      Divided(n, t + n - 1, q, n - 1);
    } else {
      assert (q + 1) * n == q * n + n;
      Divided(n, t + n - 1, q + 1, r - 1);
    }
  }

  lemma OneAnswer(servers: seq<string>, index: nat, mode: int, draw: nat, p: nat)
    requires p < |servers| && NoDup(servers)
    ensures var n := |servers|;
      One(Chosen(servers, index, mode, draw) == Ok(servers[p]))
      == One(mode == ROUND_ROBIN_SELECT && index % n == p) + One(mode == RANDOM_SELECT && draw % n == p)
  {
    var n := |servers|;
    var i := if mode == RANDOM_SELECT then draw % n else index % n;
    assert i < p ==> servers[i] != servers[p];
    assert p < i ==> servers[p] != servers[i];
  }

  /** The answers that name a server are its round-robin turns and its draws. */
  lemma {:induction false} NamedCounts(servers: seq<string>, index: nat, window: seq<Select>, p: nat)
    requires p < |servers| && NoDup(servers)
    ensures Named(Answers(servers, index, window), servers[p])
         == Hits(|servers|, index, window, p) + Drawn(|servers|, window, p)
  {
    if window != [] {
      var before, last := window[..|window| - 1], window[|window| - 1];
      NamedCounts(servers, index, before, p);
      assert Answers(servers, index, window)[..|before|] == Answers(servers, index, before);
      OneAnswer(servers, IndexAfter(|servers|, index, before), last.mode, last.draw, p);
    }
  }

  /** From any starting index, in any window of selections, each of different servers is
      answered its share of the round-robin turns, their number over that of the servers
      rounded down or up, and as often besides as it is drawn. */
  lemma {:induction false} RoundRobinIsFair(servers: seq<string>, index: nat, window: seq<Select>, p: nat)
    requires p < |servers| && NoDup(servers)
    ensures var n, answered := |servers|, Named(Answers(servers, index, window), servers[p]);
      Turns(window) / n <= answered - Drawn(n, window, p) <= (Turns(window) + n - 1) / n
  {
    NamedCounts(servers, index, window, p);
    ShareOfHits(|servers|, index, window, p);
  }

  /** In as many round-robin turns as there are servers each of them is answered exactly
      once, besides its draws. */
  lemma {:induction false} FullRoundVisitsAll(servers: seq<string>, index: nat, window: seq<Select>, p: nat)
    requires p < |servers| && NoDup(servers) && Turns(window) == |servers|
    ensures Named(Answers(servers, index, window), servers[p]) == 1 + Drawn(|servers|, window, p)
  {
    var n := |servers|;
    NamedCounts(servers, index, window, p);
    var q, r := Standing(n, index, window, p, index % n);
    Divided(n, n, q, r);
    Divided(n, n, 1, 0);
  }

  lemma {:induction false} IndexIsTurns(n: nat, index: nat, window: seq<Select>)
    requires 0 < n
    ensures IndexAfter(n, index, window) % n == (index + Turns(window)) % n
  {
    if window != [] {
      var before := window[..|window| - 1];
      IndexIsTurns(n, index, before);
      var i, m := IndexAfter(n, index, before), index + Turns(before);
      WrapOnce(n, i);
      NextTurn(n, m);
    }
  }

  /** Each answer, of whatever mode: the next server in turn from the index on, the one that
      was drawn, or an error. */
  lemma {:induction false} AnswerInTurn(servers: seq<string>, index: nat, window: seq<Select>, i: nat)
    requires i < |window|
    ensures var n, answer := |servers|, Answers(servers, index, window)[i];
      if n == 0 then answer == Err(NoServers)
      else if window[i].mode == ROUND_ROBIN_SELECT then answer == Ok(servers[(index + Turns(window[..i])) % n])
      else if window[i].mode == RANDOM_SELECT then answer == Ok(servers[window[i].draw % n])
      else answer == Err(UnsupportedMode)
    decreases |window|
  {
    var before := window[..|window| - 1];
    if i < |before| {
      AnswerInTurn(servers, index, before, i);
      assert before[..i] == window[..i];
    } else if servers != [] {
      IndexIsTurns(|servers|, index, before);
    }
  }

  // ------------------------------------------------------------ refreshed from a registry

  /** The list is refreshed when it was never fetched or has reached its age limit. */
  predicate Fresh(lastUpdate: Option<int>, timeout: int, now: int) {
    lastUpdate.Some? && lastUpdate.value + timeout > now
  }

  /** What a refresh leaves: the list, its date and whether it went through. The
      registry is asked at `now`; the new list is dated `done`. */
  function Refreshed(servers: seq<string>, lastUpdate: Option<int>, timeout: int, now: int,
                     answer: Result<string, DiscoveryError>, done: int)
    : (seq<string>, Option<int>, Option<DiscoveryError>)
  {
    if Fresh(lastUpdate, timeout, now) then (servers, lastUpdate, None)
    else match answer
      case Err(e) => (servers, lastUpdate, Some(e))
      case Ok(header) => (Parse(header), Some(done), None)
  }

  class MyRegistryDiscovery {
    const list: MultiServersDiscovery
    const timeout: int
    var lastUpdate: Option<int>

    constructor (timeout: int, initial: nat)
      requires initial < MAX_INT32 - 1
      ensures this.timeout == (if timeout == 0 then DEFAULT_UPDATE_TIMEOUT else timeout)
      ensures fresh(list) && list.servers == [] && list.index == initial && lastUpdate == None
    {
      this.timeout := if timeout == 0 then DEFAULT_UPDATE_TIMEOUT else timeout;
      list := new MultiServersDiscovery([], initial);
      lastUpdate := None;
    }

    method Update(servers: seq<string>, now: int)
      modifies this, list`servers
      ensures list.servers == servers && lastUpdate == Some(now)
    {
      list.Update(servers);
      lastUpdate := Some(now);
    }

    method Refresh(now: int, answer: Result<string, DiscoveryError>, done: int) returns (e: Option<DiscoveryError>)
      modifies this, list`servers
      ensures (list.servers, lastUpdate, e) == Refreshed(old(list.servers), old(lastUpdate), timeout, now, answer, done)
      ensures if old(lastUpdate).Some? && now < old(lastUpdate).value + timeout then
                e == None && list.servers == old(list.servers) && lastUpdate == old(lastUpdate)
              else if answer.Err? then
                e == Some(answer.error) && list.servers == old(list.servers) && lastUpdate == old(lastUpdate)
              else e == None && list.servers == Parse(answer.value) && lastUpdate == Some(done)
    {
      if lastUpdate.Some? && lastUpdate.value + timeout > now { return None; }
      if answer.Err? { return Some(answer.error); }
      var pieces := Split(answer.value);
      list.servers := [];
      for i := 0 to |pieces|
        invariant list.servers + Trimmed(pieces[i..]) == Trimmed(pieces)
      {
        assert pieces[i..][0] == pieces[i] && pieces[i..][1..] == pieces[i + 1..];
        if TrimSpace(pieces[i]) != "" {
          list.servers := list.servers + [TrimSpace(pieces[i])];
        }
      }
      assert pieces[|pieces|..] == [] && list.servers == Parse(answer.value);
      lastUpdate := Some(done);
      e := None;
    }

    /** A choice from a list that is in date; with the registry out of reach, none. */
    method Get(mode: int, draw: nat, now: int, answer: Result<string, DiscoveryError>, done: int)
      returns (r: Result<string, DiscoveryError>)
      modifies this, list
      ensures var (servers, date, failed) :=
                Refreshed(old(list.servers), old(lastUpdate), timeout, now, answer, done);
        && list.servers == servers && lastUpdate == date
        && (if failed.Some? then r == Err(failed.value) && list.index == old(list.index)
            else r == Chosen(servers, old(list.index), mode, draw)
                 && list.index == NextIndex(|servers|, old(list.index), mode))
      ensures r.Ok? ==> r.value in list.servers && (Fresh(old(lastUpdate), timeout, now) || lastUpdate == Some(done))
    {
      var e := Refresh(now, answer, done);
      if e.Some? { return Err(e.value); }
      r := list.Get(mode, draw);
    }

    method GetAll(now: int, answer: Result<string, DiscoveryError>, done: int)
      returns (r: Result<seq<string>, DiscoveryError>)
      modifies this, list`servers
      ensures var (servers, date, failed) :=
                Refreshed(old(list.servers), old(lastUpdate), timeout, now, answer, done);
        && list.servers == servers && lastUpdate == date
        && r == (if failed.Some? then Err(failed.value) else Ok(servers))
    {
      var e := Refresh(now, answer, done);
      if e.Some? { return Err(e.value); }
      var all := list.GetAll();
      r := Ok(all);
    }
  }

  /** A client whose list has aged takes over exactly the registry's list of alive
      servers if, and only if, the text form cannot change any of the addresses. */
  lemma RefreshRecoversListIff(servers: seq<string>, lastUpdate: Option<int>, timeout: int, now: int,
                               alive: seq<string>, done: int)
    requires !Fresh(lastUpdate, timeout, now)
    ensures Refreshed(servers, lastUpdate, timeout, now, Ok(Join(alive)), done) == (alive, Some(done), None)
        <==> forall a :: a in alive ==> Clean(a)
  {
    ParseJoinIff(alive);
  }
}
