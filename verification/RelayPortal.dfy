/**
 * Looking up which home a name belongs to: cache and lookup budget
 * (webserver/src/utils/relayPortal.js:115-182). Times are milliseconds.
 */
module RelayPortal {

  import opened Options
  import opened Rates

  type Host = string
  type ServerId = string

  const E2E_ROUTE_TTL_MS := 30000
  const E2E_LOOKUPS_PER_SECOND := 20
  const E2E_CACHE_MAX := 10000

  // ============================================================== the budget

  datatype Budget = Budget(windowStart: int, used: nat)

  function Spend(b: Budget, now: int): Budget {
    if now - b.windowStart >= 1000 then Budget(now, 1) else b.(used := b.used + 1)
  }

  predicate Allowed(b: Budget, now: int) {
    Spend(b, now).used <= E2E_LOOKUPS_PER_SECOND
  }

  /** The most lookups still allowed before `end`, from `now` on. */
  function Potential(b: Budget, now: int, end: int): (n: int)
    ensures n >= 0
  {
    if now - b.windowStart >= 1000 then Lots(E2E_LOOKUPS_PER_SECOND, end - now, 1000)
    else (if b.used < E2E_LOOKUPS_PER_SECOND then E2E_LOOKUPS_PER_SECOND - b.used else 0)
         + Lots(E2E_LOOKUPS_PER_SECOND, end - b.windowStart - 1000, 1000)
  }

  lemma WaitingHelpsNobody(b: Budget, now: int, later: int, end: int)
    requires now <= later
    ensures Potential(b, later, end) <= Potential(b, now, end)
  {
    if later - b.windowStart >= 1000 {
      LotsMonotone(E2E_LOOKUPS_PER_SECOND, end - later, end - now, 1000);
      LotsMonotone(E2E_LOOKUPS_PER_SECOND, end - later, end - b.windowStart - 1000, 1000);
    }
  }

  lemma SpendCosts(b: Budget, now: int, end: int)
    requires now < end
    ensures (if Allowed(b, now) then 1 else 0) + Potential(Spend(b, now), now, end) <= Potential(b, now, end)
  {
    if now - b.windowStart >= 1000 {
      LotsOneLess(E2E_LOOKUPS_PER_SECOND, end - now, 1000);
    }
  }

  lemma PotentialAtMost(b: Budget, start: int, end: int)
    requires b.windowStart <= start
    ensures Potential(b, start, end) <= E2E_LOOKUPS_PER_SECOND + Lots(E2E_LOOKUPS_PER_SECOND, end - start, 1000)
  {
    if start - b.windowStart < 1000 {
      LotsMonotone(E2E_LOOKUPS_PER_SECOND, end - b.windowStart - 1000, end - start, 1000);
    }
  }

  // ========================================================== the route cache

  datatype Route = Route(serverId: Option<ServerId>, expires: int)

  datatype State = State(cache: map<Host, Route>, budget: Budget)

  /** What the portal answered: nothing usable (network error), or a home or the absence of one. */
  datatype Reply = Unreachable | Says(serverId: Option<ServerId>)

  /** A lookup begins (`configured`: the internal secret is set), or a portal request comes back. */
  datatype Event =
    | Ask(configured: bool, host: Host, now: int)
    | Answer(host: Host, reply: Reply, now: int)

  /** How a lookup continues: with an answer at once, or by asking the portal. */
  datatype Begun = Known(serverId: Option<ServerId>) | Refused | AsksPortal

  const EMPTY := State(map[], Budget(0, 0))

  predicate Cached(s: State, host: Host, now: int) {
    host in s.cache && s.cache[host].expires > now
  }

  function Begin(s: State, configured: bool, host: Host, now: int): Begun {
    if !configured || host == "" then Known(None)
    else if Cached(s, host, now) then Known(s.cache[host].serverId)
    else if Allowed(s.budget, now) then AsksPortal
    else Refused
  }

  function Step(s: State, e: Event): State {
    match e
    case Ask(configured, host, now) =>
      if !configured || host == "" || Cached(s, host, now) then s else s.(budget := Spend(s.budget, now))
    case Answer(host, reply, now) =>
      if reply.Unreachable? then s
      else
        var kept := if |s.cache| > E2E_CACHE_MAX then map[] else s.cache;
        s.(cache := kept[host := Route(reply.serverId, now + E2E_ROUTE_TTL_MS)])
  }

  function Run(s: State, events: seq<Event>): State
    decreases |events|
  {
    if events == [] then s else Run(Step(s, events[0]), events[1..])
  }

  /** The clock never goes back. */
  predicate Ordered(events: seq<Event>, from: int) {
    if events == [] then true else from <= events[0].now && Ordered(events[1..], events[0].now)
  }

  /** Portal requests sent in [start, end). */
  function Lookups(s: State, events: seq<Event>, start: int, end: int): nat
    decreases |events|
  {
    if events == [] then 0
    else
      var e := events[0];
      (if e.Ask? && Begin(s, e.configured, e.host, e.now) == AsksPortal && start <= e.now < end then 1 else 0)
      + Lookups(Step(s, e), events[1..], start, end)
  }

  lemma {:induction false} NoneAfter(s: State, events: seq<Event>, from: int, start: int, end: int)
    requires Ordered(events, from) && end <= from
    ensures Lookups(s, events, start, end) == 0
    decreases |events|
  {
    if events != [] {
      NoneAfter(Step(s, events[0]), events[1..], events[0].now, start, end);
    }
  }

  lemma {:induction false} PotentialBounds(s: State, events: seq<Event>, from: int, start: int, end: int)
    requires Ordered(events, from) && start <= from
    ensures Lookups(s, events, start, end) <= Potential(s.budget, from, end)
    decreases |events|
  {
    if events != [] {
      var e := events[0];
      if e.now >= end {
        NoneAfter(Step(s, e), events[1..], e.now, start, end);
      } else {
        WaitingHelpsNobody(s.budget, from, e.now, end);
        SpendCosts(s.budget, e.now, end);
        PotentialBounds(Step(s, e), events[1..], e.now, start, end);
      }
    }
  }

  lemma {:induction false} BoundFrom(s: State, events: seq<Event>, from: int, start: int, end: int)
    requires Ordered(events, from) && s.budget.windowStart <= from
    ensures Lookups(s, events, start, end) <= E2E_LOOKUPS_PER_SECOND + Lots(E2E_LOOKUPS_PER_SECOND, end - start, 1000)
    decreases |events|
  {
    if events == [] {
    } else if events[0].now < start {
      BoundFrom(Step(s, events[0]), events[1..], events[0].now, start, end);
    } else {
      var t := if from < start then start else from;
      PotentialBounds(s, events, t, start, end);
      PotentialAtMost(s.budget, t, end);
      LotsMonotone(E2E_LOOKUPS_PER_SECOND, end - t, end - start, 1000);
    }
  }

  /**
   * Wherever an interval of T milliseconds falls, at most 20 * (ceil(T / 1000) + 1)
   * requests go to the portal in it.
   */
  lemma LookupsAreBounded(events: seq<Event>, start: int, end: int)
    requires Ordered(events, 0)
    ensures Lookups(EMPTY, events, start, end) <= E2E_LOOKUPS_PER_SECOND * (CeilDiv(end - start, 1000) + 1)
  {
    BoundFrom(EMPTY, events, 0, start, end);
    LotsAndOne(E2E_LOOKUPS_PER_SECOND, end - start, 1000);
  }

  /** Any half-open second sees at most twice the budget. */
  lemma LookupsPerSecond(events: seq<Event>, start: int)
    requires Ordered(events, 0)
    ensures Lookups(EMPTY, events, start, start + 1000) <= 2 * E2E_LOOKUPS_PER_SECOND
  {
    LookupsAreBounded(events, start, start + 1000);
    assert CeilDiv(1000, 1000) == 1;
  }

  function Burst(host: Host, now: int, n: nat): seq<Event> {
    if n == 0 then [] else [Ask(true, host, now)] + Burst(host, now, n - 1)
  }

  lemma BurstHead(host: Host, now: int, n: nat, rest: seq<Event>)
    requires n > 0
    ensures Burst(host, now, n) + rest == [Ask(true, host, now)] + (Burst(host, now, n - 1) + rest)
  {
  }

  function Spent(s: State, n: nat): State { s.(budget := s.budget.(used := s.budget.used + n)) }

  predicate CanSpend(s: State, host: Host, now: int, n: nat) {
    && host != "" && !Cached(s, host, now)
    && 0 <= now - s.budget.windowStart < 1000 && s.budget.used + n <= E2E_LOOKUPS_PER_SECOND
  }

  lemma AskSpends(s: State, host: Host, now: int, rest: seq<Event>, start: int, end: int)
    requires CanSpend(s, host, now, 1) && start <= now < end
    ensures Lookups(s, [Ask(true, host, now)] + rest, start, end) == 1 + Lookups(Spent(s, 1), rest, start, end)
  {
    assert ([Ask(true, host, now)] + rest)[1..] == rest;
  }

  lemma {:induction false} BurstSpends(s: State, host: Host, now: int, n: nat, rest: seq<Event>, start: int, end: int)
    requires CanSpend(s, host, now, n) && start <= now < end
    ensures Lookups(s, Burst(host, now, n) + rest, start, end) == n + Lookups(Spent(s, n), rest, start, end)
    decreases n
  {
    if n == 0 {
      assert Burst(host, now, 0) + rest == rest;
    } else {
      BurstHead(host, now, n, rest);
      AskSpends(s, host, now, Burst(host, now, n - 1) + rest, start, end);
      BurstSpends(Spent(s, 1), host, now, n - 1, rest, start, end);
      assert Spent(Spent(s, 1), n - 1) == Spent(s, n);
    }
  }

  lemma {:induction false} BurstOrdered(host: Host, now: int, n: nat, rest: seq<Event>, from: int)
    requires from <= now && Ordered(rest, now)
    ensures Ordered(Burst(host, now, n) + rest, from)
    decreases n
  {
    if n == 0 {
      assert Burst(host, now, 0) + rest == rest;
    } else {
      BurstHead(host, now, n, rest);
      assert ([Ask(true, host, now)] + (Burst(host, now, n - 1) + rest))[1..] == Burst(host, now, n - 1) + rest;
      BurstOrdered(host, now, n - 1, rest, now);
    }
  }

  /** The bound is reached: a burst at the end of one window and another at the start of the next. */
  lemma TwiceIsReached(host: Host) returns (events: seq<Event>)
    requires host != ""
    ensures Ordered(events, 0) && Lookups(EMPTY, events, 1, 1001) == 2 * E2E_LOOKUPS_PER_SECOND
  {
    var second := [Ask(true, host, 1000)] + Burst(host, 1000, 19);
    events := Burst(host, 999, 20) + second;
    assert Burst(host, 1000, 19) + [] == Burst(host, 1000, 19);
    BurstOrdered(host, 1000, 19, [], 1000);
    assert second[1..] == Burst(host, 1000, 19);
    BurstOrdered(host, 999, 20, second, 0);
    BurstSpends(EMPTY, host, 999, 20, second, 1, 1001);
    var full := Spent(EMPTY, 20);
    assert second[0] == Ask(true, host, 1000);
    BurstSpends(Step(full, second[0]), host, 1000, 19, [], 1, 1001);
  }

  // ============================================================== freshness

  /** The portal's last usable answer for a name, with its time. */
  function LastAnswer(events: seq<Event>, host: Host): Option<(Option<ServerId>, int)>
    decreases |events|
  {
    if events == [] then None
    else
      var e := events[|events| - 1];
      if e.Answer? && e.host == host && e.reply.Says? then Some((e.reply.serverId, e.now))
      else LastAnswer(events[..|events| - 1], host)
  }

  ghost predicate CacheIsFresh(s: State, events: seq<Event>) {
    && |s.cache| <= E2E_CACHE_MAX + 1
    && forall host :: host in s.cache ==>
         LastAnswer(events, host) == Some((s.cache[host].serverId, s.cache[host].expires - E2E_ROUTE_TTL_MS))
  }

  lemma LastAnswerStep(sofar: seq<Event>, e: Event, host: Host)
    ensures LastAnswer(sofar + [e], host)
         == if e.Answer? && e.host == host && e.reply.Says? then Some((e.reply.serverId, e.now))
            else LastAnswer(sofar, host)
  {
    assert (sofar + [e])[..|sofar|] == sofar;
  }

  lemma StoreSize(cache: map<Host, Route>, host: Host, route: Route)
    ensures |cache[host := route]| <= |cache| + 1
  {
    assert cache[host := route].Keys == cache.Keys + {host};
  }

  lemma StepIsFresh(s: State, sofar: seq<Event>, e: Event)
    requires CacheIsFresh(s, sofar)
    ensures CacheIsFresh(Step(s, e), sofar + [e])
  {
    var s', kept := Step(s, e), if |s.cache| > E2E_CACHE_MAX then map[] else s.cache;
    if e.Answer? && e.reply.Says? {
      StoreSize(kept, e.host, Route(e.reply.serverId, e.now + E2E_ROUTE_TTL_MS));
    }
    forall host | host in s'.cache
      ensures LastAnswer(sofar + [e], host)
           == Some((s'.cache[host].serverId, s'.cache[host].expires - E2E_ROUTE_TTL_MS))
    {
      LastAnswerStep(sofar, e, host);
      assert host in s.cache || (e.Answer? && e.host == host);
    }
  }

  lemma {:induction false} RunIsFresh(s: State, sofar: seq<Event>, events: seq<Event>)
    requires CacheIsFresh(s, sofar)
    ensures CacheIsFresh(Run(s, events), sofar + events)
    decreases |events|
  {
    if events == [] {
      assert sofar + events == sofar;
    } else {
      StepIsFresh(s, sofar, events[0]);
      assert sofar + [events[0]] + events[1..] == sofar + events;
      RunIsFresh(Step(s, events[0]), sofar + [events[0]], events[1..]);
    }
  }

  /**
   * In every run a name answered from the cache gets exactly what the portal
   * last said about it, less than thirty seconds ago, and the cache stays small.
   */
  lemma CachedAnswersAreRecent(events: seq<Event>, host: Host, now: int)
    ensures |Run(EMPTY, events).cache| <= E2E_CACHE_MAX + 1
    ensures Cached(Run(EMPTY, events), host, now) ==>
      exists at: int :: now - E2E_ROUTE_TTL_MS < at
        && LastAnswer(events, host) == Some((Run(EMPTY, events).cache[host].serverId, at))
  {
    RunIsFresh(EMPTY, [], events);
    assert [] + events == events;
    if Cached(Run(EMPTY, events), host, now) {
      var route := Run(EMPTY, events).cache[host];
      var at := route.expires - E2E_ROUTE_TTL_MS;
      assert LastAnswer(events, host) == Some((route.serverId, at));
    }
  }

  /** Neither beginning a lookup, refused or not, nor a failed request touches the cache. */
  lemma OnlyAnswersAreCached(s: State, e: Event)
    requires e.Ask? || e.reply.Unreachable?
    ensures Step(s, e).cache == s.cache
  {
  }

  // ============================================================== the class

  class Routes {
    var windowStart: int
    var used: nat
    var cache: map<Host, Route>

    function Now(): State
      reads this
    {
      State(cache, Budget(windowStart, used))
    }

    constructor ()
      ensures Now() == EMPTY
    {
      windowStart, used, cache := 0, 0, map[];
    }

    method LookupAllowed(now: int) returns (ok: bool)
      modifies `windowStart, `used
      ensures Now() == old(Now()).(budget := Spend(old(Now().budget), now))
      ensures ok == Allowed(old(Now().budget), now)
    {
      if now - windowStart >= 1000 {
        windowStart := now;
        used := 0;
      }
      used := used + 1;
      return used <= E2E_LOOKUPS_PER_SECOND;
    }

    method FetchRoute(configured: bool, host: Host, now: int) returns (begun: Begun)
      modifies `windowStart, `used
      ensures Now() == Step(old(Now()), Ask(configured, host, now))
      ensures begun == Begin(old(Now()), configured, host, now)
    {
      if !configured || host == "" {
        return Known(None);
      }
      if host in cache && cache[host].expires > now {
        return Known(cache[host].serverId);
      }
      var ok := LookupAllowed(now);
      return if ok then AsksPortal else Refused;
    }

    method OnAnswer(host: Host, reply: Reply, now: int) returns (serverId: Option<ServerId>)
      modifies `cache
      ensures Now() == Step(old(Now()), Answer(host, reply, now))
      ensures serverId == if reply.Says? then reply.serverId else None
    {
      if reply.Unreachable? {
        return None;
      }
      if |cache| > E2E_CACHE_MAX {
        cache := map[];
      }
      cache := cache[host := Route(reply.serverId, now + E2E_ROUTE_TTL_MS)];
      return reply.serverId;
    }
  }
}
