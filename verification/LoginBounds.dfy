/**
 * How tight the guard's time bound is when blocks read as over a little early
 * (webserver/src/proxy/loginGuard.js:120-170).
 */
module LoginBounds {

  import opened Options
  import opened Rates
  import opened LoginGuard

  /** The first block of the ladder, in milliseconds. */
  function FirstBlock(cfg: Config): nat
    requires Sound(cfg)
  {
    Seconds(cfg.ladder[0]) * 1000
  }

  predicate ShortestFirst(cfg: Config)
    requires Sound(cfg)
  {
    forall i :: 0 <= i < |cfg.ladder| ==> cfg.ladder[0] <= cfg.ladder[i]
  }

  /** The failure window or the shortest block, whichever is smaller. */
  function Period(cfg: Config): nat
    requires Sound(cfg)
  {
    Min(Window(cfg), FirstBlock(cfg))
  }

  /** From a block until it reads as over. */
  function Reopens(cfg: Config): int
    requires Sound(cfg)
  {
    FirstBlock(cfg) - cfg.early
  }

  lemma BlocksAreNoShorter(cfg: Config, strikes: nat)
    requires Sound(cfg) && ShortestFirst(cfg)
    ensures Seconds(BlockDuration(cfg, strikes)) * 1000 >= FirstBlock(cfg)
  {
    CeilMonotone(cfg.ladder[0], BlockDuration(cfg, strikes), 1000);
  }

  lemma PeriodIsPositive(cfg: Config)
    requires Sound(cfg)
    ensures Period(cfg) >= 1000
  {
    assert CeilDiv(cfg.failWindowMs, 1000) >= 1 && CeilDiv(cfg.ladder[0], 1000) >= 1;
  }

  lemma PeriodIsSpacing(cfg: Config)
    requires Sound(cfg) && ShortestFirst(cfg) && Period(cfg) <= Reopens(cfg)
    ensures Spacing(cfg, Period(cfg))
  {
    PeriodIsPositive(cfg);
    forall i | 0 <= i < |cfg.ladder| ensures Period(cfg) <= Seconds(cfg.ladder[i]) * 1000 - cfg.early {
      CeilMonotone(cfg.ladder[0], cfg.ladder[i], 1000);
    }
  }

  // ========================================================= rounds of failures

  /** The failure starts counting afresh. */
  predicate Begins(cfg: Config, c: Client, a: Attempt) {
    !IsBlocked(cfg, c, a.check) && a.verdict == Failure && CountAt(c.fails, a.seen) == 0
  }

  /** How many rounds of failures begin in [start, end). */
  function Begun(cfg: Config, c: Client, attempts: seq<Attempt>, start: int, end: int): nat
    requires Sound(cfg)
    decreases |attempts|
  {
    if attempts == [] then 0
    else
      (if Begins(cfg, c, attempts[0]) && start <= attempts[0].seen < end then 1 else 0)
      + Begun(cfg, Try(cfg, c, attempts[0]).0, attempts[1..], start, end)
  }

  function Left(cfg: Config, c: Client, now: int, end: int, d: int): (n: int)
    requires d > 0
    ensures n >= 0
  {
    Lots(1, end - Earliest(cfg, c, now, d), d)
  }

  lemma WaitingLeavesFewer(cfg: Config, c: Client, now: int, later: int, end: int, d: int)
    requires Sound(cfg) && Spacing(cfg, d) && Inv(cfg, c, now) && now <= later
    ensures Left(cfg, c, later, end, d) <= Left(cfg, c, now, end, d)
  {
    LotsMonotone(1, end - Earliest(cfg, c, later, d), end - Earliest(cfg, c, now, d), d);
  }

  lemma FailureDelays(cfg: Config, c: Client, check: int, now: int, d: int)
    requires Sound(cfg) && Spacing(cfg, d) && Inv(cfg, c, now) && !IsBlocked(cfg, c, check) && check <= now
    ensures var e := Earliest(cfg, RecordFailure(cfg, c, now).0, now, d);
            if CountAt(c.fails, now) == 0 then Earliest(cfg, c, now, d) == now && e >= now + d
            else e >= Earliest(cfg, c, now, d)
  {
    BlocksAreLong(cfg, CountAt(c.strikes, now) + 1, d);
  }

  lemma FailureLeavesFewer(cfg: Config, c: Client, check: int, now: int, end: int, d: int)
    requires Sound(cfg) && Spacing(cfg, d) && Inv(cfg, c, now) && !IsBlocked(cfg, c, check) && check <= now < end
    ensures (if CountAt(c.fails, now) == 0 then 1 else 0) + Left(cfg, RecordFailure(cfg, c, now).0, now, end, d)
         <= Left(cfg, c, now, end, d)
  {
    FailureDelays(cfg, c, check, now, d);
    var e, e' := Earliest(cfg, c, now, d), Earliest(cfg, RecordFailure(cfg, c, now).0, now, d);
    if CountAt(c.fails, now) == 0 {
      LotsOneLess(1, end - now, d);
      LotsMonotone(1, end - e', end - now - d, d);
    } else {
      LotsMonotone(1, end - e', end - e, d);
    }
  }

  lemma BeginningCosts(cfg: Config, c: Client, a: Attempt, now: int, end: int, d: int)
    requires Sound(cfg) && Spacing(cfg, d) && Inv(cfg, c, now)
    requires a.verdict != Success && a.check <= a.seen && now <= a.seen < end
    ensures (if Begins(cfg, c, a) then 1 else 0) + Left(cfg, Try(cfg, c, a).0, a.seen, end, d)
         <= Left(cfg, c, now, end, d)
  {
    WaitingLeavesFewer(cfg, c, now, a.seen, end, d);
    if !IsBlocked(cfg, c, a.check) && a.verdict == Failure {
      FailureLeavesFewer(cfg, c, a.check, a.seen, end, d);
    }
  }

  lemma {:induction false} NoneBeginAfter(cfg: Config, c: Client, attempts: seq<Attempt>, from: int, start: int,
                                          end: int)
    requires Sound(cfg) && InSequence(attempts, from) && end <= from
    ensures Begun(cfg, c, attempts, start, end) == 0
    decreases |attempts|
  {
    if attempts != [] {
      NoneBeginAfter(cfg, Try(cfg, c, attempts[0]).0, attempts[1..], attempts[0].seen, start, end);
    }
  }

  lemma {:induction false} BegunFrom(cfg: Config, c: Client, attempts: seq<Attempt>, now: int, t: int,
                                     start: int, end: int, d: int)
    requires Sound(cfg) && Spacing(cfg, d) && NoSuccess(attempts) && Inv(cfg, c, now)
    requires InSequence(attempts, now) && now <= t && start <= t && (attempts != [] ==> t <= attempts[0].seen)
    ensures Begun(cfg, c, attempts, start, end) <= Left(cfg, c, t, end, d)
    decreases |attempts|
  {
    if attempts != [] {
      var a, rest, c' := attempts[0], attempts[1..], Try(cfg, c, attempts[0]).0;
      RestHasNoSuccess(attempts);
      if a.seen >= end {
        NoneBeginAfter(cfg, c', rest, a.seen, start, end);
      } else {
        BeginningCosts(cfg, c, a, t, end, d);
        TryKeeps(cfg, c, a, now);
        BegunFrom(cfg, c', rest, a.seen, a.seen, start, end, d);
      }
    }
  }

  lemma {:induction false} BegunIn(cfg: Config, c: Client, attempts: seq<Attempt>, now: int, start: int, end: int,
                                   d: int)
    requires Sound(cfg) && Spacing(cfg, d) && NoSuccess(attempts) && Inv(cfg, c, now) && InSequence(attempts, now)
    ensures Begun(cfg, c, attempts, start, end) <= CeilDiv(end - start, d)
    decreases |attempts|
  {
    if attempts == [] {
    } else if attempts[0].seen < start {
      RestHasNoSuccess(attempts);
      TryKeeps(cfg, c, attempts[0], now);
      BegunIn(cfg, Try(cfg, c, attempts[0]).0, attempts[1..], attempts[0].seen, start, end, d);
    } else {
      var t := Max(now, start);
      BegunFrom(cfg, c, attempts, now, t, start, end, d);
      LotsMonotone(1, end - Earliest(cfg, c, t, d), end - start, d);
    }
  }

  // ================================================================ bursts

  function Burst(t: int, n: nat): (r: seq<Attempt>)
    ensures |r| == n && forall i :: 0 <= i < n ==> r[i] == Attempt(t, t, Failure)
  {
    seq(n, _ => Attempt(t, t, Failure))
  }

  /** What is recorded after a run. */
  function After(cfg: Config, c: Client, attempts: seq<Attempt>): Client
    requires Sound(cfg)
    decreases |attempts|
  {
    if attempts == [] then c else After(cfg, Try(cfg, c, attempts[0]).0, attempts[1..])
  }

  function Answered(cfg: Config, c: Client, attempts: seq<Attempt>, start: int, end: int): nat
    requires Sound(cfg)
  {
    Guesses(attempts, Outcomes(cfg, c, attempts), start, end)
  }

  lemma GuessesStep(cfg: Config, c: Client, attempts: seq<Attempt>, start: int, end: int)
    requires Sound(cfg) && attempts != []
    ensures var a := attempts[0];
            Answered(cfg, c, attempts, start, end)
            == (if !IsBlocked(cfg, c, a.check) && a.verdict == Failure && start <= a.seen < end then 1 else 0)
               + Answered(cfg, Try(cfg, c, a).0, attempts[1..], start, end)
  {
    assert Outcomes(cfg, c, attempts)[1..] == Outcomes(cfg, Try(cfg, c, attempts[0]).0, attempts[1..]);
  }

  lemma {:induction false} Chained(cfg: Config, c: Client, a: seq<Attempt>, b: seq<Attempt>, start: int, end: int)
    requires Sound(cfg)
    ensures After(cfg, c, a + b) == After(cfg, After(cfg, c, a), b)
    ensures Answered(cfg, c, a + b, start, end)
         == Answered(cfg, c, a, start, end) + Answered(cfg, After(cfg, c, a), b, start, end)
    ensures Begun(cfg, c, a + b, start, end)
         == Begun(cfg, c, a, start, end) + Begun(cfg, After(cfg, c, a), b, start, end)
    decreases |a|
  {
    if a == [] {
      assert a + b == b;
    } else {
      assert (a + b)[0] == a[0] && (a + b)[1..] == a[1..] + b;
      GuessesStep(cfg, c, a + b, start, end);
      GuessesStep(cfg, c, a, start, end);
      Chained(cfg, Try(cfg, c, a[0]).0, a[1..], b, start, end);
    }
  }

  lemma {:induction false} SequenceChained(a: seq<Attempt>, b: seq<Attempt>, from: int, t: int)
    requires InSequence(a, from) && (forall i :: 0 <= i < |a| ==> a[i].seen <= t) && from <= t && InSequence(b, t)
    ensures InSequence(a + b, from)
    decreases |a|
  {
    if a == [] {
      assert a + b == b;
      if b != [] {
        assert from <= b[0].check;
      }
    } else {
      assert (a + b)[0] == a[0] && (a + b)[1..] == a[1..] + b;
      assert forall i :: 0 <= i < |a[1..]| ==> a[1..][i] == a[i + 1];
      SequenceChained(a[1..], b, a[0].seen, t);
    }
  }

  lemma {:induction false} BurstInSequence(t: int, n: nat)
    ensures InSequence(Burst(t, n), t)
    decreases n
  {
    if n > 0 {
      assert Burst(t, n)[1..] == Burst(t, n - 1);
      BurstInSequence(t, n - 1);
    }
  }

  function InInterval(t: int, start: int, end: int, n: nat): nat { if start <= t < end then n else 0 }

  /** Failures that stay below the threshold. */
  lemma {:induction false} BurstCounts(cfg: Config, c: Client, t: int, n: nat, start: int, end: int)
    requires Sound(cfg) && !IsBlocked(cfg, c, t) && n > 0 && CountAt(c.fails, t) + n < cfg.failMax
    ensures var expires := if CountAt(c.fails, t) > 0 then c.fails.value.expires else t + Window(cfg);
            After(cfg, c, Burst(t, n)) == c.(fails := Some(Counter(CountAt(c.fails, t) + n, expires)))
    ensures Answered(cfg, c, Burst(t, n), start, end) == InInterval(t, start, end, n)
    ensures Begun(cfg, c, Burst(t, n), start, end)
         == InInterval(t, start, end, if CountAt(c.fails, t) == 0 then 1 else 0)
    decreases n
  {
    var c' := Try(cfg, c, Attempt(t, t, Failure)).0;
    PeriodIsPositive(cfg);
    GuessesStep(cfg, c, Burst(t, n), start, end);
    assert Burst(t, n)[1..] == Burst(t, n - 1);
    if n > 1 {
      BurstCounts(cfg, c', t, n - 1, start, end);
    } else {
      assert Burst(t, 0) == [];
    }
  }

  function Blocked(cfg: Config, c: Client, t: int): Client
    requires Sound(cfg)
  {
    var strikes := CountAt(c.strikes, t) + 1;
    Client(None, Some(Counter(strikes, t + StrikeTtl(cfg))), Some(t + Seconds(BlockDuration(cfg, strikes)) * 1000))
  }

  /** Failures that reach the threshold. */
  lemma {:induction false} BurstBlocks(cfg: Config, c: Client, t: int, n: nat, start: int, end: int)
    requires Sound(cfg) && !IsBlocked(cfg, c, t) && n > 0 && CountAt(c.fails, t) + n == cfg.failMax
    ensures After(cfg, c, Burst(t, n)) == Blocked(cfg, c, t)
    ensures Answered(cfg, c, Burst(t, n), start, end) == InInterval(t, start, end, n)
    ensures Begun(cfg, c, Burst(t, n), start, end)
         == InInterval(t, start, end, if CountAt(c.fails, t) == 0 then 1 else 0)
    decreases n
  {
    var c' := Try(cfg, c, Attempt(t, t, Failure)).0;
    PeriodIsPositive(cfg);
    GuessesStep(cfg, c, Burst(t, n), start, end);
    assert Burst(t, n)[1..] == Burst(t, n - 1);
    if n > 1 {
      BurstBlocks(cfg, c', t, n - 1, start, end);
    } else {
      assert Burst(t, 0) == [];
    }
  }

  // ============================================ rounds begin a period apart, or not

  /** In any interval no more rounds begin than periods of length `d` fit into it. */
  ghost predicate RoundsApart(cfg: Config, d: int)
    requires Sound(cfg) && d > 0
  {
    forall attempts: seq<Attempt>, from: int, start: int, end: int ::
      InSequence(attempts, from) && NoSuccess(attempts) ==>
      Begun(cfg, UNKNOWN, attempts, start, end) <= CeilDiv(end - start, d)
  }

  /** One burst after a run. */
  lemma ThenBurst(a: seq<Attempt>, from: int, t: int, n: nat)
    requires InSequence(a, from) && NoSuccess(a) && from <= t && forall i :: 0 <= i < |a| ==> a[i].seen <= t
    ensures InSequence(a + Burst(t, n), from) && NoSuccess(a + Burst(t, n))
    ensures forall i :: 0 <= i < |a + Burst(t, n)| ==> (a + Burst(t, n))[i].seen <= t
  {
    BurstInSequence(t, n);
    SequenceChained(a, Burst(t, n), from, t);
  }

  lemma OneMoreFailure(cfg: Config, c: Client, t: int, start: int, end: int)
    requires Sound(cfg) && !IsBlocked(cfg, c, t) && CountAt(c.fails, t) == 0
    ensures Begun(cfg, c, Burst(t, 1), start, end) == InInterval(t, start, end, 1)
  {
    if cfg.failMax == 1 {
      BurstBlocks(cfg, c, t, 1, start, end);
    } else {
      BurstCounts(cfg, c, t, 1, start, end);
    }
  }

  /** A full round at 0, and one more failure as soon as its block reads as over. */
  lemma TwoBegun(cfg: Config, u: int)
    requires Sound(cfg) && u == Max(0, Reopens(cfg)) && u < Period(cfg)
    ensures Begun(cfg, UNKNOWN, Burst(0, cfg.failMax) + Burst(u, 1), 0, Period(cfg)) == 2
  {
    Chained(cfg, UNKNOWN, Burst(0, cfg.failMax), Burst(u, 1), 0, Period(cfg));
    BurstBlocks(cfg, UNKNOWN, 0, cfg.failMax, 0, Period(cfg));
    OneMoreFailure(cfg, Blocked(cfg, UNKNOWN, 0), u, 0, Period(cfg));
  }

  /** A block that reads as over too early lets two rounds begin within one period. */
  lemma TwoRoundsTooSoon(cfg: Config) returns (attempts: seq<Attempt>)
    requires Sound(cfg) && Reopens(cfg) < Period(cfg)
    ensures InSequence(attempts, 0) && NoSuccess(attempts)
    ensures Begun(cfg, UNKNOWN, attempts, 0, Period(cfg)) == 2
  {
    var u := Max(0, Reopens(cfg));
    PeriodIsPositive(cfg);
    TwoBegun(cfg, u);
    BurstInSequence(0, cfg.failMax);
    ThenBurst(Burst(0, cfg.failMax), 0, u, 1);
    attempts := Burst(0, cfg.failMax) + Burst(u, 1);
  }

  /**
   * With a ladder whose first step is its shortest, rounds of failures begin at
   * least the window or the shortest block apart, whichever is smaller, exactly
   * when a block reads as over no earlier than that.
   */
  lemma RoundsApartIff(cfg: Config)
    requires Sound(cfg) && ShortestFirst(cfg)
    ensures Period(cfg) > 0
    ensures RoundsApart(cfg, Period(cfg)) <==> Period(cfg) + cfg.early <= FirstBlock(cfg)
  {
    var d := Period(cfg);
    PeriodIsPositive(cfg);
    if d + cfg.early <= FirstBlock(cfg) {
      PeriodIsSpacing(cfg);
      forall attempts: seq<Attempt>, from: int, start: int, end: int | InSequence(attempts, from) && NoSuccess(attempts)
        ensures Begun(cfg, UNKNOWN, attempts, start, end) <= CeilDiv(end - start, d)
      {
        BegunIn(cfg, UNKNOWN, attempts, from, start, end, d);
      }
    } else {
      var attempts := TwoRoundsTooSoon(cfg);
      OnePeriod(d);
    }
  }

  lemma OnePeriod(d: int)
    requires d > 0
    ensures CeilDiv(d - 0, d) == 1
  {
    OnePeriodLess(d, d);
  }

  // ===================================================== guesses in one period

  /** The most a client can get through from `x` on, when nothing is counted against it then. */
  function RoundsFrom(cfg: Config, x: int, end: int): nat
    requires Sound(cfg)
  {
    if x >= end then 0 else if x + Reopens(cfg) >= end then cfg.failMax else 2 * cfg.failMax
  }

  /** Completing the live round now, and starting another when its block reads as over. */
  function Finishing(cfg: Config, k: nat, t: int, end: int): int
    requires Sound(cfg)
  {
    cfg.failMax - k + if t + Reopens(cfg) < end then cfg.failMax else 0
  }

  /** The most guesses from `t` to `end`: complete the live round, or leave it and start afresh when it lapses. */
  function Most(cfg: Config, c: Client, t: int, end: int): int
    requires Sound(cfg)
  {
    var k := CountAt(c.fails, t);
    if k > 0 then Max(Finishing(cfg, k, t, end), cfg.failMax - k - 1 + RoundsFrom(cfg, c.fails.value.expires, end))
    else RoundsFrom(cfg, if c.blockedUntil.Some? then Max(t, c.blockedUntil.value - cfg.early) else t, end)
  }

  lemma MostWaits(cfg: Config, c: Client, t: int, later: int, end: int)
    requires Sound(cfg) && Inv(cfg, c, t) && t <= later
    ensures Most(cfg, c, later, end) <= Most(cfg, c, t, end)
  {
  }

  /** Blocks are short enough that no third round fits, and long enough that they hold at all. */
  predicate HalfPeriod(cfg: Config)
    requires Sound(cfg)
  {
    ShortestFirst(cfg) && 2 * cfg.early <= Period(cfg)
  }

  lemma MostAfterBlock(cfg: Config, c: Client, now: int, end: int)
    requires Sound(cfg) && HalfPeriod(cfg) && now < end <= now + Period(cfg)
    requires RecordFailure(cfg, c, now).0.fails.None?
    ensures Most(cfg, RecordFailure(cfg, c, now).0, now, end) <= if now + Reopens(cfg) < end then cfg.failMax else 0
  {
    BlocksAreNoShorter(cfg, CountAt(c.strikes, now) + 1);
  }

  lemma MostCosts(cfg: Config, c: Client, check: int, now: int, end: int)
    requires Sound(cfg) && HalfPeriod(cfg) && Inv(cfg, c, now) && !IsBlocked(cfg, c, check)
    requires check <= now < end <= now + Period(cfg)
    ensures 1 + Most(cfg, RecordFailure(cfg, c, now).0, now, end) <= Most(cfg, c, now, end)
  {
    if RecordFailure(cfg, c, now).0.fails.None? {
      MostAfterBlock(cfg, c, now, end);
    }
  }

  lemma {:induction false} MostBounds(cfg: Config, c: Client, attempts: seq<Attempt>, now: int, t: int, start: int,
                                      end: int)
    requires Sound(cfg) && HalfPeriod(cfg) && NoSuccess(attempts) && Inv(cfg, c, now) && InSequence(attempts, now)
    requires now <= t && start <= t && end <= t + Period(cfg) && (attempts != [] ==> t <= attempts[0].seen)
    ensures Most(cfg, c, t, end) >= 0 && Answered(cfg, c, attempts, start, end) <= Most(cfg, c, t, end)
    decreases |attempts|
  {
    if attempts != [] {
      var a, rest, c' := attempts[0], attempts[1..], Try(cfg, c, attempts[0]).0;
      RestHasNoSuccess(attempts);
      GuessesStep(cfg, c, attempts, start, end);
      TryKeeps(cfg, c, a, now);
      if a.seen >= end {
        NoneAfter(rest, Outcomes(cfg, c', rest), a.seen, start, end);
      } else {
        MostWaits(cfg, c, t, a.seen, end);
        MostBounds(cfg, c', rest, a.seen, a.seen, start, end);
        if !IsBlocked(cfg, c, a.check) && a.verdict == Failure {
          MostCosts(cfg, c, a.check, a.seen, end);
        }
      }
    }
  }

  /** The most guesses in one period. */
  function PeriodMost(cfg: Config): nat
    requires Sound(cfg)
  {
    if cfg.failMax <= 2 || Period(cfg) + cfg.early <= FirstBlock(cfg) + 1 then 2 * cfg.failMax else 3 * cfg.failMax - 2
  }

  lemma MostAtStart(cfg: Config, c: Client, start: int)
    requires Sound(cfg) && Inv(cfg, c, start)
    ensures Most(cfg, c, start, start + Period(cfg)) <= PeriodMost(cfg)
  {
  }

  lemma {:induction false} AnsweredInPeriod(cfg: Config, c: Client, attempts: seq<Attempt>, now: int, start: int)
    requires Sound(cfg) && HalfPeriod(cfg) && NoSuccess(attempts) && Inv(cfg, c, now) && InSequence(attempts, now)
    ensures Answered(cfg, c, attempts, start, start + Period(cfg)) <= PeriodMost(cfg)
    decreases |attempts|
  {
    var end := start + Period(cfg);
    if attempts == [] {
    } else if attempts[0].seen < start {
      RestHasNoSuccess(attempts);
      TryKeeps(cfg, c, attempts[0], now);
      GuessesStep(cfg, c, attempts, start, end);
      AnsweredInPeriod(cfg, Try(cfg, c, attempts[0]).0, attempts[1..], attempts[0].seen, start);
    } else {
      var t := Max(now, start);
      MostBounds(cfg, c, attempts, now, t, start, end);
      if now <= start {
        MostAtStart(cfg, c, start);
      } else {
        MostLater(cfg, c, start, now);
      }
    }
  }

  /** If nothing happened before some later time, still less fits. */
  lemma MostLater(cfg: Config, c: Client, start: int, now: int)
    requires Sound(cfg) && Inv(cfg, c, now) && start < now
    ensures Most(cfg, c, now, start + Period(cfg)) <= PeriodMost(cfg)
  {
  }

  /**
   * The run that gets the most through: one failure, the rest of its round but one
   * just before it lapses, a full round as it lapses, and another as soon as the
   * block reads as over.
   */
  function Greedy(cfg: Config): seq<Attempt>
    requires Sound(cfg) && cfg.failMax >= 3
  {
    Burst(0, 1) + Burst(Window(cfg) - 1, cfg.failMax - 2) + Burst(Window(cfg), cfg.failMax)
    + Burst(Window(cfg) + Reopens(cfg), cfg.failMax)
  }

  lemma GreedyIsAllowed(cfg: Config)
    requires Sound(cfg) && cfg.failMax >= 3 && Reopens(cfg) >= 0
    ensures InSequence(Greedy(cfg), 0) && NoSuccess(Greedy(cfg))
  {
    PeriodIsPositive(cfg);
    var w, f := Window(cfg), cfg.failMax;
    BurstInSequence(0, 1);
    ThenBurst(Burst(0, 1), 0, w - 1, f - 2);
    ThenBurst(Burst(0, 1) + Burst(w - 1, f - 2), 0, w, f);
    ThenBurst(Burst(0, 1) + Burst(w - 1, f - 2) + Burst(w, f), 0, w + Reopens(cfg), f);
  }

  /** The first two bursts leave a round that lapses with one failure to go. */
  lemma GreedyStart(cfg: Config, start: int, end: int)
    requires Sound(cfg) && cfg.failMax >= 3 && 0 < start == Window(cfg) - 1 < end
    ensures var a := Burst(0, 1) + Burst(Window(cfg) - 1, cfg.failMax - 2);
            && After(cfg, UNKNOWN, a) == Client(Some(Counter(cfg.failMax - 1, Window(cfg))), None, None)
            && Answered(cfg, UNKNOWN, a, start, end) == cfg.failMax - 2
  {
    BurstCounts(cfg, UNKNOWN, 0, 1, start, end);
    var c := Client(Some(Counter(1, Window(cfg))), None, None);
    BurstCounts(cfg, c, Window(cfg) - 1, cfg.failMax - 2, start, end);
    Chained(cfg, UNKNOWN, Burst(0, 1), Burst(Window(cfg) - 1, cfg.failMax - 2), start, end);
  }

  /** The last two bursts: one as the round lapses, one as the block reads as over. */
  lemma GreedyEnd(cfg: Config, c: Client, start: int, end: int)
    requires Sound(cfg) && cfg.failMax >= 3 && Reopens(cfg) >= 0
    requires c == Client(Some(Counter(cfg.failMax - 1, Window(cfg))), None, None)
    requires start <= Window(cfg) && Window(cfg) + Reopens(cfg) < end
    ensures Answered(cfg, c, Burst(Window(cfg), cfg.failMax) + Burst(Window(cfg) + Reopens(cfg), cfg.failMax),
                     start, end)
         == 2 * cfg.failMax
  {
    var w, f := Window(cfg), cfg.failMax;
    Chained(cfg, c, Burst(w, f), Burst(w + Reopens(cfg), f), start, end);
    BurstBlocks(cfg, c, w, f, start, end);
    BurstBlocks(cfg, Blocked(cfg, c, w), w + Reopens(cfg), f, start, end);
  }

  lemma GreedyAnswered(cfg: Config)
    requires Sound(cfg) && HalfPeriod(cfg) && cfg.failMax >= 3 && Period(cfg) + cfg.early > FirstBlock(cfg) + 1
    ensures var start := Window(cfg) - 1;
            Answered(cfg, UNKNOWN, Greedy(cfg), start, start + Period(cfg)) == 3 * cfg.failMax - 2
  {
    PeriodIsPositive(cfg);
    var start, end := Window(cfg) - 1, Window(cfg) - 1 + Period(cfg);
    var a := Burst(0, 1) + Burst(Window(cfg) - 1, cfg.failMax - 2);
    var b, e := Burst(Window(cfg), cfg.failMax), Burst(Window(cfg) + Reopens(cfg), cfg.failMax);
    GreedyStart(cfg, start, end);
    GreedyEnd(cfg, After(cfg, UNKNOWN, a), start, end);
    Chained(cfg, UNKNOWN, a, b + e, start, end);
    assert a + (b + e) == Greedy(cfg);
  }

  /** The wrong passwords answered in the interval of this length that begins at `start`. */
  function GuessesAt(cfg: Config, attempts: seq<Attempt>, start: int, length: nat): nat
    requires Sound(cfg)
  {
    Guesses(attempts, Outcomes(cfg, UNKNOWN, attempts), start, start + length)
  }

  /** No client trying in sequence without success gets more than `most` through in any interval of this length. */
  ghost predicate AtMost(cfg: Config, length: nat, most: nat)
    requires Sound(cfg)
  {
    forall attempts: seq<Attempt>, from: int, start: int :: InSequence(attempts, from) && NoSuccess(attempts) ==>
      GuessesAt(cfg, attempts, start, length) <= most
  }

  /**
   * In one period (the window or the shortest block, whichever is smaller) no
   * client gets more than `PeriodMost` guesses through. It is twice the threshold,
   * as it would be if blocks never read as over early, exactly when the threshold
   * is at most two or a block reads as over no more than a millisecond too early
   * for the period.
   */
  lemma PeriodBoundIff(cfg: Config)
    requires Sound(cfg) && HalfPeriod(cfg)
    ensures AtMost(cfg, Period(cfg), PeriodMost(cfg))
    ensures AtMost(cfg, Period(cfg), 2 * cfg.failMax)
       <==> cfg.failMax <= 2 || Period(cfg) + cfg.early <= FirstBlock(cfg) + 1
  {
    forall attempts: seq<Attempt>, from: int, start: int | InSequence(attempts, from) && NoSuccess(attempts)
      ensures GuessesAt(cfg, attempts, start, Period(cfg)) <= PeriodMost(cfg)
    {
      AnsweredInPeriod(cfg, UNKNOWN, attempts, from, start);
    }
    if cfg.failMax >= 3 && Period(cfg) + cfg.early > FirstBlock(cfg) + 1 {
      GreedyIsAllowed(cfg);
      GreedyAnswered(cfg);
      assert GuessesAt(cfg, Greedy(cfg), Window(cfg) - 1, Period(cfg)) == 3 * cfg.failMax - 2;
    }
  }

  /** The bound on the guesses in intervals of every length, counted in periods. */
  ghost predicate BoundedByPeriods(cfg: Config)
    requires Sound(cfg) && Period(cfg) > 0
  {
    forall length: nat :: AtMost(cfg, length, cfg.failMax * (CeilDiv(length, Period(cfg)) + 1))
  }

  /**
   * Counting in periods is sound for intervals of every length when blocks read as
   * over no earlier than the period, and unsound when they read as over more than a
   * millisecond earlier than that, for a threshold of three or more.
   */
  lemma PeriodsBoundGuesses(cfg: Config)
    requires Sound(cfg) && HalfPeriod(cfg)
    ensures Period(cfg) > 0
    ensures Period(cfg) + cfg.early <= FirstBlock(cfg) ==> BoundedByPeriods(cfg)
    ensures BoundedByPeriods(cfg) ==> cfg.failMax <= 2 || Period(cfg) + cfg.early <= FirstBlock(cfg) + 1
  {
    var d := Period(cfg);
    PeriodIsPositive(cfg);
    PeriodBoundIff(cfg);
    OnePeriod(d);
    assert BoundedByPeriods(cfg) ==> AtMost(cfg, d, cfg.failMax * (CeilDiv(d, d) + 1));
    if d + cfg.early <= FirstBlock(cfg) {
      PeriodIsSpacing(cfg);
      forall length: nat ensures AtMost(cfg, length, cfg.failMax * (CeilDiv(length, d) + 1)) {
        forall attempts: seq<Attempt>, from: int, start: int | InSequence(attempts, from) && NoSuccess(attempts)
          ensures GuessesAt(cfg, attempts, start, length) <= cfg.failMax * (CeilDiv(length, d) + 1)
        {
          GuessesAreBounded(cfg, attempts, from, start, start + length, d);
        }
      }
    }
  }

  lemma AtMostGrows(cfg: Config, length: nat, most: nat, more: nat)
    requires Sound(cfg) && AtMost(cfg, length, most) && most <= more
    ensures AtMost(cfg, length, more)
  {
    forall attempts: seq<Attempt>, from: int, start: int | InSequence(attempts, from) && NoSuccess(attempts)
      ensures GuessesAt(cfg, attempts, start, length) <= more
    {
      assert GuessesAt(cfg, attempts, start, length) <= most;
    }
  }

  // ====================================================== the shipped settings

  lemma ShippedFacts(early: nat)
    ensures var cfg := Shipped(early);
            && Sound(cfg) && ShortestFirst(cfg)
            && Window(cfg) == 900000 && FirstBlock(cfg) == 900000 && Period(cfg) == 900000
  {
    assert CeilDiv(900000, 1000) == 900;
  }

  /**
   * With the shipped settings and a store that reads a block as over up to half a
   * second early: thirteen guesses in a quarter of an hour, and ten exactly when it
   * is at most a millisecond early.
   */
  lemma ShippedBound(early: nat)
    requires early < 500
    ensures Sound(Shipped(early))
    ensures AtMost(Shipped(early), 900000, 13)
    ensures AtMost(Shipped(early), 900000, 10) <==> early <= 1
  {
    ShippedFacts(early);
    PeriodBoundIff(Shipped(early));
    AtMostGrows(Shipped(early), 900000, PeriodMost(Shipped(early)), 13);
  }

  /** Such a run: thirteen wrong passwords answered within a quarter of an hour. */
  lemma ThirteenInAQuarter(early: nat) returns (attempts: seq<Attempt>)
    requires 2 <= early < 500
    ensures InSequence(attempts, 0) && NoSuccess(attempts)
    ensures Sound(Shipped(early)) && GuessesAt(Shipped(early), attempts, 899999, 900000) == 13
  {
    ShippedFacts(early);
    attempts := Greedy(Shipped(early));
    GreedyIsAllowed(Shipped(early));
    GreedyAnswered(Shipped(early));
  }
}
