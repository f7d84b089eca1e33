/**
 * Failed logins over the relay: counters, escalating blocks and their time bound
 * (webserver/src/proxy/loginGuard.js:101-191, webserver/src/proxy/uiProxy.js:553-568, 735-742).
 *
 * Times are milliseconds. The store's keys expire by themselves: a value counts
 * as present while the clock is before its expiry.
 */
module LoginGuard {

  import opened Options
  import opened Rates

  /**
   * The settings, and `early`: how long before a key expires the store already
   * reports no whole seconds left (its TTL is a rounded number of seconds).
   */
  datatype Config = Config(failMax: nat, failWindowMs: nat, ladder: seq<nat>, strikeTtlMs: nat, early: nat)

  /** Settings are positive integers; a ladder has at least one step. */
  ghost predicate Sound(cfg: Config) {
    && cfg.failMax > 0 && cfg.failWindowMs > 0 && cfg.strikeTtlMs > 0
    && |cfg.ladder| > 0 && forall i :: 0 <= i < |cfg.ladder| ==> cfg.ladder[i] > 0
  }

  /** The shipped settings. */
  function Shipped(early: nat): Config {
    Config(5, 900000, [900000, 3600000, 21600000, 86400000], 604800000, early)
  }

  function Seconds(ms: nat): nat { CeilDiv(ms, 1000) }

  function Window(cfg: Config): nat { Seconds(cfg.failWindowMs) * 1000 }

  function StrikeTtl(cfg: Config): nat { Seconds(cfg.strikeTtlMs) * 1000 }

  function BlockDuration(cfg: Config, strikes: nat): (ms: nat)
    requires Sound(cfg)
    ensures ms in cfg.ladder
  {
    var index := Min(Max(strikes, 1), |cfg.ladder|) - 1;
    cfg.ladder[index]
  }

  function Min(a: int, b: int): int { if a < b then a else b }

  function Max(a: int, b: int): int { if a < b then b else a }

  // ====================================================== one client's record

  datatype Counter = Counter(count: nat, expires: int)

  /** What the store holds for one address at one home. */
  datatype Client = Client(fails: Option<Counter>, strikes: Option<Counter>, blockedUntil: Option<int>)

  const UNKNOWN := Client(None, None, None)

  function CountAt(c: Option<Counter>, now: int): nat {
    if c.Some? && now < c.value.expires then c.value.count else 0
  }

  predicate IsBlocked(cfg: Config, c: Client, now: int) {
    c.blockedUntil.Some? && now + cfg.early < c.blockedUntil.value
  }

  /** Add one; only the first sets the expiry, so the window is not extended. */
  function Counted(c: Option<Counter>, now: int, lifetime: nat): (next: Counter)
    ensures next.count == CountAt(c, now) + 1
  {
    if CountAt(c, now) > 0 then Counter(CountAt(c, now) + 1, c.value.expires)
    else Counter(1, now + lifetime)
  }

  /** Count a failure; the second component is the block it started, in seconds. */
  function RecordFailure(cfg: Config, c: Client, now: int): (Client, Option<nat>)
    requires Sound(cfg)
  {
    var fails := Counted(c.fails, now, Window(cfg));
    if fails.count < cfg.failMax then (c.(fails := Some(fails)), None)
    else
      var strikes := CountAt(c.strikes, now) + 1;
      var seconds := Seconds(BlockDuration(cfg, strikes));
      (Client(None, Some(Counter(strikes, now + StrikeTtl(cfg))), Some(now + seconds * 1000)), Some(seconds))
  }

  function RecordSuccess(c: Client): Client { c.(fails := None, strikes := None) }

  datatype Verdict = Failure | Success | Unclear

  /** One login attempt: the guard is asked at `check`, and the home's answer comes back at `seen`. */
  datatype Attempt = Attempt(check: int, seen: int, verdict: Verdict)

  datatype Outcome = Refused | Forwarded(verdict: Verdict, block: Option<nat>)

  function Try(cfg: Config, c: Client, a: Attempt): (Client, Outcome)
    requires Sound(cfg)
  {
    if IsBlocked(cfg, c, a.check) then (c, Refused)
    else
      match a.verdict
      case Failure => var (c', block) := RecordFailure(cfg, c, a.seen); (c', Forwarded(Failure, block))
      case Success => (RecordSuccess(c), Forwarded(Success, None))
      case Unclear => (c, Forwarded(Unclear, None))
  }

  /** Each attempt is answered before the next is made. */
  predicate InSequence(attempts: seq<Attempt>, from: int) {
    attempts == [] ||
    (from <= attempts[0].check <= attempts[0].seen && InSequence(attempts[1..], attempts[0].seen))
  }

  predicate NoSuccess(attempts: seq<Attempt>) {
    forall i :: 0 <= i < |attempts| ==> attempts[i].verdict != Success
  }

  function Outcomes(cfg: Config, c: Client, attempts: seq<Attempt>): (out: seq<Outcome>)
    requires Sound(cfg)
    ensures |out| == |attempts|
    decreases |attempts|
  {
    if attempts == [] then []
    else var (c', o) := Try(cfg, c, attempts[0]); [o] + Outcomes(cfg, c', attempts[1..])
  }

  /** How many wrong passwords reached the home and were answered in [start, end). */
  function Guesses(attempts: seq<Attempt>, out: seq<Outcome>, start: int, end: int): nat
    requires |out| == |attempts|
    decreases |attempts|
  {
    if attempts == [] then 0
    else (if out[0] != Refused && attempts[0].verdict == Failure && start <= attempts[0].seen < end then 1 else 0)
         + Guesses(attempts[1..], out[1..], start, end)
  }

  // ============================================================ the time bound

  /** A period no two rounds of failures can both start in. */
  predicate Spacing(cfg: Config, d: int) {
    && 0 < d <= Window(cfg)
    && forall i :: 0 <= i < |cfg.ladder| ==> d <= Seconds(cfg.ladder[i]) * 1000 - cfg.early
  }

  /** Failures the live round still has room for, and the earliest a fresh round can start. */
  function Room(cfg: Config, c: Client, now: int): nat {
    if CountAt(c.fails, now) > 0 && CountAt(c.fails, now) < cfg.failMax then cfg.failMax - CountAt(c.fails, now) else 0
  }

  function Earliest(cfg: Config, c: Client, now: int, d: int): int {
    if CountAt(c.fails, now) > 0 then Max(now, c.fails.value.expires - Window(cfg) + d)
    else if c.blockedUntil.Some? then Max(now, c.blockedUntil.value - cfg.early)
    else now
  }

  /** The most failures that can still get through before `end`. */
  function Potential(cfg: Config, c: Client, now: int, end: int, d: int): (n: int)
    requires d > 0
    ensures n >= 0
  {
    Room(cfg, c, now) + Lots(cfg.failMax, end - Earliest(cfg, c, now, d), d)
  }

  /** A live round is below the threshold and started in the past, after any block ended. */
  predicate Inv(cfg: Config, c: Client, now: int) {
    c.fails.Some? ==>
      && 0 < c.fails.value.count < cfg.failMax
      && c.fails.value.expires - Window(cfg) <= now
      && (c.blockedUntil.Some? ==> c.blockedUntil.value - cfg.early <= c.fails.value.expires - Window(cfg))
  }

  lemma WaitingHelpsNobody(cfg: Config, c: Client, now: int, later: int, end: int, d: int)
    requires Sound(cfg) && Spacing(cfg, d) && Inv(cfg, c, now) && now <= later
    ensures Potential(cfg, c, later, end, d) <= Potential(cfg, c, now, end, d)
  {
    LotsMonotone(cfg.failMax, end - Earliest(cfg, c, later, d), end - Earliest(cfg, c, now, d), d);
  }

  lemma BlocksAreLong(cfg: Config, strikes: nat, d: int)
    requires Sound(cfg) && Spacing(cfg, d)
    ensures Seconds(BlockDuration(cfg, strikes)) * 1000 - cfg.early >= d
  {
  }

  /** A failure that is let through costs one unit of the potential. */
  lemma FailureCosts(cfg: Config, c: Client, check: int, now: int, end: int, d: int)
    requires Sound(cfg) && Spacing(cfg, d) && Inv(cfg, c, now)
    requires !IsBlocked(cfg, c, check) && check <= now < end
    ensures var c' := RecordFailure(cfg, c, now).0;
            Inv(cfg, c', now) && 1 + Potential(cfg, c', now, end, d) <= Potential(cfg, c, now, end, d)
  {
    var c', live := RecordFailure(cfg, c, now).0, CountAt(c.fails, now) > 0;
    var e, e' := Earliest(cfg, c, now, d), Earliest(cfg, c', now, d);
    if c'.fails.None? {
      BlocksAreLong(cfg, CountAt(c.strikes, now) + 1, d);
      assert e' >= now + d;
    }
    if live {
      LotsMonotone(cfg.failMax, end - e', end - e, d);
    } else {
      assert e == now;
      LotsOneLess(cfg.failMax, end - now, d);
      assert e' >= now + d;
      LotsMonotone(cfg.failMax, end - e', end - now - d, d);
    }
  }

  lemma LateFailureKeeps(cfg: Config, c: Client, check: int, now: int)
    requires Sound(cfg) && Inv(cfg, c, now) && !IsBlocked(cfg, c, check) && check <= now
    ensures Inv(cfg, RecordFailure(cfg, c, now).0, now)
  {
  }

  lemma TryKeeps(cfg: Config, c: Client, a: Attempt, now: int)
    requires Sound(cfg) && Inv(cfg, c, now) && now <= a.check <= a.seen
    ensures Inv(cfg, Try(cfg, c, a).0, a.seen)
  {
    if !IsBlocked(cfg, c, a.check) && a.verdict == Failure {
      LateFailureKeeps(cfg, c, a.check, a.seen);
    }
  }

  /** What one attempt counts for, and what it leaves. */
  lemma TryCosts(cfg: Config, c: Client, a: Attempt, now: int, end: int, d: int)
    requires Sound(cfg) && Spacing(cfg, d) && Inv(cfg, c, now)
    requires a.verdict != Success && a.check <= a.seen && now <= a.seen < end
    ensures (if Try(cfg, c, a).1 != Refused && a.verdict == Failure then 1 else 0)
            + Potential(cfg, Try(cfg, c, a).0, a.seen, end, d) <= Potential(cfg, c, now, end, d)
  {
    WaitingHelpsNobody(cfg, c, now, a.seen, end, d);
    if !IsBlocked(cfg, c, a.check) && a.verdict == Failure {
      FailureCosts(cfg, c, a.check, a.seen, end, d);
    }
  }

  lemma {:induction false} NoneAfter(attempts: seq<Attempt>, out: seq<Outcome>, from: int, start: int, end: int)
    requires |out| == |attempts| && InSequence(attempts, from) && end <= from
    ensures Guesses(attempts, out, start, end) == 0
    decreases |attempts|
  {
    if attempts != [] {
      NoneAfter(attempts[1..], out[1..], attempts[0].seen, start, end);
    }
  }

  /** From a time `t` on which every answer follows, the potential bounds the guesses. */
  lemma {:induction false} PotentialBounds(cfg: Config, c: Client, attempts: seq<Attempt>, now: int, t: int,
                                           start: int, end: int, d: int)
    requires Sound(cfg) && Spacing(cfg, d) && NoSuccess(attempts) && Inv(cfg, c, now)
    requires InSequence(attempts, now) && now <= t && start <= t && (attempts != [] ==> t <= attempts[0].seen)
    ensures Guesses(attempts, Outcomes(cfg, c, attempts), start, end) <= Potential(cfg, c, t, end, d)
    decreases |attempts|
  {
    if attempts != [] {
      var a, rest := attempts[0], attempts[1..];
      var c' := Try(cfg, c, a).0;
      RestHasNoSuccess(attempts);
      if a.seen >= end {
        NoneAfter(rest, Outcomes(cfg, c', rest), a.seen, start, end);
      } else {
        TryCosts(cfg, c, a, t, end, d);
        TryKeeps(cfg, c, a, now);
        PotentialBounds(cfg, c', rest, a.seen, a.seen, start, end, d);
      }
      assert Outcomes(cfg, c, attempts)[1..] == Outcomes(cfg, c', rest);
    }
  }

  lemma RestHasNoSuccess(attempts: seq<Attempt>)
    requires attempts != [] && NoSuccess(attempts)
    ensures attempts[0].verdict != Success && NoSuccess(attempts[1..])
  {
    forall i | 0 <= i < |attempts| - 1 ensures attempts[1..][i].verdict != Success {
      assert attempts[1..][i] == attempts[i + 1];
    }
  }

  lemma {:induction false} BoundFrom(cfg: Config, c: Client, attempts: seq<Attempt>, now: int, start: int, end: int,
                                     d: int)
    requires Sound(cfg) && Spacing(cfg, d) && NoSuccess(attempts) && Inv(cfg, c, now) && InSequence(attempts, now)
    ensures Guesses(attempts, Outcomes(cfg, c, attempts), start, end) <= cfg.failMax + Lots(cfg.failMax, end - start, d)
    decreases |attempts|
  {
    if attempts == [] {
    } else if attempts[0].seen < start {
      var c', rest := Try(cfg, c, attempts[0]).0, attempts[1..];
      RestHasNoSuccess(attempts);
      TryKeeps(cfg, c, attempts[0], now);
      BoundFrom(cfg, c', rest, attempts[0].seen, start, end, d);
      assert Outcomes(cfg, c, attempts)[1..] == Outcomes(cfg, c', rest);
    } else {
      var t := Max(now, start);
      PotentialBounds(cfg, c, attempts, now, t, start, end, d);
      LotsMonotone(cfg.failMax, end - Earliest(cfg, c, t, d), end - start, d);
    }
  }

  /**
   * Whoever tries passwords one after another without ever succeeding gets, in
   * any stretch of T milliseconds, at most failMax * (ceil(T / d) + 1) wrong
   * guesses answered, for every d that is no longer than the failure window and
   * than every block less what it reads as over early.
   */
  lemma GuessesAreBounded(cfg: Config, attempts: seq<Attempt>, from: int, start: int, end: int, d: int)
    requires Sound(cfg) && Spacing(cfg, d) && NoSuccess(attempts) && InSequence(attempts, from)
    ensures Guesses(attempts, Outcomes(cfg, UNKNOWN, attempts), start, end)
         <= cfg.failMax * (CeilDiv(end - start, d) + 1)
  {
    BoundFrom(cfg, UNKNOWN, attempts, from, start, end, d);
    LotsAndOne(cfg.failMax, end - start, d);
  }

  // ======================================================== blocks hold and grow

  /** A block that is on cannot be lifted from outside: until it is over every attempt is refused. */
  lemma {:induction false} BlockHolds(cfg: Config, c: Client, attempts: seq<Attempt>)
    requires Sound(cfg) && c.blockedUntil.Some?
    requires forall i :: 0 <= i < |attempts| ==> attempts[i].check + cfg.early < c.blockedUntil.value
    ensures forall i :: 0 <= i < |attempts| ==> Outcomes(cfg, c, attempts)[i] == Refused
    decreases |attempts|
  {
    if attempts != [] {
      var rest := attempts[1..];
      assert forall i :: 0 <= i < |rest| ==> rest[i] == attempts[i + 1];
      BlockHolds(cfg, c, rest);
    }
  }

  predicate SortedLadder(cfg: Config) {
    forall i, j :: 0 <= i < j < |cfg.ladder| ==> cfg.ladder[i] <= cfg.ladder[j]
  }

  /** The blocks started, with the time each was set. */
  function Blocks(attempts: seq<Attempt>, out: seq<Outcome>): seq<(int, nat)>
    requires |out| == |attempts|
    decreases |attempts|
  {
    if attempts == [] then []
    else (if out[0].Forwarded? && out[0].block.Some? then [(attempts[0].seen, out[0].block.value)] else [])
         + Blocks(attempts[1..], out[1..])
  }

  /** The strikes of the last block set, at `last.0`, which lasted `last.1` seconds. */
  predicate Remembers(cfg: Config, c: Client, last: (int, nat))
    requires Sound(cfg)
  {
    && c.strikes.Some? && c.strikes.value.count > 0 && c.strikes.value.expires == last.0 + StrikeTtl(cfg)
    && last.1 == Seconds(BlockDuration(cfg, c.strikes.value.count))
  }

  /** No block is shorter than the one before it, unless the strikes had lapsed by then. */
  predicate Escalates(cfg: Config, last: Option<(int, nat)>, blocks: seq<(int, nat)>)
    decreases |blocks|
  {
    if blocks == [] then true
    else
      && (last.Some? && blocks[0].0 < last.value.0 + StrikeTtl(cfg) ==> last.value.1 <= blocks[0].1)
      && Escalates(cfg, Some(blocks[0]), blocks[1..])
  }

  lemma LongerLadder(cfg: Config, strikes: nat)
    requires Sound(cfg) && SortedLadder(cfg)
    ensures Seconds(BlockDuration(cfg, strikes)) <= Seconds(BlockDuration(cfg, strikes + 1))
  {
    CeilMonotone(BlockDuration(cfg, strikes), BlockDuration(cfg, strikes + 1), 1000);
  }

  lemma TryEscalates(cfg: Config, c: Client, a: Attempt, last: Option<(int, nat)>)
    requires Sound(cfg) && SortedLadder(cfg) && a.verdict != Success
    requires last.Some? ==> Remembers(cfg, c, last.value)
    ensures var (c', o) := Try(cfg, c, a);
            if o.Forwarded? && o.block.Some?
            then Remembers(cfg, c', (a.seen, o.block.value)) && Escalates(cfg, last, [(a.seen, o.block.value)])
            else last.Some? ==> Remembers(cfg, c', last.value)
  {
    if last.Some? {
      LongerLadder(cfg, c.strikes.value.count);
    }
  }

  lemma {:induction false} EscalatesFrom(cfg: Config, c: Client, attempts: seq<Attempt>, last: Option<(int, nat)>)
    requires Sound(cfg) && SortedLadder(cfg) && NoSuccess(attempts)
    requires last.Some? ==> Remembers(cfg, c, last.value)
    ensures Escalates(cfg, last, Blocks(attempts, Outcomes(cfg, c, attempts)))
    decreases |attempts|
  {
    if attempts != [] {
      var a, rest := attempts[0], attempts[1..];
      var (c', o) := Try(cfg, c, a);
      RestHasNoSuccess(attempts);
      TryEscalates(cfg, c, a, last);
      assert Outcomes(cfg, c, attempts)[1..] == Outcomes(cfg, c', rest);
      var blocks := Blocks(rest, Outcomes(cfg, c', rest));
      if o.Forwarded? && o.block.Some? {
        var next := (a.seen, o.block.value);
        EscalatesFrom(cfg, c', rest, Some(next));
        assert ([next] + blocks)[1..] == blocks;
      } else {
        EscalatesFrom(cfg, c', rest, last);
        assert [] + blocks == blocks;
      }
    }
  }

  /** With a sorted ladder a client's successive blocks never get shorter until its strikes lapse. */
  lemma BlocksEscalate(cfg: Config, attempts: seq<Attempt>)
    requires Sound(cfg) && SortedLadder(cfg) && NoSuccess(attempts)
    ensures Escalates(cfg, None, Blocks(attempts, Outcomes(cfg, UNKNOWN, attempts)))
  {
    EscalatesFrom(cfg, UNKNOWN, attempts, None);
  }

  // ========================================================= a success forgives

  function Failures(attempts: seq<Attempt>): nat {
    if attempts == [] then 0 else (if attempts[0].verdict == Failure then 1 else 0) + Failures(attempts[1..])
  }

  lemma {:induction false} FewFailuresPass(cfg: Config, c: Client, attempts: seq<Attempt>, now: int, spent: nat)
    requires Sound(cfg) && InSequence(attempts, now) && spent + Failures(attempts) < cfg.failMax
    requires (c.blockedUntil.Some? ==> c.blockedUntil.value <= now + cfg.early)
    requires c.fails.Some? ==> c.fails.value.count <= spent
    ensures forall i :: 0 <= i < |attempts| ==> Outcomes(cfg, c, attempts)[i] == Forwarded(attempts[i].verdict, None)
    decreases |attempts|
  {
    if attempts != [] {
      var a, rest := attempts[0], attempts[1..];
      var c' := Try(cfg, c, a).0;
      FewFailuresPass(cfg, c', rest, a.seen, spent + if a.verdict == Failure then 1 else 0);
      assert forall i :: 0 < i < |attempts| ==> rest[i - 1] == attempts[i];
    }
  }

  /** After a success the client may fail again failMax - 1 times, at any time, without being blocked. */
  lemma SuccessForgives(cfg: Config, c: Client, a: Attempt, rest: seq<Attempt>)
    requires Sound(cfg) && a.verdict == Success && !IsBlocked(cfg, c, a.check)
    requires InSequence([a] + rest, a.check) && Failures(rest) < cfg.failMax
    ensures forall i :: 0 <= i < |rest| ==> Outcomes(cfg, Try(cfg, c, a).0, rest)[i] == Forwarded(rest[i].verdict, None)
  {
    assert ([a] + rest)[1..] == rest;
    FewFailuresPass(cfg, Try(cfg, c, a).0, rest, a.seen, 0);
  }

  lemma {:induction false} FirstBlockIsShortest(cfg: Config, c: Client, attempts: seq<Attempt>)
    requires Sound(cfg) && c.strikes.None?
    ensures var blocks := Blocks(attempts, Outcomes(cfg, c, attempts));
            blocks != [] ==> blocks[0].1 == Seconds(cfg.ladder[0])
    decreases |attempts|
  {
    if attempts != [] {
      var (c', o) := Try(cfg, c, attempts[0]);
      assert Outcomes(cfg, c, attempts)[1..] == Outcomes(cfg, c', attempts[1..]);
      if !(o.Forwarded? && o.block.Some?) {
        FirstBlockIsShortest(cfg, c', attempts[1..]);
      }
    }
  }

  /** A success forgets the strikes too: the next block, if there is one, is the ladder's first. */
  lemma SuccessForgetsStrikes(cfg: Config, c: Client, a: Attempt, rest: seq<Attempt>)
    requires Sound(cfg) && a.verdict == Success && !IsBlocked(cfg, c, a.check)
    ensures var blocks := Blocks(rest, Outcomes(cfg, Try(cfg, c, a).0, rest));
            blocks != [] ==> blocks[0].1 == Seconds(cfg.ladder[0])
  {
    FirstBlockIsShortest(cfg, Try(cfg, c, a).0, rest);
  }

  // ============================================================== the class

  type Address = string
  type ServerId = string
  type Who = (ServerId, Address)

  /** Writing or removing one address's entry leaves the others. */
  lemma OthersStay<V>(m: map<Who, V>, who: Who, v: V)
    ensures m[who := v] - {who} == m - {who} && m[who := v] - {who} - {who} == m - {who}
    ensures m - {who} - {who} == m - {who}
  {
  }

  class Guard {
    const cfg: Config
    var fails: map<Who, Counter>
    var strikes: map<Who, Counter>
    var blocks: map<Who, int>
    var homes: map<ServerId, Counter>     // a tally nothing reads

    function Record(who: Who): Client
      reads this
    {
      Client(if who in fails then Some(fails[who]) else None,
             if who in strikes then Some(strikes[who]) else None,
             if who in blocks then Some(blocks[who]) else None)
    }

    /** What the store holds for everybody else. */
    ghost function Others(who: Who): (map<Who, Counter>, map<Who, Counter>, map<Who, int>)
      reads this
    {
      (fails - {who}, strikes - {who}, blocks - {who})
    }

    constructor (cfg: Config)
      requires Sound(cfg)
      ensures this.cfg == cfg && forall who: Who :: Record(who) == UNKNOWN
    {
      this.cfg := cfg;
      fails, strikes, blocks, homes := map[], map[], map[], map[];
    }

    /** The seconds left of a block, if the store reports any. */
    method CheckBlocked(server: ServerId, address: Address, now: int) returns (left: Option<nat>)
      ensures left.Some? <==> IsBlocked(cfg, Record((server, address)), now)
      ensures left.Some? ==>
        left.value > 0 && (left.value - 1) * 1000 < blocks[(server, address)] - now - cfg.early <= left.value * 1000
    {
      var who := (server, address);
      if who in blocks && now + cfg.early < blocks[who] {
        return Some(CeilDiv(blocks[who] - now - cfg.early, 1000));
      }
      return None;
    }

    method CountFailure(server: ServerId, address: Address, now: int) returns (block: Option<nat>)
      requires Sound(cfg)
      modifies this
      ensures (Record((server, address)), block) == RecordFailure(cfg, old(Record((server, address))), now)
      ensures Others((server, address)) == old(Others((server, address)))
    {
      var who := (server, address);
      var failures := Counted(Record(who).fails, now, Window(cfg));
      fails := fails[who := failures];
      OthersStay(old(fails), who, failures);
      homes := homes[server := Counted(if server in homes then Some(homes[server]) else None, now, Window(cfg))];
      if failures.count < cfg.failMax {
        return None;
      }
      var count := CountAt(Record(who).strikes, now) + 1;
      strikes := strikes[who := Counter(count, now + StrikeTtl(cfg))];
      OthersStay(old(strikes), who, Counter(count, now + StrikeTtl(cfg)));
      var seconds := Seconds(BlockDuration(cfg, count));
      blocks := blocks[who := now + seconds * 1000];
      OthersStay(old(blocks), who, now + seconds * 1000);
      fails := fails - {who};
      OthersStay(old(fails), who, failures);
      return Some(seconds);
    }

    /** Wipes the counters and strikes; a block already set runs out by itself. */
    method ClearRecord(server: ServerId, address: Address)
      modifies this
      ensures Record((server, address)) == RecordSuccess(old(Record((server, address))))
      ensures Others((server, address)) == old(Others((server, address)))
    {
      var who := (server, address);
      fails, strikes := fails - {who}, strikes - {who};
      assert fails - {who} == old(fails) - {who};
      assert strikes - {who} == old(strikes) - {who};
    }

    /** The login gate and what is done with the home's answer, for an unvouched request. */
    method Login(server: ServerId, address: Address, a: Attempt) returns (outcome: Outcome)
      requires Sound(cfg)
      modifies this
      ensures (Record((server, address)), outcome) == Try(cfg, old(Record((server, address))), a)
      ensures Others((server, address)) == old(Others((server, address)))
    {
      var blocked := CheckBlocked(server, address, a.check);
      if blocked.Some? {
        return Refused;
      }
      match a.verdict {
        case Failure =>
          var block := CountFailure(server, address, a.seen);
          return Forwarded(Failure, block);
        case Success =>
          ClearRecord(server, address);
          return Forwarded(Success, None);
        case Unclear =>
          return Forwarded(Unclear, None);
      }
    }
  }
}
