/**
 * The queue of access events: merging, capping and flushing
 * (webserver/src/utils/accessEvents.js:29-130).
 */
module AccessEvents {

  /** A queued event; an absent text is the empty string. */
  datatype Entry = Entry(serverId: string, source: string, event: string, clientIp: string, host: string,
                         outcome: string, verb: string, path: string, userAgent: string, keyId: string,
                         detail: string, count: nat, at: int)

  /** What makes two events the same thing happening again. */
  function MergeKey(e: Entry): string {
    e.serverId + "|" + e.source + "|" + e.event + "|" + e.clientIp + "|" + e.host
  }

  function Or(a: string, b: string): string { if a != "" then a else b }

  function Merge(existing: Entry, e: Entry): (r: Entry)
    ensures MergeKey(r) == MergeKey(existing)
    ensures r.count == existing.count + e.count
  {
    existing.(count := existing.count + e.count, at := e.at,
              path := Or(e.path, existing.path), userAgent := Or(e.userAgent, existing.userAgent))
  }

  // ================================================== an insertion-ordered map

  /** Keys in insertion order, each once. */
  type Queue = seq<(string, Entry)>

  function Keys(q: Queue): (keys: seq<string>)
    ensures |keys| == |q| && forall i :: 0 <= i < |q| ==> keys[i] == q[i].0
  {
    seq(|q|, i requires 0 <= i < |q| => q[i].0)
  }

  function Find(q: Queue, key: string): (i: nat)
    ensures i <= |q| && (i < |q| ==> q[i].0 == key)
    ensures forall j :: 0 <= j < i ==> q[j].0 != key
  {
    if q == [] || q[0].0 == key then 0 else 1 + Find(q[1..], key)
  }

  function Delete(q: Queue, key: string): Queue {
    var i := Find(q, key);
    if i < |q| then q[..i] + q[i + 1..] else q
  }

  ghost predicate WellFormed(q: Queue) {
    && (forall i :: 0 <= i < |q| ==> q[i].0 == MergeKey(q[i].1) && q[i].1.count > 0)
    && (forall i, j :: 0 <= i < j < |q| ==> q[i].0 != q[j].0)
  }

  // ================================================================ the steps

  datatype Config = Config(queueMax: nat, batchMax: nat)

  /** `accepted`, `flushed` and `created` record the run: entries taken, entries sent, and keys as they first appear. */
  datatype State = State(queue: Queue, dropped: nat, accepted: seq<Entry>, flushed: seq<Entry>, created: seq<string>)

  /** A reported event with the count its caller gives (0 when it gives none), or a flush. */
  datatype Event = Record(report: Entry, count: int) | Flush

  /** `Math.max(1, parseInt(count) || 1)`. */
  function Clamped(report: Entry, count: int): (e: Entry)
    ensures e.count >= 1 && MergeKey(e) == MergeKey(report)
    ensures count >= 1 ==> e.count == count
  {
    report.(count := if count > 1 then count else 1)
  }

  const START := State([], 0, [], [], [])

  /** The first entries of the queue, up to the batch size. */
  function Batch(cfg: Config, q: Queue): (events: seq<Entry>)
    ensures |events| == if |q| < cfg.batchMax then |q| else cfg.batchMax
    ensures forall i :: 0 <= i < |events| ==> events[i] == q[i].1
  {
    seq(if |q| < cfg.batchMax then |q| else cfg.batchMax, i requires 0 <= i < |q| => q[i].1)
  }

  function Kept(cfg: Config, q: Queue, e: Entry): bool {
    Find(q, MergeKey(e)) < |q| || |q| < cfg.queueMax
  }

  function Step(cfg: Config, s: State, event: Event): State {
    match event
    case Record(report, count) =>
      var e := Clamped(report, count);
      var i := Find(s.queue, MergeKey(e));
      if i < |s.queue| then
        s.(queue := s.queue[i := (s.queue[i].0, Merge(s.queue[i].1, e))], accepted := s.accepted + [e])
      else if |s.queue| >= cfg.queueMax then s.(dropped := s.dropped + 1)
      else
        s.(queue := s.queue + [(MergeKey(e), e)], accepted := s.accepted + [e], created := s.created + [MergeKey(e)])
    case Flush =>
      if s.queue == [] then s
      else
        var events := Batch(cfg, s.queue);
        s.(queue := s.queue[|events|..], dropped := 0, flushed := s.flushed + events)
  }

  function Run(cfg: Config, s: State, events: seq<Event>): State
    decreases |events|
  {
    if events == [] then s else Run(cfg, Step(cfg, s, events[0]), events[1..])
  }

  // ============================================================= conservation

  /** The counts of the entries whose key is selected. */
  function Total(entries: seq<Entry>, selected: string -> bool): nat {
    if entries == [] then 0
    else (if selected(MergeKey(entries[0])) then entries[0].count else 0) + Total(entries[1..], selected)
  }

  function Entries(q: Queue): (entries: seq<Entry>)
    ensures |entries| == |q| && forall i :: 0 <= i < |q| ==> entries[i] == q[i].1
  {
    seq(|q|, i requires 0 <= i < |q| => q[i].1)
  }

  lemma {:induction false} TotalAppend(a: seq<Entry>, b: seq<Entry>, selected: string -> bool)
    ensures Total(a + b, selected) == Total(a, selected) + Total(b, selected)
  {
    if a == [] {
      assert a + b == b;
    } else {
      assert (a + b)[0] == a[0] && (a + b)[1..] == a[1..] + b;
      TotalAppend(a[1..], b, selected);
    }
  }

  lemma TotalOne(e: Entry, selected: string -> bool)
    ensures Total([e], selected) == if selected(MergeKey(e)) then e.count else 0
  {
    assert [e][1..] == [];
  }

  lemma TotalChanged(entries: seq<Entry>, i: nat, e: Entry, selected: string -> bool)
    requires i < |entries| && MergeKey(e) == MergeKey(entries[i]) && e.count >= entries[i].count
    ensures Total(entries[i := e], selected)
         == Total(entries, selected) + if selected(MergeKey(e)) then e.count - entries[i].count else 0
  {
    var before, after := entries[..i], entries[i + 1..];
    assert entries == before + ([entries[i]] + after) && entries[i := e] == before + ([e] + after);
    TotalAppend(before, [entries[i]] + after, selected);
    TotalAppend([entries[i]], after, selected);
    TotalAppend(before, [e] + after, selected);
    TotalAppend([e], after, selected);
    TotalOne(e, selected);
    TotalOne(entries[i], selected);
  }

  ghost predicate Conserves(s: State, selected: string -> bool) {
    Total(s.accepted, selected) == Total(s.flushed, selected) + Total(Entries(s.queue), selected)
  }

  lemma RecordConserves(cfg: Config, s: State, report: Entry, count: int, selected: string -> bool)
    requires WellFormed(s.queue) && Conserves(s, selected)
    ensures Conserves(Step(cfg, s, Record(report, count)), selected)
  {
    var s', e := Step(cfg, s, Record(report, count)), Clamped(report, count);
    TotalAppend(s.accepted, [e], selected);
    TotalOne(e, selected);
    var i := Find(s.queue, MergeKey(e));
    if i < |s.queue| {
      TotalChanged(Entries(s.queue), i, Merge(s.queue[i].1, e), selected);
      assert Entries(s'.queue) == Entries(s.queue)[i := Merge(s.queue[i].1, e)];
    } else if |s.queue| < cfg.queueMax {
      assert Entries(s'.queue) == Entries(s.queue) + [e];
      TotalAppend(Entries(s.queue), [e], selected);
    }
  }

  lemma StepConserves(cfg: Config, s: State, event: Event, selected: string -> bool)
    requires WellFormed(s.queue) && Conserves(s, selected)
    ensures Conserves(Step(cfg, s, event), selected)
  {
    if event.Record? {
      RecordConserves(cfg, s, event.report, event.count, selected);
    } else if s.queue != [] {
      var events, left := Batch(cfg, s.queue), Entries(Step(cfg, s, event).queue);
      TotalAppend(s.flushed, events, selected);
      assert Entries(s.queue) == events + left;
      TotalAppend(events, left, selected);
    }
  }

  /** Bounds and order: keys leave in the order in which they first appeared. */
  ghost predicate Orderly(cfg: Config, s: State) {
    && WellFormed(s.queue) && |s.queue| <= cfg.queueMax
    && s.created == KeysOf(s.flushed) + Keys(s.queue)
  }

  function KeysOf(entries: seq<Entry>): (keys: seq<string>)
    ensures |keys| == |entries| && forall i :: 0 <= i < |entries| ==> keys[i] == MergeKey(entries[i])
  {
    seq(|entries|, i requires 0 <= i < |entries| => MergeKey(entries[i]))
  }

  lemma MergedInPlace(q: Queue, i: nat, e: Entry)
    requires WellFormed(q) && i < |q|
    ensures var q' := q[i := (q[i].0, Merge(q[i].1, e))];
            WellFormed(q') && Keys(q') == Keys(q)
  {
  }

  lemma PutLast(q: Queue, key: string, e: Entry)
    requires WellFormed(q) && key == MergeKey(e) && e.count > 0 && Find(q, key) == |q|
    ensures WellFormed(q + [(key, e)]) && Keys(q + [(key, e)]) == Keys(q) + [key]
  {
  }

  lemma RestIsWellFormed(q: Queue, n: nat)
    requires WellFormed(q) && n <= |q|
    ensures WellFormed(q[n..])
  {
    var rest := q[n..];
    forall i | 0 <= i < |rest| ensures rest[i].0 == MergeKey(rest[i].1) && rest[i].1.count > 0 {
      assert rest[i] == q[n + i];
    }
    forall i, j | 0 <= i < j < |rest| ensures rest[i].0 != rest[j].0 {
      assert rest[i] == q[n + i] && rest[j] == q[n + j];
    }
  }

  lemma KeysSplit(cfg: Config, q: Queue)
    requires forall i :: 0 <= i < |q| ==> q[i].0 == MergeKey(q[i].1)
    ensures Keys(q) == KeysOf(Batch(cfg, q)) + Keys(q[|Batch(cfg, q)|..])
  {
    var n, left, right := |Batch(cfg, q)|, KeysOf(Batch(cfg, q)), Keys(q[|Batch(cfg, q)|..]);
    forall i | 0 <= i < |q| ensures Keys(q)[i] == (left + right)[i] {
      if i >= n {
        assert q[n..][i - n] == q[i];
      }
    }
  }

  lemma KeysOfAppend(a: seq<Entry>, b: seq<Entry>)
    ensures KeysOf(a + b) == KeysOf(a) + KeysOf(b)
  {
  }

  lemma Regroup(a: seq<string>, b: seq<string>, c: seq<string>)
    ensures a + b + c == a + (b + c)
  {
  }

  lemma StepIsOrderly(cfg: Config, s: State, event: Event)
    requires Orderly(cfg, s)
    ensures Orderly(cfg, Step(cfg, s, event))
  {
    match event {
      case Record(report, count) =>
        var e := Clamped(report, count);
        var key, i := MergeKey(e), Find(s.queue, MergeKey(e));
        if i < |s.queue| {
          MergedInPlace(s.queue, i, e);
        } else if |s.queue| < cfg.queueMax {
          PutLast(s.queue, key, e);
          Regroup(KeysOf(s.flushed), Keys(s.queue), [key]);
        }
      case Flush =>
        if s.queue != [] {
          var events, rest := Batch(cfg, s.queue), s.queue[|Batch(cfg, s.queue)|..];
          RestIsWellFormed(s.queue, |events|);
          KeysSplit(cfg, s.queue);
          KeysOfAppend(s.flushed, events);
          Regroup(KeysOf(s.flushed), KeysOf(events), Keys(rest));
        }
    }
  }

  lemma {:induction false} RunKeeps(cfg: Config, s: State, events: seq<Event>, selected: string -> bool)
    requires Orderly(cfg, s) && Conserves(s, selected)
    ensures Orderly(cfg, Run(cfg, s, events)) && Conserves(Run(cfg, s, events), selected)
    decreases |events|
  {
    if events != [] {
      StepIsOrderly(cfg, s, events[0]);
      StepConserves(cfg, s, events[0], selected);
      RunKeeps(cfg, Step(cfg, s, events[0]), events[1..], selected);
    }
  }

  /**
   * Over every interleaving of records and flushes nothing is counted twice or
   * lost: for any selection of keys (all of them, or just one) the counts
   * accepted equal the counts sent plus the counts still queued. The queue stays
   * within its cap and holds each key once, and entries leave in the order in
   * which their keys first came in.
   */
  lemma EveryRun(cfg: Config, events: seq<Event>, selected: string -> bool)
    ensures var s := Run(cfg, START, events);
            && Total(s.accepted, selected) == Total(s.flushed, selected) + Total(Entries(s.queue), selected)
            && |s.queue| <= cfg.queueMax && WellFormed(s.queue)
            && s.created == KeysOf(s.flushed) + Keys(s.queue)
  {
    RunKeeps(cfg, START, events, selected);
  }

  // ========================================================= the newest is kept

  /** The last accepted report of a key. */
  function Last(accepted: seq<Entry>, key: string): (i: nat)
    ensures i < |accepted| ==>
              MergeKey(accepted[i]) == key && forall j :: i < j < |accepted| ==> MergeKey(accepted[j]) != key
    ensures i >= |accepted| ==> i == |accepted| && forall j :: 0 <= j < |accepted| ==> MergeKey(accepted[j]) != key
  {
    if accepted == [] then 0
    else
      var n := |accepted| - 1;
      if MergeKey(accepted[n]) == key then n
      else
        var i := Last(accepted[..n], key);
        if i < n then i else n + 1
  }

  /** A queued entry says when it last happened and, where the last report said so, where and by which agent. */
  predicate Newest(accepted: seq<Entry>, item: (string, Entry)) {
    var i := Last(accepted, item.0);
    i < |accepted| && item.1.at == accepted[i].at
    && (accepted[i].path != "" ==> item.1.path == accepted[i].path)
    && (accepted[i].userAgent != "" ==> item.1.userAgent == accepted[i].userAgent)
  }

  ghost predicate AllNewest(accepted: seq<Entry>, q: Queue) {
    forall i :: 0 <= i < |q| ==> Newest(accepted, q[i])
  }

  lemma LastOfOneMore(accepted: seq<Entry>, e: Entry, key: string)
    ensures Last(accepted + [e], key)
         == if MergeKey(e) == key then |accepted|
            else if Last(accepted, key) < |accepted| then Last(accepted, key) else |accepted| + 1
  {
    assert (accepted + [e])[..|accepted|] == accepted;
  }

  lemma NewestGrows(accepted: seq<Entry>, e: Entry, item: (string, Entry))
    requires Newest(accepted, item) && item.0 != MergeKey(e)
    ensures Newest(accepted + [e], item)
  {
    LastOfOneMore(accepted, e, item.0);
  }

  lemma NewestReported(accepted: seq<Entry>, e: Entry, existing: Entry)
    ensures Newest(accepted + [e], (MergeKey(e), Merge(existing, e)))
    ensures Newest(accepted + [e], (MergeKey(e), e))
  {
    LastOfOneMore(accepted, e, MergeKey(e));
  }

  /** The reported key is at `i` of the new queue, every other item was in the old one. */
  lemma ReportKeepsNewest(accepted: seq<Entry>, e: Entry, q: Queue, q': Queue, i: nat, existing: Entry)
    requires AllNewest(accepted, q) && i < |q'| && |q| <= |q'| <= |q| + 1 && (i < |q| || i + 1 == |q'|)
    requires q'[i] == (MergeKey(e), Merge(existing, e)) || q'[i] == (MergeKey(e), e)
    requires forall j :: 0 <= j < |q'| && j != i ==> j < |q| && q'[j] == q[j] && q[j].0 != MergeKey(e)
    ensures AllNewest(accepted + [e], q')
  {
    NewestReported(accepted, e, existing);
    forall j | 0 <= j < |q'| && j != i ensures Newest(accepted + [e], q'[j]) {
      var item := q'[j];
      NewestGrows(accepted, e, item);
    }
  }

  lemma StepKeepsNewest(cfg: Config, s: State, event: Event)
    requires WellFormed(s.queue) && AllNewest(s.accepted, s.queue)
    ensures AllNewest(Step(cfg, s, event).accepted, Step(cfg, s, event).queue)
  {
    var s' := Step(cfg, s, event);
    match event {
      case Record(report, count) =>
        var e := Clamped(report, count);
        var i := Find(s.queue, MergeKey(e));
        if i < |s.queue| {
          ReportKeepsNewest(s.accepted, e, s.queue, s'.queue, i, s.queue[i].1);
        } else if |s.queue| < cfg.queueMax {
          ReportKeepsNewest(s.accepted, e, s.queue, s'.queue, i, e);
        }
      case Flush =>
        var n := |s.queue| - |s'.queue|;
        assert forall i :: 0 <= i < |s'.queue| ==> s'.queue[i] == s.queue[n + i];
    }
  }

  lemma {:induction false} RunKeepsNewest(cfg: Config, s: State, events: seq<Event>)
    requires Orderly(cfg, s) && AllNewest(s.accepted, s.queue)
    ensures AllNewest(Run(cfg, s, events).accepted, Run(cfg, s, events).queue)
    decreases |events|
  {
    if events != [] {
      StepIsOrderly(cfg, s, events[0]);
      StepKeepsNewest(cfg, s, events[0]);
      RunKeepsNewest(cfg, Step(cfg, s, events[0]), events[1..]);
    }
  }

  /** In every run a queued entry carries the time of the last report merged into it, and its path and agent if any. */
  lemma NewestIsKept(cfg: Config, events: seq<Event>, i: nat)
    requires i < |Run(cfg, START, events).queue|
    ensures Newest(Run(cfg, START, events).accepted, Run(cfg, START, events).queue[i])
  {
    RunKeepsNewest(cfg, START, events);
  }

  // ================================================== what a key tells apart

  predicate Plain(text: string) { '|' !in text }

  lemma {:induction false} FirstField(a: string, b: string, x: string, y: string)
    requires Plain(a) && Plain(b) && a + "|" + x == b + "|" + y
    ensures a == b && x == y
    decreases |a|
  {
    var l, r := a + "|" + x, b + "|" + y;
    assert l[|a|] == '|' && r[|b|] == '|';
    assert forall i :: 0 <= i < |b| ==> r[i] == b[i] && b[i] != '|';
    assert forall i :: 0 <= i < |a| ==> l[i] == a[i] && a[i] != '|';
    assert a == l[..|a|] && b == r[..|b|] && x == l[|a| + 1..] && y == r[|b| + 1..];
  }

  predicate SameThing(a: Entry, b: Entry) {
    && a.serverId == b.serverId && a.source == b.source && a.event == b.event
    && a.clientIp == b.clientIp && a.host == b.host
  }

  /** Two events whose fields before the host hold no bar are merged exactly when all five fields agree. */
  lemma KeyTellsApart(a: Entry, b: Entry)
    requires Plain(a.serverId) && Plain(a.source) && Plain(a.event) && Plain(a.clientIp)
    requires Plain(b.serverId) && Plain(b.source) && Plain(b.event) && Plain(b.clientIp)
    ensures MergeKey(a) == MergeKey(b) <==> SameThing(a, b)
  {
    if MergeKey(a) == MergeKey(b) {
      var a4, b4 := a.clientIp + "|" + a.host, b.clientIp + "|" + b.host;
      var a3, b3 := a.event + "|" + a4, b.event + "|" + b4;
      var a2, b2 := a.source + "|" + a3, b.source + "|" + b3;
      assert MergeKey(a) == a.serverId + "|" + a2 && MergeKey(b) == b.serverId + "|" + b2;
      FirstField(a.serverId, b.serverId, a2, b2);
      FirstField(a.source, b.source, a3, b3);
      FirstField(a.event, b.event, a4, b4);
      FirstField(a.clientIp, b.clientIp, a.host, b.host);
    }
  }

  function Bars(text: string): nat {
    if text == "" then 0 else (if text[0] == '|' then 1 else 0) + Bars(text[1..])
  }

  lemma {:induction false} BarsAppend(a: string, b: string)
    ensures Bars(a + b) == Bars(a) + Bars(b)
  {
    if a == "" {
      assert a + b == b;
    } else {
      assert (a + b)[0] == a[0] && (a + b)[1..] == a[1..] + b;
      BarsAppend(a[1..], b);
    }
  }

  lemma {:induction false} PlainHasNoBars(text: string)
    ensures Plain(text) <==> Bars(text) == 0
  {
    if text != "" {
      PlainHasNoBars(text[1..]);
      assert text == [text[0]] + text[1..];
    }
  }

  lemma BarsInKey(e: Entry)
    ensures Bars(MergeKey(e)) == 4 + Bars(e.serverId) + Bars(e.source) + Bars(e.event) + Bars(e.clientIp) + Bars(e.host)
  {
    var k1 := e.serverId + "|" + e.source;
    var k2 := k1 + "|" + e.event;
    var k3 := k2 + "|" + e.clientIp;
    BarsBetween(e.serverId, e.source);
    BarsBetween(k1, e.event);
    BarsBetween(k2, e.clientIp);
    BarsBetween(k3, e.host);
  }

  lemma BarsBetween(a: string, b: string)
    ensures Bars(a + "|" + b) == Bars(a) + 1 + Bars(b)
  {
    BarsAppend(a + "|", b);
    BarsAppend(a, "|");
    assert "|"[1..] == "";
  }

  predicate NoBars(e: Entry) {
    Plain(e.serverId) && Plain(e.source) && Plain(e.event) && Plain(e.clientIp) && Plain(e.host)
  }

  lemma NoBarsInKey(e: Entry)
    ensures NoBars(e) <==> Bars(MergeKey(e)) == 4
  {
    BarsInKey(e);
    PlainHasNoBars(e.serverId);
    PlainHasNoBars(e.source);
    PlainHasNoBars(e.event);
    PlainHasNoBars(e.clientIp);
    PlainHasNoBars(e.host);
  }

  /** The text before and after a bar. */
  lemma SplitAtBar(text: string) returns (left: string, right: string)
    requires !Plain(text)
    ensures text == left + "|" + right
  {
    var i :| 0 <= i < |text| && text[i] == '|';
    left, right := text[..i], text[i + 1..];
  }

  lemma Shift(p: string, q: string, next: string, rest: string)
    ensures (p + "|" + q) + ("|" + (next + rest)) == p + ("|" + ((q + "|" + next) + rest))
  {
  }

  lemma Nested(e: Entry)
    ensures MergeKey(e)
         == e.serverId + ("|" + (e.source + ("|" + (e.event + ("|" + (e.clientIp + ("|" + (e.host + ""))))))))
  {
  }

  /** A bar in a field can be taken for the one between it and its neighbour. */
  lemma BarsConfuse(a: Entry) returns (b: Entry)
    requires !NoBars(a)
    ensures MergeKey(b) == MergeKey(a) && !SameThing(a, b)
  {
    Nested(a);
    if !Plain(a.serverId) {
      var p, q := SplitAtBar(a.serverId);
      b := a.(serverId := p, source := q + "|" + a.source);
      Shift(p, q, a.source, "|" + (a.event + ("|" + (a.clientIp + ("|" + (a.host + ""))))));
    } else if !Plain(a.source) {
      var p, q := SplitAtBar(a.source);
      b := a.(source := p, event := q + "|" + a.event);
      Shift(p, q, a.event, "|" + (a.clientIp + ("|" + (a.host + ""))));
    } else if !Plain(a.event) {
      var p, q := SplitAtBar(a.event);
      b := a.(event := p, clientIp := q + "|" + a.clientIp);
      Shift(p, q, a.clientIp, "|" + (a.host + ""));
    } else if !Plain(a.clientIp) {
      var p, q := SplitAtBar(a.clientIp);
      b := a.(clientIp := p, host := q + "|" + a.host);
      Shift(p, q, a.host, "");
    } else {
      var p, q := SplitAtBar(a.host);
      b := a.(clientIp := a.clientIp + "|" + p, host := q);
      Shift(a.clientIp, p, q, "");
    }
    Nested(b);
  }

  /** The key of an event tells it from every different event exactly when none of its five fields holds a bar. */
  lemma KeyTellsApartIff(a: Entry)
    ensures (forall b :: MergeKey(b) == MergeKey(a) ==> SameThing(a, b)) <==> NoBars(a)
  {
    if NoBars(a) {
      forall b | MergeKey(b) == MergeKey(a) ensures SameThing(a, b) {
        NoBarsInKey(a);
        NoBarsInKey(b);
        KeyTellsApart(a, b);
      }
    } else {
      var b := BarsConfuse(a);
    }
  }

  // ============================================================== the class

  /** Deleting the keys of a batch one by one removes exactly the batch. */
  lemma DeleteFirst(q: Queue)
    requires WellFormed(q) && q != []
    ensures Delete(q, MergeKey(q[0].1)) == q[1..] && WellFormed(q[1..])
  {
    assert Find(q, q[0].0) == 0;
    RestIsWellFormed(q, 1);
  }

  class Emitter {
    const cfg: Config
    const enabled: bool
    var queue: Queue
    var dropped: nat
    ghost var accepted: seq<Entry>
    ghost var flushed: seq<Entry>
    ghost var created: seq<string>

    ghost function Now(): State
      reads this
    {
      State(queue, dropped, accepted, flushed, created)
    }

    constructor (cfg: Config, enabled: bool)
      ensures this.cfg == cfg && this.enabled == enabled && Now() == START && Orderly(cfg, Now())
    {
      this.cfg, this.enabled := cfg, enabled;
      queue, dropped, accepted, flushed, created := [], 0, [], [], [];
    }

    method RecordEvent(report: Entry, count: int) returns (kept: bool)
      requires Orderly(cfg, Now())
      modifies this
      ensures Orderly(cfg, Now())
      ensures if enabled && report.serverId != "" && report.event != ""
              then Now() == Step(cfg, old(Now()), Record(report, count)) && kept == Kept(cfg, old(queue), report)
              else Now() == old(Now()) && !kept
    {
      if !enabled || report.serverId == "" || report.event == "" {
        return false;
      }
      StepIsOrderly(cfg, Now(), Record(report, count));
      var e := Clamped(report, count);
      var key := MergeKey(e);
      var i := Find(queue, key);
      if i < |queue| {
        queue := queue[i := (queue[i].0, Merge(queue[i].1, e))];
        accepted := accepted + [e];
        return true;
      }
      if |queue| >= cfg.queueMax {
        dropped := dropped + 1;
        return false;
      }
      queue := queue + [(key, e)];
      accepted := accepted + [e];
      created := created + [key];
      return true;
    }

    method TakeBatch() returns (events: seq<Entry>)
      requires Orderly(cfg, Now())
      modifies this
      ensures Orderly(cfg, Now())
      ensures events == if enabled then Batch(cfg, old(queue)) else []
      ensures Now() == if enabled then Step(cfg, old(Now()), Flush) else old(Now())
    {
      if !enabled || queue == [] {
        return [];
      }
      StepIsOrderly(cfg, Now(), Flush);
      events := Batch(cfg, queue);
      for i := 0 to |events|
        invariant queue == old(queue)[i..] && WellFormed(queue)
        invariant dropped == old(dropped) && accepted == old(accepted)
        invariant flushed == old(flushed) && created == old(created)
      {
        DeleteFirst(queue);
        assert queue[0] == old(queue)[i] && queue[1..] == old(queue)[i + 1..];
        queue := Delete(queue, MergeKey(events[i]));
      }
      dropped := 0;
      flushed := flushed + events;
    }
  }
}
