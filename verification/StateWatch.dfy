/**
 * Watches and their waiting readers (webserver/src/websocket/stateWatch.js:53-209).
 *
 * Each callback, timer and resumed `await` is one atomic step. A reader that waits
 * is parked: its wake closure is in the job's waiter set. When its own timer fires
 * first it runs on, but its closure stays in the set, as in the source.
 */
module StateWatch {
  import opened Options
  import opened WatchLog

  const MAX_WATCHES_PER_SERVER := 10
  const IDLE_TTL_MS := 3 * 60 * 1000

  type JobId = nat
  type ReaderId = nat
  type ServerId = string

  datatype Job = Job(server: ServerId, watching: seq<EntityId>, log: Log, done: bool, lastReadAt: int,
                     waiters: set<ReaderId>)

  /** A read that is waiting, or has been released and is about to answer. */
  datatype Reader =
    | Parked(job: JobId, cursor: int, parkedAt: nat)
    | Woken(job: JobId, cursor: int)

  /** `jobs` is every job object a closure may still hold; `table` the ids in the jobs Map. */
  datatype Watches = Watches(jobs: map<JobId, Job>, table: set<JobId>, readers: map<ReaderId, Reader>)

  // ------------------------------------------------------------- the steps

  ghost function Running(jobs: map<JobId, Job>, table: set<JobId>, server: ServerId): set<JobId> {
    set j | j in table && j in jobs && jobs[j].server == server && !jobs[j].done
  }

  predicate InTable(w: Watches, j: JobId) { j in w.table && j in w.jobs }

  /** Run every closure in the job's waiter set and clear it. */
  function Wake(w: Watches, j: JobId): Watches
    requires j in w.jobs
  {
    var waiters := w.jobs[j].waiters;
    Watches(
      w.jobs[j := w.jobs[j].(waiters := {})],
      w.table,
      map r | r in w.readers ::
        if r in waiters && w.readers[r].Parked? then Woken(w.readers[r].job, w.readers[r].cursor)
        else w.readers[r])
  }

  function SetDone(w: Watches, j: JobId): Watches
    requires j in w.jobs
  {
    w.(jobs := w.jobs[j := w.jobs[j].(done := true)])
  }

  /** `_end`: mark done, wake everyone, forget the job. */
  function End(w: Watches, j: JobId): Watches
    requires j in w.jobs
  {
    var woken := Wake(SetDone(w, j), j);
    woken.(table := woken.table - {j})
  }

  datatype Event =
    | Start(id: JobId, server: ServerId, watching: seq<EntityId>, sent: bool, now: int)
    | Frame(id: JobId, items: seq<Item>)       // a parsed states frame
    | HomeClosed(id: JobId)                    // ws_close or a lost relay
    | Read(reader: ReaderId, id: JobId, server: ServerId, cursor: int, waitMs: int, now: int)
    | Timeout(reader: ReaderId)
    | Resume(reader: ReaderId, now: int)
    | Cancel(id: JobId, server: ServerId)
    | SweepOne(id: JobId, now: int)            // the sweep's turn at one job

  /** A reader's closure and promise are its own: the id is new to everything. */
  ghost predicate NewReaderId(w: Watches, r: ReaderId) {
    r !in w.readers && forall j :: j in w.jobs ==> r !in w.jobs[j].waiters
  }

  predicate Idle(job: Job, now: int) { now - job.lastReadAt > IDLE_TTL_MS }

  function BeginRead(w: Watches, r: ReaderId, j: JobId, cursor: int, waitMs: int, now: int): Watches
    requires j in w.jobs
  {
    var job := w.jobs[j].(lastReadAt := now);
    if |Ask(job.log, cursor).states| > 0 || job.done || waitMs <= 0 then w.(jobs := w.jobs[j := job])
    else
      w.(jobs := w.jobs[j := job.(waiters := job.waiters + {r})],
         readers := w.readers[r := Parked(j, cursor, job.log.seqNo)])
  }

  ghost function Step(w: Watches, e: Event): Watches {
    match e
    case Start(id, server, watching, sent, now) =>
      if id in w.jobs || |Running(w.jobs, w.table, server)| >= MAX_WATCHES_PER_SERVER || !sent then w
      else w.(jobs := w.jobs[id := Job(server, watching, FRESH_LOG, false, now, {})], table := w.table + {id})
    case Frame(id, items) =>
      if !InTable(w, id) || w.jobs[id].done then w
      else
        var job := w.jobs[id];
        Wake(w.(jobs := w.jobs[id := job.(log := OnStates(job.log, Watched(items, job.watching)))]), id)
    case HomeClosed(id) => if InTable(w, id) then Wake(SetDone(w, id), id) else w
    case Read(r, id, server, cursor, waitMs, now) =>
      if !InTable(w, id) || w.jobs[id].server != server || !NewReaderId(w, r) then w
      else BeginRead(w, r, id, cursor, waitMs, now)
    case Timeout(r) =>
      if r in w.readers && w.readers[r].Parked?
      then w.(readers := w.readers[r := Woken(w.readers[r].job, w.readers[r].cursor)])
      else w
    case Resume(r, now) =>
      if r in w.readers && w.readers[r].Woken? && w.readers[r].job in w.jobs
      then
        var j := w.readers[r].job;
        Watches(w.jobs[j := w.jobs[j].(lastReadAt := now)], w.table, w.readers - {r})
      else w
    case Cancel(id, server) => if InTable(w, id) && w.jobs[id].server == server then End(w, id) else w
    case SweepOne(id, now) => if InTable(w, id) && Idle(w.jobs[id], now) then End(w, id) else w
  }

  const NOTHING := Watches(map[], {}, map[])

  ghost function Run(w: Watches, events: seq<Event>): Watches
    decreases |events|
  {
    if events == [] then w else Run(Step(w, events[0]), events[1..])
  }

  // ----------------------------------------------------------- no lost wakeup

  /** A parked reader's job is running, still has nothing for it, and holds its wake closure. */
  predicate WellParked(w: Watches, r: ReaderId)
    requires r in w.readers
  {
    w.readers[r].Parked? ==>
      var Parked(j, cursor, parkedAt) := w.readers[r];
      && InTable(w, j) && !w.jobs[j].done
      && r in w.jobs[j].waiters
      && w.jobs[j].log.seqNo == parkedAt
      && Ask(w.jobs[j].log, cursor).states == []
  }

  ghost predicate NoLostWakeup(w: Watches) { forall r :: r in w.readers ==> WellParked(w, r) }

  /** A closure in one job's waiter set belongs to no other job's. */
  ghost predicate OwnWaiters(w: Watches) {
    forall i, j, r :: i in w.jobs && j in w.jobs && r in w.jobs[i].waiters && r in w.jobs[j].waiters ==> i == j
  }

  ghost predicate WithinCap(w: Watches) {
    forall s :: |Running(w.jobs, w.table, s)| <= MAX_WATCHES_PER_SERVER
  }

  ghost predicate Inv(w: Watches) { NoLostWakeup(w) && OwnWaiters(w) && WithinCap(w) }

  /** No reader is left waiting on this job. */
  ghost predicate NobodyParked(w: Watches, j: JobId) {
    forall r :: r in w.readers && w.readers[r].Parked? ==> w.readers[r].job != j
  }

  /** Waking releases every reader parked on the job, whatever was just done to it, and no one else. */
  lemma WakeReleases(before: Watches, w: Watches, j: JobId)
    requires NoLostWakeup(before) && OwnWaiters(before)
    requires j in before.jobs && w.table == before.table && w.readers == before.readers
    requires exists job :: w.jobs == before.jobs[j := job] && job.waiters == before.jobs[j].waiters
    ensures NobodyParked(Wake(w, j), j)
    ensures NoLostWakeup(Wake(w, j)) && OwnWaiters(Wake(w, j))
  {
    var w' := Wake(w, j);
    forall r | r in w'.readers
      ensures WellParked(w', r)
      ensures w'.readers[r].Parked? ==> w'.readers[r].job != j
    {
      assert WellParked(before, r);
    }
  }

  lemma EndReleases(w: Watches, j: JobId)
    requires NoLostWakeup(w) && OwnWaiters(w) && j in w.jobs
    ensures NobodyParked(End(w, j), j) && NoLostWakeup(End(w, j)) && OwnWaiters(End(w, j))
  {
    var job := w.jobs[j].(done := true);
    assert SetDone(w, j).jobs == w.jobs[j := job];
    WakeReleases(w, SetDone(w, j), j);
    var woken, w' := Wake(SetDone(w, j), j), End(w, j);
    forall r | r in w'.readers
      ensures WellParked(w', r)
    {
      assert WellParked(woken, r);
    }
  }

  lemma FrameReleases(w: Watches, id: JobId, items: seq<Item>)
    requires NoLostWakeup(w) && OwnWaiters(w) && InTable(w, id) && !w.jobs[id].done
    ensures var w' := Step(w, Frame(id, items)); NobodyParked(w', id) && NoLostWakeup(w') && OwnWaiters(w')
  {
    var job := w.jobs[id].(log := OnStates(w.jobs[id].log, Watched(items, w.jobs[id].watching)));
    assert w.jobs[id := job] == w.jobs[id := job];
    WakeReleases(w, w.(jobs := w.jobs[id := job]), id);
  }

  lemma CloseReleases(w: Watches, id: JobId)
    requires NoLostWakeup(w) && OwnWaiters(w) && InTable(w, id)
    ensures var w' := Step(w, HomeClosed(id)); NobodyParked(w', id) && NoLostWakeup(w') && OwnWaiters(w')
  {
    assert SetDone(w, id).jobs == w.jobs[id := w.jobs[id].(done := true)];
    WakeReleases(w, SetDone(w, id), id);
  }

  /** Starting, reading, timing out and running on concern no other reader. */
  lemma QuietStepParks(w: Watches, e: Event)
    requires NoLostWakeup(w) && OwnWaiters(w)
    requires e.Start? || e.Read? || e.Timeout? || e.Resume?
    ensures NoLostWakeup(Step(w, e)) && OwnWaiters(Step(w, e))
  {
    var w' := Step(w, e);
    forall r | r in w'.readers
      ensures WellParked(w', r)
    {
      if r in w.readers {
        assert WellParked(w, r);
      }
    }
  }

  lemma StepParks(w: Watches, e: Event)
    requires NoLostWakeup(w) && OwnWaiters(w)
    ensures NoLostWakeup(Step(w, e)) && OwnWaiters(Step(w, e))
  {
    match e {
      case Frame(id, items) => if InTable(w, id) && !w.jobs[id].done { FrameReleases(w, id, items); }
      case HomeClosed(id) => if InTable(w, id) { CloseReleases(w, id); }
      case Cancel(id, _) => if id in w.jobs { EndReleases(w, id); }
      case SweepOne(id, _) => if id in w.jobs { EndReleases(w, id); }
      case _ => QuietStepParks(w, e);
    }
  }

  // -------------------------------------------------------------- the cap

  lemma SubsetBound<T>(a: set<T>, b: set<T>, n: nat)
    requires a <= b && |b| <= n
    ensures |a| <= n
  {
    assert b == a + (b - a);
  }

  /** No job changes hands, and none comes back to running or into the table. */
  ghost predicate OnlyEnds(w: Watches, w': Watches) {
    && w'.table <= w.table
    && forall j :: j in w'.jobs && j in w'.table && !w'.jobs[j].done ==>
         j in w.jobs && !w.jobs[j].done && w.jobs[j].server == w'.jobs[j].server
  }

  lemma StepOnlyEnds(w: Watches, e: Event)
    requires !e.Start?
    ensures OnlyEnds(w, Step(w, e))
  {
  }

  lemma RunningOneMore(jobs: map<JobId, Job>, table: set<JobId>, j: JobId, server: ServerId)
    requires j !in table
    ensures |Running(jobs, table + {j}, server)|
         == |Running(jobs, table, server)| + if j in jobs && jobs[j].server == server && !jobs[j].done then 1 else 0
  {
    assert Running(jobs, table + {j}, server)
        == Running(jobs, table, server) + if j in jobs && jobs[j].server == server && !jobs[j].done then {j} else {};
  }

  lemma RunningStarted(jobs: map<JobId, Job>, table: set<JobId>, id: JobId, job: Job, server: ServerId)
    requires id !in jobs
    ensures Running(jobs[id := job], table + {id}, server)
         == Running(jobs, table, server) + if job.server == server && !job.done then {id} else {}
  {
  }

  lemma StartRunning(w: Watches, e: Event, s: ServerId)
    requires e.Start? && WithinCap(w)
    ensures |Running(Step(w, e).jobs, Step(w, e).table, s)| <= MAX_WATCHES_PER_SERVER
  {
    var job := Job(e.server, e.watching, FRESH_LOG, false, e.now, {});
    if e.id !in w.jobs {
      RunningStarted(w.jobs, w.table, e.id, job, s);
    }
  }

  lemma StepWithinCap(w: Watches, e: Event)
    requires WithinCap(w)
    ensures WithinCap(Step(w, e))
  {
    var w' := Step(w, e);
    forall s
      ensures |Running(w'.jobs, w'.table, s)| <= MAX_WATCHES_PER_SERVER
    {
      if e.Start? {
        StartRunning(w, e, s);
      } else {
        StepOnlyEnds(w, e);
        SubsetBound(Running(w'.jobs, w'.table, s), Running(w.jobs, w.table, s), MAX_WATCHES_PER_SERVER);
      }
    }
  }

  lemma {:induction false} EveryRun(w: Watches, events: seq<Event>)
    requires Inv(w)
    ensures Inv(Run(w, events))
    decreases |events|
  {
    if events != [] {
      StepParks(w, events[0]);
      StepWithinCap(w, events[0]);
      EveryRun(Step(w, events[0]), events[1..]);
    }
  }

  /**
   * In every reachable state a parked reader's watch is running, its log has not
   * moved since it parked and has nothing after its cursor; and no home has more
   * than MAX_WATCHES_PER_SERVER running watches.
   */
  lemma ParkedMeansNothingNew(events: seq<Event>)
    ensures var w := Run(NOTHING, events);
            && (forall r :: r in w.readers && w.readers[r].Parked? ==>
                  var Parked(j, cursor, parkedAt) := w.readers[r];
                  && j in w.table && j in w.jobs && !w.jobs[j].done
                  && w.jobs[j].log.seqNo == parkedAt && Ask(w.jobs[j].log, cursor).states == [])
            && (forall s :: |Running(w.jobs, w.table, s)| <= MAX_WATCHES_PER_SERVER)
  {
    assert forall s :: Running(NOTHING.jobs, NOTHING.table, s) == {};
    EveryRun(NOTHING, events);
    var w := Run(NOTHING, events);
    forall r | r in w.readers && w.readers[r].Parked?
      ensures WellParked(w, r)
    {
    }
  }

  /** Every frame, close, cancel and idle sweep leaves nobody parked on its job. */
  lemma ReleasedByEveryEnding(events: seq<Event>, e: Event)
    requires var w := Run(NOTHING, events);
             match e
             case Frame(id, _) => InTable(w, id) && !w.jobs[id].done
             case HomeClosed(id) => InTable(w, id)
             case Cancel(id, server) => InTable(w, id) && w.jobs[id].server == server
             case SweepOne(id, now) => InTable(w, id) && Idle(w.jobs[id], now)
             case _ => false
    ensures NobodyParked(Step(Run(NOTHING, events), e), e.id)
  {
    assert forall s :: Running(NOTHING.jobs, NOTHING.table, s) == {};
    EveryRun(NOTHING, events);
    var w := Run(NOTHING, events);
    match e {
      case Frame(id, items) => FrameReleases(w, id, items);
      case HomeClosed(id) => CloseReleases(w, id);
      case Cancel(id, _) => EndReleases(w, id);
      case SweepOne(id, _) => EndReleases(w, id);
    }
  }

  // ------------------------------------------------------- logs and readers

  /** What an event tells a watch: the states of its own entities in a frame that it takes in. */
  function Told(w: Watches, e: Event, j: JobId): seq<EntityState> {
    if e.Frame? && e.id == j && InTable(w, j) && !w.jobs[j].done then Watched(e.items, w.jobs[j].watching) else []
  }

  ghost function History(w: Watches, events: seq<Event>, j: JobId): seq<EntityState>
    decreases |events|
  {
    if events == [] then [] else Told(w, events[0], j) + History(Step(w, events[0]), events[1..], j)
  }

  /** The watch's log is the numbered tail of what it was told; before it starts it has been told nothing. */
  ghost predicate ToldAll(w: Watches, j: JobId, history: seq<EntityState>) {
    if j in w.jobs then Keeps(w.jobs[j].log, history) else history == []
  }

  lemma StepTells(w: Watches, e: Event, j: JobId, history: seq<EntityState>)
    requires ToldAll(w, j, history)
    ensures ToldAll(Step(w, e), j, history + Told(w, e, j))
  {
    var states := Told(w, e, j);
    if j !in w.jobs {
      assert Keeps(FRESH_LOG, []);
    } else if e.Frame? && e.id == j && InTable(w, j) && !w.jobs[j].done {
      OnStatesKeeps(w.jobs[j].log, history, states);
    } else {
      assert history + [] == history;
    }
  }

  lemma HistoryUnfold(w: Watches, events: seq<Event>, j: JobId)
    ensures events == [] ==> History(w, events, j) == [] && Run(w, events) == w
    ensures events != [] ==>
              History(w, events, j) == Told(w, events[0], j) + History(Step(w, events[0]), events[1..], j)
    ensures events != [] ==> Run(w, events) == Run(Step(w, events[0]), events[1..])
  {
  }

  lemma {:induction false} RunTells(w: Watches, events: seq<Event>, j: JobId, history: seq<EntityState>)
    requires ToldAll(w, j, history)
    ensures ToldAll(Run(w, events), j, history + History(w, events, j))
    decreases |events|
  {
    hide *;
    HistoryUnfold(w, events, j);
    if events == [] {
      assert history + [] == history;
    } else {
      var told, rest := Told(w, events[0], j), History(Step(w, events[0]), events[1..], j);
      StepTells(w, events[0], j, history);
      RunTells(Step(w, events[0]), events[1..], j, history + told);
      assert history + told + rest == history + (told + rest);
    }
  }

  /**
   * In every run each watch's log is the numbered tail, and its picture the last
   * word, of exactly the states in the frames it took in; and a reader whose cursor
   * is behind always has something to read.
   */
  lemma EveryLogKeeps(events: seq<Event>, j: JobId, cursor: int)
    requires j in Run(NOTHING, events).jobs
    ensures var log, history := Run(NOTHING, events).jobs[j].log, History(NOTHING, events, j);
            && Keeps(log, history) && Picture(log.latest) == Picture(history)
            && (0 < log.seqNo && cursor < log.seqNo ==> Ask(log, cursor).states != [])
  {
    var log, history := Run(NOTHING, events).jobs[j].log, History(NOTHING, events, j);
    RunTells(NOTHING, events, j, []);
    assert [] + history == history;
    if 0 < log.seqNo && cursor < log.seqNo {
      ChangeIsSeen(log, history, cursor);
    }
  }

  /** A released reader that was up to date when it parked finds any later change waiting for it. */
  lemma ChangeIsSeen(log: Log, history: seq<EntityState>, cursor: int)
    requires Keeps(log, history) && history != [] && cursor < |history|
    ensures Ask(log, cursor).states != []
  {
    if NeedsFull(log, cursor) {
      var last := history[|history| - 1];
      PictureIsLast(history, last.entityId);
      assert last.entityId in Picture(log.latest);
    } else {
      var from := |history| - |log.changes|;
      assert |log.changes| > 0 ==> log.changes[0].seqNo == from + 1;
      SinceIsSuffix(log.changes, history, from, cursor);
    }
  }

  // ------------------------------------------------------------- the class

  function Release(readers: map<ReaderId, Reader>, waiters: set<ReaderId>): map<ReaderId, Reader> {
    map r | r in readers ::
      if r in waiters && readers[r].Parked? then Woken(readers[r].job, readers[r].cursor) else readers[r]
  }

  lemma ReleaseOneMore(readers: map<ReaderId, Reader>, waiters: set<ReaderId>, r: ReaderId)
    ensures var some := Release(readers, waiters);
            Release(readers, waiters + {r})
            == if r in some && some[r].Parked? then some[r := Woken(some[r].job, some[r].cursor)] else some
  {
  }

  function Sweeps(order: seq<JobId>, now: int): seq<Event> {
    if order == [] then [] else Sweeps(order[..|order| - 1], now) + [SweepOne(order[|order| - 1], now)]
  }

  lemma {:induction false} RunAppend(w: Watches, events: seq<Event>, e: Event)
    ensures Run(w, events + [e]) == Step(Run(w, events), e)
    decreases |events|
  {
    if events == [] {
      assert events + [e] == [e] && [e][1..] == [];
    } else {
      RunAppend(Step(w, events[0]), events[1..], e);
      assert (events + [e])[0] == events[0] && (events + [e])[1..] == events[1..] + [e];
    }
  }

  class StateWatchJobs {
    var jobs: map<JobId, Job>
    var table: set<JobId>
    var readers: map<ReaderId, Reader>

    ghost function State(): Watches
      reads this
    {
      Watches(jobs, table, readers)
    }

    constructor ()
      ensures State() == NOTHING
    {
      jobs, table, readers := map[], {}, map[];
    }

    /** How many of a home's watches are running. */
    method CountRunning(server: ServerId) returns (n: nat)
      ensures n == |Running(jobs, table, server)|
    {
      n := 0;
      var rest := table;
      ghost var seen: set<JobId> := {};
      while rest != {}
        invariant seen + rest == table && seen !! rest
        invariant n == |Running(jobs, seen, server)|
        decreases rest
      {
        var j :| j in rest;
        RunningOneMore(jobs, seen, j, server);
        if j in jobs && jobs[j].server == server && !jobs[j].done {
          n := n + 1;
        }
        seen := seen + {j};
        rest := rest - {j};
      }
      assert seen == table;
    }

    method Begin(id: JobId, server: ServerId, watching: seq<EntityId>, sent: bool, now: int)
      requires id !in jobs
      modifies this
      ensures State() == Step(old(State()), Start(id, server, watching, sent, now))
    {
      var running := CountRunning(server);
      if running >= MAX_WATCHES_PER_SERVER || !sent {
        return;
      }
      jobs := jobs[id := Job(server, watching, FRESH_LOG, false, now, {})];
      table := table + {id};
    }

    /** `_wake`. */
    method WakeAll(id: JobId)
      requires id in jobs
      modifies this
      ensures State() == Wake(old(State()), id)
    {
      var rest := jobs[id].waiters;
      ghost var run: set<ReaderId> := {};
      assert Release(readers, {}) == readers;
      while rest != {}
        invariant jobs == old(jobs) && table == old(table)
        invariant run + rest == jobs[id].waiters && run !! rest
        invariant readers == Release(old(readers), run)
        decreases rest
      {
        var r :| r in rest;
        ReleaseOneMore(old(readers), run, r);
        if r in readers && readers[r].Parked? {
          readers := readers[r := Woken(readers[r].job, readers[r].cursor)];
        }
        run := run + {r};
        rest := rest - {r};
      }
      assert run == jobs[id].waiters;
      jobs := jobs[id := jobs[id].(waiters := {})];
    }

    /** The loop over a frame's states: number, log and remember those of watched entities. */
    static method LogStates(before: Log, items: seq<Item>, watching: seq<EntityId>) returns (log: Log)
      ensures log == PushAll(before, Watched(items, watching))
    {
      log := before;
      var i := 0;
      assert items[0..] == items;
      while i < |items|
        invariant i <= |items|
        invariant PushAll(log, Watched(items[i..], watching)) == PushAll(before, Watched(items, watching))
      {
        assert items[i..] == [items[i]] + items[i + 1..];
        PushFirst(log, items[i], items[i + 1..], watching);
        if items[i].Named? && items[i].state.entityId in watching {
          log := Push(log, items[i].state);
        }
        i := i + 1;
      }
    }

    method OnData(id: JobId, items: seq<Item>)
      requires id in jobs && id in table
      modifies this
      ensures State() == Step(old(State()), Frame(id, items))
    {
      var job := jobs[id];
      if job.done {
        return;
      }
      var log := LogStates(job.log, items, job.watching);
      if |log.changes| > MAX_CHANGES {
        log := log.(changes := log.changes[|log.changes| - MAX_CHANGES..]);
      }
      jobs := jobs[id := job.(log := log)];
      WakeAll(id);
    }

    method OnClose(id: JobId)
      requires id in jobs && id in table
      modifies this
      ensures State() == Step(old(State()), HomeClosed(id))
    {
      jobs := jobs[id := jobs[id].(done := true)];
      WakeAll(id);
    }

    /** The part of `read` before its `await`; None means the reader is parked. */
    method ReadNow(r: ReaderId, id: JobId, server: ServerId, cursor: int, waitMs: int, now: int)
      returns (a: Option<Answer>)
      requires NewReaderId(State(), r) && id in jobs && id in table && jobs[id].server == server
      modifies this
      ensures State() == Step(old(State()), Read(r, id, server, cursor, waitMs, now))
      ensures a.Some? ==> a.value == Ask(jobs[id].log, cursor)
      ensures a.None? <==> r in readers
    {
      var job := jobs[id].(lastReadAt := now);
      var answer := Ask(job.log, cursor);
      if |answer.states| > 0 || job.done || waitMs <= 0 {
        jobs := jobs[id := job];
        return Some(answer);
      }
      jobs := jobs[id := job.(waiters := job.waiters + {r})];
      readers := readers[r := Parked(id, cursor, job.log.seqNo)];
      return None;
    }

    method OnTimeout(r: ReaderId)
      requires r in readers && readers[r].Parked?
      modifies this
      ensures State() == Step(old(State()), Timeout(r))
    {
      readers := readers[r := Woken(readers[r].job, readers[r].cursor)];
    }

    /** The part of `read` after its `await`. */
    method ReadOn(r: ReaderId, now: int) returns (a: Answer)
      requires r in readers && readers[r].Woken? && readers[r].job in jobs
      modifies this
      ensures State() == Step(old(State()), Resume(r, now))
      ensures a == Ask(old(jobs)[old(readers)[r].job].log, old(readers)[r].cursor)
    {
      var id, cursor := readers[r].job, readers[r].cursor;
      jobs := jobs[id := jobs[id].(lastReadAt := now)];
      readers := readers - {r};
      a := Ask(jobs[id].log, cursor);
    }

    method Finish(id: JobId)
      requires id in jobs
      modifies this
      ensures State() == End(old(State()), id)
    {
      jobs := jobs[id := jobs[id].(done := true)];
      WakeAll(id);
      table := table - {id};
    }

    method CancelWatch(id: JobId, server: ServerId) returns (ok: bool)
      modifies this
      ensures State() == Step(old(State()), Cancel(id, server))
      ensures ok <==> InTable(old(State()), id) && old(jobs)[id].server == server
    {
      if id !in table || id !in jobs || jobs[id].server != server {
        return false;
      }
      Finish(id);
      return true;
    }

    /** `sweep`: one turn per job, in whatever order the table gives them. */
    method Sweep(now: int) returns (ghost order: seq<JobId>)
      modifies this
      ensures State() == Run(old(State()), Sweeps(order, now))
      ensures forall j :: j in old(table) <==> j in order
    {
      order := [];
      var rest := table;
      while rest != {}
        invariant State() == Run(old(State()), Sweeps(order, now))
        invariant forall j :: j in old(table) <==> j in order || j in rest
        decreases rest
      {
        var id :| id in rest;
        RunAppend(old(State()), Sweeps(order, now), SweepOne(id, now));
        if id in table && id in jobs && now - jobs[id].lastReadAt > IDLE_TTL_MS {
          Finish(id);
        }
        rest := rest - {id};
        order := order + [id];
        assert order[..|order| - 1] + [id] == order;
      }
    }
  }

  lemma PushFirst(log: Log, item: Item, rest: seq<Item>, watching: seq<EntityId>)
    ensures PushAll(log, Watched([item] + rest, watching))
         == PushAll(if item.Named? && item.state.entityId in watching then Push(log, item.state) else log,
                    Watched(rest, watching))
  {
    assert ([item] + rest)[1..] == rest;
    if item.Named? && item.state.entityId in watching {
      var w := [item.state] + Watched(rest, watching);
      assert w[1..] == Watched(rest, watching);
    } else {
      assert [] + Watched(rest, watching) == Watched(rest, watching);
    }
  }
}
