/**
 * One reader of one live state watch, over everything else that happens
 * (webserver/src/websocket/stateWatch.js:53-200).
 */
module WatchReaders {

  import opened Options
  import opened WatchLog
  import opened StateWatch

  // ================================================================ the reader

  /** A reader of the watch: what it holds, and the read it is waiting for. */
  datatype Client = Client(follower: Follower, waiting: Option<ReaderId>)

  /** A read of the watch by one of the reader's ids that is not refused. */
  ghost predicate Reads(w: Watches, e: Event, j: JobId, mine: set<ReaderId>) {
    && e.Read? && e.reader in mine && e.id == j
    && InTable(w, j) && w.jobs[j].server == e.server && NewReaderId(w, e.reader)
  }

  predicate AtOnce(job: Job, cursor: int, waitMs: int) {
    |Ask(job.log, cursor).states| > 0 || job.done || waitMs <= 0
  }

  /** The answer the event gives the reader, if any: at once, or when a released read runs on. */
  ghost function Answers(w: Watches, e: Event, j: JobId, mine: set<ReaderId>): Option<Answer> {
    if Reads(w, e, j, mine) && AtOnce(w.jobs[j], e.cursor, e.waitMs) then Some(Ask(w.jobs[j].log, e.cursor))
    else if e.Resume? && e.reader in mine && e.reader in w.readers && w.readers[e.reader].Woken?
            && w.readers[e.reader].job == j && j in w.jobs then
      Some(Ask(w.jobs[j].log, w.readers[e.reader].cursor))
    else None
  }

  ghost function Next(w: Watches, c: Client, e: Event, j: JobId, mine: set<ReaderId>): Client {
    match Answers(w, e, j, mine)
    case Some(a) => Client(Take(c.follower, a), None)
    case None => if Reads(w, e, j, mine) then c.(waiting := Some(e.reader)) else c
  }

  /** The reader reads with the cursor it was given last, one read at a time. */
  ghost predicate Obeys(w: Watches, c: Client, events: seq<Event>, j: JobId, mine: set<ReaderId>)
    decreases |events|
  {
    if events == [] then true
    else
      && (Reads(w, events[0], j, mine) ==> c.waiting.None? && events[0].cursor == c.follower.cursor)
      && Obeys(Step(w, events[0]), Next(w, c, events[0], j, mine), events[1..], j, mine)
  }

  /** Whenever the reader has been answered, it holds the watch's picture of that moment. */
  ghost predicate HoldsWhenAnswered(w: Watches, c: Client, events: seq<Event>, j: JobId, mine: set<ReaderId>,
                                    history: seq<EntityState>)
    decreases |events|
  {
    if events == [] then true
    else
      var e := events[0];
      var w', c', history' := Step(w, e), Next(w, c, e, j, mine), history + Told(w, e, j);
      && (Answers(w, e, j, mine).Some? ==>
            j in w'.jobs && c'.follower.view == Picture(w'.jobs[j].log.latest) == Picture(history'))
      && HoldsWhenAnswered(w', c', events[1..], j, mine, history')
  }

  predicate WaitsAt(w: Watches, c: Client, j: JobId, r: ReaderId) {
    r in w.readers && w.readers[r].job == j ==> c.waiting == Some(r) && w.readers[r].cursor == c.follower.cursor
  }

  /** What the reader holds is the picture at its cursor, and its only read that is open is the one it waits for. */
  ghost predicate InStep(w: Watches, c: Client, j: JobId, mine: set<ReaderId>, history: seq<EntityState>) {
    && ToldAll(w, j, history) && Behind(c.follower, history)
    && forall r :: r in mine ==> WaitsAt(w, c, j, r)
  }

  lemma BehindGrows(f: Follower, history: seq<EntityState>, more: seq<EntityState>)
    requires Behind(f, history)
    ensures Behind(f, history + more)
  {
    assert (history + more)[..f.cursor] == history[..f.cursor];
  }

  lemma CaughtUp(f: Follower, history: seq<EntityState>)
    requires f == Follower(|history|, Picture(history))
    ensures Behind(f, history)
  {
    assert history[..|history|] == history;
  }

  /** Readers keep their job and cursor while they wait. */
  lemma ReadersStay(w: Watches, e: Event, r: ReaderId)
    requires r in Step(w, e).readers && !(e.Read? && e.reader == r)
    ensures r in w.readers && Step(w, e).readers[r].job == w.readers[r].job
    ensures Step(w, e).readers[r].cursor == w.readers[r].cursor
    ensures e.Resume? && e.reader == r && w.readers[r].Woken? ==> w.readers[r].job !in w.jobs
  {
  }

  lemma ReaderParks(w: Watches, e: Event)
    requires e.Read? && e.reader in Step(w, e).readers
    ensures (e.reader in w.readers && Step(w, e).readers[e.reader] == w.readers[e.reader])
         || (Step(w, e).readers[e.reader].job == e.id && Step(w, e).readers[e.reader].cursor == e.cursor
             && e.reader !in w.readers && InTable(w, e.id) && w.jobs[e.id].server == e.server
             && NewReaderId(w, e.reader)
             && !AtOnce(w.jobs[e.id], e.cursor, e.waitMs))
  {
  }

  lemma WaitsNext(w: Watches, c: Client, e: Event, j: JobId, mine: set<ReaderId>, r: ReaderId)
    requires r in mine && (forall q :: q in mine ==> WaitsAt(w, c, j, q))
    requires Reads(w, e, j, mine) ==> c.waiting.None? && e.cursor == c.follower.cursor
    ensures WaitsAt(Step(w, e), Next(w, c, e, j, mine), j, r)
  {
    assert WaitsAt(w, c, j, r);
    if r in Step(w, e).readers {
      if e.Read? && e.reader == r {
        ReaderParks(w, e);
      } else {
        ReadersStay(w, e, r);
        if e.Resume? {
          assert e.reader in mine ==> WaitsAt(w, c, j, e.reader);
        }
      }
    }
  }

  /** An answer brings the reader exactly up to date. */
  lemma AnswerCatchesUp(w: Watches, c: Client, e: Event, j: JobId, mine: set<ReaderId>, history: seq<EntityState>)
    requires InStep(w, c, j, mine, history) && Answers(w, e, j, mine).Some?
    requires Reads(w, e, j, mine) ==> e.cursor == c.follower.cursor
    ensures Next(w, c, e, j, mine).follower == Follower(|history|, Picture(history)) && Told(w, e, j) == []
    ensures j in Step(w, e).jobs && Step(w, e).jobs[j].log == w.jobs[j].log
  {
    if e.Resume? {
      assert WaitsAt(w, c, j, e.reader);
    }
    ReadCatchesUp(w.jobs[j].log, history, c.follower);
  }

  lemma StepInStep(w: Watches, c: Client, e: Event, j: JobId, mine: set<ReaderId>, history: seq<EntityState>)
    requires InStep(w, c, j, mine, history)
    requires Reads(w, e, j, mine) ==> c.waiting.None? && e.cursor == c.follower.cursor
    ensures InStep(Step(w, e), Next(w, c, e, j, mine), j, mine, history + Told(w, e, j))
    ensures Answers(w, e, j, mine).Some? ==>
      Next(w, c, e, j, mine).follower == Follower(|history|, Picture(history)) && Told(w, e, j) == []
      && j in Step(w, e).jobs
  {
    StepTells(w, e, j, history);
    BehindGrows(c.follower, history, Told(w, e, j));
    if Answers(w, e, j, mine).Some? {
      AnswerCatchesUp(w, c, e, j, mine, history);
      CaughtUp(Next(w, c, e, j, mine).follower, history);
      assert history + [] == history;
    }
    forall r | r in mine ensures WaitsAt(Step(w, e), Next(w, c, e, j, mine), j, r) {
      WaitsNext(w, c, e, j, mine, r);
    }
  }

  lemma {:induction false} RunInStep(w: Watches, c: Client, events: seq<Event>, j: JobId, mine: set<ReaderId>,
                                     history: seq<EntityState>)
    requires InStep(w, c, j, mine, history) && Obeys(w, c, events, j, mine)
    ensures HoldsWhenAnswered(w, c, events, j, mine, history)
    decreases |events|
  {
    if events != [] {
      var e := events[0];
      var w', c', history' := Step(w, e), Next(w, c, e, j, mine), history + Told(w, e, j);
      StepInStep(w, c, e, j, mine, history);
      if Answers(w, e, j, mine).Some? {
        assert history' == history;
      }
      RunInStep(w', c', events[1..], j, mine, history');
    }
  }

  /**
   * A reader that starts at cursor 0 and reads the watch with the cursors it is
   * given, waiting or not, holds the watch's live picture whenever it is answered,
   * and that is the picture of the watch's own frames: in every run, whatever other
   * frames, readers, timeouts, cancellations and sweeps there are.
   */
  lemma ReaderHoldsThePicture(events: seq<Event>, j: JobId, mine: set<ReaderId>)
    requires Obeys(NOTHING, Client(NEW_READER, None), events, j, mine)
    ensures HoldsWhenAnswered(NOTHING, Client(NEW_READER, None), events, j, mine, [])
  {
    RunInStep(NOTHING, Client(NEW_READER, None), events, j, mine, []);
  }
}
