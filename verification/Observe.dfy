/**
 * Lamps that follow a live source: observing, going stale, and the state that is shown
 * (catalogue/lib/observe.js:12-156, 158-228, catalogue/lib/stale.js:9-31, catalogue/lib/refresh.js:84-94).
 * Times are milliseconds.
 */
module Observe {
  import opened Options

  const DEFAULT_STALE_AFTER_HOURS := 24.0
  const MIN_STALE_AFTER_HOURS := 1.0
  const MS_PER_HOUR := 3600000.0
  const BATCH_OBSERVE_MINUTES := 5

  type Params = map<string, string>

  /** `hours` and `minutes` are the settings read as numbers; `None` is anything that is not a finite (whole) number. */
  datatype Schedule = Schedule(hours: Option<real>, minutes: Option<int>, state: bool, observedAt: Option<int>,
                               params: Params)

  /** A catalogue entry; `live` says that its schedule is of the observing kind. */
  datatype Entry = Entry(id: string, live: bool, schedule: Schedule)

  /** What fetching the source gave. */
  datatype Fetched = Seen(on: bool, params: Params) | Failed(message: string)

  // ================================================================= one entry

  function StaleAfterHours(s: Schedule): (h: real)
    ensures h >= MIN_STALE_AFTER_HOURS
  {
    if s.hours.Some? && s.hours.value >= MIN_STALE_AFTER_HOURS then s.hours.value else DEFAULT_STALE_AFTER_HOURS
  }

  /** How old a success may be, in milliseconds. */
  function Patience(s: Schedule): real { StaleAfterHours(s) * MS_PER_HOUR }

  predicate ObservationIsStale(e: Entry, now: int) {
    e.live && e.schedule.observedAt.Some? && (now - e.schedule.observedAt.value) as real > Patience(e.schedule)
  }

  function ApplyObservation(e: Entry, on: bool, params: Params, now: int): Entry {
    e.(schedule := e.schedule.(state := on, observedAt := Some(now),
                               params := (e.schedule.params + params) - {"stale", "lastError"}))
  }

  function ForceStaleOff(e: Entry, message: string): Entry {
    e.(schedule := e.schedule.(state := false, params := e.schedule.params["stale" := "true"]["lastError" := message]))
  }

  function ObserveOne(e: Entry, fetched: Fetched, now: int): Entry {
    if !e.live then e
    else
      match fetched
      case Seen(on, params) => ApplyObservation(e, on, params, now)
      case Failed(message) => if ObservationIsStale(e, now) then ForceStaleOff(e, message) else e
  }

  /** The state the switch is driven to. */
  predicate DesiredState(e: Entry, now: int)
    requires e.live
  {
    if ObservationIsStale(e, now) then false else e.schedule.state
  }

  // ========================================= last success wins, until it is stale

  datatype Observation = Observation(now: int, fetched: Fetched)

  function Run(e: Entry, history: seq<Observation>): Entry {
    if history == [] then e
    else
      var n := |history| - 1;
      ObserveOne(Run(e, history[..n]), history[n].fetched, history[n].now)
  }

  predicate Ordered(history: seq<Observation>, now: int) {
    if history == [] then true
    else
      var n := |history| - 1;
      history[n].now <= now && Ordered(history[..n], history[n].now)
  }

  /** When the last success was, and what it said. */
  function LastSuccess(history: seq<Observation>): Option<(int, bool)> {
    if history == [] then None
    else
      var n := |history| - 1;
      if history[n].fetched.Seen? then Some((history[n].now, history[n].fetched.on)) else LastSuccess(history[..n])
  }

  /** Since the last success, an observation has failed after it had gone stale. */
  predicate FailedLate(history: seq<Observation>, patience: real) {
    if history == [] || history[|history| - 1].fetched.Seen? then false
    else
      var n := |history| - 1;
      var success := LastSuccess(history[..n]);
      (success.Some? && (history[n].now - success.value.0) as real > patience) || FailedLate(history[..n], patience)
  }

  predicate NeverFetched(e: Entry) {
    e.live && !e.schedule.state && e.schedule.observedAt.None? && "stale" !in e.schedule.params
  }

  /** A late failure is still late afterwards. */
  lemma {:induction false} LateStaysLate(history: seq<Observation>, patience: real, now: int)
    requires Ordered(history, now) && FailedLate(history, patience)
    ensures LastSuccess(history).Some? && (now - LastSuccess(history).value.0) as real > patience
  {
    var n := |history| - 1;
    if FailedLate(history[..n], patience) {
      LateStaysLate(history[..n], patience, history[n].now);
    }
  }

  /** What the stored entry holds after any run. */
  lemma {:induction false} StoredState(e: Entry, history: seq<Observation>)
    requires NeverFetched(e)
    ensures var s, success := Run(e, history), LastSuccess(history);
            && s.id == e.id && s.live
            && s.schedule.hours == e.schedule.hours && s.schedule.minutes == e.schedule.minutes
            && s.schedule.observedAt == (if success.Some? then Some(success.value.0) else None)
            && (s.schedule.state <==> success.Some? && success.value.1 && !FailedLate(history, Patience(e.schedule)))
            && ("stale" in s.schedule.params <==> FailedLate(history, Patience(e.schedule)))
  {
    if history != [] {
      StoredState(e, history[..|history| - 1]);
    }
  }

  /**
   * For every sequence of successes and failures, starting from a lamp that was
   * never fetched and is off: at any later time it is driven on exactly when the
   * last success said on and is no older than the lamp's patience. Failures never
   * show, except through age.
   */
  lemma LastSuccessWins(e: Entry, history: seq<Observation>, now: int)
    requires NeverFetched(e) && Ordered(history, now)
    ensures Run(e, history).live
    ensures DesiredState(Run(e, history), now) <==>
      LastSuccess(history).Some? && LastSuccess(history).value.1
      && (now - LastSuccess(history).value.0) as real <= Patience(e.schedule)
  {
    StoredState(e, history);
    if FailedLate(history, Patience(e.schedule)) {
      LateStaysLate(history, Patience(e.schedule), now);
    }
  }

  /** The stale mark is there exactly when a failure came too late, and goes with the next success. */
  lemma MarkedStale(e: Entry, history: seq<Observation>, now: int)
    requires NeverFetched(e) && Ordered(history, now)
    ensures "stale" in Run(e, history).schedule.params <==> FailedLate(history, Patience(e.schedule))
    ensures "stale" in Run(e, history).schedule.params ==>
              !Run(e, history).schedule.state && ObservationIsStale(Run(e, history), now)
  {
    StoredState(e, history);
    if FailedLate(history, Patience(e.schedule)) {
      LateStaysLate(history, Patience(e.schedule), now);
    }
  }

  // ============================================================= the catalogue

  predicate IsFastObserveSource(e: Entry) {
    e.schedule.minutes.Some? && 0 < e.schedule.minutes.value < BATCH_OBSERVE_MINUTES
  }

  predicate IsSlowObserveWaiting(e: Entry, now: int) {
    e.schedule.minutes.Some? && e.schedule.minutes.value > BATCH_OBSERVE_MINUTES
    && e.schedule.observedAt.Some? && now - e.schedule.observedAt.value < e.schedule.minutes.value * 60 * 1000
  }

  type Source = string -> Fetched

  /** Whether a pass observes the entry: asked for by name, or neither too fast nor too recent. */
  predicate Observed(e: Entry, only: seq<string>, now: int) {
    if only != [] then e.id in only else !IsFastObserveSource(e) && !IsSlowObserveWaiting(e, now)
  }

  function AfterPass(e: Entry, only: seq<string>, source: Source, now: int): Entry {
    if Observed(e, only, now) then ObserveOne(e, source(e.id), now) else e
  }

  predicate DistinctIds(entries: seq<Entry>) {
    forall i, j :: 0 <= i < j < |entries| ==> entries[i].id != entries[j].id
  }

  lemma SameIdSameEntry(entries: seq<Entry>, i: nat, e: Entry)
    requires DistinctIds(entries) && i < |entries| && e in entries && entries[i].id == e.id
    ensures entries[i] == e
  {
  }

  function Selected(entries: seq<Entry>, only: seq<string>): (s: seq<Entry>)
    ensures forall e :: e in s <==> e in entries && (only == [] || e.id in only)
  {
    if entries == [] then []
    else
      var rest := Selected(entries[1..], only);
      assert entries == [entries[0]] + entries[1..];
      if only == [] || entries[0].id in only then [entries[0]] + rest else rest
  }

  /** After those of `done`: exactly the ones to be observed have a replacement, each its own. */
  ghost predicate Recorded(entries: seq<Entry>, done: seq<Entry>, replacements: map<string, Entry>,
                           only: seq<string>, source: Source, now: int)
  {
    forall i :: 0 <= i < |entries| ==>
      && (entries[i].id in replacements <==> entries[i] in done && Observed(entries[i], only, now))
      && (entries[i].id in replacements ==>
            replacements[entries[i].id] == ObserveOne(entries[i], source(entries[i].id), now))
  }

  lemma RecordOne(entries: seq<Entry>, done: seq<Entry>, e: Entry, replacements: map<string, Entry>,
                  only: seq<string>, source: Source, now: int)
    requires DistinctIds(entries) && e in entries && Recorded(entries, done, replacements, only, source, now)
    ensures var next := if Observed(e, only, now) then replacements[e.id := ObserveOne(e, source(e.id), now)]
                        else replacements;
            Recorded(entries, done + [e], next, only, source, now)
  {
    forall i | 0 <= i < |entries| && entries[i].id == e.id ensures entries[i] == e {
      SameIdSameEntry(entries, i, e);
    }
  }

  method ObserveSelected(entries: seq<Entry>, selected: seq<Entry>, only: seq<string>, source: Source, now: int)
    returns (replacements: map<string, Entry>)
    requires DistinctIds(entries) && forall e :: e in selected ==> e in entries && (only == [] || e.id in only)
    ensures Recorded(entries, selected, replacements, only, source, now)
  {
    replacements := map[];
    for k := 0 to |selected|
      invariant Recorded(entries, selected[..k], replacements, only, source, now)
    {
      var e := selected[k];
      assert e in selected && selected[..k + 1] == selected[..k] + [e];
      RecordOne(entries, selected[..k], e, replacements, only, source, now);
      if only == [] && (IsFastObserveSource(e) || IsSlowObserveWaiting(e, now)) {
        continue;
      }
      replacements := replacements[e.id := ObserveOne(e, source(e.id), now)];
    }
    assert selected[..|selected|] == selected;
  }

  lemma PassReplaces(entries: seq<Entry>, only: seq<string>, replacements: map<string, Entry>, source: Source,
                     now: int, i: nat)
    requires Recorded(entries, Selected(entries, only), replacements, only, source, now) && i < |entries|
    ensures AfterPass(entries[i], only, source, now)
         == if entries[i].id in replacements then replacements[entries[i].id] else entries[i]
  {
    assert entries[i] in entries;
  }

  /**
   * One pass over the catalogue. `None`: a name was asked for that does not exist
   * (or a listed name occurs twice).
   */
  method ObserveCatalogue(entries: seq<Entry>, only: seq<string>, source: Source, now: int)
    returns (result: Option<seq<Entry>>)
    requires DistinctIds(entries)
    ensures result.None? <==> only != [] && |Selected(entries, only)| != |only|
    ensures result.Some? ==> |result.value| == |entries|
    ensures result.Some? ==>
      forall i :: 0 <= i < |entries| ==> result.value[i] == AfterPass(entries[i], only, source, now)
  {
    var selected := Selected(entries, only);
    if only != [] && |selected| != |only| {
      return None;
    }
    var replacements := ObserveSelected(entries, selected, only, source, now);
    hide *;
    var out := [];
    for i := 0 to |entries|
      invariant |out| == i && forall j :: 0 <= j < i ==> out[j] == AfterPass(entries[j], only, source, now)
    {
      PassReplaces(entries, only, replacements, source, now, i);
      out := out + [if entries[i].id in replacements then replacements[entries[i].id] else entries[i]];
    }
    return Some(out);
  }

  /** A visit of a pass to one entry. */
  datatype Visit = Visit(only: seq<string>, source: Source, now: int)

  function Visited(e: Entry, visits: seq<Visit>): Entry {
    if visits == [] then e
    else
      var n := |visits| - 1;
      AfterPass(Visited(e, visits[..n]), visits[n].only, visits[n].source, visits[n].now)
  }

  /** The observations those passes really made of it. */
  function Made(e: Entry, visits: seq<Visit>): seq<Observation> {
    if visits == [] then []
    else
      var n := |visits| - 1;
      Made(e, visits[..n])
      + if Observed(Visited(e, visits[..n]), visits[n].only, visits[n].now)
        then [Observation(visits[n].now, visits[n].source(e.id))] else []
  }

  predicate InOrder(visits: seq<Visit>, now: int) {
    if visits == [] then true
    else
      var n := |visits| - 1;
      visits[n].now <= now && InOrder(visits[..n], visits[n].now)
  }

  lemma OrderedLater(history: seq<Observation>, now: int, later: int)
    requires Ordered(history, now) && now <= later
    ensures Ordered(history, later)
  {
  }

  lemma {:induction false} VisitsAreRuns(e: Entry, visits: seq<Visit>, now: int)
    requires InOrder(visits, now)
    ensures Visited(e, visits) == Run(e, Made(e, visits)) && Ordered(Made(e, visits), now)
    ensures Visited(e, visits).id == e.id
  {
    if visits != [] {
      var n := |visits| - 1;
      var before := Made(e, visits[..n]);
      VisitsAreRuns(e, visits[..n], visits[n].now);
      if Observed(Visited(e, visits[..n]), visits[n].only, visits[n].now) {
        assert (before + [Observation(visits[n].now, visits[n].source(e.id))])[..|before|] == before;
      } else {
        assert before + [] == before;
        OrderedLater(before, visits[n].now, now);
      }
    }
  }

  /** Over any run of passes, skipped or not, the lamp shows its last success until that is stale. */
  lemma CatalogueShowsLastSuccess(e: Entry, visits: seq<Visit>, now: int)
    requires NeverFetched(e) && InOrder(visits, now)
    ensures var success := LastSuccess(Made(e, visits));
            Visited(e, visits).live
            && (DesiredState(Visited(e, visits), now) <==>
                  success.Some? && success.value.1 && (now - success.value.0) as real <= Patience(e.schedule))
  {
    VisitsAreRuns(e, visits, now);
    LastSuccessWins(e, Made(e, visits), now);
  }
}
