/**
 * The numbered change log of a live state watch: what a frame does to it and what
 * a reader at a cursor is answered (webserver/src/websocket/stateWatch.js:97-124, 151-158).
 */
module WatchLog {
  /** Changes kept for readers that fall behind. */
  const MAX_CHANGES := 2000

  type EntityId = string

  datatype EntityState = EntityState(entityId: EntityId, body: string)

  /** One element of a frame's `states`: an object naming an entity, or something to skip. */
  datatype Item = Named(state: EntityState) | Junk

  datatype Change = Change(seqNo: nat, state: EntityState)

  /** `latest` is the source's Map: its values in the insertion order of their keys. */
  datatype Log = Log(latest: seq<EntityState>, changes: seq<Change>, seqNo: nat)

  const FRESH_LOG := Log([], [], 0)

  /** Setting a key of an insertion-ordered map: in place if it is there, else at the end. */
  function Set(latest: seq<EntityState>, s: EntityState): seq<EntityState> {
    if latest == [] then [s]
    else if latest[0].entityId == s.entityId then [s] + latest[1..]
    else [latest[0]] + Set(latest[1..], s)
  }

  function Push(log: Log, s: EntityState): Log {
    Log(Set(log.latest, s), log.changes + [Change(log.seqNo + 1, s)], log.seqNo + 1)
  }

  function PushAll(log: Log, states: seq<EntityState>): Log
    decreases |states|
  {
    if states == [] then log else PushAll(Push(log, states[0]), states[1..])
  }

  /** The states of a frame that name a watched entity, in order. */
  function Watched(items: seq<Item>, watching: seq<EntityId>): seq<EntityState> {
    if items == [] then []
    else
      (if items[0].Named? && items[0].state.entityId in watching then [items[0].state] else [])
      + Watched(items[1..], watching)
  }

  function Trim(log: Log): Log {
    if |log.changes| > MAX_CHANGES
    then log.(changes := log.changes[|log.changes| - MAX_CHANGES..])
    else log
  }

  function OnStates(log: Log, states: seq<EntityState>): Log { Trim(PushAll(log, states)) }

  datatype Answer = Answer(cursor: int, full: bool, states: seq<EntityState>)

  /** `changes.filter(c => c.seq > cursor)`, states only. */
  function Since(changes: seq<Change>, cursor: int): seq<EntityState> {
    if changes == [] then []
    else (if changes[0].seqNo > cursor then [changes[0].state] else []) + Since(changes[1..], cursor)
  }

  function Oldest(log: Log): int { if |log.changes| > 0 then log.changes[0].seqNo else log.seqNo + 1 }

  predicate NeedsFull(log: Log, cursor: int) { cursor <= 0 || cursor < Oldest(log) - 1 }

  function Ask(log: Log, cursor: int): Answer {
    if NeedsFull(log, cursor) then Answer(log.seqNo, true, log.latest)
    else Answer(log.seqNo, false, Since(log.changes, cursor))
  }

  predicate DistinctEntities(latest: seq<EntityState>) {
    forall i, j :: 0 <= i < j < |latest| ==> latest[i].entityId != latest[j].entityId
  }

  // ----------------------------------------------------- the simple meaning

  /** The live picture: the last state of every entity seen. */
  function Picture(history: seq<EntityState>): map<EntityId, EntityState> {
    Overlay(map[], history)
  }

  /** Replay states over a picture. */
  function Overlay(m: map<EntityId, EntityState>, states: seq<EntityState>): map<EntityId, EntityState>
    decreases |states|
  {
    if states == [] then m else Overlay(m[states[0].entityId := states[0]], states[1..])
  }

  /** The log keeps the tail of the history, numbered without gaps up to `seqNo`. */
  ghost predicate Keeps(log: Log, history: seq<EntityState>) {
    && log.seqNo == |history| && |log.changes| <= |history|
    && DistinctEntities(log.latest) && Picture(log.latest) == Picture(history)
    && forall i :: 0 <= i < |log.changes| ==>
         var n := |history| - |log.changes| + i;
         log.changes[i] == Change(n + 1, history[n])
  }

  lemma {:induction false} OverlayAppend(m: map<EntityId, EntityState>, a: seq<EntityState>, b: seq<EntityState>)
    ensures Overlay(m, a + b) == Overlay(Overlay(m, a), b)
    decreases |a|
  {
    if a == [] {
      assert a + b == b;
    } else {
      assert (a + b)[1..] == a[1..] + b;
      OverlayAppend(m[a[0].entityId := a[0]], a[1..], b);
    }
  }

  /** The picture really is the last word on each entity. */
  lemma {:induction false} PictureIsLast(history: seq<EntityState>, e: EntityId)
    ensures e in Picture(history) <==> exists i :: 0 <= i < |history| && history[i].entityId == e
    ensures forall i :: 0 <= i < |history| && history[i].entityId == e
              && (forall j :: i < j < |history| ==> history[j].entityId != e)
              ==> e in Picture(history) && Picture(history)[e] == history[i]
  {
    if history != [] {
      var n := |history| - 1;
      var before, s := history[..n], history[n];
      PictureIsLast(before, e);
      OverlayAppend(map[], before, [s]);
      assert history == before + [s];
      assert [s][1..] == [];
      assert Picture(history) == Picture(before)[s.entityId := s];
      assert forall i :: 0 <= i < n ==> history[i] == before[i];
    }
  }

  lemma {:induction false} SetKeepsKeys(latest: seq<EntityState>, s: EntityState)
    requires DistinctEntities(latest)
    ensures DistinctEntities(Set(latest, s))
    ensures forall t :: t in Set(latest, s) <==> t == s || (t in latest && t.entityId != s.entityId)
  {
    if latest != [] {
      SetKeepsKeys(latest[1..], s);
      var rest := if latest[0].entityId == s.entityId then latest[1..] else Set(latest[1..], s);
      assert forall t :: t in latest <==> t == latest[0] || t in latest[1..];
      assert forall i :: 0 <= i < |rest| ==> rest[i] in rest;
      var first := if latest[0].entityId == s.entityId then s else latest[0];
      assert Set(latest, s) == [first] + rest;
    }
  }

  /** In a list with distinct keys, the picture has exactly the list's entries. */
  lemma DistinctPicture(latest: seq<EntityState>, e: EntityId)
    requires DistinctEntities(latest)
    ensures e in Picture(latest) <==> exists t :: t in latest && t.entityId == e
    ensures forall t :: t in latest && t.entityId == e ==> e in Picture(latest) && Picture(latest)[e] == t
  {
    PictureIsLast(latest, e);
  }

  lemma SetIsUpdate(latest: seq<EntityState>, s: EntityState)
    requires DistinctEntities(latest)
    ensures DistinctEntities(Set(latest, s)) && Picture(Set(latest, s)) == Picture(latest)[s.entityId := s]
  {
    var next := Set(latest, s);
    SetKeepsKeys(latest, s);
    forall e
      ensures e in Picture(next) <==> e in Picture(latest)[s.entityId := s]
      ensures e in Picture(next) ==> Picture(next)[e] == Picture(latest)[s.entityId := s][e]
    {
      DistinctPicture(latest, e);
      DistinctPicture(next, e);
    }
  }

  lemma PushKeeps(log: Log, history: seq<EntityState>, s: EntityState)
    requires Keeps(log, history)
    ensures Keeps(Push(log, s), history + [s])
  {
    SetIsUpdate(log.latest, s);
    OverlayAppend(map[], history, [s]);
    assert [s][1..] == [];
    var log' := Push(log, s);
    assert forall i :: 0 <= i < |log.changes| ==> log'.changes[i] == log.changes[i];
  }

  lemma {:induction false} PushAllKeeps(log: Log, history: seq<EntityState>, states: seq<EntityState>)
    requires Keeps(log, history)
    ensures Keeps(PushAll(log, states), history + states)
    decreases |states|
  {
    if states == [] {
      assert history + states == history;
    } else {
      PushKeeps(log, history, states[0]);
      PushAllKeeps(Push(log, states[0]), history + [states[0]], states[1..]);
      assert history + [states[0]] + states[1..] == history + states;
    }
  }

  lemma OnStatesKeeps(log: Log, history: seq<EntityState>, states: seq<EntityState>)
    requires Keeps(log, history)
    ensures Keeps(OnStates(log, states), history + states)
  {
    PushAllKeeps(log, history, states);
  }

  // ----------------------------------------------------------- one read

  lemma {:induction false} SinceIsSuffix(changes: seq<Change>, history: seq<EntityState>, from: nat, cursor: int)
    requires from + |changes| == |history|
    requires forall i :: 0 <= i < |changes| ==> changes[i] == Change(from + i + 1, history[from + i])
    requires cursor <= |history|
    ensures Since(changes, cursor) == history[if cursor < from then from else cursor..]
    decreases |changes|
  {
    if changes != [] {
      SinceIsSuffix(changes[1..], history, from + 1, cursor);
      if cursor <= from {
        assert history[from..] == [history[from]] + history[from + 1..];
      }
    }
  }

  /** A reader: its last cursor and the picture it holds. */
  datatype Follower = Follower(cursor: int, view: map<EntityId, EntityState>)

  const NEW_READER := Follower(0, map[])

  /** Replace on a full answer, overlay otherwise. */
  function Take(f: Follower, a: Answer): Follower {
    Follower(a.cursor, if a.full then Picture(a.states) else Overlay(f.view, a.states))
  }

  /** What a reader holds is the picture as it was at its cursor. */
  ghost predicate Behind(f: Follower, history: seq<EntityState>) {
    0 <= f.cursor <= |history| && f.view == Picture(history[..f.cursor])
  }

  lemma ReadCatchesUp(log: Log, history: seq<EntityState>, f: Follower)
    requires Keeps(log, history) && Behind(f, history)
    ensures Take(f, Ask(log, f.cursor)) == Follower(|history|, Picture(history))
  {
    if !NeedsFull(log, f.cursor) {
      var from := |history| - |log.changes|;
      assert |log.changes| > 0 ==> log.changes[0].seqNo == from + 1;
      SinceIsSuffix(log.changes, history, from, f.cursor);
      OverlayAppend(map[], history[..f.cursor], history[f.cursor..]);
      assert history == history[..f.cursor] + history[f.cursor..];
    }
  }

  // ----------------------------------------------------------- every run

  /** A run as one reader sees it: frames arriving and its own reads. */
  datatype Turn = Arrives(states: seq<EntityState>) | Reads

  datatype World = World(log: Log, reader: Follower)

  function Advance(w: World, e: Turn): World {
    match e
    case Arrives(states) => World(OnStates(w.log, states), w.reader)
    case Reads => World(w.log, Take(w.reader, Ask(w.log, w.reader.cursor)))
  }

  function Added(e: Turn): seq<EntityState> { if e.Arrives? then e.states else [] }

  /** Everything the frames of a run reported. */
  function History(events: seq<Turn>): seq<EntityState> {
    if events == [] then [] else Added(events[0]) + History(events[1..])
  }

  lemma AdvanceKeeps(w: World, e: Turn, history: seq<EntityState>)
    requires Keeps(w.log, history) && Behind(w.reader, history)
    ensures var history' := history + Added(e);
            var w' := Advance(w, e);
            && Keeps(w'.log, history') && Behind(w'.reader, history')
            && (e.Reads? ==> w'.reader.view == Picture(history'))
  {
    match e {
      case Arrives(states) =>
        OnStatesKeeps(w.log, history, states);
        assert (history + states)[..w.reader.cursor] == history[..w.reader.cursor];
      case Reads =>
        ReadCatchesUp(w.log, history, w.reader);
        assert history[..|history|] == history && history + [] == history;
    }
  }

  function Follow(w: World, events: seq<Turn>): World
    decreases |events|
  {
    if events == [] then w else Follow(Advance(w, events[0]), events[1..])
  }

  lemma {:induction false} FollowKeeps(w: World, history: seq<EntityState>, events: seq<Turn>)
    requires Keeps(w.log, history) && Behind(w.reader, history)
    ensures Keeps(Follow(w, events).log, history + History(events))
    ensures Behind(Follow(w, events).reader, history + History(events))
    decreases |events|
  {
    if events == [] {
      assert history + History(events) == history;
    } else {
      assert history + Added(events[0]) + History(events[1..]) == history + History(events);
      AdvanceKeeps(w, events[0], history);
      FollowKeeps(Advance(w, events[0]), history + Added(events[0]), events[1..]);
    }
  }

  /**
   * A reader that starts at cursor 0 and follows the cursors it is given holds the
   * live picture after every read, whatever frames came between its reads and
   * however much of the log was trimmed away meanwhile.
   */
  lemma FollowerHoldsThePicture(events: seq<Turn>)
    ensures var w := Follow(World(FRESH_LOG, NEW_READER), events + [Reads]);
            w.reader.view == Picture(History(events)) == Picture(w.log.latest)
  {
    var start := World(FRESH_LOG, NEW_READER);
    assert Keeps(FRESH_LOG, []) && Behind(NEW_READER, []);
    FollowKeeps(start, [], events);
    assert [] + History(events) == History(events);
    FollowAppend(start, events, Reads);
    AdvanceKeeps(Follow(start, events), Reads, History(events));
    assert History(events) + [] == History(events);
  }

  lemma {:induction false} FollowAppend(w: World, events: seq<Turn>, e: Turn)
    ensures Follow(w, events + [e]) == Advance(Follow(w, events), e)
    decreases |events|
  {
    if events == [] {
      assert events + [e] == [e] && [e][1..] == [];
    } else {
      FollowAppend(Advance(w, events[0]), events[1..], e);
      assert (events + [e])[0] == events[0] && (events + [e])[1..] == events[1..] + [e];
    }
  }

  /** In every run the kept numbers are contiguous, end at `seqNo`, and number at most MAX_CHANGES. */
  lemma LogIsContiguous(events: seq<Turn>)
    ensures var log := Follow(World(FRESH_LOG, NEW_READER), events).log;
            && log.seqNo == |History(events)|
            && |log.changes| == Min(|History(events)|, MAX_CHANGES)
            && forall i :: 0 <= i < |log.changes| ==> log.changes[i].seqNo == log.seqNo - |log.changes| + 1 + i
  {
    var start := World(FRESH_LOG, NEW_READER);
    assert Keeps(FRESH_LOG, []) && Behind(NEW_READER, []);
    FollowKeeps(start, [], events);
    FollowLength(start, [], events);
    assert [] + History(events) == History(events);
  }

  function Min(a: nat, b: nat): nat { if a <= b then a else b }

  lemma {:induction false} PushAllLength(log: Log, states: seq<EntityState>)
    ensures |PushAll(log, states).changes| == |log.changes| + |states|
    decreases |states|
  {
    if states != [] {
      PushAllLength(Push(log, states[0]), states[1..]);
    }
  }

  lemma {:induction false} FollowLength(w: World, history: seq<EntityState>, events: seq<Turn>)
    requires Keeps(w.log, history) && Behind(w.reader, history)
    requires |w.log.changes| == Min(|history|, MAX_CHANGES)
    ensures |Follow(w, events).log.changes| == Min(|history| + |History(events)|, MAX_CHANGES)
    decreases |events|
  {
    if events != [] {
      AdvanceKeeps(w, events[0], history);
      if events[0].Arrives? {
        PushAllLength(w.log, events[0].states);
      }
      FollowLength(Advance(w, events[0]), history + Added(events[0]), events[1..]);
    }
  }
}
