/**
 * Switch hashes, the public index and the public directory
 * (webserver/src/utils/redis.js:385-399, 442-520, 544-583, 701-747, 1599-1660,
 * webserver/src/utils/promote.js:19-57, webserver/src/routes/legacy-routes.js:419-433).
 * Each store operation is one atomic step.
 */
module SwitchStore {
  import opened Options
  import opened Sequences

  type Uid = string

  predicate HexDigit(c: char) { '0' <= c <= '9' || 'a' <= c <= 'f' }

  /** An owner's identifier: sixteen bytes of a digest, in hexadecimal. */
  type OwnerId = s: string | |s| == 32 && forall i :: 0 <= i < |s| ==> HexDigit(s[i])
    witness "00000000000000000000000000000000"

  // ================================================================= the data

  /** The fields of `switch:<uid>` that matter here, as stored; `None` is a field that is not there. */
  datatype Hash = Hash(uid: Option<Uid>, ownerId: Option<string>, authVersion: Option<nat>, publicize: bool,
                       promotedUntil: nat)

  /** What writing a single field to an expired switch leaves. */
  const BARE := Hash(None, None, None, false, 0)

  datatype Db = Db(switches: map<Uid, Hash>, publicUids: set<Uid>, owners: map<string, set<Uid>>,
                   redirects: set<Uid>, blocked: set<string>)

  const FRESH := Db(map[], {}, map[], {}, {})

  function Index(db: Db, owner: string): set<Uid> {
    if owner in db.owners then db.owners[owner] else {}
  }

  // ============================================== what is read back from a hash

  /** `zero`: the number is zero, and so falsy. `Structured` is what JSON.parse makes of a text in brackets. */
  datatype Value = Text(text: string) | Number(zero: bool) | Flag(b: bool) | Structured

  predicate Digits(s: string) { s != "" && forall i :: 0 <= i < |s| ==> '0' <= s[i] <= '9' }

  function Unsigned(s: string): string { if s != "" && s[0] == '-' then s[1..] else s }

  predicate PointAt(s: string, i: nat) {
    i < |s| && s[i] == '.' && Digits(s[..i]) && Digits(s[i + 1..])
  }

  predicate DecimalText(s: string) { exists i :: 0 <= i < |s| && PointAt(s, i) }

  predicate Bracketed(s: string) {
    s != "" && ((s[0] == '{' && s[|s| - 1] == '}') || (s[0] == '[' && s[|s| - 1] == ']'))
  }

  predicate AllZero(s: string) { forall i :: 0 <= i < |s| ==> s[i] in "0.-" }

  /** A field of a hash is guessed back from its text. */
  function Deserialize(s: string): Value {
    if s == "" then Text(s)
    else if s == "true" then Flag(true)
    else if s == "false" then Flag(false)
    else if Digits(Unsigned(s)) || DecimalText(Unsigned(s)) then Number(AllZero(s))
    else if Bracketed(s) then Structured
    else Text(s)
  }

  predicate Truthy(v: Value) {
    match v
    case Text(text) => text != ""
    case Number(zero) => !zero
    case Flag(b) => b
    case Structured => true
  }

  /** An identifier is read back as the text it is exactly when it is not all digits. */
  lemma IdentifierReadsBack(owner: OwnerId)
    ensures Deserialize(owner) == Text(owner) <==> !Digits(owner)
    ensures Digits(owner) <==> Deserialize(owner).Number?
  {
    assert HexDigit(owner[0]) && owner[0] != '-' && Unsigned(owner) == owner;
    forall i | 0 <= i < |owner| ensures !PointAt(owner, i) {
      assert HexDigit(owner[i]);
    }
    assert |"true"| == 4 && |"false"| == 5;
  }

  /** How a value that was read back prints when it is written again. The proofs hold whatever it is. */
  type Printer = string -> string

  function Reread(prints: Printer, owner: string): string {
    if Deserialize(owner).Text? then owner else prints(owner)
  }

  datatype Event =
    | CreateV1(uid: Uid, wanted: bool)
    | CreateV2(uid: Uid, owner: OwnerId, wanted: bool)
    | Update(uid: Uid, publicize: Option<bool>, promotedUntil: Option<nat>)
    | SetState(uid: Uid)
    | DeleteAdmin(uid: Uid)
    | DeleteLegacy(uid: Uid)
    | ExpireHash(uid: Uid)
    | ExpireIndex(owner: OwnerId)
    | Redirect(uid: Uid)
    | ClearRedirect(uid: Uid)
    | Block(value: string)     // an administrator may block any text
    | Unblock(value: string)

  function HashOr(db: Db, uid: Uid): Hash {
    if uid in db.switches then db.switches[uid] else BARE
  }

  function Listed(publicUids: set<Uid>, uid: Uid, publicize: Option<bool>): set<Uid> {
    match publicize
    case None => publicUids
    case Some(true) => publicUids + {uid}
    case Some(false) => publicUids - {uid}
  }

  /** Writing a hash sets the given fields and leaves the others as they are. */
  function Step(prints: Printer, db: Db, e: Event): Db {
    match e
    case CreateV1(uid, wanted) =>
      var hash := HashOr(db, uid).(uid := Some(uid), publicize := wanted);
      db.(switches := db.switches[uid := hash], publicUids := if wanted then db.publicUids + {uid} else db.publicUids)
    case CreateV2(uid, owner, wanted) =>
      var hash :=
        HashOr(db, uid).(uid := Some(uid), ownerId := Some(owner), authVersion := Some(2), publicize := wanted);
      db.(switches := db.switches[uid := hash], publicUids := if wanted then db.publicUids + {uid} else db.publicUids,
          owners := db.owners[owner := Index(db, owner) + {uid}])
    case Update(uid, publicize, promotedUntil) =>
      if uid !in db.switches then db
      else
        var before := db.switches[uid];
        var owner := if before.ownerId.None? then None else Some(Reread(prints, before.ownerId.value));
        var hash := before.(ownerId := owner,
                          publicize := if publicize.Some? then publicize.value else before.publicize,
                          promotedUntil := if promotedUntil.Some? then promotedUntil.value else before.promotedUntil);
        db.(switches := db.switches[uid := hash], publicUids := Listed(db.publicUids, uid, publicize))
    case SetState(uid) => db.(switches := db.switches[uid := HashOr(db, uid)])
    case DeleteAdmin(uid) =>
      if uid !in db.switches then db
      else
        var owner := db.switches[uid].ownerId;
        db.(switches := db.switches - {uid}, publicUids := db.publicUids - {uid},
            owners := if owner.None? || !Truthy(Deserialize(owner.value)) then db.owners
                      else
                        var key := Reread(prints, owner.value);
                        db.owners[key := Index(db, key) - {uid}])
    case DeleteLegacy(uid) => db.(switches := db.switches - {uid}, publicUids := db.publicUids - {uid})
    case ExpireHash(uid) => db.(switches := db.switches - {uid})
    case ExpireIndex(owner) => db.(owners := db.owners - {owner})
    case Redirect(uid) => db.(redirects := db.redirects + {uid})
    case ClearRedirect(uid) => db.(redirects := db.redirects - {uid})
    case Block(value) => if value == "" then db else db.(blocked := db.blocked + {value})
    case Unblock(value) => db.(blocked := db.blocked - {value})
  }

  function Run(prints: Printer, db: Db, events: seq<Event>): Db
    decreases |events|
  {
    if events == [] then db else Run(prints, Step(prints, db, events[0]), events[1..])
  }

  // ======================================================== the index is complete

  /** Every live public switch is in the public index, and a v2 switch knows its own name. */
  ghost predicate Inv(db: Db) {
    && (forall uid :: uid in db.switches && db.switches[uid].publicize ==> uid in db.publicUids)
    && (forall uid :: uid in db.switches && db.switches[uid].authVersion == Some(2) ==>
          db.switches[uid].uid == Some(uid))
    && "" !in db.blocked
  }

  lemma StepKeeps(prints: Printer, db: Db, e: Event)
    requires Inv(db)
    ensures Inv(Step(prints, db, e))
  {
  }

  lemma {:induction false} EveryRun(prints: Printer, db: Db, events: seq<Event>)
    requires Inv(db)
    ensures Inv(Run(prints, db, events))
    decreases |events|
  {
    if events != [] {
      StepKeeps(prints, db, events[0]);
      EveryRun(prints, Step(prints, db, events[0]), events[1..]);
    }
  }

  // ============================================================ the directory

  /** An entry of the public directory. */
  datatype Listing = Listing(uid: Uid, promoted: bool, promotedUntil: nat)

  /** A live v2 public switch. */
  predicate PublicV2(db: Db, uid: Uid) {
    uid in db.switches && db.switches[uid].publicize && db.switches[uid].authVersion == Some(2)
  }

  /** The scan compares what it read back with the blocked texts. */
  predicate SeenAsBlocked(db: Db, uid: Uid)
    requires uid in db.switches
  {
    var owner := db.switches[uid].ownerId;
    owner.Some? && Truthy(Deserialize(owner.value))
    && match Deserialize(owner.value)
       case Text(text) => text in db.blocked
       case _ => false
  }

  predicate Shown(db: Db, uid: Uid) {
    uid !in db.redirects && PublicV2(db, uid) && !SeenAsBlocked(db, uid)
  }

  predicate PromotedAt(db: Db, uid: Uid, now: int)
    requires uid in db.switches
  {
    db.switches[uid].promotedUntil > now
  }

  /** Those of `members` that are shown and are (or are not) promoted, in the order given. */
  function Select(db: Db, members: seq<Uid>, now: int, promoted: bool): (uids: seq<Uid>)
    ensures forall uid :: uid in uids <==> uid in members && Shown(db, uid) && PromotedAt(db, uid, now) == promoted
  {
    if members == [] then []
    else
      var init, last := members[..|members| - 1], members[|members| - 1];
      assert members == init + [last];
      Select(db, init, now, promoted)
      + if Shown(db, last) && PromotedAt(db, last, now) == promoted then [last] else []
  }

  function Elements(uids: seq<Uid>): set<Uid> { set uid | uid in uids }

  lemma {:induction false} SelectIsDistinct(db: Db, members: seq<Uid>, now: int, promoted: bool)
    requires Distinct(members)
    ensures Distinct(Select(db, members, now, promoted))
  {
    if members != [] {
      var init := members[..|members| - 1];
      SelectIsDistinct(db, init, now, promoted);
      assert members[|members| - 1] !in init;
    }
  }

  lemma BothDistinct(a: seq<Uid>, b: seq<Uid>)
    requires Distinct(a) && Distinct(b) && forall uid :: uid in a ==> uid !in b
    ensures Distinct(a + b)
  {
    assert forall i :: 0 <= i < |a| ==> a[i] in a;
  }

  function Uids(rows: seq<Listing>): (uids: seq<Uid>)
    ensures |uids| == |rows| && forall i :: 0 <= i < |rows| ==> uids[i] == rows[i].uid
  {
    seq(|rows|, i requires 0 <= i < |rows| => rows[i].uid)
  }

  /** One entry, with its promotion as of `now`. */
  function Row(hash: Hash, now: int): Listing
    requires hash.uid.Some?
  {
    var promoted := hash.promotedUntil > now;
    Listing(hash.uid.value, promoted, if promoted then hash.promotedUntil else 0)
  }

  /** The entries the scan collects; the i-th member is looked at when the clock shows `clock(i)`. */
  function Rows(db: Db, members: seq<Uid>, clock: nat -> int): seq<Listing>
    requires Inv(db)
  {
    if members == [] then []
    else
      var n := |members| - 1;
      Rows(db, members[..n], clock)
      + if Shown(db, members[n]) then [Row(db.switches[members[n]], clock(n))] else []
  }

  /** The entries that are, or are not, promoted by what they say themselves. */
  function Those(rows: seq<Listing>, now: int, promoted: bool): seq<Listing> {
    if rows == [] then []
    else
      var n := |rows| - 1;
      Those(rows[..n], now, promoted) + if (rows[n].promotedUntil > now) == promoted then [rows[n]] else []
  }

  lemma UidsAppend(a: seq<Listing>, b: seq<Listing>)
    ensures Uids(a + b) == Uids(a) + Uids(b)
  {
  }

  lemma ThoseUnfold(rows: seq<Listing>, row: Listing, now: int, promoted: bool)
    ensures Those(rows + [row], now, promoted)
         == if (row.promotedUntil > now) == promoted then Those(rows, now, promoted) + [row]
            else Those(rows, now, promoted)
  {
    assert (rows + [row])[..|rows|] == rows;
    assert Those(rows, now, promoted) + [] == Those(rows, now, promoted);
  }

  lemma RowsUnfold(db: Db, init: seq<Uid>, last: Uid, clock: nat -> int)
    requires Inv(db)
    ensures Rows(db, init + [last], clock)
         == if Shown(db, last) then Rows(db, init, clock) + [Row(db.switches[last], clock(|init|))]
            else Rows(db, init, clock)
  {
    assert (init + [last])[..|init|] == init;
    assert Rows(db, init, clock) + [] == Rows(db, init, clock);
  }

  lemma SelectUnfold(db: Db, init: seq<Uid>, last: Uid, now: int, promoted: bool)
    ensures Select(db, init + [last], now, promoted)
         == if Shown(db, last) && PromotedAt(db, last, now) == promoted then Select(db, init, now, promoted) + [last]
            else Select(db, init, now, promoted)
  {
    assert (init + [last])[..|init|] == init;
    assert Select(db, init, now, promoted) + [] == Select(db, init, now, promoted);
  }

  lemma ShownIsStored(db: Db, uid: Uid)
    requires Inv(db) && Shown(db, uid)
    ensures uid in db.switches && db.switches[uid].uid == Some(uid)
  {
  }

  /** An entry taken no later than `now` says whether its switch is promoted at `now`. */
  lemma RowTells(db: Db, uid: Uid, taken: int, now: int)
    requires Inv(db) && Shown(db, uid) && 0 <= now && taken <= now
    ensures Row(db.switches[uid], taken).uid == uid
    ensures (Row(db.switches[uid], taken).promotedUntil > now) == PromotedAt(db, uid, now)
  {
  }

  /** Sorting by what the entries say agrees with the switches themselves if the sort is not before the scan. */
  lemma {:induction false} ThoseAreSelected(db: Db, members: seq<Uid>, clock: nat -> int, now: int, promoted: bool)
    requires Inv(db) && 0 <= now && forall i: nat :: i < |members| ==> clock(i) <= now
    ensures Uids(Those(Rows(db, members, clock), now, promoted)) == Select(db, members, now, promoted)
    decreases |members|
  {
    if members != [] {
      hide *;
      var n := |members| - 1;
      var init, last := members[..n], members[n];
      assert members == init + [last];
      var before := Rows(db, init, clock);
      ThoseAreSelected(db, init, clock, now, promoted);
      RowsUnfold(db, init, last, clock);
      SelectUnfold(db, init, last, now, promoted);
      if Shown(db, last) {
        ShownIsStored(db, last);
        var row := Row(db.switches[last], clock(n));
        RowTells(db, last, clock(n), now);
        ThoseUnfold(before, row, now, promoted);
        UidsAppend(Those(before, now, promoted), [row]);
        assert Uids([row]) == [last];
      }
    }
  }

  /** A list of the directory's names: every switch of `all` once, promoted ones first, otherwise in index order. */
  ghost predicate Directory(db: Db, members: seq<Uid>, now: int, uids: seq<Uid>) {
    && uids == Select(db, members, now, true) + Select(db, members, now, false)
    && Distinct(uids)
    && forall uid :: uid in uids <==> Shown(db, uid)
  }

  lemma DirectoryIsFullScan(db: Db, members: seq<Uid>, now: int)
    requires Inv(db) && Distinct(members) && Elements(members) == db.publicUids
    ensures Directory(db, members, now, Select(db, members, now, true) + Select(db, members, now, false))
  {
    SelectIsDistinct(db, members, now, true);
    SelectIsDistinct(db, members, now, false);
    BothDistinct(Select(db, members, now, true), Select(db, members, now, false));
    forall uid | Shown(db, uid) ensures uid in members {
      assert uid in db.publicUids;
    }
  }

  /**
   * In every reachable store, however the index is enumerated, the directory is
   * exactly what a scan of all switches would give: the live v2 public ones that
   * are not redirected and not seen as blocked, each once, promoted first.
   */
  lemma DirectoryAgrees(prints: Printer, events: seq<Event>, members: seq<Uid>, now: int)
    requires Distinct(members) && Elements(members) == Run(prints, FRESH, events).publicUids
    ensures var db := Run(prints, FRESH, events);
            Directory(db, members, now, Select(db, members, now, true) + Select(db, members, now, false))
  {
    EveryRun(prints, FRESH, events);
    DirectoryIsFullScan(Run(prints, FRESH, events), members, now);
  }

  /**
   * A blocked owner's public switch is left out of the directory exactly when the
   * owner's identifier is not all digits: one of digits is read back as a number,
   * which no blocked text equals.
   */
  lemma BlockedIsHiddenIff(prints: Printer, events: seq<Event>, uid: Uid, owner: OwnerId)
    requires var db := Run(prints, FRESH, events);
             PublicV2(db, uid) && uid !in db.redirects && db.switches[uid].ownerId == Some(owner) && owner in db.blocked
    ensures !Shown(Run(prints, FRESH, events), uid) <==> !Digits(owner)
  {
    IdentifierReadsBack(owner);
  }

  /** Such an owner: blocked, and still listed. */
  lemma DigitOwnerEscapes(prints: Printer) returns (owner: OwnerId, events: seq<Event>)
    ensures var db := Run(prints, FRESH, events);
            PublicV2(db, "s") && db.switches["s"].ownerId == Some(owner) && owner in db.blocked && Shown(db, "s")
  {
    owner := seq(32, _ => '7');
    var create, block := CreateV2("s", owner, true), Block(owner);
    events := [create, block];
    var db := Step(prints, FRESH, create);
    assert events[1..] == [block] && [block][1..] == [];
    assert Run(prints, db, [block]) == Run(prints, Step(prints, db, block), []);
    IdentifierReadsBack(owner);
  }

  // ============================================================== the class

  class Store {
    var switches: map<Uid, Hash>
    var publicUids: set<Uid>
    var owners: map<string, set<Uid>>
    var redirects: set<Uid>
    var blocked: set<string>
    const prints: Printer

    function Now(): Db
      reads this
    {
      Db(switches, publicUids, owners, redirects, blocked)
    }

    constructor (prints: Printer)
      ensures this.prints == prints && Now() == FRESH && Inv(Now())
    {
      this.prints := prints;
      switches, publicUids, owners, redirects, blocked := map[], {}, map[], {}, {};
    }

    method CreateSwitch(uid: Uid, wanted: bool)
      requires Inv(Now())
      modifies this
      ensures Now() == Step(prints, old(Now()), CreateV1(uid, wanted)) && Inv(Now())
    {
      StepKeeps(prints, Now(), CreateV1(uid, wanted));
      switches := switches[uid := HashOr(Now(), uid).(uid := Some(uid), publicize := wanted)];
      if wanted {
        publicUids := publicUids + {uid};
      }
    }

    method CreateSwitchV2(uid: Uid, owner: OwnerId, wanted: bool)
      requires Inv(Now())
      modifies this
      ensures Now() == Step(prints, old(Now()), CreateV2(uid, owner, wanted)) && Inv(Now())
    {
      StepKeeps(prints, Now(), CreateV2(uid, owner, wanted));
      var hash := HashOr(Now(), uid);
      hash := hash.(uid := Some(uid), ownerId := Some(owner), authVersion := Some(2), publicize := wanted);
      switches := switches[uid := hash];
      owners := owners[owner := Index(Now(), owner) + {uid}];
      if wanted {
        publicUids := publicUids + {uid};
      }
    }

    method UpdateSwitch(uid: Uid, publicize: Option<bool>, promotedUntil: Option<nat>) returns (found: bool)
      requires Inv(Now())
      modifies this
      ensures Now() == Step(prints, old(Now()), Update(uid, publicize, promotedUntil)) && Inv(Now())
      ensures found == (uid in old(switches))
    {
      StepKeeps(prints, Now(), Update(uid, publicize, promotedUntil));
      if uid !in switches {
        return false;
      }
      var hash := switches[uid];
      if hash.ownerId.Some? {
        hash := hash.(ownerId := Some(Reread(prints, hash.ownerId.value)));
      }
      if publicize.Some? {
        hash := hash.(publicize := publicize.value);
      }
      if promotedUntil.Some? {
        hash := hash.(promotedUntil := promotedUntil.value);
      }
      switches := switches[uid := hash];
      if publicize.Some? {
        if publicize.value {
          publicUids := publicUids + {uid};
        } else {
          publicUids := publicUids - {uid};
        }
      }
      return true;
    }

    /** Any write of single fields, such as a new state or a count: an expired switch comes back bare. */
    method SetSwitchState(uid: Uid)
      requires Inv(Now())
      modifies this
      ensures Now() == Step(prints, old(Now()), SetState(uid)) && Inv(Now())
    {
      StepKeeps(prints, Now(), SetState(uid));
      switches := switches[uid := HashOr(Now(), uid)];
    }

    method DeleteSwitchAdmin(uid: Uid) returns (found: bool)
      requires Inv(Now())
      modifies this
      ensures Now() == Step(prints, old(Now()), DeleteAdmin(uid)) && Inv(Now())
      ensures found == (uid in old(switches))
    {
      StepKeeps(prints, Now(), DeleteAdmin(uid));
      if uid !in switches {
        return false;
      }
      var owner := switches[uid].ownerId;
      switches := switches - {uid};
      publicUids := publicUids - {uid};
      if owner.Some? && Truthy(Deserialize(owner.value)) {
        var key := Reread(prints, owner.value);
        owners := owners[key := Index(Now(), key) - {uid}];
      }
      return true;
    }

    /** Promoted entries first, each group in the order it came in. */
    static method SortPublicSwitches(rows: seq<Listing>, now: int) returns (sorted: seq<Listing>)
      ensures sorted == Those(rows, now, true) + Those(rows, now, false)
    {
      var promoted, rest := [], [];
      for i := 0 to |rows|
        invariant promoted == Those(rows[..i], now, true) && rest == Those(rows[..i], now, false)
      {
        assert rows[..i + 1][..i] == rows[..i];
        if rows[i].promotedUntil > now {
          promoted := promoted + [rows[i]];
        } else {
          rest := rest + [rows[i]];
        }
      }
      assert rows[..|rows|] == rows;
      return promoted + rest;
    }

    /** `members` is the order in which the store happens to return the public index. */
    method GetPublicSwitches(members: seq<Uid>, clock: nat -> int, sortedAt: nat) returns (listing: seq<Listing>)
      requires Inv(Now()) && Distinct(members) && Elements(members) == publicUids
      requires forall i: nat :: i < |members| ==> clock(i) <= sortedAt
      ensures Directory(Now(), members, sortedAt, Uids(listing))
    {
      var rows := [];
      for i := 0 to |members|
        invariant rows == Rows(Now(), members[..i], clock)
      {
        assert members[..i + 1][..i] == members[..i];
        var uid := members[i];
        if uid in redirects || uid !in switches || !switches[uid].publicize {
          continue;
        }
        var hash := switches[uid];
        if hash.authVersion != Some(2) {
          continue;
        }
        if SeenAsBlocked(Now(), uid) {
          continue;
        }
        rows := rows + [Row(hash, clock(i))];
      }
      assert members[..|members|] == members;
      listing := SortPublicSwitches(rows, sortedAt);
      ThoseAreSelected(Now(), members, clock, sortedAt, true);
      ThoseAreSelected(Now(), members, clock, sortedAt, false);
      UidsAppend(Those(rows, sortedAt, true), Those(rows, sortedAt, false));
      DirectoryIsFullScan(Now(), members, sortedAt);
    }
  }
}
