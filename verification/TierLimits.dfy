/**
 * How many switches an owner may have: the check before each request, and the
 * counts it keeps (webserver/src/routes/route-helpers.js:168-251,
 * webserver/src/utils/redis.js:617-638, webserver/src/routes/v2-routes.js:145-183, 355-417,
 * webserver/src/routes/admin-routes.js:55). Each request is one atomic step.
 */
module TierLimits {

  import opened Options
  import opened Sequences
  import opened SwitchStore

  // ================================================================ the check

  /** Settings of the free and the premium tier; a negative number is no limit. */
  datatype Settings = Settings(enabled: bool, freeMax: int, freePublic: int, freePrivate: int,
                               premiumMax: int, premiumPublic: int)

  /** An owner: exempt (the catalogue's own account), and of which tier. */
  datatype Account = Account(exempt: bool, premium: bool)

  datatype Limits = Limits(maxTotal: int, maxPublic: int, maxPrivate: int)

  function LimitsOf(cfg: Settings, a: Account): Limits {
    if !cfg.enabled || a.exempt then Limits(-1, -1, -1)
    else if a.premium then Limits(cfg.premiumMax, cfg.premiumPublic, cfg.premiumMax)
    else Limits(cfg.freeMax, cfg.freePublic, cfg.freePrivate)
  }

  datatype Counts = Counts(total: nat, open: nat, closed: int)

  predicate IsPublic(db: Db, uid: Uid) { uid in db.switches && db.switches[uid].publicize }

  function PublicOf(db: Db, members: set<Uid>): set<Uid> {
    set uid | uid in members && IsPublic(db, uid)
  }

  /** Everything in the index that is not a live public switch counts as private. */
  function PrivateOf(db: Db, members: set<Uid>): set<Uid> {
    set uid | uid in members && !IsPublic(db, uid)
  }

  function CountsOf(db: Db, members: set<Uid>): Counts {
    Counts(|members|, |PublicOf(db, members)|, |members| - |PublicOf(db, members)|)
  }

  predicate Full(max: int, count: int) { max >= 0 && count >= max }

  datatype Verdict = Fine | TooMany | TooManyPublic | TooManyPrivate

  /** The answer for a new switch, and for an update that may change whether it is public. */
  function CheckCreate(l: Limits, c: Counts, wanted: bool): Verdict {
    if Full(l.maxTotal, c.total) then TooMany
    else if wanted then (if Full(l.maxPublic, c.open) then TooManyPublic else Fine)
    else if Full(l.maxPrivate, c.closed) then TooManyPrivate else Fine
  }

  function CheckUpdate(l: Limits, c: Counts, wanted: Option<bool>, current: bool): Verdict {
    if wanted.None? then Fine
    else if wanted.value && !current && Full(l.maxPublic, c.open) then TooManyPublic
    else if !wanted.value && current && Full(l.maxPrivate, c.closed) then TooManyPrivate
    else Fine
  }

  // ============================================================= the requests

  /** `goesOn`: the other checks (nonce, captcha, images) let the request through as well. */
  datatype Request =
    | Create(owner: OwnerId, uid: Uid, wanted: bool, goesOn: bool)
    | OwnerUpdate(owner: OwnerId, uid: Uid, publicize: Option<bool>, goesOn: bool)
    | OtherUpdate(uid: Uid, promotedUntil: Option<nat>)     // by access key, or a paid promotion
    | Delist(uid: Uid)
    | Delete(uid: Uid)
    | Toggle(uid: Uid)
    | HashExpires(uid: Uid)
    | IndexExpires(owner: OwnerId)

  /** The settings, each owner's account, and how numbers print. */
  datatype Site = Site(settings: Settings, accounts: OwnerId -> Account, prints: Printer)

  function LimitsFor(site: Site, owner: OwnerId): Limits { LimitsOf(site.settings, site.accounts(owner)) }

  function CountsFor(db: Db, owner: OwnerId): Counts { CountsOf(db, Index(db, owner)) }

  /** The owner named by the hash as read back is the one who signed. */
  predicate Owns(db: Db, owner: OwnerId, uid: Uid) {
    uid in db.switches && db.switches[uid].authVersion == Some(2)
    && db.switches[uid].ownerId.Some? && Deserialize(db.switches[uid].ownerId.value) == Text(owner)
  }

  /** Whether a creation or an owner's update goes through. */
  predicate Granted(site: Site, db: Db, r: Request)
    requires r.Create? || r.OwnerUpdate?
  {
    match r
    case Create(owner, uid, wanted, goesOn) =>
      uid !in db.switches && goesOn && CheckCreate(LimitsFor(site, owner), CountsFor(db, owner), wanted) == Fine
    case OwnerUpdate(owner, uid, publicize, goesOn) =>
      Owns(db, owner, uid) && goesOn
      && CheckUpdate(LimitsFor(site, owner), CountsFor(db, owner), publicize, db.switches[uid].publicize) == Fine
  }

  function Serve(site: Site, db: Db, r: Request): Db {
    match r
    case Create(owner, uid, wanted, _) =>
      if Granted(site, db, r) then Step(site.prints, db, CreateV2(uid, owner, wanted)) else db
    case OwnerUpdate(owner, uid, publicize, _) =>
      if Granted(site, db, r) then Step(site.prints, db, Update(uid, publicize, None)) else db
    case OtherUpdate(uid, promotedUntil) => Step(site.prints, db, Update(uid, None, promotedUntil))
    case Delist(uid) => Step(site.prints, db, Update(uid, Some(false), None))
    case Delete(uid) => Step(site.prints, db, DeleteAdmin(uid))
    case Toggle(uid) => Step(site.prints, db, SetState(uid))
    case HashExpires(uid) => Step(site.prints, db, ExpireHash(uid))
    case IndexExpires(owner) => Step(site.prints, db, ExpireIndex(owner))
  }

  /** The store after a run of requests, from nothing. */
  function ServeAll(site: Site, requests: seq<Request>): Db {
    if requests == [] then FRESH
    else
      var n := |requests| - 1;
      Serve(site, ServeAll(site, requests[..n]), requests[n])
  }

  lemma ServeOneMore(site: Site, requests: seq<Request>, r: Request)
    ensures ServeAll(site, requests + [r]) == Serve(site, ServeAll(site, requests), r)
  {
    assert (requests + [r])[..|requests|] == requests;
  }

  // ============================================================ sets and sizes

  lemma SubsetSize<T>(a: set<T>, b: set<T>)
    requires a <= b
    ensures |a| <= |b|
  {
    assert b == a + (b - a);
  }

  lemma PrivateIsTheRest(db: Db, members: set<Uid>)
    ensures |members| - |PublicOf(db, members)| == |PrivateOf(db, members)|
  {
    assert members == PublicOf(db, members) + PrivateOf(db, members);
    assert PublicOf(db, members) !! PrivateOf(db, members);
  }

  predicate Within(max: int, count: int) { max >= 0 ==> count <= max }

  /** A count that grows by one stays within its limit exactly when it was not full; one that does not grow, always. */
  lemma WithinStep(max: int, before: set<Uid>, after: set<Uid>, name: Uid, gains: bool)
    requires Within(max, |before|) && Gains(before, after, name, gains)
    ensures Within(max, |after|) <==> !(gains && Full(max, |before|))
  {
    if !gains {
      SubsetSize(after, before);
    }
  }

  // ========================================= what a request does to one owner

  /** Its own creation puts a name into the owner's index. */
  predicate Enters(site: Site, db: Db, r: Request, owner: OwnerId) {
    r.Create? && r.owner == owner && Granted(site, db, r) && r.uid !in Index(db, owner)
  }

  /** The request adds a live public switch to those in the owner's index. */
  predicate Opens(site: Site, db: Db, r: Request, owner: OwnerId) {
    match r
    case Create(o, uid, wanted, _) => Granted(site, db, r) && wanted && (o == owner || uid in Index(db, owner))
    case OwnerUpdate(_, uid, publicize, _) =>
      Granted(site, db, r) && publicize == Some(true) && uid in Index(db, owner) && !db.switches[uid].publicize
    case _ => false
  }

  /** Deleting the switch also takes it out of this owner's index. */
  predicate DeletedFrom(site: Site, db: Db, uid: Uid, owner: OwnerId) {
    uid in db.switches && db.switches[uid].ownerId.Some? && Truthy(Deserialize(db.switches[uid].ownerId.value))
    && Reread(site.prints, db.switches[uid].ownerId.value) == owner
  }

  /** The request adds one to those in the owner's index that count as private. */
  predicate Closes(site: Site, db: Db, r: Request, owner: OwnerId) {
    match r
    case Create(_, _, wanted, _) => Enters(site, db, r, owner) && !wanted
    case OwnerUpdate(_, uid, publicize, _) =>
      Granted(site, db, r) && publicize == Some(false) && uid in PublicOf(db, Index(db, owner))
    case Delist(uid) => uid in PublicOf(db, Index(db, owner))
    case HashExpires(uid) => uid in PublicOf(db, Index(db, owner))
    case Delete(uid) => uid in PublicOf(db, Index(db, owner)) && !DeletedFrom(site, db, uid, owner)
    case _ => false
  }

  lemma IndexGains(site: Site, db: Db, r: Request, owner: OwnerId, uid: Uid)
    requires r.Create?
    ensures uid in Index(Serve(site, db, r), owner)
       <==> uid in Index(db, owner) || (Enters(site, db, r, owner) && uid == r.uid)
  {
  }

  lemma IndexDrops(site: Site, db: Db, r: Request, owner: OwnerId, uid: Uid)
    requires r.Delete?
    ensures uid in Index(Serve(site, db, r), owner)
       <==> uid in Index(db, owner) && !(uid == r.uid && DeletedFrom(site, db, uid, owner))
  {
  }

  /** What the request does to one name in the owner's index. */
  lemma IndexAt(site: Site, db: Db, r: Request, owner: OwnerId, uid: Uid)
    ensures uid in Index(Serve(site, db, r), owner)
       <==> (uid in Index(db, owner) || (Enters(site, db, r, owner) && uid == r.uid))
            && !(r == IndexExpires(owner)) && !(r == Delete(uid) && DeletedFrom(site, db, uid, owner))
  {
    if r.Create? {
      IndexGains(site, db, r, owner, uid);
    } else if r.Delete? {
      IndexDrops(site, db, r, owner, uid);
    }
  }

  /** What it does to one switch: public afterwards, or not. */
  predicate PublicThen(site: Site, db: Db, r: Request, uid: Uid) {
    match r
    case Create(_, u, wanted, _) => if u == uid && Granted(site, db, r) then wanted else IsPublic(db, uid)
    case OwnerUpdate(_, u, publicize, _) =>
      if u == uid && Granted(site, db, r) && publicize.Some? then publicize.value else IsPublic(db, uid)
    case Delist(u) => IsPublic(db, uid) && u != uid
    case Delete(u) => IsPublic(db, uid) && u != uid
    case HashExpires(u) => IsPublic(db, uid) && u != uid
    case _ => IsPublic(db, uid)
  }

  lemma PublicCreated(site: Site, db: Db, r: Request, uid: Uid)
    requires r.Create?
    ensures IsPublic(Serve(site, db, r), uid) <==> PublicThen(site, db, r, uid)
  {
  }

  lemma PublicUpdated(site: Site, db: Db, r: Request, uid: Uid)
    requires r.OwnerUpdate?
    ensures IsPublic(Serve(site, db, r), uid) <==> PublicThen(site, db, r, uid)
  {
  }

  lemma PublicAt(site: Site, db: Db, r: Request, uid: Uid)
    ensures IsPublic(Serve(site, db, r), uid) <==> PublicThen(site, db, r, uid)
  {
    if r.Create? {
      PublicCreated(site, db, r, uid);
    } else if r.OwnerUpdate? {
      PublicUpdated(site, db, r, uid);
    }
  }

  lemma IndexAfter(site: Site, db: Db, r: Request, owner: OwnerId)
    ensures Gains(Index(db, owner), Index(Serve(site, db, r), owner), Name(r), Enters(site, db, r, owner))
  {
    forall uid
      ensures uid in Index(Serve(site, db, r), owner)
         <==> (uid in Index(db, owner) || (Enters(site, db, r, owner) && uid == r.uid))
              && !(r == IndexExpires(owner)) && !(r == Delete(uid) && DeletedFrom(site, db, uid, owner))
    {
      IndexAt(site, db, r, owner, uid);
    }
  }

  function Name(r: Request): Uid { if r.IndexExpires? then "" else r.uid }

  /** A group gains one name, new to it, or gains none. */
  predicate Moves(before: bool, after: bool, gains: bool, isIt: bool) {
    if gains then after == (before || isIt) && !(before && isIt) else after ==> before
  }

  predicate PublicMoves(db: Db, db': Db, owner: OwnerId, gains: bool, name: Uid, uid: Uid) {
    Moves(uid in Index(db, owner) && IsPublic(db, uid), uid in Index(db', owner) && IsPublic(db', uid),
          gains, uid == name)
  }

  predicate PrivateMoves(db: Db, db': Db, owner: OwnerId, gains: bool, name: Uid, uid: Uid) {
    Moves(uid in Index(db, owner) && !IsPublic(db, uid), uid in Index(db', owner) && !IsPublic(db', uid),
          gains, uid == name)
  }

  /** The public and the private names in the index, one at a time. */
  lemma PublicNow(site: Site, db: Db, r: Request, owner: OwnerId, uid: Uid)
    ensures PublicMoves(db, Serve(site, db, r), owner, Opens(site, db, r, owner), Name(r), uid)
  {
    IndexAt(site, db, r, owner, uid);
    PublicAt(site, db, r, uid);
  }

  lemma PrivateNow(site: Site, db: Db, r: Request, owner: OwnerId, uid: Uid)
    ensures PrivateMoves(db, Serve(site, db, r), owner, Closes(site, db, r, owner), Name(r), uid)
  {
    IndexAt(site, db, r, owner, uid);
    PublicAt(site, db, r, uid);
  }

  predicate Gains(before: set<Uid>, after: set<Uid>, name: Uid, gains: bool) {
    if gains then name !in before && after == before + {name} else after <= before
  }

  lemma PublicSets(db: Db, db': Db, owner: OwnerId, gains: bool, name: Uid)
    requires forall uid :: PublicMoves(db, db', owner, gains, name, uid)
    ensures Gains(PublicOf(db, Index(db, owner)), PublicOf(db', Index(db', owner)), name, gains)
  {
    assert PublicMoves(db, db', owner, gains, name, name);
    forall uid
      ensures Moves(uid in PublicOf(db, Index(db, owner)), uid in PublicOf(db', Index(db', owner)), gains, uid == name)
    {
      assert PublicMoves(db, db', owner, gains, name, uid);
    }
  }

  lemma PrivateSets(db: Db, db': Db, owner: OwnerId, gains: bool, name: Uid)
    requires forall uid :: PrivateMoves(db, db', owner, gains, name, uid)
    ensures Gains(PrivateOf(db, Index(db, owner)), PrivateOf(db', Index(db', owner)), name, gains)
  {
    assert PrivateMoves(db, db', owner, gains, name, name);
    forall uid
      ensures Moves(uid in PrivateOf(db, Index(db, owner)), uid in PrivateOf(db', Index(db', owner)),
                    gains, uid == name)
    {
      assert PrivateMoves(db, db', owner, gains, name, uid);
    }
  }

  lemma PublicAfter(site: Site, db: Db, r: Request, owner: OwnerId)
    ensures var db' := Serve(site, db, r);
            Gains(PublicOf(db, Index(db, owner)), PublicOf(db', Index(db', owner)), Name(r), Opens(site, db, r, owner))
  {
    var db', gains := Serve(site, db, r), Opens(site, db, r, owner);
    forall uid ensures PublicMoves(db, db', owner, gains, Name(r), uid) {
      PublicNow(site, db, r, owner, uid);
    }
    PublicSets(db, db', owner, gains, Name(r));
  }

  lemma PrivateAfter(site: Site, db: Db, r: Request, owner: OwnerId)
    ensures var db' := Serve(site, db, r);
            Gains(PrivateOf(db, Index(db, owner)), PrivateOf(db', Index(db', owner)), Name(r),
                  Closes(site, db, r, owner))
  {
    var db', gains := Serve(site, db, r), Closes(site, db, r, owner);
    forall uid ensures PrivateMoves(db, db', owner, gains, Name(r), uid) {
      PrivateNow(site, db, r, owner, uid);
    }
    PrivateSets(db, db', owner, gains, Name(r));
  }

  /** The request is the owner's own, and so has passed the owner's own check. */
  predicate OwnRequest(r: Request, owner: OwnerId) { (r.Create? || r.OwnerUpdate?) && r.owner == owner }

  /** Somebody else makes a switch public that is in this owner's index, while its public count is full. */
  predicate BreaksPublic(site: Site, db: Db, r: Request, owner: OwnerId) {
    Opens(site, db, r, owner) && !OwnRequest(r, owner)
    && Full(LimitsFor(site, owner).maxPublic, CountsFor(db, owner).open)
  }

  /** A public switch in the index stops being one other than by the owner, while its private count is full. */
  predicate BreaksPrivate(site: Site, db: Db, r: Request, owner: OwnerId) {
    Closes(site, db, r, owner) && !OwnRequest(r, owner)
    && Full(LimitsFor(site, owner).maxPrivate, CountsFor(db, owner).closed)
  }

  /** The total never leaves its limit. */
  lemma TotalStays(site: Site, db: Db, r: Request, owner: OwnerId)
    requires Within(LimitsFor(site, owner).maxTotal, CountsFor(db, owner).total)
    ensures Within(LimitsFor(site, owner).maxTotal, CountsFor(Serve(site, db, r), owner).total)
  {
    IndexAfter(site, db, r, owner);
    WithinStep(LimitsFor(site, owner).maxTotal, Index(db, owner), Index(Serve(site, db, r), owner), Name(r),
               Enters(site, db, r, owner));
  }

  /** Every request leaves the public count within its limit, unless it is one of those that break it. */
  lemma PublicBreaksIff(site: Site, db: Db, r: Request, owner: OwnerId)
    requires Within(LimitsFor(site, owner).maxPublic, CountsFor(db, owner).open)
    ensures Within(LimitsFor(site, owner).maxPublic, CountsFor(Serve(site, db, r), owner).open)
       <==> !BreaksPublic(site, db, r, owner)
  {
    PublicAfter(site, db, r, owner);
    var opens, db' := Opens(site, db, r, owner), Serve(site, db, r);
    WithinStep(LimitsFor(site, owner).maxPublic, PublicOf(db, Index(db, owner)), PublicOf(db', Index(db', owner)),
               Name(r), opens);
  }

  /**
   * Every request leaves the private count within its limit, unless it is one of
   * those that break it: a delisting or an expiry of a public switch, a deletion
   * that does not reach this index, or an update by somebody else, when the count is full.
   */
  lemma PrivateBreaksIff(site: Site, db: Db, r: Request, owner: OwnerId)
    requires Within(LimitsFor(site, owner).maxPrivate, CountsFor(db, owner).closed)
    ensures Within(LimitsFor(site, owner).maxPrivate, CountsFor(Serve(site, db, r), owner).closed)
       <==> !BreaksPrivate(site, db, r, owner)
  {
    PrivateAfter(site, db, r, owner);
    var closes, db' := Closes(site, db, r, owner), Serve(site, db, r);
    PrivateIsTheRest(db, Index(db, owner));
    PrivateIsTheRest(db', Index(db', owner));
    WithinStep(LimitsFor(site, owner).maxPrivate, PrivateOf(db, Index(db, owner)), PrivateOf(db', Index(db', owner)),
               Name(r), closes);
  }

  // ================================================================= over runs

  function Before(site: Site, requests: seq<Request>, k: nat): Db
    requires k <= |requests|
  {
    ServeAll(site, requests[..k])
  }

  lemma BeforeNext(site: Site, requests: seq<Request>, k: nat)
    requires k < |requests|
    ensures Before(site, requests, k + 1) == Serve(site, Before(site, requests, k), requests[k])
  {
    assert requests[..k + 1] == requests[..k] + [requests[k]];
    ServeOneMore(site, requests[..k], requests[k]);
  }

  ghost predicate AlwaysPublic(site: Site, requests: seq<Request>, owner: OwnerId, n: nat)
    requires n <= |requests|
  {
    forall k :: 0 <= k <= n ==>
      Within(LimitsFor(site, owner).maxPublic, CountsFor(Before(site, requests, k), owner).open)
  }

  ghost predicate AlwaysPrivate(site: Site, requests: seq<Request>, owner: OwnerId, n: nat)
    requires n <= |requests|
  {
    forall k :: 0 <= k <= n ==>
      Within(LimitsFor(site, owner).maxPrivate, CountsFor(Before(site, requests, k), owner).closed)
  }

  lemma NothingAtFirst(site: Site, requests: seq<Request>, owner: OwnerId)
    ensures CountsFor(Before(site, requests, 0), owner) == Counts(0, 0, 0)
  {
    assert requests[..0] == [];
    assert PublicOf(FRESH, Index(FRESH, owner)) == {};
  }

  ghost predicate NoneBreaksPublic(site: Site, requests: seq<Request>, owner: OwnerId, n: nat)
    requires n <= |requests|
  {
    forall k :: 0 <= k < n ==> !BreaksPublic(site, Before(site, requests, k), requests[k], owner)
  }

  ghost predicate NoneBreaksPrivate(site: Site, requests: seq<Request>, owner: OwnerId, n: nat)
    requires n <= |requests|
  {
    forall k :: 0 <= k < n ==> !BreaksPrivate(site, Before(site, requests, k), requests[k], owner)
  }

  lemma OneRequestMore(site: Site, requests: seq<Request>, owner: OwnerId, n: nat)
    requires n < |requests|
    ensures NoneBreaksPublic(site, requests, owner, n + 1)
       <==> NoneBreaksPublic(site, requests, owner, n)
            && !BreaksPublic(site, Before(site, requests, n), requests[n], owner)
    ensures NoneBreaksPrivate(site, requests, owner, n + 1)
       <==> NoneBreaksPrivate(site, requests, owner, n)
            && !BreaksPrivate(site, Before(site, requests, n), requests[n], owner)
  {
    hide BreaksPublic;
    hide BreaksPrivate;
    hide Before;
  }

  lemma OneCountMore(site: Site, requests: seq<Request>, owner: OwnerId, n: nat)
    requires n < |requests|
    ensures var limits, counts := LimitsFor(site, owner), CountsFor(Before(site, requests, n + 1), owner);
            && (AlwaysPublic(site, requests, owner, n + 1)
                <==> AlwaysPublic(site, requests, owner, n) && Within(limits.maxPublic, counts.open))
            && (AlwaysPrivate(site, requests, owner, n + 1)
                <==> AlwaysPrivate(site, requests, owner, n) && Within(limits.maxPrivate, counts.closed))
  {
    hide Before;
    hide CountsFor;
    hide LimitsFor;
  }

  lemma SoFar(site: Site, requests: seq<Request>, owner: OwnerId, n: nat)
    requires n <= |requests|
    ensures AlwaysPublic(site, requests, owner, n) ==>
              Within(LimitsFor(site, owner).maxPublic, CountsFor(Before(site, requests, n), owner).open)
    ensures AlwaysPrivate(site, requests, owner, n) ==>
              Within(LimitsFor(site, owner).maxPrivate, CountsFor(Before(site, requests, n), owner).closed)
  {
    hide Before;
    hide CountsFor;
    hide LimitsFor;
  }

  lemma {:induction false} PublicUpTo(site: Site, requests: seq<Request>, owner: OwnerId, n: nat)
    requires n <= |requests|
    ensures AlwaysPublic(site, requests, owner, n) <==> NoneBreaksPublic(site, requests, owner, n)
  {
    if n == 0 {
      NothingAtFirst(site, requests, owner);
    } else {
      hide *;
      PublicUpTo(site, requests, owner, n - 1);
      BeforeNext(site, requests, n - 1);
      OneRequestMore(site, requests, owner, n - 1);
      OneCountMore(site, requests, owner, n - 1);
      SoFar(site, requests, owner, n - 1);
      if AlwaysPublic(site, requests, owner, n - 1) {
        PublicBreaksIff(site, Before(site, requests, n - 1), requests[n - 1], owner);
      }
    }
  }

  lemma {:induction false} PrivateUpTo(site: Site, requests: seq<Request>, owner: OwnerId, n: nat)
    requires n <= |requests|
    ensures AlwaysPrivate(site, requests, owner, n) <==> NoneBreaksPrivate(site, requests, owner, n)
  {
    if n == 0 {
      NothingAtFirst(site, requests, owner);
    } else {
      hide *;
      PrivateUpTo(site, requests, owner, n - 1);
      BeforeNext(site, requests, n - 1);
      OneRequestMore(site, requests, owner, n - 1);
      OneCountMore(site, requests, owner, n - 1);
      SoFar(site, requests, owner, n - 1);
      if AlwaysPrivate(site, requests, owner, n - 1) {
        PrivateBreaksIff(site, Before(site, requests, n - 1), requests[n - 1], owner);
      }
    }
  }

  /** In every run whatever, by whatever owners and with whatever keys, an owner's total stays within its limit. */
  lemma {:induction false} TotalCapped(site: Site, requests: seq<Request>, owner: OwnerId)
    ensures Within(LimitsFor(site, owner).maxTotal, CountsFor(ServeAll(site, requests), owner).total)
  {
    if requests != [] {
      var n := |requests| - 1;
      TotalCapped(site, requests[..n], owner);
      TotalStays(site, ServeAll(site, requests[..n]), requests[n], owner);
    }
  }

  /** A run keeps the public count within its limit throughout exactly when none of its requests breaks it. */
  lemma PublicCappedIff(site: Site, requests: seq<Request>, owner: OwnerId)
    ensures AlwaysPublic(site, requests, owner, |requests|)
       <==> forall k :: 0 <= k < |requests| ==> !BreaksPublic(site, Before(site, requests, k), requests[k], owner)
  {
    PublicUpTo(site, requests, owner, |requests|);
  }

  /** The same for the private count. */
  lemma PrivateCappedIff(site: Site, requests: seq<Request>, owner: OwnerId)
    ensures AlwaysPrivate(site, requests, owner, |requests|)
       <==> forall k :: 0 <= k < |requests| ==> !BreaksPrivate(site, Before(site, requests, k), requests[k], owner)
  {
    PrivateUpTo(site, requests, owner, |requests|);
  }

  // =========================================================== without expiry

  /** An owner whose identifier is read back from a hash as the text it is. */
  predicate Named(owner: OwnerId) { Deserialize(owner) == Text(owner) }

  /** Without expiry an owner's index lists only live switches recorded as its own. */
  ghost predicate Living(db: Db, owner: OwnerId) {
    forall uid :: uid in Index(db, owner) ==> uid in db.switches && db.switches[uid].ownerId == Some(owner)
  }

  predicate NoExpiry(r: Request) { !r.HashExpires? && !r.IndexExpires? }

  lemma HashKept(site: Site, db: Db, r: Request, owner: OwnerId, uid: Uid)
    requires Named(owner) && NoExpiry(r) && r != Delete(uid)
    requires uid in db.switches && db.switches[uid].ownerId == Some(owner)
    ensures uid in Serve(site, db, r).switches && Serve(site, db, r).switches[uid].ownerId == Some(owner)
  {
  }

  lemma ServeKeepsLiving(site: Site, db: Db, r: Request, owner: OwnerId, uid: Uid)
    requires Living(db, owner) && Named(owner) && NoExpiry(r) && uid in Index(Serve(site, db, r), owner)
    ensures uid in Serve(site, db, r).switches && Serve(site, db, r).switches[uid].ownerId == Some(owner)
  {
    IndexAt(site, db, r, owner, uid);
    if uid in Index(db, owner) {
      assert uid in db.switches && db.switches[uid].ownerId == Some(owner);
      assert r != Delete(uid);
      HashKept(site, db, r, owner, uid);
    }
  }

  lemma {:induction false} AllLiving(site: Site, requests: seq<Request>, owner: OwnerId)
    requires Named(owner) && forall r :: r in requests ==> NoExpiry(r)
    ensures Living(ServeAll(site, requests), owner)
  {
    if requests != [] {
      var n := |requests| - 1;
      var db := ServeAll(site, requests[..n]);
      AllLiving(site, requests[..n], owner);
      forall uid | uid in Index(Serve(site, db, requests[n]), owner)
        ensures uid in Serve(site, db, requests[n]).switches
             && Serve(site, db, requests[n]).switches[uid].ownerId == Some(owner)
      {
        ServeKeepsLiving(site, db, requests[n], owner, uid);
      }
    }
  }

  /** Nobody else can touch what is alive and recorded as the owner's. */
  lemma LivingIsSafe(site: Site, db: Db, r: Request, owner: OwnerId)
    requires Living(db, owner) && Named(owner)
    ensures !BreaksPublic(site, db, r, owner)
    ensures NoExpiry(r) && !r.Delist? ==> !BreaksPrivate(site, db, r, owner)
  {
  }

  /**
   * Over creations, owners' updates, delistings, deletions and toggles by anybody,
   * with whatever keys, an owner's total and public counts stay within the limits
   * of its tier; and without delistings its private count does too.
   */
  lemma CappedWithoutExpiry(site: Site, requests: seq<Request>, owner: OwnerId)
    requires Named(owner) && forall r :: r in requests ==> NoExpiry(r)
    ensures var counts, l := CountsFor(ServeAll(site, requests), owner), LimitsFor(site, owner);
            && Within(l.maxTotal, counts.total) && Within(l.maxPublic, counts.open)
            && ((forall r :: r in requests ==> !r.Delist?) ==> Within(l.maxPrivate, counts.closed))
  {
    var n := |requests|;
    assert requests[..n] == requests;
    TotalCapped(site, requests, owner);
    forall k | 0 <= k < n
      ensures !BreaksPublic(site, Before(site, requests, k), requests[k], owner)
      ensures !requests[k].Delist? ==> !BreaksPrivate(site, Before(site, requests, k), requests[k], owner)
    {
      assert forall r :: r in requests[..k] ==> r in requests;
      assert requests[k] in requests;
      AllLiving(site, requests[..k], owner);
      LivingIsSafe(site, Before(site, requests, k), requests[k], owner);
    }
    PublicCappedIff(site, requests, owner);
    PrivateCappedIff(site, requests, owner);
    assert Before(site, requests, n) == ServeAll(site, requests);
    assert forall k :: 0 <= k < n ==> requests[k] in requests;
  }

  // ============================================================== with expiry

  /** Whose key signs for a switch: the one owner who ever creates it. */
  type Holder = Uid -> OwnerId

  predicate OneHolder(holder: Holder, requests: seq<Request>) {
    forall i :: 0 <= i < |requests| && requests[i].Create? ==> requests[i].owner == holder(requests[i].uid)
  }

  /** The owner's index lists only its own switches, and nobody else is recorded as their owner. */
  ghost predicate Own(holder: Holder, db: Db, owner: OwnerId) {
    forall uid :: OwnAt(holder, db, owner, uid)
  }

  predicate OwnAt(holder: Holder, db: Db, owner: OwnerId, uid: Uid) {
    && (uid in Index(db, owner) ==> holder(uid) == owner)
    && (uid in db.switches && holder(uid) == owner ==>
          db.switches[uid].ownerId == None || db.switches[uid].ownerId == Some(owner))
  }

  lemma ServeKeepsOwn(site: Site, holder: Holder, db: Db, r: Request, owner: OwnerId, uid: Uid)
    requires OwnAt(holder, db, owner, uid) && Named(owner)
    requires r.Create? ==> r.owner == holder(r.uid)
    ensures OwnAt(holder, Serve(site, db, r), owner, uid)
  {
    IndexAt(site, db, r, owner, uid);
  }

  lemma {:induction false} AllOwn(site: Site, holder: Holder, requests: seq<Request>, owner: OwnerId)
    requires Named(owner) && OneHolder(holder, requests)
    ensures Own(holder, ServeAll(site, requests), owner)
  {
    if requests != [] {
      var n := |requests| - 1;
      var db := ServeAll(site, requests[..n]);
      AllOwn(site, holder, requests[..n], owner);
      forall uid ensures OwnAt(holder, Serve(site, db, requests[n]), owner, uid) {
        assert OwnAt(holder, db, owner, uid);
        ServeKeepsOwn(site, holder, db, requests[n], owner, uid);
      }
    }
  }

  lemma OwnIsSafe(site: Site, holder: Holder, db: Db, r: Request, owner: OwnerId)
    requires Own(holder, db, owner) && Named(owner) && (r.Create? ==> r.owner == holder(r.uid))
    ensures !BreaksPublic(site, db, r, owner)
  {
    if r.Create? || r.OwnerUpdate? {
      assert OwnAt(holder, db, owner, r.uid);
    }
  }

  /**
   * With expiry of switches and of the index as well, an owner's total and public
   * counts stay within the limits of its tier as long as nobody else creates a
   * switch with one of its keys.
   */
  lemma TotalAndPublicCapped(site: Site, holder: Holder, requests: seq<Request>, owner: OwnerId)
    requires Named(owner) && OneHolder(holder, requests)
    ensures var counts, l := CountsFor(ServeAll(site, requests), owner), LimitsFor(site, owner);
            Within(l.maxTotal, counts.total) && Within(l.maxPublic, counts.open)
  {
    var n := |requests|;
    assert requests[..n] == requests;
    TotalCapped(site, requests, owner);
    forall k | 0 <= k < n
      ensures !BreaksPublic(site, Before(site, requests, k), requests[k], owner)
    {
      AllOwn(site, holder, requests[..k], owner);
      OwnIsSafe(site, holder, Before(site, requests, k), requests[k], owner);
    }
    PublicCappedIff(site, requests, owner);
    assert Before(site, requests, n) == ServeAll(site, requests);
  }

  // ==================================================== where the caps do break

  /** Two switches, at most one public and one private: delisting the public one makes two private. */
  lemma DelistBreaksPrivate(site: Site, owner: OwnerId) returns (requests: seq<Request>)
    requires LimitsFor(site, owner) == Limits(2, 1, 1)
    ensures !Within(1, CountsFor(ServeAll(site, requests), owner).closed)
  {
    var r0, r1, r2 := Create(owner, "a", true, true), Create(owner, "b", false, true), Delist("a");
    requests := [] + [r0] + [r1] + [r2];
    var db0, db1 := Serve(site, FRESH, r0), Serve(site, Serve(site, FRESH, r0), r1);
    ServeOneMore(site, [], r0);
    ServeOneMore(site, [] + [r0], r1);
    ServeOneMore(site, [] + [r0] + [r1], r2);
    OneEach(site, owner);
    PrivateBreaksIff(site, db1, r2, owner);
  }

  lemma OneEach(site: Site, owner: OwnerId)
    requires LimitsFor(site, owner) == Limits(2, 1, 1)
    ensures var db := Serve(site, Serve(site, FRESH, Create(owner, "a", true, true)), Create(owner, "b", false, true));
            "a" in PublicOf(db, Index(db, owner)) && CountsFor(db, owner) == Counts(2, 1, 1)
  {
    assert PublicOf(FRESH, Index(FRESH, owner)) == {};
    var db0 := Serve(site, FRESH, Create(owner, "a", true, true));
    assert Index(db0, owner) == {"a"} && PublicOf(db0, {"a"}) == {"a"};
    var db1 := Serve(site, db0, Create(owner, "b", false, true));
    assert "a" != "b";
    assert Index(db1, owner) == {"a", "b"} && PublicOf(db1, {"a", "b"}) == {"a"};
    assert |{"a", "b"}| == 2;
  }

  lemma Abandoned(site: Site, owner: OwnerId)
    requires LimitsFor(site, owner) == Limits(2, 1, 2)
    ensures var db := Serve(site, Serve(site, FRESH, Create(owner, "a", true, true)), HashExpires("a"));
            db == Db(map[], {"a"}, map[owner := {"a"}], {}, {})
  {
    assert PublicOf(FRESH, Index(FRESH, owner)) == {};
    assert {} + {"a"} == {"a"};
  }

  lemma AnotherOne(site: Site, owner: OwnerId, other: OwnerId)
    requires owner != other && LimitsFor(site, owner) == Limits(2, 1, 2)
    ensures var db := Serve(site, Db(map[], {"a"}, map[owner := {"a"}], {}, {}), Create(owner, "b", true, true));
            "a" in Index(db, owner) && "a" !in db.switches && CountsFor(db, owner).open == 1 && Index(db, other) == {}
  {
    var db := Db(map[], {"a"}, map[owner := {"a"}], {}, {});
    assert PublicOf(db, {"a"}) == {} && |{"a"}| == 1;
    var db' := Serve(site, db, Create(owner, "b", true, true));
    assert Index(db', owner) == {"a", "b"} && "a" != "b";
    assert PublicOf(db', {"a", "b"}) == {"b"};
  }

  /** A key used by two owners lets one of them push the other's public count over its limit. */
  lemma SharedKeyBreaksPublic(site: Site, owner: OwnerId, other: OwnerId) returns (requests: seq<Request>)
    requires owner != other && LimitsFor(site, owner) == Limits(2, 1, 2) && LimitsFor(site, other) == Limits(2, 1, 2)
    ensures !Within(1, CountsFor(ServeAll(site, requests), owner).open)
  {
    var r0, r1 := Create(owner, "a", true, true), HashExpires("a");
    var r2, r3 := Create(owner, "b", true, true), Create(other, "a", true, true);
    requests := [] + [r0] + [r1] + [r2] + [r3];
    ServeOneMore(site, [], r0);
    ServeOneMore(site, [] + [r0], r1);
    ServeOneMore(site, [] + [r0] + [r1], r2);
    ServeOneMore(site, [] + [r0] + [r1] + [r2], r3);
    Abandoned(site, owner);
    AnotherOne(site, owner, other);
    var db2 := Serve(site, Serve(site, Serve(site, FRESH, r0), r1), r2);
    assert PublicOf(db2, {}) == {};
    PublicBreaksIff(site, db2, r3, owner);
  }

  // ============================================================== the methods

  lemma OneMore(db: Db, members: seq<Uid>, i: nat)
    requires i < |members| && Distinct(members)
    ensures var seen, next, uid := Elements(members[..i]), Elements(members[..i + 1]), members[i];
            && |next| == |seen| + 1
            && |PublicOf(db, next)|
               == |PublicOf(db, seen)| + if uid in db.switches && db.switches[uid].publicize then 1 else 0
  {
    var seen, next, uid := Elements(members[..i]), Elements(members[..i + 1]), members[i];
    assert uid !in members[..i] && members[..i + 1] == members[..i] + [uid];
    assert next == seen + {uid};
    if uid in db.switches && db.switches[uid].publicize {
      assert PublicOf(db, next) == PublicOf(db, seen) + {uid};
    } else {
      assert PublicOf(db, next) == PublicOf(db, seen);
    }
  }

  /** `members` is the order in which the store returns the index. */
  method CountSwitchesInSet(store: Store, members: seq<Uid>) returns (counts: Counts)
    requires Distinct(members)
    ensures counts == CountsOf(store.Now(), Elements(members))
  {
    var open := 0;
    for i := 0 to |members|
      invariant |Elements(members[..i])| == i && open == |PublicOf(store.Now(), Elements(members[..i]))|
    {
      OneMore(store.Now(), members, i);
      if members[i] in store.switches && store.switches[members[i]].publicize {
        open := open + 1;
      }
    }
    assert members[..|members|] == members;
    return Counts(|members|, open, |members| - open);
  }

  predicate Enumerates(members: seq<Uid>, uids: set<Uid>) {
    Distinct(members) && Elements(members) == uids
  }

  method CreateRequest(store: Store, site: Site, owner: OwnerId, uid: Uid, wanted: bool,
                       goesOn: bool, members: seq<Uid>)
    requires store.prints == site.prints && Inv(store.Now()) && Enumerates(members, Index(store.Now(), owner))
    modifies store
    ensures Inv(store.Now())
    ensures store.Now() == Serve(site, old(store.Now()), Create(owner, uid, wanted, goesOn))
  {
    if uid in store.switches {
      return;
    }
    var counts := CountSwitchesInSet(store, members);
    var verdict := CheckCreate(LimitsFor(site, owner), counts, wanted);
    if verdict != Fine || !goesOn {
      return;
    }
    store.CreateSwitchV2(uid, owner, wanted);
  }

  method UpdateRequest(store: Store, site: Site, owner: OwnerId, uid: Uid, publicize: Option<bool>,
                       goesOn: bool, members: seq<Uid>)
    requires store.prints == site.prints && Inv(store.Now()) && Enumerates(members, Index(store.Now(), owner))
    modifies store
    ensures Inv(store.Now())
    ensures store.Now() == Serve(site, old(store.Now()), OwnerUpdate(owner, uid, publicize, goesOn))
  {
    if !Owns(store.Now(), owner, uid) {
      return;
    }
    var counts := CountSwitchesInSet(store, members);
    var verdict := CheckUpdate(LimitsFor(site, owner), counts, publicize, store.switches[uid].publicize);
    if verdict != Fine || !goesOn {
      return;
    }
    var _ := store.UpdateSwitch(uid, publicize, None);
  }
}
