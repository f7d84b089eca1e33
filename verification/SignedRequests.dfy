/**
 * Signed requests: what the client signs is what the server rebuilds
 * (catalogue/lib/requests.js:17-177, webserver/src/routes/route-helpers.js:280-361,
 * webserver/src/routes/v2-routes.js:464-474).
 */
module SignedRequests {

  import opened Options
  import opened Sequences
  import ClientHello
  import opened StableJson

  /** A text that is absent is the empty one. */
  function Or(a: string, b: string): string { if a != "" then a else b }

  // ============================================================= chosen fields

  type Getter = string -> Option<Json>

  /** An object literal: the names of `order` that have a value, in that order. */
  function Present(order: seq<string>, get: Getter): seq<Entry> {
    if order == [] then []
    else
      var n := |order| - 1;
      Present(order[..n], get) + if get(order[n]).Some? then [Entry(order[n], get(order[n]).value)] else []
  }

  lemma {:induction false} PresentLookup(order: seq<string>, get: Getter)
    requires Distinct(order)
    ensures var r := Present(order, get);
            && Distinct(KeysOf(r)) && (forall i :: 0 <= i < |r| ==> r[i].key in order)
            && forall k :: Lookup(r, k) == if k in order then get(k) else None
    decreases |order|
  {
    if order != [] {
      var n := |order| - 1;
      var before, key := Present(order[..n], get), order[n];
      assert order == order[..n] + [key];
      PresentLookup(order[..n], get);
      if get(key).Some? {
        var r := before + [Entry(key, get(key).value)];
        AppendNew(before, key, get(key).value);
        assert r == Present(order, get);
      } else {
        assert before + [] == before;
      }
    }
  }

  lemma AppendNew(entries: seq<Entry>, key: string, value: Json)
    requires Distinct(KeysOf(entries)) && Lookup(entries, key) == None
    ensures var r := entries + [Entry(key, value)];
            && Distinct(KeysOf(r)) && Lookup(r, key) == Some(value)
            && forall k :: k != key ==> Lookup(r, k) == Lookup(entries, k)
  {
    var n := |entries|;
    var r := entries + [Entry(key, value)];
    assert r == entries[..n] + [Entry(key, value)] + entries[n..];
    HasIsIn(entries, key);
    assert KeysOf(r) == KeysOf(entries)[..n] + [key] + KeysOf(entries)[n..];
    DistinctWithOneMore(KeysOf(entries), n, key);
    LookupIs(r, key, n);
    forall k | k != key ensures Lookup(r, k) == Lookup(entries, k) {
      LookupWithOneMore(entries, n, Entry(key, value), k);
    }
  }

  /** The order in which a literal lists its names does not matter. */
  lemma PresentSorted(one: seq<string>, two: seq<string>, get: Getter, got: Getter)
    requires Distinct(one) && Distinct(two) && forall k :: k in one <==> k in two
    requires "constructor" !in one
    requires forall k :: k in one ==> get(k) == got(k)
    ensures Sort(Obj(Present(one, get))) == Sort(Obj(Present(two, got)))
  {
    var a, b := Present(one, get), Present(two, got);
    PresentLookup(one, get);
    PresentLookup(two, got);
    assert Lookup(a, "constructor") == None && Lookup(b, "constructor") == None;
    SortDependsOn(a, b);
  }

  /** Two objects that differ only in the order inside a field agree once that is sorted. */
  lemma SortedInside(entries: seq<Entry>, key: string, a: Json, b: Json)
    requires Sort(a) == Sort(b) && !Has(entries + [Entry(key, a)], "constructor")
    ensures Sort(Obj(entries + [Entry(key, a)])) == Sort(Obj(entries + [Entry(key, b)]))
  {
    var left, right := entries + [Entry(key, a)], entries + [Entry(key, b)];
    SameFind(left, right, "constructor");
    SortObj(left);
    SortObj(right);
    assert KeysOf(left) == KeysOf(right);
    assert SortedValues(left) == SortedValues(right);
  }

  // ==================================================================== create

  /** The text of a canonical object; `stringify` is JSON.stringify on what is already sorted. */
  function Signed(stringify: Json -> string, entries: seq<Entry>): string { stringify(Sort(Obj(entries))) }

  datatype Meta = Meta(name: Option<string>, description: string, location: string, category: string,
                       publicize: bool, link: string, iconUrl: Option<string>, bannerUrl: Option<string>)

  function TextOf(s: Option<string>): Option<Json> { if s.Some? then Some(Text(s.value)) else None }

  /** The client's payload, name by name. */
  function ClientField(m: Meta, key: string): Option<Json> {
    if key == "description" then Some(Text(Or(m.description, "")))
    else if key == "location" then Some(Text(Or(m.location, "")))
    else if key == "category" then Some(Text(Or(m.category, "Other")))
    else if key == "publicize" then Some(Bool(m.publicize))
    else if key == "link" then Some(Text(Or(m.link, "")))
    else if key == "name" then TextOf(m.name)
    else if key == "iconUrl" then TextOf(m.iconUrl)
    else if key == "bannerUrl" then TextOf(m.bannerUrl)
    else None
  }

  const CLIENT_ORDER := ["description", "location", "category", "publicize", "link", "name", "iconUrl", "bannerUrl"]
  const SERVER_ORDER := ["name", "description", "location", "category", "publicize", "link", "iconUrl", "bannerUrl"]

  function PickCreatePayload(m: Meta): seq<Entry> { Present(CLIENT_ORDER, key => ClientField(m, key)) }

  /** A field of the body once the request has been validated: five of them have defaults. */
  function Validated(body: seq<Entry>, key: string): Option<Json> {
    if Has(body, key) then Lookup(body, key)
    else if key == "description" || key == "location" || key == "link" then Some(Text(""))
    else if key == "category" then Some(Text("Other"))
    else if key == "publicize" then Some(Bool(false))
    else None
  }

  function TextOr(v: Option<Json>, otherwise: string): Option<Json> {
    if v.Some? && v.value.Text? && v.value.s != "" then v else Some(Text(otherwise))
  }

  function IfText(v: Option<Json>): Option<Json> { if v.Some? && v.value.Text? then v else None }

  /** The server's payload, name by name. */
  function ServerField(body: seq<Entry>, key: string): Option<Json> {
    var v := Validated(body, key);
    if key == "name" || key == "iconUrl" || key == "bannerUrl" then IfText(v)
    else if key == "description" || key == "location" || key == "link" then TextOr(v, "")
    else if key == "category" then TextOr(v, "Other")
    else if key == "publicize" then Some(Bool(v == Some(Bool(true))))
    else None
  }

  function PickSwitchMetadata(body: seq<Entry>): seq<Entry> { Present(SERVER_ORDER, key => ServerField(body, key)) }

  /** What both sides take from the signed header; the server derives the name from the switch's key. */
  datatype CreateHeader = CreateHeader(ownerPubKey: string, switchPubKey: string, index: real, ts: real, nonce: string)

  type Namer = string -> string

  function CreateObject(h: CreateHeader, uid: string, payload: seq<Entry>): seq<Entry> {
    [Entry("v", Number(2.0)), Entry("action", Text("create_switch")), Entry("ownerPubKey", Text(h.ownerPubKey)),
     Entry("switchPubKey", Text(h.switchPubKey)), Entry("uid", Text(uid)), Entry("index", Number(h.index)),
     Entry("ts", Number(h.ts)), Entry("nonce", Text(h.nonce))] + [Entry("payload", Obj(payload))]
  }

  lemma OrdersAgree()
    ensures Distinct(CLIENT_ORDER) && Distinct(SERVER_ORDER) && forall k :: k in CLIENT_ORDER <==> k in SERVER_ORDER
    ensures "constructor" !in CLIENT_ORDER && "__proto__" !in CLIENT_ORDER
  {
    assert "name"[0] == 'n' && "link"[0] == 'l';
    assert "location"[0] == 'l' && "category"[0] == 'c';
    assert "publicize"[0] == 'p' && "bannerUrl"[0] == 'b' && "__proto__"[0] == '_';
    assert "description"[0] == 'd' && "constructor"[0] == 'c';
  }

  /** What the server reads from the body is what the client put there. */
  lemma FieldsAgree(m: Meta, body: seq<Entry>, key: string)
    requires Lookup(body, key) == ClientField(m, key)
    ensures ServerField(body, key) == ClientField(m, key)
  {
  }

  lemma PayloadsAgree(m: Meta)
    ensures Sort(Obj(PickCreatePayload(m))) == Sort(Obj(PickSwitchMetadata(PickCreatePayload(m))))
  {
    var body := PickCreatePayload(m);
    var get, got := key => ClientField(m, key), key => ServerField(body, key);
    OrdersAgree();
    PresentLookup(CLIENT_ORDER, get);
    forall k | k in CLIENT_ORDER ensures get(k) == got(k) {
      FieldsAgree(m, body, k);
    }
    PresentSorted(CLIENT_ORDER, SERVER_ORDER, get, got);
  }

  /**
   * Creating a switch: from the body alone the server rebuilds exactly the text
   * the client signed, for every metadata.
   */
  lemma CreateAgrees(stringify: Json -> string, uidOf: Namer, h: CreateHeader, m: Meta)
    ensures Signed(stringify, CreateObject(h, uidOf(h.switchPubKey), PickCreatePayload(m)))
         == Signed(stringify, CreateObject(h, uidOf(h.switchPubKey), PickSwitchMetadata(PickCreatePayload(m))))
  {
    var body, uid := PickCreatePayload(m), uidOf(h.switchPubKey);
    PayloadsAgree(m);
    CreateIsPlain(h, uid, body);
    SortedInside(CreateObject(h, uid, body)[..8], "payload", Obj(body), Obj(PickSwitchMetadata(body)));
  }

  lemma CreateIsPlain(h: CreateHeader, uid: string, payload: seq<Entry>)
    ensures !Has(CreateObject(h, uid, payload), "constructor")
  {
    assert "ownerPubKey"[0] == 'o' && "constructor"[0] == 'c';
    var o := CreateObject(h, uid, payload);
    assert forall i :: 0 <= i < |o| ==> o[i].key != "constructor";
  }

  // ==================================================================== update

  datatype Header = Header(ownerPubKey: Json, ts: Json, nonce: Json)

  function UpdateObject(h: Header, uid: string, payload: seq<Entry>): seq<Entry> {
    [Entry("v", Number(2.0)), Entry("action", Text("update_switch")), Entry("uid", Text(uid)),
     Entry("ownerPubKey", h.ownerPubKey), Entry("ts", h.ts), Entry("nonce", h.nonce)] + [Entry("payload", Obj(payload))]
  }

  function Overridden(updates: seq<Entry>, key: string, v: Json): Json {
    if Has(updates, key) then Lookup(updates, key).value else v
  }

  /** The body spreads the updates over the header. */
  function SentHeader(h: Header, updates: seq<Entry>): Header {
    Header(Overridden(updates, "ownerPubKey", h.ownerPubKey), Overridden(updates, "ts", h.ts),
           Overridden(updates, "nonce", h.nonce))
  }

  const METADATA := ["name", "description", "location", "category", "publicize", "link", "iconUrl", "bannerUrl"]

  /** A text that validation takes for a boolean, whatever its case. */
  predicate BooleanText(v: Json) {
    v.Text? && (ClientHello.Lower(v.s) == "true" || ClientHello.Lower(v.s) == "false")
  }

  /** What validation makes of a field of the body: it converts only this one. */
  function Converted(key: string, v: Json): Json {
    if key == "publicize" && BooleanText(v) then Bool(ClientHello.Lower(v.s) == "true") else v
  }

  function UpdateField(updates: seq<Entry>, key: string): Option<Json> {
    if Has(updates, key) then Some(Converted(key, Lookup(updates, key).value)) else None
  }

  /** The server signs for the metadata fields of the validated body only. */
  function PickUpdates(updates: seq<Entry>): seq<Entry> { Present(METADATA, key => UpdateField(updates, key)) }

  /** Validation leaves the switch's visibility as it was sent. */
  predicate KeptAsSent(updates: seq<Entry>) {
    Has(updates, "publicize") ==> !BooleanText(Lookup(updates, "publicize").value)
  }

  predicate OnlyMetadata(updates: seq<Entry>) {
    forall i :: 0 <= i < |updates| ==> updates[i].key in METADATA || updates[i].key == "__proto__"
  }

  lemma HeaderIsNoMetadata()
    ensures "ownerPubKey" !in METADATA && "ts" !in METADATA && "nonce" !in METADATA && "constructor" !in METADATA
    ensures Distinct(METADATA)
  {
    OrdersAgree();
    assert METADATA == SERVER_ORDER;
    assert "description"[0] == 'd' && "ownerPubKey"[0] == 'o';
  }

  lemma OnlyMetadataHas(updates: seq<Entry>, key: string)
    requires OnlyMetadata(updates) && key !in METADATA && key != "__proto__"
    ensures !Has(updates, key)
  {
  }

  lemma UpdateIsPlain(h: Header, uid: string, payload: seq<Entry>)
    ensures Distinct(KeysOf(UpdateObject(h, uid, payload))) && !Has(UpdateObject(h, uid, payload), "constructor")
    ensures Lookup(UpdateObject(h, uid, payload), "payload") == Some(Obj(payload))
  {
    var o := UpdateObject(h, uid, payload);
    assert "ownerPubKey"[0] == 'o' && "constructor"[0] == 'c';
    assert KeysOf(o) == ["v", "action", "uid", "ownerPubKey", "ts", "nonce", "payload"];
    LookupIs(o, "payload", 6);
    assert forall i :: 0 <= i < |o| ==> o[i].key != "constructor";
  }

  lemma SortedHas(entries: seq<Entry>, key: string)
    requires Distinct(KeysOf(entries)) && Has(entries, key) && key != "__proto__"
    ensures Sort(Obj(entries)).Obj? && Has(Sort(Obj(entries)).entries, key)
  {
    if !Has(entries, "constructor") {
      SortedLookup(entries);
      assert Lookup(Sort(Obj(entries)).entries, key).Some?;
    }
  }

  lemma PickedLookup(updates: seq<Entry>)
    ensures var picked := PickUpdates(updates);
            && Distinct(KeysOf(picked)) && !Has(picked, "constructor")
            && forall k :: Lookup(picked, k) == if k in METADATA then UpdateField(updates, k) else None
  {
    var get := key => UpdateField(updates, key);
    HeaderIsNoMetadata();
    PresentLookup(METADATA, get);
    assert Lookup(PickUpdates(updates), "constructor") == None;
  }

  /** What both sides sign for an update. */
  function UpdateSigned(h: Header, uid: string, updates: seq<Entry>): Json { Sort(Obj(UpdateObject(h, uid, updates))) }

  function UpdateRebuilt(h: Header, uid: string, updates: seq<Entry>): Json {
    Sort(Obj(UpdateObject(SentHeader(h, updates), uid, PickUpdates(updates))))
  }

  lemma MetadataAgrees(h: Header, uid: string, updates: seq<Entry>)
    requires Distinct(KeysOf(updates)) && OnlyMetadata(updates) && KeptAsSent(updates)
    ensures UpdateSigned(h, uid, updates) == UpdateRebuilt(h, uid, updates)
  {
    var picked := PickUpdates(updates);
    HeaderIsNoMetadata();
    OnlyMetadataHas(updates, "constructor");
    OnlyMetadataHas(updates, "ownerPubKey");
    OnlyMetadataHas(updates, "ts");
    OnlyMetadataHas(updates, "nonce");
    assert SentHeader(h, updates) == h;
    PickedLookup(updates);
    forall k | k != "__proto__" ensures Lookup(updates, k) == Lookup(picked, k) {
      if k !in METADATA {
        OnlyMetadataHas(updates, k);
      }
    }
    SortDependsOn(updates, picked);
    UpdateIsPlain(h, uid, updates);
    SortedInside(UpdateObject(h, uid, updates)[..6], "payload", Obj(updates), Obj(picked));
  }

  /** Under the same name, different sorted payloads make different objects. */
  lemma PayloadsShow(h: Header, sent: Header, uid: string, a: seq<Entry>, b: seq<Entry>)
    requires Sort(Obj(UpdateObject(h, uid, a))) == Sort(Obj(UpdateObject(sent, uid, b)))
    ensures Sort(Obj(a)) == Sort(Obj(b))
  {
    UpdateIsPlain(h, uid, a);
    UpdateIsPlain(sent, uid, b);
    SortedLookup(UpdateObject(h, uid, a));
    SortedLookup(UpdateObject(sent, uid, b));
    assert "payload"[0] == 'p' && "__proto__"[0] == '_';
    assert Lookup(Sort(Obj(UpdateObject(h, uid, a))).entries, "payload") == Some(Sort(Obj(a)));
    assert Lookup(Sort(Obj(UpdateObject(sent, uid, b))).entries, "payload") == Some(Sort(Obj(b)));
  }

  lemma OthersDisagree(updates: seq<Entry>, i: nat)
    requires Distinct(KeysOf(updates)) && i < |updates|
    requires updates[i].key !in METADATA && updates[i].key != "__proto__"
    ensures Sort(Obj(updates)) != Sort(Obj(PickUpdates(updates)))
  {
    var picked := PickUpdates(updates);
    LookupAt(updates, i);
    SortedHas(updates, updates[i].key);
    PickedLookup(updates);
    SortedLookup(picked);
    assert Lookup(picked, updates[i].key) == None;
    assert Lookup(Sort(Obj(picked)).entries, updates[i].key) == None;
  }

  lemma ConversionDisagrees(updates: seq<Entry>)
    requires Distinct(KeysOf(updates)) && OnlyMetadata(updates) && !KeptAsSent(updates)
    ensures Sort(Obj(updates)) != Sort(Obj(PickUpdates(updates)))
  {
    var picked := PickUpdates(updates);
    HeaderIsNoMetadata();
    OnlyMetadataHas(updates, "constructor");
    PickedLookup(updates);
    SortedLookup(updates);
    SortedLookup(picked);
    assert "publicize"[0] == 'p' && "__proto__"[0] == '_';
    assert Lookup(picked, "publicize").value.Bool? && Has(picked, "publicize");
    assert Lookup(Sort(Obj(picked)).entries, "publicize").value.Bool?;
    assert Lookup(Sort(Obj(updates)).entries, "publicize").value.Text?;
  }

  /**
   * Updating a switch: the server rebuilds what the client signed exactly when
   * the updates name nothing but metadata fields (an own `__proto__`, which the
   * canonical form drops, does no harm) and do not give the visibility as a text,
   * which validation would turn into a boolean.
   */
  lemma UpdateAgreesIff(h: Header, uid: string, updates: seq<Entry>)
    requires Distinct(KeysOf(updates))
    ensures UpdateSigned(h, uid, updates) == UpdateRebuilt(h, uid, updates)
       <==> OnlyMetadata(updates) && KeptAsSent(updates)
  {
    if OnlyMetadata(updates) && KeptAsSent(updates) {
      MetadataAgrees(h, uid, updates);
    } else {
      if OnlyMetadata(updates) {
        ConversionDisagrees(updates);
      } else {
        var i :| 0 <= i < |updates| && updates[i].key !in METADATA && updates[i].key != "__proto__";
        OthersDisagree(updates, i);
      }
      if UpdateSigned(h, uid, updates) == UpdateRebuilt(h, uid, updates) {
        PayloadsShow(h, SentHeader(h, updates), uid, updates, PickUpdates(updates));
      }
    }
  }

  /** The second way to fail: `"true"` is signed and `true` is rebuilt. */
  lemma TextVisibilityFails(h: Header, uid: string)
    ensures var updates := [Entry("publicize", Text("true"))];
            OnlyMetadata(updates) && UpdateSigned(h, uid, updates) != UpdateRebuilt(h, uid, updates)
  {
    var updates := [Entry("publicize", Text("true"))];
    assert ClientHello.Lower("true") == "true";
    UpdateAgreesIff(h, uid, updates);
  }

  // ===================================== listing, setting a state, access keys

  /** A field of a body, or null when it is not there. */
  function Read(body: seq<Entry>, key: string): Json { if Has(body, key) then Lookup(body, key).value else Null }

  lemma ReadPresent(order: seq<string>, get: Getter, i: nat)
    requires Distinct(order) && i < |order| && get(order[i]).Some?
    ensures Read(Present(order, get), order[i]) == get(order[i]).value
  {
    PresentLookup(order, get);
    assert Lookup(Present(order, get), order[i]).Some?;
  }

  /** The owner's part of a request that only the owner signs. */
  datatype OwnerHeader = OwnerHeader(ownerPubKey: string, ts: real, nonce: string)

  function OwnerField(h: OwnerHeader, sigOwner: string, key: string): Option<Json> {
    if key == "ownerPubKey" then Some(Text(h.ownerPubKey))
    else if key == "ts" then Some(Number(h.ts))
    else if key == "nonce" then Some(Text(h.nonce))
    else if key == "sigOwner" then Some(Text(sigOwner))
    else None
  }

  const OWNER_BODY := ["ownerPubKey", "ts", "nonce", "sigOwner"]

  /** The object signed for the owner's list, from a public key, a time and a nonce. */
  function ListObject(ownerPubKey: Json, ts: Json, nonce: Json): seq<Entry> {
    [Entry("v", Number(2.0)), Entry("action", Text("my_switches")), Entry("ownerPubKey", ownerPubKey),
     Entry("ts", ts), Entry("nonce", nonce)]
  }

  function ListBody(h: OwnerHeader, sigOwner: string): seq<Entry> {
    Present(OWNER_BODY, key => OwnerField(h, sigOwner, key))
  }

  lemma OwnerBodyIsDistinct()
    ensures Distinct(OWNER_BODY)
  {
  }

  /** Listing: the server rebuilds from the body the text the client signed. */
  lemma ListAgrees(stringify: Json -> string, h: OwnerHeader, sigOwner: string)
    ensures var body := ListBody(h, sigOwner);
            Signed(stringify, ListObject(Read(body, "ownerPubKey"), Read(body, "ts"), Read(body, "nonce")))
            == Signed(stringify, ListObject(Text(h.ownerPubKey), Number(h.ts), Text(h.nonce)))
  {
    var get := key => OwnerField(h, sigOwner, key);
    OwnerBodyIsDistinct();
    ReadPresent(OWNER_BODY, get, 0);
    ReadPresent(OWNER_BODY, get, 1);
    ReadPresent(OWNER_BODY, get, 2);
  }

  datatype Fields = Fields(name: Option<string>, permissions: Option<seq<string>>, ttlSeconds: Option<real>)

  function Texts(items: seq<string>): (r: seq<Json>)
    ensures |r| == |items|
  {
    seq(|items|, i requires 0 <= i < |items| => Text(items[i]))
  }

  const KEY_ORDER := ["name", "permissions", "ttlSeconds"]
  const KEY_BODY := ["ownerPubKey", "ts", "nonce", "sigOwner", "name", "permissions", "ttlSeconds"]

  function KeyField(f: Fields, key: string): Option<Json> {
    if key == "name" then TextOf(f.name)
    else if key == "permissions" then (if f.permissions.Some? then Some(List(Texts(f.permissions.value))) else None)
    else if key == "ttlSeconds" then (if f.ttlSeconds.Some? then Some(Number(f.ttlSeconds.value)) else None)
    else None
  }

  /** The client's access-key payload. */
  function AccessKeyPayload(f: Fields): seq<Entry> { Present(KEY_ORDER, key => KeyField(f, key)) }

  function KeyBodyField(h: OwnerHeader, sigOwner: string, f: Fields, key: string): Option<Json> {
    if OwnerField(h, sigOwner, key).Some? then OwnerField(h, sigOwner, key) else KeyField(f, key)
  }

  function AccessKeyBody(h: OwnerHeader, sigOwner: string, f: Fields): seq<Entry> {
    Present(KEY_BODY, key => KeyBodyField(h, sigOwner, f, key))
  }

  /** The server takes a field only where the body has it, with its own fallbacks. */
  function RebuiltField(body: seq<Entry>, key: string): Option<Json> {
    var v := Lookup(body, key);
    if v.None? then None
    else if key == "name" then TextOr(v, "")
    else if key == "permissions" then (if v.value.List? then v else Some(List([])))
    else if key == "ttlSeconds" then v
    else None
  }

  function RebuiltPayload(body: seq<Entry>): seq<Entry> { Present(KEY_ORDER, key => RebuiltField(body, key)) }

  function AccessKeyObject(uid: string, ownerPubKey: Json, ts: Json, nonce: Json, payload: seq<Entry>): seq<Entry> {
    [Entry("v", Number(2.0)), Entry("action", Text("create_access_key")), Entry("uid", Text(uid)),
     Entry("ownerPubKey", ownerPubKey), Entry("ts", ts), Entry("nonce", nonce), Entry("payload", Obj(payload))]
  }

  lemma {:induction false} PresentAgrees(order: seq<string>, get: Getter, got: Getter)
    requires forall k :: k in order ==> get(k) == got(k)
    ensures Present(order, get) == Present(order, got)
    decreases |order|
  {
    if order != [] {
      var n := |order| - 1;
      assert order == order[..n] + [order[n]];
      PresentAgrees(order[..n], get, got);
    }
  }

  lemma KeyBodyIsDistinct()
    ensures Distinct(KEY_BODY) && forall k :: k in KEY_ORDER ==> k in KEY_BODY
  {
    assert "ownerPubKey"[0] == 'o' && "permissions"[0] == 'p';
  }

  lemma KeyNamesAreNoHeader(h: OwnerHeader, sigOwner: string, k: string)
    requires k in KEY_ORDER
    ensures OwnerField(h, sigOwner, k) == None
  {
    assert "ownerPubKey"[0] == 'o' && "permissions"[0] == 'p';
  }

  /** What the server reads from the body of an access key is what the client put there. */
  lemma KeyBodyReads(h: OwnerHeader, sigOwner: string, f: Fields)
    ensures var body := AccessKeyBody(h, sigOwner, f);
            && Read(body, "ownerPubKey") == Text(h.ownerPubKey) && Read(body, "ts") == Number(h.ts)
            && Read(body, "nonce") == Text(h.nonce)
  {
    var get := key => KeyBodyField(h, sigOwner, f, key);
    KeyBodyIsDistinct();
    ReadPresent(KEY_BODY, get, 0);
    ReadPresent(KEY_BODY, get, 1);
    ReadPresent(KEY_BODY, get, 2);
  }

  lemma KeyBodyFields(h: OwnerHeader, sigOwner: string, f: Fields, k: string)
    requires k in KEY_ORDER
    ensures Lookup(AccessKeyBody(h, sigOwner, f), k) == KeyField(f, k)
  {
    KeyBodyIsDistinct();
    KeyNamesAreNoHeader(h, sigOwner, k);
    PresentLookup(KEY_BODY, key => KeyBodyField(h, sigOwner, f, key));
  }

  lemma KeyFieldRebuilt(f: Fields, body: seq<Entry>, k: string)
    requires Lookup(body, k) == KeyField(f, k)
    ensures RebuiltField(body, k) == KeyField(f, k)
  {
  }

  /** Creating an access key: from the body the server rebuilds the text the client signed. */
  lemma AccessKeyAgrees(stringify: Json -> string, uid: string, h: OwnerHeader, sigOwner: string, f: Fields)
    ensures var body := AccessKeyBody(h, sigOwner, f);
            Signed(stringify, AccessKeyObject(uid, Read(body, "ownerPubKey"), Read(body, "ts"), Read(body, "nonce"),
                                              RebuiltPayload(body)))
            == Signed(stringify,
                      AccessKeyObject(uid, Text(h.ownerPubKey), Number(h.ts), Text(h.nonce), AccessKeyPayload(f)))
  {
    var body := AccessKeyBody(h, sigOwner, f);
    KeyBodyReads(h, sigOwner, f);
    forall k | k in KEY_ORDER ensures RebuiltField(body, k) == KeyField(f, k) {
      KeyBodyFields(h, sigOwner, f, k);
      KeyFieldRebuilt(f, body, k);
    }
    PresentAgrees(KEY_ORDER, key => RebuiltField(body, key), key => KeyField(f, key));
  }

  /** `params && typeof params === 'object' ? params : {}`. */
  function ClientParams(params: Option<Json>): Json {
    if params.Some? && (params.value.Obj? || params.value.List?) then params.value else Obj([])
  }

  /** `data.params || {}`: anything that is not falsy stays. */
  function ServerParams(params: Json): Json {
    match params
    case Null => Obj([])
    case Bool(b) => if b then params else Obj([])
    case Number(n) => if n != 0.0 then params else Obj([])
    case Text(s) => if s != "" then params else Obj([])
    case _ => params
  }

  function SetStateObject(uid: string, ts: Json, nonce: Json, state: bool, params: Json): seq<Entry> {
    [Entry("v", Number(2.0)), Entry("action", Text("set_state")), Entry("uid", Text(uid)), Entry("ts", ts),
     Entry("nonce", nonce), Entry("state", Bool(state)), Entry("params", params)]
  }

  const STATE_BODY := ["ts", "nonce", "sigSwitch", "state", "params"]

  datatype StateRequest = StateRequest(ts: real, nonce: string, sigSwitch: string, state: bool, params: Option<Json>)

  function StateField(r: StateRequest, key: string): Option<Json> {
    if key == "ts" then Some(Number(r.ts))
    else if key == "nonce" then Some(Text(r.nonce))
    else if key == "sigSwitch" then Some(Text(r.sigSwitch))
    else if key == "state" then Some(Bool(r.state))
    else if key == "params" then Some(ClientParams(r.params))
    else None
  }

  function StateBody(r: StateRequest): seq<Entry> { Present(STATE_BODY, key => StateField(r, key)) }

  lemma StateBodyIsDistinct()
    ensures Distinct(STATE_BODY)
  {
    assert "nonce"[0] == 'n' && "state"[0] == 's';
  }

  lemma StateReads(r: StateRequest)
    ensures var body := StateBody(r);
            && Read(body, "ts") == Number(r.ts) && Read(body, "nonce") == Text(r.nonce)
            && Read(body, "state") == Bool(r.state) && Read(body, "params") == ClientParams(r.params)
  {
    var get := key => StateField(r, key);
    StateBodyIsDistinct();
    ReadPresent(STATE_BODY, get, 0);
    ReadPresent(STATE_BODY, get, 1);
    ReadPresent(STATE_BODY, get, 3);
    ReadPresent(STATE_BODY, get, 4);
  }

  /** What the server rebuilds; None when validation refuses the body because its parameters are no object. */
  function StateRebuilt(uid: string, body: seq<Entry>): Option<seq<Entry>> {
    var params := ServerParams(Read(body, "params"));
    if !params.Obj? then None
    else Some(SetStateObject(uid, Read(body, "ts"), Read(body, "nonce"), Read(body, "state") == Bool(true), params))
  }

  /**
   * Setting a state: whatever the parameters are, names and order included, the
   * server rebuilds the text the client signed, or refuses the body, which it does
   * exactly for a list of parameters.
   */
  lemma SetStateAgrees(stringify: Json -> string, uid: string, r: StateRequest)
    ensures var rebuilt := StateRebuilt(uid, StateBody(r));
            && (rebuilt.None? <==> r.params.Some? && r.params.value.List?)
            && (rebuilt.Some? ==>
                  Signed(stringify, rebuilt.value)
                  == Signed(stringify,
                            SetStateObject(uid, Number(r.ts), Text(r.nonce), r.state, ClientParams(r.params))))
  {
    StateReads(r);
  }
}
