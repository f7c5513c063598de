/**
 * Replaying the offline write queue to the remote document database
 * (`syncOfflineSales`, `syncOfflineInventory`): the request built for each
 * pending record, and the drain that sends them and marks acknowledged
 * records as synced. The network is a parameter that gives each request's
 * fetch outcome.
 */
module Sync {
  import opened Wrappers
  import opened Http
  import opened OfflineStore

  const DOCUMENTS_URL := "https://firestore.googleapis.com/v1/projects/pagerrysgrillsales/databases/(default)/documents"
  const SALES_URL := DOCUMENTS_URL + "/sales"
  const INVENTORY_URL := DOCUMENTS_URL + "/inventory/"
  const JSON_HEADERS := map["Content-Type" := "application/json"]

  /** A JavaScript value passed through without being read: a number, a timestamp, a line item. */
  datatype JsValue = JsValue(text: string)

  /** A field value in the database's typed wire format. */
  datatype Value =
    | StringValue(s: string)
    | DoubleValue(d: JsValue)
    | IntegerValue(n: JsValue)
    | BooleanValue(b: bool)
    | TimestampValue(t: JsValue)
    | ArrayValue(values: seq<Value>)
    | MapValue(fields: JsValue)

  /** The `fields` object of a document write. */
  type Fields = map<string, Value>

  /** A write sent to the remote database; `body` is absent for a delete. */
  datatype RemoteRequest = RemoteRequest(verb: string, url: string, headers: map<string, string>, body: Option<Fields>)

  /** A queued sale; the two customer fields may be missing. */
  datatype Sale = Sale(
    userId: string,
    section: string,
    items: seq<JsValue>,
    total: JsValue,
    paymentMethod: string,
    customerName: Option<string>,
    customerPhone: Option<string>,
    timestamp: JsValue)

  /** A queued inventory change; `kind` is the record's `type` property. */
  datatype InventoryChange = InventoryChange(
    kind: string,
    name: string,
    price: JsValue,
    stock: JsValue,
    section: string,
    status: string,
    description: Option<string>)

  /** `value || ''` for an optional string field. */
  function OrEmpty(s: Option<string>): string {
    if s.Some? then s.value else ""
  }

  const SALE_FIELDS := {"userId", "section", "items", "total", "paymentMethod",
                        "customerName", "customerPhone", "timestamp", "synced"}
  const INVENTORY_FIELDS := {"name", "price", "stock", "section", "status", "description", "updatedAt"}

  /** The line items as sent: one map value per item. */
  function ItemValues(items: seq<JsValue>): (vs: seq<Value>)
    ensures |vs| == |items|
  {
    if items == [] then [] else [MapValue(items[0])] + ItemValues(items[1..])
  }

  /** Reads line items back from an array's values; anything but map values fails. */
  function ItemsOf(vs: seq<Value>): Option<seq<JsValue>> {
    if vs == [] then Some([])
    else if !vs[0].MapValue? then None
    else match ItemsOf(vs[1..])
      case None => None
      case Some(rest) => Some([vs[0].fields] + rest)
  }

  /** The items read back are the items sent, in order. */
  lemma {:induction false} ItemsRoundTrip(items: seq<JsValue>)
    ensures ItemsOf(ItemValues(items)) == Some(items)
  {
    if items != [] {
      ItemsRoundTrip(items[1..]);
      assert ItemValues(items)[1..] == ItemValues(items[1..]);
      assert items == [items[0]] + items[1..];
    }
  }

  /** The string under `key`, if the field is there and typed as a string. */
  function StringOf(f: Fields, key: string): Option<string> {
    if key in f && f[key].StringValue? then Some(f[key].s) else None
  }

  /**
   * Reads a sale back from the fields of its write, checking every field's
   * type tag; a missing or mistyped field fails.
   */
  function SaleOf(f: Fields): Option<Sale> {
    if && StringOf(f, "userId").Some? && StringOf(f, "section").Some?
       && "items" in f && f["items"].ArrayValue? && ItemsOf(f["items"].values).Some?
       && "total" in f && f["total"].DoubleValue?
       && StringOf(f, "paymentMethod").Some?
       && StringOf(f, "customerName").Some? && StringOf(f, "customerPhone").Some?
       && "timestamp" in f && f["timestamp"].TimestampValue?
    then Some(Sale(StringOf(f, "userId").value, StringOf(f, "section").value, ItemsOf(f["items"].values).value,
                   f["total"].d, StringOf(f, "paymentMethod").value,
                   StringOf(f, "customerName"), StringOf(f, "customerPhone"), f["timestamp"].t))
    else None
  }

  /** A sale as its write carries it: a missing customer field is sent as the empty string. */
  function SaleAsSent(s: Sale): Sale {
    s.(customerName := Some(OrEmpty(s.customerName)), customerPhone := Some(OrEmpty(s.customerPhone)))
  }

  /**
   * A sale is created with a POST to the sales collection, flagged as not
   * synced; reading the write's fields back gives the sale, with the empty
   * string for a missing customer field.
   */
  function SaleRequest(sale: Record<Sale>): (r: RemoteRequest)
    ensures r.verb == "POST" && r.url == SALES_URL && r.headers == JSON_HEADERS
    ensures r.body.Some? && r.body.value.Keys == SALE_FIELDS
    ensures r.body.value["synced"] == BooleanValue(false)
    ensures SaleOf(r.body.value) == Some(SaleAsSent(sale.data))
  {
    var s := sale.data;
    ItemsRoundTrip(s.items);
    RemoteRequest("POST", SALES_URL, JSON_HEADERS, Some(map[
      "userId" := StringValue(s.userId),
      "section" := StringValue(s.section),
      "items" := ArrayValue(ItemValues(s.items)),
      "total" := DoubleValue(s.total),
      "paymentMethod" := StringValue(s.paymentMethod),
      "customerName" := StringValue(OrEmpty(s.customerName)),
      "customerPhone" := StringValue(OrEmpty(s.customerPhone)),
      "timestamp" := TimestampValue(s.timestamp),
      "synced" := BooleanValue(false)
    ]))
  }

  /**
   * Reads an inventory change and its `updatedAt` back from the fields of its
   * write, checking every field's type tag. The change's type is not part of
   * the write, so it is given.
   */
  function ChangeOf(kind: string, f: Fields): Option<(InventoryChange, JsValue)> {
    if && StringOf(f, "name").Some?
       && "price" in f && f["price"].DoubleValue?
       && "stock" in f && f["stock"].IntegerValue?
       && StringOf(f, "section").Some? && StringOf(f, "status").Some? && StringOf(f, "description").Some?
       && "updatedAt" in f && f["updatedAt"].TimestampValue?
    then Some((InventoryChange(kind, StringOf(f, "name").value, f["price"].d, f["stock"].n,
                               StringOf(f, "section").value, StringOf(f, "status").value,
                               StringOf(f, "description")),
               f["updatedAt"].t))
    else None
  }

  /** A change as its write carries it: a missing description is sent as the empty string. */
  function ChangeAsSent(c: InventoryChange): InventoryChange {
    c.(description := Some(OrEmpty(c.description)))
  }

  /**
   * An inventory change becomes a DELETE without a body when its type is
   * "delete", and otherwise a PATCH carrying its typed fields; both go to the
   * record's own document. `now` is the time stamped into `updatedAt`.
   */
  function InventoryRequest(change: Record<InventoryChange>, now: JsValue): (r: RemoteRequest)
    ensures r.verb == "DELETE" <==> change.data.kind == "delete"
    ensures r.verb == "DELETE" || r.verb == "PATCH"
    ensures r.url == INVENTORY_URL + change.id && r.headers == JSON_HEADERS
    ensures r.body.None? <==> r.verb == "DELETE"
    ensures r.body.Some? ==> r.body.value.Keys == INVENTORY_FIELDS &&
                             ChangeOf(change.data.kind, r.body.value) == Some((ChangeAsSent(change.data), now))
  {
    var c := change.data;
    var verb := if c.kind == "delete" then "DELETE" else "PATCH";
    var url := INVENTORY_URL + change.id;
    var body := if c.kind != "delete" then Some(map[
      "name" := StringValue(c.name),
      "price" := DoubleValue(c.price),
      "stock" := IntegerValue(c.stock),
      "section" := StringValue(c.section),
      "status" := StringValue(c.status),
      "description" := StringValue(OrEmpty(c.description)),
      "updatedAt" := TimestampValue(now)
    ]) else None;
    RemoteRequest(verb, url, JSON_HEADERS, body)
  }

  /** The inventory request builder with the clock reading fixed. */
  function InventoryBuilder(now: JsValue): Record<InventoryChange> -> RemoteRequest {
    change => InventoryRequest(change, now)
  }

  /** The drain counts a record as written when its fetch gives a response with `ok` set. */
  predicate Acknowledged(o: Outcome)
    ensures o.NetErr? ==> !Acknowledged(o)
    ensures o.Ok? ==> (Acknowledged(o) <==> 200 <= o.response.status <= 299)
  {
    o.Ok? && o.response.OkStatus()
  }

  /** Why a record's write was not acknowledged. */
  datatype Rejection = FetchFailed | NotOk(status: int)

  /** The store after a replay, the failure that stopped it, and the requests sent. */
  datatype Replayed<P> = Replayed(records: map<Id, Record<P>>, failure: Option<Rejection>, sent: seq<RemoteRequest>)

  /**
   * The replay of `pending`, one record after another: each record's request
   * is sent; an acknowledged record is marked synced; the first record that is
   * not acknowledged stops the replay, and the records marked before it stay
   * marked.
   */
  function Replay<P>(records: map<Id, Record<P>>, pending: seq<Record<P>>,
                     build: Record<P> -> RemoteRequest, server: RemoteRequest -> Outcome): (r: Replayed<P>)
    ensures |r.sent| <= |pending|
    ensures r.failure.Some? ==> |r.sent| >= 1
    decreases |pending|
  {
    if pending == [] then Replayed(records, None, [])
    else
      var req := build(pending[0]);
      match server(req)
      case NetErr => Replayed(records, Some(FetchFailed), [req])
      case Ok(resp) =>
        if !resp.OkStatus() then Replayed(records, Some(NotOk(resp.status)), [req])
        else
          var rest := Replay(MarkSynced(records, pending[0].id), pending[1..], build, server);
          rest.(sent := [req] + rest.sent)
  }

  /** One step of a replay: the first record's request either fails it or is acknowledged and marked. */
  lemma ReplayStep<P>(records: map<Id, Record<P>>, pending: seq<Record<P>>,
                      build: Record<P> -> RemoteRequest, server: RemoteRequest -> Outcome)
    requires pending != []
    ensures var req := build(pending[0]);
            var r := Replay(records, pending, build, server);
            && (!Acknowledged(server(req)) ==>
                  r.records == records && r.sent == [req] &&
                  r.failure == Some(if server(req).NetErr? then FetchFailed else NotOk(server(req).response.status)))
            && (Acknowledged(server(req)) ==>
                  var rest := Replay(MarkSynced(records, pending[0].id), pending[1..], build, server);
                  r.records == rest.records && r.failure == rest.failure && r.sent == [req] + rest.sent)
  {
  }

  /** How many records a replay marked: every request sent but a failing last one. */
  function Acked<P>(r: Replayed<P>): nat {
    if r.failure.Some? && |r.sent| > 0 then |r.sent| - 1 else |r.sent|
  }

  /**
   * The replay sends one request per record, in order, and stops right after
   * the first one that is not acknowledged; it fails exactly when some record
   * is not acknowledged.
   */
  lemma {:induction false} ReplayRequests<P>(records: map<Id, Record<P>>, pending: seq<Record<P>>,
                                             build: Record<P> -> RemoteRequest, server: RemoteRequest -> Outcome)
    ensures var r := Replay(records, pending, build, server);
            && (forall j :: 0 <= j < |r.sent| ==> r.sent[j] == build(pending[j]))
            && (forall j :: 0 <= j < Acked(r) ==> Acknowledged(server(build(pending[j]))))
            && (r.failure.None? ==> |r.sent| == |pending|)
            && (r.failure.Some? ==> !Acknowledged(server(r.sent[|r.sent| - 1])))
            && (r.failure == Some(FetchFailed) <==> r.failure.Some? && server(r.sent[|r.sent| - 1]).NetErr?)
    decreases |pending|
  {
    if pending != [] {
      var req := build(pending[0]);
      if Acknowledged(server(req)) {
        var rest := Replay(MarkSynced(records, pending[0].id), pending[1..], build, server);
        ReplayRequests(MarkSynced(records, pending[0].id), pending[1..], build, server);
        var r := Replay(records, pending, build, server);
        assert r.sent == [req] + rest.sent;
        forall j | 0 < j < |r.sent|
          ensures r.sent[j] == build(pending[j])
        {
          assert r.sent[j] == rest.sent[j - 1];
          assert pending[1..][j - 1] == pending[j];
        }
        forall j | 0 < j < Acked(r)
          ensures Acknowledged(server(build(pending[j])))
        {
          assert pending[1..][j - 1] == pending[j];
        }
      }
    }
  }

  /**
   * The store's records after a replay: the same keys, each record either
   * untouched or with `synced` set, untouched unless the replay acknowledged
   * it, and synced if it did.
   */
  lemma {:induction false} ReplayFrame<P>(records: map<Id, Record<P>>, pending: seq<Record<P>>,
                                          build: Record<P> -> RemoteRequest, server: RemoteRequest -> Outcome)
    ensures var r := Replay(records, pending, build, server);
            && Acked(r) <= |pending|
            && r.records.Keys == records.Keys
            && (forall k :: k in records ==> r.records[k] == records[k] || r.records[k] == records[k].(synced := true))
            && (forall k :: k in records && (forall j :: 0 <= j < Acked(r) ==> pending[j].id != k) ==>
                              r.records[k] == records[k])
            && (forall j :: 0 <= j < Acked(r) && pending[j].id in records ==> r.records[pending[j].id].synced)
    decreases |pending|
  {
    if pending != [] {
      var req := build(pending[0]);
      if Acknowledged(server(req)) {
        var marked := MarkSynced(records, pending[0].id);
        ReplayFrame(marked, pending[1..], build, server);
        var rest := Replay(marked, pending[1..], build, server);
        var r := Replay(records, pending, build, server);
        assert r.records == rest.records && Acked(r) == Acked(rest) + 1;
        forall k | k in records && (forall j :: 0 <= j < Acked(r) ==> pending[j].id != k)
          ensures r.records[k] == records[k]
        {
          assert pending[0].id != k;
          forall j | 0 <= j < Acked(rest)
            ensures pending[1..][j].id != k
          {
            assert pending[1..][j] == pending[j + 1];
          }
        }
        forall j | 0 <= j < Acked(r) && pending[j].id in records
          ensures r.records[pending[j].id].synced
        {
          if j > 0 {
            assert pending[1..][j - 1] == pending[j];
          }
        }
      }
    }
  }

  /**
   * Replaying the store's pending list leaves the store well keyed, and what
   * is still pending afterwards is exactly the part of the list the replay did
   * not get through: nothing after success, and from the failing record on
   * after a failure. A rerun therefore picks up where the replay stopped.
   */
  lemma {:induction false} ReplayResume<P>(keys: seq<Id>, records: map<Id, Record<P>>, pending: seq<Record<P>>,
                                           build: Record<P> -> RemoteRequest, server: RemoteRequest -> Outcome)
    requires WellKeyed(keys, records)
    requires pending == Unsynced(EntriesOf(keys, records))
    ensures var r := Replay(records, pending, build, server);
            && Acked(r) <= |pending|
            && WellKeyed(keys, r.records)
            && Unsynced(EntriesOf(keys, r.records)) == pending[Acked(r)..]
    decreases |pending|
  {
    if pending != [] {
      var req := build(pending[0]);
      ReplayStep(records, pending, build, server);
      if Acknowledged(server(req)) {
        var marked := MarkSynced(records, pending[0].id);
        MarkFirstUnsynced(keys, records);
        MarkSyncedWellKeyed(keys, records, pending[0].id);
        ReplayResume(keys, marked, pending[1..], build, server);
        var rest := Replay(marked, pending[1..], build, server);
        assert Acked(Replay(records, pending, build, server)) == Acked(rest) + 1;
        assert pending[1..][Acked(rest)..] == pending[Acked(rest) + 1..];
      }
    }
  }

  /**
   * A record saved to the queue and then drained against a database that
   * acknowledges every write ends up synced, and nothing is left pending.
   */
  lemma EnqueueThenDrain<P>(keys: seq<Id>, records: map<Id, Record<P>>, rec: Record<P>,
                            build: Record<P> -> RemoteRequest, server: RemoteRequest -> Outcome)
    requires WellKeyed(keys, records)
    requires forall req :: Acknowledged(server(req))
    ensures rec.id !in records ==> rec.id !in keys
    ensures var keys' := if rec.id in records then keys else InsertKey(keys, rec.id);
            var records' := records[rec.id := rec];
            var r := Replay(records', Unsynced(EntriesOf(keys', records')), build, server);
            && r.failure.None?
            && rec.id in r.records
            && forall k :: k in r.records ==> r.records[k].synced
  {
    var keys' := if rec.id in records then keys else InsertKey(keys, rec.id);
    var records' := records[rec.id := rec];
    assert WellKeyed(keys', records');
    var pending := Unsynced(EntriesOf(keys', records'));
    var r := Replay(records', pending, build, server);
    ReplayRequests(records', pending, build, server);
    ReplayResume(keys', records', pending, build, server);
    ReplayFrame(records', pending, build, server);
    assert r.failure.None?;
    var after := EntriesOf(keys', r.records);
    EntriesAscending(keys', r.records);
    forall k | k in r.records
      ensures r.records[k].synced
    {
      UnsyncedMember(after, r.records[k]);
    }
  }

  /** The result a drain resolves or rejects with. */
  datatype DrainResult = Resolved(message: string) | Rejected(reason: Reason)

  /** A rejection: the fetch's own error, or the drain's error message. */
  datatype Reason = FetchError | SyncError(message: string)

  /** The messages a drain resolves or rejects with. */
  datatype Messages = Messages(nothing: string, done: string, failed: string)

  const SALES_MESSAGES := Messages("No sales to sync", "Sales synced successfully", "Failed to sync sale")
  const INVENTORY_MESSAGES := Messages("No inventory changes to sync", "Inventory changes synced successfully",
                                       "Failed to sync inventory change")

  /** How a drain over `pending` ends, given the replay's outcome. */
  function Verdict<P>(pending: seq<Record<P>>, r: Replayed<P>, messages: Messages): (v: DrainResult)
    ensures pending == [] ==> v == Resolved(messages.nothing)
    ensures pending != [] ==> (v.Resolved? <==> r.failure.None?)
    ensures v.Resolved? ==> v.message == (if pending == [] then messages.nothing else messages.done)
    ensures v == Rejected(FetchError) <==> pending != [] && r.failure == Some(FetchFailed)
    ensures pending != [] && r.failure.Some? && r.failure.value.NotOk? ==> v == Rejected(SyncError(messages.failed))
  {
    if pending == [] then Resolved(messages.nothing)
    else match r.failure
      case None => Resolved(messages.done)
      case Some(FetchFailed) => Rejected(FetchError)
      case Some(NotOk(_)) => Rejected(SyncError(messages.failed))
  }

  /**
   * A drain resolves exactly when it leaves nothing pending, and rejects
   * exactly when some record is still waiting to be synced.
   */
  lemma DrainResolvesIffCaughtUp<P>(keys: seq<Id>, records: map<Id, Record<P>>, build: Record<P> -> RemoteRequest,
                                    server: RemoteRequest -> Outcome, messages: Messages)
    requires WellKeyed(keys, records)
    ensures var pending := Unsynced(EntriesOf(keys, records));
            var r := Replay(records, pending, build, server);
            && WellKeyed(keys, r.records)
            && (Verdict(pending, r, messages).Resolved? <==> Unsynced(EntriesOf(keys, r.records)) == [])
  {
    var pending := Unsynced(EntriesOf(keys, records));
    ReplayResume(keys, records, pending, build, server);
    ReplayRequests(records, pending, build, server);
  }

  /**
   * What a drain did to a store with keys `keys`: `after` is the store after
   * replaying its pending records with `build` against `server`, `sent` the
   * requests made, and `result` how the drain ended.
   */
  ghost predicate Drained<P>(keys: seq<Id>, before: map<Id, Record<P>>, after: map<Id, Record<P>>,
                             build: Record<P> -> RemoteRequest, server: RemoteRequest -> Outcome,
                             messages: Messages, result: DrainResult, sent: seq<RemoteRequest>)
  {
    && WellKeyed(keys, before)
    && var pending := Unsynced(EntriesOf(keys, before));
       var r := Replay(before, pending, build, server);
       after == r.records && sent == r.sent && result == Verdict(pending, r, messages)
  }

  /**
   * Sends each pending record's request in turn and marks the record synced
   * once acknowledged; the first record not acknowledged stops the run.
   */
  method SendPending<P>(store: ObjectStore<P>, pending: seq<Record<P>>,
                        build: Record<P> -> RemoteRequest, server: RemoteRequest -> Outcome)
    returns (failure: Option<Rejection>, sent: seq<RemoteRequest>)
    requires store.Valid()
    modifies store
    ensures store.Valid() && store.keys == old(store.keys)
    ensures var r := Replay(old(store.records), pending, build, server);
            store.records == r.records && failure == r.failure && sent == r.sent
  {
    ghost var replay := Replay(store.records, pending, build, server);
    sent := [];
    var i := 0;
    while i < |pending|
      invariant 0 <= i <= |pending|
      invariant store.Valid() && store.keys == old(store.keys)
      invariant var rest := Replay(store.records, pending[i..], build, server);
                replay.records == rest.records && replay.failure == rest.failure && replay.sent == sent + rest.sent
    {
      var record := pending[i];
      assert pending[i..][0] == record && pending[i..][1..] == pending[i + 1..];
      ReplayStep(store.records, pending[i..], build, server);
      var req := build(record);
      sent := sent + [req];
      var outcome := server(req);
      if outcome.NetErr? {
        return Some(FetchFailed), sent;
      }
      if !outcome.response.OkStatus() {
        return Some(NotOk(outcome.response.status)), sent;
      }
      store.MarkAsSynced(record.id);
      i := i + 1;
    }
    failure := None;
  }

  /**
   * A drain: reads the pending records; with none it resolves at once,
   * otherwise it sends them and resolves or rejects by the first failure.
   */
  method Drain<P>(store: ObjectStore<P>, build: Record<P> -> RemoteRequest, server: RemoteRequest -> Outcome,
                  messages: Messages) returns (result: DrainResult, sent: seq<RemoteRequest>)
    requires store.Valid()
    modifies store
    ensures store.Valid() && store.keys == old(store.keys)
    ensures Drained(old(store.keys), old(store.records), store.records, build, server, messages, result, sent)
  {
    var pending := store.GetOfflineData();
    if |pending| == 0 {
      return Resolved(messages.nothing), [];
    }
    var failure;
    failure, sent := SendPending(store, pending, build, server);
    match failure {
      case None => result := Resolved(messages.done);
      case Some(FetchFailed) => result := Rejected(FetchError);
      case Some(NotOk(_)) => result := Rejected(SyncError(messages.failed));
    }
  }

  /** `syncOfflineSales`: drains the sales store with the sales request builder. */
  method SyncOfflineSales(store: ObjectStore<Sale>, server: RemoteRequest -> Outcome)
    returns (result: DrainResult, sent: seq<RemoteRequest>)
    requires store.Valid()
    modifies store
    ensures store.Valid() && store.keys == old(store.keys)
    ensures Drained(old(store.keys), old(store.records), store.records, SaleRequest, server, SALES_MESSAGES, result, sent)
  {
    result, sent := Drain(store, SaleRequest, server, SALES_MESSAGES);
  }

  /** `syncOfflineInventory`: drains the inventory store with the inventory request builder. */
  method SyncOfflineInventory(store: ObjectStore<InventoryChange>, server: RemoteRequest -> Outcome, now: JsValue)
    returns (result: DrainResult, sent: seq<RemoteRequest>)
    requires store.Valid()
    modifies store
    ensures store.Valid() && store.keys == old(store.keys)
    ensures Drained(old(store.keys), old(store.records), store.records, InventoryBuilder(now), server,
                    INVENTORY_MESSAGES, result, sent)
  {
    result, sent := Drain(store, InventoryBuilder(now), server, INVENTORY_MESSAGES);
  }

  const SALES_TAG := "background-sync-sales"
  const INVENTORY_TAG := "background-sync-inventory"
  const PERIODIC_TAG := "periodic-sync"

  /** The `sync` event: its tag selects which queue, if any, is drained. */
  method OnSync(tag: string, sales: ObjectStore<Sale>, inventory: ObjectStore<InventoryChange>,
                server: RemoteRequest -> Outcome, now: JsValue)
    returns (salesResult: Option<DrainResult>, inventoryResult: Option<DrainResult>, sent: seq<RemoteRequest>)
    requires sales.Valid() && inventory.Valid()
    modifies sales, inventory
    ensures sales.Valid() && inventory.Valid()
    ensures sales.keys == old(sales.keys) && inventory.keys == old(inventory.keys)
    ensures tag == SALES_TAG ==>
              salesResult.Some? &&
              Drained(old(sales.keys), old(sales.records), sales.records, SaleRequest, server,
                      SALES_MESSAGES, salesResult.value, sent)
    ensures tag != SALES_TAG ==> salesResult == None && sales.records == old(sales.records)
    ensures tag == INVENTORY_TAG ==>
              inventoryResult.Some? &&
              Drained(old(inventory.keys), old(inventory.records), inventory.records, InventoryBuilder(now), server,
                      INVENTORY_MESSAGES, inventoryResult.value, sent)
    ensures tag != INVENTORY_TAG ==> inventoryResult == None && inventory.records == old(inventory.records)
    ensures tag != SALES_TAG && tag != INVENTORY_TAG ==> sent == []
  {
    salesResult, inventoryResult, sent := None, None, [];
    if tag == SALES_TAG {
      var result;
      result, sent := SyncOfflineSales(sales, server);
      salesResult := Some(result);
    }
    if tag == INVENTORY_TAG {
      var result;
      result, sent := SyncOfflineInventory(inventory, server, now);
      inventoryResult := Some(result);
    }
  }

  /** The `periodicsync` event: the periodic tag drains both queues. */
  method OnPeriodicSync(tag: string, sales: ObjectStore<Sale>, inventory: ObjectStore<InventoryChange>,
                        server: RemoteRequest -> Outcome, now: JsValue)
    returns (salesResult: Option<DrainResult>, inventoryResult: Option<DrainResult>,
             salesSent: seq<RemoteRequest>, inventorySent: seq<RemoteRequest>)
    requires sales.Valid() && inventory.Valid()
    modifies sales, inventory
    ensures sales.Valid() && inventory.Valid()
    ensures sales.keys == old(sales.keys) && inventory.keys == old(inventory.keys)
    ensures salesResult.Some? <==> tag == PERIODIC_TAG
    ensures inventoryResult.Some? <==> tag == PERIODIC_TAG
    ensures tag == PERIODIC_TAG ==>
              Drained(old(sales.keys), old(sales.records), sales.records, SaleRequest, server,
                      SALES_MESSAGES, salesResult.value, salesSent) &&
              Drained(old(inventory.keys), old(inventory.records), inventory.records, InventoryBuilder(now), server,
                      INVENTORY_MESSAGES, inventoryResult.value, inventorySent)
    ensures tag != PERIODIC_TAG ==>
              sales.records == old(sales.records) && inventory.records == old(inventory.records) &&
              salesSent == [] && inventorySent == []
  {
    salesResult, inventoryResult, salesSent, inventorySent := None, None, [], [];
    if tag == PERIODIC_TAG {
      var result;
      result, salesSent := SyncOfflineSales(sales, server);
      salesResult := Some(result);
      result, inventorySent := SyncOfflineInventory(inventory, server, now);
      inventoryResult := Some(result);
    }
  }
}
