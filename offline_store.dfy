/**
 * The IndexedDB object stores that hold the offline write queue (`sales` and
 * `inventory`), kept as abstract state: records keyed by their `id`, and the
 * keys in the ascending order in which the store enumerates them.
 */
module OfflineStore {
  import opened Text

  type Id = string

  /**
   * A queued record: its key, its payload, and whether the remote database
   * has acknowledged it. A record stored without a `synced` field reads as
   * not synced.
   */
  datatype Record<P> = Record(id: Id, data: P, synced: bool)

  /** Records listed by strictly ascending id. */
  predicate IdsAscending<P>(rs: seq<Record<P>>) {
    forall i, j :: 0 <= i < j < |rs| ==> Below(rs[i].id, rs[j].id)
  }

  /**
   * The store's invariant: the keys are listed in enumeration order, they are
   * exactly the stored ones, and each record sits under its own id.
   */
  ghost predicate WellKeyed<P>(keys: seq<Id>, records: map<Id, Record<P>>) {
    && Ascending(keys)
    && (forall k :: k in records <==> k in keys)
    && (forall k :: k in records ==> records[k].id == k)
  }

  /** A key smaller than the first of an ascending list is smaller than all of them. */
  lemma BelowAll(k: Id, keys: seq<Id>)
    requires Ascending(keys) && keys != [] && Below(k, keys[0])
    ensures forall j :: 0 <= j < |keys| ==> Below(k, keys[j])
  {
    forall j | 0 < j < |keys|
      ensures Below(k, keys[j])
    {
      BelowTransitive(k, keys[0], keys[j]);
    }
  }

  /** Where a new key goes among the existing ones. */
  function InsertKey(keys: seq<Id>, k: Id): (r: seq<Id>)
    requires Ascending(keys) && k !in keys
    ensures Ascending(r)
    ensures forall x :: x in r <==> x in keys || x == k
    ensures |r| == |keys| + 1
  {
    if keys == [] then [k]
    else if Below(k, keys[0]) then
      BelowAll(k, keys);
      [k] + keys
    else
      BelowTotal(k, keys[0]);
      var rest := InsertKey(keys[1..], k);
      assert forall x :: x in rest ==> Below(keys[0], x) by {
        forall x | x in rest
          ensures Below(keys[0], x)
        {
          if x != k {
            var j :| 0 <= j < |keys[1..]| && keys[1..][j] == x;
            assert keys[j + 1] == x;
          }
        }
      }
      [keys[0]] + rest
  }

  /** `getAll()`: the stored records, in key order. */
  function EntriesOf<P>(keys: seq<Id>, records: map<Id, Record<P>>): (r: seq<Record<P>>)
    requires forall k :: k in keys ==> k in records
    ensures |r| == |keys| && forall i :: 0 <= i < |keys| ==> r[i] == records[keys[i]]
  {
    if keys == [] then [] else [records[keys[0]]] + EntriesOf(keys[1..], records)
  }

  /** `filter(item => !item.synced)`. */
  function Unsynced<P>(rs: seq<Record<P>>): seq<Record<P>> {
    if rs == [] then [] else (if rs[0].synced then [] else [rs[0]]) + Unsynced(rs[1..])
  }

  /** The filter keeps exactly the records not yet synced. */
  lemma {:induction false} UnsyncedMember<P>(rs: seq<Record<P>>, r: Record<P>)
    ensures r in Unsynced(rs) <==> r in rs && !r.synced
  {
    if rs != [] {
      UnsyncedMember(rs[1..], r);
      assert rs == [rs[0]] + rs[1..];
    }
  }

  /** The filter keeps the order it is given. */
  lemma {:induction false} UnsyncedAscending<P>(rs: seq<Record<P>>)
    requires IdsAscending(rs)
    ensures IdsAscending(Unsynced(rs))
  {
    if rs != [] {
      UnsyncedAscending(rs[1..]);
      forall x: Record<P> | x in Unsynced(rs[1..])
        ensures Below(rs[0].id, x.id)
      {
        UnsyncedMember(rs[1..], x);
        var j :| 0 <= j < |rs[1..]| && rs[1..][j] == x;
        assert rs[j + 1] == x;
      }
    }
  }

  /** Enumerating a well-keyed store lists its records by ascending id. */
  lemma EntriesAscending<P>(keys: seq<Id>, records: map<Id, Record<P>>)
    requires WellKeyed(keys, records)
    ensures IdsAscending(EntriesOf(keys, records))
    ensures forall r :: r in EntriesOf(keys, records) <==> r.id in records && records[r.id] == r
  {
    var es := EntriesOf(keys, records);
    forall i, j | 0 <= i < j < |es|
      ensures Below(es[i].id, es[j].id)
    {
      assert es[i].id == keys[i] && es[j].id == keys[j];
    }
    forall r: Record<P> | r in es
      ensures r.id in records && records[r.id] == r
    {
      var i :| 0 <= i < |es| && es[i] == r;
      assert r == records[keys[i]];
    }
    forall r: Record<P> | r.id in records && records[r.id] == r
      ensures r in es
    {
      var j :| 0 <= j < |keys| && keys[j] == r.id;
      assert es[j] == r;
    }
  }

  lemma FirstIsMember<P>(s: seq<Record<P>>)
    ensures s != [] ==> s[0] in s
  {
  }

  /** Two lists by ascending id with the same records are the same list. */
  lemma {:induction false} AscendingUnique<P>(a: seq<Record<P>>, b: seq<Record<P>>)
    requires IdsAscending(a) && IdsAscending(b)
    requires forall r :: r in a <==> r in b
    ensures a == b
  {
    if a == [] {
      FirstIsMember(b);
    } else if b == [] {
      FirstIsMember(a);
    } else {
      assert a[0] in b && b[0] in a;
      var i :| 0 <= i < |a| && a[i] == b[0];
      var j :| 0 <= j < |b| && b[j] == a[0];
      if i != 0 {
        BelowIrreflexive(a[0].id);
        if j != 0 {
          BelowTransitive(a[0].id, a[i].id, a[0].id);
        }
      }
      assert a[0] == b[0];
      forall r
        ensures r in a[1..] <==> r in b[1..]
      {
        if r in a[1..] {
          var k :| 0 <= k < |a[1..]| && a[1..][k] == r;
          assert Below(a[0].id, a[k + 1].id);
          BelowIrreflexive(a[0].id);
          assert r in b;
        }
        if r in b[1..] {
          var k :| 0 <= k < |b[1..]| && b[1..][k] == r;
          assert Below(b[0].id, b[k + 1].id);
          BelowIrreflexive(b[0].id);
          assert r in a;
        }
      }
      AscendingUnique(a[1..], b[1..]);
      assert a == [a[0]] + a[1..] && b == [b[0]] + b[1..];
    }
  }

  /**
   * The pending list is determined by what `getOfflineData` promises: any
   * list by ascending id of exactly the stored records not yet synced is it.
   */
  lemma PendingDetermined<P>(keys: seq<Id>, records: map<Id, Record<P>>, xs: seq<Record<P>>)
    requires WellKeyed(keys, records)
    requires IdsAscending(xs)
    requires forall r :: r in xs <==> r.id in records && records[r.id] == r && !r.synced
    ensures xs == Unsynced(EntriesOf(keys, records))
  {
    var all := EntriesOf(keys, records);
    EntriesAscending(keys, records);
    UnsyncedAscending(all);
    forall r
      ensures r in xs <==> r in Unsynced(all)
    {
      UnsyncedMember(all, r);
    }
    AscendingUnique(xs, Unsynced(all));
  }

  /** `markAsSynced`'s change: the record under `id`, if any, gets `synced` set. */
  function MarkSynced<P>(records: map<Id, Record<P>>, id: Id): map<Id, Record<P>> {
    if id in records then records[id := records[id].(synced := true)] else records
  }

  /** Marking twice is marking once. */
  lemma MarkSyncedIdempotent<P>(records: map<Id, Record<P>>, id: Id)
    ensures MarkSynced(MarkSynced(records, id), id) == MarkSynced(records, id)
  {
  }

  /** Marking a record keeps the store well keyed. */
  lemma MarkSyncedWellKeyed<P>(keys: seq<Id>, records: map<Id, Record<P>>, id: Id)
    requires WellKeyed(keys, records)
    ensures WellKeyed(keys, MarkSynced(records, id))
  {
  }

  lemma UnsyncedCons<P>(r: Record<P>, rs: seq<Record<P>>)
    ensures Unsynced([r] + rs) == (if r.synced then [] else [r]) + Unsynced(rs)
  {
    assert ([r] + rs)[1..] == rs;
  }

  /** Changing a record whose key is not listed leaves the enumeration as it was. */
  lemma EntriesUnaffected<P>(keys: seq<Id>, records: map<Id, Record<P>>, id: Id, v: Record<P>)
    requires forall k :: k in keys ==> k in records
    requires id !in keys
    ensures EntriesOf(keys, records[id := v]) == EntriesOf(keys, records)
  {
  }

  /** Marking the first pending record takes exactly it off the pending list. */
  lemma {:induction false} MarkFirstUnsynced<P>(keys: seq<Id>, records: map<Id, Record<P>>)
    requires Ascending(keys)
    requires forall k :: k in keys ==> k in records && records[k].id == k
    requires Unsynced(EntriesOf(keys, records)) != []
    ensures var pending := Unsynced(EntriesOf(keys, records));
            Unsynced(EntriesOf(keys, MarkSynced(records, pending[0].id))) == pending[1..]
  {
    var k0, ks := keys[0], keys[1..];
    assert EntriesOf(keys, records) == [records[k0]] + EntriesOf(ks, records);
    UnsyncedCons(records[k0], EntriesOf(ks, records));
    assert k0 !in ks by {
      forall j | 0 <= j < |ks|
        ensures ks[j] != k0
      {
        AscendingDistinct(keys, 0, j + 1);
      }
    }
    if records[k0].synced {
      MarkFirstUnsynced(ks, records);
      MarkBehindSynced(keys, records);
    } else {
      MarkPendingHead(keys, records);
    }
  }

  /** When the first stored record is pending, marking it drops it from the pending list. */
  lemma MarkPendingHead<P>(keys: seq<Id>, records: map<Id, Record<P>>)
    requires keys != [] && keys[0] !in keys[1..]
    requires forall k :: k in keys ==> k in records && records[k].id == k
    requires !records[keys[0]].synced
    ensures Unsynced(EntriesOf(keys, records)) != []
    ensures Unsynced(EntriesOf(keys, records))[0].id == keys[0]
    ensures Unsynced(EntriesOf(keys, MarkSynced(records, keys[0]))) == Unsynced(EntriesOf(keys, records))[1..]
  {
    var k0, ks := keys[0], keys[1..];
    var marked := MarkSynced(records, k0);
    assert EntriesOf(keys, records) == [records[k0]] + EntriesOf(ks, records);
    UnsyncedCons(records[k0], EntriesOf(ks, records));
    EntriesUnaffected(ks, records, k0, records[k0].(synced := true));
    assert EntriesOf(keys, marked) == [marked[k0]] + EntriesOf(ks, records);
    UnsyncedCons(marked[k0], EntriesOf(ks, records));
  }

  /**
   * When the first stored record is already synced, the first pending record
   * lies behind it, and marking that one leaves the first record as it was.
   */
  lemma MarkBehindSynced<P>(keys: seq<Id>, records: map<Id, Record<P>>)
    requires keys != [] && keys[0] !in keys[1..]
    requires forall k :: k in keys ==> k in records && records[k].id == k
    requires records[keys[0]].synced
    requires Unsynced(EntriesOf(keys[1..], records)) != []
    ensures var pending := Unsynced(EntriesOf(keys[1..], records));
            var marked := MarkSynced(records, pending[0].id);
            Unsynced(EntriesOf(keys, records)) == pending &&
            Unsynced(EntriesOf(keys, marked)) == Unsynced(EntriesOf(keys[1..], marked))
  {
    var k0, ks := keys[0], keys[1..];
    var es := EntriesOf(ks, records);
    var pending := Unsynced(es);
    assert EntriesOf(keys, records) == [records[k0]] + es;
    UnsyncedCons(records[k0], es);
    UnsyncedMember(es, pending[0]);
    var j :| 0 <= j < |es| && es[j] == pending[0];
    var marked := MarkSynced(records, pending[0].id);
    assert pending[0].id == ks[j] != k0;
    assert marked[k0] == records[k0];
    assert EntriesOf(keys, marked) == [records[k0]] + EntriesOf(ks, marked);
    UnsyncedCons(records[k0], EntriesOf(ks, marked));
  }

  class ObjectStore<P> {
    /** The stored keys, in enumeration order. */
    var keys: seq<Id>
    var records: map<Id, Record<P>>

    ghost predicate Valid()
      reads this
    {
      WellKeyed(keys, records)
    }

    constructor ()
      ensures Valid() && keys == [] && records == map[]
    {
      keys := [];
      records := map[];
    }

    /** `saveOfflineData`: `put` inserts the record, or replaces the one with its id. */
    method SaveOfflineData(data: Record<P>)
      requires Valid()
      modifies this
      ensures Valid()
      ensures records == old(records)[data.id := data]
      ensures keys == if data.id in old(records) then old(keys) else InsertKey(old(keys), data.id)
    {
      if data.id !in records {
        keys := InsertKey(keys, data.id);
      }
      records := records[data.id := data];
    }

    /**
     * `getOfflineData`: exactly the records not yet synced, in the store's
     * order; the store is only read.
     */
    method GetOfflineData() returns (pending: seq<Record<P>>)
      requires Valid()
      ensures forall r :: r in pending <==> r.id in records && records[r.id] == r && !r.synced
      ensures IdsAscending(pending)
      ensures pending == Unsynced(EntriesOf(keys, records))
    {
      var all := EntriesOf(keys, records);
      pending := Unsynced(all);
      EntriesAscending(keys, records);
      UnsyncedAscending(all);
      forall r: Record<P>
        ensures r in pending <==> r.id in records && records[r.id] == r && !r.synced
      {
        UnsyncedMember(all, r);
      }
    }

    /**
     * `markAsSynced`: reads the record under `id` and, if there is one, puts
     * it back with `synced` set; nothing else changes.
     */
    method MarkAsSynced(id: Id)
      requires Valid()
      modifies this
      ensures Valid() && keys == old(keys)
      ensures records == MarkSynced(old(records), id)
      ensures records.Keys == old(records).Keys
      ensures id in old(records) ==> records[id] == old(records)[id].(synced := true)
      ensures forall k :: k in old(records) && k != id ==> records[k] == old(records)[k]
    {
      if id in records {
        var item := records[id];
        item := item.(synced := true);
        records := records[id := item];
      }
    }
  }
}
