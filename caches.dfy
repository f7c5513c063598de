/**
 * The browser's Cache Storage, kept as abstract state: named buckets in the
 * order they were created, each mapping requests to responses. Only the
 * operations the service worker uses are modelled: `caches.keys`,
 * `caches.open`, `caches.delete`, `caches.match` and `cache.put`.
 */
module Caches {
  import opened Wrappers
  import opened Http

  type Bucket = map<Request, Response>

  predicate Distinct(names: seq<string>) {
    forall i, j :: 0 <= i < j < |names| ==> names[i] != names[j]
  }

  /** `names` without the ones in `gone`, order kept. */
  function Retain(names: seq<string>, gone: set<string>): (r: seq<string>)
    ensures forall n :: n in r <==> n in names && n !in gone
    ensures Distinct(names) ==> Distinct(r)
  {
    if names == [] then []
    else (if names[0] in gone then [] else [names[0]]) + Retain(names[1..], gone)
  }

  /** Bucket `name` exists and holds an entry for `req`. */
  predicate Holds(buckets: map<string, Bucket>, name: string, req: Request) {
    name in buckets && req in buckets[name]
  }

  /** `names[i]` is the first of `names` whose bucket holds `req`. */
  predicate FirstHolder(names: seq<string>, buckets: map<string, Bucket>, req: Request, i: int) {
    && 0 <= i < |names|
    && Holds(buckets, names[i], req)
    && forall j :: 0 <= j < i ==> !Holds(buckets, names[j], req)
  }

  /**
   * The lookup behind `caches.match`: the entry of the first bucket, in
   * creation order, that holds the request.
   */
  function MatchIn(names: seq<string>, buckets: map<string, Bucket>, req: Request): (r: Option<Response>)
    ensures r.None? <==> forall n :: n in names ==> !Holds(buckets, n, req)
    ensures r.Some? ==> exists i :: FirstHolder(names, buckets, req, i) && buckets[names[i]][req] == r.value
  {
    if names == [] then None
    else if Holds(buckets, names[0], req) then
      assert FirstHolder(names, buckets, req, 0);
      Some(buckets[names[0]][req])
    else
      var r := MatchIn(names[1..], buckets, req);
      if r.Some? then
        var i :| FirstHolder(names[1..], buckets, req, i) && buckets[names[1..][i]][req] == r.value;
        assert forall j :: 1 <= j <= i ==> names[j] == names[1..][j - 1];
        assert FirstHolder(names, buckets, req, i + 1);
        r
      else r
  }

  /** `x` occurs in `s` at an earlier position than `y`. */
  predicate OccursBefore(s: seq<string>, x: string, y: string) {
    exists a, b :: 0 <= a < b < |s| && s[a] == x && s[b] == y
  }

  /** Deleting buckets keeps the remaining names in their creation order. */
  lemma {:induction false} RetainKeepsOrder(names: seq<string>, gone: set<string>, i: nat, j: nat)
    requires i < j < |Retain(names, gone)|
    ensures OccursBefore(names, Retain(names, gone)[i], Retain(names, gone)[j])
  {
    var tail := names[1..];
    var rest := Retain(tail, gone);
    var r := Retain(names, gone);
    if names[0] in gone {
      assert r == rest;
      RetainKeepsOrder(tail, gone, i, j);
      ShiftBefore(names, rest[i], rest[j]);
    } else {
      assert r == [names[0]] + rest;
      if i == 0 {
        assert r[j] == rest[j - 1] && rest[j - 1] in tail;
        var b :| 0 <= b < |tail| && tail[b] == rest[j - 1];
        assert names[0] == r[0] && names[b + 1] == r[j];
      } else {
        assert r[i] == rest[i - 1] && r[j] == rest[j - 1];
        RetainKeepsOrder(tail, gone, i - 1, j - 1);
        ShiftBefore(names, rest[i - 1], rest[j - 1]);
      }
    }
  }

  /** An order seen in the tail of a list holds in the whole list. */
  lemma ShiftBefore(names: seq<string>, x: string, y: string)
    requires names != [] && OccursBefore(names[1..], x, y)
    ensures OccursBefore(names, x, y)
  {
    var a, b :| 0 <= a < b < |names[1..]| && names[1..][a] == x && names[1..][b] == y;
    assert names[a + 1] == x && names[b + 1] == y;
  }

  /** Removing `a` and then `b` removes `a + b`. */
  lemma {:induction false} RetainTwice(names: seq<string>, a: set<string>, b: set<string>)
    ensures Retain(Retain(names, a), b) == Retain(names, a + b)
  {
    if names != [] {
      RetainTwice(names[1..], a, b);
      var head := if names[0] in a then [] else [names[0]];
      assert Retain(head + Retain(names[1..], a), b) == Retain(head, b) + Retain(Retain(names[1..], a), b) by {
        RetainAppend(head, Retain(names[1..], a), b);
      }
    }
  }

  lemma {:induction false} RetainAppend(x: seq<string>, y: seq<string>, gone: set<string>)
    ensures Retain(x + y, gone) == Retain(x, gone) + Retain(y, gone)
  {
    if x == [] {
      assert x + y == y;
    } else {
      assert (x + y)[0] == x[0] && (x + y)[1..] == x[1..] + y;
      RetainAppend(x[1..], y, gone);
    }
  }

  lemma {:induction false} RetainNothing(names: seq<string>)
    ensures Retain(names, {}) == names
  {
    if names != [] {
      RetainNothing(names[1..]);
      assert names == [names[0]] + names[1..];
    }
  }

  /**
   * The bucket names after `caches.open(name)` followed by `cache.put`:
   * a missing bucket is created last.
   */
  function NamesAfterPut(names: seq<string>, buckets: map<string, Bucket>, name: string): seq<string> {
    if name in buckets then names else names + [name]
  }

  /** The buckets after `caches.open(name)` followed by `cache.put(req, resp)`. */
  function BucketsAfterPut(buckets: map<string, Bucket>, name: string, req: Request, resp: Response): map<string, Bucket> {
    var b := if name in buckets then buckets[name] else map[];
    buckets[name := if req.verb == "GET" then b[req := resp] else b]
  }

  class CacheStorage {
    /** Bucket names in creation order: what `caches.keys()` lists. */
    var names: seq<string>
    var buckets: map<string, Bucket>

    ghost predicate Valid()
      reads this
    {
      Distinct(names) && (forall n :: n in buckets <==> n in names)
    }

    constructor ()
      ensures Valid() && names == [] && buckets == map[]
    {
      names := [];
      buckets := map[];
    }

    /**
     * `caches.match(req)`. The Cache API matches only GET requests (unless
     * told to ignore the method, which the service worker never does).
     */
    function Match(req: Request): (r: Option<Response>)
      reads this
      ensures r.None? <==> req.verb != "GET" || forall n :: n in names ==> !Holds(buckets, n, req)
      ensures r.Some? ==> req.verb == "GET" &&
                          exists i :: FirstHolder(names, buckets, req, i) && buckets[names[i]][req] == r.value
    {
      if req.verb != "GET" then None else MatchIn(names, buckets, req)
    }

    /** `caches.keys()`. */
    method Keys() returns (ns: seq<string>)
      requires Valid()
      ensures ns == names
      ensures Distinct(ns) && forall n :: n in ns <==> n in buckets
    {
      ns := names;
    }

    /** `caches.open(name)`: creates the bucket, last in order, when it is missing. */
    method Open(name: string)
      requires Valid()
      modifies this
      ensures Valid() && name in buckets
      ensures name in old(buckets) ==> names == old(names) && buckets == old(buckets)
      ensures name !in old(buckets) ==> names == old(names) + [name] && buckets == old(buckets)[name := map[]]
    {
      if name !in buckets {
        names := names + [name];
        buckets := buckets[name := map[]];
      }
    }

    /**
     * `cache.put(req, resp)` on an open bucket. The Cache API rejects a
     * non-GET request with a TypeError and stores nothing.
     */
    method Put(name: string, req: Request, resp: Response)
      requires Valid() && name in buckets
      modifies this
      ensures Valid() && names == old(names)
      ensures buckets == if req.verb == "GET" then old(buckets)[name := old(buckets)[name][req := resp]]
                         else old(buckets)
    {
      if req.verb == "GET" {
        buckets := buckets[name := buckets[name][req := resp]];
      }
    }

    /** `caches.delete(name)`: drops the bucket and its entries. */
    method Delete(name: string) returns (deleted: bool)
      requires Valid()
      modifies this
      ensures Valid()
      ensures deleted <==> name in old(buckets)
      ensures names == Retain(old(names), {name}) && buckets == old(buckets) - {name}
    {
      deleted := name in buckets;
      names := Retain(names, {name});
      buckets := buckets - {name};
    }
  }
}
