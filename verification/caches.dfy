/** The origin's cache storage (`self.caches`): named buckets, each mapping a
    request URL to a response. The buckets are kept in creation order because
    `caches.match` consults them in that order. */
module Caches {
  import opened Wrappers
  import opened Http
  import Seqs

  type Bucket = map<Url, Response>

  /** `names` lists the bucket names in creation order; `buckets` holds
      their contents. */
  datatype CacheStorage = CacheStorage(names: seq<string>, buckets: map<string, Bucket>)

  const Empty: CacheStorage := CacheStorage([], map[])

  /** The name list is exactly the set of existing buckets, each name once. */
  predicate Valid(s: CacheStorage) {
    && Seqs.Distinct(s.names)
    && (forall n :: n in s.names ==> n in s.buckets)
    && (forall n :: n in s.buckets ==> n in s.names)
  }

  /** The response stored under `url` in bucket `name`, if both exist. */
  function Lookup(s: CacheStorage, name: string, url: Url): Option<Response> {
    if name in s.buckets && url in s.buckets[name] then Some(s.buckets[name][url]) else None
  }

  /** `caches.open(name)`: the bucket is created empty, at the end of the
      creation order, unless it already exists. */
  function Open(s: CacheStorage, name: string): (r: CacheStorage)
    ensures name in r.buckets
    ensures name in s.buckets ==> r == s
    ensures forall n, u :: Lookup(r, n, u) == Lookup(s, n, u)
    ensures r.buckets.Keys == s.buckets.Keys + {name}
    ensures name !in s.buckets ==> r.names == s.names + [name]
    ensures s.names <= r.names
    ensures Valid(s) ==> Valid(r)
  {
    if name in s.buckets then s
    else CacheStorage(s.names + [name], s.buckets[name := map[]])
  }

  /** `caches.open(name)` followed by `cache.put(url, response)`: an upsert
      of one key, creating the bucket if needed. */
  function Put(s: CacheStorage, name: string, url: Url, response: Response): (r: CacheStorage)
    ensures Lookup(r, name, url) == Some(response)
    ensures forall n, u :: n != name || u != url ==> Lookup(r, n, u) == Lookup(s, n, u)
    ensures r.buckets.Keys == s.buckets.Keys + {name}
    ensures s.names <= r.names
    ensures Valid(s) ==> Valid(r)
  {
    var o := Open(s, name);
    o.(buckets := o.buckets[name := o.buckets[name][url := response]])
  }

  /** `caches.delete(name)`: the bucket and its name disappear; every other
      bucket is untouched. */
  function Delete(s: CacheStorage, name: string): (r: CacheStorage)
    ensures name !in r.buckets
    ensures forall n :: n in r.buckets <==> n in s.buckets && n != name
    ensures forall n :: n in r.buckets ==> r.buckets[n] == s.buckets[n]
    ensures forall n :: n in r.names <==> n in s.names && n != name
    ensures Seqs.Subsequence(r.names, s.names)
    ensures Valid(s) ==> Valid(r)
  {
    CacheStorage(Seqs.Without(s.names, name), s.buckets - {name})
  }

  /** `caches.match(url)`: the entry for `url` in the first bucket, in
      creation order, that has one. */
  function Match(s: CacheStorage, url: Url): (r: Option<Response>)
    ensures r.Some? ==> exists n :: n in s.names && Lookup(s, n, url) == r
    ensures r.Some? ==> exists i :: 0 <= i < |s.names| && Lookup(s, s.names[i], url) == r
                                    && forall j :: 0 <= j < i ==> Lookup(s, s.names[j], url).None?
    ensures Valid(s) ==> (r.None? <==> forall n :: Lookup(s, n, url).None?)
  {
    match Seqs.FirstIndex(s.names, n => Lookup(s, n, url).Some?)
    case None => None
    case Some(i) => Lookup(s, s.names[i], url)
  }

  /** When exactly one bucket holds `url`, `caches.match` returns its entry,
      whatever the order of the buckets. */
  lemma MatchUnique(s: CacheStorage, name: string, url: Url)
    requires Valid(s)
    requires Lookup(s, name, url).Some?
    requires forall n :: n != name ==> Lookup(s, n, url).None?
    ensures Match(s, url) == Lookup(s, name, url)
  {
    var r := Match(s, url);
    assert r.Some?;
    var n :| n in s.names && Lookup(s, n, url) == r;
    assert n == name;
  }

  /** `caches.match` gives the same answer for `url` on two well-formed
      storages when the second only appends buckets to the first's order and
      every bucket answers the same for `url`. */
  lemma MatchFrame(s: CacheStorage, t: CacheStorage, url: Url)
    requires Valid(s) && Valid(t)
    requires s.names <= t.names
    requires forall n :: Lookup(t, n, url) == Lookup(s, n, url)
    ensures Match(t, url) == Match(s, url)
  {
    var a, b := Match(s, url), Match(t, url);
    if a.Some? || b.Some? {
      assert a.Some? && b.Some?;
      var i :| 0 <= i < |s.names| && Lookup(s, s.names[i], url) == a
               && forall j :: 0 <= j < i ==> Lookup(s, s.names[j], url).None?;
      var k :| 0 <= k < |t.names| && Lookup(t, t.names[k], url) == b
               && forall j :: 0 <= j < k ==> Lookup(t, t.names[j], url).None?;
      assert t.names[i] == s.names[i];
      assert k == i;
    }
  }

  /** Deletes, one after another, every bucket named in `names` except `keep`
      (the body of the activate handler's `Promise.all`). */
  function DeleteAllExcept(s: CacheStorage, names: seq<string>, keep: string): (r: CacheStorage)
    ensures forall n :: n in r.buckets <==> n in s.buckets && (n == keep || n !in names)
    ensures forall n :: n in r.buckets ==> r.buckets[n] == s.buckets[n]
    ensures forall n :: n in r.names <==> n in s.names && (n == keep || n !in names)
    ensures Seqs.Subsequence(r.names, s.names)
    ensures Valid(s) ==> Valid(r)
    decreases |names|
  {
    if |names| == 0 then
      Seqs.SubsequenceReflexive(s.names);
      s
    else
      var next := if names[0] != keep then Delete(s, names[0]) else s;
      Seqs.SubsequenceReflexive(s.names);
      var r := DeleteAllExcept(next, names[1..], keep);
      Seqs.SubsequenceTransitive(r.names, next.names, s.names);
      r
  }
}
