/** The cache of model providers and its length-prefixed key text (internal/agent/provider_cache.go). */
module ProviderCache {
  import opened Text
  import opened Decimal

  datatype Config = Config(provider: string, model: string, apiKey: string, baseUrl: string)

  /** A field with its length in front. */
  function Field(s: string): string { Dec(|s|) + ([':'] + s) }

  function KeyText(c: Config): string {
    Field(c.provider) + (['|'] + (Field(c.model) + (['|'] + (Field(c.apiKey) + (['|'] + Field(c.baseUrl))))))
  }

  /** Two texts, each a run of digits followed by something else, split alike. */
  lemma {:induction false} DigitsEnd(a: string, x: string, b: string, y: string)
    requires a + x == b + y
    requires (forall i :: 0 <= i < |a| ==> IsDigit(a[i])) && (forall i :: 0 <= i < |b| ==> IsDigit(b[i]))
    requires x != [] && y != [] && !IsDigit(x[0]) && !IsDigit(y[0])
    ensures a == b && x == y
  {
    assert !IsDigit((a + x)[|a|]) && !IsDigit((b + y)[|b|]);
    assert (forall i :: 0 <= i < |a| ==> IsDigit((a + x)[i])) && (forall i :: 0 <= i < |b| ==> IsDigit((b + y)[i]));
    assert a == (a + x)[..|a|] && b == (b + y)[..|b|];
    assert x == (a + x)[|a|..] && y == (b + y)[|b|..];
  }

  /** A field can be told from whatever follows it. */
  lemma FieldDecodes(s: string, x: string, t: string, y: string)
    requires Field(s) + x == Field(t) + y
    ensures s == t && x == y
  {
    DecReads(|s|);
    DecReads(|t|);
    assert Field(s) + x == Dec(|s|) + ([':'] + s + x) && Field(t) + y == Dec(|t|) + ([':'] + t + y);
    DigitsEnd(Dec(|s|), [':'] + s + x, Dec(|t|), [':'] + t + y);
    DecInjective(|s|, |t|);
    assert ([':'] + s + x)[1..|s| + 1] == s && ([':'] + t + y)[1..|t| + 1] == t;
    assert ([':'] + s + x)[|s| + 1..] == x && ([':'] + t + y)[|t| + 1..] == y;
  }

  lemma AfterBar(x: string, y: string)
    requires ['|'] + x == ['|'] + y
    ensures x == y
  {
    assert (['|'] + x)[1..] == x && (['|'] + y)[1..] == y;
  }

  /** Configs with the same key text are the same in all four fields. */
  lemma KeyTextInjective(c: Config, d: Config)
    requires KeyText(c) == KeyText(d)
    ensures c == d
  {
    var c3, d3 := Field(c.apiKey) + (['|'] + Field(c.baseUrl)), Field(d.apiKey) + (['|'] + Field(d.baseUrl));
    var c2, d2 := Field(c.model) + (['|'] + c3), Field(d.model) + (['|'] + d3);
    FieldDecodes(c.provider, ['|'] + c2, d.provider, ['|'] + d2);
    AfterBar(c2, d2);
    FieldDecodes(c.model, ['|'] + c3, d.model, ['|'] + d3);
    AfterBar(c3, d3);
    FieldDecodes(c.apiKey, ['|'] + Field(c.baseUrl), d.apiKey, ['|'] + Field(d.baseUrl));
    AfterBar(Field(c.baseUrl), Field(d.baseUrl));
    assert Field(c.baseUrl) + [] == Field(c.baseUrl) && Field(d.baseUrl) + [] == Field(d.baseUrl);
    FieldDecodes(c.baseUrl, [], d.baseUrl, []);
  }

  datatype Entry = Entry(provider: nat, model: string)

  ghost predicate Injective(hash: string -> string) {
    forall x, y :: hash(x) == hash(y) ==> x == y
  }

  /** Different configs have different keys. */
  ghost predicate Distinguishes<C(!new), K(!new)>(key: C -> K) {
    forall c, d :: key(c) == key(d) ==> c == d
  }

  lemma HashedKeysDistinguish(hash: string -> string, key: Config -> string)
    requires Injective(hash) && forall c :: key(c) == hash(KeyText(c))
    ensures Distinguishes(key)
  {
    forall c, d | key(c) == key(d) ensures c == d {
      assert hash(KeyText(c)) == hash(KeyText(d));
      KeyTextInjective(c, d);
    }
  }

  /** The cache holds the entries of these configs, under their keys, and nothing else. */
  ghost predicate Mirrors<C(!new), K(!new), V>(key: C -> K, cache: map<K, V>, entries: map<C, V>) {
    && (forall c :: c in entries ==> key(c) in cache && cache[key(c)] == entries[c])
    && (forall k :: k in cache ==> exists c :: c in entries && key(c) == k)
  }

  lemma HitIsOwn<C(!new), K(!new), V>(key: C -> K, cache: map<K, V>, entries: map<C, V>, c: C)
    requires Distinguishes(key) && Mirrors(key, cache, entries)
    ensures key(c) in cache <==> c in entries
  {
  }

  lemma MirrorsRemove<C(!new), K(!new), V>(key: C -> K, cache: map<K, V>, entries: map<C, V>, c: C)
    requires Distinguishes(key) && Mirrors(key, cache, entries)
    ensures Mirrors(key, cache - {key(c)}, entries - {c})
  {
    var fewer, kept := cache - {key(c)}, entries - {c};
    forall d | d in kept ensures key(d) in fewer && fewer[key(d)] == kept[d] {
      assert key(d) != key(c);
    }
    forall k | k in fewer ensures exists d :: d in kept && key(d) == k {
      var d :| d in entries && key(d) == k;
      assert d in kept;
    }
  }

  lemma MirrorsInsert<C(!new), K(!new), V>(key: C -> K, cache: map<K, V>, entries: map<C, V>, c: C, e: V)
    requires Distinguishes(key) && Mirrors(key, cache, entries)
    ensures Mirrors(key, cache[key(c) := e], entries[c := e])
  {
    var more, now := cache[key(c) := e], entries[c := e];
    forall d | d in now ensures key(d) in more && more[key(d)] == now[d] {
      if key(d) == key(c) { assert d == c; }
    }
    forall k | k in more ensures exists d :: d in now && key(d) == k {
      if k == key(c) {
        assert c in now;
      } else {
        var d :| d in entries && key(d) == k;
        assert d in now;
      }
    }
  }

  lemma MapSizes<K, V>(cache: map<K, V>, k: K, e: V)
    ensures |cache - {k}| == |cache| - if k in cache then 1 else 0
    ensures |cache[k := e]| <= |cache| + 1
  {
    var fewer, more := cache - {k}, cache[k := e];
    assert fewer.Keys == cache.Keys - {k} && |fewer| == |fewer.Keys| && |cache| == |cache.Keys|;
    assert more.Keys == cache.Keys + {k} && |more| == |more.Keys|;
  }

  class Cache {
    const key: Config -> string
    const maxSize: nat
    var cache: map<string, Entry>
    // the configs whose providers are cached
    ghost var entries: map<Config, Entry>

    ghost predicate Valid()
      reads this
    {
      Distinguishes(key) && maxSize >= 1 && |cache| <= maxSize && Mirrors(key, cache, entries)
    }

    constructor (hash: string -> string)
      requires Injective(hash)
      ensures Valid() && maxSize == 64 && entries == map[] && forall c :: key(c) == hash(KeyText(c))
    {
      key, maxSize := c => hash(KeyText(c)), 64;
      cache, entries := map[], map[];
      HashedKeysDistinguish(hash, c => hash(KeyText(c)));
    }

    /** Makes room for one entry: a full cache loses some one entry. */
    method EvictIfFull()
      requires Valid()
      modifies this`cache, this`entries
      ensures Valid() && |cache| < maxSize
      ensures old(|cache|) < maxSize ==> entries == old(entries)
      ensures old(|cache|) == maxSize ==> exists c :: c in old(entries) && entries == old(entries) - {c}
    {
      if |cache| >= maxSize {
        assert |cache.Keys| == |cache|;
        var k :| k in cache;
        ghost var c :| c in entries && key(c) == k;
        MirrorsRemove(key, cache, entries, c);
        MapSizes(cache, k, cache[k]);
        cache := cache - {k};
        entries := entries - {c};
      }
    }

    /** Stores the provider; a cache that was full has lost at most one other entry. */
    method Set(c: Config, provider: nat)
      requires Valid()
      modifies this`cache, this`entries
      ensures Valid() && c in entries && entries[c] == Entry(provider, c.model)
      ensures old(|cache|) < maxSize ==> entries == old(entries)[c := Entry(provider, c.model)]
      ensures old(|cache|) == maxSize ==>
        exists d :: d in old(entries) && entries == (old(entries) - {d})[c := Entry(provider, c.model)]
    {
      EvictIfFull();
      MirrorsInsert(key, cache, entries, c, Entry(provider, c.model));
      MapSizes(cache, key(c), Entry(provider, c.model));
      cache := cache[key(c) := Entry(provider, c.model)];
      entries := entries[c := Entry(provider, c.model)];
    }

    /** A hit returns what was stored for exactly this config; a miss stores what was created, if creation worked. */
    method GetOrCreate(c: Config, created: Option<nat>) returns (r: Option<Entry>)
      requires Valid()
      modifies this`cache, this`entries
      ensures Valid()
      ensures c in old(entries) ==> r == Some(old(entries)[c]) && entries == old(entries)
      ensures c !in old(entries) && created.None? ==> r.None? && entries == old(entries)
      ensures c !in old(entries) && created.Some? ==>
        r == Some(Entry(created.value, c.model)) && c in entries && entries[c] == r.value
    {
      HitIsOwn(key, cache, entries, c);
      if key(c) in cache { return Some(cache[key(c)]); }
      if created.None? { return None; }
      Set(c, created.value);
      return Some(Entry(created.value, c.model));
    }

    method Invalidate(c: Config)
      requires Valid()
      modifies this`cache, this`entries
      ensures Valid() && entries == old(entries) - {c}
    {
      MirrorsRemove(key, cache, entries, c);
      MapSizes(cache, key(c), Entry(0, ""));
      cache := cache - {key(c)};
      entries := entries - {c};
    }

    method InvalidateAll()
      requires Valid()
      modifies this`cache, this`entries
      ensures Valid() && entries == map[]
    {
      cache, entries := map[], map[];
    }
  }
}
