/** The cache service: a thin layer over a Redis key/value store that
    writes JSON text and reads it back (src/redis/redis.service.ts). */
module Redis {
  import opened Common
  import opened Json

  /** What Redis holds under one key: the text written and the `EX` seconds
      it was written with (None when written without expiry). Expiry itself
      is not modelled; the number is kept as it was given. */
  datatype Entry = Entry(text: string, ttl: Option<nat>)

  type Store = map<string, Entry>

  /** The text the Redis client sends for a value: its JSON text, or the
      empty string for `undefined` (which `JSON.stringify` does not turn into
      a string, and which the client writes as an empty argument). */
  function WireText(v: Value): (t: string)
    ensures t == "" <==> v == Undefined
    ensures v != Undefined ==> Stringify(v) == Some(t)
  {
    match Stringify(v)
    case Some(t) => t
    case None => ""
  }

  /** `get`'s decoding: the parsed JSON, or the raw text when it is not JSON. */
  function ParseOrRaw(text: string): (v: Value)
    ensures Parse(text).Some? ==> v == Parse(text).value
    ensures Parse(text).None? ==> v == Str(text)
    ensures v != Undefined
  {
    match Parse(text)
    case Some(v) => v
    case None => Str(text)
  }

  /** The expiry `set` passes: only a truthy ttl (present and non-zero). */
  function ExpiryOf(ttl: Option<nat>): (e: Option<nat>)
    ensures e.Some? <==> ttl.Some? && ttl.value != 0
    ensures e.Some? ==> e == ttl
  {
    if ttl.Some? && ttl.value != 0 then ttl else None
  }

  /** What `get(key)` returns against `store`. */
  function Read(store: Store, key: string): (v: Value)
    ensures key !in store ==> v == Null
    ensures key in store ==> v == ParseOrRaw(store[key].text)
    ensures v != Undefined
  {
    if key !in store then Null else ParseOrRaw(store[key].text)
  }

  /** The store after `set(key, v, ttl)`. */
  function Write(store: Store, key: string, v: Value, ttl: Option<nat>): (r: Store)
    ensures key in r && r[key] == Entry(WireText(v), ExpiryOf(ttl))
    ensures forall k :: k != key ==> (k in r <==> k in store)
    ensures forall k :: k != key && k in store ==> r[k] == store[k]
  {
    store[key := Entry(WireText(v), ExpiryOf(ttl))]
  }

  /** `set` then `get` gives the value back, except that `undefined` comes
      back as the empty string. */
  lemma ReadAfterWrite(store: Store, key: string, v: Value, ttl: Option<nat>)
    ensures Read(Write(store, key, v, ttl), key) == if v == Undefined then Str("") else v
  {
    if v != Undefined {
      StringifyParse(v);
    } else {
      assert Parse("") == None;
    }
  }

  /** A text that is not JSON is read back raw. */
  lemma ReadRawText(store: Store, key: string)
    requires key in store && Parse(store[key].text).None?
    ensures Read(store, key) == Str(store[key].text)
  {
  }

  /** After a miss has been filled with a value other than `null` and
      `undefined`, the next `getOrSet` on that key is a hit returning it. */
  lemma GetOrSetFillsMiss(store: Store, key: string, v: Value, ttl: Option<nat>)
    requires v != Null && v != Undefined
    ensures Read(Write(store, key, v, ttl), key) == v
  {
    ReadAfterWrite(store, key, v, ttl);
  }

  // ---------------------------------------------------------------------
  // The bulk variant

  /** The suffixes whose `prefix + suffix` key reads as null, in order
      (duplicates kept): `keysToFetch`. */
  function Missing(store: Store, prefix: string, suffixes: seq<string>): (m: seq<string>)
    ensures |m| <= |suffixes|
    ensures forall s :: s in m <==> s in suffixes && Read(store, prefix + s) == Null
    decreases |suffixes|
  {
    if suffixes == [] then []
    else
      var last := suffixes[|suffixes| - 1];
      Missing(store, prefix, suffixes[..|suffixes| - 1])
        + (if Read(store, prefix + last) == Null then [last] else [])
  }

  /** The values `get` returns for each suffix, in suffix order. */
  function CachedValues(store: Store, prefix: string, suffixes: seq<string>): (vs: seq<Value>)
    ensures |vs| == |suffixes|
    ensures forall i :: 0 <= i < |suffixes| ==> vs[i] == Read(store, prefix + suffixes[i])
    decreases |suffixes|
  {
    if suffixes == [] then []
    else
      CachedValues(store, prefix, suffixes[..|suffixes| - 1])
        + [Read(store, prefix + suffixes[|suffixes| - 1])]
  }

  /** `keysToFetch`: the suffixes whose entry in `cachedData` (same
      positions) is null. */
  function KeysToFetch(suffixes: seq<string>, cachedData: seq<Value>): (keys: seq<string>)
    requires |cachedData| == |suffixes|
    ensures |keys| <= |suffixes|
    ensures forall s :: s in keys <==> exists i :: 0 <= i < |suffixes| && suffixes[i] == s && cachedData[i] == Null
    decreases |suffixes|
  {
    if suffixes == [] then []
    else
      var n := |suffixes| - 1;
      KeysToFetch(suffixes[..n], cachedData[..n]) + (if cachedData[n] == Null then [suffixes[n]] else [])
  }

  /** Filtering the fetched values by position picks exactly the missing suffixes. */
  lemma {:induction false} KeysToFetchAreMissing(store: Store, prefix: string, suffixes: seq<string>)
    ensures KeysToFetch(suffixes, CachedValues(store, prefix, suffixes)) == Missing(store, prefix, suffixes)
    decreases |suffixes|
  {
    if suffixes != [] {
      var n := |suffixes| - 1;
      var cached := CachedValues(store, prefix, suffixes);
      var last := if cached[n] == Null then [suffixes[n]] else [];
      KeysToFetchAreMissing(store, prefix, suffixes[..n]);
      assert cached[..n] == CachedValues(store, prefix, suffixes[..n]);
      assert KeysToFetch(suffixes, cached) == KeysToFetch(suffixes[..n], cached[..n]) + last;
      assert Missing(store, prefix, suffixes) == Missing(store, prefix, suffixes[..n]) + last;
    }
  }

  /** `freshData[k]` in JavaScript: `undefined` past the end. */
  function FreshAt(freshData: seq<Value>, k: nat): (v: Value)
    ensures k < |freshData| ==> v == freshData[k]
    ensures k >= |freshData| ==> v == Undefined
  {
    if k < |freshData| then freshData[k] else Undefined
  }

  /** The store after setting the k-th missing suffix's key to `freshData[k]`,
      for k in order. */
  function WriteMissing(store: Store, prefix: string, missing: seq<string>, freshData: seq<Value>, ttl: Option<nat>): (r: Store)
    ensures forall key :: key in store ==> key in r
    ensures forall j :: 0 <= j < |missing| ==> prefix + missing[j] in r
    decreases |missing|
  {
    if missing == [] then store
    else
      var k := |missing| - 1;
      Write(WriteMissing(store, prefix, missing[..k], freshData, ttl), prefix + missing[k], FreshAt(freshData, k), ttl)
  }

  lemma PrefixedKeysDiffer(prefix: string, a: string, b: string)
    requires a != b
    ensures prefix + a != prefix + b
  {
    assert (prefix + a)[|prefix|..] == a;
    assert (prefix + b)[|prefix|..] == b;
  }

  /** The key of the k-th missing suffix receives `freshData[k]`, unless a
      later missing suffix repeats it (then the later write wins). */
  lemma {:induction false} WriteMissingAt(store: Store, prefix: string, missing: seq<string>, freshData: seq<Value>, ttl: Option<nat>, k: nat)
    requires k < |missing|
    requires forall j :: k < j < |missing| ==> missing[j] != missing[k]
    ensures var r := WriteMissing(store, prefix, missing, freshData, ttl);
      prefix + missing[k] in r && r[prefix + missing[k]] == Entry(WireText(FreshAt(freshData, k)), ExpiryOf(ttl))
    decreases |missing|
  {
    var n := |missing| - 1;
    if k < n {
      var before := missing[..n];
      assert before[k] == missing[k];
      WriteMissingAt(store, prefix, before, freshData, ttl, k);
      PrefixedKeysDiffer(prefix, missing[k], missing[n]);
    }
  }

  /** A key that is not the key of any missing suffix keeps its entry. */
  lemma {:induction false} WriteMissingElsewhere(store: Store, prefix: string, missing: seq<string>, freshData: seq<Value>, ttl: Option<nat>, key: string)
    requires forall j :: 0 <= j < |missing| ==> key != prefix + missing[j]
    ensures var r := WriteMissing(store, prefix, missing, freshData, ttl);
      (key in r <==> key in store) && (key in store ==> r[key] == store[key])
    decreases |missing|
  {
    if missing != [] {
      var n := |missing| - 1;
      WriteMissingElsewhere(store, prefix, missing[..n], freshData, ttl, key);
    }
  }

  /** Keys of suffixes that were already cached are not written. */
  lemma WriteMissingKeepsCached(store: Store, prefix: string, suffixes: seq<string>, freshData: seq<Value>, ttl: Option<nat>, s: string)
    requires s in suffixes && Read(store, prefix + s) != Null
    ensures var r := WriteMissing(store, prefix, Missing(store, prefix, suffixes), freshData, ttl);
      prefix + s in r && r[prefix + s] == store[prefix + s]
  {
    var missing := Missing(store, prefix, suffixes);
    forall j | 0 <= j < |missing| ensures prefix + s != prefix + missing[j] {
      assert missing[j] in missing;
      PrefixedKeysDiffer(prefix, s, missing[j]);
    }
    WriteMissingElsewhere(store, prefix, missing, freshData, ttl, prefix + s);
  }

  /** The mapping is by position in the missing list, not in `suffixes`:
      with `a` cached and `b` missing, `b`'s key receives `freshData[0]`
      even when the callback answers for both suffixes in order. */
  lemma MissingPositionMapping(prefix: string, a: string, b: string, va: Value, x: Value, y: Value)
    requires a != b && va != Null && va != Undefined
    ensures var store := Write(map[], prefix + a, va, None);
      var r := WriteMissing(store, prefix, Missing(store, prefix, [a, b]), [x, y], None);
      && Missing(store, prefix, [a, b]) == [b]
      && prefix + b in r && r[prefix + b] == Entry(WireText(x), None)
      && prefix + a in r && r[prefix + a] == store[prefix + a]
  {
    var store := Write(map[], prefix + a, va, None);
    assert Read(store, prefix + a) == va by {
      ReadAfterWrite(map[], prefix + a, va, None);
    }
    assert Read(store, prefix + b) == Null by {
      PrefixedKeysDiffer(prefix, a, b);
    }
    SecondOfTwoMissing(store, prefix, a, b);
    WriteMissingAt(store, prefix, [b], [x, y], None, 0);
    WriteMissingKeepsCached(store, prefix, [a, b], [x, y], None, a);
  }

  /** Of a cached suffix followed by a missing one, only the second is missing. */
  lemma SecondOfTwoMissing(store: Store, prefix: string, a: string, b: string)
    requires Read(store, prefix + a) != Null && Read(store, prefix + b) == Null
    ensures Missing(store, prefix, [a, b]) == [b]
  {
    assert [a][..0] == [];
    assert Missing(store, prefix, [a]) == [];
    assert [a, b][..1] == [a];
  }

  // ---------------------------------------------------------------------
  // The service

  class RedisService {
    /** The backing Redis database. */
    var store: Store

    constructor()
      ensures store == map[]
    {
      store := map[];
    }

    /** `get(key)`: null for an absent key, else the stored text parsed as
        JSON, or the raw text when it does not parse. */
    method Get(key: string) returns (v: Value)
      ensures key !in store ==> v == Null
      ensures key in store ==> v == ParseOrRaw(store[key].text)
      ensures v == Read(store, key)
    {
      if key !in store {
        return Null;
      }
      v := ParseOrRaw(store[key].text);
    }

    /** `set(key, value, ttl)`: writes the JSON text, with `EX ttl` only when
        ttl is truthy; no other key changes. */
    method Set(key: string, v: Value, ttl: Option<nat>)
      modifies this
      ensures store == Write(old(store), key, v, ttl)
    {
      var text := WireText(v);
      if ttl.Some? && ttl.value != 0 {
        store := store[key := Entry(text, Some(ttl.value))];
      } else {
        store := store[key := Entry(text, None)];
      }
    }

    /** `client.del(key)`. */
    method Del(key: string)
      modifies this
      ensures store == old(store) - {key}
    {
      store := store - {key};
    }

    /** `getOrSet(key, callback, ttl)`, the callback given by the value it
        produces. `called` tells whether the callback ran: only on a miss,
        where a cached `null` counts as a miss. */
    method GetOrSet(key: string, computed: Value, ttl: Option<nat>) returns (v: Value, called: bool)
      modifies this
      ensures called <==> Read(old(store), key) == Null
      ensures !called ==> v == Read(old(store), key) && store == old(store)
      ensures called ==> v == computed && store == Write(old(store), key, computed, ttl)
    {
      var cached := Get(key);
      if cached != Null {
        return cached, false;
      }
      called := true;
      Set(key, computed, ttl);
      v := computed;
    }

    /** One `get` per suffix, in suffix order (the source fans them out
        concurrently; they are read-only, so the order does not matter). */
    method GetMany(prefix: string, suffixes: seq<string>) returns (cachedData: seq<Value>)
      ensures |cachedData| == |suffixes|
      ensures forall i :: 0 <= i < |suffixes| ==> cachedData[i] == Read(store, prefix + suffixes[i])
      ensures cachedData == CachedValues(store, prefix, suffixes)
    {
      cachedData := [];
      var i := 0;
      while i < |suffixes|
        invariant 0 <= i <= |suffixes|
        invariant cachedData == CachedValues(store, prefix, suffixes[..i])
      {
        var v := Get(prefix + suffixes[i]);
        assert suffixes[..i + 1][..i] == suffixes[..i];
        cachedData := cachedData + [v];
        i := i + 1;
      }
      assert suffixes[..i] == suffixes;
    }

    /** One `set` per missing suffix, the k-th getting `freshData[k]`. */
    method SetMissing(prefix: string, keys: seq<string>, freshData: seq<Value>, ttl: Option<nat>)
      modifies this
      ensures store == WriteMissing(old(store), prefix, keys, freshData, ttl)
    {
      var i := 0;
      while i < |keys|
        invariant 0 <= i <= |keys|
        invariant store == WriteMissing(old(store), prefix, keys[..i], freshData, ttl)
      {
        assert keys[..i + 1][..i] == keys[..i];
        Set(prefix + keys[i], FreshAt(freshData, i), ttl);
        i := i + 1;
      }
      assert keys[..i] == keys;
    }

    /** `bulkStringKeyGetOrSet`, the callback given by the array it produces.
        With every key cached it returns the cached values and does not call
        the callback; otherwise it calls it once, writes `freshData[k]` under
        the key of the k-th missing suffix and returns `freshData`. */
    method BulkStringKeyGetOrSet(suffixes: seq<string>, prefix: string, freshData: seq<Value>, ttl: Option<nat>)
      returns (result: seq<Value>, called: bool)
      modifies this
      ensures called <==> Missing(old(store), prefix, suffixes) != []
      ensures !called ==> result == CachedValues(old(store), prefix, suffixes) && store == old(store)
      ensures called ==> result == freshData
      ensures called ==> store == WriteMissing(old(store), prefix, Missing(old(store), prefix, suffixes), freshData, ttl)
    {
      var cachedData := GetMany(prefix, suffixes);
      var keysToFetch := KeysToFetch(suffixes, cachedData);
      KeysToFetchAreMissing(store, prefix, suffixes);
      if |keysToFetch| == 0 {
        return cachedData, false;
      }
      called := true;
      SetMissing(prefix, keysToFetch, freshData, ttl);
      result := freshData;
    }
  }
}
