/** `src/django_perf_rec/cache.py`: `CacheOp`, the record of one call of a cache method.
    Its key or keys are cleaned of session keys, random hashes, UUIDs and numbers, so
    that a recorded key does not depend on values that change from run to run. */
module PerfRecCache {
  import opened PyBase
  import opened PyStr
  import opened PySorted
  import opened KeyPatterns
  import opened PerfRecOperation

  /** `CacheOp.VARIABLE_RES`, applied in this order. */
  const VariableRes: seq<Pattern> :=
    [CacheSessionKey, CachedDbSessionKey, RandomHash, Uuid, Integer]

  /** `CacheOp.clean_key(key)`: every pattern of `VariableRes` in turn replaces each of
      its matches by `#`. Since the last pattern rewrites every run of digits, no digit
      is left. */
  function CleanKey(key: string): (r: string)
    ensures NoDigits(r)
    ensures |r| <= |key|
  {
    SubAllEndingWithIntegerHasNoDigits(VariableRes, key);
    SubAllShrinks(VariableRes, key);
    SubAll(VariableRes, key)
  }

  lemma {:induction false} SubAllShrinks(ps: seq<Pattern>, key: string)
    ensures |SubAll(ps, key)| <= |key|
    decreases |ps|
  {
    if ps != [] {
      SubAllShrinks(ps[1..], Sub(ps[0], key));
    }
  }

  /** The five substitutions happen in the order `VARIABLE_RES` lists them. */
  lemma CleanKeyOrder(key: string)
    ensures CleanKey(key) ==
      Sub(Integer, Sub(Uuid, Sub(RandomHash, Sub(CachedDbSessionKey, Sub(CacheSessionKey, key)))))
  {
    var k1 := Sub(CacheSessionKey, key);
    var k2 := Sub(CachedDbSessionKey, k1);
    var k3 := Sub(RandomHash, k2);
    var k4 := Sub(Uuid, k3);
    assert SubAll(VariableRes, key) == SubAll(VariableRes[1..], k1);
    assert VariableRes[1..][1..] == VariableRes[2..];
    assert VariableRes[2..][1..] == VariableRes[3..];
    assert VariableRes[3..][1..] == VariableRes[4..];
    assert VariableRes[4..][1..] == [];
  }

  /** A key of 32 hexadecimal digits is cleaned to `#`. */
  lemma CleanKeyRandomHash(key: string)
    requires |key| == 32 && HexRun(key, 0, 32)
    ensures CleanKey(key) == "#"
  {
    HashKeyMatches(key);
    CleanKeyOrder(key);
    ShortKeyUnmatched(Uuid, "#");
    SubNoMatch(Integer, "#");
  }

  /** A key shaped like a UUID is cleaned to `#`. */
  lemma CleanKeyUuid(key: string)
    requires |key| == 36 && UuidAt(key, 0)
    ensures CleanKey(key) == "#"
  {
    UuidKeyMatches(key);
    CleanKeyOrder(key);
    SubNoMatch(Integer, "#");
  }

  /** A `cache`-backend session key keeps its prefix and loses the 32-character key. */
  lemma CleanKeyCacheSession(key: string)
    requires |key| == 32 && LowerAlnumRun(key, 0, 32)
    ensures CleanKey(CachePrefix + key) == CachePrefix + "#"
  {
    CacheSessionKeyMatches(key);
    var s := CachePrefix + "#";
    assert NoDigits(s);
    assert SubAll(VariableRes, CachePrefix + key) == SubAll(VariableRes[1..], s);
    ShortDigitFreeKeyUnchanged(VariableRes[1..], s);
  }

  /** A `cached_db`-backend session key keeps its prefix and loses the 32-character
      key. */
  lemma CleanKeyCachedDbSession(key: string)
    requires |key| == 32 && LowerAlnumRun(key, 0, 32)
    ensures CleanKey(CachedDbPrefix + key) == CachedDbPrefix + "#"
  {
    CachedDbSessionKeyMatches(key);
    var s := CachedDbPrefix + "#";
    forall k | 0 <= k < |s| ensures MatchLength(RandomHash, s, k) == 0 {
      if k + 32 <= |s| {
        assert !IsHexDigit(s[6]);
      }
    }
    SubNoMatch(RandomHash, s);
    SubNoMatch(Uuid, s);
    assert NoDigits(s);
    SubNoMatch(Integer, s);
    CleanKeyOrder(CachedDbPrefix + key);
  }

  /** `clean_key("foo1") == "foo#"`. */
  lemma CleanKeyInteger()
    ensures CleanKey("foo1") == "foo#"
  {
    var s := "foo1";
    CleanKeyOrder(s);
    ShortKeyUnmatched(CacheSessionKey, s);
    ShortKeyUnmatched(CachedDbSessionKey, s);
    ShortKeyUnmatched(RandomHash, s);
    ShortKeyUnmatched(Uuid, s);
    assert MatchLength(Integer, s, 0) == 0;
    assert MatchLength(Integer, s, 1) == 0;
    assert MatchLength(Integer, s, 2) == 0;
    SubFromCopies(Integer, s, 0, 3);
    assert DigitRun(s, 4) == 0;
    assert MatchLength(Integer, s, 3) == 1;
    assert SubFrom(Integer, s, 3) == "#";
    assert s[0..3] == "foo";
  }

  /** `clean_key` on a 32-digit hexadecimal hash. */
  lemma CleanKeyHashExample()
    ensures CleanKey("abc123abc123abc123abc123abc12345") == "#"
  {
    var h := "abc123abc123abc123abc123abc12345";
    assert HexRun(h, 0, 32);
    CleanKeyRandomHash(h);
  }

  /** `clean_key` on a UUID. */
  lemma CleanKeyUuidExample()
    ensures CleanKey("bdfc9986-d461-4a5e-bf98-8688993abcfb") == "#"
  {
    var u := "bdfc9986-d461-4a5e-bf98-8688993abcfb";
    assert UuidAt(u, 0);
    CleanKeyUuid(u);
  }

  /** The session key the tests use. */
  const SampleSessionKey: string := "abcdefghijklmnopqrstuvwxyz012345"

  lemma SessionKeyExampleShape()
    ensures |SampleSessionKey| == 32 && LowerAlnumRun(SampleSessionKey, 0, 32)
  {
  }

  /** `clean_key` on the tests' session key of the `cache` backend. */
  lemma CleanKeyCacheSessionExample()
    ensures CleanKey(CachePrefix + SampleSessionKey) == "django.contrib.sessions.cache#"
  {
    SessionKeyExampleShape();
    CleanKeyCacheSession(SampleSessionKey);
  }

  /** `clean_key` on the tests' session key of the `cached_db` backend. */
  lemma CleanKeyCachedDbSessionExample()
    ensures CleanKey(CachedDbPrefix + SampleSessionKey) == "django.contrib.sessions.cached_db#"
  {
    SessionKeyExampleShape();
    CleanKeyCachedDbSession(SampleSessionKey);
  }

  /** `key_or_keys` as the constructor sees it: a string, another collection (a list, a
      tuple, a set, dictionary keys, given in its iteration order), or something else. */
  datatype KeyArg = KeyString(key: string) | KeyCollection(keys: seq<string>) | NotACollection

  /** The query `CacheOp.__init__` stores: the cleaned key of a string, the sorted
      cleaned keys of any other collection, and `ValueError` for anything else. */
  function CleanedQuery(keyOrKeys: KeyArg): (r: Outcome<Query>)
    ensures keyOrKeys.KeyString? ==> r == Ok(Text(CleanKey(keyOrKeys.key)))
    ensures keyOrKeys.KeyCollection? ==> (r.Ok? && r.value.Keys?
      && multiset(r.value.keys) == multiset(Map(CleanKey, keyOrKeys.keys))
      && Ascending(r.value.keys))
    ensures keyOrKeys.NotACollection? ==>
      r == Raised(ValueError("key_or_keys must be a string or collection"))
  {
    match keyOrKeys
    case KeyString(key) => Ok(Text(CleanKey(key)))
    case KeyCollection(keys) =>
      SortedAscending(Map(CleanKey, keys));
      Ok(Keys(Sorted(Map(CleanKey, keys))))
    case NotACollection => Raised(ValueError("key_or_keys must be a string or collection"))
  }

  /** `CacheOp(alias, operation, key_or_keys)`. */
  function NewCacheOp(alias: string, operation: string, keyOrKeys: KeyArg): (r: Outcome<Operation>)
    ensures r.Ok? <==> !keyOrKeys.NotACollection?
    ensures r.Ok? ==> (r.value.cls == CacheOpClass(operation) && r.value.alias == alias
      && Ok(r.value.query) == CleanedQuery(keyOrKeys))
  {
    match CleanedQuery(keyOrKeys)
    case Ok(query) => Ok(Operation(CacheOpClass(operation), alias, query))
    case Raised(e) => Raised(e)
  }

  /** The order in which a collection yields its keys does not matter: keys that are a
      rearrangement of each other, duplicates included, give the same query. */
  lemma CleanedQueryIgnoresOrder(a: seq<string>, b: seq<string>)
    requires multiset(a) == multiset(b)
    ensures CleanedQuery(KeyCollection(a)) == CleanedQuery(KeyCollection(b))
  {
    MapPermutes(CleanKey, a, b);
    SortedIgnoresOrder(Map(CleanKey, a), Map(CleanKey, b));
  }

  /** Every key of a collection is kept, duplicates included, and each stored key is
      digit-free. */
  lemma CleanedQueryKeepsEveryKey(keys: seq<string>)
    ensures var r := CleanedQuery(KeyCollection(keys));
      |r.value.keys| == |keys| && forall k :: 0 <= k < |keys| ==> NoDigits(r.value.keys[k])
  {
    var r := CleanedQuery(KeyCollection(keys));
    assert |multiset(r.value.keys)| == |multiset(Map(CleanKey, keys))|;
    forall k | 0 <= k < |keys| ensures NoDigits(r.value.keys[k]) {
      assert r.value.keys[k] in multiset(Map(CleanKey, keys));
    }
  }

  /** `CacheOp.name`: `cache`, then the alias unless it is `default`, then the cache
      method, joined with `|`. */
  function Name(alias: string, operation: string): (r: string)
    ensures alias == "default" ==> r == "cache|" + operation
    ensures alias != "default" ==> r == "cache|" + alias + "|" + operation
  {
    var parts := ["cache"] + (if alias != "default" then [alias] else []) + [operation];
    if alias == "default" then
      assert parts == ["cache", operation];
      JoinTwo("|", "cache", operation);
      Join("|", parts)
    else
      assert parts == ["cache", alias, operation];
      JoinThree("|", "cache", alias, operation);
      assert "cache" + "|" == "cache|";
      Join("|", parts)
  }

  /** `CacheOp.__eq__`: equal as operations, and the same cache method. */
  function CacheOpEquals(self: Operation, other: Operation): (b: bool)
    requires self.cls.CacheOpClass?
    ensures b <==> other.cls == self.cls && other.alias == self.alias && other.query == self.query
  {
    Equals(self, other) && other.cls.operation == self.cls.operation
  }

  /** Two cache operations built from the same arguments are equal; differing alias,
      method or cleaned query makes them unequal. */
  lemma CacheOpEqualsExactlyWhenSameArguments(
    alias1: string, op1: string, k1: KeyArg, alias2: string, op2: string, k2: KeyArg)
    requires NewCacheOp(alias1, op1, k1).Ok? && NewCacheOp(alias2, op2, k2).Ok?
    ensures CacheOpEquals(NewCacheOp(alias1, op1, k1).value, NewCacheOp(alias2, op2, k2).value)
      <==> alias1 == alias2 && op1 == op2 && CleanedQuery(k1) == CleanedQuery(k2)
  {
  }
}
