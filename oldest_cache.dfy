/** `django_performance_recorder/cache.py`, the oldest generation: `CacheOperation`
    has no alias, cleans keys with only three patterns, and accepts only strings,
    mappings and sequences. */
module OldestCache {
  import opened PyBase
  import opened PySorted
  import opened KeyPatterns

  /** `CacheOperation.VARIABLE_RES`: no session-key patterns yet. */
  const VariableRes: seq<Pattern> := [RandomHash, Uuid, Integer]

  /** `CacheOperation.clean_key(key)`. */
  function CleanKey(key: string): (r: string)
    ensures NoDigits(r)
  {
    SubAllEndingWithIntegerHasNoDigits(VariableRes, key);
    SubAll(VariableRes, key)
  }

  /** The three substitutions happen in the order listed. */
  lemma CleanKeyOrder(key: string)
    ensures CleanKey(key) == Sub(Integer, Sub(Uuid, Sub(RandomHash, key)))
  {
    assert VariableRes[1..][1..] == [Integer];
    assert VariableRes[1..][1..][1..] == [];
  }

  /** The current generation runs the two session-key patterns first and then these
      three, so on a key neither session pattern touches the two generations agree. */
  lemma SameAsCurrentWithoutSessionKeys(key: string)
    requires Sub(CacheSessionKey, key) == key
    requires Sub(CachedDbSessionKey, key) == key
    ensures CleanKey(key) == SubAll([CacheSessionKey, CachedDbSessionKey] + VariableRes, key)
  {
    var ps := [CacheSessionKey, CachedDbSessionKey] + VariableRes;
    assert ps[1..] == [CachedDbSessionKey] + VariableRes;
    assert ps[1..][1..] == VariableRes;
  }

  /** A key of 32 hexadecimal digits is cleaned to `#`. */
  lemma CleanKeyRandomHash(key: string)
    requires |key| == 32 && HexRun(key, 0, 32)
    ensures CleanKey(key) == "#"
  {
    HashKeyMatches(key);
    CleanKeyOrder(key);
    ShortKeyUnmatched(Uuid, "#");
    SubNoMatch(Integer, "#");
  }

  /** A key shaped like a UUID is cleaned to `#`. */
  lemma CleanKeyUuid(key: string)
    requires |key| == 36 && UuidAt(key, 0)
    ensures CleanKey(key) == "#"
  {
    UuidKeyMatches(key);
    CleanKeyOrder(key);
    SubNoMatch(Integer, "#");
  }

  /** `clean_key("foo1") == "foo#"`. */
  lemma CleanKeyInteger()
    ensures CleanKey("foo1") == "foo#"
  {
    var s := "foo1";
    CleanKeyOrder(s);
    ShortKeyUnmatched(RandomHash, s);
    ShortKeyUnmatched(Uuid, s);
    assert MatchLength(Integer, s, 0) == 0;
    assert MatchLength(Integer, s, 1) == 0;
    assert MatchLength(Integer, s, 2) == 0;
    SubFromCopies(Integer, s, 0, 3);
    assert DigitRun(s, 4) == 0;
    assert MatchLength(Integer, s, 3) == 1;
    assert SubFrom(Integer, s, 3) == "#";
    assert s[0..3] == "foo";
  }

  const SampleHash: string := "abc123abc123abc123abc123abc12345"
  const SampleUuid: string := "bdfc9986-d461-4a5e-bf98-8688993abcfb"

  /** `clean_key` on a 32-digit hexadecimal hash. */
  lemma CleanKeyHashExample()
    ensures CleanKey(SampleHash) == "#"
  {
    assert HexRun(SampleHash, 0, 32);
    CleanKeyRandomHash(SampleHash);
  }

  /** `clean_key` on a UUID. */
  lemma CleanKeyUuidExample()
    ensures CleanKey(SampleUuid) == "#"
  {
    assert UuidAt(SampleUuid, 0);
    CleanKeyUuid(SampleUuid);
  }

  /** `key_or_keys` as this constructor sees it. A mapping yields its keys and a
      sequence its items, in iteration order; sets are neither. */
  datatype KeyArg =
    | KeyString(key: string)
    | KeyMapping(keys: seq<string>)
    | KeySequence(items: seq<string>)
    | KeySet(members: seq<string>)
    | Other

  /** What `self.key_or_keys` holds: one cleaned key, or a sorted list of cleaned keys. */
  datatype KeyOrKeys = OneKey(key: string) | SortedKeys(keys: seq<string>)

  datatype CacheOperation = CacheOperation(operation: string, keyOrKeys: KeyOrKeys)

  /** `CacheOperation(operation, key_or_keys)`. */
  function NewCacheOperation(operation: string, keyOrKeys: KeyArg): (r: Outcome<CacheOperation>)
    ensures keyOrKeys.KeyString? ==>
      r == Ok(CacheOperation(operation, OneKey(CleanKey(keyOrKeys.key))))
    ensures (keyOrKeys.KeyMapping? || keyOrKeys.KeySequence?) ==>
      (var keys := if keyOrKeys.KeyMapping? then keyOrKeys.keys else keyOrKeys.items;
       r.Ok? && r.value.operation == operation && r.value.keyOrKeys.SortedKeys?
       && multiset(r.value.keyOrKeys.keys) == multiset(Map(CleanKey, keys))
       && Ascending(r.value.keyOrKeys.keys))
    ensures (keyOrKeys.KeySet? || keyOrKeys.Other?) ==>
      r == Raised(ValueError("key_or_keys must be a string, mapping, or sequence"))
  {
    match keyOrKeys
    case KeyString(key) => Ok(CacheOperation(operation, OneKey(CleanKey(key))))
    case KeyMapping(keys) =>
      SortedAscending(Map(CleanKey, keys));
      Ok(CacheOperation(operation, SortedKeys(Sorted(Map(CleanKey, keys)))))
    case KeySequence(items) =>
      SortedAscending(Map(CleanKey, items));
      Ok(CacheOperation(operation, SortedKeys(Sorted(Map(CleanKey, items)))))
    case _ => Raised(ValueError("key_or_keys must be a string, mapping, or sequence"))
  }

  /** A mapping or a sequence of the same keys, in any order, gives the same
      operation. */
  lemma NewCacheOperationIgnoresOrder(operation: string, a: seq<string>, b: seq<string>)
    requires multiset(a) == multiset(b)
    ensures NewCacheOperation(operation, KeySequence(a)) == NewCacheOperation(operation, KeySequence(b))
    ensures NewCacheOperation(operation, KeyMapping(a)) == NewCacheOperation(operation, KeySequence(b))
  {
    MapPermutes(CleanKey, a, b);
    SortedIgnoresOrder(Map(CleanKey, a), Map(CleanKey, b));
    SortedKeysOperation(operation, a);
    SortedKeysOperation(operation, b);
  }

  /** A mapping and a sequence of keys both give the operation with the sorted cleaned
      keys. */
  lemma SortedKeysOperation(operation: string, keys: seq<string>)
    ensures NewCacheOperation(operation, KeySequence(keys))
      == NewCacheOperation(operation, KeyMapping(keys))
      == Ok(CacheOperation(operation, SortedKeys(Sorted(Map(CleanKey, keys)))))
  {
  }
}
