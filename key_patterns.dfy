/** The regular expressions with which the cache recorders blank out the variable parts
    of cache keys, and `pattern.sub("#", key)` for each of them.

    Each pattern is fixed and simple, so instead of a regular-expression engine each one is
    a scanner: `MatchLength` says how long a match of the pattern starting at a position
    is (0 for none), and `SubFrom` walks the key left to right as `re.sub` does, replacing
    every match by `#` and resuming after it, and copying any other character. None of the
    patterns can match the empty string, and none of them can match in more than one way
    at a position (the fixed-width ones have one length, and `\d+` is greedy), so this is
    exactly the leftmost, non-overlapping replacement `re.sub` performs. Lookbehinds and
    `\b` are evaluated against the key the pass started from, as in `re`.

    The character classes are ASCII: `\d` is `[0-9]` and a word character is a letter, a
    digit or `_`. */
module KeyPatterns {
  import opened PyStr

  datatype Pattern =
    | CacheSessionKey   // `(?<=django\.contrib\.sessions\.cache)[0-9a-z]{32}\b`
    | CachedDbSessionKey // `(?<=django\.contrib\.sessions\.cached_db)[0-9a-z]{32}\b`
    | RandomHash        // `\b[0-9a-f]{32}\b`
    | Uuid              // `[0-9a-f]{8}-[0-9a-f]{4}-[0-9a-f]{4}-[0-9a-f]{4}-[0-9a-f]{12}`
    | Integer           // `\d+`

  const CachePrefix: string := "django.contrib.sessions.cache"
  const CachedDbPrefix: string := "django.contrib.sessions.cached_db"

  predicate IsWordChar(c: char)
  {
    ('a' <= c <= 'z') || ('A' <= c <= 'Z') || IsDigit(c) || c == '_'
  }

  predicate IsHexDigit(c: char)
  {
    IsDigit(c) || ('a' <= c <= 'f')
  }

  predicate IsLowerAlnum(c: char)
  {
    IsDigit(c) || ('a' <= c <= 'z')
  }

  /** `\b` between `s[i - 1]` and `s[i]`: exactly one side is a word character, the
      outside of the string counting as a non-word character. */
  predicate WordBoundary(s: string, i: nat)
    requires i <= |s|
  {
    (0 < i && IsWordChar(s[i - 1])) != (i < |s| && IsWordChar(s[i]))
  }

  predicate LowerAlnumRun(s: string, i: nat, n: nat)
    requires i + n <= |s|
  {
    forall k :: i <= k < i + n ==> IsLowerAlnum(s[k])
  }

  predicate HexRun(s: string, i: nat, n: nat)
    requires i + n <= |s|
  {
    forall k :: i <= k < i + n ==> IsHexDigit(s[k])
  }

  /** A session key: 32 lower-case letters or digits, preceded by `prefix` and followed
      by a word boundary. */
  predicate SessionKeyAt(prefix: string, s: string, i: nat)
  {
    |prefix| <= i && i + 32 <= |s| && s[i - |prefix|..i] == prefix
    && LowerAlnumRun(s, i, 32) && WordBoundary(s, i + 32)
  }

  /** 32 hexadecimal digits with a word boundary on both sides. */
  predicate RandomHashAt(s: string, i: nat)
  {
    i + 32 <= |s| && WordBoundary(s, i) && HexRun(s, i, 32) && WordBoundary(s, i + 32)
  }

  /** The character a UUID has at offset `pos`: a dash at 8, 13, 18 and 23, a hexadecimal
      digit elsewhere. */
  predicate UuidChar(c: char, pos: int)
  {
    if pos == 8 || pos == 13 || pos == 18 || pos == 23 then c == '-' else IsHexDigit(c)
  }

  predicate UuidAt(s: string, i: nat)
  {
    i + 36 <= |s| && forall k :: i <= k < i + 36 ==> UuidChar(s[k], k - i)
  }

  /** The length of the run of digits starting at `i`: what the greedy `\d+` matches. */
  function DigitRun(s: string, i: nat): (n: nat)
    requires i <= |s|
    ensures i + n <= |s|
    ensures forall k :: i <= k < i + n ==> IsDigit(s[k])
    ensures i + n == |s| || !IsDigit(s[i + n])
    decreases |s| - i
  {
    if i < |s| && IsDigit(s[i]) then 1 + DigitRun(s, i + 1) else 0
  }

  /** How many characters a match of `p` starting at `i` covers; 0 when there is none. */
  function MatchLength(p: Pattern, s: string, i: nat): (n: nat)
    requires i < |s|
    ensures i + n <= |s|
    ensures p == Integer ==> (n > 0 <==> IsDigit(s[i]))
  {
    match p
    case CacheSessionKey => if SessionKeyAt(CachePrefix, s, i) then 32 else 0
    case CachedDbSessionKey => if SessionKeyAt(CachedDbPrefix, s, i) then 32 else 0
    case RandomHash => if RandomHashAt(s, i) then 32 else 0
    case Uuid => if UuidAt(s, i) then 36 else 0
    case Integer => DigitRun(s, i)
  }

  /** `p.sub("#", s)` on the part of `s` from position `i` on. */
  function SubFrom(p: Pattern, s: string, i: nat): (r: string)
    requires i <= |s|
    ensures |r| <= |s| - i
    decreases |s| - i
  {
    if i == |s| then ""
    else
      var n := MatchLength(p, s, i);
      if n > 0 then "#" + SubFrom(p, s, i + n) else [s[i]] + SubFrom(p, s, i + 1)
  }

  /** `p.sub("#", s)`. */
  function Sub(p: Pattern, s: string): string
  {
    SubFrom(p, s, 0)
  }

  /** The key after each pattern of `ps` has been applied in turn. */
  function SubAll(ps: seq<Pattern>, key: string): string
    decreases |ps|
  {
    if ps == [] then key else SubAll(ps[1..], Sub(ps[0], key))
  }

  /** `for var_re in VARIABLE_RES: key = var_re.sub("#", key)`. */
  method SubEach(ps: seq<Pattern>, key: string) returns (r: string)
    ensures r == SubAll(ps, key)
  {
    r := key;
    for j := 0 to |ps|
      invariant SubAll(ps, key) == SubAll(ps[j..], r)
    {
      assert ps[j..][1..] == ps[j + 1..];
      r := Sub(ps[j], r);
    }
  }

  predicate NoDigits(s: string)
  {
    forall k :: 0 <= k < |s| ==> !IsDigit(s[k])
  }

  /** A character that starts no match is copied. */
  lemma SubFromSkips(p: Pattern, s: string, i: nat)
    requires i < |s| && MatchLength(p, s, i) == 0
    ensures SubFrom(p, s, i) == [s[i]] + SubFrom(p, s, i + 1)
  {
  }

  lemma PrependSlice(s: string, i: nat, j: nat, rest: string)
    requires i < j <= |s|
    ensures [s[i]] + (s[i + 1..j] + rest) == s[i..j] + rest
  {
    assert s[i..j] == [s[i]] + s[i + 1..j];
  }

  /** The characters from `i` up to `j` that start no match are copied unchanged. */
  lemma {:induction false} SubFromCopies(p: Pattern, s: string, i: nat, j: nat)
    requires i <= j <= |s|
    requires forall k :: i <= k < j ==> MatchLength(p, s, k) == 0
    ensures SubFrom(p, s, i) == s[i..j] + SubFrom(p, s, j)
    decreases j - i
  {
    if i < j {
      SubFromSkips(p, s, i);
      SubFromCopies(p, s, i + 1, j);
      PrependSlice(s, i, j, SubFrom(p, s, j));
    }
  }

  /** A pattern that matches nowhere leaves the key as it is. */
  lemma SubNoMatch(p: Pattern, s: string)
    requires forall k :: 0 <= k < |s| ==> MatchLength(p, s, k) == 0
    ensures Sub(p, s) == s
  {
    SubFromCopies(p, s, 0, |s|);
  }

  /** After the `\d+` pass no digit is left: every run of digits became `#`. */
  lemma {:induction false} IntegerSubFromHasNoDigits(s: string, i: nat)
    requires i <= |s|
    ensures NoDigits(SubFrom(Integer, s, i))
    decreases |s| - i
  {
    if i < |s| {
      var n := MatchLength(Integer, s, i);
      if n > 0 {
        IntegerSubFromHasNoDigits(s, i + n);
      } else {
        IntegerSubFromHasNoDigits(s, i + 1);
      }
    }
  }

  /** Applying the `\d+` pass twice is the same as once. */
  lemma IntegerSubIdempotent(s: string)
    ensures Sub(Integer, Sub(Integer, s)) == Sub(Integer, s)
  {
    IntegerSubFromHasNoDigits(s, 0);
    SubNoMatch(Integer, Sub(Integer, s));
  }

  /** A list of passes ending with `\d+` leaves no digit in the key. */
  lemma {:induction false} SubAllEndingWithIntegerHasNoDigits(ps: seq<Pattern>, key: string)
    requires |ps| > 0 && ps[|ps| - 1] == Integer
    ensures NoDigits(SubAll(ps, key))
    decreases |ps|
  {
    if |ps| == 1 {
      assert SubAll(ps, key) == SubAll([], Sub(Integer, key));
      IntegerSubFromHasNoDigits(key, 0);
    } else {
      assert ps[1..][|ps[1..]| - 1] == Integer;
      SubAllEndingWithIntegerHasNoDigits(ps[1..], Sub(ps[0], key));
    }
  }

  /** A key shorter than 32 characters is too short for the session, hash and UUID
      patterns. */
  lemma ShortKeyUnmatched(p: Pattern, s: string)
    requires |s| < 32 && p != Integer
    ensures Sub(p, s) == s
  {
    SubNoMatch(p, s);
  }

  /** A key shorter than 32 characters without digits passes every pattern unchanged. */
  lemma {:induction false} ShortDigitFreeKeyUnchanged(ps: seq<Pattern>, s: string)
    requires |s| < 32 && NoDigits(s)
    ensures SubAll(ps, s) == s
    decreases |ps|
  {
    if ps != [] {
      if ps[0] == Integer {
        SubNoMatch(Integer, s);
      } else {
        ShortKeyUnmatched(ps[0], s);
      }
      ShortDigitFreeKeyUnchanged(ps[1..], s);
    }
  }

  /** A key that is exactly 32 hexadecimal digits is one random-hash match, and no
      session-key match (there is no room for a prefix). */
  lemma HashKeyMatches(s: string)
    requires |s| == 32 && HexRun(s, 0, 32)
    ensures Sub(CacheSessionKey, s) == s
    ensures Sub(CachedDbSessionKey, s) == s
    ensures Sub(RandomHash, s) == "#"
  {
    SubNoMatch(CacheSessionKey, s);
    SubNoMatch(CachedDbSessionKey, s);
    assert IsWordChar(s[0]) && IsWordChar(s[31]);
    assert MatchLength(RandomHash, s, 0) == 32;
  }

  /** A key shaped like a UUID contains no 32-digit hexadecimal run (every 32-character
      window holds a dash) and is one UUID match. */
  lemma UuidKeyMatches(s: string)
    requires UuidAt(s, 0) && |s| == 36
    ensures Sub(CacheSessionKey, s) == s
    ensures Sub(CachedDbSessionKey, s) == s
    ensures Sub(RandomHash, s) == s
    ensures Sub(Uuid, s) == "#"
  {
    SubNoMatch(CacheSessionKey, s);
    SubNoMatch(CachedDbSessionKey, s);
    forall k | 0 <= k < |s| ensures MatchLength(RandomHash, s, k) == 0 {
      if k + 32 <= |s| {
        assert UuidChar(s[23], 23 - 0);
        assert !HexRun(s, k, 32) by { assert !IsHexDigit(s[23]); }
      }
    }
    SubNoMatch(RandomHash, s);
    assert MatchLength(Uuid, s, 0) == 36;
  }

  /** `django.contrib.sessions.cache` followed by a 32-character session key: only the
      key is replaced, the prefix stays. */
  lemma CacheSessionKeyMatches(key: string)
    requires |key| == 32 && LowerAlnumRun(key, 0, 32)
    ensures Sub(CacheSessionKey, CachePrefix + key) == CachePrefix + "#"
  {
    var s := CachePrefix + key;
    assert s[..29] == CachePrefix;
    forall k | 0 <= k < 29 ensures MatchLength(CacheSessionKey, s, k) == 0 {
    }
    SubFromCopies(CacheSessionKey, s, 0, 29);
    assert s[29..61] == key;
    assert IsLowerAlnum(s[60]) && IsWordChar(s[60]);
    assert MatchLength(CacheSessionKey, s, 29) == 32;
    assert s[0..29] == CachePrefix;
  }

  /** `django.contrib.sessions.cached_db` followed by a 32-character session key: the
      `cache` pattern finds nothing (its prefix is followed by `d_db`, and `_` is not a
      key character), and the `cached_db` pattern replaces only the key. */
  lemma CachedDbSessionKeyMatches(key: string)
    requires |key| == 32 && LowerAlnumRun(key, 0, 32)
    ensures Sub(CacheSessionKey, CachedDbPrefix + key) == CachedDbPrefix + key
    ensures Sub(CachedDbSessionKey, CachedDbPrefix + key) == CachedDbPrefix + "#"
  {
    var s := CachedDbPrefix + key;
    assert s[..33] == CachedDbPrefix;
    forall k | 0 <= k < |s| ensures MatchLength(CacheSessionKey, s, k) == 0 {
      if 29 <= k && k + 32 <= |s| {
        if k == 29 {
          assert !IsLowerAlnum(s[30]);
        } else {
          assert s[k - 29..k][0] == s[k - 29];
          assert s[k - 29] != CachePrefix[0];
        }
      }
    }
    SubNoMatch(CacheSessionKey, s);
    forall k | 0 <= k < 33 ensures MatchLength(CachedDbSessionKey, s, k) == 0 {
    }
    SubFromCopies(CachedDbSessionKey, s, 0, 33);
    assert s[33..65] == key;
    assert IsWordChar(s[64]);
    assert MatchLength(CachedDbSessionKey, s, 33) == 32;
    assert s[0..33] == CachedDbPrefix;
  }
}
