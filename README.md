# django-perf-rec in Dafny

django-perf-rec records the database queries and cache operations that a block of test
code performs, normalised so that values which change from run to run do not show, and
keeps them as a named "performance record" in a `.perf.yml` file next to the test. On
later runs it compares the new record with the stored one and fails the test when they
differ. The repository holds three generations of the library side by side: the current
one (`src/django_perf_rec/`), an older one (`django_perf_rec/`) and the oldest
(`django_performance_recorder/`). Each generation is modelled in its own modules, so that
their differences are stated and proved rather than smoothed over.

The model covers four components.

- **SQL fingerprinting** (`PerfRecSql`, `LegacySql`, over the token tree of `SqlTokens`).
  sqlparse's parser is not modelled: a parsed statement is a value of the `Token`
  datatype, whose leaves carry a token type and text and whose groups carry a class, the
  `.value` text sqlparse computed when it built them, and their children. The in-place
  rewrites (`sql_trim`'s pops, `sql_strip`'s flag, the simplify loop with
  `prev_word_token`, the IN loop) are methods with loops proved against specification
  functions, and the properties the code promises are lemmas about those functions:
  white-space runs render as one space, parenthesis padding goes, literals and `NULL`
  become `#`, column lists become `...` (except after ORDER BY, GROUP BY or HAVING in the
  current generation), UPDATE assignments become ` ... `, `IN` lists of literals become
  `(...)`, and savepoint and cursor names are redacted. Every error the code can raise on
  an unexpected tree (IndexError, StopIteration, AttributeError) is an `Outcome`.
- **Cache-operation normalisation** (`KeyPatterns`, `PerfRecCache`, `OldestCache`). The
  fixed regular expressions of `VARIABLE_RES` are scanners that report the length of a
  match at a position, and `re.sub` is the left-to-right walk that replaces each match by
  `#`. `clean_key` is the loop over the patterns.
- **Operation value objects and the database recorders** (`PerfRecOperation`,
  `PerfRecDb`, `LegacyDb`, `DbConnection`). A connection is a class whose debug-cursor
  flag and `last_executed_query` hook the recorders save, overwrite and restore. The
  hook is a datatype that says which recorders wrap the driver's method.
- **Record naming and reconciliation** (`PerfRecApi`, `LegacyApi`, `NameOrder`,
  `RecordStore`, `PyPath`). `get_perf_path`, `get_record_name` with its thread-local
  counter, `record`'s choice of file and name, `on_op` with its filters, and
  `save_or_assert` over the records file. The records file is a class holding a map from
  record names to records.

Small shared modules model the Python vocabulary used: `PyBase` (`Option`, exceptions
and `Outcome`), `PyStr` (`startswith`/`endswith`, `strip`, `str(n)`, `join`, string
order), `PySorted` (`sorted`, `list.remove`, list comprehensions) and `PyPath` (the POSIX
`os.path` functions `record` uses).

## Model

| member | source | states |
|---|---|---|
| SqlTokens.SetValue | src/django_perf_rec/sql.py:57 | assigning `.value` to a leaf changes its text; on a group it changes only the stored `.value`, never the rendered children |
| SqlTokens.RedactNameAt | src/django_perf_rec/sql.py:116 | the first child token of the `k`th token gets the `.value` `` `#` ``, nothing else changes; a missing token raises IndexError, a leaf in its place AttributeError, and a group with no children IndexError |
| SqlTokens.Values | src/django_perf_rec/sql.py:123 | the list of `.value`s from a position on, one per token, in order |
| SqlTokens.FirstWithValue | src/django_perf_rec/sql.py:83 | the first index whose token's `.value` equals the text, and that no earlier index has it |
| SqlTokens.FirstWhereGroup | src/django_perf_rec/sql.py:84-88 | the first group whose first child reads `WHERE`, and that no earlier token is one |
| SqlTokens.HasEmptyGroup | src/django_perf_rec/sql.py:87 | true exactly when some group has no children, so that reading its first child raises |
| PerfRecSql.Trim | src/django_perf_rec/sql.py:43-50 | the pop loop computes `Trimmed`, the specification of `sql_trim` |
| PerfRecSql.TrimmedStopsAt | src/django_perf_rec/sql.py:43-50 | `sql_trim` never adds tokens, leaves at least `abs(idx)` tokens once it pops, and stops at a token that is not white space |
| PerfRecSql.TrimmedRemovesWhitespaceAt | src/django_perf_rec/sql.py:43-50 | `sql_trim` removes one contiguous block of white-space tokens at position `idx` and keeps every other token in order |
| PerfRecSql.ParenthesisPaddingRemoved | src/django_perf_rec/sql.py:72-75 | after trimming at 1 and at -2, neither the token after the opening bracket nor the one before the closing bracket is white space, and the brackets stay |
| PerfRecSql.Strip | src/django_perf_rec/sql.py:53-60 | the `in_whitespace` loop computes `Collapsed`, the specification of `sql_strip` |
| PerfRecSql.CollapsedAt | src/django_perf_rec/sql.py:53-60 | token by token: a white-space token becomes `" "` when it starts a run and `""` when it continues one; any other token is untouched |
| PerfRecSql.CollapsedRunIsOneSpace | src/django_perf_rec/sql.py:53-60 | every maximal run of white-space tokens renders as exactly one space |
| PerfRecSql.StripTree | src/django_perf_rec/sql.py:63-77 | the specification of `sql_recursively_strip`: leaves and a group's class and `.value` are kept |
| PerfRecSql.RecursivelyStrip | src/django_perf_rec/sql.py:63-77 | the recursive method (sub-groups first, comments returned as they are, strip, parenthesis trim) computes `StripTree` |
| PerfRecSql.StripKeepsCommentLeaves | src/django_perf_rec/sql.py:67-68 | a comment's own leaves keep their text |
| PerfRecSql.StripCollapsesWhitespaceRuns | src/django_perf_rec/sql.py:70 | in any group other than a comment or a parenthesis, each maximal run of white-space children renders as one space |
| PerfRecSql.StripTrimsParenthesis | src/django_perf_rec/sql.py:72-75 | in a parenthesis, no white space is left right inside the brackets |
| PerfRecSql.StripKeepsBrackets | src/django_perf_rec/sql.py:72-75 | in a parenthesis, leaf brackets that are not white space stay first and last |
| PerfRecSql.UpdateRewrite | src/django_perf_rec/sql.py:82-95 | fails with IndexError exactly when there is no `SET` or some group is empty; otherwise the tokens through the first `SET`, one `" ... "`, then the tokens from the first WHERE group on, or nothing |
| PerfRecSql.NextParenthesis | src/django_perf_rec/sql.py:101-105 | the first parenthesis at or after the position, with none before it; `None` exactly when there is none |
| PerfRecSql.ReplaceInterior | src/django_perf_rec/sql.py:110 | Python's `tokens[1:-1] = [x]`: brackets of a list of two or more stay around `x`, a shorter list gets `x` appended |
| PerfRecSql.AllDeletable | src/django_perf_rec/sql.py:106-109 | true exactly when every token from the position on has a deletable token type |
| PerfRecSql.CollapseInList | src/django_perf_rec/sql.py:106-110 | the parenthesis stays a parenthesis with its `.value`, and is no taller |
| PerfRecSql.SimplifyInFrom | src/django_perf_rec/sql.py:98-110 | only StopIteration can be raised; the list keeps its length, non-parentheses are untouched, and parentheses stay parentheses with their `.value` |
| PerfRecSql.SimplifyIn | src/django_perf_rec/sql.py:98-110 | the loop over the `IN` positions computes `SimplifyInFrom` |
| PerfRecSql.CollapseInListIdempotent | src/django_perf_rec/sql.py:106-110 | collapsing an `IN` list a second time changes nothing |
| PerfRecSql.InRule | src/django_perf_rec/sql.py:98-110 | StopIteration exactly when some `IN` has no parenthesis after it; otherwise each parenthesis found after an `IN` has an all-literal interior replaced by `...`, and every other token is unchanged |
| PerfRecSql.Savepoint | src/django_perf_rec/sql.py:113-133 | a statement rendering SAVEPOINT first redacts token 2; otherwise a third token reading SAVEPOINT (RELEASE) redacts token 4; otherwise a ROLLBACK TO SAVEPOINT prefix with at least seven tokens redacts token 6; it is no savepoint statement exactly when none of the three holds |
| PerfRecSql.SavepointNameRedacted | src/django_perf_rec/sql.py:113-133 | simplifying a savepoint statement succeeds with the same statement whose name token's first child reads `` `#` ``; every other token, and the rest of the name, is unchanged, literals included |
| PerfRecSql.SavepointStable | src/django_perf_rec/sql.py:113-133 | a redacted savepoint statement is still recognised as one |
| PerfRecSql.CursorRenamed | src/django_perf_rec/sql.py:136-137 | a first token whose `.value` starts with `"_django_curs_` reads `"_django_curs_#"`; otherwise nothing changes; the rest is untouched |
| PerfRecSql.SimplifyChild | src/django_perf_rec/sql.py:141-160 | with `hide_columns`, a column list not after a keyword that upper-cases to ORDER BY, GROUP BY or HAVING becomes `...`; literals and `NULL` become `#`; other leaves are untouched; only a group can raise |
| PerfRecSql.SimplifyChildren | src/django_perf_rec/sql.py:139-162 | the loop over the children keeps their number, carrying the last non-white-space child |
| PerfRecSql.SimplifyNode | src/django_perf_rec/sql.py:80-162 | the node keeps its class and `.value`; an empty node, and an UPDATE without `SET`, raise IndexError |
| PerfRecSql.RecursivelySimplify | src/django_perf_rec/sql.py:80-162 | the recursive method computes `SimplifyNode` |
| PerfRecSql.SimplifyEach | src/django_perf_rec/sql.py:139-162 | the loop with `prev_word_token` computes `SimplifyChildren` |
| PerfRecSql.SimplifyToken | src/django_perf_rec/sql.py:142-160 | one pass of the loop body computes `SimplifyChild` |
| PerfRecSql.SimplifyNodeErases | src/django_perf_rec/sql.py:80-162 | after simplification no number or plain string survives and no leaf reads `NULL`, except in a savepoint statement |
| PerfRecSql.ColumnListAfterClause | src/django_perf_rec/sql.py:143-155 | with `hide_columns`, a column list after a keyword reading ORDER BY, GROUP BY or HAVING once upper-cased as Python does (the dotless `ı` and the long `ſ` included) is simplified like any group; after any other word it becomes `...` |
| PerfRecSql.ColumnClauseExamples | src/django_perf_rec/sql.py:147-151 | `order by` and `havıng` (dotless i) as keywords keep columns; the same text as a name, SELECT, or no previous word does not |
| PerfRecSql.LiteralsErasedNamesKept | src/django_perf_rec/sql.py:31-39 | the six literal types of `sql_deleteable_tokens` become `#`; a quoted identifier or a name is kept unless it reads `NULL` |
| PerfRecSql.KeepsColumnsProcessed | src/django_perf_rec/sql.py:147-151 | simplifying a child never changes whether it is an ORDER BY, GROUP BY or HAVING keyword |
| PerfRecSql.ColumnListsHidden | src/django_perf_rec/sql.py:139-162 | with `hide_columns`, a column list becomes `...` exactly unless the previous non-white-space child is a keyword that upper-cases, as Python does, to ORDER BY, GROUP BY or HAVING; other groups are simplified recursively |
| PerfRecSql.Fingerprint | src/django_perf_rec/sql.py:14-28 | `""` for an empty parse; otherwise the first statement stripped, simplified, rendered and stripped of surrounding white space, with no literal left |
| PerfRecSql.FingerprintFirstStatementOnly | src/django_perf_rec/sql.py:21-28 | statements after the first do not affect the fingerprint |
| PerfRecSql.SqlFingerprint | src/django_perf_rec/sql.py:14-28 | the sequence of calls computes `Fingerprint` |
| LegacySql.UpdateRewrite | django_perf_rec/sql.py:34-39 | IndexError exactly when there is no `SET`, no WHERE group, or an empty group; otherwise through `SET`, `" ... "`, then from the WHERE group on |
| LegacySql.Savepoint | django_perf_rec/sql.py:42-55 | a statement rendering SAVEPOINT first redacts token 2; otherwise a third token reading SAVEPOINT (RELEASE) redacts token 4; otherwise a ROLLBACK TO SAVEPOINT prefix with exactly seven tokens redacts token 6; it is no savepoint statement exactly when none of the three holds |
| LegacySql.LongRollbackOnlyCurrent | django_perf_rec/sql.py:51-55 | a ROLLBACK TO SAVEPOINT statement with more than seven tokens has its name redacted by the current generation and is not a savepoint statement to the legacy one |
| LegacySql.SimplifyChild | django_perf_rec/sql.py:57-71 | every column list becomes `...`; literals and `NULL` become `#`; a newline becomes `""` and any other white space `" "`, token by token |
| LegacySql.SimplifyChildren | django_perf_rec/sql.py:57-71 | the loop keeps the number of children |
| LegacySql.SimplifyNode | django_perf_rec/sql.py:32-71 | the node keeps its class and `.value`; an empty node, and an UPDATE without a WHERE group, raise IndexError |
| LegacySql.RecursivelySimplify | django_perf_rec/sql.py:32-71 | the recursive method computes `SimplifyNode` |
| LegacySql.SimplifyEach | django_perf_rec/sql.py:57-71 | the loop computes `SimplifyChildren` |
| LegacySql.SimplifyToken | django_perf_rec/sql.py:58-71 | one pass of the loop body computes `SimplifyChild` |
| LegacySql.SavepointStable | django_perf_rec/sql.py:42-55 | a redacted savepoint statement is still recognised as one |
| LegacySql.SimplifyNodeErases | django_perf_rec/sql.py:32-71 | no literal or `NULL` survives and every column list reads `...`, except in a savepoint statement |
| LegacySql.SimplifyChildErases | django_perf_rec/sql.py:60-71 | one simplified child holds no literal, and a column list is exactly `...` |
| LegacySql.SimplifyChildrenErases | django_perf_rec/sql.py:57-71 | every simplified child holds no literal, and every column list is exactly `...` |
| LegacySql.ParenthesizedListCollapses | tests/test_sql.py:42-46 | a parenthesised column or value list renders as `(...)` |
| LegacySql.Fingerprint | django_perf_rec/sql.py:10-19 | an empty parse raises IndexError, a leaf raises AttributeError; otherwise the first statement simplified and rendered untrimmed, with no literal left |
| LegacySql.SqlFingerprint | django_perf_rec/sql.py:10-19 | the sequence of calls computes `Fingerprint` |
| KeyPatterns.DigitRun | src/django_perf_rec/cache.py:65 | the greedy `\d+` match: a run of digits followed by a non-digit or the end |
| KeyPatterns.MatchLength | src/django_perf_rec/cache.py:55-66 | the length of a pattern's match at a position; `\d+` matches exactly at a digit |
| KeyPatterns.SubFrom | src/django_perf_rec/cache.py:52 | `re.sub` from a position on never lengthens the text |
| KeyPatterns.SubEach | src/django_perf_rec/cache.py:51-53 | the loop over the patterns computes `SubAll`, each pattern applied in turn |
| KeyPatterns.SubFromCopies | src/django_perf_rec/cache.py:52 | characters that start no match are copied unchanged |
| KeyPatterns.SubNoMatch | src/django_perf_rec/cache.py:52 | a pattern that matches nowhere leaves the key as it is |
| KeyPatterns.IntegerSubFromHasNoDigits | src/django_perf_rec/cache.py:65 | after the `\d+` pass no digit is left |
| KeyPatterns.IntegerSubIdempotent | src/django_perf_rec/cache.py:65 | the `\d+` pass applied twice is the same as once |
| KeyPatterns.SubAllEndingWithIntegerHasNoDigits | src/django_perf_rec/cache.py:55-66 | any pattern list ending with `\d+` leaves no digit |
| KeyPatterns.ShortKeyUnmatched | src/django_perf_rec/cache.py:57-63 | a key shorter than 32 characters is unaffected by the session, hash and UUID patterns |
| KeyPatterns.ShortDigitFreeKeyUnchanged | src/django_perf_rec/cache.py:55-66 | a short key without digits passes every pattern unchanged |
| KeyPatterns.HashKeyMatches | src/django_perf_rec/cache.py:61 | a 32-digit hexadecimal key is one random-hash match and no session-key match |
| KeyPatterns.UuidKeyMatches | src/django_perf_rec/cache.py:63 | a UUID-shaped key is one UUID match and no hash or session-key match |
| KeyPatterns.CacheSessionKeyMatches | src/django_perf_rec/cache.py:57 | a `cache`-backend session key loses its 32-character key, keeping the prefix |
| KeyPatterns.CachedDbSessionKeyMatches | src/django_perf_rec/cache.py:57-59 | a `cached_db`-backend session key is matched by its own pattern only, not by the `cache` one |
| PerfRecCache.CleanKey | src/django_perf_rec/cache.py:45-53 | the cleaned key holds no digit and is never longer than the key |
| PerfRecCache.CleanKeyOrder | src/django_perf_rec/cache.py:55-66 | the five substitutions run in the order listed: session keys, random hash, UUID, integers |
| PerfRecCache.CleanKeyRandomHash | src/django_perf_rec/cache.py:61 | a 32-digit hexadecimal key is cleaned to `#` |
| PerfRecCache.CleanKeyUuid | src/django_perf_rec/cache.py:63 | a UUID is cleaned to `#` |
| PerfRecCache.CleanKeyCacheSession | src/django_perf_rec/cache.py:57 | a `cache`-backend session key keeps its prefix and ends in `#` |
| PerfRecCache.CleanKeyCachedDbSession | src/django_perf_rec/cache.py:59 | a `cached_db`-backend session key keeps its prefix and ends in `#` |
| PerfRecCache.CleanKeyInteger | tests/test_cache.py:18-19 | `clean_key("foo1") == "foo#"` |
| PerfRecCache.CleanKeyHashExample | tests/test_cache.py:24-25 | the test's 32-digit hash is cleaned to `#` |
| PerfRecCache.CleanKeyUuidExample | tests/test_cache.py:21-22 | the test's UUID is cleaned to `#` |
| PerfRecCache.CleanKeyCacheSessionExample | tests/test_cache.py:27-29 | the test's `cache` session key is cleaned to its prefix and `#` |
| PerfRecCache.CleanKeyCachedDbSessionExample | tests/test_cache.py:31-33 | the test's `cached_db` session key is cleaned to its prefix and `#` |
| PerfRecCache.CleanedQuery | src/django_perf_rec/cache.py:35-41 | a string gives its cleaned key; a collection gives its cleaned keys, ascending and with duplicates; anything else raises ValueError with the source's message |
| PerfRecCache.NewCacheOp | src/django_perf_rec/cache.py:26-43 | succeeds exactly for a string or a collection, keeping alias and cache method and storing the cleaned query |
| PerfRecCache.CleanedQueryIgnoresOrder | src/django_perf_rec/cache.py:39 | collections with the same keys in any order give the same query |
| PerfRecCache.CleanedQueryKeepsEveryKey | src/django_perf_rec/cache.py:39 | every key of a collection appears, cleaned, once per occurrence |
| PerfRecCache.Name | src/django_perf_rec/cache.py:71-77 | `cache|operation` for the default alias, `cache|alias|operation` otherwise |
| PerfRecCache.CacheOpEquals | src/django_perf_rec/cache.py:68-69 | equal exactly when the class (cache method included), alias and query are equal |
| PerfRecCache.CacheOpEqualsExactlyWhenSameArguments | tests/test_cache.py:65-87 | operations built from the same arguments are equal, and a different alias, method or cleaned query makes them unequal |
| OldestCache.CleanKey | django_performance_recorder/cache.py:21-28 | the cleaned key holds no digit |
| OldestCache.CleanKeyOrder | django_performance_recorder/cache.py:30-37 | random hash, then UUID, then integers, and no session-key pattern |
| OldestCache.SameAsCurrentWithoutSessionKeys | django_performance_recorder/cache.py:30-37 | on keys the session-key patterns leave alone, the oldest and the current cleaning agree |
| OldestCache.CleanKeyRandomHash | django_performance_recorder/cache.py:32 | a 32-digit hexadecimal key is cleaned to `#` |
| OldestCache.CleanKeyUuid | django_performance_recorder/cache.py:34 | a UUID is cleaned to `#` |
| OldestCache.CleanKeyInteger | django_performance_recorder/test_cache.py:14-15 | `clean_key("foo1") == "foo#"` |
| OldestCache.CleanKeyHashExample | django_performance_recorder/test_cache.py:19-20 | the test's 32-digit hexadecimal hash is cleaned to `#` |
| OldestCache.CleanKeyUuidExample | django_performance_recorder/test_cache.py:16-17 | the test's UUID is cleaned to `#` |
| OldestCache.NewCacheOperation | django_performance_recorder/cache.py:12-19 | a string keeps its cleaned key; a mapping or a sequence gives its cleaned keys ascending, with duplicates; a set or anything else raises ValueError |
| OldestCache.NewCacheOperationIgnoresOrder | django_performance_recorder/cache.py:16-17 | the order of the keys does not matter, and a mapping behaves as a sequence of its keys |
| PerfRecOperation.Equals | src/django_perf_rec/operation.py:7-12 | equal operations have the same alias and query, and the other's class is the same or a subclass |
| PerfRecOperation.EqualsSameClass | src/django_perf_rec/operation.py:7-12 | between operations of one class, equality is equal alias and query, and it is symmetric |
| PerfRecOperation.EqualsReflexive | src/django_perf_rec/operation.py:7-12 | every operation equals itself |
| PerfRecOperation.AliasChangeBreaksEquality | src/django_perf_rec/operation.py:10 | changing only the alias makes operations unequal, both ways |
| PerfRecOperation.EqualsAcceptsSubclass | src/django_perf_rec/operation.py:9 | a plain operation equals a database operation with the same fields, but not the other way round |
| PerfRecUtils.Equals | src/django_perf_rec/utils.py:22-29 | `NotImplemented` exactly for a foreign operand; otherwise true exactly when path, class and test name are equal |
| NameOrder.SortedNames | src/django_perf_rec/utils.py:98-114 | the copy, remove and sort steps compute `DefaultFirst`; the older generations' `sorted_names` (django_perf_rec/utils.py:50-66, django_performance_recorder/utils.py:5-21) is the same code |
| NameOrder.DefaultFirstIsPermutation | src/django_perf_rec/utils.py:102-114 | the result holds exactly the input's names, duplicates included |
| NameOrder.DefaultFirstStartsWithDefault | src/django_perf_rec/utils.py:105-112 | the result starts with `default` exactly when the input contains it |
| NameOrder.DefaultFirstRestAscending | src/django_perf_rec/utils.py:109 | after a leading `default` the names are ascending; without one the result is `sorted(names)` |
| NameOrder.ExtraDefaultsStayInRemainder | src/django_perf_rec/utils.py:105-107 | only the first `default` moves to the front; further ones stay in the sorted rest |
| NameOrder.DefaultFirstIgnoresOrder | src/django_perf_rec/utils.py:98-114 | inputs with the same names in any order give the same result |
| NameOrder.DefaultFirstSmallInputs | tests/test_utils.py:39-46 | empty gives empty and a single name gives itself |
| PerfRecDb.Name | src/django_perf_rec/db.py:15-21 | `db` for the default alias and `db|alias` otherwise, from the alias alone |
| PerfRecDb.NameInjective | src/django_perf_rec/db.py:15-21 | different aliases get different names |
| PerfRecDb.Invoke | src/django_perf_rec/db.py:44-61 | the wrapped method returns the driver's SQL unchanged and reports one operation per wrapper, innermost first, each with the SQL's fingerprint; a fingerprint error propagates |
| PerfRecDb.OneRecorderReportsOneOp | src/django_perf_rec/db.py:49-59 | one recorder around the driver reports exactly one operation, for its alias, with the fingerprint |
| PerfRecDb.DBRecorder.Enter | src/django_perf_rec/db.py:33-66 | saves the flag and the method, sets the flag and wraps the method |
| PerfRecDb.DBRecorder.Exit | src/django_perf_rec/db.py:68-76 | puts back the saved flag and method |
| PerfRecDb.RecordBlock | src/django_perf_rec/db.py:33-76 | inside the block the flag is set and the method wrapped; afterwards both are as before |
| LegacyDb.Equals | django_perf_rec/db.py:22-27 | true exactly when the other object is a `DBOp` with the same alias and SQL |
| LegacyDb.SettingsAttribute | django_perf_rec/settings.py:7-21 | the legacy settings object has the attribute `MODE` and no other; any other name raises AttributeError |
| LegacyDb.InvokeAsWritten | django_perf_rec/db.py:52-64 | the wrapper as written: unwrapped, the driver's SQL is returned |
| LegacyDb.AsWrittenRecordingRaises | django_perf_rec/db.py:57-64 | as written, every query through a recorder raises AttributeError |
| LegacyDb.Invoke | django_perf_rec/db.py:52-64 | the intended wrapper returns the SQL unchanged and reports one `DBOp` per wrapper, innermost first, with the legacy fingerprint |
| LegacyDb.DBRecorder.Enter | django_perf_rec/db.py:39-72 | saves the flag and the method, sets the flag and wraps the method |
| LegacyDb.DBRecorder.Exit | django_perf_rec/db.py:74-77 | puts the method back and clears the flag, whatever it was before |
| LegacyDb.BlockLogIsNested | django_perf_rec/db.py:87-97 | entries and exits bracket each other: the `k`th recorder entered is the `k`th from the end to be left |
| LegacyDb.AllDBRecorder.Enter | django_perf_rec/db.py:87-92 | one fresh recorder per database alias, in `sorted_names` order, each entered on its own connection |
| LegacyDb.AllDBRecorder.EnterInOrder | django_perf_rec/db.py:89-92 | the loop creates, enters and appends a recorder for each name in turn |
| LegacyDb.AllDBRecorder.Exit | django_perf_rec/db.py:94-97 | every recorder is left in reverse order of entry, its connection's method restored and flag cleared, and the list emptied; a connection no recorder holds keeps its flag and method |
| LegacyDb.RecordAllBlock | django_perf_rec/db.py:87-97 | afterwards every connection has its method back and its flag cleared; recorders were entered in `sorted_names` order and left in reverse |
| PyPath.LastSlash | src/django_perf_rec/api.py:155 | the index of the last slash, or -1 when there is none |
| PyPath.Basename | src/django_perf_rec/api.py:155 | a suffix of the path holding no slash |
| PyPath.Dirname | src/django_perf_rec/api.py:148 | a prefix of the path ending no later than its last slash |
| PyPath.JoinPath | src/django_perf_rec/api.py:147-149 | ends with the second part; an absolute second part replaces the first; otherwise the first part is kept in front |
| PyPath.BasenameOfJoin | src/django_perf_rec/api.py:155 | joining a name without slashes onto a directory keeps it as the base name |
| RecordStore.RecordsFile.Get | src/django_perf_rec/yaml.py:50-51 | the stored record when the name is present, `None` exactly when it is not |
| RecordStore.RecordsFile.SetAndSave | src/django_perf_rec/yaml.py:53-66 | the record under the name becomes the new one and every other record stays |
| PerfRecApi.GetPerfPath | src/django_perf_rec/api.py:21-28 | ends in `.perf.yml`, and what precedes it is a prefix of the test module's path |
| PerfRecApi.ModuleAndCompiledShareRecordFile | src/django_perf_rec/api.py:22-25 | `x.py` and `x.pyc` both give `x.perf.yml` |
| PerfRecApi.OtherPathsKeepTheirName | src/django_perf_rec/api.py:26-27 | any other path gets `.perf.yml` appended to its whole name |
| PerfRecApi.BaseRecordName | src/django_perf_rec/api.py:39-42 | `class.test` for a non-empty class name, otherwise the test name |
| PerfRecApi.Suffixed | src/django_perf_rec/api.py:46-48 | the base itself for the first record and `base.k` after; the base is kept in front |
| PerfRecApi.SuffixedInjective | src/django_perf_rec/api.py:44-53 | no two records in a row get the same name |
| PerfRecApi.RecordCurrent.GetRecordName | src/django_perf_rec/api.py:34-53 | remembers the (file, base name) pair; the counter goes up for the same pair and restarts at 1 for another; the name is the base with that counter's suffix |
| PerfRecApi.ThreeRecordsInARow | src/django_perf_rec/api.py:44-53 | three calls in a row for a new pair give `X`, `X.2`, `X.3` |
| PerfRecApi.InDirectory | src/django_perf_rec/api.py:155 | a path inside the directory with the record file's base name |
| PerfRecApi.RecordFileName | src/django_perf_rec/api.py:140-155 | no path gives the module's record file; a path not ending in `/` is used as it is; a directory path gives the record file's base name inside that directory, relative to the module's directory unless absolute |
| PerfRecApi.RecordFileIsPerfFile | src/django_perf_rec/api.py:140-155 | without an explicit file path, the record file ends in `.perf.yml` |
| PerfRecApi.Reconcile | src/django_perf_rec/api.py:104-126 | passes exactly when a stored record matches or the mode is `overwrite`, or, with no stored record, when the mode is `once` or `overwrite`; on success the store holds the new record; failures are assertion errors and write either nothing or just that record |
| PerfRecApi.NoneModeNeedsStoredRecord | src/django_perf_rec/api.py:106-111 | mode `none` with no stored record fails and writes nothing |
| PerfRecApi.AllModeWritesThenFails | src/django_perf_rec/api.py:119-126 | mode `all` with no stored record writes the new record and then fails |
| PerfRecApi.MismatchFailsWithoutWriting | src/django_perf_rec/api.py:113-117 | a different stored record fails every mode but `overwrite`, with nothing written |
| PerfRecApi.SavedRecordPassesAgain | src/django_perf_rec/api.py:104-126 | after a successful save, the same record passes in every mode and leaves the store as it is |
| PerfRecApi.OpName | src/django_perf_rec/operation.py:2-12 | the base operation has no `name` and raises AttributeError; database and cache operations have theirs, and no name is `traceback` |
| PerfRecApi.Entry | src/django_perf_rec/api.py:90-99 | no entry when `capture_operation` rejects the operation; otherwise exactly the name mapped to the query, plus `traceback` exactly when `capture_traceback` accepts it |
| PerfRecApi.PerformanceRecorder.constructor | src/django_perf_rec/api.py:57-71 | keeps file, name and filters, with an empty record |
| PerfRecApi.PerformanceRecorder.Enter | src/django_perf_rec/api.py:73-76 | database recorders, cache recorders, then the records file is opened with its stored records |
| PerfRecApi.PerformanceRecorder.OnOp | src/django_perf_rec/api.py:90-99 | the record grows by the entry `Entry` gives, or not at all |
| PerfRecApi.PerformanceRecorder.SaveOrAssert | src/django_perf_rec/api.py:104-126 | the outcome and the new store are those of `Reconcile` |
| PerfRecApi.PerformanceRecorder.Exit | src/django_perf_rec/api.py:78-88 | cache recorders, then database recorders, then `save_or_assert` only when the block did not raise |
| PerfRecApi.Record | src/django_perf_rec/api.py:129-169 | the recorder gets the chosen file; an explicit name is used as it is and leaves the counter alone; otherwise the name comes from `get_record_name` for that file |
| LegacyApi.FileName | django_perf_rec/api.py:27-43 | a path not ending in `/` is used as it is |
| LegacyApi.FileNameAgreesWithCurrent | django_perf_rec/api.py:27-43 | both generations pick the same file for every path and test module |
| LegacyApi.PerformanceRecorder.Enter | django_perf_rec/api.py:75-78 | database recorders, cache recorders, then the records file is opened |
| LegacyApi.PerformanceRecorder.OnDbOp | django_perf_rec/api.py:87-93 | appends one entry, `db` or `db|alias` mapped to the SQL |
| LegacyApi.PerformanceRecorder.OnCacheOp | django_perf_rec/api.py:95-102 | appends one entry, `cache[|alias]|operation` mapped to the key or keys |
| LegacyApi.PerformanceRecorder.SaveOrAssert | django_perf_rec/api.py:107-126 | the outcome and the new store are those of the legacy `Reconcile` |
| LegacyApi.PerformanceRecorder.Exit | django_perf_rec/api.py:80-85 | cache recorders, then database recorders, then `save_or_assert` only when the block did not raise |
| LegacyApi.Reconcile | django_perf_rec/api.py:107-126 | a stored record must match; with none, any mode but `none` and `all` passes; on success the store holds the new record |
| LegacyApi.ReconcileAgreesWithCurrent | django_perf_rec/api.py:107-126 | `all` and `none` behave as in the current generation, messages included; any other mode, `overwrite` too, behaves as `once` |
| LegacyApi.Record | django_perf_rec/api.py:24-62 | the recorder gets the chosen file; an explicit name leaves the counter alone; otherwise the counter is keyed by the base name alone, whatever the file |
| PyStr.Strip | src/django_perf_rec/sql.py:28 | `str.strip()`: the middle slice with no white space at either end, and only white space removed; white space is what `str.isspace()` accepts, the Unicode separators included |
| PyStr.NatToString | src/django_perf_rec/api.py:48 | `str(n)`: non-empty, digits only |
| PyStr.DecimalRoundTrip | src/django_perf_rec/api.py:48 | reading back `str(n)` gives `n` |
| PyStr.NatToStringInjective | src/django_perf_rec/api.py:48 | distinct counters are written differently |
| PySorted.Sorted | src/django_perf_rec/utils.py:109 | `sorted()` returns a permutation of its input |
| PySorted.SortedAscending | src/django_perf_rec/utils.py:109 | `sorted()` returns an ascending list |
| PySorted.SortedIsTheAscendingPermutation | src/django_perf_rec/utils.py:109 | any ascending permutation of the input is `sorted()`'s result |
| PySorted.RemoveFirst | src/django_perf_rec/utils.py:106 | `list.remove` takes out one occurrence |
| PySorted.FirstIndex | src/django_perf_rec/utils.py:106 | the first occurrence, with none before it |

## Left out

- sqlparse itself is not modelled: the parsed statements are a parameter, and the `lru_cache` on `sql_fingerprint` does not change its value.
- The token tree has one leaf per token and stores a group's `.value` as given; which token types sqlparse assigns to a given SQL text is not captured, so the SQL strings of the tests are not reproduced end to end.
- PerfRecSql.InRule: states the effect of the IN rule on the parentheses found for `IN` tokens and leaves alone the case of a parenthesis with fewer than two tokens, whose interior Python's slice assignment treats differently (`ReplaceInterior` models it).
- The monkey-patching itself (`MethodType` rebinding, `functools.wraps`, the cache recorders' method swapping and `inspect` frame test) is not modelled; the hook a recorder installs is a datatype value.
- `CacheRecorder`, `AllCacheRecorder`, `AllSourceRecorder` and `BaseRecorder` are not part of this model, nor the current `AllDBRecorder`, which only names them. The current `PerformanceRecorder` records their entry and exit as a ghost log of phases.
- The model follows the `Operation` of src/django_perf_rec/operation.py:1-12, which takes no traceback and has no `name`, so `OpName` raises for a base operation and the formatted stack `on_op` stores is a parameter. The tests are written against a class that also takes a traceback: tests/test_operation.py:15 expects `TypeError` from a base operation's `name`, and tests/test_cache.py:89-92 expects two operations differing only in their traceback to be unequal. Neither is captured here: the model's operations carry no traceback and compare by class, alias and query.
- `traceback.extract_stack`, `current_test` and its frame walking: the stack and the `TestDetails` are given as data.
- `record_diff` and `pytest_plugin.in_pytest`: PerfRecApi.Reconcile and LegacyApi.Reconcile give the mismatch message without the diff that is appended outside pytest.
- `KVFile`'s YAML loading, load cache, locking and writing are not modelled: the records file is its in-memory map.
- `os.path.exists` and `os.makedirs` in `record` are not modelled (they only create the directory).
- The current settings readers: `MODE` and `HIDE_COLUMNS` are parameters, and so is the value of the legacy `MODE` property. The current `MODE` is one of its four valid values; the legacy `MODE` is any string, as its settings do not validate it.
- Python's regular-expression classes are Unicode-aware; the key patterns use their ASCII meaning.
- SqlTokens.Upper: upper-cases `a`-`z`, `ı` and `ſ` only; other characters are kept, where Python may map them to other non-ASCII characters or expand `ß` and the ligatures to several of `F`, `I`, `L`, `S`, `T`. None of those can make or unmake ORDER BY, GROUP BY or HAVING, which is all the model upper-cases for.
- `clean_key` is not claimed to be idempotent: a digit replaced by `#` can create a word boundary that exposes a 32-digit hexadecimal run to a second pass.
- The ORM patches (`orm.py` in both generations) and `patch_ORM_to_be_deterministic` are not modelled.
- `TestCaseMixin.record_performance` only forwards to `record` and has no member of its own.
- The legacy `django_perf_rec/cache.py` is not part of this model: LegacyApi.PerformanceRecorder.OnCacheOp takes the cache operation's alias, method and key or keys as given.
- LegacyDb.AllDBRecorder.Enter: requires the connections to be exactly those of the configured aliases, one distinct connection object per alias, as Django's `connections` provides.
- LegacyApi.PerformanceRecorder.Enter: the entry and exit of the database and cache recorders are ghost phases that only name those steps; the connections they patch are modelled by LegacyDb.AllDBRecorder and PerfRecDb on their own, not through the performance recorder.
- LegacyDb.AllDBRecorder.EnterInOrder: states the new state of the named connections only, which is what `Enter` needs.

## Findings

| source | as written | input that shows it | evidently intended | confidence | as-written member | corrected member |
|---|---|---|---|---|---|---|
| django_perf_rec/db.py:57-64 | the wrapper reads `perf_rec_settings.HIDE_COLUMNS`, which the legacy settings object (django_perf_rec/settings.py:7-21) does not define, and passes `hide_columns=` to a `sql_fingerprint` that takes one argument (django_perf_rec/sql.py:11) | any query run on a connection while a `DBRecorder` is installed, e.g. `SELECT 1` on `default` | return the SQL and report `DBOp(alias, sql_fingerprint(sql))` | not executed | LegacyDb.AsWrittenRecordingRaises | LegacyDb.Invoke |
