/** The parsed SQL token tree that both generations of the fingerprinting code walk.

    The parser itself (sqlparse's `parse`) is not part of this model: a parsed statement
    is given as a value of `Token`. A leaf carries sqlparse's token type and its text. A
    group (sqlparse's `TokenList`) carries its class, its child tokens, and `text`: the
    `.value` sqlparse computed when it built the group. sqlparse never recomputes a
    group's `.value` when its children change, whereas `str()` of a group always renders
    the current leaves; the code compares both, so the model keeps both. */
module SqlTokens {
  import opened PyBase
  import opened PyStr

  /** The sqlparse token types the code distinguishes. `Whitespace` and `Newline` are
      `T.Text.Whitespace` and its subtype; `Keyword`, `DML` and `DDL` are `T.Keyword` and
      its subtypes. */
  datatype TokenType =
    | Keyword | DML | DDL
    | Name | Punctuation | Operator | ComparisonOp
    | Whitespace | Newline
    | Number | NumberFloat | NumberInteger | NumberHexadecimal
    | String | StringSingle | StringSymbol
    | CommentSingle | CommentMultiline
    | OtherType

  /** The sqlparse group classes; the code tests for `Comment`, `Parenthesis` and
      `IdentifierList`, the rest only label trees. */
  datatype GroupKind =
    | Statement | Parenthesis | Comment | IdentifierList
    | Identifier | Where | Comparison | OtherGroup

  datatype Token =
    | Leaf(ttype: TokenType, value: string)
    | Group(kind: GroupKind, text: string, tokens: seq<Token>)

  /** `token.value`: a leaf's text, or the text a group had when it was built. */
  function Value(t: Token): string
  {
    match t
    case Leaf(_, v) => v
    case Group(_, text, _) => text
  }

  /** `token.value = v`: on a group it changes only the stored `.value`, never the
      children that `str()` renders. */
  function SetValue(t: Token, v: string): (r: Token)
    ensures Value(r) == v
    ensures r.Leaf? == t.Leaf?
    ensures r.Leaf? ==> r.ttype == t.ttype
    ensures r.Group? ==> r.kind == t.kind && r.tokens == t.tokens
    ensures Height(r) == Height(t)
  {
    match t
    case Leaf(tt, _) => Leaf(tt, v)
    case Group(k, _, ts) => Group(k, v, ts)
  }

  /** `token.ttype`: a group's is `None`. */
  function TtypeOf(t: Token): Option<TokenType>
  {
    if t.Leaf? then Some(t.ttype) else None
  }

  /** `token.is_whitespace`: fixed by the token type when the token is built. */
  predicate IsWhitespace(t: Token)
  {
    t.Leaf? && (t.ttype == Whitespace || t.ttype == Newline)
  }

  /** `token.is_keyword`. */
  predicate IsKeyword(t: Token)
  {
    t.Leaf? && (t.ttype == Keyword || t.ttype == DML || t.ttype == DDL)
  }

  predicate IsParenthesis(t: Token)
  {
    t.Group? && t.kind == Parenthesis
  }

  /** Membership in `sql_deleteable_tokens`: numbers and plain or single-quoted strings
      (exact token types, not their subtypes). */
  predicate IsDeletableType(tt: TokenType)
  {
    tt in {Number, NumberFloat, NumberInteger, NumberHexadecimal, String, StringSingle}
  }

  predicate IsDeletable(t: Token)
  {
    t.Leaf? && IsDeletableType(t.ttype)
  }

  /** `str(token)`: the concatenated text of the leaves, left to right. */
  function Render(t: Token): string
    decreases t
  {
    match t
    case Leaf(_, v) => v
    case Group(_, _, ts) => RenderAll(ts)
  }

  function RenderAll(ts: seq<Token>): string
    decreases ts
  {
    if ts == [] then "" else Render(ts[0]) + RenderAll(ts[1..])
  }

  lemma {:induction false} RenderAllAppend(a: seq<Token>, b: seq<Token>)
    ensures RenderAll(a + b) == RenderAll(a) + RenderAll(b)
  {
    if a == [] {
      assert a + b == b;
    } else {
      assert (a + b)[0] == a[0];
      assert (a + b)[1..] == a[1..] + b;
      RenderAllAppend(a[1..], b);
    }
  }

  /** Nesting depth, the measure by which the rewriting passes terminate: they may
      duplicate siblings but never deepen a tree. */
  function Height(t: Token): nat
    decreases t
  {
    match t
    case Leaf(_, _) => 0
    case Group(_, _, ts) => 1 + MaxHeight(ts)
  }

  function MaxHeight(ts: seq<Token>): (h: nat)
    ensures forall i :: 0 <= i < |ts| ==> Height(ts[i]) <= h
    decreases ts
  {
    if ts == [] then 0
    else
      var rest := MaxHeight(ts[1..]);
      assert forall i :: 1 <= i < |ts| ==> ts[i] == ts[1..][i - 1];
      if Height(ts[0]) > rest then Height(ts[0]) else rest
  }

  /** Every element no taller than `h` bounds the whole list by `h`. */
  lemma {:induction false} MaxHeightBound(ts: seq<Token>, h: nat)
    requires forall i :: 0 <= i < |ts| ==> Height(ts[i]) <= h
    ensures MaxHeight(ts) <= h
  {
    if ts != [] {
      MaxHeightBound(ts[1..], h);
    }
  }

  /** A list made of tokens taken from `ts` and of leaves is no taller than `ts`. */
  lemma MaxHeightOfPieces(sub: seq<Token>, ts: seq<Token>)
    requires forall x :: x in sub ==> x in ts || x.Leaf?
    ensures MaxHeight(sub) <= MaxHeight(ts)
  {
    forall i | 0 <= i < |sub| ensures Height(sub[i]) <= MaxHeight(ts) {
      if sub[i].Group? {
        assert sub[i] in sub;
        var k :| 0 <= k < |ts| && ts[k] == sub[i];
      }
    }
    MaxHeightBound(sub, MaxHeight(ts));
  }

  /** Replacing one token by one no taller keeps the list's height bound. */
  lemma MaxHeightUpdate(ts: seq<Token>, k: nat, x: Token)
    requires k < |ts| && Height(x) <= Height(ts[k])
    ensures MaxHeight(ts[k := x]) <= MaxHeight(ts)
  {
    MaxHeightBound(ts[k := x], MaxHeight(ts));
  }

  /** `c.upper()` for the characters whose upper case is a single ASCII letter: `a`-`z`,
      the dotless `ı` (to `I`) and the long `ſ` (to `S`). Every other character is kept.
      Python upper-cases some of those to other non-ASCII characters, and `ß` and the
      Latin ligatures to two or three of `F`, `I`, `L`, `S` and `T`; neither outcome can
      spell a word made only of the letters of ORDER BY, GROUP BY and HAVING, so the
      clause test reads the same either way. */
  function UpperChar(c: char): (u: char)
    ensures 'a' <= c <= 'z' ==> u as int == c as int - 32
    ensures c == '\U{131}' ==> u == 'I'
    ensures c == '\U{17F}' ==> u == 'S'
    ensures !('a' <= c <= 'z') && c != '\U{131}' && c != '\U{17F}' ==> u == c
  {
    if 'a' <= c <= 'z' then (c as int - 32) as char
    else if c == '\U{131}' then 'I'
    else if c == '\U{17F}' then 'S'
    else c
  }

  /** `s.upper()`, character by character as `UpperChar` says. */
  function Upper(s: string): (r: string)
    ensures |r| == |s|
    ensures forall i :: 0 <= i < |s| ==> r[i] == UpperChar(s[i])
  {
    if s == [] then [] else [UpperChar(s[0])] + Upper(s[1..])
  }

  /** `[getattr(t, "value", "") for t in tokens[from:]]`. */
  function Values(ts: seq<Token>, from: nat): (vs: seq<string>)
    requires from <= |ts|
    ensures |vs| == |ts| - from
    ensures forall i :: from <= i < |ts| ==> vs[i - from] == Value(ts[i])
    decreases |ts| - from
  {
    if from == |ts| then [] else [Value(ts[from])] + Values(ts, from + 1)
  }

  /** `str(node.tokens[0]) == "SAVEPOINT"`: a SAVEPOINT statement, whose name is token 2. */
  predicate OpensSavepoint(ts: seq<Token>)
  {
    |ts| > 0 && Render(ts[0]) == "SAVEPOINT"
  }

  /** `len(node.tokens) >= 3 and node.tokens[2].value == "SAVEPOINT"`: a RELEASE SAVEPOINT
      statement, whose name is token 4. */
  predicate ReleasesSavepoint(ts: seq<Token>)
  {
    |ts| >= 3 && Value(ts[2]) == "SAVEPOINT"
  }

  /** The values of the first six tokens of a ROLLBACK TO SAVEPOINT statement. */
  const RollbackToSavepointWords: seq<string> := ["ROLLBACK", " ", "TO", " ", "SAVEPOINT", " "]

  /** `len(node.tokens) >= 7 and token_values[:6] == [...]`: a statement that opens with
      ROLLBACK TO SAVEPOINT and has a seventh token, the savepoint's name. */
  predicate OpensRollbackToSavepoint(ts: seq<Token>)
  {
    |ts| >= 7 && Values(ts, 0)[..6] == RollbackToSavepointWords
  }

  /** `node.tokens[k].tokens[0].value = "`#`"`, the savepoint-name redaction shared by
      both generations: `tokens[k]` must exist, be a group, and have a first token. */
  function RedactNameAt(ts: seq<Token>, k: nat): (r: Outcome<seq<Token>>)
    ensures r.Ok? <==> k < |ts| && ts[k].Group? && |ts[k].tokens| > 0
    ensures k >= |ts| ==> r == Raised(IndexError)
    ensures k < |ts| && ts[k].Leaf? ==> r == Raised(AttributeError)
    ensures k < |ts| && ts[k].Group? && ts[k].tokens == [] ==> r == Raised(IndexError)
    ensures r.Ok? ==> (|r.value| == |ts| && r.value[k].Group? && r.value[k].kind == ts[k].kind
      && r.value[k].text == ts[k].text
      && r.value[k].tokens == ts[k].tokens[0 := SetValue(ts[k].tokens[0], "`#`")]
      && forall i :: 0 <= i < |ts| && i != k ==> r.value[i] == ts[i])
    ensures r.Ok? ==> MaxHeight(r.value) <= MaxHeight(ts)
  {
    if k >= |ts| then Raised(IndexError)
    else if ts[k].Leaf? then Raised(AttributeError)
    else if |ts[k].tokens| == 0 then Raised(IndexError)
    else
      var g := ts[k];
      var inner := g.tokens[0 := SetValue(g.tokens[0], "`#`")];
      MaxHeightUpdate(g.tokens, 0, SetValue(g.tokens[0], "`#`"));
      MaxHeightUpdate(ts, k, Group(g.kind, g.text, inner));
      Ok(ts[k := Group(g.kind, g.text, inner)])
  }

  /** The first position at or after `from` whose token has `.value` equal to `v`, if
      there is one. */
  function FirstWithValue(ts: seq<Token>, v: string, from: nat): (r: Option<nat>)
    ensures r.Some? ==> (from <= r.value < |ts| && Value(ts[r.value]) == v
      && forall k :: from <= k < r.value ==> Value(ts[k]) != v)
    ensures r.None? ==> forall k :: from <= k < |ts| ==> Value(ts[k]) != v
    decreases |ts| - from
  {
    if from >= |ts| then None
    else if Value(ts[from]) == v then Some(from)
    else FirstWithValue(ts, v, from + 1)
  }

  predicate IsEmptyGroup(t: Token)
  {
    t.Group? && t.tokens == []
  }

  /** `t.is_group and t.tokens[0].value == "WHERE"`, for a token that is not an empty
      group. */
  predicate IsWhereGroup(t: Token)
  {
    t.Group? && |t.tokens| > 0 && Value(t.tokens[0]) == "WHERE"
  }

  /** The first group at or after `from` starting with `WHERE`, if there is one. */
  function FirstWhereGroup(ts: seq<Token>, from: nat): (r: Option<nat>)
    ensures r.Some? ==> (from <= r.value < |ts| && IsWhereGroup(ts[r.value])
      && forall k :: from <= k < r.value ==> !IsWhereGroup(ts[k]))
    ensures r.None? ==> forall k :: from <= k < |ts| ==> !IsWhereGroup(ts[k])
    decreases |ts| - from
  {
    if from >= |ts| then None
    else if IsWhereGroup(ts[from]) then Some(from)
    else FirstWhereGroup(ts, from + 1)
  }

  /** Whether some token at or after `from` is a group with no tokens. */
  function HasEmptyGroup(ts: seq<Token>, from: nat): (b: bool)
    ensures b <==> exists k :: from <= k < |ts| && IsEmptyGroup(ts[k])
    decreases |ts| - from
  {
    if from >= |ts| then false
    else IsEmptyGroup(ts[from]) || HasEmptyGroup(ts, from + 1)
  }

  /** The token `...` that replaces a column list. */
  function Ellipsis(): Token
  {
    Leaf(Punctuation, "...")
  }

  /** Prefixes the tokens already produced to the outcome of the rest of the loop. */
  function Prepend(done: seq<Token>, rest: Outcome<seq<Token>>): Outcome<seq<Token>>
  {
    if rest.Raised? then rest else Ok(done + rest.value)
  }

  lemma PrependStep(done: seq<Token>, t: Token, rest: Outcome<seq<Token>>)
    ensures Prepend(done, if rest.Raised? then Raised(rest.error) else Ok([t] + rest.value))
      == Prepend(done + [t], rest)
  {
    if rest.Ok? {
      assert done + ([t] + rest.value) == (done + [t]) + rest.value;
    }
  }
}
