/** SQL fingerprinting, current generation (`src/django_perf_rec/sql.py`).

    `sql_fingerprint` strips and simplifies the first parsed statement and renders it.
    The strip pass collapses white space (`sql_strip`) and trims the padding inside
    parentheses (`sql_trim`); the simplify pass erases literals, column lists, UPDATE
    assignments, `IN` value lists, savepoint names and Postgres cursor names. sqlparse
    mutates its tree in place; here every pass is a method that returns the rewritten
    node, proved equal to a specification function over the token tree. */
module PerfRecSql {
  import opened PyBase
  import opened PyStr
  import opened SqlTokens

  // ---------------------------------------------------------------------------
  // sql_trim

  function Abs(i: int): nat
  {
    if i < 0 then -i else i
  }

  /** The position Python's `tokens[idx]` denotes in a list of `n` tokens. */
  function PyIndex(n: nat, idx: int): int
  {
    if idx >= 0 then idx else n + idx
  }

  /** `tokens.pop(p)`: the list without its token at position `p`. */
  function Popped(ts: seq<Token>, p: int): (r: seq<Token>)
    requires 0 <= p < |ts|
    ensures |r| == |ts| - 1
  {
    ts[..p] + ts[p + 1..]
  }

  /** `sql_trim(node, idx)`'s specification: pop the token at `idx` while it is white
      space and more than `abs(idx)` tokens remain. */
  function Trimmed(ts: seq<Token>, idx: int): seq<Token>
    decreases |ts|
  {
    if |ts| > Abs(idx) && IsWhitespace(ts[PyIndex(|ts|, idx)]) then
      Trimmed(Popped(ts, PyIndex(|ts|, idx)), idx)
    else ts
  }

  /** Where the block of tokens removed by `Trimmed` starts in the original list. */
  function TrimStart(removed: int, kept: int, idx: int): int
  {
    if removed == 0 then 0 else if idx >= 0 then idx else kept + idx + 1
  }

  /** `sql_trim` never leaves fewer than `abs(idx)` tokens once it removes anything, and
      it stops at a token that is not white space. */
  lemma {:induction false} TrimmedStopsAt(ts: seq<Token>, idx: int)
    ensures |Trimmed(ts, idx)| <= |ts|
    ensures |Trimmed(ts, idx)| == |ts| ==> Trimmed(ts, idx) == ts
    ensures |Trimmed(ts, idx)| < |ts| ==> |Trimmed(ts, idx)| >= Abs(idx)
    ensures |Trimmed(ts, idx)| > Abs(idx) ==>
      !IsWhitespace(Trimmed(ts, idx)[PyIndex(|Trimmed(ts, idx)|, idx)])
    decreases |ts|
  {
    if |ts| > Abs(idx) && IsWhitespace(ts[PyIndex(|ts|, idx)]) {
      var p := PyIndex(|ts|, idx);
      TrimmedStopsAt(ts[..p] + ts[p + 1..], idx);
    }
  }

  /** `r` is `ts` with the `|ts| - |r|` tokens from position `lo` on removed, all of them
      white space. */
  predicate PopsWhitespaceBlock(ts: seq<Token>, r: seq<Token>, lo: int)
  {
    |r| <= |ts| && 0 <= lo && lo + (|ts| - |r|) <= |ts|
    && r == ts[..lo] + ts[lo + (|ts| - |r|)..]
    && forall q :: lo <= q < lo + (|ts| - |r|) ==> IsWhitespace(ts[q])
  }

  /** `sql_trim` removes one contiguous block of white-space tokens, starting at `idx`
      (counted from the end of the list that is left when `idx` is negative), and keeps
      the other tokens in order. */
  lemma {:induction false} TrimmedRemovesWhitespaceAt(ts: seq<Token>, idx: int)
    ensures PopsWhitespaceBlock(ts, Trimmed(ts, idx),
      TrimStart(|ts| - |Trimmed(ts, idx)|, |Trimmed(ts, idx)|, idx))
    decreases |ts|
  {
    var r := Trimmed(ts, idx);
    if |ts| > Abs(idx) && IsWhitespace(ts[PyIndex(|ts|, idx)]) {
      var p := PyIndex(|ts|, idx);
      var ts' := Popped(ts, p);
      assert r == Trimmed(ts', idx);
      TrimmedStopsAt(ts', idx);
      if |r| == |ts'| {
        PopIsBlock(ts, idx, p);
      } else {
        TrimmedRemovesWhitespaceAt(ts', idx);
        TrimStep(ts, ts', r, idx, p);
      }
    } else {
      assert ts[..0] + ts[0..] == ts;
    }
  }

  /** A single pop removes a block of one white-space token. */
  lemma PopIsBlock(ts: seq<Token>, idx: int, p: int)
    requires |ts| > Abs(idx) && p == PyIndex(|ts|, idx) && 0 <= p < |ts| && IsWhitespace(ts[p])
    ensures PopsWhitespaceBlock(ts, Popped(ts, p), TrimStart(1, |ts| - 1, idx))
  {
    assert TrimStart(1, |ts| - 1, idx) == p;
  }

  /** The inductive step of `TrimmedRemovesWhitespaceAt`: popping position `p` and then a
      block from the rest is popping one block from the whole. */
  lemma TrimStep(ts: seq<Token>, ts': seq<Token>, r: seq<Token>, idx: int, p: int)
    requires |ts| > Abs(idx) && p == PyIndex(|ts|, idx) && 0 <= p < |ts|
    requires IsWhitespace(ts[p]) && ts' == Popped(ts, p)
    requires |r| < |ts'| && |r| >= Abs(idx)
    requires PopsWhitespaceBlock(ts', r, TrimStart(|ts'| - |r|, |r|, idx))
    ensures PopsWhitespaceBlock(ts, r, TrimStart(|ts| - |r|, |r|, idx))
  {
    if idx >= 0 {
      TrimStepFront(ts, ts', r, p);
    } else {
      TrimStepBack(ts, ts', r, |r| + idx + 1, p);
    }
  }

  /** `TrimStep` from the front: the block grows at its start position `p`. */
  lemma TrimStepFront(ts: seq<Token>, ts': seq<Token>, r: seq<Token>, p: nat)
    requires p < |ts| && IsWhitespace(ts[p]) && ts' == Popped(ts, p) && |r| < |ts'|
    requires PopsWhitespaceBlock(ts', r, p)
    ensures PopsWhitespaceBlock(ts, r, p)
  {
    var k := |ts| - |r|;
    assert ts'[..p] == ts[..p];
    assert ts'[p + (k - 1)..] == ts[p + k..];
    forall q | p <= q < p + k ensures IsWhitespace(ts[q]) {
      if q > p { assert ts[q] == ts'[q - 1]; }
    }
  }

  /** `TrimStep` from the back: the block from `lo` grows at its end, position `p`. */
  lemma TrimStepBack(ts: seq<Token>, ts': seq<Token>, r: seq<Token>, lo: int, p: nat)
    requires p < |ts| && IsWhitespace(ts[p]) && ts' == Popped(ts, p) && |r| < |ts'|
    requires lo + (|ts| - |r|) == p + 1
    requires PopsWhitespaceBlock(ts', r, lo)
    ensures PopsWhitespaceBlock(ts, r, lo)
  {
    var k := |ts| - |r|;
    assert ts'[..lo] == ts[..lo];
    assert ts'[p..] == ts[p + 1..];
    forall q | lo <= q < lo + k ensures IsWhitespace(ts[q]) {
      if q < p { assert ts[q] == ts'[q]; }
    }
  }

  /** `sql_trim(node, idx)` on the node's tokens. */
  method Trim(tokens: seq<Token>, idx: int) returns (r: seq<Token>)
    ensures r == Trimmed(tokens, idx)
  {
    r := tokens;
    var count := |r|;
    var minCount := Abs(idx);
    while count > minCount && IsWhitespace(r[PyIndex(count, idx)])
      invariant count == |r|
      invariant Trimmed(r, idx) == Trimmed(tokens, idx)
      decreases count
    {
      var p := PyIndex(count, idx);
      r := r[..p] + r[p + 1..];
      count := count - 1;
    }
  }

  /** A token before the popped block keeps its position. */
  lemma BlockKeepsBefore(ts: seq<Token>, r: seq<Token>, lo: int, q: nat)
    requires PopsWhitespaceBlock(ts, r, lo) && q < lo && q < |r|
    ensures r[q] == ts[q]
  {
    assert r[q] == (ts[..lo] + ts[lo + (|ts| - |r|)..])[q];
  }

  /** A token after the popped block moves back by the block's length. */
  lemma BlockKeepsAfter(ts: seq<Token>, r: seq<Token>, lo: int, q: nat)
    requires PopsWhitespaceBlock(ts, r, lo) && lo <= q < |r|
    ensures r[q] == ts[q + (|ts| - |r|)]
  {
    assert r[q] == (ts[..lo] + ts[lo + (|ts| - |r|)..])[q];
  }

  /** `sql_trim(node, 1)` keeps the first token. */
  lemma TrimFrontKeepsFirst(ts: seq<Token>)
    ensures |ts| > 0 ==> |Trimmed(ts, 1)| > 0 && Trimmed(ts, 1)[0] == ts[0]
  {
    var r := Trimmed(ts, 1);
    TrimmedStopsAt(ts, 1);
    TrimmedRemovesWhitespaceAt(ts, 1);
    if |ts| > |r| {
      assert TrimStart(|ts| - |r|, |r|, 1) == 1;
      BlockKeepsBefore(ts, r, 1, 0);
    }
  }

  /** `sql_trim(node, 1)` keeps a last token that is not white space. */
  lemma TrimFrontKeepsLast(ts: seq<Token>)
    requires |ts| > 0 && !IsWhitespace(ts[|ts| - 1])
    ensures |Trimmed(ts, 1)| > 0 && Trimmed(ts, 1)[|Trimmed(ts, 1)| - 1] == ts[|ts| - 1]
  {
    var r := Trimmed(ts, 1);
    TrimmedStopsAt(ts, 1);
    TrimmedRemovesWhitespaceAt(ts, 1);
    var k := |ts| - |r|;
    if k > 0 {
      assert TrimStart(k, |r|, 1) == 1;
      assert 1 + k < |ts|;
      BlockKeepsAfter(ts, r, 1, |r| - 1);
    }
  }

  /** `sql_trim(node, 1)` leaves no white space right after the first token. */
  lemma TrimFrontClearsSecond(ts: seq<Token>)
    ensures |Trimmed(ts, 1)| > 1 ==> !IsWhitespace(Trimmed(ts, 1)[1])
  {
    TrimmedStopsAt(ts, 1);
  }

  /** `sql_trim(node, -2)` keeps the first token. */
  lemma TrimBackKeepsFirst(ts: seq<Token>)
    ensures |ts| > 0 ==> |Trimmed(ts, -2)| > 0 && Trimmed(ts, -2)[0] == ts[0]
  {
    var r := Trimmed(ts, -2);
    TrimmedStopsAt(ts, -2);
    TrimmedRemovesWhitespaceAt(ts, -2);
    var k := |ts| - |r|;
    if k > 0 {
      assert TrimStart(k, |r|, -2) == |r| - 1;
      BlockKeepsBefore(ts, r, |r| - 1, 0);
    }
  }

  /** `sql_trim(node, -2)` keeps the last token. */
  lemma TrimBackKeepsLast(ts: seq<Token>)
    requires |ts| > 0
    ensures |Trimmed(ts, -2)| > 0 && Trimmed(ts, -2)[|Trimmed(ts, -2)| - 1] == ts[|ts| - 1]
  {
    var r := Trimmed(ts, -2);
    TrimmedStopsAt(ts, -2);
    TrimmedRemovesWhitespaceAt(ts, -2);
    var k := |ts| - |r|;
    if k > 0 {
      assert TrimStart(k, |r|, -2) == |r| - 1;
      BlockKeepsAfter(ts, r, |r| - 1, |r| - 1);
    }
  }

  /** `sql_trim(node, -2)` leaves no white space right before the last token. */
  lemma TrimBackClearsPenultimate(ts: seq<Token>)
    ensures |Trimmed(ts, -2)| > 2 ==> !IsWhitespace(Trimmed(ts, -2)[|Trimmed(ts, -2)| - 2])
  {
    TrimmedStopsAt(ts, -2);
  }

  /** `sql_trim(node, -2)` keeps a second token that is not white space. */
  lemma TrimBackKeepsSecond(ts: seq<Token>)
    requires |ts| > 1 && !IsWhitespace(ts[1])
    ensures |Trimmed(ts, -2)| > 1 && Trimmed(ts, -2)[1] == ts[1]
  {
    var r := Trimmed(ts, -2);
    TrimmedStopsAt(ts, -2);
    TrimmedRemovesWhitespaceAt(ts, -2);
    var k := |ts| - |r|;
    if k > 0 {
      var lo := |r| - 1;
      assert TrimStart(k, |r|, -2) == lo;
      assert lo != 1;
      BlockKeepsBefore(ts, r, lo, 1);
    }
  }

  /** `sql_trim(node, 1)` then `sql_trim(node, -2)`: afterwards neither the token after
      the first nor the token before the last is white space, the first token stays, and
      so does a last token that is not white space (the brackets of a parenthesis). */
  lemma ParenthesisPaddingRemoved(ts: seq<Token>)
    ensures var r := Trimmed(Trimmed(ts, 1), -2);
      (|r| > 1 ==> !IsWhitespace(r[1]))
      && (|r| > 2 ==> !IsWhitespace(r[|r| - 2]))
      && (|ts| > 0 ==> |r| > 0 && r[0] == ts[0])
      && (|ts| > 0 && !IsWhitespace(ts[|ts| - 1]) ==> r[|r| - 1] == ts[|ts| - 1])
  {
    var r1 := Trimmed(ts, 1);
    TrimFrontKeepsFirst(ts);
    TrimFrontClearsSecond(ts);
    if |ts| > 0 && !IsWhitespace(ts[|ts| - 1]) {
      TrimFrontKeepsLast(ts);
    }
    TrimBackKeepsFirst(r1);
    TrimBackClearsPenultimate(r1);
    if |r1| > 0 {
      TrimBackKeepsLast(r1);
    }
    if |r1| > 1 {
      TrimBackKeepsSecond(r1);
    } else {
      TrimmedStopsAt(r1, -2);
    }
  }

  // ---------------------------------------------------------------------------
  // sql_strip

  /** `sql_strip`'s loop from position `i` on, given whether the token before it was
      white space: a white-space token becomes `""` right after white space and `" "`
      otherwise; every other token is left as it is. */
  function CollapsedFrom(ts: seq<Token>, i: nat, inWhitespace: bool): (r: seq<Token>)
    requires i <= |ts|
    ensures |r| == |ts| - i
    decreases |ts| - i
  {
    if i == |ts| then []
    else
      var t := if IsWhitespace(ts[i]) then SetValue(ts[i], if inWhitespace then "" else " ") else ts[i];
      [t] + CollapsedFrom(ts, i + 1, IsWhitespace(ts[i]))
  }

  /** `sql_strip`'s specification. */
  function Collapsed(ts: seq<Token>): (r: seq<Token>)
    ensures |r| == |ts|
  {
    CollapsedFrom(ts, 0, false)
  }

  lemma {:induction false} CollapsedFromAt(ts: seq<Token>, i: nat, inWhitespace: bool, k: nat)
    requires i <= k < |ts|
    ensures CollapsedFrom(ts, i, inWhitespace)[k - i]
      == if IsWhitespace(ts[k]) then
           SetValue(ts[k], if (if k == i then inWhitespace else IsWhitespace(ts[k - 1])) then "" else " ")
         else ts[k]
    decreases k - i
  {
    if k > i {
      CollapsedFromAt(ts, i + 1, IsWhitespace(ts[i]), k);
      assert CollapsedFrom(ts, i, inWhitespace)[k - i]
        == CollapsedFrom(ts, i + 1, IsWhitespace(ts[i]))[k - (i + 1)];
    }
  }

  /** `sql_strip`, token by token: a white-space token becomes `" "` when it starts a run
      of white space and `""` when it continues one; every other token is left as it
      is. */
  lemma CollapsedAt(ts: seq<Token>, k: nat)
    requires k < |ts|
    ensures Collapsed(ts)[k]
      == if IsWhitespace(ts[k]) then SetValue(ts[k], if k > 0 && IsWhitespace(ts[k - 1]) then "" else " ")
         else ts[k]
  {
    CollapsedFromAt(ts, 0, false, k);
  }

  /** `sql_strip(node)` on the node's tokens, tracking whether the previous token was
      white space. */
  method Strip(tokens: seq<Token>) returns (r: seq<Token>)
    ensures r == Collapsed(tokens)
  {
    var inWhitespace := false;
    r := [];
    for i := 0 to |tokens|
      invariant Collapsed(tokens) == r + CollapsedFrom(tokens, i, inWhitespace)
    {
      var token := tokens[i];
      if IsWhitespace(token) {
        token := SetValue(token, if inWhitespace then "" else " ");
        inWhitespace := true;
      } else {
        inWhitespace := false;
      }
      AppendStep(r, token, CollapsedFrom(tokens, i + 1, inWhitespace));
      r := r + [token];
    }
    assert r + [] == r;
  }

  lemma AppendStep(done: seq<Token>, t: Token, rest: seq<Token>)
    ensures done + ([t] + rest) == (done + [t]) + rest
  {
  }

  lemma {:induction false} RenderAllEmptyLeaves(ts: seq<Token>)
    requires forall i :: 0 <= i < |ts| ==> ts[i].Leaf? && ts[i].value == ""
    ensures RenderAll(ts) == ""
  {
    if ts != [] {
      RenderAllEmptyLeaves(ts[1..]);
    }
  }

  /** After `sql_strip`, every maximal run of white-space tokens renders as exactly one
      space. */
  lemma CollapsedRunIsOneSpace(ts: seq<Token>, i: nat, j: nat)
    requires i < j <= |ts|
    requires forall p :: i <= p < j ==> IsWhitespace(ts[p])
    requires i == 0 || !IsWhitespace(ts[i - 1])
    ensures RenderAll(Collapsed(ts)[i..j]) == " "
  {
    var c := Collapsed(ts)[i..j];
    var rest := c[1..];
    forall p | 0 <= p < |rest| ensures rest[p].Leaf? && rest[p].value == "" {
      CollapsedAt(ts, i + 1 + p);
      assert rest[p] == Collapsed(ts)[i + 1 + p];
    }
    CollapsedAt(ts, i);
    assert c[0] == SetValue(ts[i], " ");
    assert c == [c[0]] + rest;
    RenderAllAppend([c[0]], rest);
    RenderAllEmptyLeaves(rest);
  }

  // ---------------------------------------------------------------------------
  // sql_recursively_strip

  /** `sql_recursively_strip`'s specification: sub-groups are stripped first; a comment
      keeps its own tokens; every other group has its white space collapsed, and a
      parenthesis also loses the padding inside its brackets. */
  function StripTree(t: Token): (r: Token)
    ensures r.Leaf? == t.Leaf?
    ensures t.Leaf? ==> r == t
    ensures t.Group? ==> r.kind == t.kind && r.text == t.text
    decreases Height(t), 0, 0
  {
    match t
    case Leaf(_, _) => t
    case Group(kind, text, ts) =>
      var children := StripChildrenFrom(ts, 0);
      if kind == Comment then Group(kind, text, children)
      else if kind == Parenthesis then Group(kind, text, Trimmed(Trimmed(Collapsed(children), 1), -2))
      else Group(kind, text, Collapsed(children))
  }

  /** Every child from position `i` on stripped in place; leaves are left alone. */
  function StripChildrenFrom(ts: seq<Token>, i: nat): (r: seq<Token>)
    requires i <= |ts|
    ensures |r| == |ts| - i
    decreases MaxHeight(ts), 1, |ts| - i
  {
    if i == |ts| then []
    else [StripTree(ts[i])] + StripChildrenFrom(ts, i + 1)
  }

  /** Each child is stripped on its own. */
  lemma {:induction false} StripChildrenAt(ts: seq<Token>, i: nat)
    requires i <= |ts|
    ensures forall k :: i <= k < |ts| ==> StripChildrenFrom(ts, i)[k - i] == StripTree(ts[k])
    decreases |ts| - i
  {
    if i < |ts| {
      StripChildrenAt(ts, i + 1);
    }
  }

  /** `sql_recursively_strip(node)` for a group: recurse into the sub-groups, then strip
      and, for a parenthesis, trim. */
  method RecursivelyStrip(node: Token) returns (r: Token)
    requires node.Group?
    ensures r == StripTree(node)
    decreases node
  {
    var children := node.tokens;
    for i := 0 to |children|
      invariant |children| == |node.tokens|
      invariant forall k :: 0 <= k < i ==> children[k] == StripTree(node.tokens[k])
      invariant forall k :: i <= k < |children| ==> children[k] == node.tokens[k]
    {
      var sub := node.tokens[i];
      if sub.Group? {
        sub := RecursivelyStrip(sub);
        children := children[i := sub];
      }
    }
    StripChildrenAt(node.tokens, 0);
    assert children == StripChildrenFrom(node.tokens, 0);
    if node.kind == Comment {
      return Group(node.kind, node.text, children);
    }
    children := Strip(children);
    if node.kind == Parenthesis {
      children := Trim(children, 1);
      children := Trim(children, -2);
    }
    r := Group(node.kind, node.text, children);
  }

  /** A comment's own leaves keep their text: its white space is not collapsed. */
  lemma StripKeepsCommentLeaves(t: Token)
    requires t.Group? && t.kind == Comment
    ensures |StripTree(t).tokens| == |t.tokens|
    ensures forall i :: 0 <= i < |t.tokens| && t.tokens[i].Leaf? ==> StripTree(t).tokens[i] == t.tokens[i]
  {
    var children := StripChildrenFrom(t.tokens, 0);
    assert StripTree(t).tokens == children;
    StripChildrenAt(t.tokens, 0);
    forall i | 0 <= i < |t.tokens| && t.tokens[i].Leaf? ensures children[i] == t.tokens[i] {
      assert children[i - 0] == StripTree(t.tokens[i]);
    }
  }

  /** In any other group, each maximal run of white-space children renders as exactly one
      space. */
  lemma StripCollapsesWhitespaceRuns(t: Token, i: nat, j: nat)
    requires t.Group? && t.kind != Comment && t.kind != Parenthesis
    requires i < j <= |t.tokens|
    requires forall p :: i <= p < j ==> IsWhitespace(t.tokens[p])
    requires i == 0 || !IsWhitespace(t.tokens[i - 1])
    ensures RenderAll(StripTree(t).tokens[i..j]) == " "
  {
    var children := StripChildrenFrom(t.tokens, 0);
    StripChildrenAt(t.tokens, 0);
    forall p | 0 <= p < |children| ensures IsWhitespace(children[p]) == IsWhitespace(t.tokens[p]) {
    }
    CollapsedRunIsOneSpace(children, i, j);
  }

  /** In a parenthesis, no white space is left right after the opening token or right
      before the closing one. */
  lemma StripTrimsParenthesis(t: Token)
    requires t.Group? && t.kind == Parenthesis
    ensures var r := StripTree(t).tokens;
      (|r| > 1 ==> !IsWhitespace(r[1])) && (|r| > 2 ==> !IsWhitespace(r[|r| - 2]))
  {
    var c := Collapsed(StripChildrenFrom(t.tokens, 0));
    assert StripTree(t).tokens == Trimmed(Trimmed(c, 1), -2);
    ParenthesisPaddingRemoved(c);
  }

  /** In a parenthesis, a first and a last child that are leaves other than white space
      (the brackets) stay first and last. */
  lemma StripKeepsBrackets(t: Token)
    requires t.Group? && t.kind == Parenthesis
    ensures var r := StripTree(t).tokens;
      (|t.tokens| > 0 && t.tokens[0].Leaf? && !IsWhitespace(t.tokens[0]) ==> |r| > 0 && r[0] == t.tokens[0])
      && (|t.tokens| > 0 && t.tokens[|t.tokens| - 1].Leaf? && !IsWhitespace(t.tokens[|t.tokens| - 1])
          ==> |r| > 0 && r[|r| - 1] == t.tokens[|t.tokens| - 1])
  {
    var c := Collapsed(StripChildrenFrom(t.tokens, 0));
    assert StripTree(t).tokens == Trimmed(Trimmed(c, 1), -2);
    if |t.tokens| > 0 {
      StrippedEnds(t.tokens);
      ParenthesisPaddingRemoved(c);
    }
  }

  /** Stripping the children and collapsing their white space leaves a first and a last
      child that are leaves other than white space as they were. */
  lemma StrippedEnds(ts: seq<Token>)
    requires |ts| > 0
    ensures |Collapsed(StripChildrenFrom(ts, 0))| == |ts|
    ensures ts[0].Leaf? && !IsWhitespace(ts[0]) ==> Collapsed(StripChildrenFrom(ts, 0))[0] == ts[0]
    ensures ts[|ts| - 1].Leaf? && !IsWhitespace(ts[|ts| - 1]) ==>
      Collapsed(StripChildrenFrom(ts, 0))[|ts| - 1] == ts[|ts| - 1]
  {
    var children := StripChildrenFrom(ts, 0);
    var n := |children|;
    StripChildrenAt(ts, 0);
    assert children[0] == StripTree(ts[0]);
    assert children[n - 1] == StripTree(ts[n - 1]);
    CollapsedAt(children, 0);
    CollapsedAt(children, n - 1);
  }

  // ---------------------------------------------------------------------------
  // sql_recursively_simplify

  /** The UPDATE rule: the tokens through the first `SET`, then one `" ... "` token, then
      the tokens from the first `WHERE` group on (none when there is no such group). The
      `SET` lookup indexes `[0]` of a possibly empty list, and the `WHERE` lookup reads
      `t.tokens[0]` of every group, so a missing `SET` or an empty group raises
      IndexError. */
  function UpdateRewrite(ts: seq<Token>): (r: Outcome<seq<Token>>)
    ensures r.Raised? <==> FirstWithValue(ts, "SET", 0).None? || exists k :: 0 <= k < |ts| && IsEmptyGroup(ts[k])
    ensures r.Raised? ==> r.error == IndexError
    ensures r.Ok? ==> var s := FirstWithValue(ts, "SET", 0).value;
      |r.value| >= s + 2
      && r.value[..s + 1] == ts[..s + 1]
      && r.value[s + 1] == Leaf(Punctuation, " ... ")
      && r.value[s + 2..] == (if FirstWhereGroup(ts, 0).Some? then ts[FirstWhereGroup(ts, 0).value..] else [])
    ensures r.Ok? ==> MaxHeight(r.value) <= MaxHeight(ts)
  {
    var iSet := FirstWithValue(ts, "SET", 0);
    if iSet.None? || HasEmptyGroup(ts, 0) then Raised(IndexError)
    else
      var where := FirstWhereGroup(ts, 0);
      var end := if where.Some? then ts[where.value..] else [];
      var rewritten := ts[..iSet.value + 1] + [Leaf(Punctuation, " ... ")] + end;
      MaxHeightOfPieces(rewritten, ts);
      Ok(rewritten)
  }

  /** The first parenthesis group at or after position `from`: the `next(...)` over
      `node.tokens[in_token_index + 1:]`. */
  function NextParenthesis(ts: seq<Token>, from: nat): (r: Option<nat>)
    ensures r.Some? ==> (from <= r.value < |ts| && IsParenthesis(ts[r.value])
      && forall k :: from <= k < r.value ==> !IsParenthesis(ts[k]))
    ensures r.None? ==> forall k :: from <= k < |ts| ==> !IsParenthesis(ts[k])
    decreases |ts| - from
  {
    if from >= |ts| then None
    else if IsParenthesis(ts[from]) then Some(from)
    else NextParenthesis(ts, from + 1)
  }

  /** `tokens[1:-1]`. */
  function Interior(ts: seq<Token>): seq<Token>
  {
    if |ts| >= 2 then ts[1..|ts| - 1] else []
  }

  /** `tokens[1:-1] = [x]`, with Python's slice-assignment rules: the brackets of a list
      of two or more tokens stay around `x`; a one-token list gets `x` appended; an empty
      list becomes `[x]`. */
  function ReplaceInterior(ts: seq<Token>, x: Token): (r: seq<Token>)
    ensures |ts| >= 2 ==> r == [ts[0], x, ts[|ts| - 1]]
    ensures |ts| < 2 ==> r == ts + [x]
  {
    if |ts| == 0 then [x] else if |ts| == 1 then ts + [x] else [ts[0], x, ts[|ts| - 1]]
  }

  /** Every token has a deletable token type (so none is a group). */
  function AllDeletable(ts: seq<Token>, from: nat): (b: bool)
    ensures b <==> forall i :: from <= i < |ts| ==> IsDeletable(ts[i])
    decreases |ts| - from
  {
    from >= |ts| || (IsDeletable(ts[from]) && AllDeletable(ts, from + 1))
  }

  /** The parenthesis `p` after the IN rule looked at it. */
  function CollapseInList(p: Token): (r: Token)
    requires IsParenthesis(p)
    ensures IsParenthesis(r) && r.text == p.text
    ensures Height(r) <= Height(p)
  {
    if AllDeletable(Interior(p.tokens), 0) then
      var inner := ReplaceInterior(p.tokens, Leaf(Punctuation, "..."));
      MaxHeightOfPieces(inner, p.tokens);
      Group(Parenthesis, p.text, inner)
    else p
  }

  /** The IN rule applied to the `IN` tokens at position `i` and after. */
  function SimplifyInFrom(ts: seq<Token>, i: nat): (r: Outcome<seq<Token>>)
    ensures r.Raised? ==> r.error == StopIteration
    ensures r.Ok? ==> |r.value| == |ts|
    ensures r.Ok? ==> forall k :: 0 <= k < |ts| && !IsParenthesis(ts[k]) ==> r.value[k] == ts[k]
    ensures r.Ok? ==> forall k :: 0 <= k < |ts| && IsParenthesis(ts[k]) ==>
      IsParenthesis(r.value[k]) && r.value[k].text == ts[k].text && Height(r.value[k]) <= Height(ts[k])
    decreases |ts| - i
  {
    if i >= |ts| then Ok(ts)
    else if Value(ts[i]) != "IN" then SimplifyInFrom(ts, i + 1)
    else
      var j := NextParenthesis(ts, i + 1);
      if j.None? then Raised(StopIteration)
      else SimplifyInFrom(ts[j.value := CollapseInList(ts[j.value])], i + 1)
  }

  /** The IN rule as the loop over the `IN` positions. */
  method SimplifyIn(tokens: seq<Token>) returns (r: Outcome<seq<Token>>)
    ensures r == SimplifyInFrom(tokens, 0)
  {
    var ts := tokens;
    for i := 0 to |tokens|
      invariant |ts| == |tokens|
      invariant SimplifyInFrom(ts, i) == SimplifyInFrom(tokens, 0)
    {
      if Value(ts[i]) == "IN" {
        var j := NextParenthesis(ts, i + 1);
        if j.None? {
          return Raised(StopIteration);
        }
        var parenthesis := ts[j.value];
        ghost var next := ts[j.value := CollapseInList(parenthesis)];
        if AllDeletable(Interior(parenthesis.tokens), 0) {
          ts := ts[j.value := Group(Parenthesis, parenthesis.text,
            ReplaceInterior(parenthesis.tokens, Leaf(Punctuation, "...")))];
        }
        assert ts == next;
      }
    }
    return Ok(ts);
  }

  /** Whether the parenthesis at `k` is the one found for some `IN` token at position `i`
      or later. */
  function TargetedFrom(ts: seq<Token>, i: nat, k: nat): (b: bool)
    ensures b ==> i < k < |ts| && IsParenthesis(ts[k])
    decreases k - i
  {
    i < k && i < |ts| && ((Value(ts[i]) == "IN" && NextParenthesis(ts, i + 1) == Some(k)) || TargetedFrom(ts, i + 1, k))
  }

  /** A parenthesis of two or more tokens is collapsed at most once: after `...` has
      replaced its interior, the interior is no longer all literals. */
  lemma CollapseInListIdempotent(p: Token)
    requires IsParenthesis(p) && |p.tokens| >= 2
    ensures |CollapseInList(p).tokens| >= 2
    ensures CollapseInList(CollapseInList(p)) == CollapseInList(p)
  {
    var c := CollapseInList(p);
    if AllDeletable(Interior(p.tokens), 0) {
      assert Interior(c.tokens) == [Leaf(Punctuation, "...")];
      assert !IsDeletable(Interior(c.tokens)[0]);
    }
  }

  /** Lists that agree on which tokens are parentheses find the same next parenthesis. */
  lemma {:induction false} NextParenthesisAgrees(ts: seq<Token>, us: seq<Token>, from: nat)
    requires |ts| == |us|
    requires forall k :: 0 <= k < |ts| ==> IsParenthesis(ts[k]) == IsParenthesis(us[k])
    ensures NextParenthesis(ts, from) == NextParenthesis(us, from)
    decreases |ts| - from
  {
    if from < |ts| {
      NextParenthesisAgrees(ts, us, from + 1);
    }
  }

  /** Lists that agree on values and on parentheses target the same parentheses. */
  lemma {:induction false} TargetedAgrees(ts: seq<Token>, us: seq<Token>, i: nat, k: nat)
    requires |ts| == |us|
    requires forall q :: 0 <= q < |ts| ==> IsParenthesis(ts[q]) == IsParenthesis(us[q]) && Value(ts[q]) == Value(us[q])
    ensures TargetedFrom(ts, i, k) == TargetedFrom(us, i, k)
    decreases k - i
  {
    if i < k {
      if i < |ts| {
        NextParenthesisAgrees(ts, us, i + 1);
      }
      TargetedAgrees(ts, us, i + 1, k);
    }
  }

  /** The token at `q` is an `IN` with no parenthesis after it, where `next(...)` raises
      StopIteration. */
  predicate UnmatchedIn(ts: seq<Token>, q: nat)
  {
    q < |ts| && Value(ts[q]) == "IN" && NextParenthesis(ts, q + 1).None?
  }

  /** Lists that agree on values and on parentheses have the same `IN` tokens without a
      parenthesis after them. */
  lemma UnmatchedInAgrees(ts: seq<Token>, us: seq<Token>, from: nat)
    requires |ts| == |us|
    requires forall q :: 0 <= q < |ts| ==> IsParenthesis(ts[q]) == IsParenthesis(us[q]) && Value(ts[q]) == Value(us[q])
    ensures (exists q :: from <= q < |ts| && UnmatchedIn(ts, q)) <==> (exists q :: from <= q < |us| && UnmatchedIn(us, q))
  {
    forall q | from <= q < |ts| ensures UnmatchedIn(ts, q) == UnmatchedIn(us, q) {
      NextParenthesisAgrees(ts, us, q + 1);
    }
  }

  /** The IN rule raises StopIteration exactly when some `IN` at position `i` or later has
      no parenthesis after it. */
  lemma {:induction false} InRuleRaisesFrom(ts: seq<Token>, i: nat)
    ensures SimplifyInFrom(ts, i).Raised? <==>
      exists q :: i <= q < |ts| && UnmatchedIn(ts, q)
    decreases |ts| - i
  {
    if i < |ts| {
      if Value(ts[i]) != "IN" {
        assert !UnmatchedIn(ts, i);
        InRuleRaisesFrom(ts, i + 1);
      } else {
        var j := NextParenthesis(ts, i + 1);
        if j.Some? {
          assert !UnmatchedIn(ts, i);
          var us := ts[j.value := CollapseInList(ts[j.value])];
          InRuleRaisesFrom(us, i + 1);
          UnmatchedInAgrees(ts, us, i + 1);
        } else {
          assert UnmatchedIn(ts, i);
        }
      }
    }
  }

  /** When the IN rule succeeds, each parenthesis found after an `IN` at position `i` or
      later has an interior made only of literals replaced by `...`, and every other token
      is left as it is. */
  lemma {:induction false} InRuleKeepsFrom(ts: seq<Token>, i: nat)
    ensures SimplifyInFrom(ts, i).Ok? ==> forall k :: 0 <= k < |ts| ==>
      (!TargetedFrom(ts, i, k) ==> SimplifyInFrom(ts, i).value[k] == ts[k])
      && (TargetedFrom(ts, i, k) && |ts[k].tokens| >= 2 ==> SimplifyInFrom(ts, i).value[k] == CollapseInList(ts[k]))
    decreases |ts| - i
  {
    if i < |ts| {
      if Value(ts[i]) != "IN" {
        InRuleKeepsFrom(ts, i + 1);
        forall k | 0 <= k < |ts| ensures TargetedFrom(ts, i, k) == TargetedFrom(ts, i + 1, k) {
        }
      } else {
        var j := NextParenthesis(ts, i + 1);
        if j.Some? {
          var us := ts[j.value := CollapseInList(ts[j.value])];
          InRuleKeepsFrom(us, i + 1);
          forall k | 0 <= k < |ts|
            ensures TargetedFrom(us, i + 1, k) == TargetedFrom(ts, i + 1, k)
            ensures TargetedFrom(ts, i, k) == (TargetedFrom(ts, i + 1, k) || k == j.value)
          {
            TargetedAgrees(ts, us, i + 1, k);
          }
          var r := SimplifyInFrom(us, i + 1);
          if r.Ok? && TargetedFrom(ts, i + 1, j.value) && |ts[j.value].tokens| >= 2 {
            CollapseInListIdempotent(ts[j.value]);
          }
        }
      }
    }
  }

  /** The IN rule over a whole node. */
  lemma InRule(ts: seq<Token>)
    ensures SimplifyInFrom(ts, 0).Raised? <==>
      exists q :: 0 <= q < |ts| && UnmatchedIn(ts, q)
    ensures SimplifyInFrom(ts, 0).Ok? ==> forall k :: 0 <= k < |ts| ==>
      (!TargetedFrom(ts, 0, k) ==> SimplifyInFrom(ts, 0).value[k] == ts[k])
      && (TargetedFrom(ts, 0, k) && |ts[k].tokens| >= 2 ==> SimplifyInFrom(ts, 0).value[k] == CollapseInList(ts[k]))
  {
    InRuleRaisesFrom(ts, 0);
    InRuleKeepsFrom(ts, 0);
  }

  /** The savepoint rules: `Some` of the rewritten tokens (or the error raised) when the
      node is a SAVEPOINT, RELEASE SAVEPOINT or ROLLBACK TO SAVEPOINT statement, whose
      simplification stops there; `None` otherwise. */
  function Savepoint(ts: seq<Token>): (r: Option<Outcome<seq<Token>>>)
    requires |ts| > 0
    ensures OpensSavepoint(ts) ==> r == Some(RedactNameAt(ts, 2))
    ensures !OpensSavepoint(ts) && ReleasesSavepoint(ts) ==> r == Some(RedactNameAt(ts, 4))
    ensures !OpensSavepoint(ts) && !ReleasesSavepoint(ts) && OpensRollbackToSavepoint(ts)
      ==> r == Some(RedactNameAt(ts, 6))
    ensures r.None? <==> !OpensSavepoint(ts) && !ReleasesSavepoint(ts) && !OpensRollbackToSavepoint(ts)
    ensures r.Some? && r.value.Ok? ==> MaxHeight(r.value.value) <= MaxHeight(ts)
  {
    if OpensSavepoint(ts) then Some(RedactNameAt(ts, 2))
    else if ReleasesSavepoint(ts) then Some(RedactNameAt(ts, 4))
    else if OpensRollbackToSavepoint(ts) then Some(RedactNameAt(ts, 6))
    else None
  }

  /** The Postgres cursor rule: a first token whose `.value` starts with `"_django_curs_`
      gets the `.value` `"_django_curs_#"`. */
  function CursorRenamed(ts: seq<Token>): (r: seq<Token>)
    requires |ts| > 0
    ensures |r| == |ts| && r[1..] == ts[1..]
    ensures StartsWith(Value(ts[0]), "\"_django_curs_") ==> Value(r[0]) == "\"_django_curs_#\""
    ensures !StartsWith(Value(ts[0]), "\"_django_curs_") ==> r == ts
    ensures MaxHeight(r) <= MaxHeight(ts)
  {
    if StartsWith(Value(ts[0]), "\"_django_curs_") then
      var renamed := SetValue(ts[0], "\"_django_curs_#\"");
      MaxHeightUpdate(ts, 0, renamed);
      ts[0 := renamed]
    else ts
  }

  /** Whether the previous non-white-space sibling opens a clause whose columns are kept:
      a keyword reading ORDER BY, GROUP BY or HAVING once upper-cased as Python does. */
  predicate KeepsColumns(prev: Option<Token>)
  {
    prev.Some? && IsKeyword(prev.value) && Upper(Value(prev.value)) in ColumnClauses
  }

  /** The clauses whose column lists are kept. */
  const ColumnClauses: seq<string> := ["ORDER BY", "GROUP BY", "HAVING"]

  /** One child in the simplify loop: a hidden column list becomes `...`; a group is
      simplified recursively; a deletable literal or a `NULL` leaf becomes `#`. */
  function SimplifyChild(t: Token, hideColumns: bool, prev: Option<Token>): (r: Outcome<Token>)
    ensures r.Ok? ==> r.value.Leaf? == t.Leaf? && IsWhitespace(r.value) == IsWhitespace(t)
    ensures r.Ok? && t.Leaf? ==> r.value.ttype == t.ttype
    ensures r.Raised? ==> t.Group?
    ensures hideColumns && t.Group? && t.kind == IdentifierList && !KeepsColumns(prev) ==>
      r == Ok(Group(IdentifierList, t.text, [Ellipsis()]))
    ensures IsDeletable(t) ==> r == Ok(Leaf(t.ttype, "#"))
    ensures t.Leaf? && t.value == "NULL" ==> r == Ok(Leaf(t.ttype, "#"))
    ensures t.Leaf? && !IsDeletable(t) && t.value != "NULL" ==> r == Ok(t)
    decreases Height(t), 2, 0
  {
    if hideColumns && t.Group? && t.kind == IdentifierList && !KeepsColumns(prev) then
      Ok(Group(IdentifierList, t.text, [Ellipsis()]))
    else if t.Group? then
      SimplifyNode(t, hideColumns)
    else if IsDeletableType(t.ttype) then Ok(Leaf(t.ttype, "#"))
    else if t.value == "NULL" then Ok(Leaf(t.ttype, "#"))
    else Ok(t)
  }

  /** The simplify loop over a node's children from position `i` on, left to right,
      carrying the last non-white-space child as `prev_word_token`; the first error
      stops it. */
  function SimplifyChildren(ts: seq<Token>, i: nat, hideColumns: bool, prev: Option<Token>): (r: Outcome<seq<Token>>)
    requires i <= |ts|
    ensures r.Ok? ==> |r.value| == |ts| - i
    decreases MaxHeight(ts), 3, |ts| - i
  {
    if i == |ts| then Ok([])
    else
      var first := SimplifyChild(ts[i], hideColumns, prev);
      if first.Raised? then Raised(first.error)
      else
        var t := first.value;
        var prev' := if IsWhitespace(t) then prev else Some(t);
        var rest := SimplifyChildren(ts, i + 1, hideColumns, prev');
        if rest.Raised? then Raised(rest.error) else Ok([t] + rest.value)
  }

  /** `sql_recursively_simplify(node)`'s specification for a group: the UPDATE rule, the
      IN rule for a node starting with WHERE, then either a savepoint redaction (which
      ends the simplification) or the cursor rule followed by the loop over the
      children. The node keeps its class and its stored `.value`. */
  function SimplifyNode(node: Token, hideColumns: bool): (r: Outcome<Token>)
    requires node.Group?
    ensures r.Ok? ==> r.value.Group? && r.value.kind == node.kind && r.value.text == node.text
    ensures node.tokens == [] ==> r == Raised(IndexError)
    ensures node.tokens != [] && Value(node.tokens[0]) == "UPDATE" && FirstWithValue(node.tokens, "SET", 0).None?
      ==> r == Raised(IndexError)
    decreases Height(node), 1, 0
  {
    var ts := node.tokens;
    if ts == [] then Raised(IndexError)
    else
      var updated := if Value(ts[0]) == "UPDATE" then UpdateRewrite(ts) else Ok(ts);
      if updated.Raised? then Raised(updated.error)
      else
        var ts1 := updated.value;
        var inRule := if Value(ts1[0]) == "WHERE" then SimplifyInFrom(ts1, 0) else Ok(ts1);
        if inRule.Raised? then Raised(inRule.error)
        else
          var ts2 := inRule.value;
          MaxHeightBound(ts2, MaxHeight(ts1));
          var savepoint := Savepoint(ts2);
          if savepoint.Some? then
            if savepoint.value.Raised? then Raised(savepoint.value.error)
            else Ok(Group(node.kind, node.text, savepoint.value.value))
          else
            var ts3 := CursorRenamed(ts2);
            var children := SimplifyChildren(ts3, 0, hideColumns, None);
            if children.Raised? then Raised(children.error)
            else Ok(Group(node.kind, node.text, children.value))
  }

  /** `sql_recursively_simplify(node, hide_columns)` for a group: returns the rewritten
      node, or the exception the rewrite raised. */
  method RecursivelySimplify(node: Token, hideColumns: bool) returns (r: Outcome<Token>)
    requires node.Group?
    ensures r == SimplifyNode(node, hideColumns)
    decreases Height(node), 1, 0
  {
    var tokens := node.tokens;
    if |tokens| == 0 {
      return Raised(IndexError);
    }
    if Value(tokens[0]) == "UPDATE" {
      var rewritten := UpdateRewrite(tokens);
      if rewritten.Raised? {
        return Raised(rewritten.error);
      }
      tokens := rewritten.value;
    }
    assert MaxHeight(tokens) < Height(node);
    if Value(tokens[0]) == "WHERE" {
      var simplified := SimplifyIn(tokens);
      if simplified.Raised? {
        return Raised(simplified.error);
      }
      MaxHeightBound(simplified.value, MaxHeight(tokens));
      tokens := simplified.value;
    }
    var savepoint := Savepoint(tokens);
    if savepoint.Some? {
      if savepoint.value.Raised? {
        return Raised(savepoint.value.error);
      }
      return Ok(Group(node.kind, node.text, savepoint.value.value));
    }
    tokens := CursorRenamed(tokens);
    var children := SimplifyEach(tokens, hideColumns);
    if children.Raised? {
      return Raised(children.error);
    }
    return Ok(Group(node.kind, node.text, children.value));
  }

  /** The loop of `sql_recursively_simplify` over a node's children, with
      `prev_word_token`. */
  method SimplifyEach(tokens: seq<Token>, hideColumns: bool) returns (r: Outcome<seq<Token>>)
    ensures r == SimplifyChildren(tokens, 0, hideColumns, None)
    decreases MaxHeight(tokens), 3, |tokens|
  {
    ghost var spec := SimplifyChildren(tokens, 0, hideColumns, None);
    var prevWordToken: Option<Token> := None;
    var result: seq<Token> := [];
    assert spec.Ok? ==> [] + spec.value == spec.value;
    for i := 0 to |tokens|
      invariant spec == Prepend(result, SimplifyChildren(tokens, i, hideColumns, prevWordToken))
    {
      var token := tokens[i];
      var simplified := SimplifyToken(token, hideColumns, prevWordToken);
      if simplified.Raised? {
        return Raised(simplified.error);
      }
      ghost var before := prevWordToken;
      if !IsWhitespace(simplified.value) {
        prevWordToken := Some(simplified.value);
      }
      PrependStep(result, simplified.value, SimplifyChildren(tokens, i + 1, hideColumns, prevWordToken));
      result := result + [simplified.value];
    }
    assert result + [] == result;
    return Ok(result);
  }

  /** One pass of the loop body of `sql_recursively_simplify` for one child. */
  method SimplifyToken(token: Token, hideColumns: bool, prevWordToken: Option<Token>) returns (r: Outcome<Token>)
    ensures r == SimplifyChild(token, hideColumns, prevWordToken)
    decreases Height(token), 2, 0
  {
    if hideColumns && token.Group? && token.kind == IdentifierList && !KeepsColumns(prevWordToken) {
      r := Ok(Group(IdentifierList, token.text, [Ellipsis()]));
    } else if token.Group? {
      r := RecursivelySimplify(token, hideColumns);
    } else if IsDeletableType(token.ttype) {
      r := Ok(Leaf(token.ttype, "#"));
    } else if token.value == "NULL" {
      r := Ok(Leaf(token.ttype, "#"));
    } else {
      r := Ok(token);
    }
  }

  // ---------------------------------------------------------------------------
  // What sql_recursively_simplify guarantees

  /** No literal survives: every number or plain string leaf reads `#`, and no leaf reads
      `NULL`, except inside a savepoint statement, which the rules leave as it is. */
  predicate Erased(t: Token)
    decreases t
  {
    match t
    case Leaf(tt, v) => (IsDeletableType(tt) ==> v == "#") && v != "NULL"
    case Group(_, _, ts) =>
      (|ts| > 0 && Savepoint(ts).Some?) || forall k :: 0 <= k < |ts| ==> Erased(ts[k])
  }

  /** A savepoint redaction leaves a statement that is still recognised as one. */
  lemma SavepointStable(ts: seq<Token>)
    requires |ts| > 0 && Savepoint(ts).Some? && Savepoint(ts).value.Ok?
    ensures |Savepoint(ts).value.value| > 0 && Savepoint(Savepoint(ts).value.value).Some?
  {
    var ts' := Savepoint(ts).value.value;
    if Render(ts[0]) != "SAVEPOINT" && !(|ts| >= 3 && Value(ts[2]) == "SAVEPOINT") {
      forall k | 0 <= k < 6 ensures Values(ts', 0)[k] == Values(ts, 0)[k] {
        assert ts'[k] == ts[k];
        assert Values(ts', 0)[k - 0] == Value(ts'[k]);
        assert Values(ts, 0)[k - 0] == Value(ts[k]);
      }
      assert Values(ts', 0)[..6] == Values(ts, 0)[..6];
    }
  }

  /** A SAVEPOINT, RELEASE SAVEPOINT or ROLLBACK TO SAVEPOINT statement whose name sits at
      position `k` simplifies to the same statement with the first token of the name
      reading `` `#` ``; nothing else changes, and its literals are left as they are. */
  lemma SavepointNameRedacted(node: Token, hideColumns: bool, k: nat)
    requires node.Group? && |node.tokens| > 0
    requires Value(node.tokens[0]) != "UPDATE" && Value(node.tokens[0]) != "WHERE"
    requires var ts := node.tokens;
      || (k == 2 && OpensSavepoint(ts))
      || (k == 4 && !OpensSavepoint(ts) && ReleasesSavepoint(ts))
      || (k == 6 && !OpensSavepoint(ts) && !ReleasesSavepoint(ts) && OpensRollbackToSavepoint(ts))
    requires k < |node.tokens| && node.tokens[k].Group? && node.tokens[k].tokens != []
    ensures SimplifyNode(node, hideColumns).Ok?
    ensures var ts := node.tokens; var out := SimplifyNode(node, hideColumns).value;
      |out.tokens| == |ts|
      && (forall i :: 0 <= i < |ts| && i != k ==> out.tokens[i] == ts[i])
      && out.tokens[k].Group? && out.tokens[k].kind == ts[k].kind && out.tokens[k].text == ts[k].text
      && |out.tokens[k].tokens| == |ts[k].tokens|
      && Value(out.tokens[k].tokens[0]) == "`#`"
      && out.tokens[k].tokens[1..] == ts[k].tokens[1..]
  {
    var ts := node.tokens;
    assert Savepoint(ts) == Some(RedactNameAt(ts, k));
    var named := RedactNameAt(ts, k).value;
    assert SimplifyNode(node, hideColumns) == Ok(Group(node.kind, node.text, named));
    assert named[k].tokens[1..] == ts[k].tokens[1..];
  }

  /** A group whose children are all erased is erased. */
  lemma ErasedChildren(kind: GroupKind, text: string, ts: seq<Token>)
    requires forall k :: 0 <= k < |ts| ==> Erased(ts[k])
    ensures Erased(Group(kind, text, ts))
  {
  }

  /** A redacted savepoint statement is erased, whatever its children hold. */
  lemma RedactedSavepointErased(kind: GroupKind, text: string, ts: seq<Token>)
    requires |ts| > 0 && Savepoint(ts).Some? && Savepoint(ts).value.Ok?
    requires |Savepoint(ts).value.value| > 0 && Savepoint(Savepoint(ts).value.value).Some?
    ensures Erased(Group(kind, text, Savepoint(ts).value.value))
  {
  }

  lemma {:induction false} SimplifyNodeErases(node: Token, hideColumns: bool)
    requires node.Group?
    ensures SimplifyNode(node, hideColumns).Ok? ==> Erased(SimplifyNode(node, hideColumns).value)
    decreases Height(node), 1, 0
  {
    var ts := node.tokens;
    if ts != [] {
      var updated := if Value(ts[0]) == "UPDATE" then UpdateRewrite(ts) else Ok(ts);
      if updated.Ok? {
        var ts1 := updated.value;
        var inRule := if Value(ts1[0]) == "WHERE" then SimplifyInFrom(ts1, 0) else Ok(ts1);
        if inRule.Ok? {
          var ts2 := inRule.value;
          MaxHeightBound(ts2, MaxHeight(ts1));
          var savepoint := Savepoint(ts2);
          if savepoint.Some? {
            if savepoint.value.Ok? {
              SavepointStable(ts2);
              RedactedSavepointErased(node.kind, node.text, ts2);
              assert SimplifyNode(node, hideColumns) == Ok(Group(node.kind, node.text, savepoint.value.value));
            }
          } else {
            var ts3 := CursorRenamed(ts2);
            SimplifyChildrenErases(ts3, 0, hideColumns, None);
            var children := SimplifyChildren(ts3, 0, hideColumns, None);
            if children.Ok? {
              ErasedChildren(node.kind, node.text, children.value);
              assert SimplifyNode(node, hideColumns) == Ok(Group(node.kind, node.text, children.value));
            }
          }
        }
      }
    }
  }

  lemma {:induction false} SimplifyChildErases(t: Token, hideColumns: bool, prev: Option<Token>)
    ensures SimplifyChild(t, hideColumns, prev).Ok? ==> Erased(SimplifyChild(t, hideColumns, prev).value)
    decreases Height(t), 2, 0
  {
    if hideColumns && t.Group? && t.kind == IdentifierList && !KeepsColumns(prev) {
      assert Erased(Ellipsis());
    } else if t.Group? {
      SimplifyNodeErases(t, hideColumns);
    }
  }

  lemma {:induction false} SimplifyChildrenErases(ts: seq<Token>, i: nat, hideColumns: bool, prev: Option<Token>)
    requires i <= |ts|
    ensures var r := SimplifyChildren(ts, i, hideColumns, prev);
      r.Ok? ==> forall k :: 0 <= k < |r.value| ==> Erased(r.value[k])
    decreases MaxHeight(ts), 3, |ts| - i
  {
    if i < |ts| {
      var first := SimplifyChild(ts[i], hideColumns, prev);
      SimplifyChildErases(ts[i], hideColumns, prev);
      if first.Ok? {
        var t := first.value;
        var prev' := if IsWhitespace(t) then prev else Some(t);
        SimplifyChildrenErases(ts, i + 1, hideColumns, prev');
        var rest := SimplifyChildren(ts, i + 1, hideColumns, prev');
        if rest.Ok? {
          var r := [t] + rest.value;
          forall k | 0 <= k < |r| ensures Erased(r[k]) {
            if k == 0 { assert r[0] == t && Erased(t); } else { assert r[k] == rest.value[k - 1]; }
          }
        }
      }
    }
  }

  /** The last child before position `k` that is not white space. */
  function PrevWord(ts: seq<Token>, k: nat): (r: Option<Token>)
    requires k <= |ts|
    ensures r.Some? ==> !IsWhitespace(r.value)
  {
    if k == 0 then None
    else if !IsWhitespace(ts[k - 1]) then Some(ts[k - 1])
    else PrevWord(ts, k - 1)
  }

  /** With `hide_columns`, a column list keeps its columns exactly when the word before
      it is a keyword reading ORDER BY, GROUP BY or HAVING once upper-cased: after
      such a keyword it is simplified like any other group, otherwise it becomes `...`. */
  lemma ColumnListAfterClause(t: Token, w: Token)
    requires t.Group? && t.kind == IdentifierList
    ensures IsKeyword(w) && Upper(Value(w)) in ColumnClauses ==> SimplifyChild(t, true, Some(w)) == SimplifyNode(t, true)
    ensures !(IsKeyword(w) && Upper(Value(w)) in ColumnClauses) ==>
      SimplifyChild(t, true, Some(w)) == Ok(Group(IdentifierList, t.text, [Ellipsis()]))
  {
  }

  /** The clause test ignores letter case but not the token's kind: `order by` and
      `havıng` (with a dotless i, which Python upper-cases to `I`) as keywords keep
      columns, the same text as a name does not, and neither does SELECT. */
  lemma ColumnClauseExamples()
    ensures KeepsColumns(Some(Leaf(Keyword, "order by")))
    ensures KeepsColumns(Some(Leaf(Keyword, "hav\U{131}ng")))
    ensures !KeepsColumns(Some(Leaf(Name, "order by")))
    ensures !KeepsColumns(Some(Leaf(DML, "SELECT")))
    ensures !KeepsColumns(None)
  {
    OrderByKeepsColumns();
    DotlessHavingKeepsColumns();
    SelectHidesColumns();
    OnlyKeywordsKeepColumns(Leaf(Name, "order by"));
  }

  lemma OnlyKeywordsKeepColumns(w: Token)
    requires !IsKeyword(w)
    ensures !KeepsColumns(Some(w))
  {
  }

  lemma DotlessHavingKeepsColumns()
    ensures KeepsColumns(Some(Leaf(Keyword, "hav\U{131}ng")))
  {
    UpperDotlessHaving();
    assert ColumnClauses[2] == "HAVING";
  }

  lemma UpperDotlessHaving()
    ensures Upper("hav\U{131}ng") == "HAVING"
  {
    var s := "hav\U{131}ng";
    var u := Upper(s);
    assert u[0] == 'H' && u[1] == 'A' && u[2] == 'V' && u[3] == 'I' && u[4] == 'N' && u[5] == 'G';
  }

  lemma OrderByKeepsColumns()
    ensures KeepsColumns(Some(Leaf(Keyword, "order by")))
  {
    UpperOrderBy();
    assert ColumnClauses[0] == "ORDER BY";
  }

  lemma SelectHidesColumns()
    ensures !KeepsColumns(Some(Leaf(DML, "SELECT")))
  {
    UpperSelect();
    NotAClause(Upper("SELECT"));
  }

  /** A word starting with `S` names none of the clauses. */
  lemma NotAClause(s: string)
    requires |s| > 0 && s[0] == 'S'
    ensures s !in ColumnClauses
  {
    assert ColumnClauses[0][0] == 'O' && ColumnClauses[1][0] == 'G' && ColumnClauses[2][0] == 'H';
  }

  lemma UpperOrderBy()
    ensures Upper("order by") == "ORDER BY"
  {
    var u := Upper("order by");
    assert u[0] == 'O' && u[1] == 'R' && u[2] == 'D' && u[3] == 'E';
    assert u[4] == 'R' && u[5] == ' ' && u[6] == 'B' && u[7] == 'Y';
  }

  lemma UpperSelect()
    ensures Upper("SELECT")[0] == 'S'
  {
  }

  /** Every kind of number and plain or single-quoted strings are erased to `#`; a quoted
      identifier (`String.Symbol`) or a name is kept unless it reads `NULL`. */
  lemma LiteralsErasedNamesKept(v: string, hideColumns: bool, prev: Option<Token>)
    ensures forall tt :: IsDeletableType(tt) ==> SimplifyChild(Leaf(tt, v), hideColumns, prev) == Ok(Leaf(tt, "#"))
    ensures IsDeletableType(Number) && IsDeletableType(NumberFloat) && IsDeletableType(NumberInteger)
      && IsDeletableType(NumberHexadecimal) && IsDeletableType(String) && IsDeletableType(StringSingle)
    ensures v != "NULL" ==> SimplifyChild(Leaf(StringSymbol, v), hideColumns, prev) == Ok(Leaf(StringSymbol, v))
    ensures v != "NULL" ==> SimplifyChild(Leaf(Name, v), hideColumns, prev) == Ok(Leaf(Name, v))
  {
  }

  /** Simplifying a non-white-space child does not change whether a column list after it
      is kept: `NULL` becomes `#`, and neither reads ORDER BY, GROUP BY or HAVING. */
  lemma KeepsColumnsProcessed(t: Token, hideColumns: bool, prev: Option<Token>)
    requires SimplifyChild(t, hideColumns, prev).Ok?
    ensures KeepsColumns(Some(SimplifyChild(t, hideColumns, prev).value)) == KeepsColumns(Some(t))
  {
    var r := SimplifyChild(t, hideColumns, prev).value;
    if t.Leaf? && IsKeyword(t) && t.value == "NULL" {
      assert Upper("NULL") == "NULL";
      assert Upper("#") == "#";
    }
  }

  /** A child's simplification depends on the word before it only through whether that
      word keeps column lists. */
  lemma SimplifyChildReadsKeepsColumns(t: Token, hideColumns: bool, prev: Option<Token>, prev': Option<Token>)
    requires KeepsColumns(prev) == KeepsColumns(prev')
    ensures SimplifyChild(t, hideColumns, prev) == SimplifyChild(t, hideColumns, prev')
  {
  }

  /** Carrying the simplified child `t` as `prev_word_token` keeps or hides column lists
      just as the original child before the next position would. */
  lemma PrevWordStep(ts: seq<Token>, i: nat, hideColumns: bool, prev: Option<Token>, t: Token, prev': Option<Token>)
    requires i < |ts| && KeepsColumns(prev) == KeepsColumns(PrevWord(ts, i))
    requires SimplifyChild(ts[i], hideColumns, prev) == Ok(t)
    requires prev' == if IsWhitespace(t) then prev else Some(t)
    ensures KeepsColumns(prev') == KeepsColumns(PrevWord(ts, i + 1))
  {
    if !IsWhitespace(t) {
      KeepsColumnsProcessed(ts[i], hideColumns, prev);
    }
  }

  /** One step of the loop over the children: a successful run simplifies child `i` to
      `t` and then the children after it to `rest`. */
  lemma SimplifyChildrenStep(ts: seq<Token>, i: nat, hideColumns: bool, prev: Option<Token>)
    returns (t: Token, prev': Option<Token>, rest: seq<Token>)
    requires i < |ts| && SimplifyChildren(ts, i, hideColumns, prev).Ok?
    ensures SimplifyChild(ts[i], hideColumns, prev) == Ok(t)
    ensures prev' == if IsWhitespace(t) then prev else Some(t)
    ensures SimplifyChildren(ts, i + 1, hideColumns, prev') == Ok(rest)
    ensures SimplifyChildren(ts, i, hideColumns, prev) == Ok([t] + rest)
  {
    t := SimplifyChild(ts[i], hideColumns, prev).value;
    prev' := if IsWhitespace(t) then prev else Some(t);
    rest := SimplifyChildren(ts, i + 1, hideColumns, prev').value;
  }

  /** Position `j` of `[t] + rest` is `t` or a position of `rest`, whichever `goal`
      describes. */
  lemma ConsAt(whole: seq<Token>, t: Token, rest: seq<Token>, j: nat, goal: Outcome<Token>)
    requires whole == [t] + rest && j < |whole|
    requires j == 0 ==> Ok(t) == goal
    requires j > 0 ==> Ok(rest[j - 1]) == goal
    ensures Ok(whole[j]) == goal
  {
  }

  /** The first child of a successful run is the child simplified with the word before
      it. */
  lemma ChildrenSimplifiedFirst(ts: seq<Token>, i: nat, hideColumns: bool, prev: Option<Token>)
    requires i < |ts|
    requires KeepsColumns(prev) == KeepsColumns(PrevWord(ts, i))
    requires SimplifyChildren(ts, i, hideColumns, prev).Ok?
    ensures Ok(SimplifyChildren(ts, i, hideColumns, prev).value[0]) == SimplifyChild(ts[i], hideColumns, PrevWord(ts, i))
  {
    var t, prev', rest := SimplifyChildrenStep(ts, i, hideColumns, prev);
    SimplifyChildReadsKeepsColumns(ts[i], hideColumns, prev, PrevWord(ts, i));
    ConsAt(SimplifyChildren(ts, i, hideColumns, prev).value, t, rest, 0, SimplifyChild(ts[i], hideColumns, PrevWord(ts, i)));
  }

  /** The rest of a successful run is the run from the next child on, carrying a word
      that keeps column lists exactly when the original child does. */
  lemma ChildrenSimplifiedRest(ts: seq<Token>, i: nat, hideColumns: bool, prev: Option<Token>)
    returns (prev': Option<Token>)
    requires i < |ts|
    requires KeepsColumns(prev) == KeepsColumns(PrevWord(ts, i))
    requires SimplifyChildren(ts, i, hideColumns, prev).Ok?
    ensures KeepsColumns(prev') == KeepsColumns(PrevWord(ts, i + 1))
    ensures SimplifyChildren(ts, i + 1, hideColumns, prev').Ok?
    ensures SimplifyChildren(ts, i, hideColumns, prev).value[1..] == SimplifyChildren(ts, i + 1, hideColumns, prev').value
  {
    var t, rest;
    t, prev', rest := SimplifyChildrenStep(ts, i, hideColumns, prev);
    PrevWordStep(ts, i, hideColumns, prev, t, prev');
    assert ([t] + rest)[1..] == rest;
  }

  lemma {:induction false} ChildrenSimplifiedAt(ts: seq<Token>, i: nat, hideColumns: bool, prev: Option<Token>, k: nat)
    requires i <= k < |ts|
    requires KeepsColumns(prev) == KeepsColumns(PrevWord(ts, i))
    requires SimplifyChildren(ts, i, hideColumns, prev).Ok?
    ensures Ok(SimplifyChildren(ts, i, hideColumns, prev).value[k - i]) == SimplifyChild(ts[k], hideColumns, PrevWord(ts, k))
    decreases k - i
  {
    if k == i {
      ChildrenSimplifiedFirst(ts, i, hideColumns, prev);
    } else {
      var prev' := ChildrenSimplifiedRest(ts, i, hideColumns, prev);
      ChildrenSimplifiedAt(ts, i + 1, hideColumns, prev', k);
      var whole := SimplifyChildren(ts, i, hideColumns, prev).value;
      assert whole[k - i] == whole[1..][k - i - 1];
    }
  }

  /** In the loop over a node's children, `prev_word_token` is the last child already
      simplified that is not white space; whether a column list is hidden comes out the
      same as if it were the original child. With `hide_columns`, a column list is
      replaced by `...` unless the word before it is ORDER BY, GROUP BY or HAVING; any
      other group is simplified recursively. */
  lemma ColumnListsHidden(ts: seq<Token>, hideColumns: bool, k: nat)
    requires k < |ts| && SimplifyChildren(ts, 0, hideColumns, None).Ok?
    ensures var rk := SimplifyChildren(ts, 0, hideColumns, None).value[k];
      var hidden := hideColumns && ts[k].Group? && ts[k].kind == IdentifierList && !KeepsColumns(PrevWord(ts, k));
      (hidden ==> rk == Group(IdentifierList, ts[k].text, [Ellipsis()]))
      && (ts[k].Group? && !hidden ==> Ok(rk) == SimplifyNode(ts[k], hideColumns))
  {
    ChildrenSimplifiedAt(ts, 0, hideColumns, None, k);
  }

  // ---------------------------------------------------------------------------
  // sql_fingerprint

  /** `sql_fingerprint(query, hide_columns)` given sqlparse's statements for `query`: the
      empty string for an empty parse, otherwise the first statement stripped,
      simplified, rendered and stripped of surrounding white space. */
  function Fingerprint(parsed: seq<Token>, hideColumns: bool): (r: Outcome<string>)
    ensures parsed == [] ==> r == Ok("")
    ensures r.Ok? ==> r.value == [] || (!IsSpace(r.value[0]) && !IsSpace(r.value[|r.value| - 1]))
    ensures parsed != [] && parsed[0].Leaf? ==> r == Raised(AttributeError)
    ensures r.Ok? && parsed != [] ==> exists t ::
      SimplifyNode(StripTree(parsed[0]), hideColumns) == Ok(t) && r.value == PyStr.Strip(Render(t)) && Erased(t)
  {
    if parsed == [] then Ok("")
    else if parsed[0].Leaf? then Raised(AttributeError)
    else
      var simplified := SimplifyNode(StripTree(parsed[0]), hideColumns);
      SimplifyNodeErases(StripTree(parsed[0]), hideColumns);
      if simplified.Raised? then Raised(simplified.error)
      else Ok(PyStr.Strip(Render(simplified.value)))
  }

  /** Only the first statement of the query is fingerprinted. */
  lemma FingerprintFirstStatementOnly(parsed: seq<Token>, other: seq<Token>, hideColumns: bool)
    requires parsed != [] && other != [] && parsed[0] == other[0]
    ensures Fingerprint(parsed, hideColumns) == Fingerprint(other, hideColumns)
  {
  }

  /** `sql_fingerprint` as the sequence of calls it makes. */
  method SqlFingerprint(parsed: seq<Token>, hideColumns: bool) returns (r: Outcome<string>)
    ensures r == Fingerprint(parsed, hideColumns)
  {
    if |parsed| == 0 {
      return Ok("");
    }
    if parsed[0].Leaf? {
      return Raised(AttributeError);
    }
    var stripped := RecursivelyStrip(parsed[0]);
    var simplified := RecursivelySimplify(stripped, hideColumns);
    if simplified.Raised? {
      return Raised(simplified.error);
    }
    return Ok(PyStr.Strip(Render(simplified.value)));
  }
}
