/** SQL fingerprinting, legacy generation (`django_perf_rec/sql.py`).

    There is no strip pass and no `hide_columns` switch: every column list becomes `...`,
    white-space tokens are rewritten one by one (a newline to `""`, any other white space
    to `" "`), the UPDATE rule insists on a WHERE clause, there is no IN rule and no
    cursor rule, and ROLLBACK TO SAVEPOINT is recognised only with exactly seven tokens.
    The first parsed statement is taken without checking that there is one, and its
    rendering is returned without trimming. */
module LegacySql {
  import opened PyBase
  import opened SqlTokens
  import PerfRecSql

  /** The legacy UPDATE rule: the tokens through the first `SET`, one `" ... "` token,
      then the tokens from the first `WHERE` group on. Both lookups index `[0]` of a
      possibly empty list, and the WHERE lookup reads `t.tokens[0]` of every group, so a
      missing `SET`, a missing WHERE group or an empty group raises IndexError. */
  function UpdateRewrite(ts: seq<Token>): (r: Outcome<seq<Token>>)
    ensures r.Raised? <==>
      FirstWithValue(ts, "SET", 0).None? || HasEmptyGroup(ts, 0) || FirstWhereGroup(ts, 0).None?
    ensures r.Raised? ==> r.error == IndexError
    ensures r.Ok? ==> var s := FirstWithValue(ts, "SET", 0).value;
      var w := FirstWhereGroup(ts, 0).value;
      |r.value| == s + 2 + (|ts| - w)
      && r.value[..s + 1] == ts[..s + 1]
      && r.value[s + 1] == Leaf(Punctuation, " ... ")
      && r.value[s + 2..] == ts[w..]
    ensures r.Ok? ==> MaxHeight(r.value) <= MaxHeight(ts)
  {
    var iSet := FirstWithValue(ts, "SET", 0);
    if iSet.None? || HasEmptyGroup(ts, 0) then Raised(IndexError)
    else
      var iWhere := FirstWhereGroup(ts, 0);
      if iWhere.None? then Raised(IndexError)
      else
        var rewritten := ts[..iSet.value + 1] + [Leaf(Punctuation, " ... ")] + ts[iWhere.value..];
        MaxHeightOfPieces(rewritten, ts);
        Ok(rewritten)
  }

  /** The legacy savepoint rules: as in the current generation, except that ROLLBACK TO
      SAVEPOINT needs exactly seven tokens. */
  function Savepoint(ts: seq<Token>): (r: Option<Outcome<seq<Token>>>)
    requires |ts| > 0
    ensures OpensSavepoint(ts) ==> r == Some(RedactNameAt(ts, 2))
    ensures !OpensSavepoint(ts) && ReleasesSavepoint(ts) ==> r == Some(RedactNameAt(ts, 4))
    ensures !OpensSavepoint(ts) && !ReleasesSavepoint(ts) && |ts| == 7 && OpensRollbackToSavepoint(ts)
      ==> r == Some(RedactNameAt(ts, 6))
    ensures r.None? <==> !OpensSavepoint(ts) && !ReleasesSavepoint(ts) && !(|ts| == 7 && OpensRollbackToSavepoint(ts))
    ensures r.Some? && r.value.Ok? ==> MaxHeight(r.value.value) <= MaxHeight(ts)
  {
    if OpensSavepoint(ts) then Some(RedactNameAt(ts, 2))
    else if ReleasesSavepoint(ts) then Some(RedactNameAt(ts, 4))
    else if |ts| == 7 && OpensRollbackToSavepoint(ts) then Some(RedactNameAt(ts, 6))
    else None
  }

  /** One child in the legacy loop: every column list becomes `...`; a group is simplified
      recursively; a literal becomes `#`, a newline `""`, other white space `" "`, and a
      `NULL` leaf `#`. */
  function SimplifyChild(t: Token): (r: Outcome<Token>)
    ensures r.Ok? ==> r.value.Leaf? == t.Leaf?
    ensures r.Ok? && t.Leaf? ==> r.value.ttype == t.ttype
    ensures r.Raised? ==> t.Group? && t.kind != IdentifierList
    ensures t.Group? && t.kind == IdentifierList ==> r == Ok(Group(IdentifierList, t.text, [Ellipsis()]))
    ensures IsDeletable(t) ==> r == Ok(Leaf(t.ttype, "#"))
    ensures t.Leaf? && t.ttype == Newline ==> r == Ok(Leaf(Newline, ""))
    ensures t.Leaf? && t.ttype == Whitespace ==> r == Ok(Leaf(Whitespace, " "))
    decreases Height(t), 2, 0
  {
    if t.Group? && t.kind == IdentifierList then Ok(Group(IdentifierList, t.text, [Ellipsis()]))
    else if t.Group? then SimplifyNode(t)
    else if IsDeletableType(t.ttype) then Ok(Leaf(t.ttype, "#"))
    else if t.ttype == Newline then Ok(Leaf(t.ttype, ""))
    else if t.ttype == Whitespace then Ok(Leaf(t.ttype, " "))
    else if t.value == "NULL" then Ok(Leaf(t.ttype, "#"))
    else Ok(t)
  }

  /** The legacy loop over a node's children from position `i` on; the first error stops
      it. */
  function SimplifyChildren(ts: seq<Token>, i: nat): (r: Outcome<seq<Token>>)
    requires i <= |ts|
    ensures r.Ok? ==> |r.value| == |ts| - i
    decreases MaxHeight(ts), 3, |ts| - i
  {
    if i == |ts| then Ok([])
    else
      var first := SimplifyChild(ts[i]);
      if first.Raised? then Raised(first.error)
      else
        var rest := SimplifyChildren(ts, i + 1);
        if rest.Raised? then Raised(rest.error) else Ok([first.value] + rest.value)
  }

  /** The legacy `sql_recursively_simplify(node)`'s specification for a group: the UPDATE
      rule, then either a savepoint redaction or the loop over the children. */
  function SimplifyNode(node: Token): (r: Outcome<Token>)
    requires node.Group?
    ensures r.Ok? ==> r.value.Group? && r.value.kind == node.kind && r.value.text == node.text
    ensures node.tokens == [] ==> r == Raised(IndexError)
    ensures node.tokens != [] && Value(node.tokens[0]) == "UPDATE" && FirstWhereGroup(node.tokens, 0).None?
      ==> r == Raised(IndexError)
    decreases Height(node), 1, 0
  {
    var ts := node.tokens;
    if ts == [] then Raised(IndexError)
    else
      var updated := if Value(ts[0]) == "UPDATE" then UpdateRewrite(ts) else Ok(ts);
      if updated.Raised? then Raised(updated.error)
      else
        var ts1 := updated.value;
        var savepoint := Savepoint(ts1);
        if savepoint.Some? then
          if savepoint.value.Raised? then Raised(savepoint.value.error)
          else Ok(Group(node.kind, node.text, savepoint.value.value))
        else
          var children := SimplifyChildren(ts1, 0);
          if children.Raised? then Raised(children.error)
          else Ok(Group(node.kind, node.text, children.value))
  }

  /** The legacy `sql_recursively_simplify(node)` for a group. */
  method RecursivelySimplify(node: Token) returns (r: Outcome<Token>)
    requires node.Group?
    ensures r == SimplifyNode(node)
    decreases Height(node), 1, 0
  {
    var tokens := node.tokens;
    if |tokens| == 0 {
      return Raised(IndexError);
    }
    if Value(tokens[0]) == "UPDATE" {
      var rewritten := UpdateRewrite(tokens);
      if rewritten.Raised? {
        return Raised(rewritten.error);
      }
      tokens := rewritten.value;
    }
    assert MaxHeight(tokens) < Height(node);
    var savepoint := Savepoint(tokens);
    if savepoint.Some? {
      if savepoint.value.Raised? {
        return Raised(savepoint.value.error);
      }
      return Ok(Group(node.kind, node.text, savepoint.value.value));
    }
    var children := SimplifyEach(tokens);
    if children.Raised? {
      return Raised(children.error);
    }
    return Ok(Group(node.kind, node.text, children.value));
  }

  /** The legacy loop over a node's children. */
  method SimplifyEach(tokens: seq<Token>) returns (r: Outcome<seq<Token>>)
    ensures r == SimplifyChildren(tokens, 0)
    decreases MaxHeight(tokens), 3, |tokens|
  {
    ghost var spec := SimplifyChildren(tokens, 0);
    var result: seq<Token> := [];
    assert spec.Ok? ==> [] + spec.value == spec.value;
    for i := 0 to |tokens|
      invariant spec == Prepend(result, SimplifyChildren(tokens, i))
    {
      var simplified := SimplifyToken(tokens[i]);
      if simplified.Raised? {
        return Raised(simplified.error);
      }
      PrependStep(result, simplified.value, SimplifyChildren(tokens, i + 1));
      result := result + [simplified.value];
    }
    assert result + [] == result;
    return Ok(result);
  }

  /** The legacy loop body for one child. */
  method SimplifyToken(token: Token) returns (r: Outcome<Token>)
    ensures r == SimplifyChild(token)
    decreases Height(token), 2, 0
  {
    if token.Group? && token.kind == IdentifierList {
      r := Ok(Group(IdentifierList, token.text, [Ellipsis()]));
    } else if token.Group? {
      r := RecursivelySimplify(token);
    } else if IsDeletableType(token.ttype) {
      r := Ok(Leaf(token.ttype, "#"));
    } else if token.ttype == Newline {
      r := Ok(Leaf(token.ttype, ""));
    } else if token.ttype == Whitespace {
      r := Ok(Leaf(token.ttype, " "));
    } else if token.value == "NULL" {
      r := Ok(Leaf(token.ttype, "#"));
    } else {
      r := Ok(token);
    }
  }

  /** What the legacy rewrite leaves: no literal, no `NULL`, white space normalised token
      by token, and every column list reduced to `...`, except inside a savepoint
      statement, which is left as it is. */
  predicate Erased(t: Token)
    decreases t
  {
    match t
    case Leaf(tt, v) =>
      (IsDeletableType(tt) ==> v == "#")
      && (tt == Newline ==> v == "")
      && (tt == Whitespace ==> v == " ")
      && v != "NULL"
    case Group(_, _, ts) =>
      (|ts| > 0 && Savepoint(ts).Some?)
      || forall k :: 0 <= k < |ts| ==>
           Erased(ts[k]) && (ts[k].Group? && ts[k].kind == IdentifierList ==> ts[k].tokens == [Ellipsis()])
  }

  /** A savepoint redaction leaves a statement that is still recognised as one. */
  lemma SavepointStable(ts: seq<Token>)
    requires |ts| > 0 && Savepoint(ts).Some? && Savepoint(ts).value.Ok?
    ensures |Savepoint(ts).value.value| > 0 && Savepoint(Savepoint(ts).value.value).Some?
  {
    var ts' := Savepoint(ts).value.value;
    if Render(ts[0]) != "SAVEPOINT" && !(|ts| >= 3 && Value(ts[2]) == "SAVEPOINT") {
      forall k | 0 <= k < 6 ensures Values(ts', 0)[k] == Values(ts, 0)[k] {
        assert ts'[k] == ts[k];
        assert Values(ts', 0)[k - 0] == Value(ts'[k]);
        assert Values(ts, 0)[k - 0] == Value(ts[k]);
      }
      assert Values(ts', 0)[..6] == Values(ts, 0)[..6];
    }
  }

  /** A ROLLBACK TO SAVEPOINT statement with more than seven tokens (a trailing comment or
      semicolon, say) has its name redacted by the current generation but is not a
      savepoint statement to the legacy one, whose loop then rewrites its children. */
  lemma LongRollbackOnlyCurrent(ts: seq<Token>)
    requires |ts| > 7 && Render(ts[0]) == "ROLLBACK" && OpensRollbackToSavepoint(ts)
    ensures PerfRecSql.Savepoint(ts) == Some(RedactNameAt(ts, 6))
    ensures Savepoint(ts).None?
  {
    assert Values(ts, 0)[2] == Value(ts[2]);
  }

  lemma {:induction false} SimplifyNodeErases(node: Token)
    requires node.Group?
    ensures SimplifyNode(node).Ok? ==> Erased(SimplifyNode(node).value)
    decreases Height(node), 1, 0
  {
    var ts := node.tokens;
    if ts != [] {
      var updated := if Value(ts[0]) == "UPDATE" then UpdateRewrite(ts) else Ok(ts);
      if updated.Ok? {
        var ts1 := updated.value;
        var savepoint := Savepoint(ts1);
        if savepoint.Some? {
          if savepoint.value.Ok? {
            SavepointStable(ts1);
          }
        } else {
          SimplifyChildrenErases(ts1, 0);
          var children := SimplifyChildren(ts1, 0);
          if children.Ok? {
            assert SimplifyNode(node) == Ok(Group(node.kind, node.text, children.value));
          }
        }
      }
    }
  }

  lemma {:induction false} SimplifyChildErases(t: Token)
    ensures SimplifyChild(t).Ok? ==> Erased(SimplifyChild(t).value)
    ensures SimplifyChild(t).Ok? && t.Group? && t.kind == IdentifierList ==> SimplifyChild(t).value.tokens == [Ellipsis()]
    ensures SimplifyChild(t).Ok? && SimplifyChild(t).value.Group? && SimplifyChild(t).value.kind == IdentifierList
      ==> SimplifyChild(t).value.tokens == [Ellipsis()]
    decreases Height(t), 2, 0
  {
    if t.Group? && t.kind == IdentifierList {
      assert Erased(Ellipsis());
    } else if t.Group? {
      SimplifyNodeErases(t);
    }
  }

  lemma {:induction false} SimplifyChildrenErases(ts: seq<Token>, i: nat)
    requires i <= |ts|
    ensures var r := SimplifyChildren(ts, i);
      r.Ok? ==> forall k :: 0 <= k < |r.value| ==>
        Erased(r.value[k]) && (r.value[k].Group? && r.value[k].kind == IdentifierList ==> r.value[k].tokens == [Ellipsis()])
    decreases MaxHeight(ts), 3, |ts| - i
  {
    if i < |ts| {
      var first := SimplifyChild(ts[i]);
      SimplifyChildErases(ts[i]);
      if first.Ok? {
        var t := first.value;
        SimplifyChildrenErases(ts, i + 1);
        var rest := SimplifyChildren(ts, i + 1);
        if rest.Ok? {
          var r := [t] + rest.value;
          forall k | 0 <= k < |r|
            ensures Erased(r[k]) && (r[k].Group? && r[k].kind == IdentifierList ==> r[k].tokens == [Ellipsis()])
          {
            if k == 0 { assert r[0] == t && Erased(t); } else { assert r[k] == rest.value[k - 1]; }
          }
        }
      }
    }
  }

  /** A parenthesised column or value list, as in `INSERT INTO t (a, b) VALUES (1, 2)`,
      renders as `(...)` whatever the list holds. */
  lemma ParenthesizedListCollapses(text: string, listText: string, items: seq<Token>)
    ensures var p := Group(Parenthesis, text, [Leaf(Punctuation, "("), Group(IdentifierList, listText, items), Leaf(Punctuation, ")")]);
      SimplifyNode(p).Ok? && Render(SimplifyNode(p).value) == "(...)"
  {
    var ts := [Leaf(Punctuation, "("), Group(IdentifierList, listText, items), Leaf(Punctuation, ")")];
    var ts' := [Leaf(Punctuation, "("), Group(IdentifierList, listText, [Ellipsis()]), Leaf(Punctuation, ")")];
    assert SimplifyChild(ts[2]) == Ok(ts[2]);
    assert SimplifyChildren(ts, 3) == Ok([]);
    assert [ts[2]] + [] == ts'[2..];
    assert SimplifyChildren(ts, 2) == Ok(ts'[2..]);
    assert [ts'[1]] + ts'[2..] == ts'[1..];
    assert SimplifyChildren(ts, 1) == Ok(ts'[1..]);
    assert [ts'[0]] + ts'[1..] == ts';
    assert SimplifyChildren(ts, 0) == Ok(ts');
    assert RenderAll(ts') == "(" + RenderAll(ts'[1..]);
    assert [Ellipsis()][1..] == [];
    assert Render(ts'[1]) == "...";
    assert RenderAll(ts'[1..]) == "..." + RenderAll(ts'[2..]);
    assert RenderAll(ts'[2..]) == ")" + RenderAll(ts'[3..]);
  }

  /** The legacy `sql_fingerprint(query)` given sqlparse's statements for `query`: the
      first statement simplified and rendered as it is. An empty parse raises IndexError. */
  function Fingerprint(parsed: seq<Token>): (r: Outcome<string>)
    ensures parsed == [] ==> r == Raised(IndexError)
    ensures parsed != [] && parsed[0].Leaf? ==> r == Raised(AttributeError)
    ensures r.Ok? ==> exists t :: SimplifyNode(parsed[0]) == Ok(t) && r.value == Render(t) && Erased(t)
  {
    if parsed == [] then Raised(IndexError)
    else if parsed[0].Leaf? then Raised(AttributeError)
    else
      var simplified := SimplifyNode(parsed[0]);
      SimplifyNodeErases(parsed[0]);
      if simplified.Raised? then Raised(simplified.error)
      else Ok(Render(simplified.value))
  }

  /** The legacy `sql_fingerprint` as the sequence of calls it makes. */
  method SqlFingerprint(parsed: seq<Token>) returns (r: Outcome<string>)
    ensures r == Fingerprint(parsed)
  {
    if |parsed| == 0 {
      return Raised(IndexError);
    }
    if parsed[0].Leaf? {
      return Raised(AttributeError);
    }
    var simplified := RecursivelySimplify(parsed[0]);
    if simplified.Raised? {
      return Raised(simplified.error);
    }
    return Ok(Render(simplified.value));
  }
}
