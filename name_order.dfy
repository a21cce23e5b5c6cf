/** `sorted_names`, which all three generations define identically
    (`src/django_perf_rec/utils.py`, `django_perf_rec/utils.py`,
    `django_performance_recorder/utils.py`): sort connection or cache aliases, but put
    `"default"` first when it is there. The recorders install one recorder per alias in
    this order. */
module NameOrder {
  import opened PyStr
  import opened PySorted

  /** The order `sorted_names` produces: the first `"default"` taken out and put in front
      of the sorted remainder, or just the sorted input when there is no `"default"`. */
  function DefaultFirst(names: seq<string>): seq<string>
  {
    if "default" in names then ["default"] + Sorted(RemoveFirst(names, "default"))
    else Sorted(names)
  }

  /** `sorted_names(names)`: copies the list, removes one `"default"` in place and
      remembers that it did, sorts, and puts `"default"` back in front. */
  method SortedNames(names: seq<string>) returns (r: seq<string>)
    ensures r == DefaultFirst(names)
  {
    var copy := names;
    var haveDefault := false;
    if "default" in copy {
      copy := RemoveFirst(copy, "default");
      haveDefault := true;
    }
    r := Sorted(copy);
    if haveDefault {
      r := ["default"] + r;
    }
  }

  /** The result holds exactly the input's names, duplicates included. */
  lemma DefaultFirstIsPermutation(names: seq<string>)
    ensures multiset(DefaultFirst(names)) == multiset(names)
  {
    if "default" in names {
      var rest := RemoveFirst(names, "default");
      assert multiset(["default"] + Sorted(rest)) == multiset{"default"} + multiset(rest);
    }
  }

  /** The result starts with `"default"` exactly when the input contains it. */
  lemma DefaultFirstStartsWithDefault(names: seq<string>)
    ensures var r := DefaultFirst(names);
      ("default" in names) <==> (|r| > 0 && r[0] == "default")
  {
    var r := DefaultFirst(names);
    DefaultFirstIsPermutation(names);
    if |r| > 0 && r[0] == "default" {
      assert r[0] in multiset(r);
    }
  }

  /** After the leading `"default"`, if any, the names are in ascending order; without a
      `"default"` the result is just the sorted input. */
  lemma DefaultFirstRestAscending(names: seq<string>)
    ensures "default" in names ==> Ascending(DefaultFirst(names)[1..])
    ensures "default" !in names ==> DefaultFirst(names) == Sorted(names) && Ascending(DefaultFirst(names))
  {
    if "default" in names {
      var rest := RemoveFirst(names, "default");
      SortedAscending(rest);
      assert DefaultFirst(names)[1..] == Sorted(rest);
    } else {
      SortedAscending(names);
    }
  }

  /** Only the first `"default"` moves to the front: any others stay among the sorted
      remainder. */
  lemma ExtraDefaultsStayInRemainder(names: seq<string>)
    requires "default" in names
    ensures multiset(DefaultFirst(names)[1..])["default"] == multiset(names)["default"] - 1
  {
    var rest := RemoveFirst(names, "default");
    assert DefaultFirst(names)[1..] == Sorted(rest);
  }

  /** The order of the input does not matter: inputs with the same names give the same
      result. */
  lemma DefaultFirstIgnoresOrder(names: seq<string>, others: seq<string>)
    requires multiset(names) == multiset(others)
    ensures DefaultFirst(names) == DefaultFirst(others)
  {
    assert ("default" in names) <==> ("default" in multiset(names));
    assert ("default" in others) <==> ("default" in multiset(others));
    if "default" in names {
      SortedIgnoresOrder(RemoveFirst(names, "default"), RemoveFirst(others, "default"));
    } else {
      SortedIgnoresOrder(names, others);
    }
  }

  /** An empty input gives an empty result, and a single name gives itself. */
  lemma DefaultFirstSmallInputs(name: string)
    ensures DefaultFirst([]) == []
    ensures DefaultFirst([name]) == [name]
  {
    if name == "default" {
      assert RemoveFirst([name], "default") == [];
    } else {
      assert Sorted([name]) == Insert(name, Sorted([]));
    }
  }
}
