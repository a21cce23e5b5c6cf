/** The few functions of Python's `posixpath` (`os.path` on POSIX systems) that choosing
    a record file uses: `isabs`, `basename`, `dirname` and two-argument `join`. */
module PyPath {
  import opened PyStr

  /** `s.rfind("/")`: the index of the last slash, or -1 when there is none. */
  function LastSlash(s: string): (i: int)
    ensures -1 <= i < |s|
    ensures i >= 0 ==> s[i] == '/'
    ensures forall k :: i < k < |s| ==> s[k] != '/'
  {
    if s == [] then -1
    else if s[|s| - 1] == '/' then |s| - 1
    else LastSlash(s[..|s| - 1])
  }

  /** `os.path.isabs(s)`. */
  predicate IsAbs(s: string)
  {
    StartsWith(s, "/")
  }

  /** `os.path.basename(p)`: what follows the last slash. */
  function Basename(p: string): (r: string)
    ensures EndsWith(p, r)
    ensures forall k :: 0 <= k < |r| ==> r[k] != '/'
  {
    p[LastSlash(p) + 1..]
  }

  /** `s.rstrip("/")`. */
  function StripTrailingSlashes(s: string): (r: string)
    ensures StartsWith(s, r)
    ensures r == [] || r[|r| - 1] != '/'
    ensures forall k :: |r| <= k < |s| ==> s[k] == '/'
  {
    if s == [] || s[|s| - 1] != '/' then s
    else StripTrailingSlashes(s[..|s| - 1])
  }

  /** `os.path.dirname(p)`: everything up to the last slash, without its trailing
      slashes unless it is made of slashes only. */
  function Dirname(p: string): (r: string)
    ensures StartsWith(p, r)
    ensures |r| <= LastSlash(p) + 1
  {
    var head := p[..LastSlash(p) + 1];
    var stripped := StripTrailingSlashes(head);
    if head != [] && stripped != [] then stripped else head
  }

  /** `os.path.join(a, b)`: an absolute `b` replaces `a`; otherwise `b` is appended,
      with a slash between them unless `a` is empty or already ends with one. */
  function JoinPath(a: string, b: string): (r: string)
    ensures EndsWith(r, b)
    ensures IsAbs(b) ==> r == b
    ensures !IsAbs(b) ==> StartsWith(r, a)
  {
    if StartsWith(b, "/") then b
    else if a == [] || EndsWith(a, "/") then a + b
    else a + "/" + b
  }

  /** A suffix without slashes survives `basename`: the last slash comes before it. */
  lemma BasenameKeepsSuffix(p: string, suffix: string)
    requires EndsWith(p, suffix)
    requires forall k :: 0 <= k < |suffix| ==> suffix[k] != '/'
    ensures EndsWith(Basename(p), suffix)
  {
    assert Basename(p)[|Basename(p)| - |suffix|..] == p[|p| - |suffix|..];
  }

  /** The last slash of `x + y`, when `y` has none, is the last slash of `x`. */
  lemma {:induction false} LastSlashSkipsTail(x: string, y: string)
    requires forall k :: 0 <= k < |y| ==> y[k] != '/'
    ensures LastSlash(x + y) == LastSlash(x)
    decreases |y|
  {
    if y != [] {
      var xy := x + y;
      assert xy[..|xy| - 1] == x + y[..|y| - 1];
      LastSlashSkipsTail(x, y[..|y| - 1]);
    } else {
      assert x + y == x;
    }
  }

  /** A name without slashes is its own base name, and joining it onto a directory
      keeps it as the base name. */
  lemma BasenameOfJoin(dir: string, name: string)
    requires name != []
    requires forall k :: 0 <= k < |name| ==> name[k] != '/'
    ensures Basename(JoinPath(dir, name)) == name
  {
    assert !StartsWith(name, "/") by {
      assert name[0] != '/';
    }
    var x := if dir == [] then [] else if EndsWith(dir, "/") then dir else dir + "/";
    assert JoinPath(dir, name) == x + name;
    LastSlashSkipsTail(x, name);
    if x != [] {
      assert x[|x| - 1] == '/';
      assert LastSlash(x) == |x| - 1;
    }
    assert (x + name)[LastSlash(x) + 1..] == name;
  }
}
