/** Names in the RAM file system: full paths with slashes, and what lies below what. */
module RamfsNames {
  const MAX_NAME: nat := 32

  predicate ValidName(name: string) {
    0 < |name| < MAX_NAME && name[0] != '/' && name[|name| - 1] != '/'
  }

  /** The position of the last slash before index `n`, or -1. */
  function LastSlash(name: string, n: nat): (r: int)
    requires n <= |name|
    ensures -1 <= r < n && (r >= 0 ==> name[r] == '/') && forall i :: r < i < n ==> name[i] != '/'
  {
    if n == 0 then -1 else if name[n - 1] == '/' then n - 1 else LastSlash(name, n - 1)
  }

  predicate HasParent(name: string) {
    LastSlash(name, |name|) >= 0
  }

  function Parent(name: string): (p: string)
    requires HasParent(name)
    ensures |p| < |name|
  {
    name[..LastSlash(name, |name|)]
  }

  /** The test of the original: `name` starts with the directory's name and a slash. */
  predicate Under(dir: string, name: string) {
    |name| > |dir| && name[..|dir|] == dir && name[|dir|] == '/'
  }

  /** `dir` is reached from `name` by going to the parent, once or more. */
  predicate Ancestor(dir: string, name: string)
    decreases |name|
  {
    HasParent(name) && (Parent(name) == dir || Ancestor(dir, Parent(name)))
  }

  /** The name of a direct child below its directory; the root is the empty name. */
  predicate ChildOf(dir: string, name: string) {
    if dir == "" then '/' !in name
    else Under(dir, name) && |name| > |dir| + 1 && '/' !in name[|dir| + 1..]
  }

  function ChildName(dir: string, name: string): string
    requires ChildOf(dir, name)
  {
    if dir == "" then name else name[|dir| + 1..]
  }

  // ---------------------------------------------------------------- facts

  /** Being under a directory is having it as an ancestor. */
  lemma {:induction false} UnderIsAncestor(dir: string, name: string)
    ensures Under(dir, name) <==> Ancestor(dir, name)
    decreases |name|
  {
    var k := LastSlash(name, |name|);
    if k >= 0 {
      var p := Parent(name);
      UnderIsAncestor(dir, p);
      if Under(dir, name) {
        assert name[|dir|] == '/' && |dir| <= k;
        if |dir| < k {
          assert p[..|dir|] == name[..|dir|] && p[|dir|] == name[|dir|];
        }
      }
      if Under(dir, p) {
        assert name[..|dir|] == p[..|dir|];
      }
      if p == dir {
        assert name[|dir|] == '/';
      }
    } else {
      assert forall i :: 0 <= i < |name| ==> name[i] != '/';
    }
  }

  lemma UnderTrans(a: string, b: string, c: string)
    requires Under(a, b) && Under(b, c)
    ensures Under(a, c)
  {
    assert c[..|a|] == c[..|b|][..|a|];
    assert c[|a|] == c[..|b|][|a|];
  }

  lemma ParentIsUnder(name: string)
    requires HasParent(name)
    ensures Under(Parent(name), name)
  {
  }

  /** A direct child is an entry whose parent is the directory. */
  lemma ChildIsParent(dir: string, name: string)
    requires ValidName(name)
    ensures ChildOf(dir, name) <==> if dir == "" then !HasParent(name) else HasParent(name) && Parent(name) == dir
  {
    var k := LastSlash(name, |name|);
    if dir == "" {
      if k >= 0 {
        assert name[k] in name;
      } else {
        assert '/' !in name;
      }
    } else {
      if ChildOf(dir, name) {
        ChildSlash(dir, name);
      }
      if HasParent(name) && Parent(name) == dir {
        assert k == |dir| && name[..k] == dir;
        var tail := name[k + 1..];
        assert forall i :: 0 <= i < |tail| ==> tail[i] == name[k + 1 + i];
      }
    }
  }

  lemma ChildSlash(dir: string, name: string)
    requires dir != "" && ChildOf(dir, name)
    ensures HasParent(name) && Parent(name) == dir
  {
    var tail := name[|dir| + 1..];
    assert name[|dir|] == '/';
    forall i | |dir| < i < |name|
      ensures name[i] != '/'
    {
      assert name[i] == tail[i - |dir| - 1];
    }
  }
}
