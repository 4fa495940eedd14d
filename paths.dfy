/** The two `os.path` functions (POSIX flavour) the pipelines use to name files. */
module Paths {

  /** A name with no `/` in it: a single path component. */
  predicate Plain(s: string)
  {
    '/' !in s
  }

  /** `os.path.basename`: everything after the last `/` (the whole string when there is none). */
  function Basename(p: string): (r: string)
    ensures Plain(r) && |r| <= |p|
  {
    if p == [] then []
    else if p[|p| - 1] == '/' then []
    else Basename(p[..|p| - 1]) + [p[|p| - 1]]
  }

  /** The basename is the tail of the path, and it is either the whole path or what follows
      its last `/`. */
  lemma {:induction false} BasenameIsSuffix(p: string)
    ensures var r := Basename(p);
      && p[|p| - |r|..] == r
      && (|r| < |p| ==> p[|p| - |r| - 1] == '/')
    decreases |p|
  {
    if p != [] && p[|p| - 1] != '/' {
      var q := p[..|p| - 1];
      BasenameIsSuffix(q);
      var r := Basename(q);
      assert q[|q| - |r|..] == p[|p| - 1 - |r|..|p| - 1];
      assert p[|p| - 1 - |r|..] == p[|p| - 1 - |r|..|p| - 1] + [p[|p| - 1]];
    }
  }

  /** `os.path.join(a, b)`: `b` alone when it is absolute, `a + b` when `a` is empty or
      already ends in `/`, otherwise `a + "/" + b`. */
  function Join(a: string, b: string): string
  {
    if |b| > 0 && b[0] == '/' then b
    else if a == [] || a[|a| - 1] == '/' then a + b
    else a + "/" + b
  }

  /** The last component of a plain name preceded by a `/` is that name. */
  lemma {:induction false} BasenameAfterSlash(prefix: string, name: string)
    requires Plain(name)
    ensures Basename(prefix + "/" + name) == name
    decreases |name|
  {
    var p := prefix + "/" + name;
    if name == [] {
      assert p[|p| - 1] == '/';
    } else {
      var n := |name| - 1;
      assert p[..|p| - 1] == prefix + "/" + name[..n];
      assert p[|p| - 1] == name[n];
      BasenameAfterSlash(prefix, name[..n]);
      assert name == name[..n] + [name[n]];
    }
  }

  /** A plain name is its own basename. */
  lemma {:induction false} BasenameOfPlain(name: string)
    requires Plain(name)
    ensures Basename(name) == name
    decreases |name|
  {
    if name != [] {
      var n := |name| - 1;
      BasenameOfPlain(name[..n]);
      assert name == name[..n] + [name[n]];
    }
  }

  /** Joining a directory and a plain file name keeps the file name as the basename:
      the round trip `basename(join(dir, basename(url))) == basename(url)` that lets the
      prediction pipeline reuse one name for its input and output files. */
  lemma BasenameOfJoin(dir: string, name: string)
    requires Plain(name)
    ensures Basename(Join(dir, name)) == name
  {
    assert !(|name| > 0 && name[0] == '/') by {
      if |name| > 0 { assert name[0] in name; }
    }
    if dir == [] {
      assert dir + name == name;
      BasenameOfPlain(name);
    } else if dir[|dir| - 1] == '/' {
      var d := dir[..|dir| - 1];
      assert dir + name == d + "/" + name;
      BasenameAfterSlash(d, name);
    } else {
      BasenameAfterSlash(dir, name);
    }
  }
}
