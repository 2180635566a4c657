/** The POSIX path-string rules the dashboard relies on: `str.endswith`,
    `os.path.basename` and `os.path.join`. */
module Paths {

  /** `str.endswith`: `s` is some text followed by `suffix`. */
  predicate EndsWith(s: string, suffix: string): (r: bool)
    ensures r <==> |suffix| <= |s| && s[..|s| - |suffix|] + suffix == s
  {
    |suffix| <= |s| && s[|s| - |suffix|..] == suffix
  }

  /** `os.path.basename`: the part of `p` after its last '/'. The three
      postconditions determine the result (see BasenameUnique). */
  function Basename(p: string): (b: string)
    ensures |b| <= |p| && b == p[|p| - |b|..]
    ensures '/' !in b
    ensures |b| < |p| ==> p[|p| - |b| - 1] == '/'
    decreases |p|
  {
    if p == [] || p[|p| - 1] == '/' then []
    else
      var init := p[..|p| - 1];
      var b := Basename(init);
      var r := b + [p[|p| - 1]];
      assert r == p[|p| - |r|..] by {
        assert init[|init| - |b|..] + [p[|p| - 1]] == p[|p| - |b| - 1..];
      }
      assert '/' !in r by {
        assert forall k | 0 <= k < |r| :: r[k] == (if k < |b| then b[k] else p[|p| - 1]);
      }
      assert |r| < |p| ==> p[|p| - |r| - 1] == '/' by {
        if |r| < |p| {
          assert p[|p| - |r| - 1] == init[|init| - |b| - 1];
        }
      }
      r
  }

  /** `os.path.join(a, b)` for two components: an absolute `b` replaces
      `a`; otherwise a '/' is inserted unless `a` is empty or already ends
      with one. */
  function Join(a: string, b: string): (p: string)
    ensures b != [] && b[0] == '/' ==> p == b
    ensures (b == [] || b[0] != '/') ==> a <= p && EndsWith(p, b)
  {
    if b != [] && b[0] == '/' then b
    else if a == [] || a[|a| - 1] == '/' then a + b
    else a + "/" + b
  }

  /** Joining a relative component onto a directory that does not end in
      '/' inserts exactly one separator. */
  lemma JoinPlain(a: string, b: string)
    requires a != [] && a[|a| - 1] != '/'
    requires b == [] || b[0] != '/'
    ensures Join(a, b) == a + "/" + b
  {
  }

  /** Whatever follows the last '/' of a path is its basename. */
  lemma BasenameUnique(a: string, b: string)
    requires '/' !in b
    requires a == [] || a[|a| - 1] == '/'
    ensures Basename(a + b) == b
  {
    var p := a + b;
    assert p[|a|..] == b;
  }

  /** Joining a slash-free file name onto any directory yields a path whose
      basename is that file name. */
  lemma BasenameOfJoin(dir: string, file: string)
    requires '/' !in file
    ensures Basename(Join(dir, file)) == file
  {
    if dir == [] || dir[|dir| - 1] == '/' {
      BasenameUnique(dir, file);
    } else {
      assert dir + "/" + file == (dir + "/") + file;
      BasenameUnique(dir + "/", file);
    }
  }

  /** Two distinct directories (non-empty, no trailing '/') give distinct
      paths for the same relative file name. */
  lemma JoinInjective(dir1: string, dir2: string, file: string)
    requires dir1 != [] && dir1[|dir1| - 1] != '/'
    requires dir2 != [] && dir2[|dir2| - 1] != '/'
    requires file == [] || file[0] != '/'
    ensures Join(dir1, file) == Join(dir2, file) <==> dir1 == dir2
  {
    if Join(dir1, file) == Join(dir2, file) {
      var p := Join(dir1, file);
      assert |dir1| == |dir2|;
      assert dir1 == p[..|dir1|] == dir2;
    }
  }
}
