/** `os.path.basename` on a POSIX path: what follows the last `/`. */
module PyPath {

  /** The longest suffix of `path` without a `/`. */
  function Basename(path: string): (r: string)
    ensures |r| <= |path| && r == path[|path| - |r|..]
    ensures '/' !in r
    ensures |r| < |path| ==> path[|path| - |r| - 1] == '/'
  {
    if path == [] || path[|path| - 1] == '/' then ""
    else
      var r := Basename(path[..|path| - 1]) + [path[|path| - 1]];
      assert path[..|path| - 1][|path| - |r|..] == path[|path| - |r|..|path| - 1];
      r
  }

  /** A file name placed in a directory keeps its name. */
  lemma {:induction false} BasenameOfJoin(dir: string, name: string)
    requires '/' !in name
    ensures Basename(dir + "/" + name) == name
    decreases |name|
  {
    var p := dir + "/" + name;
    if name != [] {
      var init := name[..|name| - 1];
      assert p[..|p| - 1] == dir + "/" + init;
      assert '/' !in init by { assert forall c | c in init :: c in name; }
      BasenameOfJoin(dir, init);
      assert name == init + [name[|name| - 1]];
    }
  }
}
