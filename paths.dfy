/** POSIX path names as `os.path` builds and splits them. */
module Paths {

  /** `os.path.join(dir, name)`: a name that begins with `/` replaces the directory;
      otherwise one `/` separates them unless the directory is empty or already ends with one. */
  function JoinPath(dir: string, name: string): string
  {
    if name != [] && name[0] == '/' then name
    else if dir == [] || dir[|dir| - 1] == '/' then dir + name
    else dir + "/" + name
  }

  /** `os.path.basename(path)`: what follows the last `/`. */
  function Basename(path: string): (r: string)
    ensures '/' !in r
    decreases |path|
  {
    if path == [] || path[|path| - 1] == '/' then [] else Basename(path[..|path| - 1]) + [path[|path| - 1]]
  }

  lemma {:induction false} BasenameAfterSlash(p: string, name: string)
    requires p == [] || p[|p| - 1] == '/'
    requires '/' !in name
    ensures Basename(p + name) == name
    decreases |name|
  {
    if name == [] {
      assert p + name == p;
    } else {
      var init := name[..|name| - 1];
      assert (p + name)[..|p + name| - 1] == p + init;
      BasenameAfterSlash(p, init);
      assert name == init + [name[|name| - 1]];
    }
  }

  /** Joining a plain file name to any directory and taking the base name gives the
      file name back. */
  lemma BasenameOfJoin(dir: string, name: string)
    requires '/' !in name
    ensures Basename(JoinPath(dir, name)) == name
  {
    if dir == [] || dir[|dir| - 1] == '/' {
      BasenameAfterSlash(dir, name);
    } else {
      assert dir + "/" + name == (dir + "/") + name;
      BasenameAfterSlash(dir + "/", name);
    }
  }
}
