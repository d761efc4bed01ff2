/** The command line's search for cloud-access.yml: walk from the working directory up to
    the root, taking the first directory that holds the file or its example. */
module Cli {
  import opened Wrappers
  import opened Exceptions

  // ---------------------------------------------------------------------------
  // File.dirname and File.join on POSIX paths
  // ---------------------------------------------------------------------------

  /** The end of the run of '/' that starts at index i. */
  function SlashesFrom(p: string, i: nat): (n: nat)
    requires i <= |p|
    ensures i <= n <= |p|
    ensures n > i ==> p[i] == '/' && p[n - 1] == '/'
    ensures n < |p| ==> p[n] != '/'
    decreases |p| - i
  {
    if i < |p| && p[i] == '/' then SlashesFrom(p, i + 1) else i
  }

  /** The number of '/' the path starts with. */
  function Lead(p: string): (n: nat)
    ensures n <= |p|
    ensures n > 0 ==> p[0] == '/' && p[n - 1] == '/'
    ensures n < |p| ==> p[n] != '/'
  {
    SlashesFrom(p, 0)
  }

  /** The end of p[lo..e] once its trailing '/' are dropped. */
  function TrimEnd(p: string, lo: nat, e: nat): (r: nat)
    requires lo <= e <= |p|
    ensures lo <= r <= e
    ensures r > lo ==> p[r - 1] != '/'
  {
    if e > lo && p[e - 1] == '/' then TrimEnd(p, lo, e - 1) else e
  }

  /** The index of the last '/' in p[lo..e], if there is one. */
  function LastSlash(p: string, lo: nat, e: nat): (r: Option<nat>)
    requires lo <= e <= |p|
    ensures r.Some? ==> lo <= r.value < e && p[r.value] == '/'
  {
    if e <= lo then None else if p[e - 1] == '/' then Some(e - 1) else LastSlash(p, lo, e - 1)
  }

  /** Ruby's File.dirname: "." for a name without a directory, "/" at the root; a run of
      leading slashes counts as one, trailing slashes and the slashes before the last
      component are dropped. */
  function DirName(p: string): string
  {
    var lead := Lead(p);
    var start := if lead >= 2 then lead - 1 else 0;
    match LastSlash(p, lead, TrimEnd(p, lead, |p|))
    case None => if lead == 0 then "." else "/"
    case Some(t) => p[start..TrimEnd(p, lead, t)]
  }

  /** A measure the walk up the directories decreases. */
  function Height(p: string): nat
  {
    if p == "." then 0 else |p| + 1
  }

  /** Taking dirname either reaches a fixed point or goes strictly up. */
  lemma DirNameRises(p: string)
    ensures DirName(p) == p || Height(DirName(p)) < Height(p)
  {
    var lead := Lead(p);
    var e := TrimEnd(p, lead, |p|);
    match LastSlash(p, lead, e)
    case None =>
    case Some(t) =>
  }

  /** The only fixed points of dirname are the root and ".". */
  lemma DirNameFixedPoints(p: string)
    ensures DirName(p) == p <==> p == "/" || p == "."
  {
    var lead := Lead(p);
    var e := TrimEnd(p, lead, |p|);
    if p == "/" {
      assert lead == 1 && e == 1;
    } else if p == "." {
      assert lead == 0 && e == 1;
    } else {
      match LastSlash(p, lead, e)
      case None =>
      case Some(t) =>
        assert |DirName(p)| < |p|;
    }
  }

  /** The dirname of an absolute path is absolute. */
  lemma DirNameKeepsRoot(p: string)
    requires p != [] && p[0] == '/'
    ensures DirName(p) != [] && DirName(p)[0] == '/'
  {
    var lead := Lead(p);
    var start := if lead >= 2 then lead - 1 else 0;
    assert p[start] == '/';
    match LastSlash(p, lead, TrimEnd(p, lead, |p|))
    case None =>
    case Some(t) =>
      assert DirName(p)[0] == p[start];
  }

  /** File.join of a directory and a plain file name: one '/' between them. */
  function JoinPath(dir: string, name: string): (r: string)
    requires name != [] && name[0] != '/'
    ensures dir != [] && dir[|dir| - 1] == '/' ==> r == dir + name
    ensures (dir == [] || dir[|dir| - 1] != '/') ==> r == dir + "/" + name
  {
    if dir != [] && dir[|dir| - 1] == '/' then dir + name else dir + "/" + name
  }

  /** The joined path ends with the file name, after a '/'. */
  lemma JoinPathEndsWithName(dir: string, name: string)
    requires name != [] && name[0] != '/'
    ensures var r := JoinPath(dir, name);
      |r| > |name| && r[|r| - |name|..] == name && r[|r| - |name| - 1] == '/'
  {
    var r := JoinPath(dir, name);
    if dir != [] && dir[|dir| - 1] == '/' {
      assert r[|dir|..] == name;
    } else {
      assert r == (dir + "/") + name;
      assert r[|dir| + 1..] == name;
    }
  }

  // ---------------------------------------------------------------------------
  // each_parent_directory_of
  // ---------------------------------------------------------------------------

  /** The directories the walk yields from `path`: the path itself, then dirname after dirname,
      stopping once dirname gives back the directory just yielded. */
  function Ancestors(path: string): (r: seq<string>)
    ensures r != [] && r[0] == path
    decreases Height(path)
  {
    DirNameRises(path);
    if DirName(path) == path then [path] else [path] + Ancestors(DirName(path))
  }

  /** Each directory after the first is the dirname of the one before; the last one is its own
      dirname and no earlier one is. */
  lemma {:induction false} AncestorsChain(path: string)
    ensures var a := Ancestors(path);
      (forall i :: 0 < i < |a| ==> a[i] == DirName(a[i - 1])) &&
      DirName(a[|a| - 1]) == a[|a| - 1] &&
      (forall i :: 0 <= i < |a| - 1 ==> DirName(a[i]) != a[i])
    decreases Height(path)
  {
    DirNameRises(path);
    if DirName(path) != path {
      AncestorsChain(DirName(path));
      var a := Ancestors(path);
      assert a[1..] == Ancestors(DirName(path));
    }
  }

  /** Every directory the walk yields from an absolute path is absolute. */
  lemma {:induction false} AncestorsAbsolute(path: string)
    requires path != [] && path[0] == '/'
    ensures var a := Ancestors(path); forall i :: 0 <= i < |a| ==> a[i] != [] && a[i][0] == '/'
    decreases Height(path)
  {
    var d := DirName(path);
    DirNameRises(path);
    AncestorsUnfold(path);
    if d != path {
      DirNameKeepsRoot(path);
      AncestorsAbsolute(d);
      AbsoluteCons(path, Ancestors(d));
    }
  }

  lemma AbsoluteCons(p: string, b: seq<string>)
    requires p != [] && p[0] == '/'
    requires forall i :: 0 <= i < |b| ==> b[i] != [] && b[i][0] == '/'
    ensures var a := [p] + b; forall i :: 0 <= i < |a| ==> a[i] != [] && a[i][0] == '/'
  {
    assert forall i :: 1 <= i < |b| + 1 ==> ([p] + b)[i] == b[i - 1];
  }

  /** From an absolute directory the walk ends at the root, which it yields exactly once. */
  lemma AncestorsReachRoot(path: string)
    requires path != [] && path[0] == '/'
    ensures var a := Ancestors(path);
      a[|a| - 1] == "/" && forall i :: 0 <= i < |a| - 1 ==> a[i] != "/"
  {
    var a := Ancestors(path);
    AncestorsChain(path);
    AncestorsAbsolute(path);
    DirNameFixedPoints(a[|a| - 1]);
    DirNameFixedPoints("/");
  }

  lemma AncestorsUnfold(path: string)
    ensures Ancestors(path) == if DirName(path) == path then [path] else [path] + Ancestors(DirName(path))
  {
  }

  /** The loop of each_parent_directory_of, recording what it yields. */
  method EachParentDirectoryOf(path: string) returns (yielded: seq<string>)
    ensures yielded == Ancestors(path)
  {
    yielded := [];
    var prev: Option<string> := None;
    var directory := path;
    while prev != Some(directory)
      invariant prev.Some? ==> directory == DirName(prev.value)
      invariant yielded + (if prev == Some(directory) then [] else Ancestors(directory)) == Ancestors(path)
      decreases if prev == Some(directory) then 0 else Height(directory) + 1
    {
      DirNameRises(directory);
      WalkStep(yielded, directory, path);
      yielded := yielded + [directory];
      prev, directory := Some(directory), DirName(directory);
    }
  }

  lemma WalkStep(yielded: seq<string>, d: string, path: string)
    requires yielded + Ancestors(d) == Ancestors(path)
    ensures (yielded + [d]) + (if DirName(d) == d then [] else Ancestors(DirName(d))) == Ancestors(path)
  {
    assert Ancestors(d) == [d] + if DirName(d) == d then [] else Ancestors(DirName(d));
  }

  // ---------------------------------------------------------------------------
  // find_access_file
  // ---------------------------------------------------------------------------

  const AccessFile := "cloud-access.yml"
  const ExampleFile := "cloud-access.yml.example"

  const PleaseCopy := RuntimeError("Please copy cloud-access.yml.example into cloud-access.yml and fill in the keys.")
  const CannotFind := RuntimeError("Cannot find cloud-access.yml. Please run from a project directory, or use -A option to specify a location. See jecloud --help.")

  /** The directory holds cloud-access.yml or its example; `files` is what File.file? accepts. */
  predicate Holds(dir: string, files: set<string>)
  {
    JoinPath(dir, AccessFile) in files || JoinPath(dir, ExampleFile) in files
  }

  /** What the block of find_access_file decides along the directories, in order. */
  function Search(dirs: seq<string>, files: set<string>): Result<string, Exception>
  {
    if dirs == [] then Failure(CannotFind)
    else if JoinPath(dirs[0], AccessFile) in files then Success(JoinPath(dirs[0], AccessFile))
    else if JoinPath(dirs[0], ExampleFile) in files then Failure(PleaseCopy)
    else Search(dirs[1..], files)
  }

  /** find_access_file from the working directory `pwd`. */
  method FindAccessFile(pwd: string, files: set<string>) returns (r: Result<string, Exception>)
    ensures r == Search(Ancestors(pwd), files)
  {
    var dirs := EachParentDirectoryOf(pwd);
    var i := 0;
    while i < |dirs|
      invariant 0 <= i <= |dirs|
      invariant Search(dirs[i..], files) == Search(dirs, files)
    {
      assert dirs[i..][1..] == dirs[i + 1..];
      var possible := JoinPath(dirs[i], AccessFile);
      if possible in files {
        return Success(possible);
      }
      possible := JoinPath(dirs[i], ExampleFile);
      if possible in files {
        return Failure(PleaseCopy);
      }
      i := i + 1;
    }
    return Failure(CannotFind);
  }

  /** The search settles at the nearest directory that holds either file: the file found there
      when it holds cloud-access.yml, the "Please copy" error when it holds only the example,
      and "Cannot find" when no directory holds either. */
  lemma {:induction false} SearchFindsNearest(dirs: seq<string>, files: set<string>)
    ensures (forall i :: 0 <= i < |dirs| ==> !Holds(dirs[i], files)) ==> Search(dirs, files) == Failure(CannotFind)
    ensures forall i :: 0 <= i < |dirs| && Holds(dirs[i], files) && (forall j :: 0 <= j < i ==> !Holds(dirs[j], files)) ==>
      Search(dirs, files) ==
        if JoinPath(dirs[i], AccessFile) in files then Success(JoinPath(dirs[i], AccessFile)) else Failure(PleaseCopy)
  {
    if forall i :: 0 <= i < |dirs| ==> !Holds(dirs[i], files) {
      SearchNoneHolds(dirs, files);
    }
    forall i | 0 <= i < |dirs| && Holds(dirs[i], files) && (forall j :: 0 <= j < i ==> !Holds(dirs[j], files))
      ensures Search(dirs, files) ==
        if JoinPath(dirs[i], AccessFile) in files then Success(JoinPath(dirs[i], AccessFile)) else Failure(PleaseCopy)
    {
      SearchStopsAt(dirs, files, i);
    }
  }

  /** No directory on the walk holds either file: nothing is found. */
  lemma {:induction false} SearchNoneHolds(dirs: seq<string>, files: set<string>)
    requires forall i :: 0 <= i < |dirs| ==> !Holds(dirs[i], files)
    ensures Search(dirs, files) == Failure(CannotFind)
  {
    if dirs != [] {
      assert !Holds(dirs[0], files);
      assert forall i :: 0 <= i < |dirs[1..]| ==> dirs[1..][i] == dirs[i + 1];
      SearchNoneHolds(dirs[1..], files);
    }
  }

  /** The first directory holding either file decides the search. */
  lemma {:induction false} SearchStopsAt(dirs: seq<string>, files: set<string>, i: nat)
    requires i < |dirs| && Holds(dirs[i], files)
    requires forall j :: 0 <= j < i ==> !Holds(dirs[j], files)
    ensures Search(dirs, files) ==
      if JoinPath(dirs[i], AccessFile) in files then Success(JoinPath(dirs[i], AccessFile)) else Failure(PleaseCopy)
  {
    if i > 0 {
      assert !Holds(dirs[0], files);
      assert dirs[1..][i - 1] == dirs[i];
      assert forall j :: 0 <= j < i - 1 ==> dirs[1..][j] == dirs[j + 1];
      SearchStopsAt(dirs[1..], files, i - 1);
    }
  }

  /** The search never reports anything but the three outcomes, and a file it returns is a
      cloud-access.yml that exists in one of the directories. */
  lemma {:induction false} SearchOutcomes(dirs: seq<string>, files: set<string>)
    ensures var r := Search(dirs, files);
      r == Failure(CannotFind) || r == Failure(PleaseCopy) ||
      (r.Success? && r.value in files && exists i :: 0 <= i < |dirs| && r.value == JoinPath(dirs[i], AccessFile))
  {
    if dirs != [] && !Holds(dirs[0], files) {
      SearchOutcomes(dirs[1..], files);
      var r := Search(dirs[1..], files);
      if r.Success? {
        var i :| 0 <= i < |dirs[1..]| && r.value == JoinPath(dirs[1..][i], AccessFile);
        assert r.value == JoinPath(dirs[i + 1], AccessFile);
      }
    } else if dirs != [] && JoinPath(dirs[0], AccessFile) in files {
      assert Search(dirs, files).value == JoinPath(dirs[0], AccessFile);
    }
  }

  /** The walk from "/a/b": the directory itself, its parent, the root. */
  lemma WalkFromTwoLevels()
    ensures Ancestors("/a/b") == ["/a/b", "/a", "/"]
  {
    var p: string := "/a/b";
    assert Lead(p) == 1;
    assert TrimEnd(p, 1, 4) == 4;
    assert LastSlash(p, 1, 4) == Some(2);
    assert TrimEnd(p, 1, 2) == 2;
    assert DirName(p) == "/a";
    var q: string := "/a";
    assert Lead(q) == 1;
    assert LastSlash(q, 1, 2) == None;
    assert DirName(q) == "/";
    DirNameFixedPoints("/");
  }
}
