/** `discover_scripts` (app.py:80-100): turn a directory walk of
    `SCRIPTS_DIR` into the list of runnable scripts. `os.walk` and
    `os.path.exists` are inputs: each directory the walk visits is given
    with its path relative to `SCRIPTS_DIR`, the names of the files in it,
    and whether it holds a `requirements.txt`. */
module Discovery {
  import opened Common
  import opened Paths

  /** One `(root, dirs, files)` triple of `os.walk`, with
      `os.path.relpath(root, SCRIPTS_DIR)` and the existence of
      `root/requirements.txt` alongside. */
  datatype WalkEntry = WalkEntry(root: string, relPath: string, files: seq<string>, hasRequirements: bool)

  /** One element of the list that `discover_scripts` returns. */
  datatype Script = Script(name: string, path: string, folder: Option<string>, hasRequirements: bool, running: bool)

  /** A file is a script when its name ends with ".py". */
  predicate IsPyFile(file: string) {
    EndsWith(file, ".py")
  }

  /** The walk's starting directory itself (relative path "."). */
  predicate IsTopLevel(e: WalkEntry) {
    e.relPath == "."
  }

  /** What `os.walk(SCRIPTS_DIR)` guarantees of each triple: the relative
      path is "." exactly for `SCRIPTS_DIR` itself, and file names contain
      no '/'. */
  predicate WellFormedEntry(e: WalkEntry) {
    && (IsTopLevel(e) <==> e.root == ScriptsDir)
    && forall k | 0 <= k < |e.files| :: '/' !in e.files[k]
  }

  /** The record discovery builds for `file` found in directory `e`. Of a
      well-formed entry: the script has a folder exactly when it does not sit
      in `SCRIPTS_DIR` itself, its path is the file joined onto the
      directory, and its name is that file name, preceded by the basename of
      its folder and a '/' when it has one. It carries the directory's
      requirements flag and is listed as not running. */
  function Describe(e: WalkEntry, file: string): (s: Script)
    ensures !s.running
    ensures s.path == Join(e.root, file)
    ensures s.hasRequirements == e.hasRequirements
    ensures s.folder.Some? ==> s.folder.value == e.root
    ensures WellFormedEntry(e) ==> (s.folder.None? <==> e.root == ScriptsDir)
    ensures '/' !in file ==> Basename(s.path) == file
    ensures '/' !in file && s.folder.None? ==> s.name == Basename(s.path)
    ensures '/' !in file && s.folder.Some? ==> s.name == Basename(s.folder.value) + "/" + Basename(s.path)
  {
    var s := Script(
      name := if IsTopLevel(e) then file else Basename(e.root) + "/" + file,
      path := Join(e.root, file),
      folder := if IsTopLevel(e) then None else Some(e.root),
      hasRequirements := e.hasRequirements,
      running := false);
    if '/' !in file then BasenameOfJoin(e.root, file); s else s
  }

  /** The scripts found among `files` of directory `e`, in listing order. */
  function ScriptsIn(e: WalkEntry, files: seq<string>): (r: seq<Script>)
    ensures |r| <= |files|
    ensures forall k | 0 <= k < |r| :: !r[k].running
    decreases |files|
  {
    if files == [] then []
    else
      var file := files[|files| - 1];
      ScriptsIn(e, files[..|files| - 1]) + (if IsPyFile(file) then [Describe(e, file)] else [])
  }

  /** The whole result of discovery: the scripts of each visited directory,
      in walk order. */
  function Discovered(walk: seq<WalkEntry>): (r: seq<Script>)
    ensures forall k | 0 <= k < |r| :: !r[k].running
    decreases |walk|
  {
    if walk == [] then []
    else Discovered(walk[..|walk| - 1]) + ScriptsIn(walk[|walk| - 1], walk[|walk| - 1].files)
  }

  /** Listing one more file of a directory. */
  lemma ScriptsInSnoc(e: WalkEntry, files: seq<string>, j: nat)
    requires j < |files|
    ensures ScriptsIn(e, files[..j + 1])
      == ScriptsIn(e, files[..j]) + (if IsPyFile(files[j]) then [Describe(e, files[j])] else [])
  {
    assert files[..j + 1][..j] == files[..j];
  }

  /** Listing one more directory of the walk. */
  lemma DiscoveredSnoc(walk: seq<WalkEntry>, i: nat)
    requires i < |walk|
    ensures Discovered(walk[..i + 1]) == Discovered(walk[..i]) + ScriptsIn(walk[i], walk[i].files)
  {
    assert walk[..i + 1][..i] == walk[..i];
  }

  /** `discover_scripts`: the two nested loops over the walk and its files,
      appending one record per `.py` file. */
  method Discover(walk: seq<WalkEntry>) returns (scripts: seq<Script>)
    ensures scripts == Discovered(walk)
  {
    scripts := [];
    for i := 0 to |walk|
      invariant scripts == Discovered(walk[..i])
    {
      var e := walk[i];
      ghost var before := scripts;
      for j := 0 to |e.files|
        invariant scripts == before + ScriptsIn(e, e.files[..j])
      {
        var file := e.files[j];
        ScriptsInSnoc(e, e.files, j);
        if IsPyFile(file) {
          scripts := scripts + [Describe(e, file)];
        }
      }
      assert e.files[..|e.files|] == e.files;
      DiscoveredSnoc(walk, i);
    }
    assert walk[..|walk|] == walk;
  }

  /** Every script of a directory comes from one of its `.py` files. */
  lemma {:induction false} ScriptsInSound(e: WalkEntry, files: seq<string>, k: nat)
    requires k < |ScriptsIn(e, files)|
    ensures exists j | 0 <= j < |files| :: IsPyFile(files[j]) && ScriptsIn(e, files)[k] == Describe(e, files[j])
    decreases |files|
  {
    var init := files[..|files| - 1];
    if k < |ScriptsIn(e, init)| {
      ScriptsInSound(e, init, k);
      var j :| 0 <= j < |init| && IsPyFile(init[j]) && ScriptsIn(e, init)[k] == Describe(e, init[j]);
      assert files[j] == init[j];
    } else {
      assert IsPyFile(files[|files| - 1]);
    }
  }

  /** Every `.py` file of a directory yields its script. */
  lemma {:induction false} ScriptsInComplete(e: WalkEntry, files: seq<string>, j: nat)
    requires j < |files| && IsPyFile(files[j])
    ensures Describe(e, files[j]) in ScriptsIn(e, files)
    decreases |files|
  {
    if j < |files| - 1 {
      var init := files[..|files| - 1];
      assert init[j] == files[j];
      ScriptsInComplete(e, init, j);
    }
  }

  /** Discovery lists nothing but `.py` files found by the walk. */
  lemma {:induction false} DiscoveredSound(walk: seq<WalkEntry>, k: nat)
    requires k < |Discovered(walk)|
    ensures exists i, j | 0 <= i < |walk| && 0 <= j < |walk[i].files| ::
      IsPyFile(walk[i].files[j]) && Discovered(walk)[k] == Describe(walk[i], walk[i].files[j])
    decreases |walk|
  {
    var init := walk[..|walk| - 1];
    var last := walk[|walk| - 1];
    if k < |Discovered(init)| {
      DiscoveredSound(init, k);
      var i, j :| 0 <= i < |init| && 0 <= j < |init[i].files|
        && IsPyFile(init[i].files[j]) && Discovered(init)[k] == Describe(init[i], init[i].files[j]);
      assert walk[i] == init[i];
    } else {
      ScriptsInSound(last, last.files, k - |Discovered(init)|);
      var j :| 0 <= j < |last.files| && IsPyFile(last.files[j])
        && ScriptsIn(last, last.files)[k - |Discovered(init)|] == Describe(last, last.files[j]);
      assert walk[|walk| - 1] == last;
    }
  }

  /** Discovery lists every `.py` file the walk found. */
  lemma {:induction false} DiscoveredComplete(walk: seq<WalkEntry>, i: nat, j: nat)
    requires i < |walk| && j < |walk[i].files| && IsPyFile(walk[i].files[j])
    ensures Describe(walk[i], walk[i].files[j]) in Discovered(walk)
    decreases |walk|
  {
    var init := walk[..|walk| - 1];
    if i < |walk| - 1 {
      assert init[i] == walk[i];
      DiscoveredComplete(init, i, j);
    } else {
      ScriptsInComplete(walk[i], walk[i].files, j);
    }
  }

  /** Names are not unique: two nested directories with the same basename
      give the same name to files of the same name, although the scripts
      have different paths and folders. */
  lemma NestedNamesCollide(e1: WalkEntry, e2: WalkEntry, file: string)
    requires !IsTopLevel(e1) && !IsTopLevel(e2)
    requires Basename(e1.root) == Basename(e2.root)
    requires e1.root != e2.root
    requires e1.root != [] && e1.root[|e1.root| - 1] != '/'
    requires e2.root != [] && e2.root[|e2.root| - 1] != '/'
    requires file == [] || file[0] != '/'
    ensures Describe(e1, file).name == Describe(e2, file).name
    ensures Describe(e1, file).path != Describe(e2, file).path
    ensures Describe(e1, file).folder != Describe(e2, file).folder
  {
    JoinInjective(e1.root, e2.root, file);
  }

  /** Two directories holding one file each are listed in walk order. */
  lemma DiscoveredPair(e1: WalkEntry, e2: WalkEntry, file: string)
    requires IsPyFile(file) && e1.files == [file] && e2.files == [file]
    ensures Discovered([e1, e2]) == [Describe(e1, file), Describe(e2, file)]
  {
    assert ScriptsIn(e1, e1.files) == [Describe(e1, file)];
    assert ScriptsIn(e2, e2.files) == [Describe(e2, file)];
    var w := [e1, e2];
    assert w[..1] == [e1] && [e1][..0] == [];
    assert Discovered([e1]) == Discovered([]) + ScriptsIn(e1, e1.files);
    assert Discovered(w) == Discovered([e1]) + ScriptsIn(e2, e2.files);
  }

  /** The collision as the listing shows it: the same sub-directory name
      under two different parents (`/scripts/a/tools` and `/scripts/b/tools`)
      yields two entries with one name, `tools/run.py`, but two paths. */
  lemma ListingCollision(parent1: string, parent2: string, dir: string, file: string, rel1: string, rel2: string)
    requires parent1 != parent2
    requires parent1 != [] && parent1[|parent1| - 1] != '/'
    requires parent2 != [] && parent2[|parent2| - 1] != '/'
    requires dir != [] && '/' !in dir
    requires IsPyFile(file) && '/' !in file
    requires rel1 != "." && rel2 != "."
    ensures var d := Discovered([
        WalkEntry(Join(parent1, dir), rel1, [file], false),
        WalkEntry(Join(parent2, dir), rel2, [file], false)]);
      && |d| == 2
      && d[0].name == d[1].name == dir + "/" + file
      && d[0].path != d[1].path
  {
    var e1 := WalkEntry(Join(parent1, dir), rel1, [file], false);
    var e2 := WalkEntry(Join(parent2, dir), rel2, [file], false);
    DiscoveredPair(e1, e2, file);
    BasenameOfJoin(parent1, dir);
    BasenameOfJoin(parent2, dir);
    JoinInjective(parent1, parent2, dir);
    assert e1.root[|e1.root| - 1] == dir[|dir| - 1];
    assert e2.root[|e2.root| - 1] == dir[|dir| - 1];
    if file != [] {
      assert file[0] in file;
    }
    NestedNamesCollide(e1, e2, file);
  }
}
