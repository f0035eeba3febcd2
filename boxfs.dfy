/**
  The BoxFS virtual directory tree: file paths mapped to real target paths, with
  the directories derived from the paths of the files added to it.

  The pure part (path normalisation and the effect of `add_dir` and `add_file`
  on the directory list and the directory listings) is given as functions on
  values; the class `BoxFS` holds the four mutable fields and its methods are
  proved to update them exactly as those functions say.
 */
module Boxfs {
  import opened Posix

  datatype Option<T> = None | Some(value: T)

  predicate NoDup<T(==)>(s: seq<T>)
  {
    forall i, j :: 0 <= i < j < |s| ==> s[i] != s[j]
  }

  /**
    `normalise_path`: "" and "/" become the root "/"; otherwise exactly one
    leading slash is dropped. The result is never empty, it is the root only
    for "", "/" and "//", and otherwise it is the argument with exactly one
    slash taken off its front if it has one, and the argument itself if not.
   */
  function NormalisePath(path: string): (r: string)
    ensures r != ""
    ensures r == "/" <==> path == "" || path == "/" || path == "//"
    ensures path != "" && path[0] == '/' && r != "/" ==> r == path[1..]
    ensures path != "" && path[0] != '/' ==> r == path
  {
    if path == "" || path == "/" then "/"
    else if path[0] == '/' then path[1..]
    else path
  }

  /** A relative path is its own normal form; one leading slash does not matter. */
  lemma NormaliseRelative(p: string)
    requires IsRelative(p)
    ensures NormalisePath(p) == p
    ensures NormalisePath("/" + p) == p
  {
  }

  /**
    The `while dirpath:` loop of `add_dir` ends exactly when the normalised
    path does not begin with a slash: repeated dirname then shrinks it to "".
    From "/" (the normal form of "" and "/") or any "/x" it never leaves "/".
   */
  predicate AddDirHalts(path: string)
  {
    NormalisePath(path)[0] != '/'
  }

  /** `add_file` calls `add_dir` on the dirname, when that is not empty. */
  predicate AddFileHalts(path: string)
  {
    Dirname(path) == "" || AddDirHalts(Dirname(path))
  }

  /**
    The successive values of `dirpath` in the `add_dir` loop: `d`, its dirname,
    the dirname of that, and so on, down to (and without) "". Each is relative,
    and the first is `d`.
   */
  ghost function Ancestors(d: string): (r: seq<string>)
    requires d == "" || IsRelative(d)
    ensures d != "" ==> r != [] && r[0] == d
    ensures forall a :: a in r ==> IsRelative(a) && |a| <= |d|
    decreases |d|
  {
    if d == "" then []
    else
      DirnameOfRelative(d);
      [d] + Ancestors(Dirname(d))
  }

  /** The ancestors are closed under dirname: the walk stops only at "". */
  lemma {:induction false} AncestorsClosed(d: string, a: string)
    requires d == "" || IsRelative(d)
    requires a in Ancestors(d)
    ensures Dirname(a) == "" || Dirname(a) in Ancestors(d)
    decreases |d|
  {
    DirnameOfRelative(d);
    if a != d {
      AncestorsClosed(Dirname(d), a);
    }
  }

  /** The listing `dircontents[k]`, or the empty listing when `k` has none. */
  function Lookup(dc: map<string, seq<string>>, k: string): seq<string>
  {
    if k in dc then dc[k] else []
  }

  /**
    Appending `x` to a listing unless it is already there: the result extends
    the listing by at most one entry and contains `x`.
   */
  function AddOnce(s: seq<string>, x: string): (r: seq<string>)
    ensures s <= r && |r| <= |s| + 1 && x in r
    ensures x in s ==> r == s
    ensures NoDup(s) ==> NoDup(r)
  {
    if x in s then s else s + [x]
  }

  /**
    The `try: if x not in dc[k]: dc[k].append(x) except KeyError: dc[k] = [x]`
    update shared by `add_dir` and `add_file`: it creates the listing of `k`
    when missing, lists `x` under `k` at most once and touches no other key.
   */
  function AddChildOnce(dc: map<string, seq<string>>, k: string, x: string): (r: map<string, seq<string>>)
    ensures r.Keys == dc.Keys + {k}
    ensures Lookup(dc, k) <= r[k] && |r[k]| <= |Lookup(dc, k)| + 1 && x in r[k]
    ensures x in Lookup(dc, k) ==> r[k] == Lookup(dc, k)
    ensures forall j :: j in dc && j != k ==> r[j] == dc[j]
  {
    dc[k := AddOnce(Lookup(dc, k), x)]
  }

  /**
    What the `add_dir` loop does to `dirs`: each value of `dirpath` is appended
    unless already present (line 25).
   */
  function AddDirsLoop(dirs: seq<string>, dirpath: string): (r: seq<string>)
    requires dirpath == "" || IsRelative(dirpath)
    ensures dirs <= r
    ensures dirpath != "" ==> dirpath in r
    decreases |dirpath|
  {
    if dirpath == "" then dirs
    else
      DirnameOfRelative(dirpath);
      var next := if dirpath in dirs then dirs else dirs + [dirpath];
      assert dirpath in next;
      AddDirsLoop(next, Dirname(dirpath))
  }

  /**
    The `add_dir` loop keeps the old list as a prefix, leaves it holding exactly
    the old entries and the ancestors of the path, and adds no duplicate.
   */
  lemma {:induction false} AddDirsLoopSpec(dirs: seq<string>, dirpath: string)
    requires dirpath == "" || IsRelative(dirpath)
    ensures dirs <= AddDirsLoop(dirs, dirpath)
    ensures forall d :: d in AddDirsLoop(dirs, dirpath) <==> d in dirs || d in Ancestors(dirpath)
    ensures NoDup(dirs) ==> NoDup(AddDirsLoop(dirs, dirpath))
    decreases |dirpath|
  {
    if dirpath != "" {
      DirnameOfRelative(dirpath);
      var next := AddOnce(dirs, dirpath);
      assert AddDirsLoop(dirs, dirpath) == AddDirsLoop(next, Dirname(dirpath));
      assert Ancestors(dirpath) == [dirpath] + Ancestors(Dirname(dirpath));
      AddDirsLoopSpec(next, Dirname(dirpath));
    }
  }

  /**
    What the `add_dir` loop does to `dircontents` (lines 27-35): after `dirpath`
    steps up to its dirname, a non-empty dirname is listed under itself, once,
    since line 27 assigns that same dirname to `basename`.
   */
  function ContentsLoop(dc: map<string, seq<string>>, dirpath: string): (r: map<string, seq<string>>)
    requires dirpath == "" || IsRelative(dirpath)
    ensures dc.Keys <= r.Keys
    decreases |dirpath|
  {
    if dirpath == "" then dc
    else
      DirnameOfRelative(dirpath);
      var parent := Dirname(dirpath);
      if parent == "" then dc
      else ContentsLoop(AddChildOnce(dc, parent, parent), parent)
  }

  /**
    The `add_dir` loop lists every proper ancestor `k` of the path under
    `dircontents[k]` itself (at most once, creating the listing if needed) and
    leaves every other key as it was.
   */
  lemma {:induction false} ContentsLoopSpec(dc: map<string, seq<string>>, dirpath: string)
    requires dirpath == "" || IsRelative(dirpath)
    ensures Dirname(dirpath) == "" || IsRelative(Dirname(dirpath))
    ensures forall k :: k in ContentsLoop(dc, dirpath) <==> k in dc || k in Ancestors(Dirname(dirpath))
    ensures forall k :: k in dc && k !in Ancestors(Dirname(dirpath)) ==> ContentsLoop(dc, dirpath)[k] == dc[k]
    ensures forall k :: k in Ancestors(Dirname(dirpath)) ==> ContentsLoop(dc, dirpath)[k] == AddOnce(Lookup(dc, k), k)
    decreases |dirpath|
  {
    if dirpath != "" {
      DirnameOfRelative(dirpath);
      var parent := Dirname(dirpath);
      if parent != "" {
        DirnameOfRelative(parent);
        var dc' := AddChildOnce(dc, parent, parent);
        var r := ContentsLoop(dc', parent);
        assert r == ContentsLoop(dc, dirpath);
        var up := Ancestors(Dirname(parent));
        assert Ancestors(parent) == [parent] + up;
        ContentsLoopSpec(dc', parent);
        assert parent !in up;
        forall k | k in Ancestors(parent) ensures r[k] == AddOnce(Lookup(dc, k), k) {
          if k != parent {
            assert Lookup(dc', k) == Lookup(dc, k);
          }
        }
      }
    }
  }

  /**
    The whole effect of `add_dir(path)` on `dircontents`: the loop, then line 36,
    which appends the first segment of the UN-normalised `path` to the root
    listing.
   */
  function AddDirContents(dc: map<string, seq<string>>, path: string): (r: map<string, seq<string>>)
    requires "/" in dc && AddDirHalts(path)
    ensures dc.Keys <= r.Keys
    ensures "/" in r && r["/"] != [] && r["/"][|r["/"]| - 1] == FirstSegment(path)
  {
    ContentsLoopSpec(dc, NormalisePath(path));
    var lc := ContentsLoop(dc, NormalisePath(path));
    lc["/" := lc["/"] + [FirstSegment(path)]]
  }

  /**
    Line 36 appends to the root listing unconditionally (so a name may be listed
    there twice); the loop never touches the root listing.
   */
  lemma AddDirRootListing(dc: map<string, seq<string>>, path: string)
    requires "/" in dc && AddDirHalts(path)
    ensures "/" in AddDirContents(dc, path)
    ensures AddDirContents(dc, path)["/"] == dc["/"] + [FirstSegment(path)]
  {
    ContentsLoopSpec(dc, NormalisePath(path));
    assert "/" !in Ancestors(Dirname(NormalisePath(path)));
  }

  /** The effect of `add_file(path, _)` on `dirs`: that of `add_dir(dirname(path))`, if any. */
  function AddFileDirs(dirs: seq<string>, path: string): (r: seq<string>)
    requires AddFileHalts(path)
    ensures dirs <= r
    ensures Dirname(path) != "" ==> NormalisePath(Dirname(path)) in r
  {
    if Dirname(path) == "" then dirs else AddDirsLoop(dirs, NormalisePath(Dirname(path)))
  }

  /**
    The listing `add_file` adds to (lines 47-49): the root and the whole `path`
    for a top-level file, else the dirname and the basename.
   */
  function ParentEntry(path: string): (r: (string, string))
    ensures r.0 != "" && r.1 == Basename(path)
  {
    if Dirname(path) == "" then ("/", path) else (Dirname(path), Basename(path))
  }

  /** For a well-formed nested path, the key, "/" and the name give the path back. */
  lemma ParentEntryJoins(path: string)
    requires WellFormed(path) && Dirname(path) != ""
    ensures ParentEntry(path).0 != "/"
    ensures path == ParentEntry(path).0 + "/" + ParentEntry(path).1
  {
    DirnameBasenameSplit(path);
  }

  /** The effect of `add_file(path, _)` on `dircontents`. */
  function AddFileContents(dc: map<string, seq<string>>, path: string): (r: map<string, seq<string>>)
    requires "/" in dc && AddFileHalts(path)
    ensures dc.Keys <= r.Keys
    ensures ParentEntry(path).0 in r && ParentEntry(path).1 in r[ParentEntry(path).0]
  {
    var dc1 := if Dirname(path) != "" then AddDirContents(dc, Dirname(path)) else dc;
    AddChildOnce(dc1, ParentEntry(path).0, ParentEntry(path).1)
  }

  /**
    What every reachable state satisfies about `dirs`: the root is first, no
    directory is registered twice, and every other directory is relative and
    has its dirname (if any) registered too.
   */
  ghost predicate DirListInv(dirs: seq<string>)
  {
    && dirs != [] && dirs[0] == "/"
    && NoDup(dirs)
    && (forall d :: d in dirs && d != "/" ==> IsRelative(d))
    && forall d {:trigger Dirname(d)} :: d in dirs && d != "/" ==> Dirname(d) == "" || Dirname(d) in dirs
  }

  /**
    What every reachable state satisfies about `dircontents`: the root has a
    listing, every key names a directory once normalised, and only the root
    listing may hold duplicates (line 36 appends to it unguarded).
   */
  ghost predicate ListingsInv(dirs: seq<string>, dc: map<string, seq<string>>)
  {
    && "/" in dc
    && (forall k :: k in dc ==> NormalisePath(k) in dirs)
    && (forall k :: k in dc && k != "/" ==> NoDup(dc[k]))
  }

  ghost predicate DirsInv(dirs: seq<string>, dc: map<string, seq<string>>)
  {
    DirListInv(dirs) && ListingsInv(dirs, dc)
  }

  /**
    What every reachable state satisfies about `files` and `targets`: the parent
    of every file is a directory once normalised, and the files are exactly the
    keys of `targets`.
   */
  ghost predicate FilesInv(dirs: seq<string>, files: seq<string>, targets: map<string, string>)
  {
    && (forall f :: f in files ==> NormalisePath(Dirname(f)) in dirs)
    && (forall f :: f in targets <==> f in files)
  }

  /** Registering more directories keeps the facts about files. */
  lemma FilesInvGrows(dirs: seq<string>, dirs': seq<string>, files: seq<string>, targets: map<string, string>)
    requires dirs <= dirs' && FilesInv(dirs, files, targets)
    ensures FilesInv(dirs', files, targets)
  {
  }

  /** Registering more directories keeps the facts about listings. */
  lemma ListingsInvGrows(dirs: seq<string>, dirs': seq<string>, dc: map<string, seq<string>>)
    requires dirs <= dirs' && ListingsInv(dirs, dc)
    ensures ListingsInv(dirs', dc)
  {
  }

  /** The `add_dir` loop keeps the invariant of `dirs`. */
  lemma AddDirsLoopKeepsInv(dirs: seq<string>, n: string)
    requires DirListInv(dirs) && IsRelative(n)
    ensures DirListInv(AddDirsLoop(dirs, n))
  {
    var dirs' := AddDirsLoop(dirs, n);
    AddDirsLoopSpec(dirs, n);
    assert dirs'[0] == "/";
    forall d | d in dirs' && d != "/"
      ensures IsRelative(d) && (Dirname(d) == "" || Dirname(d) in dirs')
    {
      if d !in dirs {
        AncestorsClosed(n, d);
      }
    }
  }

  /** The `add_dir` loop keeps the invariant of the listings once the ancestors are directories. */
  lemma ContentsLoopKeepsInv(dirs: seq<string>, dc: map<string, seq<string>>, n: string)
    requires ListingsInv(dirs, dc) && IsRelative(n)
    requires forall a :: a in Ancestors(n) ==> a in dirs
    ensures ListingsInv(dirs, ContentsLoop(dc, n))
  {
    var lc := ContentsLoop(dc, n);
    ContentsLoopSpec(dc, n);
    DirnameOfRelative(n);
    var up := Ancestors(Dirname(n));
    assert Ancestors(n) == [n] + up;
    forall k | k in lc ensures NormalisePath(k) in dirs {
      if k !in dc {
        assert k in Ancestors(n);
        NormaliseRelative(k);
      }
    }
    forall k | k in lc && k != "/" ensures NoDup(lc[k]) {
      if k in dc {
        assert NoDup(dc[k]);
      }
    }
  }

  /** `add_dir` keeps the directory invariant. */
  lemma AddDirKeepsInv(dirs: seq<string>, dc: map<string, seq<string>>, path: string)
    requires DirsInv(dirs, dc) && AddDirHalts(path)
    ensures DirsInv(AddDirsLoop(dirs, NormalisePath(path)), AddDirContents(dc, path))
  {
    var n := NormalisePath(path);
    var dirs' := AddDirsLoop(dirs, n);
    AddDirsLoopKeepsInv(dirs, n);
    AddDirsLoopSpec(dirs, n);
    ListingsInvGrows(dirs, dirs', dc);
    ContentsLoopKeepsInv(dirs', dc, n);
    var lc := ContentsLoop(dc, n);
    assert AddDirContents(dc, path) == lc["/" := lc["/"] + [FirstSegment(path)]];
  }

  /** Listing a name under a key that names a directory keeps the directory invariant. */
  lemma AddChildOnceKeepsInv(dirs: seq<string>, dc: map<string, seq<string>>, k: string, x: string)
    requires DirsInv(dirs, dc) && NormalisePath(k) in dirs
    ensures DirsInv(dirs, AddChildOnce(dc, k, x))
  {
  }

  /** Recording a file whose parent is a directory keeps the file invariant. */
  lemma AddFileRecordKeepsInv(dirs: seq<string>, files: seq<string>, targets: map<string, string>,
                              path: string, target: string)
    requires FilesInv(dirs, files, targets) && NormalisePath(Dirname(path)) in dirs
    ensures FilesInv(dirs, files + [path], targets[path := target])
  {
  }

  /** `add_file` keeps both invariants. */
  lemma AddFileKeepsInv(dirs: seq<string>, dc: map<string, seq<string>>, files: seq<string>,
                        targets: map<string, string>, path: string, target: string,
                        dirs': seq<string>, dc': map<string, seq<string>>)
    requires DirsInv(dirs, dc) && FilesInv(dirs, files, targets) && AddFileHalts(path)
    requires dirs' == AddFileDirs(dirs, path) && dc' == AddFileContents(dc, path)
    ensures DirsInv(dirs', dc')
    ensures FilesInv(dirs', files + [path], targets[path := target])
  {
    var d := Dirname(path);
    if d == "" {
      AddChildOnceKeepsInv(dirs, dc, "/", path);
      AddFileRecordKeepsInv(dirs, files, targets, path, target);
    } else {
      var n := NormalisePath(d);
      AddDirKeepsInv(dirs, dc, d);
      AddDirsLoopSpec(dirs, n);
      assert n in Ancestors(n);
      assert n in dirs';
      AddChildOnceKeepsInv(dirs', AddDirContents(dc, d), d, Basename(path));
      FilesInvGrows(dirs, dirs', files, targets);
      AddFileRecordKeepsInv(dirs', files, targets, path, target);
    }
  }

  /** `add_dir(path)` registers the normalised path and every non-empty ancestor. */
  lemma AddDirRegistersAncestors(dirs: seq<string>, path: string, a: string)
    requires AddDirHalts(path) && a in Ancestors(NormalisePath(path))
    ensures NormalisePath(path) in AddDirsLoop(dirs, NormalisePath(path))
    ensures a in AddDirsLoop(dirs, NormalisePath(path))
  {
    AddDirsLoopSpec(dirs, NormalisePath(path));
  }

  /**
    Adding a top-level file leaves `dirs` alone and lists the path under the
    root at most once.
   */
  lemma AddFileTopLevel(dirs: seq<string>, dc: map<string, seq<string>>, path: string)
    requires "/" in dc && Dirname(path) == ""
    ensures AddFileHalts(path)
    ensures AddFileDirs(dirs, path) == dirs
    ensures AddFileContents(dc, path)["/"] == AddOnce(dc["/"], path)
    ensures forall k :: k in dc && k != "/" ==> AddFileContents(dc, path)[k] == dc[k]
  {
  }

  /**
    Adding a nested relative file registers its directory and the first
    segment as directories, appends the first segment to the root listing and
    lists the basename under its directory.
   */
  lemma AddFileNested(dirs: seq<string>, dc: map<string, seq<string>>, path: string)
    requires DirsInv(dirs, dc) && IsRelative(path) && Dirname(path) != ""
    ensures AddFileHalts(path)
    ensures Dirname(path) in AddFileDirs(dirs, path)
    ensures FirstSegment(path) in AddFileDirs(dirs, path)
    ensures AddFileContents(dc, path)["/"] == dc["/"] + [FirstSegment(path)]
    ensures Basename(path) in AddFileContents(dc, path)[Dirname(path)]
  {
    var d := Dirname(path);
    DirnameOfRelative(path);
    NormaliseRelative(d);
    FirstSegmentOfDirname(path);
    FirstSegmentIsAncestor(d);
    AddDirsLoopSpec(dirs, d);
    AddDirRootListing(dc, d);
    assert d in Ancestors(d);
    assert d != "/";
  }

  /**
    `add_dir` on a path whose normal form is a single segment registers that
    segment (once) and appends the path's first segment to the root listing,
    even when it is listed there already.
   */
  lemma AddTopLevelDir(dirs: seq<string>, dc: map<string, seq<string>>, path: string)
    requires "/" in dc && IsName(NormalisePath(path))
    ensures AddDirHalts(path)
    ensures AddDirsLoop(dirs, NormalisePath(path)) == AddOnce(dirs, NormalisePath(path))
    ensures AddDirContents(dc, path) == dc["/" := dc["/"] + [FirstSegment(path)]]
  {
  }

  /**
    `add_dir` on two segments `d/n` registers `d/n` and then `d`, and (line 27
    taking the dirname for the basename) lists `d` under `d` itself rather
    than `n`; the root listing gets `d`.
   */
  lemma AddTwoLevelDir(dirs: seq<string>, dc: map<string, seq<string>>, d: string, n: string)
    requires "/" in dc && IsName(d) && IsName(n)
    ensures AddDirHalts(d + "/" + n) && NormalisePath(d + "/" + n) == d + "/" + n
    ensures AddDirsLoop(dirs, d + "/" + n) == AddOnce(AddOnce(dirs, d + "/" + n), d)
    ensures AddDirContents(dc, d + "/" + n) == AddChildOnce(dc, d, d)["/" := dc["/"] + [d]]
  {
    NameParts(d);
    JoinParts(d, n);
    var p := d + "/" + n;
    assert p[0] == d[0];
    var next := AddOnce(dirs, p);
    assert AddDirsLoop(dirs, p) == AddDirsLoop(next, d);
    assert AddDirsLoop(next, d) == AddOnce(next, d);
    var dc' := AddChildOnce(dc, d, d);
    assert ContentsLoop(dc, p) == ContentsLoop(dc', d);
    assert ContentsLoop(dc', d) == dc';
    assert d != "/";
  }

  /**
    `add_file` on `d/n`, both single segments, registers `d`, appends `d` to
    the root listing and lists `n` under `d`.
   */
  lemma AddTwoLevelFile(dirs: seq<string>, dc: map<string, seq<string>>, d: string, n: string)
    requires "/" in dc && IsName(d) && IsName(n)
    ensures AddFileHalts(d + "/" + n)
    ensures AddFileDirs(dirs, d + "/" + n) == AddOnce(dirs, d)
    ensures AddFileContents(dc, d + "/" + n) == AddChildOnce(dc["/" := dc["/"] + [d]], d, n)
  {
    JoinParts(d, n);
    NameParts(d);
    var p := d + "/" + n;
    assert Dirname(p) == d && ParentEntry(p) == (d, n);
    assert NormalisePath(d) == d;
    AddTopLevelDir(dirs, dc, d);
  }

  /** The first segment of a relative path is the last of its ancestors. */
  lemma {:induction false} FirstSegmentIsAncestor(d: string)
    requires IsRelative(d)
    ensures FirstSegment(d) in Ancestors(d)
    decreases |d|
  {
    DirnameOfRelative(d);
    var p := Dirname(d);
    if p == "" {
      FirstSegmentOfTopLevel(d);
    } else {
      FirstSegmentOfPrefix(p, d);
      FirstSegmentIsAncestor(p);
    }
  }

  /** `AddChildOnce` is the `try`/`except KeyError` update written out. */
  lemma AddChildOnceUpdate(dc: map<string, seq<string>>, k: string, x: string)
    ensures AddChildOnce(dc, k, x) ==
      if k in dc then (if x !in dc[k] then dc[k := dc[k] + [x]] else dc) else dc[k := [x]]
  {
    if k in dc && x in dc[k] {
      assert dc[k := dc[k]] == dc;
    } else if k !in dc {
      assert [] + [x] == [x];
    }
  }

  /** One pass of the `add_dir` loop over `dircontents`, unfolded. */
  /** One pass of the `add_dir` loop over `dirs`: the guarded append, then the dirname. */
  lemma AddDirsLoopStep(dirs: seq<string>, dirpath: string)
    requires IsRelative(dirpath)
    ensures Dirname(dirpath) == "" || IsRelative(Dirname(dirpath))
    ensures AddDirsLoop(dirs, dirpath) == AddDirsLoop(if dirpath in dirs then dirs else dirs + [dirpath], Dirname(dirpath))
  {
  }

  lemma ContentsLoopStep(dc: map<string, seq<string>>, dirpath: string)
    requires IsRelative(dirpath) && Dirname(dirpath) != ""
    ensures IsRelative(Dirname(dirpath))
    ensures ContentsLoop(dc, dirpath) == ContentsLoop(AddChildOnce(dc, Dirname(dirpath), Dirname(dirpath)), Dirname(dirpath))
  {
  }

  /**
    Putting the loop and line 36 together gives `AddDirContents`, keeps the
    invariants, keeps the old directories as a prefix and adds exactly the
    ancestors of the normalised path.
   */
  lemma AddDirEffect(dirs: seq<string>, dc: map<string, seq<string>>, files: seq<string>,
                     targets: map<string, string>, path: string, dirs': seq<string>,
                     lc: map<string, seq<string>>)
    requires DirsInv(dirs, dc) && AddDirHalts(path)
    requires dirs' == AddDirsLoop(dirs, NormalisePath(path))
    requires lc == ContentsLoop(dc, NormalisePath(path))
    ensures "/" in lc
    ensures lc["/" := lc["/"] + [FirstSegment(path)]] == AddDirContents(dc, path)
    ensures AddDirContents(dc, path)["/"] == dc["/"] + [FirstSegment(path)]
    ensures DirsInv(dirs', AddDirContents(dc, path))
    ensures dirs <= dirs'
    ensures forall d :: d in dirs' <==> d in dirs || d in Ancestors(NormalisePath(path))
    ensures FilesInv(dirs, files, targets) ==> FilesInv(dirs', files, targets)
  {
    ContentsLoopSpec(dc, NormalisePath(path));
    AddDirKeepsInv(dirs, dc, path);
    AddDirsLoopSpec(dirs, NormalisePath(path));
    AddDirRootListing(dc, path);
    if FilesInv(dirs, files, targets) {
      FilesInvGrows(dirs, dirs', files, targets);
    }
  }

  /**
    The box: `dirs` (the root first), `dirContents` (directory to child names),
    `files` (paths as given to `add_file`) and `targets` (file path to target).
   */
  class BoxFS {
    var dirs: seq<string>
    var dirContents: map<string, seq<string>>
    var files: seq<string>
    var targets: map<string, string>

    ghost predicate DirsValid()
      reads this
    {
      DirsInv(dirs, dirContents)
    }

    ghost predicate Valid()
      reads this
    {
      DirsInv(dirs, dirContents) && FilesInv(dirs, files, targets)
    }

    /** `__init__`: only the root, with an empty listing, and no files. */
    constructor ()
      ensures Valid()
      ensures dirs == ["/"] && dirContents == map["/" := []]
      ensures files == [] && targets == map[]
    {
      dirs := ["/"];
      dirContents := map["/" := []];
      files := [];
      targets := map[];
    }

    /**
      The `try`/`except KeyError` block that `add_dir` and `add_file` share:
      list `x` under `k` unless it is listed there already, starting a new
      listing when `k` has none.
     */
    method AddChild(k: string, x: string)
      modifies this`dirContents
      ensures dirContents == AddChildOnce(old(dirContents), k, x)
    {
      if k in dirContents {
        if x !in dirContents[k] {
          dirContents := dirContents[k := dirContents[k] + [x]];
        }
      } else {
        dirContents := dirContents[k := [x]];
      }
      AddChildOnceUpdate(old(dirContents), k, x);
    }

    /**
      `add_dir`. It needs only the directory invariant, since `add_file` calls
      it after appending to `files`.
     */
    method AddDir(path: string)
      requires DirsValid() && AddDirHalts(path)
      modifies this`dirs, this`dirContents
      ensures DirsValid()
      ensures dirs == AddDirsLoop(old(dirs), NormalisePath(path))
      ensures dirContents == AddDirContents(old(dirContents), path)
      ensures unchanged(this`files, this`targets)
      ensures old(Valid()) ==> Valid()
      ensures old(dirs) <= dirs
      ensures forall d :: d in dirs <==> d in old(dirs) || d in Ancestors(NormalisePath(path))
      ensures dirContents["/"] == old(dirContents["/"]) + [FirstSegment(path)]
    {
      var dirpath := NormalisePath(path);
      while dirpath != ""
        invariant dirpath == "" || IsRelative(dirpath)
        invariant AddDirsLoop(dirs, dirpath) == AddDirsLoop(old(dirs), NormalisePath(path))
        invariant ContentsLoop(dirContents, dirpath) == ContentsLoop(old(dirContents), NormalisePath(path))
        decreases |dirpath|
      {
        ghost var dirs0, dc0, dirpath0 := dirs, dirContents, dirpath;
        if dirpath !in dirs {
          dirs := dirs + [dirpath];
        }
        AddDirsLoopStep(dirs0, dirpath0);
        DirnameOfRelative(dirpath);
        var basename := Dirname(dirpath);
        dirpath := Dirname(dirpath);
        if basename == "" {
          continue;
        }
        AddChild(dirpath, basename);
        ContentsLoopStep(dc0, dirpath0);
      }
      AddDirEffect(old(dirs), old(dirContents), files, targets, path, dirs, dirContents);
      dirContents := dirContents["/" := dirContents["/"] + [FirstSegment(path)]];
    }

    /**
      `add_file`. The path is recorded as given, not normalised, in `files` and
      as the key of `targets`; a file added twice is listed twice in `files`.
     */
    method AddFile(path: string, target: string)
      requires Valid() && AddFileHalts(path)
      modifies this
      ensures Valid()
      ensures files == old(files) + [path]
      ensures targets == old(targets)[path := target]
      ensures dirs == AddFileDirs(old(dirs), path)
      ensures dirContents == AddFileContents(old(dirContents), path)
      ensures old(dirs) <= dirs
      ensures IsDir(Dirname(path))
      ensures IsRelative(path) ==> IsFile(path) && TargetFor(path) == Some(target)
    {
      files := files + [path];
      var filen := Basename(path);
      var dirpath := Dirname(path);
      if dirpath != "" {
        AddDir(Dirname(path));
      }
      targets := targets[path := target];
      if dirpath == "" {
        dirpath := "/";
        filen := path;
      }
      assert ParentEntry(path) == (dirpath, filen);
      AddChild(dirpath, filen);
      AddFileKeepsInv(old(dirs), old(dirContents), old(files), old(targets), path, target, dirs, dirContents);
      if IsRelative(path) {
        NormaliseRelative(path);
      }
    }

    /** `is_dir`: the root is always a directory. */
    function IsDir(path: string): (b: bool)
      reads this
      ensures Valid() && NormalisePath(path) == "/" ==> b
    {
      NormalisePath(path) in dirs
    }

    /** `is_file`: the parent of a file is always a directory. */
    function IsFile(path: string): (b: bool)
      reads this
      ensures Valid() && b ==> IsDir(Dirname(NormalisePath(path)))
    {
      NormalisePath(path) in files
    }

    /** `target_for`: `None` where the source raises `KeyError`; found exactly for files. */
    function TargetFor(path: string): (r: Option<string>)
      reads this
      ensures Valid() ==> (r.Some? <==> IsFile(path))
      ensures r.Some? ==> NormalisePath(path) in targets && r.value == targets[NormalisePath(path)]
    {
      var n := NormalisePath(path);
      if n in targets then Some(targets[n]) else None
    }

    /** `exists`: a file or a directory; the root always exists. */
    function Exists(path: string): (b: bool)
      reads this
      ensures b <==> IsFile(path) || IsDir(path)
      ensures Valid() ==> (b <==> TargetFor(path).Some? || ListDir(path).Some?)
      ensures Valid() && NormalisePath(path) == "/" ==> b
    {
      IsFile(path) || IsDir(path)
    }

    /**
      `list_dir`: `None` for a path that is not a directory, `[]` for a
      directory without a listing, else the stored listing; listings other than
      the root's never repeat a name.
     */
    function ListDir(path: string): (r: Option<seq<string>>)
      reads this
      ensures r.Some? <==> IsDir(path)
      ensures r.Some? && NormalisePath(path) !in dirContents ==> r.value == []
      ensures r.Some? && NormalisePath(path) in dirContents ==> r.value == dirContents[NormalisePath(path)]
      ensures Valid() && r.Some? && NormalisePath(path) != "/" ==> NoDup(r.value)
    {
      if !IsDir(path) then None
      else if NormalisePath(path) in dirContents then Some(dirContents[NormalisePath(path)])
      else Some([])
    }
  }

  /**
    Every query normalises its argument, so a relative path and the same path
    with one leading slash get the same answers.
   */
  lemma QueriesIgnoreLeadingSlash(box: BoxFS, p: string)
    requires IsRelative(p)
    ensures box.IsDir("/" + p) == box.IsDir(p)
    ensures box.IsFile("/" + p) == box.IsFile(p)
    ensures box.TargetFor("/" + p) == box.TargetFor(p)
    ensures box.Exists("/" + p) == box.Exists(p)
    ensures box.ListDir("/" + p) == box.ListDir(p)
  {
  }
}
