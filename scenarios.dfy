/**
  The unit tests of `boxfs.py` as scenarios: each method builds a box the way
  a test does and promises, in its postcondition, what that test asserts,
  for any single-segment names in place of the test's own. The last
  scenarios record what the code does for inputs the tests do not cover.
 */
module Scenarios {
  import opened Posix
  import opened Boxfs

  /** `test_normalise_path`. */
  lemma NormaliseExamples()
    ensures NormalisePath("") == "/"
    ensures NormalisePath("/") == "/"
    ensures NormalisePath("mybox/box.txt") == "mybox/box.txt"
    ensures NormalisePath("/mybox/box.txt") == "mybox/box.txt"
  {
  }

  /** `test_empty_boxfs`. */
  method EmptyBoxFS() returns (box: BoxFS)
    ensures box.dirs == ["/"]
    ensures box.IsDir("/")
    ensures box.ListDir("/") == Some([])
  {
    box := new BoxFS();
  }

  /**
    `test_boxfs_add_file` (there `n` is "myfile"): a top-level file is
    registered, leaves the directory list alone and is listed under the root.
   */
  method BoxFSAddFile(n: string, target: string) returns (box: BoxFS)
    requires IsName(n)
    ensures box.Valid()
    ensures box.dirs == ["/"]
    ensures box.IsDir("/")
    ensures box.IsFile(n)
    ensures box.TargetFor(n) == Some(target)
    ensures box.ListDir("/") == Some([n])
  {
    box := new BoxFS();
    AddFileValues(n);
    box.AddFile(n, target);
  }

  /** A fresh box after `add_file(n, _)` for a single segment `n`. */
  lemma AddFileValues(n: string)
    requires IsName(n)
    ensures AddFileHalts(n) && IsRelative(n)
    ensures AddFileDirs(["/"], n) == ["/"]
    ensures AddFileContents(map["/" := []], n) == map["/" := [n]]
  {
    NameParts(n);
    var dc: map<string, seq<string>> := map["/" := []];
    AddFileTopLevel(["/"], dc, n);
    assert AddOnce([], n) == [n];
  }

  /** `test_boxfs_add_dir` (there `n` is "mydir"). */
  method BoxFSAddDir(n: string) returns (box: BoxFS)
    requires IsName(n)
    ensures box.Valid()
    ensures box.dirs == ["/", n]
    ensures box.IsDir("/") && box.IsDir(n)
    ensures box.ListDir("/") == Some([n])
  {
    box := new BoxFS();
    AddDirValues(n);
    box.AddDir(n);
  }

  /** A fresh box after `add_dir(n)` for a single segment `n`. */
  lemma AddDirValues(n: string)
    requires IsName(n)
    ensures AddDirHalts(n)
    ensures AddDirsLoop(["/"], NormalisePath(n)) == ["/", n]
    ensures AddDirContents(map["/" := []], n) == map["/" := [n]]
  {
    NameParts(n);
    AddTopLevelDir(["/"], map["/" := []], n);
    RootListing(n);
  }

  lemma RootListing(n: string)
    ensures var dc: map<string, seq<string>> := map["/" := []];
      dc["/" := dc["/"] + [n]] == map["/" := [n]]
  {
    var dc: map<string, seq<string>> := map["/" := []];
    assert dc["/"] + [n] == [n];
  }

  /**
    `test_boxfs_add_file_implicitly_adds_dir` and
    `test_boxfs_deal_with_leading_slash` (there `d/n` is "mydir/test"):
    adding `d/n` registers `d`, and the queries answer alike with and without
    a leading slash.
   */
  method AddFileImplicitlyAddsDir(d: string, n: string, target: string) returns (box: BoxFS)
    requires IsName(d) && IsName(n)
    ensures box.Valid()
    ensures box.dirs == ["/", d]
    ensures box.IsDir("/") && box.IsDir(d) && box.IsDir("/" + d)
    ensures box.IsFile(d + "/" + n) && box.IsFile("/" + (d + "/" + n))
    ensures box.TargetFor(d + "/" + n) == Some(target)
    ensures box.TargetFor("/" + (d + "/" + n)) == Some(target)
    ensures box.ListDir("/") == Some([d])
    ensures box.ListDir(d) == Some([n])
    ensures box.ListDir("/" + d) == Some([n])
  {
    box := new BoxFS();
    NestedFileValues(d, n);
    box.AddFile(d + "/" + n, target);
    QueriesIgnoreLeadingSlash(box, d);
    QueriesIgnoreLeadingSlash(box, d + "/" + n);
  }

  /** A fresh box after `add_file(d + "/" + n, _)` for single segments `d` and `n`. */
  lemma NestedFileValues(d: string, n: string)
    requires IsName(d) && IsName(n)
    ensures AddFileHalts(d + "/" + n) && IsRelative(d) && IsRelative(d + "/" + n)
    ensures AddFileDirs(["/"], d + "/" + n) == ["/", d]
    ensures AddFileContents(map["/" := []], d + "/" + n) == map["/" := [d], d := [n]]
  {
    NameParts(d);
    JoinParts(d, n);
    AddTwoLevelFile(["/"], map["/" := []], d, n);
    assert AddOnce(["/"], d) == ["/", d];
    NestedListing(d, n);
  }

  lemma NestedListing(d: string, n: string)
    requires d != "/"
    ensures var dc: map<string, seq<string>> := map["/" := []];
      AddChildOnce(dc["/" := dc["/"] + [d]], d, n) == map["/" := [d], d := [n]]
  {
    var dc: map<string, seq<string>> := map["/" := []];
    RootListing(d);
    NewListing(map["/" := [d]], d, n);
  }

  /**
    As written, a directory `d/n` is listed under its parent `d` as `d`
    itself, not as `n`: line 27 takes the dirname where the basename was
    meant. `d/n` is registered before `d`, and has no listing of its own.
   */
  method NestedDirListedUnderItself(d: string, n: string) returns (box: BoxFS)
    requires IsName(d) && IsName(n)
    ensures box.Valid()
    ensures box.dirs == ["/", d + "/" + n, d]
    ensures box.ListDir(d) == Some([d])
    ensures box.ListDir(d + "/" + n) == Some([])
    ensures box.ListDir("/") == Some([d])
  {
    box := new BoxFS();
    NestedDirValues(d, n);
    box.AddDir(d + "/" + n);
  }

  /** A fresh box after `add_dir(d + "/" + n)` for single segments `d` and `n`. */
  lemma NestedDirValues(d: string, n: string)
    requires IsName(d) && IsName(n)
    ensures AddDirHalts(d + "/" + n)
    ensures NormalisePath(d + "/" + n) == d + "/" + n && NormalisePath(d) == d
    ensures AddDirsLoop(["/"], d + "/" + n) == ["/", d + "/" + n, d]
    ensures AddDirContents(map["/" := []], d + "/" + n) == map["/" := [d], d := [d]]
  {
    var p := d + "/" + n;
    AddTwoLevelDir(["/"], map["/" := []], d, n);
    assert d != "/" && p != "/" && d != p by {
      assert |p| > |d| && d[0] != '/';
    }
    TwoNewDirs(p, d);
    SelfListing(d);
  }

  lemma TwoNewDirs(p: string, d: string)
    requires p != "/" && d != "/" && d != p
    ensures AddOnce(AddOnce(["/"], p), d) == ["/", p, d]
  {
  }

  lemma SelfListing(d: string)
    requires d != "/"
    ensures var dc: map<string, seq<string>> := map["/" := []];
      AddChildOnce(dc, d, d)["/" := dc["/"] + [d]] == map["/" := [d], d := [d]]
  {
    var dc: map<string, seq<string>> := map["/" := []];
    NewListing(dc, d, d);
    assert dc["/"] + [d] == [d];
  }

  /** As written, adding the same directory twice lists it twice under the root. */
  method AddDirTwiceListsTwice(n: string) returns (box: BoxFS)
    requires IsName(n)
    ensures box.Valid()
    ensures box.dirs == ["/", n]
    ensures box.ListDir("/") == Some([n, n])
  {
    box := new BoxFS();
    AddDirValues(n);
    box.AddDir(n);
    AddDirAgainValues(n);
    box.AddDir(n);
  }

  /** `add_dir(n)` once more, on the box `BoxFSAddDir` builds for `n`. */
  lemma AddDirAgainValues(n: string)
    requires IsName(n)
    ensures AddDirHalts(n)
    ensures AddDirsLoop(["/", n], NormalisePath(n)) == ["/", n]
    ensures AddDirContents(map["/" := [n]], n) == map["/" := [n, n]]
  {
    NameParts(n);
    var dc: map<string, seq<string>> := map["/" := [n]];
    AddTopLevelDir(["/", n], dc, n);
    assert dc["/" := dc["/"] + [n]] == map["/" := [n, n]] by {
      assert dc["/"] + [n] == [n, n];
    }
  }

  /**
    As written, `add_file` records the path it is given, while `is_file`
    looks up the normalised path: a file added as "/d/n" is found neither as
    "d/n" nor as "/d/n", and has no target; only "//d/n", which normalises to
    the recorded "/d/n", finds it. Its directory `d` is registered, but
    line 36 lists the empty first segment of "/d" under the root, and `n` is
    listed under the key "/d", which `list_dir(d)` does not consult.
   */
  method FileWithLeadingSlashNotFound(d: string, n: string, target: string) returns (box: BoxFS)
    requires IsName(d) && IsName(n)
    ensures box.Valid()
    ensures box.dirs == ["/", d]
    ensures !box.IsFile("/" + d + "/" + n) && !box.IsFile(d + "/" + n)
    ensures box.IsFile("/" + ("/" + d + "/" + n))
    ensures box.TargetFor(d + "/" + n) == None
    ensures box.ListDir("/") == Some([""])
    ensures box.ListDir(d) == Some([])
  {
    box := new BoxFS();
    LeadingSlashValues(d, n);
    var p := "/" + d + "/" + n;
    box.AddFile(p, target);
    assert box.files == [p];
    LeadingSlashListings(box, d, n);
    LeadingSlashFiles(box, d, n);
  }

  /** Which spellings find the file recorded as "/d/n". */
  lemma LeadingSlashFiles(box: BoxFS, d: string, n: string)
    requires IsName(d) && IsName(n)
    requires box.Valid() && box.files == ["/" + d + "/" + n]
    ensures !box.IsFile("/" + d + "/" + n) && !box.IsFile(d + "/" + n)
    ensures box.IsFile("/" + ("/" + d + "/" + n))
    ensures box.TargetFor(d + "/" + n) == None
  {
    var p, q := "/" + d + "/" + n, d + "/" + n;
    SlashedParts(d, n);
    assert |p| != |q|;
    RecordedUnnormalised(box, p, q);
    DoubledSlashFinds(box, p);
  }

  /** A file recorded as `p` is not found by any path that normalises to another `q`. */
  lemma RecordedUnnormalised(box: BoxFS, p: string, q: string)
    requires box.Valid() && box.files == [p]
    requires NormalisePath(p) == q && NormalisePath(q) == q && q != p
    ensures !box.IsFile(p) && !box.IsFile(q)
    ensures box.TargetFor(q) == None
  {
  }

  /** One more leading slash reaches a file recorded with a leading slash. */
  lemma DoubledSlashFinds(box: BoxFS, p: string)
    requires p != "" && p[0] == '/' && p != "/" && box.files == [p]
    ensures box.IsFile("/" + p)
  {
    assert ("/" + p)[1..] == p;
  }

  lemma LeadingSlashListings(box: BoxFS, d: string, n: string)
    requires IsName(d)
    requires box.dirs == ["/", d] && box.dirContents == map["/" := [""], "/" + d := [n]]
    ensures box.ListDir("/") == Some([""])
    ensures box.ListDir(d) == Some([])
  {
    NameParts(d);
    assert d !in box.dirContents by {
      assert |"/" + d| != |d|;
    }
  }

  /**
    As written, `add_file("/" + n, _)` for a single segment `n` never returns:
    the dirname of "/n" is "/", and the `add_dir("/")` loop never leaves "/".
    So the halting precondition of `AddFile` rules out exactly this call.
   */
  lemma TopLevelSlashedFileExcluded(n: string)
    requires IsName(n)
    ensures Dirname("/" + n) == "/"
    ensures !AddFileHalts("/" + n)
  {
    var p := "/" + n;
    assert RFindSlash(p) == 0 by {
      assert p[0] == '/';
      assert forall k :: 1 <= k < |p| ==> p[k] == n[k - 1];
    }
    assert p[..1] == "/";
  }

  /** A fresh box after `add_file("/" + d + "/" + n, _)` for single segments `d` and `n`. */
  lemma LeadingSlashValues(d: string, n: string)
    requires IsName(d) && IsName(n)
    ensures AddFileHalts("/" + d + "/" + n)
    ensures NormalisePath("/" + d + "/" + n) == d + "/" + n
    ensures NormalisePath(d + "/" + n) == d + "/" + n && NormalisePath(d) == d
    ensures NormalisePath("/") == "/"
    ensures "/" + d + "/" + n != d + "/" + n
    ensures AddFileDirs(["/"], "/" + d + "/" + n) == ["/", d]
    ensures AddFileContents(map["/" := []], "/" + d + "/" + n) == map["/" := [""], "/" + d := [n]]
  {
    SlashedParts(d, n);
    var dc: map<string, seq<string>> := map["/" := []];
    AddTopLevelDir(["/"], dc, "/" + d);
    assert AddOnce(["/"], d) == ["/", d];
    assert |"/" + d + "/" + n| != |d + "/" + n|;
    EmptySegmentListing("/" + d, n);
  }

  /** How dirname, basename, normalisation and first segment see "/d/n". */
  lemma SlashedParts(d: string, n: string)
    requires IsName(d) && IsName(n)
    ensures Dirname("/" + d + "/" + n) == "/" + d && Basename("/" + d + "/" + n) == n
    ensures NormalisePath("/" + d) == d && IsName(NormalisePath("/" + d))
    ensures NormalisePath("/" + d + "/" + n) == d + "/" + n
    ensures NormalisePath(d + "/" + n) == d + "/" + n && NormalisePath(d) == d
    ensures FirstSegment("/" + d) == ""
  {
    JoinParts("/" + d, n);
    assert ("/" + d)[1..] == d;
    assert ("/" + d + "/" + n)[1..] == d + "/" + n;
    assert (d + "/" + n)[0] == d[0];
  }

  lemma EmptySegmentListing(k: string, n: string)
    requires k != "/"
    ensures var dc: map<string, seq<string>> := map["/" := []];
      AddChildOnce(dc["/" := dc["/"] + [""]], k, n) == map["/" := [""], k := [n]]
  {
    var dc: map<string, seq<string>> := map["/" := []];
    var dc1 := dc["/" := dc["/"] + [""]];
    assert dc1 == map["/" := [""]] by {
      assert dc["/"] + [""] == [""];
    }
    NewListing(dc1, k, n);
  }

  /** A key without a listing gets a listing of one entry. */
  lemma NewListing(dc: map<string, seq<string>>, k: string, x: string)
    requires k !in dc
    ensures AddChildOnce(dc, k, x) == dc[k := [x]]
  {
    assert Lookup(dc, k) == [];
    assert AddOnce([], x) == [x];
  }
}
