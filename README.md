# BoxFS in Dafny

A model of `BoxFS`, the in-memory directory tree behind the FUSE file system
of this repository. A box maps virtual file paths to real target paths and
derives its directories from the paths of the files added to it. It has four
pieces of state:

- `dirs`: the registered directories, with the root `/` first;
- `dircontents`: directory to the names listed under it;
- `files`: file paths as given to `add_file`;
- `targets`: file path to target path.

The model has three modules:

- `Posix` (`posix.dfy`) writes out the parts of Python's `posixpath` that the
  box uses, with the library's own rules: `dirname` (cut after the last
  slash, then strip trailing slashes unless only slashes remain), `basename`,
  and `split('/')[0]`. It adds the lemmas that split a path into dirname and
  basename and join it back.
- `Boxfs` (`boxfs.dfy`) holds the pure part as functions on values:
  - `NormalisePath`;
  - the effect of the `add_dir` loop on `dirs` (`AddDirsLoop`) and on
    `dircontents` (`ContentsLoop`);
  - the whole effect of `add_dir` (`AddDirContents`) and of `add_file`
    (`AddFileDirs`, `AddFileContents`).

  The class `BoxFS` has the four fields. Its methods update them in place,
  and their postconditions tie the new state to those functions. The
  invariants every reachable box satisfies (`DirsInv`, `FilesInv`) are
  proved of the functions and preserved by the methods.
- `Scenarios` (`scenarios.dfy`) restates the unit tests of `boxfs.py` as
  methods that build a box and promise what the test asserts. Each holds for
  any single-segment names in place of the test's own. It adds scenarios for
  inputs the tests do not cover.

The model follows the code as written, including where it departs from what
was evidently meant:

- `normalise_path` maps `""` and `"/"` to `"/"` and otherwise removes
  exactly one leading slash, if there is one.
- In `add_dir`, line 27 assigns `dirname(dirpath)` to `basename`. So each
  proper ancestor `k` of the path is listed under `dircontents[k]` as `k`
  itself. For example, `add_dir("a/b")` lists `"a"` under `"a"`.
- Line 36 appends the first segment of the un-normalised path to the root
  listing unconditionally. Adding a directory twice lists it twice, and a
  path that starts with a slash contributes the empty name `""`.
- `add_file` records the path un-normalised in `files` and `targets`, while
  the queries look up the normalised path. A file added as `/d/n` is
  therefore found neither as `d/n` nor as `/d/n`, only as `//d/n`.
- The `while dirpath:` loop of `add_dir` never ends when the normalised path
  starts with a slash, because `dirname("/")` is `"/"`. This happens for
  `add_dir` on `""`, `"/"` and `"//x"`, and for `add_file` on any top-level
  path with a leading slash, such as `"/myfile"`: its dirname is `"/"`.
  `AddDir` and `AddFile` require the inputs on which the loop ends
  (`AddDirHalts`, `AddFileHalts`).

## Model

| member | source | states |
|---|---|---|
| `Posix.RFindSlash` | boxfs.py:27-28 | `rfind('/')` inside `os.path.dirname` and `os.path.basename`: the index of a slash with no slash after it, or -1 when there is none |
| `Posix.RStripSlashes` | boxfs.py:27-28 | `rstrip('/')` inside `os.path.dirname`: the longest prefix that does not end with a slash, with only slashes cut off |
| `Posix.Dirname` | boxfs.py:27-28 | `os.path.dirname` is a prefix of the path, and is empty when the path has no slash |
| `Posix.Basename` | boxfs.py:40 | `os.path.basename` is the slash-free suffix that follows the last slash |
| `Posix.FirstSegment` | boxfs.py:36 | `path.split('/')[0]` is the slash-free prefix that ends at the first slash |
| `Posix.DirnameOfRelative` | boxfs.py:24-28 | the dirname of a relative path is strictly shorter and is empty or relative again, so the `add_dir` loop walks it down to `""` |
| `Posix.DirnameBasenameSplit` | boxfs.py:40-41 | a well-formed path is its dirname, `/` and its basename, with both parts well-formed, or has an empty dirname and is its own basename |
| `Posix.JoinParts` | boxfs.py:40-41 | joining a slash-free-ending path and a segment with `/` is undone by dirname and basename and keeps the first segment (the converse of the split) |
| `Posix.NameParts` | boxfs.py:40-41 | a single segment has an empty dirname and is its own basename and first segment |
| `Posix.FirstSegmentOfPrefix` | boxfs.py:36 | cutting a path at a slash does not change its first segment |
| `Posix.FirstSegmentOfDirname` | boxfs.py:36 | a nested relative path and its dirname have the same first segment |
| `Posix.FirstSegmentOfTopLevel` | boxfs.py:36 | a path without a slash is its own first segment |
| `Boxfs.NormalisePath` | boxfs.py:15-20 | the normal form is never empty; it is the root exactly for `""`, `"/"` and `"//"`; otherwise it is the path with exactly one leading slash removed when it starts with one, and the path itself when it does not |
| `Boxfs.NormaliseRelative` | boxfs.py:15-20 | a relative path is its own normal form, and so is the same path with one leading slash |
| `Boxfs.Ancestors` | boxfs.py:24-28 | the successive values of `dirpath` in the `add_dir` loop start with the path, are relative and are no longer than it |
| `Boxfs.AncestorsClosed` | boxfs.py:27-28 | the dirname of every value of `dirpath` is `""` or a later value |
| `Boxfs.AddOnce` | boxfs.py:25-26 | the guarded append extends the list by at most one entry, contains the element afterwards, changes nothing when it was present and keeps the list free of duplicates |
| `Boxfs.AddChildOnce` | boxfs.py:31-35 | the `try`/`except KeyError` update creates the listing when missing, leaves it alone when the name is already listed, appends the name otherwise, and leaves every other key alone |
| `Boxfs.AddChildOnceUpdate` | boxfs.py:31-35 | `AddChildOnce` equals the branch-by-branch `try`/`except KeyError` update |
| `Boxfs.AddDirsLoop` | boxfs.py:24-28 | the loop's effect on `dirs`: the old list stays a prefix and the starting `dirpath` is registered |
| `Boxfs.ContentsLoop` | boxfs.py:27-35 | the loop's effect on `dircontents`: no listing is removed |
| `Boxfs.AddDirContents` | boxfs.py:22-36 | `add_dir`'s effect on `dircontents`: no listing is removed, and the last root entry is the first segment of the path as given |
| `Boxfs.AddFileDirs` | boxfs.py:41-44 | `add_file`'s effect on `dirs`: the old list stays a prefix and the normalised dirname, if any, is registered |
| `Boxfs.ParentEntry` | boxfs.py:40-49 | the key and name `add_file` lists: a non-empty key, and the basename as the name (the whole path when it has no directory part) |
| `Boxfs.ParentEntryJoins` | boxfs.py:40-49 | for a well-formed nested path the key is not the root, and key, `/` and name give the path back |
| `Boxfs.AddFileContents` | boxfs.py:43-54 | `add_file`'s effect on `dircontents`: no listing is removed, and the file's name is listed under its key |
| `Boxfs.AddDirsLoopSpec` | boxfs.py:24-28 | after the loop, `dirs` keeps its old entries as a prefix, holds exactly the old entries and the ancestors of the path, and gains no duplicate |
| `Boxfs.ContentsLoopSpec` | boxfs.py:27-35 | the loop lists every proper ancestor `k` under `dircontents[k]` as `k` itself, at most once, and leaves all other keys unchanged |
| `Boxfs.ContentsLoopStep` | boxfs.py:27-35 | one pass of the loop over `dircontents` is one `AddChildOnce` of the dirname under itself |
| `Boxfs.AddDirRootListing` | boxfs.py:36 | `add_dir` appends the path's first segment to the root listing unconditionally; the loop never touches that listing |
| `Boxfs.FilesInvGrows` | boxfs.py:39-44 | registering more directories keeps every file's parent registered and `files` matching the keys of `targets` |
| `Boxfs.ListingsInvGrows` | boxfs.py:24-26 | registering more directories keeps every listing key registered |
| `Boxfs.AddDirsLoopKeepsInv` | boxfs.py:24-28 | the loop keeps the root first, `dirs` free of duplicates, and every registered directory's dirname registered |
| `Boxfs.ContentsLoopKeepsInv` | boxfs.py:27-35 | the loop keeps every listing key registered and every non-root listing free of duplicates |
| `Boxfs.AddDirKeepsInv` | boxfs.py:22-36 | `add_dir` keeps the invariants of `dirs` and `dircontents` |
| `Boxfs.AddChildOnceKeepsInv` | boxfs.py:50-54 | listing a name under a registered directory keeps those invariants |
| `Boxfs.AddFileRecordKeepsInv` | boxfs.py:39-45 | recording a file whose parent is registered keeps the file invariant |
| `Boxfs.AddFileKeepsInv` | boxfs.py:38-54 | `add_file` keeps all the invariants of the box |
| `Boxfs.AddDirEffect` | boxfs.py:22-36 | the loop followed by line 36 gives `AddDirContents`, keeps the invariants and the old directories as a prefix, and adds exactly the ancestors of the normalised path |
| `Boxfs.AddDirRegistersAncestors` | boxfs.py:22-28 | `add_dir` registers the normalised path and every non-empty ancestor |
| `Boxfs.FirstSegmentIsAncestor` | boxfs.py:36 | the first segment of a relative path is its last ancestor, so the name line 36 lists under the root is a registered directory |
| `Boxfs.AddFileTopLevel` | boxfs.py:47-54 | adding a file without a directory part leaves `dirs` alone and lists the path under the root at most once |
| `Boxfs.AddFileNested` | boxfs.py:43-54 | adding a nested relative file registers its directory and first segment, appends the first segment to the root listing and lists the basename under the directory |
| `Boxfs.AddTopLevelDir` | boxfs.py:22-36 | `add_dir` on a path whose normal form is one segment registers that segment once and appends the first segment to the root listing, even when it is already listed |
| `Boxfs.AddTwoLevelDir` | boxfs.py:27-36 | `add_dir("d/n")` registers `d/n` and then `d`, and lists `d` under `d` itself |
| `Boxfs.AddTwoLevelFile` | boxfs.py:38-54 | `add_file("d/n", _)` registers `d`, appends `d` to the root listing and lists `n` under `d` |
| `Boxfs.BoxFS.constructor` | boxfs.py:9-13 | a new box has only the root, an empty root listing, and no files |
| `Boxfs.BoxFS.AddChild` | boxfs.py:31-35 | the shared `try`/`except KeyError` block updates `dircontents` exactly as `AddChildOnce` and changes no other field |
| `Boxfs.BoxFS.AddDir` | boxfs.py:22-36 | `dirs` and `dircontents` become `AddDirsLoop` and `AddDirContents` of their old values; `files` and `targets` are unchanged; the invariants are kept; the old directories stay a prefix; exactly the ancestors are added; the root listing gains the first segment |
| `Boxfs.BoxFS.AddFile` | boxfs.py:38-54 | `files` gains the path as given, `targets` maps it to the target, `dirs` and `dircontents` become `AddFileDirs` and `AddFileContents`; the invariants are kept; the parent is a directory; a relative path is afterwards a file with that target |
| `Boxfs.BoxFS.IsDir` | boxfs.py:56-57 | in a valid box the root is always a directory |
| `Boxfs.BoxFS.IsFile` | boxfs.py:59-60 | in a valid box the parent of every file is a directory |
| `Boxfs.BoxFS.TargetFor` | boxfs.py:62-63 | the lookup succeeds exactly for files, with the stored target; `None` stands for the `KeyError` |
| `Boxfs.BoxFS.Exists` | boxfs.py:65-66 | a path exists iff it is a file or a directory, iff it has a target or a listing, and the root always exists |
| `Boxfs.BoxFS.ListDir` | boxfs.py:68-74 | `None` exactly for non-directories, `[]` for a directory without a listing, else the stored listing, which repeats no name except at the root |
| `Boxfs.QueriesIgnoreLeadingSlash` | boxfs.py:56-74 | every query gives the same answer for a relative path and for that path with one leading slash |
| `Scenarios.NormaliseExamples` | boxfs.py:78-83 | `test_normalise_path`: the four normal forms the test expects |
| `Scenarios.EmptyBoxFS` | boxfs.py:84-88 | `test_empty_boxfs`: `dirs` is `["/"]`, the root is a directory, and its listing is empty |
| `Scenarios.BoxFSAddFile` | boxfs.py:89-96 | `test_boxfs_add_file`: a top-level file leaves `dirs` as `["/"]`, is a file with its target, and is the root's only entry |
| `Scenarios.AddFileValues` | boxfs.py:38-54 | the directory list and listings of a fresh box after adding a top-level file |
| `Scenarios.BoxFSAddDir` | boxfs.py:97-103 | `test_boxfs_add_dir`: `dirs` becomes `["/", n]` and the root lists `n` |
| `Scenarios.AddDirValues` | boxfs.py:22-36 | the directory list and listings of a fresh box after adding a top-level directory |
| `Scenarios.AddFileImplicitlyAddsDir` | boxfs.py:104-123 | `test_boxfs_add_file_implicitly_adds_dir` and `test_boxfs_deal_with_leading_slash`: `d/n` registers `d`; the root lists `d`; `d` lists `n`; the answers are the same with and without a leading slash |
| `Scenarios.NestedFileValues` | boxfs.py:38-54 | the directory list and listings of a fresh box after adding `d/n` |
| `Scenarios.NestedDirListedUnderItself` | boxfs.py:27-36 | as written, `add_dir("d/n")` gives `dirs == ["/", "d/n", "d"]`, lists `d` under `d`, and gives `d/n` an empty listing |
| `Scenarios.NestedDirValues` | boxfs.py:22-36 | the directory list and listings of a fresh box after `add_dir("d/n")` |
| `Scenarios.AddDirTwiceListsTwice` | boxfs.py:36 | as written, adding a directory twice registers it once and lists it twice under the root |
| `Scenarios.AddDirAgainValues` | boxfs.py:22-36 | the second `add_dir(n)` leaves `dirs` alone and appends `n` to the root listing again |
| `Scenarios.FileWithLeadingSlashNotFound` | boxfs.py:39-45 | as written, a file added as `/d/n` is not a file as `d/n` or `/d/n` and has no target, but is one as `//d/n`; the root lists `""`, and `d` has no listing |
| `Scenarios.RecordedUnnormalised` | boxfs.py:39-45 | a file recorded as `p` is not found as `p`, nor as the normal form `q` of `p` when `q` differs from `p`, and `q` has no target |
| `Scenarios.DoubledSlashFinds` | boxfs.py:59-60 | a file recorded as `/p` is found by `is_file("//p")`, whose normal form is `/p` |
| `Scenarios.TopLevelSlashedFileExcluded` | boxfs.py:41-44 | the dirname of `/n` is `/`, so `add_file("/n", _)` calls `add_dir("/")`, whose loop never ends; the halting precondition excludes it |
| `Scenarios.LeadingSlashValues` | boxfs.py:38-54 | the directory list and listings of a fresh box after adding `/d/n`: `n` is listed under the key `/d` |
| `Scenarios.SlashedParts` | boxfs.py:15-20 | dirname, basename, normal form and first segment of `/d/n` and `/d` |

## Left out

- `fusebox.py` is not part of this model. It is the FUSE adapter, and every
  operation in it is operating-system I/O or unimplemented.
- `manage_conf.py` is not part of this model. It is command-line glue that
  imports a `BoxConfFile` class that `boxfs.py` does not define.
- `setup.py` is not part of this model. It holds packaging metadata only.
- The debug `print` statements of `add_file` (boxfs.py:42, 46) are output
  only, and are omitted.
- `add_dir` and `add_file` on a path for which the `add_dir` loop never ends
  are excluded by the `AddDirHalts` and `AddFileHalts` preconditions, since
  the model states only what a returning call does.
- `list_dir` returns the stored Python list itself, so a caller that mutates
  the result changes the box. `ListDir` returns a value and does not model
  that aliasing.
- `target_for` raises `KeyError` for a path without a target.
  `TargetFor` returns `None` instead.
- Python 2 `str` is modelled as a sequence of characters, with no encoding.
- The tests write `assertTrue(box.target_for(...), '/data/file')`, which
  only checks that the target is non-empty. The scenarios state the equality
  the tests evidently mean, which is stronger.
- The scenario methods state the tests' assertions for any single-segment
  names, of which the tests' literal names are instances.
