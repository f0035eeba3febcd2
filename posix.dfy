/**
  The part of Python's `posixpath` (`os.path` with `os.sep == '/'`) that the box
  relies on: `dirname`, `basename` and `str.split('/')[0]`, written out with the
  library's own rules so that paths with leading, trailing or doubled slashes
  behave as they do in Python.
 */
module Posix {

  /** A non-empty path that does not begin with a slash. */
  predicate IsRelative(p: string)
  {
    p != "" && p[0] != '/'
  }

  /** A relative path with no trailing slash and no empty segment. */
  predicate WellFormed(p: string)
  {
    && IsRelative(p)
    && p[|p| - 1] != '/'
    && forall k :: 0 < k < |p| ==> !(p[k - 1] == '/' && p[k] == '/')
  }

  /** `p.rfind('/')`: the index of the last slash of `p`, or -1 when there is none. */
  function RFindSlash(p: string): (i: int)
    ensures -1 <= i < |p|
    ensures 0 <= i ==> p[i] == '/'
    ensures forall k :: i < k < |p| ==> p[k] != '/'
    decreases |p|
  {
    if p == "" then -1
    else if p[|p| - 1] == '/' then |p| - 1
    else RFindSlash(p[..|p| - 1])
  }

  predicate AllSlashes(s: string)
  {
    forall k :: 0 <= k < |s| ==> s[k] == '/'
  }

  /** `s.rstrip('/')`: the longest prefix of `s` that does not end with a slash. */
  function RStripSlashes(s: string): (r: string)
    ensures r <= s
    ensures r == "" || r[|r| - 1] != '/'
    ensures forall k :: |r| <= k < |s| ==> s[k] == '/'
    decreases |s|
  {
    if s != "" && s[|s| - 1] == '/' then RStripSlashes(s[..|s| - 1]) else s
  }

  /**
    `posixpath.dirname`: everything up to and including the last slash, with the
    trailing slashes removed unless that part consists of slashes only.
   */
  function Dirname(p: string): (r: string)
    ensures r <= p
    ensures RFindSlash(p) < 0 ==> r == ""
  {
    var head := p[..RFindSlash(p) + 1];
    if head != "" && !AllSlashes(head) then RStripSlashes(head) else head
  }

  /** `posixpath.basename`: everything after the last slash. */
  function Basename(p: string): (r: string)
    ensures |r| <= |p| && p == p[..|p| - |r|] + r
    ensures forall k :: 0 <= k < |r| ==> r[k] != '/'
    ensures |r| < |p| ==> p[|p| - |r| - 1] == '/'
  {
    p[RFindSlash(p) + 1..]
  }

  /** `p.split('/')[0]`: everything before the first slash. */
  function FirstSegment(p: string): (r: string)
    ensures r <= p
    ensures forall k :: 0 <= k < |r| ==> r[k] != '/'
    ensures |r| < |p| ==> p[|r|] == '/'
  {
    if p == "" || p[0] == '/' then "" else [p[0]] + FirstSegment(p[1..])
  }

  /**
    The dirname of a relative path is strictly shorter and is again relative or
    empty: repeated dirname walks such a path up to "" and never reaches "/".
   */
  lemma DirnameOfRelative(p: string)
    requires IsRelative(p)
    ensures |Dirname(p)| < |p|
    ensures Dirname(p) == "" || IsRelative(Dirname(p))
    ensures Dirname(p) != "" ==> p[|Dirname(p)|] == '/'
    ensures Dirname(p) == "" <==> RFindSlash(p) < 0
  {
  }

  /**
    For a well-formed path, dirname and basename split it at its last slash,
    and both halves are well-formed again.
   */
  lemma DirnameBasenameSplit(p: string)
    requires WellFormed(p)
    ensures RFindSlash(p) >= 0 ==>
      && p == Dirname(p) + "/" + Basename(p)
      && WellFormed(Dirname(p)) && WellFormed(Basename(p))
    ensures RFindSlash(p) < 0 ==> Dirname(p) == "" && Basename(p) == p
  {
    var i := RFindSlash(p);
    if 0 <= i {
      assert 0 < i < |p| - 1;
      var head := p[..i + 1];
      assert head[0] == p[0];
      assert !AllSlashes(head);
      var r := RStripSlashes(head);
      assert p[i - 1] != '/';
      assert |r| == i;
      assert r == p[..i];
      assert Basename(p) == p[i + 1..];
      assert p == p[..i] + "/" + p[i + 1..];
      var b := p[i + 1..];
      assert b[0] == p[i + 1];
      forall k | 0 < k < |b| ensures !(b[k - 1] == '/' && b[k] == '/') {
        assert b[k - 1] == p[i + k] && b[k] == p[i + 1 + k];
      }
    }
  }

  /**
    Cutting a path at a slash (or at its end) does not change its first segment.
   */
  lemma FirstSegmentOfPrefix(q: string, p: string)
    requires q <= p
    requires |q| == |p| || p[|q|] == '/'
    ensures FirstSegment(q) == FirstSegment(p)
  {
  }

  /** The dirname of a nested relative path begins with the same segment. */
  lemma FirstSegmentOfDirname(p: string)
    requires IsRelative(p) && Dirname(p) != ""
    ensures FirstSegment(Dirname(p)) == FirstSegment(p)
  {
    DirnameOfRelative(p);
    FirstSegmentOfPrefix(Dirname(p), p);
  }

  /** A relative path with no slash in it is its own first segment. */
  lemma FirstSegmentOfTopLevel(p: string)
    requires RFindSlash(p) < 0
    ensures FirstSegment(p) == p
  {
  }

  /** A single path segment: non-empty and without a slash. */
  predicate IsName(s: string)
  {
    s != "" && forall k :: 0 <= k < |s| ==> s[k] != '/'
  }

  /** A single segment has no directory part and is its own basename and first segment. */
  lemma NameParts(n: string)
    requires IsName(n)
    ensures IsRelative(n)
    ensures RFindSlash(n) < 0
    ensures Dirname(n) == "" && Basename(n) == n && FirstSegment(n) == n
  {
  }

  /**
    Joining a path that does not end with a slash and a segment with "/" is
    undone by dirname and basename, and keeps the first segment: the converse
    of `DirnameBasenameSplit`.
   */
  lemma JoinParts(d: string, n: string)
    requires d != "" && d[|d| - 1] != '/' && IsName(n)
    ensures IsRelative(d + "/" + n) == IsRelative(d)
    ensures RFindSlash(d + "/" + n) == |d|
    ensures Dirname(d + "/" + n) == d && Basename(d + "/" + n) == n
    ensures FirstSegment(d + "/" + n) == FirstSegment(d)
  {
    var p := d + "/" + n;
    var i := RFindSlash(p);
    assert p[|d|] == '/';
    assert i == |d|;
    var head := p[..i + 1];
    assert head == d + "/";
    assert head[|d| - 1] != '/';
    assert RStripSlashes(head) == RStripSlashes(d) by {
      assert head[..|head| - 1] == d;
    }
    assert p[i + 1..] == n;
    assert p[..|d|] == d;
    FirstSegmentOfPrefix(d, p);
  }
}
