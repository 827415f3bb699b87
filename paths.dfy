/** The `os.path` operations the modelled code uses on POSIX paths:
    `os.path.join` for two components, the extension half of
    `os.path.splitext`, and `os.path.expanduser` for the current user. */
module Paths {
  import opened Text

  /** `posixpath.join(a, b)`: an absolute `b` replaces `a`; otherwise a `/` is
      inserted unless `a` is empty or already ends in one. */
  function Join(a: string, b: string): (r: string)
    ensures |b| <= |r| && r[|r| - |b|..] == b
    ensures (b == [] || b[0] != '/') ==> |a| <= |r| && r[..|a|] == a
  {
    if b != [] && b[0] == '/' then b
    else if a == [] || a[|a| - 1] == '/' then a + b
    else a + "/" + b
  }

  /** The prefix that `Join(a, b)` puts in front of a relative `b`. */
  lemma JoinRelative(a: string, b: string) returns (pre: string)
    requires b == [] || b[0] != '/'
    ensures Join(a, b) == pre + b && (pre == a || pre == a + "/")
  {
    if a == [] || a[|a| - 1] == '/' {
      pre := a;
    } else {
      pre := a + "/";
    }
  }

  /** `os.path.splitext(p)[1]`: the text from the last `.` of the last path
      component, provided that component has something other than dots
      before it; otherwise "". */
  function Ext(p: string): (r: string)
    ensures r == [] || (|r| <= |p| && r == p[|p| - |r|..] && r[0] == '.')
    ensures forall k :: 0 <= k < |r| ==> r[k] != '/'
    ensures forall k :: 1 <= k < |r| ==> r[k] != '.'
  {
    var s := LastIndexOf(p, '/');
    var d := LastIndexOf(p, '.');
    if d > s && exists k :: s + 1 <= k < d && p[k] != '.' then
      assert forall k :: 0 <= k < |p[d..]| ==> p[d..][k] == p[d + k];
      p[d..]
    else []
  }

  /** The extension is found once the last `/`, the last `.` and a non-dot
      between them are known. */
  lemma ExtAt(p: string, d: nat, w: nat)
    requires LastIndexOf(p, '/') < w < d && LastIndexOf(p, '.') == d
    requires p[w] != '.'
    ensures Ext(p) == p[d..]
  {
  }

  /** A file-name stem: non-empty, with no `.` and no `/`. */
  predicate PlainStem(stem: string) {
    stem != [] && forall k :: 0 <= k < |stem| ==> stem[k] != '.' && stem[k] != '/'
  }

  /** An extension: a `.` followed by no `.` and no `/`. */
  predicate PlainExt(ext: string) {
    ext != [] && ext[0] == '.'
    && forall k :: 0 <= k < |ext| ==> ext[k] != '/' && (k > 0 ==> ext[k] != '.')
  }

  lemma LastDotOfFileName(pre: string, stem: string, ext: string)
    requires PlainExt(ext)
    ensures LastIndexOf(pre + stem + ext, '.') == |pre| + |stem|
  {
    var p := pre + stem + ext;
    var dot := |pre| + |stem|;
    forall k | dot < k < |p| ensures p[k] != '.' {
      assert p[k] == ext[k - dot];
    }
    assert p[dot] == ext[0];
    LastIndexOfAt(p, '.', dot);
  }

  lemma LastSlashOfFileName(pre: string, stem: string, ext: string)
    requires PlainStem(stem) && PlainExt(ext)
    ensures LastIndexOf(pre + stem + ext, '/') < |pre|
  {
    var p := pre + stem + ext;
    var dot := |pre| + |stem|;
    forall k | |pre| <= k < |p| ensures p[k] != '/' {
      if k < dot {
        assert p[k] == stem[k - |pre|];
      } else {
        assert p[k] == ext[k - dot];
      }
    }
    LastIndexOfBelow(p, '/', |pre|);
  }

  /** Whatever precedes it, a final component `stem + ext` has extension
      `ext`. */
  lemma ExtOfSuffix(pre: string, stem: string, ext: string)
    requires PlainStem(stem) && PlainExt(ext)
    ensures Ext(pre + stem + ext) == ext
  {
    var p := pre + stem + ext;
    var dot := |pre| + |stem|;
    LastDotOfFileName(pre, stem, ext);
    LastSlashOfFileName(pre, stem, ext);
    assert p[|pre|] == stem[0];
    ExtAt(p, dot, |pre|);
    assert p[dot..] == ext;
  }

  /** A file `stem + ext` joined to any directory has extension `ext`. */
  lemma ExtOfFileName(dir: string, stem: string, ext: string)
    requires PlainStem(stem) && PlainExt(ext)
    ensures Ext(Join(dir, stem + ext)) == ext
  {
    var pre := JoinRelative(dir, stem + ext);
    assert pre + (stem + ext) == pre + stem + ext;
    ExtOfSuffix(pre, stem, ext);
  }

  /** `s.rstrip("/")`. */
  function RStripSlash(s: string): (r: string)
    ensures |r| <= |s| && r == s[..|r|]
    ensures r == [] || r[|r| - 1] != '/'
    ensures forall k :: |r| <= k < |s| ==> s[k] == '/'
  {
    if s != [] && s[|s| - 1] == '/' then RStripSlash(s[..|s| - 1]) else s
  }

  /** The path starts with the current user's `~`: `~` alone or `~/...`. */
  predicate OwnTilde(path: string) {
    path != [] && path[0] == '~' && (|path| == 1 || path[1] == '/')
  }

  /** `posixpath.expanduser(path)`, with `home` the home directory Python
      finds (`HOME`, or the password database). A path that does not start
      with `~` is returned as it is; `~` is replaced by `home` without its
      trailing slashes, and an empty result becomes `/`. `~user` is left
      unexpanded. */
  function ExpandUser(path: string, home: string): (r: string)
    ensures !OwnTilde(path) ==> r == path
    ensures OwnTilde(path) ==> |path| - 1 <= |r| && r[|r| - (|path| - 1)..] == path[1..]
    ensures OwnTilde(path) && home != [] && home[|home| - 1] != '/' ==> r == home + path[1..]
    ensures OwnTilde(path) && RStripSlash(home) == [] ==> r == (if |path| == 1 then "/" else path[1..])
  {
    if !OwnTilde(path) then path
    else
      var expanded := RStripSlash(home) + path[1..];
      if expanded == [] then "/" else expanded
  }

  /** When the home directory itself does not start with `~`, an expanded
      path no longer starts with `~`... */
  lemma ExpandedHasNoTilde(path: string, home: string)
    requires home == [] || home[0] != '~'
    ensures !OwnTilde(ExpandUser(path, home))
  {
    if OwnTilde(path) {
      var h := RStripSlash(home);
      var e := h + path[1..];
      if h != [] {
        assert e[0] == h[0] == home[0];
      } else if |path| > 1 {
        assert e[0] == path[1];
      }
    }
  }

  /** ...so expanding twice is expanding once. */
  lemma ExpandUserIdempotent(path: string, home: string)
    requires home == [] || home[0] != '~'
    ensures ExpandUser(ExpandUser(path, home), home) == ExpandUser(path, home)
  {
    ExpandedHasNoTilde(path, home);
  }
}
