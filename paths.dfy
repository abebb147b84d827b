/**
 * The export-path derivation of giffer's main window, with the Windows path
 * helpers it relies on (`dirname`, `basename`, `splitext`, `join`), where
 * both '/' and '\' separate path components. Drive prefixes such as "C:"
 * get no special treatment.
 */
module Paths {

  predicate IsSep(c: char) {
    c == '/' || c == '\\'
  }

  predicate NoSep(s: string) {
    forall k :: 0 <= k < |s| ==> !IsSep(s[k])
  }

  /** Index just past the last separator of `s`; 0 when `s` has none. */
  function TailStart(s: string): (i: nat)
    ensures i <= |s|
    ensures NoSep(s[i..])
    ensures i > 0 ==> IsSep(s[i - 1])
  {
    if s == [] then 0
    else if IsSep(s[|s| - 1]) then |s|
    else TailStart(s[..|s| - 1])
  }

  /** The last path component: the longest suffix without a separator. */
  function Basename(s: string): (b: string)
    ensures NoSep(b)
    ensures |b| <= |s| && s[|s| - |b|..] == b
    ensures |b| < |s| ==> IsSep(s[|s| - |b| - 1])
  {
    s[TailStart(s)..]
  }

  /** `s` with its trailing separators removed. */
  function StripTrailingSeps(s: string): (r: string)
    ensures |r| <= |s| && s[..|r|] == r
    ensures r == [] || !IsSep(r[|r| - 1])
    ensures forall k :: |r| <= k < |s| ==> IsSep(s[k])
  {
    if s != [] && IsSep(s[|s| - 1]) then StripTrailingSeps(s[..|s| - 1]) else s
  }

  /** Everything before the last component, without trailing separators
      unless it consists of separators only (the root). */
  function Dirname(s: string): (d: string)
    ensures |d| <= |s| && s[..|d|] == d
    ensures |d| + |Basename(s)| <= |s|
    ensures NoSep(s) ==> d == ""
    ensures |d| <= TailStart(s) && (TailStart(s) > 0 ==> |d| > 0)
    ensures forall k :: |d| <= k < TailStart(s) ==> IsSep(s[k])
    ensures d == "" || !IsSep(d[|d| - 1]) || forall k :: 0 <= k < |d| ==> IsSep(d[k])
    ensures (forall k :: 0 <= k < TailStart(s) ==> IsSep(s[k])) ==> d == s[..TailStart(s)]
  {
    var head := s[..TailStart(s)];
    var stripped := StripTrailingSeps(head);
    if stripped == [] then head else stripped
  }

  predicate AllDots(s: string) {
    forall k :: 0 <= k < |s| ==> s[k] == '.'
  }

  /** Index of the last '.' in `s`, or -1 when there is none. */
  function LastDot(s: string): (i: int)
    ensures -1 <= i < |s|
    ensures i >= 0 ==> s[i] == '.'
    ensures forall k :: i < k < |s| ==> s[k] != '.'
  {
    if s == [] then -1
    else if s[|s| - 1] == '.' then |s| - 1
    else LastDot(s[..|s| - 1])
  }

  /** The first half of `splitext`: the path without the extension of its
      last component. The extension starts at the last dot of that
      component, provided some character before that dot is not a dot
      (so ".profile" and "..gif" have no extension). */
  function Root(s: string): (r: string)
    ensures |r| <= |s| && s[..|r|] == r
    ensures TailStart(s) <= |r|
    ensures |r| < |s| ==> s[|r|] == '.' && NoSep(s[|r|..])
    ensures |r| < |s| ==> forall k :: |r| < k < |s| ==> s[k] != '.'
    ensures |r| < |s| ==> exists k :: TailStart(s) <= k < |r| && s[k] != '.'
    ensures forall i, k :: TailStart(s) <= k < i < |s| && s[i] == '.' && s[k] != '.' ==> |r| < |s|
  {
    var t := TailStart(s);
    var name := s[t..];
    var dot := LastDot(name);
    ExtensionFound(name);
    if dot > 0 && !AllDots(name[..dot]) then s[..t + dot] else s
  }

  /** A dot with some non-dot before it makes `LastDot` find an extension
      that `Root` drops. */
  lemma ExtensionFound(name: string)
    ensures forall i, k :: 0 <= k < i < |name| && name[i] == '.' && name[k] != '.' ==>
      LastDot(name) > 0 && !AllDots(name[..LastDot(name)])
  {
    var dot := LastDot(name);
    forall i, k | 0 <= k < i < |name| && name[i] == '.' && name[k] != '.'
      ensures dot > 0 && !AllDots(name[..dot])
    {
      assert dot >= i;
      assert name[..dot][k] != '.';
    }
  }

  /** `join` for a second argument that is a bare file name: a backslash is
      inserted unless the directory is empty or already ends in a separator. */
  function Join(dir: string, name: string): (p: string)
    ensures |p| >= |name| && p[|p| - |name|..] == name
    ensures dir == "" ==> p == name
    ensures dir != "" ==> |dir| <= |p| && p[..|dir|] == dir
    ensures |p| - |name| == 0 || IsSep(p[|p| - |name| - 1])
    ensures dir != "" ==> |p| == |dir| + |name| + (if IsSep(dir[|dir| - 1]) then 0 else 1)
    ensures dir != "" && !IsSep(dir[|dir| - 1]) ==> p[|dir|] == '\\'
  {
    if dir == "" then name
    else if IsSep(dir[|dir| - 1]) then dir + name
    else dir + "\\" + name
  }

  function Swap(c: char): char {
    if c == '\\' then '/' else c
  }

  /** `s.replace('\\', '/')`. */
  function Slashes(s: string): (r: string)
    ensures |r| == |s|
    ensures forall k :: 0 <= k < |r| ==> r[k] != '\\' && IsSep(r[k]) == IsSep(s[k])
    ensures forall k :: 0 <= k < |s| && s[k] != '\\' ==> r[k] == s[k]
    ensures forall k :: 0 <= k < |s| && s[k] == '\\' ==> r[k] == '/'
  {
    seq(|s|, k requires 0 <= k < |s| => Swap(s[k]))
  }

  predicate EndsWithGif(s: string) {
    |s| >= 4 && s[|s| - 4..] == ".gif"
  }

  /** The file name an export of `video` gets: its stem plus ".gif". */
  function GifName(video: string): string {
    Basename(Root(video) + ".gif")
  }

  /** The directory an export of `video` goes to: the configured export
      directory, or else the video's own directory. */
  function ExportDirectory(video: string, exportDir: string): string {
    if exportDir != "" then exportDir else Dirname(video)
  }

  /** Where an export of `video` goes: the export directory joined with the
      video's stem plus ".gif", every backslash turned into a slash; "" when
      no video is loaded. */
  function ExportPath(video: string, exportDir: string): (p: string)
    ensures video == "" <==> p == ""
    ensures forall k :: 0 <= k < |p| ==> p[k] != '\\'
  {
    if video == "" then ""
    else Slashes(Join(ExportDirectory(video, exportDir), GifName(video)))
  }

  /** A loaded video is exported under its own stem plus ".gif". */
  lemma ExportPathFileName(video: string, exportDir: string)
    requires video != ""
    ensures Basename(ExportPath(video, exportDir)) == Basename(Root(video)) + ".gif"
  {
    GifNameIsStem(video);
    JoinedBasename(ExportDirectory(video, exportDir), GifName(video));
  }

  /** A separator-free name joined onto any directory is the last component
      of the result, also after the backslashes are rewritten. */
  lemma JoinedBasename(dir: string, name: string)
    requires NoSep(name)
    ensures Basename(Slashes(Join(dir, name))) == name
  {
    SlashesKeepsBasename(Join(dir, name), name);
  }

  /** The export's file name is the stem of the video's last component
      followed by ".gif". */
  lemma GifNameIsStem(video: string)
    ensures GifName(video) == Basename(Root(video)) + ".gif"
  {
    assert NoSep(".gif");
    BasenameAppend(Root(video), ".gif");
  }

  /** A loaded video's export path always ends in ".gif". */
  lemma ExportPathEndsWithGif(video: string, exportDir: string)
    requires video != ""
    ensures EndsWithGif(ExportPath(video, exportDir))
  {
    var p := ExportPath(video, exportDir);
    ExportPathFileName(video, exportDir);
    EndsWithGifSuffix(p, Basename(Root(video)));
  }

  /** A path whose last component is a stem plus ".gif" ends in ".gif". */
  lemma EndsWithGifSuffix(p: string, stem: string)
    requires Basename(p) == stem + ".gif"
    ensures EndsWithGif(p)
  {
    var b := Basename(p);
    assert p[|p| - 4..] == b[|b| - 4..];
  }

  /** A loaded video's export path starts with the export directory (the
      configured one, or else the video's own), backslashes rewritten. */
  lemma ExportPathDirectory(video: string, exportDir: string)
    requires video != ""
    ensures var p := ExportPath(video, exportDir);
      var dir := ExportDirectory(video, exportDir);
      |dir| <= |p| && p[..|dir|] == Slashes(dir)
  {
    var dir := ExportDirectory(video, exportDir);
    SlashesPrefix(Join(dir, GifName(video)), dir);
  }

  /** Appending separator-free text does not move the start of the last
      component. */
  lemma {:induction false} TailStartAppend(s: string, g: string)
    requires NoSep(g)
    ensures TailStart(s + g) == TailStart(s)
  {
    if g == [] {
      assert s + g == s;
    } else {
      var h := g[..|g| - 1];
      assert (s + g)[..|s + g| - 1] == s + h;
      assert !IsSep(g[|g| - 1]);
      TailStartAppend(s, h);
    }
  }

  /** Appending separator-free text (such as ".gif") appends it to the last
      component. */
  lemma BasenameAppend(s: string, g: string)
    requires NoSep(g)
    ensures Basename(s + g) == Basename(s) + g
  {
    TailStartAppend(s, g);
    var t := TailStart(s);
    assert (s + g)[t..] == s[t..] + g;
  }

  /** Rewriting backslashes keeps every separator a separator and every other
      character a non-separator, so the last component starts where it did. */
  lemma {:induction false} TailStartSlashes(p: string)
    ensures TailStart(Slashes(p)) == TailStart(p)
  {
    if p != [] {
      var q := Slashes(p);
      assert q[..|q| - 1] == Slashes(p[..|p| - 1]);
      assert IsSep(q[|q| - 1]) == IsSep(p[|p| - 1]);
      TailStartSlashes(p[..|p| - 1]);
    }
  }

  /** A separator-free name that ends a path right after a separator (or is
      the whole path) is still its last component after the backslashes are
      rewritten. */
  lemma TailStartOfJoined(p: string, name: string)
    requires NoSep(name)
    requires |p| >= |name| && p[|p| - |name|..] == name
    requires |p| - |name| == 0 || IsSep(p[|p| - |name| - 1])
    ensures TailStart(p) == |p| - |name|
  {
    var dir := p[..|p| - |name|];
    assert p == dir + name;
    TailStartAppend(dir, name);
  }

  lemma SlashesSuffix(p: string, name: string)
    requires NoSep(name)
    requires |p| >= |name| && p[|p| - |name|..] == name
    ensures Slashes(p)[|p| - |name|..] == name
  {
    var n := |p| - |name|;
    var q := Slashes(p);
    forall k | n <= k < |p|
      ensures q[k] == name[k - n]
    {
      assert p[k] == name[k - n];
    }
  }

  lemma SlashesKeepsBasename(p: string, name: string)
    requires NoSep(name)
    requires |p| >= |name| && p[|p| - |name|..] == name
    requires |p| - |name| == 0 || IsSep(p[|p| - |name| - 1])
    ensures Basename(Slashes(p)) == name
  {
    TailStartOfJoined(p, name);
    TailStartSlashes(p);
    SlashesSuffix(p, name);
  }

  /** Rewriting backslashes maps a prefix to the rewritten prefix. */
  lemma SlashesPrefix(p: string, dir: string)
    requires |dir| <= |p| && p[..|dir|] == dir
    ensures Slashes(p)[..|dir|] == Slashes(dir)
  {
  }

}
