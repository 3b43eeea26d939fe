/** The three functions of Node's POSIX `path` module that the supervisor calls: `extname`
    (change filter and parser selection), `basename` (the "changed" log line) and `dirname`
    (the default watch path). Paths are `/`-separated. */
module Paths {
  import opened Text

  /** The path without its trailing `/` characters. */
  function TrimTrailingSlashes(p: string): (r: string)
    ensures |r| <= |p| && r == p[..|r|]
    ensures r == [] || r[|r| - 1] != '/'
    ensures forall i :: |r| <= i < |p| ==> p[i] == '/'
  {
    if |p| > 0 && p[|p| - 1] == '/' then TrimTrailingSlashes(p[..|p| - 1]) else p
  }

  /** The last segment: what follows the last `/` once trailing slashes are ignored. */
  function LastSegment(p: string): (r: string)
    ensures '/' !in r
  {
    var t := TrimTrailingSlashes(p);
    t[LastIndexOf(t, '/') + 1..]
  }

  /** `path.basename(p)`. */
  function Basename(p: string): (r: string)
    ensures '/' !in r
  {
    LastSegment(p)
  }

  /** `path.extname(p)`: of the last segment, the part from its last `.` on; empty when the
      segment has no `.`, when its only leading `.` is that last one, or when it is `..`. */
  function ExtName(p: string): (r: string)
    ensures r == [] || (r[0] == '.' && '.' !in r[1..] && '/' !in r)
  {
    var seg := LastSegment(p);
    var d := LastIndexOf(seg, '.');
    if d <= 0 || seg == ".." then "" else seg[d..]
  }

  /** `path.dirname(p)`: everything before the `/` that precedes the last segment, `.` for a
      bare name, `/` or `//` at the root. */
  function Dirname(p: string): (r: string)
    ensures r != []
  {
    if |p| == 0 then "."
    else
      var hasRoot := p[0] == '/';
      var t := TrimTrailingSlashes(p);
      var i := LastIndexOf(t, '/');
      if i < 1 then (if hasRoot then "/" else ".")
      else if hasRoot && i == 1 then "//"
      else p[..i]
  }

  /** Only the last segment matters to `extname` and `basename`. */
  lemma LastSegmentOfChild(dir: string, name: string)
    requires name != [] && '/' !in name
    ensures LastSegment(dir + "/" + name) == name
  {
    var p := dir + "/" + name;
    assert p[|p| - 1] == name[|name| - 1];
    assert TrimTrailingSlashes(p) == p;
    var i := LastIndexOf(p, '/');
    assert p[|dir|] == '/';
    assert i == |dir|;
    assert p[i + 1..] == name;
  }

  lemma ExtNameOfChild(dir: string, name: string)
    requires name != [] && '/' !in name
    ensures ExtName(dir + "/" + name) == ExtName(name)
    ensures Basename(dir + "/" + name) == name
  {
    LastSegmentOfChild(dir, name);
    LastSegmentOfName(name);
  }

  lemma LastSegmentOfName(name: string)
    requires name != [] && '/' !in name
    ensures LastSegment(name) == name
  {
    assert name[|name| - 1] in name;
    assert TrimTrailingSlashes(name) == name;
  }

  /** `extname` of `stem.ext` recovers `.ext` when the stem is not empty (round trip with
      appending an extension). */
  lemma ExtNameOfStem(stem: string, ext: string)
    requires stem != [] && '/' !in stem && '/' !in ext && '.' !in ext
    requires stem + "." + ext != ".."
    ensures ExtName(stem + "." + ext) == "." + ext
  {
    var name := stem + "." + ext;
    StemAndExtension(stem, ext);
    LastSegmentOfName(name);
    ExtNameAtLastDot(name);
    assert name[|stem|..] == "." + ext;
  }

  /** A segment whose last `.` is not its first character, other than `..`, has the
      extension starting at that `.`. */
  lemma ExtNameAtLastDot(p: string)
    requires LastIndexOf(LastSegment(p), '.') > 0 && LastSegment(p) != ".."
    ensures ExtName(p) == LastSegment(p)[LastIndexOf(LastSegment(p), '.')..]
  {
  }

  /** The last `.` of `stem.ext` is the one added, and no `/` appears. */
  lemma StemAndExtension(stem: string, ext: string)
    requires '/' !in stem && '/' !in ext && '.' !in ext
    ensures '/' !in stem + "." + ext
    ensures LastIndexOf(stem + "." + ext, '.') == |stem|
  {
    var name := stem + "." + ext;
    assert name[|stem|] == '.' && name[|stem| + 1..] == ext;
    var d := LastIndexOf(name, '.');
    assert d >= |stem|;
  }

  /** The parent-directory segment `..` has no extension, although it ends in a dot that
      is not its first character. */
  lemma ExtNameOfDotDot(dir: string, seg: string)
    requires seg == ".."
    ensures ExtName(seg) == ""
    ensures ExtName(dir + "/" + seg) == ""
  {
    assert '/' !in seg by {
      assert seg[0] == '.' && seg[1] == '.';
    }
    LastSegmentOfName(seg);
    LastSegmentOfChild(dir, seg);
  }

  /** A segment whose only dot is its first character, such as `.bashrc`, has no extension,
      alone or as the last segment of a path. */
  lemma ExtNameOfDotfile(dir: string, name: string)
    requires |name| >= 1 && name[0] == '.' && '.' !in name[1..] && '/' !in name
    ensures ExtName(name) == ""
    ensures ExtName(dir + "/" + name) == ""
  {
    LastSegmentOfName(name);
    LastSegmentOfChild(dir, name);
    ExtNameOfLeadingDotSegment(name);
    ExtNameOfLeadingDotSegment(dir + "/" + name);
  }

  lemma ExtNameOfLeadingDotSegment(p: string)
    requires var seg := LastSegment(p); |seg| >= 1 && seg[0] == '.' && '.' !in seg[1..]
    ensures ExtName(p) == ""
  {
    var seg := LastSegment(p);
    assert LastIndexOf(seg, '.') == 0;
  }

  /** A segment without a dot has no extension. */
  lemma ExtNameWithoutDot(name: string)
    requires name != [] && '/' !in name && '.' !in name
    ensures ExtName(name) == ""
  {
    LastSegmentOfName(name);
  }

  /** The default watch path of a script given by a bare name is the current directory, and
      that of `dir/name` is `dir`. */
  lemma DirnameOfChild(dir: string, name: string)
    requires '/' !in name && name != []
    requires dir != [] && dir[|dir| - 1] != '/'
    ensures Dirname(dir + "/" + name) == dir
    ensures Dirname(name) == "."
  {
    var p := dir + "/" + name;
    assert p[|p| - 1] == name[|name| - 1];
    assert TrimTrailingSlashes(p) == p;
    var i := LastIndexOf(p, '/');
    assert p[|dir|] == '/';
    assert i == |dir|;
    if |dir| == 1 {
      assert p[0] == dir[0] != '/';
    }
    assert p[..i] == dir;
    assert name[|name| - 1] in name;
    assert TrimTrailingSlashes(name) == name;
  }
}
