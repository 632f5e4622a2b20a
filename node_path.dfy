/**
 * Node's `path.extname` (POSIX flavour), which the tool calls on every
 * config and template specifier. It is a library function, not code of the
 * tool; it is modelled here, separately, after Node's documented rule:
 * trailing `/`s are ignored, the last path segment is taken, and the
 * extension is that segment's suffix from its last `.`; it is empty when the
 * segment has no `.`, when its only candidate `.` is its first character,
 * and when the segment is exactly `..`.
 */
module NodePath {
  import opened JsStrings

  /** The path without its trailing `/`s. */
  function TrimTrailingSlashes(p: string): (q: string)
    ensures |q| <= |p| && q == p[..|q|]
    ensures |q| == 0 || q[|q| - 1] != '/'
    ensures forall k :: |q| <= k < |p| ==> p[k] == '/'
  {
    if |p| > 0 && p[|p| - 1] == '/' then TrimTrailingSlashes(p[..|p| - 1]) else p
  }

  /** The text after the last `/` (all of `p` when it has none). */
  function LastSegment(p: string): (seg: string)
    ensures '/' !in seg
    ensures |seg| <= |p| && seg == p[|p| - |seg|..]
    ensures |seg| < |p| ==> p[|p| - |seg| - 1] == '/'
  {
    var i := LastIndexOf(p, '/');
    p[i + 1..]
  }

  /** `path.extname(p)`. */
  function ExtName(p: string): (ext: string)
    ensures ext == "" || (ext[0] == '.' && '.' !in ext[1..] && '/' !in ext)
  {
    var seg := LastSegment(TrimTrailingSlashes(p));
    var dot := LastIndexOf(seg, '.');
    if dot <= 0 || seg == ".." then "" else seg[dot..]
  }

  /** Trailing separators do not change the extension: `extname("a.json/") == ".json"`. */
  lemma ExtNameIgnoresTrailingSlash(p: string)
    ensures ExtName(p + "/") == ExtName(p)
  {
    assert (p + "/")[..|p|] == p;
  }

  /** Only the last segment counts: the directories in front of it never matter. */
  lemma ExtNameOfLastSegment(dir: string, name: string)
    requires name != "" && '/' !in name
    ensures ExtName(dir + "/" + name) == ExtName(name)
  {
    var p := dir + "/" + name;
    assert p[|p| - 1] == name[|name| - 1];
    assert TrimTrailingSlashes(p) == p;
    BareNameIsLastSegment(name);
    assert p[|dir| + 1..] == name;
    LastIndexOfSole(p, '/', |dir|);
  }

  /** A non-empty name without `/` is its own last segment. */
  lemma BareNameIsLastSegment(name: string)
    requires name != "" && '/' !in name
    ensures LastSegment(TrimTrailingSlashes(name)) == name
  {
    assert name[|name| - 1] != '/';
    assert TrimTrailingSlashes(name) == name;
    assert LastIndexOf(name, '/') == -1;
  }

  /** The extension of a bare name is its suffix from its last `.`, when that `.` is not its first character. */
  lemma ExtNameOfBareName(name: string, dot: nat)
    requires name != "" && '/' !in name && name != ".."
    requires 0 < dot < |name| && name[dot] == '.' && '.' !in name[dot + 1..]
    ensures ExtName(name) == name[dot..]
  {
    BareNameIsLastSegment(name);
    LastIndexOfSole(name, '.', dot);
  }

  /** A file name `stem.e` with a `.`-free, `/`-free `e` has extension `.e`. */
  lemma ExtNameOfFileName(stem: string, e: string)
    requires stem != "" && '/' !in stem
    requires '/' !in e && '.' !in e
    requires stem + "." + e != ".."
    ensures ExtName(stem + "." + e) == "." + e
  {
    var name := stem + "." + e;
    assert name == stem + ("." + e);
    assert name[|stem| + 1..] == e;
    ExtNameOfBareName(name, |stem|);
  }

  /** A segment without a `.` has no extension. */
  lemma ExtNameWithoutDot(dir: string, name: string)
    requires name != "" && '/' !in name && '.' !in name
    ensures ExtName(dir + "/" + name) == "" && ExtName(name) == ""
  {
    ExtNameOfLastSegment(dir, name);
    BareNameIsLastSegment(name);
  }

  /** A dot file such as `.env` has no extension: its only `.` is its first character. */
  lemma ExtNameOfDotFile(name: string)
    requires name != "" && '/' !in name && '.' !in name
    ensures ExtName("." + name) == ""
  {
    var seg := "." + name;
    assert '/' !in seg;
    BareNameIsLastSegment(seg);
    assert seg[1..] == name;
    LastIndexOfSole(seg, '.', 0);
  }
}
