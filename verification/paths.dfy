/**
 * The two Unix path operations the core uses: `Path::file_name` (the last
 * normal component of a path) and `PathBuf::join` with a relative path.
 */
module Paths {
  import opened Wrappers

  /** The index where the last `/`-separated segment of `p` begins. */
  function SegmentStart(p: string): (k: nat)
    ensures k <= |p|
    ensures forall i :: k <= i < |p| ==> p[i] != '/'
    ensures k > 0 ==> p[k - 1] == '/'
    decreases |p|
  {
    if |p| == 0 then 0
    else if p[|p| - 1] == '/' then |p|
    else SegmentStart(p[..|p| - 1])
  }

  /**
   * `Path::new(p).file_name()`: the last component of `p` once empty
   * segments (repeated or trailing separators) and `.` segments are skipped;
   * nothing when that component is `..`, or when no component is left (the
   * empty path, `/`, `.`).
   */
  function FileName(p: string): Option<string>
    decreases |p|
  {
    var k := SegmentStart(p);
    var segment := p[k..];
    if segment == "" || segment == "." then
      if k == 0 then None else FileName(p[..k - 1])
    else if segment == ".." then None
    else Some(segment)
  }

  /** A file name is one nonempty component: no separator, not `.`, not `..`. */
  lemma {:induction false} FileNameIsComponent(p: string)
    ensures FileName(p).Some? ==>
      var n := FileName(p).value;
      n != "" && n != "." && n != ".." && forall i :: 0 <= i < |n| ==> n[i] != '/'
    decreases |p|
  {
    var k := SegmentStart(p);
    var segment := p[k..];
    if (segment == "" || segment == ".") && k > 0 {
      FileNameIsComponent(p[..k - 1]);
    }
  }

  lemma {:induction false} SegmentStartNoSeparator(name: string)
    requires forall i :: 0 <= i < |name| ==> name[i] != '/'
    ensures SegmentStart(name) == 0
    decreases |name|
  {
    if |name| > 0 {
      SegmentStartNoSeparator(name[..|name| - 1]);
    }
  }

  lemma {:induction false} SegmentStartAfterSeparator(dir: string, name: string)
    requires forall i :: 0 <= i < |name| ==> name[i] != '/'
    ensures SegmentStart(dir + "/" + name) == |dir| + 1
    decreases |name|
  {
    var p := dir + "/" + name;
    if |name| > 0 {
      assert p[..|p| - 1] == dir + "/" + name[..|name| - 1];
      SegmentStartAfterSeparator(dir, name[..|name| - 1]);
    }
  }

  /** The file name of `dir/name` is `name`, whatever `dir` is. */
  lemma FileNameOfChild(dir: string, name: string)
    requires forall i :: 0 <= i < |name| ==> name[i] != '/'
    requires name != "" && name != "." && name != ".."
    ensures FileName(dir + "/" + name) == Some(name)
  {
    var p := dir + "/" + name;
    SegmentStartAfterSeparator(dir, name);
    assert p[|dir| + 1..] == name;
  }

  /** A trailing separator does not change the file name. */
  lemma TrailingSeparatorIgnored(p: string)
    ensures FileName(p + "/") == FileName(p)
  {
    var q := p + "/";
    assert SegmentStart(q) == |q|;
    assert q[..|q| - 1] == p;
  }

  /** The empty path, `.` and `..` have no file name. */
  lemma NoFileNameOfBareNames()
    ensures FileName("") == None && FileName(".") == None && FileName("..") == None
  {
    SegmentStartNoSeparator(".");
    SegmentStartNoSeparator("..");
    assert "."[0..] == ".";
    assert ".."[0..] == "..";
  }

  /** A path made only of separators (`/`, `//`, …) has no file name. */
  lemma {:induction false} NoFileNameOfSeparators(p: string)
    requires forall i :: 0 <= i < |p| ==> p[i] == '/'
    ensures FileName(p) == None
    decreases |p|
  {
    if |p| > 0 {
      assert SegmentStart(p) == |p|;
      NoFileNameOfSeparators(p[..|p| - 1]);
    }
  }

  /** A path whose last component is `..` has no file name, whatever comes before it. */
  lemma NoFileNameOfParentRef(dir: string)
    ensures FileName(dir + "/..") == None
  {
    var p := dir + "/" + "..";
    assert p == dir + "/..";
    SegmentStartAfterSeparator(dir, "..");
    assert p[|dir| + 1..] == "..";
  }

  /** A trailing `.` component is skipped: `dir/.` has the file name of `dir`. */
  lemma CurrentDirSkipped(dir: string)
    ensures FileName(dir + "/.") == FileName(dir)
  {
    var p := dir + "/" + ".";
    assert p == dir + "/.";
    SegmentStartAfterSeparator(dir, ".");
    assert p[|dir| + 1..] == ".";
    assert p[..|dir|] == dir;
  }

  /**
   * `PathBuf::from(base).join(rel)` for a relative `rel`: a separator is put
   * between the two unless `base` is empty or already ends with one.
   */
  function Join(base: string, rel: string): (r: string)
    ensures |base| + |rel| <= |r| <= |base| + |rel| + 1
    ensures |r| == |base| + |rel| + 1 <==> base != [] && base[|base| - 1] != '/'
    ensures |r| == |base| + |rel| + 1 ==> r[|base|] == '/'
    ensures r[..|base|] == base && r[|r| - |rel|..] == rel
  {
    if base == [] || base[|base| - 1] == '/' then base + rel else base + "/" + rel
  }
}
