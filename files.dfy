/** Paths in the form `pathlib.PurePosixPath` prints them, the parts of a
    path the core looks at (`name`, `suffix`, `stem`), and the file system as
    a value. */
module Files {
  import opened Text
  import opened Errors

  /** What a file holds: raw bytes, text written by `write_text`, or a frame
      that `cv2.imwrite` stored, identified by its video and frame number. */
  datatype Blob =
    | Bytes(data: seq<bv8>)
    | WrittenText(text: string)
    | VideoFrame(video: string, index: nat)

  /** The regular files with their contents, and the directories. */
  datatype FileSystem = FileSystem(files: map<string, Blob>, dirs: set<string>)

  /** `Path(p).exists()`: true for files and for directories. */
  predicate Exists(fs: FileSystem, p: string) {
    p in fs.files || p in fs.dirs
  }

  /** `p` lies somewhere below directory `dir`. */
  predicate Below(dir: string, p: string) {
    StartsWith(p, dir + "/")
  }

  /** Length of the last path component. */
  function NameLength(p: string): (n: nat)
    ensures n <= |p|
    ensures forall i :: |p| - n <= i < |p| ==> p[i] != '/'
    ensures n == |p| || p[|p| - 1 - n] == '/'
  {
    if p == [] || p[|p| - 1] == '/' then 0 else 1 + NameLength(p[..|p| - 1])
  }

  /** `Path(p).name`: the last component, which holds no separator. */
  function Name(p: string): (name: string)
    ensures '/' !in name && EndsWith(p, name)
    ensures |name| == |p| || p[|p| - |name| - 1] == '/'
  {
    var name := p[|p| - NameLength(p)..];
    assert forall i :: 0 <= i < |name| ==> name[i] == p[|p| - |name| + i];
    name
  }

  /** Index of the last occurrence of `c` in `s`, as `str.rfind` (None for -1). */
  function LastIndex(s: string, c: char): (r: Option<nat>)
    ensures r.None? <==> c !in s
    ensures r.Some? ==> r.value < |s| && s[r.value] == c && c !in s[r.value + 1..]
  {
    if s == [] then None
    else if s[|s| - 1] == c then Some(|s| - 1)
    else
      var r := LastIndex(s[..|s| - 1], c);
      assert s == s[..|s| - 1] + [s[|s| - 1]];
      if r.Some? then assert s[r.value + 1..] == s[..|s| - 1][r.value + 1..] + [s[|s| - 1]]; r
      else r
  }

  /** Where `Path(p).suffix` starts in the name, if the name has a suffix: the
      last dot, unless the name starts or ends with it. */
  function SuffixStart(name: string): (r: Option<nat>)
    ensures r.Some? ==> 0 < r.value < |name| - 1 && name[r.value] == '.' && '.' !in name[r.value + 1..]
    ensures r.None? ==> '.' !in name || (name[0] == '.' && '.' !in name[1..]) || name[|name| - 1] == '.'
  {
    match LastIndex(name, '.')
    case Some(i) => if 0 < i < |name| - 1 then Some(i) else None
    case None => None
  }

  /** `Path(p).suffix`: empty, or a dot followed by at least one character and
      no further dot, taken from the end of a name it does not exhaust. */
  function Suffix(p: string): (x: string)
    ensures x == "" || (|x| >= 2 && x[0] == '.' && '.' !in x[1..] && EndsWith(Name(p), x) && |x| < |Name(p)|)
  {
    var name := Name(p);
    match SuffixStart(name)
    case Some(i) =>
      var x := name[i..];
      assert x[1..] == name[i + 1..];
      assert name[|name| - |x|..] == x;
      x
    case None => ""
  }

  /** `Path(p).stem`: the name without its suffix. */
  function Stem(p: string): (stem: string)
    ensures stem + Suffix(p) == Name(p)
  {
    var name := Name(p);
    match SuffixStart(name)
    case Some(i) =>
      assert name[..i] + name[i..] == name;
      name[..i]
    case None => name
  }

  /** Appending text without a separator extends the last component. */
  lemma {:induction false} NameAppend(p: string, t: string)
    requires '/' !in t
    ensures Name(p + t) == Name(p) + t
    decreases |t|
  {
    if t != [] {
      var u := t[..|t| - 1];
      assert (p + t)[..|p + t| - 1] == p + u;
      NameAppend(p, u);
      assert Name(p) + u + [t[|t| - 1]] == Name(p) + t;
    } else {
      assert p + t == p;
    }
  }

  /** The last `c` of `a + [c] + b` is the one after `a` when `b` has none. */
  lemma LastIndexAfter(a: string, c: char, b: string)
    requires c !in b
    ensures LastIndex(a + [c] + b, c) == Some(|a|)
  {
    var s := a + [c] + b;
    var r := LastIndex(s, c);
    assert s[|a|] == c;
  }

  /** A name that ends in `.ext` after a non-empty stem has its suffix there. */
  lemma SuffixStartAfter(stem: string, ext: string)
    requires stem != "" && ext != "" && '.' !in ext
    ensures SuffixStart(stem + "." + ext) == Some(|stem|)
  {
    LastIndexAfter(stem, '.', ext);
  }

  /** Giving a named path the extension `.ext` (no dot, no separator in `ext`)
      makes `.ext` its suffix. */
  lemma AppendedSuffix(p: string, ext: string)
    requires Name(p) != "" && ext != "" && '.' !in ext && '/' !in ext
    ensures Suffix(p + "." + ext) == "." + ext
  {
    var q := p + "." + ext;
    assert q == p + ("." + ext);
    NameAppend(p, "." + ext);
    var name := Name(p) + "." + ext;
    assert Name(q) == name;
    SuffixStartAfter(Name(p), ext);
    assert name[|Name(p)|..] == "." + ext;
  }
}
