/**
 * The POSIX flavour of Node's `path` module, as far as the job pipeline uses
 * it: `dirname`, `extname`, `basename(p, ext)`, `normalize` and `join`. Each
 * is stated as a function on whole strings; the lemmas say what the worker
 * relies on (the stem and the extension put back together give the last
 * segment, `dirname` undoes appending a segment, and joining a plain file
 * name onto a directory puts the file directly inside that directory).
 */
module NodePath {

  predicate NoSlash(s: string) {
    forall i :: 0 <= i < |s| ==> s[i] != '/'
  }

  /** `p` without its trailing slashes. */
  function StripTrailingSlashes(p: string): (q: string)
    ensures |q| <= |p| && q == p[..|q|]
    ensures q == [] || q[|q| - 1] != '/'
    ensures forall i :: |q| <= i < |p| ==> p[i] == '/'
  {
    if p != [] && p[|p| - 1] == '/' then StripTrailingSlashes(p[..|p| - 1]) else p
  }

  /** The index just after the last slash of `q`, or 0 when `q` has none. */
  function AfterLastSlash(q: string): (k: nat)
    ensures k <= |q|
    ensures k > 0 ==> q[k - 1] == '/'
    ensures NoSlash(q[k..])
  {
    if q == [] then 0
    else if q[|q| - 1] == '/' then |q|
    else
      var k := AfterLastSlash(q[..|q| - 1]);
      assert q[k..] == q[..|q| - 1][k..] + [q[|q| - 1]];
      k
  }

  /** `path.basename(p)`: the last segment, trailing slashes ignored. */
  function LastSegment(p: string): (s: string)
    ensures NoSlash(s)
  {
    var q := StripTrailingSlashes(p);
    q[AfterLastSlash(q)..]
  }

  /** The index of the last dot of `s`, or -1 when it has none. */
  function LastDot(s: string): (k: int)
    ensures -1 <= k < |s|
    ensures k >= 0 ==> s[k] == '.'
    ensures forall i :: k < i < |s| ==> s[i] != '.'
  {
    if s == [] then -1
    else if s[|s| - 1] == '.' then |s| - 1
    else LastDot(s[..|s| - 1])
  }

  /**
   * `path.extname(p)`: from the last dot of the last segment to its end; empty
   * when the segment has no dot, when its only leading dot starts it (a
   * dot-file such as `.bashrc`), or when the segment is `..`.
   */
  function Extname(p: string): (e: string)
    ensures e == [] || e[0] == '.'
    ensures |e| <= |LastSegment(p)| && e == LastSegment(p)[|LastSegment(p)| - |e|..]
    ensures forall i :: 0 < i < |e| ==> e[i] != '.'
  {
    var s := LastSegment(p);
    var d := LastDot(s);
    if d <= 0 || s == ".." then "" else s[d..]
  }

  /**
   * `path.basename(p, path.extname(p))`. Node strips the suffix only when the
   * last segment ends with it and is longer than it; the extension is always
   * such a suffix, so this is the last segment without its extension.
   */
  function Stem(p: string): (s: string)
    ensures s + Extname(p) == LastSegment(p)
    ensures NoSlash(s)
  {
    var seg := LastSegment(p);
    seg[..|seg| - |Extname(p)|]
  }

  /** `path.dirname(p)` */
  function Dirname(p: string): (d: string)
    ensures d != []
  {
    if p == [] then "."
    else
      var r := StripTrailingSlashes(p[1..]);
      var k := AfterLastSlash(r);
      if k == 0 then (if p[0] == '/' then "/" else ".")
      else if p[0] == '/' && k == 1 then "//"
      else p[..k]
  }

  /** `path.dirname` undoes appending one segment to any directory other than the root. */
  lemma DirnameOfChild(dir: string, name: string)
    requires dir != [] && dir != "/"
    requires name != [] && NoSlash(name)
    ensures Dirname(dir + "/" + name) == dir
  {
    var p := dir + "/" + name;
    var r := p[1..];
    assert r == dir[1..] + "/" + name;
    assert StripTrailingSlashes(r) == r;
    var k := AfterLastSlash(r);
    assert r[|dir| - 1] == '/';
    assert k == |dir|;
    assert p[..k] == dir;
  }

  /** The segments of `p` between its slashes, empty ones included. */
  function Split(p: string): (segs: seq<string>)
    ensures |segs| >= 1
    ensures forall i :: 0 <= i < |segs| ==> NoSlash(segs[i])
  {
    var k := AfterLastSlash(p);
    if k == 0 then [p] else Split(p[..k - 1]) + [p[k..]]
  }

  /** One step of Node's `normalizeString` on the segments seen so far. */
  function Push(stack: seq<string>, seg: string, aboveRoot: bool): seq<string>
  {
    if seg == "" || seg == "." then stack
    else if seg == ".." then
      if stack != [] && stack[|stack| - 1] != ".." then stack[..|stack| - 1]
      else if aboveRoot then stack + [".."]
      else stack
    else stack + [seg]
  }

  /**
   * The segments `normalizeString` keeps: empty and `.` segments are dropped,
   * `..` removes the segment before it, and a `..` with nothing to remove is
   * kept only for a relative path.
   */
  function Resolve(segs: seq<string>, aboveRoot: bool): (stack: seq<string>)
    ensures forall i :: 0 <= i < |stack| ==> ProperSegment(stack[i])
  {
    if segs == [] then []
    else
      var stack := Resolve(segs[..|segs| - 1], aboveRoot);
      var seg := segs[|segs| - 1];
      if seg == "" || seg == "." || seg == ".." || NoSlash(seg) then Push(stack, seg, aboveRoot)
      else stack
  }

  /** What `Resolve` keeps: a non-empty segment without slashes that is not `.`. */
  predicate ProperSegment(s: string) {
    s != [] && NoSlash(s) && s != "."
  }

  /** The segments joined with single slashes. */
  function JoinSegments(segs: seq<string>): string
  {
    if segs == [] then []
    else if |segs| == 1 then segs[0]
    else JoinSegments(segs[..|segs| - 1]) + "/" + segs[|segs| - 1]
  }

  /** `path.normalize(p)` */
  function Normalize(p: string): (n: string)
    ensures n != []
  {
    if p == [] then "."
    else
      var absolute := p[0] == '/';
      var trailing := p[|p| - 1] == '/';
      var body := JoinSegments(Resolve(Split(p), !absolute));
      if body == [] then (if absolute then "/" else if trailing then "./" else ".")
      else (if absolute then "/" else "") + body + (if trailing then "/" else "")
  }

  /** `path.join(a, b)`: the non-empty arguments joined with a slash, then normalized. */
  function Join(a: string, b: string): string
  {
    if a == [] && b == [] then "."
    else if a == [] then Normalize(b)
    else if b == [] then Normalize(a)
    else Normalize(a + "/" + b)
  }

  /** A file name that `normalize` keeps as one segment. */
  predicate PlainName(name: string) {
    name != [] && NoSlash(name) && name != "." && name != ".."
  }

  /** The path of the entry `name` directly inside the (normalized) directory `dir`. */
  function Inside(dir: string, name: string): string
  {
    if dir == "." || dir == "./" then name
    else if dir != [] && dir[|dir| - 1] == '/' then dir + name
    else dir + "/" + name
  }

  lemma SplitAppend(dir: string, name: string)
    requires NoSlash(name)
    ensures Split(dir + "/" + name) == Split(dir) + [name]
  {
    var p := dir + "/" + name;
    var k := AfterLastSlash(p);
    assert p[|dir|] == '/';
    assert k == |dir| + 1;
    assert p[..k - 1] == dir && p[k..] == name;
  }

  lemma ResolveAppendPlain(segs: seq<string>, name: string, aboveRoot: bool)
    requires PlainName(name)
    ensures Resolve(segs + [name], aboveRoot) == Resolve(segs, aboveRoot) + [name]
  {
    assert (segs + [name])[..|segs|] == segs;
  }

  /** Joining proper segments gives a non-empty path that ends in a segment character and is not `.`. */
  lemma {:induction false} JoinSegmentsShape(stack: seq<string>)
    requires stack != []
    requires forall i :: 0 <= i < |stack| ==> ProperSegment(stack[i])
    ensures var j := JoinSegments(stack); j != [] && j[|j| - 1] != '/' && j != "."
  {
    if |stack| > 1 {
      JoinSegmentsShape(stack[..|stack| - 1]);
    }
  }

  /** A plain name normalizes to itself. */
  lemma NormalizePlainName(name: string)
    requires PlainName(name)
    ensures Normalize(name) == name
  {
    assert name[0] != '/' && name[|name| - 1] != '/';
    assert AfterLastSlash(name) == 0;
    assert Split(name) == [name];
    assert Resolve([name], true) == [name] by {
      assert [name][..0] == [];
      assert Resolve([], true) == [];
      assert Push([], name, true) == [name];
    }
    assert JoinSegments([name]) == name;
  }

  /** The normalized form of `dir + "/" + name`, in terms of the segments `dir` keeps. */
  lemma NormalizeChild(dir: string, name: string)
    requires dir != [] && PlainName(name)
    ensures var absolute := dir[0] == '/';
            var stack := Resolve(Split(dir), !absolute);
            Normalize(dir + "/" + name) ==
              (if absolute then "/" else "") + (if stack == [] then name else JoinSegments(stack) + "/" + name)
  {
    var p := dir + "/" + name;
    var absolute := dir[0] == '/';
    assert p[0] == dir[0] && p[|p| - 1] == name[|name| - 1];
    SplitAppend(dir, name);
    var stack := Resolve(Split(dir), !absolute);
    ResolveAppendPlain(Split(dir), name, !absolute);
    assert Resolve(Split(p), !absolute) == stack + [name];
    JoinSegmentsAppend(stack, name);
    var body := JoinSegments(stack + [name]);
    assert body != [];
    assert Normalize(p) == (if absolute then "/" else "") + body + "";
  }

  /** Appending a segment to a list of segments appends it after a slash, or alone. */
  lemma JoinSegmentsAppend(stack: seq<string>, name: string)
    requires name != []
    ensures JoinSegments(stack + [name]) == if stack == [] then name else JoinSegments(stack) + "/" + name
  {
    assert (stack + [name])[..|stack|] == stack;
  }

  lemma Regroup(a: string, b: string, c: string, d: string)
    ensures a + (b + c + d) == a + b + c + d
  {
  }

  /** `path.normalize(dir)` when `dir` keeps at least one segment. */
  lemma NormalizeKeepingSegments(dir: string)
    requires dir != []
    requires Resolve(Split(dir), dir[0] != '/') != []
    ensures Normalize(dir) == (if dir[0] == '/' then "/" else "")
                              + JoinSegments(Resolve(Split(dir), dir[0] != '/'))
                              + (if dir[|dir| - 1] == '/' then "/" else "")
  {
    JoinSegmentsShape(Resolve(Split(dir), dir[0] != '/'));
  }

  /** A directory spelled as an optional root, a body and an optional trailing slash. */
  lemma InsideSpelledDirectory(prefix: string, body: string, trailing: bool, name: string)
    requires prefix == "" || prefix == "/"
    requires body != [] && body[|body| - 1] != '/' && body != "."
    ensures Inside(prefix + body + (if trailing then "/" else ""), name) == prefix + (body + "/" + name)
  {
    var d := prefix + body + (if trailing then "/" else "");
    assert d[|d| - 1] == (if trailing then '/' else body[|body| - 1]);
    if prefix == "/" {
      assert d[0] == '/';
    } else if trailing {
      assert d == body + "/";
      DotSpelling(body);
      assert d[0] == body[0];
    } else {
      assert d == body;
    }
    Regroup(prefix, body, "/", name);
  }

  /** A one-character name that is a dot is the name `.`. */
  lemma DotSpelling(s: string)
    ensures |s| == 1 && s[0] == '.' ==> s == "."
  {
    if |s| == 1 && s[0] == '.' {
      assert s == [s[0]];
    }
  }

  /** The entry `name` inside `path.normalize(dir)`, when `dir` keeps no segment. */
  lemma InsideNormalizedRoot(dir: string, name: string)
    requires dir != [] && PlainName(name)
    requires Resolve(Split(dir), dir[0] != '/') == []
    ensures Inside(Normalize(dir), name) == (if dir[0] == '/' then "/" else "") + name
  {
  }

  /** The entry `name` inside `path.normalize(dir)`, when `dir` keeps some segment. */
  lemma InsideNormalizedSegments(dir: string, name: string)
    requires dir != [] && PlainName(name)
    requires Resolve(Split(dir), dir[0] != '/') != []
    ensures Inside(Normalize(dir), name) ==
      (if dir[0] == '/' then "/" else "") + (JoinSegments(Resolve(Split(dir), dir[0] != '/')) + "/" + name)
  {
    var stack := Resolve(Split(dir), dir[0] != '/');
    NormalizeKeepingSegments(dir);
    JoinSegmentsShape(stack);
    InsideSpelledDirectory(if dir[0] == '/' then "/" else "", JoinSegments(stack), dir[|dir| - 1] == '/', name);
  }

  /**
   * `path.join(dir, name)` for a file name that is a single plain segment is
   * the entry `name` directly inside `path.normalize(dir)`.
   */
  lemma JoinPlainName(dir: string, name: string)
    requires PlainName(name)
    ensures Join(dir, name) == Inside(Normalize(dir), name)
  {
    if dir == [] {
      NormalizePlainName(name);
    } else {
      NormalizeChild(dir, name);
      if Resolve(Split(dir), dir[0] != '/') == [] {
        InsideNormalizedRoot(dir, name);
      } else {
        InsideNormalizedSegments(dir, name);
      }
    }
  }

  /** A slash-free name is its own last segment. */
  lemma LastSegmentOfPlain(s: string)
    requires s != [] && NoSlash(s)
    ensures LastSegment(s) == s
  {
    assert StripTrailingSlashes(s) == s;
  }

  /**
   * A slash-free name `base + ext`, where `ext` is a dot followed by no other
   * dot and `base` is not empty, has extension `ext` and stem `base`.
   */
  lemma ExtnameOfPlain(base: string, ext: string)
    requires base != [] && NoSlash(base)
    requires ext != [] && ext[0] == '.' && NoSlash(ext)
    requires forall i :: 0 < i < |ext| ==> ext[i] != '.'
    requires base + ext != ".."
    ensures Extname(base + ext) == ext
    ensures Stem(base + ext) == base
  {
    var s := base + ext;
    LastSegmentOfPlain(s);
    assert s[|base|] == '.';
    assert LastDot(s) == |base|;
  }

  /** The entry `name` inside any directory has `name` as its last segment. */
  lemma LastSegmentOfInside(dir: string, name: string)
    requires PlainName(name)
    ensures LastSegment(Inside(dir, name)) == name
  {
    var p := Inside(dir, name);
    var k := |p| - |name|;
    assert p[k..] == name;
    assert p[|p| - 1] == name[|name| - 1];
    assert StripTrailingSlashes(p) == p;
    if k > 0 {
      assert p[k - 1] == '/';
      assert AfterLastSlash(p) == k by {
        AfterLastSlashOfSuffix(p, k);
      }
    } else {
      assert p == name;
      LastSegmentOfPlain(name);
    }
  }

  /** The last slash of `p` is the one just before a slash-free tail `p[k..]`. */
  lemma {:induction false} AfterLastSlashOfSuffix(p: string, k: nat)
    requires 0 < k <= |p| && p[k - 1] == '/' && NoSlash(p[k..])
    ensures AfterLastSlash(p) == k
    decreases |p|
  {
    if k < |p| {
      assert p[|p| - 1] == p[k..][|p| - 1 - k];
      var q := p[..|p| - 1];
      assert q[k..] == p[k..][..|p| - 1 - k];
      AfterLastSlashOfSuffix(q, k);
    }
  }
}
