/**
 * Ruby's path arithmetic as the code manager and the ECS client use it:
 * `Pathname#join` (that is `Pathname#+`), `Pathname#cleanpath` and
 * `File.expand_path`, on paths seen as lists of `/`-separated components.
 * The current directory of `File.expand_path` is a parameter.
 */
module Paths {
  import opened RubyStrings

  /** A path: whether it starts at the root, and its components. */
  datatype Path = Path(absolute: bool, parts: seq<string>)

  /** A component that a rendered path can carry and parse back. */
  predicate Segment(x: string) {
    x != "" && '/' !in x
  }

  /** A component that names a directory entry (no `.` and no `..`). */
  predicate Normal(x: string) {
    Segment(x) && x != "." && x != ".."
  }

  predicate AllNormal(xs: seq<string>) {
    forall i :: 0 <= i < |xs| ==> Normal(xs[i])
  }

  predicate SlashFree(xs: seq<string>) {
    forall i :: 0 <= i < |xs| ==> '/' !in xs[i]
  }

  predicate WellFormed(p: Path) {
    |p.parts| > 0 && forall i :: 0 <= i < |p.parts| ==> Segment(p.parts[i])
  }

  /** The components of a path string; a leading `/` makes it absolute. */
  function Parse(s: string): (p: Path)
    ensures SlashFree(p.parts) && |p.parts| >= 1
  {
    if |s| > 0 && s[0] == '/' then Path(true, SplitAll(s[1..], '/'))
    else Path(false, SplitAll(s, '/'))
  }

  /** The string form of a path (`Pathname#to_s`); the empty relative path is ".". */
  function Render(p: Path): string {
    if p.absolute then "/" + JoinWith(p.parts, '/')
    else if p.parts == [] then "."
    else JoinWith(p.parts, '/')
  }

  lemma RenderParse(s: string)
    ensures Render(Parse(s)) == s
  {
    if |s| > 0 && s[0] == '/' {
      JoinSplitAll(s[1..], '/');
      assert "/" + s[1..] == s;
    } else {
      JoinSplitAll(s, '/');
    }
  }

  lemma {:induction false} JoinWithHead(parts: seq<string>, sep: char)
    requires |parts| > 0 && parts[0] != ""
    ensures |JoinWith(parts, sep)| > 0 && JoinWith(parts, sep)[0] == parts[0][0]
  {
  }

  lemma ParseRender(p: Path)
    requires WellFormed(p)
    ensures Parse(Render(p)) == p
  {
    var j := JoinWith(p.parts, '/');
    SplitAllJoin(p.parts, '/');
    if p.absolute {
      assert ("/" + j)[1..] == j;
    } else {
      JoinWithHead(p.parts, '/');
      assert '/' !in p.parts[0];
      assert j[0] != '/';
    }
  }

  // ---------------------------------------------------------------------------
  // Pathname#join
  // ---------------------------------------------------------------------------

  /** The non-empty components, in order (repeated and trailing slashes carry none). */
  function Segments(parts: seq<string>): (r: seq<string>)
    ensures |r| <= |parts|
    ensures forall i :: 0 <= i < |r| ==> r[i] != "" && r[i] in parts
    decreases |parts|
  {
    if parts == [] then []
    else if parts[0] == "" then Segments(parts[1..])
    else [parts[0]] + Segments(parts[1..])
  }

  function DropLeading(xs: seq<string>, x: string): (r: seq<string>)
    ensures |r| <= |xs| && r == xs[|xs| - |r|..]
    ensures r == [] || r[0] != x
    decreases |xs|
  {
    if xs != [] && xs[0] == x then DropLeading(xs[1..], x) else xs
  }

  function TrimTrailingDots(b: seq<string>): (r: seq<string>)
    ensures |r| <= |b|
    ensures forall i :: 0 <= i < |r| ==> r[i] == b[i]
    ensures r == [] || r[|r| - 1] != "."
    decreases |b|
  {
    if b != [] && b[|b| - 1] == "." then TrimTrailingDots(b[..|b| - 1]) else b
  }

  /**
   * The component loop of `Pathname#+`: leading "." of the relative part vanish,
   * a leading ".." cancels the last base component unless that is "..", and "."
   * components met at the end of the base are dropped.  Beneath the root a
   * leading ".." is dropped.
   */
  function Resolve(b: seq<string>, r: seq<string>, absolute: bool): (res: (seq<string>, seq<string>))
    ensures |res.0| <= |b|
    ensures forall i :: 0 <= i < |res.0| ==> res.0[i] == b[i]
    decreases |b| + |r|
  {
    var r1 := DropLeading(r, ".");
    if b == [] then ([], if absolute then DropLeading(r1, "..") else r1)
    else
      var last := b[|b| - 1];
      if last == "." then Resolve(b[..|b| - 1], r1, absolute)
      else if last == ".." || r1 == [] || r1[0] != ".." then (b, r1)
      else Resolve(b[..|b| - 1], r1[1..], absolute)
  }

  /** `Pathname#+`: an absolute right-hand side wins; otherwise the two are resolved together. */
  function Join(base: Path, rel: Path): (j: Path)
    ensures !rel.absolute ==> j.absolute == base.absolute
  {
    if rel.absolute then rel
    else
      var res := Resolve(Segments(base.parts), Segments(rel.parts), base.absolute);
      Path(base.absolute, res.0 + res.1)
  }

  /** `Pathname(a).join(b).to_s`. */
  function JoinPath(a: string, b: string): string {
    Render(Join(Parse(a), Parse(b)))
  }

  lemma {:induction false} ResolveNormalHead(b: seq<string>, r: seq<string>, absolute: bool)
    requires r != [] && Normal(r[0])
    ensures Resolve(b, r, absolute) == (TrimTrailingDots(b), r)
    decreases |b|
  {
    if b != [] && b[|b| - 1] == "." {
      ResolveNormalHead(b[..|b| - 1], r, absolute);
    }
  }

  /** Joining a relative path that starts with a name appends its components. */
  lemma JoinNormalHead(base: Path, rel: Path)
    requires !rel.absolute
    requires Segments(rel.parts) != [] && Normal(Segments(rel.parts)[0])
    ensures Join(base, rel) == Path(base.absolute, TrimTrailingDots(Segments(base.parts)) + Segments(rel.parts))
  {
    ResolveNormalHead(Segments(base.parts), Segments(rel.parts), base.absolute);
  }

  lemma {:induction false} SegmentsOfSegments(parts: seq<string>)
    requires forall i :: 0 <= i < |parts| ==> parts[i] != ""
    ensures Segments(parts) == parts
    decreases |parts|
  {
    if parts != [] {
      SegmentsOfSegments(parts[1..]);
    }
  }

  /** Rendering a path with more components adds them after a separator. */
  lemma RenderAppend(absolute: bool, xs: seq<string>, ys: seq<string>)
    requires xs != [] && ys != []
    ensures Render(Path(absolute, xs + ys)) == Render(Path(absolute, xs)) + "/" + JoinWith(ys, '/')
  {
    var a := JoinWith(xs, '/');
    var b := JoinWith(ys, '/');
    JoinWithAppend(xs, ys, '/');
    assert JoinWith(xs + ys, '/') == a + "/" + b;
    if absolute {
      assert "/" + (a + "/" + b) == ("/" + a) + "/" + b;
    }
  }

  /** Joining names onto a path of names appends them. */
  lemma JoinNormal(absolute: bool, base: seq<string>, rel: seq<string>)
    requires AllNormal(base)
    requires rel != [] && AllNormal(rel)
    ensures Join(Path(absolute, base), Path(false, rel)) == Path(absolute, base + rel)
  {
    SegmentsOfSegments(base);
    SegmentsOfSegments(rel);
    JoinNormalHead(Path(absolute, base), Path(false, rel));
    assert TrimTrailingDots(base) == base;
  }

  /** `Pathname(a).join(b)` for name lists written out as strings. */
  lemma JoinPathNormal(absolute: bool, base: seq<string>, rel: seq<string>)
    requires base != [] && AllNormal(base)
    requires rel != [] && AllNormal(rel)
    ensures JoinPath(Render(Path(absolute, base)), JoinWith(rel, '/')) == Render(Path(absolute, base)) + "/" + JoinWith(rel, '/')
  {
    var bp := Path(absolute, base);
    var rp := Path(false, rel);
    ParseRender(bp);
    ParseRender(rp);
    assert Render(rp) == JoinWith(rel, '/');
    JoinNormal(absolute, base, rel);
    RenderAppend(absolute, base, rel);
  }

  /** A "./"-prefixed list of names parses to "." and the names. */
  lemma ParseDotRelative(rel: seq<string>)
    requires rel != [] && AllNormal(rel)
    ensures Parse("./" + JoinWith(rel, '/')) == Path(false, ["."] + rel)
  {
    var s := "./" + JoinWith(rel, '/');
    assert s == "." + ['/'] + JoinWith(rel, '/');
    SplitAllCons(".", '/', JoinWith(rel, '/'));
    SplitAllJoin(rel, '/');
  }

  /** A leading "." of the right-hand side vanishes in a join. */
  lemma JoinDotNormal(absolute: bool, base: seq<string>, rel: seq<string>)
    requires AllNormal(base)
    requires rel != [] && AllNormal(rel)
    ensures Join(Path(absolute, base), Path(false, ["."] + rel)) == Path(absolute, base + rel)
  {
    SegmentsOfSegments(base);
    SegmentsOfSegments(["."] + rel);
    assert DropLeading(["."] + rel, ".") == rel by {
      assert (["."] + rel)[1..] == rel;
    }
    ResolveNormalHead(base, rel, absolute);
    assert TrimTrailingDots(base) == base;
  }

  // ---------------------------------------------------------------------------
  // cleanpath and expand_path
  // ---------------------------------------------------------------------------

  /**
   * The components a normalised path may consist of: segments other than ".",
   * with ".." only in a leading run, and never beneath the root.
   */
  predicate CleanForm(xs: seq<string>, absolute: bool) {
    forall i :: 0 <= i < |xs| ==>
      Segment(xs[i]) && xs[i] != "." &&
      (xs[i] == ".." ==> !absolute && forall j :: 0 <= j < i ==> xs[j] == "..")
  }

  /** One step of normalisation: "" and "." vanish, ".." removes the last name. */
  function CleanStep(acc: seq<string>, part: string, absolute: bool): seq<string> {
    if part == "" || part == "." then acc
    else if part == ".." then
      if acc != [] && acc[|acc| - 1] != ".." then acc[..|acc| - 1]
      else if absolute then acc
      else acc + [".."]
    else acc + [part]
  }

  /** `acc` extended by normalising `parts` onto it, left to right. */
  function CleanFrom(acc: seq<string>, parts: seq<string>, absolute: bool): (r: seq<string>)
    ensures CleanForm(acc, absolute) && SlashFree(parts) ==> CleanForm(r, absolute)
    decreases |parts|
  {
    if parts == [] then acc
    else CleanStep(CleanFrom(acc, parts[..|parts| - 1], absolute), parts[|parts| - 1], absolute)
  }

  /** `Pathname#cleanpath` (the non-conservative form). */
  function Clean(p: Path): (c: Path)
    ensures c.absolute == p.absolute
    ensures SlashFree(p.parts) ==> CleanForm(c.parts, c.absolute)
  {
    Path(p.absolute, CleanFrom([], p.parts, p.absolute))
  }

  /** `Pathname(s).cleanpath.to_s`. */
  function CleanPath(s: string): string {
    Render(Clean(Parse(s)))
  }

  /** `p` made absolute against the directory `dir` (absolute components) and normalised. */
  function ExpandIn(p: Path, dir: seq<string>): (e: Path)
    ensures e.absolute
    ensures SlashFree(dir) && SlashFree(p.parts) ==> AllNormal(e.parts)
  {
    var full := if p.absolute then p.parts else dir + p.parts;
    Clean(Path(true, full))
  }

  /** The absolute components of the directory string `dir` seen from `cwd`. */
  function DirParts(dir: string, cwd: seq<string>): seq<string> {
    var d := Parse(dir);
    if d.absolute then d.parts else cwd + d.parts
  }

  /** `File.expand_path(s)` run in the directory `cwd`. */
  function Expand(s: string, cwd: seq<string>): string {
    Render(ExpandIn(Parse(s), cwd))
  }

  /** `File.expand_path(s, dir)` run in the directory `cwd`. */
  function ExpandFrom(s: string, dir: string, cwd: seq<string>): string {
    Render(ExpandIn(Parse(s), DirParts(dir, cwd)))
  }

  lemma {:induction false} CleanFromAppend(acc: seq<string>, xs: seq<string>, ys: seq<string>, absolute: bool)
    ensures CleanFrom(acc, xs + ys, absolute) == CleanFrom(CleanFrom(acc, xs, absolute), ys, absolute)
    decreases |ys|
  {
    if ys == [] {
      assert xs + ys == xs;
    } else {
      var zs := xs + ys;
      assert zs[..|zs| - 1] == xs + ys[..|ys| - 1];
      assert zs[|zs| - 1] == ys[|ys| - 1];
      CleanFromAppend(acc, xs, ys[..|ys| - 1], absolute);
    }
  }

  /** Empty components (repeated slashes) do not change a normalised path. */
  lemma {:induction false} CleanFromSegments(acc: seq<string>, ys: seq<string>, absolute: bool)
    ensures CleanFrom(acc, Segments(ys), absolute) == CleanFrom(acc, ys, absolute)
    decreases |ys|
  {
    if ys != [] {
      assert ys == [ys[0]] + ys[1..];
      CleanFromAppend(acc, [ys[0]], ys[1..], absolute);
      var acc' := CleanFrom(acc, [ys[0]], absolute);
      CleanFromSegments(acc', ys[1..], absolute);
      if ys[0] == "" {
        CleanFromSegments(acc, ys[1..], absolute);
      } else {
        CleanFromAppend(acc, [ys[0]], Segments(ys[1..]), absolute);
      }
    }
  }

  /** Names are appended as they are. */
  lemma {:induction false} CleanFromNormal(acc: seq<string>, ys: seq<string>, absolute: bool)
    requires AllNormal(ys)
    ensures CleanFrom(acc, ys, absolute) == acc + ys
    decreases |ys|
  {
    if ys != [] {
      CleanFromNormal(acc, ys[..|ys| - 1], absolute);
      assert acc + ys[..|ys| - 1] + [ys[|ys| - 1]] == acc + ys;
    }
  }

  /** A path already in normal form is its own normal form. */
  lemma {:induction false} CleanFromCleanForm(xs: seq<string>, absolute: bool)
    requires CleanForm(xs, absolute)
    ensures CleanFrom([], xs, absolute) == xs
    decreases |xs|
  {
    if xs != [] {
      var init := xs[..|xs| - 1];
      CleanFormInit(xs, absolute);
      CleanFromCleanForm(init, absolute);
      CleanStepCleanForm(xs, absolute);
    }
  }

  lemma CleanFormInit(xs: seq<string>, absolute: bool)
    requires xs != [] && CleanForm(xs, absolute)
    ensures CleanForm(xs[..|xs| - 1], absolute)
  {
    var init := xs[..|xs| - 1];
    forall i | 0 <= i < |init|
      ensures Segment(init[i]) && init[i] != "." && (init[i] == ".." ==> !absolute && forall j :: 0 <= j < i ==> init[j] == "..")
    {
      assert init[i] == xs[i];
      assert forall j :: 0 <= j < i ==> init[j] == xs[j];
    }
  }

  /** The last component of a normal form is kept by the step that meets it. */
  lemma CleanStepCleanForm(xs: seq<string>, absolute: bool)
    requires xs != [] && CleanForm(xs, absolute)
    ensures CleanStep(xs[..|xs| - 1], xs[|xs| - 1], absolute) == xs
  {
    var init := xs[..|xs| - 1];
    var last := xs[|xs| - 1];
    assert init + [last] == xs;
    if last == ".." && init != [] {
      assert init[|init| - 1] == xs[|xs| - 2];
    }
  }

  /** `cleanpath` is idempotent. */
  lemma CleanIdempotent(p: Path)
    requires SlashFree(p.parts)
    ensures Clean(Clean(p)) == Clean(p)
  {
    CleanFromCleanForm(Clean(p).parts, p.absolute);
  }

  /** An absolute path of names is already expanded. */
  lemma ExpandNormal(xs: seq<string>, cwd: seq<string>)
    requires xs != [] && AllNormal(xs)
    ensures Expand(Render(Path(true, xs)), cwd) == Render(Path(true, xs))
  {
    ParseRender(Path(true, xs));
    CleanNormal(true, xs);
    assert ExpandIn(Path(true, xs), cwd) == Path(true, xs);
  }

  /** A path of names is its own normal form. */
  lemma CleanNormal(absolute: bool, xs: seq<string>)
    requires AllNormal(xs)
    ensures Clean(Path(absolute, xs)) == Path(absolute, xs)
  {
    CleanFromNormal([], xs, absolute);
    assert [] + xs == xs;
  }

  lemma AllNormalAppend(xs: seq<string>, ys: seq<string>)
    requires AllNormal(xs) && AllNormal(ys)
    ensures AllNormal(xs + ys)
  {
    assert forall i :: 0 <= i < |xs + ys| ==> (xs + ys)[i] == if i < |xs| then xs[i] else ys[i - |xs|];
  }
}
