// The top bar: the breadcrumb split of the current path and the simulated
// battery gauge.
module Navbar {
  import opened Wrappers
  import opened JsMath
  import opened Strings

  /** The path shown when the desktop passes none. */
  const DEFAULT_PATH: string := "~/home/rahulseervi \U{1F3E0}"

  /** The breadcrumb: the first three `/`-segments, and whatever follows them. */
  datatype Crumb = Crumb(base: string, rest: string)

  function Segments(path: string): (parts: seq<string>)
    ensures |parts| >= 1
  {
    Split(path, '/')
  }

  /** `slice(0, 3).join("/")` and `slice(3).join("/")` of the path's segments. */
  function Breadcrumb(path: string): (c: Crumb)
    ensures |Segments(path)| <= 3 ==> c.rest == ""
    ensures |Segments(path)| > 3 ==> '/' in c.base
  {
    var parts := Segments(path);
    var cut := MinI(3, |parts|);
    Crumb(Join(parts[..cut], "/"), Join(parts[cut..], "/"))
  }

  /** Joining two or more pieces puts at least one separator in. */
  lemma JoinLength(parts: seq<string>, sep: string)
    requires |parts| >= 2
    ensures |Join(parts, sep)| >= |sep|
  {
  }

  /** The two halves of the breadcrumb put back together give the path. */
  lemma BreadcrumbReassembles(path: string)
    ensures var c := Breadcrumb(path);
      && (|Segments(path)| > 3 ==> c.base + "/" + c.rest == path)
      && (|Segments(path)| <= 3 ==> c.base == path && c.rest == "")
  {
    var parts := Segments(path);
    JoinSplit(path, '/');
    if |parts| > 3 {
      assert parts == parts[..3] + parts[3..];
      JoinAppend(parts[..3], parts[3..], "/");
    } else {
      assert parts[..|parts|] == parts;
    }
  }

  /** Three slash-free pieces joined by slashes split back into those pieces. */
  lemma SplitThree(a: string, b: string, c: string)
    requires '/' !in a && '/' !in b && '/' !in c
    ensures Segments(a + "/" + b + "/" + c) == [a, b, c]
  {
    var s := a + "/" + b + "/" + c;
    var t := b + "/" + c;
    assert s[..|a|] == a && s[|a|] == '/' && s[|a| + 1..] == t;
    assert IndexOf(s, '/') == |a|;
    assert t[..|b|] == b && t[|b|] == '/' && t[|b| + 1..] == c;
    assert IndexOf(t, '/') == |b|;
    SplitHead(c, '/');
    assert Split(t, '/') == [b] + Split(c, '/') == [b, c];
    assert Split(s, '/') == [a] + Split(t, '/');
  }

  /** The default path has three segments, so it is all base and no rest. */
  lemma DefaultPathIsBaseOnly()
    ensures |Segments(DEFAULT_PATH)| == 3
    ensures Breadcrumb(DEFAULT_PATH) == Crumb(DEFAULT_PATH, "")
  {
    var a, b, c := "~", "home", "rahulseervi \U{1F3E0}";
    assert DEFAULT_PATH == a + "/" + b + "/" + c;
    SplitThree(a, b, c);
    BreadcrumbReassembles(DEFAULT_PATH);
  }

  /** What the breadcrumb shows: the base button's text, and the trailing span only when there is a rest. */
  datatype Rendered = Rendered(button: string, tail: Option<string>)

  function Render(path: string): (r: Rendered)
    ensures r.tail.Some? <==> Breadcrumb(path).rest != ""
    ensures |r.button| > |Breadcrumb(path).base| && r.button[..|Breadcrumb(path).base|] == Breadcrumb(path).base
    ensures r.button[|r.button| - 1] == '/' <==> Breadcrumb(path).rest != ""
  {
    var c := Breadcrumb(path);
    Rendered(c.base + " " + (if c.rest != "" then "/" else ""), if c.rest != "" then Some("/" + c.rest) else None)
  }

  /** With a trailing span, base and span spell out the path; without one the path is the base, at most with a dropped final `/`. */
  lemma RenderShowsPath(path: string)
    ensures var c := Breadcrumb(path);
      var r := Render(path);
      && (r.tail.Some? ==> c.base + r.tail.value == path)
      && (r.tail.None? ==> path == c.base || path == c.base + "/")
  {
    var c := Breadcrumb(path);
    var parts := Segments(path);
    BreadcrumbReassembles(path);
    if |parts| > 3 && c.rest == "" {
      if |parts[3..]| >= 2 {
        JoinLength(parts[3..], "/");
      }
    }
  }

  // ---------------------------------------------------------------------------
  // Battery

  /** The random step of the gauge, `Math.floor(roll * 3) - 1` for a roll in [0, 1). */
  function Delta(roll: real): (d: int)
    requires 0.0 <= roll < 1.0
    ensures -1 <= d <= 1
  {
    (roll * 3.0).Floor - 1
  }

  /** The next gauge reading: the step added and the result clamped to [5, 100]. */
  function NextLevel(level: int, roll: real): (l: int)
    requires 0.0 <= roll < 1.0
    ensures 5 <= l <= 100
    ensures 5 <= level <= 100 ==> -1 <= l - level <= 1
  {
    MinI(100, MaxI(5, level + Delta(roll)))
  }

  /** Every step is reachable: low rolls drain, middle rolls hold, high rolls charge, away from the clamps. */
  lemma DeltaCases(roll: real)
    requires 0.0 <= roll < 1.0
    ensures roll < 1.0 / 3.0 ==> Delta(roll) == -1
    ensures 1.0 / 3.0 <= roll < 2.0 / 3.0 ==> Delta(roll) == 0
    ensures 2.0 / 3.0 <= roll ==> Delta(roll) == 1
  {
  }

  /** The simulated battery, a level reassigned on every interval step. */
  class Battery {
    var level: int

    ghost predicate Valid()
      reads this
    {
      5 <= level <= 100
    }

    constructor ()
      ensures Valid() && level == 82
    {
      level := 82;
    }

    method Step(roll: real)
      requires Valid() && 0.0 <= roll < 1.0
      modifies this
      ensures Valid()
      ensures level == NextLevel(old(level), roll)
    {
      var delta := (roll * 3.0).Floor - 1;
      level := MinI(100, MaxI(5, level + delta));
    }
  }
}
