// The layered mountain background: which image layers a theme produces, the
// mouse-parallax offsets, the per-layer scroll speeds and the load-failure overlay.
module Background {
  import opened Wrappers
  import opened JsMath
  import opened Strings

  /** The six image slots of a scene, back to front; an empty name means the slot is unused. */
  datatype Files = Files(sky: string, farMountains: string, farTrees: string, midMountains: string, myst: string, nearTrees: string)

  /** A scene: the folder its images live in and their file names. */
  datatype Theme = Theme(path: string, files: Files)

  /** One background layer as rendered: image, stacking order and CSS placement. */
  datatype Layer = Layer(url: string, z: int, size: string, pos: string, repeat: string)

  /** The slots in back-to-front order. */
  function FileNames(f: Files): (names: seq<string>)
    ensures |names| == 6
  {
    [f.sky, f.farMountains, f.farTrees, f.midMountains, f.myst, f.nearTrees]
  }

  /** The stacking order given to each slot, back to front. */
  const Z_ORDER: seq<int> := [1, 5, 10, 15, 20, 25]

  /** A slot's layer, or nothing when its file name is empty. */
  function Entry(path: string, file: string, z: int, size: string, pos: string): (e: Option<Layer>)
    ensures e.None? <==> file == ""
    ensures e.Some? ==> e.value.url == path + "/" + file && e.value.z == z
  {
    if file == "" then None else Some(Layer(path + "/" + file, z, size, pos, "repeat-x"))
  }

  /** The six candidate layers of a theme, before the empty ones are dropped. */
  function Candidates(t: Theme): (c: seq<Option<Layer>>)
    ensures |c| == 6
    ensures forall i :: 0 <= i < 6 ==>
      && (c[i].None? <==> FileNames(t.files)[i] == "")
      && (c[i].Some? ==> c[i].value.url == t.path + "/" + FileNames(t.files)[i] && c[i].value.z == Z_ORDER[i])
  {
    var p := t.path;
    var f := t.files;
    [
      Entry(p, f.sky, 1, "cover", "0 bottom"),
      Entry(p, f.farMountains, 5, "auto 85%", "0 70%"),
      Entry(p, f.farTrees, 10, "auto 90%", "0 80%"),
      Entry(p, f.midMountains, 15, "auto 100%", "0 bottom"),
      Entry(p, f.myst, 20, "auto 16px", "0 78%"),
      Entry(p, f.nearTrees, 25, "auto 100%", "0 bottom")
    ]
  }

  /** Keeps the layers that are present, in order. */
  function Present(c: seq<Option<Layer>>): (r: seq<Layer>)
    ensures |r| <= |c|
    ensures forall l :: l in r <==> Some(l) in c
  {
    if c == [] then []
    else
      assert c == [c[0]] + c[1..];
      (if c[0].Some? then [c[0].value] else []) + Present(c[1..])
  }

  /** The layers a theme renders, back to front. */
  function Layers(t: Theme): (ls: seq<Layer>)
    ensures |ls| <= 6
    ensures forall l :: l in ls ==> Some(l) in Candidates(t)
  {
    Present(Candidates(t))
  }

  /** How many of the names are non-empty. */
  function CountNonEmpty(names: seq<string>): nat {
    if names == [] then 0 else (if names[0] != "" then 1 else 0) + CountNonEmpty(names[1..])
  }

  /** Dropping the absent candidates leaves one layer per present one. */
  lemma {:induction false} PresentCount(c: seq<Option<Layer>>, names: seq<string>)
    requires |c| == |names|
    requires forall i :: 0 <= i < |c| ==> (c[i].None? <==> names[i] == "")
    ensures |Present(c)| == CountNonEmpty(names)
  {
    if c != [] {
      PresentCount(c[1..], names[1..]);
    }
  }

  /** A theme has one layer per non-empty file name, so at most six. */
  lemma LayerCount(t: Theme)
    ensures |Layers(t)| == CountNonEmpty(FileNames(t.files)) <= 6
  {
    PresentCount(Candidates(t), FileNames(t.files));
    CountBound(FileNames(t.files));
  }

  lemma {:induction false} CountBound(names: seq<string>)
    ensures CountNonEmpty(names) <= |names|
  {
    if names != [] {
      CountBound(names[1..]);
    }
  }

  /** Every layer shows one of the theme's non-empty files, from the theme's folder, at that slot's depth. */
  lemma LayerOrigin(t: Theme, l: Layer)
    requires l in Layers(t)
    ensures exists i :: (0 <= i < 6 && FileNames(t.files)[i] != ""
      && l.url == t.path + "/" + FileNames(t.files)[i] && l.z == Z_ORDER[i])
  {
    var c := Candidates(t);
    assert Some(l) in c;
    var i :| 0 <= i < 6 && c[i] == Some(l);
  }

  /** The present layers are stacked strictly back to front when the candidates are. */
  predicate IncreasingZ(c: seq<Option<Layer>>) {
    forall i, j :: 0 <= i < j < |c| && c[i].Some? && c[j].Some? ==> c[i].value.z < c[j].value.z
  }

  lemma {:induction false} PresentIncreasing(c: seq<Option<Layer>>)
    requires IncreasingZ(c)
    ensures forall i, j :: 0 <= i < j < |Present(c)| ==> Present(c)[i].z < Present(c)[j].z
  {
    if c != [] {
      var rest := Present(c[1..]);
      assert IncreasingZ(c[1..]) by {
        forall i, j | 0 <= i < j < |c[1..]| && c[1..][i].Some? && c[1..][j].Some?
          ensures c[1..][i].value.z < c[1..][j].value.z
        {
          assert c[1..][i] == c[i + 1] && c[1..][j] == c[j + 1];
        }
      }
      PresentIncreasing(c[1..]);
      if c[0].Some? {
        var r := Present(c);
        assert r == [c[0].value] + rest;
        forall j | 0 < j < |r| ensures r[0].z < r[j].z {
          assert r[j] == rest[j - 1];
          assert Some(rest[j - 1]) in c[1..];
          var k :| 0 <= k < |c[1..]| && c[1..][k] == Some(rest[j - 1]);
          assert c[k + 1] == Some(rest[j - 1]);
        }
      }
    }
  }

  /** Layers come out in strictly increasing stacking order, whichever slots are empty. */
  lemma LayersIncreasing(t: Theme)
    ensures forall i, j :: 0 <= i < j < |Layers(t)| ==> Layers(t)[i].z < Layers(t)[j].z
  {
    PresentIncreasing(Candidates(t));
  }

  // ---------------------------------------------------------------------------
  // Parallax

  /** `Math.max(lo, Math.min(hi, v))`. */
  function Clamp(v: real, lo: real, hi: real): (r: real)
    ensures lo <= hi ==> lo <= r <= hi
    ensures lo <= v <= hi ==> r == v
    ensures v <= lo ==> r == lo
    ensures lo <= hi <= v ==> r == hi
  {
    MaxR(lo, MinR(hi, v))
  }

  /** Clamping twice to the same range is clamping once. */
  lemma ClampIdempotent(v: real, lo: real, hi: real)
    requires lo <= hi
    ensures Clamp(Clamp(v, lo, hi), lo, hi) == Clamp(v, lo, hi)
  {
  }

  datatype Offset = Offset(x: real, y: real)

  /** The tilt for a pointer position: distance from the window centre over 150, clamped to 6 across and 4 down. */
  function Tilt(innerWidth: real, innerHeight: real, clientX: real, clientY: real): (c: Offset)
    ensures -6.0 <= c.x <= 6.0 && -4.0 <= c.y <= 4.0
    ensures clientX == innerWidth / 2.0 && clientY == innerHeight / 2.0 ==> c == Offset(0.0, 0.0)
  {
    var rx := (innerWidth / 2.0 - clientX) / 150.0;
    var ry := (innerHeight / 2.0 - clientY) / 150.0;
    Offset(Clamp(rx, -6.0, 6.0), Clamp(ry, -4.0, 4.0))
  }

  /** The translation of layer `i` (0 at the back): half the tilt times its depth `i + 1`. */
  function LayerShift(tilt: Offset, i: nat): (s: Offset)
    ensures (s.x > 0.0 <==> tilt.x > 0.0) && (s.x < 0.0 <==> tilt.x < 0.0)
    ensures (s.y > 0.0 <==> tilt.y > 0.0) && (s.y < 0.0 <==> tilt.y < 0.0)
  {
    Offset((tilt.x * (i + 1) as real) / 2.0, (tilt.y * (i + 1) as real) / 2.0)
  }

  /** The translations of all `n` layers. */
  function Shifts(tilt: Offset, n: nat): (s: seq<Offset>)
    ensures |s| == n && forall i :: 0 <= i < n ==> s[i] == LayerShift(tilt, i)
  {
    seq(n, i requires 0 <= i < n => LayerShift(tilt, i))
  }

  /** A layer moves at most 3 px across and 2 px down per unit of its depth. */
  lemma ShiftBounds(w: real, h: real, cx: real, cy: real, i: nat)
    ensures var s := LayerShift(Tilt(w, h, cx, cy), i);
      var d := (i + 1) as real;
      && -3.0 * d <= s.x <= 3.0 * d
      && -2.0 * d <= s.y <= 2.0 * d
  {
    var t := Tilt(w, h, cx, cy);
    var d := (i + 1) as real;
    var s := LayerShift(t, i);
    HalfScaleBounds(t.x, 3.0, d, s.x);
    HalfScaleBounds(t.y, 2.0, d, s.y);
  }

  /** Half of `v * d`, for `v` within twice `half` and `d` non-negative, is within `half * d`. */
  lemma HalfScaleBounds(v: real, half: real, d: real, r: real)
    requires -2.0 * half <= v <= 2.0 * half && d >= 0.0 && r == (v * d) / 2.0
    ensures -half * d <= r <= half * d
  {
    assert (2.0 * half - v) * d >= 0.0;
    assert (v + 2.0 * half) * d >= 0.0;
  }

  /** Nearer layers move further than the ones behind them, in the same direction. */
  lemma ShiftGrowsWithDepth(tilt: Offset, i: nat)
    requires tilt.x >= 0.0
    ensures LayerShift(tilt, i).x <= LayerShift(tilt, i + 1).x
  {
    assert tilt.x * (i + 2) as real == tilt.x * (i + 1) as real + tilt.x;
  }

  // ---------------------------------------------------------------------------
  // Auto-scroll

  /** The scroll speed table, back to front. */
  const SPEEDS: seq<int> := [220, 150, 110, 80, 55, 35]

  /** The speed of layer `i`: from the table, or 50 for layers beyond it. */
  function ScrollSpeed(i: nat): (s: int)
    ensures s > 0
    ensures i >= |SPEEDS| ==> s == 50
  {
    if i < |SPEEDS| then SPEEDS[i] else 50
  }

  /** Within the table, nearer layers have a smaller speed value and so scroll faster (the offset is divided by it). */
  lemma SpeedsDecreasing(i: nat, j: nat)
    requires i < j < |SPEEDS|
    ensures ScrollSpeed(i) > ScrollSpeed(j)
  {
  }

  /** How far layer `i` has scrolled left once the shared offset has reached `offset`: the offset scaled by 200 over the layer's speed. */
  function ScrollShift(offset: real, i: nat): (px: real)
    ensures offset >= 0.0 ==> px >= 0.0
  {
    var f := 200.0 / ScrollSpeed(i) as real;
    if offset >= 0.0 then
      QuotientNonNegative(200.0, ScrollSpeed(i) as real);
      NonNegativeProduct(offset, f);
      offset * f
    else
      offset * f
  }

  lemma QuotientNonNegative(c: real, d: real)
    requires c >= 0.0 && d > 0.0
    ensures c / d >= 0.0
  {
  }

  lemma NonNegativeProduct(a: real, b: real)
    requires a >= 0.0 && b >= 0.0
    ensures a * b >= 0.0
  {
  }

  lemma ScaleMonotone(x: real, a: real, b: real)
    requires x >= 0.0 && a <= b
    ensures x * a <= x * b
  {
    NonNegativeProduct(x, b - a);
    assert x * b - x * a == x * (b - a);
  }

  /** Within the table, a nearer layer has always scrolled at least as far as any layer behind it. */
  lemma NearerScrollsFurther(offset: real, i: nat, j: nat)
    requires offset >= 0.0 && i < j < |SPEEDS|
    ensures ScrollShift(offset, i) <= ScrollShift(offset, j)
  {
    var si, sj := ScrollSpeed(i) as real, ScrollSpeed(j) as real;
    SpeedsDecreasing(i, j);
    assert 200.0 / si <= 200.0 / sj by {
      assert 200.0 / si * si == 200.0 && 200.0 / sj * sj == 200.0;
      InverseAntitone(200.0, sj, si);
    }
    ScaleMonotone(offset, 200.0 / si, 200.0 / sj);
  }

  lemma InverseAntitone(c: real, small: real, big: real)
    requires c >= 0.0 && 0.0 < small <= big
    ensures c / big <= c / small
  {
    var q1, q2 := c / big, c / small;
    assert q1 * big == c && q2 * small == c;
    ScaleMonotone(q1, small, big);
  }

  /** Past the table the fallback breaks the ordering: a seventh layer scrolls slower than the sixth. */
  lemma FallbackSlowerThanFront()
    ensures ScrollSpeed(6) > ScrollSpeed(5)
  {
  }

  // ---------------------------------------------------------------------------
  // Load-failure overlay

  /** The URL of every layer, in order. */
  function UrlsOf(layers: seq<Layer>): (urls: seq<string>)
    ensures |urls| == |layers|
    ensures forall i :: 0 <= i < |layers| ==> urls[i] == layers[i].url
  {
    if layers == [] then [] else [layers[0].url] + UrlsOf(layers[1..])
  }

  /** The URLs of the layers whose image does not load; whether an image loads is a parameter. */
  function Failed(layers: seq<Layer>, loads: string -> bool): (urls: seq<string>)
    ensures |urls| <= |layers|
    ensures forall u :: u in urls <==> exists l :: l in layers && l.url == u && !loads(u)
    ensures forall u :: multiset(urls)[u] == if loads(u) then 0 else multiset(UrlsOf(layers))[u]
  {
    if layers == [] then []
    else
      var rest := Failed(layers[1..], loads);
      assert forall l :: l in layers <==> l == layers[0] || l in layers[1..];
      var head := if loads(layers[0].url) then [] else [layers[0].url];
      FailedCountStep(layers, loads, head, rest);
      head + rest
  }

  /** One step of the count in `Failed`: the first layer's URL is kept exactly when it does not load. */
  lemma FailedCountStep(layers: seq<Layer>, loads: string -> bool, head: seq<string>, rest: seq<string>)
    requires layers != []
    requires head == if loads(layers[0].url) then [] else [layers[0].url]
    requires forall u :: multiset(rest)[u] == if loads(u) then 0 else multiset(UrlsOf(layers[1..]))[u]
    ensures forall u :: multiset(head + rest)[u] == if loads(u) then 0 else multiset(UrlsOf(layers))[u]
  {
    assert UrlsOf(layers) == [layers[0].url] + UrlsOf(layers[1..]);
    assert multiset(UrlsOf(layers)) == multiset{layers[0].url} + multiset(UrlsOf(layers[1..]));
    assert multiset(head + rest) == multiset(head) + multiset(rest);
  }

  /** When every layer loads, nothing has failed and no overlay is shown. */
  lemma {:induction false} AllLoadedNoOverlay(layers: seq<Layer>, loads: string -> bool)
    requires forall l :: l in layers ==> loads(l.url)
    ensures Failed(layers, loads) == [] && ErrorOverlay(Failed(layers, loads)) == []
  {
    if layers != [] {
      assert layers[0] in layers;
      assert forall l :: l in layers[1..] ==> l in layers;
      AllLoadedNoOverlay(layers[1..], loads);
    }
  }

  const OVERLAY_TITLE: string := "Background load failed:"

  /** The overlay lines for the URLs that failed: none when all loaded, else a title, the first four and a count of the rest. */
  function ErrorOverlay(errors: seq<string>): (lines: seq<string>)
    ensures errors == [] ==> lines == []
    ensures errors != [] ==>
      var shown := MinI(4, |errors|);
      && |lines| == 1 + shown + (if |errors| > 4 then 1 else 0)
      && lines[0] == OVERLAY_TITLE
      && lines[1..1 + shown] == errors[..shown]
      && (|errors| > 4 <==> |lines| == 6)
      && (|errors| > 4 ==> lines[5] == "+" + NatToString(|errors| - 4) + " more\U{2026}")
  {
    if errors == [] then []
    else
      var shown := MinI(4, |errors|);
      [OVERLAY_TITLE] + errors[..shown]
        + (if |errors| > 4 then ["+" + NatToString(|errors| - 4) + " more\U{2026}"] else [])
  }
}
