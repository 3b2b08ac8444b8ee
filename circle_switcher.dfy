// The round profile picture in the top bar: probing which numbered pictures
// exist, and cycling through them on click.
module CircleSwitcher {
  import opened Wrappers
  import opened JsMath
  import opened Strings

  /** The extensions tried for each number, in order. */
  const EXTS: seq<string> := ["png", "jpg", "jpeg", "webp"]

  /** Pictures are looked for under the numbers 1 to 10. */
  const MAX_CHECK: nat := 10

  const PROFILE_DIR: string := "/assets/mountains/profile/"

  /** The picture shown before detection finishes, and whenever nothing else is available. */
  const FALLBACK: string := "/assets/mountains/profile/1.png"

  function ProbeUrl(n: nat, ext: string): (u: string)
    ensures PROFILE_DIR <= u
    ensures |u| > |PROFILE_DIR| + |ext| + 1
  {
    PROFILE_DIR + NatToString(n) + "." + ext
  }

  /** Different numbers or extensions give different URLs. */
  lemma ProbeUrlInjective(m: nat, n: nat, a: string, b: string)
    requires ProbeUrl(m, a) == ProbeUrl(n, b)
    ensures m == n && a == b
  {
    var sm, sn := NatToString(m), NatToString(n);
    var k := |PROFILE_DIR|;
    assert ProbeUrl(m, a)[k..] == sm + "." + a;
    assert ProbeUrl(n, b)[k..] == sn + "." + b;
    DigitsDotInjective(sm, sn, a, b);
    NatToStringInjective(m, n);
  }

  /** Digits, a dot and a suffix: the digits and the suffix can be read back. */
  lemma DigitsDotInjective(s: string, t: string, a: string, b: string)
    requires IsDigits(s) && IsDigits(t) && s + "." + a == t + "." + b
    ensures s == t && a == b
  {
    var x := s + "." + a;
    DotAfterDigits(s, a);
    DotAfterDigits(t, b);
    assert |s| == |t|;
    assert s == x[..|s|] && t == x[..|t|];
    assert a == x[|s| + 1..] && b == x[|t| + 1..];
  }

  /** In digits, a dot and a suffix, the first dot is the one after the digits. */
  lemma DotAfterDigits(s: string, suffix: string)
    requires IsDigits(s)
    ensures '.' in s + "." + suffix && IndexOf(s + "." + suffix, '.') == |s|
  {
    var t := s + "." + suffix;
    assert t[|s|] == '.';
  }

  /** The index of the first extension from `from` on whose URL loads for number `n`, if any. */
  function FirstLoading(loads: string -> bool, n: nat, exts: seq<string>, from: nat): (r: Option<nat>)
    requires from <= |exts|
    ensures r.Some? ==> from <= r.value < |exts| && loads(ProbeUrl(n, exts[r.value]))
    ensures r.Some? ==> forall j :: from <= j < r.value ==> !loads(ProbeUrl(n, exts[j]))
    ensures r.None? ==> forall j :: from <= j < |exts| ==> !loads(ProbeUrl(n, exts[j]))
    decreases |exts| - from
  {
    if from == |exts| then None
    else if loads(ProbeUrl(n, exts[from])) then Some(from)
    else FirstLoading(loads, n, exts, from + 1)
  }

  /** One detected picture: its number and the extension that loaded. */
  datatype Hit = Hit(n: nat, ext: string)

  /** Number `n`'s hit, if one of its URLs loads. */
  function HitFor(loads: string -> bool, n: nat): (h: Option<Hit>)
    ensures h.Some? ==> h.value.n == n
  {
    var k := FirstLoading(loads, n, EXTS, 0);
    if k.Some? then Some(Hit(n, EXTS[k.value])) else None
  }

  /** The pictures found among the numbers 1 to `m`, in increasing order. */
  function HitsUpTo(loads: string -> bool, m: nat): (hits: seq<Hit>)
    ensures |hits| <= m
    ensures forall i :: 0 <= i < |hits| ==> 1 <= hits[i].n <= m
  {
    if m == 0 then []
    else
      var h := HitFor(loads, m);
      HitsUpTo(loads, m - 1) + (if h.Some? then [h.value] else [])
  }

  function Urls(hits: seq<Hit>): (urls: seq<string>)
    ensures |urls| == |hits|
    ensures forall i :: 0 <= i < |hits| ==> urls[i] == ProbeUrl(hits[i].n, hits[i].ext)
  {
    seq(|hits|, i requires 0 <= i < |hits| => ProbeUrl(hits[i].n, hits[i].ext))
  }

  lemma UrlsAppend(hits: seq<Hit>, h: Hit)
    ensures Urls(hits + [h]) == Urls(hits) + [ProbeUrl(h.n, h.ext)]
  {
  }

  /** What detection returns. */
  function Detected(loads: string -> bool): (urls: seq<string>)
    ensures |urls| <= MAX_CHECK
  {
    Urls(HitsUpTo(loads, MAX_CHECK))
  }

  /** Each hit is its number's first extension that loads: that URL loads and no earlier one does. */
  lemma {:induction false} HitsAreFirst(loads: string -> bool, m: nat, i: nat)
    requires i < |HitsUpTo(loads, m)|
    ensures var h := HitsUpTo(loads, m)[i];
      exists k :: 0 <= k < |EXTS| && h.ext == EXTS[k] && loads(ProbeUrl(h.n, EXTS[k]))
        && forall j :: 0 <= j < k ==> !loads(ProbeUrl(h.n, EXTS[j]))
  {
    var prev := HitsUpTo(loads, m - 1);
    var hits := HitsUpTo(loads, m);
    if i < |prev| {
      HitsAreFirst(loads, m - 1, i);
      assert hits[i] == prev[i];
    } else {
      var k := FirstLoading(loads, m, EXTS, 0);
      assert hits[i] == Hit(m, EXTS[k.value]);
    }
  }

  /** The hits come in strictly increasing number order, so at most one per number. */
  lemma {:induction false} HitsIncreasing(loads: string -> bool, m: nat, i: nat, j: nat)
    requires i < j < |HitsUpTo(loads, m)|
    ensures HitsUpTo(loads, m)[i].n < HitsUpTo(loads, m)[j].n
  {
    var prev := HitsUpTo(loads, m - 1);
    var hits := HitsUpTo(loads, m);
    var h := HitFor(loads, m);
    assert hits == prev + (if h.Some? then [h.value] else []);
    assert hits[i] == prev[i];
    if j < |prev| {
      HitsIncreasing(loads, m - 1, i, j);
      assert hits[j] == prev[j];
    } else {
      assert hits[j].n == m;
    }
  }

  /** Every number in range with a loading URL has a hit; `i` is where. */
  lemma {:induction false} HitsComplete(loads: string -> bool, m: nat, n: nat, ext: string) returns (i: nat)
    requires 1 <= n <= m && ext in EXTS && loads(ProbeUrl(n, ext))
    ensures i < |HitsUpTo(loads, m)| && HitsUpTo(loads, m)[i].n == n
  {
    var prev := HitsUpTo(loads, m - 1);
    if n < m {
      i := HitsComplete(loads, m - 1, n, ext);
      assert HitsUpTo(loads, m)[i] == prev[i];
    } else {
      assert HitFor(loads, m).Some?;
      i := |prev|;
    }
  }

  /** Detection finds at most ten pictures, all different. */
  lemma DetectedFacts(loads: string -> bool)
    ensures |Detected(loads)| <= MAX_CHECK
    ensures forall i, j :: 0 <= i < j < |Detected(loads)| ==> Detected(loads)[i] != Detected(loads)[j]
  {
    var hits := HitsUpTo(loads, MAX_CHECK);
    var urls := Urls(hits);
    forall i, j | 0 <= i < j < |urls| ensures urls[i] != urls[j] {
      HitsIncreasing(loads, MAX_CHECK, i, j);
      if urls[i] == urls[j] {
        ProbeUrlInjective(hits[i].n, hits[j].n, hits[i].ext, hits[j].ext);
      }
    }
  }

  /** The extensions for one number, in order, stopping at the first URL that loads. */
  method ProbeNumber(loads: string -> bool, n: nat) returns (url: Option<string>)
    ensures url.None? <==> HitFor(loads, n).None?
    ensures url.Some? ==> url.value == ProbeUrl(n, HitFor(loads, n).value.ext)
  {
    var k := 0;
    while k < |EXTS|
      invariant 0 <= k <= |EXTS|
      invariant FirstLoading(loads, n, EXTS, 0) == FirstLoading(loads, n, EXTS, k)
    {
      var candidate := ProbeUrl(n, EXTS[k]);
      if loads(candidate) {
        return Some(candidate);
      }
      k := k + 1;
    }
    return None;
  }

  /**
   * The probing loop: numbers 1 to 10 in order, for each the extensions in
   * order, keeping the first URL that loads and moving on to the next number.
   */
  method DetectProfileImages(loads: string -> bool) returns (urls: seq<string>)
    ensures urls == Detected(loads)
  {
    urls := [];
    var n := 1;
    while n <= MAX_CHECK
      invariant 1 <= n <= MAX_CHECK + 1
      invariant urls == Urls(HitsUpTo(loads, n - 1))
    {
      var url := ProbeNumber(loads, n);
      if url.Some? {
        UrlsAppend(HitsUpTo(loads, n - 1), HitFor(loads, n).value);
        urls := urls + [url.value];
      }
      n := n + 1;
    }
  }

  // ---------------------------------------------------------------------------
  // Cycling

  /** The index after `idx`, wrapping round; 0 for an empty list. */
  function NextIdx(idx: nat, len: nat): (r: nat)
    ensures len > 0 ==> r < len
    ensures len > 0 && idx + 1 < len ==> r == idx + 1
    ensures len > 0 && idx + 1 == len ==> r == 0
    ensures len == 0 ==> r == 0
  {
    if len > 0 then (idx + 1) % len else 0
  }

  /** `k` cycles from `idx`. */
  function Iterate(idx: nat, len: nat, k: nat): nat {
    if k == 0 then idx else NextIdx(Iterate(idx, len, k - 1), len)
  }

  lemma {:induction false} IterateAdd(idx: nat, len: nat, a: nat, b: nat)
    ensures Iterate(idx, len, a + b) == Iterate(Iterate(idx, len, a), len, b)
  {
    if b > 0 {
      IterateAdd(idx, len, a, b - 1);
    }
  }

  /** Below the end, each cycle moves one picture on. */
  lemma {:induction false} IterateClimb(idx: nat, len: nat, k: nat)
    requires idx + k < len
    ensures Iterate(idx, len, k) == idx + k
  {
    if k > 0 {
      IterateClimb(idx, len, k - 1);
    }
  }

  /** A full round of `len` clicks shows the same picture again. */
  lemma FullRound(idx: nat, len: nat)
    requires idx < len
    ensures Iterate(idx, len, len) == idx
  {
    var up := len - idx;
    IterateClimb(idx, len, up - 1);
    assert Iterate(idx, len, up) == 0;
    IterateClimb(0, len, idx);
    IterateAdd(idx, len, up, idx);
  }

  /** The pictures available to cycle through, and the one shown. */
  class Switcher {
    var images: seq<string>
    var idx: nat

    ghost predicate Valid()
      reads this
    {
      images != []
    }

    constructor ()
      ensures Valid() && images == [FALLBACK] && idx == 0
    {
      images := [FALLBACK];
      idx := 0;
    }

    /** The picture on the button: the current one, or the fallback when the index is out of range. */
    function Current(): (url: string)
      reads this
      ensures idx < |images| ==> url == images[idx]
      ensures idx >= |images| ==> url == FALLBACK
    {
      if idx < |images| then images[idx] else FALLBACK
    }

    /** A click: the next picture, wrapping round. */
    method Cycle()
      requires Valid()
      modifies this`idx
      ensures Valid() && idx < |images|
      ensures idx == NextIdx(old(idx), |images|)
    {
      if |images| == 0 {
        return;
      }
      idx := (idx + 1) % |images|;
    }

    /** Enter and Space cycle like a click; every other key is ignored. */
    method KeyDown(key: string)
      requires Valid()
      modifies this`idx
      ensures Valid()
      ensures key == "Enter" || key == " " ==> idx == NextIdx(old(idx), |images|)
      ensures key != "Enter" && key != " " ==> idx == old(idx)
    {
      if key == "Enter" || key == " " {
        Cycle();
      }
    }

    /**
     * Detection finished: use what was found with the index pulled into range,
     * or go back to the single default picture and leave the index alone.
     */
    method AfterDetection(found: seq<string>)
      requires Valid()
      modifies this
      ensures Valid()
      ensures found != [] ==> images == found && idx == MinI(old(idx), |found| - 1) && idx < |images|
      ensures found == [] ==> images == [FALLBACK] && idx == old(idx) && Current() == FALLBACK
    {
      if |found| > 0 {
        images := found;
        idx := MinI(idx, |found| - 1);
      } else {
        images := [FALLBACK];
      }
    }
  }
}
