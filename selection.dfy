/**
 * The two selection heuristics of App.js. Each is given twice: as the loop the
 * component runs (`FindBestCameraRatio`, `FindBestPhotoResolution`, scanning
 * the device's list once and reassigning two locals), and as a reference
 * function that says which element the scan ends on in declarative terms. The
 * methods are proved to return what the reference functions describe.
 *
 * The reference functions choose a position from the list of scores the scan
 * compares (the distances of the ratios to 4/3, the first numbers of the
 * resolutions); `Distances` and `Widths` read those scores off the device's
 * strings.
 */
module Selection {
  import opened Optional
  import opened Parsing

  /** The aspect ratio the ratio selector aims for (App.js:89). */
  const TargetRatio: real := 4.0 / 3.0

  /**
   * The number the resolution selector compares the first field of each
   * resolution against (App.js:118). The code calls it a height, but the field
   * it compares is the first one, the width.
   */
  const TargetPixelHeight: int := 1920

  function Abs(x: real): (a: real) {
    if x < 0.0 then -x else x
  }

  // ---------------------------------------------------------------------------
  // Ratio selector

  predicate AllRatios(ratios: seq<string>) {
    forall i | 0 <= i < |ratios| :: IsRatio(ratios[i])
  }

  /**
   * `Math.abs(W/H - 4/3)`, the score of a ratio; smaller is better, and 0
   * exactly for a ratio equal to 4:3.
   */
  function RatioDistance(ratio: string): (d: real)
    requires IsRatio(ratio)
    ensures d >= 0.0
    ensures d == 0.0 <==> RatioToNumber(ratio) == TargetRatio
  {
    Abs(RatioToNumber(ratio) - TargetRatio)
  }

  /** The score of every ratio of the list, in order. */
  function Distances(ratios: seq<string>): (ds: seq<real>)
    requires AllRatios(ratios)
    ensures |ds| == |ratios|
  {
    if ratios == [] then [] else [RatioDistance(ratios[0])] + Distances(ratios[1..])
  }

  /** The score at a position is the distance of the ratio at that position. */
  lemma {:induction false} DistanceAt(ratios: seq<string>, i: nat)
    requires AllRatios(ratios) && i < |ratios|
    ensures Distances(ratios)[i] == RatioDistance(ratios[i])
    decreases i
  {
    if i > 0 {
      DistanceAt(ratios[1..], i - 1);
    }
  }

  /**
   * The position of the smallest of the first `n` scores: none of them is
   * smaller, and every score before it is strictly larger, so among equal
   * scores the first one is chosen.
   */
  function ClosestIndex(ds: seq<real>, n: nat): (k: nat)
    requires 0 < n <= |ds|
    ensures k < n
    ensures forall j | 0 <= j < n :: ds[k] <= ds[j]
    ensures forall j | 0 <= j < k :: ds[k] < ds[j]
  {
    if n == 1 then 0
    else
      var k := ClosestIndex(ds, n - 1);
      if ds[n - 1] < ds[k] then n - 1 else k
  }

  /**
   * What `findBestCameraRatio` returns: null exactly when the list is absent or
   * empty, and otherwise an entry of the list closest to 4:3, the first such.
   */
  function BestCameraRatio(cameraRatios: Option<seq<string>>): (r: Option<string>)
    requires cameraRatios.Some? ==> AllRatios(cameraRatios.value)
    ensures r.None? <==> cameraRatios.None? || |cameraRatios.value| == 0
    ensures r.Some? ==> r.value in cameraRatios.value
    ensures r.Some? ==> forall j | 0 <= j < |cameraRatios.value| ::
              RatioDistance(r.value) <= RatioDistance(cameraRatios.value[j])
    ensures r.Some? ==> exists k | 0 <= k < |cameraRatios.value| ::
              (r.value == cameraRatios.value[k] &&
               forall j | 0 <= j < k :: RatioDistance(r.value) < RatioDistance(cameraRatios.value[j]))
  {
    if cameraRatios.None? || |cameraRatios.value| == 0 then None
    else
      var ratios := cameraRatios.value;
      var ds := Distances(ratios);
      var k := ClosestIndex(ds, |ds|);
      assert ratios[k] in ratios;
      assert forall j | 0 <= j < |ratios| :: RatioDistance(ratios[k]) <= RatioDistance(ratios[j]) by {
        forall j | 0 <= j < |ratios| ensures RatioDistance(ratios[k]) <= RatioDistance(ratios[j]) {
          DistanceAt(ratios, k);
          DistanceAt(ratios, j);
          assert ds[k] <= ds[j];
        }
      }
      assert forall j | 0 <= j < k :: RatioDistance(ratios[k]) < RatioDistance(ratios[j]) by {
        forall j | 0 <= j < k ensures RatioDistance(ratios[k]) < RatioDistance(ratios[j]) {
          DistanceAt(ratios, k);
          DistanceAt(ratios, j);
          assert ds[k] < ds[j];
        }
      }
      Some(ratios[k])
  }

  /** `findBestCameraRatio`: one pass, replacing the best only on a strictly smaller distance. */
  method FindBestCameraRatio(cameraRatios: Option<seq<string>>) returns (r: Option<string>)
    requires cameraRatios.Some? ==> AllRatios(cameraRatios.value)
    ensures r == BestCameraRatio(cameraRatios)
  {
    if cameraRatios.None? || |cameraRatios.value| == 0 {
      return None;
    }
    var ratios := cameraRatios.value;
    ghost var ds := Distances(ratios);
    var closestRatio := ratios[0];
    var smallestDifference := Abs(RatioToNumber(ratios[0]) - TargetRatio);
    DistanceAt(ratios, 0);
    ghost var k := 0;
    var i := 0;
    while i < |ratios|
      invariant 0 <= i <= |ratios|
      invariant k < |ratios| && closestRatio == ratios[k] && smallestDifference == ds[k]
      invariant i > 0 ==> k == ClosestIndex(ds, i)
      invariant i == 0 ==> k == 0
    {
      var ratio := ratios[i];
      var currentDifference := Abs(RatioToNumber(ratio) - TargetRatio);
      DistanceAt(ratios, i);
      assert currentDifference == ds[i];
      if currentDifference < smallestDifference {
        closestRatio := ratio;
        smallestDifference := currentDifference;
        k := i;
      }
      i := i + 1;
    }
    r := Some(closestRatio);
  }

  // ---------------------------------------------------------------------------
  // Resolution selector

  predicate AllResolutions(sizes: seq<string>) {
    forall i | 0 <= i < |sizes| :: IsResolution(sizes[i])
  }

  /** The first number of every resolution of the list, in order. */
  function Widths(sizes: seq<string>): (ws: seq<int>)
    requires AllResolutions(sizes)
    ensures |ws| == |sizes|
  {
    if sizes == [] then [] else [FirstNumberOfResolution(sizes[0])] + Widths(sizes[1..])
  }

  /** The number at a position is the first number of the resolution at that position. */
  lemma {:induction false} WidthAt(sizes: seq<string>, i: nat)
    requires AllResolutions(sizes) && i < |sizes|
    ensures Widths(sizes)[i] == FirstNumberOfResolution(sizes[i])
    decreases i
  {
    if i > 0 {
      WidthAt(sizes[1..], i - 1);
    }
  }

  /** A first number the comment of App.js:109 aims for: at least 1920. */
  predicate Qualifies(w: int) {
    w >= TargetPixelHeight
  }

  /** Among the first `n` numbers, `k` is the first position holding the smallest qualifying one. */
  predicate IsEarliestSmallestQualifying(ws: seq<int>, n: nat, k: nat)
    requires n <= |ws|
  {
    k < n && Qualifies(ws[k]) &&
    (forall j | 0 <= j < n && Qualifies(ws[j]) :: ws[k] <= ws[j]) &&
    (forall j | 0 <= j < k && Qualifies(ws[j]) :: ws[k] < ws[j])
  }

  /**
   * The choice the comment describes, among the first `n` numbers: the first
   * position holding the smallest number that is at least 1920, or None when
   * no number qualifies.
   */
  function SmallestQualifyingIndex(ws: seq<int>, n: nat): (k: Option<nat>)
    requires n <= |ws|
    ensures k.None? <==> forall j | 0 <= j < n :: !Qualifies(ws[j])
    ensures k.Some? ==> IsEarliestSmallestQualifying(ws, n, k.value)
  {
    if n == 0 then None
    else
      var k := SmallestQualifyingIndex(ws, n - 1);
      if Qualifies(ws[n - 1]) && (k.None? || ws[n - 1] < ws[k.value]) then Some(n - 1) else k
  }

  /** The first position among the first `n` whose number is at least 1920, or None when none qualifies. */
  function FirstQualifyingIndex(ws: seq<int>, n: nat): (k: Option<nat>)
    requires n <= |ws|
    ensures k.None? <==> forall j | 0 <= j < n :: !Qualifies(ws[j])
    ensures k.Some? ==> k.value < n && Qualifies(ws[k.value])
    ensures k.Some? ==> forall j | 0 <= j < k.value :: !Qualifies(ws[j])
  {
    if n == 0 then None
    else
      var k := FirstQualifyingIndex(ws, n - 1);
      if k.None? && Qualifies(ws[n - 1]) then Some(n - 1) else k
  }

  /**
   * The position `findBestPhotoResolution` ends on after scanning the first
   * `n` entries, as the code is written: the position the comment intends,
   * except when nothing qualifies or when the intended position is also the
   * first qualifying one (see `ChosenResolutionIndexMeaning`).
   */
  function ChosenResolutionIndex(ws: seq<int>, n: nat): (k: nat)
    requires 0 < n <= |ws|
    ensures k < n
  {
    match SmallestQualifyingIndex(ws, n)
    case None => 0
    case Some(m) => if FirstQualifyingIndex(ws, n) == Some(m) then 0 else m
  }

  /**
   * The entry the scan ends on is the first entry or a qualifying one; it is
   * the first entry when nothing qualifies; when the first entry qualifies it
   * is the first smallest qualifying entry; and when the first entry does not
   * qualify, the intended entry is returned unless it is the first qualifying
   * entry, which is never returned: the branch that moves past a too-small
   * entry updates the running difference but not the returned entry.
   */
  lemma ChosenResolutionIndexMeaning(ws: seq<int>, n: nat)
    requires 0 < n <= |ws|
    ensures var k := ChosenResolutionIndex(ws, n);
      && (k == 0 || Qualifies(ws[k]))
      && ((forall j | 0 <= j < n :: !Qualifies(ws[j])) ==> k == 0)
      && (Qualifies(ws[0]) ==> IsEarliestSmallestQualifying(ws, n, k))
      && (k != 0 ==> IsEarliestSmallestQualifying(ws, n, k) && FirstQualifyingIndex(ws, n) != Some(k))
      && (forall m :: IsEarliestSmallestQualifying(ws, n, m) && FirstQualifyingIndex(ws, n) != Some(m) ==> k == m)
  {
  }

  /**
   * What `findBestPhotoResolution` returns: null exactly when the list is
   * absent or empty; otherwise an entry of the list that is the first entry
   * or has a first number of at least 1920, and, when the first entry
   * qualifies, the first entry with the smallest qualifying first number.
   */
  function BestPhotoResolution(sizes: Option<seq<string>>): (r: Option<string>)
    requires sizes.Some? ==> AllResolutions(sizes.value)
    ensures r.None? <==> sizes.None? || |sizes.value| == 0
    ensures r.Some? ==> r.value in sizes.value
    ensures r.Some? ==> r.value == sizes.value[0] || FirstNumberOfResolution(r.value) >= TargetPixelHeight
    ensures r.Some? && Qualifies(FirstNumberOfResolution(sizes.value[0])) ==>
              exists k: nat :: (IsEarliestSmallestQualifying(Widths(sizes.value), |sizes.value|, k) &&
                                r.value == sizes.value[k])
  {
    if sizes.None? || |sizes.value| == 0 then None
    else
      var ws := Widths(sizes.value);
      var k := ChosenResolutionIndex(ws, |ws|);
      ChosenResolutionIndexMeaning(ws, |ws|);
      WidthAt(sizes.value, 0);
      WidthAt(sizes.value, k);
      assert sizes.value[k] in sizes.value;
      Some(sizes.value[k])
  }

  /**
   * `findBestPhotoResolution`: one pass; while the running difference is
   * negative it is overwritten by each entry's difference, otherwise an entry
   * with a smaller non-negative difference becomes the returned one.
   */
  method FindBestPhotoResolution(availablePicturesSizes: Option<seq<string>>) returns (r: Option<string>)
    requires availablePicturesSizes.Some? ==> AllResolutions(availablePicturesSizes.value)
    ensures r == BestPhotoResolution(availablePicturesSizes)
  {
    if availablePicturesSizes.None? || |availablePicturesSizes.value| == 0 {
      return None;
    }
    var sizes := availablePicturesSizes.value;
    ghost var ws := Widths(sizes);
    var closestDifference := sizes[0];
    var smallestDifference := FirstNumberOfResolution(sizes[0]) - TargetPixelHeight;
    WidthAt(sizes, 0);
    ghost var k := 0;
    var i := 0;
    while i < |sizes|
      invariant 0 <= i <= |sizes|
      invariant k < |sizes| && closestDifference == sizes[k]
      invariant i == 0 ==> k == 0 && smallestDifference == ws[0] - TargetPixelHeight
      invariant i > 0 ==> k == ChosenResolutionIndex(ws, i)
      invariant i > 0 ==> smallestDifference == RunningDifference(ws, i)
    {
      var size := sizes[i];
      var currentDifference := FirstNumberOfResolution(size) - TargetPixelHeight;
      WidthAt(sizes, i);
      assert currentDifference == ws[i] - TargetPixelHeight;
      if i == 0 {
        ResolutionScanStart(ws);
      } else {
        ResolutionScanStep(ws, i);
      }
      if smallestDifference < 0 {
        smallestDifference := currentDifference;
      } else if currentDifference < smallestDifference && currentDifference >= 0 {
        closestDifference := size;
        smallestDifference := currentDifference;
        k := i;
      }
      i := i + 1;
    }
    r := Some(closestDifference);
  }

  /**
   * The value of `smallestDifference` after scanning the first `n` entries:
   * the difference of the smallest qualifying number so far, or, while nothing
   * has qualified, that of the last number scanned. It is non-negative exactly
   * once some number has qualified.
   */
  ghost function RunningDifference(ws: seq<int>, n: nat): (d: int)
    requires 0 < n <= |ws|
    ensures d >= 0 <==> exists j | 0 <= j < n :: Qualifies(ws[j])
  {
    match SmallestQualifyingIndex(ws, n)
    case Some(m) => ws[m] - TargetPixelHeight
    case None => ws[n - 1] - TargetPixelHeight
  }

  /** Scanning the first entry leaves it chosen, with its own difference as the running one. */
  lemma ResolutionScanStart(ws: seq<int>)
    requires 0 < |ws|
    ensures ChosenResolutionIndex(ws, 1) == 0
    ensures RunningDifference(ws, 1) == ws[0] - TargetPixelHeight
  {
  }

  /** One iteration of the scan of `findBestPhotoResolution`, from `n` entries scanned to `n + 1`. */
  lemma ResolutionScanStep(ws: seq<int>, n: nat)
    requires 0 < n < |ws|
    ensures var d := ws[n] - TargetPixelHeight;
            var running := RunningDifference(ws, n);
            if running < 0 then
              ChosenResolutionIndex(ws, n + 1) == ChosenResolutionIndex(ws, n) &&
              RunningDifference(ws, n + 1) == d
            else if d < running && d >= 0 then
              ChosenResolutionIndex(ws, n + 1) == n &&
              RunningDifference(ws, n + 1) == d
            else
              ChosenResolutionIndex(ws, n + 1) == ChosenResolutionIndex(ws, n) &&
              RunningDifference(ws, n + 1) == running
  {
  }
}
