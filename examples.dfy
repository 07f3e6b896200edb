/**
 * The selectors on concrete device lists: the list quoted in App.js:64 and
 * App.js:110-111, and two short lists that show the resolution selector
 * keeping its first entry, or not, depending on what follows the first
 * qualifying entry. Entries are written with `RatioString` and
 * `ResolutionString` (`ResolutionString(1920, 1440)` is "1920x1440").
 */
module SelectionExamples {
  import opened Optional
  import opened Parsing
  import opened Selection

  lemma ExactRatioWinsFor(a: string, b: string, c: string)
    requires IsRatio(a) && RatioToNumber(a) == 16.0 / 9.0
    requires IsRatio(b) && RatioToNumber(b) == 4.0 / 3.0
    requires IsRatio(c) && RatioToNumber(c) == 3.0 / 2.0
    ensures AllRatios([a, b, c])
    ensures BestCameraRatio(Some([a, b, c])) == Some(b)
  {
    var ratios := [a, b, c];
    var ds := Distances(ratios);
    DistanceAt(ratios, 0);
    DistanceAt(ratios, 1);
    DistanceAt(ratios, 2);
    assert ds[0] == 4.0 / 9.0 && ds[1] == 0.0 && ds[2] == 1.0 / 6.0;
    assert ClosestIndex(ds, 2) == 1;
    assert ClosestIndex(ds, 3) == 1;
  }

  /** An exact 4:3 entry wins over 16:9 and 3:2. */
  lemma ExactRatioWins()
    ensures AllRatios([RatioString(16, 9), RatioString(4, 3), RatioString(3, 2)])
    ensures BestCameraRatio(Some([RatioString(16, 9), RatioString(4, 3), RatioString(3, 2)]))
            == Some(RatioString(4, 3))
  {
    ReadRatioString(16, 9);
    ReadRatioString(4, 3);
    ReadRatioString(3, 2);
    ExactRatioWinsFor(RatioString(16, 9), RatioString(4, 3), RatioString(3, 2));
  }

  lemma ClosestRatioWinsFor(a: string, b: string)
    requires IsRatio(a) && RatioToNumber(a) == 11.0 / 9.0
    requires IsRatio(b) && RatioToNumber(b) == 5.0 / 4.0
    ensures AllRatios([a, b])
    ensures BestCameraRatio(Some([a, b])) == Some(b)
  {
    var ratios := [a, b];
    var ds := Distances(ratios);
    DistanceAt(ratios, 0);
    DistanceAt(ratios, 1);
    assert ds[0] == 1.0 / 9.0 && ds[1] == 1.0 / 12.0;
    assert ClosestIndex(ds, 2) == 1;
  }

  /** Without an exact match the numerically closest ratio wins: 5/4 is nearer 4/3 than 11/9. */
  lemma ClosestRatioWins()
    ensures AllRatios([RatioString(11, 9), RatioString(5, 4)])
    ensures BestCameraRatio(Some([RatioString(11, 9), RatioString(5, 4)])) == Some(RatioString(5, 4))
  {
    ReadRatioString(11, 9);
    ReadRatioString(5, 4);
    ClosestRatioWinsFor(RatioString(11, 9), RatioString(5, 4));
  }

  lemma DocumentedListPicksFirstFor(a: string, b: string, c: string, d: string, e: string, f: string)
    requires IsResolution(a) && FirstNumberOfResolution(a) == 1920
    requires IsResolution(b) && FirstNumberOfResolution(b) == 2048
    requires IsResolution(c) && FirstNumberOfResolution(c) == 2560
    requires IsResolution(d) && FirstNumberOfResolution(d) == 3264
    requires IsResolution(e) && FirstNumberOfResolution(e) == 4000
    requires IsResolution(f) && FirstNumberOfResolution(f) == 4032
    ensures AllResolutions([a, b, c, d, e, f])
    ensures BestPhotoResolution(Some([a, b, c, d, e, f])) == Some(a)
  {
    var sizes := [a, b, c, d, e, f];
    var ws := Widths(sizes);
    forall i | 0 <= i < 6 ensures ws[i] == FirstNumberOfResolution(sizes[i]) {
      WidthAt(sizes, i);
    }
    ChosenResolutionIndexMeaning(ws, 6);
    assert IsEarliestSmallestQualifying(ws, 6, 0);
  }

  /** The list of App.js:64: the smallest width of at least 1920, which is also the first entry. */
  lemma DocumentedListPicksFirst()
    ensures var sizes := [ResolutionString(1920, 1440), ResolutionString(2048, 1536), ResolutionString(2560, 1920),
                          ResolutionString(3264, 2448), ResolutionString(4000, 3000), ResolutionString(4032, 3024)];
            AllResolutions(sizes) && BestPhotoResolution(Some(sizes)) == Some(ResolutionString(1920, 1440))
  {
    ReadResolutionString(1920, 1440);
    ReadResolutionString(2048, 1536);
    ReadResolutionString(2560, 1920);
    ReadResolutionString(3264, 2448);
    ReadResolutionString(4000, 3000);
    ReadResolutionString(4032, 3024);
    DocumentedListPicksFirstFor(ResolutionString(1920, 1440), ResolutionString(2048, 1536), ResolutionString(2560, 1920),
                                ResolutionString(3264, 2448), ResolutionString(4000, 3000), ResolutionString(4032, 3024));
  }

  lemma TooSmallFirstEntryKeptFor(a: string, b: string)
    requires IsResolution(a) && FirstNumberOfResolution(a) == 1280
    requires IsResolution(b) && FirstNumberOfResolution(b) == 2048
    ensures AllResolutions([a, b])
    ensures BestPhotoResolution(Some([a, b])) == Some(a)
  {
    var sizes := [a, b];
    var ws := Widths(sizes);
    WidthAt(sizes, 0);
    WidthAt(sizes, 1);
    assert ws[0] == 1280 && ws[1] == 2048;
    assert SmallestQualifyingIndex(ws, 2) == Some(1);
    assert FirstQualifyingIndex(ws, 2) == Some(1);
  }

  /**
   * A too-small first entry followed by a single qualifying one: the
   * qualifying entry is skipped and the too-small first entry is returned.
   */
  lemma TooSmallFirstEntryKept()
    ensures AllResolutions([ResolutionString(1280, 960), ResolutionString(2048, 1536)])
    ensures BestPhotoResolution(Some([ResolutionString(1280, 960), ResolutionString(2048, 1536)]))
            == Some(ResolutionString(1280, 960))
  {
    ReadResolutionString(1280, 960);
    ReadResolutionString(2048, 1536);
    TooSmallFirstEntryKeptFor(ResolutionString(1280, 960), ResolutionString(2048, 1536));
  }

  lemma TooSmallFirstEntryReplacedFor(a: string, b: string, c: string)
    requires IsResolution(a) && FirstNumberOfResolution(a) == 1280
    requires IsResolution(b) && FirstNumberOfResolution(b) == 4000
    requires IsResolution(c) && FirstNumberOfResolution(c) == 2048
    ensures AllResolutions([a, b, c])
    ensures BestPhotoResolution(Some([a, b, c])) == Some(c)
  {
    var sizes := [a, b, c];
    var ws := Widths(sizes);
    WidthAt(sizes, 0);
    WidthAt(sizes, 1);
    WidthAt(sizes, 2);
    assert ws[0] == 1280 && ws[1] == 4000 && ws[2] == 2048;
    assert FirstQualifyingIndex(ws, 3) == Some(1);
    assert SmallestQualifyingIndex(ws, 3) == Some(2);
  }

  /**
   * The same list with a larger qualifying entry in between: now the entry
   * after it, smaller but still qualifying, replaces the first entry.
   */
  lemma TooSmallFirstEntryReplaced()
    ensures AllResolutions([ResolutionString(1280, 960), ResolutionString(4000, 3000), ResolutionString(2048, 1536)])
    ensures BestPhotoResolution(Some([ResolutionString(1280, 960), ResolutionString(4000, 3000), ResolutionString(2048, 1536)]))
            == Some(ResolutionString(2048, 1536))
  {
    ReadResolutionString(1280, 960);
    ReadResolutionString(4000, 3000);
    ReadResolutionString(2048, 1536);
    TooSmallFirstEntryReplacedFor(ResolutionString(1280, 960), ResolutionString(4000, 3000), ResolutionString(2048, 1536));
  }
}
