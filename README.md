# Camera screen selectors

A Dafny model of the decision logic of a small Expo camera screen (`App.js`):
the two heuristics that pick, from what the phone's camera reports, an aspect
ratio (the one closest to 4:3) and a photo resolution (aiming at 1920), the
two string helpers they read the device's `"W:H"` and `"WxH"` strings with,
and the state updates of the component: front/back toggle, the ratio and
picture size chosen when the camera is ready, and the capture / retake /
confirm cycle of the photo under review.

Modules:

- `Optional` (`option.dfy`): JavaScript's `null` as `Option`, and the `??`
  operator used to keep the previous state when a selector returns null.
- `Parsing` (`parsing.dfy`): `split`, `Number` on digit strings,
  `convertRatioToNumber` (`RatioToNumber`) and
  `extractFirstNumberFromResolution` (`FirstNumberOfResolution`). Parsing a
  reported `"W:H"` gives exactly W/H, and parsing a reported `"WxH"` gives W.
- `Selection` (`selection.dfy`): each selector as the loop the component runs
  (`FindBestCameraRatio`, `FindBestPhotoResolution`) and as a reference
  function saying declaratively which entry the loop ends on
  (`BestCameraRatio`, `BestPhotoResolution`); each method is proved to return
  exactly what its reference function describes.
- `SelectionExamples` (`examples.dfy`): the selectors on the list quoted in
  the source and on short lists that show the resolution selector's
  behaviour.
- `CameraScreen` (`camera_screen.dfy`): the component's state as a class
  `Screen` whose methods are the handlers; the camera library's asynchronous
  answers are parameters.

The resolution selector is modelled as the code is written, which differs
from its comment and from a "smallest height at least 1920" policy:

- it compares the FIRST number of `"WxH"`, the width, with 1920;
- while the running difference is negative it is overwritten by the next
  entry's difference without the returned entry changing, so the first entry
  that reaches 1920 can never be returned when it comes after a too-small
  first entry. `ChosenResolutionIndexMeaning` states the result exactly: the
  first entry when nothing qualifies; otherwise the first entry with the
  smallest qualifying number, except that the first entry is returned
  instead when that entry is also the first qualifying one. So
  `["1280x960","2048x1536"]` gives `"1280x960"` while
  `["1280x960","4000x3000","2048x1536"]` gives `"2048x1536"`.

The comment at App.js:109 speaks of pixel height; the code compares the first
number, and the model follows the code. Likewise the code keeps no guard against taking a second photo while one is
under review, and the confirm button does nothing; the model does the same.

Entries are strings of digits around the separator: a field of digits is read
by `Number` as its decimal value (the empty field as 0), and a ratio's second
field must not be 0. Ratios are compared with exact real arithmetic.

## Model

| member | source | states |
|---|---|---|
| `Optional.GetOr` | App.js:62 | `chosenRatio ?? prevState`: the selected value when there is one, the previous ratio otherwise |
| `Optional.OrElse` | App.js:70 | `bestPhotoResolution ?? prevState` where the previous size may itself be null |
| `Parsing.Split` | App.js:12 | `split` yields at least one field, and no field contains the separator |
| `Parsing.SplitWithoutSeparator` | App.js:18 | a string without the separator splits into itself alone |
| `Parsing.SplitAtFirstSeparator` | App.js:12 | the text before the first separator is the first field, the rest splits on its own |
| `Parsing.NumeralRoundTrip` | App.js:12 | `Number` of the decimal numeral of n is n |
| `Parsing.EmptyFieldReadsZero` | App.js:12 | `Number` of the empty field is 0 |
| `Parsing.RatioToNumber` | App.js:10-14 | the ratio of two digit fields is a non-negative number |
| `Parsing.RatioOfFields` | App.js:10-14 | `"W:H"` with digit fields W, H (H not zero) is read as value(W)/value(H) |
| `Parsing.ReadRatioString` | App.js:10-14 | the reported ratio string for w and h is well formed and read as exactly w/h |
| `Parsing.FirstNumberOfWholeString` | App.js:16-19 | a resolution string without any `x` is one field, read whole as the number it spells |
| `Parsing.FirstNumberOfFields` | App.js:16-19 | `"WxH"` is read as the value of W, the first field, whatever follows the `x` |
| `Parsing.ReadResolutionString` | App.js:16-19 | the reported resolution string for w and h is read as w, not h |
| `Parsing.ReportedRatioStrings` | App.js:62 | the ratio builder writes "4:3" and "16:9", the strings named at App.js:62, and "3:2", "11:9" and "5:4", the other strings the example lists use |
| `Parsing.ReportedResolutionString` | App.js:111 | the resolution builder writes the documented output "1920x1440" |
| `Selection.RatioDistance` | App.js:92-98 | the distance of a ratio from 4/3 is never negative, and is zero exactly when the ratio equals 4/3 |
| `Selection.DistanceAt` | App.js:96-98 | the score the scan compares at each position is that entry's distance from 4/3 |
| `Selection.ClosestIndex` | App.js:89-105 | after scanning n entries, the chosen one is at least as close to 4/3 as each of them, and strictly closer than every earlier one (the first of equally close ones wins) |
| `Selection.BestCameraRatio` | App.js:81-107 | null exactly when the list is absent or empty; otherwise an entry of the list, closest to 4/3, the earliest such |
| `Selection.FindBestCameraRatio` | App.js:81-107 | the loop with strict `<` returns exactly `BestCameraRatio` |
| `Selection.WidthAt` | App.js:121-125 | the number the scan compares at each position is that entry's first number |
| `Selection.SmallestQualifyingIndex` | App.js:109-111 | the entry the comment aims for: none exactly when no first number reaches 1920, else the earliest entry with the smallest first number of at least 1920 |
| `Selection.FirstQualifyingIndex` | App.js:128-129 | the first entry whose first number reaches 1920, none exactly when there is no such entry |
| `Selection.ChosenResolutionIndex` | App.js:119-135 | after scanning n entries the returned entry is one of those n |
| `Selection.ChosenResolutionIndexMeaning` | App.js:119-134 | the entry the scan ends on is the first entry or a qualifying one; the first entry when nothing qualifies; the earliest smallest qualifying entry when the first entry qualifies; never the first qualifying entry when that is not the first entry; and the intended entry in every other case |
| `Selection.BestPhotoResolution` | App.js:108-136 | null exactly when the list is absent or empty; otherwise an entry of the list, the first entry or one whose first number is at least 1920, and the earliest smallest qualifying entry when the first entry qualifies |
| `Selection.FindBestPhotoResolution` | App.js:108-136 | the loop, including its branch that updates only the running difference, returns exactly `BestPhotoResolution` |
| `Selection.RunningDifference` | App.js:121-133 | the running difference after a prefix is non-negative exactly when some entry of the prefix has a first number of at least 1920 |
| `Selection.ResolutionScanStart` | App.js:119-121 | scanning the first entry keeps it chosen with its own difference as the running one |
| `Selection.ResolutionScanStep` | App.js:123-134 | one iteration of the scan: a negative running difference is overwritten without changing the chosen entry; a smaller non-negative difference makes the new entry chosen; otherwise nothing changes |
| `SelectionExamples.ExactRatioWins` | App.js:89-105 | among 16:9, 4:3 and 3:2 the exact 4:3 is chosen |
| `SelectionExamples.ClosestRatioWins` | App.js:89-105 | among 11:9 and 5:4 the nearer 5:4 is chosen |
| `SelectionExamples.DocumentedListPicksFirst` | App.js:109-111 | the documented list of six resolutions gives "1920x1440" |
| `SelectionExamples.TooSmallFirstEntryKept` | App.js:128-129 | the list `[ResolutionString(1280, 960), ResolutionString(2048, 1536)]` gives its first entry |
| `SelectionExamples.TooSmallFirstEntryReplaced` | App.js:128-132 | the list `[ResolutionString(1280, 960), ResolutionString(4000, 3000), ResolutionString(2048, 1536)]` gives its last entry |
| `CameraScreen.Toggled` | App.js:138 | toggling always changes the camera |
| `CameraScreen.ToggleIsInvolution` | App.js:138 | toggling twice restores the original camera |
| `CameraScreen.Screen.constructor` | App.js:22-29 | the back camera, ratio "4:3", no picture size, no photo, loading |
| `CameraScreen.Screen.IsReviewing` | App.js:178 | the review overlay is shown only with a photo uri, and always with a non-empty one |
| `CameraScreen.Screen.OnCameraReady` | App.js:52-79 | the ratio becomes the selected one or stays as it was when the selector returns null; the same for the picture size; loading ends; nothing else changes |
| `CameraScreen.Screen.ToggleCameraType` | App.js:137-139 | the camera is toggled and nothing else changes |
| `CameraScreen.Screen.TakePicture` | App.js:141-165 | with the camera mounted and a photo delivered, `imageUri` becomes its uri, even over a photo under review; otherwise nothing changes |
| `CameraScreen.Screen.PressShutter` | App.js:239-244 | a press while loading changes nothing; otherwise it takes a picture |
| `CameraScreen.Screen.Retake` | App.js:198-202 | `imageUri` becomes null, the review overlay closes, nothing else changes |
| `CameraScreen.Screen.Confirm` | App.js:210-212 | nothing changes |

## Left out

- Rendering, JSX, styles and the layout computed from the window size and `convertRatioToNumber(cameraRatio)` (App.js:7-8, 176-334): user interface and floating-point geometry.
- Camera permissions (App.js:23, 31-50): handled by the camera library and shown as screens.
- The `Platform.OS === "android"` test (App.js:55): `OnCameraReady` models the Android branch; on other platforms the handler does nothing at all, so `isLoading` stays true.
- The camera library's `getSupportedRatiosAsync`, `getAvailablePictureSizesAsync` and `takePictureAsync`: foreign asynchronous calls whose results are parameters; the awaits are treated as completing before the handler's next step, and a rejected capture as changing nothing. In particular `TakePicture` does the mounted check and the `imageUri` update in one step: the `.then` callback of App.js:156-163, which can run after later events such as a retake or a second press, is not modelled as a separate later step, so interleavings where an older capture lands after a retake are not captured.
- `console.log` and the `Date.now()` timings (App.js:53, 72-75, 142-147, 157-160): output only.
- Floating-point details: NaN and Infinity from malformed strings or a zero denominator, rounding in W/H, and `Number` on digit strings too long for a double; inputs are digit fields with a non-zero denominator and quotients are exact. One visible consequence: `["17:12","5:4"]` ties in exact arithmetic (both are 1/12 from 4/3), so the model returns "17:12", while with doubles the second difference comes out smaller and App.js:101 picks "5:4".
- `Number` on fields that are not plain digits (surrounding spaces, signs, hexadecimal, exponents): the model reads digit fields only.
- The flash button and image assets (App.js:251-258): no logic.
