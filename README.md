# ShuddhAI navigation and mock analyzer, in Dafny

ShuddhAI is a single-page React application for a food-purity test. The user opens a
welcome screen, picks one of nine food items from a catalog, reads the manual test
instructions, captures a photo, and sees a verdict. No real analysis takes place: a timer
callback draws the verdict, the confidence, the colour description and the adulterant at
random from a fixed per-item table.

This project models the two pieces of logic in that application.

- **Navigation controller** (`src/App.tsx`). Its state is the current screen, the
  selected food item and the test result. Six handlers and two inline back actions change
  that state, and a guarded if-chain chooses the view to render.
  - Module `Navigation` gives the state as a value (`Session`), each handler's rule
    (`Step`), the render choice (`Render`), and which events are bound to the rendered
    view (`Wired`).
  - Class `Application.App` holds the three fields, with one method per handler. Each
    method states every field afterwards and that the new state is `Step` of the old one.
  - The main theorem: in every state reachable through wired events, the instructions,
    camera and results screens have a catalog item, and the results screen has a result.
- **Mock analyzer and capture screen** (`src/components/CameraInterface.tsx`).
  - Module `Analyzer` is the result table and the lookup with its turmeric fallback. The
    `Math.random()` draws are parameters: a function `draw` from identifier to the four
    draws of that entry.
  - Class `Capture.CameraInterface` holds the photo, the busy flag and the pending timer.
    Each method except `TimerFires` is the action of one rendered control, and its
    `requires` is the state in which that control is on screen. `TimerFires` is the
    timer's callback and requires only a pending timer.
- Module `Catalog` lists the nine catalog identifiers. Module `Wrappers` defines `Option`.

## Properties the code does not have

Each of these is a guarantee one might expect of such an application. The model states
what the code does instead.

- **No cancellation of the analysis timer.** `analyzeImage` starts a 3000 ms
  `setTimeout` and keeps no handle to it, and no `clearTimeout` appears anywhere
  (`src/components/CameraInterface.tsx:38-99`). Leaving the capture screen therefore
  does not stop its callback, which still calls the analysis-complete handler.
  - `Navigation.LateCompletionReachesResultsWithoutItem` reaches the results screen with
    no item through such a completion. The render guard then shows the catalog.
  - `Application.LateCompletion` shows honey's results carrying turmeric's result.
  - What does survive late completions is `Navigation.RunConsistentExceptResults`.
- **No link between verdict and adulterant.** The results screen types the adulterant as
  optional (`src/components/ResultDisplay.tsx:16`). It shows it under "Adulterant
  Detected" whenever it is present (lines 67-72), and for a pure verdict it also says that
  no adulterants were detected (line 78). The table draws the verdict, the colour text and
  the adulterant independently (`src/components/CameraInterface.tsx:41-44`). A pure verdict
  can therefore name an adulterant (`Analyzer.IndependentDrawsDisagree`). The three fields
  agree only when their draws coincide (`Analyzer.CoincidentDrawsAgree`).
- **Four draws per entry, for every entry.** Each of the nine entries makes its own four
  `Math.random()` calls, and the whole table is built before the lookup. Only one
  entry's draws reach the result.
- **Back from results keeps the result.** The inline back action of the results screen
  changes only the screen (`src/App.tsx:275`), unlike Retake and Home
  (`Navigation.ResultsBackKeepsResult`). Back on the instructions screen runs the Home
  handler (`src/App.tsx:254`), which clears the result as well as the item.
- **No rejection of incomplete states.** A screen whose item or result is missing is not
  an error: the if-chain falls through and renders the catalog
  (`src/App.tsx:246-282`, `Navigation.Render`).

## Model

| member | source | states |
|---|---|---|
| `Catalog.CatalogIds` | src/App.tsx:29-210 | the identifier set contains the id of every catalog item, and each of its ids belongs to a catalog item |
| `Catalog.CatalogDistinct` | src/App.tsx:29-210 | the catalog has 9 entries with pairwise distinct ids |
| `Catalog.CatalogIdSet` | src/App.tsx:29-210 | the id set is exactly turmeric, honey, black-pepper, chili-powder, milk, ghee, rice, salt, tea |
| `Analyzer.Entry` | src/components/CameraInterface.tsx:40-45 | verdict pure iff its draw exceeds the row threshold; colour text is the pure text if its own draw exceeds it, else the adulterated text; adulterant is none iff its own draw exceeds it, and otherwise the row's fixed name |
| `Analyzer.MockResults` | src/components/CameraInterface.tsx:39-94 | the table has exactly one entry per row key, and each entry is built from that row and that key's own draws |
| `Analyzer.RowKey` | src/components/CameraInterface.tsx:96 | a known id selects its own row; any other id selects the turmeric row |
| `Analyzer.Analyze` | src/components/CameraInterface.tsx:96 | a known id yields its own entry built from its own draws; any other id yields the turmeric entry |
| `Analyzer.RowsWellFormed` | src/components/CameraInterface.tsx:39-94 | the parameter table has exactly the nine item keys; every threshold lies strictly inside (0,1), every range is non-empty, starts at 70 or above and tops out at 99, and every row's two colour texts differ |
| `Analyzer.Confidence` | src/components/CameraInterface.tsx:42 | floor(draw*span)+base lies in [base, base+span-1] for a draw in [0,1) |
| `Analyzer.ConfidenceAttained` | src/components/CameraInterface.tsx:42 | every value base+k, 0 <= k < span, is produced by the draw k/span in [0,1) |
| `Analyzer.RowConfidence` | src/components/CameraInterface.tsx:39-96 | the looked-up result's confidence lies in its row's range |
| `Analyzer.AnalyzeConfidenceBounds` | src/components/CameraInterface.tsx:39-96 | for any id, the confidence lies in [70,99] |
| `Analyzer.ConfidenceRanges` | src/components/CameraInterface.tsx:42-90 | per-item ranges: turmeric and milk [80,99]; honey, chili-powder, ghee and tea [75,99]; black-pepper and rice [70,99]; salt [85,99] |
| `Analyzer.RowVerdict` | src/components/CameraInterface.tsx:41-96 | a known id's verdict is pure iff its own verdict draw strictly exceeds its row's threshold |
| `Analyzer.VerdictThresholds` | src/components/CameraInterface.tsx:41-89 | per-item thresholds 0.3, 0.4, 0.5, 0.4, 0.6, 0.5, 0.4, 0.7, 0.5: "pure" iff the verdict draw strictly exceeds them |
| `Analyzer.RowTextsDiffer` | src/components/CameraInterface.tsx:43-91 | every row's pure and adulterated colour texts differ |
| `Analyzer.CoincidentDrawsAgree` | src/components/CameraInterface.tsx:41-44 | with equal verdict, colour and adulterant draws: pure iff no adulterant iff the pure colour text |
| `Analyzer.IndependentDrawsDisagree` | src/components/CameraInterface.tsx:41-44 | valid independent draws give a pure turmeric verdict naming Metanil Yellow and the adulterated colour text |
| `Analyzer.RowsAreCatalog` | src/components/CameraInterface.tsx:39-94 | the table's keys are exactly the catalog ids |
| `Analyzer.CatalogNeverFallsBack` | src/components/CameraInterface.tsx:96 | a catalog item's lookup never uses the fallback |
| `Capture.CameraInterface.constructor` | src/components/CameraInterface.tsx:19-20 | a fresh screen is not analyzing, holds no photo and has no pending timer |
| `Capture.CameraInterface.Valid` | src/components/CameraInterface.tsx:34-99 | at most one timer is pending; the progress panel shows exactly while one is, and the Analyze/Retake panel only when none is |
| `Capture.CameraInterface.Shown` | src/components/CameraInterface.tsx:175-247 | the upload prompt iff no photo; progress iff photo and analyzing; Analyze/Retake buttons iff photo and not analyzing |
| `Capture.CameraInterface.HandleImageCapture` | src/components/CameraInterface.tsx:23-32 | the photo is set only when a file was chosen, and the Analyze button is then offered |
| `Capture.CameraInterface.RetakePhoto` | src/components/CameraInterface.tsx:216-218 | the photo is reset to none and the upload prompt returns |
| `Capture.CameraInterface.AnalyzeImage` | src/components/CameraInterface.tsx:34-38 | sets the busy flag and starts one timer; the Analyze button is no longer offered |
| `Capture.CameraInterface.TimerFires` | src/components/CameraInterface.tsx:38-99 | returns the looked-up entry for the screen's item once, clears the busy flag and the timer, and keeps the photo |
| `Navigation.Step` | src/App.tsx:217-275 | which events lead to each screen (none back to welcome); only selection and Home change the item; only completion, Retake and Home change the result, each as its handler sets it |
| `Navigation.Wired` | src/App.tsx:246-372 | each event is bound exactly to the view whose controls call it (both directions): GetStarted on welcome (line 247); a catalog item's selection on the catalog (lines 358-372); Back and Start on instructions (lines 254-255, buttons at components/TestInstructions.tsx:58 and 142); Back and completion on the camera view (lines 264-265, Back at components/CameraInterface.tsx:139); Back, Retake and Home on results (lines 275-277, buttons at components/ResultDisplay.tsx:30, 103 and 110) |
| `Navigation.EveryViewHasControl` | src/App.tsx:246-280 | every rendered view offers at least one wired event |
| `Navigation.Render` | src/App.tsx:246-282 | instructions or camera shown iff that screen with an item; results shown iff that screen with item and result; the view carries the state's item and result; every other non-welcome state shows the catalog |
| `Navigation.ConsistentRendersScreen` | src/App.tsx:246-282 | in a consistent state each screen renders its own view, and only the home screen renders the catalog |
| `Navigation.WiredStepConsistent` | src/App.tsx:217-280 | an event bound to the rendered view keeps the state consistent |
| `Navigation.RunConsistent` | src/App.tsx:217-280 | consistency holds after any sequence of wired events |
| `Navigation.ReachableConsistent` | src/App.tsx:212-280 | every state reachable from the initial one through wired events is consistent |
| `Navigation.ReachableAnalysisUsesOwnEntry` | src/App.tsx:260-266 | a reachable selected item's analysis uses its own table entry |
| `Navigation.CompletionStepConsistentExceptResults` | src/App.tsx:232-235 | a completion arriving in any state keeps the weaker invariant |
| `Navigation.RunConsistentExceptResults` | src/App.tsx:232-235 | with completions at any time, instructions and camera still have an item and results a result |
| `Navigation.LateCompletionReachesResultsWithoutItem` | src/App.tsx:222-235 | a late completion after Home reaches the results screen with no item, which renders the catalog |
| `Navigation.ResultsBackKeepsResult` | src/App.tsx:270-280 | Back from results keeps the result, Retake clears it, Home clears item and result |
| `Navigation.Walkthrough` | src/App.tsx:212-280 | welcome, select turmeric, start camera, complete and Home are all wired; results show turmeric with the result, and Home ends with no item and no result |
| `Application.App.constructor` | src/App.tsx:213-215 | the initial state is getstarted with no item and no result |
| `Application.App.HandleFoodItemSelect` | src/App.tsx:217-220 | stores exactly the item, moves to instructions, keeps the result |
| `Application.App.HandleBackToHome` | src/App.tsx:222-226 | moves to home and clears item and result |
| `Application.App.HandleStartCamera` | src/App.tsx:228-230 | moves to camera and changes nothing else |
| `Application.App.HandleAnalysisComplete` | src/App.tsx:232-235 | stores the result, moves to results, keeps the item |
| `Application.App.HandleRetakeTest` | src/App.tsx:237-240 | moves to camera, clears the result, keeps the item |
| `Application.App.HandleGetStarted` | src/App.tsx:242-244 | moves to home and changes nothing else |
| `Application.App.CameraOnBack` | src/App.tsx:264 | moves to instructions, keeps item and result |
| `Application.App.ResultsOnBack` | src/App.tsx:275 | moves to camera, keeps item and result |
| `Application.Walkthrough` | src/components/CameraInterface.tsx:23-99 | capture, analyze and timer completion show turmeric's own result; Home then leaves no item and no result |
| `Application.LateCompletion` | src/components/CameraInterface.tsx:34-99 | a turmeric timer firing after switching to honey shows honey with turmeric's result, while honey's capture screen still shows its upload prompt |

## Left out

- All markup, styling and animation, the sparkle positions among them. The welcome,
  instructions, item-card and result components only present their props.
- Catalog display data: names, image URLs, colours and instruction texts. A `FoodItem`
  is its identifier.
- Browser file reading. `HandleImageCapture` receives the data URL the reader would
  produce and stores it at once. The asynchronous `onload` is not modelled.
- Timing. The 3000 ms delay becomes the explicit event `TimerFires`.
- Floating point. Draws, thresholds and `Math.floor` are exact reals, so the rounding of
  IEEE doubles (0.3 is not exactly 3/10) is not modelled.
- JavaScript property lookup. The table is a `map`, so inherited property names such as
  `constructor` are not modelled. Such an id would not hit the turmeric fallback.
- Component mounting. React's unmounting of the capture screen, and its ignoring of
  updates to an unmounted one, are modelled only by letting the old `CameraInterface`
  object go on alone. The `App` class holds no capture-screen instance.
- The result's type. The source types it `any`; the model uses the analyzer's
  `TestResult`, and `Navigation.Wired` lets the capture screen complete with any result.
