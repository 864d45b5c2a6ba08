# Search Visualizer — a Dafny model of its search-step engine

The Search Visualizer is a small desktop program. It shows a fixed, sorted list of
ten integers as a row of bars, and it animates a binary or a linear search for a
target the user types. The animation has two parts:

- every probe paints a bar: "current" while it is examined, then "visited" or "found";
- every probe adds one to a comparison counter.

A run starts only when no run is in progress and the entry holds a number. The
user can also switch between a dark and a light theme while no run is in progress.

This project models that engine in two modules.

- `SearchSpec` (`search_spec.dfy`) holds the pure reference definitions and the
  lemmas about them:
  - the four bar states (`BarState`);
  - the outcome of a run: the final bar states, the comparison count and the
    index the search stopped at (`Outcome`);
  - `BinarySteps` and `LinearSteps`, which replay the two loops step by step;
  - `BinaryProbes`, the sequence of probed indices;
  - `FirstIndex`, the independent meaning of linear search;
  - `Bits`, the bound ⌈log2(n+1)⌉ on the number of binary-search probes.
- `Visualizer` (`visualizer.dfy`) holds the program object `SearchVisualizer`:
  - the data;
  - an `array<BarState>`, one entry per drawn bar;
  - the comparison counter;
  - the `isRunning` guard;
  - the theme.

  Its methods are the program's own operations: `BinarySearch`, `LinearSearch`,
  `UpdateBarColor`, `UpdateComparisons`, `DrawArray`, `ResetVisualization`,
  `StartVisualization`, `RunAlgorithm`, `SetTheme` and `ToggleTheme`. Each loop
  is proved against the matching `SearchSpec` function, and the properties of the
  search are proved once, about those functions.

The program answers a start request in one of four ways: ignored because a run is
in progress, "Input Required" for a blank entry, "Invalid Input" for a
non-number, or a launch. The model gives these answers as the values `Busy`,
`InputRequired`, `InvalidNumber` and `Launched(algorithm, target)`.

## Model

| member | source | states |
|---|---|---|
| SearchSpec.Defaults | src/Search-Visualizer.py:443-482 | a freshly drawn row has one bar per element, and every bar is in the default state |
| SearchSpec.FirstIndex | src/Search-Visualizer.py:609-623 | the reference meaning of linear search. It returns -1 exactly when the target is absent. Otherwise it returns an index holding the target, with no earlier index holding it |
| SearchSpec.Mid | src/Search-Visualizer.py:589 | the floored midpoint lies inside the window. Each half left after the probe is at most half the window |
| SearchSpec.BinarySteps | src/Search-Visualizer.py:588-605 | the `while` loop of binary search, replayed from the window [left, right] with the bars and the counter it has reached. Its own contract gives only the shape: one bar per element. What the run means is stated by the lemmas BinaryStepsHit, BinaryStepsMiss, BinaryStepsTrace and BinaryStepsComplete |
| SearchSpec.BinaryProbes | src/Search-Visualizer.py:588-605 | the sequence of `mid` values the loop probes, in order. Its contract says there is at least one probe exactly when the window is non-empty, and never more probes than the window has elements. BinaryProbesInWindow and BinaryProbesBound state the rest |
| SearchSpec.BinaryStepsHit | src/Search-Visualizer.py:588-605 | a binary run stops at -1 or at an index inside the starting window. A stopping index holds the target, and its bar is Found |
| SearchSpec.BinaryStepsMiss | src/Search-Visualizer.py:598-605 | when the probe misses, one step marks the probe Visited and counts one comparison. The run then continues on a strictly smaller sub-window: the right half when the probed value is below the target, the left half otherwise |
| SearchSpec.BinaryProbesInWindow | src/Search-Visualizer.py:585-589 | every index binary search probes lies inside the window it searched |
| SearchSpec.BinaryStepsTrace | src/Search-Visualizer.py:588-605 | the final bars and the count are exactly what the probes leave. The count is one per probe. The last probe is Found if the search hit, the other probes are Visited (each holds a value other than the target), and every other bar is unchanged |
| SearchSpec.BinaryStepsComplete | src/Search-Visualizer.py:588-606 | on sorted data, the search finds an index exactly when the target occurs in the window |
| SearchSpec.BinaryProbesBound | src/Search-Visualizer.py:588-605 | a window of w elements takes at most Bits(w) = ⌈log2(w+1)⌉ probes |
| SearchSpec.BitsIsLog2 | src/Search-Visualizer.py:588-605 | Bits(n) is the number of binary digits of n: 2^(Bits(n)-1) <= n < 2^Bits(n) |
| SearchSpec.BinarySearchRun | src/Search-Visualizer.py:562-607 | a whole binary run begun, as after the reset, on all-default bars with a zero counter. Its contract gives only the bar count; BinarySearchRunResult, BinarySearchRunBars and BinarySearchRunFound state its meaning |
| SearchSpec.BinarySearchRunResult | src/Search-Visualizer.py:583-607 | a whole binary run from all-default bars returns -1 or an index holding the target. It makes one comparison per probe and at least one on non-empty data. The count is at most Bits(n) for n elements. On sorted data it finds exactly when the target is present |
| SearchSpec.BinarySearchRunBars | src/Search-Visualizer.py:588-605 | after a binary run, each bar is Found iff it is the returned index, Visited iff it was probed and is not that index, and Default iff it was never probed. No bar is left Current. A Visited bar never holds the target |
| SearchSpec.BinarySearchRunFound | src/Search-Visualizer.py:595-597 | exactly one bar, the returned index, is Found after a binary run, and none is Found after a miss |
| SearchSpec.LinearSteps | src/Search-Visualizer.py:610-621 | the `for` loop of linear search, replayed from index i with the bars and the counter it has reached. Its contract gives the shape, one bar per element, and says a reported index is at or after i. LinearStepsClosedForm states what the run means |
| SearchSpec.LinearStepsClosedForm | src/Search-Visualizer.py:610-621 | a linear loop resumed at i returns the first occurrence after i, with one comparison per examined element. It visits exactly the elements before that occurrence and marks the occurrence Found |
| SearchSpec.LinearSearchRun | src/Search-Visualizer.py:562-623 | a whole linear run begun, as after the reset, on all-default bars with a zero counter. Its contract gives only the bar count; LinearSearchRunSpec states its meaning |
| SearchSpec.LinearSearchRunSpec | src/Search-Visualizer.py:609-623 | a whole linear run returns FirstIndex. When found at k it makes k+1 comparisons; otherwise it makes n, and the target is absent. Bars before k are Visited, bar k is Found, and later bars stay Default. On a miss every bar is Visited |
| Visualizer.PaletteFor | src/Search-Visualizer.py:94-97 | the light colour set is chosen exactly for the theme name "light", and the dark set for every other name |
| Visualizer.ToggledTheme | src/Search-Visualizer.py:110 | the toggle always yields "dark" or "light", never the current name. It switches the palette for either real theme |
| Visualizer.ToggleTwiceRestores | src/Search-Visualizer.py:110 | toggling twice brings either theme back |
| Visualizer.IsSpace | src/Search-Visualizer.py:551 | the white-space characters that `str.strip()` removes: Python's `str.isspace` set. This is a reference definition with no contract of its own |
| Visualizer.TrimLeft | src/Search-Visualizer.py:551 | the entry without its leading white space. Its contract says only that it is no longer than the entry; TrimLeftSpec states exactly what it removes |
| Visualizer.TrimRight | src/Search-Visualizer.py:551 | the entry without its trailing white space. Its contract says only that it is no longer than the entry; TrimRightSpec states exactly what it removes |
| Visualizer.Strip | src/Search-Visualizer.py:551 | `str.strip()` as TrimRight after TrimLeft. Its contract says only that it is no longer than the entry; StripEmptyIffBlank states when it is empty |
| Visualizer.TrimLeftSpec | src/Search-Visualizer.py:551 | left stripping removes exactly the longest white-space prefix: what remains is a suffix that is empty or begins with a non-space |
| Visualizer.TrimRightSpec | src/Search-Visualizer.py:551 | right stripping removes exactly the longest white-space suffix |
| Visualizer.StripEmptyIffBlank | src/Search-Visualizer.py:551-554 | the stripped entry is empty exactly when the entry is all white space (Python's `str.isspace` set) |
| Visualizer.StartDecision | src/Search-Visualizer.py:546-570 | a running visualizer ignores the request. Otherwise a blank entry needs input, and an entry that does not parse is invalid. Any other entry launches the selected algorithm with the parsed target. Each answer holds exactly in its case |
| Visualizer.RunOutcome | src/Search-Visualizer.py:572-581 | the bars of any run's outcome match the data in length |
| Visualizer.RunOutcomeSpec | src/Search-Visualizer.py:572-581 | a binary run on sorted data finds the target iff it is present, within Bits(n) comparisons. A linear run returns FirstIndex. Any other name leaves the default bars, 0 comparisons and no index |
| Visualizer.SearchVisualizer.constructor | src/Search-Visualizer.py:13-89 | a new visualizer holds the fixed data, a zero count, no run and the dark theme, with every bar default |
| Visualizer.SearchVisualizer.SetTheme | src/Search-Visualizer.py:91-97 | the theme is the given name, and the palette is the light one exactly for "light" |
| Visualizer.SearchVisualizer.ToggleTheme | src/Search-Visualizer.py:99-128 | refused, and nothing changes, while a run is in progress. Otherwise the theme is toggled and every bar is redrawn default, keeping the invariant |
| Visualizer.SearchVisualizer.DrawArray | src/Search-Visualizer.py:443-482 | a fresh row with one bar per element, all default |
| Visualizer.SearchVisualizer.UpdateBarColor | src/Search-Visualizer.py:484-493 | exactly the one bar changes, to the given state |
| Visualizer.SearchVisualizer.UpdateComparisons | src/Search-Visualizer.py:504-507 | the counter goes up by exactly one |
| Visualizer.SearchVisualizer.BinarySearch | src/Search-Visualizer.py:583-607 | the loop ends in the bars, count and index of `BinarySteps` over the whole array, from the state it started in |
| Visualizer.SearchVisualizer.LinearSearch | src/Search-Visualizer.py:609-623 | the loop ends in the bars, count and index of `LinearSteps` from index 0, from the state it started in |
| Visualizer.SearchVisualizer.ResetVisualization | src/Search-Visualizer.py:625-629 | the counter is zero and every bar default |
| Visualizer.SearchVisualizer.RunAlgorithm | src/Search-Visualizer.py:572-581 | runs the named search, or nothing for any other name. Either way the guard is cleared afterwards |
| Visualizer.SearchVisualizer.StartVisualization | src/Search-Visualizer.py:546-570 | the answer is `StartDecision` on the current guard. A launch sets the guard and resets the counter and the bars; any other answer changes nothing |
| Visualizer.SearchVisualizer.StartAndRun | src/Search-Visualizer.py:546-581 | a start followed by its run to completion. It ends in `RunOutcome` for the selected algorithm; a refused start changes nothing |
| Visualizer.InitialArraySorted | src/Search-Visualizer.py:82 | the fixed data is sorted and has ten elements, so binary search needs at most four probes |
| Visualizer.BinaryOnInitialArray | src/Search-Visualizer.py:583-607 | on the fixed data, binary search takes at most four comparisons and finds a target iff it is one of the ten values |
| Visualizer.BinaryExample | src/Search-Visualizer.py:583-597 | searching the fixed data for 24 hits at index 4 on the first comparison |
| Visualizer.LinearAbsentExample | src/Search-Visualizer.py:609-623 | a value not in the fixed data costs linear search all ten comparisons and returns -1 |

## Left out

- The window, its widgets, the canvas geometry, the fonts and the colour codes are
  not modelled. A palette is reduced to which of the two sets is in use, and
  drawing a bar is reduced to setting its state.
- Message boxes are not modelled. Their cases are the `StartResult` values and
  the `busy` result of `ToggleTheme`.
- The enabled or disabled state of the start button is not modelled. It always
  mirrors `isRunning`.
- The text of the comparisons label is not modelled. After a theme switch the
  rebuilt label reads "Comparisons: 0" even though the counter keeps its value;
  the model keeps only the counter.
- The pseudocode panel (`update_pseudocode`) is not modelled, because it shows
  fixed text only.
- The animation delays (`sleep`), the speed slider and `update_speed` are not
  modelled, because they affect timing only.
- Each run's background thread is not modelled. `StartVisualization` returns the
  launch and `RunAlgorithm` is the thread's body; `StartAndRun` runs the two in
  sequence to completion.
- A Reset pressed during a run is not modelled. The Reset button is never
  disabled, so in the program the counter restarts at 0 mid-run and the thread
  goes on painting the newly drawn bars and counting from there. The model only
  lets the reset happen between runs. (A Start pressed during a run is modelled:
  it answers `Busy` and changes nothing.) The daemon thread ending at program exit
  is not modelled either.
- The conversion of the entry with `int()` is not modelled. It is the `parsed`
  parameter, `None` when the text is not an integer.
- The algorithm box is read-only and offers only the two names. Any other string
  starts a run that does nothing, as the source's `if`/`elif` implies.
- UpdateBarColor: requires an index within the bars. Python would also accept a
  negative index and wrap it around, but no caller passes one.
- ToggleTheme: does not model the saving and restoring of the selected algorithm,
  the speed and the entry text across the rebuild, because those are interface
  state only.
- `main` and the tkinter event loop are not modelled.
