/** The visualizer's search engine as an object: the data, one state per bar,
    the comparison counter, the run guard and the theme. Each repaint of a bar is
    a write to the bar-state array; delays and drawing are not modelled. */
module Visualizer {
  import opened SearchSpec

  const BinarySearchName: string := "Binary Search"
  const LinearSearchName: string := "Linear Search"

  /** The data shown by the visualizer, fixed at start-up. */
  const InitialArray: seq<int> := [3, 7, 12, 18, 24, 31, 45, 52, 67, 89]

  datatype Option<T> = None | Some(value: T)

  /** The colour set in use: the light one exactly when the theme name is "light". */
  datatype Palette = DarkPalette | LightPalette

  function PaletteFor(name: string): (p: Palette)
    ensures p == LightPalette <==> name == "light"
  {
    if name == "light" then LightPalette else DarkPalette
  }

  /** The theme a toggle switches to. */
  function ToggledTheme(name: string): (r: string)
    ensures r == "dark" || r == "light"
    ensures r != name
    ensures (name == "dark" || name == "light") ==> PaletteFor(r) != PaletteFor(name)
  {
    if name == "dark" then "light" else "dark"
  }

  /** Toggling twice restores either of the two themes the program uses. */
  lemma ToggleTwiceRestores(name: string)
    requires name == "dark" || name == "light"
    ensures ToggledTheme(ToggledTheme(name)) == name
  {
  }

  // ---------------------------------------------------------------------------
  // The input guard of start_visualization: the entry text is stripped of
  // surrounding white space and an empty result starts nothing.

  /** The characters Python's str.strip() removes when called without arguments. */
  predicate IsSpace(c: char) {
    || c == ' ' || ('\t' <= c <= '\r') || ('\U{1C}' <= c <= '\U{1F}')
    || c == '\U{85}' || c == '\U{A0}' || c == '\U{1680}' || ('\U{2000}' <= c <= '\U{200A}')
    || c == '\U{2028}' || c == '\U{2029}' || c == '\U{202F}' || c == '\U{205F}' || c == '\U{3000}'
  }

  predicate AllSpace(s: string) {
    forall i :: 0 <= i < |s| ==> IsSpace(s[i])
  }

  /** s without its leading white space. */
  function TrimLeft(s: string): (r: string)
    ensures |r| <= |s|
  {
    if |s| > 0 && IsSpace(s[0]) then TrimLeft(s[1..]) else s
  }

  /** s without its trailing white space. */
  function TrimRight(s: string): (r: string)
    ensures |r| <= |s|
  {
    if |s| > 0 && IsSpace(s[|s| - 1]) then TrimRight(s[..|s| - 1]) else s
  }

  /** Stripping both ends, as str.strip() does. */
  function Strip(s: string): (r: string)
    ensures |r| <= |s|
  {
    TrimRight(TrimLeft(s))
  }

  /** TrimLeft removes a white-space prefix and nothing else, and what is left
      does not begin with white space. */
  lemma {:induction false} TrimLeftSpec(s: string)
    ensures var r := TrimLeft(s);
            && |r| <= |s| && r == s[|s| - |r|..]
            && (forall i :: 0 <= i < |s| - |r| ==> IsSpace(s[i]))
            && (r != [] ==> !IsSpace(r[0]))
  {
    if |s| > 0 && IsSpace(s[0]) {
      var t := s[1..];
      TrimLeftSpec(t);
      var r := TrimLeft(t);
      assert t[|t| - |r|..] == s[|s| - |r|..];
      forall i | 0 <= i < |s| - |r| ensures IsSpace(s[i]) {
        if i > 0 { assert s[i] == t[i - 1]; }
      }
    }
  }

  /** TrimRight removes a white-space suffix and nothing else, and what is left
      does not end with white space. */
  lemma {:induction false} TrimRightSpec(s: string)
    ensures var r := TrimRight(s);
            && |r| <= |s| && r == s[..|r|]
            && (forall i :: |r| <= i < |s| ==> IsSpace(s[i]))
            && (r != [] ==> !IsSpace(r[|r| - 1]))
  {
    if |s| > 0 && IsSpace(s[|s| - 1]) {
      var t := s[..|s| - 1];
      TrimRightSpec(t);
      var r := TrimRight(t);
      assert t[..|r|] == s[..|r|];
      forall i | |r| <= i < |s| ensures IsSpace(s[i]) {
        if i < |s| - 1 { assert s[i] == t[i]; }
      }
    }
  }

  /** The stripped text is empty exactly when the entry holds only white space. */
  lemma StripEmptyIffBlank(s: string)
    ensures Strip(s) == [] <==> AllSpace(s)
  {
    var l := TrimLeft(s);
    TrimLeftSpec(s);
    TrimRightSpec(l);
    if l != [] {
      assert !IsSpace(l[0]) && l[0] == s[|s| - |l|];
    }
  }

  /** What pressing start does, according to the run guard and the entry text:
      parsed is the value Python's int() gives the stripped text, None when it
      raises ValueError. */
  datatype StartResult =
    | Busy                                      // a run is in progress: nothing happens
    | InputRequired                             // blank entry: a warning, no run
    | InvalidNumber                             // not an integer: an error, no run
    | Launched(algorithm: string, target: int)  // a run is started with these arguments

  function StartDecision(running: bool, entry: string, parsed: Option<int>, algorithm: string): (r: StartResult)
    ensures r == Busy <==> running
    ensures r == InputRequired <==> !running && AllSpace(entry)
    ensures r == InvalidNumber <==> !running && !AllSpace(entry) && parsed.None?
    ensures r.Launched? <==> !running && !AllSpace(entry) && parsed.Some?
    ensures r.Launched? ==> r.algorithm == algorithm && r.target == parsed.value
  {
    StripEmptyIffBlank(entry);
    if running then Busy
    else if Strip(entry) == [] then InputRequired
    else match parsed
      case None => InvalidNumber
      case Some(target) => Launched(algorithm, target)
  }

  // ---------------------------------------------------------------------------

  class SearchVisualizer {
    var arr: seq<int>
    var bars: array<BarState>
    var comparisons: nat
    var isRunning: bool
    var theme: string
    var palette: Palette

    /** One bar per element of the data. */
    ghost predicate Drawn()
      reads this
    {
      bars.Length == |arr|
    }

    /** The object invariant: the bars drawn, the data sorted and the palette the
        one the theme selects. */
    ghost predicate Valid()
      reads this
    {
      Drawn() && Sorted(arr) && palette == PaletteFor(theme)
    }

    constructor ()
      ensures Valid()
      ensures arr == InitialArray && comparisons == 0 && !isRunning
      ensures theme == "dark" && fresh(bars) && AllDefault(bars[..])
    {
      theme := "dark";
      palette := DarkPalette;
      arr := InitialArray;
      comparisons := 0;
      isRunning := false;
      bars := new BarState[0];
      new;
      DrawArray();
    }

    method SetTheme(name: string)
      modifies this`theme, this`palette
      ensures theme == name && palette == PaletteFor(name)
    {
      theme := name;
      palette := if name == "light" then LightPalette else DarkPalette;
    }

    /** Refused while a run is in progress; otherwise switches theme and redraws
        the bars, which puts every bar back to Default. */
    method ToggleTheme() returns (busy: bool)
      requires Valid()
      modifies this`theme, this`palette, this`bars
      ensures Valid()
      ensures busy == old(isRunning)
      ensures busy ==> theme == old(theme) && bars == old(bars)
      ensures !busy ==> theme == ToggledTheme(old(theme)) && fresh(bars) && AllDefault(bars[..])
    {
      if isRunning {
        return true;
      }
      SetTheme(ToggledTheme(theme));
      DrawArray();
      busy := false;
    }

    /** Draws a fresh bar for every element, each in the default state. */
    method DrawArray()
      modifies this`bars
      ensures fresh(bars) && bars.Length == |arr| && AllDefault(bars[..])
    {
      var drawn := new BarState[|arr|];
      for i := 0 to |arr|
        invariant forall j :: 0 <= j < i ==> drawn[j] == Default
      {
        drawn[i] := Default;
      }
      bars := drawn;
    }

    method UpdateBarColor(index: int, state: BarState)
      requires 0 <= index < bars.Length
      modifies bars
      ensures bars[..] == old(bars[..])[index := state]
    {
      bars[index] := state;
    }

    method UpdateComparisons()
      modifies this`comparisons
      ensures comparisons == old(comparisons) + 1
    {
      comparisons := comparisons + 1;
    }

    /** Runs binary search over the data, repainting the probed bars and counting
        comparisons; ends where BinarySteps says, from the state it started in. */
    method BinarySearch(target: int) returns (ghost index: int)
      requires Drawn()
      modifies this`comparisons, bars
      ensures var r := BinarySteps(arr, target, 0, |arr| - 1, old(bars[..]), old(comparisons));
              bars[..] == r.bars && comparisons == r.comparisons && index == r.index
    {
      var a := arr;
      ghost var run := BinarySteps(a, target, 0, |a| - 1, bars[..], comparisons);
      var left := 0;
      var right := |a| - 1;
      while left <= right
        invariant Window(|a|, left, right)
        invariant BinarySteps(a, target, left, right, bars[..], comparisons) == run
        decreases right - left
      {
        var mid := Mid(left, right);
        ghost var before, counted := bars[..], comparisons;
        UpdateBarColor(mid, Current);
        UpdateComparisons();
        if a[mid] == target {
          UpdateBarColor(mid, Found);
          assert bars[..] == before[mid := Found];
          assert run == Outcome(before[mid := Found], counted + 1, mid);
          index := mid;
          return;
        }
        BinaryStepsMiss(a, target, left, right, before, counted);
        UpdateBarColor(mid, Visited);
        assert bars[..] == before[mid := Visited];
        if a[mid] < target {
          left := mid + 1;
        } else {
          right := mid - 1;
        }
        assert BinarySteps(a, target, left, right, before[mid := Visited], counted + 1) == run;
      }
      index := -1;
    }

    /** Runs linear search over the data, repainting each examined bar and
        counting comparisons; ends where LinearSteps says. */
    method LinearSearch(target: int) returns (ghost index: int)
      requires Drawn()
      modifies this`comparisons, bars
      ensures var r := LinearSteps(arr, target, 0, old(bars[..]), old(comparisons));
              bars[..] == r.bars && comparisons == r.comparisons && index == r.index
    {
      ghost var run := LinearSteps(arr, target, 0, bars[..], comparisons);
      for i := 0 to |arr|
        invariant LinearSteps(arr, target, i, bars[..], comparisons) == run
      {
        ghost var before := bars[..];
        UpdateBarColor(i, Current);
        UpdateComparisons();
        if arr[i] == target {
          UpdateBarColor(i, Found);
          assert bars[..] == before[i := Found];
          index := i;
          return;
        } else {
          UpdateBarColor(i, Visited);
        }
        assert bars[..] == before[i := Visited];
      }
      index := -1;
    }

    /** Zeroes the counter and redraws every bar in the default state. */
    method ResetVisualization()
      requires Valid()
      modifies this`comparisons, this`bars
      ensures Valid()
      ensures comparisons == 0 && fresh(bars) && AllDefault(bars[..])
    {
      comparisons := 0;
      DrawArray();
    }

    /** The body of the background run: the selected search, after which the run
        guard is always cleared. An unknown algorithm name runs nothing. */
    method RunAlgorithm(algorithm: string, target: int) returns (ghost index: int)
      requires Valid()
      modifies this`comparisons, this`isRunning, bars
      ensures Valid() && !isRunning
      ensures algorithm == BinarySearchName ==>
                var r := BinarySteps(arr, target, 0, |arr| - 1, old(bars[..]), old(comparisons));
                bars[..] == r.bars && comparisons == r.comparisons && index == r.index
      ensures algorithm == LinearSearchName ==>
                var r := LinearSteps(arr, target, 0, old(bars[..]), old(comparisons));
                bars[..] == r.bars && comparisons == r.comparisons && index == r.index
      ensures algorithm != BinarySearchName && algorithm != LinearSearchName ==>
                bars[..] == old(bars[..]) && comparisons == old(comparisons) && index == -1
    {
      index := -1;
      if algorithm == BinarySearchName {
        index := BinarySearch(target);
      } else if algorithm == LinearSearchName {
        index := LinearSearch(target);
      }
      isRunning := false;
    }

    /** Handles the start button: refused while running, refused for a blank or
        non-integer entry, otherwise resets the display, raises the run guard and
        returns the arguments the background run is started with. */
    method StartVisualization(entry: string, parsed: Option<int>, algorithm: string) returns (r: StartResult)
      requires Valid()
      modifies this`comparisons, this`bars, this`isRunning
      ensures Valid()
      ensures r == StartDecision(old(isRunning), entry, parsed, algorithm)
      ensures r.Launched? ==> isRunning && comparisons == 0 && fresh(bars) && AllDefault(bars[..])
      ensures !r.Launched? ==>
                isRunning == old(isRunning) && comparisons == old(comparisons)
                && bars == old(bars) && bars[..] == old(bars[..])
    {
      if isRunning {
        return Busy;
      }
      if Strip(entry) == [] {
        return InputRequired;
      }
      if parsed.None? {
        return InvalidNumber;
      }
      ResetVisualization();
      isRunning := true;
      r := Launched(algorithm, parsed.value);
    }

    /** A press of start whose background run, if one is launched, goes to
        completion before anything else happens. */
    method StartAndRun(entry: string, parsed: Option<int>, algorithm: string)
      returns (r: StartResult, ghost index: int)
      requires Valid()
      modifies this`comparisons, this`bars, this`isRunning
      ensures Valid()
      ensures r == StartDecision(old(isRunning), entry, parsed, algorithm)
      ensures isRunning <==> r == Busy
      ensures r.Launched? ==> Outcome(bars[..], comparisons, index) == RunOutcome(algorithm, arr, r.target)
      ensures !r.Launched? ==> comparisons == old(comparisons) && bars == old(bars) && bars[..] == old(bars[..])
    {
      index := -1;
      r := StartVisualization(entry, parsed, algorithm);
      if r.Launched? {
        assert bars[..] == Defaults(|arr|);
        index := RunAlgorithm(r.algorithm, r.target);
      }
    }
  }

  /** What a run of the named algorithm leaves behind when it starts from a
      reset display; an unknown name runs nothing. */
  function RunOutcome(algorithm: string, arr: seq<int>, target: int): (r: Outcome)
    ensures |r.bars| == |arr|
  {
    if algorithm == BinarySearchName then BinarySearchRun(arr, target)
    else if algorithm == LinearSearchName then LinearSearchRun(arr, target)
    else Outcome(Defaults(|arr|), 0, -1)
  }

  /** A run started from the controls: a reported index always holds the target
      and is the only Found bar; on the sorted data either search reports an index
      exactly when the target occurs; binary search makes at most
      ceil(log2(n + 1)) comparisons and linear search stops at the first
      occurrence after index + 1 comparisons, or n when there is none. */
  lemma RunOutcomeSpec(algorithm: string, arr: seq<int>, target: int)
    ensures var r := RunOutcome(algorithm, arr, target);
            && -1 <= r.index < |arr|
            && (r.index >= 0 ==> arr[r.index] == target)
            && (forall i :: 0 <= i < |arr| ==> (r.bars[i] == Found <==> i == r.index))
            && (Sorted(arr) && (algorithm == BinarySearchName || algorithm == LinearSearchName) ==>
                  (r.index >= 0 <==> target in arr))
            && (algorithm == BinarySearchName ==> r.comparisons <= Bits(|arr|))
            && (algorithm == LinearSearchName ==>
                  r.index == FirstIndex(arr, target)
                  && r.comparisons == (if r.index >= 0 then r.index + 1 else |arr|))
            && (algorithm != BinarySearchName && algorithm != LinearSearchName ==>
                  r.comparisons == 0 && AllDefault(r.bars) && r.index == -1)
  {
    if algorithm == BinarySearchName {
      BinarySearchRunResult(arr, target);
      BinarySearchRunFound(arr, target);
    } else if algorithm == LinearSearchName {
      LinearSearchRunSpec(arr, target);
    }
  }

  // ---------------------------------------------------------------------------
  // The fixed data

  /** The data is sorted, has ten elements, and ceil(log2(11)) is 4. */
  lemma InitialArraySorted()
    ensures Sorted(InitialArray) && |InitialArray| == 10
    ensures Bits(|InitialArray|) == 4
  {
    assert Bits(10) == 1 + Bits(5) && Bits(5) == 1 + Bits(2) && Bits(2) == 1 + Bits(1);
  }

  /** On the ten-element data binary search makes at most four comparisons and
      finds every value the data holds. */
  lemma BinaryOnInitialArray(target: int)
    ensures BinarySearchRun(InitialArray, target).comparisons <= 4
    ensures BinarySearchRun(InitialArray, target).index >= 0 <==> target in InitialArray
  {
    InitialArraySorted();
    BinarySearchRunResult(InitialArray, target);
  }

  /** Binary search for 24 hits the first probe, index 4, after one comparison. */
  lemma BinaryExample()
    ensures BinarySearchRun(InitialArray, 24).index == 4
    ensures BinarySearchRun(InitialArray, 24).comparisons == 1
  {
    assert Mid(0, 9) == 4 && InitialArray[4] == 24;
  }

  /** Linear search for a value the data lacks (100, say) makes ten comparisons
      and finds nothing. */
  lemma LinearAbsentExample(target: int)
    requires target !in InitialArray
    ensures LinearSearchRun(InitialArray, target).index == -1
    ensures LinearSearchRun(InitialArray, target).comparisons == 10
  {
    LinearSearchRunSpec(InitialArray, target);
  }
}
