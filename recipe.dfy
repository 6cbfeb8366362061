/**
  The pure parts of the grid-based daylight-coefficient recipe: the number of
  runs over the window groups and their states, where each analysis grid's
  rows start in a merged result file, the batch text written from the
  command list, the (source, state) identity read back from a result-file
  name, the calls that load a result file onto the grids, the weather-file
  name check and the sky-density label.
 */
module Recipe {
  import opened Wrappers
  import opened PyStr

  /** A window group: a set of glazing surfaces with `stateCount` operable states. */
  datatype WindowGroup = WindowGroup(name: string, stateCount: nat)

  /** An analysis grid, as far as the recipe uses it: its name and its number of points (`len(grid)`). */
  datatype AnalysisGrid = AnalysisGrid(name: string, pointCount: nat)

  /** One simulation run: the base case, or one state of one window group. */
  datatype Run = BaseCase | GroupState(group: string, state: nat)

  // ---------------------------------------------------------------------------
  // totalRunsCount
  // ---------------------------------------------------------------------------

  /** `sum(wg.stateCount for wg in windowGroups)`. */
  function SumStateCounts(windowGroups: seq<WindowGroup>): nat
    decreases |windowGroups|
  {
    if windowGroups == [] then 0
    else windowGroups[0].stateCount + SumStateCounts(windowGroups[1..])
  }

  /** `totalRunsCount`: one run per window-group state, plus one for the base case. */
  function TotalRunsCount(windowGroups: seq<WindowGroup>): (n: nat)
    ensures n >= 1
  {
    SumStateCounts(windowGroups) + 1
  }

  /** Adding window groups adds their states to the run count. */
  lemma {:induction false} TotalRunsCountAppend(a: seq<WindowGroup>, b: seq<WindowGroup>)
    ensures TotalRunsCount(a + b) == TotalRunsCount(a) + SumStateCounts(b)
    decreases |a|
  {
    if a != [] {
      assert (a + b)[1..] == a[1..] + b;
      TotalRunsCountAppend(a[1..], b);
    } else {
      assert a + b == b;
    }
  }

  /** Each window group's states are all counted. */
  lemma {:induction false} TotalRunsCountCoversGroup(windowGroups: seq<WindowGroup>, i: nat)
    requires i < |windowGroups|
    ensures TotalRunsCount(windowGroups) >= 1 + windowGroups[i].stateCount
    decreases i
  {
    if i > 0 {
      TotalRunsCountCoversGroup(windowGroups[1..], i - 1);
    }
  }

  /** The runs of one window group, one per state. */
  function GroupRuns(wg: WindowGroup): seq<Run> {
    seq(wg.stateCount, s requires 0 <= s < wg.stateCount => GroupState(wg.name, s))
  }

  /** The runs of all window groups, group by group. */
  function StateRuns(windowGroups: seq<WindowGroup>): seq<Run>
    decreases |windowGroups|
  {
    if windowGroups == [] then []
    else GroupRuns(windowGroups[0]) + StateRuns(windowGroups[1..])
  }

  /** `totalRunsCount` counts exactly the base case and every (window group, state) run. */
  lemma {:induction false} TotalRunsCountIsRunCount(windowGroups: seq<WindowGroup>)
    ensures |[BaseCase] + StateRuns(windowGroups)| == TotalRunsCount(windowGroups)
    decreases |windowGroups|
  {
    if windowGroups != [] {
      TotalRunsCountIsRunCount(windowGroups[1..]);
    }
  }

  // ---------------------------------------------------------------------------
  // Grid offsets in a merged result file
  // ---------------------------------------------------------------------------

  /**
    The line at which grid `k` starts in a merged result file: the sizes of
    grids 0..k-1 added up (the running `startLine` of `results`).
   */
  function StartLine(grids: seq<AnalysisGrid>, k: nat): nat
    requires k <= |grids|
    decreases k
  {
    if k == 0 then 0 else StartLine(grids, k - 1) + grids[k - 1].pointCount
  }

  /** The number of points over all grids. */
  function TotalPointCount(grids: seq<AnalysisGrid>): nat
    decreases |grids|
  {
    if grids == [] then 0 else grids[0].pointCount + TotalPointCount(grids[1..])
  }

  /** Shifting the grids by one shifts every start line by the first grid's size. */
  lemma {:induction false} StartLineShift(grids: seq<AnalysisGrid>, k: nat)
    requires 1 <= k <= |grids|
    ensures StartLine(grids, k) == grids[0].pointCount + StartLine(grids[1..], k - 1)
    decreases k
  {
    if k > 1 {
      StartLineShift(grids, k - 1);
    }
  }

  /** The grids are packed contiguously: the last one ends at the total point count. */
  lemma {:induction false} StartLineOfEnd(grids: seq<AnalysisGrid>)
    ensures StartLine(grids, |grids|) == TotalPointCount(grids)
    decreases |grids|
  {
    if grids != [] {
      StartLineShift(grids, |grids|);
      StartLineOfEnd(grids[1..]);
    }
  }

  /** Grid `j`'s rows end at or before the line where any later grid `k` starts. */
  lemma {:induction false} StartLineOrdered(grids: seq<AnalysisGrid>, j: nat, k: nat)
    requires j < k <= |grids|
    ensures StartLine(grids, j) + grids[j].pointCount <= StartLine(grids, k)
    decreases k
  {
    if k > j + 1 {
      StartLineOrdered(grids, j, k - 1);
    }
  }

  /**
    Every line of a merged result file of the right length belongs to exactly
    one grid: the one whose rows `[StartLine(g), StartLine(g) + size)` hold it.
   */
  lemma {:induction false} LineBelongsToOneGrid(grids: seq<AnalysisGrid>, line: nat)
    requires line < TotalPointCount(grids)
    ensures exists g :: 0 <= g < |grids| && StartLine(grids, g) <= line < StartLine(grids, g) + grids[g].pointCount
    ensures forall g, h :: 0 <= g < |grids| && 0 <= h < |grids|
                        && StartLine(grids, g) <= line < StartLine(grids, g) + grids[g].pointCount
                        && StartLine(grids, h) <= line < StartLine(grids, h) + grids[h].pointCount
                        ==> g == h
  {
    StartLineOfEnd(grids);
    var g := OwnerFrom(grids, line, |grids|);
    forall g1, h | 0 <= g1 < |grids| && 0 <= h < |grids|
                 && StartLine(grids, g1) <= line < StartLine(grids, g1) + grids[g1].pointCount
                 && StartLine(grids, h) <= line < StartLine(grids, h) + grids[h].pointCount
      ensures g1 == h
    {
      if g1 < h {
        StartLineOrdered(grids, g1, h);
      } else if h < g1 {
        StartLineOrdered(grids, h, g1);
      }
    }
  }

  /** The grid among the first `k` whose rows hold `line`, found by walking back from `k`. */
  lemma {:induction false} OwnerFrom(grids: seq<AnalysisGrid>, line: nat, k: nat) returns (g: nat)
    requires k <= |grids| && line < StartLine(grids, k)
    ensures g < k && StartLine(grids, g) <= line < StartLine(grids, g) + grids[g].pointCount
    decreases k
  {
    if line >= StartLine(grids, k - 1) {
      g := k - 1;
    } else {
      g := OwnerFrom(grids, line, k - 1);
    }
  }

  // ---------------------------------------------------------------------------
  // The batch text
  // ---------------------------------------------------------------------------

  /** A command is a comment when its first two characters are "::" (`c[:2] == '::'`). */
  predicate IsComment(command: string) {
    Take(command, 2) == "::"
  }

  /** Comment commands are echoed so that they show on the console when the batch file runs. */
  function EchoLine(command: string): string {
    if IsComment(command) then "echo " + command else command
  }

  /** The lines of the batch file: `@echo off`, then every command, echoed where it is a comment. */
  function BatchLines(commands: seq<string>): seq<string> {
    ["@echo off"] + seq(|commands|, k requires 0 <= k < |commands| => EchoLine(commands[k]))
  }

  /** The text written to `commands.bat`: the batch lines joined with newlines. */
  function BatchText(commands: seq<string>): string {
    JoinLines(BatchLines(commands))
  }

  /**
    Read back line by line, the batch text is `@echo off` followed by one line
    per command in order: a command whose first two characters are "::"
    becomes `echo ` followed by it, any other command is unchanged.
   */
  lemma BatchTextLines(commands: seq<string>)
    requires forall k :: 0 <= k < |commands| ==> '\n' !in commands[k]
    ensures var lines := SplitLines(BatchText(commands));
            && |lines| == 1 + |commands|
            && lines[0] == "@echo off"
            && forall k :: 0 <= k < |commands| ==>
                 lines[k + 1] == (if |commands[k]| >= 2 && commands[k][0] == ':' && commands[k][1] == ':'
                                  then "echo " + commands[k] else commands[k])
  {
    var lines := BatchLines(commands);
    forall k | 0 <= k < |lines|
      ensures '\n' !in lines[k]
    {
      if k > 0 {
        var c := commands[k - 1];
        if IsComment(c) {
          assert forall j :: 0 <= j < |"echo "| ==> "echo "[j] != '\n';
          assert '\n' !in "echo " + c;
        }
      } else {
        assert forall j :: 0 <= j < |"@echo off"| ==> "@echo off"[j] != '\n';
      }
    }
    SplitJoinLines(lines);
    forall k | 0 <= k < |commands|
      ensures IsComment(commands[k]) <==> |commands[k]| >= 2 && commands[k][0] == ':' && commands[k][1] == ':'
    {
      if |commands[k]| >= 2 {
        assert Take(commands[k], 2) == [commands[k][0], commands[k][1]];
      }
    }
  }

  // ---------------------------------------------------------------------------
  // Result-file identity
  // ---------------------------------------------------------------------------

  /** The (source, state) pair a result file holds values for. */
  datatype ResultId = ResultId(source: string, state: string)

  /**
    The (source, state) pair named by a result file: drop the directory and
    the last four characters, split what is left on `..`, and take the last
    two pieces. `None` when there is only one piece, where the source's
    indexing fails.
   */
  function ResultIdentity(resultFile: string): Option<ResultId> {
    var fn := SplitDots(DropLast(BaseName(resultFile), 4));
    if |fn| < 2 then None else Some(ResultId(fn[|fn| - 2], fn[|fn| - 1]))
  }

  /** The identity depends on the base name only: joining a folder in front changes nothing. */
  lemma ResultIdentityOfJoin(folder: string, name: string)
    ensures ResultIdentity(JoinPath(folder, name)) == ResultIdentity(name)
  {
    BaseNameJoin(folder, name);
  }

  /** The result-file names joined to the project folder, as `write` records them. */
  function JoinAll(folder: string, names: seq<string>): seq<string> {
    seq(|names|, k requires 0 <= k < |names| => JoinPath(folder, names[k]))
  }

  /**
    What `results` reads back from the files `write` records is what the
    builders' own file names say: joining the project folder changes no
    (source, state) pair and no malformed name.
   */
  lemma WrittenResultIdentities(folder: string, names: seq<string>)
    ensures Identities(JoinAll(folder, names)) == Identities(names)
  {
    forall k | 0 <= k < |names|
      ensures Identities(JoinAll(folder, names))[k] == Identities(names)[k]
    {
      ResultIdentityOfJoin(folder, names[k]);
    }
  }

  /** A result file is malformed exactly when its name, without folder and extension, holds no "..". */
  lemma ResultIdentityMalformed(resultFile: string)
    ensures ResultIdentity(resultFile).None? <==> !HasDoubleDot(DropLast(BaseName(resultFile), 4))
  {
    var stem := DropLast(BaseName(resultFile), 4);
    SplitDotsSingle(stem);
    JoinSplitDots(stem);
  }

  /**
    A result file named `<lead..>source..state` plus a four-character
    extension, under any folder, is read back as (source, state), provided
    the pieces are separable and the name holds no '/'.
   */
  lemma ResultIdentityRoundTrip(folder: string, lead: seq<string>, source: string, state: string, ext: string)
    requires Separable(lead + [source, state])
    requires |ext| == 4
    requires '/' !in JoinDots(lead + [source, state]) + ext
    ensures ResultIdentity(JoinPath(folder, JoinDots(lead + [source, state]) + ext)) == Some(ResultId(source, state))
  {
    var parts := lead + [source, state];
    var name := JoinDots(parts) + ext;
    ResultIdentityOfJoin(folder, name);
    BaseNameNoSlash(name);
    assert DropLast(name, 4) == JoinDots(parts);
    SplitJoinDots(parts);
  }

  /** A name without '/' is its own base name. */
  lemma {:induction false} BaseNameNoSlash(name: string)
    requires '/' !in name
    ensures BaseName(name) == name
    decreases |name|
  {
    if name != [] {
      BaseNameNoSlash(name[..|name| - 1]);
    }
  }

  // ---------------------------------------------------------------------------
  // Loading results onto the grids
  // ---------------------------------------------------------------------------

  /** One `analysisGrid.setValuesFromFile(rf, hoys, source, state, startLine=...)` call, on grid number `grid`. */
  datatype LoadCall = LoadCall(resultFile: string, hoys: seq<int>, source: string, state: string, grid: nat, startLine: nat)

  /** Why `results` stops: the recipe has not run, or a result-file name holds no (source, state) pair. */
  datatype ResultsError = NotCalculated | MalformedResultFile(resultFile: string)

  /** The calls made, in order, and the error that stopped `results`, if any. */
  datatype LoadOutcome = LoadOutcome(calls: seq<LoadCall>, error: Option<ResultsError>)

  /** The calls that load one result file: one per grid, each from its own start line. */
  function GridCalls(resultFile: string, id: ResultId, hoys: seq<int>, grids: seq<AnalysisGrid>): seq<LoadCall> {
    seq(|grids|, g requires 0 <= g < |grids| => LoadCall(resultFile, hoys, id.source, id.state, g, StartLine(grids, g)))
  }

  /** The identity of every result file, in order. */
  function Identities(files: seq<string>): (ids: seq<Option<ResultId>>)
    ensures |ids| == |files|
  {
    seq(|files|, k requires 0 <= k < |files| => ResultIdentity(files[k]))
  }

  /**
    The calls `results` makes for a calculated recipe: result file by result
    file, grid by grid, stopping at the first file whose name is malformed
    (the loads already made for earlier files stay made).
   */
  function LoadPlan(files: seq<string>, grids: seq<AnalysisGrid>, hoys: seq<int>): LoadOutcome {
    PlanLoads(files, Identities(files), grids, hoys)
  }

  /** LoadPlan over the files paired with their already-parsed identities. */
  function PlanLoads(files: seq<string>, ids: seq<Option<ResultId>>, grids: seq<AnalysisGrid>, hoys: seq<int>): LoadOutcome
    requires |ids| == |files|
    decreases |files|
  {
    if files == [] then LoadOutcome([], None)
    else
      var n := |files| - 1;
      var before := PlanLoads(files[..n], ids[..n], grids, hoys);
      if before.error.Some? then before
      else match ids[n]
        case None => LoadOutcome(before.calls, Some(MalformedResultFile(files[n])))
        case Some(id) => LoadOutcome(before.calls + GridCalls(files[n], id, hoys, grids), None)
  }

  /** The identities of a prefix of the files are a prefix of their identities. */
  lemma IdentitiesPrefix(files: seq<string>, j: nat)
    requires j <= |files|
    ensures Identities(files[..j]) == Identities(files)[..j]
  {
  }

  /** Once a prefix of the files stops with an error, the rest of the files add nothing. */
  lemma {:induction false} PlanLoadsStops(files: seq<string>, ids: seq<Option<ResultId>>, grids: seq<AnalysisGrid>, hoys: seq<int>, j: nat)
    requires |ids| == |files| && j <= |files|
    requires PlanLoads(files[..j], ids[..j], grids, hoys).error.Some?
    ensures PlanLoads(files, ids, grids, hoys) == PlanLoads(files[..j], ids[..j], grids, hoys)
    decreases |files|
  {
    if j < |files| {
      var n := |files| - 1;
      assert files[..n][..j] == files[..j];
      assert ids[..n][..j] == ids[..j];
      PlanLoadsStops(files[..n], ids[..n], grids, hoys, j);
    } else {
      assert files[..j] == files;
      assert ids[..j] == ids;
    }
  }

  /** PlanLoads fails exactly at the first missing identity, after loading every file before it. */
  lemma {:induction false} PlanLoadsError(files: seq<string>, ids: seq<Option<ResultId>>, grids: seq<AnalysisGrid>, hoys: seq<int>)
    requires |ids| == |files|
    ensures var o := PlanLoads(files, ids, grids, hoys);
            && (o.error.None? <==> forall k :: 0 <= k < |ids| ==> ids[k].Some?)
            && (o.error.Some? ==>
                  exists j :: 0 <= j < |ids| && o.error == Some(MalformedResultFile(files[j]))
                           && ids[j].None? && (forall k :: 0 <= k < j ==> ids[k].Some?))
    decreases |files|
  {
    if files != [] {
      var n := |files| - 1;
      PlanLoadsError(files[..n], ids[..n], grids, hoys);
      var before := PlanLoads(files[..n], ids[..n], grids, hoys);
      if before.error.Some? {
        var j :| 0 <= j < n && before.error == Some(MalformedResultFile(files[..n][j]))
                 && ids[..n][j].None? && (forall k :: 0 <= k < j ==> ids[..n][k].Some?);
        assert files[..n][j] == files[j] && ids[..n][j] == ids[j];
      } else {
        assert forall k :: 0 <= k < n ==> ids[..n][k] == ids[k];
      }
    }
  }

  /** With every identity present, PlanLoads makes one call per (file, grid) pair. */
  lemma {:induction false} PlanLoadsCount(files: seq<string>, ids: seq<Option<ResultId>>, grids: seq<AnalysisGrid>, hoys: seq<int>)
    requires |ids| == |files| && forall k :: 0 <= k < |ids| ==> ids[k].Some?
    ensures PlanLoads(files, ids, grids, hoys).error.None?
    ensures |PlanLoads(files, ids, grids, hoys).calls| == |files| * |grids|
    decreases |files|
  {
    if files != [] {
      var n := |files| - 1;
      assert forall k :: 0 <= k < n ==> ids[..n][k] == ids[k];
      PlanLoadsCount(files[..n], ids[..n], grids, hoys);
      assert n * |grids| + |grids| == |files| * |grids|;
    }
  }

  /** With every identity present, the call for file `i` and grid `g` sits at `i * |grids| + g`. */
  lemma {:induction false} PlanLoadsAt(files: seq<string>, ids: seq<Option<ResultId>>, grids: seq<AnalysisGrid>, hoys: seq<int>, i: nat, g: nat)
    requires |ids| == |files| && forall k :: 0 <= k < |ids| ==> ids[k].Some?
    requires i < |files| && g < |grids|
    ensures var o := PlanLoads(files, ids, grids, hoys);
            && |o.calls| == |files| * |grids|
            && i * |grids| + g < |o.calls|
            && o.calls[i * |grids| + g] == LoadCall(files[i], hoys, ids[i].value.source, ids[i].value.state, g, StartLine(grids, g))
    decreases |files|
  {
    var n := |files| - 1;
    var pf, pi := files[..n], ids[..n];
    assert forall k :: 0 <= k < n ==> pi[k] == ids[k];
    PlanLoadsCount(files, ids, grids, hoys);
    PlanLoadsCount(pf, pi, grids, hoys);
    var before := PlanLoads(pf, pi, grids, hoys);
    var o := PlanLoads(files, ids, grids, hoys);
    assert o.calls == before.calls + GridCalls(files[n], ids[n].value, hoys, grids);
    MulMono(i + 1, |files|, |grids|);
    if i < n {
      PlanLoadsAt(pf, pi, grids, hoys, i, g);
      assert pf[i] == files[i];
    } else {
      assert i * |grids| == n * |grids|;
    }
  }

  /** `results` on a calculated recipe succeeds exactly when every result-file name is well formed. */
  lemma LoadPlanSucceeds(files: seq<string>, grids: seq<AnalysisGrid>, hoys: seq<int>)
    ensures LoadPlan(files, grids, hoys).error.None? <==> forall k :: 0 <= k < |files| ==> ResultIdentity(files[k]).Some?
  {
    var ids := Identities(files);
    assert forall k :: 0 <= k < |files| ==> ids[k] == ResultIdentity(files[k]);
    PlanLoadsError(files, ids, grids, hoys);
  }

  /**
    Otherwise `results` stops at the first malformed result file, naming it,
    after making the calls for every file before it.
   */
  lemma LoadPlanStopsAtFirstMalformed(files: seq<string>, grids: seq<AnalysisGrid>, hoys: seq<int>)
    requires LoadPlan(files, grids, hoys).error.Some?
    ensures var o := LoadPlan(files, grids, hoys);
            exists j :: 0 <= j < |files| && o.error == Some(MalformedResultFile(files[j]))
                     && ResultIdentity(files[j]).None?
                     && (forall k :: 0 <= k < j ==> ResultIdentity(files[k]).Some?)
                     && o.calls == LoadPlan(files[..j], grids, hoys).calls
  {
    var ids := Identities(files);
    PlanLoadsError(files, ids, grids, hoys);
    var o := LoadPlan(files, grids, hoys);
    var j :| 0 <= j < |ids| && o.error == Some(MalformedResultFile(files[j]))
             && ids[j].None? && (forall k :: 0 <= k < j ==> ids[k].Some?);
    FirstMalformedStops(files, ids, grids, hoys, j);
    IdentitiesPrefix(files, j);
    assert forall k :: 0 <= k < j ==> ids[k] == ResultIdentity(files[k]);
    assert ids[j] == ResultIdentity(files[j]);
  }

  /** PlanLoads up to and including the first missing identity keeps the calls made before it. */
  lemma FirstMalformedStops(files: seq<string>, ids: seq<Option<ResultId>>, grids: seq<AnalysisGrid>, hoys: seq<int>, j: nat)
    requires |ids| == |files| && j < |files|
    requires ids[j].None? && forall k :: 0 <= k < j ==> ids[k].Some?
    ensures PlanLoads(files, ids, grids, hoys).calls == PlanLoads(files[..j], ids[..j], grids, hoys).calls
  {
    var pre := PlanLoads(files[..j], ids[..j], grids, hoys);
    PlanLoadsError(files[..j], ids[..j], grids, hoys);
    assert files[..j + 1][..j] == files[..j] && ids[..j + 1][..j] == ids[..j];
    assert PlanLoads(files[..j + 1], ids[..j + 1], grids, hoys).calls == pre.calls;
    PlanLoadsStops(files, ids, grids, hoys, j + 1);
  }

  /**
    When every result-file name is well formed, `results` makes one call per
    (file, grid) pair, file-major: the call for file `i` and grid `g` loads
    that file's (source, state) onto grid `g` from line `StartLine(grids, g)`.
   */
  lemma LoadPlanAt(files: seq<string>, grids: seq<AnalysisGrid>, hoys: seq<int>, i: nat, g: nat)
    requires forall k :: 0 <= k < |files| ==> ResultIdentity(files[k]).Some?
    requires i < |files| && g < |grids|
    ensures var o := LoadPlan(files, grids, hoys);
            var id := ResultIdentity(files[i]).value;
            && o.error.None?
            && |o.calls| == |files| * |grids|
            && i * |grids| + g < |o.calls|
            && o.calls[i * |grids| + g] == LoadCall(files[i], hoys, id.source, id.state, g, StartLine(grids, g))
  {
    var ids := Identities(files);
    PlanLoadsCount(files, ids, grids, hoys);
    PlanLoadsAt(files, ids, grids, hoys, i, g);
  }

  lemma MulMono(a: nat, b: nat, c: nat)
    requires a <= b
    ensures a * c <= b * c
  {
  }

  // ---------------------------------------------------------------------------
  // Weather file and sky density
  // ---------------------------------------------------------------------------

  /** `epwFile.lower().endswith('.epw')`. */
  predicate IsWeatherFileName(path: string) {
    EndsWith(Lower(path), ".epw")
  }

  /** The weather-file check, character by character: the name ends in '.', then e/E, p/P, w/W. */
  lemma WeatherFileNameByChars(path: string)
    ensures IsWeatherFileName(path) <==>
              && |path| >= 4
              && path[|path| - 4] == '.'
              && (path[|path| - 3] == 'e' || path[|path| - 3] == 'E')
              && (path[|path| - 2] == 'p' || path[|path| - 2] == 'P')
              && (path[|path| - 1] == 'w' || path[|path| - 1] == 'W')
  {
    var low := Lower(path);
    var n := |path|;
    if n >= 4 {
      assert low[n - 4..] == [low[n - 4], low[n - 3], low[n - 2], low[n - 1]];
      LowerCharIs(path[n - 4], '.', '.');
      LowerCharIs(path[n - 3], 'e', 'E');
      LowerCharIs(path[n - 2], 'p', 'P');
      LowerCharIs(path[n - 1], 'w', 'W');
    }
  }

  /** A character lowers to a lower-case letter exactly when it is that letter or its upper case. */
  lemma LowerCharIs(c: char, lower: char, upper: char)
    requires (lower == '.' && upper == '.') || (upper as int + 32 == lower as int && 'A' <= upper <= 'Z')
    ensures LowerChar(c) == lower <==> c == lower || c == upper
  {
  }

  /** The `skyDensity` property: "r" followed by the sky's density in decimal. */
  function SkyDensityLabel(density: nat): (tag: string)
    ensures |tag| >= 2 && tag[0] == 'r'
    ensures forall k :: 1 <= k < |tag| ==> IsDigit(tag[k])
    ensures ParseNat(tag[1..]) == density
  {
    ParseFormatNat(density);
    var tag := "r" + FormatNat(density);
    assert tag[1..] == FormatNat(density);
    tag
  }
}
