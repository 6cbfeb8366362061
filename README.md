# Daylight-coefficient grid-based recipe, modelled in Dafny

This project models the grid-based daylight-coefficient analysis recipe of the
honeybee Radiance library (`DaylightCoeffGridBased`). The recipe holds a sky
matrix, a list of analysis grids, a list of window groups, a simulation type
(0 illuminance, 1 radiation, 2 luminance) and two accumulating lists: the
commands of the batch file and the result files those commands produce.

- `wrappers.dfy`, module `Wrappers`: `Option` and `Result`.
- `pystr.dfy`, module `PyStr`: the Python string and path operations the recipe
  relies on, on `seq<char>`. They are `s.split("..")`, `"\n".join`,
  `s.split("\n")`, `str(n)`, ASCII `lower()`, `endswith`, the slices `s[:2]` and
  `s[:-4]`, and the POSIX (`posixpath`) forms of `os.path.join` and
  `os.path.split(p)[-1]`. The join inserts a `/` only after a non-empty folder
  that does not already end in one, and an absolute name replaces the folder.
  Each comes with the inverse it needs, for example splitting a join and
  joining a split.
- `recipe.dfy`, module `Recipe`: the pure parts of the recipe.
  - `totalRunsCount`.
  - The start line of each grid in a merged result file.
  - The batch text with comment commands rewritten as `echo`.
  - The (source, state) pair read back from a result-file name.
  - The sequence of grid loads that `results` performs.
  - The `.epw` weather-file check and the `r<density>` sky label.
- `gridbased.dfy`, module `GridBased`: the recipe as an object.
  - A `SkyMatrix` class. The recipe shares the sky object and writes its
    `skyType`.
  - A `DaylightCoeffGridBased` class. Its fields are the recipe's state. The
    source updates the simulation type, the sky and the command and
    result-file lists. `__init__` sets the reuse flag. The grids, the window
    groups and the calculated flag belong to the base class. Its methods are
    the two validating setters, construction (from a sky or from a weather
    file), `Write`, which appends to the command and result-file lists, and
    `Results`, which walks result files and grids with a running start line.

The stage builders (`getCommandsSky`, `getCommandsSceneDaylightCoeff`,
`getCommandsWGroupsDaylightCoeff`) and the base class's `header` are not part
of this model. `Write` takes them as function-valued parameters, so its
contract holds for any builder output. Its `ensures` also records what each
builder is given: the sky files feed the scene and window-group builders, and
so do the total point count and `totalRunsCount`.

`setValuesFromFile` belongs to the analysis-grid class, which is not part of
this model. `Results` returns the calls it would make, as `LoadCall` values: the
file, the hours of the year, the source, the state, the grid number and the
start line.

The sky setter keeps the source's behaviour. It rejects only a point-in-time
sky. It neither re-checks a radiation simulation type against the new sky's
climate-based flag nor pushes the simulation type onto the new sky.
`SetSkyMatrix`'s contract therefore promises nothing about the new sky's
`skyType`.

The model follows the code in three places:

- A result-file name is parsed by dropping the directory and the last four
  characters and splitting on `..`. A name with fewer than two pieces fails, as
  Python's `fn[-2]` does.
- No check compares a result file's line count with the total number of points.
- `results` makes the loads for every file before a malformed one, then stops.

## Model

| member | source | states |
|---|---|---|
| `GridBased.DaylightCoeffGridBased.SetSimulationType` | honeybee/radiance/recipe/daylightcoeff/gridbased.py:122-138 | `None` (a value `int()` rejects with TypeError) becomes 0. The set fails exactly when the value is outside 0..2, or is 1 on a sky that is not climate-based, and the range check comes first. On success both `simType` and `skyMatrix.skyType` equal the value; on failure neither changes. |
| `GridBased.DaylightCoeffGridBased.SetSkyMatrix` | honeybee/radiance/recipe/daylightcoeff/gridbased.py:145-151 | Fails exactly when the new sky is a point in time, and the sky is then unchanged. Otherwise the recipe holds that very sky object, and nothing else changes. |
| `GridBased.DaylightCoeffGridBased.Create` | honeybee/radiance/recipe/daylightcoeff/gridbased.py:48-64 | A point-in-time sky fails. Otherwise the result fails exactly as the simulation-type setter does. On success the recipe is new and holds the given sky, grids, window groups and reuse flag. Its simulation type is pushed onto the sky, and its command and result lists are empty. A failure leaves the sky's type unchanged. |
| `GridBased.DaylightCoeffGridBased.FromWeatherFilePointsAndVectors` | honeybee/radiance/recipe/daylightcoeff/gridbased.py:66-95 | A path that does not end in `.epw` (in any case) fails with that path. After the name passes, a point-in-time sky fails next, and then the simulation-type setter's own error, if any. Success happens exactly when the name passes, the sky is not a point in time and the simulation type is accepted, and the state is then the same as after `Create`. A failure leaves the sky's type unchanged. |
| `GridBased.DaylightCoeffGridBased.Write` | honeybee/radiance/recipe/daylightcoeff/gridbased.py:183-256 | Only appends. The old command list stays a prefix, and after it come the header (only when asked for), the sky commands, the scene commands and the window-group commands. The old result-file list stays a prefix, followed by the scene's and then the window groups' files, each joined to the project folder. The returned text is the batch text of the whole command list, and the path is `commands.bat` in the project folder. |
| `GridBased.DaylightCoeffGridBased.ExtendResultFiles` | honeybee/radiance/recipe/daylightcoeff/gridbased.py:233-235 | The result-file list grows by every result name joined to the project folder, in order. |
| `GridBased.DaylightCoeffGridBased.Results` | honeybee/radiance/recipe/daylightcoeff/gridbased.py:258-280 | An uncalculated recipe fails with no loads. A calculated one makes exactly the loads of `LoadPlan` over its result files, grids and the sky's hours, and ends with the error `LoadPlan` names, if any. |
| `GridBased.LoadResultFile` | honeybee/radiance/recipe/daylightcoeff/gridbased.py:270-278 | The running start line (0 for the first grid, then grown by the size of the grid before) gives one load per grid, in order. Grid `g` is loaded from `StartLine(grids, g)`. |
| `Recipe.TotalRunsCount` | honeybee/radiance/recipe/daylightcoeff/gridbased.py:178-181 | The run count is at least 1, the base case. |
| `Recipe.TotalRunsCountAppend` | honeybee/radiance/recipe/daylightcoeff/gridbased.py:178-181 | Adding window groups adds exactly their state counts to the run count. |
| `Recipe.TotalRunsCountCoversGroup` | honeybee/radiance/recipe/daylightcoeff/gridbased.py:178-181 | The run count is at least 1 plus any single window group's state count. |
| `Recipe.TotalRunsCountIsRunCount` | honeybee/radiance/recipe/daylightcoeff/gridbased.py:178-181 | The run count equals the number of runs enumerated one by one: the base case plus one per (window group, state) pair. |
| `Recipe.StartLineOfEnd` | honeybee/radiance/recipe/daylightcoeff/gridbased.py:270-273 | Grids are packed contiguously, so the start line after the last grid is the total point count. |
| `Recipe.StartLineOrdered` | honeybee/radiance/recipe/daylightcoeff/gridbased.py:270-273 | The rows of a grid end at or before the start line of every later grid. |
| `Recipe.LineBelongsToOneGrid` | honeybee/radiance/recipe/daylightcoeff/gridbased.py:270-278 | Every line below the total point count lies in the rows of exactly one grid. |
| `Recipe.BatchTextLines` | honeybee/radiance/recipe/daylightcoeff/gridbased.py:251-254 | When no command holds a newline, the batch text splits into `1 + \|commands\|` lines. The first is `@echo off`, then one per command in order: `echo ` + command when its first two characters are `::`, the command unchanged otherwise. |
| `Recipe.ResultIdentityRoundTrip` | honeybee/radiance/recipe/daylightcoeff/gridbased.py:266-268 | A file named `<lead..>source..state` + a 4-character extension, under any folder, is read back as exactly (source, state). The pieces must hold no `..`, all but the last must not end in `.`, and there must be no `/`. |
| `Recipe.ResultIdentityMalformed` | honeybee/radiance/recipe/daylightcoeff/gridbased.py:266-268 | A file name yields no (source, state) exactly when its base name, without its last four characters, holds no `..`. |
| `Recipe.ResultIdentityOfJoin` | honeybee/radiance/recipe/daylightcoeff/gridbased.py:266 | Joining a folder in front of a name does not change what is read back from it. |
| `Recipe.WrittenResultIdentities` | honeybee/radiance/recipe/daylightcoeff/gridbased.py:233-235 | The result files `write` records read back the same (source, state) pairs, and the same malformed names, as the builders' own file names. |
| `Recipe.LoadPlanSucceeds` | honeybee/radiance/recipe/daylightcoeff/gridbased.py:264-268 | Loading finishes without error exactly when every result-file name is well formed. |
| `Recipe.LoadPlanStopsAtFirstMalformed` | honeybee/radiance/recipe/daylightcoeff/gridbased.py:264-278 | On error, loading stops at the first malformed file and names it. The loads made are exactly those for the files before it. |
| `Recipe.LoadPlanAt` | honeybee/radiance/recipe/daylightcoeff/gridbased.py:264-278 | With well-formed names there are `\|files\| * \|grids\|` loads, file by file. The load for file `i` and grid `g` carries that file's source and state, the sky's hours and start line `StartLine(grids, g)`, so grid 0 starts at line 0. |
| `Recipe.WeatherFileNameByChars` | honeybee/radiance/recipe/daylightcoeff/gridbased.py:88-89 | The weather-file check accepts a path exactly when its last four characters are `.`, `e`/`E`, `p`/`P`, `w`/`W`. |
| `Recipe.SkyDensityLabel` | honeybee/radiance/recipe/daylightcoeff/gridbased.py:173-176 | The label is `r` followed by decimal digits that read back as the density. |
| `PyStr.JoinSplitDots` | honeybee/radiance/recipe/daylightcoeff/gridbased.py:266 | Joining the pieces of `s.split("..")` with `..` gives `s` back. |
| `PyStr.SplitJoinDots` | honeybee/radiance/recipe/daylightcoeff/gridbased.py:266 | Splitting a `..`-join of separable pieces gives the pieces back. |
| `PyStr.SplitDotsSingle` | honeybee/radiance/recipe/daylightcoeff/gridbased.py:266-267 | `s.split("..")` is the single piece `[s]` exactly when `s` holds no `..`. |
| `PyStr.SplitDotsPieces` | honeybee/radiance/recipe/daylightcoeff/gridbased.py:266 | The first piece of a split is a prefix of the text, and no piece holds `..`. |
| `PyStr.SplitJoinLines` | honeybee/radiance/recipe/daylightcoeff/gridbased.py:254 | Splitting a newline-join of newline-free lines gives the lines back. |
| `PyStr.ParseFormatNat` | honeybee/radiance/recipe/daylightcoeff/gridbased.py:176 | The decimal text of a number reads back as the number. |
| `PyStr.BaseNameJoin` | honeybee/radiance/recipe/daylightcoeff/gridbased.py:234 | The base name of `os.path.join(folder, name)` is the base name of `name`. |
| `PyStr.BaseNameIsLastPart` | honeybee/radiance/recipe/daylightcoeff/gridbased.py:266 | The base name is a suffix of the path and holds no `/`. |

## Left out

- `GridBased.DaylightCoeffGridBased.Create`: the window groups are a parameter here. In the source, `__init__` passes `hbObjects` to `GenericGridBased.__init__` (lines 52-54), which is not part of this model, and `self.windowGroups` comes from that base class. `hbObjects` and `subFolder` are not modelled, and neither is the grid list's passage through the base class.
- `GridBased.DaylightCoeffGridBased.FromWeatherFilePointsAndVectors`: it takes the window groups directly in the same way. `hbObjects`, `subFolder` and `skyDensity` are not modelled, since `skyDensity` only reaches the foreign `SkyMatrix.fromEpwFile`, whose result is a parameter.
- `fromPointsFile` (lines 97-112): it reads a file. It also iterates over the characters of a single `readline()` result, which does not look intended, so the model does not reproduce it.
- The `radianceParameters` setter and its default `RfluxmtxParameters` values (lines 153-171): these are numeric settings on an object that is not part of this model. The builders are not given them.
- The `hasattr` checks for `isRadianceSky` and `isRfluxmtxParameters`: Dafny's types already guarantee what they check.
- Folder creation (`writeContent`), `writeRadFilesDaylightCoeff`, `writeExtraFiles`, `writeAnalysisGrids` and `writeToFile`: these are file-system I/O. Their results (project folder, scene files, points file) are parameters of `Write`, and `Write` returns the batch text instead of writing it.
- The stage builders and `header`: their source is not part of this model. They are function-valued parameters of `Write`. Which stages are skipped when `reuseDaylightMtx` is set is decided inside the builders, so the model only passes the flag on.
- `totalPointCount` and the initial empty command and result lists come from the base class `GenericGridBased`, which is not part of this model. The model takes the point count to be the sum of the grid sizes.
- `run`, which sets `_isCalculated`, belongs to the base class. Callers set `isCalculated` directly.
- `SkyMatrix.fromEpwFile` and `analysisGridsFromPointsAndVectors` are foreign code. Their results are parameters of `FromWeatherFilePointsAndVectors`.
- `setValuesFromFile` is foreign code that parses numbers from a file. `Results` records each call with its (file, hours, source, state, grid, start line) arguments, not the constant `header=True, checkPointCount=False` arguments, and not what the call does to the grid.
- The `print` in `results`: console output only.
- `GridBased.ToSimulationType`: `int()` on strings and floats is not modelled. That covers parsing, ValueError (which the setter does not catch) and truncation. The input is an integer, or `None` for a value whose conversion raises TypeError.
- `PyStr.Lower`: only ASCII letters are lower-cased. Python's full Unicode case mapping is not modelled.
- `PyStr.JoinPath` and `PyStr.BaseName`: POSIX only. Windows separators and drive letters (`ntpath`) are not modelled.
- All failing assertions become error values rather than distinct exception types.
- `Recipe.BatchTextLines`: it holds only for commands without a newline, since a command with a newline adds lines to the text.
