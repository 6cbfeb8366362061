/**
  The grid-based daylight-coefficient recipe as an object: its sky (an object
  the recipe shares and updates), its validating setters, `write`, which
  appends the commands and result files of every stage to the recipe's lists
  and renders the batch text, and `results`, which walks the result files and
  the grids with a running start line.
 */
module GridBased {
  import opened Wrappers
  import opened PyStr
  import opened Recipe

  /** A sky matrix: the attributes of the sky the recipe reads, and the simulation type it writes. */
  class SkyMatrix {
    const isClimateBased: bool
    const isPointInTime: bool
    var skyType: int
    var skyDensity: nat
    var hoys: seq<int>

    constructor (isClimateBased: bool, isPointInTime: bool, skyType: int, skyDensity: nat, hoys: seq<int>)
      ensures this.isClimateBased == isClimateBased && this.isPointInTime == isPointInTime
      ensures this.skyType == skyType && this.skyDensity == skyDensity && this.hoys == hoys
    {
      this.isClimateBased := isClimateBased;
      this.isPointInTime := isPointInTime;
      this.skyType := skyType;
      this.skyDensity := skyDensity;
      this.hoys := hoys;
    }

    /** The sky's current attributes, as a value handed to the sky-command builder. */
    function State(): SkyState
      reads this
    {
      SkyState(isClimateBased, isPointInTime, skyType, skyDensity, hoys)
    }
  }

  datatype SkyState = SkyState(isClimateBased: bool, isPointInTime: bool, skyType: int, skyDensity: nat, hoys: seq<int>)

  /** Why configuring the recipe fails. */
  datatype ConfigError =
    | SimulationTypeOutOfRange(value: int)
    | RadiationNeedsClimateBasedSky
    | PointInTimeSky
    | NotAWeatherFile(path: string)

  /** `int(value)`, where `None` stands for a value whose conversion raises TypeError and becomes 0. */
  function ToSimulationType(value: Option<int>): int {
    match value
    case None => 0
    case Some(v) => v
  }

  /** The assertions of the `simulationType` setter, in order: the range 0..2, then a climate-based sky for radiation. */
  function SimulationTypeError(value: int, isClimateBased: bool): Option<ConfigError> {
    if !(0 <= value <= 2) then Some(SimulationTypeOutOfRange(value))
    else if value == 1 && !isClimateBased then Some(RadiationNeedsClimateBasedSky)
    else None
  }

  /** The arguments of `getCommandsSky(projectFolder, skyMatrix, reuse=True)`. */
  datatype SkyRequest = SkyRequest(projectFolder: string, sky: SkyState, reuse: bool)

  /** The geometry and material files written for the scene: opaque, glazing, window groups, extra. */
  datatype SceneFiles = SceneFiles(opaqueFiles: seq<string>, glazingFiles: seq<string>, windowGroupFiles: seq<string>, extraFiles: seq<string>)

  /** The arguments shared by the scene and window-group daylight-coefficient builders. */
  datatype DcRequest = DcRequest(
    projectName: string,
    skyDensity: nat,
    projectFolder: string,
    skyFiles: seq<string>,
    inputFiles: SceneFiles,
    pointsFile: string,
    totalPointCount: nat,
    reuse: bool,
    totalRunsCount: nat)

  /** What a stage builder returns: its commands and the names of the files they produce. */
  datatype StageOutput = StageOutput(commands: seq<string>, files: seq<string>)

  class DaylightCoeffGridBased {
    var skyMatrix: SkyMatrix
    var simType: int
    var analysisGrids: seq<AnalysisGrid>
    var windowGroups: seq<WindowGroup>
    var reuseDaylightMtx: bool
    var commands: seq<string>
    var resultFiles: seq<string>
    /** Set once the batch file has been run; `results` reads it. */
    var isCalculated: bool

    /** The recipe's invariant: a simulation type in 0..2 and a sky that is a matrix, not a point in time. */
    ghost predicate Valid()
      reads this, skyMatrix
    {
      0 <= simType <= 2 && !skyMatrix.isPointInTime
    }

    /** The state `__init__` leaves before the simulation type is set: empty command and result lists, not calculated. */
    constructor Init(sky: SkyMatrix, analysisGrids: seq<AnalysisGrid>, reuseDaylightMtx: bool, windowGroups: seq<WindowGroup>)
      requires !sky.isPointInTime
      ensures Valid()
      ensures skyMatrix == sky && simType == 0
      ensures this.analysisGrids == analysisGrids && this.windowGroups == windowGroups
      ensures this.reuseDaylightMtx == reuseDaylightMtx
      ensures commands == [] && resultFiles == [] && !isCalculated
    {
      skyMatrix := sky;
      simType := 0;
      this.analysisGrids := analysisGrids;
      this.windowGroups := windowGroups;
      this.reuseDaylightMtx := reuseDaylightMtx;
      commands := [];
      resultFiles := [];
      isCalculated := false;
    }

    /** What a successful `__init__` leaves: the given configuration, the sky's type synchronised, nothing written. */
    ghost predicate Configured(sky: SkyMatrix, analysisGrids: seq<AnalysisGrid>, simulationType: int,
                               reuseDaylightMtx: bool, windowGroups: seq<WindowGroup>)
      reads this, skyMatrix
    {
      && Valid()
      && skyMatrix == sky && simType == simulationType && sky.skyType == simulationType
      && this.analysisGrids == analysisGrids && this.windowGroups == windowGroups
      && this.reuseDaylightMtx == reuseDaylightMtx
      && commands == [] && resultFiles == [] && !isCalculated
    }

    /**
      `__init__`: the sky setter rejects a point-in-time sky, then the
      simulation-type setter runs. A failure leaves the sky untouched.
     */
    static method Create(sky: SkyMatrix, analysisGrids: seq<AnalysisGrid>, simulationType: Option<int>,
                         reuseDaylightMtx: bool, windowGroups: seq<WindowGroup>)
      returns (r: Result<DaylightCoeffGridBased, ConfigError>)
      modifies sky`skyType
      ensures sky.isPointInTime ==> r == Failure(PointInTimeSky)
      ensures !sky.isPointInTime ==>
                match SimulationTypeError(ToSimulationType(simulationType), sky.isClimateBased)
                case Some(e) => r == Failure(e)
                case None => r.Success?
      ensures r.Failure? ==> sky.skyType == old(sky.skyType)
      ensures r.Success? ==> fresh(r.value)
                             && r.value.Configured(sky, analysisGrids, ToSimulationType(simulationType), reuseDaylightMtx, windowGroups)
    {
      if sky.isPointInTime {
        return Failure(PointInTimeSky);
      }
      var recipe := new DaylightCoeffGridBased.Init(sky, analysisGrids, reuseDaylightMtx, windowGroups);
      var err := recipe.SetSimulationType(simulationType);
      if err.Some? {
        return Failure(err.value);
      }
      r := Success(recipe);
    }

    /**
      `fromWeatherFilePointsAndVectors`: the weather-file name must end in
      `.epw`, in any case; `skyFromEpw` stands for `SkyMatrix.fromEpwFile`
      and `analysisGrids` for the grids built from the points and vectors.
     */
    static method FromWeatherFilePointsAndVectors(epwFile: string, skyFromEpw: SkyMatrix,
                                                  analysisGrids: seq<AnalysisGrid>, simulationType: Option<int>,
                                                  reuseDaylightMtx: bool, windowGroups: seq<WindowGroup>)
      returns (r: Result<DaylightCoeffGridBased, ConfigError>)
      modifies skyFromEpw`skyType
      ensures !IsWeatherFileName(epwFile) ==> r == Failure(NotAWeatherFile(epwFile))
      ensures IsWeatherFileName(epwFile) && skyFromEpw.isPointInTime ==> r == Failure(PointInTimeSky)
      ensures IsWeatherFileName(epwFile) && !skyFromEpw.isPointInTime ==>
                match SimulationTypeError(ToSimulationType(simulationType), skyFromEpw.isClimateBased)
                case Some(e) => r == Failure(e)
                case None => r.Success?
      ensures r.Success? <==>
                IsWeatherFileName(epwFile) && !skyFromEpw.isPointInTime
                && SimulationTypeError(ToSimulationType(simulationType), skyFromEpw.isClimateBased).None?
      ensures r.Failure? ==> skyFromEpw.skyType == old(skyFromEpw.skyType)
      ensures r.Success? ==> fresh(r.value)
                             && r.value.Configured(skyFromEpw, analysisGrids, ToSimulationType(simulationType), reuseDaylightMtx, windowGroups)
    {
      if !IsWeatherFileName(epwFile) {
        return Failure(NotAWeatherFile(epwFile));
      }
      r := Create(skyFromEpw, analysisGrids, simulationType, reuseDaylightMtx, windowGroups);
    }

    /**
      The `simulationType` setter. The value must lie in 0..2, and radiation
      (1) needs a climate-based sky. On success both the recipe and its sky
      record the value; on failure nothing changes.
     */
    method SetSimulationType(value: Option<int>) returns (err: Option<ConfigError>)
      requires Valid()
      modifies this`simType, skyMatrix`skyType
      ensures Valid()
      ensures var v := ToSimulationType(value);
              && (err.None? <==> 0 <= v <= 2 && (v == 1 ==> skyMatrix.isClimateBased))
              && err == SimulationTypeError(v, skyMatrix.isClimateBased)
              && (err.None? ==> simType == v && skyMatrix.skyType == v)
      ensures err.Some? ==> simType == old(simType) && skyMatrix.skyType == old(skyMatrix.skyType)
    {
      var v := ToSimulationType(value);
      err := SimulationTypeError(v, skyMatrix.isClimateBased);
      if err.Some? {
        return;
      }
      simType := v;
      skyMatrix.skyType := v;
    }

    /**
      The `skyMatrix` setter: a point-in-time sky is rejected; any other sky
      is stored as it is. The simulation type is neither re-checked against
      the new sky nor pushed onto it.
     */
    method SetSkyMatrix(newSky: SkyMatrix) returns (err: Option<ConfigError>)
      requires Valid()
      modifies this`skyMatrix
      ensures Valid()
      ensures err.None? <==> !newSky.isPointInTime
      ensures err.None? ==> skyMatrix == newSky
      ensures err.Some? ==> err == Some(PointInTimeSky) && skyMatrix == old(skyMatrix)
    {
      if newSky.isPointInTime {
        return Some(PointInTimeSky);
      }
      skyMatrix := newSky;
      err := None;
    }

    /**
      `write`: appends, in order, the header command (when `header` is set),
      the sky commands, the scene commands and the window-group commands to
      the command list, and the scene's then the window groups' result files,
      joined to the project folder, to the result-file list; returns the
      batch-file path and the batch text written there. The three builders and
      `header` are the recipe's collaborators, passed in as functions.
     */
    method Write(projectFolder: string, projectName: string, header: bool, headerOf: string -> string,
                 sceneFiles: SceneFiles, pointsFile: string,
                 getCommandsSky: SkyRequest -> StageOutput,
                 getCommandsSceneDaylightCoeff: DcRequest -> StageOutput,
                 getCommandsWGroupsDaylightCoeff: (seq<WindowGroup>, DcRequest) -> StageOutput)
      returns (batchFile: string, batchText: string)
      modifies this`commands, this`resultFiles
      ensures var sky := getCommandsSky(SkyRequest(projectFolder, skyMatrix.State(), true));
              var request := DcRequest(projectName, skyMatrix.skyDensity, projectFolder, sky.files, sceneFiles,
                                       pointsFile, TotalPointCount(analysisGrids), reuseDaylightMtx,
                                       TotalRunsCount(windowGroups));
              var scene := getCommandsSceneDaylightCoeff(request);
              var groups := getCommandsWGroupsDaylightCoeff(windowGroups, request);
              && commands == old(commands) + (if header then [headerOf(projectFolder)] else [])
                             + sky.commands + scene.commands + groups.commands
              && resultFiles == old(resultFiles) + JoinAll(projectFolder, scene.files)
                                + JoinAll(projectFolder, groups.files)
      ensures batchFile == JoinPath(projectFolder, "commands.bat")
      ensures batchText == BatchText(commands)
    {
      if header {
        commands := commands + [headerOf(projectFolder)];
      }
      var sky := getCommandsSky(SkyRequest(projectFolder, skyMatrix.State(), true));
      commands := commands + sky.commands;

      var request := DcRequest(projectName, skyMatrix.skyDensity, projectFolder, sky.files, sceneFiles,
                               pointsFile, TotalPointCount(analysisGrids), reuseDaylightMtx,
                               TotalRunsCount(windowGroups));
      var scene := getCommandsSceneDaylightCoeff(request);
      commands := commands + scene.commands;
      ExtendResultFiles(projectFolder, scene.files);

      var groups := getCommandsWGroupsDaylightCoeff(windowGroups, request);
      commands := commands + groups.commands;
      ExtendResultFiles(projectFolder, groups.files);

      batchFile := JoinPath(projectFolder, "commands.bat");
      batchText := BatchText(commands);
    }

    /** Appends each result name, joined to the project folder, to the result-file list, in order. */
    method ExtendResultFiles(projectFolder: string, results: seq<string>)
      modifies this`resultFiles
      ensures resultFiles == old(resultFiles) + JoinAll(projectFolder, results)
    {
      var i := 0;
      while i < |results|
        invariant 0 <= i <= |results|
        invariant resultFiles == old(resultFiles) + JoinAll(projectFolder, results[..i])
      {
        assert JoinAll(projectFolder, results[..i + 1]) == JoinAll(projectFolder, results[..i]) + [JoinPath(projectFolder, results[i])];
        resultFiles := resultFiles + [JoinPath(projectFolder, results[i])];
        i := i + 1;
      }
      assert results[..i] == results;
    }

    /**
      `results`: requires the recipe to have been calculated; then, result
      file by result file, reads (source, state) from the file name and loads
      every grid from a running start line, stopping at a malformed name.
      Returns the `setValuesFromFile` calls made and the error, if any.
     */
    method Results() returns (calls: seq<LoadCall>, err: Option<ResultsError>)
      ensures !isCalculated ==> calls == [] && err == Some(NotCalculated)
      ensures isCalculated ==> LoadOutcome(calls, err) == LoadPlan(resultFiles, analysisGrids, skyMatrix.hoys)
    {
      if !isCalculated {
        return [], Some(NotCalculated);
      }
      var files, grids, hoys := resultFiles, analysisGrids, skyMatrix.hoys;
      ghost var ids := Identities(files);
      calls, err := [], None;
      var i := 0;
      while i < |files|
        invariant 0 <= i <= |files|
        invariant PlanLoads(files[..i], ids[..i], grids, hoys) == LoadOutcome(calls, None)
      {
        var rf := files[i];
        assert files[..i + 1][..i] == files[..i] && ids[..i + 1][..i] == ids[..i];
        assert ids[i] == ResultIdentity(rf);
        match ResultIdentity(rf)
        case None =>
          err := Some(MalformedResultFile(rf));
          assert PlanLoads(files[..i + 1], ids[..i + 1], grids, hoys) == LoadOutcome(calls, err);
          PlanLoadsStops(files, ids, grids, hoys, i + 1);
          return;
        case Some(id) =>
          var fileCalls := LoadResultFile(rf, id, hoys, grids);
          calls := calls + fileCalls;
        i := i + 1;
      }
      assert files[..i] == files && ids[..i] == ids;
    }
  }

  /**
    The inner loop of `results` for one result file: grid by grid, the
    running start line grows by the size of the grid before, and each grid
    is loaded from it.
   */
  method LoadResultFile(resultFile: string, id: ResultId, hoys: seq<int>, grids: seq<AnalysisGrid>)
    returns (calls: seq<LoadCall>)
    ensures calls == GridCalls(resultFile, id, hoys, grids)
  {
    calls := [];
    var startLine := 0;
    var count := 0;
    while count < |grids|
      invariant 0 <= count <= |grids|
      invariant startLine == StartLine(grids, if count == 0 then 0 else count - 1)
      invariant calls == GridCalls(resultFile, id, hoys, grids)[..count]
    {
      if count > 0 {
        startLine := startLine + grids[count - 1].pointCount;
      }
      calls := calls + [LoadCall(resultFile, hoys, id.source, id.state, count, startLine)];
      count := count + 1;
    }
  }
}
