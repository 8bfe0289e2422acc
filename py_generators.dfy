/**
 * The planner of the Python command-line generator
 * (src/sbp_generator/generators.py): the analysis of the current directory's
 * path segments, the project folder name, the base path with its "skip"
 * tags, the built-in template table, the template-to-folder expansion with
 * the camera fan-out, and the per-type loop of generate_project.
 *
 * A path is the sequence of its components. Creating a folder is modelled
 * as emitting its path; the filesystem is not consulted.
 */
module PyGenerators {
  import opened Wrappers
  import opened Text
  import opened PyModels

  type Path = seq<string>

  /**
   * `p / name`; the name stays one component. A name holding '/' inside it
   * renders to the same text; a name starting with '/' is absolute, and
   * pathlib would then drop everything before it, which this model does not.
   */
  function Child(p: Path, name: string): Path { p + [name] }

  // ---------------------------------------------------------------------------
  // Directory analysis
  // ---------------------------------------------------------------------------

  /**
   * The analysis record. `discovered_clients` needs the filesystem and is
   * not part of this model; `useSmartDetection` is the flag a caller adds
   * before the record reaches the base-path computation.
   */
  datatype Analysis = Analysis(
    isInStructure: bool,
    detectedType: Option<string>,
    detectedWorkType: Option<string>,
    detectedClient: Option<string>,
    detectedYear: Option<nat>,
    clientWorkPath: Option<Path>,
    suggestedBase: Path,
    skipFolders: seq<string>,
    useSmartDetection: bool)

  function InitialAnalysis(parts: Path): Analysis {
    Analysis(false, None, None, None, None, None, parts, [], false)
  }

  function PhotoDirNames(cfg: AppConfig): seq<string> { [cfg.photographyDir, "Photography", "PHOTO"] }

  function VideoDirNames(cfg: AppConfig): seq<string> { [cfg.videographyDir, "Videography", "VIDEO"] }

  function ClientWorkNames(cfg: AppConfig): seq<string> { [cfg.clientWorkSubfolder, "Client Work"] }

  function PersonalWorkNames(cfg: AppConfig): seq<string> { [cfg.personalWorkSubfolder, "Personal Work"] }

  predicate IsTypeDir(part: string, cfg: AppConfig) {
    part in PhotoDirNames(cfg) || part in VideoDirNames(cfg)
  }

  /** The first position at or after i holding a photo or video directory name. */
  function TypeIndexFrom(parts: Path, i: nat, cfg: AppConfig): (r: Option<nat>)
    requires i <= |parts|
    ensures r.Some? ==> i <= r.value < |parts| && IsTypeDir(parts[r.value], cfg)
    ensures forall j :: i <= j < |parts| && (r.None? || j < r.value) ==> !IsTypeDir(parts[j], cfg)
    decreases |parts| - i
  {
    if i == |parts| then None
    else if IsTypeDir(parts[i], cfg) then Some(i)
    else TypeIndexFrom(parts, i + 1, cfg)
  }

  /** The detected type for the directory at i; a name in both lists counts as photography. */
  function KindAt(parts: Path, i: nat, cfg: AppConfig): string
    requires i < |parts|
  {
    if parts[i] in PhotoDirNames(cfg) then "photography" else "videography"
  }

  /** The analysis when the first type directory is at position i. */
  function DetectedAt(parts: Path, i: nat, cfg: AppConfig): Analysis
    requires i < |parts|
  {
    var kind := KindAt(parts, i, cfg);
    var base := if i == |parts| - 1 then parts else parts[..i];
    var hasNext := i + 1 < |parts|;
    var isClient := hasNext && parts[i + 1] in ClientWorkNames(cfg);
    var isPersonal := hasNext && !isClient && parts[i + 1] in PersonalWorkNames(cfg);
    var hasThird := i + 2 < |parts|;
    var hasYear := isPersonal && hasThird && IsDigitString(parts[i + 2]);
    Analysis(
      true,
      Some(kind),
      if isClient then Some("client") else if isPersonal then Some("personal") else None,
      if isClient && hasThird then Some(parts[i + 2]) else None,
      if hasYear then Some(DigitsValue(parts[i + 2])) else None,
      if isClient then Some(parts[..i + 2]) else None,
      base,
      [kind]
      + (if isClient then [kind, "client_work"] + (if hasThird then ["client_folder"] else []) else [])
      + (if isPersonal then [kind, "personal_work"] + (if hasYear then ["year_folder"] else []) else []),
      false)
  }

  /** The analysis of a current directory given by its path components. */
  function AnalysisOf(parts: Path, cfg: AppConfig): Analysis {
    match TypeIndexFrom(parts, 0, cfg)
    case None => InitialAnalysis(parts)
    case Some(i) => DetectedAt(parts, i, cfg)
  }

  /** The segment loop of analyze_current_directory: stop at the first photo or video directory. */
  method AnalyzeCurrentDirectory(parts: Path, cfg: AppConfig) returns (analysis: Analysis)
    ensures analysis == AnalysisOf(parts, cfg)
  {
    analysis := InitialAnalysis(parts);
    var i := 0;
    while i < |parts|
      invariant 0 <= i <= |parts|
      invariant TypeIndexFrom(parts, i, cfg) == TypeIndexFrom(parts, 0, cfg)
      invariant analysis == InitialAnalysis(parts)
    {
      var part := parts[i];
      if part in PhotoDirNames(cfg) || part in VideoDirNames(cfg) {
        assert TypeIndexFrom(parts, i, cfg) == Some(i);
        analysis := RecordTypeDir(parts, i, cfg);
        return;
      }
      i := i + 1;
    }
  }

  /** The record once the type directory at i is noted, before the next segment is looked at. */
  function TypedAt(parts: Path, i: nat, cfg: AppConfig): Analysis
    requires i < |parts|
  {
    var kind := KindAt(parts, i, cfg);
    Analysis(true, Some(kind), None, None, None, None,
             if i == |parts| - 1 then parts else parts[..i], [kind], false)
  }

  /** The loop body at the first type directory: record it and what follows it. */
  method RecordTypeDir(parts: Path, i: nat, cfg: AppConfig) returns (analysis: Analysis)
    requires i < |parts|
    ensures analysis == DetectedAt(parts, i, cfg)
  {
    var kind := if parts[i] in PhotoDirNames(cfg) then "photography" else "videography";
    analysis := InitialAnalysis(parts).(isInStructure := true, detectedType := Some(kind));
    if i == |parts| - 1 {
      analysis := analysis.(suggestedBase := parts);
    } else {
      analysis := analysis.(suggestedBase := parts[..i]);
    }
    analysis := analysis.(skipFolders := analysis.skipFolders + [kind]);
    assert analysis == TypedAt(parts, i, cfg);
    if i + 1 < |parts| {
      var nextPart := parts[i + 1];
      if nextPart in ClientWorkNames(cfg) {
        analysis := RecordClientWork(parts, i, cfg, analysis);
      } else if nextPart in PersonalWorkNames(cfg) {
        analysis := RecordPersonalWork(parts, i, cfg, analysis);
      } else {
        NoWorkDir(parts, i, cfg);
      }
    } else {
      NoWorkDir(parts, i, cfg);
    }
  }

  /** With no work directory after the type directory, nothing beyond the type is recorded. */
  lemma NoWorkDir(parts: Path, i: nat, cfg: AppConfig)
    requires i < |parts|
    requires i + 1 < |parts| ==> parts[i + 1] !in ClientWorkNames(cfg) && parts[i + 1] !in PersonalWorkNames(cfg)
    ensures DetectedAt(parts, i, cfg) == TypedAt(parts, i, cfg)
  {
    assert [KindAt(parts, i, cfg)] + [] + [] == [KindAt(parts, i, cfg)];
  }

  /** The updates when the segment after the type directory is a Client Work directory. */
  method RecordClientWork(parts: Path, i: nat, cfg: AppConfig, typed: Analysis) returns (analysis: Analysis)
    requires i + 1 < |parts| && parts[i + 1] in ClientWorkNames(cfg)
    requires typed == TypedAt(parts, i, cfg)
    ensures analysis == DetectedAt(parts, i, cfg)
  {
    var kind := KindAt(parts, i, cfg);
    analysis := typed.(detectedWorkType := Some("client"));
    analysis := analysis.(skipFolders := analysis.skipFolders + [kind, "client_work"]);
    analysis := analysis.(clientWorkPath := Some(parts[..i + 2]));
    if i + 2 < |parts| {
      analysis := analysis.(detectedClient := Some(parts[i + 2]));
      analysis := analysis.(skipFolders := analysis.skipFolders + ["client_folder"]);
      assert analysis.skipFolders == [kind] + ([kind, "client_work"] + ["client_folder"]) + [];
    } else {
      assert analysis.skipFolders == [kind] + ([kind, "client_work"] + []) + [];
    }
  }

  /** The updates when the segment after the type directory is a Personal Work directory. */
  method RecordPersonalWork(parts: Path, i: nat, cfg: AppConfig, typed: Analysis) returns (analysis: Analysis)
    requires i + 1 < |parts| && parts[i + 1] !in ClientWorkNames(cfg) && parts[i + 1] in PersonalWorkNames(cfg)
    requires typed == TypedAt(parts, i, cfg)
    ensures analysis == DetectedAt(parts, i, cfg)
  {
    var kind := KindAt(parts, i, cfg);
    analysis := typed.(detectedWorkType := Some("personal"));
    analysis := analysis.(skipFolders := analysis.skipFolders + [kind, "personal_work"]);
    if i + 2 < |parts| && IsDigitString(parts[i + 2]) {
      analysis := analysis.(detectedYear := Some(DigitsValue(parts[i + 2])));
      analysis := analysis.(skipFolders := analysis.skipFolders + ["year_folder"]);
      assert analysis.skipFolders == [kind] + [] + ([kind, "personal_work"] + ["year_folder"]);
    } else {
      assert analysis.skipFolders == [kind] + [] + ([kind, "personal_work"] + []);
    }
  }

  /**
   * The first type directory decides: the suggested base is the path before
   * it (the whole path when it is the last segment), and no earlier segment
   * is a type directory. When the type directory is the first segment the
   * base is [], where Python's `Path(*parts[:0])` is `Path('.')`; the two
   * name the same folder once later segments are joined to them.
   */
  lemma AnalysisFirstTypeDir(parts: Path, cfg: AppConfig, i: nat)
    requires i < |parts| && IsTypeDir(parts[i], cfg)
    requires forall j :: 0 <= j < i ==> !IsTypeDir(parts[j], cfg)
    ensures var a := AnalysisOf(parts, cfg);
      && a.isInStructure
      && a.detectedType == Some(if parts[i] in PhotoDirNames(cfg) then "photography" else "videography")
      && a.suggestedBase == (if i == |parts| - 1 then parts else parts[..i])
      && a.skipFolders[0] == a.detectedType.value
  {
    assert TypeIndexFrom(parts, 0, cfg) == Some(i);
  }

  /** A path with no photo or video directory is not in the structure and is its own suggested base. */
  lemma AnalysisOutsideStructure(parts: Path, cfg: AppConfig)
    requires forall j :: 0 <= j < |parts| ==> !IsTypeDir(parts[j], cfg)
    ensures var a := AnalysisOf(parts, cfg);
      !a.isInStructure && a.suggestedBase == parts && a.skipFolders == []
      && a.detectedType == None && a.detectedWorkType == None
  {
    assert TypeIndexFrom(parts, 0, cfg).None?;
  }

  /**
   * Inside a personal-work folder, a year folder written in decimal is read
   * back as that year and tagged to be skipped; the client slot stays empty.
   */
  lemma PersonalYearDetected(front: Path, typeDir: string, year: nat, rest: Path, cfg: AppConfig)
    requires typeDir in PhotoDirNames(cfg) || typeDir in VideoDirNames(cfg)
    requires forall j :: 0 <= j < |front| ==> !IsTypeDir(front[j], cfg)
    requires "Personal Work" !in ClientWorkNames(cfg)
    ensures var parts := front + [typeDir, "Personal Work", DecimalString(year)] + rest;
      var a := AnalysisOf(parts, cfg);
      && a.detectedWorkType == Some("personal")
      && a.detectedYear == Some(year)
      && a.detectedClient == None
      && a.suggestedBase == front
      && a.skipFolders[|a.skipFolders| - 1] == "year_folder"
  {
    var parts := front + [typeDir, "Personal Work", DecimalString(year)] + rest;
    var i := |front|;
    assert parts[i] == typeDir && parts[i + 1] == "Personal Work" && parts[i + 2] == DecimalString(year);
    assert parts[..i] == front;
    forall j | 0 <= j < i ensures !IsTypeDir(parts[j], cfg) {
      assert parts[j] == front[j];
    }
    AnalysisFirstTypeDir(parts, cfg, i);
    DecimalRoundTrip(year);
  }

  /** Inside a client-work folder, the next segment is the client, and the Client Work path is recorded. */
  lemma ClientDetected(front: Path, typeDir: string, client: string, rest: Path, cfg: AppConfig)
    requires typeDir in PhotoDirNames(cfg) || typeDir in VideoDirNames(cfg)
    requires forall j :: 0 <= j < |front| ==> !IsTypeDir(front[j], cfg)
    ensures var parts := front + [typeDir, "Client Work", client] + rest;
      var a := AnalysisOf(parts, cfg);
      && a.detectedWorkType == Some("client")
      && a.detectedClient == Some(client)
      && a.detectedYear == None
      && a.clientWorkPath == Some(front + [typeDir, "Client Work"])
      && a.skipFolders[|a.skipFolders| - 1] == "client_folder"
  {
    var parts := front + [typeDir, "Client Work", client] + rest;
    var i := |front|;
    assert parts[i] == typeDir && parts[i + 1] == "Client Work" && parts[i + 2] == client;
    assert parts[..i + 2] == front + [typeDir, "Client Work"];
    forall j | 0 <= j < i ensures !IsTypeDir(parts[j], cfg) {
      assert parts[j] == front[j];
    }
    AnalysisFirstTypeDir(parts, cfg, i);
  }

  // ---------------------------------------------------------------------------
  // Templates
  // ---------------------------------------------------------------------------

  /** A folder template: main folders, parent/children sub-folders in key order, optional folders. */
  datatype Template = Template(folders: seq<string>, subfolders: seq<(string, seq<string>)>, optionalFolders: seq<string>)

  const KnownTemplates: seq<string> :=
    ["photography_client", "photography_personal", "videography_client", "videography_personal", "assets"]

  /** The built-in template table used when no template file exists. */
  function DefaultStructure(name: string): Template {
    if name == "photography_client" then
      Template(["RAW", "Edited", "Deliverables", "Contracts & Briefs", "Exports for Social-Print"], [], ["Capture One"])
    else if name == "photography_personal" then
      Template(["RAW", "Edited", "Exports for Social-Print"], [], [])
    else if name == "videography_client" then
      Template(["Footage", "Edited", "Deliverables", "Contracts & Briefs", "Exports", "Thumbnail & Graphics", "Audio"],
               [("Footage", ["RAW"])], ["Footage/Proxies"])
    else if name == "videography_personal" then
      Template(["Footage", "Edited", "Exports", "Audio"], [("Footage", ["RAW"])], ["Footage/Proxies"])
    else if name == "assets" then
      Template(["Presets & Templates", "Stock Footage & Images", "Music & Sound Effects"],
               [("Presets & Templates", ["Lightroom Presets", "LUTs for Video", "Photoshop Templates", "Final Cut Pro-Premiere Templates"]),
                ("Stock Footage & Images", ["Videos", "Photos"]),
                ("Music & Sound Effects", ["Licensed Music", "Sound Effects"])], [])
    else
      Template([], [], [])
  }

  /**
   * The table's shape: an unknown name gives no folders at all; only the
   * video templates have the Footage/RAW sub-folder; photography_personal
   * has no optional folder.
   */
  lemma DefaultStructureShape(name: string)
    ensures DefaultStructure(name).folders == [] <==> name !in KnownTemplates
    ensures name !in KnownTemplates ==> DefaultStructure(name) == Template([], [], [])
    ensures ("Footage", ["RAW"]) in DefaultStructure(name).subfolders
      <==> name == "videography_client" || name == "videography_personal"
    ensures name == "photography_personal" ==> DefaultStructure(name).optionalFolders == []
  {
    if name == "assets" {
      var subs := DefaultStructure(name).subfolders;
      assert subs[0].0 != "Footage" && subs[1].0 != "Footage" && subs[2].0 != "Footage" by {
        assert subs[0].0[0] == 'P' && subs[1].0[0] == 'S' && subs[2].0[0] == 'M';
      }
    }
  }

  /** load_template: a template file when one exists for the name, else the built-in table. */
  function LoadTemplate(files: map<string, Template>, name: string): Template {
    if name in files then files[name] else DefaultStructure(name)
  }

  /** The template name for one project type: photography_ or videography_ followed by the work-type value. */
  function TemplateName(t: ProjectType, w: WorkType): (r: string)
    ensures StartsWith(r, if t == Photography then "photography_" else "videography_")
  {
    var prefix := if t == Photography then "photography_" else "videography_";
    StartsWithAppend(prefix, w.Value());
    prefix + w.Value()
  }

  /** Each type and work type of generate_project names one of the built-in project templates. */
  lemma TemplateNamesKnown(t: ProjectType, w: WorkType)
    requires t != Both
    ensures TemplateName(t, w) == KnownTemplates[(if t == Videography then 2 else 0) + (if w == Personal then 1 else 0)]
  {
    match (t, w)
    case (Photography, Client) => assert TemplateName(t, w) == "photography_" + "client";
    case (Photography, Personal) => assert TemplateName(t, w) == "photography_" + "personal";
    case (Videography, Client) => assert TemplateName(t, w) == "videography_" + "client";
    case (Videography, Personal) => assert TemplateName(t, w) == "videography_" + "personal";
  }

  // ---------------------------------------------------------------------------
  // Project folder name and base path
  // ---------------------------------------------------------------------------

  /** generate_project_folder_name; the date is passed in already formatted. */
  function ProjectFolderName(config: ProjectConfig): string {
    if config.workType == WorkType.Client then config.projectDate + "-" + config.projectName
    else config.projectName
  }

  /** Client work: the date, a hyphen, then the name, each recoverable; personal work: the bare name. */
  lemma ProjectFolderNameParts(config: ProjectConfig)
    ensures var r := ProjectFolderName(config);
      if config.workType == WorkType.Client then
        StartsWith(r, config.projectDate + "-") && r[|config.projectDate| + 1..] == config.projectName
      else r == config.projectName
  {
    if config.workType == WorkType.Client {
      StartsWithAppend(config.projectDate + "-", config.projectName);
      assert (config.projectDate + "-" + config.projectName)[|config.projectDate| + 1..] == config.projectName;
    }
  }

  function Skips(analysis: Option<Analysis>): seq<string> {
    if analysis.Some? then analysis.value.skipFolders else []
  }

  /** The starting directory: the suggested base when smart detection applies, else the configured base. */
  function StartBase(config: ProjectConfig, defaultBase: Path, analysis: Option<Analysis>): Path {
    if analysis.Some? && analysis.value.isInStructure && analysis.value.useSmartDetection then
      analysis.value.suggestedBase
    else if config.basePath.Some? then config.basePath.value
    else defaultBase
  }

  /** A segment that is dropped when empty. */
  function Segment(s: string): seq<string> { if s == "" then [] else [s] }

  function TypeFolder(config: ProjectConfig, skip: seq<string>, cfg: AppConfig): string {
    if config.projectType == Photography && "photography" !in skip then cfg.photographyDir
    else if config.projectType == Videography && "videography" !in skip then cfg.videographyDir
    else ""
  }

  function WorkSubfolder(config: ProjectConfig, skip: seq<string>, cfg: AppConfig): string {
    if config.workType == WorkType.Client && "client_work" !in skip then cfg.clientWorkSubfolder
    else if config.workType == Personal && "personal_work" !in skip then cfg.personalWorkSubfolder
    else ""
  }

  function LastSegment(config: ProjectConfig, skip: seq<string>): seq<string> {
    if config.workType == WorkType.Client && config.clientName.Some? && config.clientName.value != ""
       && "client_folder" !in skip then [config.clientName.value]
    else if config.workType == Personal && "year_folder" !in skip then [DecimalString(config.projectYear)]
    else []
  }

  /** The base path as the start directory followed by its kept segments. */
  function BasePathOf(config: ProjectConfig, defaultBase: Path, analysis: Option<Analysis>, cfg: AppConfig): Path {
    var skip := Skips(analysis);
    StartBase(config, defaultBase, analysis)
    + Segment(TypeFolder(config, skip, cfg))
    + Segment(WorkSubfolder(config, skip, cfg))
    + LastSegment(config, skip)
  }

  /** The base path minus its start directory is the kept segments alone. */
  lemma KeptSegments(config: ProjectConfig, defaultBase: Path, analysis: Option<Analysis>, cfg: AppConfig)
    ensures var skip := Skips(analysis);
      BasePathOf(config, defaultBase, analysis, cfg)[|StartBase(config, defaultBase, analysis)|..]
      == Segment(TypeFolder(config, skip, cfg)) + Segment(WorkSubfolder(config, skip, cfg)) + LastSegment(config, skip)
  {
    var skip := Skips(analysis);
    var start := StartBase(config, defaultBase, analysis);
    var t1, t2, t3 := Segment(TypeFolder(config, skip, cfg)), Segment(WorkSubfolder(config, skip, cfg)), LastSegment(config, skip);
    ConcatAssoc(start, t1, t2);
    ConcatAssoc(start, t1 + t2, t3);
    assert BasePathOf(config, defaultBase, analysis, cfg) == start + (t1 + t2 + t3);
  }

  /** get_project_base_path, reassigning the path step by step. */
  method GetProjectBasePath(config: ProjectConfig, defaultBase: Path, analysis: Option<Analysis>, cfg: AppConfig)
    returns (fullPath: Path)
    ensures fullPath == BasePathOf(config, defaultBase, analysis, cfg)
  {
    var base := if config.basePath.Some? then config.basePath.value else defaultBase;
    if analysis.Some? && analysis.value.isInStructure && analysis.value.useSmartDetection {
      base := analysis.value.suggestedBase;
    }
    var skip := if analysis.Some? then analysis.value.skipFolders else [];
    var typeFolder;
    if config.projectType == Photography && "photography" !in skip {
      typeFolder := cfg.photographyDir;
    } else if config.projectType == Videography && "videography" !in skip {
      typeFolder := cfg.videographyDir;
    } else {
      typeFolder := "";
    }
    assert typeFolder == TypeFolder(config, skip, cfg);
    var workSubfolder;
    if config.workType == WorkType.Client && "client_work" !in skip {
      workSubfolder := cfg.clientWorkSubfolder;
    } else if config.workType == Personal && "personal_work" !in skip {
      workSubfolder := cfg.personalWorkSubfolder;
    } else {
      workSubfolder := "";
    }
    assert workSubfolder == WorkSubfolder(config, skip, cfg);
    assert base == StartBase(config, defaultBase, analysis) && skip == Skips(analysis);
    fullPath := BuildPath(base, typeFolder, workSubfolder);
    fullPath := AddLastFolder(fullPath, config, skip);
  }

  /** "Build the path": the start directory with the non-empty type and work folders. */
  method BuildPath(base: Path, typeFolder: string, workSubfolder: string) returns (fullPath: Path)
    ensures fullPath == base + Segment(typeFolder) + Segment(workSubfolder)
  {
    if typeFolder != "" && workSubfolder != "" {
      fullPath := Child(Child(base, typeFolder), workSubfolder);
    } else if typeFolder != "" {
      fullPath := Child(base, typeFolder);
    } else if workSubfolder != "" {
      fullPath := Child(base, workSubfolder);
    } else {
      fullPath := base;
    }
  }

  /** The client folder for client work with a client, else the year folder for personal work, unless skipped. */
  method AddLastFolder(path: Path, config: ProjectConfig, skip: seq<string>) returns (fullPath: Path)
    ensures fullPath == path + LastSegment(config, skip)
  {
    fullPath := path;
    if config.workType == WorkType.Client && config.clientName.Some? && config.clientName.value != ""
       && "client_folder" !in skip {
      fullPath := Child(fullPath, config.clientName.value);
    } else if config.workType == Personal && "year_folder" !in skip {
      fullPath := Child(fullPath, DecimalString(config.projectYear));
    }
  }

  /**
   * The base path starts with the start directory and then holds, in order,
   * the type folder, the work sub-folder and the client or year folder, each
   * present exactly when its skip tag is absent (and, for the client folder,
   * when a client name is given).
   */
  lemma BasePathComposition(config: ProjectConfig, defaultBase: Path, analysis: Option<Analysis>, cfg: AppConfig)
    requires cfg.photographyDir != "" && cfg.videographyDir != ""
    requires cfg.clientWorkSubfolder != "" && cfg.personalWorkSubfolder != ""
    requires config.projectType != Both
    ensures var p := BasePathOf(config, defaultBase, analysis, cfg);
      var start := StartBase(config, defaultBase, analysis);
      var skip := Skips(analysis);
      var typeKept := (if config.projectType == Photography then "photography" else "videography") !in skip;
      var workKept := (if config.workType == WorkType.Client then "client_work" else "personal_work") !in skip;
      var lastKept := if config.workType == WorkType.Client
        then config.clientName.Some? && config.clientName.value != "" && "client_folder" !in skip
        else "year_folder" !in skip;
      && p[..|start|] == start
      && |p| == |start| + (if typeKept then 1 else 0) + (if workKept then 1 else 0) + (if lastKept then 1 else 0)
      && (typeKept ==> p[|start|] == (if config.projectType == Photography then cfg.photographyDir else cfg.videographyDir))
      && (lastKept && config.workType == WorkType.Client ==> p[|p| - 1] == config.clientName.value)
      && (lastKept && config.workType == Personal ==> p[|p| - 1] == DecimalString(config.projectYear))
  {
  }

  /**
   * Skip tags shorten the path whether or not smart detection is on: the flag
   * only chooses the start directory, and the segments after it are the same.
   */
  lemma SkipTagsIgnoreSmartFlag(config: ProjectConfig, defaultBase: Path, a: Analysis, cfg: AppConfig)
    ensures var on := Some(a.(useSmartDetection := true));
      var off := Some(a.(useSmartDetection := false));
      BasePathOf(config, defaultBase, on, cfg)[|StartBase(config, defaultBase, on)|..]
      == BasePathOf(config, defaultBase, off, cfg)[|StartBase(config, defaultBase, off)|..]
  {
    var on := Some(a.(useSmartDetection := true));
    var off := Some(a.(useSmartDetection := false));
    assert Skips(on) == a.skipFolders && Skips(off) == a.skipFolders;
    KeptSegments(config, defaultBase, on, cfg);
    KeptSegments(config, defaultBase, off, cfg);
  }

  // ---------------------------------------------------------------------------
  // Folder emission (create_folders)
  // ---------------------------------------------------------------------------

  /** Camera folders are made only when enabled, assigned, and the type records video. */
  predicate CameraFanOut(config: ProjectConfig) {
    config.useCameraFolders && config.cameraAssignments != [] && config.projectType in {Videography, Both}
  }

  /** An optional folder is made when it names Capture One and that is requested, or names Proxies and those are requested. */
  predicate ShouldCreate(folder: string, config: ProjectConfig) {
    (Contains(folder, "Capture One") && config.includeCaptureOne)
    || (Contains(folder, "Proxies") && config.includeProxies)
  }

  /** One folder per assignment under dir, in assignment order. */
  function CameraPaths(dir: Path, assignments: seq<CameraAssignment>): (r: seq<Path>)
    ensures |r| == |assignments|
    ensures forall k :: 0 <= k < |r| ==> r[k] == Child(dir, AssignmentFolderName(assignments[k]))
  {
    if assignments == [] then []
    else
      var init := assignments[..|assignments| - 1];
      assert forall k :: 0 <= k < |init| ==> init[k] == assignments[k];
      CameraPaths(dir, init) + [Child(dir, AssignmentFolderName(assignments[|assignments| - 1]))]
  }

  function MainPaths(base: Path, folders: seq<string>): seq<Path> {
    if folders == [] then []
    else MainPaths(base, folders[..|folders| - 1]) + [Child(base, folders[|folders| - 1])]
  }

  /** A child folder, followed by the camera folders when it is named exactly RAW. */
  function ChildEntry(parentPath: Path, child: string, config: ProjectConfig): seq<Path> {
    [Child(parentPath, child)]
    + (if CameraFanOut(config) && child == "RAW" then CameraPaths(Child(parentPath, child), config.cameraAssignments) else [])
  }

  function ChildPaths(parentPath: Path, children: seq<string>, config: ProjectConfig): seq<Path> {
    if children == [] then []
    else ChildPaths(parentPath, children[..|children| - 1], config) + ChildEntry(parentPath, children[|children| - 1], config)
  }

  function SubPaths(base: Path, subs: seq<(string, seq<string>)>, config: ProjectConfig): seq<Path> {
    if subs == [] then []
    else
      var last := subs[|subs| - 1];
      SubPaths(base, subs[..|subs| - 1], config) + ChildPaths(Child(base, last.0), last.1, config)
  }

  /** An optional folder when selected, followed by the camera folders when it is a Proxies folder. */
  function OptionalEntry(base: Path, folder: string, config: ProjectConfig): seq<Path> {
    if ShouldCreate(folder, config) then
      [Child(base, folder)]
      + (if CameraFanOut(config) && Contains(folder, "Proxies") then CameraPaths(Child(base, folder), config.cameraAssignments) else [])
    else
      []
  }

  function OptionalPaths(base: Path, opts: seq<string>, config: ProjectConfig): seq<Path> {
    if opts == [] then []
    else OptionalPaths(base, opts[..|opts| - 1], config) + OptionalEntry(base, opts[|opts| - 1], config)
  }

  /** Everything create_folders emits: main folders, then sub-folders, then optional folders. */
  function CreatedFolders(base: Path, template: Template, config: ProjectConfig): seq<Path> {
    MainPaths(base, template.folders)
    + SubPaths(base, template.subfolders, config)
    + OptionalPaths(base, template.optionalFolders, config)
  }

  method AppendCameras(created: seq<Path>, dir: Path, assignments: seq<CameraAssignment>) returns (r: seq<Path>)
    ensures r == created + CameraPaths(dir, assignments)
  {
    r := created;
    for k := 0 to |assignments|
      invariant r == created + CameraPaths(dir, assignments[..k])
    {
      assert assignments[..k + 1][..k] == assignments[..k];
      r := r + [Child(dir, AssignmentFolderName(assignments[k]))];
    }
    assert assignments[..|assignments|] == assignments;
  }

  method EmitMainFolders(base: Path, folders: seq<string>) returns (created: seq<Path>)
    ensures created == MainPaths(base, folders)
  {
    created := [];
    for i := 0 to |folders|
      invariant created == MainPaths(base, folders[..i])
    {
      assert folders[..i + 1][..i] == folders[..i];
      created := created + [Child(base, folders[i])];
    }
    assert folders[..|folders|] == folders;
  }

  method EmitChildFolders(created: seq<Path>, parentPath: Path, children: seq<string>, config: ProjectConfig)
    returns (r: seq<Path>)
    ensures r == created + ChildPaths(parentPath, children, config)
  {
    r := created;
    for k := 0 to |children|
      invariant r == created + ChildPaths(parentPath, children[..k], config)
    {
      assert children[..k + 1][..k] == children[..k];
      var childPath := Child(parentPath, children[k]);
      var entry := [childPath];
      if CameraFanOut(config) && children[k] == "RAW" {
        entry := AppendCameras(entry, childPath, config.cameraAssignments);
      }
      assert entry == ChildEntry(parentPath, children[k], config);
      assert ChildPaths(parentPath, children[..k + 1], config)
        == ChildPaths(parentPath, children[..k], config) + entry;
      ConcatAssoc(created, ChildPaths(parentPath, children[..k], config), entry);
      r := r + entry;
    }
    assert children[..|children|] == children;
  }

  method EmitSubfolders(created: seq<Path>, base: Path, subs: seq<(string, seq<string>)>, config: ProjectConfig)
    returns (r: seq<Path>)
    ensures r == created + SubPaths(base, subs, config)
  {
    r := created;
    for j := 0 to |subs|
      invariant r == created + SubPaths(base, subs[..j], config)
    {
      assert subs[..j + 1][..j] == subs[..j];
      r := EmitChildFolders(r, Child(base, subs[j].0), subs[j].1, config);
    }
    assert subs[..|subs|] == subs;
  }

  method EmitOptionalFolders(created: seq<Path>, base: Path, opts: seq<string>, config: ProjectConfig)
    returns (r: seq<Path>)
    ensures r == created + OptionalPaths(base, opts, config)
  {
    r := created;
    for i := 0 to |opts|
      invariant r == created + OptionalPaths(base, opts[..i], config)
    {
      assert opts[..i + 1][..i] == opts[..i];
      var folder := opts[i];
      var entry := [];
      var shouldCreate := false;
      if Contains(folder, "Capture One") && config.includeCaptureOne {
        shouldCreate := true;
      } else if Contains(folder, "Proxies") && config.includeProxies {
        shouldCreate := true;
      }
      if shouldCreate {
        var folderPath := Child(base, folder);
        entry := [folderPath];
        if CameraFanOut(config) && Contains(folder, "Proxies") {
          entry := AppendCameras(entry, folderPath, config.cameraAssignments);
        }
      }
      assert entry == OptionalEntry(base, folder, config);
      assert OptionalPaths(base, opts[..i + 1], config) == OptionalPaths(base, opts[..i], config) + entry;
      ConcatAssoc(created, OptionalPaths(base, opts[..i], config), entry);
      r := r + entry;
    }
    assert opts[..|opts|] == opts;
  }

  /** create_folders, emitting each created path in order. */
  method CreateFolders(base: Path, template: Template, config: ProjectConfig) returns (created: seq<Path>)
    ensures created == CreatedFolders(base, template, config)
  {
    created := EmitMainFolders(base, template.folders);
    created := EmitSubfolders(created, base, template.subfolders, config);
    created := EmitOptionalFolders(created, base, template.optionalFolders, config);
  }

  // ---------------------------------------------------------------------------
  // Properties of the emitted folders
  // ---------------------------------------------------------------------------

  /** p lies strictly inside dir. */
  predicate Below(p: Path, dir: Path) { |p| > |dir| && p[..|dir|] == dir }

  lemma BelowChild(p: Path, q: Path, dir: Path)
    requires Below(p, q) && Below(q, dir)
    ensures Below(p, dir)
  {
    assert p[..|dir|] == p[..|q|][..|dir|];
  }

  lemma {:induction false} MainPathsShape(base: Path, folders: seq<string>)
    ensures forall f :: Child(base, f) in MainPaths(base, folders) <==> f in folders
    ensures forall p :: p in MainPaths(base, folders) ==>
      |p| == |base| + 1 && p[..|base|] == base && p[|base|] in folders
  {
    if folders != [] {
      var init := folders[..|folders| - 1];
      MainPathsShape(base, init);
      assert folders == init + [folders[|folders| - 1]];
      forall f ensures Child(base, f) in MainPaths(base, folders) <==> f in folders {
        if Child(base, f) == Child(base, folders[|folders| - 1]) {
          assert f == Child(base, f)[|base|];
        }
      }
    }
  }

  lemma {:induction false} ChildPathsShape(pp: Path, children: seq<string>, config: ProjectConfig)
    ensures forall p :: p in ChildPaths(pp, children, config) ==>
      |p| >= |pp| + 1 && p[..|pp|] == pp && (!CameraFanOut(config) ==> |p| == |pp| + 1)
  {
    if children != [] {
      var k := |children| - 1;
      ChildPathsShape(pp, children[..k], config);
      ChildEntryShape(pp, children[k], config);
    }
  }

  /** A child's entries lie below the parent, one level down unless cameras fan out. */
  lemma ChildEntryShape(pp: Path, child: string, config: ProjectConfig)
    ensures forall p :: p in ChildEntry(pp, child, config) ==>
      |p| >= |pp| + 1 && p[..|pp|] == pp && (!CameraFanOut(config) ==> |p| == |pp| + 1)
  {
    var c := Child(pp, child);
    assert Below(c, pp);
    if CameraFanOut(config) && child == "RAW" {
      var cameras := CameraPaths(c, config.cameraAssignments);
      forall p | p in cameras ensures Below(p, pp) {
        var j :| 0 <= j < |cameras| && cameras[j] == p;
        assert Below(p, c);
        BelowChild(p, c, pp);
      }
    }
  }

  lemma {:induction false} SubPathsShape(base: Path, subs: seq<(string, seq<string>)>, config: ProjectConfig)
    ensures forall p :: p in SubPaths(base, subs, config) ==>
      |p| >= |base| + 2 && p[..|base|] == base && (!CameraFanOut(config) ==> |p| == |base| + 2)
  {
    if subs != [] {
      var last := subs[|subs| - 1];
      SubPathsShape(base, subs[..|subs| - 1], config);
      ChildPathsShape(Child(base, last.0), last.1, config);
      forall p | p in ChildPaths(Child(base, last.0), last.1, config)
        ensures |p| >= |base| + 2 && p[..|base|] == base
      {
        BelowChild(p, Child(base, last.0), base);
      }
    }
  }

  lemma {:induction false} OptionalPathsShape(base: Path, opts: seq<string>, config: ProjectConfig)
    ensures forall o :: o in opts && ShouldCreate(o, config) ==> Child(base, o) in OptionalPaths(base, opts, config)
    ensures forall p :: p in OptionalPaths(base, opts, config) ==>
      |p| >= |base| + 1 && p[..|base|] == base
      && (|p| == |base| + 1 ==> p[|base|] in opts && ShouldCreate(p[|base|], config))
      && (!CameraFanOut(config) ==> |p| == |base| + 1)
  {
    if opts != [] {
      var init := opts[..|opts| - 1];
      var o := opts[|opts| - 1];
      OptionalPathsShape(base, init, config);
      assert opts == init + [o];
      forall p | p in OptionalEntry(base, o, config)
        ensures |p| >= |base| + 1 && p[..|base|] == base
          && (|p| == |base| + 1 ==> p[|base|] in opts && ShouldCreate(p[|base|], config))
          && (!CameraFanOut(config) ==> |p| == |base| + 1)
      {
        if p != Child(base, o) {
          assert Below(p, Child(base, o));
          BelowChild(p, Child(base, o), base);
        }
      }
    }
  }

  /** Every emitted folder lies strictly inside the folder it was emitted for. */
  lemma CreatedBelowBase(base: Path, template: Template, config: ProjectConfig)
    ensures forall p :: p in CreatedFolders(base, template, config) ==> Below(p, base)
  {
    MainPathsShape(base, template.folders);
    SubPathsShape(base, template.subfolders, config);
    OptionalPathsShape(base, template.optionalFolders, config);
  }

  /**
   * An optional folder of the template is emitted exactly when it names
   * Capture One and that was requested, or names Proxies and those were
   * requested (or when it is also one of the main folders).
   */
  lemma OptionalEmittedIff(base: Path, template: Template, config: ProjectConfig, opt: string)
    requires opt in template.optionalFolders
    ensures Child(base, opt) in CreatedFolders(base, template, config)
      <==> opt in template.folders || ShouldCreate(opt, config)
  {
    MainPathsShape(base, template.folders);
    SubPathsShape(base, template.subfolders, config);
    OptionalPathsShape(base, template.optionalFolders, config);
    if Child(base, opt) in OptionalPaths(base, template.optionalFolders, config) {
      assert Child(base, opt)[|base|] == opt;
    }
  }

  lemma {:induction false} ChildPathsHas(pp: Path, children: seq<string>, config: ProjectConfig, k: nat)
    requires k < |children|
    ensures forall p :: p in ChildEntry(pp, children[k], config) ==> p in ChildPaths(pp, children, config)
  {
    var n := |children| - 1;
    if k < n {
      ChildPathsHas(pp, children[..n], config, k);
    }
  }

  lemma {:induction false} SubPathsHas(base: Path, subs: seq<(string, seq<string>)>, config: ProjectConfig, j: nat)
    requires j < |subs|
    ensures forall p :: p in ChildPaths(Child(base, subs[j].0), subs[j].1, config) ==> p in SubPaths(base, subs, config)
  {
    var n := |subs| - 1;
    if j < n {
      SubPathsHas(base, subs[..n], config, j);
    }
  }

  /**
   * Below a RAW child of any sub-folder entry, each assignment's folder is
   * emitted exactly when the camera fan-out applies (camera folders on,
   * assignments given, a video or both project).
   */
  lemma RawCameraFolderIff(base: Path, template: Template, config: ProjectConfig, j: nat, k: nat, a: CameraAssignment)
    requires j < |template.subfolders| && k < |template.subfolders[j].1| && template.subfolders[j].1[k] == "RAW"
    requires a in config.cameraAssignments
    ensures base + [template.subfolders[j].0, "RAW", AssignmentFolderName(a)] in CreatedFolders(base, template, config)
      <==> CameraFanOut(config)
  {
    var parent := template.subfolders[j].0;
    var p := base + [parent, "RAW", AssignmentFolderName(a)];
    if CameraFanOut(config) {
      var pp := Child(base, parent);
      var i :| 0 <= i < |config.cameraAssignments| && config.cameraAssignments[i] == a;
      assert p == CameraPaths(Child(pp, "RAW"), config.cameraAssignments)[i];
      assert p in ChildEntry(pp, template.subfolders[j].1[k], config);
      ChildPathsHas(pp, template.subfolders[j].1, config, k);
      SubPathsHas(base, template.subfolders, config, j);
    } else {
      CreatedBelowBase(base, template, config);
      MainPathsShape(base, template.folders);
      SubPathsShape(base, template.subfolders, config);
      OptionalPathsShape(base, template.optionalFolders, config);
    }
  }

  /** The built-in photography_personal template emits its three folders and nothing else, whatever is requested. */
  lemma PhotographyPersonalFolders(base: Path, config: ProjectConfig)
    ensures CreatedFolders(base, DefaultStructure("photography_personal"), config)
      == [Child(base, "RAW"), Child(base, "Edited"), Child(base, "Exports for Social-Print")]
  {
    var t := DefaultStructure("photography_personal");
    var f := t.folders;
    assert f[..2][..1] == f[..1] && f[..1][..0] == [] && f[..3] == f && f[..3][..2] == f[..2];
    assert MainPaths(base, f[..1]) == [Child(base, "RAW")];
    assert MainPaths(base, f[..2]) == [Child(base, "RAW"), Child(base, "Edited")];
    assert MainPaths(base, f) == MainPaths(base, f[..2]) + [Child(base, "Exports for Social-Print")];
  }

  lemma ProxiesFolderNames()
    ensures Contains("Footage/Proxies", "Proxies")
    ensures !Contains("Footage/Proxies", "Capture One")
  {
    var s := "Footage/Proxies";
    assert StartsWith(s[8..], "Proxies");
    forall i | 0 <= i <= |s| - |"Capture One"| ensures !StartsWith(s[i..], "Capture One") {
      assert s[i..][0] == s[i] != 'C';
    }
  }

  /**
   * The built-in video templates put the camera folders right after
   * Footage/RAW, and follow them with Footage/Proxies (and its own camera
   * folders) only when proxies are requested.
   */
  lemma VideoTemplateFolders(base: Path, name: string, config: ProjectConfig)
    requires name == "videography_client" || name == "videography_personal"
    ensures var t := DefaultStructure(name);
      var raw := base + ["Footage", "RAW"];
      var proxies := Child(base, "Footage/Proxies");
      CreatedFolders(base, t, config)
      == MainPaths(base, t.folders)
      + [raw] + (if CameraFanOut(config) then CameraPaths(raw, config.cameraAssignments) else [])
      + (if config.includeProxies then
           [proxies] + (if CameraFanOut(config) then CameraPaths(proxies, config.cameraAssignments) else [])
         else [])
  {
    var t := DefaultStructure(name);
    assert t.subfolders == [("Footage", ["RAW"])];
    assert t.optionalFolders == ["Footage/Proxies"];
    FootageRawTemplateFolders(base, t, config);
  }

  lemma FootageRawTemplateFolders(base: Path, t: Template, config: ProjectConfig)
    requires t.subfolders == [("Footage", ["RAW"])] && t.optionalFolders == ["Footage/Proxies"]
    ensures var raw := base + ["Footage", "RAW"];
      var proxies := Child(base, "Footage/Proxies");
      CreatedFolders(base, t, config)
      == MainPaths(base, t.folders)
      + [raw] + (if CameraFanOut(config) then CameraPaths(raw, config.cameraAssignments) else [])
      + (if config.includeProxies then
           [proxies] + (if CameraFanOut(config) then CameraPaths(proxies, config.cameraAssignments) else [])
         else [])
  {
    ProxiesFolderNames();
    var raw := base + ["Footage", "RAW"];
    assert ["RAW"][..0] == [];
    assert [("Footage", ["RAW"])][..0] == [];
    assert ["Footage/Proxies"][..0] == [];
    assert Child(Child(base, "Footage"), "RAW") == raw;
    var rawPart := [raw] + (if CameraFanOut(config) then CameraPaths(raw, config.cameraAssignments) else []);
    assert ChildPaths(Child(base, "Footage"), ["RAW"], config) == rawPart;
    assert SubPaths(base, t.subfolders, config) == rawPart;
    assert OptionalPaths(base, t.optionalFolders, config) == OptionalEntry(base, "Footage/Proxies", config);
    ConcatAssoc(MainPaths(base, t.folders), [raw],
                if CameraFanOut(config) then CameraPaths(raw, config.cameraAssignments) else []);
  }

  // ---------------------------------------------------------------------------
  // generate_project
  // ---------------------------------------------------------------------------

  /**
   * The result record. `clientProject` is the (client, project folder) pair
   * handed to the client table's add_project_to_client, when there is one.
   */
  datatype ProjectResult = ProjectResult(
    success: bool,
    message: string,
    createdFolders: seq<Path>,
    projectPaths: seq<Path>,
    clientProject: Option<(string, string)>)

  /** The project types handled in turn: both expands to photography then videography. */
  function ProjectTypes(t: ProjectType): (r: seq<ProjectType>)
    ensures 1 <= |r| <= 2 && Both !in r
    ensures t == Both <==> |r| == 2
  {
    if t == Both then [Photography, Videography] else [t]
  }

  /** The project folder for one project type. */
  function ProjectPathFor(config: ProjectConfig, t: ProjectType, defaultBase: Path, analysis: Option<Analysis>, cfg: AppConfig): Path {
    Child(BasePathOf(config.(projectType := t), defaultBase, analysis, cfg), ProjectFolderName(config))
  }

  /** The folders emitted for one project type. */
  function FoldersFor(config: ProjectConfig, t: ProjectType, files: map<string, Template>, defaultBase: Path,
                      analysis: Option<Analysis>, cfg: AppConfig): seq<Path> {
    CreatedFolders(ProjectPathFor(config, t, defaultBase, analysis, cfg),
                   LoadTemplate(files, TemplateName(t, config.workType)),
                   config.(projectType := t))
  }

  function PlannedPaths(config: ProjectConfig, types: seq<ProjectType>, defaultBase: Path,
                        analysis: Option<Analysis>, cfg: AppConfig): (r: seq<Path>)
    ensures |r| == |types|
    ensures forall k :: 0 <= k < |types| ==> r[k] == ProjectPathFor(config, types[k], defaultBase, analysis, cfg)
  {
    if types == [] then []
    else
      PlannedPaths(config, types[..|types| - 1], defaultBase, analysis, cfg)
      + [ProjectPathFor(config, types[|types| - 1], defaultBase, analysis, cfg)]
  }

  function PlannedFolders(config: ProjectConfig, types: seq<ProjectType>, files: map<string, Template>,
                          defaultBase: Path, analysis: Option<Analysis>, cfg: AppConfig): seq<Path> {
    if types == [] then []
    else
      PlannedFolders(config, types[..|types| - 1], files, defaultBase, analysis, cfg)
      + FoldersFor(config, types[|types| - 1], files, defaultBase, analysis, cfg)
  }

  /** The client-table update generate_project asks for: client work with a client name. */
  function ClientProject(config: ProjectConfig): Option<(string, string)> {
    if config.workType == WorkType.Client && config.clientName.Some? && config.clientName.value != "" then
      Some((config.clientName.value, ProjectFolderName(config)))
    else None
  }

  /** Planning one more type appends that type's project path and folders. */
  lemma PlannedStep(config: ProjectConfig, types: seq<ProjectType>, k: nat, files: map<string, Template>,
                    defaultBase: Path, analysis: Option<Analysis>, cfg: AppConfig)
    requires k < |types|
    ensures PlannedPaths(config, types[..k + 1], defaultBase, analysis, cfg)
      == PlannedPaths(config, types[..k], defaultBase, analysis, cfg) + [ProjectPathFor(config, types[k], defaultBase, analysis, cfg)]
    ensures PlannedFolders(config, types[..k + 1], files, defaultBase, analysis, cfg)
      == PlannedFolders(config, types[..k], files, defaultBase, analysis, cfg) + FoldersFor(config, types[k], files, defaultBase, analysis, cfg)
  {
    assert types[..k + 1][..k] == types[..k];
  }

  /** One pass of generate_project's type loop: the type's project folder and the folders made in it. */
  method GenerateTypeProject(config: ProjectConfig, projectType: ProjectType, files: map<string, Template>,
                             defaultBase: Path, analysis: Option<Analysis>, cfg: AppConfig)
    returns (projectPath: Path, createdFolders: seq<Path>)
    ensures projectPath == ProjectPathFor(config, projectType, defaultBase, analysis, cfg)
    ensures createdFolders == FoldersFor(config, projectType, files, defaultBase, analysis, cfg)
  {
    var typeConfig := config.(projectType := projectType);
    var basePath := GetProjectBasePath(typeConfig, defaultBase, analysis, cfg);
    projectPath := Child(basePath, ProjectFolderName(config));
    var templateName;
    if projectType == Photography {
      templateName := "photography_" + config.workType.Value();
    } else {
      templateName := "videography_" + config.workType.Value();
    }
    assert templateName == TemplateName(projectType, config.workType);
    var template := LoadTemplate(files, templateName);
    createdFolders := CreateFolders(projectPath, template, typeConfig);
  }

  /**
   * generate_project's loop over the project types. Each pass first builds
   * the config again from its own fields; when that is refused, the loop
   * stops at once with the first validator message and nothing planned.
   */
  method PlanProjectTypes(config: ProjectConfig, projectTypes: seq<ProjectType>, files: map<string, Template>,
                          defaultBase: Path, analysis: Option<Analysis>, cfg: AppConfig)
    returns (failure: Option<string>, projectPaths: seq<Path>, allFolders: seq<Path>)
    requires projectTypes != []
    ensures failure == None <==> RebuildErrors(config) == []
    ensures failure.Some? ==> failure.value == RebuildErrors(config)[0] && projectPaths == [] && allFolders == []
    ensures failure == None ==> projectPaths == PlannedPaths(config, projectTypes, defaultBase, analysis, cfg)
    ensures failure == None ==> allFolders == PlannedFolders(config, projectTypes, files, defaultBase, analysis, cfg)
  {
    projectPaths, allFolders := [], [];
    for i := 0 to |projectTypes|
      invariant projectPaths == PlannedPaths(config, projectTypes[..i], defaultBase, analysis, cfg)
      invariant allFolders == PlannedFolders(config, projectTypes[..i], files, defaultBase, analysis, cfg)
      invariant 0 < i ==> RebuildErrors(config) == []
    {
      var errors := RebuildErrors(config);
      if errors != [] {
        return Some(errors[0]), projectPaths, allFolders;
      }
      PlannedStep(config, projectTypes, i, files, defaultBase, analysis, cfg);
      var projectPath, createdFolders := GenerateTypeProject(config, projectTypes[i], files, defaultBase, analysis, cfg);
      allFolders := allFolders + createdFolders;
      projectPaths := projectPaths + [projectPath];
    }
    assert projectTypes[..|projectTypes|] == projectTypes;
    failure := None;
  }

  const ErrorPrefix := "Error creating project: "

  /**
   * generate_project: one project folder per project type, each filled from
   * its template. `files` holds the template files that exist; every other
   * template comes from the built-in table. When building the config again
   * from its fields is refused, the result is the error message and nothing
   * made.
   */
  method GenerateProject(config: ProjectConfig, files: map<string, Template>, defaultBase: Path,
                         analysis: Option<Analysis>, cfg: AppConfig)
    returns (result: ProjectResult)
    ensures result.success <==> RebuildErrors(config) == []
    ensures result.success ==> result.projectPaths == PlannedPaths(config, ProjectTypes(config.projectType), defaultBase, analysis, cfg)
    ensures result.success ==> result.createdFolders == PlannedFolders(config, ProjectTypes(config.projectType), files, defaultBase, analysis, cfg)
    ensures result.success ==> result.message == "Successfully created project: " + ProjectFolderName(config)
    ensures result.success ==> result.clientProject == ClientProject(config)
    ensures !result.success ==> result.projectPaths == [] && result.createdFolders == [] && result.clientProject == None
    ensures !result.success ==> result.message == ErrorPrefix + RebuildErrors(config)[0]
  {
    var projectFolderName := ProjectFolderName(config);
    var projectTypes := ProjectTypes(config.projectType);
    var failure, projectPaths, allFolders := PlanProjectTypes(config, projectTypes, files, defaultBase, analysis, cfg);
    if failure.Some? {
      return ProjectResult(false, ErrorPrefix + failure.value, allFolders, projectPaths, None);
    }
    var clientProject := None;
    if config.workType == WorkType.Client && config.clientName.Some? && config.clientName.value != "" {
      clientProject := Some((config.clientName.value, projectFolderName));
    }
    result := ProjectResult(true, "Successfully created project: " + projectFolderName, allFolders, projectPaths, clientProject);
  }

  /** Every emitted folder lies inside the project folder of one of the handled types. */
  lemma {:induction false} PlannedFoldersBelow(config: ProjectConfig, types: seq<ProjectType>, files: map<string, Template>,
                                              defaultBase: Path, analysis: Option<Analysis>, cfg: AppConfig)
    ensures forall p :: p in PlannedFolders(config, types, files, defaultBase, analysis, cfg) ==>
      exists t :: t in types && Below(p, ProjectPathFor(config, t, defaultBase, analysis, cfg))
  {
    if types != [] {
      var n := |types| - 1;
      var init, t := types[..n], types[n];
      var earlier := PlannedFolders(config, init, files, defaultBase, analysis, cfg);
      var last := FoldersFor(config, t, files, defaultBase, analysis, cfg);
      assert PlannedFolders(config, types, files, defaultBase, analysis, cfg) == earlier + last;
      PlannedFoldersBelow(config, init, files, defaultBase, analysis, cfg);
      CreatedBelowBase(ProjectPathFor(config, t, defaultBase, analysis, cfg),
                       LoadTemplate(files, TemplateName(t, config.workType)), config.(projectType := t));
      forall p | p in earlier + last
        ensures exists u :: u in types && Below(p, ProjectPathFor(config, u, defaultBase, analysis, cfg))
      {
        if p in earlier {
          var u :| u in init && Below(p, ProjectPathFor(config, u, defaultBase, analysis, cfg));
          assert u in types;
        } else {
          assert t in types;
        }
      }
    }
  }

  /**
   * Both expands to a photo project folder first and a video project folder
   * second; when the type directories are not skipped, they sit under the
   * photography and videography directories respectively, and each ends in
   * the project folder name.
   */
  lemma BothProjectPaths(config: ProjectConfig, defaultBase: Path, analysis: Option<Analysis>, cfg: AppConfig)
    requires config.projectType == Both
    requires cfg.photographyDir != "" && cfg.videographyDir != ""
    requires cfg.clientWorkSubfolder != "" && cfg.personalWorkSubfolder != ""
    requires "photography" !in Skips(analysis) && "videography" !in Skips(analysis)
    ensures var paths := PlannedPaths(config, ProjectTypes(config.projectType), defaultBase, analysis, cfg);
      var start := StartBase(config, defaultBase, analysis);
      && |paths| == 2
      && paths[0][..|start|] == start && paths[0][|start|] == cfg.photographyDir
      && paths[1][..|start|] == start && paths[1][|start|] == cfg.videographyDir
      && paths[0][|paths[0]| - 1] == ProjectFolderName(config)
      && paths[1][|paths[1]| - 1] == ProjectFolderName(config)
  {
    var photo := config.(projectType := Photography);
    var video := config.(projectType := Videography);
    BasePathComposition(photo, defaultBase, analysis, cfg);
    BasePathComposition(video, defaultBase, analysis, cfg);
    assert StartBase(photo, defaultBase, analysis) == StartBase(config, defaultBase, analysis);
    assert StartBase(video, defaultBase, analysis) == StartBase(config, defaultBase, analysis);
  }
}
