/**
 * The web application's structure generator (webapp/structure-generator.js).
 *
 * A plan is a flat list of slash-separated folder paths, one branch per
 * project type ("PHOTO", "VIDEO"), each under
 *   TYPE/Client Work[/client]/<date>-<name>   or   TYPE/Personal Work/<year>/<name>
 * followed by the template folders of the (type, work type) pair, camera
 * folders fanned out under "Footage/RAW", and the optional folders.
 *
 * The JavaScript Date object is replaced by a DateView: the three renderings
 * of the project date the generator uses.
 */
module WebappGenerator {
  import opened Text
  import opened Sorting
  import opened Checks

  datatype CameraAssignment = CameraAssignment(purpose: string, camera: string)

  /** A missing or empty field of the form is "" (JavaScript's falsy value). */
  datatype Config = Config(
    projectType: string,
    workType: string,
    projectName: string,
    projectDate: string,
    clientName: string,
    includeCaptureOne: bool,
    includeProxies: bool,
    useCameraFolders: bool,
    cameraAssignments: seq<CameraAssignment>)

  /**
   * `new Date(projectDate)` as the generator reads it: the date part of
   * toISOString, getFullYear in local time, and toLocaleDateString.
   */
  datatype DateView = DateView(isoDate: string, year: string, localeDate: string)

  datatype Summary = Summary(
    projectType: string,
    workType: string,
    projectName: string,
    projectDate: string,
    clientName: string,
    features: seq<string>)

  datatype Plan = Plan(paths: seq<string>, summary: Summary, preview: string)

  datatype ZipEntry = ZipEntry(name: string, content: string)

  // ---------------------------------------------------------------------------
  // Templates
  // ---------------------------------------------------------------------------

  const PhotoClientFolders: seq<string> :=
    ["RAW", "Edited", "Deliverables", "Contracts & Briefs", "Exports for Social-Print"]
  const PhotoPersonalFolders: seq<string> :=
    ["RAW", "Edited", "Exports for Social-Print"]
  const VideoClientFolders: seq<string> :=
    ["Footage", "Footage/RAW", "Edited", "Deliverables", "Contracts & Briefs", "Exports",
     "Thumbnail & Graphics", "Audio"]
  const VideoPersonalFolders: seq<string> :=
    ["Footage", "Edited", "Exports", "Audio"]

  /** `templates[baseType][workType] || []`: an unknown work type has no template folders. */
  function Template(baseType: string, workType: string): seq<string> {
    if baseType == "photo" then
      (if workType == "client" then PhotoClientFolders
       else if workType == "personal" then PhotoPersonalFolders
       else [])
    else
      (if workType == "client" then VideoClientFolders
       else if workType == "personal" then VideoPersonalFolders
       else [])
  }

  // ---------------------------------------------------------------------------
  // Specification functions
  // ---------------------------------------------------------------------------

  /** The branches to build: one for photo, one for video, two for both, photo otherwise. */
  function GetProjectTypes(projectType: string): (r: seq<string>)
    ensures 1 <= |r| <= 2
    ensures forall k :: 0 <= k < |r| ==> r[k] == "PHOTO" || r[k] == "VIDEO"
    ensures "VIDEO" in r <==> projectType == "video" || projectType == "both"
    ensures "PHOTO" in r <==> projectType != "video"
    ensures |r| == 2 <==> projectType == "both"
  {
    match projectType
    case "photo" => ["PHOTO"]
    case "video" => ["VIDEO"]
    case "both" => ["PHOTO", "VIDEO"]
    case _ => ["PHOTO"]
  }

  function BaseType(branch: string): string {
    if Lower(branch) == "photo" then "photo" else "video"
  }

  function ProjectFolderName(config: Config, date: DateView): string {
    if config.workType == "client" then date.isoDate + "-" + config.projectName
    else config.projectName
  }

  /** The project folder of one branch. */
  function BasePath(branch: string, config: Config, date: DateView): string {
    var workPart :=
      if config.workType == "client" then
        "/Client Work" + (if config.clientName != "" then "/" + config.clientName else "")
      else
        "/Personal Work/" + date.year;
    branch + workPart + "/" + ProjectFolderName(config, date)
  }

  function CameraFolder(a: CameraAssignment): string {
    a.purpose + "-" + a.camera
  }

  /** One folder per camera assignment under `parent`, in assignment order, when camera folders are on. */
  function CameraPaths(parent: string, config: Config): seq<string> {
    if config.useCameraFolders && |config.cameraAssignments| > 0 then
      seq(|config.cameraAssignments|, i requires 0 <= i < |config.cameraAssignments| =>
        parent + "/" + CameraFolder(config.cameraAssignments[i]))
    else []
  }

  predicate IsFanOut(folder: string) {
    folder == "Footage/RAW" || folder == "Footage/Proxies"
  }

  /** The paths one template folder contributes: itself, then its camera folders when it fans out. */
  function FolderPaths(base: string, folder: string, config: Config): seq<string> {
    [base + "/" + folder] + (if IsFanOut(folder) then CameraPaths(base + "/" + folder, config) else [])
  }

  function TemplatePaths(base: string, folders: seq<string>, config: Config): seq<string> {
    if folders == [] then []
    else
      TemplatePaths(base, folders[..|folders| - 1], config)
      + FolderPaths(base, folders[|folders| - 1], config)
  }

  lemma TemplatePathsStep(base: string, folders: seq<string>, i: nat, config: Config)
    requires i < |folders|
    ensures TemplatePaths(base, folders[..i + 1], config)
      == TemplatePaths(base, folders[..i], config) + FolderPaths(base, folders[i], config)
  {
    assert folders[..i + 1][..i] == folders[..i];
  }

  predicate AnyStartsWith(paths: seq<string>, prefix: string) {
    exists k :: 0 <= k < |paths| && StartsWith(paths[k], prefix)
  }

  /** What addOptionalFolders appends to `existing`. */
  function OptionalPaths(existing: seq<string>, base: string, baseType: string, config: Config): seq<string> {
    var capture := if baseType == "photo" && config.includeCaptureOne then [base + "/Capture One"] else [];
    var proxiesPath := base + "/Footage/Proxies";
    var proxies :=
      if baseType == "video" && config.includeProxies && !AnyStartsWith(existing + capture, proxiesPath)
      then [proxiesPath] + CameraPaths(proxiesPath, config)
      else [];
    capture + proxies
  }

  /** All paths of one branch. */
  function TypePaths(branch: string, config: Config, date: DateView): seq<string> {
    var base := BasePath(branch, config, date);
    var baseType := BaseType(branch);
    var templatePaths := TemplatePaths(base, Template(baseType, config.workType), config);
    templatePaths + OptionalPaths(templatePaths, base, baseType, config)
  }

  /** The branches' paths concatenated in branch order. */
  function PlanPaths(branches: seq<string>, config: Config, date: DateView): seq<string> {
    if branches == [] then []
    else PlanPaths(branches[..|branches| - 1], config, date) + TypePaths(branches[|branches| - 1], config, date)
  }

  /** The messages validateConfig reports: each failed check pushes its own, in check order. */
  function ValidationErrors(config: Config): (r: seq<string>)
    ensures |r| <= 6
    ensures r == [] <==> Complete(config)
  {
    Pushed(config.projectType == "", ProjectTypeRequired)
    + Pushed(config.workType == "", WorkTypeRequired)
    + Pushed(config.projectName == "", ProjectNameRequired)
    + Pushed(config.projectDate == "", ProjectDateRequired)
    + Pushed(config.workType == "client" && config.clientName == "", ClientNameRequired)
    + Pushed(config.useCameraFolders && |config.cameraAssignments| == 0, CameraAssignmentRequired)
  }

  function FeatureTable(config: Config): seq<(bool, string)> {
    [(config.includeCaptureOne, "Capture One folder"),
     (config.includeProxies, "Proxies folder"),
     (config.useCameraFolders && |config.cameraAssignments| > 0,
      DecimalString(|config.cameraAssignments|) + " camera setup")]
  }

  function FormatProjectType(projectType: string): (r: string)
    ensures r == projectType <==> projectType != "photo" && projectType != "video" && projectType != "both"
  {
    match projectType
    case "photo" => "Photography"
    case "video" => "Videography"
    case "both" => "Photo & Video"
    case _ => projectType
  }

  function SummaryOf(config: Config, date: DateView): Summary {
    Summary(
      FormatProjectType(config.projectType),
      if config.workType == "client" then "Client Work" else "Personal Work",
      config.projectName,
      date.localeDate,
      if config.clientName != "" then config.clientName else "N/A",
      Selected(FeatureTable(config)))
  }

  /** The messages validateConfig pushes. */
  const ProjectTypeRequired: string := "Project type is required"
  const WorkTypeRequired: string := "Work type is required"
  const ProjectNameRequired: string := "Project name is required"
  const ProjectDateRequired: string := "Project date is required"
  const ClientNameRequired: string := "Client name is required for client work"
  const CameraAssignmentRequired: string := "At least one camera assignment is required when using camera folders"

  /** The complete-form condition validateConfig checks. */
  predicate Complete(config: Config) {
    config.projectType != "" && config.workType != "" && config.projectName != ""
    && config.projectDate != ""
    && (config.workType == "client" ==> config.clientName != "")
    && (config.useCameraFolders ==> |config.cameraAssignments| > 0)
  }

  // ---------------------------------------------------------------------------
  // The generator
  // ---------------------------------------------------------------------------

  /** The `structure` object the helpers push paths into. */
  class PathList {
    var paths: seq<string>

    constructor ()
      ensures paths == []
    {
      paths := [];
    }
  }

  method AddCameraFolders(structure: PathList, parent: string, config: Config)
    modifies structure
    ensures structure.paths == old(structure.paths) + CameraPaths(parent, config)
  {
    if config.useCameraFolders && |config.cameraAssignments| > 0 {
      var i := 0;
      while i < |config.cameraAssignments|
        invariant 0 <= i <= |config.cameraAssignments|
        invariant structure.paths == old(structure.paths) + CameraPaths(parent, config)[..i]
      {
        var cameraFolder := CameraFolder(config.cameraAssignments[i]);
        structure.paths := structure.paths + [parent + "/" + cameraFolder];
        assert CameraPaths(parent, config)[..i + 1] == CameraPaths(parent, config)[..i] + [parent + "/" + cameraFolder];
        i := i + 1;
      }
    }
  }

  method AddOptionalFolders(structure: PathList, base: string, baseType: string, config: Config)
    modifies structure
    ensures structure.paths == old(structure.paths) + OptionalPaths(old(structure.paths), base, baseType, config)
  {
    if baseType == "photo" && config.includeCaptureOne {
      structure.paths := structure.paths + [base + "/Capture One"];
    }
    if baseType == "video" && config.includeProxies {
      var proxiesPath := base + "/Footage/Proxies";
      assert structure.paths == old(structure.paths) + [];
      if !AnyStartsWith(structure.paths, proxiesPath) {
        structure.paths := structure.paths + [proxiesPath];
        AddCameraFolders(structure, proxiesPath, config);
      }
    }
  }

  /** The paths of one branch ("PHOTO" or "VIDEO"). */
  method GenerateTypeStructure(branch: string, config: Config, date: DateView) returns (paths: seq<string>)
    ensures paths == TypePaths(branch, config, date)
  {
    var structure := new PathList();
    var baseType := if Lower(branch) == "photo" then "photo" else "video";
    var basePath := BuildBasePath(branch, config, date);

    var templateFolders := Template(baseType, config.workType);
    var i := 0;
    while i < |templateFolders|
      invariant 0 <= i <= |templateFolders|
      invariant structure.paths == TemplatePaths(basePath, templateFolders[..i], config)
    {
      AddTemplateFolder(structure, basePath, templateFolders[i], config);
      TemplatePathsStep(basePath, templateFolders, i, config);
      i := i + 1;
    }
    assert templateFolders[..i] == templateFolders;

    AddOptionalFolders(structure, basePath, baseType, config);
    paths := structure.paths;
  }

  /** The base path of one branch, extended step by step. */
  method BuildBasePath(branch: string, config: Config, date: DateView) returns (basePath: string)
    ensures basePath == BasePath(branch, config, date)
  {
    basePath := branch;
    if config.workType == "client" {
      basePath := basePath + "/Client Work";
      if config.clientName != "" {
        basePath := basePath + "/" + config.clientName;
      }
    } else {
      basePath := basePath + "/Personal Work";
      basePath := basePath + "/" + date.year;
    }
    var projectFolder := ProjectFolderName(config, date);
    basePath := basePath + "/" + projectFolder;
  }

  /** One template folder, followed by its camera folders when it is Footage/RAW or Footage/Proxies. */
  method AddTemplateFolder(structure: PathList, basePath: string, folder: string, config: Config)
    modifies structure
    ensures structure.paths == old(structure.paths) + FolderPaths(basePath, folder, config)
  {
    var fullPath := basePath + "/" + folder;
    ghost var before := structure.paths;
    structure.paths := structure.paths + [fullPath];
    if folder == "Footage/RAW" || folder == "Footage/Proxies" {
      AddCameraFolders(structure, fullPath, config);
      ConcatAssoc(before, [fullPath], CameraPaths(fullPath, config));
    } else {
      assert [fullPath] + [] == [fullPath];
    }
  }

  method GenerateSummary(config: Config, date: DateView) returns (summary: Summary)
    ensures summary == SummaryOf(config, date)
  {
    ghost var table := FeatureTable(config);
    var features: seq<string> := [];
    if config.includeCaptureOne {
      features := features + ["Capture One folder"];
    }
    SelectedPrefix(table, 0);
    assert features == Selected(table[..1]);
    if config.includeProxies {
      features := features + ["Proxies folder"];
    }
    SelectedPrefix(table, 1);
    assert features == Selected(table[..2]);
    if config.useCameraFolders && |config.cameraAssignments| > 0 {
      features := features + [DecimalString(|config.cameraAssignments|) + " camera setup"];
    }
    SelectedPrefix(table, 2);
    assert table[..3] == table;
    summary := Summary(
      FormatProjectType(config.projectType),
      if config.workType == "client" then "Client Work" else "Personal Work",
      config.projectName,
      date.localeDate,
      if config.clientName != "" then config.clientName else "N/A",
      features);
  }

  /**
   * The tree text of one root group. The source builds a nested object and
   * calls renderTree, but renderTree's return value is dropped and the local
   * result string is never written to, so the text is always empty.
   */
  function GenerateTreeStructure(paths: seq<string>, root: string): string {
    ""
  }

  /** The preview: a fixed message for an empty plan, otherwise the trimmed per-root tree texts. */
  method GeneratePreviewText(paths: seq<string>) returns (preview: string)
    ensures paths == [] ==> preview == "No folders to create"
    ensures paths != [] ==> preview == ""
  {
    if |paths| == 0 {
      return "No folders to create";
    }
    var sortedPaths := SortStrings(paths);

    var roots: seq<string> := [];
    var groups: map<string, seq<string>> := map[];
    for i := 0 to |sortedPaths|
      invariant forall r :: r in roots ==> r in groups
    {
      var root := Split(sortedPaths[i], '/')[0];
      if root !in groups {
        groups := groups[root := []];
        roots := roots + [root];
      }
      groups := groups[root := groups[root] + [sortedPaths[i]]];
    }

    var text := "";
    for k := 0 to |roots|
      invariant AllWhitespace(text)
    {
      text := text + GenerateTreeStructure(groups[roots[k]], roots[k]) + "\n";
    }
    preview := Trim(text);
  }

  /** The generated plan: the branches' paths, the summary and the preview. */
  method GenerateStructure(config: Config, date: DateView) returns (plan: Plan)
    ensures plan.paths == PlanPaths(GetProjectTypes(config.projectType), config, date)
    ensures plan.summary == SummaryOf(config, date)
    ensures plan.preview == (if plan.paths == [] then "No folders to create" else "")
  {
    var summary := GenerateSummary(config, date);
    var typesToCreate := GetProjectTypes(config.projectType);
    var paths: seq<string> := [];
    for i := 0 to |typesToCreate|
      invariant paths == PlanPaths(typesToCreate[..i], config, date)
    {
      var typePaths := GenerateTypeStructure(typesToCreate[i], config, date);
      assert typesToCreate[..i + 1][..i] == typesToCreate[..i];
      paths := paths + typePaths;
    }
    assert typesToCreate[..|typesToCreate|] == typesToCreate;
    var preview := GeneratePreviewText(paths);
    plan := Plan(paths, summary, preview);
  }

  /** The validation result: every failed check's message, in check order. */
  method ValidateConfig(config: Config) returns (isValid: bool, errors: seq<string>)
    ensures errors == ValidationErrors(config)
    ensures isValid <==> errors == []
    ensures isValid <==> Complete(config)
  {
    var p0 := Pushed(config.projectType == "", ProjectTypeRequired);
    var p1 := Pushed(config.workType == "", WorkTypeRequired);
    var p2 := Pushed(config.projectName == "", ProjectNameRequired);
    var p3 := Pushed(config.projectDate == "", ProjectDateRequired);
    var p4 := Pushed(config.workType == "client" && config.clientName == "", ClientNameRequired);
    var p5 := Pushed(config.useCameraFolders && |config.cameraAssignments| == 0, CameraAssignmentRequired);
    errors := [];
    if config.projectType == "" {
      errors := errors + [ProjectTypeRequired];
    }
    assert errors == p0;
    if config.workType == "" {
      errors := errors + [WorkTypeRequired];
    }
    assert errors == p0 + p1;
    if config.projectName == "" {
      errors := errors + [ProjectNameRequired];
    }
    assert errors == p0 + p1 + p2;
    if config.projectDate == "" {
      errors := errors + [ProjectDateRequired];
    }
    assert errors == p0 + p1 + p2 + p3;
    if config.workType == "client" && config.clientName == "" {
      errors := errors + [ClientNameRequired];
    }
    assert errors == p0 + p1 + p2 + p3 + p4;
    if config.useCameraFolders && |config.cameraAssignments| == 0 {
      errors := errors + [CameraAssignmentRequired];
    }
    isValid := |errors| == 0;
  }

  // ---------------------------------------------------------------------------
  // ZIP contents
  // ---------------------------------------------------------------------------

  const GitkeepText: string :=
    "# This file maintains the folder structure\n# You can delete this file after adding your own files"

  function FeatureLines(features: seq<string>): seq<string> {
    if features == [] then ["- Standard folder structure"]
    else seq(|features|, i requires 0 <= i < |features| => "- " + features[i])
  }

  /** The lines of the generated README.md (the file ends with a newline, hence the final ""). */
  function ReadmeLines(plan: Plan): seq<string> {
    ReadmeHead(plan.summary) + FeatureLines(plan.summary.features) + ReadmeTail(plan.preview)
  }

  function ReadmeHead(s: Summary): seq<string> {
    ["# " + s.projectName,
     "",
     "## Project Information",
     "- **Type**: " + s.projectType,
     "- **Work Type**: " + s.workType,
     "- **Date**: " + s.projectDate,
     "- **Client**: " + s.clientName,
     "",
     "## Features"]
  }

  function ReadmeTail(preview: string): seq<string> {
    ["",
     "## Folder Structure",
     "",
     "```",
     preview,
     "```",
     "",
     "## Usage Notes",
     "",
     "1. Replace the `.gitkeep` files with your actual project files",
     "2. Maintain the folder structure for consistency",
     "3. Follow your team's naming conventions for files",
     "",
     "---",
     "",
     "Generated by Creative Structure Web App",
     "Visit: [Creative Structure](https://github.com/your-repo/creative-structure-cli)",
     ""]
  }

  function ReadmeContent(plan: Plan): string {
    Join(ReadmeLines(plan), '\n')
  }

  /** The archive's files: a placeholder in every planned folder, in plan order, then README.md. */
  method CreateZipEntries(plan: Plan) returns (entries: seq<ZipEntry>)
    ensures |entries| == |plan.paths| + 1
    ensures forall k :: 0 <= k < |plan.paths| ==>
      entries[k] == ZipEntry(plan.paths[k] + "/.gitkeep", GitkeepText)
    ensures entries[|plan.paths|] == ZipEntry("README.md", ReadmeContent(plan))
  {
    entries := [];
    for i := 0 to |plan.paths|
      invariant |entries| == i
      invariant forall k :: 0 <= k < i ==> entries[k] == ZipEntry(plan.paths[k] + "/.gitkeep", GitkeepText)
    {
      entries := entries + [ZipEntry(plan.paths[i] + "/.gitkeep", GitkeepText)];
    }
    entries := entries + [ZipEntry("README.md", ReadmeContent(plan))];
  }

  // ---------------------------------------------------------------------------
  // Properties of the plan
  // ---------------------------------------------------------------------------

  lemma BranchBaseTypes()
    ensures BaseType("PHOTO") == "photo" && BaseType("VIDEO") == "video"
  {
    assert Lower("PHOTO") == "photo";
    assert Lower("VIDEO")[0] == 'v';
  }

  lemma {:induction false} TemplatePathsAppend(base: string, a: seq<string>, b: seq<string>, config: Config)
    ensures TemplatePaths(base, a + b, config) == TemplatePaths(base, a, config) + TemplatePaths(base, b, config)
    decreases |b|
  {
    if b == [] {
      assert a + b == a;
    } else {
      var b' := b[..|b| - 1];
      assert (a + b)[..|a + b| - 1] == a + b';
      TemplatePathsAppend(base, a, b', config);
    }
  }

  /** A fanning-out folder is immediately followed by one folder per camera assignment, in order. */
  lemma FanOutFollowedByCameras(base: string, folders: seq<string>, k: nat, config: Config)
    requires k < |folders| && IsFanOut(folders[k])
    ensures TemplatePaths(base, folders, config)
         == TemplatePaths(base, folders[..k], config)
            + [base + "/" + folders[k]] + CameraPaths(base + "/" + folders[k], config)
            + TemplatePaths(base, folders[k + 1..], config)
  {
    assert folders == folders[..k] + [folders[k]] + folders[k + 1..];
    TemplatePathsAppend(base, folders[..k] + [folders[k]], folders[k + 1..], config);
    TemplatePathsAppend(base, folders[..k], [folders[k]], config);
    assert [folders[k]][..0] == [];
  }

  /** Without a fanning-out folder, the template maps one to one onto paths, in template order. */
  lemma {:induction false} PlainTemplatePaths(base: string, folders: seq<string>, config: Config)
    requires forall k :: 0 <= k < |folders| ==> !IsFanOut(folders[k])
    ensures TemplatePaths(base, folders, config)
         == seq(|folders|, i requires 0 <= i < |folders| => base + "/" + folders[i])
  {
    if folders != [] {
      PlainTemplatePaths(base, folders[..|folders| - 1], config);
    }
  }

  lemma {:induction false} NoPathUnderProxies(base: string, folders: seq<string>, config: Config)
    requires forall k :: 0 <= k < |folders| ==>
      folders[k] == "Footage/RAW" || (!IsFanOut(folders[k]) && !StartsWith(folders[k], "Footage/Proxies"))
    ensures !AnyStartsWith(TemplatePaths(base, folders, config), base + "/Footage/Proxies")
  {
    if folders != [] {
      var init := folders[..|folders| - 1];
      var f := folders[|folders| - 1];
      NoPathUnderProxies(base, init, config);
      var proxies := base + "/Footage/Proxies";
      var earlier := TemplatePaths(base, init, config);
      var entries := FolderPaths(base, f, config);
      FolderNotUnderProxies(base, f, config);
      var all := TemplatePaths(base, folders, config);
      assert all == earlier + entries;
      forall j | 0 <= j < |all| ensures !StartsWith(all[j], proxies) {
        if j >= |earlier| {
          assert all[j] == entries[j - |earlier|];
        }
      }
    }
  }

  /** A plain folder, or Footage/RAW with its cameras, yields no path under Footage/Proxies. */
  lemma FolderNotUnderProxies(base: string, f: string, config: Config)
    requires f == "Footage/RAW" || (!IsFanOut(f) && !StartsWith(f, "Footage/Proxies"))
    ensures forall j :: 0 <= j < |FolderPaths(base, f, config)| ==>
      !StartsWith(FolderPaths(base, f, config)[j], base + "/Footage/Proxies")
  {
    var proxies := base + "/Footage/Proxies";
    var entries := FolderPaths(base, f, config);
    forall j | 0 <= j < |entries|
      ensures !StartsWith(entries[j], proxies)
    {
      if j == 0 {
        assert proxies == (base + "/") + "Footage/Proxies";
        assert entries[0] == (base + "/") + f;
        StartsWithCancel(base + "/", f, "Footage/Proxies");
      } else {
        RawCameraNotUnderProxies(base, CameraFolder(config.cameraAssignments[j - 1]));
      }
    }
  }

  /** A camera folder under Footage/RAW is not under Footage/Proxies. */
  lemma RawCameraNotUnderProxies(base: string, cam: string)
    ensures !StartsWith(base + "/" + "Footage/RAW" + "/" + cam, base + "/Footage/Proxies")
  {
    var p := base + "/" + "Footage/RAW" + "/" + cam;
    assert p[|base| + 9] == "Footage/RAW"[8] == 'R';
    assert (base + "/Footage/Proxies")[|base| + 9] == 'P';
  }

  /**
   * The photo branch: the template folders one to one, then "Capture One"
   * when requested; never camera folders or proxies.
   */
  lemma PhotoBranchLayout(config: Config, date: DateView)
    ensures var base := BasePath("PHOTO", config, date);
      var folders := Template("photo", config.workType);
      TypePaths("PHOTO", config, date)
        == seq(|folders|, i requires 0 <= i < |folders| => base + "/" + folders[i])
           + (if config.includeCaptureOne then [base + "/Capture One"] else [])
  {
    BranchBaseTypes();
    var base := BasePath("PHOTO", config, date);
    PlainTemplatePaths(base, Template("photo", config.workType), config);
  }

  /**
   * The video branch: its template paths, then the proxies folder and its
   * camera folders when requested. The "already present" guard never fires,
   * since no template path lies under Footage/Proxies.
   */
  lemma VideoBranchLayout(config: Config, date: DateView)
    ensures var base := BasePath("VIDEO", config, date);
      var proxies := base + "/Footage/Proxies";
      TypePaths("VIDEO", config, date)
        == TemplatePaths(base, Template("video", config.workType), config)
           + (if config.includeProxies then [proxies] + CameraPaths(proxies, config) else [])
  {
    BranchBaseTypes();
    var base := BasePath("VIDEO", config, date);
    var folders := Template("video", config.workType);
    forall k | 0 <= k < |folders|
      ensures folders[k] == "Footage/RAW" || (!IsFanOut(folders[k]) && !StartsWith(folders[k], "Footage/Proxies"))
    {
      var f := folders[k];
      if |f| >= 15 {
        assert f[..15][0] == f[0];
      }
    }
    NoPathUnderProxies(base, folders, config);
    assert TemplatePaths(base, folders, config) + [] == TemplatePaths(base, folders, config);
  }

  /** Client video: the camera folders sit right after Footage/RAW, before the remaining template folders. */
  lemma VideoClientTemplateLayout(base: string, config: Config)
    ensures var b := base + "/";
      var raw := b + "Footage/RAW";
      TemplatePaths(base, VideoClientFolders, config)
        == [b + "Footage", raw] + CameraPaths(raw, config)
           + [b + "Edited", b + "Deliverables", b + "Contracts & Briefs", b + "Exports",
              b + "Thumbnail & Graphics", b + "Audio"]
  {
    var folders := VideoClientFolders;
    FanOutFollowedByCameras(base, folders, 1, config);
    VideoClientHead(base, folders[..1], config);
    VideoClientTail(base, folders[2..], config);
  }

  lemma VideoClientHead(base: string, first: seq<string>, config: Config)
    requires first == VideoClientFolders[..1]
    ensures TemplatePaths(base, first, config) == [base + "/" + "Footage"]
  {
    assert first == ["Footage"];
    PlainTemplatePaths(base, first, config);
  }

  lemma VideoClientTail(base: string, rest: seq<string>, config: Config)
    requires rest == VideoClientFolders[2..]
    ensures var b := base + "/";
      TemplatePaths(base, rest, config)
        == [b + "Edited", b + "Deliverables", b + "Contracts & Briefs", b + "Exports",
            b + "Thumbnail & Graphics", b + "Audio"]
  {
    assert rest == ["Edited", "Deliverables", "Contracts & Briefs", "Exports", "Thumbnail & Graphics", "Audio"];
    PlainTemplatePaths(base, rest, config);
  }

  /** Personal video has no Footage/RAW, so its camera assignments appear only under the proxies folder. */
  lemma VideoPersonalTemplateLayout(base: string, config: Config)
    ensures var b := base + "/";
      TemplatePaths(base, VideoPersonalFolders, config) == [b + "Footage", b + "Edited", b + "Exports", b + "Audio"]
  {
    PlainTemplatePaths(base, VideoPersonalFolders, config);
  }

  lemma {:induction false} TemplateUnderBase(base: string, folders: seq<string>, config: Config)
    ensures forall p :: p in TemplatePaths(base, folders, config) ==> StartsWith(p, base + "/")
  {
    if folders != [] {
      var init := folders[..|folders| - 1];
      var f := folders[|folders| - 1];
      TemplateUnderBase(base, init, config);
      var entries := FolderPaths(base, f, config);
      forall j | 0 <= j < |entries| ensures StartsWith(entries[j], base + "/") {
        if j == 0 {
          assert entries[0] == (base + "/") + f;
          StartsWithAppend(base + "/", f);
        } else {
          var cam := CameraFolder(config.cameraAssignments[j - 1]);
          assert entries[j] == (base + "/") + (f + "/" + cam);
          StartsWithAppend(base + "/", f + "/" + cam);
        }
      }
      var head := TemplatePaths(base, init, config);
      var all := TemplatePaths(base, folders, config);
      assert all == head + entries;
      forall k | 0 <= k < |all| ensures StartsWith(all[k], base + "/") {
        if k < |head| {
          assert all[k] == head[k];
        } else {
          assert all[k] == entries[k - |head|];
        }
      }
    }
  }

  lemma OptionalUnderBase(existing: seq<string>, base: string, baseType: string, config: Config)
    ensures forall p :: p in OptionalPaths(existing, base, baseType, config) ==> StartsWith(p, base + "/")
  {
    var capture := if baseType == "photo" && config.includeCaptureOne then [base + "/Capture One"] else [];
    var proxiesPath := base + "/Footage/Proxies";
    var proxies :=
      if baseType == "video" && config.includeProxies && !AnyStartsWith(existing + capture, proxiesPath)
      then [proxiesPath] + CameraPaths(proxiesPath, config)
      else [];
    assert OptionalPaths(existing, base, baseType, config) == capture + proxies;
    if capture != [] {
      StartsWithSlash(base, "/Capture One");
    }
    ProxiesUnderBase(base, config);
  }

  /** The proxies folder and its camera folders lie under the base path. */
  lemma ProxiesUnderBase(base: string, config: Config)
    ensures var proxies := base + "/Footage/Proxies";
      forall p :: p in [proxies] + CameraPaths(proxies, config) ==> StartsWith(p, base + "/")
  {
    var proxies := base + "/Footage/Proxies";
    var cameras := CameraPaths(proxies, config);
    StartsWithSlash(base, "/Footage/Proxies");
    StartsWithAppend(proxies, "/");
    CameraPathsUnder(proxies, config);
    forall j | 0 <= j < |cameras| ensures StartsWith(cameras[j], base + "/") {
      StartsWithTrans(cameras[j], proxies + "/", proxies);
      StartsWithTrans(cameras[j], proxies, base + "/");
    }
  }

  /** Every camera folder lies directly under its parent. */
  lemma CameraPathsUnder(parent: string, config: Config)
    ensures forall j :: 0 <= j < |CameraPaths(parent, config)| ==>
      StartsWith(CameraPaths(parent, config)[j], parent + "/")
  {
    var cameras := CameraPaths(parent, config);
    forall j | 0 <= j < |cameras| ensures StartsWith(cameras[j], parent + "/") {
      StartsWithAppend(parent + "/", CameraFolder(config.cameraAssignments[j]));
    }
  }

  lemma StartsWithSlash(base: string, tail: string)
    requires tail != [] && tail[0] == '/'
    ensures StartsWith(base + tail, base + "/")
  {
    assert (base + tail)[..|base| + 1] == base + "/";
  }

  /** Every path of a branch lies inside the branch's top folder. */
  lemma BranchPathsUnderBranch(branch: string, config: Config, date: DateView)
    ensures forall p :: p in TypePaths(branch, config, date) ==> StartsWith(p, branch + "/")
  {
    var base := BasePath(branch, config, date);
    var baseType := BaseType(branch);
    var templatePaths := TemplatePaths(base, Template(baseType, config.workType), config);
    TemplateUnderBase(base, Template(baseType, config.workType), config);
    OptionalUnderBase(templatePaths, base, baseType, config);
    assert StartsWith(base + "/", branch + "/") by {
      assert (base + "/")[..|branch| + 1] == branch + "/";
    }
    var paths := TypePaths(branch, config, date);
    var optional := OptionalPaths(templatePaths, base, baseType, config);
    assert paths == templatePaths + optional;
    forall k | 0 <= k < |paths| ensures StartsWith(paths[k], branch + "/") {
      if k < |templatePaths| {
        assert paths[k] == templatePaths[k];
        StartsWithTrans(paths[k], base + "/", branch + "/");
      } else {
        assert paths[k] == optional[k - |templatePaths|];
        assert StartsWith(optional[k - |templatePaths|], base + "/");
        StartsWithTrans(paths[k], base + "/", branch + "/");
      }
    }
  }

  /** For "both", the plan is the photo branch followed by the video branch, and no path is in both. */
  lemma BothBranchesDisjoint(config: Config, date: DateView)
    requires config.projectType == "both"
    ensures PlanPaths(GetProjectTypes(config.projectType), config, date)
         == TypePaths("PHOTO", config, date) + TypePaths("VIDEO", config, date)
    ensures forall p, q :: p in TypePaths("PHOTO", config, date) && q in TypePaths("VIDEO", config, date) ==> p != q
  {
    var branches := GetProjectTypes(config.projectType);
    assert branches == ["PHOTO", "VIDEO"];
    assert branches[..1] == ["PHOTO"] && ["PHOTO"][..0] == [];
    assert PlanPaths(["PHOTO"], config, date) == TypePaths("PHOTO", config, date);
    BranchPathsUnderBranch("PHOTO", config, date);
    BranchPathsUnderBranch("VIDEO", config, date);
    forall p, q | p in TypePaths("PHOTO", config, date) && q in TypePaths("VIDEO", config, date)
      ensures p != q
    {
      assert p[0] == 'P' && q[0] == 'V';
    }
  }

  lemma {:induction false} TemplatePathsLength(base: string, folders: seq<string>, config: Config)
    ensures |TemplatePaths(base, folders, config)| >= |folders|
  {
    if folders != [] {
      TemplatePathsLength(base, folders[..|folders| - 1], config);
    }
  }

  /**
   * The plan is empty ("No folders to create") exactly when the work type has
   * no template and no optional folder applies to the chosen branches.
   */
  lemma PlanEmptyIff(config: Config, date: DateView)
    ensures PlanPaths(GetProjectTypes(config.projectType), config, date) == []
      <==> config.workType != "client" && config.workType != "personal"
           && !(config.includeCaptureOne && config.projectType != "video")
           && !(config.includeProxies && (config.projectType == "video" || config.projectType == "both"))
  {
    PhotoBranchLayout(config, date);
    VideoBranchLayout(config, date);
    var base := BasePath("VIDEO", config, date);
    TemplatePathsLength(base, Template("video", config.workType), config);
    var branches := GetProjectTypes(config.projectType);
    if config.projectType == "both" {
      BothBranchesDisjoint(config, date);
    } else {
      assert branches[..0] == [];
    }
  }

  /** The segments of a project folder path: top folder, work folder, client or year, project folder. */
  lemma BasePathSegments(branch: string, config: Config, date: DateView)
    requires '/' !in branch && '/' !in config.clientName && '/' !in config.projectName
    requires '/' !in date.isoDate && '/' !in date.year
    ensures config.workType == "client" && config.clientName != "" ==>
      Split(BasePath(branch, config, date), '/')
        == [branch, "Client Work", config.clientName, date.isoDate + "-" + config.projectName]
    ensures config.workType == "client" && config.clientName == "" ==>
      Split(BasePath(branch, config, date), '/')
        == [branch, "Client Work", date.isoDate + "-" + config.projectName]
    ensures config.workType != "client" ==>
      Split(BasePath(branch, config, date), '/')
        == [branch, "Personal Work", date.year, config.projectName]
  {
    var folder := ProjectFolderName(config, date);
    assert '/' !in folder;
    var base := BasePath(branch, config, date);
    if config.workType == "client" && config.clientName != "" {
      assert base == branch + "/" + "Client Work" + "/" + config.clientName + "/" + folder;
      SegmentsOfFour(branch, "Client Work", config.clientName, folder);
    } else if config.workType == "client" {
      assert base == branch + "/" + "Client Work" + "/" + folder;
      JoinThree(branch, "Client Work", folder);
      SplitJoin([branch, "Client Work", folder], '/');
    } else {
      assert base == branch + "/" + "Personal Work" + "/" + date.year + "/" + folder;
      SegmentsOfFour(branch, "Personal Work", date.year, folder);
    }
  }

  lemma SegmentsOfFour(a: string, b: string, c: string, d: string)
    requires '/' !in a && '/' !in b && '/' !in c && '/' !in d
    ensures Split(a + "/" + b + "/" + c + "/" + d, '/') == [a, b, c, d]
  {
    JoinFour(a, b, c, d);
    SplitJoin([a, b, c, d], '/');
  }

  lemma JoinThree(a: string, b: string, c: string)
    ensures Join([a, b, c], '/') == a + "/" + b + "/" + c
  {
    JoinCons(b, [c], '/');
    assert [b, c] == [b] + [c];
    JoinCons(a, [b, c], '/');
    assert [a, b, c] == [a] + [b, c];
  }

  lemma JoinFour(a: string, b: string, c: string, d: string)
    ensures Join([a, b, c, d], '/') == a + "/" + b + "/" + c + "/" + d
  {
    JoinThree(b, c, d);
    JoinCons(a, [b, c, d], '/');
    assert [a, b, c, d] == [a] + [b, c, d];
  }

  /** The summary lists each optional feature exactly when it is switched on, in a fixed order. */
  lemma SummaryFeatures(config: Config, date: DateView)
    ensures var features := SummaryOf(config, date).features;
      && ("Capture One folder" in features <==> config.includeCaptureOne)
      && ("Proxies folder" in features <==> config.includeProxies)
      && (DecimalString(|config.cameraAssignments|) + " camera setup" in features
          <==> config.useCameraFolders && |config.cameraAssignments| > 0)
      && |features| <= 3
  {
    var table := FeatureTable(config);
    var camera := DecimalString(|config.cameraAssignments|) + " camera setup";
    assert table[0].1[0] == 'C' && table[1].1[0] == 'P' && IsDigit(table[2].1[0]);
    SelectedUnique(table, 0);
    SelectedUnique(table, 1);
    SelectedUnique(table, 2);
  }

  /** Each validation message is reported exactly when its own condition fails. */
  lemma ValidationMessages(config: Config)
    ensures var errors := ValidationErrors(config);
      && (ProjectTypeRequired in errors <==> config.projectType == "")
      && (WorkTypeRequired in errors <==> config.workType == "")
      && (ProjectNameRequired in errors <==> config.projectName == "")
      && (ProjectDateRequired in errors <==> config.projectDate == "")
      && (ClientNameRequired in errors
          <==> config.workType == "client" && config.clientName == "")
      && (CameraAssignmentRequired in errors
          <==> config.useCameraFolders && |config.cameraAssignments| == 0)
  {
    MessagesDistinct();
    SixPushes(config.projectType == "", config.workType == "", config.projectName == "",
              config.projectDate == "", config.workType == "client" && config.clientName == "",
              config.useCameraFolders && |config.cameraAssignments| == 0,
              ProjectTypeRequired, WorkTypeRequired, ProjectNameRequired,
              ProjectDateRequired, ClientNameRequired, CameraAssignmentRequired,
              ValidationErrors(config));
  }

  /** Six checks with six different messages: each message is pushed exactly when its check fails. */
  lemma SixPushes(c0: bool, c1: bool, c2: bool, c3: bool, c4: bool, c5: bool,
                  m0: string, m1: string, m2: string, m3: string, m4: string, m5: string,
                  errors: seq<string>)
    requires m0 != m1 && m0 != m2 && m0 != m3 && m0 != m4 && m0 != m5
    requires m1 != m2 && m1 != m3 && m1 != m4 && m1 != m5
    requires m2 != m3 && m2 != m4 && m2 != m5
    requires m3 != m4 && m3 != m5 && m4 != m5
    requires errors == Pushed(c0, m0) + Pushed(c1, m1) + Pushed(c2, m2) + Pushed(c3, m3)
                       + Pushed(c4, m4) + Pushed(c5, m5)
    ensures m0 in errors <==> c0
    ensures m1 in errors <==> c1
    ensures m2 in errors <==> c2
    ensures m3 in errors <==> c3
    ensures m4 in errors <==> c4
    ensures m5 in errors <==> c5
  {
    var e0 := Pushed(c0, m0);
    var e1 := e0 + Pushed(c1, m1);
    var e2 := e1 + Pushed(c2, m2);
    var e3 := e2 + Pushed(c3, m3);
    var e4 := e3 + Pushed(c4, m4);
    PushedOnly(c0, m0);
    PushedAfter(e0, c1, m1);
    PushedAfter(e1, c2, m2);
    PushedAfter(e2, c3, m3);
    PushedAfter(e3, c4, m4);
    PushedAfter(e4, c5, m5);
  }

  /** The six messages are pairwise different. */
  lemma MessagesDistinct()
    ensures ProjectTypeRequired != WorkTypeRequired && ProjectTypeRequired != ProjectNameRequired
      && ProjectTypeRequired != ProjectDateRequired && ProjectTypeRequired != ClientNameRequired && ProjectTypeRequired != CameraAssignmentRequired
    ensures WorkTypeRequired != ProjectNameRequired && WorkTypeRequired != ProjectDateRequired
      && WorkTypeRequired != ClientNameRequired && WorkTypeRequired != CameraAssignmentRequired
    ensures ProjectNameRequired != ProjectDateRequired && ProjectNameRequired != ClientNameRequired
      && ProjectNameRequired != CameraAssignmentRequired
    ensures ProjectDateRequired != ClientNameRequired && ProjectDateRequired != CameraAssignmentRequired
    ensures ClientNameRequired != CameraAssignmentRequired
  {
    assert ProjectTypeRequired[0] == 'P' && ProjectTypeRequired[8] == 't';
    assert WorkTypeRequired[0] == 'W';
    assert ProjectNameRequired[0] == 'P' && ProjectNameRequired[8] == 'n';
    assert ProjectDateRequired[0] == 'P' && ProjectDateRequired[8] == 'd';
    assert ClientNameRequired[0] == 'C';
    assert |CameraAssignmentRequired| == 68;
  }

  predicate SingleLine(s: string) { '\n' !in s }

  /**
   * When the summary fields and features are single lines, the README opens
   * with the title, the project information and one bullet line per feature
   * (or the standard-structure bullet), in that order.
   */
  lemma ReadmeOpening(plan: Plan)
    requires var s := plan.summary;
      SingleLine(s.projectName) && SingleLine(s.projectType) && SingleLine(s.workType)
      && SingleLine(s.projectDate) && SingleLine(s.clientName)
      && forall k :: 0 <= k < |s.features| ==> SingleLine(s.features[k])
    ensures var lines := Split(ReadmeContent(plan), '\n');
      var front := ReadmeHead(plan.summary) + FeatureLines(plan.summary.features);
      |lines| >= |front| && lines[..|front|] == front
    ensures forall k :: 0 <= k < |plan.summary.features| ==>
      "- " + plan.summary.features[k] in Split(ReadmeContent(plan), '\n')
  {
    var features := plan.summary.features;
    ReadmeHeadSingleLines(plan.summary);
    FeatureLinesSingleLines(features);
    LinesBeforeTail(ReadmeHead(plan.summary), FeatureLines(features), ReadmeTail(plan.preview));
    BulletsListed(features, Split(ReadmeContent(plan), '\n'));
  }

  /** Single-line head and body lines come back first when the joined text is split again. */
  lemma LinesBeforeTail(head: seq<string>, body: seq<string>, tail: seq<string>)
    requires |tail| >= 1
    requires forall k :: 0 <= k < |head| ==> SingleLine(head[k])
    requires forall k :: 0 <= k < |body| ==> SingleLine(body[k])
    ensures var lines := Split(Join(head + body + tail, '\n'), '\n');
      |lines| >= |head + body| && lines[..|head + body|] == head + body
      && forall k :: 0 <= k < |body| ==> body[k] in lines
  {
    var front := head + body;
    forall k | 0 <= k < |front| ensures SingleLine(front[k]) {
      if k < |head| {
        assert front[k] == head[k];
      } else {
        assert front[k] == body[k - |head|];
      }
    }
    SplitJoinPrefix(front, tail, '\n');
    var lines := Split(Join(front + tail, '\n'), '\n');
    assert lines[..|front|] == front;
    forall k | 0 <= k < |body| ensures body[k] in lines {
      assert lines[|head| + k] == front[|head| + k];
    }
  }

  /** Every feature bullet that is a line of the README names its feature. */
  lemma BulletsListed(features: seq<string>, lines: seq<string>)
    requires forall k :: 0 <= k < |FeatureLines(features)| ==> FeatureLines(features)[k] in lines
    ensures forall k :: 0 <= k < |features| ==> "- " + features[k] in lines
  {
    forall k | 0 <= k < |features| ensures "- " + features[k] in lines {
      assert FeatureLines(features)[k] == "- " + features[k];
    }
  }

  lemma FeatureLinesSingleLines(features: seq<string>)
    requires forall k :: 0 <= k < |features| ==> SingleLine(features[k])
    ensures forall k :: 0 <= k < |FeatureLines(features)| ==> SingleLine(FeatureLines(features)[k])
  {
    forall k | 0 <= k < |FeatureLines(features)| ensures SingleLine(FeatureLines(features)[k]) {
      if features != [] {
        assert '\n' !in features[k];
      }
    }
  }

  lemma ReadmeHeadSingleLines(s: Summary)
    requires SingleLine(s.projectName) && SingleLine(s.projectType) && SingleLine(s.workType)
    requires SingleLine(s.projectDate) && SingleLine(s.clientName)
    ensures forall k :: 0 <= k < |ReadmeHead(s)| ==> SingleLine(ReadmeHead(s)[k])
  {
  }
}
