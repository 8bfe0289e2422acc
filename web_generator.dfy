/**
 * The structure generator of the second web application
 * (web/webapp/structure-generator.js).
 *
 * Unlike the first web application it builds one project folder,
 *   Client Work/<client>/<date> <name>   or   Personal Work/<date> <name>,
 * with the photo and video folders side by side in it (under PHOTO/ and
 * VIDEO/ sub-folders when both are chosen), three common folders and a
 * README.txt file. It also renders the plan as an indented tree.
 *
 * The clock and the locale are parameters: `today` is the date part of
 * `new Date().toISOString()` and `displayDate` the en-US long rendering of
 * the project date.
 */
module WebGenerator {
  import opened Wrappers
  import opened Text
  import opened Sorting
  import opened Checks

  /** One camera row of the form; a missing field is "". */
  datatype CameraAssignment = CameraAssignment(name: string, folder: string, role: string)

  /**
   * The project configuration. cameraAssignments is None when the caller
   * leaves it out; the generator treats a present but empty list differently.
   */
  datatype Config = Config(
    projectType: string,
    workType: string,
    projectName: string,
    projectDate: string,
    clientName: string,
    includeCaptureOne: bool,
    includeProxies: bool,
    useCameraFolders: bool,
    cameraAssignments: Option<seq<CameraAssignment>>)

  datatype FileEntry = FileEntry(path: string, content: string)

  /** The display summary; clientName is absent unless the project is client work with a client. */
  datatype Summary = Summary(
    projectName: string,
    projectType: string,
    workType: string,
    projectDate: string,
    clientName: Option<string>)

  // ---------------------------------------------------------------------------
  // Display helpers
  // ---------------------------------------------------------------------------

  const ProjectTypeNames: map<string, string> :=
    map["photo" := "Photography", "video" := "Videography", "both" := "Photo + Video"]

  const WorkTypeNames: map<string, string> :=
    map["client" := "Client Work", "personal" := "Personal Work"]

  const RoleNames: map<string, string> :=
    map["wide" := "Wide Shots", "close" := "Close Ups", "detail" := "Detail Shots",
        "bts" := "Behind the Scenes", "drone" := "Drone Footage", "interview" := "Interview",
        "broll" := "B-Roll"]

  /** A table lookup that falls back to the key itself. */
  function DisplayName(names: map<string, string>, key: string): string {
    if key in names then names[key] else key
  }

  function FormatProjectType(projectType: string): (r: string)
    ensures r == projectType <==> projectType !in ProjectTypeNames
  {
    DisplayName(ProjectTypeNames, projectType)
  }

  function FormatWorkType(workType: string): (r: string)
    ensures r == workType <==> workType !in WorkTypeNames
  {
    DisplayName(WorkTypeNames, workType)
  }

  /** The sub-folder name of a camera role: a known role's name, any other role unchanged. */
  function FormatRoleFolder(role: string): (r: string)
    ensures r == role <==> role !in RoleNames
    ensures role in RoleNames ==> r == RoleNames[role]
  {
    DisplayName(RoleNames, role)
  }

  /** The project date for folder names; an empty date is replaced by today's. */
  function FormatDateForFolder(projectDate: string, today: string): string {
    if projectDate == "" then today else projectDate
  }

  function FormatDateForDisplay(projectDate: string, displayDate: string): string {
    if projectDate == "" then "Not specified" else displayDate
  }

  function SummaryOf(config: Config, displayDate: string): (r: Summary)
    ensures r.clientName.Some? <==> config.workType == "client" && config.clientName != ""
    ensures r.clientName.Some? ==> r.clientName.value == config.clientName
  {
    Summary(
      config.projectName,
      FormatProjectType(config.projectType),
      FormatWorkType(config.workType),
      FormatDateForDisplay(config.projectDate, displayDate),
      if config.workType == "client" && config.clientName != "" then Some(config.clientName) else None)
  }

  // ---------------------------------------------------------------------------
  // The planned folders
  // ---------------------------------------------------------------------------

  function ProjectFolderName(config: Config, today: string): string {
    FormatDateForFolder(config.projectDate, today) + " " + config.projectName
  }

  /** The project folder: under the client's folder for client work, under Personal Work otherwise. */
  function ProjectBase(config: Config, today: string): string {
    if config.workType == "client" then
      "Client Work/" + (if config.clientName != "" then config.clientName else "Client Name")
      + "/" + ProjectFolderName(config, today)
    else
      "Personal Work/" + ProjectFolderName(config, today)
  }

  predicate WantsPhoto(config: Config) { config.projectType == "photo" || config.projectType == "both" }

  predicate WantsVideo(config: Config) { config.projectType == "video" || config.projectType == "both" }

  /** The folder that holds one medium's folders: a PHOTO or VIDEO sub-folder only for "both". */
  function MediumBase(base: string, config: Config, medium: string): string {
    if config.projectType == "both" then base + "/" + medium else base
  }

  const PhotoFolderNames: seq<string> :=
    ["RAW Images", "RAW Images/Camera 1", "Edited Images", "Edited Images/High Res",
     "Edited Images/Web Res", "Delivered Images", "Client Selects", "Behind the Scenes"]

  const VideoFolderNames: seq<string> :=
    ["RAW Footage", "Edited Footage", "Delivered Videos", "Project Files", "Audio Files",
     "Graphics & Assets", "Behind the Scenes"]

  const CommonFolderNames: seq<string> :=
    ["Client Communication", "Contracts & Invoices", "Reference & Inspiration"]

  /** The named folders inside `parent`, in table order. */
  function Under(parent: string, names: seq<string>): (r: seq<string>)
    ensures |r| == |names|
    ensures forall i :: 0 <= i < |names| ==> r[i] == parent + "/" + names[i]
  {
    seq(|names|, i requires 0 <= i < |names| => parent + "/" + names[i])
  }

  function PhotoFolders(base: string, config: Config): seq<string> {
    var pb := MediumBase(base, config, "PHOTO");
    Under(pb, PhotoFolderNames) + (if config.includeCaptureOne then [pb + "/Capture One Catalog"] else [])
  }

  /** A camera row's folder name; an empty one becomes "Camera <position>", counting from 1. */
  function CameraFolderName(a: CameraAssignment, index: nat): string {
    if a.folder != "" then a.folder else "Camera " + DecimalString(index + 1)
  }

  predicate HasRoleFolder(a: CameraAssignment) { a.role != "" && a.role != "main" }

  function CameraEntry(vb: string, a: CameraAssignment, index: nat): seq<string> {
    var cameraPath := vb + "/RAW Footage/" + CameraFolderName(a, index);
    [cameraPath] + (if HasRoleFolder(a) then [cameraPath + "/" + FormatRoleFolder(a.role)] else [])
  }

  function CameraFolders(vb: string, assignments: seq<CameraAssignment>): seq<string> {
    if assignments == [] then []
    else
      var n := |assignments| - 1;
      CameraFolders(vb, assignments[..n]) + CameraEntry(vb, assignments[n], n)
  }

  /** The camera part of the video folders: per-camera folders, or one default camera folder. */
  function VideoCameraFolders(vb: string, config: Config): seq<string> {
    if config.useCameraFolders && config.cameraAssignments.Some? then
      CameraFolders(vb, config.cameraAssignments.value)
    else
      [vb + "/RAW Footage/Camera 1"]
  }

  function VideoFolders(base: string, config: Config): seq<string> {
    var vb := MediumBase(base, config, "VIDEO");
    Under(vb, VideoFolderNames)
    + (if config.includeProxies then [vb + "/Proxies"] else [])
    + VideoCameraFolders(vb, config)
  }

  function CommonFolders(base: string): seq<string> {
    Under(base, CommonFolderNames)
  }

  /** Every folder of the project, in the order the generator pushes them. */
  function ProjectFolders(base: string, config: Config): seq<string> {
    PhotoPart(base, config) + VideoPart(base, config) + CommonFolders(base)
  }

  function PhotoPart(base: string, config: Config): seq<string> {
    if WantsPhoto(config) then PhotoFolders(base, config) else []
  }

  function VideoPart(base: string, config: Config): seq<string> {
    if WantsVideo(config) then VideoFolders(base, config) else []
  }

  function ReadmeLines(config: Config): seq<string> {
    ReadmeHead(config) + ["Generated by Creative Structure", "https://creative-structure.vercel.app/"]
  }

  /** The README lines up to the blank line before the footer. */
  function ReadmeHead(config: Config): seq<string> {
    ["Project: " + config.projectName,
     "Date: " + config.projectDate,
     "Type: " + Upper(config.projectType),
     "Work Type: " + (if config.workType == "client" then "Client Work" else "Personal Work")]
    + (if config.workType == "client" && config.clientName != "" then ["Client: " + config.clientName] else [])
    + [""]
  }

  function ReadmeContent(config: Config): string {
    Join(ReadmeLines(config), '\n')
  }

  function ReadmeFile(base: string, config: Config): FileEntry {
    FileEntry(base + "/README.txt", ReadmeContent(config))
  }

  // ---------------------------------------------------------------------------
  // The generator
  // ---------------------------------------------------------------------------

  /** The `structure` object: its folder and file lists grow as the helpers push into them. */
  class Structure {
    var folders: seq<string>
    var files: seq<FileEntry>
    var summary: Summary

    constructor (summary: Summary)
      ensures folders == [] && files == [] && this.summary == summary
    {
      folders := [];
      files := [];
      this.summary := summary;
    }
  }

  method AddPhotoFolders(structure: Structure, base: string, config: Config)
    modifies structure
    ensures structure.folders == old(structure.folders) + PhotoFolders(base, config)
    ensures structure.files == old(structure.files) && structure.summary == old(structure.summary)
  {
    var pb := MediumBase(base, config, "PHOTO");
    structure.folders := structure.folders + Under(pb, PhotoFolderNames);
    if config.includeCaptureOne {
      structure.folders := structure.folders + [pb + "/Capture One Catalog"];
    }
  }

  method AddCameraFolders(structure: Structure, vb: string, assignments: seq<CameraAssignment>)
    modifies structure
    ensures structure.folders == old(structure.folders) + CameraFolders(vb, assignments)
    ensures structure.files == old(structure.files) && structure.summary == old(structure.summary)
  {
    for index := 0 to |assignments|
      invariant structure.folders == old(structure.folders) + CameraFolders(vb, assignments[..index])
      invariant structure.files == old(structure.files) && structure.summary == old(structure.summary)
    {
      var assignment := assignments[index];
      var cameraFolder := if assignment.folder != "" then assignment.folder else "Camera " + DecimalString(index + 1);
      structure.folders := structure.folders + [vb + "/RAW Footage/" + cameraFolder];
      if assignment.role != "" && assignment.role != "main" {
        var roleFolder := FormatRoleFolder(assignment.role);
        structure.folders := structure.folders + [vb + "/RAW Footage/" + cameraFolder + "/" + roleFolder];
      }
      assert assignments[..index + 1][..index] == assignments[..index];
    }
    assert assignments[..|assignments|] == assignments;
  }

  method AddVideoFolders(structure: Structure, base: string, config: Config)
    modifies structure
    ensures structure.folders == old(structure.folders) + VideoFolders(base, config)
    ensures structure.files == old(structure.files) && structure.summary == old(structure.summary)
  {
    var vb := MediumBase(base, config, "VIDEO");
    ghost var initial := structure.folders;
    ghost var listed := Under(vb, VideoFolderNames);
    ghost var proxies := if config.includeProxies then [vb + "/Proxies"] else [];
    ghost var cameras := VideoCameraFolders(vb, config);
    assert VideoFolders(base, config) == listed + proxies + cameras;
    structure.folders := structure.folders + Under(vb, VideoFolderNames);
    if config.includeProxies {
      structure.folders := structure.folders + [vb + "/Proxies"];
    }
    assert structure.folders == initial + listed + proxies;
    AddVideoCameraFolders(structure, vb, config);
  }

  /** The camera step of addVideoFolders: the per-camera folders, or one default camera folder. */
  method AddVideoCameraFolders(structure: Structure, vb: string, config: Config)
    modifies structure
    ensures structure.folders == old(structure.folders) + VideoCameraFolders(vb, config)
    ensures structure.files == old(structure.files) && structure.summary == old(structure.summary)
  {
    if config.useCameraFolders && config.cameraAssignments.Some? {
      AddCameraFolders(structure, vb, config.cameraAssignments.value);
    } else {
      structure.folders := structure.folders + [vb + "/RAW Footage/Camera 1"];
    }
  }

  method AddCommonFolders(structure: Structure, base: string, config: Config)
    modifies structure
    ensures structure.folders == old(structure.folders) + CommonFolders(base)
    ensures structure.files == old(structure.files) + [ReadmeFile(base, config)]
    ensures structure.summary == old(structure.summary)
  {
    structure.folders := structure.folders + Under(base, CommonFolderNames);
    structure.files := structure.files + [FileEntry(base + "/README.txt", ReadmeContent(config))];
  }

  /** The folders of one project folder: photo, video, then the common folders and README. */
  method AddProjectFolders(structure: Structure, base: string, config: Config)
    modifies structure
    ensures structure.folders == old(structure.folders) + ProjectFolders(base, config)
    ensures structure.files == old(structure.files) + [ReadmeFile(base, config)]
    ensures structure.summary == old(structure.summary)
  {
    ghost var initial := structure.folders;
    ghost var photo := PhotoPart(base, config);
    ghost var video := VideoPart(base, config);
    if config.projectType == "photo" || config.projectType == "both" {
      AddPhotoFolders(structure, base, config);
    }
    assert structure.folders == initial + photo;
    if config.projectType == "video" || config.projectType == "both" {
      AddVideoFolders(structure, base, config);
    }
    assert structure.folders == initial + photo + video;
    AddCommonFolders(structure, base, config);
    ConcatAssoc(initial, photo, video);
    ConcatAssoc(initial, photo + video, CommonFolders(base));
  }

  method GenerateClientStructure(structure: Structure, config: Config, today: string)
    requires config.workType == "client"
    modifies structure
    ensures structure.folders == old(structure.folders) + ProjectFolders(ProjectBase(config, today), config)
    ensures structure.files == old(structure.files) + [ReadmeFile(ProjectBase(config, today), config)]
    ensures structure.summary == old(structure.summary)
  {
    var clientName := if config.clientName != "" then config.clientName else "Client Name";
    var formattedDate := FormatDateForFolder(config.projectDate, today);
    var projectFolderName := formattedDate + " " + config.projectName;
    var base := "Client Work/" + clientName + "/" + projectFolderName;
    AddProjectFolders(structure, base, config);
  }

  method GeneratePersonalStructure(structure: Structure, config: Config, today: string)
    requires config.workType != "client"
    modifies structure
    ensures structure.folders == old(structure.folders) + ProjectFolders(ProjectBase(config, today), config)
    ensures structure.files == old(structure.files) + [ReadmeFile(ProjectBase(config, today), config)]
    ensures structure.summary == old(structure.summary)
  {
    var formattedDate := FormatDateForFolder(config.projectDate, today);
    var projectFolderName := formattedDate + " " + config.projectName;
    var base := "Personal Work/" + projectFolderName;
    AddProjectFolders(structure, base, config);
  }

  /** The generated structure: every planned folder, the README file and the summary. */
  method GenerateStructure(config: Config, today: string, displayDate: string) returns (structure: Structure)
    ensures fresh(structure)
    ensures structure.folders == ProjectFolders(ProjectBase(config, today), config)
    ensures structure.files == [ReadmeFile(ProjectBase(config, today), config)]
    ensures structure.summary == SummaryOf(config, displayDate)
  {
    structure := new Structure(SummaryOf(config, displayDate));
    if config.workType == "client" {
      GenerateClientStructure(structure, config, today);
    } else {
      GeneratePersonalStructure(structure, config, today);
    }
  }

  // ---------------------------------------------------------------------------
  // Validation
  // ---------------------------------------------------------------------------

  /** The messages validateConfig pushes. */
  const ProjectTypeInvalid: string := "Valid project type is required"
  const WorkTypeInvalid: string := "Valid work type is required"
  const ProjectNameRequired: string := "Project name is required"
  const ProjectDateRequired: string := "Project date is required"
  const ClientNameRequired: string := "Client name is required for client work"

  /** The messages validateConfig reports: each failed check pushes its own, in check order. */
  function ValidationErrors(config: Config): (r: seq<string>)
    ensures |r| <= 5
  {
    Pushed(config.projectType == "" || config.projectType !in ProjectTypeNames, ProjectTypeInvalid)
    + Pushed(config.workType == "" || config.workType !in WorkTypeNames, WorkTypeInvalid)
    + Pushed(config.projectName == "" || Trim(config.projectName) == "", ProjectNameRequired)
    + Pushed(config.projectDate == "", ProjectDateRequired)
    + Pushed(config.workType == "client" && (config.clientName == "" || Trim(config.clientName) == ""),
             ClientNameRequired)
  }

  lemma NameTableKeys()
    ensures forall t :: t in ProjectTypeNames <==> t == "photo" || t == "video" || t == "both"
    ensures forall t :: t in WorkTypeNames <==> t == "client" || t == "personal"
  {
  }

  /** A configuration validateConfig accepts: a known project type and work type, and the required texts. */
  predicate Complete(config: Config) {
    config.projectType in ProjectTypeNames
    && config.workType in WorkTypeNames
    && !AllWhitespace(config.projectName)
    && config.projectDate != ""
    && (config.workType == "client" ==> !AllWhitespace(config.clientName))
  }

  lemma ValidationEmptyIffComplete(config: Config)
    ensures ValidationErrors(config) == [] <==> Complete(config)
  {
    assert Trim(config.projectName) == "" <==> AllWhitespace(config.projectName);
    assert Trim(config.clientName) == "" <==> AllWhitespace(config.clientName);
  }

  /** The validation result: every failed check's message, in check order. */
  method ValidateConfig(config: Config) returns (isValid: bool, errors: seq<string>)
    ensures errors == ValidationErrors(config)
    ensures isValid <==> Complete(config)
  {
    ghost var p0 := Pushed(config.projectType == "" || config.projectType !in ProjectTypeNames, ProjectTypeInvalid);
    ghost var p1 := Pushed(config.workType == "" || config.workType !in WorkTypeNames, WorkTypeInvalid);
    ghost var p2 := Pushed(config.projectName == "" || Trim(config.projectName) == "", ProjectNameRequired);
    ghost var p3 := Pushed(config.projectDate == "", ProjectDateRequired);
    errors := [];
    if config.projectType == "" || config.projectType !in ProjectTypeNames {
      errors := errors + [ProjectTypeInvalid];
    }
    assert errors == p0;
    if config.workType == "" || config.workType !in WorkTypeNames {
      errors := errors + [WorkTypeInvalid];
    }
    assert errors == p0 + p1;
    if config.projectName == "" || Trim(config.projectName) == "" {
      errors := errors + [ProjectNameRequired];
    }
    assert errors == p0 + p1 + p2;
    if config.projectDate == "" {
      errors := errors + [ProjectDateRequired];
    }
    assert errors == p0 + p1 + p2 + p3;
    if config.workType == "client" && (config.clientName == "" || Trim(config.clientName) == "") {
      errors := errors + [ClientNameRequired];
    }
    ValidationEmptyIffComplete(config);
    isValid := |errors| == 0;
  }

  // ---------------------------------------------------------------------------
  // The folder tree text
  // ---------------------------------------------------------------------------

  /** The icons as the source file spells them (UTF-8 emoji bytes read as Windows-1252 text). */
  const LeafIcon: string := "\U{F0}\U{178}\U{201C}"
  const BranchIcon: string := "\U{F0}\U{178}\U{201C}\U{201A}"
  const FileIcon: string := "\U{F0}\U{178}\U{201C}\U{201E}"

  /** Two spaces per level. */
  function Indent(level: nat): (r: string)
    ensures |r| == 2 * level && forall i :: 0 <= i < |r| ==> r[i] == ' '
  {
    if level == 0 then "" else Indent(level - 1) + "  "
  }

  /** The running path: the first non-empty text is used bare, later parts are joined with '/'. */
  function Extend(current: string, part: string): string {
    if current != "" then current + "/" + part else part
  }

  /** The running path after the first k parts of a folder. */
  function PathPrefix(parts: seq<string>, k: nat): string
    requires k <= |parts|
  {
    if k == 0 then "" else Extend(PathPrefix(parts, k - 1), parts[k - 1])
  }

  function FolderLine(parts: seq<string>, index: nat): string
    requires index < |parts|
  {
    Indent(index) + (if index == |parts| - 1 then LeafIcon else BranchIcon) + " " + parts[index]
  }

  /** The tree lines so far and the running paths already printed. */
  datatype Walk = Walk(lines: seq<string>, seen: set<string>)

  /** Visiting the first k parts of one folder: a line for every running path not yet printed. */
  function PartsWalk(parts: seq<string>, k: nat, start: Walk): Walk
    requires k <= |parts|
  {
    if k == 0 then start
    else
      var before := PartsWalk(parts, k - 1, start);
      var path := PathPrefix(parts, k);
      if path in before.seen then before
      else Walk(before.lines + [FolderLine(parts, k - 1)], before.seen + {path})
  }

  /** Visiting the folders in the given order. */
  function FoldersWalk(folders: seq<string>): Walk {
    if folders == [] then Walk([], {})
    else
      var parts := Split(folders[|folders| - 1], '/');
      PartsWalk(parts, |parts|, FoldersWalk(folders[..|folders| - 1]))
  }

  function FileLine(file: FileEntry): string {
    var parts := Split(file.path, '/');
    Indent(|parts| - 1) + FileIcon + " " + parts[|parts| - 1]
  }

  function FileLines(files: seq<FileEntry>): seq<string> {
    seq(|files|, i requires 0 <= i < |files| => FileLine(files[i]))
  }

  /** The tree text: the folders in sorted order, each running path once, then one line per file. */
  function FolderTree(folders: seq<string>, files: seq<FileEntry>): string {
    Join(FoldersWalk(SortStrings(folders)).lines + FileLines(files), '\n')
  }

  method GenerateFolderTree(structure: Structure) returns (text: string)
    ensures text == FolderTree(structure.folders, structure.files)
  {
    var folders := SortStrings(structure.folders);
    var tree: seq<string> := [];
    var processedPaths: set<string> := {};

    for i := 0 to |folders|
      invariant Walk(tree, processedPaths) == FoldersWalk(folders[..i])
    {
      var parts := Split(folders[i], '/');
      tree, processedPaths := AddFolderParts(parts, tree, processedPaths);
      assert folders[..i + 1][..i] == folders[..i];
    }
    assert folders[..|folders|] == folders;

    tree := AddFileLines(tree, structure.files);
    text := Join(tree, '\n');
  }

  /** The inner loop of generateFolderTree: a line for each running path of one folder not yet printed. */
  method AddFolderParts(parts: seq<string>, lines: seq<string>, seen: set<string>)
    returns (tree: seq<string>, processedPaths: set<string>)
    ensures Walk(tree, processedPaths) == PartsWalk(parts, |parts|, Walk(lines, seen))
  {
    tree, processedPaths := lines, seen;
    var currentPath := "";
    for index := 0 to |parts|
      invariant currentPath == PathPrefix(parts, index)
      invariant Walk(tree, processedPaths) == PartsWalk(parts, index, Walk(lines, seen))
    {
      currentPath := if currentPath != "" then currentPath + "/" + parts[index] else parts[index];
      if currentPath !in processedPaths {
        var indent := Indent(index);
        var icon := if index == |parts| - 1 then LeafIcon else BranchIcon;
        tree := tree + [indent + icon + " " + parts[index]];
        processedPaths := processedPaths + {currentPath};
      }
    }
  }

  /** The file loop of generateFolderTree: one line per file, in file order. */
  method AddFileLines(folderLines: seq<string>, files: seq<FileEntry>) returns (tree: seq<string>)
    ensures tree == folderLines + FileLines(files)
  {
    tree := folderLines;
    for j := 0 to |files|
      invariant tree == folderLines + FileLines(files[..j])
    {
      var parts := Split(files[j].path, '/');
      var fileName := parts[|parts| - 1];
      var indent := Indent(|parts| - 1);
      tree := tree + [indent + FileIcon + " " + fileName];
      FileLinesSnoc(files, j);
      ConcatAssoc(folderLines, FileLines(files[..j]), [FileLine(files[j])]);
    }
    assert files[..|files|] == files;
  }

  lemma FileLinesSnoc(files: seq<FileEntry>, j: nat)
    requires j < |files|
    ensures FileLines(files[..j + 1]) == FileLines(files[..j]) + [FileLine(files[j])]
  {
  }

  // ---------------------------------------------------------------------------
  // Properties
  // ---------------------------------------------------------------------------

  lemma UnderIsUnder(parent: string, names: seq<string>)
    ensures forall f :: f in Under(parent, names) ==> StartsWith(f, parent + "/")
  {
    forall f | f in Under(parent, names) ensures StartsWith(f, parent + "/") {
      var i :| 0 <= i < |names| && Under(parent, names)[i] == f;
      StartsWithAppend(parent + "/", names[i]);
    }
  }

  lemma {:induction false} CameraFoldersUnderRawFootage(vb: string, assignments: seq<CameraAssignment>)
    ensures forall f :: f in CameraFolders(vb, assignments) ==> StartsWith(f, vb + "/RAW Footage/")
  {
    if assignments != [] {
      var n := |assignments| - 1;
      CameraFoldersUnderRawFootage(vb, assignments[..n]);
      var cameraPath := vb + "/RAW Footage/" + CameraFolderName(assignments[n], n);
      StartsWithAppend(vb + "/RAW Footage/", CameraFolderName(assignments[n], n));
      if HasRoleFolder(assignments[n]) {
        var rolePath := cameraPath + "/" + FormatRoleFolder(assignments[n].role);
        assert rolePath == (vb + "/RAW Footage/") + (CameraFolderName(assignments[n], n) + "/" + FormatRoleFolder(assignments[n].role));
        StartsWithAppend(vb + "/RAW Footage/", CameraFolderName(assignments[n], n) + "/" + FormatRoleFolder(assignments[n].role));
      }
    }
  }

  /**
   * Every camera row gets a folder under RAW Footage named by its folder
   * field, or "Camera <position>" when that is empty, followed by a role
   * sub-folder exactly when it has a role other than "main".
   */
  lemma {:induction false} CameraFolderPerAssignment(vb: string, assignments: seq<CameraAssignment>, i: nat)
    requires i < |assignments|
    ensures var cameraPath := vb + "/RAW Footage/" + CameraFolderName(assignments[i], i);
      && cameraPath in CameraFolders(vb, assignments)
      && (HasRoleFolder(assignments[i]) ==>
            cameraPath + "/" + FormatRoleFolder(assignments[i].role) in CameraFolders(vb, assignments))
    decreases |assignments|
  {
    var n := |assignments| - 1;
    if i < n {
      CameraFolderPerAssignment(vb, assignments[..n], i);
    }
  }

  /**
   * Each camera row contributes one or two folders, so an empty camera list
   * (present but with no rows) contributes none; the default "Camera 1"
   * folder appears only when camera folders are off or no list was given.
   */
  lemma {:induction false} CameraFoldersSize(vb: string, assignments: seq<CameraAssignment>)
    ensures |assignments| <= |CameraFolders(vb, assignments)| <= 2 * |assignments|
    ensures CameraFolders(vb, assignments) == [] <==> assignments == []
  {
    if assignments != [] {
      CameraFoldersSize(vb, assignments[..|assignments| - 1]);
    }
  }

  /** The video folders' camera part is built only from RAW Footage sub-folders. */
  lemma VideoCameraFoldersUnderRawFootage(vb: string, config: Config)
    ensures forall f :: f in VideoCameraFolders(vb, config) ==> StartsWith(f, vb + "/RAW Footage/")
  {
    if config.useCameraFolders && config.cameraAssignments.Some? {
      CameraFoldersUnderRawFootage(vb, config.cameraAssignments.value);
    } else {
      StartsWithAppend(vb + "/RAW Footage/", "Camera 1");
    }
  }

  lemma PhotoFoldersUnder(base: string, config: Config)
    ensures forall f :: f in PhotoFolders(base, config) ==> StartsWith(f, MediumBase(base, config, "PHOTO") + "/")
  {
    var pb := MediumBase(base, config, "PHOTO");
    UnderIsUnder(pb, PhotoFolderNames);
    StartsWithAppend(pb + "/", "Capture One Catalog");
  }

  lemma VideoFoldersUnder(base: string, config: Config)
    ensures forall f :: f in VideoFolders(base, config) ==> StartsWith(f, MediumBase(base, config, "VIDEO") + "/")
  {
    var vb := MediumBase(base, config, "VIDEO");
    UnderIsUnder(vb, VideoFolderNames);
    StartsWithAppend(vb + "/", "Proxies");
    VideoCameraFoldersUnderRawFootage(vb, config);
    forall f | f in VideoCameraFolders(vb, config) ensures StartsWith(f, vb + "/") {
      assert StartsWith(vb + "/RAW Footage/", vb + "/");
      StartsWithTrans(f, vb + "/RAW Footage/", vb + "/");
    }
  }

  /**
   * For "both" the photo folders all lie under PHOTO/ and the video folders
   * under VIDEO/, so the two media never share a folder; otherwise a
   * medium's folders sit directly in the project folder.
   */
  lemma BothKeepsMediaApart(base: string, config: Config)
    requires config.projectType == "both"
    ensures forall f :: f in PhotoFolders(base, config) ==> StartsWith(f, base + "/PHOTO/")
    ensures forall f :: f in VideoFolders(base, config) ==> StartsWith(f, base + "/VIDEO/")
    ensures forall f, g :: f in PhotoFolders(base, config) && g in VideoFolders(base, config) ==> f != g
  {
    PhotoFoldersUnder(base, config);
    VideoFoldersUnder(base, config);
    forall f, g | f in PhotoFolders(base, config) && g in VideoFolders(base, config) ensures f != g {
      assert f[|base| + 1] == (base + "/PHOTO/")[|base| + 1] == 'P';
      assert g[|base| + 1] == (base + "/VIDEO/")[|base| + 1] == 'V';
    }
  }

  /** Every planned folder lies inside the project folder. */
  lemma FoldersUnderProjectFolder(config: Config, today: string)
    ensures var base := ProjectBase(config, today);
      forall f :: f in ProjectFolders(base, config) ==> StartsWith(f, base + "/")
  {
    var base := ProjectBase(config, today);
    PhotoFoldersUnder(base, config);
    VideoFoldersUnder(base, config);
    UnderIsUnder(base, CommonFolderNames);
    assert StartsWith(MediumBase(base, config, "PHOTO") + "/", base + "/");
    assert StartsWith(MediumBase(base, config, "VIDEO") + "/", base + "/");
    forall f | f in ProjectFolders(base, config) ensures StartsWith(f, base + "/") {
      if f in PhotoPart(base, config) {
        StartsWithTrans(f, MediumBase(base, config, "PHOTO") + "/", base + "/");
      } else if f in VideoPart(base, config) {
        StartsWithTrans(f, MediumBase(base, config, "VIDEO") + "/", base + "/");
      }
    }
  }

  /** The five messages are pairwise different. */
  lemma MessagesDistinct()
    ensures ProjectTypeInvalid != WorkTypeInvalid && ProjectTypeInvalid != ProjectNameRequired
      && ProjectTypeInvalid != ProjectDateRequired && ProjectTypeInvalid != ClientNameRequired
    ensures WorkTypeInvalid != ProjectNameRequired && WorkTypeInvalid != ProjectDateRequired
      && WorkTypeInvalid != ClientNameRequired
    ensures ProjectNameRequired != ProjectDateRequired && ProjectNameRequired != ClientNameRequired
    ensures ProjectDateRequired != ClientNameRequired
  {
    assert |ProjectTypeInvalid| == 30 && |WorkTypeInvalid| == 27 && |ClientNameRequired| == 39;
    assert ProjectNameRequired[8] == 'n' && ProjectDateRequired[8] == 'd';
  }

  /** Five checks with five different messages: each message is pushed exactly when its check fails. */
  lemma FivePushes(c0: bool, c1: bool, c2: bool, c3: bool, c4: bool,
                   m0: string, m1: string, m2: string, m3: string, m4: string,
                   errors: seq<string>)
    requires m0 != m1 && m0 != m2 && m0 != m3 && m0 != m4
    requires m1 != m2 && m1 != m3 && m1 != m4
    requires m2 != m3 && m2 != m4 && m3 != m4
    requires errors == Pushed(c0, m0) + Pushed(c1, m1) + Pushed(c2, m2) + Pushed(c3, m3) + Pushed(c4, m4)
    ensures m0 in errors <==> c0
    ensures m1 in errors <==> c1
    ensures m2 in errors <==> c2
    ensures m3 in errors <==> c3
    ensures m4 in errors <==> c4
  {
    var e0 := Pushed(c0, m0);
    var e1 := e0 + Pushed(c1, m1);
    var e2 := e1 + Pushed(c2, m2);
    var e3 := e2 + Pushed(c3, m3);
    PushedOnly(c0, m0);
    PushedAfter(e0, c1, m1);
    PushedAfter(e1, c2, m2);
    PushedAfter(e2, c3, m3);
    PushedAfter(e3, c4, m4);
  }

  /** Each validation message is reported exactly when its own check fails. */
  lemma ValidationMessages(config: Config)
    ensures ProjectTypeInvalid in ValidationErrors(config) <==> config.projectType !in ProjectTypeNames
    ensures WorkTypeInvalid in ValidationErrors(config) <==> config.workType !in WorkTypeNames
    ensures ProjectNameRequired in ValidationErrors(config) <==> AllWhitespace(config.projectName)
    ensures ProjectDateRequired in ValidationErrors(config) <==> config.projectDate == ""
    ensures ClientNameRequired in ValidationErrors(config)
      <==> config.workType == "client" && AllWhitespace(config.clientName)
  {
    MessagesDistinct();
    FivePushes(config.projectType == "" || config.projectType !in ProjectTypeNames,
               config.workType == "" || config.workType !in WorkTypeNames,
               config.projectName == "" || Trim(config.projectName) == "",
               config.projectDate == "",
               config.workType == "client" && (config.clientName == "" || Trim(config.clientName) == ""),
               ProjectTypeInvalid, WorkTypeInvalid, ProjectNameRequired, ProjectDateRequired, ClientNameRequired,
               ValidationErrors(config));
    assert Trim(config.projectName) == "" <==> AllWhitespace(config.projectName);
    assert Trim(config.clientName) == "" <==> AllWhitespace(config.clientName);
  }

  /**
   * When the name, date, type and client are single lines, the README's
   * fifth line names the client for client work with a client, and is the
   * blank separator line otherwise.
   */
  lemma ReadmeClientLine(config: Config)
    requires '\n' !in config.projectName && '\n' !in config.projectDate
    requires '\n' !in config.projectType && '\n' !in config.clientName
    ensures var lines := Split(ReadmeContent(config), '\n');
      && |lines| >= 5
      && lines[..4] == ReadmeHead(config)[..4]
      && (config.workType == "client" && config.clientName != "" ==> lines[4] == "Client: " + config.clientName)
      && (!(config.workType == "client" && config.clientName != "") ==> lines[4] == "")
  {
    var head := ReadmeHead(config);
    var footer := ["Generated by Creative Structure", "https://creative-structure.vercel.app/"];
    ReadmeHeadSingleLines(config);
    SplitJoinPrefix(head, footer, '\n');
    var lines := Split(ReadmeContent(config), '\n');
    assert lines == head + Split(Join(footer, '\n'), '\n');
    assert lines[..4] == head[..4];
    assert lines[4] == head[4];
  }

  lemma ReadmeHeadSingleLines(config: Config)
    requires '\n' !in config.projectName && '\n' !in config.projectDate
    requires '\n' !in config.projectType && '\n' !in config.clientName
    ensures forall k :: 0 <= k < |ReadmeHead(config)| ==> '\n' !in ReadmeHead(config)[k]
  {
    var t := Upper(config.projectType);
    assert '\n' !in t by {
      forall i | 0 <= i < |t| ensures t[i] != '\n' {
        assert config.projectType[i] != '\n';
      }
    }
    NoBreakAfter("Project: ", config.projectName);
    NoBreakAfter("Date: ", config.projectDate);
    NoBreakAfter("Type: ", t);
    NoBreakAfter("Client: ", config.clientName);
  }

  lemma NoBreakAfter(prefix: string, s: string)
    requires '\n' !in prefix && '\n' !in s
    ensures '\n' !in prefix + s
  {
  }

  // The folder tree prints every running path exactly once.

  /** The running paths of one folder's first k parts. */
  function PrefixSet(parts: seq<string>, k: nat): set<string>
    requires k <= |parts|
  {
    set j | 1 <= j <= k :: PathPrefix(parts, j)
  }

  /** Every running path of every folder: the paths the tree has one line for. */
  function AncestorPaths(folders: seq<string>): set<string> {
    if folders == [] then {}
    else
      var parts := Split(folders[|folders| - 1], '/');
      AncestorPaths(folders[..|folders| - 1]) + PrefixSet(parts, |parts|)
  }

  /** p is the path of one of folder f's first parts. */
  predicate RunningPathOf(f: string, p: string) {
    exists j :: 1 <= j <= |Split(f, '/')| && p == PathPrefix(Split(f, '/'), j)
  }

  lemma PrefixSetMembers(f: string, p: string)
    ensures p in PrefixSet(Split(f, '/'), |Split(f, '/')|) <==> RunningPathOf(f, p)
  {
  }

  /** A path is an ancestor path exactly when it is a running path of one of the folders. */
  lemma {:induction false} AncestorPathsMembers(folders: seq<string>, p: string)
    ensures p in AncestorPaths(folders) <==> exists f :: f in folders && RunningPathOf(f, p)
  {
    if folders != [] {
      var init := folders[..|folders| - 1];
      var last := folders[|folders| - 1];
      AncestorPathsMembers(init, p);
      PrefixSetMembers(last, p);
      assert folders == init + [last];
      assert (exists f :: f in folders && RunningPathOf(f, p))
        <==> (exists f :: f in init && RunningPathOf(f, p)) || RunningPathOf(last, p);
    }
  }

  /** Walking a folder's first k parts adds exactly its first k running paths to the printed set. */
  lemma {:induction false} PartsWalkSeen(parts: seq<string>, k: nat, start: Walk)
    requires k <= |parts|
    ensures PartsWalk(parts, k, start).seen == start.seen + PrefixSet(parts, k)
  {
    if k > 0 {
      PartsWalkSeen(parts, k - 1, start);
      PrefixSetStep(parts, k);
      var before := PartsWalk(parts, k - 1, start);
      var path := PathPrefix(parts, k);
      assert start.seen + PrefixSet(parts, k) == before.seen + {path};
      if path in before.seen {
        assert before.seen + {path} == before.seen;
      }
    }
  }

  /** Walking adds one line exactly when it adds one new path. */
  lemma {:induction false} PartsWalkBalance(parts: seq<string>, k: nat, start: Walk)
    requires k <= |parts|
    ensures |PartsWalk(parts, k, start).lines| - |PartsWalk(parts, k, start).seen| == |start.lines| - |start.seen|
  {
    if k > 0 {
      PartsWalkBalance(parts, k - 1, start);
      var before := PartsWalk(parts, k - 1, start);
      var path := PathPrefix(parts, k);
      if path !in before.seen {
        assert |before.seen + {path}| == |before.seen| + 1;
      }
    }
  }

  /** One more part adds its running path. */
  lemma PrefixSetStep(parts: seq<string>, k: nat)
    requires 0 < k <= |parts|
    ensures PrefixSet(parts, k) == PrefixSet(parts, k - 1) + {PathPrefix(parts, k)}
  {
    assert forall p :: p in PrefixSet(parts, k) <==> p in PrefixSet(parts, k - 1) || p == PathPrefix(parts, k);
  }

  lemma {:induction false} FoldersWalkCounts(folders: seq<string>)
    ensures FoldersWalk(folders).seen == AncestorPaths(folders)
    ensures |FoldersWalk(folders).lines| == |FoldersWalk(folders).seen|
  {
    if folders != [] {
      var init := folders[..|folders| - 1];
      var parts := Split(folders[|folders| - 1], '/');
      FoldersWalkCounts(init);
      PartsWalkSeen(parts, |parts|, FoldersWalk(init));
      PartsWalkBalance(parts, |parts|, FoldersWalk(init));
    }
  }

  /**
   * The tree has exactly one folder line per distinct running path of the
   * planned folders, whatever order they were planned in.
   */
  lemma FolderTreeOneLinePerPath(folders: seq<string>)
    ensures FoldersWalk(SortStrings(folders)).seen == AncestorPaths(folders)
    ensures |FoldersWalk(SortStrings(folders)).lines| == |AncestorPaths(folders)|
  {
    var sorted := SortStrings(folders);
    FoldersWalkCounts(sorted);
    forall p ensures p in AncestorPaths(sorted) <==> p in AncestorPaths(folders) {
      AncestorPathsMembers(sorted, p);
      AncestorPathsMembers(folders, p);
      forall f ensures f in sorted <==> f in folders {
        assert f in sorted <==> f in multiset(sorted);
        assert f in folders <==> f in multiset(folders);
      }
    }
  }
}
