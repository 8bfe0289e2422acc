/**
 * The data models of the Python command-line generator
 * (src/sbp_generator/models.py): the enumerations and their string values,
 * the camera folder-name cleaning, the assignment folder name, the
 * strip-and-check field validators and the application defaults.
 */
module PyModels {
  import opened Wrappers
  import opened Text
  import opened Checks

  // ---------------------------------------------------------------------------
  // Enumerations (str-valued Python enums)
  // ---------------------------------------------------------------------------

  datatype ProjectType = Photography | Videography | Both {
    function Value(): string {
      match this
      case Photography => "photo"
      case Videography => "video"
      case Both => "both"
    }
  }

  datatype WorkType = Client | Personal {
    function Value(): string {
      match this
      case Client => "client"
      case Personal => "personal"
    }
  }

  datatype CameraPurpose = Main | Bts | Secondary | Drone | Interview | Detail | Backup {
    /** The enum value; behind-the-scenes alone is upper case. */
    function Value(): string {
      match this
      case Main => "main"
      case Bts => "BTS"
      case Secondary => "secondary"
      case Drone => "drone"
      case Interview => "interview"
      case Detail => "detail"
      case Backup => "backup"
    }
  }

  const AllPurposes: seq<CameraPurpose> := [Main, Bts, Secondary, Drone, Interview, Detail, Backup]

  /** No purpose value contains a hyphen, and no two purposes share a value. */
  lemma PurposeValues(p: CameraPurpose, q: CameraPurpose)
    ensures '-' !in p.Value()
    ensures p.Value() == q.Value() <==> p == q
    ensures p in AllPurposes
  {
    var v := p.Value();
    assert v[0] != '-' && v[|v| - 1] != '-';
    if p.Value() == q.Value() {
      assert p.Value()[0] == q.Value()[0] && |p.Value()| == |q.Value()|;
    }
  }

  // ---------------------------------------------------------------------------
  // Records
  // ---------------------------------------------------------------------------

  datatype Camera = Camera(name: string, brand: Option<string>, model: Option<string>, notes: Option<string>)

  datatype CameraAssignment = CameraAssignment(camera: Camera, purpose: CameraPurpose)

  /** A client record; `createdDate` is the creation time as text, supplied by the caller. */
  datatype Client = Client(name: string, createdDate: string, projects: seq<string>, notes: Option<string>)

  /**
   * A project configuration. `projectDate` is the date already formatted
   * with the configured date format and `projectYear` its year; `basePath`
   * is a non-empty base path already split into components (None when absent
   * or empty).
   */
  datatype ProjectConfig = ProjectConfig(
    projectType: ProjectType,
    workType: WorkType,
    projectName: string,
    clientName: Option<string>,
    projectDate: string,
    projectYear: nat,
    basePath: Option<seq<string>>,
    includeCaptureOne: bool,
    includeProxies: bool,
    cameraAssignments: seq<CameraAssignment>,
    useCameraFolders: bool)

  // ---------------------------------------------------------------------------
  // Camera folder names
  // ---------------------------------------------------------------------------

  predicate IsFolderChar(c: char) { IsAlnum(c) || c == '-' }

  predicate AllFolderChars(s: string) {
    forall i :: 0 <= i < |s| ==> IsFolderChar(s[i])
  }

  /** The characters of s that are alphanumeric or '-', in order. */
  function KeepFolderChars(s: string): (r: string)
    ensures |r| <= |s|
    ensures AllFolderChars(r)
  {
    if s == [] then []
    else (if IsFolderChar(s[0]) then [s[0]] else []) + KeepFolderChars(s[1..])
  }

  /** Camera.get_folder_name: spaces and underscores become hyphens, then everything else unsafe is dropped. */
  function CleanFolderName(name: string): (r: string)
    ensures |r| <= |name|
    ensures AllFolderChars(r)
  {
    KeepFolderChars(ReplaceChar(ReplaceChar(name, ' ', '-'), '_', '-'))
  }

  lemma {:induction false} KeepFolderCharsFixed(s: string)
    requires AllFolderChars(s)
    ensures KeepFolderChars(s) == s
  {
    if s != [] {
      KeepFolderCharsFixed(s[1..]);
    }
  }

  /** Cleaning filters characters one by one: the result for a concatenation is the concatenation of the results. */
  lemma {:induction false} KeepFolderCharsAppend(a: string, b: string)
    ensures KeepFolderChars(a + b) == KeepFolderChars(a) + KeepFolderChars(b)
  {
    if a != [] {
      assert (a + b)[1..] == a[1..] + b;
      KeepFolderCharsAppend(a[1..], b);
    } else {
      assert a + b == b;
    }
  }

  /** A name is left unchanged by cleaning exactly when it is already made of alphanumerics and hyphens. */
  lemma CleanFolderNameFixedIff(s: string)
    ensures CleanFolderName(s) == s <==> AllFolderChars(s)
  {
    if CleanFolderName(s) == s {
      assert AllFolderChars(CleanFolderName(s));
    }
    if AllFolderChars(s) {
      assert ReplaceChar(s, ' ', '-') == s;
      assert ReplaceChar(ReplaceChar(s, ' ', '-'), '_', '-') == s;
      KeepFolderCharsFixed(s);
    }
  }

  /** Cleaning a cleaned name changes nothing. */
  lemma CleanFolderNameIdempotent(s: string)
    ensures CleanFolderName(CleanFolderName(s)) == CleanFolderName(s)
  {
    CleanFolderNameFixedIff(CleanFolderName(s));
  }

  /** CameraAssignment.get_folder_name: the purpose value, a hyphen, the cleaned camera name. */
  function AssignmentFolderName(a: CameraAssignment): (r: string)
    ensures StartsWith(r, a.purpose.Value() + "-")
    ensures r[|a.purpose.Value()| + 1..] == CleanFolderName(a.camera.name)
  {
    var r := a.purpose.Value() + "-" + CleanFolderName(a.camera.name);
    assert r[..|a.purpose.Value()| + 1] == a.purpose.Value() + "-";
    r
  }

  /** The purpose of an assignment can be read back from its folder name: the text before the first hyphen. */
  lemma AssignmentFolderPurpose(a: CameraAssignment)
    ensures var r := AssignmentFolderName(a);
      '-' in r && r[..IndexOf(r, '-')] == a.purpose.Value()
  {
    var r := AssignmentFolderName(a);
    var v := a.purpose.Value();
    PurposeValues(a.purpose, a.purpose);
    assert r[|v|] == '-';
    assert r[..|v|] == v;
    var i := IndexOf(r, '-');
    assert '-' in r[..|v| + 1];
    assert '-' !in r[..|v|];
  }

  /** Two assignments with the same folder name share their purpose and their cleaned camera name. */
  lemma AssignmentFolderNameInjective(a: CameraAssignment, b: CameraAssignment)
    requires AssignmentFolderName(a) == AssignmentFolderName(b)
    ensures a.purpose == b.purpose
    ensures CleanFolderName(a.camera.name) == CleanFolderName(b.camera.name)
  {
    AssignmentFolderPurpose(a);
    AssignmentFolderPurpose(b);
    PurposeValues(a.purpose, b.purpose);
  }

  // ---------------------------------------------------------------------------
  // Field validators
  // ---------------------------------------------------------------------------

  const CameraNameError := "Camera name cannot be empty"
  const ClientNameError := "Client name cannot be empty"
  const ProjectNameError := "Project name cannot be empty"
  const ClientRequiredError := "Client name is required for client work"

  /**
   * The validators on Camera.name, Client.name and ProjectConfig.project_name:
   * a blank value is rejected with the field's message, any other value is
   * stored stripped.
   */
  function StripRequired(v: string, message: string): (r: Result<string, string>)
    ensures r.Err? <==> AllWhitespace(v)
    ensures r.Err? ==> r.error == message
    ensures r.Ok? ==> r.value != [] && !IsWhitespace(r.value[0]) && !IsWhitespace(r.value[|r.value| - 1])
  {
    var t := Trim(v);
    if t == "" then Err(message) else Ok(t)
  }

  /** A value the validator accepted is accepted again unchanged. */
  lemma StripRequiredIdempotent(v: string, message: string)
    requires StripRequired(v, message).Ok?
    ensures StripRequired(StripRequired(v, message).value, message) == StripRequired(v, message)
  {
    TrimIdempotent(v);
  }

  /**
   * The validator on ProjectConfig.client_name. `workType` is the already
   * validated work type, None when that field failed. An empty or missing
   * name is an error for client work; otherwise a non-empty name is stored
   * stripped (so a blank name becomes "") and an empty one becomes None.
   */
  function ValidateClientName(workType: Option<WorkType>, v: Option<string>): (r: Result<Option<string>, string>)
    ensures r.Err? <==> workType == Some(WorkType.Client) && (v == None || v == Some(""))
    ensures r.Err? ==> r.error == ClientRequiredError
    ensures r.Ok? ==> (r.value.Some? <==> v.Some? && v.value != "")
    ensures r.Ok? && r.value.Some? ==> r.value.value == Trim(v.value)
  {
    var present := v.Some? && v.value != "";
    if workType == Some(WorkType.Client) && !present then Err(ClientRequiredError)
    else if present then Ok(Some(Trim(v.value)))
    else Ok(None)
  }

  /** A whitespace-only client name passes for client work and is stored as the empty string. */
  lemma BlankClientNamePasses(v: string)
    requires v != "" && AllWhitespace(v)
    ensures ValidateClientName(Some(WorkType.Client), Some(v)) == Ok(Some(""))
  {
  }

  // ---------------------------------------------------------------------------
  // Building a ProjectConfig again from its own fields
  // ---------------------------------------------------------------------------

  /** The camera-name validator run over each assignment: one message per blank camera name, in order. */
  function CameraNameErrors(assignments: seq<CameraAssignment>): (r: seq<string>)
    ensures r == [] <==> forall k :: 0 <= k < |assignments| ==> !AllWhitespace(assignments[k].camera.name)
    ensures forall m :: m in r ==> m == CameraNameError
  {
    if assignments == [] then []
    else
      var init := assignments[..|assignments| - 1];
      var last := assignments[|assignments| - 1];
      assert forall k :: 0 <= k < |init| ==> init[k] == assignments[k];
      CameraNameErrors(init) + Pushed(StripRequired(last.camera.name, CameraNameError).Err?, CameraNameError)
  }

  /**
   * `ProjectConfig(**config.dict())`: the validators run again on the stored
   * fields, in field order (project_name, client_name, then each camera's
   * name), and the copy is refused when any of them fails.
   */
  function RebuildErrors(config: ProjectConfig): (r: seq<string>)
    ensures r == [] <==>
      && !AllWhitespace(config.projectName)
      && ValidateClientName(Some(config.workType), config.clientName).Ok?
      && forall k :: 0 <= k < |config.cameraAssignments| ==> !AllWhitespace(config.cameraAssignments[k].camera.name)
  {
    Pushed(StripRequired(config.projectName, ProjectNameError).Err?, ProjectNameError)
    + Pushed(ValidateClientName(Some(config.workType), config.clientName).Err?, ClientRequiredError)
    + CameraNameErrors(config.cameraAssignments)
  }

  /**
   * A whitespace-only client name is accepted when the config is first built
   * and stored as ""; building the config again from that stored value then
   * fails with the client-name message.
   */
  lemma BlankClientNameFailsRebuild(config: ProjectConfig, v: string)
    requires v != "" && AllWhitespace(v)
    requires config.workType == WorkType.Client
    requires ValidateClientName(Some(WorkType.Client), Some(v)) == Ok(config.clientName)
    ensures ClientRequiredError in RebuildErrors(config)
  {
    BlankClientNamePasses(v);
    var front := Pushed(StripRequired(config.projectName, ProjectNameError).Err?, ProjectNameError);
    assert RebuildErrors(config) == front + [ClientRequiredError] + CameraNameErrors(config.cameraAssignments);
  }

  /** A config whose fields all validate is rebuilt without error. */
  lemma RebuildAcceptsValid(config: ProjectConfig)
    requires StripRequired(config.projectName, ProjectNameError).Ok?
    requires config.workType == WorkType.Client ==> config.clientName.Some? && !AllWhitespace(config.clientName.value)
    requires forall k :: 0 <= k < |config.cameraAssignments| ==> StripRequired(config.cameraAssignments[k].camera.name, CameraNameError).Ok?
    ensures RebuildErrors(config) == []
  {
  }

  // ---------------------------------------------------------------------------
  // Application defaults
  // ---------------------------------------------------------------------------

  datatype DefaultCamera = DefaultCamera(name: string, brand: string)

  /** AppConfig; base_directories keeps its three entries as named fields. */
  datatype AppConfig = AppConfig(
    photographyDir: string,
    videographyDir: string,
    assetsDir: string,
    includeCaptureOne: bool,
    includeProxies: bool,
    dateFormat: string,
    clientWorkSubfolder: string,
    personalWorkSubfolder: string,
    defaultCameras: seq<DefaultCamera>)

  const DefaultAppConfig := AppConfig(
    "PHOTO", "VIDEO", "Assets & Resources",
    false, false, "%Y-%m-%d",
    "Client Work", "Personal Work",
    [DefaultCamera("Lumix", "Panasonic"), DefaultCamera("DJI POCKET", "DJI"),
     DefaultCamera("Fujifilm", "Fujifilm"), DefaultCamera("Canon", "Canon"),
     DefaultCamera("Sony", "Sony"), DefaultCamera("Drone", "DJI")])

  /**
   * The six default cameras have different names even after lower-casing,
   * so a case-insensitive lookup by name finds at most one of them.
   */
  lemma DefaultCameraNamesDistinct()
    ensures |DefaultAppConfig.defaultCameras| == 6
    ensures forall i, j :: 0 <= i < j < 6 ==>
      Lower(DefaultAppConfig.defaultCameras[i].name) != Lower(DefaultAppConfig.defaultCameras[j].name)
  {
    var cams := DefaultAppConfig.defaultCameras;
    assert Lower(cams[0].name)[0] == 'l';
    assert Lower(cams[1].name)[0] == 'd' && Lower(cams[1].name)[1] == 'j';
    assert Lower(cams[2].name)[0] == 'f';
    assert Lower(cams[3].name)[0] == 'c';
    assert Lower(cams[4].name)[0] == 's';
    assert Lower(cams[5].name)[0] == 'd' && Lower(cams[5].name)[1] == 'r';
  }
}
