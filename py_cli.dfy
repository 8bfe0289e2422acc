/**
 * The pure parts of the Python command-line front end
 * (src/sbp_generator/cli.py): the required-option checks of `create`, the
 * `--cameras purpose:camera,...` parser with its purpose aliases and default
 * camera lookup, the client-list merge of `interactive`, and the
 * duplicate-assignment check of the interactive camera setup.
 */
module PyCli {
  import opened Wrappers
  import opened Text
  import opened PyModels

  // ---------------------------------------------------------------------------
  // Required options of `create` (an absent option is "")
  // ---------------------------------------------------------------------------

  function RequiredTable(projectType: string, workType: string, projectName: string, clientName: string): seq<(bool, string)> {
    [(projectType == "", "Project type is required. Use --type option."),
     (workType == "", "Work type is required. Use --work-type option."),
     (projectName == "", "Project name is required. Use --project option."),
     (workType == "client" && clientName == "", "Client name is required for client work. Use --client option.")]
  }

  /** The first failing row's message, if any. */
  function FirstFailure(table: seq<(bool, string)>): (r: Option<string>)
    ensures r.None? <==> forall k :: 0 <= k < |table| ==> !table[k].0
    ensures r.Some? ==> exists k :: (0 <= k < |table| && table[k].0 && r.value == table[k].1
                                     && forall j :: 0 <= j < k ==> !table[j].0)
  {
    if table == [] then None
    else if table[0].0 then Some(table[0].1)
    else
      var rest := FirstFailure(table[1..]);
      if rest.Some? then
        var k :| 0 <= k < |table[1..]| && table[1..][k].0 && rest.value == table[1..][k].1
          && forall j :: 0 <= j < k ==> !table[1..][j].0;
        assert table[k + 1].0 && forall j :: 0 <= j < k + 1 ==> !table[j].0;
        rest
      else rest
  }

  lemma FirstFailureOfFour(t: seq<(bool, string)>)
    requires |t| == 4
    ensures FirstFailure(t) == if t[0].0 then Some(t[0].1) else if t[1].0 then Some(t[1].1)
      else if t[2].0 then Some(t[2].1) else if t[3].0 then Some(t[3].1) else None
  {
    assert t[1..][1..] == t[2..];
    assert t[2..][1..] == t[3..];
    assert t[3..][1..] == [];
  }

  /** The checks of `create`, returning at the first failure in the order type, work type, project, client. */
  method CheckRequired(projectType: string, workType: string, projectName: string, clientName: string)
    returns (error: Option<string>)
    ensures error == FirstFailure(RequiredTable(projectType, workType, projectName, clientName))
  {
    FirstFailureOfFour(RequiredTable(projectType, workType, projectName, clientName));
    if projectType == "" {
      return Some("Project type is required. Use --type option.");
    }
    if workType == "" {
      return Some("Work type is required. Use --work-type option.");
    }
    if projectName == "" {
      return Some("Project name is required. Use --project option.");
    }
    if workType == "client" && clientName == "" {
      return Some("Client name is required for client work. Use --client option.");
    }
    return None;
  }

  /** Only the first missing option is reported: a missing type hides every later problem. */
  lemma RequiredStopsAtFirst(projectType: string, workType: string, projectName: string, clientName: string)
    ensures var r := FirstFailure(RequiredTable(projectType, workType, projectName, clientName));
      && (r.None? <==> projectType != "" && workType != "" && projectName != "" && (workType == "client" ==> clientName != ""))
      && (projectType == "" ==> r == Some("Project type is required. Use --type option."))
      && (projectType != "" && workType == "" ==> r == Some("Work type is required. Use --work-type option."))
  {
    FirstFailureOfFour(RequiredTable(projectType, workType, projectName, clientName));
  }

  // ---------------------------------------------------------------------------
  // Purposes
  // ---------------------------------------------------------------------------

  /** CameraPurpose(value): the purpose whose value is exactly v. */
  function PurposeByValue(v: string): (r: Option<CameraPurpose>)
    ensures r.Some? ==> r.value.Value() == v
  {
    if v == "main" then Some(Main)
    else if v == "BTS" then Some(Bts)
    else if v == "secondary" then Some(Secondary)
    else if v == "drone" then Some(Drone)
    else if v == "interview" then Some(Interview)
    else if v == "detail" then Some(Detail)
    else if v == "backup" then Some(Backup)
    else None
  }

  const PurposeAliases: map<string, CameraPurpose> := map[
    "MAIN" := Main, "PRIMARY" := Main,
    "BTS" := Bts, "BEHIND" := Bts,
    "SECONDARY" := Secondary, "SEC" := Secondary,
    "DRONE" := Drone, "AERIAL" := Drone,
    "INTERVIEW" := Interview, "DETAIL" := Detail, "BACKUP" := Backup]

  /** The purpose of an upper-cased purpose word: by enum value after lower-casing, else by alias. */
  function ParsePurpose(upper: string): Option<CameraPurpose> {
    var byValue := PurposeByValue(Lower(upper));
    if byValue.Some? then byValue
    else if upper in PurposeAliases then Some(PurposeAliases[upper])
    else None
  }

  lemma LowerUpperChar(c: char)
    ensures LowerChar(UpperChar(c)) == LowerChar(c)
  {
  }

  /** Lower-casing never yields "BTS", so behind-the-scenes is only ever found through the alias table. */
  lemma BtsNeverByValue(s: string)
    ensures PurposeByValue(Lower(s)) != Some(Bts)
  {
    assert |s| == 3 ==> Lower(s)[0] != 'B';
  }

  /** Every purpose value is accepted in any letter case and yields its own purpose. */
  lemma PurposeCaseInsensitive(s: string, p: CameraPurpose)
    requires Lower(s) == Lower(p.Value())
    ensures ParsePurpose(Upper(s)) == Some(p)
  {
    assert Lower(Upper(s)) == Lower(s) by {
      forall i | 0 <= i < |s| ensures Lower(Upper(s))[i] == Lower(s)[i] {
        LowerUpperChar(s[i]);
      }
    }
    if p == Bts {
      LowerEqIffUpperEq(s, p.Value());
      BtsNeverByValue(Upper(s));
      assert Upper(s) == Upper("BTS");
      assert Upper("BTS") == "BTS";
    } else {
      assert Lower(p.Value()) == p.Value();
    }
  }

  /** The alias words that are also enum values once lower-cased are found by value, with the table's purpose. */
  lemma ValueAliasParses(k: string)
    requires k in {"MAIN", "SECONDARY", "DRONE", "INTERVIEW", "DETAIL", "BACKUP"}
    ensures ParsePurpose(k) == Some(PurposeAliases[k])
  {
    if k == "MAIN" { assert Lower(k) == "main"; }
    else if k == "SECONDARY" { assert Lower(k) == "secondary"; }
    else if k == "DRONE" { assert Lower(k) == "drone"; }
    else if k == "INTERVIEW" { assert Lower(k) == "interview"; }
    else if k == "DETAIL" { assert Lower(k) == "detail"; }
    else { assert Lower(k) == "backup"; }
  }

  /** The other alias words match no enum value once lower-cased and are found in the table. */
  lemma WordAliasParses(k: string)
    requires k in {"PRIMARY", "BTS", "BEHIND", "SEC", "AERIAL"}
    ensures ParsePurpose(k) == Some(PurposeAliases[k])
  {
    if k == "PRIMARY" { assert Lower(k) == "primary"; }
    else if k == "BTS" { assert Lower(k) == "bts"; }
    else if k == "BEHIND" { assert Lower(k) == "behind"; }
    else if k == "SEC" { assert Lower(k) == "sec"; }
    else { assert Lower(k) == "aerial"; }
  }

  /** Each alias word names its table purpose, whether the enum-value lookup or the alias table finds it. */
  lemma AliasKeyParses(k: string)
    requires k in PurposeAliases
    ensures ParsePurpose(k) == Some(PurposeAliases[k])
  {
    if k in {"MAIN", "SECONDARY", "DRONE", "INTERVIEW", "DETAIL", "BACKUP"} {
      ValueAliasParses(k);
    } else {
      WordAliasParses(k);
    }
  }

  /**
   * Every alias word is accepted in any letter case: the word is upper-cased
   * first, and the upper-cased word yields the purpose the alias table
   * gives it.
   */
  lemma PurposeAliasWords(s: string)
    requires Upper(s) in PurposeAliases
    ensures ParsePurpose(Upper(s)) == Some(PurposeAliases[Upper(s)])
  {
    AliasKeyParses(Upper(s));
  }

  // ---------------------------------------------------------------------------
  // Cameras
  // ---------------------------------------------------------------------------

  /** A default camera entry as a camera record (the entries' names carry no surrounding whitespace to strip). */
  function CameraOf(d: DefaultCamera): Camera {
    Camera(d.name, Some(d.brand), None, None)
  }

  /** The default cameras by lower-cased name; a later name overwrites an earlier one. */
  function DefaultCameraMap(cams: seq<DefaultCamera>): map<string, Camera> {
    if cams == [] then map[]
    else
      var d := cams[|cams| - 1];
      DefaultCameraMap(cams[..|cams| - 1])[Lower(d.name) := CameraOf(d)]
  }

  /** With case-insensitively distinct names, each default camera is found under its lower-cased name. */
  lemma {:induction false} DefaultCameraMapFinds(cams: seq<DefaultCamera>, i: nat)
    requires i < |cams|
    requires forall a, b :: 0 <= a < b < |cams| ==> Lower(cams[a].name) != Lower(cams[b].name)
    ensures Lower(cams[i].name) in DefaultCameraMap(cams)
    ensures DefaultCameraMap(cams)[Lower(cams[i].name)] == CameraOf(cams[i])
  {
    var n := |cams| - 1;
    if i < n {
      DefaultCameraMapFinds(cams[..n], i);
    }
  }

  /** The lookup key of a camera word: lower-cased, with '-' and '_' read as spaces. */
  function CameraKey(s: string): string {
    ReplaceChar(ReplaceChar(Lower(s), '-', ' '), '_', ' ')
  }

  /** Errors that abort the whole camera option. */
  datatype CameraSpecError =
    | InvalidFormat(item: string)
    | InvalidPurpose(purpose: string)
    | InvalidCamera(name: string)

  /** A default camera when the key matches one, else a custom camera with the given (validated) name. */
  function FindCamera(cameraStr: string, cfg: AppConfig): Result<Camera, CameraSpecError> {
    var defaults := DefaultCameraMap(cfg.defaultCameras);
    var key := CameraKey(cameraStr);
    if key in defaults then Ok(defaults[key])
    else
      match StripRequired(cameraStr, CameraNameError)
      case Err(_) => Err(InvalidCamera(cameraStr))
      case Ok(name) => Ok(Camera(name, None, None, None))
  }

  /** One `purpose:camera` item: split at the first ':' only. */
  function ParseItem(item: string, cfg: AppConfig): Result<CameraAssignment, CameraSpecError> {
    var trimmed := Trim(item);
    if ':' !in trimmed then Err(InvalidFormat(trimmed))
    else
      var parts := SplitFirst(trimmed, ':');
      ParseParts(Upper(Trim(parts.0)), Trim(parts.1), cfg)
  }

  /** The purpose word looked up first, then the camera word. */
  function ParseParts(purposeStr: string, cameraStr: string, cfg: AppConfig): Result<CameraAssignment, CameraSpecError> {
    match ParsePurpose(purposeStr)
    case None => Err(InvalidPurpose(purposeStr))
    case Some(purpose) =>
      match FindCamera(cameraStr, cfg)
      case Err(e) => Err(e)
      case Ok(camera) => Ok(CameraAssignment(camera, purpose))
  }

  /** The values of a run of results in order, or the first error among them. */
  function Collect<T, E>(rs: seq<Result<T, E>>): Result<seq<T>, E> {
    if rs == [] then Ok([])
    else
      match Collect(rs[..|rs| - 1])
      case Err(e) => Err(e)
      case Ok(values) =>
        match rs[|rs| - 1]
        case Err(e) => Err(e)
        case Ok(v) => Ok(values + [v])
  }

  /** Each item parsed on its own. */
  function ItemResults(items: seq<string>, cfg: AppConfig): (rs: seq<Result<CameraAssignment, CameraSpecError>>)
    ensures |rs| == |items| && forall k :: 0 <= k < |items| ==> rs[k] == ParseItem(items[k], cfg)
  {
    seq(|items|, k requires 0 <= k < |items| => ParseItem(items[k], cfg))
  }

  /** The items in order, stopping at the first error. */
  function ParseItems(items: seq<string>, cfg: AppConfig): Result<seq<CameraAssignment>, CameraSpecError> {
    Collect(ItemResults(items, cfg))
  }

  /**
   * The option's value is parsed only when it is given and the type is
   * video or both; only then are camera folders switched on.
   */
  method ParseCameraOption(cameras: string, projectType: string, cfg: AppConfig)
    returns (useCameraFolders: bool, r: Result<seq<CameraAssignment>, CameraSpecError>)
    ensures useCameraFolders <==> cameras != "" && (projectType == "video" || projectType == "both")
    ensures !useCameraFolders ==> r == Ok([])
    ensures useCameraFolders ==> r == ParseItems(Split(cameras, ','), cfg)
  {
    useCameraFolders := false;
    r := Ok([]);
    if cameras != "" && (projectType == "video" || projectType == "both") {
      useCameraFolders := true;
      r := ParseCameraItems(Split(cameras, ','), cfg);
    }
  }

  /** The items one by one, returning at the first one that does not parse. */
  method ParseCameraItems(items: seq<string>, cfg: AppConfig) returns (r: Result<seq<CameraAssignment>, CameraSpecError>)
    ensures r == ParseItems(items, cfg)
  {
    ghost var rs := ItemResults(items, cfg);
    var assignments: seq<CameraAssignment> := [];
    for i := 0 to |items|
      invariant Collect(rs[..i]) == Ok(assignments)
    {
      var item := ParseItem(items[i], cfg);
      CollectStep(rs, i, assignments);
      if item.Err? {
        r := Err(item.error);
        CollectStops(rs, i + 1);
        return;
      }
      assignments := assignments + [item.value];
    }
    assert rs[..|rs|] == rs;
    r := Ok(assignments);
  }

  /** One more result either ends the run with its error or adds its value. */
  lemma CollectStep<T, E>(rs: seq<Result<T, E>>, i: nat, values: seq<T>)
    requires i < |rs| && Collect(rs[..i]) == Ok(values)
    ensures rs[i].Err? ==> Collect(rs[..i + 1]) == Err(rs[i].error)
    ensures rs[i].Ok? ==> Collect(rs[..i + 1]) == Ok(values + [rs[i].value])
  {
    assert rs[..i + 1][..i] == rs[..i];
  }

  /** Once a prefix fails, the whole run fails with the same error. */
  lemma {:induction false} CollectStops<T, E>(rs: seq<Result<T, E>>, n: nat)
    requires n <= |rs| && Collect(rs[..n]).Err?
    ensures Collect(rs) == Collect(rs[..n])
    decreases |rs| - n
  {
    if n < |rs| {
      assert rs[..n + 1][..n] == rs[..n];
      CollectStops(rs, n + 1);
    } else {
      assert rs[..n] == rs;
    }
  }

  /** A run collects exactly when every result is a value; the values then keep their order. */
  lemma {:induction false} CollectOk<T, E>(rs: seq<Result<T, E>>)
    ensures Collect(rs).Ok? <==> forall k :: 0 <= k < |rs| ==> rs[k].Ok?
    ensures Collect(rs).Ok? ==> (|Collect(rs).value| == |rs|
                                 && forall k :: 0 <= k < |rs| ==> Collect(rs).value[k] == rs[k].value)
  {
    if rs != [] {
      var n := |rs| - 1;
      CollectOk(rs[..n]);
      assert forall k :: 0 <= k < n ==> rs[..n][k] == rs[k];
    }
  }

  /** A list parses exactly when every item parses, into one assignment per item in input order. */
  lemma ParseItemsInOrder(items: seq<string>, cfg: AppConfig)
    ensures ParseItems(items, cfg).Ok? <==> forall k :: 0 <= k < |items| ==> ParseItem(items[k], cfg).Ok?
    ensures ParseItems(items, cfg).Ok? ==> (|ParseItems(items, cfg).value| == |items|
                                            && forall k :: 0 <= k < |items| ==> ParseItems(items, cfg).value[k] == ParseItem(items[k], cfg).value)
  {
    CollectOk(ItemResults(items, cfg));
  }

  /** A trailing comma leaves an empty last item, which aborts the whole option. */
  lemma TrailingCommaAborts(cameras: string, cfg: AppConfig)
    ensures ParseItems(Split(cameras + [','], ','), cfg).Err?
  {
    SplitTrailing(cameras, ',');
    var items := Split(cameras + [','], ',');
    assert items[|items| - 1] == "";
    assert Trim("") == "";
    assert ParseItem("", cfg) == Err(InvalidFormat(""));
    var rs := ItemResults(items, cfg);
    CollectOk(rs);
  }

  /** A camera word whose key is a default camera's lower-cased name finds that default camera. */
  lemma FindsDefaultCamera(camera: string, cfg: AppConfig, i: nat)
    requires i < |cfg.defaultCameras|
    requires forall a, b :: 0 <= a < b < |cfg.defaultCameras| ==>
      Lower(cfg.defaultCameras[a].name) != Lower(cfg.defaultCameras[b].name)
    requires CameraKey(camera) == Lower(cfg.defaultCameras[i].name)
    ensures FindCamera(camera, cfg) == Ok(CameraOf(cfg.defaultCameras[i]))
  {
    DefaultCameraMapFinds(cfg.defaultCameras, i);
  }

  /** With the shipped defaults, "drone:dji-pocket" names the DJI POCKET camera in any letter case. */
  lemma DefaultCameraWord(camera: string)
    requires CameraKey(camera) == "dji pocket"
    ensures FindCamera(camera, DefaultAppConfig) == Ok(Camera("DJI POCKET", Some("DJI"), None, None))
  {
    DefaultCameraNamesDistinct();
    assert Lower(DefaultAppConfig.defaultCameras[1].name) == "dji pocket";
    FindsDefaultCamera(camera, DefaultAppConfig, 1);
  }

  // ---------------------------------------------------------------------------
  // Client merge of `interactive`
  // ---------------------------------------------------------------------------

  /**
   * The merge: discovered clients first, then the database clients not
   * already listed. `discovered` and `existing` are the two lists the
   * command builds from the directory analysis and the client table.
   */
  method MergeClients(discovered: seq<string>, existing: seq<string>) returns (all: seq<string>)
    ensures all == Dedup(discovered + existing)
  {
    all := [];
    for i := 0 to |discovered|
      invariant all == Dedup(discovered[..i])
    {
      DedupSnoc(discovered[..i], discovered[i]);
      assert discovered[..i + 1] == discovered[..i] + [discovered[i]];
      if discovered[i] !in all {
        all := all + [discovered[i]];
      }
    }
    assert discovered[..|discovered|] == discovered;
    assert discovered + existing[..0] == discovered;
    for j := 0 to |existing|
      invariant all == Dedup(discovered + existing[..j])
    {
      DedupSnoc(discovered + existing[..j], existing[j]);
      assert discovered + existing[..j + 1] == (discovered + existing[..j]) + [existing[j]];
      if existing[j] !in all {
        all := all + [existing[j]];
      }
    }
    assert existing[..|existing|] == existing;
  }

  /** Every client is listed once, discovered clients lead in their own order, and nothing else is listed. */
  lemma MergeClientsShape(discovered: seq<string>, existing: seq<string>)
    ensures var all := Dedup(discovered + existing);
      && Distinct(all)
      && (forall c :: c in all <==> c in discovered || c in existing)
      && |Dedup(discovered)| <= |all|
      && all[..|Dedup(discovered)|] == Dedup(discovered)
  {
    DedupPrefix(discovered, existing);
  }

  // ---------------------------------------------------------------------------
  // Duplicate assignment check of the interactive camera setup
  // ---------------------------------------------------------------------------

  predicate FolderNameTaken(assignments: seq<CameraAssignment>, folder: string) {
    exists k :: 0 <= k < |assignments| && AssignmentFolderName(assignments[k]) == folder
  }

  /** The assignment is added only when no existing one has the same folder name. */
  function AddAssignment(assignments: seq<CameraAssignment>, a: CameraAssignment): seq<CameraAssignment> {
    if FolderNameTaken(assignments, AssignmentFolderName(a)) then assignments else assignments + [a]
  }

  predicate FolderNamesDistinct(assignments: seq<CameraAssignment>) {
    forall i, j :: 0 <= i < j < |assignments| ==> AssignmentFolderName(assignments[i]) != AssignmentFolderName(assignments[j])
  }

  /**
   * Adding through the check keeps folder names distinct, so no two kept
   * assignments share both purpose and cleaned camera name.
   */
  lemma AddAssignmentKeepsDistinct(assignments: seq<CameraAssignment>, a: CameraAssignment)
    requires FolderNamesDistinct(assignments)
    ensures FolderNamesDistinct(AddAssignment(assignments, a))
    ensures AddAssignment(assignments, a) == assignments <==> FolderNameTaken(assignments, AssignmentFolderName(a))
    ensures forall i, j :: 0 <= i < j < |AddAssignment(assignments, a)| ==>
      var r := AddAssignment(assignments, a);
      r[i].purpose != r[j].purpose || CleanFolderName(r[i].camera.name) != CleanFolderName(r[j].camera.name)
  {
  }
}
