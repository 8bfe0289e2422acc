/**
 * The second web application's controller (web/webapp/app.js): the
 * unbounded step counter, the required-field check of a step, the
 * form-to-configuration builder with its position-indexed camera rows, the
 * saved-client list with suggestions, and the download entries.
 *
 * Form values that FormData reports as missing are "" here, as in the
 * generator's configuration; the clock and the confirmation dialogs are
 * parameters.
 */
module WebWebappApp {
  import opened Wrappers
  import opened Text
  import opened WebGenerator

  // ---------------------------------------------------------------------------
  // Required fields of a step
  // ---------------------------------------------------------------------------

  /**
   * validateCurrentStep: every required field is visited and marked (no
   * short-circuit); the step is valid iff no field is blank after trimming.
   */
  method ValidateCurrentStep(values: seq<string>) returns (isValid: bool, marked: seq<bool>)
    ensures |marked| == |values|
    ensures forall i :: 0 <= i < |values| ==> marked[i] == AllWhitespace(values[i])
    ensures isValid <==> forall i :: 0 <= i < |values| ==> !AllWhitespace(values[i])
  {
    isValid := true;
    marked := [];
    for i := 0 to |values|
      invariant |marked| == i
      invariant forall k :: 0 <= k < i ==> marked[k] == AllWhitespace(values[k])
      invariant isValid <==> forall k :: 0 <= k < i ==> !AllWhitespace(values[k])
    {
      if Trim(values[i]) == "" {
        marked := marked + [true];
        isValid := false;
      } else {
        marked := marked + [false];
      }
    }
  }

  // ---------------------------------------------------------------------------
  // Camera rows and the project configuration
  // ---------------------------------------------------------------------------

  /**
   * One camera row. Its inputs are named after `tag`, the number of rows
   * there were when it was added; removing a row does not rename the others.
   */
  datatype CameraRow = CameraRow(tag: nat, name: string, folder: string, role: string)

  /** addCameraAssignment: the new row is tagged with the current row count. */
  function AddRow(rows: seq<CameraRow>, name: string, folder: string, role: string): seq<CameraRow> {
    rows + [CameraRow(|rows|, name, folder, role)]
  }

  /** The Remove button: the row leaves the list, the others keep their tags. */
  function RemoveRow(rows: seq<CameraRow>, k: nat): seq<CameraRow>
    requires k < |rows|
  {
    rows[..k] + rows[k + 1..]
  }

  /**
   * The row at position `index` is read through inputs named after
   * `index`: only a row whose tag is its position is found, and it is kept
   * when both its name and folder are filled.
   */
  predicate Found(rows: seq<CameraRow>, index: nat)
    requires index < |rows|
  {
    rows[index].tag == index && rows[index].name != "" && rows[index].folder != ""
  }

  function KeptRows(rows: seq<CameraRow>): seq<CameraAssignment> {
    if rows == [] then []
    else
      var n := |rows| - 1;
      KeptRows(rows[..n]) + (if Found(rows, n) then [CameraAssignment(rows[n].name, rows[n].folder, rows[n].role)] else [])
  }

  /** The values the form reports. */
  datatype FormValues = FormValues(
    projectType: string,
    workType: string,
    projectName: string,
    projectDate: string,
    clientName: string,
    includeCaptureOne: string,
    includeProxies: string,
    useCameraFolders: string)

  /** The rows loop of buildProjectConfig. */
  method CollectRows(rows: seq<CameraRow>) returns (assignments: seq<CameraAssignment>)
    ensures assignments == KeptRows(rows)
  {
    assignments := [];
    for index := 0 to |rows|
      invariant assignments == KeptRows(rows[..index])
    {
      assert rows[..index + 1][..index] == rows[..index];
      assert Found(rows[..index + 1], index) == Found(rows, index);
      var row := rows[index];
      if row.tag == index && row.name != "" && row.folder != "" {
        assignments := assignments + [CameraAssignment(row.name, row.folder, row.role)];
      }
    }
    assert rows[..|rows|] == rows;
  }

  /**
   * buildProjectConfig: checkboxes count when their value is "on"; the
   * client is read only for client work and the camera list exists only
   * when camera folders are on.
   */
  method BuildProjectConfig(form: FormValues, rows: seq<CameraRow>) returns (config: Config)
    ensures config.projectType == form.projectType && config.workType == form.workType
    ensures config.projectName == form.projectName && config.projectDate == form.projectDate
    ensures config.includeCaptureOne == (form.includeCaptureOne == "on")
    ensures config.includeProxies == (form.includeProxies == "on")
    ensures config.useCameraFolders == (form.useCameraFolders == "on")
    ensures config.clientName == if form.workType == "client" then form.clientName else ""
    ensures config.cameraAssignments == if form.useCameraFolders == "on" then Some(KeptRows(rows)) else None
  {
    var clientName := "";
    if form.workType == "client" {
      clientName := form.clientName;
    }
    var assignments: Option<seq<CameraAssignment>> := None;
    if form.useCameraFolders == "on" {
      var kept := CollectRows(rows);
      assignments := Some(kept);
    }
    config := Config(form.projectType, form.workType, form.projectName, form.projectDate, clientName,
      form.includeCaptureOne == "on", form.includeProxies == "on", form.useCameraFolders == "on", assignments);
  }

  /** Exactly the found, filled rows become assignments, in row order. */
  lemma {:induction false} KeptRowsMembers(rows: seq<CameraRow>)
    ensures |KeptRows(rows)| <= |rows|
    ensures forall a :: a in KeptRows(rows) <==>
      exists i :: 0 <= i < |rows| && Found(rows, i) && a == CameraAssignment(rows[i].name, rows[i].folder, rows[i].role)
  {
    if rows != [] {
      var n := |rows| - 1;
      var init := rows[..n];
      KeptRowsMembers(init);
      assert forall i :: 0 <= i < n ==> Found(init, i) == Found(rows, i);
      assert forall i :: 0 <= i < n ==> init[i] == rows[i];
    }
  }

  /** Rows added one after another carry their positions as tags. */
  lemma AddedRowsTagged(rows: seq<CameraRow>, name: string, folder: string, role: string)
    requires forall i :: 0 <= i < |rows| ==> rows[i].tag == i
    ensures var r := AddRow(rows, name, folder, role);
      forall i :: 0 <= i < |r| ==> r[i].tag == i
  {
  }

  /** While no row has been removed, every row with a name and a folder is kept. */
  lemma {:induction false} TaggedRowsAllKept(rows: seq<CameraRow>)
    requires forall i :: 0 <= i < |rows| ==> rows[i].tag == i
    ensures forall i :: 0 <= i < |rows| && rows[i].name != "" && rows[i].folder != "" ==>
      CameraAssignment(rows[i].name, rows[i].folder, rows[i].role) in KeptRows(rows)
  {
    KeptRowsMembers(rows);
    forall i | 0 <= i < |rows| && rows[i].name != "" && rows[i].folder != ""
      ensures CameraAssignment(rows[i].name, rows[i].folder, rows[i].role) in KeptRows(rows)
    {
      assert Found(rows, i);
    }
  }

  /**
   * After a row is removed, every later row sits one place below its tag, so
   * it is no longer found: those cameras are dropped from the configuration.
   */
  lemma RemovalDropsLaterRows(rows: seq<CameraRow>, k: nat)
    requires forall i :: 0 <= i < |rows| ==> rows[i].tag == i
    requires k < |rows|
    ensures var r := RemoveRow(rows, k);
      forall i :: k <= i < |r| ==> !Found(r, i)
  {
    var r := RemoveRow(rows, k);
    forall i | k <= i < |r| ensures !Found(r, i) {
      assert r[i] == rows[i + 1];
    }
  }

  // ---------------------------------------------------------------------------
  // Saved clients
  // ---------------------------------------------------------------------------

  datatype SavedClient = SavedClient(name: string, notes: string)

  predicate HasClientNamed(clients: seq<SavedClient>, name: string) {
    exists i :: 0 <= i < |clients| && Lower(clients[i].name) == Lower(name)
  }

  /** No two saved clients share a name up to letter case. */
  predicate NamesUnique(clients: seq<SavedClient>) {
    forall i, j :: 0 <= i < j < |clients| ==> Lower(clients[i].name) != Lower(clients[j].name)
  }

  /** The clients whose name contains the query, ignoring letter case, in list order. */
  function Suggestions(clients: seq<SavedClient>, query: string): seq<SavedClient> {
    if clients == [] then []
    else
      var c := clients[|clients| - 1];
      Suggestions(clients[..|clients| - 1], query) + (if Contains(Lower(c.name), Lower(query)) then [c] else [])
  }

  /** Suggestions are exactly the matching clients, in list order. */
  lemma {:induction false} SuggestionsMembers(clients: seq<SavedClient>, query: string)
    ensures forall c :: c in Suggestions(clients, query) <==> c in clients && Contains(Lower(c.name), Lower(query))
    ensures |Suggestions(clients, query)| <= |clients|
  {
    if clients != [] {
      SuggestionsMembers(clients[..|clients| - 1], query);
      assert clients == clients[..|clients| - 1] + [clients[|clients| - 1]];
    }
  }

  /** Suggestions keep the list's order: a later suggestion comes from a later client. */
  lemma {:induction false} SuggestionsInOrder(clients: seq<SavedClient>, query: string, i: nat, j: nat)
    requires i < j < |Suggestions(clients, query)|
    ensures exists a, b :: (0 <= a < b < |clients| && clients[a] == Suggestions(clients, query)[i]
                            && clients[b] == Suggestions(clients, query)[j])
  {
    var n := |clients| - 1;
    var init := clients[..n];
    var m := Suggestions(clients, query);
    SuggestionsMembers(init, query);
    if j < |Suggestions(init, query)| {
      SuggestionsInOrder(init, query, i, j);
      var a, b :| 0 <= a < b < |init| && init[a] == Suggestions(init, query)[i] && init[b] == Suggestions(init, query)[j];
      assert clients[a] == m[i] && clients[b] == m[j];
    } else {
      assert m[j] == clients[n];
      assert m[i] in init;
      var a :| 0 <= a < n && init[a] == m[i];
      assert clients[a] == m[i];
    }
  }

  /** `Array.prototype.splice(index, 1)`: a negative index counts from the end; an index past the end removes nothing. */
  function SpliceOne<T>(s: seq<T>, index: int): (r: seq<T>)
    ensures 0 <= index < |s| ==> r == s[..index] + s[index + 1..]
    ensures index >= |s| ==> r == s
  {
    var start := if index < 0 then (if |s| + index < 0 then 0 else |s| + index) else index;
    if start < |s| then s[..start] + s[start + 1..] else s
  }

  /** Dropping an element keeps the remaining names unique. */
  lemma SpliceKeepsUnique(clients: seq<SavedClient>, index: int)
    requires NamesUnique(clients)
    ensures NamesUnique(SpliceOne(clients, index))
  {
    var r := SpliceOne(clients, index);
    var start := if index < 0 then (if |clients| + index < 0 then 0 else |clients| + index) else index;
    if start < |clients| {
      forall i, j | 0 <= i < j < |r| ensures Lower(r[i].name) != Lower(r[j].name) {
        var i' := if i < start then i else i + 1;
        var j' := if j < start then j else j + 1;
        assert r[i] == clients[i'] && r[j] == clients[j'];
      }
    }
  }

  class App {
    var currentStep: int
    var clients: seq<SavedClient>

    constructor(loaded: seq<SavedClient>)
      ensures currentStep == 1 && clients == loaded
    {
      currentStep := 1;
      clients := loaded;
    }

    /**
     * nextStep: the current step's required fields (their values in `values`)
     * are checked and marked; the step goes one forward exactly when none is
     * blank, and there is no upper bound.
     */
    method NextStep(values: seq<string>) returns (marked: seq<bool>)
      modifies this
      ensures currentStep == if forall i :: 0 <= i < |values| ==> !AllWhitespace(values[i])
                             then old(currentStep) + 1 else old(currentStep)
      ensures |marked| == |values|
      ensures forall i :: 0 <= i < |values| ==> marked[i] == AllWhitespace(values[i])
      ensures clients == old(clients)
    {
      var stepValid;
      stepValid, marked := ValidateCurrentStep(values);
      if stepValid {
        currentStep := currentStep + 1;
      }
    }

    /** prevStep: one step back, unconditionally and without a lower bound. */
    method PrevStep()
      modifies this
      ensures currentStep == old(currentStep) - 1
      ensures clients == old(clients)
    {
      currentStep := currentStep - 1;
    }

    /**
     * saveClient: the trimmed name must be non-empty and new up to letter
     * case; then `{name, notes}` is appended.
     */
    method SaveClient(rawName: string, rawNotes: string) returns (error: Option<string>)
      modifies this
      ensures AllWhitespace(rawName) ==> error == Some("Please enter a client name")
      ensures !AllWhitespace(rawName) && HasClientNamed(old(clients), Trim(rawName)) ==>
        error == Some("A client with this name already exists")
      ensures error.None? <==> !AllWhitespace(rawName) && !HasClientNamed(old(clients), Trim(rawName))
      ensures error.Some? ==> clients == old(clients)
      ensures error.None? ==> clients == old(clients) + [SavedClient(Trim(rawName), Trim(rawNotes))]
      ensures NamesUnique(old(clients)) ==> NamesUnique(clients)
      ensures currentStep == old(currentStep)
    {
      var name := Trim(rawName);
      var notes := Trim(rawNotes);
      if name == "" {
        return Some("Please enter a client name");
      }
      if HasClientNamed(clients, name) {
        return Some("A client with this name already exists");
      }
      clients := clients + [SavedClient(name, notes)];
      error := None;
    }

    /** deleteClient: once confirmed, the element at the index is spliced out. */
    method DeleteClient(index: int, confirmed: bool)
      modifies this
      ensures clients == if confirmed then SpliceOne(old(clients), index) else old(clients)
      ensures confirmed && 0 <= index < |old(clients)| ==> |clients| == |old(clients)| - 1
      ensures NamesUnique(old(clients)) ==> NamesUnique(clients)
      ensures currentStep == old(currentStep)
    {
      if confirmed {
        if NamesUnique(clients) {
          SpliceKeepsUnique(clients, index);
        }
        clients := SpliceOne(clients, index);
      }
    }

    /** showClientSuggestions */
    method ShowClientSuggestions(query: string) returns (r: seq<SavedClient>)
      ensures r == Suggestions(clients, query)
    {
      r := [];
      for i := 0 to |clients|
        invariant r == Suggestions(clients[..i], query)
      {
        assert clients[..i + 1][..i] == clients[..i];
        if Contains(Lower(clients[i].name), Lower(query)) {
          r := r + [clients[i]];
        }
      }
      assert clients[..|clients|] == clients;
    }
  }

  // ---------------------------------------------------------------------------
  // Download
  // ---------------------------------------------------------------------------

  datatype ZipEntry = ZipFolder(path: string) | ZipFile(path: string, content: string)

  /** downloadStructure: nothing without a project; otherwise every folder, then every file, and the archive name. */
  method DownloadStructure(project: Structure?) returns (r: Option<(seq<ZipEntry>, string)>)
    ensures project == null ==> r.None?
    ensures project != null ==> r.Some? && r.value.1 == project.summary.projectName + "-structure.zip"
    ensures project != null ==> |r.value.0| == |project.folders| + |project.files|
    ensures project != null ==> forall i :: 0 <= i < |project.folders| ==> r.value.0[i] == ZipFolder(project.folders[i])
    ensures project != null ==> forall i :: 0 <= i < |project.files| ==>
      r.value.0[|project.folders| + i] == ZipFile(project.files[i].path, project.files[i].content)
  {
    if project == null {
      return None;
    }
    var entries: seq<ZipEntry> := [];
    var folders := project.folders;
    for i := 0 to |folders|
      invariant |entries| == i
      invariant forall k :: 0 <= k < i ==> entries[k] == ZipFolder(folders[k])
    {
      entries := entries + [ZipFolder(folders[i])];
    }
    var files := project.files;
    for i := 0 to |files|
      invariant |entries| == |folders| + i
      invariant forall k :: 0 <= k < |folders| ==> entries[k] == ZipFolder(folders[k])
      invariant forall k :: 0 <= k < i ==> entries[|folders| + k] == ZipFile(files[k].path, files[k].content)
    {
      entries := entries + [ZipFile(files[i].path, files[i].content)];
    }
    r := Some((entries, project.summary.projectName + "-structure.zip"));
  }
}
