/**
 * The first web application's controller (webapp/app.js): the step counter
 * of the three-step form, the form-to-configuration collection with its
 * camera-row filter, the saved-client list, and the download file name.
 *
 * The DOM is replaced by values: the form is a record of the field values
 * (an unchecked radio group reads as ""), the saved clients are a sequence
 * field of the application object, and the clock (client ids and creation
 * stamps) is passed in.
 */
module WebappApp {
  import opened Wrappers
  import opened Text
  import opened WebappGenerator

  // ---------------------------------------------------------------------------
  // Step counter
  // ---------------------------------------------------------------------------

  function Min(a: int, b: int): int { if a <= b then a else b }
  function Max(a: int, b: int): int { if a >= b then a else b }

  /** The camera step exists only for projects with video. */
  function StepsFor(projectType: string): (r: int)
    ensures r == 3 <==> projectType == "video" || projectType == "both"
    ensures r == 2 || r == 3
  {
    if projectType == "video" || projectType == "both" then 3 else 2
  }

  /** The step after `k` successful advances from `current`. */
  function Advance(current: int, maxSteps: int, k: nat): int {
    if k == 0 then current else Min(Advance(current, maxSteps, k - 1) + 1, maxSteps)
  }

  /** The step after `k` presses of Previous from `current`. */
  function GoBack(current: int, k: nat): int {
    if k == 0 then current else Max(GoBack(current, k - 1) - 1, 1)
  }

  /** Advancing climbs one step per press and then stays on the last step. */
  lemma {:induction false} AdvanceReachesLast(current: int, maxSteps: int, k: nat)
    requires current <= maxSteps
    ensures Advance(current, maxSteps, k) == Min(current + k, maxSteps)
  {
    if k > 0 {
      AdvanceReachesLast(current, maxSteps, k - 1);
    }
  }

  /** Going back descends one step per press and then stays on the first step. */
  lemma {:induction false} GoBackReachesFirst(current: int, k: nat)
    requires current >= 1
    ensures GoBack(current, k) == Max(current - k, 1)
  {
    if k > 0 {
      GoBackReachesFirst(current, k - 1);
    }
  }

  // ---------------------------------------------------------------------------
  // Form collection
  // ---------------------------------------------------------------------------

  /** One camera row of the form: the selected purpose and the typed camera name. */
  datatype CameraRow = CameraRow(purpose: string, camera: string)

  /** The form's field values. */
  datatype Form = Form(
    projectType: string,
    workType: string,
    projectName: string,
    projectDate: string,
    clientName: string,
    includeCaptureOne: bool,
    includeProxies: bool,
    useCameraFolders: bool,
    rows: seq<CameraRow>)

  /** A row is kept when its purpose is chosen and its trimmed camera name is not empty. */
  predicate Keeps(r: CameraRow) {
    r.purpose != "" && Trim(r.camera) != ""
  }

  function AssignmentOf(r: CameraRow): CameraAssignment {
    CameraAssignment(r.purpose, Trim(r.camera))
  }

  function KeptRows(rows: seq<CameraRow>): seq<CameraAssignment> {
    if rows == [] then []
    else
      var r := rows[|rows| - 1];
      KeptRows(rows[..|rows| - 1]) + (if Keeps(r) then [AssignmentOf(r)] else [])
  }

  /** collectFormData */
  method CollectFormData(form: Form) returns (config: Config)
    ensures config == Config(form.projectType, form.workType, Trim(form.projectName), form.projectDate,
      Trim(form.clientName), form.includeCaptureOne, form.includeProxies, form.useCameraFolders,
      if form.useCameraFolders then KeptRows(form.rows) else [])
  {
    var assignments: seq<CameraAssignment> := [];
    if form.useCameraFolders {
      var rows := form.rows;
      for i := 0 to |rows|
        invariant assignments == KeptRows(rows[..i])
      {
        assert rows[..i + 1][..i] == rows[..i];
        var purpose := rows[i].purpose;
        var camera := Trim(rows[i].camera);
        if purpose != "" && camera != "" {
          assignments := assignments + [CameraAssignment(purpose, camera)];
        }
        assert assignments == KeptRows(rows[..i + 1]);
      }
      assert rows[..|rows|] == rows;
    }
    config := Config(form.projectType, form.workType, Trim(form.projectName), form.projectDate,
      Trim(form.clientName), form.includeCaptureOne, form.includeProxies, form.useCameraFolders, assignments);
  }

  /**
   * Exactly the rows with a purpose and a non-blank camera survive, with the
   * camera trimmed; no more assignments than rows.
   */
  lemma {:induction false} KeptRowsMembers(rows: seq<CameraRow>)
    ensures |KeptRows(rows)| <= |rows|
    ensures forall a :: a in KeptRows(rows) <==> exists r :: r in rows && Keeps(r) && a == AssignmentOf(r)
  {
    if rows != [] {
      var n := |rows| - 1;
      KeptRowsMembers(rows[..n]);
      assert rows == rows[..n] + [rows[n]];
    }
  }

  /** A kept row is one with a purpose and a camera that is not all whitespace; its camera arrives trimmed. */
  lemma KeptRowsClean(rows: seq<CameraRow>)
    ensures forall r :: r in rows ==> (Keeps(r) <==> r.purpose != "" && !AllWhitespace(r.camera))
    ensures forall a :: a in KeptRows(rows) ==> (a.purpose != "" && a.camera != ""
                                                && !IsWhitespace(a.camera[0]) && !IsWhitespace(a.camera[|a.camera| - 1]))
  {
    KeptRowsMembers(rows);
  }

  // ---------------------------------------------------------------------------
  // Download file name
  // ---------------------------------------------------------------------------

  /** A character outside the Basic Multilingual Plane: a JavaScript string holds it as two UTF-16 code units. */
  predicate IsAstral(c: char) {
    c as int > 0xFFFF
  }

  /** The length of s in UTF-16 code units, the length a JavaScript string reports. */
  function Utf16Length(s: string): (r: nat)
    ensures |s| <= r <= 2 * |s|
  {
    if s == [] then 0 else (if IsAstral(s[0]) then 2 else 1) + Utf16Length(s[1..])
  }

  /** What the pattern `[^a-z0-9]` with flags `gi` writes for one character: one '_' per code unit it replaces. */
  function SanitizeChar(c: char): string {
    if IsAlnum(c) then [c] else if IsAstral(c) then "__" else "_"
  }

  /**
   * `replace(/[^a-z0-9]/gi, '_')`: every code unit outside [A-Za-z0-9]
   * becomes '_'. Without the `u` flag the pattern matches code units, so a
   * character outside the Basic Multilingual Plane becomes two '_'.
   */
  function SanitizeName(s: string): (r: string)
    ensures |r| == Utf16Length(s)
    ensures forall i :: 0 <= i < |r| ==> IsAlnum(r[i]) || r[i] == '_'
  {
    if s == [] then [] else SanitizeChar(s[0]) + SanitizeName(s[1..])
  }

  /** On a name inside the Basic Multilingual Plane the replacement is character for character. */
  lemma {:induction false} SanitizeNameBmp(s: string)
    requires forall i :: 0 <= i < |s| ==> !IsAstral(s[i])
    ensures |SanitizeName(s)| == |s|
    ensures forall i :: 0 <= i < |s| ==> SanitizeName(s)[i] == (if IsAlnum(s[i]) then s[i] else '_')
  {
    if s != [] {
      SanitizeNameBmp(s[1..]);
      var r := SanitizeName(s);
      assert r == [r[0]] + SanitizeName(s[1..]);
      forall i | 1 <= i < |s| ensures r[i] == (if IsAlnum(s[i]) then s[i] else '_') {
        assert r[i] == SanitizeName(s[1..])[i - 1];
        assert s[1..][i - 1] == s[i];
      }
    }
  }

  /** Letters, digits and '_' are left alone, so sanitising a sanitised name changes nothing. */
  lemma {:induction false} SanitizeNameFixed(s: string)
    requires forall i :: 0 <= i < |s| ==> IsAlnum(s[i]) || s[i] == '_'
    ensures SanitizeName(s) == s
  {
    if s != [] {
      SanitizeNameFixed(s[1..]);
      assert s == [s[0]] + s[1..];
    }
  }

  function DownloadFilename(projectName: string): string {
    SanitizeName(projectName) + "_structure.zip"
  }

  /**
   * The file name is the sanitised name plus `_structure.zip`. The
   * sanitised part is as long as the name in UTF-16 code units, holds only
   * letters, digits and '_', and sanitising it again changes nothing; a name
   * of letters and digits is kept as it is.
   */
  lemma DownloadFilenameShape(projectName: string)
    ensures var f := DownloadFilename(projectName);
      var n := Utf16Length(projectName);
      && |f| == n + 14
      && f[n..] == "_structure.zip"
      && (forall i :: 0 <= i < n ==> IsAlnum(f[i]) || f[i] == '_')
      && SanitizeName(f[..n]) == f[..n]
    ensures (forall i :: 0 <= i < |projectName| ==> IsAlnum(projectName[i])) ==>
      DownloadFilename(projectName) == projectName + "_structure.zip"
  {
    var f := DownloadFilename(projectName);
    var n := Utf16Length(projectName);
    assert f[..n] == SanitizeName(projectName);
    SanitizeNameFixed(SanitizeName(projectName));
    if forall i :: 0 <= i < |projectName| ==> IsAlnum(projectName[i]) {
      SanitizeNameFixed(projectName);
    }
  }

  // ---------------------------------------------------------------------------
  // The application object
  // ---------------------------------------------------------------------------

  /** A saved client; `id` and `created` come from the clock. */
  datatype SavedClient = SavedClient(id: int, name: string, notes: string, created: string)

  predicate SameName(a: string, b: string) {
    Lower(a) == Lower(b)
  }

  predicate HasClientNamed(clients: seq<SavedClient>, name: string) {
    exists i :: 0 <= i < |clients| && SameName(clients[i].name, name)
  }

  /** No two saved clients share a name up to letter case. */
  predicate NamesUnique(clients: seq<SavedClient>) {
    forall i, j :: 0 <= i < j < |clients| ==> !SameName(clients[i].name, clients[j].name)
  }

  /** `clients.filter(c => c.id !== id)` */
  function WithoutId(clients: seq<SavedClient>, id: int): seq<SavedClient> {
    if clients == [] then []
    else
      var c := clients[|clients| - 1];
      WithoutId(clients[..|clients| - 1], id) + (if c.id != id then [c] else [])
  }

  /** Removal keeps exactly the clients with another id. */
  lemma {:induction false} WithoutIdMembers(clients: seq<SavedClient>, id: int)
    ensures forall c :: c in WithoutId(clients, id) <==> c in clients && c.id != id
  {
    if clients != [] {
      var n := |clients| - 1;
      WithoutIdMembers(clients[..n], id);
      assert clients == clients[..n] + [clients[n]];
    }
  }

  /** Removal keeps saved names unique. */
  lemma {:induction false} WithoutIdUnique(clients: seq<SavedClient>, id: int)
    requires NamesUnique(clients)
    ensures NamesUnique(WithoutId(clients, id))
  {
    if clients != [] {
      var n := |clients| - 1;
      var init, last := clients[..n], clients[n];
      assert NamesUnique(init);
      WithoutIdUnique(init, id);
      WithoutIdMembers(init, id);
      var kept := WithoutId(init, id);
      if last.id != id {
        forall k | 0 <= k < |kept| ensures !SameName(kept[k].name, last.name) {
          assert kept[k] in init;
          var j :| 0 <= j < n && init[j] == kept[k];
          assert clients[j] == kept[k];
        }
        UniqueSnoc(kept, last);
      } else {
        assert kept + [] == kept;
      }
    }
  }

  lemma UniqueSnoc(clients: seq<SavedClient>, c: SavedClient)
    requires NamesUnique(clients)
    requires forall k :: 0 <= k < |clients| ==> !SameName(clients[k].name, c.name)
    ensures NamesUnique(clients + [c])
  {
    var s := clients + [c];
    forall i, j | 0 <= i < j < |s| ensures !SameName(s[i].name, s[j].name) {
      assert s[i] == clients[i];
      if j < |clients| {
        assert s[j] == clients[j];
      }
    }
  }

  class App {
    var currentStep: int
    var maxSteps: int
    var clients: seq<SavedClient>

    /** The form starts on step 1 of 3, with the clients loaded from storage. */
    constructor(loaded: seq<SavedClient>)
      ensures currentStep == 1 && maxSteps == 3 && clients == loaded
    {
      currentStep := 1;
      maxSteps := 3;
      clients := loaded;
    }

    /** onProjectTypeChange: the step count follows the project type; the current step is left alone. */
    method OnProjectTypeChange(projectType: string)
      modifies this
      ensures maxSteps == StepsFor(projectType)
      ensures currentStep == old(currentStep) && clients == old(clients)
    {
      if projectType == "video" || projectType == "both" {
        maxSteps := 3;
      } else {
        maxSteps := 2;
      }
    }

    /** nextStep: advance by one, capped at the last step, only when the current step validates. */
    method NextStep(stepValid: bool)
      modifies this
      ensures currentStep == if stepValid then Advance(old(currentStep), maxSteps, 1) else old(currentStep)
      ensures maxSteps == old(maxSteps) && clients == old(clients)
      ensures old(currentStep) <= maxSteps ==> currentStep <= maxSteps
    {
      if stepValid {
        currentStep := Min(currentStep + 1, maxSteps);
      }
    }

    /** prevStep: back by one, never below step 1. */
    method PrevStep()
      modifies this
      ensures currentStep == GoBack(old(currentStep), 1)
      ensures currentStep >= 1
      ensures maxSteps == old(maxSteps) && clients == old(clients)
    {
      currentStep := Max(currentStep - 1, 1);
    }

    /** showProjectForm and resetForm go back to the first step. */
    method ResetStep()
      modifies this
      ensures currentStep == 1
      ensures maxSteps == old(maxSteps) && clients == old(clients)
    {
      currentStep := 1;
    }

    /**
     * saveNewClient: the trimmed name must be non-empty and new up to letter
     * case; then exactly one client is appended.
     */
    method SaveNewClient(rawName: string, rawNotes: string, id: int, created: string) returns (error: Option<string>)
      modifies this
      ensures AllWhitespace(rawName) ==> error == Some("Client name is required")
      ensures !AllWhitespace(rawName) && HasClientNamed(old(clients), Trim(rawName)) ==> error == Some("Client already exists")
      ensures error.None? <==> !AllWhitespace(rawName) && !HasClientNamed(old(clients), Trim(rawName))
      ensures error.Some? ==> clients == old(clients)
      ensures error.None? ==> clients == old(clients) + [SavedClient(id, Trim(rawName), Trim(rawNotes), created)]
      ensures NamesUnique(old(clients)) ==> NamesUnique(clients)
      ensures currentStep == old(currentStep) && maxSteps == old(maxSteps)
    {
      var name := Trim(rawName);
      var notes := Trim(rawNotes);
      if name == "" {
        return Some("Client name is required");
      }
      if HasClientNamed(clients, name) {
        return Some("Client already exists");
      }
      clients := clients + [SavedClient(id, name, notes, created)];
      error := None;
    }

    /** saveClientIfNew: append a client with empty notes unless one has that name up to letter case. */
    method SaveClientIfNew(name: string, id: int, created: string)
      modifies this
      ensures HasClientNamed(old(clients), name) ==> clients == old(clients)
      ensures !HasClientNamed(old(clients), name) ==> clients == old(clients) + [SavedClient(id, name, "", created)]
      ensures HasClientNamed(clients, name)
      ensures NamesUnique(old(clients)) ==> NamesUnique(clients)
      ensures currentStep == old(currentStep) && maxSteps == old(maxSteps)
    {
      if !HasClientNamed(clients, name) {
        clients := clients + [SavedClient(id, name, "", created)];
        assert SameName(clients[|clients| - 1].name, name);
      }
    }

    /** removeClient: once confirmed, keep exactly the clients with another id. */
    method RemoveClient(id: int, confirmed: bool)
      modifies this
      ensures clients == if confirmed then WithoutId(old(clients), id) else old(clients)
      ensures forall c :: c in clients <==> c in old(clients) && (confirmed ==> c.id != id)
      ensures NamesUnique(old(clients)) ==> NamesUnique(clients)
      ensures currentStep == old(currentStep) && maxSteps == old(maxSteps)
    {
      if confirmed {
        WithoutIdMembers(clients, id);
        if NamesUnique(clients) {
          WithoutIdUnique(clients, id);
        }
        clients := WithoutId(clients, id);
      }
    }
  }
}
