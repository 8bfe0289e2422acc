/**
 * The landing-page demo (web/script.js): the nested folder object built from
 * the demo answers, the text tree printed from it, the zip entries walked
 * from it, and the demo's step counter.
 *
 * A JavaScript object is an ordered list of entries: assigning to a new key
 * appends it, assigning to an existing key replaces the value in place.
 * Integer-like keys, which JavaScript would move to the front, only ever
 * occur here as the sole key of their object (the year, a client or a
 * project name), so insertion order is the order throughout.
 */
module DemoScript {
  import opened Wrappers
  import opened Text

  datatype Entry = Entry(key: string, value: Tree)
  datatype Tree = Node(entries: seq<Entry>)

  /** `{}` */
  const Empty: Tree := Node([])

  function Keys(es: seq<Entry>): (r: seq<string>)
    ensures |r| == |es| && forall i :: 0 <= i < |es| ==> r[i] == es[i].key
  {
    seq(|es|, i requires 0 <= i < |es| => es[i].key)
  }

  /** `obj[key] = value`: an existing key keeps its place, a new key goes last. */
  function Put(es: seq<Entry>, key: string, value: Tree): (r: seq<Entry>)
    ensures Keys(r) == if key in Keys(es) then Keys(es) else Keys(es) + [key]
    ensures forall i :: 0 <= i < |r| ==> r[i] == Entry(key, value) || r[i] in es
  {
    if es == [] then [Entry(key, value)]
    else
      var first, later := es[0], es[1..];
      assert es == [first] + later;
      KeysCons(first, later);
      if first.key == key then
        KeysCons(Entry(key, value), later);
        [Entry(key, value)] + later
      else
        var rest := Put(later, key, value);
        KeysCons(first, rest);
        ConcatAssoc([first.key], Keys(later), [key]);
        [first] + rest
  }

  lemma KeysCons(e: Entry, rest: seq<Entry>)
    ensures Keys([e] + rest) == [e.key] + Keys(rest)
  {
  }

  /** Assigning a key the object does not have yet appends it. */
  lemma {:induction false} PutNew(es: seq<Entry>, key: string, value: Tree)
    requires key !in Keys(es)
    ensures Put(es, key, value) == es + [Entry(key, value)]
  {
    if es != [] {
      var first, later := es[0], es[1..];
      assert es == [first] + later;
      KeysCons(first, later);
      PutNew(later, key, value);
      ConcatAssoc([first], later, [Entry(key, value)]);
    }
  }

  /** `keys.forEach(k => obj[k] = {})` */
  function PutAll(es: seq<Entry>, keys: seq<string>): seq<Entry> {
    if keys == [] then es
    else Put(PutAll(es, keys[..|keys| - 1]), keys[|keys| - 1], Empty)
  }

  /** Filling an empty object keeps each distinct key once, in first-seen order, each holding `{}`. */
  lemma {:induction false} PutAllFresh(keys: seq<string>)
    ensures Keys(PutAll([], keys)) == Dedup(keys)
    ensures forall i :: 0 <= i < |PutAll([], keys)| ==> PutAll([], keys)[i].value == Empty
  {
    if keys != [] {
      PutAllFresh(keys[..|keys| - 1]);
    }
  }

  // ---------------------------------------------------------------------------
  // The demo answers and the folder structure
  // ---------------------------------------------------------------------------

  datatype DemoCamera = DemoCamera(purpose: string, camera: string)

  /** The demo answers the structure is built from. */
  datatype DemoState = DemoState(
    projectType: string,
    workType: string,
    clientName: string,
    projectName: string,
    projectDate: string,
    includeCapture: bool,
    includeProxies: bool,
    cameras: seq<DemoCamera>)

  datatype Folder = Folder(name: string, children: Tree)

  /** `files` is optional in the tree printer; the demo always supplies it. */
  datatype Structure = Structure(folders: seq<Folder>, files: Option<seq<string>>)

  function ProjectFolder(s: DemoState): string {
    if s.workType == "client" then s.projectDate + "-" + s.projectName else s.projectName
  }

  /** The project folder is dated for client work and the bare name otherwise. */
  lemma ProjectFolderForms(s: DemoState)
    ensures s.workType == "client" ==> (StartsWith(ProjectFolder(s), s.projectDate + "-")
                                        && ProjectFolder(s)[|s.projectDate| + 1..] == s.projectName)
    ensures s.workType != "client" ==> ProjectFolder(s) == s.projectName
  {
    if s.workType == "client" {
      assert ProjectFolder(s)[..|s.projectDate| + 1] == s.projectDate + "-";
    }
  }

  function CameraKey(c: DemoCamera): string {
    c.purpose + "-" + Lower(c.camera)
  }

  function CameraKeys(cams: seq<DemoCamera>): (r: seq<string>)
    ensures |r| == |cams| && forall i :: 0 <= i < |cams| ==> r[i] == CameraKey(cams[i])
  {
    seq(|cams|, i requires 0 <= i < |cams| => CameraKey(cams[i]))
  }

  function PhotoBody(s: DemoState): Tree {
    Node([Entry("RAW", Empty), Entry("Edited", Empty), Entry("Deliverables", Empty),
          Entry("Contracts & Briefs", Empty), Entry("Exports for Social-Print", Empty)]
         + (if s.includeCapture then [Entry("Capture One", Empty)] else []))
  }

  /** The camera keys put into one of the Footage sub-objects. */
  function CameraFolders(cams: seq<DemoCamera>): seq<Entry> {
    if |cams| > 0 then PutAll([], CameraKeys(cams)) else []
  }

  function FootageBody(s: DemoState): Tree {
    Node([Entry("RAW", Node(CameraFolders(s.cameras)))]
         + (if s.includeProxies then [Entry("Proxies", Node(CameraFolders(s.cameras)))] else []))
  }

  function VideoBody(s: DemoState): Tree {
    Node([Entry("Footage", FootageBody(s)), Entry("Edited", Empty), Entry("Deliverables", Empty),
          Entry("Contracts & Briefs", Empty), Entry("Exports", Empty),
          Entry("Thumbnail & Graphics", Empty), Entry("Audio", Empty)])
  }

  function WorkFolder(s: DemoState): string {
    if s.workType == "client" then "Client Work" else "Personal Work"
  }

  /** The client for client work, otherwise the current year (a parameter: the demo reads the clock). */
  function OwnerFolder(s: DemoState, year: nat): string {
    if s.workType == "client" then s.clientName else DecimalString(year)
  }

  /** `{ [work]: { [owner]: { [project]: body } } }` */
  function Wrap(s: DemoState, year: nat, body: Tree): Tree {
    Node([Entry(WorkFolder(s), Node([Entry(OwnerFolder(s, year), Node([Entry(ProjectFolder(s), body)]))]))])
  }

  function FolderStructure(s: DemoState, year: nat): Structure {
    var photo := if s.projectType == "photo" || s.projectType == "both" then [Folder("PHOTO", Wrap(s, year, PhotoBody(s)))] else [];
    var video := if s.projectType == "video" || s.projectType == "both" then [Folder("VIDEO", Wrap(s, year, VideoBody(s)))] else [];
    Structure(photo + video, Some(["README.md"]))
  }

  /** The camera keys, one loop per Footage sub-object. */
  method FillCameraFolders(cams: seq<DemoCamera>) returns (es: seq<Entry>)
    ensures es == CameraFolders(cams)
  {
    es := [];
    if |cams| > 0 {
      var keys := CameraKeys(cams);
      for i := 0 to |cams|
        invariant es == PutAll([], keys[..i])
      {
        assert keys[..i + 1][..i] == keys[..i];
        es := Put(es, CameraKey(cams[i]), Empty);
      }
      assert keys[..|cams|] == keys;
    }
  }

  /** generateFolderStructure */
  method GenerateFolderStructure(s: DemoState, year: nat) returns (st: Structure)
    ensures st == FolderStructure(s, year)
  {
    var folders: seq<Folder> := [];
    if s.projectType == "photo" || s.projectType == "both" {
      var photo := [Entry("RAW", Empty), Entry("Edited", Empty), Entry("Deliverables", Empty),
                    Entry("Contracts & Briefs", Empty), Entry("Exports for Social-Print", Empty)];
      if s.includeCapture {
        PutNew(photo, "Capture One", Empty);
        photo := Put(photo, "Capture One", Empty);
      }
      assert Node(photo) == PhotoBody(s);
      folders := folders + [Folder("PHOTO", Wrap(s, year, Node(photo)))];
    }
    if s.projectType == "video" || s.projectType == "both" {
      var raw := FillCameraFolders(s.cameras);
      var footage := [Entry("RAW", Node(raw))];
      if s.includeProxies {
        var proxies := FillCameraFolders(s.cameras);
        footage := footage + [Entry("Proxies", Node(proxies))];
      }
      var video := [Entry("Footage", Node(footage)), Entry("Edited", Empty), Entry("Deliverables", Empty),
                    Entry("Contracts & Briefs", Empty), Entry("Exports", Empty),
                    Entry("Thumbnail & Graphics", Empty), Entry("Audio", Empty)];
      assert Node(footage) == FootageBody(s);
      assert Node(video) == VideoBody(s);
      folders := folders + [Folder("VIDEO", Wrap(s, year, Node(video)))];
    }
    st := Structure(folders, Some(["README.md"]));
  }

  function FolderNames(fs: seq<Folder>): (r: seq<string>)
    ensures |r| == |fs| && forall i :: 0 <= i < |fs| ==> r[i] == fs[i].name
  {
    seq(|fs|, i requires 0 <= i < |fs| => fs[i].name)
  }

  /** A PHOTO folder for photo and both, a VIDEO folder for video and both, PHOTO first; one README file always. */
  lemma TopLevelFolders(s: DemoState, year: nat)
    ensures var st := FolderStructure(s, year);
      && st.files == Some(["README.md"])
      && FolderNames(st.folders) == (if s.projectType == "photo" then ["PHOTO"]
                                      else if s.projectType == "video" then ["VIDEO"]
                                      else if s.projectType == "both" then ["PHOTO", "VIDEO"]
                                      else [])
  {
  }

  /** Every branch nests the body under work folder, owner folder and project folder, one key per level. */
  lemma BranchNesting(s: DemoState, year: nat, f: Folder)
    requires f in FolderStructure(s, year).folders
    ensures f.children.entries[0].key == WorkFolder(s) && |f.children.entries| == 1
    ensures var owner := f.children.entries[0].value.entries;
      |owner| == 1 && owner[0].key == OwnerFolder(s, year)
      && |owner[0].value.entries| == 1 && owner[0].value.entries[0].key == ProjectFolder(s)
    ensures f.name == "PHOTO" ==> f.children.entries[0].value.entries[0].value.entries[0].value == PhotoBody(s)
    ensures f.name == "VIDEO" ==> f.children.entries[0].value.entries[0].value.entries[0].value == VideoBody(s)
  {
    assert f == Folder("PHOTO", Wrap(s, year, PhotoBody(s))) || f == Folder("VIDEO", Wrap(s, year, VideoBody(s)));
  }

  /** Personal work is filed under the current year, never under the project date. */
  lemma PersonalYear(s: DemoState, year: nat)
    requires s.workType != "client"
    ensures OwnerFolder(s, year) == DecimalString(year)
    ensures DigitsValue(OwnerFolder(s, year)) == year
  {
    DecimalRoundTrip(year);
  }

  /**
   * The RAW camera keys are `<purpose>-<lower-cased camera>`, one per distinct
   * key in first-seen order (identical keys collapse), each an empty folder.
   */
  lemma CameraFolderKeys(cams: seq<DemoCamera>)
    ensures Keys(CameraFolders(cams)) == Dedup(CameraKeys(cams))
    ensures forall i :: 0 <= i < |CameraFolders(cams)| ==> CameraFolders(cams)[i].value == Empty
  {
    PutAllFresh(CameraKeys(cams));
  }

  /** Proxies exists iff it is asked for, and then holds exactly RAW's camera folders. */
  lemma ProxiesMirrorRaw(s: DemoState)
    ensures Keys(FootageBody(s).entries) == if s.includeProxies then ["RAW", "Proxies"] else ["RAW"]
    ensures s.includeProxies ==> FootageBody(s).entries[1].value == FootageBody(s).entries[0].value
  {
  }

  /** Capture One is the sixth photo folder exactly when it is asked for. */
  lemma CaptureOneOnlyWhenAsked(s: DemoState)
    ensures "Capture One" in Keys(PhotoBody(s).entries) <==> s.includeCapture
    ensures s.includeCapture ==> Keys(PhotoBody(s).entries)[5] == "Capture One"
  {
    var base := ["RAW", "Edited", "Deliverables", "Contracts & Briefs", "Exports for Social-Print"];
    if !s.includeCapture {
      assert Keys(PhotoBody(s).entries) == base;
      assert base[0] != "Capture One" && base[1] != "Capture One" && base[2] != "Capture One";
      assert base[3] != "Capture One" && base[4] != "Capture One";
    } else {
      assert Keys(PhotoBody(s).entries) == base + ["Capture One"];
    }
  }

  // ---------------------------------------------------------------------------
  // Text tree
  // ---------------------------------------------------------------------------

  const LastBranch: string := "\U{2514}\U{2500}\U{2500} "
  const MidBranch: string := "\U{251C}\U{2500}\U{2500} "
  const Bar: string := "\U{2502}   "
  const Gap: string := "    "

  function Connector(isLast: bool): string {
    if isLast then LastBranch else MidBranch
  }

  function Indent(isLast: bool): string {
    if isLast then Gap else Bar
  }

  /** Each line followed by a newline, the way the printers accumulate their result. */
  function Unlines(lines: seq<string>): string {
    if lines == [] then "" else lines[0] + "\n" + Unlines(lines[1..])
  }

  /**
   * generateTreeFromObject, as the lines it prints from entry `i` on: each
   * key with a '/' suffix, the last sibling with the closing connector, then
   * its non-empty children one level deeper.
   */
  function ObjectLines(t: Tree, i: nat, prefix: string): seq<string>
    requires i <= |t.entries|
    decreases t, |t.entries| - i
  {
    if i == |t.entries| then []
    else
      var e := t.entries[i];
      var isLast := i == |t.entries| - 1;
      [prefix + Connector(isLast) + e.key + "/"]
      + (if |e.value.entries| > 0 then ObjectLines(e.value, 0, prefix + Indent(isLast)) else [])
      + ObjectLines(t, i + 1, prefix)
  }

  function TreeFromObject(t: Tree, prefix: string): string {
    Unlines(ObjectLines(t, 0, prefix))
  }

  /** The number of keys in an object at every depth, from entry `i` on. */
  function KeyCount(t: Tree, i: nat): nat
    requires i <= |t.entries|
    decreases t, |t.entries| - i
  {
    if i == |t.entries| then 0 else 1 + KeyCount(t.entries[i].value, 0) + KeyCount(t, i + 1)
  }

  /** One line per key at every depth. */
  lemma {:induction false} ObjectLinesCount(t: Tree, i: nat, prefix: string)
    requires i <= |t.entries|
    ensures |ObjectLines(t, i, prefix)| == KeyCount(t, i)
    decreases t, |t.entries| - i
  {
    if i < |t.entries| {
      var e := t.entries[i];
      var deeper := prefix + Indent(i == |t.entries| - 1);
      ObjectLinesCount(t, i + 1, prefix);
      ObjectLinesCount(e.value, 0, deeper);
      if |e.value.entries| == 0 {
        assert KeyCount(e.value, 0) == 0;
      }
    }
  }

  /** Each line carries the prefix and ends in '/'. */
  lemma {:induction false} ObjectLinesShape(t: Tree, i: nat, prefix: string)
    requires i <= |t.entries|
    ensures forall l :: l in ObjectLines(t, i, prefix) ==> StartsWith(l, prefix) && |l| > 0 && l[|l| - 1] == '/'
    decreases t, |t.entries| - i
  {
    if i < |t.entries| {
      var e := t.entries[i];
      var isLast := i == |t.entries| - 1;
      var deeper := prefix + Indent(isLast);
      ObjectLinesShape(t, i + 1, prefix);
      ObjectLinesShape(e.value, 0, deeper);
      forall l | l in ObjectLines(e.value, 0, deeper) ensures StartsWith(l, prefix) {
        StartsWithTrans(l, deeper, prefix);
      }
      var first := prefix + Connector(isLast) + e.key + "/";
      assert first[..|prefix|] == prefix;
    }
  }

  /** The folder lines of generateTreeText from folder `i` on; `filesPresent` decides whether the last folder closes. */
  function FolderLines(folders: seq<Folder>, i: nat, filesPresent: bool, prefix: string): seq<string>
    requires i <= |folders|
    decreases |folders| - i
  {
    if i == |folders| then []
    else
      var isLastFolder := i == |folders| - 1 && !filesPresent;
      [prefix + Connector(isLastFolder) + folders[i].name + "/"]
      + ObjectLines(folders[i].children, 0, prefix + Indent(isLastFolder))
      + FolderLines(folders, i + 1, filesPresent, prefix)
  }

  function FileLines(files: seq<string>, i: nat, prefix: string): seq<string>
    requires i <= |files|
    decreases |files| - i
  {
    if i == |files| then []
    else [prefix + Connector(i == |files| - 1) + files[i]] + FileLines(files, i + 1, prefix)
  }

  /** generateTreeText: the folders, each followed by its object tree, then the files. */
  function TreeText(st: Structure, prefix: string): string {
    Unlines(FolderLines(st.folders, 0, st.files.Some?, prefix)
            + (if st.files.Some? then FileLines(st.files.value, 0, prefix) else []))
  }

  /** Lines one level below a non-closing folder start with the bar, never with the closing connector. */
  lemma BelowBarNeverCloses(t: Tree, prefix: string)
    ensures forall l :: l in ObjectLines(t, 0, prefix + Bar) ==> !StartsWith(l, prefix + LastBranch)
  {
    var deeper := prefix + Bar;
    ObjectLinesShape(t, 0, deeper);
    forall l | l in ObjectLines(t, 0, deeper) ensures !StartsWith(l, prefix + LastBranch) {
      assert l[|prefix|] == deeper[|prefix|];
      assert (prefix + LastBranch)[|prefix|] == LastBranch[0];
    }
  }

  /**
   * With a file list present, no folder line starts with the closing
   * connector at the top level: top-level folders never close.
   */
  lemma {:induction false} FoldersNeverClose(folders: seq<Folder>, i: nat, prefix: string)
    requires i <= |folders|
    ensures forall l :: l in FolderLines(folders, i, true, prefix) ==> !StartsWith(l, prefix + LastBranch)
    decreases |folders| - i
  {
    if i < |folders| {
      FoldersNeverClose(folders, i + 1, prefix);
      BelowBarNeverCloses(folders[i].children, prefix);
      var first := prefix + MidBranch + folders[i].name + "/";
      assert first[|prefix|] == MidBranch[0];
      assert (prefix + LastBranch)[|prefix|] == LastBranch[0];
      assert !StartsWith(first, prefix + LastBranch);
      var lines := FolderLines(folders, i, true, prefix);
      assert lines == [first] + ObjectLines(folders[i].children, 0, prefix + Bar) + FolderLines(folders, i + 1, true, prefix);
    }
  }

  /** Without a file list the last folder does close. */
  lemma LastFolderClosesWithoutFiles(folders: seq<Folder>, prefix: string)
    requires |folders| > 0
    ensures StartsWith(FolderLines(folders, |folders| - 1, false, prefix)[0], prefix + LastBranch)
  {
    var l := FolderLines(folders, |folders| - 1, false, prefix)[0];
    assert l[..|prefix + LastBranch|] == prefix + LastBranch;
  }

  /** The demo's tree ends with the README line, which closes the top level. */
  lemma DemoTreeEndsWithReadme(s: DemoState, year: nat)
    ensures var st := FolderStructure(s, year);
      TreeText(st, "") == Unlines(FolderLines(st.folders, 0, true, "") + [LastBranch + "README.md"])
  {
    assert FileLines(["README.md"], 1, "") == [];
    assert "" + Connector(true) + "README.md" == LastBranch + "README.md";
    assert FileLines(["README.md"], 0, "") == [LastBranch + "README.md"];
    var st := FolderStructure(s, year);
    assert st.files == Some(["README.md"]);
  }

  // ---------------------------------------------------------------------------
  // Zip entries
  // ---------------------------------------------------------------------------

  datatype ZipEntry = ZipFolder(path: string) | ZipFile(path: string, content: string)

  const GitkeepContent: string := "# This file ensures the folder is created in git repositories\n"

  /** The zip archive under construction: the entries handed to it, in order. */
  class Zip {
    var entries: seq<ZipEntry>

    constructor()
      ensures entries == []
    {
      entries := [];
    }

    method AddFolder(path: string)
      modifies this
      ensures entries == old(entries) + [ZipFolder(path)]
    {
      entries := entries + [ZipFolder(path)];
    }

    method AddFile(path: string, content: string)
      modifies this
      ensures entries == old(entries) + [ZipFile(path, content)]
    {
      entries := entries + [ZipFile(path, content)];
    }
  }

  /** The entries addObjectToZip hands over from entry `i` on. */
  function ObjectZip(t: Tree, i: nat, base: string): seq<ZipEntry>
    requires i <= |t.entries|
    decreases t, |t.entries| - i, 1
  {
    if i == |t.entries| then [] else EntryZip(t, i, base) + ObjectZip(t, i + 1, base)
  }

  /** The entries for entry `i`: its folder, then its subtree or, for an empty object, a `.gitkeep` file. */
  function EntryZip(t: Tree, i: nat, base: string): seq<ZipEntry>
    requires i < |t.entries|
    decreases t, |t.entries| - i, 0
  {
    var e := t.entries[i];
    var path := base + e.key + "/";
    [ZipFolder(path)]
    + (if |e.value.entries| > 0 then ObjectZip(e.value, 0, path) else [ZipFile(path + ".gitkeep", GitkeepContent)])
  }

  /** addObjectToZip */
  method AddObjectToZip(zip: Zip, t: Tree, base: string)
    modifies zip
    ensures zip.entries == old(zip.entries) + ObjectZip(t, 0, base)
    decreases t, 1
  {
    for i := 0 to |t.entries|
      invariant zip.entries + ObjectZip(t, i, base) == old(zip.entries) + ObjectZip(t, 0, base)
    {
      ghost var before := zip.entries;
      AddEntryToZip(zip, t, i, base);
      assert ObjectZip(t, i, base) == EntryZip(t, i, base) + ObjectZip(t, i + 1, base);
      assert zip.entries + ObjectZip(t, i + 1, base) == before + ObjectZip(t, i, base);
    }
  }

  /** One iteration of addObjectToZip's loop. */
  method AddEntryToZip(zip: Zip, t: Tree, i: nat, base: string)
    requires i < |t.entries|
    modifies zip
    ensures zip.entries == old(zip.entries) + EntryZip(t, i, base)
    decreases t, 0
  {
    var e := t.entries[i];
    var path := base + e.key + "/";
    zip.AddFolder(path);
    if |e.value.entries| > 0 {
      AddObjectToZip(zip, e.value, path);
    } else {
      zip.AddFile(path + ".gitkeep", GitkeepContent);
    }
  }

  function FolderCount(es: seq<ZipEntry>): nat {
    if es == [] then 0 else (if es[0].ZipFolder? then 1 else 0) + FolderCount(es[1..])
  }

  function FileCount(es: seq<ZipEntry>): nat {
    if es == [] then 0 else (if es[0].ZipFile? then 1 else 0) + FileCount(es[1..])
  }

  lemma {:induction false} CountsAppend(a: seq<ZipEntry>, b: seq<ZipEntry>)
    ensures FolderCount(a + b) == FolderCount(a) + FolderCount(b)
    ensures FileCount(a + b) == FileCount(a) + FileCount(b)
  {
    if a == [] {
      assert a + b == b;
    } else {
      assert (a + b)[1..] == a[1..] + b;
      CountsAppend(a[1..], b);
    }
  }

  /** The number of empty objects (leaves) at every depth, from entry `i` on. */
  function LeafCount(t: Tree, i: nat): nat
    requires i <= |t.entries|
    decreases t, |t.entries| - i
  {
    if i == |t.entries| then 0
    else (if |t.entries[i].value.entries| == 0 then 1 else LeafCount(t.entries[i].value, 0)) + LeafCount(t, i + 1)
  }

  /**
   * One folder entry per key at every depth, one `.gitkeep` file per empty
   * object, and every entry lies under the base path.
   */
  lemma {:induction false} ObjectZipShape(t: Tree, i: nat, base: string)
    requires i <= |t.entries|
    ensures FolderCount(ObjectZip(t, i, base)) == KeyCount(t, i)
    ensures FileCount(ObjectZip(t, i, base)) == LeafCount(t, i)
    ensures forall z :: z in ObjectZip(t, i, base) ==> StartsWith(z.path, base)
    decreases t, |t.entries| - i, 1
  {
    if i < |t.entries| {
      EntryZipShape(t, i, base);
      ObjectZipShape(t, i + 1, base);
      CountsAppend(EntryZip(t, i, base), ObjectZip(t, i + 1, base));
    }
  }

  lemma {:induction false} EntryZipShape(t: Tree, i: nat, base: string)
    requires i < |t.entries|
    ensures FolderCount(EntryZip(t, i, base)) == 1 + KeyCount(t.entries[i].value, 0)
    ensures FileCount(EntryZip(t, i, base)) == if |t.entries[i].value.entries| == 0 then 1 else LeafCount(t.entries[i].value, 0)
    ensures forall z :: z in EntryZip(t, i, base) ==> StartsWith(z.path, base)
    decreases t, |t.entries| - i, 0
  {
    var e := t.entries[i];
    var path := base + e.key + "/";
    var inner := if |e.value.entries| > 0 then ObjectZip(e.value, 0, path) else [ZipFile(path + ".gitkeep", GitkeepContent)];
    assert path[..|base|] == base;
    if |e.value.entries| > 0 {
      ObjectZipShape(e.value, 0, path);
      forall z | z in inner ensures StartsWith(z.path, base) {
        StartsWithTrans(z.path, path, base);
      }
    } else {
      assert KeyCount(e.value, 0) == 0;
      assert (path + ".gitkeep")[..|base|] == base;
      assert FolderCount(inner) == 0 && FileCount(inner) == 1;
    }
    CountsAppend([ZipFolder(path)], inner);
  }

  /**
   * The entries addFoldersToZip hands over: each top-level folder, then its
   * object tree. The folder itself gets no `.gitkeep`, even when its object is empty.
   */
  function FoldersZip(folders: seq<Folder>, base: string): seq<ZipEntry> {
    if folders == [] then []
    else
      var path := base + folders[0].name + "/";
      [ZipFolder(path)] + ObjectZip(folders[0].children, 0, path) + FoldersZip(folders[1..], base)
  }

  /** addFoldersToZip */
  method AddFoldersToZip(zip: Zip, folders: seq<Folder>, base: string)
    modifies zip
    ensures zip.entries == old(zip.entries) + FoldersZip(folders, base)
  {
    for i := 0 to |folders|
      invariant zip.entries + FoldersZip(folders[i..], base) == old(zip.entries) + FoldersZip(folders, base)
    {
      var path := base + folders[i].name + "/";
      zip.AddFolder(path);
      AddObjectToZip(zip, folders[i].children, path);
      assert folders[i..][1..] == folders[i + 1..];
    }
  }

  /** Every top-level folder has its folder entry. */
  lemma {:induction false} FoldersZipHasFolders(folders: seq<Folder>, base: string)
    ensures forall k :: 0 <= k < |folders| ==> ZipFolder(base + folders[k].name + "/") in FoldersZip(folders, base)
  {
    if folders != [] {
      var rest := folders[1..];
      var all := FoldersZip(folders, base);
      var tail := FoldersZip(rest, base);
      FoldersZipHasFolders(rest, base);
      assert all == [ZipFolder(base + folders[0].name + "/")] + ObjectZip(folders[0].children, 0, base + folders[0].name + "/") + tail;
      forall k | 1 <= k < |folders|
        ensures ZipFolder(base + folders[k].name + "/") in all
      {
        assert rest[k - 1] == folders[k];
        assert ZipFolder(base + rest[k - 1].name + "/") in tail;
      }
    }
  }

  /** Every entry lies inside one of the top-level folders. */
  lemma {:induction false} FoldersZipInsideFolders(folders: seq<Folder>, base: string)
    ensures forall z :: z in FoldersZip(folders, base) ==>
      exists k :: 0 <= k < |folders| && StartsWith(z.path, base + folders[k].name + "/")
  {
    if folders != [] {
      var path := base + folders[0].name + "/";
      var rest := folders[1..];
      var head := [ZipFolder(path)] + ObjectZip(folders[0].children, 0, path);
      var tail := FoldersZip(rest, base);
      FoldersZipInsideFolders(rest, base);
      ObjectZipShape(folders[0].children, 0, path);
      assert FoldersZip(folders, base) == head + tail;
      forall z: ZipEntry | z in head + tail
        ensures exists k :: 0 <= k < |folders| && StartsWith(z.path, base + folders[k].name + "/")
      {
        if z in tail {
          var k :| 0 <= k < |rest| && StartsWith(z.path, base + rest[k].name + "/");
          assert rest[k] == folders[k + 1];
        } else {
          assert StartsWith(z.path, base + folders[0].name + "/");
        }
      }
    }
  }

  // ---------------------------------------------------------------------------
  // Step counter
  // ---------------------------------------------------------------------------

  /** The demo has eight steps: smart detection, type, work type, client, name, date, options, confirmation. */
  const StepCount: nat := 8

  class Demo {
    var currentStep: int

    constructor()
      ensures currentStep == 0
    {
      currentStep := 0;
    }

    /** nextStep: the counter always advances; the step is shown only while it is still in the list. */
    method NextStep() returns (shown: Option<nat>)
      modifies this
      ensures currentStep == old(currentStep) + 1
      ensures shown.Some? <==> 0 <= currentStep < StepCount
      ensures shown.Some? ==> shown.value == currentStep
    {
      currentStep := currentStep + 1;
      if 0 <= currentStep < StepCount {
        shown := Some(currentStep);
      } else {
        shown := None;
      }
    }
  }
}
