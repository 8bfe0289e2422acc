# Creative Structure folder planning, modelled in Dafny

Creative Structure generates project folder trees for photographers and
videographers. This project models its folder-planning core. The core plans
a project's directories from a project configuration (project type photo, video or
both; client or personal work; client, project name, date; Capture One,
proxies and camera-folder options). The repository has three planners, each with its own path
layout, and each is modelled on its own terms:

- `WebappGenerator`: the web app's generator (webapp/structure-generator.js).
  Paths are `TYPE/Client Work/<client>/<ISO date>-<name>/…`, filled from
  per-medium, per-work-type template tables. Camera folders fan out after
  `Footage/RAW` and after the proxies folder. It also validates, summarises,
  writes the preview, the README and the archive entries.
- `WebGenerator`: the second web app's generator
  (web/webapp/structure-generator.js). Paths are
  `Client Work/<client>/<date> <name>/[PHOTO|VIDEO]/…`, built from fixed folder
  lists with camera and role folders, common folders and one README file. It
  also has a tree renderer and a validator.
- `PyGenerators`: the Python command-line planner
  (src/sbp_generator/generators.py). It covers the current-directory
  analysis, the base path with its skip tags, the built-in template table,
  folder emission with RAW/Proxies camera fan-out, and the per-type project
  loop.

Supporting modules:

- `PyModels`: enums, folder-name cleaning and validators
  (src/sbp_generator/models.py).
- `PyClientManager`: the client table (src/sbp_generator/client_manager.py).
- `PyCli`: the `--cameras` option parser, the required-option order, the
  client merge and the duplicate-assignment check (src/sbp_generator/cli.py).
- `DemoScript`: the landing page demo (web/script.js). It covers the nested
  folder object, the two tree printers, the zip walker and the step counter.
- `WebappApp` and `WebWebappApp`: the step counters, form collection, client
  lists and download entries of the two app.js files.
- `Text`, `Checks`, `Sorting` and `Wrappers`: shared string helpers, the
  "push a message when the check fails" tables, string sorting, and
  Option/Result.

The models follow each source's form. Loops that push into a list, or
mutate a map or a counter, are methods, and each is proved equal to a
specification function. Objects whose fields the source updates are
classes: `PyClientManager.ClientManager`, `WebappApp.App`,
`WebWebappApp.App`, `DemoScript.Demo`, `DemoScript.Zip`,
`WebGenerator.Structure` and `WebappGenerator.PathList`. Lemmas then state
the properties the source promises about those functions.

## Model

| member | source | states |
|---|---|---|
| WebappGenerator.GetProjectTypes | webapp/structure-generator.js:85-96 | one or two branches, each PHOTO or VIDEO; VIDEO iff the type is video or both, PHOTO iff it is not video, two iff both (so any unknown type gives PHOTO) |
| WebappGenerator.AddCameraFolders | webapp/structure-generator.js:157-164 | appends exactly the `<purpose>-<camera>` folders under the parent, one per assignment in order, and only when camera folders are on and the list is non-empty |
| WebappGenerator.AddOptionalFolders | webapp/structure-generator.js:173-188 | appends Capture One only for the photo branch, and the proxies folder with its camera folders only for the video branch when no existing path already starts with it |
| WebappGenerator.GenerateTypeStructure | webapp/structure-generator.js:104-149 | the loop's paths equal the branch's specification: base path, template folders in order with camera fan-out after Footage/RAW and Footage/Proxies, then the optional folders |
| WebappGenerator.BuildBasePath | webapp/structure-generator.js:108-129 | the step-by-step base path equals the base-path specification: branch, work-type folder, client or year folder, project folder |
| WebappGenerator.AddTemplateFolder | webapp/structure-generator.js:136-143 | one template folder's path, followed by its camera folders exactly for Footage/RAW and Footage/Proxies |
| WebappGenerator.GenerateSummary | webapp/structure-generator.js:211-233 | the pushed summary equals the summary specification (display type, work type, 'N/A' client, features in the order Capture One, Proxies, camera count) |
| WebappGenerator.FormatProjectType | webapp/structure-generator.js:240-251 | the display name differs from the input exactly for photo, video and both, so an unknown type passes through unchanged |
| WebappGenerator.GeneratePreviewText | webapp/structure-generator.js:258-310 | 'No folders to create' for an empty list; otherwise the empty string, since renderTree's result is discarded and only the empty accumulator is kept |
| WebappGenerator.GenerateStructure | webapp/structure-generator.js:59-78 | the plan is the branches' paths concatenated in branch order with no de-duplication, together with the summary and the preview |
| WebappGenerator.ValidateConfig | webapp/structure-generator.js:425-456 | the errors are the failed checks' messages in check order, and the configuration is valid iff there is no error, iff it is complete |
| WebappGenerator.ValidationErrors | webapp/structure-generator.js:425-456 | at most six messages, and no validation error exactly when type, work type, name and date are present, client work has a client, and camera folders have assignments |
| WebappGenerator.MessagesDistinct | webapp/structure-generator.js:429-449 | the six checks carry six different messages |
| WebappGenerator.ValidationMessages | webapp/structure-generator.js:428-450 | each of the six messages is reported exactly when its own condition fails |
| WebappGenerator.CreateZipEntries | webapp/structure-generator.js:348-364 | one `.gitkeep` placeholder per planned path in plan order, then README.md holding the generated README text |
| WebappGenerator.BranchBaseTypes | webapp/structure-generator.js:106 | PHOTO uses the photo templates and VIDEO the video templates |
| WebappGenerator.TemplatePathsAppend | webapp/structure-generator.js:135-143 | the template loop distributes over concatenation of the template list |
| WebappGenerator.FanOutFollowedByCameras | webapp/structure-generator.js:135-143 | a Footage/RAW or Footage/Proxies template entry is immediately followed by its camera folders, in assignment order, between the entries before and after it |
| WebappGenerator.PlainTemplatePaths | webapp/structure-generator.js:135-143 | without fan-out entries the template maps one to one onto `<base>/<folder>` paths, in table order |
| WebappGenerator.NoPathUnderProxies | webapp/structure-generator.js:181-183 | templates whose only fan-out entry is Footage/RAW yield no path under Footage/Proxies, so the duplicate guard passes |
| WebappGenerator.PhotoBranchLayout | webapp/structure-generator.js:104-149 | the photo branch is its template one to one, then Capture One iff requested; never camera or proxies folders (with lines 173-177) |
| WebappGenerator.VideoBranchLayout | webapp/structure-generator.js:104-149 | the video branch is its template paths, then the proxies folder and its camera folders iff proxies are requested (with lines 180-187) |
| WebappGenerator.VideoClientTemplateLayout | webapp/structure-generator.js:24-33 | client video: Footage, Footage/RAW, the RAW camera folders, then the six remaining template folders in order (with lines 135-143) |
| WebappGenerator.VideoClientHead | webapp/structure-generator.js:24-26 | the first client video template entry yields just the Footage folder |
| WebappGenerator.VideoClientTail | webapp/structure-generator.js:27-32 | the client video entries after Footage/RAW map one to one onto paths |
| WebappGenerator.VideoPersonalTemplateLayout | webapp/structure-generator.js:34-39 | personal video has no Footage/RAW, so its template never gets RAW camera folders |
| WebappGenerator.TemplateUnderBase | webapp/structure-generator.js:135-143 | every template path lies under the base path |
| WebappGenerator.OptionalUnderBase | webapp/structure-generator.js:173-188 | every optional path lies under the base path |
| WebappGenerator.BranchPathsUnderBranch | webapp/structure-generator.js:109-129 | every path of a branch starts with the branch's top folder |
| WebappGenerator.BothBranchesDisjoint | webapp/structure-generator.js:69-72 | for both, the plan is the photo branch followed by the video branch, and no path occurs in both |
| WebappGenerator.TemplatePathsLength | webapp/structure-generator.js:135-143 | the template loop emits at least one path per template entry |
| WebappGenerator.PlanEmptyIff | webapp/structure-generator.js:132 | the plan is empty exactly when the work type has no template and no optional folder applies to the chosen branches (with lines 173-188) |
| WebappGenerator.BasePathSegments | webapp/structure-generator.js:109-129 | the base path splits into TYPE, Client Work, client (omitted when empty), `<ISO>-<name>`; or TYPE, Personal Work, year, name (with lines 197-204) |
| WebappGenerator.SummaryFeatures | webapp/structure-generator.js:221-230 | each feature is listed exactly when it is switched on, with at most three features |
| WebappGenerator.ReadmeOpening | webapp/structure-generator.js:371-383 | the README opens with the title, the project information lines and one bullet per feature, in that order |
| WebappGenerator.ReadmeHeadSingleLines | webapp/structure-generator.js:374-380 | the README head lines contain no line break when the fields do not |
| WebappGenerator.SegmentsOfFour | webapp/structure-generator.js:109-129 | four '/'-free segments joined with '/' split back into the same four |
| WebappGenerator.JoinThree | webapp/structure-generator.js:109-129 | joining three segments is writing them with '/' between them |
| WebappGenerator.JoinFour | webapp/structure-generator.js:109-129 | joining four segments is writing them with '/' between them |
| WebappGenerator.PathList.constructor | webapp/structure-generator.js:105 | the structure starts with no paths |
| WebGenerator.FormatProjectType | web/webapp/structure-generator.js:233-240 | the display name differs from the input exactly for the three known types |
| WebGenerator.FormatWorkType | web/webapp/structure-generator.js:245-251 | the display name differs from the input exactly for client and personal |
| WebGenerator.FormatRoleFolder | web/webapp/structure-generator.js:177-188 | a role in the seven-entry map gives its label; any other role is returned unchanged, and only then |
| WebGenerator.SummaryOf | web/webapp/structure-generator.js:215-228 | the summary has a client exactly for client work with a non-empty client name, and then it is that name |
| WebGenerator.Under | web/webapp/structure-generator.js:89-96 | one `<parent>/<name>` folder per name, in table order |
| WebGenerator.Structure.constructor | web/webapp/structure-generator.js:16-20 | the structure starts with no folders, no files and the given summary |
| WebGenerator.AddPhotoFolders | web/webapp/structure-generator.js:85-102 | appends the eight photo folders under PHOTO (for both) or the base, then Capture One Catalog iff requested; files unchanged |
| WebGenerator.AddCameraFolders | web/webapp/structure-generator.js:136-149 | appends per assignment `RAW Footage/<folder or Camera i>` and, when the role is set and not main, its role sub-folder |
| WebGenerator.AddVideoFolders | web/webapp/structure-generator.js:107-131 | appends the seven video folders, Proxies iff requested, then camera folders, or the single default `RAW Footage/Camera 1` when camera folders are off or the list is missing |
| WebGenerator.AddVideoCameraFolders | web/webapp/structure-generator.js:124-130 | appends the per-assignment camera folders when camera folders are on and a list is given, otherwise only the default `RAW Footage/Camera 1` |
| WebGenerator.AddCommonFolders | web/webapp/structure-generator.js:154-164 | appends the three common folders and exactly one README.txt file at the base path |
| WebGenerator.AddProjectFolders | web/webapp/structure-generator.js:46-55 | photo folders for photo/both, then video folders for video/both, then the common folders and the README |
| WebGenerator.GenerateClientStructure | web/webapp/structure-generator.js:35-56 | client work is planned under `Client Work/<client or "Client Name">/<date> <name>` |
| WebGenerator.GeneratePersonalStructure | web/webapp/structure-generator.js:61-80 | personal work is planned under `Personal Work/<date> <name>`, dated too |
| WebGenerator.GenerateStructure | web/webapp/structure-generator.js:15-30 | a fresh structure holding exactly the planned folders, the one README file and the summary |
| WebGenerator.NameTableKeys | web/webapp/structure-generator.js:233-251 | the type tables know exactly photo/video/both and client/personal |
| WebGenerator.ValidationEmptyIffComplete | web/webapp/structure-generator.js:306-333 | no validation error exactly for a known type and work type, a non-blank name, a date, and a non-blank client for client work |
| WebGenerator.ValidateConfig | web/webapp/structure-generator.js:306-333 | the errors are the failed checks' messages in check order, and the result is valid iff the configuration is complete (no camera check) |
| WebGenerator.ValidationErrors | web/webapp/structure-generator.js:306-328 | at most five messages, each failed check's own in check order |
| WebGenerator.MessagesDistinct | web/webapp/structure-generator.js:309-327 | the five checks carry five different messages |
| WebGenerator.ValidationMessages | web/webapp/structure-generator.js:309-327 | each of the five messages is reported exactly when its own check fails |
| WebGenerator.ReadmeClientLine | web/webapp/structure-generator.js:193-210 | the README's fifth line is `Client: <name>` exactly for client work with a client, otherwise the blank separator |
| WebGenerator.Indent | web/webapp/structure-generator.js:284 | the indent is two spaces per level (with line 296) |
| WebGenerator.GenerateFolderTree | web/webapp/structure-generator.js:270-301 | the loop's text equals the tree specification: sorted folders, a line per running path not yet printed, then one line per file |
| WebGenerator.AddFolderParts | web/webapp/structure-generator.js:276-289 | walking one folder's parts prints exactly the walk specification: a line for each running path not printed before, which is then remembered |
| WebGenerator.AddFileLines | web/webapp/structure-generator.js:292-298 | after the folder lines, one line per file in file order |
| WebGenerator.UnderIsUnder | web/webapp/structure-generator.js:89-117 | every listed folder lies under its parent |
| WebGenerator.CameraFoldersUnderRawFootage | web/webapp/structure-generator.js:136-149 | every camera folder lies under RAW Footage |
| WebGenerator.CameraFolderPerAssignment | web/webapp/structure-generator.js:137-147 | each assignment gets its camera folder, and its role folder when it has one |
| WebGenerator.CameraFoldersSize | web/webapp/structure-generator.js:136-149 | one or two folders per assignment, and none exactly for an empty list (an enabled empty list gets no camera folder) |
| WebGenerator.VideoCameraFoldersUnderRawFootage | web/webapp/structure-generator.js:124-130 | the video branch's camera part, including the default Camera 1, lies under RAW Footage |
| WebGenerator.PhotoFoldersUnder | web/webapp/structure-generator.js:85-102 | every photo folder lies under the photo base |
| WebGenerator.VideoFoldersUnder | web/webapp/structure-generator.js:107-131 | every video folder lies under the video base |
| WebGenerator.BothKeepsMediaApart | web/webapp/structure-generator.js:86 | for both, photo folders lie under PHOTO/ and video folders under VIDEO/, so no folder is shared (with line 108) |
| WebGenerator.FoldersUnderProjectFolder | web/webapp/structure-generator.js:35-80 | every planned folder lies inside the project folder |
| WebGenerator.AncestorPathsMembers | web/webapp/structure-generator.js:275-289 | a path is printed exactly when it is a running path of one of the folders |
| WebGenerator.PartsWalkSeen | web/webapp/structure-generator.js:279-289 | walking a folder's parts adds exactly its running paths to the seen set |
| WebGenerator.PartsWalkBalance | web/webapp/structure-generator.js:283-288 | a line is added exactly when a new path is remembered, so lines and remembered paths grow together |
| WebGenerator.FoldersWalkCounts | web/webapp/structure-generator.js:275-290 | after all folders, the seen set is every running path and there is one line per seen path |
| WebGenerator.FolderTreeOneLinePerPath | web/webapp/structure-generator.js:270-290 | sorting first, the tree has exactly one folder line per distinct running path, whatever the planned order |
| Sorting.SortStrings | web/webapp/structure-generator.js:271 | the folders sorted by code-point order (see Left out), as a permutation of the input |
| Sorting.StrLeTotal | web/webapp/structure-generator.js:271 | the string order used by the sort is total |
| PyGenerators.TypeIndexFrom | src/sbp_generator/generators.py:40-41 | the first photo or video directory at or after i, and none before it (with line 92) |
| PyGenerators.AnalyzeCurrentDirectory | src/sbp_generator/generators.py:40-139 | the loop's analysis equals the analysis specification, stopping at the first type directory |
| PyGenerators.RecordTypeDir | src/sbp_generator/generators.py:41-136 | the updates made at the first type directory give the specification's type, base, work type, client or year, and skip list (the type's tag repeated before the work tag) |
| PyGenerators.RecordClientWork | src/sbp_generator/generators.py:59-79 | after a Client Work segment the record holds the client work type, the Client Work path, the client when a third segment exists, and the matching skip tags |
| PyGenerators.RecordPersonalWork | src/sbp_generator/generators.py:80-87 | after a Personal Work segment the record holds the personal work type, the year when the third segment is all digits, and the matching skip tags |
| PyGenerators.NoWorkDir | src/sbp_generator/generators.py:57-58 | without a work segment after the type directory only the type, the base and the type's skip tag are recorded |
| PyGenerators.AnalysisFirstTypeDir | src/sbp_generator/generators.py:40-54 | the first type directory fixes the type, and the suggested base is the path before it, or the whole path when it is last (with lines 92-105) |
| PyGenerators.AnalysisOutsideStructure | src/sbp_generator/generators.py:27-37 | a path with no type directory is not in the structure and is its own suggested base |
| PyGenerators.PersonalYearDetected | src/sbp_generator/generators.py:81-88 | inside Personal Work, a decimal year segment is read back as that year and tagged to skip (with lines 131-137) |
| PyGenerators.ClientDetected | src/sbp_generator/generators.py:57-79 | inside Client Work, the next segment is the client, tagged to skip, and the Client Work path is recorded (with lines 108-129) |
| PyGenerators.DefaultStructureShape | src/sbp_generator/generators.py:191-272 | an unknown template gives no folders; only video templates have Footage/RAW; photography_personal has no optional folder |
| PyGenerators.TemplateName | src/sbp_generator/generators.py:427-430 | the template name starts with photography_ or videography_ |
| PyGenerators.TemplateNamesKnown | src/sbp_generator/generators.py:427-430 | every single type and work type names one of the four built-in project templates |
| PyGenerators.ProjectFolderNameParts | src/sbp_generator/generators.py:274-282 | client work gives `<date>-<name>` with both parts recoverable; personal work gives the bare name |
| PyGenerators.GetProjectBasePath | src/sbp_generator/generators.py:284-334 | the step-by-step path equals the base-path specification |
| PyGenerators.BuildPath | src/sbp_generator/generators.py:314-322 | the start directory followed by the type and work folders in that order, an empty one left out |
| PyGenerators.AddLastFolder | src/sbp_generator/generators.py:324-332 | adds the client folder for client work with a non-empty client, otherwise the year for personal work, unless the analysis skips it |
| PyGenerators.BasePathComposition | src/sbp_generator/generators.py:298-334 | start directory, then type folder, work sub-folder and client-or-year folder, each present exactly when its skip tag is absent (client also needs a name) |
| PyGenerators.SkipTagsIgnoreSmartFlag | src/sbp_generator/generators.py:292-296 | skip tags shorten the path whether or not smart detection is on; the flag only chooses the start directory |
| PyGenerators.CameraPaths | src/sbp_generator/generators.py:363-367 | one folder per assignment under the directory, named by the assignment's folder name, in order |
| PyGenerators.AppendCameras | src/sbp_generator/generators.py:363-367 | the camera loop appends exactly those folders |
| PyGenerators.EmitMainFolders | src/sbp_generator/generators.py:341-344 | the main folders in template order |
| PyGenerators.EmitChildFolders | src/sbp_generator/generators.py:352-367 | each child, followed by the camera folders when it is named RAW and the fan-out applies |
| PyGenerators.EmitSubfolders | src/sbp_generator/generators.py:347-367 | each parent's children in key order |
| PyGenerators.EmitOptionalFolders | src/sbp_generator/generators.py:370-394 | each selected optional folder, with camera folders after a Proxies folder when the fan-out applies |
| PyGenerators.CreateFolders | src/sbp_generator/generators.py:336-396 | main folders, then sub-folders, then optional folders, equal to the emission specification |
| PyGenerators.BelowChild | src/sbp_generator/generators.py:342 | lying inside is transitive (with lines 353, 365) |
| PyGenerators.MainPathsShape | src/sbp_generator/generators.py:341-344 | a main folder path is emitted exactly for each template folder, each inside the base |
| PyGenerators.ChildPathsShape | src/sbp_generator/generators.py:352-367 | every child path lies inside its parent |
| PyGenerators.SubPathsShape | src/sbp_generator/generators.py:347-367 | every sub-folder path lies inside the base |
| PyGenerators.OptionalPathsShape | src/sbp_generator/generators.py:370-394 | every selected optional folder is emitted, and every optional path lies inside the base |
| PyGenerators.CreatedBelowBase | src/sbp_generator/generators.py:336-396 | every emitted folder lies strictly inside the project folder |
| PyGenerators.OptionalEmittedIff | src/sbp_generator/generators.py:370-382 | an optional folder is emitted exactly when it names Capture One and that is requested, or Proxies and those are requested (or it is also a main folder) |
| PyGenerators.ChildPathsHas | src/sbp_generator/generators.py:352-367 | each child's entries appear among its parent's paths |
| PyGenerators.SubPathsHas | src/sbp_generator/generators.py:347-367 | each parent's child paths appear among the sub-folder paths |
| PyGenerators.RawCameraFolderIff | src/sbp_generator/generators.py:357-367 | below a RAW child, an assignment's folder is emitted exactly when camera folders are on, assigned, and the type is video or both |
| PyGenerators.PhotographyPersonalFolders | src/sbp_generator/generators.py:206-213 | photography_personal emits its three folders and nothing else, whatever is requested |
| PyGenerators.ProxiesFolderNames | src/sbp_generator/generators.py:374-376 | Footage/Proxies names Proxies and not Capture One |
| PyGenerators.VideoTemplateFolders | src/sbp_generator/generators.py:214-246 | the video templates put camera folders right after Footage/RAW, and Footage/Proxies with its own camera folders only when proxies are requested |
| PyGenerators.FootageRawTemplateFolders | src/sbp_generator/generators.py:347-394 | a template with Footage/RAW and Footage/Proxies emits main folders, RAW, RAW's cameras, then proxies and their cameras when requested |
| PyGenerators.ProjectTypes | src/sbp_generator/generators.py:411-415 | both expands to two types (photography, videography), any other type to itself |
| PyGenerators.PlannedPaths | src/sbp_generator/generators.py:417-437 | one project path per handled type, in order |
| PyGenerators.GenerateTypeProject | src/sbp_generator/generators.py:417-437 | one pass gives the type's project path and the folders made from its template |
| PyGenerators.PlanProjectTypes | src/sbp_generator/generators.py:417-438 | stops at the first pass with the first validator message and nothing planned exactly when the config cannot be built again from its fields; otherwise the per-type project paths and folders in type order |
| PyGenerators.GenerateProject | src/sbp_generator/generators.py:398-449 | succeeds exactly when the config can be built again from its fields; then the per-type project paths and folders, the success message and the client-table update for client work with a client; otherwise no paths, no folders, no client update and `Error creating project: ` before the validator message |
| PyGenerators.PlannedFoldersBelow | src/sbp_generator/generators.py:417-437 | every emitted folder lies inside the project folder of one of the handled types |
| PyGenerators.BothProjectPaths | src/sbp_generator/generators.py:411-437 | both gives a photography project path first and a videography one second, each ending in the project folder name |
| PyModels.PurposeValues | src/sbp_generator/models.py:24-32 | purpose values contain no hyphen and are pairwise different |
| PyModels.KeepFolderChars | src/sbp_generator/models.py:51-54 | keeps only alphanumerics and '-' |
| PyModels.CleanFolderName | src/sbp_generator/models.py:48-54 | the cleaned name is no longer than the input and holds only alphanumerics and '-' |
| PyModels.KeepFolderCharsFixed | src/sbp_generator/models.py:51-54 | a name already made of safe characters is kept unchanged |
| PyModels.KeepFolderCharsAppend | src/sbp_generator/models.py:51-54 | filtering works character by character over concatenation |
| PyModels.CleanFolderNameFixedIff | src/sbp_generator/models.py:48-54 | cleaning leaves a name unchanged exactly when it holds only alphanumerics and '-' |
| PyModels.CleanFolderNameIdempotent | src/sbp_generator/models.py:48-54 | cleaning twice is cleaning once |
| PyModels.AssignmentFolderName | src/sbp_generator/models.py:62-64 | the purpose value, a hyphen, then the cleaned camera name |
| PyModels.AssignmentFolderPurpose | src/sbp_generator/models.py:62-64 | the purpose is recovered as the text before the first hyphen |
| PyModels.AssignmentFolderNameInjective | src/sbp_generator/models.py:62-64 | equal folder names mean equal purposes and equal cleaned camera names |
| PyModels.StripRequired | src/sbp_generator/models.py:42-46 | a whitespace-only value is rejected with the field's message; otherwise the value is stored stripped |
| PyModels.StripRequiredIdempotent | src/sbp_generator/models.py:74-78 | an accepted value is accepted again unchanged |
| PyModels.ValidateClientName | src/sbp_generator/models.py:100-104 | rejected exactly when missing or empty for client work; otherwise stored stripped, or None when empty |
| PyModels.BlankClientNamePasses | src/sbp_generator/models.py:100-104 | a whitespace-only client name passes for client work and becomes "" |
| PyModels.CameraNameErrors | src/sbp_generator/models.py:42-46 | one message per blank camera name, and none exactly when every camera name has a non-blank character |
| PyModels.RebuildErrors | src/sbp_generator/generators.py:419 | building the config again runs the project-name, client-name and camera-name validators, and is refused exactly when one of them fails (with models.py:94-104) |
| PyModels.BlankClientNameFailsRebuild | src/sbp_generator/models.py:100-104 | the "" stored for a whitespace-only client name fails the client-name validator when the config is built again at generators.py:419 |
| PyModels.RebuildAcceptsValid | src/sbp_generator/generators.py:419 | a config whose project name, client name and camera names all validate is built again without error |
| PyModels.DefaultCameraNamesDistinct | src/sbp_generator/models.py:114-134 | the six default cameras have case-insensitively distinct names |
| PyClientManager.Remove | src/sbp_generator/client_manager.py:98-105 | removal never lengthens the key order |
| PyClientManager.RemoveMembers | src/sbp_generator/client_manager.py:98-105 | after removal, the keys are exactly the others |
| PyClientManager.RemoveDistinct | src/sbp_generator/client_manager.py:98-105 | removal keeps the keys distinct |
| PyClientManager.MatchingMembers | src/sbp_generator/client_manager.py:119-122 | the matches are exactly the keys containing the query case-insensitively |
| PyClientManager.MatchingInOrder | src/sbp_generator/client_manager.py:119-122 | matches keep the table's order |
| PyClientManager.Merge | src/sbp_generator/client_manager.py:85-96 | the merged record fails exactly when the merged name is blank; it keeps the given projects and notes |
| PyClientManager.ClientManager.constructor | src/sbp_generator/client_manager.py:16-19 | an empty table |
| PyClientManager.ClientManager.AddClient | src/sbp_generator/client_manager.py:66-75 | an existing key is refused; a blank name fails validation; otherwise exactly one record with the stripped name is added under the key, appended to the order |
| PyClientManager.ClientManager.GetClient | src/sbp_generator/client_manager.py:77-79 | the record under the key, or None exactly when the key is absent |
| PyClientManager.ClientManager.ListClients | src/sbp_generator/client_manager.py:81-83 | every key once, in insertion order |
| PyClientManager.ClientManager.UpdateClient | src/sbp_generator/client_manager.py:85-96 | None for an unknown key; otherwise only that record is replaced by the merged one, or nothing changes when validation fails |
| PyClientManager.ClientManager.DeleteClient | src/sbp_generator/client_manager.py:98-105 | false and no change for an unknown key; otherwise exactly that key is removed |
| PyClientManager.ClientManager.AddProjectToClient | src/sbp_generator/client_manager.py:107-117 | false for an unknown client; otherwise the project is appended unless listed, so duplicate-free lists stay duplicate-free |
| PyClientManager.ClientManager.SearchClients | src/sbp_generator/client_manager.py:119-122 | the keys containing the query case-insensitively, in table order |
| PyCli.FirstFailure | src/sbp_generator/cli.py:129-143 | None exactly when no check fails; otherwise the message of the first failing check |
| PyCli.FirstFailureOfFour | src/sbp_generator/cli.py:129-143 | with four checks, the first failing one in order is reported |
| PyCli.CheckRequired | src/sbp_generator/cli.py:129-143 | the checks run in the order type, work type, project, client-for-client-work, returning at the first failure |
| PyCli.RequiredStopsAtFirst | src/sbp_generator/cli.py:129-143 | only the first missing option is reported |
| PyCli.PurposeByValue | src/sbp_generator/cli.py:166 | a purpose found by value has exactly that value |
| PyCli.LowerUpperChar | src/sbp_generator/cli.py:161 | lower-casing an upper-cased character is lower-casing it (with line 166) |
| PyCli.BtsNeverByValue | src/sbp_generator/cli.py:166 | lower-casing never yields BTS, so behind-the-scenes is found only through the aliases (with line 172) |
| PyCli.PurposeCaseInsensitive | src/sbp_generator/cli.py:160-186 | every purpose word is accepted in any letter case and yields its own purpose |
| PyCli.AliasKeyParses | src/sbp_generator/cli.py:161-183 | each alias word names the purpose its table row gives, whether found by enum value or by alias |
| PyCli.PurposeAliasWords | src/sbp_generator/cli.py:161-183 | every alias word, in any letter case, is upper-cased and yields the purpose the alias table gives it |
| PyCli.DefaultCameraMapFinds | src/sbp_generator/cli.py:152 | each default camera is found under its lower-cased name |
| PyCli.ItemResults | src/sbp_generator/cli.py:154-197 | one parse result per item, in order |
| PyCli.ParseCameraOption | src/sbp_generator/cli.py:149-151 | the option is parsed, and camera folders turned on, exactly when it is given and the type is video or both |
| PyCli.ParseCameraItems | src/sbp_generator/cli.py:154-203 | the loop returns at the first bad item and otherwise equals the parse specification |
| PyCli.CollectStops | src/sbp_generator/cli.py:154-158 | once a prefix fails, the whole run fails with the same error |
| PyCli.CollectOk | src/sbp_generator/cli.py:196-197 | a run succeeds exactly when every item does, and then keeps their order |
| PyCli.ParseItemsInOrder | src/sbp_generator/cli.py:154-197 | the list parses exactly when every item parses, giving one assignment per item in input order |
| PyCli.TrailingCommaAborts | src/sbp_generator/cli.py:154-158 | a trailing comma leaves an empty item, which aborts the whole option |
| Text.SplitFirst | src/sbp_generator/cli.py:160 | the item is the text before its first colon, the colon, then the rest; the purpose part holds no colon |
| Text.SplitFirstOf | src/sbp_generator/cli.py:160 | conversely, a colon-free purpose part followed by a colon and any camera word (colons included) splits back into those two parts |
| PyCli.FindsDefaultCamera | src/sbp_generator/cli.py:189-191 | a camera word whose key is a default's lower-cased name finds that default camera |
| PyCli.DefaultCameraWord | src/sbp_generator/cli.py:189-191 | with the shipped defaults, dji-pocket in any case finds the DJI POCKET camera |
| PyCli.MergeClients | src/sbp_generator/cli.py:396-404 | the two loops give the discovered and database clients de-duplicated in first-seen order |
| PyCli.MergeClientsShape | src/sbp_generator/cli.py:396-404 | every client once, discovered clients first in their own order, nothing else listed |
| PyCli.AddAssignmentKeepsDistinct | src/sbp_generator/cli.py:631-637 | adding through the check keeps folder names distinct and refuses exactly an existing folder name |
| Text.Trim | src/sbp_generator/models.py:46 | the stripped text has no whitespace at either end and is empty exactly for whitespace-only input |
| Text.TrimIdempotent | src/sbp_generator/models.py:46 | stripping twice is stripping once |
| Text.Dedup | src/sbp_generator/cli.py:396-404 | distinct elements, exactly the input's |
| Text.DedupPrefix | src/sbp_generator/cli.py:396-404 | de-duplicating an extension extends the de-duplicated prefix |
| Text.DecimalRoundTrip | web/script.js:422 | the year's decimal text reads back as the year (with line 465) |
| Checks.Pushed | webapp/structure-generator.js:428-430 | a check pushes nothing when it passes and exactly its own message when it fails |
| Checks.PushedAfter | webapp/structure-generator.js:425-451 | after one more check the reported messages are the earlier ones plus that check's own when it fails |
| Checks.SelectedMembers | webapp/structure-generator.js:221-230 | a feature is listed exactly when one of its rows is switched on |
| Checks.SelectedUnique | webapp/structure-generator.js:221-230 | a feature named by one row only is listed exactly when that row is switched on |
| DemoScript.Keys | web/script.js:517 | one key per entry, in insertion order |
| DemoScript.Put | web/script.js:415 | an existing key keeps its place and a new key goes last (with lines 447, 452) |
| DemoScript.PutNew | web/script.js:415 | assigning a new key appends it (with line 452) |
| DemoScript.PutAllFresh | web/script.js:445-448 | filling an empty object keeps each distinct key once, in first-seen order, each holding {} |
| DemoScript.ProjectFolderForms | web/script.js:401-403 | `<date>-<name>` for client work, the bare name otherwise |
| DemoScript.CameraKeys | web/script.js:446 | one `<purpose>-<camera lower-cased>` key per camera (with line 455) |
| DemoScript.FillCameraFolders | web/script.js:444-449 | the loop gives the camera-folder specification |
| DemoScript.GenerateFolderStructure | web/script.js:395-474 | the built structure equals the structure specification |
| DemoScript.FolderNames | web/script.js:494-496 | one name per top-level folder, in order |
| DemoScript.TopLevelFolders | web/script.js:396-471 | PHOTO for photo/both and VIDEO for video/both, PHOTO first; files are always [README.md] |
| DemoScript.BranchNesting | web/script.js:418-427 | each branch nests its body under work folder, owner folder and project folder, one key per level (with lines 461-470) |
| DemoScript.PersonalYear | web/script.js:422 | personal work is filed under the current year's decimal text, not the project date (with line 465) |
| DemoScript.CameraFolderKeys | web/script.js:444-449 | the RAW keys are the camera keys with duplicates collapsed, each {} |
| DemoScript.ProxiesMirrorRaw | web/script.js:451-458 | Proxies exists exactly when requested and then holds RAW's camera folders |
| DemoScript.CaptureOneOnlyWhenAsked | web/script.js:414-416 | Capture One appears exactly when requested, as the sixth photo folder |
| DemoScript.ObjectLinesCount | web/script.js:515-530 | one line per key at every depth |
| DemoScript.ObjectLinesShape | web/script.js:515-530 | each line starts with the prefix and ends in '/' |
| DemoScript.BelowBarNeverCloses | web/script.js:499-500 | lines below a non-closing folder carry the bar, never the closing connector |
| DemoScript.FoldersNeverClose | web/script.js:494-502 | with a file list, no folder line uses the closing connector |
| DemoScript.LastFolderClosesWithoutFiles | web/script.js:495 | without a file list the last folder closes |
| DemoScript.DemoTreeEndsWithReadme | web/script.js:505-510 | the demo tree ends with the README line, which closes the top level |
| DemoScript.Zip.constructor | web/script.js:533 | an empty archive |
| DemoScript.Zip.AddFolder | web/script.js:598 | appends one folder entry |
| DemoScript.Zip.AddFile | web/script.js:604 | appends one file entry |
| DemoScript.AddObjectToZip | web/script.js:595-607 | hands over the entry specification: a folder per key, and a subtree or a `.gitkeep` |
| DemoScript.AddEntryToZip | web/script.js:596-606 | one iteration: the key's folder, then its subtree, or a `.gitkeep` for an empty object |
| DemoScript.CountsAppend | web/script.js:595-607 | folder and file counts add up over concatenation |
| DemoScript.ObjectZipShape | web/script.js:595-607 | a folder entry per key at every depth, a `.gitkeep` per empty object, all under the base path |
| DemoScript.EntryZipShape | web/script.js:596-606 | the same counts for one entry, under the base path |
| DemoScript.AddFoldersToZip | web/script.js:584-593 | each top-level folder, then its object tree, in order |
| DemoScript.FoldersZipHasFolders | web/script.js:586-587 | every top-level folder gets its folder entry |
| DemoScript.FoldersZipInsideFolders | web/script.js:584-593 | every entry lies inside one of the top-level folders |
| DemoScript.Demo.constructor | web/script.js:3 | the demo starts at step 0 |
| DemoScript.Demo.NextStep | web/script.js:365-370 | the counter always advances; the step is shown exactly while it is within the eight steps |
| WebappApp.StepsFor | webapp/app.js:124-136 | three steps exactly for video or both, two otherwise |
| WebappApp.AdvanceReachesLast | webapp/app.js:165-170 | k successful advances give min(current + k, maxSteps) |
| WebappApp.GoBackReachesFirst | webapp/app.js:175-178 | k presses of Previous give max(current - k, 1) |
| WebappApp.CollectFormData | webapp/app.js:281-307 | the trimmed name and client, the options, and the kept rows only when camera folders are on |
| WebappApp.KeptRowsMembers | webapp/app.js:295-304 | exactly the rows with a purpose and a non-empty trimmed camera survive, in order |
| WebappApp.KeptRowsClean | webapp/app.js:298-301 | a kept row has a purpose and a camera that is not blank; its camera is trimmed |
| WebappApp.Utf16Length | webapp/app.js:381 | a string's length in UTF-16 code units lies between its character count and twice that |
| WebappApp.SanitizeName | webapp/app.js:381 | the result is as long as the name in UTF-16 code units and holds only letters, digits and '_' |
| WebappApp.SanitizeNameBmp | webapp/app.js:381 | inside the Basic Multilingual Plane, letters and digits keep their places and every other character becomes one '_' |
| WebappApp.SanitizeNameFixed | webapp/app.js:381 | letters, digits and '_' are left alone, so sanitising twice is sanitising once |
| WebappApp.DownloadFilenameShape | webapp/app.js:381 | the filename is the sanitised name, as long as the name in UTF-16 code units, plus `_structure.zip`; sanitising it again changes nothing, and a name of letters and digits is kept |
| WebappApp.WithoutIdMembers | webapp/app.js:534 | removal keeps exactly the clients with another id |
| WebappApp.WithoutIdUnique | webapp/app.js:534 | removal keeps saved client names unique up to letter case |
| WebappApp.App.constructor | webapp/app.js:7-15 | step 1 of 3, with the loaded clients |
| WebappApp.App.OnProjectTypeChange | webapp/app.js:119-136 | maxSteps follows the project type; the current step is not changed |
| WebappApp.App.NextStep | webapp/app.js:165-170 | advances by one, capped at maxSteps, only when the step validates |
| WebappApp.App.PrevStep | webapp/app.js:175-178 | back by one, never below step 1 |
| WebappApp.App.ResetStep | webapp/app.js:574-582 | back to step 1 |
| WebappApp.App.SaveNewClient | webapp/app.js:448-479 | a blank name or a case-insensitive duplicate is refused with its message; otherwise exactly one client is appended and names stay unique |
| WebappApp.App.SaveClientIfNew | webapp/app.js:541-553 | appends a client with empty notes exactly when no client has the name up to case |
| WebappApp.App.RemoveClient | webapp/app.js:532-539 | once confirmed, keeps exactly the clients with another id |
| WebWebappApp.ValidateCurrentStep | web/webapp/app.js:151-166 | every field is visited and marked, and the step is valid exactly when no field is blank after trimming |
| WebWebappApp.CollectRows | web/webapp/app.js:382-390 | the rows loop gives the kept-rows specification |
| WebWebappApp.BuildProjectConfig | web/webapp/app.js:363-395 | checkboxes count when "on"; the client only for client work; camera rows exist only when camera folders are on |
| WebWebappApp.KeptRowsMembers | web/webapp/app.js:382-390 | exactly the found rows with a name and a folder become assignments |
| WebWebappApp.AddedRowsTagged | web/webapp/app.js:184-215 | rows added one after another are tagged with their positions |
| WebWebappApp.TaggedRowsAllKept | web/webapp/app.js:382-390 | while no row has been removed, every filled row is kept |
| WebWebappApp.RemovalDropsLaterRows | web/webapp/app.js:212 | after a row is removed, every later row is looked up under the wrong index and dropped (with lines 382-390) |
| WebWebappApp.SuggestionsMembers | web/webapp/app.js:226-229 | suggestions are exactly the clients whose name contains the query up to case |
| WebWebappApp.SuggestionsInOrder | web/webapp/app.js:226-229 | suggestions keep the list's order |
| WebWebappApp.SpliceOne | web/webapp/app.js:309 | an index in range removes exactly that element; an index past the end removes nothing |
| WebWebappApp.SpliceKeepsUnique | web/webapp/app.js:309 | removing an element keeps names unique |
| WebWebappApp.App.constructor | web/webapp/app.js:7-14 | step 1, with the loaded clients |
| WebWebappApp.App.NextStep | web/webapp/app.js:91-96 | the step's required fields are checked and marked as validateCurrentStep does; one step forward exactly when none is blank after trimming, with no upper bound |
| WebWebappApp.App.PrevStep | web/webapp/app.js:98-101 | one step back, unconditionally, with no lower bound |
| WebWebappApp.App.SaveClient | web/webapp/app.js:279-297 | a blank name or a case-insensitive duplicate is refused with its message; otherwise `{name, notes}` is appended |
| WebWebappApp.App.DeleteClient | web/webapp/app.js:307-313 | once confirmed, the element at the index is spliced out |
| WebWebappApp.App.ShowClientSuggestions | web/webapp/app.js:226-229 | the loop gives the suggestions specification |
| WebWebappApp.DownloadStructure | web/webapp/app.js:450-471 | nothing without a project; otherwise a folder entry per folder, then a file entry per file, and `<projectName>-structure.zip` |

## Left out

- DOM, UI and timing are not modelled: event listeners, innerHTML, alerts, modals, scrolling, the demo's typing animation and setTimeout delays. web/docs-script.js is entirely UI.
- Each step's required-field check in webapp/app.js (validateCurrentStep) becomes the `stepValid` parameter of `WebappApp.App.NextStep`.
- JSZip encoding, Blob and URL handling and download triggering are not modelled. Only the entries handed to the archive are.
- The demo's downloadStructure README text and archive name (web/script.js:532-582) are not modelled. Only its folder walk (addFoldersToZip and addObjectToZip) is.
- Persistence is not modelled: localStorage in both app.js files, the clients JSON file in client_manager.py (load_clients/save_clients) and all of src/sbp_generator/config.py. `PyClientManager.ClientManager` starts from an empty table.
- Filesystem access is abstracted. `mkdir` becomes "emit path", and existence checks and `Path.cwd()` become parameters: the current path, and a map of template files that exist (their JSON contents are parameters, not parsed).
- The parent-directory client discovery (src/sbp_generator/generators.py:141-176) and `_client_folder_exists` are not modelled. The client merge takes its two lists as parameters. The line-392 call that fails whenever the database has clients is not modelled.
- Clocks and locales become parameters: today's date, the current year, `toISOString`, `toLocaleDateString`, `getFullYear` and Python's `strftime`. `WebGenerator.FormatDateForFolder` takes "today" as a parameter, and a parsed date's year is given rather than computed.
- Client ids and creation times (`Date.now()`, `new Date().toISOString()`, `datetime.now()`) are parameters.
- Character handling is ASCII only: trimming, case mapping and `isalnum` are ASCII. Python's Unicode `isalnum`/`strip` and JavaScript's Unicode `trim` and case mapping are not modelled.
- Sorting.SortStrings: compares characters by code point. JavaScript's default sort compares UTF-16 code units, which differ only above U+FFFF.
- Object key order in the demo is insertion order. JavaScript moves integer-like keys (a purely numeric client name, say) to the front; that is not modelled.
- pydantic's model machinery is not modelled: coercion and the enum and date parsing.
- PyGenerators.GenerateProject: the failure message is `Error creating project: ` followed by the first failing validator's message. pydantic's rendering of the ValidationError (a header, the field name and an error type around each message) is not modelled.
- PyGenerators.GenerateProject: each type is planned from the config as given rather than from the copy built at generators.py:419. The copy stores its fields stripped again and a personal config's "" client name as None; neither changes a planned path for a config that was itself built by the validators.
- Other exceptions caught at generators.py:445-447 (unreadable template files, a failing `mkdir`) are filesystem failures and are not modelled.
- Lookups in plain JavaScript objects (`roleMap[role] || role` in web/webapp/structure-generator.js, `this.templates[baseType][config.workType] || []` in webapp/structure-generator.js) also find inherited keys such as "constructor". The model looks up only the table's own keys; the keys come from fixed form options.
- A name containing '/' is kept as one path component in the Python model. When the '/' is inside the name it renders to the same text, and the filesystem would create nested folders.
- PyGenerators.AddLastFolder and PyGenerators.PlannedPaths: a client or project name starting with '/' is absolute, and pathlib's `/` then drops everything before it, so the source creates the project outside the configured base (a client "/tmp/acme" gives `/tmp/acme/<date>-<name>`, a personal project "/tmp/proj" gives `/tmp/proj`). The model appends such a name as one more component under the base, and its "inside the base" lemmas hold only for that appended form. The validators strip these names but do not reject a leading '/'.
- PyCli.FindCamera: the exact exception texts of an invalid item, purpose or camera are reduced to the `CameraSpecError` cases. The printed messages and the terminal output are not modelled.
- PyCli.CameraOf: builds a default camera without re-running the name validator. The shipped default names carry no whitespace to strip.
- FormData's `null` for a missing field is modelled as "", the value JavaScript treats the same way in every modelled check.
- The rendered preview tree of webapp/structure-generator.js (renderTree) is not modelled beyond its effect. Its return value is discarded by its caller, so the preview of a non-empty plan is "".
- The webapp README tail (usage notes and footer) is written out literally and no property is stated about it beyond the opening lines.
