# Smortr front-end core in Dafny

Smortr is a construction-document manager. Users sign in and set up or join a
company. They create projects, stage files into a folder tree, and browse a
project's drawings in a grid with one row per asset and one column per drawing
type. This project models the front-end's state and logic:

- the session store (user, profile, settings with merge semantics, persistence);
- route guards and the private/setup route table;
- the project store and the Supabase helpers it and the wizard use;
- the folder-tree file manager and the wizard's file step;
- the two project-creation flows (page and modal);
- the drawing grid (content, header, asset rows, seeded data);
- the settings page, company onboarding, the sidebar and the dashboard shell.

Each source file is one Dafny module in its own file:

| module | file |
|---|---|
| App | app.dfy |
| AuthGuard | auth_guard.dfy |
| AuthStore | auth_store.dfy |
| SettingsPage | settings_page.dfy |
| CompanySetup | company_setup.dfy |
| Supabase | supabase.dfy |
| ProjectStore | project_store.dfy |
| FileManager | file_manager.dfy |
| FileStructureStep | file_structure_step.dfy |
| CreateProject | create_project.dfy |
| CreateProjectModal | create_project_modal.dfy |
| ProjectData | project_data.dfy |
| ProjectContent | project_content.dfy |
| AssetRow | asset_row.dfy |
| TableHeader | table_header.dfy |
| Sidebar | sidebar.dfy |
| Dashboard | dashboard.dfy |

`Common` (common.dfy) holds the shared pieces:

- `Option`, `Result` and `Outcome`;
- `Failure`, a rejected SDK call;
- the JavaScript string and number operations the code relies on. These are
  `split`/`join`, `trim`, `replace` of a first occurrence, ASCII `toLowerCase`,
  decimal `toString` and `parseInt` of integers.

How the model is shaped:

- **Stores and components are classes.** The Zustand stores and the React
  components with state are classes whose fields are that state. Every handler
  is a method with a `modifies` frame and an `ensures` that states every field
  in that frame. Methods that compose handlers (`CheckAuthOnce`, `ClickSubmit`)
  state only what the composition adds.
- **Pure helpers are functions.** Helpers such as `getFileDetails`, the route
  guards and the list updates are functions. Code that loops in the source,
  such as the `forEach` of `createDrawingsMap`, is a method with a loop, proved
  against a function (`CreateDrawingsMap` against `DrawingsMap`).
- **Remote replies are parameters.** Every reply from Supabase (auth, tables,
  storage) is a parameter, an oracle. Methods that call the backend also return
  the sequence of calls they made (a `Call` trace). Order, "continue after a
  failed upload" and "a failed upload writes no row" are proved on that trace.
- **Reachable-state invariants.** The drawing grid and the drag counters are
  also modelled as event-driven state machines (`Step`/`Run`, `RunDrag`).
  Lemmas prove invariants of every reachable state.

## Model

| member | source | states |
|---|---|---|
| App.PrivateRoute | src/App.tsx:10-26 | loading shows the spinner; signed out redirects to /login; a user without a company is sent to /setup except on /setup; otherwise the children render (each an iff) |
| App.SetupGuard | src/App.tsx:28-36 | redirects to /projects exactly when the profile has a truthy company id, otherwise renders the setup page |
| App.MatchRoute | src/App.tsx:38-91 | a project-details match means the path is /projects/ followed by a non-empty id without a slash |
| App.RedirectsSettle | src/App.tsx:38-91 | following any redirect of the route table once reaches a page that renders: there are no redirect chains |
| App.UnlinkedProfileReturnsToSetup | src/App.tsx:10-36 | a signed-in user whose profile has no company is sent from /projects to /setup, and /setup renders |
| App.GuardsAgreeOnSignedOut | src/components/AuthGuard.tsx:21-31 | signed out on a non-auth route, the auth guard and the private route both redirect to /login |
| AuthGuard.GuardRedirect | src/components/AuthGuard.tsx:21-31 | redirects only once initialized and not loading; to /login iff signed out off an auth route; to /projects iff signed in on an auth route |
| AuthGuard.GuardRedirectSettles | src/components/AuthGuard.tsx:21-31 | the guard does not redirect again from the route it redirected to |
| AuthGuard.ShowsChildren | src/components/AuthGuard.tsx:33-41 | children render only after initialization |
| AuthGuard.RedirectOnlyWhenShown | src/components/AuthGuard.tsx:21-41 | a redirect happens only in a state where the children are rendered, never under the spinner |
| AuthGuard.CheckAuthEffect | src/components/AuthGuard.tsx:15-19 | checkAuth runs iff the store was not initialized; afterwards the store is initialized; if it ran, loading is off and user and profile are set as checkAuth sets them; otherwise nothing changed |
| AuthGuard.CheckAuthOnce | src/components/AuthGuard.tsx:15-19 | of two consecutive effect runs the second never calls checkAuth |
| AuthStore.DefaultsOnlyTwoFactorOff | src/stores/authStore.ts:47-61 | default settings: grid view, a 5-minute interval, and every flag on except two-factor authentication |
| AuthStore.MergeOverridesGivenKeys | src/stores/authStore.ts:77-79 | after updateSettings each key holds the patch's value if given, its old value otherwise |
| AuthStore.MergeNoChanges | src/stores/authStore.ts:77-79 | an empty patch leaves the settings unchanged |
| AuthStore.MergeIdempotent | src/stores/authStore.ts:77-79 | applying the same patch twice equals applying it once |
| AuthStore.FullPatchOverwrites | src/stores/authStore.ts:77-79 | a patch giving every key replaces the settings by exactly those values |
| AuthStore.PartializeDropsFlags | src/stores/authStore.ts:203-207 | the persisted slice keeps user, profile and settings and does not depend on loading or initialized |
| AuthStore.AuthState.constructor | src/stores/authStore.ts:66-70 | no user or profile, default settings, loading and not initialized |
| AuthStore.AuthState.SetUser | src/stores/authStore.ts:72 | sets the user only |
| AuthStore.AuthState.SetProfile | src/stores/authStore.ts:73 | sets the profile only |
| AuthStore.AuthState.SetLoading | src/stores/authStore.ts:74 | sets loading only |
| AuthStore.AuthState.SetInitialized | src/stores/authStore.ts:75 | sets initialized only |
| AuthStore.AuthState.UpdateSettings | src/stores/authStore.ts:77-79 | settings become the old settings merged with the patch |
| AuthStore.AuthState.CheckAuth | src/stores/authStore.ts:81-119 | ends initialized and not loading; no session clears user and profile; a session keeps the user with the profile row, or with no profile on a query error; a thrown profile fetch clears both |
| AuthStore.AuthState.SignIn | src/stores/authStore.ts:121-147 | a rejected sign-in rethrows and keeps user and profile; otherwise the user is the returned one and the profile is the fetched row, none on a query error, unchanged if the fetch throws (which rethrows) |
| AuthStore.AuthState.SignUp | src/stores/authStore.ts:150-176 | passes the sign-up outcome through and ends initialized and not loading |
| AuthStore.AuthState.SignOut | src/stores/authStore.ts:178-197 | success clears user and profile and restores default settings; a failure rethrows and keeps them |
| SettingsPage.UpdateRequest | src/pages/Settings.tsx:44-50 | the profiles update sends the form's name and phone for the profile's id, and no id without a profile |
| SettingsPage.UpdatedProfile | src/pages/Settings.tsx:55-61 | the stored profile gets the form's name and phone and keeps id, e-mail and company |
| SettingsPage.UntouchedFormKeepsSettings | src/pages/Settings.tsx:14-77 | submitting the form as seeded writes back exactly the stored settings, the interval surviving toString and parseInt |
| SettingsPage.UntouchedFormKeepsProfile | src/pages/Settings.tsx:14-61 | submitting the form as seeded leaves a profile with a name and phone unchanged |
| SettingsPage.SettingsPageState.constructor | src/pages/Settings.tsx:14-34 | the form is seeded from the profile and the settings; no message, not loading |
| SettingsPage.SettingsPageState.HandleSubmit | src/pages/Settings.tsx:36-84 | a failed update shows the error and leaves the store untouched; success stores the updated profile and the form's settings and shows the success message |
| CompanySetup.IndividualCompany | src/components/CompanySetup.tsx:32-45 | an individual's company is "Smortr User" at "Individual Account" with domain "smortr-user-" followed by the profile id |
| CompanySetup.IndividualDomainsDistinct | src/components/CompanySetup.tsx:32-45 | distinct profiles get distinct individual domains |
| CompanySetup.CompanySetupState.constructor | src/components/CompanySetup.tsx:9-17 | step 1, no user type, empty details, no error |
| CompanySetup.CompanySetupState.HandleUserTypeSelect | src/components/CompanySetup.tsx:21-24 | records the type; individuals go to step 3, employees to step 2 |
| CompanySetup.CompanySetupState.SetName | src/components/CompanySetup.tsx:170-172 | sets the company name only |
| CompanySetup.CompanySetupState.SetDomain | src/components/CompanySetup.tsx:190-195 | sets the domain to the lower-cased input; it holds no upper-case letter |
| CompanySetup.CompanySetupState.SetAddress | src/components/CompanySetup.tsx:214-216 | sets the address only |
| CompanySetup.CompanySetupState.HandleCompanySubmit | src/components/CompanySetup.tsx:26-92 | the calls made on each path (individual insert; lookup then link; lookup then insert; a lookup error other than no-rows aborts) and navigation to /projects iff no error |
| Supabase.FileExtensionAfterLastDot | src/lib/supabase.ts:30 | the extension is the suffix after the last dot, or the whole name without a dot |
| Supabase.StoragePathFields | src/lib/supabase.ts:32 | splitting the storage path at slashes gives the project id, the folder segments and the stored name |
| Supabase.EmptyFolderPathDoubleSlash | src/lib/supabase.ts:32 | an empty folder path yields a double slash in the storage path |
| Supabase.ProgressReports | src/lib/supabase.ts:40-46 | one progress report per upload-progress event when a callback is given, none otherwise |
| Supabase.UploadTraceOrder | src/lib/supabase.ts:22-80 | upload first and only once; no file row after a failed upload; the row carries the project, user, name, size, type, path and public URL; the error is logged iff the result is an error |
| Supabase.UploadProjectFile | src/lib/supabase.ts:22-80 | returns the upload's trace and result; a success carries the storage path |
| Supabase.WithFilesTraceStep | src/lib/supabase.ts:111-118 | the trace of the first k+1 files extends the trace of the first k by file k's steps |
| Supabase.FileStepsUploadOnce | src/lib/supabase.ts:111-118 | each file's steps upload exactly that file, once |
| Supabase.EveryFileUploadedInOrder | src/lib/supabase.ts:111-118 | the uploads of createProjectWithFiles are exactly one per file, in the files' order, failures included |
| Supabase.FailedUploadLoggedTwice | src/lib/supabase.ts:76-118 | a failed upload logs its error twice, in uploadProjectFile and in the loop's catch |
| Supabase.TryUpload | src/lib/supabase.ts:111-118 | one iteration of the loop records that file's steps |
| Supabase.CreateProjectWithFiles | src/lib/supabase.ts:82-125 | a failed insert makes no other call and rejects; otherwise every file is tried after the insert and the project is returned |
| Supabase.DeleteProjectFile | src/lib/supabase.ts:138-152 | storage removal first; its failure stops before the row delete; otherwise success iff the row delete succeeded |
| ProjectStore.StoreFilesTraceStep | src/stores/projectStore.ts:100-140 | the trace of the first k+1 files extends that of the first k by file k's steps |
| ProjectStore.StoreFileStepsUploadOnce | src/stores/projectStore.ts:100-140 | each file's steps upload exactly that file, once |
| ProjectStore.StoreEveryFileUploadedInOrder | src/stores/projectStore.ts:100-140 | one upload per staged file, in order, whatever earlier uploads did |
| ProjectStore.StoreRowsFollowUploads | src/stores/projectStore.ts:100-140 | every file row written belongs to a file whose upload succeeded and carries its path and URL |
| ProjectStore.FailedUploadSkipsRow | src/stores/projectStore.ts:115 | a failed upload is followed only by its error log, with no row |
| ProjectStore.FirstIndexById | src/stores/projectStore.ts:169-177 | finds the first project with the id, or none has it |
| ProjectStore.ReplaceFirstByIdOnlyFirst | src/stores/projectStore.ts:169-177 | the update replaces only the first project with the id, and it is present whenever the id was |
| ProjectStore.DeleteFilterExact | src/stores/projectStore.ts:211-216 | after a delete exactly the projects with another id remain |
| ProjectStore.Removals | src/stores/projectStore.ts:190-201 | one storage removal per listed path, none when the listing returned nothing |
| ProjectStore.ProjectState.constructor | src/stores/projectStore.ts:30-34 | no projects, no current project, not loading, no error |
| ProjectStore.ProjectState.FetchProjects | src/stores/projectStore.ts:39-54 | success stores the rows (empty on null); failure keeps the list and stores the message |
| ProjectStore.ProjectState.FetchProject | src/stores/projectStore.ts:56-78 | success sets the current project; failure keeps it and stores the message |
| ProjectStore.ProjectState.CreateProject | src/stores/projectStore.ts:80-155 | the insert comes first; on success the new project is put at the front and every file is tried; on failure nothing else is called, the list is kept and an Error is thrown |
| ProjectStore.ProjectState.UpdateProject | src/stores/projectStore.ts:157-184 | success replaces the first project with the id and the current project if it has that id; failure keeps both |
| ProjectStore.ProjectState.DeleteProject | src/stores/projectStore.ts:186-223 | lists files, removes them, deletes the row; success drops every project with the id and a matching current project |
| FileManager.LevelAtExtend | src/components/FileManager.tsx:141-146 | descending into child i of a resolved level gives that child's children |
| FileManager.ParentPathAtExtend | src/components/FileManager.tsx:141-146 | the path reached by descending into child i is that child's path |
| FileManager.FindFrom | src/components/FileManager.tsx:141-146 | finds the first sibling with the name, or none has it |
| FileManager.Walk | src/components/FileManager.tsx:141-146 | the segment loop ends at a valid address at most as deep as the path |
| FileManager.WalkStep | src/components/FileManager.tsx:141-146 | each segment descends into the first child of that name, or is skipped when none matches |
| FileManager.InsertAtAppends | src/components/FileManager.tsx:149-157 | inserting at an address appends the node to that level's children |
| FileManager.AddFolderAppends | src/components/FileManager.tsx:129-162 | the new folder, with path parent + name and no children, is appended at the level the walk reached |
| FileManager.ConsistentAt | src/components/FileManager.tsx:21-60 | every subtree of a consistent tree is consistent with its path |
| FileManager.InsertKeepsConsistent | src/components/FileManager.tsx:149-157 | inserting a node whose path extends its parent's keeps paths consistent |
| FileManager.WalkParentPath | src/components/FileManager.tsx:141-146 | for a path that resolves, the walk reaches the folder whose path is exactly that path |
| FileManager.AddFolderKeepsWellFormed | src/components/FileManager.tsx:129-162 | adding under a resolving path keeps every node's path equal to its parent's path plus its name |
| FileManager.UniqueAt | src/components/FileManager.tsx:21-60 | unique sibling names hold at every level |
| FileManager.WalkFindsFolder | src/components/FileManager.tsx:141-146 | with unique sibling names, walking a folder's own path reaches that folder |
| FileManager.PrefixValid | src/components/FileManager.tsx:141-146 | every prefix of a valid address is valid |
| FileManager.UnresolvedPathBreaksPaths | src/components/FileManager.tsx:129-162 | adding under a path that does not resolve appends at a shallower level and breaks path consistency |
| FileManager.SiblingNameClashMisplaces | src/components/FileManager.tsx:141-146 | with two siblings of one name the walk takes the first and misplaces the folder |
| FileManager.DefaultTreeWellFormed | src/components/FileManager.tsx:21-60 | the default tree has consistent paths and unique sibling names |
| FileManager.ToggleFlipsOne | src/components/FileManager.tsx:68-78 | toggling flips membership of that id only |
| FileManager.ToggleTwice | src/components/FileManager.tsx:68-78 | toggling twice restores the expanded set |
| FileManager.StageAll | src/components/FileManager.tsx:80-93 | each chosen file is staged once, in order, with the target path |
| FileManager.PickerSelection | src/components/FileManager.tsx:80-93 | the picker reports nothing iff no file was chosen, else every file staged under the target |
| FileManager.InFolderIsEquality | src/components/FileManager.tsx:164-169 | a file is in a folder iff its path equals the folder's path |
| FileManager.FilesInFolderExact | src/components/FileManager.tsx:164-169 | the folder lists exactly the staged files with that path |
| FileManager.NotInAncestorFolder | src/components/FileManager.tsx:164-169 | files of a subfolder are not listed in an ancestor |
| FileManager.StagedFilesAreListed | src/components/FileManager.tsx:80-169 | files staged under a folder are listed after that folder's earlier files |
| FileManager.RemoveFileKeepsOthers | src/components/FileManager.tsx:171-173 | removal keeps exactly the entries with another file handle |
| FileManager.RemoveFileShrinks | src/components/FileManager.tsx:171-173 | removing a staged entry shortens the list |
| FileManager.DragStepKeepsOverlay | src/components/FileManager.tsx:95-127 | after every drag event the overlay shows iff the counter is positive |
| FileManager.CounterCountsNesting | src/components/FileManager.tsx:95-111 | without a drop the counter is enters minus leaves |
| FileManager.BalancedDragEndsIdle | src/components/FileManager.tsx:95-127 | balanced enters and leaves, or a drop, end with no overlay and a zero counter |
| FileManager.StrayLeaveHidesNextDrag | src/components/FileManager.tsx:95-111 | a leave without an enter drives the counter negative, so the next enter shows no overlay |
| FileManager.CounterNeverNegative | src/components/FileManager.tsx:95-111 | when every leave follows its enter the counter never goes negative |
| FileManager.FileManagerPanel.constructor | src/components/FileManager.tsx:62-66 | the default tree, only "level-01" expanded, nothing selected, no drag |
| FileManager.FileManagerPanel.ToggleFolder | src/components/FileManager.tsx:68-78 | flips the folder's expansion |
| FileManager.FileManagerPanel.ClickFolder | src/components/FileManager.tsx:193-200 | flips expansion and selects the folder |
| FileManager.FileManagerPanel.DragEnterFolder | src/components/FileManager.tsx:201-210 | marks the folder as drop target and expands it |
| FileManager.FileManagerPanel.DragOverFolder | src/components/FileManager.tsx:211-217 | marks the folder as drop target again on every drag-over, so after a nested leave the next drag-over restores it |
| FileManager.FileManagerPanel.DragLeaveFolder | src/components/FileManager.tsx:218-222 | clears the drop target |
| FileManager.FileManagerPanel.HandleDragEnter | src/components/FileManager.tsx:95-102 | one drag-enter step of counter and overlay |
| FileManager.FileManagerPanel.HandleDragLeave | src/components/FileManager.tsx:104-111 | one drag-leave step of counter and overlay |
| FileManager.FileManagerPanel.HandleDrop | src/components/FileManager.tsx:113-127 | resets counter, overlay and target, and stages every dropped file under the target path |
| FileManager.FileManagerPanel.AddNewFolder | src/components/FileManager.tsx:129-162 | an empty or cancelled name changes nothing; otherwise the folder is added where the walk ends and its id is expanded |
| FileStructureStep.SplicedDropsOne | src/components/wizard/FileStructureStep.tsx:45-49 | the splice removes exactly the entry at the index |
| FileStructureStep.FileStructureStepPanel.constructor | src/components/wizard/FileStructureStep.tsx:17-18 | no drag, no progress |
| FileStructureStep.FileStructureStepPanel.HandleDragEnter | src/components/wizard/FileStructureStep.tsx:20-24 | sets the drag flag |
| FileStructureStep.FileStructureStepPanel.HandleDragLeave | src/components/wizard/FileStructureStep.tsx:26-30 | clears the drag flag |
| FileStructureStep.FileStructureStepPanel.HandleDrop | src/components/wizard/FileStructureStep.tsx:32-43 | clears the flag and stages every dropped file under /uploads |
| FileStructureStep.FileStructureStepPanel.RemoveFile | src/components/wizard/FileStructureStep.tsx:45-49 | hands the splice of the list to the parent |
| FileStructureStep.FlagIsLastEvent | src/components/wizard/FileStructureStep.tsx:20-30 | the flag is set iff the last drag event was an enter |
| FileStructureStep.NestedLeaveHidesFlag | src/components/wizard/FileStructureStep.tsx:20-30 | compares the two handler machines on the same abstract sequence enter, enter, leave: the step's flag is cleared while the folder panel's counter would still show its overlay |
| CreateProject.StepsStayInRange | src/pages/CreateProject.tsx:51-61 | next and back keep the step within 1..3 |
| CreateProject.StepClamp | src/pages/CreateProject.tsx:51-61 | next stops at 3, back at 1, and each undoes the other inside the range |
| CreateProject.PanelFor | src/pages/CreateProject.tsx:51-61 | a panel shows iff the step is in range; the files panel iff the step is 3 |
| CreateProject.WithDetail | src/pages/CreateProject.tsx:127 | a details change sets the changed field only |
| CreateProject.StepRemovalAppends | src/pages/CreateProject.tsx:142-145 | removing a file in the step appends the spliced list, so the list grows to 2n-1 and keeps the removed file |
| CreateProject.FolderRemovalAppends | src/pages/CreateProject.tsx:142-145 | a removal from the folder view likewise keeps the file |
| CreateProject.SourceDomainOfAddress | src/pages/CreateProject.tsx:78 | the source domain of local@domain is domain |
| CreateProject.SourceDomainWithoutAt | src/pages/CreateProject.tsx:78 | an address without @ has no source domain |
| CreateProject.SourceDomainSecondFieldOnly | src/pages/CreateProject.tsx:78 | only the second @-field is taken: a@b@c gives b |
| CreateProject.CreateProjectPage.constructor | src/pages/CreateProject.tsx:24-31 | step 1, not loading, empty form |
| CreateProject.CreateProjectPage.HandleNext | src/pages/CreateProject.tsx:51-56 | one next step |
| CreateProject.CreateProjectPage.HandleBack | src/pages/CreateProject.tsx:57-61 | one back step |
| CreateProject.CreateProjectPage.OnDetailsChange | src/pages/CreateProject.tsx:127 | applies the details change |
| CreateProject.CreateProjectPage.OnImageSelect | src/pages/CreateProject.tsx:134 | sets the cover image only |
| CreateProject.CreateProjectPage.OnFileSelect | src/pages/CreateProject.tsx:142-145 | appends the files to the form's files |
| CreateProject.CreateProjectPage.HandleSubmit | src/pages/CreateProject.tsx:65-87 | a blank name or a missing profile makes no call; otherwise the store's calls are the insert then every file's steps, success navigates to /projects/ + id with the project first and no error, and failure keeps the list and carries the store's message |
| CreateProject.SubmitButtonDisabled | src/pages/CreateProject.tsx:173 | the button is disabled iff a submit is loading or the name is all whitespace; enabled means the trimmed name is non-empty |
| CreateProject.CreateProjectPage.ClickSubmit | src/pages/CreateProject.tsx:173 | a click fires handleSubmit iff the button is enabled; a disabled click (blank name, or during a submit) changes nothing and calls nothing, and a fired one never hits the blank-name alert |
| CreateProjectModal.ModalPanel | src/components/CreateProjectModal.tsx:37-67 | a closed modal shows nothing; an open one shows the step's panel |
| CreateProjectModal.OpenModalShowsAPanel | src/components/CreateProjectModal.tsx:57-67 | after any next/back sequence an open modal shows a panel |
| CreateProjectModal.CreateProjectModalState.constructor | src/components/CreateProjectModal.tsx:28-35 | step 1, not loading, empty form |
| CreateProjectModal.CreateProjectModalState.HandleNext | src/components/CreateProjectModal.tsx:57-67 | one next step |
| CreateProjectModal.CreateProjectModalState.HandleBack | src/components/CreateProjectModal.tsx:57-67 | one back step |
| CreateProjectModal.CreateProjectModalState.OnDetailsChange | src/components/CreateProjectModal.tsx:140 | applies the details change |
| CreateProjectModal.CreateProjectModalState.OnImageSelect | src/components/CreateProjectModal.tsx:147 | sets the cover image only |
| CreateProjectModal.CreateProjectModalState.OnFileSelect | src/components/CreateProjectModal.tsx:155-158 | appends the files |
| CreateProjectModal.CreateProjectModalState.HandleSubmit | src/components/CreateProjectModal.tsx:71-83 | a blank name does nothing; otherwise the form is handed over and the modal closes iff creation succeeded |
| CreateProjectModal.CreateProjectModalState.ClickSubmit | src/components/CreateProjectModal.tsx:188 | a click fires handleSubmit iff the button is enabled; a disabled click hands nothing over, an enabled one always hands the form over |
| CreateProjectModal.CreateProjectModalState.HandleClose | src/components/CreateProjectModal.tsx:86-95 | resets the form and the step and closes |
| CreateProjectModal.CloseVersusCreate | src/components/CreateProjectModal.tsx:71-95 | a successful create keeps the form for the next opening, while a cancel resets it |
| ProjectData.DrawingFor | src/data/projectData.ts:35-40 | the seeded drawing for a type has id prefix-type and the fixed name, level and image |
| ProjectData.DrawingsMapEntries | src/data/projectData.ts:32-43 | the drawings map has exactly the types' ids as keys, each mapped to its seeded drawing |
| ProjectData.CreateDrawingsMap | src/data/projectData.ts:32-43 | the loop builds that map |
| ProjectData.SeedTypes | src/data/projectData.ts:22-29 | six drawing types with distinct ids, all expanded and unselected |
| ProjectData.SeedAssets | src/data/projectData.ts:45-64 | three assets, all expanded, each with a drawing for every type; the architectural plan is arch-plan |
| ProjectContent.Unselect | src/components/project/ProjectContent.tsx:12 | every type is unselected and otherwise unchanged |
| ProjectContent.InitialTypesAreSeed | src/components/project/ProjectContent.tsx:12 | the initial types equal the seeded types |
| ProjectContent.SortedTypesPermutes | src/components/project/ProjectContent.tsx:24-28 | the sorted view is a permutation of the types with no expanded type after a collapsed one |
| ProjectContent.SortedWhenUniform | src/components/project/ProjectContent.tsx:24-28 | when all types are expanded, or none is, the order is unchanged |
| ProjectContent.SortedHead | src/components/project/ProjectContent.tsx:24-28 | the first column is the first expanded type, or the first type when none is expanded |
| ProjectContent.ToggleExpandedById | src/components/project/ProjectContent.tsx:30-34 | flips isExpanded of the types with the id and changes nothing else |
| ProjectContent.ToggleExpandedTwice | src/components/project/ProjectContent.tsx:30-34 | toggling a type twice restores the types |
| ProjectContent.ToggleSelectedById | src/components/project/ProjectContent.tsx:36-46 | flips isSelected of the types with the id and changes nothing else |
| ProjectContent.ToggleSelectedTwice | src/components/project/ProjectContent.tsx:36-46 | selecting twice restores the types |
| ProjectContent.ToggleSelectionFlips | src/components/project/ProjectContent.tsx:36-46 | the id is in the selection list afterwards iff it was not; other ids keep their membership |
| ProjectContent.ToggleSelectionNoDup | src/components/project/ProjectContent.tsx:36-46 | the selection list stays free of duplicates |
| ProjectContent.ToggleSelectionTwice | src/components/project/ProjectContent.tsx:36-46 | selecting then unselecting a new id restores the list |
| ProjectContent.ToggleAssetById | src/components/project/ProjectContent.tsx:48-52 | flips isExpanded of the assets with the id and changes nothing else |
| ProjectContent.ToggleAssetTwice | src/components/project/ProjectContent.tsx:48-52 | toggling an asset twice restores the assets |
| ProjectContent.FindAsset | src/components/project/ProjectContent.tsx:59-86 | the first asset with the id, as `find` returns, or none exists |
| ProjectContent.FindType | src/components/project/ProjectContent.tsx:59-86 | the first type with the id, as `find` returns, or none exists |
| ProjectContent.GetFileDetails | src/components/project/ProjectContent.tsx:59-86 | details exist iff the asset, its drawing for the type and the type exist; they carry the drawing name, the asset name without " assets" and the type name |
| ProjectContent.SeedDetails | src/components/project/ProjectContent.tsx:59-86 | the architectural plan's details, category "Architectural" |
| ProjectContent.ImageClickOpensFirstColumn | src/components/project/ProjectContent.tsx:54-57 | an image click opens the details of the sorted view's first column, whichever column was clicked |
| ProjectContent.Step | src/components/project/ProjectContent.tsx:13-134 | every grid event keeps the number of types |
| ProjectContent.Run | src/components/project/ProjectContent.tsx:13-134 | any sequence of grid events keeps the number of types |
| ProjectContent.InitialValid | src/components/project/ProjectContent.tsx:12-21 | the initial grid state satisfies the grid invariant |
| ProjectContent.ToggleDrawingTypeKeepsValid | src/components/project/ProjectContent.tsx:30-34 | expanding or collapsing a column keeps the invariant |
| ProjectContent.ToggleTypeSelectionKeepsValid | src/components/project/ProjectContent.tsx:36-46 | selection keeps flags and list in sync and the list free of duplicates |
| ProjectContent.ToggleAssetTypeKeepsValid | src/components/project/ProjectContent.tsx:48-52 | toggling a row keeps the invariant |
| ProjectContent.ImageClickKeepsValid | src/components/project/ProjectContent.tsx:54-57 | a click in a row keeps the invariant |
| ProjectContent.StepKeepsValid | src/components/project/ProjectContent.tsx:13-134 | every grid event keeps the invariant |
| ProjectContent.ReachableValid | src/components/project/ProjectContent.tsx:13-134 | every reachable grid state satisfies the invariant |
| ProjectContent.DetailsFound | src/components/project/ProjectContent.tsx:59-86 | in a valid state a selected file always has details |
| ProjectContent.SidebarDetailsNeverNull | src/components/project/ProjectContent.tsx:130-134 | in every reachable state an open details sidebar has details to show |
| AssetRow.ColumnWidthOf | src/components/project/AssetRow.tsx:79-81 | a column gets the open width when shown expanded, the collapsed width otherwise |
| AssetRow.GridWidths | src/components/project/AssetRow.tsx:79-81 | with widths 320 and 48 a column is wide iff it is shown expanded |
| AssetRow.VisibleMatchesSelection | src/components/project/AssetRow.tsx:49-51 | a column is visible iff nothing is selected or its type is marked selected |
| AssetRow.ActiveIsVisible | src/components/project/AssetRow.tsx:87 | as activeType is never set, a card is active iff its type is visible |
| AssetRow.ShownCardHasDrawing | src/components/project/AssetRow.tsx:84 | every column's card finds a drawing in the row's asset |
| TableHeader.ClickDispatch | src/components/project/TableHeader.tsx:49-55 | a shift-click selects and a plain click toggles, for the clicked id |
| TableHeader.ClickTouchesOneConcern | src/components/project/TableHeader.tsx:49-55 | a shift-click changes only the selection; a plain click changes only expansion |
| TableHeader.ClickKeepsValid | src/components/project/TableHeader.tsx:49-55 | both clicks keep the grid invariant |
| TableHeader.StyleOf | src/components/project/TableHeader.tsx:64-68 | selected style iff selected; active style iff unselected and active; plain otherwise |
| TableHeader.StyleInGrid | src/components/project/TableHeader.tsx:64-68 | in grid states the active style never shows and a button shows selected iff its id is in the selection list |
| TableHeader.TableHeaderState.constructor | src/components/project/TableHeader.tsx:31 | nothing hovered |
| TableHeader.TableHeaderState.Width | src/components/project/TableHeader.tsx:36-46 | 320 iff the type is expanded or hovered, 48 otherwise |
| TableHeader.TableHeaderState.MouseEnter | src/components/project/TableHeader.tsx:56-59 | hovers the type and reports it |
| TableHeader.TableHeaderState.MouseLeave | src/components/project/TableHeader.tsx:60-63 | clears the hover and reports that |
| TableHeader.HoverThenReport | src/components/project/TableHeader.tsx:56-63 | after the grid stores the report, the header and every row agree on each column's width |
| Sidebar.NavItems | src/components/Sidebar.tsx:19-24 | Projects first and Settings last; Team is present iff the account is not an individual one |
| Sidebar.ShowsBadge | src/components/Sidebar.tsx:57-61 | the individual badge shows iff Team is not offered |
| Sidebar.AvatarLetter | src/components/Sidebar.tsx:65 | the upper-cased first letter, none for an empty name |
| Sidebar.IndividualSetupHidesTeam | src/components/Sidebar.tsx:17-24 | a profile linked to its onboarding individual company sees no Team item and the badge |
| Sidebar.SidebarState.constructor | src/components/Sidebar.tsx:13 | collapsed |
| Sidebar.SidebarState.MouseEnter | src/components/Sidebar.tsx:32 | expands |
| Sidebar.SidebarState.MouseLeave | src/components/Sidebar.tsx:33 | collapses |
| Dashboard.UserInitial | src/pages/Dashboard.tsx:18 | the upper-cased first letter of the name, else of the e-mail, none when both are empty |
| Dashboard.DisplayName | src/pages/Dashboard.tsx:19 | the e-mail's prefix before the first @ |
| Dashboard.DisplayNameOfAddress | src/pages/Dashboard.tsx:19 | the display name of local@domain is local |
| Dashboard.AvatarFromEmail | src/pages/Dashboard.tsx:19 | the sidebar avatar is the e-mail's upper-cased first letter, none when the e-mail starts with @ |
| Dashboard.Content | src/pages/Dashboard.tsx:27-36 | given children render; otherwise only the four known pages |
| Dashboard.Render | src/pages/Dashboard.tsx:16-40 | nothing renders without a profile; otherwise the shell shows the display name and initial |
| Common.ParseIntToString | src/pages/Settings.tsx:64 | parseInt of an interval's decimal text gives the interval back, NaN included |
| Common.ToLower | src/components/CompanySetup.tsx:193 | lower-casing maps each character and leaves no upper-case ASCII letter |
| Common.ReplaceTrailing | src/components/project/ProjectContent.tsx:70 | removing " assets" from a name ending in it, when no space occurs before that suffix, gives the name's stem (replace drops only the first occurrence) |
| Common.TrimEmptyIffBlank | src/pages/CreateProject.tsx:65 | a name trims to empty iff it is blank |
| Common.LastFieldIsSuffix | src/lib/supabase.ts:30 | the last dot-field is the suffix after the last dot |
| Common.FirstFieldIsPrefix | src/pages/Dashboard.tsx:19 | the first @-field is the prefix before the first @ |

## Left out

- Supabase I/O. The auth, table and storage backends are not modelled. Each reply is a parameter, and methods return the calls they make.
- Nondeterministic inputs. `Math.random()` and `Date.now()` in storage names and folder ids are parameters (`token`, `now`).
- Browser dialogs and file pickers. `prompt` for folder names is an `Option<string>` parameter. The picker and drop payloads are sequences of file handles.
- Floating point. Upload progress percentages and the KB size display are not modelled. Progress events are counted only (`Supabase.ProgressReports`).
- Timers and async interleaving. Awaits run to completion in order. React StrictMode double effects and races between concurrent submits are not modelled.
- Stale closures. The grid's toggles read `types` from the render rather than the previous state. Events are applied one at a time, which hides the difference.
- Aliasing of React state. The file manager pushes into a shallow copy of the tree. The model rebuilds the tree as a value.
- Persistence. The session store persists to sessionStorage. Writing it and rehydrating from it on reload are left out. Only the persisted slice is modelled (`AuthStore.PartializeDropsFlags`).
- Presentation-only components and markup. These are styling, icons, layout and the `viewMode` toggle of the file manager.
- Settings page inputs. The per-input onChange handlers and the active tab are left out. The form is a value.
- Fixed display strings. `getFileDetails` builds its version and detail entries from fixed strings, which are not modelled. The level is the constant "Level 01 - First floor".
- The `type` field of a folder node. Every node is a folder.
- Cancel navigation on the create-project page.
- The `setLoading`/`setError` setters of the project store and the helper `getProjectFiles` (src/lib/supabase.ts:127). Nothing in the modelled core calls them.
- Intermediate `loading` states. Methods state `loading` as it is after the handler.
- The wizard step's upload progress. The step's `uploadProgress` map is never written, so no progress bar renders. The panel keeps the map empty, since no method's frame includes it. The bar itself is not modelled.
- Text operations on non-ASCII characters. `toLowerCase` and `toUpperCase` are modelled on ASCII letters only.
- `parseInt` forms. Leading white space and an optional sign are modelled, and reading stops at the first non-digit; no digits gives `None` (NaN). Only the `0x` hexadecimal prefix (`parseInt("0x1A")` is 26, the model gives 0) and the loss of precision beyond 2^53 are left out.
- Number formatting. JavaScript's general number-to-string conversion is not modelled. Intervals are integers.
- SettingsPage.UpdatedProfile: without a profile the spread contributes no columns. The model shows this as a profile with an empty id and e-mail.
- Drag event routing. The drag lemmas (`FileManager.RunDrag` and its lemmas, `FileStructureStep.FlagAfter`) run each component's handlers on an abstract event sequence; which browser events reach which handler is not modelled. In the app the folder rows stop propagation of their enter and leave events (src/components/FileManager.tsx:201-222), and so do the folder panel's container handlers (src/components/FileManager.tsx:95-111), so the wizard step's flag never sees enters and leaves from inside the folder panel, and the container's counter does not see those over rows. The container has no drop handler: a drop off a folder row bubbles to the wizard step, which stages the files under `uploads`, and the container's counter is not reset by it.
- Route matching. Trailing slashes and URL decoding are not modelled. React Router matches route paths case-insensitively by default, but `App.MatchRoute` and the dashboard's nested route table `Dashboard.Content` compare them exactly. So "/Login" renders the login form in the app, while the model sends it to the catch-all dashboard route, and a nested "/Projects" renders the projects page in the app but nothing in `Dashboard.Content`. The guards' `includes` test and the `!== '/setup'` test are exact comparisons in the source as well.
- ProjectContent.Step: a click on a row index past the last asset is a no-op. In the component, clicks can only come from rendered rows.

## Notes on the code as written

- **Folder paths that do not resolve.** The `addNewFolder` walk skips a segment it cannot find and keeps matching at the same level. A path that does not resolve therefore appends the folder at the deepest level it matched, with a path that does not match its position (`FileManager.UnresolvedPathBreaksPaths`). The model follows the code. It is not a no-op.
- **Sibling name clashes.** Two sibling folders with the same name send new subfolders to the first one (`FileManager.SiblingNameClashMisplaces`).
- **Removing a staged file.** Both creation flows pass `setFiles` as a callback that appends what it receives. A file removed in the wizard's file step is therefore appended again rather than dropped (`CreateProject.StepRemovalAppends`, `CreateProject.FolderRemovalAppends`).
- **Image clicks.** An image click opens the details of the first column of the sorted view, whatever column was clicked (`ProjectContent.ImageClickOpensFirstColumn`).
- **`activeType`.** It is never set, so every visible card is active.
- **Drag overlays.** At the level of the folder panel's handlers, a leave that arrives without its enter drives the counter negative, and the next drag then shows no overlay (`FileManager.StrayLeaveHidesNextDrag`). Whether the browser delivers such a leave depends on the event routing listed under "## Left out" (the rows stop propagation), and it was not established that it does. The wizard's step uses a plain flag, which a nested leave clears; compared on the same abstract events, the counter would keep its overlay (`FileStructureStep.NestedLeaveHidesFlag`).
- **Failed uploads.** A failed upload in `createProjectWithFiles` is logged twice (`Supabase.FailedUploadLoggedTwice`).
- **Error messages.** The handlers pick the message with `err instanceof Error ? err.message : <fallback>`. The errors they see come from table queries (src/stores/projectStore.ts:50,74,149,179,218, src/pages/Settings.tsx:80, src/components/CompanySetup.tsx:85). Whether the SDK's query errors are `Error` instances depends on its version and was not established, so `Failure.isError` is a free parameter: with it the message is shown, without it the fallback (`Common.ErrorText`). The auth and storage clients' errors are `Error` subclasses.
- **Users without a company.** A signed-in user whose profile has no company is kept on /setup by the private route. The setup guard sends users with a company on to /projects (`App.UnlinkedProfileReturnsToSetup`).
