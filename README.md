# ProjectManipulator, modelled in Dafny

`Pod::ProjectManipulator` (in `setup/ProjectManipulator.rb`) turns a
template iOS project into a named project. Its `run` goes through five stages in a fixed order:

1. It builds the five-entry substitution hash and rewrites every file below the project folder. Each file gets `PROJECT_OWNER`, `TODAYS_DATE`, `TODAYS_YEAR`, `PROJECT` and `CPD` replaced, in that order, and is written back with `puts`.
2. It opens the project descriptor.
3. When asked to, it removes the demo application's target, group and product from the descriptor, and then saves the descriptor.
4. It renames the shared scheme and then the `.xcodeproj` bundle. When the demo is kept, it also does three more things in order:
   - it rewrites `CPD` in the storyboard;
   - it renames the demo sources that carry the `CPD` prefix;
   - it renames the files named after `PROJECT`.
5. It renames the `PROJECT` source folder after the pod.

The model works on an abstract disk:

- `Files.Fs` is a map from file paths to contents, plus a set of directory paths.
- `Files.FileSystem` is the object whose `Write` and `Rename` change that disk in place.
- `File.rename` is a subtree move, `Files.Move`: everything at or below the old path reappears below the new one, and whatever was at or below the new path is replaced.

`String#gsub` with a plain-string pattern is modelled by `Strings.ReplaceAll`. It replaces non-overlapping occurrences from left to right. It is proved equal to an independent reference: splitting at the pattern and joining with the replacement.

The modules are:

- `Strings` — substring search, `ReplaceAll`, split and join.
- `Paths` — `File.dirname` (including its collapsing of a leading `//` to `/`), "at or below", re-rooting.
- `Files` — the disk and `File.rename`.
- `Substitution` — the token pass.
- `Renames` — the rename manifest of `rename_files` and `rename_project_folder`, as functions on disk values.
- `Manifests` — the three file lists of `rename_files`, taken apart into directory, token and tail. From that layout it proves that no two renames touch each other, so every listed file that exists ends up at its renamed path.
- `Descriptor` — the first-match lookups and removals of `remove_demo_project`.
- `Manipulator` — the `ProjectManipulator` class, whose methods run the stages on a `FileSystem` and are proved equal to those functions, and `RunSpec`, the whole of `run`.

Each stage that the source runs as a loop is a method with a loop. Its invariant ties the disk after `i` steps to a fold over the first `i` entries. Those folds are:

- `Renames.RewriteEach` and `Renames.RenameEach`;
- `Substitution.SubstitutedExcept`, used for the glob loop;
- `Substitution.ApplyAll`, used for the `for find, replace` loop.

Demo removal is not all-or-nothing:

- Each node is removed as soon as it is found, and a lookup that finds nothing raises on `nil`. The removals made before the raise stay in the opened descriptor (`Descriptor.RemoveDemoPartial`).
- Because the raise happens before `@project.save`, the partial removal is never saved (`Manipulator.DemoCrashSavesNothing`).

## Model

| member | source | states |
|---|---|---|
| Strings.ReplaceAll | setup/ProjectManipulator.rb:128 | `gsub` invents no character: each comes from the text or the replacement; a replacement as long as the pattern keeps the length |
| Strings.ReplaceAllIsSplitJoin | setup/ProjectManipulator.rb:128 | `gsub` with a literal pattern gives the same text as splitting at the leftmost non-overlapping occurrences and joining with the replacement |
| Strings.SplitJoin | setup/ProjectManipulator.rb:128 | splitting at the pattern and joining with it gives back the original text |
| Strings.SplitPiecesFree | setup/ProjectManipulator.rb:128 | no piece between two replaced occurrences contains the pattern |
| Strings.ReplaceAllLength | setup/ProjectManipulator.rb:128 | the result is longer by (replacement length − pattern length) for each occurrence |
| Strings.ReplaceAllUnchangedIff | setup/ProjectManipulator.rb:128 | a replacement leaves the text unchanged exactly when the pattern does not occur or is replaced by itself |
| Strings.ReplaceAllAbsent | setup/ProjectManipulator.rb:128 | a text without the pattern is returned unchanged |
| Strings.ReplaceAllSelf | setup/ProjectManipulator.rb:128 | replacing a pattern by itself changes nothing |
| Strings.FindFirst | setup/ProjectManipulator.rb:128 | gives the leftmost occurrence of the pattern, or reports that there is none |
| Paths.CollapseRoot | setup/ProjectManipulator.rb:65 | a run of two or more leading '/' becomes one, and a path without one is returned as it is; the result never starts with `//` |
| Paths.Dirname | setup/ProjectManipulator.rb:64-66 | `File.dirname` is never empty and never starts with `//`; it is ".", "/", or a proper prefix of the path with its leading slashes collapsed, ending just before a '/' |
| Paths.DirnameOfChild | setup/ProjectManipulator.rb:64-66 | the project folder of `<d>/<name>.xcodeproj` is `d` with its leading slashes collapsed, and that is `d` itself unless `d` starts with `//` |
| Paths.DirnameCollapsesRoot | setup/ProjectManipulator.rb:65 | `File.dirname("//a/b.xcodeproj")` is `/a` |
| Paths.SiblingsApart | setup/ProjectManipulator.rb:76 | paths below two different plain names in one directory are never at or below one another |
| Files.Move | setup/ProjectManipulator.rb:73-76 | every entry at or below the source reappears, with its contents, at the re-rooted path; entries outside both subtrees are untouched; the old subtree is gone; everything at or below the destination came from the source |
| Files.MoveWellFormed | setup/ProjectManipulator.rb:73-76 | a rename keeps files and directories apart |
| Files.Renamed | setup/ProjectManipulator.rb:73 | `File.rename` fails exactly when the source is missing, with that path as the error and the disk unchanged |
| Files.Written | setup/ProjectManipulator.rb:86-88 | overwriting a file sets its contents and changes no other entry and no directory |
| Files.FileSystem.Exists | setup/ProjectManipulator.rb:82 | `File.exist?` is true for a file or a directory |
| Files.FileSystem.IsDirectory | setup/ProjectManipulator.rb:124 | `Dir.exist?` is true exactly for a directory |
| Files.FileSystem.Write | setup/ProjectManipulator.rb:86-88 | the disk afterwards is `Written` of the disk before |
| Files.FileSystem.Rename | setup/ProjectManipulator.rb:73-76 | the disk and the error afterwards are those of `Renamed` |
| Substitution.Replacements | setup/ProjectManipulator.rb:21-27 | the hash has five entries and every token is non-empty |
| Substitution.ApplyAll | setup/ProjectManipulator.rb:127-129 | the pass invents no character: each comes from the text or one of the replacements; replacements as long as their tokens keep the length |
| Substitution.ApplyAllFirst | setup/ProjectManipulator.rb:127-129 | the pass replaces the first token in the whole text and then runs the remaining tokens on the result |
| Substitution.ApplyAllNoTokens | setup/ProjectManipulator.rb:127-129 | a text holding none of the tokens comes through the pass unchanged |
| Substitution.OwnerReplacedBeforeProject | setup/ProjectManipulator.rb:21-27 | the literal `PROJECT_OWNER` becomes the user name, with the later tokens replaced inside it; if the user name holds none of them, it becomes exactly the user name |
| Substitution.ProjectFirstWouldSplitOwner | setup/ProjectManipulator.rb:21-27 | had `PROJECT` come first, `PROJECT_OWNER` would have become the pod name followed by `_OWNER` |
| Substitution.ReplacementCanFormToken | setup/ProjectManipulator.rb:127-129 | a replacement can complete a token with the text after it (`CPDPD` becomes `ABCPD`) |
| Substitution.Puts | setup/ProjectManipulator.rb:131 | `puts` output always ends in a newline, and it equals the input exactly when the input already ends in one |
| Substitution.Substituted | setup/ProjectManipulator.rb:122-133 | no path is added, removed or renamed and no directory changes; files outside the folder keep their contents; every file below it ends in a newline |
| Substitution.SubstitutedEffect | setup/ProjectManipulator.rb:122-133 | the pass adds, removes and renames no path; it leaves directories and entries outside the folder alone; every visited file gets the replacements applied in order, and ends in a newline |
| Substitution.SubstitutedStep | setup/ProjectManipulator.rb:123-131 | visiting one glob entry skips a directory and rewrites a file, and changes nothing else |
| Substitution.SkipDirectory | setup/ProjectManipulator.rb:124 | a directory found by the glob is skipped, and the pass state does not change |
| Substitution.RewriteFile | setup/ProjectManipulator.rb:125-131 | a visited file is overwritten with its text after the replacements and `puts` |
| Substitution.SubstitutedEnds | setup/ProjectManipulator.rb:123-131 | with every entry still to visit nothing has changed, and with none left the whole pass is done |
| Renames.BundleNameFacts | setup/ProjectManipulator.rb:76 | `<pod>.xcodeproj` is a plain name, different from `PROJECT.xcodeproj` and from `PROJECT` |
| Renames.SchemeRequired | setup/ProjectManipulator.rb:72-73 | the scheme rename has no existence check: without the scheme file, `rename_files` fails at once and changes nothing |
| Renames.BundleRequired | setup/ProjectManipulator.rb:72-76 | without the bundle, `rename_files` fails after the scheme rename, which is not undone |
| Renames.RenameThenMoveParent | setup/ProjectManipulator.rb:72-76 | a file renamed inside a directory that is renamed next ends up, with its contents, below the new directory name, and the directory is still there for the second rename |
| Renames.MoveClears | setup/ProjectManipulator.rb:73-76 | after a rename, nothing is left at or below the old path unless it is also at or below the new one |
| Renames.MoveParentClears | setup/ProjectManipulator.rb:72-76 | renaming a file inside a directory and then the directory to a path apart from both leaves neither old path behind |
| Renames.NestedPaths | setup/ProjectManipulator.rb:72-76 | both scheme paths lie strictly below the old bundle, the renamed scheme re-rooted below the new bundle is the final scheme, and for two different plain bundle names nothing below the old bundle is below the new one |
| Renames.SchemePaths | setup/ProjectManipulator.rb:72-76 | the same facts for the concrete scheme and bundle paths of a project folder and pod name |
| Renames.SchemeAndBundle | setup/ProjectManipulator.rb:72-76 | the scheme and bundle renames keep files and directories apart; a missing scheme stops them before anything changes; the only errors are a missing scheme or bundle |
| Renames.SchemeAndBundleDone | setup/ProjectManipulator.rb:72-76 | with the scheme file and the bundle in place, both renames happen, scheme first |
| Renames.SchemeTravelsWithBundle | setup/ProjectManipulator.rb:72-76 | with the scheme file and the bundle in place, the scheme stage succeeds and the scheme's contents end up at `<folder>/<pod>.xcodeproj/xcshareddata/xcschemes/<pod>.xcscheme` |
| Renames.SchemeStageLeavesNoOldPaths | setup/ProjectManipulator.rb:72-76 | for a pod name without '/' other than `PROJECT`, neither the old scheme path nor the old bundle is left after the scheme stage |
| Renames.FinalSchemeOutsideSources | setup/ProjectManipulator.rb:76 | the final scheme path is not at or below the source folder, its renamed form, or anything below `<folder>/PROJECT/` |
| Renames.RewriteEach | setup/ProjectManipulator.rb:80-90 | the storyboard loop adds and removes no path, keeps files and directories apart, and fails only on a listed path that is a directory |
| Renames.RewriteEachStops | setup/ProjectManipulator.rb:80-90 | once the storyboard loop raises, no later entry is processed |
| Renames.RewriteEachFrame | setup/ProjectManipulator.rb:80-90 | the storyboard loop changes no directory and no file it does not name |
| Renames.StoryboardRewritten | setup/ProjectManipulator.rb:80-90 | an existing storyboard file has every `CPD` replaced by the prefix, with no newline added; a missing one is skipped; a directory raises |
| Renames.RenameEach | setup/ProjectManipulator.rb:93-112 | a conditional rename loop keeps files and directories apart |
| Renames.RenameEachFrame | setup/ProjectManipulator.rb:93-103 | a rename loop leaves alone every entry outside all of its sources and destinations |
| Renames.RenameOneKeeps | setup/ProjectManipulator.rb:93-103 | one conditional rename leaves in place a file it neither moves nor overwrites |
| Renames.RenameOneArrives | setup/ProjectManipulator.rb:93-103 | one conditional rename whose source is a file puts that file's contents at its destination |
| Renames.IndependentPrefix | setup/ProjectManipulator.rb:93-103 | dropping the last step keeps the loop independent, and the last step touches no earlier destination |
| Renames.LastSourceUntouched | setup/ProjectManipulator.rb:93-103 | in an independent loop, the earlier steps leave the last step's source alone |
| Renames.RenameEachMoves | setup/ProjectManipulator.rb:93-103 | when the steps are independent, every listed file that exists ends up, with its contents, at its name with the token replaced |
| Renames.DisjointIndependent | setup/ProjectManipulator.rb:93-112 | a loop whose steps are pairwise apart is independent |
| Renames.RenameEachSkips | setup/ProjectManipulator.rb:99 | in a disjoint loop, a listed entry that is missing is skipped, and its renamed path stays as it was |
| Renames.RenameEachVacates | setup/ProjectManipulator.rb:98-102 | in a disjoint loop, a listed entry that exists and is renamed to a path outside it is gone from its old path |
| Renames.RenameEachPlaces | setup/ProjectManipulator.rb:93-112 | in a disjoint loop, every step is placed: a file is at its destination with its contents, a missing source leaves its destination alone, and a moved entry leaves its old path |
| Renames.DemoKeptRenames | setup/ProjectManipulator.rb:78-113 | the demo-kept steps keep files and directories apart and fail only when the storyboard path is a directory |
| Renames.RenameFiles | setup/ProjectManipulator.rb:68-114 | `rename_files` keeps files and directories apart; it fails only on a missing scheme, a missing bundle, or (with the demo kept) a storyboard path that is a directory |
| Renames.RenameProjectFolder | setup/ProjectManipulator.rb:116-120 | the folder rename keeps files and directories apart; a `PROJECT` directory is now at `<folder>/<pod>`; without one nothing changes |
| Renames.RenameStages | setup/ProjectManipulator.rb:35-36 | the two rename stages keep files and directories apart, and stop at the error of `rename_files` |
| Manifests.LayoutDisjoint | setup/ProjectManipulator.rb:93-112 | a manifest whose names are directory, token and tail, with pairwise separated entries, is disjoint below any base |
| Manifests.ManifestsApart | setup/ProjectManipulator.rb:80-112 | for a prefix and a pod name without '/', each of the two rename lists is disjoint, every entry of one is apart from every entry of the other before and after renaming, and the storyboard path is none of them |
| Manifests.ManifestsIndependent | setup/ProjectManipulator.rb:93-112 | for a prefix and a pod name without '/', both rename loops are independent, so `Renames.RenameEachMoves` applies to them |
| Manifests.ManifestsMoveAway | setup/ProjectManipulator.rb:101-110 | when the prefix is not `CPD` (the pod name not `PROJECT`), no prefixed (project-named) file is renamed into itself or below itself |
| Manifests.DemoKeptPlaces | setup/ProjectManipulator.rb:78-113 | once the storyboard step succeeds: every prefixed and project-named file that exists is at its renamed path with its contents; a missing one leaves its renamed path as it was; when its token is replaced by something else, it is gone from its old path |
| Manifests.RenameFilesPlaces | setup/ProjectManipulator.rb:68-114 | the same placements for a successful `rename_files` with the demo kept, measured from the disk before the scheme and the bundle were renamed |
| Renames.DemoKeptKeepsScheme | setup/ProjectManipulator.rb:78-113 | the demo-kept steps leave the final scheme alone, and can only fail on a storyboard path that is a directory |
| Renames.SourcesApartFromBundles | setup/ProjectManipulator.rb:72-76 | nothing at or below `<folder>/PROJECT` is at or below either scheme path or either bundle |
| Renames.TwoMovesFrame | setup/ProjectManipulator.rb:73-76 | an entry outside the sources and destinations of two renames keeps its kind and contents |
| Renames.DemoRemovedLeavesSources | setup/ProjectManipulator.rb:78-113 | with the demo removed, nothing at or below `<folder>/PROJECT` is renamed or rewritten |
| Renames.RenameStagesPlaceScheme | setup/ProjectManipulator.rb:68-120 | after both rename stages, the scheme's contents are at the final scheme path, and the only error possible is a storyboard path that is a directory |
| Renames.ProjectFolderMoved | setup/ProjectManipulator.rb:116-120 | when `<folder>/PROJECT` is a directory, it moves with everything below it to `<folder>/<pod>` and nothing is left below the old name; otherwise nothing changes |
| Renames.ProjectFolderFrame | setup/ProjectManipulator.rb:116-120 | the folder rename leaves alone everything outside the old and new folder |
| Descriptor.FirstMatch | setup/ProjectManipulator.rb:47 | gives the index of the first element that matches, or reports that none does |
| Descriptor.RemoveAt | setup/ProjectManipulator.rb:50 | removing a node takes exactly that element out of its list and keeps the others in order |
| Descriptor.RemoveDemoSucceeds | setup/ProjectManipulator.rb:46-58 | demo removal succeeds exactly when an application target, a group named after the pod and the app product all exist, and then it removes the first match of each |
| Descriptor.RemoveDemo | setup/ProjectManipulator.rb:46-58 | nodes are only taken out, never added; on success each list is one shorter; a crash names the lookup that found nothing |
| Descriptor.RemoveDemoPartial | setup/ProjectManipulator.rb:46-58 | a failed group lookup leaves the target removed and the groups and products as they were, with no group matching; a failed product lookup leaves the target and the first matching group removed and the products as they were, with no product matching; a failed target lookup changes nothing |
| Manipulator.RunSpec | setup/ProjectManipulator.rb:20-37 | a run keeps files and directories apart; the descriptor is saved unless demo removal crashed, and then nothing is renamed; what is saved is the descriptor with the demo removed, or as loaded |
| Manipulator.DemoCrashSavesNothing | setup/ProjectManipulator.rb:28-36 | a crash in demo removal leaves the disk as the substitution pass made it, with nothing saved and nothing renamed |
| Manipulator.SchemeIsVisited | setup/ProjectManipulator.rb:123 | the scheme file lies below the project folder, so the substitution pass rewrites it |
| Manipulator.RunPlacesScheme | setup/ProjectManipulator.rb:20-37 | once a run gets past the save, the substituted scheme is at `<folder>/<pod>.xcodeproj/xcshareddata/xcschemes/<pod>.xcscheme`, and the only error possible is a storyboard path that is a directory |
| Manipulator.ProjectManipulator.constructor | setup/ProjectManipulator.rb:12-18 | keeps the options it is given; nothing is opened or saved yet |
| Manipulator.ProjectManipulator.ProjectFolder | setup/ProjectManipulator.rb:64-66 | the folder is ".", "/", or the part of the `.xcodeproj` path before a '/', once a leading `//` is collapsed; it never starts with `//` |
| Manipulator.ProjectManipulator.SubstituteText | setup/ProjectManipulator.rb:127-129 | the loop over the hash leaves the text with every token replaced in order |
| Manipulator.ProjectManipulator.ReplaceInternalProjectSettings | setup/ProjectManipulator.rb:122-133 | the disk afterwards is the substituted disk of the one before |
| Manipulator.ProjectManipulator.RemoveDemoProject | setup/ProjectManipulator.rb:46-58 | the descriptor and the error afterwards are those of `RemoveDemo` |
| Manipulator.ProjectManipulator.RewriteListed | setup/ProjectManipulator.rb:80-90 | the disk and the error afterwards are those of the storyboard fold |
| Manipulator.ProjectManipulator.RenameListed | setup/ProjectManipulator.rb:93-112 | the disk afterwards is that of the conditional rename fold |
| Manipulator.ProjectManipulator.RenameFiles | setup/ProjectManipulator.rb:68-114 | the disk and the error afterwards are those of `Renames.RenameFiles` |
| Manipulator.ProjectManipulator.RenameProjectFolder | setup/ProjectManipulator.rb:116-120 | the disk afterwards is that of `Renames.RenameProjectFolder` |
| Manipulator.ProjectManipulator.Run | setup/ProjectManipulator.rb:20-37 | the hash is set; the disk, the saved descriptor and the error afterwards are those of `RunSpec`; the opened descriptor is the loaded one, with the demo removed (as far as removal got) when asked |

## Left out

- `Xcodeproj::Project.open` is not modelled. `Run` takes the descriptor it returns as a parameter, and `@project.save` records that descriptor in the `saved` field. The descriptor is not read from or written to the modelled disk.
- Line 57 compares product paths with `@configurator.pod_name.app`, and what that evaluates to depends on code that is not part of this model. The value is a parameter, `appPath`.
- `remove_from_project` is modelled as removing one element from one list. The library's cascading clean-up of references elsewhere in the descriptor is not modelled.
- The shell command `rm -rf templates/ios/PROJECT` (line 61) is external process I/O relative to the working directory, and its exit status is ignored, so it is not modelled.
- `add_podspec_metadata` is not modelled: its only call is commented out.
- `self.perform` is plumbing only, so it is not modelled. `initialize`'s `platform` option is not modelled either: the modelled code never reads it.
- Ruby's backslash sequences in a `gsub` replacement string (`\0`, `\1`, `\\`) are not expanded: replacements are inserted literally.
- `Dir.glob` is modelled as visiting every entry strictly below the project folder. The exclusion of hidden files is not modelled.
- `File.rename` can fail for reasons other than a missing source: a non-empty directory in the way, a directory onto a file, a move into its own subtree, permissions, or a different device. None of these is modelled. A rename onto an existing destination replaces what was there.
- Text encoding (`"r:utf-8"`), read and write failures, and the configurator's metadata sources are not modelled. Configurator values are opaque strings.
- The disk model does not require every file's parent directory to exist.
- Manifests.DemoKeptPlaces and Manifests.RenameFilesPlaces: stated for a prefix and a pod name without '/'. A '/' in either makes a renamed file move into a different directory, and then the lists are no longer known to be apart.
