# viaduct in Dafny

viaduct is a Go library for writing configuration-management programs.
A program builds a *manifest* of *resources* (files, directories, links,
downloads, packages, apt repositories, deb packages, git checkouts and shell
commands), each with optional dependencies. `Run` then does three things:
it checks every resource's parameters ("preflight"), applies all resources
concurrently, and reports which ones failed.

This project models that core as pure functions over immutable data and
proves its properties. It covers:

- the manifest's registration API: `Add`, `SetName`, `SetDep` and `WithLock`;
- how resource identifiers are built;
- the scheduler, stated as a nondeterministic transition system over poll,
  enter and finish steps;
- the preflight gate and the exit status of `Run`;
- each resource kind's preflight validator, its defaults, its operation name
  and its write decision over an abstract filesystem;
- the package-manager argument vectors and the apt `sources.list` line;
- the os-release parser;
- the logger;
- the `sudo` and `bash -c` helpers.

Where the program ends the process (`log.Fatal`, `os.Exit`), the model
returns an error or an exit code. Everything the program asks of its
environment is a parameter:

- processes (`exec`);
- HTTP (`fetch`);
- home expansion (`expand`) and absolute paths (`absolute`);
- Go's map iteration order (`enumerate`);
- the SHA-1 digest (`hash`);
- the host facts (root, current user ids, Ubuntu codename, platform id);
- the git and directory operations (`external`).

Files, one module each:

- `wrappers`: `Option` and `Result`.
- `text`: split, join, trim, contains, integer parsing and a string sort, with their round trips.
- `ambient`: host facts and flags.
- `filesystem`: an abstract filesystem, command invocations and effects.
- `contract`: `ResourceParams` and preflight results.
- `permissions`: `resources/utils.go`.
- One file per resource kind.
- `descriptor`: all kinds behind one type.
- `resource`: `resource.go`.
- `manifest`: registration in `manifest.go`.
- `scheduler`: `apply` and `dependencyCheck` as a transition system.
- `engine`: `Manifest.Run`.
- `log`, `attributes` and `helpers`.

## Model

| member | source | states |
|---|---|---|
| Contract.NewResourceParams | resource.go:43-45 | plain parameters never ask for the global lock |
| Contract.NewResourceParamsWithLock | resource.go:49-51 | the locking variant always asks for the global lock |
| Resources.NewResource | resource.go:76-89 | fails with "dependency is not a valid resource" exactly when some dependency handle has no identifier; otherwise a pending, unlocked, error-free resource whose dependencies are the handles' identifiers in argument order, duplicates kept |
| Resources.SetKind | resource.go:99-110 | a descriptor behind a pointer gets its type's name (non-empty); a plain value is refused with "cannot determine resource type" |
| Resources.SetID | resource.go:112-129 | fails exactly when the kind is unset; otherwise only the identifier changes, to the one built from the kind and the record's own hash |
| Resources.ParseMakeID | resource.go:117-128 | an identifier is the kind, "_id-" and eight hash digits: twelve characters longer than the kind, and it reads back as that kind and the digest's first eight digits |
| Resources.MakeIDInjective | resource.go:117-128 | equal identifiers come from equal kinds and equal leading digits |
| Resources.RunResource | resource.go:131-139 | a failing preflight is returned without running anything and with the filesystem untouched; otherwise the kind's run is performed on the descriptor preflight returned |
| Resources.RunAfterPreflight | resource.go:131-139 | running a descriptor that already went through preflight gives the same outcome as running the original, since preflight is idempotent |
| Descriptor.KindName | resource.go:99-110 | every kind has a non-empty name without "_" |
| Descriptor.KindNameInjective | resource.go:99-110 | two descriptors have the same kind name exactly when they are of the same kind |
| Descriptor.Params | resource.go:36-51 | across all kinds, the global lock is requested exactly by packages, debs and apt repositories that update |
| Descriptor.PreflightChecks | resource.go:56-72 | preflight never changes a descriptor's kind |
| Descriptor.PreflightIdempotent | resource.go:56-72 | for every kind and a fixed host, a second preflight changes nothing and reports the same error |
| Descriptor.Run | resource.go:56-72 | given a world whose iteration order lists every key once: a deb always succeeds; directory and git runs report what the outside operation reports, and their filesystem effect is left to that operation; a package in dry-run issues nothing |
| Manifests.New | manifest.go:29-33 | a new manifest holds no resources |
| Manifests.SetNameAsWritten | manifest.go:37-49 | the program's rename fails exactly for an unknown handle |
| Manifests.SetNameAsWrittenLosesSelfRename | manifest.go:37-49 | as written, renaming a resource to its own identifier deletes it from the manifest |
| Manifests.SetName | manifest.go:37-49 | an unknown handle is refused; otherwise the entry moves to the new key with its identifier updated, overwrites any entry already there, the old key goes when it differs, and every other entry stays |
| Manifests.SetNameCorrectsAsWritten | manifest.go:37-49 | the corrected rename agrees with the program on every rename to a different name, and a self-rename leaves a well-formed manifest unchanged |
| Manifests.SetNamePreserves | manifest.go:37-49 | renaming keeps every entry registered under its own identifier |
| Manifests.StaleHandleAfterRename | manifest.go:37-64 | the caller's handle keeps the old identifier, so later `SetDep` and `WithLock` through it change nothing |
| Manifests.SetDep | manifest.go:52-57 | the name is appended to the stored dependencies with no existence check; an unknown resource is ignored, no key changes and no other field or entry changes |
| Manifests.WithLock | manifest.go:59-64 | the stored resource takes the global lock and nothing else changes; an unknown resource is ignored |
| Manifests.WithLockIdempotent | manifest.go:59-64 | taking the lock twice is taking it once |
| Manifests.EditsPreserve | manifest.go:52-64 | `SetDep` and `WithLock` keep every entry registered under its own identifier (neither recomputes it) |
| Manifests.AddResource | manifest.go:66-86 | an unset kind fails; on success exactly one new key is added (the computed identifier, not already present), all other entries stay, the descriptor is attached, and the stored lock is the old lock or the kind's request, never cleared |
| Manifests.AddResourceDuplicate | manifest.go:79-81 | registration is refused exactly when the computed identifier is already a key; otherwise the manifest grows by one |
| Manifests.Add | manifest.go:88-105 | a bad dependency handle or a non-pointer descriptor fails; on success the handle is stored under a fresh identifier with the dependencies' identifiers in order, the lock exactly when the kind asks for it, status pending, and a well-formed manifest stays well-formed |
| Scheduler.PollPass | manifest.go:255-279 | one pass reports a failed dependency exactly when some present dependency has failed, naming the first such; it reports all satisfied exactly when every present dependency succeeded; absent dependencies count as satisfied |
| Scheduler.AbsentDependencyIgnored | manifest.go:259-276 | a dependency name that is not in the manifest changes nothing about a pass |
| Scheduler.DependencyCheck | manifest.go:248-290 | no dependencies: satisfied at once; otherwise at most 600000 passes, every earlier pass was still waiting, and the result is the final pass's verdict, or giving up exactly when all 600000 passes were still waiting |
| Scheduler.Apply | manifest.go:223-246 | an upstream failure gives DependencyFailed and its error; giving up keeps the status and records the gave-up error; a satisfied check gives Failed with the run's error, or Success; nothing else in the record changes |
| Scheduler.Init | manifest.go:153-162 | every resource starts polling from pass 0, with no lock holder and nothing started |
| Scheduler.InitInv | manifest.go:153-162 | the initial state of a well-formed manifest satisfies the scheduler invariant |
| Scheduler.NextWritesOnce | manifest.go:292-299 | a step changes at most one resource, and a status is written only away from Pending, once |
| Scheduler.NextProgresses | manifest.go:248-290 | every step moves the stepping resource forward in its phase order |
| Scheduler.RankTotalDrops | manifest.go:248-290 | lowering one resource's phase rank lowers the total rank |
| Scheduler.NextLowersRank | manifest.go:248-290 | every step lowers the total rank, so every run of the scheduler ends |
| Scheduler.DepsSatisfiedStep | manifest.go:258-278 | a step that starts only resources whose dependencies all succeeded keeps that fact true |
| Scheduler.BlamedStep | manifest.go:260-266 | a step that marks DependencyFailed only on an observed failed dependency keeps every DependencyFailed blamed on one |
| Scheduler.NextInv | manifest.go:223-308 | every step preserves the invariant: shape, recorded outcomes, lock ownership, started set, satisfied dependencies and blamed failures |
| Scheduler.PollInv | manifest.go:248-290 | a poll step preserves the invariant |
| Scheduler.PollReadyInv | manifest.go:276-289 | a poll that finds every dependency satisfied preserves the invariant |
| Scheduler.PollFailedInv | manifest.go:260-266 | a poll that finds a failed dependency preserves the invariant |
| Scheduler.PollWaitInv | manifest.go:276-281 | a poll that must wait again preserves the invariant |
| Scheduler.PollGaveUpInv | manifest.go:284-286 | the last poll that gives up preserves the invariant |
| Scheduler.EnterInv | manifest.go:232-235 | taking the global lock before running preserves the invariant |
| Scheduler.FinishInv | manifest.go:237-245 | recording the run's result and releasing the lock preserves the invariant |
| Scheduler.LockExclusion | manifest.go:232-235 | no two resources holding the global lock are running at the same time |
| Scheduler.StartedAfterDependencies | manifest.go:228-237 | a resource whose run began has every present dependency in Success |
| Scheduler.FailedDependencyBlocksRun | manifest.go:226-230 | a resource with a failed present dependency, or marked DependencyFailed, never starts its run |
| Scheduler.FailurePropagates | manifest.go:260-266 | polling a resource whose first failed dependency is known marks it DependencyFailed with the upstream error naming that dependency, done and not started |
| Scheduler.NoDeadlock | manifest.go:153-162 | while some resource is not done, some step is enabled |
| Scheduler.ErrorsExactlyUnsuccessful | manifest.go:166-178 | once all are done, some resource has an error exactly when some resource is not Success |
| Scheduler.Schedule | manifest.go:153-162 | any sequence of steps keeps keys and dependencies, starts only resources whose dependencies succeeded, never has two locked resources running, never starts a DependencyFailed resource, and leaves unfinished resources Pending |
| Engine.PreflightGate | manifest.go:125-136 | the gate keeps every key and changes only error fields: a resource failing preflight gets that error and every other resource is untouched |
| Engine.GateReportsExactlyFailures | manifest.go:125-151 | after the gate, some resource carries an error exactly when some resource failed preflight |
| Engine.CompletedWithErrors | manifest.go:166-172 | the scan says "with errors" exactly when some resource has an error |
| Engine.KeysOf | manifest.go:158-160 | the enumeration lists exactly the manifest's keys |
| Engine.StepFor | manifest.go:223-246 | the step chosen for an unfinished resource is always enabled |
| Engine.StepTracks | manifest.go:223-246 | each chosen step keeps every finished resource's record consistent with its run's reported error |
| Engine.PollTracks | manifest.go:248-290 | a poll step keeps the records consistent with the reported runs |
| Engine.EnterTracks | manifest.go:232-235 | an enter step keeps the records consistent with the reported runs |
| Engine.FinishTracks | manifest.go:237-245 | a finish step records exactly the run's reported error |
| Engine.Drive | manifest.go:153-162 | applying all resources ends with every resource done, the invariant intact and every record consistent with its run |
| Engine.Run | manifest.go:118-221 | keys are kept; exit code 0 exactly when every resource succeeded, else 1; a failed preflight stops before any run, with every resource Pending and carrying its preflight error or none; otherwise every resource ends with a non-Pending status or an error, consistent with its run, and every started resource's dependencies succeeded |
| Permissions.DirectoryBit | resources/utils.go:37-56 | or-ing in the directory bit sets it, is idempotent, and gives a non-zero mode |
| Permissions.DefaultModeSpec | resources/utils.go:37-56 | the settled mode is never 0, a directory's carries the directory bit, and a non-zero mode keeps its bits (unchanged for a file) |
| Permissions.DefaultModeIdempotent | resources/utils.go:43-56 | settling a mode twice is settling it once |
| Permissions.PreflightPermissions | resources/utils.go:42-75 | the mode is defaulted; the uid comes from the current user exactly when no user, uid or root was asked for, and likewise the gid; otherwise the given uid and gid are kept; it fails exactly when such a needed id does not parse, reporting the uid's parse error first and the gid's when the uid step passed |
| Permissions.PreflightPermissionsIdempotent | resources/utils.go:42-75 | for a fixed current user, a second pass changes nothing and reports the same error |
| PackageResource.Params | resources/package.go:24-26 | packages always ask for the global lock |
| PackageResource.PreflightChecks | resources/package.go:30-42 | names are required, then root; on success nothing is changed |
| PackageResource.ShortcutsSpec | resources/package.go:45-56 | `Pkg` installs exactly one name and `Pkgs` exactly the names given, in order; each passes preflight exactly when root and (for a list) non-empty |
| PackageResource.Run | resources/package.go:66-159 | dry-run issues nothing; an unknown platform is the "unrecognised distribution" error; otherwise the argv is the platform's manager, then "install" or "remove" (pacman: "-S" or "-R"), then "-y" (pacman: "--noconfirm", followed by "--needed" for an install), then the names |
| PackageResource.OperationMatchesRun | resources/package.go:58-90 | the name is "Uninstall" exactly when `Run` builds the removal command |
| AptResource.Params | resources/apt.go:49-51 | the global lock is requested exactly when updating |
| AptResource.PreflightChecks | resources/apt.go:55-89 | update-only passes untouched; otherwise Name, URI and root in that order; then the distribution and source defaults; then both key kinds together are refused; on success the list path is recorded; the other fields are kept |
| AptResource.PreflightIdempotent | resources/apt.go:55-89 | a second preflight changes nothing and reports the same error |
| AptResource.AptUpdateSpec | resources/apt.go:91-93 | `AptUpdate` is the blank descriptor plus update-only: named "Update", passing preflight untouched and taking the global lock |
| AptResource.OperationVersusRun | resources/apt.go:95-117 | the logged name and the dispatch agree except with both Delete and UpdateOnly set, where the name says "Delete" while the run only updates |
| AptResource.Pairs | resources/apt.go:168-176 | at most one `k=v` word per key of the order; when every key of the order is in the map, exactly the word `k=v` for each key, in iteration order |
| AptResource.EveryParameterListed | resources/apt.go:168-176 | whatever the iteration order, every parameter appears in the option list |
| AptResource.SourceLineFields | resources/apt.go:152-183 | without options the line is "deb", URI, distribution, source and a newline, joined by single spaces, and splits back into them |
| AptResource.SourceLineOptions | resources/apt.go:168-183 | with options the second word is the bracketed option list and the line has six words |
| AptResource.EffectiveParameters | resources/apt.go:156-166 | a signing key of either kind adds `signed-by` pointing at the key file; otherwise the parameters are used as given |
| AptResource.UpdateApt | resources/apt.go:121-143 | dry-run does nothing; not root is an error; otherwise the update command runs and its error is the result; no file changes |
| AptResource.CreateAptWrites | resources/apt.go:146-207 | after a successful create the list file holds exactly the source line, and no other path of the modelled filesystem changes (the signing key file is not modelled) |
| AptResource.CreateAptSameOrderIdempotent | resources/apt.go:185-194 | a second create that meets the options in the same order finds the line in place and neither writes nor issues anything |
| AptResource.EnumerationLength | resources/apt.go:170-172 | ranging over a map visits exactly as many keys as it has |
| AptResource.CreateAptIdempotent | resources/apt.go:168-194 | with at most one option, a second create finds the line in place and neither writes nor issues anything, whatever order each run meets the map in |
| AptResource.SourceLineFirstKey | resources/apt.go:152-183 | with options, the character after "deb [" is the first character of the first key in iteration order |
| AptResource.SwappedKeysChangeLine | resources/apt.go:168-183 | two options whose keys start with different characters give different lines in the two iteration orders |
| AptResource.CreateAptRewrites | resources/apt.go:185-204 | when the line differs from the one the first run wrote, a second create as root with Update rewrites the list file and issues the update again |
| AptResource.CreateAptOrderMatters | resources/apt.go:168-194 | as written, with two options a second create that meets the map in the other order rewrites the list file and updates again |
| AptResource.CreateAptSorted | resources/apt.go:168-194 | corrected, with the options sorted by key: a successful create leaves the list file holding the line for the sorted order |
| AptResource.CreateAptSortedIdempotent | resources/apt.go:168-194 | corrected: a second create is a no-op whatever order either run met the map in |
| Text.SortStringsSorted | resources/apt.go:170-172 | sorting gives a strictly increasing sequence with exactly the input's elements |
| Text.SortedUnique | resources/apt.go:170-172 | two strictly increasing sequences with the same elements are equal |
| Text.SortStringsIgnoresOrder | resources/apt.go:170-172 | sequences with the same elements sort to the same sequence |
| AptResource.DeleteApt | resources/apt.go:266-288 | dry-run or no list file: nothing happens; a non-empty directory at the path is `os.Remove`'s error, with nothing changed; otherwise the entry is removed and the update follows only when asked, as root issuing the command and returning its error |
| AptResource.DeleteAptRemoves | resources/apt.go:266-288 | after a successful removal no list file is left and a second delete does nothing |
| AptResource.Run | resources/apt.go:107-117 | update-only runs the update whatever else is set |
| DirectoryResource.Params | resources/directory.go:38-40 | directories never ask for the lock |
| DirectoryResource.PreflightChecks | resources/directory.go:44-75 | the path is required; then the permissions, and the error, are exactly those of the directory permission preflight (mode defaulted, ids taken from the current user only when none was asked for, given ids kept); fails exactly when the path is empty or a needed id does not parse |
| DirectoryResource.PreflightDefaults | resources/directory.go:51-72 | after success the mode carries the directory bit and is the default when none was given, and the ids come from the current user when nothing else was asked for, and are kept as given otherwise |
| DirectoryResource.PreflightIdempotent | resources/directory.go:44-75 | a second preflight changes nothing and reports the same error |
| DirectoryResource.DirSpec | resources/directory.go:34-36 | `Dir` sets only the path, is a creation, and passes preflight exactly when the path is given and the ids parse, with the default directory mode |
| DirectoryResource.OperationMatchesRun | resources/directory.go:77-91 | the logged name and the dispatch agree: both are decided by Delete |
| GitResource.Params | resources/git.go:47-49 | git checkouts never ask for the lock |
| GitResource.PreflightChecks | resources/git.go:53-96 | Path, then URL, are required; the reference defaults to "refs/heads/main" and the remote to "origin"; the permissions, and the error, are exactly those of the directory permission preflight (given ids kept, the current user's taken only when none was asked for); fails exactly when a required field is empty or a needed id does not parse |
| GitResource.PreflightIdempotent | resources/git.go:53-96 | a second preflight changes nothing and reports the same error |
| GitResource.RepoPreflight | resources/git.go:43-45 | `Repo` keeps the checkout ensured, is a creation, and with both arguments and parsable ids passes preflight tracking "refs/heads/main" of "origin" |
| GitResource.OperationMatchesRun | resources/git.go:98-112 | the logged name and the dispatch agree: both are decided by Delete |
| FileResource.Params | resources/file.go:53-55 | files never ask for the lock |
| FileResource.PreflightChecks | resources/file.go:57-84 | the path is required; then the permissions, and the error, are exactly those of the file permission preflight (given ids kept, the current user's taken only when none was asked for); fails exactly when the path is empty or a needed id does not parse |
| FileResource.PreflightMode | resources/file.go:63-65 | mode 0 becomes 0644 and any other mode is kept |
| FileResource.PreflightIdempotent | resources/file.go:57-84 | a second preflight changes nothing and reports the same error |
| FileResource.ShortcutsSpec | resources/file.go:39-51 | `Touch` is `CreateFile` with no content; a deletion keeps no content; each passes preflight exactly when the path is given and the ids parse, with mode 0644 |
| FileResource.CreateFileRun | resources/file.go:133-174 | the file is written only when absent or reading differently; an unreadable file is an error that changes nothing; after success the file reads as the content |
| FileResource.CreateFileRunWrites | resources/file.go:141-164 | creating changes no path other than the file's |
| FileResource.CreateFileRunIdempotent | resources/file.go:141-164 | a second create after a successful one changes nothing |
| FileResource.DeleteFileRun | resources/file.go:177-198 | with dry-run or no file at the expanded path nothing changes; the delete fails exactly when a non-empty directory is there, and then nothing changes; otherwise the entry is removed |
| FileResource.DeleteFileRunRemoves | resources/file.go:185-197 | after a successful delete, a second delete changes nothing, other paths are untouched, and the entry is gone |
| FileResource.OperationMatchesRun | resources/file.go:116-130 | the logged name and the performed operation agree |
| FileResource.Run | resources/file.go:124-130 | no command is issued; a failed run changes nothing; a successful create leaves the file holding the content and a successful delete leaves no file |
| DownloadResource.Params | resources/download.go:46-48 | downloads never ask for the lock |
| DownloadResource.PreflightChecks | resources/download.go:50-80 | URL, then Path, are required; then the permissions, and the error, are exactly those of the file permission preflight (given ids kept, the current user's taken only when none was asked for); fails exactly when one is empty or a needed id does not parse |
| DownloadResource.PreflightIdempotent | resources/download.go:50-80 | a second preflight changes nothing and reports the same error |
| DownloadResource.WgetSpec | resources/download.go:39-44 | `Wget` sets only URL and path, is named "Get", and passes preflight exactly when both are given and the ids parse |
| DownloadResource.GetAsWritten | resources/download.go:90-118 | as written: dry-run, or an existing expanded path with NotIfExists, does nothing; a failed `os.Create` (missing parent, a directory in the way) is the error with nothing changed; otherwise the path as given is created empty, a network error or non-200 status is then the error with that file left empty, and status 200 leaves it holding the body |
| DownloadResource.AsWrittenTruncatesOnErrorStatus | resources/download.go:104-118 | as written, a 404 reply reports an error and yet leaves an existing file emptied |
| DownloadResource.AsWrittenIgnoresExpansion | resources/download.go:91-104 | as written, a "~" path is created relative to the working directory: with no directory "~" there the download fails; with one, the body lands under it, while the expanded path the skip check reads never appears |
| DownloadResource.Get | resources/download.go:90-118 | skips as the program does; a network error or a non-200 status is an error that changes nothing; success leaves the expanded path holding the body |
| DownloadResource.GetNotIfExistsSettles | resources/download.go:99-102 | with NotIfExists, a run after a successful fetch is a no-op |
| DownloadResource.GetCorrectsAsWritten | resources/download.go:90-118 | the corrected step agrees with the program whenever it skips and never leaves a failed run's changes behind |
| DownloadResource.Run | resources/download.go:86-118 | runs the program's step: no command is issued, and a run that neither skips nor fails leaves the path as given holding the status-200 body |
| LinkResource.Params | resources/link.go:33-35 | links never ask for the lock |
| LinkResource.PreflightChecks | resources/link.go:39-47 | only the path is required, and nothing is changed |
| LinkResource.DeleteNeedsNoSource | resources/link.go:120-140 | a deletion with a path passes preflight and runs without a source |
| LinkResource.ShortcutsSpec | resources/link.go:24-31 | `CreateLink` keeps the source; `DeleteLink` ignores it; each passes preflight exactly when the path is given |
| LinkResource.CreateLinkRun | resources/link.go:66-117 | an empty source is an error; otherwise, unless in dry-run, the path ends up a link to the absolute expanded source, changed only when it was not already; the only failure is a non-empty directory in the way |
| LinkResource.RemoveOr | resources/link.go:94-109 | removing what is in the way fails exactly on a non-empty directory |
| LinkResource.CreateLinkRunIdempotent | resources/link.go:88-101 | a second create after a successful one changes nothing |
| LinkResource.DeleteLinkRun | resources/link.go:120-140 | dry-run or nothing at the path: no change; on success nothing remains at the path; a failure changes nothing |
| LinkResource.OperationMatchesRun | resources/link.go:49-63 | the logged name and the performed operation agree |
| LinkResource.Run | resources/link.go:57-63 | no command is issued; a failed run changes nothing; outside dry-run, a successful create leaves the path a link to the absolute expanded source and a successful delete leaves nothing at the path |
| ExecuteResource.Echo | resources/execute.go:34-36 | the command is "echo", a space, and the message in double quotes, with no directory or guard |
| ExecuteResource.Params | resources/execute.go:38-40 | commands never ask for the lock |
| ExecuteResource.PreflightChecks | resources/execute.go:42-50 | the command is required, and nothing is changed |
| ExecuteResource.EchoPreflight | resources/execute.go:34-50 | an echo always passes preflight |
| ExecuteResource.ShortcutsSpec | resources/execute.go:25-32 | `Exec` is `ExecUnless` with no guard; each runs in the current directory, is named "Run", and passes preflight exactly when the command is given |
| ExecuteResource.SetCommandOutput | resources/execute.go:95-110 | silent discards both streams, quiet keeps standard error only, otherwise both are kept |
| ExecuteResource.SetCommandOutputMonotone | resources/execute.go:95-110 | a quieter setting never routes a stream a louder one drops |
| ExecuteResource.ShellInvocation | resources/execute.go:61-93 | a command line runs as `bash -c` in the given directory |
| ExecuteResource.RunExecute | resources/execute.go:61-93 | the guard, if any, runs first; the command runs exactly when the guard is absent or fails and it is not a dry-run; the only error is a failing command, reported as "command failed: " and the command |
| DebResource.Params | resources/deb.go:25-27 | debs always ask for the lock |
| DebResource.PreflightChecks | resources/deb.go:31-47 | Name, URI and root are required in that order, and nothing is changed |
| DebResource.OperationMatchesRun | resources/deb.go:49-63 | the logged name and the performed operation agree |
| DebResource.Run | resources/deb.go:57-85 | creating and deleting always succeed |
| Attributes.WithFieldAt | attributes.go:139-164 | setting one field leaves the other eleven as they were |
| Attributes.FieldsDetermine | attributes.go:31-45 | two platforms with the same twelve fields are equal |
| Attributes.KeysDistinct | attributes.go:139-164 | the twelve keys are pairwise distinct |
| Attributes.KeyIndex | attributes.go:139-164 | a key has an index exactly when it is one of the twelve, and that index names it |
| Attributes.Field | attributes.go:139-164 | a field can be read exactly for the twelve known keys |
| Attributes.SetField | attributes.go:139-164 | a known key sets exactly its own field; an unknown key changes nothing |
| Attributes.ParseLine | attributes.go:133-164 | a line without "=" is skipped; otherwise its key sets its field to the value |
| Attributes.NewPlatformAttributes | attributes.go:124-128 | a missing file gives the all-empty platform |
| Attributes.FieldAfterLine | attributes.go:139-164 | a line sets the field of its own key and leaves every other field |
| Attributes.LastOccurrenceWins | attributes.go:132-165 | when a key repeats, the field holds the value of its last line |
| Attributes.AbsentKeyKept | attributes.go:132-165 | a key that no line names keeps its field |
| Attributes.SecondSeparatorDropsRest | attributes.go:133-163 | text after a second "=" is dropped and quotes are trimmed from the value |
| Attributes.TrimQuotes | attributes.go:141-163 | trimming quotes from a quoted plain value gives the value back |
| Attributes.RenderLineParses | attributes.go:133-163 | a rendered `KEY="value"` line parses back to its key and value |
| Attributes.RenderedLastWithKey | attributes.go:132-165 | in a rendered platform each key's line is its last |
| Attributes.RenderedField | attributes.go:132-165 | parsing a rendered platform recovers each field |
| Attributes.ParseRender | attributes.go:124-168 | parsing the rendering of a platform with plain values gives the platform back |
| Attributes.AddCustom | attributes.go:114-116 | adding a custom attribute adds exactly its key |
| Attributes.GetCustom | attributes.go:119-121 | an absent custom key reads as "" |
| Attributes.CustomReadBack | attributes.go:114-121 | a value just added reads back, and other keys read as before |
| Log.ParseLoggerOutput | log.go:89-91 | a line is "==> ", the resource, the action in brackets and the message, and reads back into those parts |
| Log.Emit | log.go:45-87 | only Fatal exits; nothing is written exactly when silent, or quiet at Info, Warn or Noop; otherwise the line is the logger's format with Noop's action marked " (up-to-date)" |
| Log.EmittedLineParses | log.go:63-91 | a written line reads back as the logger's resource, the level's label and the message |
| Log.LoggerLevels | log.go:26-87 | `NewLogger` sets neither flag and writes every level; `NewQuietLogger` sets only quiet and writes only Fatal and Critical; `NewSilentLogger` sets only silent and writes nothing but still exits on Fatal |
| Log.QuieterWritesLess | log.go:45-87 | raising a flag only removes lines, never changes them |
| Helpers.PrependSudo | helpers.go:36-38 | one longer, "sudo" first, and the rest exactly the arguments |
| Helpers.RunCommand | helpers.go:43-48 | `bash -c` with the words joined by spaces, in the current directory; space-free words split back out of the command line |
| Helpers.WordsRecoverable | helpers.go:43-48 | space-free words joined by spaces split back into the same words |
| Helpers.SudoCommandLine | helpers.go:51-53 | `SudoCommand` is `RunCommand` of `PrependSudo`; its command line is the plain one with "sudo " in front, or "sudo" alone |
| Helpers.IsUbuntu | helpers.go:56-58 | true exactly when ID_LIKE contains "ubuntu" at some position |
| FileSystem.FileExistsCases | helpers.go:60-67 | the stat succeeds for any entry that is not a link, fails where nothing is, and for a link exactly when its target is there and is not a link; a path just written exists and a path just removed does not |
| Text.Split | attributes.go:133 | splitting gives at least one part and no part contains the separator |
| Text.JoinSplit | attributes.go:133 | joining the parts of a split with the separator gives the string back |
| Text.SplitJoin | helpers.go:44 | splitting separator-free parts joined by the separator gives the parts back |
| Text.TrimSpec | attributes.go:141 | trimming removes exactly the separator characters at both ends |
| Text.TrimIdempotent | attributes.go:141 | trimming twice is trimming once |
| Text.ContainsSpec | helpers.go:57 | contains holds exactly when the substring occurs at some position |
| Text.AtoiIntToString | resources/utils.go:58-64 | a 64-bit integer's decimal text parses back to it |

## Left out

- Goroutines, the wait group and the two read-write locks: the scheduler takes
  atomic steps. A poll pass reads one snapshot of the manifest, whereas the
  program takes the read lock once per dependency. Setting the status and
  setting the error are one step.
- Scheduler.Schedule and Engine.Drive: no fairness is assumed. `Drive` applies
  one particular order of steps, and `Schedule` any given sequence of steps.
- The jittered sleep between poll passes, and all wall-clock timing.
- The manifest dump to /tmp, removing the temporary directory, the colours
  and the log timestamps. The program also exits with status 1, through
  `log.Fatal`, when writing the dump or removing the temporary directory
  fails; Engine.Run does not model those exits.
- Engine.Run: the JSON rendering of failed resources printed before exiting is
  not modelled, because it is output only.
- Manifests.AddResource: the JSON rendering appended to "resource already
  exists" and to "Unknown resource" is not part of the message, because
  serialisation is left out.
- Resources.NewResource: the JSON rendering after "dependency is not a valid
  resource: " is not part of the message, for the same reason.
- The hash: SHA-1 over JSON is the `hash` parameter. It is assumed only to be
  deterministic and to give 40 lower-case hexadecimal digits.
- Reflection in `setKind` is replaced by an explicit kind tag per descriptor.
- Log.Emit: a message is one string, where the program's `fmt.Sprint` takes
  several operands.
- Processes (`exec`), HTTP (`fetch`), home expansion (`expand`), absolute
  paths (`absolute`) and map iteration order (`enumerate`) are parameters.
- DownloadResource.Response: a reply carries its whole body. A copy of the
  body that fails part-way (`io.Copy` returning an error after a partial
  write) cannot be expressed, so that error path is not modelled.
- Creating and removing directories, and cloning and pulling git
  repositories, are the `external` parameter. Their bodies are calls into
  os and go-git.
- Setting owners and modes after a write (`setDirectoryPermissions`,
  `setFilePermissions`, and the same steps in `get`) is left out, because
  these are chown, chmod and user lookups. In `setFilePermissions` and in
  `get` the chmod branch calls `os.Chown` again, where `setDirectoryPermissions`
  calls `os.Chmod`. Their user lookup is left out for the same reason.
- AptResource.SourcesListPath and AptResource.SigningKeyPath: the paths are
  plain concatenations. The program builds them with `filepath.Join`, which
  also cleans "..", "." and doubled slashes out of a Name such as "../x" or
  "a//b"; path cleaning is not modelled.
- Text.Atoi: the error message puts the input between plain double quotes.
  Go's `strconv.Quote` also escapes quotes and non-printable characters,
  which is not modelled.
- `receiveSigningKey` (fetching a key with curl and gpg) is left out, because
  it runs external commands. The model keeps only the `signed-by` option it
  leads to. The program ignores that step's command errors.
- `installCmd` is left out: the model yields the argument vector it would run.
- Parent directories are checked only where a download creates its file,
  which is where the program's behaviour depends on them; every other write
  assumes the parent exists. Umask and the size shown in the download log are
  not modelled.
- FileSystem.Resolve: one symbolic link is followed. `os.Stat` and
  `os.WriteFile` follow a whole chain of links; a link to a link is not
  resolved further in the model.
- ExpandPath: the `expand` parameter is total. The program ends the process
  with `log.Fatal` when go-homedir cannot expand a path, such as "~user/x";
  the model does not follow that exit.
- AptResource.CreateAptWrites: the key file under /usr/share/keyrings that
  `receiveSigningKey` writes is outside the modelled filesystem, so "no other
  path changes" speaks of the modelled paths only.
- AptResource.CreateAptIdempotent: idempotence is promised only with at most
  one option on the line. With more, the program is not idempotent, as the
  findings below show.
- Descriptor.Run: the directory and git kinds leave the modelled filesystem as
  it was. What they do to directory entries is the `external` operation's.
- Attributes.NewPlatformAttributes: the release file is given as its lines,
  because bufio's line splitting and the open are I/O.
- `initAttributes`, `SetUser`, the command-line and config flag parsing,
  `EmbeddedFile`, `NewTemplate` and the root-level legacy resource files are
  not part of this model.
- Engine.Run: the defaults that preflight fills in are not written back into
  the stored resources by the gate. Resources.RunAfterPreflight shows that
  this cannot change any run.
- Engine.Run: a resource's run outcome is the `runError` parameter, which
  stands for the error of Resources.RunResource on the running world.

## Findings

| source | as written | input that shows it | evidently intended | confidence | as-written member | corrected member |
|---|---|---|---|---|---|---|
| manifest.go:37-49 | the entry is stored under the new name and then the old key is deleted | `SetName(r, string(r.ResourceID))` on a registered resource | renaming to the current name leaves the manifest unchanged | high, not executed | Manifests.SetNameAsWrittenLosesSelfRename | Manifests.SetNameCorrectsAsWritten |
| resources/download.go:91-104 | the file is created at `a.Path`, but the skip check reads the expanded path | a Download to "~/x" with NotIfExists: it fails when the working directory has no "~" directory, and with one it fetches again on every run | the body is written at the expanded path, so NotIfExists skips the second fetch | high, not executed | DownloadResource.AsWrittenIgnoresExpansion | DownloadResource.GetNotIfExistsSettles |
| resources/apt.go:168-194 | the options are joined in map iteration order, which Go varies from one range to the next, and the file is rewritten whenever its content differs | an apt repository with options arch and lang and Update, created twice with the map met in the two orders | the same options give the same line, so a second create is a no-op | high, not executed | AptResource.CreateAptOrderMatters | AptResource.CreateAptSortedIdempotent |
| resources/download.go:104-118 | `os.Create` truncates the target before the HTTP status is known | an existing file and a 404 reply | a failed download leaves the existing file as it was | medium, not executed | DownloadResource.AsWrittenTruncatesOnErrorStatus | DownloadResource.GetCorrectsAsWritten |
