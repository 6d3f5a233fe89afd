# Droidy, modelled in Dafny

Droidy is a Swift package that builds a Swift product for Android and runs it on a
device. It is driven by a small builder API: `Droidy()` followed by fluent settings,
`build(product)` and `run()`. Before building, it prepares its tools in a fixed order:

1. Java: must be on the search path at an accepted version.
2. Gradle: checked against the version it prints.
3. The Swift Android toolchain: checked against the version `swift-frontend` prints.
4. The Android NDK: checked against its `source.properties`.
5. The Android SDK: licences accepted, platform tools installed.
6. The Android project folder.

Each tool is taken from an environment override or from its default folder under
`~/.droidy`. When neither exists, it is downloaded and unpacked if the user allowed that;
otherwise the tool gives up with instructions. Building compiles the product for each
target architecture with the toolchain. When compilation fails, the compiler's output is
parsed into a per-file error report. The built libraries are copied into the project.
Running assembles a debug APK with the Gradle wrapper, then uses `adb` to:

- install the APK on the chosen device;
- stop and restart the app;
- follow the app's log, with each line reformatted.

## How the model is built

- **The machine.** `Host.Machine` (host.dfy) stands for everything outside the process:
  - `exec` gives the result of each command line;
  - `poll` gives the result of a query asked for the n-th time;
  - `transfer` gives the outcome of a download;
  - `contents` gives the text of a file;
  - `unpacks` gives the paths an extracting command creates.
  
  It keeps two things that change:
  - the set of existing paths, `files`;
  - a ghost `trace` of every action taken: a command run, a download, a folder created,
    removed or moved, a second slept.
  
  Every operation is specified by the exact actions it appends to the trace and by how it
  changes `files`.
- **How operations end.** An operation ends with a `Status`:
  - `Ok`;
  - `Fatal(message)`, which stands for printing `message` and calling `fatalError()`;
  - `Exit(code, message)`, which stands for printing `message` and calling `exit(code)`.
  
  A caller stops at the first `Fatal` or `Exit` (`Halted()`), just as the process would.
- **Classes and values.** Classes whose fields the source updates stay classes:
  - `Gradle`, `Toolchain`, `Ndk`, `Sdk`, `Java`;
  - `Project` and `Droidy`, with the fluent setters as methods that have narrow
    `modifies` clauses.
  
  Pure decisions are functions with an explicit outcome, each paired with a method that
  performs the steps. Examples are each tool's version `Verdict`, `DownloadOutcome`,
  `ExtractOutcome`, `AcquireOutcome` and `SetupOutcome`.
- **Foundation.** The Foundation string and path operations the code relies on are
  written out in strings.dfy and paths.dfy, on Unicode scalars (see "## Left out" for
  what that leaves out of Swift's string comparison):
  - `components(separatedBy:)`, `trimmingCharacters(in:)`, `contains`, `Int(_:)`;
  - `appendingPathComponent`, `lastPathComponent`, `deletingLastPathComponent`.
- **Preconditions.** Where the source would trap (a force-unwrap, an index past the end),
  the model has a precondition naming the input the source cannot handle. Examples are
  `Adb.LineReadable`, `GradleTool.ReportReadable`, `SwiftTool.OutputReadable` and
  `Orchestration.Droidy.RunReady`.

Where the code and its description differ, the model follows the code:

- **NDK path override.** The NDK keeps the `ndkPath` override in its path, but `prepare()`
  never looks at it. It always uses the default folder or a download.
- **`run()` does not prepare.** `run()` does not call `prepare()`. It lists devices with
  whatever SDK path the tool holds.
- **Loose version checks.** Java's version check is a text search: "1.8.0_172" passes
  for 17. The toolchain's check accepts a version that contains, or is contained in, the
  preferred one.
- **SDK update phrase.** The SDK update check looks for "No updates available" one read
  chunk at a time. The phrase is missed when it is cut across two reads.

## Model

| member | source | states |
|---|---|---|
| Archs.Android | Sources/Droidy/Tools/Swift.swift:17-24 | every architecture has one of the four ABI names, which hold no ',' |
| Archs.FromAndroid | Sources/Droidy/Tools/Swift.swift:26-34 | defined exactly on the four ABI names, and then it names the architecture whose ABI name was given |
| Archs.FromAndroidInverse | Sources/Droidy/Tools/Swift.swift:17-34 | `fromAndroid(a.android) == a` for every architecture |
| Archs.AndroidInjective | Sources/Droidy/Tools/Swift.swift:17-24 | distinct architectures have distinct ABI names |
| Strings.Split | Sources/Droidy/Tools/Swift.swift:151 | `components(separatedBy:)` always yields at least one part, the empty text included |
| Strings.JoinSplit | Sources/Droidy/Tools/ADB.swift:66 | `components(separatedBy:)` loses nothing: joining the parts with the separator rebuilds the text |
| Strings.SplitPartsFree | Sources/Droidy/Tools/ADB.swift:73 | no part of a split holds the separator |
| Strings.SplitJoin | Sources/Droidy/Tools/ADB.swift:120-123 | parts free of a one-character separator, joined and split again, come back unchanged |
| Strings.Trim | Sources/Droidy/Tools/ADB.swift:121 | `trimmingCharacters(in:)` yields a slice of the text with no class character at either end, the text itself when neither end is in the class, and "" exactly when every character is |
| Strings.TrimIdempotent | Sources/Droidy/Tools/ADB.swift:121 | trimming twice is trimming once |
| Strings.TrimPadding | Sources/Droidy/Tools/ADB.swift:208 | padding of the class around a text whose ends are outside it is exactly what trimming removes |
| Strings.ParseInt | Sources/Droidy/Tools/Swift.swift:184 | `Int(_:)` only yields values within 64 bits |
| Strings.ParseIntToString | Sources/Droidy/Tools/Swift.swift:108 | an `Int` printed and parsed back is the same number |
| Paths.AppendComponent | Sources/Droidy/Tools/GradleW.swift:21-23 | after appending a name without '/', the name is the last component and the folder is the parent |
| Paths.ParentAppendLast | Sources/Droidy/Tools/Downloader.swift:55-56 | a file path is its parent with its last component appended |
| Host.Which | Sources/Droidy/Tools/Bash.swift:12-33 | true exactly when `which` exits with 0 and prints something; it runs one command and changes no file |
| Host.WhichPath | Sources/Droidy/Tools/Bash.swift:36-59 | a failed lookup is fatal; an empty answer exits with 1; otherwise the path is the trimmed answer |
| Host.AfterTransfer | Sources/Droidy/Tools/Downloader.swift:25-32 | after a transfer its temporary file exists exactly when it was kept, and no other path changes |
| Host.Machine.Run | Sources/Droidy/Tools/Bash.swift:38-46 | a launched process waited for yields the machine's result for that command line; it is recorded and changes no file |
| Host.Machine.Poll | Sources/Droidy/Tools/ADB.swift:225-240 | a query asked again yields the machine's answer for that attempt; it is recorded and changes no file |
| Host.Machine.Sleep | Sources/Droidy/Tools/ADB.swift:222-224 | a wait is recorded and changes no file |
| Host.Machine.Fetch | Sources/Droidy/Tools/Downloader.swift:16-35 | a download task run to completion is recorded, and its temporary file exists afterwards exactly when the transfer kept it |
| Host.Machine.CreateDirectory | Sources/Droidy/Tools/Extractor.swift:21-23 | the folder exists afterwards, and nothing else changes |
| Host.Machine.Move | Sources/Droidy/Tools/Downloader.swift:59 | `moveItem` succeeds exactly when the source exists and the target does not; then the source is gone and the target exists |
| Host.Machine.Remove | Sources/Droidy/Tools/Downloader.swift:58 | `try? removeItem` leaves the path absent, whether or not it existed |
| Host.Machine.Unpack | Sources/Droidy/Tools/Extractor.swift:51-56 | an extracting command that exits with 0 leaves the archive's contents in place; a failed one changes nothing |
| Downloader.Observe | Sources/Droidy/Tools/Downloader.swift:37-49 | one progress callback moves the counter to the next milestone exactly when the next threshold (25, 50, 75 percent) is reached |
| Downloader.ProgressCount | Sources/Droidy/Tools/Downloader.swift:36-49 | the counter never passes the three milestones nor the number of callbacks |
| Downloader.ObserveProgress | Sources/Droidy/Tools/Downloader.swift:36-49 | the notices printed are the first `count` milestones, each once and in order |
| Downloader.ProgressGrows | Sources/Droidy/Tools/Downloader.swift:37-49 | later callbacks never lower the counter |
| Downloader.ProgressOneStep | Sources/Droidy/Tools/Downloader.swift:39-48 | one callback prints at most one notice |
| Downloader.ProgressEarned | Sources/Droidy/Tools/Downloader.swift:38-48 | the k-th notice is printed only after some callback reached its threshold |
| Downloader.FinalPathNamedAfterLink | Sources/Droidy/Tools/Downloader.swift:55-56 | the final file sits in the temporary file's folder and is named after the link's last component |
| Downloader.DownloadOutcome | Sources/Droidy/Tools/Downloader.swift:11-65 | the transfer comes first; an error, a non-200 status, a missing path or a vanished file is fatal and changes nothing else; otherwise only the temporary and the final paths change |
| Downloader.Download | Sources/Droidy/Tools/Downloader.swift:11-65 | the machine ends as `DownloadOutcome` says, and the returned path is the final one |
| Downloader.Settled | Sources/Droidy/Tools/Downloader.swift:57-63 | clearing the final path and moving the temporary file there leaves the final path present and the temporary one gone, unless they coincide; no other path changes |
| Downloader.Settle | Sources/Droidy/Tools/Downloader.swift:57-63 | removes, then moves; the move fails, fatally, exactly when both paths are the same |
| Extractor.Extract | Sources/Droidy/Tools/Extractor.swift:11-58 | the machine ends as `ExtractOutcome` says |
| Extractor.Launch | Sources/Droidy/Tools/Extractor.swift:24-57 | the extracting program is looked up with `which` and then run; a failed lookup or a failed run halts |
| Extractor.UnsupportedDoesNothing | Sources/Droidy/Tools/Extractor.swift:30-33 | an archive that is neither `.tar.gz` nor `.zip` is refused fatally before any action |
| Extractor.ExtractSucceeded | Sources/Droidy/Tools/Extractor.swift:51-57 | a successful extraction last ran the program `which` found, on the archive, and its contents exist |
| Extractor.TarIntoDest | Sources/Droidy/Tools/Extractor.swift:20-25 | a `.tar.gz` is unpacked with one leading component stripped into `dest`, which then exists |
| Extractor.ZipIntoParent | Sources/Droidy/Tools/Extractor.swift:17-29 | a `.zip` is unpacked into the parent of `dest`, after the folder there named after the archive has been removed |
| Extractor.DeletingExtensionOf | Sources/Droidy/Tools/Extractor.swift:18 | an archive named `base.ext` loses exactly `.ext` |
| Acquisition.Acquire | Sources/Droidy/Tools/Gradle.swift:26-34 | the machine ends as `AcquireOutcome` says: the local archive, or else the download, is extracted into the destination |
| Acquisition.DownloadThenExtract | Sources/Droidy/Tools/Gradle.swift:32-34 | without a local archive, the download runs first and the file it leaves is what is extracted, as `AcquireOutcome` says |
| Acquisition.LocalArchiveNotDownloaded | Sources/Droidy/Tools/NDK.swift:28-36 | with a local archive nothing is fetched, and that very archive is extracted |
| Acquisition.DownloadComesFirst | Sources/Droidy/Tools/Toolchain.swift:45-53 | without one, the download of the URL is the first action |
| Acquisition.AcquiredMeansExtracted | Sources/Droidy/Tools/SDK.swift:31-39 | an acquisition succeeds only when the extraction of the archive it chose succeeded |
| Diagnostics.ScanRun | Sources/Droidy/Tools/Swift.swift:166-201 | a run of blocks only extends the places collected, and it ends within the output |
| Diagnostics.IndexOfFile | Sources/Droidy/Tools/Swift.swift:171 | finds the first entry for the file, or reports that there is none |
| Diagnostics.InsertByLine | Sources/Droidy/Tools/Swift.swift:177 | inserting into places sorted by line keeps them sorted and adds exactly that place |
| Diagnostics.SortByLine | Sources/Droidy/Tools/Swift.swift:177-179 | `sort(by: line)` yields a permutation sorted by line |
| Diagnostics.LexLessAsymmetric | Sources/Droidy/Tools/Swift.swift:205 | Swift's string `<` is asymmetric |
| Diagnostics.LexLeqTransitive | Sources/Droidy/Tools/Swift.swift:205 | "not less than" is transitive, so sorting by file name is well defined |
| Diagnostics.InsertByName | Sources/Droidy/Tools/Swift.swift:205 | inserting keeps the entries sorted by file name and adds exactly that entry |
| Diagnostics.SortByName | Sources/Droidy/Tools/Swift.swift:205 | the entries come out as a permutation sorted by last path component |
| DiagnosticsFacts.ErrorLineRecognised | Sources/Droidy/Tools/Swift.swift:155-164 | the compiler's `file:line:col: error: msg` line for an absolute `.swift` file is taken as a block head, and its fields read back the file, the line and the message |
| DiagnosticsFacts.ErrorLineFields | Sources/Droidy/Tools/Swift.swift:158-164 | such a line has exactly the five fields the parser demands, the fourth mentioning `error` |
| DiagnosticsFacts.ErrorLineIsPlace | Sources/Droidy/Tools/Swift.swift:155-157 | an absolute `.swift` path followed by `:` passes `lineIsPlace` |
| DiagnosticsFacts.ScanRunSound | Sources/Droidy/Tools/Swift.swift:166-201 | every place a run collects comes from a complete block for the run's file |
| DiagnosticsFacts.ScanFromInv | Sources/Droidy/Tools/Swift.swift:152-203 | the outer loop keeps one entry per file, entries sorted by line and each place witnessed in the output |
| DiagnosticsFacts.CompilationErrorsWellFormed | Sources/Droidy/Tools/Swift.swift:149-207 | the result has one entry per file, sorted by file name; each entry's places are non-empty and sorted by line; every place comes from a complete block of the output |
| DiagnosticsFacts.FollowersSuffice | Sources/Droidy/Tools/Swift.swift:189-190 | the parser traps only when a numbered error line lacks its two following lines |
| DiagnosticsFacts.NoDiagnosticsNoErrors | Sources/Droidy/Tools/Swift.swift:204 | output without an error line parses to no errors |
| DiagnosticsFacts.FirstBlockReported | Sources/Droidy/Tools/Swift.swift:166-202 | a complete block at the top of the output is always reported |
| DiagnosticsFacts.ScanFromKeepsReports | Sources/Droidy/Tools/Swift.swift:152-203 | a place once reported stays reported until the end |
| DiagnosticsFacts.AddMissingFacts | Sources/Droidy/Tools/Swift.swift:172-176 | the de-duplicating append keeps what was there, adds every missing (line, reason) key once, and adds nothing already present |
| DiagnosticsFacts.SortByLineNoDuplicates | Sources/Droidy/Tools/Swift.swift:177 | sorting by line keeps a list free of repeated keys |
| DiagnosticsFacts.MergeInv | Sources/Droidy/Tools/Swift.swift:169-183 | `gracefulExit` keeps the loop invariant |
| DiagnosticsFacts.MergeKeepsReports | Sources/Droidy/Tools/Swift.swift:169-183 | `gracefulExit` loses no reported place |
| DiagnosticsFacts.MergeIntoExisting | Sources/Droidy/Tools/Swift.swift:171-177 | merging into an existing entry leaves the other entries untouched; the entry keeps all its places, covers every key of the run, gains only places whose key it lacked, and stays free of repeats |
| DiagnosticsFacts.MergeNewFile | Sources/Droidy/Tools/Swift.swift:178-180 | a file not yet reported gets a new last entry holding the run sorted by line |
| DiagnosticsFacts.SortUnique | Sources/Droidy/Tools/Swift.swift:205 | sorting entries by file name keeps one entry per file |
| DiagnosticsFacts.TwoBlockRun | Sources/Droidy/Tools/Swift.swift:196-197 | two consecutive blocks for one file make one run holding both places |
| DiagnosticsFacts.ConsecutiveBlocksSorted | Sources/Droidy/Tools/Swift.swift:179 | blocks at lines 10 and then 7 become one entry listing line 7 first |
| DiagnosticsFacts.RepeatedBlockMergedOnce | Sources/Droidy/Tools/Swift.swift:172-176 | the same error reported by two separate runs is listed once |
| DiagnosticsFacts.SameRunKeepsRepeats | Sources/Droidy/Tools/Swift.swift:195 | within one run the same error is not de-duplicated: both places are kept |
| SwiftTool.GracefulExit | Sources/Droidy/Tools/Swift.swift:169-183 | the imperative merge equals the `Merge` specification |
| SwiftTool.ParseCompilationErrors | Sources/Droidy/Tools/Swift.swift:149-207 | the draining loop computes `CompilationErrors`; its result has one entry per file, sorted by name, each entry non-empty, sorted by line and read from the output |
| SwiftTool.ParsePlace | Sources/Droidy/Tools/Swift.swift:166-201 | the recursion turned loop stops where the run ends and merges exactly that run |
| SwiftTool.TotalPlacesAtLeastFiles | Sources/Droidy/Tools/Swift.swift:100-102 | the error count is at least the number of files, and it is 1 exactly for one file with one place |
| SwiftTool.Ending | Sources/Droidy/Tools/Swift.swift:121-126 | the count phrase is empty exactly when no error was counted |
| SwiftTool.EndingStatesCount | Sources/Droidy/Tools/Swift.swift:121-126 | distinct counts give distinct phrases |
| SwiftTool.LineLabel | Sources/Droidy/Tools/Swift.swift:108 | the label has at least three characters and ends with '\|' |
| SwiftTool.Spaces | Sources/Droidy/Tools/Swift.swift:113 | n spaces |
| SwiftTool.GutterAligned | Sources/Droidy/Tools/Swift.swift:108-116 | the code line and the caret line have their '\|' in the same column, so the caret points into the code above it |
| SwiftTool.StderrSummary | Sources/Droidy/Tools/Swift.swift:84-89 | with `: error:` in standard error, what is shown is a slice after the last such marker, free of it; without the marker, the whole text |
| SwiftTool.BuildOutcome | Sources/Droidy/Tools/Swift.swift:80-129 | success exactly when the build exits with 0; an orderly exit with 0 only after a non-empty error list; unparsable output is fatal with the raw output |
| SwiftTool.Build | Sources/Droidy/Tools/Swift.swift:46-131 | runs the build command once and ends as `BuildOutcome` says |
| SwiftTool.JniLibsFoldersDistinct | Sources/Droidy/Tools/Swift.swift:210-215 | each architecture's libraries go to their own `jniLibs` folder |
| SwiftTool.CopyLibs | Sources/Droidy/Tools/Swift.swift:209-295 | succeeds exactly when the copy command and the bin-path query succeed, the query prints something, and the folder it names, trimmed, exists to be listed; every other case is fatal, and it stops at the first failure |
| ToolchainTool.Verdict | Sources/Droidy/Tools/Toolchain.swift:129-147 | accepted exactly when the run succeeds, prints something, and the word after the last " version " contains, or is contained in, the preferred version; everything else is fatal |
| ToolchainTool.ReportedToken | Sources/Droidy/Tools/Toolchain.swift:137 | on `swift-frontend --version` output, the word compared is the one after " version " |
| ToolchainTool.PrefixAccepted | Sources/Droidy/Tools/Toolchain.swift:138 | the comparison is loose: a prefix of the preferred version, or a version extending it, is accepted |
| ToolchainTool.Toolchain.constructor | Sources/Droidy/Tools/Toolchain.swift:28-43 | the `toolchainPath` override or nothing; version 5.5.2; the four architectures in the source's order |
| ToolchainTool.Toolchain.CheckVersion | Sources/Droidy/Tools/Toolchain.swift:103-148 | runs `swift-frontend --version` once and ends as `Verdict` says |
| ToolchainTool.Toolchain.Prepare | Sources/Droidy/Tools/Toolchain.swift:58-78 | the override is only checked; an existing default folder is adopted and checked; an allowed download is acquired, adopted and checked; otherwise it gives up fatally. The path only ever becomes the default folder |
| ToolchainTool.Toolchain.Download | Sources/Droidy/Tools/Toolchain.swift:45-56 | acquires into the default folder, then adopts and checks it; a halted acquisition leaves the path alone |
| ToolchainTool.Toolchain.Build | Sources/Droidy/Tools/Toolchain.swift:150-161 | builds the requested architecture, or every configured one, in order, and succeeds exactly when each is built and its libraries' folder found and listed |
| ToolchainTool.BuildAll | Sources/Droidy/Tools/Toolchain.swift:157-160 | the loop appends `BuildTrace` and succeeds exactly when `AllBuilt` holds |
| ToolchainTool.BuildArch | Sources/Droidy/Tools/Toolchain.swift:158-159 | builds, then copies only after a successful build; it succeeds exactly when both do |
| ToolchainTool.TraceStep | Sources/Droidy/Tools/Toolchain.swift:157-160 | one more architecture adds its actions only while every earlier one was built |
| ToolchainTool.FailureStops | Sources/Droidy/Tools/Toolchain.swift:157-160 | once one architecture fails, later ones add no action |
| ToolchainTool.AllBuiltRunsSteps | Sources/Droidy/Tools/Toolchain.swift:157-160 | when everything builds, exactly the reference steps run: each architecture built, then its libraries copied, in order |
| GradleTool.Verdict | Sources/Droidy/Tools/Gradle.swift:87-102 | accepted exactly when the run succeeds, prints something, and the title between the first two rules, less "Gradle ", equals the version; a mismatch exits with 1 |
| GradleTool.ReportNamesVersion | Sources/Droidy/Tools/Gradle.swift:95-99 | for `gradle --version` output the version read is the one in the title, and the check accepts exactly it |
| GradleTool.Gradle.constructor | Sources/Droidy/Tools/Gradle.swift:11-24 | the `gradlePath` override or nothing; version 7.3.3 and its URL |
| GradleTool.Gradle.CheckVersion | Sources/Droidy/Tools/Gradle.swift:62-103 | runs `gradle --version` once and ends as `Verdict` says |
| GradleTool.Gradle.Prepare | Sources/Droidy/Tools/Gradle.swift:38-60 | the override is only checked; an existing default folder is adopted and checked; an allowed download is acquired, adopted and checked; otherwise it gives up fatally |
| GradleTool.Gradle.DownloadAndCheck | Sources/Droidy/Tools/Gradle.swift:45-48 | the download branch: the check runs only after an acquisition that did not halt |
| GradleTool.Gradle.Download | Sources/Droidy/Tools/Gradle.swift:26-36 | acquires into the default folder, and adopts it only when that did not halt |
| GradleWrapper.AssembleDebug | Sources/Droidy/Tools/GradleW.swift:26-59 | runs `gradlew assembleDebug` once; a failure is fatal |
| GradleWrapper.InstallDebug | Sources/Droidy/Tools/GradleW.swift:61-93 | runs `gradlew installDebug` once; a failure is fatal |
| GradleWrapper.ApkUnderOutputs | Sources/Droidy/Tools/GradleW.swift:20-24 | the APK is `app-<abi>-<type>.apk` inside `app/build/outputs/apk/<type>` |
| GradleWrapper.DistinctArchsDistinctApks | Sources/Droidy/Tools/GradleW.swift:20-24 | with one build type, distinct architectures give distinct APK paths |
| JavaTool.MentionsAny | Sources/Droidy/Tools/Java.swift:73-77 | the loop finds a version exactly when one of the accepted versions occurs in the text |
| JavaTool.Verdict | Sources/Droidy/Tools/Java.swift:64-80 | accepted exactly when `java -version` succeeds, writes to standard error, and mentions an accepted version; every failure exits with 1 |
| JavaTool.Java.constructor | Sources/Droidy/Tools/Java.swift:12-15 | accepts version 17, with no automatic installation |
| JavaTool.Java.CheckVersion | Sources/Droidy/Tools/Java.swift:39-81 | looks `java` up, runs it with `-version`, and ends as `Verdict` says |
| JavaTool.Java.RunVersion | Sources/Droidy/Tools/Java.swift:43-80 | runs the found `java` with `-version` once and ends as `Verdict` judges that run: failure, empty report, a listed version mentioned, or the mismatch message |
| JavaTool.Java.Prepare | Sources/Droidy/Tools/Java.swift:21-37 | no `java`: Ok when installation is allowed, otherwise exit 1 with the notice; with one, the version check decides |
| JavaTool.UpdateNumberPasses | Sources/Droidy/Tools/Java.swift:74 | the check is textual: a Java 8 banner whose update number holds "17" passes |
| JavaTool.NewerReleaseRefused | Sources/Droidy/Tools/Java.swift:74-79 | a Java 21 banner is refused, although the notice asks for v17 "or higher" |
| NdkTool.Verdict | Sources/Droidy/Tools/NDK.swift:62-71 | accepted exactly when `source.properties` is readable and mentions the version; every failure exits with 1 |
| NdkTool.Ndk.constructor | Sources/Droidy/Tools/NDK.swift:24-26 | the `ndkPath` override, or else the default folder of version 21.4.7075529 |
| NdkTool.Ndk.CheckVersion | Sources/Droidy/Tools/NDK.swift:62-71 | reads `source.properties` under the current path and ends as `Verdict` says |
| NdkTool.Ndk.Prepare | Sources/Droidy/Tools/NDK.swift:41-60 | an existing default folder is adopted and checked; an allowed download is acquired, adopted and checked; otherwise exit 1. The path held before plays no part |
| NdkTool.Ndk.Download | Sources/Droidy/Tools/NDK.swift:28-39 | acquires into the default folder, then adopts and checks it; a halted acquisition leaves the path alone |
| NdkTool.DefaultFolderOfPinnedVersion | Sources/Droidy/Tools/NDK.swift:21 | the pinned version's default folder is `android-ndk-r21e` in the tool folder |
| NdkTool.SameMajorSameFolder | Sources/Droidy/Tools/NDK.swift:21 | versions sharing a major number share a default folder |
| SdkTool.ScanChunks | Sources/Droidy/Tools/SDK.swift:143-155 | the flag is raised exactly when some chunk read on its own holds "No updates available" |
| SdkTool.ChunkSightingInOutput | Sources/Droidy/Tools/SDK.swift:150 | a phrase seen in one chunk is in the whole output |
| SdkTool.PhraseAcrossChunksMissed | Sources/Droidy/Tools/SDK.swift:150 | the phrase cut across two reads goes unnoticed, although the output holds it |
| SdkTool.SetupOutcome | Sources/Droidy/Tools/SDK.swift:85-86 | licences first; success exactly when they are accepted and the platform tools exist, or both the install and the update succeed; nothing else runs when the tools exist |
| SdkTool.ToolsOutcome | Sources/Droidy/Tools/SDK.swift:31-54 | a halted acquisition is the outcome; success leaves the `sdk` folder and the placed command-line tools present, and the unpacked copy gone |
| SdkTool.Sdk.constructor | Sources/Droidy/Tools/SDK.swift:26-29 | the `sdkPath` override, or nothing |
| SdkTool.Sdk.Prepare | Sources/Droidy/Tools/SDK.swift:56-87 | the override, or an existing default folder, or an allowed download is set up as `SetupOutcome` says; otherwise it gives up fatally |
| SdkTool.Sdk.Download | Sources/Droidy/Tools/SDK.swift:31-54 | ends as `ToolsOutcome` says, adopting the default folder only on success |
| SdkTool.Setup | Sources/Droidy/Tools/SDK.swift:85-86 | ends as `SetupOutcome` says |
| SdkTool.AcceptAllLicenses | Sources/Droidy/Tools/SDK.swift:172-201 | runs the licence command once; a failure is fatal |
| SdkTool.InstallPlatformTools | Sources/Droidy/Tools/SDK.swift:89-127 | nothing when the platform tools exist; otherwise the install, then the update only after a successful install |
| SdkTool.UpdatePlatforms | Sources/Droidy/Tools/SDK.swift:129-170 | a failed update is fatal; otherwise the report says "up-to-date" exactly when some chunk announced no updates |
| SdkTool.ToolsUnpackedIntoFolder | Sources/Droidy/Tools/SDK.swift:39-48 | the command-line tools zip unpacks into the tool folder itself, where `_download()` looks for `cmdline-tools` |
| SdkTool.PresentPlatformToolsOnlyLicenses | Sources/Droidy/Tools/SDK.swift:90 | with platform tools present, setup only accepts the licences |
| SdkTool.BuildToolsMatchPlatform | Sources/Droidy/Tools/SDK.swift:18 | the major number of the build tools installed reads back as the compile SDK version |
| Adb.KnownArchs | Sources/Droidy/Tools/ADB.swift:123 | keeps exactly the known ABI names, as architectures, dropping the rest |
| AdbFacts.KnownArchsAppend | Sources/Droidy/Tools/ADB.swift:123 | `compactMap` keeps the order: the architectures of two lists in a row are those of the first, then those of the second |
| AdbFacts.KnownArchsOne | Sources/Droidy/Tools/ADB.swift:123 | one name gives its architecture when it is one of the four ABI names, and nothing otherwise |
| AdbFacts.AbiNamesRead | Sources/Droidy/Tools/ADB.swift:120-123 | any comma-separated list of names, known or not, with trailing whitespace, reads as the architectures of its known names, in order |
| AdbFacts.RetiredAbiDropped | Sources/Droidy/Tools/ADB.swift:120-123 | "arm64-v8a,armeabi-v7a,armeabi" with a newline reads as aarch64 then armv7: the unknown `armeabi` is dropped and the order kept |
| Adb.DeviceArchs | Sources/Droidy/Tools/ADB.swift:86-124 | a failed query is fatal; otherwise the architectures are those the trimmed, comma-separated list names |
| AdbFacts.KnownArchsOfNames | Sources/Droidy/Tools/ADB.swift:123 | reading back the ABI names of architectures gives them, in order |
| AdbFacts.ArchsRoundTrip | Sources/Droidy/Tools/ADB.swift:120-123 | a device's comma-separated ABI list, with a trailing newline, reads back as its architectures |
| Adb.DeviceLines | Sources/Droidy/Tools/ADB.swift:66 | keeps exactly the lines holding " device " |
| AdbFacts.DeviceLinesAppend | Sources/Droidy/Tools/ADB.swift:66 | the filter keeps the order of the lines |
| Adb.Sides | Sources/Droidy/Tools/ADB.swift:73-74 | a line yields its two sides only when " device " cuts it in exactly two |
| Adb.ReadDevice | Sources/Droidy/Tools/ADB.swift:75-81 | the device carries the architectures queried, and is an emulator exactly when its serial says "emulator" |
| Adb.DevicesList | Sources/Droidy/Tools/ADB.swift:32-84 | a failed listing is fatal; otherwise the loop over the " device " lines decides the devices and the actions |
| Adb.ReadDevices | Sources/Droidy/Tools/ADB.swift:72-82 | the imperative loop ends as `ListFrom` says |
| AdbFacts.ListFromSpec | Sources/Droidy/Tools/ADB.swift:72-82 | the device loop is a filter and then a map: it succeeds exactly when every two-sided line's query does, and then yields one device per such line, in order |
| AdbFacts.ListingIsFilterThenMap | Sources/Droidy/Tools/ADB.swift:66-83 | the listing is the devices of the two-sided lines, in order, after one architecture query each |
| AdbFacts.NoStateWord | Sources/Droidy/Tools/ADB.swift:73 | columns without spaces, none of them the word `device`, never spell " device " once joined |
| AdbFacts.SidesOfAdbLine | Sources/Droidy/Tools/ADB.swift:73-74 | an `adb devices -l` line splits right after the padded serial |
| AdbFacts.ReadsAdbDeviceLine | Sources/Droidy/Tools/ADB.swift:73-81 | a line in the `adb devices -l` format yields the device it describes: the trimmed serial, the model and codename from their own columns |
| Adb.Install | Sources/Droidy/Tools/ADB.swift:126-168 | success exactly when the install exits with 0 and its last output line says `Success`; otherwise exit 1 |
| AdbFacts.InstallChecksLastLine | Sources/Droidy/Tools/ADB.swift:162-163 | only the last line counts, whatever trailing newlines follow |
| Adb.Start | Sources/Droidy/Tools/ADB.swift:170-213 | success exactly when `am start` exits with 0 and prints exactly the confirmation for the intent; otherwise fatal |
| AdbFacts.StartConfirmed | Sources/Droidy/Tools/ADB.swift:208 | the exact confirmation surrounded by whitespace passes |
| AdbFacts.ConfirmationNamesIntent | Sources/Droidy/Tools/ADB.swift:208 | a confirmation for another component fails |
| AdbFacts.IntentNamesActivity | Sources/Droidy/Tools/ADB.swift:176 | within one application the intent names the activity |
| Adb.Kill | Sources/Droidy/Tools/ADB.swift:260-283 | runs `am force-stop` once and ignores its outcome |
| Adb.FirstAnswer | Sources/Droidy/Tools/ADB.swift:215-252 | names the first try below 5 whose query succeeds, or says none does |
| Adb.Pids | Sources/Droidy/Tools/ADB.swift:215-258 | ends as `PidsOutcome`: when the lookup of `sh` fails, the first try halts as `Bash.which` does (fatal, or exit 1 on empty output) after its wait and the lookup; otherwise it retries until the first successful query, waiting one second before every retry and looking `sh` up in every try; the pids are that answer's words; with no answer by the fourth try it exits with 1 |
| Adb.Try | Sources/Droidy/Tools/ADB.swift:221-248 | one try: the wait after the first, `Bash.which("sh")`, and the query run by the `sh` found; a failed lookup halts before the query |
| Adb.PidsActionsStep | Sources/Droidy/Tools/ADB.swift:221-251 | the tries of a range are the first try, a wait (after the first), the lookup of `sh` and the query, followed by the rest |
| Adb.LookupFailed | Sources/Droidy/Tools/ADB.swift:229 | a failed lookup of `sh` ends the pids at the try that made it, with `Bash.which`'s status |
| Adb.Retried | Sources/Droidy/Tools/ADB.swift:248-250 | after a failed query, the outcome from the next try on completes this try's actions |
| Adb.Answered | Sources/Droidy/Tools/ADB.swift:248-257 | a successful query is the answer, and its try is the last one made |
| Adb.PidsFound | Sources/Droidy/Tools/ADB.swift:215-257 | from the first try, pids are found exactly when the lookup succeeds and some query answers, and then they are that answer's words |
| Adb.PidsMissing | Sources/Droidy/Tools/ADB.swift:286-288 | when no pids are found, `logcat` ends with that halt and prints nothing |
| AdbFacts.PidsTries | Sources/Droidy/Tools/ADB.swift:216-251 | the query is asked at most four times; each asking follows a lookup of `sh`, and each lookup but the first follows a one-second wait |
| AdbFacts.GlyphTable | Sources/Droidy/Tools/ADB.swift:327-335 | the six levels have six distinct circles; every other level gets the white one |
| Adb.KeptColumns | Sources/Droidy/Tools/ADB.swift:337 | keeps, in order, only the columns that are not blank and not a lone ':' |
| AdbFacts.KeptAppend | Sources/Droidy/Tools/ADB.swift:337 | the filter distributes over concatenation |
| AdbFacts.MarkersAreShort | Sources/Droidy/Tools/ADB.swift:312-318 | the two banner lines have four columns, so only the equality tests can catch them |
| AdbFacts.ThreadtimeReformatted | Sources/Droidy/Tools/ADB.swift:317-341 | a threadtime line is printed as the level's circle, the time to the second in brackets, the tag and the message words, separated by single spaces |
| Adb.FormatLogcatLine | Sources/Droidy/Tools/ADB.swift:312-341 | the in-place rearrangement of the columns equals `LogcatLine` |
| Adb.RemoveDropped | Sources/Droidy/Tools/ADB.swift:337 | the message columns that are left are exactly `KeptColumns`: blank and `:` columns removed, the others kept in order |
| Adb.Reformatted | Sources/Droidy/Tools/ADB.swift:311 | one printed line per log line, in order |
| Adb.FormatLogcatChunk | Sources/Droidy/Tools/ADB.swift:310-343 | a chunk is cut at newlines and each line reformatted, in order |
| Adb.FollowLog | Sources/Droidy/Tools/ADB.swift:304-348 | the handler prints the reformatted chunks in order |
| Adb.Logcat | Sources/Droidy/Tools/ADB.swift:285-354 | ends as `Logged`: when the lookup of `sh` fails or no query answers, it halts as `Pids` does and prints nothing; otherwise it follows the log of the first pid and prints the reformatted stream and the two closing lines, after exactly the tries and the one `logcat` run |
| Orchestration.FirstNonEmpty | Sources/Droidy/Droidy.swift:11 | the first non-empty piece, which exists unless every piece is empty |
| Orchestration.ProjectDir | Sources/Droidy/Droidy.swift:7-17 | the working directory, unless on a modern system inside DerivedData, where it is a non-empty piece of the build path cut at "Sources" |
| Orchestration.ProjectDirBeforeSources | Sources/Droidy/Droidy.swift:10-13 | inside DerivedData, the project folder is the build path up to its first "Sources" |
| Orchestration.ProjectDirWithoutSources | Sources/Droidy/Droidy.swift:10-13 | a build path without "Sources" is taken whole |
| Orchestration.Open | Sources/Droidy/Droidy.swift:33-46 | the tool opens on `ProjectDir`, and succeeds exactly when that folder holds `Package.swift`; otherwise it exits with 1 and the wrong-directory notice |
| Orchestration.Droidy.constructor | Sources/Droidy/Droidy.swift:19-30 | fresh tools with their defaults, all under `~/.droidy`; the project in `AndroidProject`; nothing prepared or preferred |
| Orchestration.ArchiveSetting | Sources/Droidy/Droidy.swift:78-84 | a path starting with '~' is refused fatally; any other is kept as the archive |
| Orchestration.ArchiveSettingAccepts | Sources/Droidy/Droidy.swift:79 | absolute paths are accepted and home-relative ones refused |
| Orchestration.Droidy.PreferredGradleVersion | Sources/Droidy/Droidy.swift:66-69 | sets Gradle's version and nothing else |
| Orchestration.Droidy.LinkToGradle | Sources/Droidy/Droidy.swift:72-75 | sets Gradle's URL and nothing else |
| Orchestration.Droidy.LocalGradleArchive | Sources/Droidy/Droidy.swift:78-85 | keeps the archive exactly when `ArchiveSetting` accepts it |
| Orchestration.Droidy.AutomaticallyDownloadGradle | Sources/Droidy/Droidy.swift:88-91 | allows Gradle's download |
| Orchestration.Droidy.PreferredToolchainVersion | Sources/Droidy/Droidy.swift:96-99 | sets the toolchain's version |
| Orchestration.Droidy.LinkToToolchain | Sources/Droidy/Droidy.swift:102-105 | sets the toolchain's URL |
| Orchestration.Droidy.LocalToolchainArchive | Sources/Droidy/Droidy.swift:108-115 | keeps the archive exactly when `ArchiveSetting` accepts it |
| Orchestration.Droidy.AutomaticallyDownloadToolchain | Sources/Droidy/Droidy.swift:118-121 | allows the toolchain's download |
| Orchestration.Droidy.Architectures | Sources/Droidy/Droidy.swift:124-127 | replaces the architectures to build for |
| Orchestration.Droidy.PreferredNdkVersion | Sources/Droidy/Droidy.swift:132-135 | sets the NDK's version |
| Orchestration.Droidy.LinkToNdk | Sources/Droidy/Droidy.swift:138-141 | sets the NDK's URL |
| Orchestration.Droidy.LocalNdkArchive | Sources/Droidy/Droidy.swift:144-151 | keeps the archive exactly when `ArchiveSetting` accepts it |
| Orchestration.Droidy.AutomaticallyDownloadNdk | Sources/Droidy/Droidy.swift:154-157 | allows the NDK's download |
| Orchestration.Droidy.LinkToSdk | Sources/Droidy/Droidy.swift:162-165 | sets the SDK's URL |
| Orchestration.Droidy.LocalSdkArchive | Sources/Droidy/Droidy.swift:168-175 | keeps the archive exactly when `ArchiveSetting` accepts it |
| Orchestration.Droidy.AutomaticallyDownloadSdk | Sources/Droidy/Droidy.swift:178-181 | allows the SDK's download |
| Orchestration.Droidy.AutomaticallyInstallJava | Sources/Droidy/Droidy.swift:186-189 | allows Java's installation |
| Orchestration.Droidy.ProjectPath | Sources/Droidy/Droidy.swift:194-197 | moves the Android project folder |
| Orchestration.Droidy.ProjectApplicationId | Sources/Droidy/Droidy.swift:200-203 | sets the application id |
| Orchestration.Droidy.ProjectMinSdkVersion | Sources/Droidy/Droidy.swift:206-209 | sets the minimum SDK version |
| Orchestration.Droidy.ProjectTargetSdkVersion | Sources/Droidy/Droidy.swift:212-215 | sets the target SDK version |
| Orchestration.Droidy.ProjectCompileSdkVersion | Sources/Droidy/Droidy.swift:218-221 | sets the compile SDK version |
| Orchestration.Droidy.ProjectVersionCode | Sources/Droidy/Droidy.swift:224-227 | sets the version code |
| Orchestration.Droidy.ProjectVersionName | Sources/Droidy/Droidy.swift:230-233 | sets the version name |
| Orchestration.Droidy.Signing | Sources/Droidy/Droidy.swift:236-244 | sets the signing configuration |
| Orchestration.Project.constructor | Sources/Droidy/Tools/Project.swift:16-34 | the project lives in `AndroidProject` under the Swift package, with id com.my.app, SDK levels 24/32/32, version 1 "1.0" and an empty signing configuration |
| Orchestration.Project.Prepare | Sources/Droidy/Tools/Project.swift:44-60 | creates the project folder when it is missing, and does nothing otherwise |
| Orchestration.FirstStages | Sources/Droidy/Droidy.swift:253-259 | the first n stages of the fixed order |
| Orchestration.Droidy.Prepare | Sources/Droidy/Droidy.swift:248-260 | runs once: a second call changes nothing; the first runs the stages in the fixed order Java, Gradle, toolchain, NDK, SDK, project, and stops early only at a halt |
| Orchestration.Droidy.RunStages | Sources/Droidy/Droidy.swift:254-259 | the stages that ran are a prefix of the fixed order, and all six ran unless one halted |
| Orchestration.PrepareJava | Sources/Droidy/Droidy.swift:254 | preparing Java changes no file |
| Orchestration.PrepareGradle | Sources/Droidy/Droidy.swift:255 | preparing Gradle moves its path only to its default folder |
| Orchestration.PrepareToolchain | Sources/Droidy/Droidy.swift:256 | preparing the toolchain moves its path only to its default folder |
| Orchestration.PrepareNdk | Sources/Droidy/Droidy.swift:257 | preparing the NDK moves its path only to its default folder |
| Orchestration.PrepareSdk | Sources/Droidy/Droidy.swift:258 | preparing the SDK moves its path only to its default folder |
| Orchestration.ListDevices | Sources/Droidy/Tools/ADB.swift:32-84 | lists devices as `Listed` says: a device list exactly when no step failed |
| Orchestration.ListFromShift | Sources/Droidy/Tools/ADB.swift:72-82 | the device loop only appends to the actions it is given |
| Orchestration.MatchFrom | Sources/Droidy/Droidy.swift:267 | the first index, from i on, whose field matches, or the end |
| Orchestration.FirstMatch | Sources/Droidy/Droidy.swift:265-283 | `first(where:)`: none exactly when no device matches; otherwise the earliest match |
| Orchestration.Droidy.PreferDevice | Sources/Droidy/Droidy.swift:264-283 | prepares, then, when the listing succeeds, prefers the first listed device whose id, model or codename matches; a halt leaves the preference alone |
| Orchestration.BuildTarget | Sources/Droidy/Droidy.swift:290 | the preferred device's first architecture, if there is one; otherwise every configured architecture is built |
| Orchestration.Droidy.Build | Sources/Droidy/Droidy.swift:287-292 | prepares, then builds with the project folder and `BuildTarget`; success means every target was built and copied |
| Orchestration.Launch | Sources/Droidy/Droidy.swift:302-304 | kills, then starts `MainActivity`; a failed start is fatal and prints nothing more; otherwise the log is followed exactly as `Adb.Logged` says, after the kill and the start |
| Orchestration.Deploy | Sources/Droidy/Droidy.swift:300-304 | assembles, installs the APK for the device's first architecture, then launches as `Launched` says; each failure stops the run with its own status |
| Orchestration.FollowLog | Sources/Droidy/Droidy.swift:304 | `logcat(on:)` on the launched app: its actions, status and printed lines are exactly those `Adb.Logged` gives, and no file changes |
| Orchestration.Droidy.Run | Sources/Droidy/Droidy.swift:294-306 | a preferred device, or else the first listed one, is deployed to as `Deployed` says, down to the log's lines; with none listed, it prints the no-devices notice and succeeds; a failed listing halts |

## Left out

- Terminal output: progress notices, timings, "found at" messages and `print(error)` are
  not modelled. The modelled output is limited to:
  - the messages carried by `Fatal` and `Exit`;
  - the lines logcat prints;
  - the download milestones;
  - the no-devices notice.
- Concurrency: the pipes, readability handlers and dispatch groups become one complete
  result per command (`Machine.exec`). Logcat keeps its chunks as a sequence.
- Time: `sleep` is only recorded as an action.
- String comparison: strings are sequences of Unicode scalars, compared scalar by scalar.
  Swift's `==`, `<`, `hasPrefix` and `contains` compare `Character`s under canonical
  equivalence, so "é" written as U+00E9 equals "e" followed by U+0301 in Swift but not in
  the model. This affects `Strings.Contains`, `StartsWith`, `Split` and `Trim`,
  `Diagnostics.LexLess`, and every equality in the version verdicts. The tools' outputs
  compared here are ASCII.
- Text decoding: non-UTF-8 output is not modelled. The "Unable to get connected devices"
  and similar decoding branches are therefore absent.
- `Toolchain.fixQuarantine` and `Xattr`: they change file attributes only, which have no
  effect on the model.
- `Brew` and `Java._install`: the model records an allowed installation as success
  without running it.
- Project file generation: `Project.prepare` is modelled as creating its folder only.
  The `cook…` file writers, the manifest and `Gradle.generateWrapper` are not part of
  this model, and neither is the folder's removal when a writer throws.
- `Droidy.folderURL()` creating `~/.droidy`: the folder is assumed to exist.
- `lazy` initialisation of `toolchain`, `sdk`, `project`, `gradlew` and `adb`: the
  objects are created by the constructor. Their defaults do not depend on when they are
  created.
- `Swift.build`'s environment: the `PATH` extended with the NDK's compiler folder and the
  current directory are not modelled. The build command is the same whatever they are.
- URL standardisation: paths are plain strings joined with `/`.
- `#available(macOS 13.0, *)`: it is the `modern` parameter of `ProjectDir`.
- `split(separator: "Sources", maxSplits: 1).first`: modelled as the first non-empty piece
  of the full split. This follows the standard library's rule that omitted empty pieces
  do not count against `maxSplits`.
- The wrong-directory notice prints `absoluteString`. The model prints `file://` followed
  by the path. It leaves out the trailing '/' that `URL(fileURLWithPath:)` adds when the
  folder exists as a directory. It also leaves out the percent-encoding of characters such
  as spaces.
- `SwiftTool.CopyLibs`: the removal and copying of each `.so` file is not modelled. The
  contract stops once the libraries' folder is listed. Listing fails exactly when the
  folder is missing: the model's paths do not tell folders from files, so a plain file at
  that path counts as listable.
- `Machine.Move` moves a single path. A moved folder's descendants do not follow it.
- `Toolchain.checkVersion`'s `else` branch is unreachable, because `components` never
  returns an empty array. The model keeps only the branch that can run.
- `Adb.FollowLog`: the stream's end is the end of the chunk sequence. What happens to a
  line cut across two chunks follows from reformatting each chunk on its own, as the
  source does.
- `Orchestration.Droidy.Prepare`: the contract gives the order of the stages and where
  they stop. Each stage's own outcome is given by its tool's `Prepare`.
- `Orchestration.Droidy.Build`, `Orchestration.Droidy.PreferDevice`: when `prepare()` ran
  inside the call, the contract does not give the exact actions. It gives the outcome.
- Traps become preconditions: the force-unwraps and out-of-range indexes of the source
  cannot be expressed as outcomes. Such inputs are excluded by the preconditions
  `Adb.LineReadable`, `GradleTool.ReportReadable`, `SwiftTool.OutputReadable` and
  `Orchestration.Droidy.RunReady`.
