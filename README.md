# repoman-action in Dafny

A model of the GitHub Action that installs and runs `repoman`
(moul/repoman-action, `src/main.ts`). The action

1. turns the requested version (`latest` by default) and the runner's
   platform and architecture into the URL of a repoman release archive
   (`getAssetURL`);
2. downloads the archive, unpacks it with the zip or the tar extractor
   (tar gets `xz` and, except on darwin, `--overwrite`), and finds the binary
   in the directory named after the archive;
3. runs `repoman info <args>` and publishes four flags of the report's
   `Git.Metadata` as the outputs `has-go`, `has-go-library`, `has-go-binary`
   and `has-docker`, plus a fixed `version` output of `n/a`;
4. reports the first error any step throws as the run's failure.

Modules, leaf first:

- `Wrappers` (wrappers.dfy): `Option`.
- `Strings` (strings.dfy): the JavaScript string and path operations the
  action uses: `split` with its inverse `Join`, the last segment of a split,
  `endsWith`, `replace` with an end-anchored regular expression, and
  `path.join` with the runner's separator. `StartsWith` is not used by the
  action; it only states the shape of a URL in contracts.
- `Asset` (asset.dfy): `getAssetURL` as pure functions of the version, the
  platform and the architecture (the host's `os.platform()` and `os.arch()`
  are parameters).
- `Install` (install.dfy): the extractor dispatch, the tar flags (built by a
  method that pushes onto `execArgs` as the source does), the directory name
  and the binary path, with the round trip from a built URL back to
  `repoman_<os>_<arch>`.
- `Outputs` (outputs.dfy): JavaScript values and truthiness, `x || false`,
  and the projection of the report onto the five outputs.
- `Action` (action.dfy): `run`. The CI host's output and failure channels are
  the fields of the class `ActionHost`, updated one `setOutput` at a time.
  The tool cache's download and extractors, the shell, and `JSON.parse`
  followed by the read of `info.Git.Metadata` are parameters: total functions
  that return a value or throw with a message. `Execute` is the stage-by-stage
  reference of a run (which calls it makes, how it ends), and the imperative
  `Run` is proved to make exactly those calls and leave the host in the
  state `Execute` describes.

Notes on the code:

- There is no remote alias lookup: `latest` is pinned to `v1.4.4` in the code
  and every other version string is used as it is.
- The archive extension is chosen from the raw platform name (`win32`), not
  from repoman's name for it: a platform already called `windows` passes
  through unchanged and gets a `tar.gz` archive (`Asset.ExtensionFollowsRawPlatform`).
- The `version` output is the constant `n/a`, whatever version was installed.

## Model

| member | source | states |
|---|---|---|
| `Asset.ResolveVersion` | src/main.ts:11-13 | the tag in the URL is never `latest`; it is `v1.4.4` for `latest` and the requested version unchanged for every other string |
| `Asset.PlatformToken` | src/main.ts:15-27 | `linux`, `darwin`, `win32` become `Linux`, `Darwin`, `windows` (the table `OsTokens`); any other platform passes through unchanged |
| `Asset.ArchiveExt` | src/main.ts:14-25 | the extension is `zip` exactly when the platform is `win32`, and `tar.gz` otherwise |
| `Asset.ArchToken` | src/main.ts:28-37 | `x64` becomes `x86_64`, `x32` and `ia32` become `i386` (the table `ArchTokens`); any other architecture passes through unchanged |
| `Asset.AssetBaseName` | src/main.ts:39 | the archive's base name is `repoman_` followed by repoman's OS name, `_` and repoman's architecture name |
| `Asset.TokensWithoutSlash` | src/main.ts:15-37 | renaming never introduces a `/` into a platform or architecture name |
| `Asset.AssetBaseNameWithoutSlash` | src/main.ts:39 | the base name holds no `/` when the raw platform and architecture names hold none |
| `Asset.GetAssetURL` | src/main.ts:8-40 | the URL starts with `<downloadURL>/<tag>/`, what follows is `repoman_<os>_<arch>.<ext>`, and it ends with `.<ext>` |
| `Asset.PlatformTokenIdempotent` | src/main.ts:15-27 | repoman's OS names are fixed points of the platform renaming |
| `Asset.ArchTokenIdempotent` | src/main.ts:28-37 | repoman's architecture names are fixed points of the architecture renaming |
| `Asset.ExtensionFollowsRawPlatform` | src/main.ts:14-26 | the extension follows the raw platform: `win32` gives `windows`/`zip`, a raw `windows` gives `windows`/`tar.gz` |
| `Asset.LatestReleaseDir` | src/main.ts:8-13 | the release directory for `latest` is that of the pinned tag `v1.4.4` |
| `Asset.LinuxX64File` | src/main.ts:14-39 | the archive for linux/x64 is `repoman_Linux_x86_64.tar.gz` |
| `Asset.LatestOnLinuxX64` | src/main.ts:10-39 | `latest` on linux/x64 gives `https://github.com/moul/repoman/releases/download/v1.4.4/repoman_Linux_x86_64.tar.gz` |
| `Strings.Split` | src/main.ts:91 | `split('/')` yields at least one part and no part holds the separator |
| `Strings.JoinSplit` | src/main.ts:91 | round trip: joining the parts of a split with the separator gives back the input |
| `Strings.SplitJoin` | src/main.ts:91 | round trip: splitting the join of separator-free parts gives back the parts |
| `Strings.SplitWithoutSeparator` | src/main.ts:91 | a string without the separator splits into itself alone |
| `Strings.SplitAround` | src/main.ts:91 | splitting at one separator splits the text before it and the text after it independently |
| `Strings.LastSegment` | src/main.ts:91-92 | the last element of the split holds no separator |
| `Strings.LastSegmentAfter` | src/main.ts:91-92 | the last split element of `<prefix>/<tail>` is `tail` when `tail` has no `/` |
| `Strings.EndsWith` | src/main.ts:77 | a string that ends with a suffix is at least as long as it and is its front followed by the suffix |
| `Strings.EndsWithAppend` | src/main.ts:77 | whatever is followed by a suffix ends with it |
| `Strings.EndsWithThrough` | src/main.ts:76-79 | whether a string ends with `zip` is decided by any longer suffix it ends with, such as `.zip` or `.tar.gz` |
| `Strings.StripSuffix` | src/main.ts:92 | the end-anchored `replace` removes the suffix when the string ends with it (result + suffix = input) and changes nothing otherwise |
| `Strings.StripAppended` | src/main.ts:92 | stripping a suffix that was appended gives back the string it was appended to |
| `Strings.NonEmpty` | src/main.ts:93 | the segments `path.join` keeps are non-empty, and a value is kept exactly when it is a non-empty segment |
| `Strings.NonEmptyCounts` | src/main.ts:93 | each non-empty segment is kept exactly as often as it occurs, and no empty one |
| `Strings.NonEmptyAppend` | src/main.ts:93 | dropping empty segments keeps the order: it distributes over concatenation |
| `Strings.PathJoin` | src/main.ts:93 | joining only empty segments gives `.` |
| `Strings.SplitPathJoin` | src/main.ts:93 | when no segment holds the separator, splitting the joined path at it gives back exactly the non-empty segments, in order |
| `Strings.PathJoinThree` | src/main.ts:93 | three non-empty segments are joined with one separator between each two |
| `Install.TarFlagList` | src/main.ts:81-84 | tar's flags start with `xz` and contain `--overwrite` exactly when the platform is not darwin; nothing else |
| `Install.TarFlags` | src/main.ts:81-84 | pushing onto `execArgs` yields exactly `TarFlagList` of the platform |
| `Install.UsesZip` | src/main.ts:77 | the zip branch is taken for every URL ending in `.zip` and for no URL ending in `.tar.gz` |
| `Install.ArchiveSuffix` | src/main.ts:76-79 | the stripped suffix is `.zip` exactly when the URL ends with `zip`, and `.tar.gz` otherwise |
| `Install.ArchiveSuffixOfExt` | src/main.ts:76-79 | a URL ending in `.zip` or `.tar.gz` has exactly that suffix stripped |
| `Install.ExtractionFor` | src/main.ts:77-90 | the zip extractor is requested exactly when the URL ends with `zip`; both get the archive and `$HOME`; tar gets `TarFlagList` |
| `Install.DirName` | src/main.ts:91-92 | the directory name holds no `/`; adding back the archive suffix gives the URL's last segment when that segment ends with it, and otherwise the name is that segment unchanged |
| `Install.DirNameOfFile` | src/main.ts:91-92 | the directory derived from `<prefix>/<base>.<ext>` is `base` |
| `Install.PathSeparator` | src/main.ts:93 | the runner's path separator is `\` exactly on win32 and `/` everywhere else |
| `Install.RepomanPath` | src/main.ts:93 | with a non-empty extraction directory and directory name, the binary lies at `<extractedDir><sep>dirName<sep>repoman` with the runner's separator |
| `Install.UsesZipIffWin32` | src/main.ts:77-79 | a URL built by `getAssetURL` takes the zip branch exactly when the platform is `win32` |
| `Install.DirNameOfAssetURL` | src/main.ts:91-92 | round trip: the directory derived from a built URL is `repoman_<os>_<arch>` |
| `Install.RepomanPathOfAssetURL` | src/main.ts:93 | the binary of a built URL is `<extractedDir><sep>repoman_<os>_<arch><sep>repoman`, with `\` on win32 and `/` elsewhere |
| `Outputs.Truthy` | src/main.ts:109-112 | the falsy values are exactly `undefined`, `null`, `false`, `0` and the empty string |
| `Outputs.Or` | src/main.ts:109 | JavaScript's logical or of `a` and `b` is `a` when `a` is truthy and `b` otherwise |
| `Outputs.FlagOutput` | src/main.ts:109-112 | a `has-*` output is truthy exactly when its field is; it is the field when truthy and `false` otherwise |
| `Outputs.Projection` | src/main.ts:109-113 | exactly the five outputs are set, each `has-*` from its own `Git.Metadata` field, and `version` is `n/a` |
| `Outputs.ProjectionOfOptionalBools` | src/main.ts:109-112 | for optional boolean fields each `has-*` output is the boolean, an absent field giving `false` |
| `Outputs.ProjectionOfHasGoOnly` | src/main.ts:108-113 | a report with only `HasGo: true` gives `has-go` true, the other flags false, `version` `n/a` |
| `Action.RequestedVersion` | src/main.ts:61 | an empty `version` input means `latest`; any other input is used as given |
| `Action.InfoCommand` | src/main.ts:103 | the command is the binary's path, then ` info `, then the `args` input, and nothing else |
| `Action.Execute` | src/main.ts:72-116 | a run makes one to three calls, the first always the download of the built URL, and a successful run made all three and publishes exactly the five outputs |
| `Action.ReachesShell` | src/main.ts:72-103 | once the download and the extraction succeed, the run calls the shell with `<repomanPath> info <args>` and ends as the shell and `JSON.parse` decide |
| `Action.Report` | src/main.ts:103-116 | a shell error or a parse error fails the run with its message; otherwise the run publishes the projection of the report |
| `Action.ActionHost.constructor` | src/main.ts:58-59 | a host starts with no output set and no failure reported |
| `Action.ActionHost.SetOutput` | src/main.ts:109 | one output is set and nothing else changes |
| `Action.ActionHost.SetFailed` | src/main.ts:115 | the run is marked failed with the message and no output changes |
| `Action.ProjectionAsUpdates` | src/main.ts:109-113 | setting the five outputs one after another adds exactly the projection |
| `Action.Publish` | src/main.ts:109-113 | the five `setOutput` calls add exactly `Projection` of the report and report no failure |
| `Action.Run` | src/main.ts:58-117 | the calls made are those of `Execute`; on success the outputs grow by the projection and no failure is reported; on failure no output is set and the thrown message is reported |
| `Action.RunOnFreshHost` | src/main.ts:58-119 | a whole run on a fresh host publishes exactly the projection when every collaborator succeeds, and otherwise no output and the thrown message |
| `Action.FailureStopsAtThrowingCall` | src/main.ts:72-116 | a throwing download or extraction ends the run at once with its message and no later call; a run that reached the shell and failed failed with the message of the shell or of `JSON.parse` |
| `Action.SuccessPublishesProjection` | src/main.ts:103-113 | a successful run made all three calls and publishes the projection of the parsed report, with `version` `n/a` |
| `Action.DefaultRunOnLinuxX64` | src/main.ts:61-90 | with the default version on linux/x64 the run downloads the pinned Linux archive and unpacks it with tar, `xz` and `--overwrite` |
| `Action.CommandRunsUnpackedBinary` | src/main.ts:91-103 | once unpacked, the run executes `<extractedDir><sep>repoman_<os>_<arch><sep>repoman info <args>`, with `\` on win32 and `/` elsewhere |

## Left out

- Downloading and unpacking (`tc.downloadTool`, `tc.extractZip`, `tc.extractTar`), running the shell command and `JSON.parse`: library, network, filesystem and subprocess calls; each is a parameter that returns a value or throws, and the model states which one is called with what.
- Logging (`core.info`, `core.debug`, `printOutput`) and the `Date.now()` timings: informational only, they decide nothing.
- The `working-directory` input: read and logged, never used.
- How `core.setOutput` turns a value into text and how `core.setFailed` sets the exit code: host behaviour; the model keeps the value and the message.
- `JsValue`: numbers are integers, so `NaN` (falsy) and fractions are not modelled; objects and arrays are one truthy value.
- `Strings.PathJoin`: joins the non-empty segments with the runner's separator; the normalisation `path.join` also performs (collapsing repeated separators, resolving `.` and `..`, trailing separators) is not modelled.
- `Install.RepomanPath`: on win32 Node's `path.join` also turns every `/` inside the segments into `\`; the model keeps the extraction directory exactly as the tool cache returns it.
- `os.platform()` and `process.platform` are the same value in Node, so both are the one `platform` of a `Host`.
- `Install.DirNameOfAssetURL`: stated for platform and architecture names without `/`, which holds of every name Node reports.
