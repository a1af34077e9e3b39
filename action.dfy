/**
 * The action's entry point (`run` in src/main.ts): resolve the asset URL,
 * download and unpack it, run `repoman info`, and publish the report's
 * flags, or report the first error as the run's failure.
 *
 * The tool cache, the shell and `JSON.parse` are collaborators this model
 * cannot see: each is a total function parameter that either returns a value
 * or throws an error with a message. The CI host's output and failure
 * channels are the fields of an `ActionHost` object.
 */
module Action {
  import opened Wrappers
  import opened Strings
  import opened Asset
  import opened Install
  import opened Outputs

  /** What an awaited collaborator call gives: a value, or an error with its message. */
  datatype Step<T> = Done(value: T) | Threw(message: string)

  /**
   * The collaborators of a run: the tool cache's download (URL to archive
   * path), its extractors (request to extracted directory), the shell (command
   * line to standard output), and `JSON.parse` followed by reading
   * `info.Git.Metadata.HasGo` and its siblings, which throws on malformed
   * JSON, and when the parsed document, its `Git` or its `Metadata` is null
   * or missing.
   */
  datatype Collaborators = Collaborators(
    download: string -> Step<string>,
    extract: Extraction -> Step<string>,
    exec: string -> Step<string>,
    parse: string -> Step<Metadata>)

  /** The host the action runs on: `process.platform`, `os.arch()` and `$HOME`. */
  datatype Host = Host(platform: string, arch: string, home: Option<string>)

  /** One call a run makes to a collaborator. */
  datatype Call = Download(url: string) | Extract(request: Extraction) | Exec(command: string)

  /** How a run ends: with the outputs it published, or failed with a message. */
  datatype Outcome = Succeeded(outputs: map<string, JsValue>) | Failed(message: string)

  /** The collaborator calls of a run, in order, and how it ended. */
  datatype RunResult = RunResult(calls: seq<Call>, outcome: Outcome)

  /** The version the run installs: the `version` input, `latest` when it is empty. */
  function RequestedVersion(input: string): (version: string)
    ensures version != ""
    ensures input != "" ==> version == input
    ensures input == "" ==> version == LatestAlias
  {
    if input == "" then LatestAlias else input
  }

  /** The shell command `run` executes: `<repomanPath> info <args>`. */
  function InfoCommand(repomanPath: string, args: string): (command: string)
    ensures |command| == |repomanPath| + 6 + |args|
    ensures command[..|repomanPath|] == repomanPath
    ensures command[|repomanPath|..|repomanPath| + 6] == " info "
    ensures command[|repomanPath| + 6..] == args
  {
    repomanPath + " info " + args
  }

  /**
   * What a run does, stage by stage, stopping at the first collaborator
   * that throws: the reference the imperative `Run` is proved against.
   */
  function Execute(versionInput: string, args: string, host: Host, env: Collaborators): (r: RunResult)
    ensures 1 <= |r.calls| <= 3
    ensures r.calls[0] == Download(GetAssetURL(RequestedVersion(versionInput), host.platform, host.arch))
    ensures r.outcome.Succeeded? ==> |r.calls| == 3 && r.outcome.outputs.Keys == OutputNames
  {
    var url := GetAssetURL(RequestedVersion(versionInput), host.platform, host.arch);
    match env.download(url)
    case Threw(m) => RunResult([Download(url)], Failed(m))
    case Done(archive) =>
      var request := ExtractionFor(url, archive, host.platform, host.home);
      match env.extract(request)
      case Threw(m) => RunResult([Download(url), Extract(request)], Failed(m))
      case Done(extractedDir) =>
        var command := InfoCommand(RepomanPath(extractedDir, url, host.platform), args);
        RunResult([Download(url), Extract(request), Exec(command)], Report(env.exec(command), env.parse))
  }

  /** A run whose download and extraction succeed calls the shell with `InfoCommand`. */
  lemma ReachesShell(versionInput: string, args: string, host: Host, env: Collaborators, archive: string, extractedDir: string)
    requires var url := GetAssetURL(RequestedVersion(versionInput), host.platform, host.arch);
      env.download(url) == Done(archive)
      && env.extract(ExtractionFor(url, archive, host.platform, host.home)) == Done(extractedDir)
    ensures var url := GetAssetURL(RequestedVersion(versionInput), host.platform, host.arch);
      var request := ExtractionFor(url, archive, host.platform, host.home);
      var command := InfoCommand(RepomanPath(extractedDir, url, host.platform), args);
      Execute(versionInput, args, host, env)
        == RunResult([Download(url), Extract(request), Exec(command)], Report(env.exec(command), env.parse))
  {
  }

  /**
   * How a run that reached the shell ends: failed with the shell's error, or
   * with `JSON.parse`'s, or succeeded with the projection of the report.
   */
  function Report(output: Step<string>, parse: string -> Step<Metadata>): (outcome: Outcome)
    ensures output.Threw? ==> outcome == Failed(output.message)
    ensures output.Done? && parse(output.value).Threw? ==> outcome == Failed(parse(output.value).message)
    ensures output.Done? && parse(output.value).Done? ==> outcome == Succeeded(Projection(parse(output.value).value))
  {
    match output
    case Threw(m) => Failed(m)
    case Done(stdout) =>
      match parse(stdout)
      case Threw(m) => Failed(m)
      case Done(metadata) => Succeeded(Projection(metadata))
  }

  /** The CI host's side of a run: the outputs set so far and the failure reported, if any. */
  class ActionHost {
    var outputs: map<string, JsValue>
    var failure: Option<string>

    constructor ()
      ensures outputs == map[] && failure == None
    {
      outputs := map[];
      failure := None;
    }

    /** `core.setOutput`: sets one output and leaves everything else alone. */
    method SetOutput(name: string, value: JsValue)
      modifies this
      ensures outputs == old(outputs)[name := value]
      ensures failure == old(failure)
    {
      outputs := outputs[name := value];
    }

    /** `core.setFailed`: marks the run failed with the message. */
    method SetFailed(message: string)
      modifies this
      ensures failure == Some(message)
      ensures outputs == old(outputs)
    {
      failure := Some(message);
    }
  }

  /**
   * The five `setOutput` calls at the end of `run`, one at a time: together
   * they add exactly the projection of the report and report no failure.
   */
  method Publish(action: ActionHost, metadata: Metadata)
    modifies action
    ensures action.outputs == old(action.outputs) + Projection(metadata)
    ensures action.failure == old(action.failure)
  {
    ghost var before := action.outputs;
    action.SetOutput("has-go", Or(metadata.hasGo, Bool(false)));
    action.SetOutput("has-go-library", Or(metadata.hasLibrary, Bool(false)));
    action.SetOutput("has-go-binary", Or(metadata.hasBinary, Bool(false)));
    action.SetOutput("has-docker", Or(metadata.hasDocker, Bool(false)));
    action.SetOutput("version", Str("n/a"));
    ProjectionAsUpdates(before, metadata);
  }

  /** Adding the projection to a map is setting the five outputs one after another. */
  lemma ProjectionAsUpdates(outputs: map<string, JsValue>, metadata: Metadata)
    ensures outputs + Projection(metadata)
         == outputs["has-go" := Or(metadata.hasGo, Bool(false))]
                   ["has-go-library" := Or(metadata.hasLibrary, Bool(false))]
                   ["has-go-binary" := Or(metadata.hasBinary, Bool(false))]
                   ["has-docker" := Or(metadata.hasDocker, Bool(false))]
                   ["version" := Str("n/a")]
  {
  }

  /**
   * `run`: the collaborator calls are those `Execute` describes; a run that
   * succeeds adds exactly the projected outputs and reports no failure, and a
   * run that fails sets no output and reports the collaborator's message.
   */
  method Run(action: ActionHost, versionInput: string, args: string, host: Host, env: Collaborators)
    returns (calls: seq<Call>)
    modifies action
    ensures calls == Execute(versionInput, args, host, env).calls
    ensures Execute(versionInput, args, host, env).outcome.Succeeded? ==>
              action.outputs == old(action.outputs) + Execute(versionInput, args, host, env).outcome.outputs
              && action.failure == old(action.failure)
    ensures Execute(versionInput, args, host, env).outcome.Failed? ==>
              action.outputs == old(action.outputs)
              && action.failure == Some(Execute(versionInput, args, host, env).outcome.message)
  {
    var version := if versionInput == "" then LatestAlias else versionInput;
    var assetURL := GetAssetURL(version, host.platform, host.arch);
    assert version == RequestedVersion(versionInput);
    calls := [Download(assetURL)];
    var downloaded := env.download(assetURL);
    if downloaded.Threw? {
      assert Execute(versionInput, args, host, env) == RunResult(calls, Failed(downloaded.message));
      action.SetFailed(downloaded.message);
      return;
    }
    var archivePath := downloaded.value;
    var repl := ".tar.gz";
    var request;
    if EndsWith(assetURL, "zip") {
      request := ExtractZip(archivePath, host.home);
      repl := ".zip";
    } else {
      var execArgs := TarFlags(host.platform);
      request := ExtractTar(archivePath, host.home, execArgs);
    }
    assert request == ExtractionFor(assetURL, archivePath, host.platform, host.home);
    calls := [Download(assetURL), Extract(request)];
    var extracted := env.extract(request);
    if extracted.Threw? {
      assert Execute(versionInput, args, host, env) == RunResult(calls, Failed(extracted.message));
      action.SetFailed(extracted.message);
      return;
    }
    var extractedDir := extracted.value;
    var dirName := StripSuffix(LastSegment(assetURL, '/'), repl);
    var repomanPath := PathJoin([extractedDir, dirName, "repoman"], PathSeparator(host.platform));
    var command := repomanPath + " info " + args;
    assert dirName == DirName(assetURL);
    assert command == InfoCommand(RepomanPath(extractedDir, assetURL, host.platform), args);
    calls := [Download(assetURL), Extract(request), Exec(command)];
    var res := env.exec(command);
    ReachesShell(versionInput, args, host, env, archivePath, extractedDir);
    if res.Threw? {
      action.SetFailed(res.message);
      return;
    }
    var info := env.parse(res.value);
    if info.Threw? {
      action.SetFailed(info.message);
      return;
    }
    Publish(action, info.value);
  }

  /**
   * A run never gets past a collaborator that throws, and fails with that
   * collaborator's message: the last call it made is the one that threw.
   */
  lemma FailureStopsAtThrowingCall(versionInput: string, args: string, host: Host, env: Collaborators)
    ensures var r := Execute(versionInput, args, host, env);
      var url := GetAssetURL(RequestedVersion(versionInput), host.platform, host.arch);
      1 <= |r.calls| <= 3
      && r.calls[0] == Download(url)
      && (env.download(url).Threw? ==>
            r == RunResult([Download(url)], Failed(env.download(url).message)))
      && (env.download(url).Done? ==>
            var request := ExtractionFor(url, env.download(url).value, host.platform, host.home);
            env.extract(request).Threw? ==>
              r == RunResult([Download(url), Extract(request)], Failed(env.extract(request).message)))
      && (r.outcome.Failed? && |r.calls| < 3 ==>
            match r.calls[|r.calls| - 1]
            case Download(url) => env.download(url) == Threw(r.outcome.message)
            case Extract(request) => env.extract(request) == Threw(r.outcome.message)
            case Exec(command) => false)
      && (r.outcome.Failed? && |r.calls| == 3 ==>
            r.calls[2].Exec?
            && (env.exec(r.calls[2].command) == Threw(r.outcome.message)
                || (env.exec(r.calls[2].command).Done?
                    && env.parse(env.exec(r.calls[2].command).value) == Threw(r.outcome.message))))
  {
  }

  /** A run that succeeds made all three calls and published the projection of the report. */
  lemma SuccessPublishesProjection(versionInput: string, args: string, host: Host, env: Collaborators)
    requires Execute(versionInput, args, host, env).outcome.Succeeded?
    ensures var r := Execute(versionInput, args, host, env);
      |r.calls| == 3 && r.calls[2].Exec?
      && env.exec(r.calls[2].command).Done?
      && env.parse(env.exec(r.calls[2].command).value).Done?
      && r.outcome.outputs == Projection(env.parse(env.exec(r.calls[2].command).value).value)
      && r.outcome.outputs["version"] == Str("n/a")
  {
  }

  /**
   * A run with the default version on 64-bit Linux downloads the pinned
   * release's Linux archive (its URL is given by `LatestOnLinuxX64`) and
   * unpacks it with tar and `--overwrite`.
   */
  lemma DefaultRunOnLinuxX64(args: string, home: Option<string>, env: Collaborators)
    requires env.download(GetAssetURL(LatestAlias, "linux", "x64")).Done?
    ensures var url := GetAssetURL(LatestAlias, "linux", "x64");
      var r := Execute("", args, Host("linux", "x64", home), env);
      |r.calls| >= 2
      && r.calls[0] == Download(url)
      && r.calls[1] == Extract(ExtractTar(env.download(url).value, home, ["xz", "--overwrite"]))
  {
    UsesZipIffWin32(LatestAlias, "linux", "x64");
  }

  /**
   * Once the archive is unpacked into a directory, the run executes
   * `<extractedDir><sep>repoman_<os>_<arch><sep>repoman info <args>`, with
   * `\` as the separator on win32 and `/` elsewhere, provided the platform
   * and architecture names hold no `/` (none of Node's do).
   */
  lemma CommandRunsUnpackedBinary(versionInput: string, args: string, host: Host, env: Collaborators)
    requires '/' !in host.platform && '/' !in host.arch
    requires var url := GetAssetURL(RequestedVersion(versionInput), host.platform, host.arch);
      env.download(url).Done?
      && env.extract(ExtractionFor(url, env.download(url).value, host.platform, host.home)).Done?
      && env.extract(ExtractionFor(url, env.download(url).value, host.platform, host.home)).value != ""
    ensures var url := GetAssetURL(RequestedVersion(versionInput), host.platform, host.arch);
      var dir := env.extract(ExtractionFor(url, env.download(url).value, host.platform, host.home)).value;
      var r := Execute(versionInput, args, host, env);
      |r.calls| == 3
      && var sep := [PathSeparator(host.platform)];
         r.calls[2] == Exec(InfoCommand(dir + sep + AssetBaseName(host.platform, host.arch) + sep + "repoman", args))
  {
    var url := GetAssetURL(RequestedVersion(versionInput), host.platform, host.arch);
    var request := ExtractionFor(url, env.download(url).value, host.platform, host.home);
    var dir := env.extract(request).value;
    assert Execute(versionInput, args, host, env).calls
        == [Download(url), Extract(request), Exec(InfoCommand(RepomanPath(dir, url, host.platform), args))];
    RepomanPathOfAssetURL(dir, RequestedVersion(versionInput), host.platform, host.arch);
  }

  /** Adding a successful run's outputs to no outputs gives exactly those outputs. */
  lemma EmptyUnion(outcome: Outcome)
    ensures outcome.Succeeded? ==> map[] + outcome.outputs == outcome.outputs
  {
  }

  /**
   * A whole run on a CI host that has nothing set yet: it publishes exactly
   * the projection of the report when every collaborator succeeds, and
   * otherwise no output and the message of the collaborator that threw.
   */
  method RunOnFreshHost(versionInput: string, args: string, host: Host, env: Collaborators)
    returns (outputs: map<string, JsValue>, failure: Option<string>)
    ensures Execute(versionInput, args, host, env).outcome.Succeeded? ==>
              outputs == Execute(versionInput, args, host, env).outcome.outputs && failure == None
    ensures Execute(versionInput, args, host, env).outcome.Failed? ==>
              outputs == map[] && failure == Some(Execute(versionInput, args, host, env).outcome.message)
  {
    var action := new ActionHost();
    var calls := Run(action, versionInput, args, host, env);
    EmptyUnion(Execute(versionInput, args, host, env).outcome);
    outputs := action.outputs;
    failure := action.failure;
  }
}
