/**
 * Where the repoman release archive for a host is downloaded from
 * (`getAssetURL` in src/main.ts). The host's `os.platform()` and `os.arch()`
 * are explicit parameters.
 */
module Asset {
  import opened Strings

  /** The release download prefix of the repoman project. */
  const DownloadURL: string := "https://github.com/moul/repoman/releases/download"

  /** The release the `latest` alias is pinned to. */
  const PinnedVersion: string := "v1.4.4"

  /** The only version alias the action knows. */
  const LatestAlias: string := "latest"

  /** Node platform names the action renames, with repoman's name for each. */
  const OsTokens: map<string, string> :=
    map["linux" := "Linux", "darwin" := "Darwin", "win32" := "windows"]

  /** Node architecture names the action renames, with repoman's name for each. */
  const ArchTokens: map<string, string> :=
    map["x64" := "x86_64", "x32" := "i386", "ia32" := "i386"]

  /**
   * The release tag used in the URL: never the alias itself, and the
   * requested version unchanged exactly when it is not the alias.
   */
  function ResolveVersion(version: string): (tag: string)
    ensures tag != LatestAlias
    ensures tag == version || tag == PinnedVersion
    ensures tag == version <==> version != LatestAlias
  {
    if version == LatestAlias then PinnedVersion else version
  }

  /** repoman's operating-system name: the table entry, or the platform unchanged. */
  function PlatformToken(platform: string): (token: string)
    ensures platform in OsTokens ==> token == OsTokens[platform]
    ensures platform !in OsTokens ==> token == platform
  {
    match platform
    case "linux" => "Linux"
    case "darwin" => "Darwin"
    case "win32" => "windows"
    case _ => platform
  }

  /** The archive format: `zip` exactly on win32, `tar.gz` everywhere else. */
  function ArchiveExt(platform: string): (ext: string)
    ensures ext == "zip" <==> platform == "win32"
    ensures ext == "zip" || ext == "tar.gz"
  {
    if platform == "win32" then "zip" else "tar.gz"
  }

  /** repoman's architecture name: the table entry, or the architecture unchanged. */
  function ArchToken(arch: string): (token: string)
    ensures arch in ArchTokens ==> token == ArchTokens[arch]
    ensures arch !in ArchTokens ==> token == arch
  {
    match arch
    case "x64" => "x86_64"
    case "x32" => "i386"
    case "ia32" => "i386"
    case _ => arch
  }

  /**
   * The archive's file name without its extension, `repoman_<os>_<arch>`:
   * `repoman_` followed by repoman's names for the OS and the architecture.
   */
  function AssetBaseName(platform: string, arch: string): (name: string)
    ensures StartsWith(name, "repoman_") && name[8..] == PlatformToken(platform) + "_" + ArchToken(arch)
  {
    AppendHalves("repoman_", PlatformToken(platform) + "_" + ArchToken(arch));
    "repoman_" + PlatformToken(platform) + "_" + ArchToken(arch)
  }

  /** Renaming keeps names free of `/`: none of repoman's names holds one. */
  lemma TokensWithoutSlash(platform: string, arch: string)
    requires '/' !in platform && '/' !in arch
    ensures '/' !in PlatformToken(platform) && '/' !in ArchToken(arch)
  {
  }

  /** The archive's base name holds no `/` unless the raw names do. */
  lemma AssetBaseNameWithoutSlash(platform: string, arch: string)
    requires '/' !in platform && '/' !in arch
    ensures '/' !in AssetBaseName(platform, arch)
  {
    TokensWithoutSlash(platform, arch);
  }

  /** The directory of one release: `<DownloadURL>/<tag>/`. */
  function ReleaseDir(version: string): string
  {
    DownloadURL + "/" + ResolveVersion(version) + "/"
  }

  /**
   * `getAssetURL`: the archive's URL lies in the release directory of the
   * resolved tag, what follows that directory is the archive's file name
   * `repoman_<os>_<arch>.<ext>`, and it ends with the platform's extension.
   */
  function GetAssetURL(version: string, platform: string, arch: string): (url: string)
    ensures StartsWith(url, ReleaseDir(version))
    ensures url[|ReleaseDir(version)|..] == AssetBaseName(platform, arch) + "." + ArchiveExt(platform)
    ensures EndsWith(url, "." + ArchiveExt(platform))
  {
    var dir := ReleaseDir(version);
    var dotExt := "." + ArchiveExt(platform);
    var file := AssetBaseName(platform, arch) + dotExt;
    assert (dir + file)[..|dir|] == dir;
    assert (dir + file)[|dir|..] == file;
    assert dir + file == (dir + AssetBaseName(platform, arch)) + dotExt;
    EndsWithAppend(dir + AssetBaseName(platform, arch), dotExt);
    dir + file
  }

  /** Renaming a platform twice is renaming it once: repoman's names are fixed points. */
  lemma PlatformTokenIdempotent(platform: string)
    ensures PlatformToken(PlatformToken(platform)) == PlatformToken(platform)
  {
  }

  /** Renaming an architecture twice is renaming it once. */
  lemma ArchTokenIdempotent(arch: string)
    ensures ArchToken(ArchToken(arch)) == ArchToken(arch)
  {
  }

  /**
   * The archive format is chosen from the raw platform, not from repoman's
   * name for it: a platform already called `windows` keeps that name but
   * gets a `tar.gz` archive.
   */
  lemma ExtensionFollowsRawPlatform()
    ensures PlatformToken("windows") == "windows" && ArchiveExt("windows") == "tar.gz"
    ensures PlatformToken("win32") == "windows" && ArchiveExt("win32") == "zip"
  {
  }

  /** The release directory of the alias is that of the pinned tag. */
  lemma LatestReleaseDir()
    ensures ReleaseDir(LatestAlias) == "https://github.com/moul/repoman/releases/download/v1.4.4/"
  {
  }

  /** The archive's file name on a 64-bit Linux runner. */
  lemma LinuxX64File()
    ensures AssetBaseName("linux", "x64") + "." + ArchiveExt("linux") == "repoman_Linux_x86_64.tar.gz"
  {
  }

  /** The URL for the alias on a 64-bit Linux runner: the pinned release's Linux archive. */
  lemma LatestOnLinuxX64()
    ensures GetAssetURL(LatestAlias, "linux", "x64")
         == "https://github.com/moul/repoman/releases/download/v1.4.4/" + "repoman_Linux_x86_64.tar.gz"
  {
    LatestReleaseDir();
    LinuxX64File();
  }
}
