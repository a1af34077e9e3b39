/**
 * Unpacking the downloaded archive and locating the repoman binary in it
 * (the install half of `run` in src/main.ts): the choice between the zip and
 * the tar extractor and the flags given to tar, the name of the directory
 * the archive unpacks into, and the path of the binary.
 */
module Install {
  import opened Wrappers
  import opened Strings
  import opened Asset

  /** A request to the tool cache's extractors: the archive, the destination, and tar's flags. */
  datatype Extraction =
    | ExtractZip(archive: string, dest: Option<string>)
    | ExtractTar(archive: string, dest: Option<string>, flags: seq<string>)

  /** The platform whose tar has no `--overwrite` flag. */
  const NoOverwritePlatform: string := "darwin"

  /**
   * The flags handed to tar: `xz` always comes first, and `--overwrite`
   * follows it on every platform but darwin.
   */
  function TarFlagList(platform: string): (flags: seq<string>)
    ensures |flags| >= 1 && flags[0] == "xz"
    ensures "--overwrite" in flags <==> platform != NoOverwritePlatform
    ensures flags == ["xz"] || flags == ["xz", "--overwrite"]
  {
    if platform == NoOverwritePlatform then ["xz"] else ["xz", "--overwrite"]
  }

  /** Builds `execArgs` as `run` does: start from `['xz']`, push `--overwrite` off darwin. */
  method TarFlags(platform: string) returns (execArgs: seq<string>)
    ensures execArgs == TarFlagList(platform)
  {
    execArgs := ["xz"];
    if platform != NoOverwritePlatform {
      execArgs := execArgs + ["--overwrite"];
    }
  }

  /**
   * The zip extractor is used for every URL that ends with `zip`: every
   * `.zip` URL and no `.tar.gz` URL.
   */
  predicate UsesZip(url: string)
    ensures EndsWith(url, ".zip") ==> UsesZip(url)
    ensures EndsWith(url, ".tar.gz") ==> !UsesZip(url)
  {
    EndsWithThrough(url, ".zip", "zip");
    EndsWithThrough(url, ".tar.gz", "zip");
    assert ".zip"[1..] == "zip" && ".tar.gz"[4..] != "zip";
    EndsWith(url, "zip")
  }

  /** The suffix `run` strips from the archive's file name (`/\.zip$/` or `/\.tar\.gz$/`). */
  function ArchiveSuffix(url: string): (suffix: string)
    ensures suffix == ".zip" <==> UsesZip(url)
    ensures suffix == ".zip" || suffix == ".tar.gz"
  {
    if UsesZip(url) then ".zip" else ".tar.gz"
  }

  /** The extractor call `run` makes for an archive downloaded from `url`. */
  function ExtractionFor(url: string, archive: string, platform: string, home: Option<string>): (request: Extraction)
    ensures request.ExtractZip? <==> UsesZip(url)
    ensures request.archive == archive && request.dest == home
    ensures request.ExtractTar? ==> request.flags == TarFlagList(platform)
  {
    if UsesZip(url) then ExtractZip(archive, home)
    else ExtractTar(archive, home, TarFlagList(platform))
  }

  /**
   * The directory the archive unpacks into: the URL's last segment without
   * the archive suffix when it ends with it, and the segment unchanged
   * otherwise.
   */
  function DirName(url: string): (dir: string)
    ensures '/' !in dir
    ensures EndsWith(LastSegment(url, '/'), ArchiveSuffix(url))
         ==> dir + ArchiveSuffix(url) == LastSegment(url, '/')
    ensures !EndsWith(LastSegment(url, '/'), ArchiveSuffix(url))
         ==> dir == LastSegment(url, '/')
  {
    var file := LastSegment(url, '/');
    var dir := StripSuffix(file, ArchiveSuffix(url));
    assert dir == file || dir == file[..|file| - |ArchiveSuffix(url)|];
    assert forall k :: 0 <= k < |dir| ==> dir[k] == file[k];
    dir
  }

  /** The separator of the runner's `path` module: `\` on win32, `/` elsewhere. */
  function PathSeparator(platform: string): (sep: char)
    ensures sep == '\\' <==> platform == "win32"
    ensures sep == '\\' || sep == '/'
  {
    if platform == "win32" then '\\' else '/'
  }

  /**
   * `path.join(extractedDir, dirName, 'repoman')` on the runner's platform:
   * the binary `repoman` inside the archive's directory inside the extraction
   * directory, with the platform's separator between them.
   */
  function RepomanPath(extractedDir: string, url: string, platform: string): (path: string)
    ensures extractedDir != "" && DirName(url) != ""
         ==> path == extractedDir + [PathSeparator(platform)] + DirName(url) + [PathSeparator(platform)] + "repoman"
  {
    var sep := PathSeparator(platform);
    var dir := DirName(url);
    if extractedDir != "" && dir != "" then
      PathJoinThree(extractedDir, dir, "repoman", sep);
      PathJoin([extractedDir, dir, "repoman"], sep)
    else
      PathJoin([extractedDir, dir, "repoman"], sep)
  }

  /** The archive of a built URL ends with `zip` exactly when it was built for win32. */
  lemma UsesZipIffWin32(version: string, platform: string, arch: string)
    ensures UsesZip(GetAssetURL(version, platform, arch)) <==> platform == "win32"
  {
    var ext := ArchiveExt(platform);
    assert "." + ext == ".zip" || "." + ext == ".tar.gz";
  }

  /** A URL ending in `.zip` or `.tar.gz` has that suffix stripped. */
  lemma ArchiveSuffixOfExt(url: string, ext: string)
    requires ext == "zip" || ext == "tar.gz"
    requires EndsWith(url, "." + ext)
    ensures ArchiveSuffix(url) == "." + ext
  {
    if ext == "zip" {
      assert EndsWith(url, ".zip");
    } else {
      assert EndsWith(url, ".tar.gz");
    }
  }

  /** A file name `<base>.<ext>` at the end of a path ends the path. */
  lemma PathEndsWithExt(prefix: string, base: string, ext: string)
    ensures EndsWith(prefix + ['/'] + (base + "." + ext), "." + ext)
  {
    AppendAssociative(base, ".", ext);
    EndsWithAppendAfter(prefix + ['/'], base, "." + ext);
  }

  /** The directory derived from `<prefix>/<base>.<ext>` is `base`. */
  lemma DirNameOfFile(prefix: string, base: string, ext: string)
    requires ext == "zip" || ext == "tar.gz"
    requires '/' !in base
    ensures DirName(prefix + ['/'] + (base + "." + ext)) == base
  {
    var file := base + "." + ext;
    var url := prefix + ['/'] + file;
    assert '/' !in file;
    LastSegmentAfter(prefix, file, '/');
    PathEndsWithExt(prefix, base, ext);
    ArchiveSuffixOfExt(url, ext);
    AppendAssociative(base, ".", ext);
    StripAppended(base, "." + ext);
  }

  /**
   * Round trip between `getAssetURL` and the directory `run` looks in: the
   * directory derived from a built URL is `repoman_<os>_<arch>`, provided the
   * platform and architecture names hold no `/` (none of Node's do).
   */
  lemma DirNameOfAssetURL(version: string, platform: string, arch: string)
    requires '/' !in platform && '/' !in arch
    ensures DirName(GetAssetURL(version, platform, arch)) == AssetBaseName(platform, arch)
  {
    var url := GetAssetURL(version, platform, arch);
    var dir := ReleaseDir(version);
    var base := AssetBaseName(platform, arch);
    AssetBaseNameWithoutSlash(platform, arch);
    var ext := ArchiveExt(platform);
    var prefix := dir[..|dir| - 1];
    assert dir == prefix + ['/'];
    assert url == dir + (base + "." + ext) by {
      assert url == url[..|dir|] + url[|dir|..];
    }
    DirNameOfFile(prefix, base, ext);
  }

  /**
   * The binary `run` executes for a built URL lies at
   * `<extractedDir><sep>repoman_<os>_<arch><sep>repoman`, where the separator
   * is `\` on win32 and `/` elsewhere.
   */
  lemma RepomanPathOfAssetURL(extractedDir: string, version: string, platform: string, arch: string)
    requires '/' !in platform && '/' !in arch
    requires extractedDir != ""
    ensures var sep := [PathSeparator(platform)];
      RepomanPath(extractedDir, GetAssetURL(version, platform, arch), platform)
        == extractedDir + sep + AssetBaseName(platform, arch) + sep + "repoman"
  {
    DirNameOfAssetURL(version, platform, arch);
    assert AssetBaseName(platform, arch) != "";
  }
}
