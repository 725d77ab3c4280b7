/** Where screenshots live: the search for the baseline directory among
    the configured candidates, and the paths of the baseline and of the
    freshly captured file. Directory existence on disk is the set
    `existingDirs` of the paths that are directories. */
module ScreenshotPaths {
  import opened JsStrings
  import opened ImageNames

  /** `path.join` of two segments, modelled as joining them with `/`. */
  function PathJoin(a: string, b: string): (p: string) {
    a + "/" + b
  }

  /** `config.expectedScreenshotsDir`: one directory, or a list of candidates. */
  datatype DirSetting = Single(dir: string) | Several(dirs: seq<string>)

  /** The candidate list a setting stands for; a single directory is a
      list of one. */
  function Candidates(setting: DirSetting): (dirs: seq<string>)
    ensures setting.Single? ==> dirs == [setting.dir]
    ensures setting.Several? ==> dirs == setting.dirs
  {
    match setting
    case Single(dir) => [dir]
    case Several(dirs) => dirs
  }

  /** No candidate before index `k` names an existing directory. */
  ghost predicate NoneExistBefore(base: string, dirs: seq<string>, existingDirs: set<string>, k: int)
    requires 0 <= k <= |dirs|
  {
    forall j :: 0 <= j < k ==> PathJoin(base, dirs[j]) !in existingDirs
  }

  /** The directory the baseline search settles on: nothing for an empty
      list; otherwise the first candidate that exists, or the last one when
      none does. */
  ghost predicate IsExpectedDirChoice(base: string, dirs: seq<string>, existingDirs: set<string>, r: Option<string>) {
    (dirs == [] <==> r == None) &&
    (forall k :: 0 <= k < |dirs| && PathJoin(base, dirs[k]) in existingDirs && NoneExistBefore(base, dirs, existingDirs, k) ==>
       r == Some(PathJoin(base, dirs[k]))) &&
    (dirs != [] && NoneExistBefore(base, dirs, existingDirs, |dirs|) ==>
       r == Some(PathJoin(base, dirs[|dirs| - 1])))
  }

  /** The choice is fully determined by the candidates and the disk. */
  lemma ExpectedDirChoiceUnique(base: string, dirs: seq<string>, existingDirs: set<string>, r1: Option<string>, r2: Option<string>)
    requires IsExpectedDirChoice(base, dirs, existingDirs, r1)
    requires IsExpectedDirChoice(base, dirs, existingDirs, r2)
    ensures r1 == r2
  {
    if dirs != [] && !NoneExistBefore(base, dirs, existingDirs, |dirs|) {
      var k :| 0 <= k < |dirs| && PathJoin(base, dirs[k]) in existingDirs;
      var i := 0;
      while PathJoin(base, dirs[i]) !in existingDirs
        invariant 0 <= i <= k
        invariant NoneExistBefore(base, dirs, existingDirs, i)
        decreases k - i
      {
        i := i + 1;
      }
    }
  }

  /** The loop of `getExpectedScreenshotPath`: walk the candidates in order,
      remember the joined path of each, and stop at the first that exists. */
  method FindExpectedScreenshotDir(base: string, dirs: seq<string>, existingDirs: set<string>) returns (r: Option<string>)
    ensures IsExpectedDirChoice(base, dirs, existingDirs, r)
  {
    r := None;
    var i := 0;
    while i < |dirs|
      invariant 0 <= i <= |dirs|
      invariant NoneExistBefore(base, dirs, existingDirs, i)
      invariant i == 0 <==> r == None
      invariant i > 0 ==> r == Some(PathJoin(base, dirs[i - 1]))
    {
      r := Some(PathJoin(base, dirs[i]));
      if r.value in existingDirs {
        break;
      }
      i := i + 1;
    }
  }

  /** The screenshot settings of the global test configuration. */
  class Config {
    var expectedScreenshotsDir: DirSetting
    var processedScreenshotsDir: string

    constructor (expected: DirSetting, processed: string)
      ensures expectedScreenshotsDir == expected && processedScreenshotsDir == processed
    {
      expectedScreenshotsDir := expected;
      processedScreenshotsDir := processed;
    }

    /** `getExpectedScreenshotPath`: a single directory is first rewritten
        in the configuration as a list of one, then the candidates are
        searched relative to the suite's base directory. */
    method ExpectedScreenshotPath(baseDirectory: string, existingDirs: set<string>) returns (r: Option<string>)
      modifies this
      ensures expectedScreenshotsDir == Several(Candidates(old(expectedScreenshotsDir)))
      ensures processedScreenshotsDir == old(processedScreenshotsDir)
      ensures IsExpectedDirChoice(baseDirectory, Candidates(old(expectedScreenshotsDir)), existingDirs, r)
    {
      if expectedScreenshotsDir.Single? {
        expectedScreenshotsDir := Several([expectedScreenshotsDir.dir]);
      }
      r := FindExpectedScreenshotDir(baseDirectory, expectedScreenshotsDir.dirs, existingDirs);
    }

    /** `getExpectedFilePath`: the normalised file name inside the chosen
        baseline directory. With no candidate at all the directory is
        undefined and `path.join` throws; that is `None`. */
    method ExpectedFilePath(fileName: string, baseDirectory: string, existingDirs: set<string>) returns (r: Option<string>)
      modifies this
      ensures expectedScreenshotsDir == Several(Candidates(old(expectedScreenshotsDir)))
      ensures processedScreenshotsDir == old(processedScreenshotsDir)
      ensures r == None <==> Candidates(old(expectedScreenshotsDir)) == []
      ensures forall dir :: IsExpectedDirChoice(baseDirectory, Candidates(old(expectedScreenshotsDir)), existingDirs, Some(dir)) ==>
        r == Some(PathJoin(dir, AssumeFileIsImage(fileName)))
    {
      ghost var dirs := Candidates(expectedScreenshotsDir);
      var name := AssumeFileIsImage(fileName);
      var dir := ExpectedScreenshotPath(baseDirectory, existingDirs);
      r := if dir.None? then None else Some(PathJoin(dir.value, name));
      forall d | IsExpectedDirChoice(baseDirectory, dirs, existingDirs, Some(d))
        ensures r == Some(PathJoin(d, name))
      {
        ExpectedDirChoiceUnique(baseDirectory, dirs, existingDirs, dir, Some(d));
      }
    }

    /** The directory captured screenshots are written to: under the UI
        tests repository when so configured, else under the suite's base
        directory. */
    function ProcessedScreenshotDir(storeInUiTestsRepo: bool, uiTestsDir: string, baseDirectory: string): (d: string)
      reads this
      ensures var b := if storeInUiTestsRepo then uiTestsDir else baseDirectory;
        |d| == |b| + 1 + |processedScreenshotsDir| && d[..|b| + 1] == b + "/" && d[|b| + 1..] == processedScreenshotsDir
    {
      var b := if storeInUiTestsRepo then uiTestsDir else baseDirectory;
      var d := PathJoin(b, processedScreenshotsDir);
      assert d[..|b| + 1] == b + "/";
      assert d[|b| + 1..] == processedScreenshotsDir;
      d
    }

    /** `getProcessedFilePath`: the normalised file name inside the
        processed-screenshot directory; a name that already carries its
        extension is used as it is. */
    function ProcessedFilePath(storeInUiTestsRepo: bool, uiTestsDir: string, baseDirectory: string, fileName: string): (p: string)
      reads this
      ensures StartsWith(p, ProcessedScreenshotDir(storeInUiTestsRepo, uiTestsDir, baseDirectory) + "/")
      ensures IsSuffix("/" + AssumeFileIsImage(fileName), p)
      ensures HasImageOrTextExtension(fileName) ==>
        p == PathJoin(ProcessedScreenshotDir(storeInUiTestsRepo, uiTestsDir, baseDirectory), fileName)
    {
      var dir := ProcessedScreenshotDir(storeInUiTestsRepo, uiTestsDir, baseDirectory);
      var p := PathJoin(dir, AssumeFileIsImage(fileName));
      assert p[..|dir + "/"|] == dir + "/";
      p
    }
  }
}
