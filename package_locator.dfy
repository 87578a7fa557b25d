/**
 * The package-root locator of src/findPackageJsonPath.js: starting at a
 * directory, return the first `package.json` that can be read, walking up one
 * directory each time the file is missing (ENOENT), failing at the root, and
 * letting every other access error through unchanged.
 */
module PackageLocator {
  import opened Results
  import opened Paths

  /** The error object `fs.accessSync` throws; only its `code` is inspected. */
  datatype AccessError = AccessError(code: string)

  /** What `fs.accessSync(file, R_OK)` does for one file: return, or throw. */
  datatype Access = Accessible | Raised(error: AccessError)

  /** The filesystem, as seen through `fs.accessSync(file, R_OK)`. */
  type FileSystem = Path -> Access

  const ENOENT := "ENOENT"
  const NotFoundMessage := "package.json not found"

  /** What the locator throws: its own error at the root, or the access error it re-throws. */
  datatype LocateError = NotFound(message: string) | Rethrown(cause: AccessError)

  /** `package.json` is missing in `dir`: the access throws with code ENOENT. */
  predicate Missing(fs: FileSystem, dir: Path) {
    fs(Resolve(dir, PackageJson)) == Raised(AccessError(ENOENT))
  }

  /** Every ancestor-or-self of `dir` deeper than `depth` lacks `package.json`. */
  predicate MissingBelow(fs: FileSystem, dir: Path, depth: nat) {
    forall j :: depth < j <= |dir| ==> Missing(fs, dir[..j])
  }

  /** No ancestor-or-self of `dir`, the root included, has `package.json`. */
  predicate MissingEverywhere(fs: FileSystem, dir: Path) {
    forall j :: 0 <= j <= |dir| ==> Missing(fs, dir[..j])
  }

  /**
   * `findPackageJsonPath(directoryPath)`. Each recursive call is on the
   * parent, which is strictly shorter, so the search ends; a found file is
   * readable and is the `package.json` of an ancestor-or-self of `dir`.
   */
  function FindPackageJsonPath(fs: FileSystem, dir: Path): (r: Result<Path, LocateError>)
    decreases |dir|
    ensures r.Success? ==>
      && r.value == Resolve(Dirname(r.value), PackageJson)
      && IsAncestorOrSelf(Dirname(r.value), dir)
      && fs(r.value) == Accessible
    ensures r.Failure? && r.error.Rethrown? ==> r.error.cause.code != ENOENT
    ensures r.Failure? && r.error.NotFound? ==> r.error.message == NotFoundMessage
  {
    var filePath := Resolve(dir, PackageJson);
    match fs(filePath)
    case Accessible => Success(filePath)
    case Raised(error) =>
      if error.code == ENOENT then
        var next := Dirname(dir);
        if next == dir then Failure(NotFound(NotFoundMessage))
        else
          var r := FindPackageJsonPath(fs, next);
          if r.Success? then AncestorTransitive(Dirname(r.value), next, dir); r else r
      else Failure(Rethrown(error))
  }

  lemma MissingBelowStep(fs: FileSystem, dir: Path, depth: nat)
    requires dir != [] && Missing(fs, dir) && depth < |dir|
    requires MissingBelow(fs, Dirname(dir), depth)
    ensures MissingBelow(fs, dir, depth)
  {
    forall j | depth < j <= |dir| ensures Missing(fs, dir[..j]) {
      if j < |dir| {
        assert dir[..j] == Dirname(dir)[..j];
      } else {
        assert dir[..j] == dir;
      }
    }
  }

  /**
   * A found file is the `package.json` of the NEAREST ancestor-or-self whose
   * access succeeds: every directory between `dir` and it had ENOENT.
   */
  lemma {:induction false} FoundIsNearest(fs: FileSystem, dir: Path)
    requires FindPackageJsonPath(fs, dir).Success?
    ensures var p := FindPackageJsonPath(fs, dir).value;
      && p == Resolve(dir[..|p| - 1], PackageJson)
      && fs(p) == Accessible
      && MissingBelow(fs, dir, |p| - 1)
  {
    var p := FindPackageJsonPath(fs, dir).value;
    if fs(Resolve(dir, PackageJson)) != Accessible {
      var next := Dirname(dir);
      FoundIsNearest(fs, next);
      assert next[..|p| - 1] == dir[..|p| - 1];
      MissingBelowStep(fs, dir, |p| - 1);
    } else {
      assert dir[..|dir|] == dir;
    }
  }

  /**
   * Conversely, whenever the directory `k` levels below the root is readable
   * and every deeper one lacks the file, that directory's `package.json` is
   * the result, however deep `dir` lies beneath it.
   */
  lemma {:induction false} NearestIsFound(fs: FileSystem, dir: Path, k: nat)
    requires k <= |dir|
    requires fs(Resolve(dir[..k], PackageJson)) == Accessible
    requires MissingBelow(fs, dir, k)
    ensures FindPackageJsonPath(fs, dir) == Success(Resolve(dir[..k], PackageJson))
  {
    if k == |dir| {
      assert dir[..k] == dir;
    } else {
      assert dir[..|dir|] == dir;
      assert Missing(fs, dir[..|dir|]);
      var next := Dirname(dir);
      assert next[..k] == dir[..k];
      forall j | k < j <= |next| ensures Missing(fs, next[..j]) {
        assert next[..j] == dir[..j];
      }
      NearestIsFound(fs, next, k);
    }
  }

  /**
   * An access error other than ENOENT is re-thrown unchanged by the nearest
   * directory where it happens, and nothing above that directory is tried.
   */
  lemma {:induction false} RethrownIsNearest(fs: FileSystem, dir: Path)
    requires FindPackageJsonPath(fs, dir).Failure? && FindPackageJsonPath(fs, dir).error.Rethrown?
    ensures exists k :: (0 <= k <= |dir|
      && fs(Resolve(dir[..k], PackageJson)) == Raised(FindPackageJsonPath(fs, dir).error.cause)
      && MissingBelow(fs, dir, k))
  {
    var e := FindPackageJsonPath(fs, dir).error.cause;
    if fs(Resolve(dir, PackageJson)) == Raised(e) {
      assert dir[..|dir|] == dir;
    } else {
      var next := Dirname(dir);
      RethrownIsNearest(fs, next);
      var k :| 0 <= k <= |next|
        && fs(Resolve(next[..k], PackageJson)) == Raised(e)
        && MissingBelow(fs, next, k);
      assert next[..k] == dir[..k];
      MissingBelowStep(fs, dir, k);
    }
  }

  /** Conversely, the first non-ENOENT error met on the way up is the one thrown. */
  lemma {:induction false} NearestErrorIsRethrown(fs: FileSystem, dir: Path, k: nat, e: AccessError)
    requires k <= |dir| && e.code != ENOENT
    requires fs(Resolve(dir[..k], PackageJson)) == Raised(e)
    requires MissingBelow(fs, dir, k)
    ensures FindPackageJsonPath(fs, dir) == Failure(Rethrown(e))
  {
    if k == |dir| {
      assert dir[..k] == dir;
    } else {
      assert dir[..|dir|] == dir;
      assert Missing(fs, dir[..|dir|]);
      var next := Dirname(dir);
      assert next[..k] == dir[..k];
      forall j | k < j <= |next| ensures Missing(fs, next[..j]) {
        assert next[..j] == dir[..j];
      }
      NearestErrorIsRethrown(fs, next, k, e);
    }
  }

  /** The locator fails with 'package.json not found' exactly when the file is missing all the way up to the root. */
  lemma {:induction false} NotFoundIffMissingEverywhere(fs: FileSystem, dir: Path)
    ensures FindPackageJsonPath(fs, dir) == Failure(NotFound(NotFoundMessage)) <==> MissingEverywhere(fs, dir)
  {
    if dir == [] {
      assert dir[..0] == dir;
    } else {
      NotFoundIffMissingEverywhere(fs, Dirname(dir));
      MissingEverywhereStep(fs, dir);
    }
  }

  lemma MissingEverywhereStep(fs: FileSystem, dir: Path)
    requires dir != []
    ensures MissingEverywhere(fs, dir) <==> Missing(fs, dir) && MissingEverywhere(fs, Dirname(dir))
  {
    var next := Dirname(dir);
    assert dir[..|dir|] == dir;
    if MissingEverywhere(fs, dir) {
      forall j | 0 <= j <= |next| ensures Missing(fs, next[..j]) {
        assert next[..j] == dir[..j];
      }
    }
    if Missing(fs, dir) && MissingEverywhere(fs, next) {
      forall j | 0 <= j <= |dir| ensures Missing(fs, dir[..j]) {
        if j < |dir| { assert dir[..j] == next[..j]; }
      }
    }
  }

  /** Looking again from the directory of a found `package.json` finds the same file. */
  lemma {:induction false} ReResolutionIsIdempotent(fs: FileSystem, dir: Path)
    requires FindPackageJsonPath(fs, dir).Success?
    ensures var p := FindPackageJsonPath(fs, dir).value;
      FindPackageJsonPath(fs, Dirname(p)) == Success(p)
  {
    var p := FindPackageJsonPath(fs, dir).value;
    assert Resolve(Dirname(p), PackageJson) == p;
  }
}
