/**
 * The output-directory normalisation of the driver: no output path disables
 * saving; otherwise the directory is the absolute path with exactly one
 * trailing slash added when it has none.
 */
module OutputPath {
  import opened Options

  /** Whether a string's last character is a slash; false for the empty
      string (patch_miner.py:89). */
  predicate EndsWithSlash(s: string)
    ensures EndsWithSlash(s) <==> |s| > 0 && s == s[..|s| - 1] + "/"
  {
    |s| > 0 && s[|s| - 1] == '/'
  }

  /** Append a slash to a directory only when it does not already end with
      one (patch_miner.py:89-90). */
  function WithTrailingSlash(s: string): (r: string)
    ensures EndsWithSlash(r)
    ensures s <= r && |r| <= |s| + 1
    ensures EndsWithSlash(s) ==> r == s
  {
    if EndsWithSlash(s) then s else s + "/"
  }

  /** The slash is added only when it is needed: no shorter extension of `s`
      ends with a slash. */
  lemma WithTrailingSlashIsShortest(s: string, u: string)
    requires s <= u && EndsWithSlash(u)
    ensures |WithTrailingSlash(s)| <= |u|
  {
    if !EndsWithSlash(s) {
      assert u != s;
      assert u[..|s|] == s;
    }
  }

  /** Adding the slash twice is adding it once. */
  lemma WithTrailingSlashIdempotent(s: string)
    ensures WithTrailingSlash(WithTrailingSlash(s)) == WithTrailingSlash(s)
  {
  }

  /** `do_save_patches` and `out_dir` as the driver leaves them. */
  datatype OutputTarget = OutputTarget(saving: bool, dir: string)

  /** patch_miner.py:79-90: `None` gives `(False, "")`; a path gives saving
      on and `abspath(path)` with a trailing slash. `absPath` is
      `os.path.abspath`, which is not modelled. */
  function OutputTargetFor(outputPath: Option<string>, absPath: string -> string): (t: OutputTarget)
    ensures outputPath.None? <==> !t.saving
    ensures outputPath.None? ==> t.dir == ""
    ensures outputPath.Some? ==>
              && EndsWithSlash(t.dir)
              && absPath(outputPath.value) <= t.dir
              && |t.dir| <= |absPath(outputPath.value)| + 1
              && (EndsWithSlash(absPath(outputPath.value)) ==> t.dir == absPath(outputPath.value))
  {
    match outputPath
    case None => OutputTarget(false, "")
    case Some(p) => OutputTarget(true, WithTrailingSlash(absPath(p)))
  }

  /** Normalising an already normalised directory gives it back, whether
      `abspath` keeps its one trailing slash or strips it. */
  lemma OutputTargetStable(dir: string, absPath: string -> string)
    requires EndsWithSlash(dir)
    requires absPath(dir) == dir || (absPath(dir) + "/" == dir && !EndsWithSlash(absPath(dir)))
    ensures OutputTargetFor(Some(dir), absPath) == OutputTarget(true, dir)
  {
  }
}
