/**
 * The two configuration keys the driver reads itself, and the patch criteria
 * it registers from them.
 */
module Configuration {
  import opened Options

  /** The loaded YAML configuration: `scale` and `patch_size` may be missing,
      and `patch_size` may be shorter than two entries. Every other key is
      forwarded untouched to the patch manager, so it is not modelled. */
  datatype Config = Config(scale: Option<int>, patchSize: Option<seq<int>>)

  /** KeyError for a missing key; IndexError for `patch_size[index]` past
      the end of the list. */
  datatype ConfigError = MissingKey(key: string) | IndexOutOfRange(key: string, index: nat)

  /** A patch criterion registered with the manager. The predicates of
      `opm.utils` themselves are not modelled; a criterion is identified by
      which check it is and the arguments bound to it with `partial`. */
  datatype Criterion =
    | AlphaChannelCheck
    | PatchSizeCheck(patchHeight: int, patchWidth: int)

  /** Look up the `scale` key of the configuration (patch_miner.py:103). */
  function ScaleSetting(cfg: Config): (r: Result<int, ConfigError>)
    ensures r.Ok? <==> cfg.scale.Some?
    ensures r.Ok? ==> r.value == cfg.scale.value
    ensures r.Err? ==> r.error == MissingKey("scale")
  {
    match cfg.scale
    case None => Err(MissingKey("scale"))
    case Some(s) => Ok(s)
  }

  /** The patch-size check bound to the configured patch size
      (patch_miner.py:110): the height is the first entry of `patch_size` and
      the width the second; further entries are ignored. */
  function PatchSizeCriterion(cfg: Config): (r: Result<Criterion, ConfigError>)
    ensures r.Ok? <==> cfg.patchSize.Some? && |cfg.patchSize.value| >= 2
    ensures r.Ok? ==> r.value == PatchSizeCheck(cfg.patchSize.value[0], cfg.patchSize.value[1])
    ensures cfg.patchSize.None? ==> r == Err(MissingKey("patch_size"))
    ensures cfg.patchSize.Some? && |cfg.patchSize.value| < 2 ==>
              r == Err(IndexOutOfRange("patch_size", |cfg.patchSize.value|))
  {
    match cfg.patchSize
    case None => Err(MissingKey("patch_size"))
    case Some(ps) =>
      if |ps| == 0 then Err(IndexOutOfRange("patch_size", 0))
      else if |ps| == 1 then Err(IndexOutOfRange("patch_size", 1))
      else Ok(PatchSizeCheck(ps[0], ps[1]))
  }
}
