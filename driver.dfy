/**
 * The `__main__` block of patch_miner.py: normalise the output directory
 * (creating it when absent), insist that the slide exists, build the patch
 * manager and run exactly one of the two mining modes.
 */
module Driver {
  import opened Options
  import opened Geometry
  import opened OutputPath
  import opened Filesystem
  import opened Configuration
  import opened PatchManagement

  /** The parsed command line. `numPatches`, `config` (the path of the
      configuration file) and `threads` are parsed but not used by the
      steps modelled here. */
  datatype Args = Args(
    inputPath: string,
    numPatches: int,
    config: string,
    labelMapPath: Option<string>,
    outputPath: Option<string>,
    outputCsv: Option<string>,
    inputCsv: Option<string>,
    threads: Option<string>)

  /** The collaborators that are not modelled: `os.path.abspath`, the slide
      library and `tissue_mask`. */
  datatype Env = Env(absPath: string -> string, slides: Slides, tissueMask: Thumbnail -> Mask)

  /** Why a run stops: the ValueError for a missing slide, a KeyError or
      IndexError from the configuration, or a ZeroDivisionError of the
      geometry. */
  datatype RunError =
    | SlideNotFound
    | ConfigFailure(configError: ConfigError)
    | GeometryFailure(geometryError: GeometryError)

  datatype Outcome = Completed | Failed(error: RunError)

  /** patch_miner.py:79-90: decide `do_save_patches` and `out_dir`, creating
      the output directory (with its parents) when a path is given and does
      not exist yet. */
  method PrepareOutputDir(outputPath: Option<string>, fs: FileSystem, absPath: string -> string)
    returns (target: OutputTarget)
    modifies fs
    ensures target == OutputTargetFor(outputPath, absPath)
    ensures outputPath.None? ==> fs.existing == old(fs.existing) && fs.log == old(fs.log)
    ensures outputPath.Some? && outputPath.value in old(fs.existing) ==>
              fs.existing == old(fs.existing) && fs.log == old(fs.log) + [Checked(outputPath.value)]
    ensures outputPath.Some? && outputPath.value !in old(fs.existing) ==>
              && fs.existing == old(fs.existing) + {outputPath.value}
              && fs.log == old(fs.log) + [Checked(outputPath.value), Created(outputPath.value)]
  {
    var doSave: bool;
    var outDir: string;
    if outputPath.None? {
      doSave := false;
      outDir := "";
    } else {
      var path := outputPath.value;
      var present := fs.PathExists(path);
      if !present {
        fs.MakeDirs(path);
      }
      doSave := true;
      outDir := absPath(path);
      if !EndsWithSlash(outDir) {
        outDir := outDir + "/";
      }
    }
    target := OutputTarget(doSave, outDir);
  }

  /** The state of a manager fresh from `PatchManager(slide_path)`. */
  ghost predicate Untouched(manager: PatchManager)
    reads manager
  {
    && manager.Valid()
    && manager.validMask == None && manager.labelMap == None
    && manager.criteria == [] && manager.trace == []
  }

  /** How mask-driven mining (patch_miner.py:101-113) leaves the outcome and
      the manager: a missing `scale` or a geometry error leaves the manager
      untouched; otherwise the mask and scale come first, then the label map,
      then the alpha-channel check; a bad `patch_size` stops the run there;
      else the patch-size check is registered and `mine_patches` is called. */
  ghost predicate MaskDrivenEnd(args: Args, cfg: Config, env: Env, outDir: string,
                                outcome: Outcome, manager: PatchManager)
    reads manager
  {
    && (cfg.scale.None? ==>
          outcome == Failed(ConfigFailure(MissingKey("scale"))) && Untouched(manager))
    && (cfg.scale.Some? ==>
          var initial := GenerateInitialMask(env.slides, args.inputPath, cfg.scale.value, env.tissueMask);
          && (initial.Err? ==> outcome == Failed(GeometryFailure(initial.error)) && Untouched(manager))
          && (initial.Ok? ==>
                && manager.validMask == Some(initial.value)
                && manager.labelMap == args.labelMapPath
                && var prefix := [SetValidMask(initial.value.mask, initial.value.scale),
                                  SetLabelMap(args.labelMapPath),
                                  AddPatchCriteria(AlphaChannelCheck)];
                   match PatchSizeCriterion(cfg)
                   case Err(e) =>
                     && outcome == Failed(ConfigFailure(e))
                     && manager.criteria == [AlphaChannelCheck]
                     && manager.trace == prefix
                   case Ok(patchDims) =>
                     && outcome == Completed
                     && manager.criteria == [AlphaChannelCheck, patchDims]
                     && manager.trace == prefix + [AddPatchCriteria(patchDims),
                                                   MinePatches(outDir, args.outputCsv, cfg)]))
  }

  /** Mask-driven mining (patch_miner.py:101-113): build the mask and scale,
      hand them and the label map to the manager, register the alpha-channel
      check and then the patch-size check, and mine. */
  method MineWithMask(args: Args, cfg: Config, env: Env, outDir: string, manager: PatchManager)
    returns (outcome: Outcome)
    requires Untouched(manager)
    modifies manager
    ensures manager.Valid()
    ensures MaskDrivenEnd(args, cfg, env, outDir, outcome, manager)
    ensures outcome.Failed? ==> MiningCalls(manager.trace) == []
    ensures outcome == Completed ==> MiningCalls(manager.trace) == [MinePatches(outDir, args.outputCsv, cfg)]
  {
    var scale := ScaleSetting(cfg);
    if scale.Err? {
      return Failed(ConfigFailure(scale.error));
    }
    var initial := GenerateInitialMask(env.slides, args.inputPath, scale.value, env.tissueMask);
    if initial.Err? {
      return Failed(GeometryFailure(initial.error));
    }
    manager.SetValidMask(initial.value.mask, initial.value.scale);
    manager.SetLabelMap(args.labelMapPath);
    manager.AddPatchCriteria(AlphaChannelCheck);
    var patchDims := PatchSizeCriterion(cfg);
    if patchDims.Err? {
      return Failed(ConfigFailure(patchDims.error));
    }
    manager.AddPatchCriteria(patchDims.value);
    manager.MinePatches(outDir, args.outputCsv, cfg);
    outcome := Completed;
  }

  /** Replay mining (patch_miner.py:115-116): only `save_predefined_patches`,
      with no mask and no criteria. */
  method Replay(inputCsv: string, cfg: Config, outDir: string, manager: PatchManager)
    requires Untouched(manager)
    modifies manager
    ensures manager.Valid()
    ensures manager.validMask == None && manager.labelMap == None && manager.criteria == []
    ensures manager.trace == [SavePredefinedPatches(outDir, inputCsv, cfg)]
    ensures MiningCalls(manager.trace) == manager.trace
  {
    manager.SavePredefinedPatches(outDir, inputCsv, cfg);
  }

  /** The whole driver (patch_miner.py:79-116). `manager` is null exactly when
      the run stopped at the slide-existence check; otherwise it is the
      manager as the run left it, also when a later step raised. */
  method Run(args: Args, cfg: Config, fs: FileSystem, env: Env)
    returns (outcome: Outcome, target: OutputTarget, manager: PatchManager?)
    modifies fs
    // the output directory, and the order of filesystem operations
    ensures target == OutputTargetFor(args.outputPath, env.absPath)
    ensures args.outputPath.None? ==>
              && fs.existing == old(fs.existing)
              && fs.log == old(fs.log) + [Checked(env.absPath(args.inputPath))]
    ensures args.outputPath.Some? && args.outputPath.value in old(fs.existing) ==>
              && fs.existing == old(fs.existing)
              && fs.log == old(fs.log) + [Checked(args.outputPath.value), Checked(env.absPath(args.inputPath))]
    ensures args.outputPath.Some? && args.outputPath.value !in old(fs.existing) ==>
              && fs.existing == old(fs.existing) + {args.outputPath.value}
              && fs.log == old(fs.log) + [Checked(args.outputPath.value), Created(args.outputPath.value),
                                          Checked(env.absPath(args.inputPath))]
    // the slide must exist, or no manager is built
    ensures manager == null <==> env.absPath(args.inputPath) !in fs.existing
    ensures manager == null ==> outcome == Failed(SlideNotFound)
    ensures manager != null ==>
              && fresh(manager) && manager.Valid()
              && manager.slidePath == env.absPath(args.inputPath)
    // replay mode: only save_predefined_patches
    ensures manager != null && args.inputCsv.Some? ==>
              && outcome == Completed
              && manager.validMask == None && manager.labelMap == None && manager.criteria == []
              && manager.trace == [SavePredefinedPatches(target.dir, args.inputCsv.value, cfg)]
    // mask-driven mode: the full state at every stopping point; it completes
    // exactly when scale, the thumbnail and patch_size all succeed, and then
    // the calls come in the order of the source
    ensures manager != null && args.inputCsv.None? ==>
              MaskDrivenEnd(args, cfg, env, target.dir, outcome, manager)
    ensures manager != null && args.inputCsv.None? ==>
              (outcome == Completed <==>
                 && cfg.scale.Some?
                 && GenerateInitialMask(env.slides, args.inputPath, cfg.scale.value, env.tissueMask).Ok?
                 && PatchSizeCriterion(cfg).Ok?)
    ensures manager != null && args.inputCsv.None? && outcome == Completed ==>
              var initial := GenerateInitialMask(env.slides, args.inputPath, cfg.scale.value, env.tissueMask).value;
              var patchDims := PatchSizeCriterion(cfg).value;
              && manager.validMask == Some(initial)
              && manager.labelMap == args.labelMapPath
              && manager.criteria == [AlphaChannelCheck, patchDims]
              && manager.trace == [SetValidMask(initial.mask, initial.scale),
                                   SetLabelMap(args.labelMapPath),
                                   AddPatchCriteria(AlphaChannelCheck),
                                   AddPatchCriteria(patchDims),
                                   MinePatches(target.dir, args.outputCsv, cfg)]
    // the two modes exclude each other: a completed run made exactly one
    // mining call, its last, and which one depends only on input_csv
    ensures outcome.Failed? && manager != null ==> MiningCalls(manager.trace) == []
    ensures outcome == Completed ==>
              && manager != null && |manager.trace| > 0
              && MiningCalls(manager.trace) == [manager.trace[|manager.trace| - 1]]
              && (manager.trace[|manager.trace| - 1].MinePatches? <==> args.inputCsv.None?)
  {
    target := PrepareOutputDir(args.outputPath, fs, env.absPath);
    var slidePath := env.absPath(args.inputPath);
    var found := fs.PathExists(slidePath);
    if !found {
      return Failed(SlideNotFound), target, null;
    }
    manager := new PatchManager(slidePath);
    if args.inputCsv.None? {
      outcome := MineWithMask(args, cfg, env, target.dir, manager);
    } else {
      Replay(args.inputCsv.value, cfg, target.dir, manager);
      outcome := Completed;
    }
  }
}
