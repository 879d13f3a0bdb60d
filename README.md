# patch_miner: thumbnail scale mapping, output directory and mode dispatch

A Dafny model of the driver of the Open Patch Miner (`patch_miner.py`). OPM
extracts fixed-size patches from whole-slide microscopy images. This file
holds three pieces of its logic, and the model covers all three:

- **Thumbnail-size and scale mapping** (`generate_initial_mask`). The slide's
  full-resolution `(W, H)` is floor-divided by the configured `scale` to get
  the thumbnail size to ask for. The realised scale factor `(sx, sy)` is then
  recomputed from the shape of the numpy array actually returned: width from
  `shape[1]`, height from `shape[0]`. The mask is the tissue mask of that
  thumbnail.
- **Output-directory normalisation.** With no output path, saving is off and
  `out_dir` is `""`. Otherwise the directory is created when it is missing,
  and `out_dir` is its absolute path with a trailing `/` added only when it
  has none.
- **Mode dispatch.** The slide must exist, or the run stops before a patch
  manager is built. Then exactly one mode runs:
  - mask-driven: mask and scale, label map, `alpha_channel_check`, then
    `patch_size_check` bound to `(patch_size[0], patch_size[1])`, then
    `mine_patches`;
  - replay, when `input_csv` is given: only `save_predefined_patches`.

Modules, leaf first:

- `Options`: `Option` and `Result`.
- `Geometry`: Python floor division, the requested size, the realised scale,
  and `GenerateInitialMask`.
- `OutputPath`: the trailing-slash rule and `OutputTargetFor`.
- `Filesystem`: a class holding the set of existing paths and a log of the
  checks and directory creations, in order.
- `Configuration`: the `scale` and `patch_size` lookups and the `Criterion`
  values.
- `PatchManagement`: class `PatchManager`. It records the mask and scale, the
  label map, an append-only criteria list and a trace of every call. Its
  invariant is that the criteria list is exactly what the trace registered.
- `Driver`: the `__main__` block as methods whose postconditions give the
  resulting filesystem state, the output target, the manager state and the
  trace.

The collaborators are parameters, not models:

- `os.path.abspath` is a function `string -> string`;
- the slide library is a pair of functions (dimensions of a path, thumbnail
  of a path at a size);
- `tissue_mask` is a function from thumbnails to masks;
- the filesystem is the `FileSystem` object.

Details of the code that the model keeps:

- `W // scale` raises only for `scale == 0`. A negative scale floor-divides
  to a negative size, which reaches the renderer unchecked.
- The code raises ZeroDivisionError at two places: the floor division by
  the scale (line 38), and the division by an empty thumbnail side
  (line 39). The model keeps both (`ScaleIsZero`, `EmptyThumbnail`).
- `cfg['patch_size']` is read only after the mask, the label map and the
  alpha check have reached the manager. So a missing or too short
  `patch_size` stops the run with the manager partly set up. `MineWithMask`
  states that state.
- The slide-existence check looks at `abspath(input_path)` on the filesystem
  as it is after the output directory was created. `generate_initial_mask`
  opens the raw `input_path`.
- `do_save_patches`, `num_patches` and `threads` are computed or parsed but
  not used by any step of this file.

## Model

| member | source | states |
|---|---|---|
| `Geometry.FloorDiv` | patch_miner.py:38 | Python `a // b` for a non-zero divisor: for `b > 0`, `q*b <= a < q*b + b`; for `b < 0`, the mirrored bounds |
| `Geometry.FloorDivIsFloorOfQuotient` | patch_miner.py:38 | `a // b` is the floor of the exact quotient `a / b`, for either sign of `b` |
| `Geometry.RequestedSize` | patch_miner.py:38 | the requested size fails exactly when `scale == 0`, and each side is then the floor of the exact quotient `dim / scale` |
| `Geometry.RequestedSizeWithinSlide` | patch_miner.py:38 | for `scale >= 1` each requested side `t` satisfies `t*scale <= dim < (t+1)*scale`, so `0 <= t <= dim` |
| `Geometry.ShapeOf` | patch_miner.py:39 | numpy `.shape` of the thumbnail: the row count is `shape[0]`, and on a rectangular array every row has `shape[1]` entries |
| `Geometry.RealisedScale` | patch_miner.py:39 | defined exactly when both thumbnail sides are non-zero, then `cols * sx == W` and `rows * sy == H`, with width from `shape[1]` and height from `shape[0]` |
| `Geometry.ScaleAtLeastOne` | patch_miner.py:39 | `sx >= 1` iff the thumbnail width is at most `W`, and `sy >= 1` iff its height is at most `H` |
| `Geometry.ConfiguredScaleExactOnlyWhenDivisible` | patch_miner.py:38-39 | when the thumbnail has exactly the requested width, the realised `sx` equals the configured `scale` iff `scale` divides `W`, so `(scale, scale)` would drift otherwise |
| `Geometry.GenerateInitialMask` | patch_miner.py:26-41 | `scale == 0` fails first; otherwise it fails iff the thumbnail rendered at the requested size has an empty side; on success the mask is the tissue mask of that thumbnail and the scale is the one realised from its shape, hence spans the slide exactly |
| `Geometry.MaskSpansSlide` | patch_miner.py:39-41 | with a shape-preserving tissue detector, the returned scale is the one realised from the mask's own shape |
| `OutputPath.EndsWithSlash` | patch_miner.py:89 | `str.endswith("/")`: true exactly when the string is non-empty and is its prefix followed by `/` |
| `OutputPath.WithTrailingSlash` | patch_miner.py:89-90 | the result ends with `/`, extends its input by at most one character, and is the input itself when that already ends with `/` |
| `OutputPath.WithTrailingSlashIsShortest` | patch_miner.py:89-90 | no extension of the input that ends with `/` is shorter than the result |
| `OutputPath.WithTrailingSlashIdempotent` | patch_miner.py:89-90 | adding the slash twice equals adding it once |
| `OutputPath.OutputTargetFor` | patch_miner.py:79-90 | saving is off iff no output path is given, and then the directory is `""`; otherwise the directory ends with `/`, extends `abspath(path)` by at most one character, and is `abspath(path)` itself when that already ends with `/` |
| `OutputPath.OutputTargetStable` | patch_miner.py:88-90 | a directory that already ends with `/` is normalised to itself, whether `abspath` keeps its trailing slash or strips it |
| `Filesystem.FileSystem.PathExists` | patch_miner.py:83 | `os.path.exists`: answers membership, changes no path, logs the check |
| `Filesystem.FileSystem.MakeDirs` | patch_miner.py:85 | after `mkdir(parents=True, exist_ok=True)` the path exists and nothing else changed; the creation is logged |
| `Configuration.ScaleSetting` | patch_miner.py:103 | `cfg['scale']` gives the configured value, or a KeyError for `scale` when it is absent |
| `Configuration.PatchSizeCriterion` | patch_miner.py:110 | succeeds iff `patch_size` is present with at least two entries and binds height to entry 0 and width to entry 1; otherwise KeyError, or IndexError at the first missing index |
| `PatchManagement.RegisteredCriteria` | patch_miner.py:108-111 | the criteria a trace registered: exactly the criteria of its registration calls, no more than the trace has calls |
| `PatchManagement.RegisteredCriteriaAppend` | patch_miner.py:108-111 | appending a call extends the registered criteria by that call's criterion only, in order |
| `PatchManagement.MiningCalls` | patch_miner.py:113-116 | exactly the calls of the trace that are `mine_patches` or `save_predefined_patches` |
| `PatchManagement.MiningCallsAppend` | patch_miner.py:113-116 | appending a call extends the mining calls by that call only when it mines |
| `PatchManagement.PatchManager.constructor` | patch_miner.py:98 | a new manager for the slide path has no mask, no label map, no criteria and an empty trace |
| `PatchManagement.PatchManager.SetValidMask` | patch_miner.py:104 | the manager holds the mask and scale; nothing else changes; the call is appended to the trace |
| `PatchManagement.PatchManager.SetLabelMap` | patch_miner.py:105 | the manager holds the given label-map path, possibly `None`; nothing else changes |
| `PatchManagement.PatchManager.AddPatchCriteria` | patch_miner.py:108-111 | the criteria list grows by the criterion at its end and is otherwise unchanged; the invariant ties it to the trace |
| `PatchManagement.PatchManager.MinePatches` | patch_miner.py:113 | records one mining call with `out_dir`, `output_csv` and the config; no other state changes |
| `PatchManagement.PatchManager.SavePredefinedPatches` | patch_miner.py:116 | records one replay call with `out_dir`, the coordinate CSV and the config; no other state changes |
| `Driver.PrepareOutputDir` | patch_miner.py:79-90 | `(do_save_patches, out_dir)` is `OutputTargetFor`; the directory is checked, and created only when a path is given and absent |
| `Driver.MineWithMask` | patch_miner.py:101-113 | a missing `scale` or a geometry error leaves the manager untouched; otherwise mask and scale, label map, then alpha check; a bad `patch_size` stops there; else the criteria are `[alpha, patch_size(h, w)]` and `mine_patches` is the last and only mining call |
| `Driver.Replay` | patch_miner.py:115-116 | no mask, no label map, no criteria; `save_predefined_patches` is the only call |
| `Driver.Run` | patch_miner.py:79-116 | filesystem changes and their order (output check, creation, then slide check); no manager iff the slide is missing, which fails the run; in mask-driven mode the full manager state at every stopping point, completion iff `scale`, the thumbnail and `patch_size` all succeed, and then the five calls in source order; in replay mode only `save_predefined_patches`; a completed run made exactly one mining call, its last, which is `mine_patches` iff no `input_csv` was given |

## Left out

- The slide library (`openslide.open_slide`, `slide.dimensions`, `get_thumbnail`): a parameter. Its aspect-ratio fitting of the thumbnail is not modelled, so the thumbnail shape is whatever the parameter returns.
- `tissue_mask`, `alpha_channel_check`, `patch_size_check`: their pixel logic is in `opm.utils`, which is not part of this model. The mask is what the `tissueMask` parameter returns; a criterion is named by which check it is and its bound arguments.
- The criteria chain's evaluation, `mine_patches`, `save_predefined_patches`, sampling, saturation for `num_patches == -1`, and threading all live inside `PatchManager`, which is not part of this model. The manager only records the calls it receives.
- `os.path.abspath`: a parameter. `os.path.exists` and `mkdir` act on a set of path strings. Two spellings of the same file are two paths, and `mkdir(parents=True)` is modelled as making only the given path exist, not its ancestors.
- argparse, YAML loading (`open(args.config)` and `yaml.load`), `time`, `print`, `Image.MAX_IMAGE_PIXELS` and warning suppression: process plumbing. The loaded configuration is a parameter. Only its `scale` and `patch_size` keys are modelled; it is forwarded whole to the manager.
- Python float arithmetic in `real_scale`: the model uses exact `real` division, so `cols * sx == W` holds exactly rather than up to rounding.
- `Filesystem.FileSystem.MakeDirs`: never fails, so errors of `mkdir` (PermissionError, or FileExistsError and NotADirectoryError when a component of the path is a file) are not modelled.
- `Configuration.Config`: `scale` is an integer, so a non-integer YAML `scale`, for which Python's `//` gives a float, is not modelled.
