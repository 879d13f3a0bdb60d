/**
 * The patch manager as the driver sees it: an object that receives the
 * validity mask and scale, a label map and an append-only list of patch
 * criteria, and then one of two mining entry points. What the entry points do
 * inside the manager is not modelled; the manager records every call in a
 * trace, in order.
 */
module PatchManagement {
  import opened Options
  import opened Geometry
  import opened Configuration

  /** One call of the driver into the manager, with its arguments. */
  datatype Call =
    | SetValidMask(mask: Mask, scale: RealScale)
    | SetLabelMap(labelMapPath: Option<string>)
    | AddPatchCriteria(criterion: Criterion)
    | MinePatches(outDir: string, outputCsv: Option<string>, config: Config)
    | SavePredefinedPatches(outDir: string, patchCoordCsv: string, config: Config)

  /** The two entry points that mine and save patches. */
  predicate IsMiningCall(c: Call)
  {
    c.MinePatches? || c.SavePredefinedPatches?
  }

  /** The criteria registered by a trace, in registration order. */
  function RegisteredCriteria(trace: seq<Call>): (cs: seq<Criterion>)
    ensures |cs| <= |trace|
    ensures forall c :: c in cs <==> AddPatchCriteria(c) in trace
  {
    if trace == [] then []
    else
      var rest := RegisteredCriteria(trace[1..]);
      assert forall c :: AddPatchCriteria(c) in trace <==> AddPatchCriteria(c) == trace[0] || AddPatchCriteria(c) in trace[1..];
      if trace[0].AddPatchCriteria? then [trace[0].criterion] + rest else rest
  }

  /** Appending a call extends the registered criteria by that call's
      criterion, if it registers one, and by nothing else. */
  lemma {:induction false} RegisteredCriteriaAppend(trace: seq<Call>, c: Call)
    ensures RegisteredCriteria(trace + [c])
            == RegisteredCriteria(trace) + (if c.AddPatchCriteria? then [c.criterion] else [])
  {
    if trace != [] {
      assert (trace + [c])[1..] == trace[1..] + [c];
      RegisteredCriteriaAppend(trace[1..], c);
    }
  }

  /** The mining calls of a trace, in order. */
  function MiningCalls(trace: seq<Call>): (ms: seq<Call>)
    ensures |ms| <= |trace|
    ensures forall m :: m in ms <==> m in trace && IsMiningCall(m)
  {
    if trace == [] then []
    else
      var rest := MiningCalls(trace[1..]);
      assert forall m :: m in trace <==> m == trace[0] || m in trace[1..];
      if IsMiningCall(trace[0]) then [trace[0]] + rest else rest
  }

  /** Appending a call extends the mining calls by that call, if it mines. */
  lemma {:induction false} MiningCallsAppend(trace: seq<Call>, c: Call)
    ensures MiningCalls(trace + [c]) == MiningCalls(trace) + (if IsMiningCall(c) then [c] else [])
  {
    if trace != [] {
      assert (trace + [c])[1..] == trace[1..] + [c];
      MiningCallsAppend(trace[1..], c);
    }
  }

  /** `opm.patch_manager.PatchManager`, reduced to the state the driver sets. */
  class PatchManager {
    const slidePath: string
    /** The validity mask and realised scale, once set. */
    var validMask: Option<InitialMask>
    /** The label-map path last given, `None` when none was. */
    var labelMap: Option<string>
    /** The registered criteria, in registration order. */
    var criteria: seq<Criterion>
    /** Every call received, oldest first. */
    var trace: seq<Call>

    /** The criteria list is exactly what the recorded calls registered. */
    ghost predicate Valid()
      reads this
    {
      criteria == RegisteredCriteria(trace)
    }

    /** `PatchManager(slide_path)`: nothing set, nothing registered. */
    constructor (slidePath: string)
      ensures Valid()
      ensures this.slidePath == slidePath
      ensures validMask == None && labelMap == None && criteria == [] && trace == []
    {
      this.slidePath := slidePath;
      validMask := None;
      labelMap := None;
      criteria := [];
      trace := [];
    }

    /** `set_valid_mask(mask, scale)`. */
    method SetValidMask(mask: Mask, scale: RealScale)
      requires Valid()
      modifies this
      ensures Valid()
      ensures validMask == Some(InitialMask(mask, scale))
      ensures labelMap == old(labelMap) && criteria == old(criteria)
      ensures trace == old(trace) + [Call.SetValidMask(mask, scale)]
      ensures MiningCalls(trace) == MiningCalls(old(trace))
    {
      RegisteredCriteriaAppend(trace, Call.SetValidMask(mask, scale));
      MiningCallsAppend(trace, Call.SetValidMask(mask, scale));
      validMask := Some(InitialMask(mask, scale));
      trace := trace + [Call.SetValidMask(mask, scale)];
    }

    /** `set_label_map(label_map_path)`; the path may be `None`. */
    method SetLabelMap(path: Option<string>)
      requires Valid()
      modifies this
      ensures Valid()
      ensures labelMap == path
      ensures validMask == old(validMask) && criteria == old(criteria)
      ensures trace == old(trace) + [Call.SetLabelMap(path)]
      ensures MiningCalls(trace) == MiningCalls(old(trace))
    {
      RegisteredCriteriaAppend(trace, Call.SetLabelMap(path));
      MiningCallsAppend(trace, Call.SetLabelMap(path));
      labelMap := path;
      trace := trace + [Call.SetLabelMap(path)];
    }

    /** `add_patch_criteria(criterion)`: appends, never reorders or drops. */
    method AddPatchCriteria(criterion: Criterion)
      requires Valid()
      modifies this
      ensures Valid()
      ensures criteria == old(criteria) + [criterion]
      ensures validMask == old(validMask) && labelMap == old(labelMap)
      ensures trace == old(trace) + [Call.AddPatchCriteria(criterion)]
      ensures MiningCalls(trace) == MiningCalls(old(trace))
    {
      RegisteredCriteriaAppend(trace, Call.AddPatchCriteria(criterion));
      MiningCallsAppend(trace, Call.AddPatchCriteria(criterion));
      criteria := criteria + [criterion];
      trace := trace + [Call.AddPatchCriteria(criterion)];
    }

    /** `mine_patches(out_dir, output_csv=..., config=...)`: what it mines
        is not modelled; only the call is recorded. */
    method MinePatches(outDir: string, outputCsv: Option<string>, config: Config)
      requires Valid()
      modifies this
      ensures Valid()
      ensures validMask == old(validMask) && labelMap == old(labelMap) && criteria == old(criteria)
      ensures trace == old(trace) + [Call.MinePatches(outDir, outputCsv, config)]
      ensures MiningCalls(trace) == MiningCalls(old(trace)) + [Call.MinePatches(outDir, outputCsv, config)]
    {
      RegisteredCriteriaAppend(trace, Call.MinePatches(outDir, outputCsv, config));
      MiningCallsAppend(trace, Call.MinePatches(outDir, outputCsv, config));
      trace := trace + [Call.MinePatches(outDir, outputCsv, config)];
    }

    /** `save_predefined_patches(out_dir, patch_coord_csv=..., config=...)`:
        the replay of a coordinate list; only the call is recorded. */
    method SavePredefinedPatches(outDir: string, patchCoordCsv: string, config: Config)
      requires Valid()
      modifies this
      ensures Valid()
      ensures validMask == old(validMask) && labelMap == old(labelMap) && criteria == old(criteria)
      ensures trace == old(trace) + [Call.SavePredefinedPatches(outDir, patchCoordCsv, config)]
      ensures MiningCalls(trace)
              == MiningCalls(old(trace)) + [Call.SavePredefinedPatches(outDir, patchCoordCsv, config)]
    {
      RegisteredCriteriaAppend(trace, Call.SavePredefinedPatches(outDir, patchCoordCsv, config));
      MiningCallsAppend(trace, Call.SavePredefinedPatches(outDir, patchCoordCsv, config));
      trace := trace + [Call.SavePredefinedPatches(outDir, patchCoordCsv, config)];
    }
  }
}
