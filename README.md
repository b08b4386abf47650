# Multi-input model composition and test-run resolution

This project models two command-line tools of a Mask R-CNN detection
framework.

**Composition (`tools/create_multi_input_model.py`).** The tool takes N
single-input checkpoints and builds one multi-input model. Each checkpoint is a
dict from dotted parameter paths to tensors. Checkpoint `i` fills backbone slot
`i` of the body muxer with its `Conv_Body*` parameters, with the first path
segment stripped. Only the checkpoint at `--head-weights-index` fills the head
submodules: each of its other keys is split at the first `.` into a child name
and a child key. Then, if the muxer is a `BodyMuxer_ConcatenateConv`, its
selection conv is set to pass through the head-weights backbone. The state is
saved under the key `model`.

The model has these parts:
- `ParamKeys` holds the prefix test, `split('.', 1)` and its inverse join.
- `Partition` holds the body dict comprehension and the head partition, as a
  function and as the loop method `PartitionHeads`.
- `Assembly` holds the model as the class `MultiInputModel`, with an array of
  backbone state dicts, a map of head children and the select index. It also
  holds the script as the method `Compose`. `Compose` is proved equal to the
  pure specification `ComposeSpec`, and the lemmas about `ComposeSpec` state
  slot ownership, head ownership and the exact success condition.

**Test-run resolution (`tools/test_net.py`).** Before inference, the script
checks that the device mode and the checkpoint flags are consistent. It
derives the default output directory from the checkpoint path. It maps
`--dataset` to `TEST.DATASETS` and class count, and applies the
moving-object override. `TestNet` models this as pure functions over an
explicit argument record and config record, with `os.path.dirname` and
`os.path.join` written out on strings. A segment-list view of paths is the
reference those string functions are proved against.

In these places the model follows the code where a reader might expect otherwise:
- The body test is a raw prefix test (`Conv_Body_x.w` is a body key), not a
  test on the first path segment. `ParamKeys.PrefixTestCollision` states
  this.
- The script never checks the checkpoint count against the number of bodies.
  Too many checkpoints fail only on indexing `bodies[i]`, and too few leave the
  remaining slots untouched.
- There is no range check on the head-weights index. An index outside
  `[0, N)` loads no head at all, and the select-index hook still receives it.
- An empty head partition on the designated checkpoint is not an error.
- Only the head children named by the designated checkpoint are loaded. A
  child that checkpoint does not name keeps its initial weights
  (`Assembly.AssembleResult`: the children are the initial ones overridden by
  the partition).
- Without `--dataset`, `test_net.py` always fails. Either the assertion on an
  empty `TEST.DATASETS` fires, or the substring test is applied to `None`.

## Model

| member | source | states |
|---|---|---|
| `ParamKeys.FirstDot` | tools/create_multi_input_model.py:63 | the index found holds the first '.' (none before it); None exactly when the key has no '.' |
| `ParamKeys.SplitChild` | tools/create_multi_input_model.py:73 | the two-way unpack succeeds iff the key has a '.'; the child name is dot-free and `child + "." + child_key` rebuilds the key |
| `ParamKeys.BodySubKey` | tools/create_multi_input_model.py:63 | `split('.', 1)[-1]` is what follows the first segment, or the whole key when there is no '.' |
| `ParamKeys.IsBodyKey` | tools/create_multi_input_model.py:64-71 | a key belongs to the backbone exactly when its text starts with `Conv_Body`; the same raw prefix test picks body entries and skips them in the head loop |
| `ParamKeys.SplitJoin` | tools/create_multi_input_model.py:73-75 | splitting `child.childKey` gives back (child, childKey) for a dot-free child |
| `ParamKeys.JoinInjective` | tools/create_multi_input_model.py:73-75 | distinct (child, childKey) pairs with dot-free children name distinct paths, so each head key has exactly one slot |
| `ParamKeys.SplitInjective` | tools/create_multi_input_model.py:73-74 | two keys with the same split are the same key |
| `ParamKeys.HeadChildIsNotBody` | tools/create_multi_input_model.py:71-78 | the child name of a head key never starts with `Conv_Body`, so the child lookup never reaches the backbone |
| `ParamKeys.BodySubKeyInjective` | tools/create_multi_input_model.py:62-65 | for keys whose first segment is exactly `Conv_Body`, stripping it is injective |
| `ParamKeys.PrefixTestCollision` | tools/create_multi_input_model.py:62-65 | the raw prefix test routes every `Conv_Body<extra>.k` to the body under sub-key `k`, the same sub-key as `Conv_Body.k` |
| `Partition.BodyStateDict` | tools/create_multi_input_model.py:62-65 | the backbone dict: every entry that passes the prefix test, under its stripped sub-key, later entries overwriting earlier ones |
| `Partition.BodyStateDictKeys` | tools/create_multi_input_model.py:62-65 | the body dict has a sub-key exactly when some `Conv_Body`-prefixed entry strips to it |
| `Partition.BodyStateDictValue` | tools/create_multi_input_model.py:62-65 | each sub-key holds the tensor of the last body entry that strips to it |
| `Partition.AddHeadEntry` | tools/create_multi_input_model.py:70-75 | one loop step: a body key is skipped, a head key without '.' fails the unpack, a repeated (child, child_key) fails the assertion, otherwise the tensor goes under its child, which joins the order when first met |
| `Partition.HeadPartition` | tools/create_multi_input_model.py:69-75 | the loop over the entries in order, stopping at the first failure: the per-child dicts and the order the children were first met |
| `Partition.PartitionHeads` | tools/create_multi_input_model.py:69-75 | the loop over the entries builds exactly the head partition, or stops with its first error |
| `Partition.HeadPartitionErrSticks` | tools/create_multi_input_model.py:70-75 | an error on a prefix of the entries is the error of the whole loop |
| `Partition.HeadPartitionWellFormed` | tools/create_multi_input_model.py:69-77 | children are listed once each in first-insertion order, and are dot-free names other than `Conv_Body` |
| `Partition.HeadPartitionSound` | tools/create_multi_input_model.py:70-75 | every `children_state_dicts[child][child_key]` comes from a non-body entry whose key is `child.child_key`, with that entry's tensor |
| `Partition.HeadPartitionComplete` | tools/create_multi_input_model.py:70-75 | every non-body entry lands under its split with its own tensor |
| `Partition.HeadPartitionErrors` | tools/create_multi_input_model.py:73-74 | a failure is either a head key without '.' or two entries with the same path |
| `Partition.HeadPartitionOkIff` | tools/create_multi_input_model.py:73-74 | for unique keys, the partition succeeds iff every head key has a '.': the duplicate assertion never fires |
| `Partition.EveryKeyRouted` | tools/create_multi_input_model.py:62-75 | body and head entries are split by one test; every body key's sub-key is in the body dict, holding that entry's tensor when it is the last body entry with that sub-key; every head key lands under its split with its tensor |
| `Assembly.LoadChildren` | tools/create_multi_input_model.py:77-78 | strict loading of each listed child in order: KeyError for a child the model lacks, a mismatch for different parameter names, else that child's dict is replaced |
| `Assembly.LoadHeads` | tools/create_multi_input_model.py:68-78 | the designated checkpoint's head partition, then the loading of every child it names; the first failure of either is the result |
| `Assembly.AssembleSlot` | tools/create_multi_input_model.py:60-78 | one iteration for checkpoint `i`: IndexError past the last slot, a mismatch for different body names, else slot `i` takes the body dict and, at the head-weights index only, the heads are loaded |
| `Assembly.Assemble` | tools/create_multi_input_model.py:60-78 | the iterations over the checkpoints in order, stopping at the first failure |
| `Assembly.PostAssembly` | tools/create_multi_input_model.py:80-84 | the hook: a `BodyMuxer_ConcatenateConv` gets the head-weights index as its select index; any other muxer leaves the state as it is |
| `Assembly.ComposeSpec` | tools/create_multi_input_model.py:60-89 | for one or more checkpoints: the assembly's first failure, or `{'model': state}` with the hook applied to the assembled state |
| `Assembly.LoadChildrenResult` | tools/create_multi_input_model.py:77-78 | loading succeeds iff every listed child exists with the same parameter names; then exactly the listed children are replaced |
| `Assembly.LoadHeadsResult` | tools/create_multi_input_model.py:68-78 | head loading succeeds iff the partition succeeds and fits the children, and then the children are overwritten by the partition |
| `Assembly.AssembleResult` | tools/create_multi_input_model.py:60-78 | slot `j` holds exactly checkpoint `j`'s body dict, later slots are untouched, and the children come from the head-weights checkpoint alone (none if the index is out of range) |
| `Assembly.AssembleOkIff` | tools/create_multi_input_model.py:60-78 | the assembly succeeds iff the checkpoints fit in the slots, each body dict matches its slot, and an in-range head checkpoint partitions and fits |
| `Assembly.OnlyHeadCheckpointSuppliesHeads` | tools/create_multi_input_model.py:68-78 | the result depends on the other checkpoints only through their body dicts |
| `Assembly.AssembledStateReloads` | tools/create_multi_input_model.py:60-78 | the assembled state has as many slots as the model and the same children, each with its original parameter names, so it loads back strictly into a model of the same configuration |
| `Assembly.SavedCheckpoint` | tools/create_multi_input_model.py:80-89 | the saved object has the single key `model`; its slots are the checkpoints' body dicts and then the initial ones, its children are the initial ones overridden by the head-weights checkpoint's partition, and the select index is the head-weights index exactly for `BodyMuxer_ConcatenateConv` |
| `Assembly.MultiInputModel.constructor` | tools/create_multi_input_model.py:55 | a fresh model holds the given slot and child state and no select index |
| `Assembly.MultiInputModel.LoadBody` | tools/create_multi_input_model.py:66 | IndexError past the last slot, a key mismatch under strict loading, else only slot `i` changes |
| `Assembly.MultiInputModel.LoadChild` | tools/create_multi_input_model.py:78 | KeyError for an unknown child, a key mismatch under strict loading, else only that child changes |
| `Assembly.MultiInputModel.InitConvSelectIndex` | tools/create_multi_input_model.py:84 | the selection conv is set to pick the given backbone |
| `Assembly.MultiInputModel.PostAssemblyHook` | tools/create_multi_input_model.py:80-84 | the hook runs with the head-weights index iff the muxer is `BodyMuxer_ConcatenateConv`; nothing else changes |
| `Assembly.LoadChildrenInOrder` | tools/create_multi_input_model.py:77-78 | the loop over the children yields exactly the child-loading specification, or its first error |
| `Assembly.LoadHeadWeights` | tools/create_multi_input_model.py:68-78 | partitioning then loading each child gives exactly the head-loading specification |
| `Assembly.Compose` | tools/create_multi_input_model.py:60-89 | the script's loops yield exactly `ComposeSpec`: the saved `{'model': state}` or the first error; on success the saved state is the model's own state after the hook |
| `TestNet.CheckpointPath` | tools/test_net.py:77 | `load_ckpt` when it is truthy, else `load_detectron` |
| `TestNet.Dirname` | tools/test_net.py:79 | posixpath `dirname`: the text up to the last '/', without trailing slashes unless only slashes remain |
| `TestNet.PathJoin` | tools/test_net.py:78 | posixpath `join` of two parts: an absolute second part replaces the first, else a '/' is put between them unless the first is empty or ends in '/' |
| `TestNet.DefaultOutputDir` | tools/test_net.py:78-79 | `test` joined to the checkpoint path's `dirname` taken twice |
| `TestNet.SelectDataset` | tools/test_net.py:118-145 | the if/elif chain: each known name sets `TEST.DATASETS` (and the class count for the two COCO detection names), any other name raises ValueError, and no name asserts that `TEST.DATASETS` is non-empty |
| `TestNet.ApplyMovingObjectOverride` | tools/test_net.py:147-150 | a name containing flyingthings, fbms or davis gets zero pixel means, two classes and JSON evaluation; other names change nothing; no name raises TypeError |
| `TestNet.ResolveDatasetConfig` | tools/test_net.py:118-150 | the dataset selection, then the override on its result |
| `TestNet.ResolveTestRun` | tools/test_net.py:71-150 | the device assertion, the checkpoint-flag assertion, the output directory, then the dataset resolution, in that order; the first failure is the result |
| `TestNet.DirnameDropsLastSegment` | tools/test_net.py:79 | `os.path.dirname` removes the last segment of a relative or absolute path |
| `TestNet.PathJoinAppendsSegment` | tools/test_net.py:78-79 | `os.path.join(p, 'test')` appends `test` as one more segment |
| `TestNet.DefaultOutputDirOfSegments` | tools/test_net.py:78-79 | the default output directory replaces the checkpoint path's last two segments by `test` |
| `TestNet.SelectDatasetMatchesTable` | tools/test_net.py:118-143 | the if/elif chain accepts exactly the names in the dataset table, with the tuple listed for each; any other name raises ValueError |
| `TestNet.MovingObjectNames` | tools/test_net.py:147 | among the known names, the flyingthings/fbms/davis substring test holds for all but the three COCO names |
| `TestNet.DatasetResolution` | tools/test_net.py:118-150 | known names give their tuple; coco2017 gives 81 classes and coco_2017_objectness gives 2; keypoints keeps the class count; moving-object names force 2 classes, zero pixel means and JSON eval |
| `TestNet.NoDatasetFails` | tools/test_net.py:144-147 | with no dataset, the run fails: the assertion on empty datasets, else the substring test on None |
| `TestNet.TestRunChecks` | tools/test_net.py:71-80 | the run passes iff the device/multi-GPU XOR holds, exactly one checkpoint flag is truthy and the dataset resolves; the output directory is automatic exactly when none was given |
| `TestNet.AutomaticOutputDir` | tools/test_net.py:75-80 | with no output directory, the results go to the grandparent directory of the checkpoint plus `test` |

## Left out

- Checkpoint loading (`torch.load`) and saving (`torch.save`) are left out. The loaded `['model']` dict is an input, and the saved object is the method's result.
- Tensors are opaque. Strict `load_state_dict` is modelled on parameter names only. Shape checks and the partial copy PyTorch makes before raising are not modelled, because nothing is saved after a failure.
- `Generalized_RCNN` construction, config-file merging, `assert_and_infer_cfg`, argparse and logging are external. The model's initial slot and child state is a constructor argument.
- The numerics of `init_conv_select_index_` are left out. Only whether it runs, and with which index, is recorded.
- `model.state_dict()` is modelled as the structured state (slots, children, select index). Flattening it into dotted names is not modelled.
- In `tools/test_net.py` these are left out, as I/O or external configuration: the CUDA availability exit, `os.makedirs`, logging, the `save_git_state.sh` call, OpenCV OpenCL, `cfg.VIS`, pickle/YAML config merging, `assert_and_infer_cfg` and `run_inference`. The device count is a parameter.
- Without `--body-checkpoints`, argparse leaves `None` and `enumerate` at line 60 raises TypeError. `Assembly.Compose` and `Assembly.ComposeSpec` require one or more checkpoints, which `nargs='+'` guarantees whenever the flag is given, so that TypeError is not modelled.
- After a failure, the model's state is not specified. `Assembly.Compose`, `Assembly.LoadHeadWeights` and `Assembly.LoadChildrenInOrder` promise only the error returned. The slots and children loaded before the failure stay loaded, but nothing is saved.
- `PIXEL_MEANS` is modelled as a flat sequence of three reals, not a 1×1×3 array.
