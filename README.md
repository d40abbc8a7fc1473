# Optimizer tracing fast path and composable `replicate`, modelled in Dafny

This project models two pieces of PyTorch and proves properties about them.

**The optimizer fast path of TorchDynamo** (`torch/_dynamo/variables/optimizer.py`,
class `OptimizerVariable`). The concrete `_init_group` of an optimizer is not
traced. Instead:

- the symbolic arguments are mapped back to Python values;
- the real method runs (in the model, a function parameter gives its effect);
- the tracer reconciles the result. Every parameter, gradient and state tensor
  gets the source it is reachable through. A constant-match guard is installed
  on the gradient of each parameter that has no gradient. The list arguments
  are extended with handles to the new state.

The model also covers:

- the closure checks on `step`;
- the attribute interception that routes `_init_group` and `step` to `call_method`;
- `wrap_tensor`'s source precedence;
- the graph finalizer that drops the static tensors again.

**The composable `replicate` API** (`torch/distributed/_composable/replicate.py`).

- `replicate` checks `device_id` and records its arguments.
- The first forward pre-hook runs `init` once. `init` walks the module tree.
  It skips fully-sharded and ignored subtrees, drops ignored parameters, and
  collects parameters and their dotted names in lockstep. It then builds DDP
  with `device_id` rewritten into `device_ids`.
- The hook then drains the queue of deferred comm-hook registrations.
- The `DDP` mixin's setters flip `_no_sync` and enqueue hook calls.

Layout:

| file | module | contents |
|---|---|---|
| wrappers.dfy | Wrappers | Option, Result, Outcome |
| sources.dfy | Sources | sources (the access paths guards are built on) and guards |
| variables.dfy | Variables | Python values, parameter groups, optimizer state, symbolic variables, errors |
| optimizer_spec.dfy | OptimizerSpec | the optimizer side as pure functions, and the lemmas about them |
| optimizer.dfy | Optimizer | the concrete optimizer, the tracer, and `OptimizerVariable` as classes whose methods are proved against OptimizerSpec |
| replicate_spec.dfy | ReplicateSpec | the module tree, parameter collection with a path-based reference definition, `device_id` handling |
| replicate.dfy | Replicate | `_ReplicateState`, the `DDP` mixin and `replicate` as classes and methods proved against ReplicateSpec |

Conventions of the model:

- Tensors and parameters are identities (`nat`), because the source compares them with `is` or uses them as dictionary keys.
- Python dicts that iterate in insertion order are sequences of pairs.
- The optimizer state is a sequence of `(param, items)` entries in key order.
- Foreign calls are parameters of the model:
  - `store_global_weakref_by_id` and `module_key_name` are functions held by the `Tracer`;
  - the concrete `_init_group` is the function `initGroup` passed to `CallMethod`;
  - `_get_registry` is the `registry` field of a `Module`.
- `VariableBuilder` assigns the parameter at position `i` of group `g` the source `optimizer.param_groups[g]["params"][i]`. Its realization of the group list, of the state dict and of one state entry per group is recorded as the set `Tracer.realized`.
- Line 211 of optimizer.py tests `if key_index:`, which is Python truthiness. A parameter whose state is the first entry of the state dict (index 0) is therefore never realized, and the scan moves on to the next parameter. The model does the same. `RealizedEntrySpec` states it.
- `update_list_args` pairs only positional arguments. The keyword arguments are passed to it but are not used. The model does the same.

## Model

| member | source | states |
|---|---|---|
| OptimizerSpec.ThrowIfUnsupportedStep | torch/_dynamo/variables/optimizer.py:46-60 | The frame check raises only for `step`, with the closure message, and only when the frame has a non-constant closure; a frame whose `self` is not the optimizer always passes. StepChecksAgree ties it to the call-site test. |
| OptimizerSpec.StepRejected | torch/_dynamo/variables/optimizer.py:114-120 | Definition of the call-site test: a non-constant keyword closure, or a single non-constant positional argument. Its properties are stated by StepChecksAgree and CallDecisionSpec. |
| OptimizerSpec.StepChecksAgree | torch/_dynamo/variables/optimizer.py:46-60 | The check on an inlined `step` frame raises exactly when `call_method` rejects the same call, whether the closure is passed positionally or by keyword. A call without a closure passes both. No function other than `step` is ever rejected. |
| OptimizerSpec.VarGetattr | torch/_dynamo/variables/optimizer.py:127-134 | Only `_init_group` and `step` are intercepted, as attribute handles whose source is `self.source.<name>`. Every other name goes to the inherited lookup. |
| OptimizerSpec.GroupAt | torch/_dynamo/variables/optimizer.py:150 | `param_groups[index]` with Python indexing. An integer in `[-n, n)` gives that group, counting from the end when negative. Any other integer is an IndexError, and a non-integer key is a TypeError. |
| OptimizerSpec.MapArg | torch/_dynamo/variables/optimizer.py:139-152 | Definition of `map_arg` on one argument. MapArgShapes states which shapes map and to what. |
| OptimizerSpec.MapArgShapes | torch/_dynamo/variables/optimizer.py:139-152 | `map_arg` raises ArgMappingException exactly for the unsupported shapes. A constant gives its value, an empty list gives `[]`, and a dict sourced from `<x>.param_groups[i]` gives that group (or Python's indexing error). |
| OptimizerSpec.MapArgsFromSpec | torch/_dynamo/variables/optimizer.py:154 | Mapping the positional arguments succeeds exactly when each one maps. It then keeps their count and order. A failure is the failure of one of them. |
| OptimizerSpec.MapKwargsFromSpec | torch/_dynamo/variables/optimizer.py:155 | As for positional arguments, with the keyword names kept in order. |
| OptimizerSpec.GetPythonArgs | torch/_dynamo/variables/optimizer.py:154-157 | Definition of `get_python_args`: positional arguments, then keyword arguments. GetPythonArgsSpec states its meaning. |
| OptimizerSpec.GetPythonArgsSpec | torch/_dynamo/variables/optimizer.py:136-157 | `get_python_args` succeeds exactly when every argument maps (both directions). It keeps the positional count and the keyword names, each value being what `map_arg` gives. An error comes from some argument. |
| OptimizerSpec.UnsupportedShapeFails | torch/_dynamo/variables/optimizer.py:139-157 | One argument of an unsupported shape, positional or keyword, makes the whole mapping fail: with ArgMappingException, or with an indexing error from another argument. |
| OptimizerSpec.CallDecisionOf | torch/_dynamo/variables/optimizer.py:85-125 | Definition of the decision `call_method` makes before any state changes. CallDecisionSpec states its cases, and CallMethod is proved to follow it. |
| OptimizerSpec.CallDecisionSpec | torch/_dynamo/variables/optimizer.py:85-125 | The fast path runs exactly for `_init_group` calls whose arguments all map. An ArgMappingException falls back to the superclass and never yields a constant. Exactly the `step` calls with a non-constant closure (keyword, or the single positional argument) are rejected. Every other method is delegated. |
| OptimizerSpec.WithCapturable | torch/_dynamo/variables/optimizer.py:75-76 | Definition of a group after `__init__`: an existing "capturable" option becomes True, and nothing is added. PrepareGroups is proved to apply it to every group. |
| OptimizerSpec.GroupParams | torch/_dynamo/variables/optimizer.py:74-79 | The set of tensors `__init__` marks static is exactly the parameters of all groups (both inclusions). |
| OptimizerSpec.RecordParam | torch/_dynamo/variables/optimizer.py:224-239 | Definition of one iteration of the parameter loop. ParamPassSpec states what the loop as a whole does. |
| OptimizerSpec.FoldParams | torch/_dynamo/variables/optimizer.py:224-239 | Definition of one group's parameter loop after its first i parameters. MapGroupParams is proved to compute it. |
| OptimizerSpec.FoldGroups | torch/_dynamo/variables/optimizer.py:224-239 | Definition of the group loop after its first k groups. Its properties are stated by ParamPassSpec. |
| OptimizerSpec.ParamPass | torch/_dynamo/variables/optimizer.py:224-239 | Definition of the provenance after the parameter loop, started from empty maps. ParamPassSpec states its meaning. |
| OptimizerSpec.ParamPassSpec | torch/_dynamo/variables/optimizer.py:224-239 | Starting from empty maps, the parameter loop ends with the following. Every parameter of every group has a source, and that source is a parameter-list position holding it. Every gradient is mapped to the `.grad` source of such a position. Every parameter without a gradient has a constant-match guard on its `.grad` source. No other entry or guard is added. |
| OptimizerSpec.RecordStateItem | torch/_dynamo/variables/optimizer.py:241-254 | Definition of one iteration of the state-dict loop: a tensor item is recorded only when it is in neither map. |
| OptimizerSpec.FoldItems | torch/_dynamo/variables/optimizer.py:241-254 | Definition of the item loop of one state entry. FoldItemsFirst states which source it gives an added tensor. |
| OptimizerSpec.FoldState | torch/_dynamo/variables/optimizer.py:241-254 | Definition of the state-dict loop after its first e entries. CollectStateTensors is proved to compute it. |
| OptimizerSpec.MapSources | torch/_dynamo/variables/optimizer.py:159-254 | Definition of the provenance `map_sources_and_install_guards` leaves. MapSourcesSpec and KnownTensorsKeepTheirSources state its meaning. |
| OptimizerSpec.FoldItemsFirst | torch/_dynamo/variables/optimizer.py:249-254 | Within one state entry, a tensor the item loop adds gets the source of the entry's first item holding it. |
| OptimizerSpec.FoldStateFirst | torch/_dynamo/variables/optimizer.py:241-254 | A tensor the state-dict loop adds gets the source of the first item of the whole state, in entry and item order, that holds it. |
| OptimizerSpec.MapSourcesSpec | torch/_dynamo/variables/optimizer.py:241-254 | The final state-dict pass never overwrites. The gradient map, the guards and every source from the parameter loop are unchanged. A `state[key_idx][k]` source is added only for a tensor in neither map. A tensor the pass adds keeps the source of the first state item holding it, so no later item replaces it (first occurrence wins). Afterwards every tensor held directly in the state is in one of the maps. |
| OptimizerSpec.TensorLeaves | torch/_dynamo/variables/optimizer.py:178 | Definition of the tensors the pytree walk reaches in one state value: a tensor, the leaves of a list, the parameters of a group. |
| OptimizerSpec.StateTensors | torch/_dynamo/variables/optimizer.py:178 | Definition of the tensors the pytree walk reaches in the whole state. MapSourcesAndInstallGuards is proved to mark exactly these as static. |
| OptimizerSpec.KeyIndex | torch/_dynamo/variables/optimizer.py:206-210 | The position of the first state key that is the parameter, or none when no key is. |
| OptimizerSpec.RealizesAt | torch/_dynamo/variables/optimizer.py:205-211 | Definition of the per-parameter test: the parameter has a gradient, and its key index is found and is Python-true (not 0). |
| OptimizerSpec.RealizedEntry | torch/_dynamo/variables/optimizer.py:203-222 | Definition of the state entry realized for one group. RealizedEntrySpec states its meaning, and RealizeGroupState is proved to compute it. |
| OptimizerSpec.RealizedSources | torch/_dynamo/variables/optimizer.py:203-222 | Definition of the state-entry sources realized for the first k groups, one per group at most. MapSourcesAndInstallGuards is proved to record exactly these. |
| OptimizerSpec.RealizedEntrySpec | torch/_dynamo/variables/optimizer.py:203-222 | The entry realized for a group is the key index of the first parameter, from the scan position on, that has a gradient and a Python-true key index. Parameters whose entry is missing or is entry 0 are passed over. Nothing is realized exactly when no parameter qualifies. A realized entry belongs to a parameter of the group with a gradient, and is never entry 0. |
| OptimizerSpec.WrapSource | torch/_dynamo/variables/optimizer.py:266-278 | Definition of the source precedence in `wrap_tensor`: tensor map, then gradient map, then a fresh global weak-ref slot. WrapTensor is proved to build with it. |
| OptimizerSpec.WrapStaticNames | torch/_dynamo/variables/optimizer.py:270-279 | Definition of the static names `wrap_tensor` records: none on the gradient path. |
| OptimizerSpec.WrapMarks | torch/_dynamo/variables/optimizer.py:266-275 | Definition of the tensors `wrap_tensor` marks static: all but those on the gradient path. |
| OptimizerSpec.KnownTensorsKeepTheirSources | torch/_dynamo/variables/optimizer.py:256-282 | After reconciliation, `wrap_tensor` gives no parameter a fresh global slot, and no tensor held directly as a state item. A parameter gets a parameter-list source. A tensor held directly as a state item gets a parameter, gradient or state-item source. A tensor found only inside a list state value is not covered. |
| OptimizerSpec.ListElem | torch/_dynamo/variables/optimizer.py:293-303 | Definition of the handle appended for item i: the wrapped tensor, or a handle with source `arg.source[i]` or none. ExtensionElems and AppendedOnce state what lands in the list. |
| OptimizerSpec.Extension | torch/_dynamo/variables/optimizer.py:291-303 | The handles appended for the first n items, one per item (the contract gives the length). ExtensionElems gives each element. |
| OptimizerSpec.Appended | torch/_dynamo/variables/optimizer.py:286-303 | Definition of what the first k zipped positions append to one list. AppendedOnce, AppendedSingle and AppendedAbsent state its meaning. |
| OptimizerSpec.ProcessedCount | torch/_dynamo/variables/optimizer.py:286-290 | The number of zipped positions processed before the first assertion failure: no position from k up to it fails the list check, and the position where it stops (if inside the zip) fails it. ProcessedCountStops pins the count from 0. |
| OptimizerSpec.AppendedOnce | torch/_dynamo/variables/optimizer.py:286-303 | A list argument at one zipped position is extended by exactly `len(py_arg)` handles, in order. Item i is the wrapped tensor for a tensor; otherwise it is built with source `arg.source[i]`, or with no source when the list has none. |
| OptimizerSpec.AppendedSingle | torch/_dynamo/variables/optimizer.py:286-303 | What the processed positions append to a list that occurs once is exactly the extension by that position's concrete items. |
| OptimizerSpec.ExtensionElems | torch/_dynamo/variables/optimizer.py:291-303 | Element i of the extension is the handle built for item i: the wrapped tensor, or a handle with source `arg.source[i]` or none. |
| OptimizerSpec.AppendedAbsent | torch/_dynamo/variables/optimizer.py:286-287 | A list that occurs at no processed position gets nothing appended. |
| OptimizerSpec.ProcessedCountStops | torch/_dynamo/variables/optimizer.py:286-290 | Processing stops at the first list argument whose concrete value is not a list (the assertion), or runs to the end of the zip. |
| Variables.KwLookup | torch/_dynamo/variables/optimizer.py:116-117 | The keyword argument with a given name, if there is one: found exactly when some binding has the name, and then the value of the first such binding. |
| Optimizer.OptimizerVariable.constructor | torch/_dynamo/variables/optimizer.py:62-83 | Missing maps and name sets start empty. Each group with a "capturable" option gets it set to True, and no option is added elsewhere. Every parameter is marked as a static address. |
| Optimizer.OptimizerVariable.PrepareGroups | torch/_dynamo/variables/optimizer.py:74-79 | The loop of `__init__`: each group gets "capturable" set where it has that option, and the static addresses grow by exactly the groups' parameters. |
| Optimizer.Tracer.MarkStaticAddresses | torch/_dynamo/variables/optimizer.py:78-79 | The static addresses grow by exactly the given parameters. |
| Optimizer.OptimizerVariable.FindKeyIndex | torch/_dynamo/variables/optimizer.py:206-210 | The identity scan over the state keys returns the first matching position, or none. |
| Optimizer.OptimizerVariable.RealizeGroupState | torch/_dynamo/variables/optimizer.py:203-222 | Realizes exactly the entry RealizedEntry names, or none. |
| Optimizer.OptimizerVariable.MapGroupParams | torch/_dynamo/variables/optimizer.py:224-239 | The maps and guards after one group's parameter loop, as the parameter fold describes. |
| Optimizer.OptimizerVariable.CollectStateTensors | torch/_dynamo/variables/optimizer.py:241-254 | The tensor map after the state-dict pass, as the state fold describes. |
| Optimizer.OptimizerVariable.MapSourcesAndInstallGuards | torch/_dynamo/variables/optimizer.py:159-254 | Both maps are rebuilt from empty and the guards extended, as MapSources describes. Every state tensor is marked static. The group list, the state dict and one state entry per group are realized. |
| Optimizer.OptimizerVariable.WrapTensor | torch/_dynamo/variables/optimizer.py:256-282 | A tensor-map hit wins over a gradient-map hit, which wins over a fresh global weak-ref slot. A static name is recorded, and the tensor marked static, on the tensor-map and global-slot paths only. |
| Optimizer.OptimizerVariable.ExtendList | torch/_dynamo/variables/optimizer.py:291-303 | One list argument is extended by its Extension, and the static names and marks grow by what wrapping its tensors adds. |
| Optimizer.OptimizerVariable.UpdateListArgs | torch/_dynamo/variables/optimizer.py:284-303 | The result is true exactly when no zipped list argument is paired with a non-list. Every list argument is extended by what the positions processed before the first mismatch append. The static names and marks grow by what wrapping adds. |
| Optimizer.OptimizerVariable.UpdateListArgsFrom | torch/_dynamo/variables/optimizer.py:286-290 | The loop stops at the first list argument paired with a non-list, or at the end of the zip. The positions before it all pass, and their extensions and wrapping effects are applied. |
| Optimizer.OptimizerVariable.UpdateListArgAt | torch/_dynamo/variables/optimizer.py:287-303 | One position that passes the assertion extends its list argument, leaves every other list alone, and adds its wrapping effect. |
| Optimizer.OptimizerVariable.ClearStaticTensorRefs | torch/_dynamo/variables/optimizer.py:310-316 | Every static name is dropped from the module's buffers and parameters, and absent names are tolerated. The flattened-parameter cache is cleared once at least one name was visited. |
| Optimizer.OptimizerVariable.CallMethod | torch/_dynamo/variables/optimizer.py:85-125 | A rejected, raised or delegated call changes nothing. A fast-path call: installs the new optimizer state; leaves maps, guards, realized sources, static names, marks and list contents as MapSources and the list extension describe; returns the constant, or an AssertionError when a list argument got a non-list. |
| ReplicateSpec.IsFullyShard | torch/distributed/_composable/replicate.py:230-235 | Definition of `_is_fully_sharded`: a registry exists and names "fully_shard". Init is proved to refuse such a module, and CollectedNeverIgnored that it contributes nothing. |
| ReplicateSpec.Skipped | torch/distributed/_composable/replicate.py:37-43 | Definition of the two early returns of `_collect_params`: fully sharded, or an ignored module. |
| ReplicateSpec.RecursePrefix | torch/distributed/_composable/replicate.py:45-47 | Definition of `recurse_prefix`: the prefix followed by "." except at the root. JoinSnoc states what it builds. |
| ReplicateSpec.AllParams | torch/distributed/_composable/replicate.py:81 | Definition of `m.parameters()`: the own parameters of a module and of all its descendants. |
| ReplicateSpec.IgnoredParams | torch/distributed/_composable/replicate.py:81 | Definition of `ignored_params`: every parameter of every ignored module and of its descendants. |
| ReplicateSpec.OwnParams | torch/distributed/_composable/replicate.py:49-52 | A module's own entries are in lockstep, ignored parameters dropped, each named under the recurse prefix. |
| ReplicateSpec.Collected | torch/distributed/_composable/replicate.py:30-60 | Parameters and names are appended in lockstep: the two lists have the same length. |
| ReplicateSpec.ChildrenCollected | torch/distributed/_composable/replicate.py:54-60 | The children's contributions, concatenated in child order, are in lockstep. |
| ReplicateSpec.CollectedNeverIgnored | torch/distributed/_composable/replicate.py:37-52 | A fully-sharded or ignored module contributes nothing, its descendants included. No ignored parameter is ever collected. |
| ReplicateSpec.ChildrenNeverIgnored | torch/distributed/_composable/replicate.py:54-60 | No ignored parameter appears among the children's contributions. |
| ReplicateSpec.JoinSnoc | torch/distributed/_composable/replicate.py:45-47 | `recurse_prefix + n` is the dotted join of the path with `n`: the bare name `n` at the root, otherwise `prefix + "." + n`. |
| ReplicateSpec.EntryIndex | torch/distributed/_composable/replicate.py:49-60 | Definition of the position where own parameter j of the module reached along a child-index path is appended: the non-ignored own parameters of each module on the way first, then the entries of the children before the one followed. It counts with OwnCount and ChildrenCount, without names, because the position does not depend on the prefix. CollectedSound and CollectedComplete are proved to agree with it. |
| ReplicateSpec.CollectedCountIs | torch/distributed/_composable/replicate.py:30-60 | The number of entries `_collect_params` appends for a module does not depend on the prefix: it is the count of non-ignored parameters of the unskipped modules of its tree. |
| ReplicateSpec.CollectedSound | torch/distributed/_composable/replicate.py:30-60 | Every collected entry i is a non-ignored parameter of a module reached through unskipped modules only, named by the dotted path of child names followed by its local name. The (path, parameter) pair it returns has EntryIndex i, so distinct entries come from distinct pairs. |
| ReplicateSpec.CollectedComplete | torch/distributed/_composable/replicate.py:30-60 | Every such parameter is collected under that name, at exactly the position EntryIndex gives it. A module's own parameters come before its children's, and child c's entries lie in c's block, after the blocks of the earlier children. With CollectedSound, the collection is a bijection onto the reachable non-ignored (path, parameter) pairs. |
| ReplicateSpec.ChildEntryCollected | torch/distributed/_composable/replicate.py:54-60 | Every entry of a child's collection reappears in the parent's collection, inside that child's block. |
| ReplicateSpec.RootCollectionSound | torch/distributed/_composable/replicate.py:81-82 | At the root prefix `""`, every entry `init` collects is a reachable non-ignored parameter under its fully qualified name, and its position is that pair's EntryIndex. |
| ReplicateSpec.RootCollectionComplete | torch/distributed/_composable/replicate.py:81-82 | At the root prefix, every reachable non-ignored parameter is the entry at its EntryIndex, under its fully qualified name. With RootCollectionSound, each such pair is collected exactly once. |
| ReplicateSpec.CollectedWithinTree | torch/distributed/_composable/replicate.py:49-60 | Every collected parameter is a parameter of the module's own tree. |
| ReplicateSpec.TypeName | torch/distributed/_composable/replicate.py:195 | Definition of `type(v)` as Python prints it, for each kind of keyword value. |
| ReplicateSpec.DeviceIdMessage | torch/distributed/_composable/replicate.py:193-196 | Definition of the RuntimeError message of the `device_id` check. CheckDeviceId is proved to raise it. |
| ReplicateSpec.CheckDeviceId | torch/distributed/_composable/replicate.py:191-196 | `replicate` fails exactly when `device_id` is present and neither an int (bool included) nor a `torch.device`. The RuntimeError names the value's type. |
| ReplicateSpec.NormalizeDeviceId | torch/distributed/_composable/replicate.py:84-100 | `device_id` is always removed. When it was present: None or a CPU device gives `device_ids` None, and any other value gives `[device_id]`. Every other keyword is kept. |
| ReplicateSpec.CheckedDeviceIds | torch/distributed/_composable/replicate.py:191-196 | After a passed check, `device_ids` is None exactly for a CPU device, and `[device_id]` otherwise. |
| Replicate.ReplicateState.constructor | torch/distributed/_composable/replicate.py:17-28 | The fresh state: nothing initialized, empty lists, sync on, no recorded arguments, no queued hooks, no DDP. |
| Replicate.ReplicateState.CollectOwnParams | torch/distributed/_composable/replicate.py:49-52 | The first loop appends exactly the module's own entries. |
| Replicate.ReplicateState.CollectChildren | torch/distributed/_composable/replicate.py:54-60 | The loop over the children appends exactly their contributions, in child order. |
| Replicate.ReplicateState.CollectParams | torch/distributed/_composable/replicate.py:30-60 | `_collect_params` appends exactly Collected's parameters and names, in lockstep. |
| Replicate.ReplicateState.Init | torch/distributed/_composable/replicate.py:62-104 | A fully-sharded module is refused with the RuntimeError before the once-only check. A second call changes nothing. The first call records the module, collects from the root, and builds a fresh DDP over the collected parameters with the normalised keyword arguments. |
| Replicate.ReplicateState.RegisterCommHook | torch/distributed/_composable/replicate.py:106-110 | Queued calls reach DDP in FIFO order and the queue is emptied. With calls queued and no DDP, `_ddp` is missing and nothing changes. |
| Replicate.ReplicateState.RecordInitArgs | torch/distributed/_composable/replicate.py:112-114 | The recorded arguments are replaced by the new ones. |
| Replicate.ReplicateState.ForwardPreHook | torch/distributed/_composable/replicate.py:116-125 | Recorded arguments run `init` and then `register_comm_hook`, and are then consumed. An init failure changes nothing. Gradient sync is set to `not _no_sync` on every path that reaches DDP. With nothing recorded and no DDP, `_ddp` is missing. |
| Replicate.ReplicateState.ForwardTwice | torch/distributed/_composable/replicate.py:119-124 | After a successful forward the arguments are spent. A second forward succeeds without initialising or collecting again. |
| Replicate.DDP.SetRequiresGradientSync | torch/distributed/_composable/replicate.py:155-165 | `_no_sync` becomes the negation of the flag. |
| Replicate.DDP.RegisterCommHook | torch/distributed/_composable/replicate.py:167-168 | One `(args, kwargs)` entry is appended to the queue. |
| Replicate.Replicate | torch/distributed/_composable/replicate.py:171-220 | The result is the `device_id` check. A failure changes nothing. Otherwise the module and the ignored modules (empty when None) are recorded with the keyword arguments for the first forward. |

## Left out

- Optimizer.OptimizerVariable.CallMethod: the weak reference to the optimizer (lines 101-102) is not modelled. It is a foreign tracer call.
- Optimizer.OptimizerVariable.CallMethod: the graph-finalizer registration (lines 103, 318-320) is not modelled. Only the callback is, as ClearStaticTensorRefs; when the finalizer fires depends on garbage collection.
- Optimizer.OptimizerVariable.CallMethod: GuardInstallException is caught like ArgMappingException, but nothing in the modelled code raises it, so no path of the model produces it.
- Optimizer.OptimizerVariable.CallMethod: exceptions from the concrete `_init_group` are not modelled. It is a foreign call, given as the function `initGroup`.
- `super().call_method` and `super().var_getattr` are foreign. The model returns `DelegatedToSuper` and `InheritedGetattr`.
- Optimizer.OptimizerVariable.MapSourcesAndInstallGuards: the guards that `VariableBuilder` installs while realizing are not modelled. Only which sources were realized is recorded. The source of each parameter handle is taken to be its structural position in the group list.
- Optimizer.OptimizerVariable.MapSourcesAndInstallGuards: the pytree walk is modelled by StateTensors. It looks inside list values and the parameter lists of group values, but not inside the option values of a group.
- Optimizer.OptimizerVariable.UpdateListArgs: `side_effects.mutation(arg)` (line 292) is not modelled. It records a mutation for the tracer's own bookkeeping.
- Optimizer.TorchOptimizer: param groups are values, so the in-place `group["capturable"] = True` of `__init__` is modelled by replacing the group in the optimizer's list. Other references to the same dict are not updated.
- Replicate.ReplicateState.Init: DistributedDataParallel's constructor is foreign. The model records its parameters and keyword arguments, and assumes that it succeeds. The source sets `has_initialized` before that call, so a failure there would leave the flag set without a `_ddp`.
- Replicate.ReplicateState.Init: the `_ddp_weakref` kept for tests (line 104), and the `device_mesh` lookup whose value `init` never uses, are not modelled.
- Replicate.ReplicateState.ForwardPreHook: the call into `DDP._pre_forward` and its return value (line 125) are foreign. The model stops before that call. `forward_post_hook` is not modelled, for the same reason.
- Replicate.ReplicateState.RegisterCommHook: DDP's own `register_comm_hook` validates its arguments. That check is foreign, and the model only appends the call.
- Replicate.ReplicateState.RecordInitArgs: takes exactly the module and the ignored modules that `replicate` passes, instead of arbitrary `*args`. `None` and `()` (both falsy) are one state.
- Replicate.Replicate: the hook registration on the module, the class swap to `DDP<cls>`, the tensor-parallel module transform for a child device mesh, API-usage logging and the `contract` decorator's own checks are not modelled. They are foreign or class machinery.
- Module trees are values with identities. `module in ignored_modules` compares identities. A module's `params` and `children` are what `named_parameters(recurse=False)` and `named_children()` yield. That includes their de-duplication, so a parameter shared by two modules is collected once per module, as in the source.
