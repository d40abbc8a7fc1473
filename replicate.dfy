/**
 * The state machine of the composable `replicate` API
 * (torch/distributed/_composable/replicate.py): the per-module
 * `_ReplicateState`, the `DDP` mixin's two setters, and `replicate` itself.
 */
module Replicate {
  import opened Wrappers
  import opened ReplicateSpec

  /** One deferred `register_comm_hook(*args, **kwargs)` call. */
  datatype HookCall = HookCall(args: seq<KwValue>, kwargs: Kwargs)

  /** The positional arguments `replicate` records for the deferred `init`. */
  datatype InitArgs = InitArgs(root: Module, ignoredModules: seq<Module>)

  /** What the model keeps of a DistributedDataParallel instance. */
  class DistributedDataParallel {
    const params: seq<ParamId>
    const kwargs: Kwargs
    var commHooks: seq<HookCall>
    var requireBackwardGradSync: bool

    constructor (params: seq<ParamId>, kwargs: Kwargs)
      ensures this.params == params && this.kwargs == kwargs
      ensures commHooks == [] && requireBackwardGradSync
    {
      this.params := params;
      this.kwargs := kwargs;
      commHooks := [];
      requireBackwardGradSync := true;
    }
  }

  class ReplicateState {
    var owner: Option<Module>  // None: the placeholder the state starts with
    var hasInitialized: bool
    var paramList: seq<ParamId>
    var paramNames: seq<string>
    var noSync: bool
    var initArgs: Option<InitArgs>  // None: nothing recorded, or consumed (both falsy)
    var initKwargs: Kwargs
    var commHookArgs: seq<HookCall>
    var ddp: DistributedDataParallel?  // null: `_ddp` not yet set

    /** The parameter and name lists grow in lockstep; DDP exists exactly once `init` ran. */
    predicate Valid()
      reads this
    {
      |paramList| == |paramNames| && (hasInitialized <==> ddp != null)
    }

    constructor ()
      ensures Valid()
      ensures owner == None && !hasInitialized && paramList == [] && paramNames == [] && !noSync
      ensures initArgs == None && initKwargs == map[] && commHookArgs == [] && ddp == null
    {
      owner := None;
      hasInitialized := false;
      paramList, paramNames := [], [];
      noSync := false;
      initArgs := None;
      initKwargs := map[];
      commHookArgs := [];
      ddp := null;
    }

    /** The first loop of `_collect_params`: the module's own parameters that are not ignored, named under rp. */
    method CollectOwnParams(nps: seq<NamedParam>, ignoredParams: set<ParamId>, rp: string)
      modifies this`paramList, this`paramNames
      ensures var own := OwnParams(nps, ignoredParams, rp, |nps|);
              paramList == old(paramList) + own.params && paramNames == old(paramNames) + own.names
    {
      var k := 0;
      while k < |nps|
        invariant 0 <= k <= |nps|
        invariant var own := OwnParams(nps, ignoredParams, rp, k);
                  paramList == old(paramList) + own.params && paramNames == old(paramNames) + own.names
      {
        var np := nps[k];
        if np.param !in ignoredParams {
          paramList := paramList + [np.param];
          paramNames := paramNames + [rp + np.name];
        }
        k := k + 1;
      }
    }

    /** `_collect_params`: appends in lockstep exactly what Collected describes. */
    method CollectParams(m: Module, ignoredIds: set<ModuleId>, ignoredParams: set<ParamId>, prefix: string)
      modifies this`paramList, this`paramNames
      ensures var c := Collected(m, ignoredIds, ignoredParams, prefix);
              paramList == old(paramList) + c.params && paramNames == old(paramNames) + c.names
      decreases m, 1
    {
      if IsFullyShard(m) {
        return;
      }
      if m.id in ignoredIds {
        return;
      }
      var rp := RecursePrefix(prefix);
      CollectOwnParams(m.params, ignoredParams, rp);
      CollectChildren(m, ignoredIds, ignoredParams, rp);
      ghost var own := OwnParams(m.params, ignoredParams, rp, |m.params|);
      ghost var kids := ChildrenCollected(m, ignoredIds, ignoredParams, rp, |m.children|);
      CollectedUnfold(m, ignoredIds, ignoredParams, prefix);
      assert paramList == old(paramList) + own.params + kids.params;
      assert paramNames == old(paramNames) + own.names + kids.names;
    }

    /** The loop of `_collect_params` over the children, recursing into each in order. */
    method CollectChildren(m: Module, ignoredIds: set<ModuleId>, ignoredParams: set<ParamId>, rp: string)
      modifies this`paramList, this`paramNames
      ensures var kids := ChildrenCollected(m, ignoredIds, ignoredParams, rp, |m.children|);
              paramList == old(paramList) + kids.params && paramNames == old(paramNames) + kids.names
      decreases m, 0
    {
      var k := 0;
      while k < |m.children|
        invariant 0 <= k <= |m.children|
        invariant var kids := ChildrenCollected(m, ignoredIds, ignoredParams, rp, k);
                  paramList == old(paramList) + kids.params && paramNames == old(paramNames) + kids.names
      {
        var c := m.children[k];
        ghost var kids := ChildrenCollected(m, ignoredIds, ignoredParams, rp, k);
        ghost var sub := Collected(c.submodule, ignoredIds, ignoredParams, rp + c.name);
        assert ChildrenCollected(m, ignoredIds, ignoredParams, rp, k + 1) == Collection(kids.params + sub.params, kids.names + sub.names);
        CollectParams(c.submodule, ignoredIds, ignoredParams, rp + c.name);
        assert paramList == old(paramList) + (kids.params + sub.params);
        assert paramNames == old(paramNames) + (kids.names + sub.names);
        k := k + 1;
      }
    }

    /**
     * `init`: refuses a fully-sharded module (before the once-only check);
     * a second call changes nothing; the first records the module, collects
     * the parameters from the root prefix and builds DDP over them with the
     * normalised keyword arguments.
     */
    method Init(m: Module, ignoredModules: seq<Module>, kwargs: Kwargs) returns (r: Outcome<ReplicateError>)
      requires Valid()
      modifies this
      ensures Valid()
      ensures IsFullyShard(m) ==> r == Fail(RuntimeError(FullyShardMessage)) && unchanged(this)
      ensures !IsFullyShard(m) && old(hasInitialized) ==> r == Pass && unchanged(this)
      ensures !IsFullyShard(m) && !old(hasInitialized) ==>
                var c := Collected(m, IgnoredIds(ignoredModules), IgnoredParams(ignoredModules), RootPrefix);
                && r == Pass && hasInitialized && owner == Some(m)
                && paramList == old(paramList) + c.params && paramNames == old(paramNames) + c.names
                && fresh(ddp) && ddp.params == paramList && ddp.kwargs == NormalizeDeviceId(kwargs)
                && ddp.commHooks == [] && ddp.requireBackwardGradSync
                && noSync == old(noSync) && initArgs == old(initArgs) && initKwargs == old(initKwargs)
                && commHookArgs == old(commHookArgs)
    {
      if IsFullyShard(m) {
        return Fail(RuntimeError(FullyShardMessage));
      }
      if hasInitialized {
        return Pass;
      }
      hasInitialized := true;
      owner := Some(m);
      CollectParams(m, IgnoredIds(ignoredModules), IgnoredParams(ignoredModules), RootPrefix);
      var ddpKwargs := kwargs;
      if "device_id" in ddpKwargs {
        var v := ddpKwargs["device_id"];
        if !v.KNone? {
          if v.KDevice? && v.deviceType == "cpu" {
            ddpKwargs := ddpKwargs["device_ids" := KNone];
          } else {
            ddpKwargs := ddpKwargs["device_ids" := KList([v])];
          }
        } else {
          ddpKwargs := ddpKwargs["device_ids" := KNone];
        }
        ddpKwargs := ddpKwargs - {"device_id"};
      }
      ddp := new DistributedDataParallel(paramList, ddpKwargs);
      return Pass;
    }

    /**
     * `register_comm_hook`: the queued calls reach DDP in FIFO order and the
     * queue is left empty; with calls queued but no DDP yet, the attribute
     * lookup fails before anything changes.
     */
    method RegisterCommHook() returns (r: Outcome<ReplicateError>)
      requires Valid()
      modifies this`commHookArgs, ddp
      ensures Valid()
      ensures old(ddp) == null && old(commHookArgs) != [] ==> r == Fail(AttributeError("_ddp")) && commHookArgs == old(commHookArgs)
      ensures old(ddp) == null && old(commHookArgs) == [] ==> r == Pass && commHookArgs == []
      ensures old(ddp) != null ==>
                && r == Pass && commHookArgs == []
                && ddp.commHooks == old(ddp.commHooks) + old(commHookArgs)
                && ddp.requireBackwardGradSync == old(ddp.requireBackwardGradSync)
    {
      var k := 0;
      while k < |commHookArgs|
        invariant 0 <= k <= |commHookArgs| && commHookArgs == old(commHookArgs)
        invariant ddp == null ==> k == 0
        invariant ddp != null ==> ddp.commHooks == old(ddp.commHooks) + commHookArgs[..k]
                                  && ddp.requireBackwardGradSync == old(ddp.requireBackwardGradSync)
      {
        if ddp == null {
          return Fail(AttributeError("_ddp"));
        }
        ddp.commHooks := ddp.commHooks + [commHookArgs[k]];
        k := k + 1;
      }
      assert commHookArgs[..k] == commHookArgs;
      commHookArgs := [];
      return Pass;
    }

    /** `record_init_args`: the arguments of the deferred `init`, replacing any recorded before. */
    method RecordInitArgs(args: InitArgs, kwargs: Kwargs)
      modifies this`initArgs, this`initKwargs
      ensures initArgs == Some(args) && initKwargs == kwargs
    {
      initArgs := Some(args);
      initKwargs := kwargs;
    }

    /**
     * `forward_pre_hook`, up to the call into DDP's own pre-forward: recorded
     * init arguments run `init` and drain the hook queue, then are consumed;
     * on every path that gets that far, gradient sync is set to the opposite
     * of `_no_sync`.
     */
    method ForwardPreHook() returns (r: Outcome<ReplicateError>)
      requires Valid()
      modifies this, ddp
      ensures Valid()
      ensures !(old(initArgs).Some? || old(initKwargs) != map[]) ==>
                && ddp == old(ddp)
                && (ddp == null ==> r == Fail(AttributeError("_ddp")) && unchanged(this))
                && (ddp != null ==> r == Pass && unchanged(this) && ddp.requireBackwardGradSync == !noSync
                                    && ddp.commHooks == old(ddp.commHooks))
      ensures old(initArgs).None? && old(initKwargs) != map[] ==> r == Fail(TypeError) && unchanged(this)
      ensures old(initArgs).Some? && IsFullyShard(old(initArgs).value.root) ==>
                r == Fail(RuntimeError(FullyShardMessage)) && unchanged(this)
      ensures old(initArgs).Some? && !IsFullyShard(old(initArgs).value.root) ==>
                var a := old(initArgs).value;
                var c := Collected(a.root, IgnoredIds(a.ignoredModules), IgnoredParams(a.ignoredModules), RootPrefix);
                && r == Pass && hasInitialized && ddp != null
                && initArgs == None && initKwargs == map[] && commHookArgs == [] && noSync == old(noSync)
                && ddp.requireBackwardGradSync == !noSync
                && (old(hasInitialized) ==>
                      && ddp == old(ddp) && owner == old(owner)
                      && paramList == old(paramList) && paramNames == old(paramNames)
                      && ddp.commHooks == old(ddp.commHooks) + old(commHookArgs))
                && (!old(hasInitialized) ==>
                      && fresh(ddp) && owner == Some(a.root)
                      && paramList == old(paramList) + c.params && paramNames == old(paramNames) + c.names
                      && ddp.params == paramList && ddp.kwargs == NormalizeDeviceId(old(initKwargs))
                      && ddp.commHooks == old(commHookArgs))
    {
      if initArgs.Some? || initKwargs != map[] {
        if initArgs.None? {
          return Fail(TypeError);
        }
        var a := initArgs.value;
        var initResult := Init(a.root, a.ignoredModules, initKwargs);
        if initResult.Fail? {
          return initResult;
        }
        var hookResult := RegisterCommHook();
        assert hookResult.Pass?;
        initArgs := None;
        initKwargs := map[];
      }
      if ddp == null {
        return Fail(AttributeError("_ddp"));
      }
      ddp.requireBackwardGradSync := !noSync;
      return Pass;
    }

    /**
     * Two forwards in a row: once the first succeeds, the recorded arguments
     * are spent, so the second neither re-initialises nor collects again.
     */
    method ForwardTwice() returns (r1: Outcome<ReplicateError>, r2: Outcome<ReplicateError>)
      requires Valid()
      modifies this, ddp
      ensures Valid()
      ensures r1.Pass? ==> r2.Pass? && ddp != null && ddp.requireBackwardGradSync == !noSync && initArgs == None
      ensures r1.Pass? && old(initArgs).Some? ==>
                var a := old(initArgs).value;
                var c := Collected(a.root, IgnoredIds(a.ignoredModules), IgnoredParams(a.ignoredModules), RootPrefix);
                paramList == old(paramList) + (if old(hasInitialized) then [] else c.params)
    {
      r1 := ForwardPreHook();
      if r1.Fail? {
        return r1, r1;
      }
      r2 := ForwardPreHook();
    }
  }

  /** The `DDP` mixin `replicate` puts in front of the module's class: its setters act on the module's state. */
  class DDP {
    const state: ReplicateState

    constructor (state: ReplicateState)
      ensures this.state == state
    {
      this.state := state;
    }

    /** `set_requires_gradient_sync`: `_no_sync` becomes the negation of the flag. */
    method SetRequiresGradientSync(requiresGradientSync: bool)
      modifies state`noSync
      ensures state.noSync == !requiresGradientSync
    {
      state.noSync := !requiresGradientSync;
    }

    /** `register_comm_hook`: one call queued at the end, for the next forward. */
    method RegisterCommHook(args: seq<KwValue>, kwargs: Kwargs)
      modifies state`commHookArgs
      ensures state.commHookArgs == old(state.commHookArgs) + [HookCall(args, kwargs)]
    {
      state.commHookArgs := state.commHookArgs + [HookCall(args, kwargs)];
    }
  }

  /**
   * `replicate(module, ignored_modules, **kwargs)` on the module's state:
   * a `device_id` that is neither an int nor a device is refused before
   * anything changes; otherwise the arguments are recorded for the first
   * forward, a missing `ignored_modules` as an empty collection.
   */
  method Replicate(state: ReplicateState, m: Module, ignoredModules: Option<seq<Module>>, kwargs: Kwargs)
    returns (r: Outcome<ReplicateError>)
    modifies state`initArgs, state`initKwargs
    ensures r == CheckDeviceId(kwargs)
    ensures r.Fail? ==> unchanged(state)
    ensures r.Pass? ==>
              && state.initArgs == Some(InitArgs(m, if ignoredModules.Some? then ignoredModules.value else []))
              && state.initKwargs == kwargs
  {
    if "device_id" in kwargs {
      var v := kwargs["device_id"];
      if !(v.KInt? || v.KBool? || v.KDevice?) {
        return Fail(RuntimeError(DeviceIdMessage(v)));
      }
    }
    var ignored := if ignoredModules.Some? then ignoredModules.value else [];
    state.RecordInitArgs(InitArgs(m, ignored), kwargs);
    return Pass;
  }
}
