/**
 * The optimizer tracing fast path on mutable state
 * (torch/_dynamo/variables/optimizer.py, class OptimizerVariable): the
 * concrete optimizer, the part of the tracer it touches, and the tracked
 * variable whose maps and name set the fast path fills in place.
 */
module Optimizer {
  import opened Wrappers
  import opened Sources
  import opened Variables
  import opened OptimizerSpec

  /** The concrete optimizer object (`self.value`). */
  class TorchOptimizer {
    var paramGroups: seq<ParamGroup>
    var state: seq<StateEntry>
    var grads: map<TensorId, TensorId>  // `p.grad` of every parameter whose gradient is not None

    constructor (paramGroups: seq<ParamGroup>, state: seq<StateEntry>, grads: map<TensorId, TensorId>)
      ensures this.paramGroups == paramGroups && this.state == state && this.grads == grads
    {
      this.paramGroups := paramGroups;
      this.state := state;
      this.grads := grads;
    }
  }

  /** The part of the tracer (`tx` and `tx.output`) the fast path reads and updates. */
  class Tracer {
    const globalWeakRefName: TensorId -> string  // store_global_weakref_by_id(GLOBAL_KEY_PREFIX, t)
    const moduleKeyName: Source -> string         // module_key_name(<name of a source>)
    var guards: set<Guard>
    var staticAddresses: set<TensorId>            // tensors mark_static_address was applied to
    var realized: set<Source>                     // sources whose handles the builder built and realized eagerly

    constructor (globalWeakRefName: TensorId -> string, moduleKeyName: Source -> string)
      ensures this.globalWeakRefName == globalWeakRefName && this.moduleKeyName == moduleKeyName
      ensures guards == {} && staticAddresses == {} && realized == {}
    {
      this.globalWeakRefName := globalWeakRefName;
      this.moduleKeyName := moduleKeyName;
      guards, staticAddresses, realized := {}, {}, {};
    }

    /** `mark_static_address` applied to each tensor of ps in turn. */
    method MarkStaticAddresses(ps: seq<TensorId>)
      modifies this`staticAddresses
      ensures staticAddresses == old(staticAddresses) + set p | p in ps
    {
      var i := 0;
      while i < |ps|
        invariant 0 <= i <= |ps|
        invariant staticAddresses == old(staticAddresses) + set p | p in ps[..i]
      {
        assert ps[..i + 1] == ps[..i] + [ps[i]];
        staticAddresses := staticAddresses + {ps[i]};
        i := i + 1;
      }
      assert ps[..i] == ps;
    }
  }

  /** The compiled graph module whose tables the finalizer cleans. */
  class GraphModule {
    var buffers: map<string, TensorId>
    var parameters: map<string, TensorId>

    constructor (buffers: map<string, TensorId>, parameters: map<string, TensorId>)
      ensures this.buffers == buffers && this.parameters == parameters
    {
      this.buffers := buffers;
      this.parameters := parameters;
    }
  }

  /** The tracing context's shared cache of flattened parameters. */
  class TracingContext {
    var paramsFlat: seq<TensorId>

    constructor (paramsFlat: seq<TensorId>)
      ensures this.paramsFlat == paramsFlat
    {
      this.paramsFlat := paramsFlat;
    }
  }

  /** The result an `_init_group` call of the concrete optimizer has: its return value, its list arguments after the call, and the new optimizer state. */
  datatype InitGroupEffect = InitGroupEffect(ret: PyValue, argsAfter: seq<PyValue>, stateAfter: seq<StateEntry>)

  datatype CallResult = ReturnedConstant(value: PyValue) | DelegatedToSuper

  class OptimizerVariable {
    const value: TorchOptimizer
    const source: Source
    var gradToSource: map<TensorId, Source>
    var tensorToSource: map<TensorId, Source>
    var staticTensorNames: set<string>

    /**
     * `__init__`: the maps and the name set start as given (missing or empty
     * ones as empty); every group that has a "capturable" option gets it set
     * to True, and every parameter is marked as a static address.
     */
    constructor (value: TorchOptimizer, source: Source, tx: Tracer,
                 gradToSource: Option<map<TensorId, Source>>,
                 staticTensorNames: Option<set<string>>,
                 tensorToSource: Option<map<TensorId, Source>>)
      modifies value`paramGroups, tx`staticAddresses
      ensures this.value == value && this.source == source
      ensures this.gradToSource == (if gradToSource.Some? then gradToSource.value else map[])
      ensures this.tensorToSource == (if tensorToSource.Some? then tensorToSource.value else map[])
      ensures this.staticTensorNames == (if staticTensorNames.Some? then staticTensorNames.value else {})
      ensures |value.paramGroups| == |old(value.paramGroups)|
      ensures forall g :: 0 <= g < |value.paramGroups| ==> value.paramGroups[g] == WithCapturable(old(value.paramGroups[g]))
      ensures tx.staticAddresses == old(tx.staticAddresses) + GroupParams(old(value.paramGroups), |old(value.paramGroups)|)
    {
      this.value := value;
      this.source := source;
      this.gradToSource := if gradToSource.Some? then gradToSource.value else map[];
      this.tensorToSource := if tensorToSource.Some? then tensorToSource.value else map[];
      this.staticTensorNames := if staticTensorNames.Some? then staticTensorNames.value else {};
      new;
      PrepareGroups(value, tx);
    }

    /** The loop of `__init__` over the parameter groups: "capturable" set where present, every parameter marked static. */
    static method PrepareGroups(value: TorchOptimizer, tx: Tracer)
      modifies value`paramGroups, tx`staticAddresses
      ensures |value.paramGroups| == |old(value.paramGroups)|
      ensures forall g :: 0 <= g < |value.paramGroups| ==> value.paramGroups[g] == WithCapturable(old(value.paramGroups[g]))
      ensures tx.staticAddresses == old(tx.staticAddresses) + GroupParams(old(value.paramGroups), |old(value.paramGroups)|)
    {
      var groups0 := value.paramGroups;
      var k := 0;
      while k < |groups0|
        invariant 0 <= k <= |groups0| == |value.paramGroups|
        invariant forall g :: 0 <= g < k ==> value.paramGroups[g] == WithCapturable(groups0[g])
        invariant forall g :: k <= g < |groups0| ==> value.paramGroups[g] == groups0[g]
        invariant tx.staticAddresses == old(tx.staticAddresses) + GroupParams(groups0, k)
      {
        var group := groups0[k];
        value.paramGroups := value.paramGroups[k := WithCapturable(group)];
        tx.MarkStaticAddresses(group.params);
        k := k + 1;
      }
    }

    /** The inner loop of lines 207-210: the position of p among the state keys, by identity. */
    method FindKeyIndex(p: TensorId) returns (keyIndex: Option<nat>)
      ensures keyIndex.Some? ==> keyIndex.value < |value.state| && value.state[keyIndex.value].param == p
      ensures keyIndex.Some? ==> forall j :: 0 <= j < keyIndex.value ==> value.state[j].param != p
      ensures keyIndex.None? ==> forall j :: 0 <= j < |value.state| ==> value.state[j].param != p
      ensures keyIndex == KeyIndex(value.state, p)
    {
      keyIndex := None;
      var i := 0;
      while i < |value.state|
        invariant 0 <= i <= |value.state|
        invariant forall j :: 0 <= j < i ==> value.state[j].param != p
      {
        if value.state[i].param == p {
          keyIndex := Some(i);
          return;
        }
        i := i + 1;
      }
    }

    /** Lines 203-222 for group g: realize the state entry of the first parameter with a gradient whose key index is truthy. */
    method RealizeGroupState(tx: Tracer, g: nat)
      requires g < |value.paramGroups|
      modifies tx`realized
      ensures var entry := RealizedEntry(value.paramGroups[g].params, value.grads, value.state, 0);
              tx.realized == old(tx.realized) + (if entry.Some? then {StateEntrySource(source, entry.value)} else {})
    {
      var params := value.paramGroups[g].params;
      if |params| > 0 {
        var i := 0;
        while i < |params|
          invariant 0 <= i <= |params|
          invariant tx.realized == old(tx.realized)
          invariant RealizedEntry(params, value.grads, value.state, i) == RealizedEntry(params, value.grads, value.state, 0)
        {
          var param := params[i];
          if param in value.grads {
            var keyIndex := FindKeyIndex(param);
            if keyIndex.Some? && keyIndex.value != 0 {
              tx.realized := tx.realized + {StateEntrySource(source, keyIndex.value)};
              return;
            }
          }
          i := i + 1;
        }
      }
    }

    /** Lines 224-239 for group g: record each parameter's source, and its gradient's source or a guard. */
    method MapGroupParams(tx: Tracer, g: nat)
      requires g < |value.paramGroups|
      modifies this`tensorToSource, this`gradToSource, tx`guards
      ensures Provenance(tensorToSource, gradToSource, tx.guards)
           == FoldParams(old(Provenance(tensorToSource, gradToSource, tx.guards)), source, value.grads, g,
                         value.paramGroups[g].params, |value.paramGroups[g].params|)
    {
      var params := value.paramGroups[g].params;
      var i := 0;
      while i < |params|
        invariant 0 <= i <= |params|
        invariant Provenance(tensorToSource, gradToSource, tx.guards)
               == FoldParams(old(Provenance(tensorToSource, gradToSource, tx.guards)), source, value.grads, g, params, i)
      {
        var p := params[i];
        var paramSource := ParamSource(source, g, i);
        tensorToSource := tensorToSource[p := paramSource];
        var gradSource := GradSourceOf(paramSource);
        if p in value.grads {
          gradToSource := gradToSource[value.grads[p] := gradSource];
        } else {
          tx.guards := tx.guards + {Guard(gradSource, ConstantMatch)};
        }
        i := i + 1;
      }
    }

    /** Lines 243-254: give every state tensor that neither map knows its state-item source. */
    method CollectStateTensors(tx: Tracer)
      modifies this`tensorToSource
      ensures Provenance(tensorToSource, gradToSource, tx.guards)
           == FoldState(old(Provenance(tensorToSource, gradToSource, tx.guards)), source, value.state, |value.state|)
    {
      var state := value.state;
      var e := 0;
      while e < |state|
        invariant 0 <= e <= |state|
        invariant Provenance(tensorToSource, gradToSource, tx.guards)
               == FoldState(old(Provenance(tensorToSource, gradToSource, tx.guards)), source, state, e)
      {
        var items := state[e].items;
        var j := 0;
        while j < |items|
          invariant 0 <= j <= |items|
          invariant Provenance(tensorToSource, gradToSource, tx.guards)
                 == FoldItems(FoldState(old(Provenance(tensorToSource, gradToSource, tx.guards)), source, state, e), source, e, items, j)
        {
          var (key, v) := items[j];
          if v.PyTensor? && v.t !in gradToSource && v.t !in tensorToSource {
            tensorToSource := tensorToSource[v.t := StateItemSource(source, e, key)];
          }
          j := j + 1;
        }
        e := e + 1;
      }
    }

    /**
     * `map_sources_and_install_guards`: both maps are rebuilt from empty and
     * end as MapSources describes (see ParamPassSpec and MapSourcesSpec for
     * what that means); every tensor in the state is marked static; the
     * builder realizes the group list, the state dict and one state entry per
     * group.
     */
    method MapSourcesAndInstallGuards(tx: Tracer)
      modifies this`tensorToSource, this`gradToSource, tx`guards, tx`staticAddresses, tx`realized
      ensures var m := MapSources(source, value.grads, value.paramGroups, value.state, old(tx.guards));
              tensorToSource == m.tensorToSource && gradToSource == m.gradToSource && tx.guards == m.guards
      ensures tx.staticAddresses == old(tx.staticAddresses) + StateTensors(value.state)
      ensures tx.realized == old(tx.realized) + {Attr(source, "param_groups"), Attr(source, "state")}
                             + RealizedSources(source, value.paramGroups, value.grads, value.state, |value.paramGroups|)
    {
      gradToSource := map[];
      tensorToSource := map[];
      tx.staticAddresses := tx.staticAddresses + StateTensors(value.state);
      tx.realized := tx.realized + {Attr(source, "param_groups"), Attr(source, "state")};
      ghost var start := Provenance(map[], map[], tx.guards);
      ghost var realized0 := tx.realized;
      var g := 0;
      while g < |value.paramGroups|
        invariant 0 <= g <= |value.paramGroups|
        invariant Provenance(tensorToSource, gradToSource, tx.guards) == FoldGroups(start, source, value.grads, value.paramGroups, g)
        invariant tx.realized == realized0 + RealizedSources(source, value.paramGroups, value.grads, value.state, g)
        invariant tx.staticAddresses == old(tx.staticAddresses) + StateTensors(value.state)
      {
        RealizeGroupState(tx, g);
        MapGroupParams(tx, g);
        g := g + 1;
      }
      CollectStateTensors(tx);
    }

    /**
     * `wrap_tensor`: the handle's source follows the precedence of WrapSource;
     * a static name is recorded, and the tensor marked static, on the
     * tensor-map and global-slot paths only.
     */
    method WrapTensor(tx: Tracer, t: TensorId) returns (r: Var)
      modifies this`staticTensorNames, tx`staticAddresses
      ensures r == TensorVar(t, WrapSource(tx.globalWeakRefName, tensorToSource, gradToSource, t))
      ensures staticTensorNames == old(staticTensorNames)
                                   + WrapStaticNames(tx.globalWeakRefName, tx.moduleKeyName, tensorToSource, gradToSource, t)
      ensures tx.staticAddresses == old(tx.staticAddresses) + WrapMarks(tensorToSource, gradToSource, t)
    {
      var s: Source;
      if t in tensorToSource {
        tx.staticAddresses := tx.staticAddresses + {t};
        s := tensorToSource[t];
        staticTensorNames := staticTensorNames + {tx.moduleKeyName(s)};
      } else if t in gradToSource {
        s := gradToSource[t];
      } else {
        tx.staticAddresses := tx.staticAddresses + {t};
        var globalName := tx.globalWeakRefName(t);
        s := GlobalWeakRef(globalName);
        staticTensorNames := staticTensorNames + {tx.moduleKeyName(s)};
      }
      r := TensorVar(t, s);
    }

    /** The inner loop of `update_list_args`: one handle per concrete item, appended in order. */
    method ExtendList(tx: Tracer, l: ListVariable, vals: seq<PyValue>)
      modifies this`staticTensorNames, tx`staticAddresses, l`items
      ensures l.items == old(l.items) + Extension(tx.globalWeakRefName, tensorToSource, gradToSource, l.source, vals, |vals|)
      ensures var eff := ItemsEffect(tx.globalWeakRefName, tx.moduleKeyName, tensorToSource, gradToSource, vals, |vals|);
              && staticTensorNames == old(staticTensorNames) + eff.names
              && tx.staticAddresses == old(tx.staticAddresses) + eff.marks
    {
      var i := 0;
      while i < |vals|
        invariant 0 <= i <= |vals|
        invariant l.items == old(l.items) + Extension(tx.globalWeakRefName, tensorToSource, gradToSource, l.source, vals, i)
        invariant var eff := ItemsEffect(tx.globalWeakRefName, tx.moduleKeyName, tensorToSource, gradToSource, vals, i);
                  && staticTensorNames == old(staticTensorNames) + eff.names
                  && tx.staticAddresses == old(tx.staticAddresses) + eff.marks
      {
        var val := vals[i];
        var handle: Var;
        if val.PyTensor? {
          handle := WrapTensor(tx, val.t);
        } else if l.source.Some? {
          handle := BuiltVar(val, Some(GetItem(l.source.value, IntIndex(i))));
        } else {
          handle := BuiltVar(val, None);
        }
        assert handle == ListElem(tx.globalWeakRefName, tensorToSource, gradToSource, l.source, vals, i);
        l.items := l.items + [handle];
        i := i + 1;
      }
    }

    /** After the first k zipped positions: every list argument holds its items before plus what those positions appended, and the names and marks grew by their wrapping effect. */
    ghost predicate ListArgsProgress(tx: Tracer, args: seq<Var>, pyArgs: seq<PyValue>, k: nat,
                                     before: map<int, seq<Var>>, names0: set<string>, marks0: set<TensorId>)
      requires k <= ZipLength(args, pyArgs)
      reads this, tx, ListsIn(args)
    {
      && (forall j :: 0 <= j < |args| && args[j].ListVar? ==>
            && j in before
            && (assert args[j] in args; args[j].list.items == before[j] + Appended(tx.globalWeakRefName, tensorToSource, gradToSource, args[j].list, args, pyArgs, k)))
      && var eff := ArgsEffect(tx.globalWeakRefName, tx.moduleKeyName, tensorToSource, gradToSource, args, pyArgs, k);
         staticTensorNames == names0 + eff.names && tx.staticAddresses == marks0 + eff.marks
    }

    /**
     * Position k of `update_list_args` once its assertion holds: the list
     * argument there is extended (every other list keeps its items), so
     * that what the first k positions did becomes what the first k + 1 did.
     */
    method UpdateListArgAt(tx: Tracer, args: seq<Var>, pyArgs: seq<PyValue>, k: nat,
                           ghost before: map<int, seq<Var>>, ghost names0: set<string>, ghost marks0: set<TensorId>)
      returns (next: nat)
      requires k < ZipLength(args, pyArgs) && !ListMismatch(args, pyArgs, k)
      requires ListArgsProgress(tx, args, pyArgs, k, before, names0, marks0)
      modifies this`staticTensorNames, tx`staticAddresses, ListsIn(args)
      ensures next == k + 1 <= ZipLength(args, pyArgs)
      ensures ListArgsProgress(tx, args, pyArgs, next, before, names0, marks0)
      ensures tensorToSource == old(tensorToSource) && gradToSource == old(gradToSource)
    {
      ArgsEffectStep(tx.globalWeakRefName, tx.moduleKeyName, tensorToSource, gradToSource, args, pyArgs, k, names0, marks0);
      next := k + 1;
      if args[k].ListVar? {
        var l := args[k].list;
        assert l in ListsIn(args) by {
          assert args[k] in args;
        }
        ExtendList(tx, l, pyArgs[k].items);
        forall j | 0 <= j < |args| && args[j].ListVar?
          ensures args[j].list.items == before[j] + Appended(tx.globalWeakRefName, tensorToSource, gradToSource, args[j].list, args, pyArgs, k + 1)
        {
          AppendedStep(tx.globalWeakRefName, tensorToSource, gradToSource, args[j].list, args, pyArgs, k);
          if args[j].list != l {
            assert args[j].list.items == old(args[j].list.items);
          }
        }
      }
    }

    /**
     * `update_list_args`: each positional list argument is extended, in
     * argument order, by one handle per item of its concrete counterpart; the
     * source's assertion fails (ok is false) at the first list argument whose
     * counterpart is not a list, after the earlier ones were extended.
     */
    method UpdateListArgs(tx: Tracer, args: seq<Var>, pyArgs: seq<PyValue>) returns (ok: bool)
      modifies this`staticTensorNames, tx`staticAddresses, ListsIn(args)
      ensures ok <==> forall j :: 0 <= j < ZipLength(args, pyArgs) ==> !ListMismatch(args, pyArgs, j)
      ensures var n := ProcessedCount(args, pyArgs, 0);
              forall j :: 0 <= j < |args| && args[j].ListVar? ==>
                args[j].list.items == old(args[j].list.items) + Appended(tx.globalWeakRefName, tensorToSource, gradToSource, args[j].list, args, pyArgs, n)
      ensures var eff := ArgsEffect(tx.globalWeakRefName, tx.moduleKeyName, tensorToSource, gradToSource, args, pyArgs,
                                    ProcessedCount(args, pyArgs, 0));
              staticTensorNames == old(staticTensorNames) + eff.names && tx.staticAddresses == old(tx.staticAddresses) + eff.marks
    {
      ghost var before := map j | 0 <= j < |args| && args[j].ListVar? :: args[j].list.items;
      var k;
      k, ok := UpdateListArgsFrom(tx, args, pyArgs, before, staticTensorNames, tx.staticAddresses);
      ProcessedCountStops(args, pyArgs, k);
    }

    /** The loop of `update_list_args`: k positions pass their assertion and are applied; ok says whether all did. */
    method UpdateListArgsFrom(tx: Tracer, args: seq<Var>, pyArgs: seq<PyValue>,
                              ghost before: map<int, seq<Var>>, ghost names0: set<string>, ghost marks0: set<TensorId>)
      returns (k: nat, ok: bool)
      requires ListArgsProgress(tx, args, pyArgs, 0, before, names0, marks0)
      modifies this`staticTensorNames, tx`staticAddresses, ListsIn(args)
      ensures k <= ZipLength(args, pyArgs) && (ok <==> k == ZipLength(args, pyArgs))
      ensures forall j :: 0 <= j < k ==> !ListMismatch(args, pyArgs, j)
      ensures k < ZipLength(args, pyArgs) ==> ListMismatch(args, pyArgs, k)
      ensures ListArgsProgress(tx, args, pyArgs, k, before, names0, marks0)
      ensures tensorToSource == old(tensorToSource) && gradToSource == old(gradToSource)
    {
      var n := ZipLength(args, pyArgs);
      ghost var t2s, g2s := tensorToSource, gradToSource;
      k := 0;
      ok := true;
      while k < n
        invariant 0 <= k <= n
        invariant ok
        invariant tensorToSource == t2s && gradToSource == g2s
        invariant forall j :: 0 <= j < k ==> !ListMismatch(args, pyArgs, j)
        invariant ListArgsProgress(tx, args, pyArgs, k, before, names0, marks0)
      {
        if ListMismatch(args, pyArgs, k) {
          ok := false;
          return;
        }
        assert forall j :: 0 <= j < k + 1 ==> !ListMismatch(args, pyArgs, j);
        k := UpdateListArgAt(tx, args, pyArgs, k, before, names0, marks0);
      }
    }

    /**
     * The finalizer callback of `create_finalizer`: every name in the set of
     * static names (read when the callback runs, as the source shares the set
     * object) is removed from both tables, absent names being ignored; the
     * flattened-parameter cache is cleared once at least one name was visited.
     */
    method ClearStaticTensorRefs(gm: GraphModule, tc: TracingContext)
      modifies gm, tc
      ensures gm.buffers == old(gm.buffers) - staticTensorNames
      ensures gm.parameters == old(gm.parameters) - staticTensorNames
      ensures tc.paramsFlat == if staticTensorNames == {} then old(tc.paramsFlat) else []
    {
      var remaining := staticTensorNames;
      while remaining != {}
        invariant remaining <= staticTensorNames
        invariant gm.buffers == old(gm.buffers) - (staticTensorNames - remaining)
        invariant gm.parameters == old(gm.parameters) - (staticTensorNames - remaining)
        invariant tc.paramsFlat == if remaining == staticTensorNames then old(tc.paramsFlat) else []
        decreases remaining
      {
        var name :| name in remaining;
        gm.buffers := gm.buffers - {name};
        gm.parameters := gm.parameters - {name};
        if tc.paramsFlat != [] {
          tc.paramsFlat := [];
        }
        remaining := remaining - {name};
      }
    }

    /**
     * `call_method`: an `_init_group` call whose arguments all map runs the
     * concrete method, reconciles sources and guards, extends the list
     * arguments and returns the result as a constant; a mapping failure of a
     * supported kind changes nothing and falls through; a `step` call with a
     * non-constant closure is rejected; everything else goes to the
     * superclass.
     */
    method CallMethod(tx: Tracer, name: string, args: seq<Var>, kwargs: seq<(string, Var)>,
                      initGroup: (seq<PyValue>, seq<(string, PyValue)>) -> InitGroupEffect)
      returns (r: Result<CallResult, Error>)
      modifies this`tensorToSource, this`gradToSource, this`staticTensorNames, value`state,
               tx`guards, tx`staticAddresses, tx`realized, ListsIn(args)
      ensures var d := old(CallDecisionOf(value.paramGroups, name, args, kwargs));
              !d.RunFastPath? ==>
                && unchanged(this, value, tx) && unchanged(ListsIn(args))
                && r == (match d
                         case RejectStep => Err(Unsupported(ClosureMessage))
                         case Raise(e) => Err(e)
                         case _ => Ok(DelegatedToSuper))
      ensures var d := old(CallDecisionOf(value.paramGroups, name, args, kwargs));
              d.RunFastPath? ==>
                var eff := initGroup(d.pyArgs, d.pyKwargs);
                var m := MapSources(source, value.grads, value.paramGroups, eff.stateAfter, old(tx.guards));
                var n := ProcessedCount(args, eff.argsAfter, 0);
                var wrapped := ArgsEffect(tx.globalWeakRefName, tx.moduleKeyName, m.tensorToSource, m.gradToSource,
                                          args, eff.argsAfter, n);
                && value.state == eff.stateAfter
                && tensorToSource == m.tensorToSource && gradToSource == m.gradToSource && tx.guards == m.guards
                && tx.realized == old(tx.realized) + {Attr(source, "param_groups"), Attr(source, "state")}
                                  + RealizedSources(source, value.paramGroups, value.grads, eff.stateAfter, |value.paramGroups|)
                && staticTensorNames == old(staticTensorNames) + wrapped.names
                && tx.staticAddresses == old(tx.staticAddresses) + StateTensors(eff.stateAfter) + wrapped.marks
                && (forall j :: 0 <= j < |args| && args[j].ListVar? ==>
                      args[j].list.items == old(args[j].list.items)
                                            + Appended(tx.globalWeakRefName, m.tensorToSource, m.gradToSource, args[j].list, args, eff.argsAfter, n))
                && r == (if n == ZipLength(args, eff.argsAfter) then Ok(ReturnedConstant(eff.ret)) else Err(AssertionError))
    {
      var mapped := GetPythonArgs(value.paramGroups, args, kwargs);
      if name == "_init_group" {
        if mapped.Ok? {
          var eff := initGroup(mapped.value.0, mapped.value.1);
          value.state := eff.stateAfter;
          MapSourcesAndInstallGuards(tx);
          var ok := UpdateListArgs(tx, args, eff.argsAfter);
          if !ok {
            return Err(AssertionError);
          }
          return Ok(ReturnedConstant(eff.ret));
        } else if mapped.error !in {ArgMapping, GuardInstall} {
          return Err(mapped.error);
        }
      }
      if name == "step" && StepRejected(args, kwargs) {
        return Err(Unsupported(ClosureMessage));
      }
      return Ok(DelegatedToSuper);
    }
  }
}
