/**
 * Provenance descriptors of the tracer: how a runtime value was reached from
 * a root.  Two sources are equal exactly when they describe the same access
 * path, which is what the tracer relies on to deduplicate guards.
 */
module Sources {

  datatype Source =
    | LocalSource(localName: string)              // a frame local, the root of a path
    | Attr(base: Source, member: string)          // base.member
    | GetItem(base: Source, index: Index)         // base[index]
    | ConstDictKey(dict: Source, ordinal: nat)    // the ordinal-th key of an ordered dict
    | GlobalWeakRef(globalName: string)           // a global slot holding a weak reference
    | Grad(param: Source, member: string)         // the gradient attribute of a parameter

  /** The key of a subscript: an integer, a string, or a key that is itself a source. */
  datatype Index = IntIndex(i: int) | StrIndex(key: string) | SourceIndex(keySource: Source)

  /** The only guard predicate the optimizer fast path installs by hand. */
  datatype GuardKind = ConstantMatch

  datatype Guard = Guard(source: Source, kind: GuardKind)

  /** `opt.param_groups[g]["params"][i]`: the source the builder gives the i-th
      parameter of the g-th parameter group of the optimizer at `opt`. */
  function ParamSource(opt: Source, g: nat, i: nat): Source
  {
    GetItem(GetItem(GetItem(Attr(opt, "param_groups"), IntIndex(g)), StrIndex("params")), IntIndex(i))
  }

  /** The gradient source of a parameter source. */
  function GradSourceOf(paramSource: Source): Source
  {
    Grad(paramSource, "grad")
  }

  /** `opt.state[<idx-th key of opt.state>]`: the per-parameter state dict at position idx. */
  function StateEntrySource(opt: Source, idx: nat): Source
  {
    GetItem(Attr(opt, "state"), SourceIndex(ConstDictKey(Attr(opt, "state"), idx)))
  }

  /** `opt.state[<idx-th key>][key]`: one item of a per-parameter state dict. */
  function StateItemSource(opt: Source, idx: nat, key: string): Source
  {
    GetItem(StateEntrySource(opt, idx), StrIndex(key))
  }
}
