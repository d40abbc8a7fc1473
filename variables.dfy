/**
 * The concrete Python values and the symbolic handles ("variable trackers")
 * that the optimizer fast path converts between.
 */
module Variables {
  import opened Wrappers
  import opened Sources

  /** Tensors are identified by object identity only; their contents never matter here. */
  type TensorId = nat

  /** The concrete values that cross the boundary between tracer and optimizer. */
  datatype PyValue =
    | PyNone
    | PyBool(b: bool)
    | PyInt(n: int)
    | PyStr(s: string)
    | PyTensor(t: TensorId)
    | PyList(items: seq<PyValue>)
    | PyGroup(group: ParamGroup)

  /** One entry of `optimizer.param_groups`: its parameter list and its other options. */
  datatype ParamGroup = ParamGroup(params: seq<TensorId>, options: map<string, PyValue>)

  /** One entry of the ordered dict `optimizer.state`: a parameter and its ordered state items. */
  datatype StateEntry = StateEntry(param: TensorId, items: seq<(string, PyValue)>)

  /** A traced list; its `items` are extended in place by the fast path. */
  class ListVariable {
    var items: seq<Var>
    const source: Option<Source>

    constructor (items: seq<Var>, source: Option<Source>)
      ensures this.items == items && this.source == source
    {
      this.items := items;
      this.source := source;
    }
  }

  /** A symbolic handle, by the kind of tracker the source distinguishes. */
  datatype Var =
    | ConstantVar(value: PyValue)
    | ListVar(list: ListVariable)
    | ConstDictVar(dictSource: Option<Source>)
    | TensorVar(tensor: TensorId, tensorSource: Source)
    | BuiltVar(built: PyValue, builtSource: Option<Source>)  // builder output for a non-tensor value; None is sourceless
    | OptimizerVar
    | OtherVar

  /** The exceptions raised or caught by the fast path. */
  datatype Error =
    | ArgMapping        // ArgMappingException: caught, the call is traced normally
    | GuardInstall      // GuardInstallException: caught likewise
    | Unsupported(reason: string)
    | IndexError
    | TypeError
    | AssertionError

  /** The value bound to `key` in an ordered keyword-argument list (the first binding). */
  function KwLookup(kwargs: seq<(string, Var)>, key: string): (r: Option<Var>)
    ensures r.Some? <==> exists j :: 0 <= j < |kwargs| && kwargs[j].0 == key
    ensures r.Some? ==> (key, r.value) in kwargs
    ensures r.Some? ==> exists j :: 0 <= j < |kwargs| && kwargs[j] == (key, r.value) && forall j' :: 0 <= j' < j ==> kwargs[j'].0 != key
  {
    if |kwargs| == 0 then None
    else if kwargs[0].0 == key then Some(kwargs[0].1)
    else
      var r := KwLookup(kwargs[1..], key);
      assert forall j :: 0 < j < |kwargs| ==> kwargs[j] == kwargs[1..][j - 1];
      r
  }
}
