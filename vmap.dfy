/** The vmap wrapper: infers the batch size, slices the input into per-item
    records, calls the wrapped operator once per item in index order, and
    combines the outputs; the first failure aborts the whole call. */
module Transforms {
  import opened Values
  import opened BatchPlanner
  import opened Combine

  /** An operator: takes one input record, returns an output or raises. */
  type Operator = Record -> Result<Value>

  /** What a vectorised call returns for an empty batch. */
  const EmptyResults: Record := map["results" := List([])]

  /** Item `i` is the first item on which `op` raises. */
  predicate FirstFailure(op: Operator, items: seq<Record>, i: int)
  {
    0 <= i < |items| && op(items[i]).Err? && forall j :: 0 <= j < i ==> op(items[j]).Ok?
  }

  /** Sequential dispatch: the outputs of `op` on `items`, in order, or the
      error of the first item that fails. */
  function Dispatch(op: Operator, items: seq<Record>): (res: Result<seq<Value>>)
    ensures res.Ok? <==> forall i :: 0 <= i < |items| ==> op(items[i]).Ok?
    ensures res.Ok? ==> |res.value| == |items| &&
                        forall i :: 0 <= i < |items| ==> res.value[i] == op(items[i]).value
    ensures res.Err? ==> exists i :: FirstFailure(op, items, i) && res.error == op(items[i]).error
  {
    if items == [] then Ok([])
    else
      var init := items[..|items| - 1];
      assert forall i :: 0 <= i < |init| ==> init[i] == items[i];
      match Dispatch(op, init)
      case Err(e) => Err(e)
      case Ok(outs) =>
        match op(items[|items| - 1])
        case Err(e) => assert FirstFailure(op, items, |items| - 1); Err(e)
        case Ok(v) => Ok(outs + [v])
  }

  /** The records the wrapper calls the operator on, in order: none when
      the batch sizes disagree, and one per batch position otherwise (so a
      record without batched lists, `{}` included, is one item). */
  function Invocations(inputs: Record, spec: AxisSpec): (items: seq<Record>)
    ensures GetBatchSize(inputs, spec).Err? ==> items == []
    ensures GetBatchSize(inputs, spec).Ok? ==> |items| == GetBatchSize(inputs, spec).value
  {
    match GetBatchSize(inputs, spec)
    case Err(_) => []
    case Ok(n) => Expand(inputs, spec, n)
  }

  /** `vmap(op, in_axes=spec)(inputs=inputs)`. */
  function VMap(op: Operator, inputs: Record, spec: AxisSpec): (res: Result<Record>)
  {
    var size := GetBatchSize(inputs, spec);
    var items := Invocations(inputs, spec);
    if size.Err? then Err(size.error)
    else if items == [] then Ok(EmptyResults)
    else
      match Dispatch(op, items)
      case Err(e) => Err(e)
      case Ok(outs) => Ok(Combined(outs))
  }

  /** One more successful item extends the dispatched outputs. */
  lemma DispatchSnoc(op: Operator, items: seq<Record>, i: nat, outs: seq<Value>)
    requires i < |items| && Dispatch(op, items[..i]) == Ok(outs) && op(items[i]).Ok?
    ensures Dispatch(op, items[..i + 1]) == Ok(outs + [op(items[i]).value])
  {
    assert items[..i + 1][..i] == items[..i];
  }

  /** The first failing item decides the error of the whole dispatch. */
  lemma FailureAt(op: Operator, items: seq<Record>, i: nat, outs: seq<Value>)
    requires i < |items| && Dispatch(op, items[..i]) == Ok(outs) && op(items[i]).Err?
    ensures Dispatch(op, items) == Err(op(items[i]).error)
  {
    assert forall j :: 0 <= j < i ==> items[..i][j] == items[j];
    assert FirstFailure(op, items, i);
    var res := Dispatch(op, items);
    var j :| FirstFailure(op, items, j) && res.error == op(items[j]).error;
    assert j == i;
  }

  /** Once the batch size `n` is known, the invocations are the `n`
      expanded items and the call is decided by their dispatch. */
  lemma VMapOfBatch(op: Operator, inputs: Record, spec: AxisSpec, n: nat)
    requires GetBatchSize(inputs, spec) == Ok(n)
    ensures Invocations(inputs, spec) == Expand(inputs, spec, n)
    ensures n == 0 ==> VMap(op, inputs, spec) == Ok(EmptyResults)
    ensures n > 0 && Dispatch(op, Expand(inputs, spec, n)).Ok? ==>
              VMap(op, inputs, spec) == Ok(Combined(Dispatch(op, Expand(inputs, spec, n)).value))
    ensures Dispatch(op, Expand(inputs, spec, n)).Err? ==>
              VMap(op, inputs, spec) == Err(Dispatch(op, Expand(inputs, spec, n)).error)
  {
  }

  /** The per-item loop of the wrapper: calls `op` on each item of the
      prepared columns in index order and stops at the first failure. */
  method DispatchEach(op: Operator, cols: Record, n: nat) returns (res: Result<seq<Value>>)
    requires ColumnsOfLength(cols, n)
    ensures res == Dispatch(op, Items(cols, n))
  {
    ghost var items := Items(cols, n);
    var outs: seq<Value> := [];
    var i := 0;
    while i < n
      invariant 0 <= i <= n
      invariant Dispatch(op, items[..i]) == Ok(outs)
    {
      var item := ItemAt(cols, n, i);
      assert item == items[i];
      var out := op(item);
      if out.Err? {
        FailureAt(op, items, i, outs);
        return Err(out.error);
      }
      DispatchSnoc(op, items, i, outs);
      outs := outs + [out.value];
      i := i + 1;
    }
    assert items[..n] == items;
    return Ok(outs);
  }

  /** The vectorised call as the wrapper runs it. */
  method Vectorize(op: Operator, inputs: Record, spec: AxisSpec) returns (res: Result<Record>)
    ensures res == VMap(op, inputs, spec)
  {
    var size := GetBatchSize(inputs, spec);
    if size.Err? {
      return Err(size.error);
    }
    var n := size.value;
    VMapOfBatch(op, inputs, spec, n);
    if n == 0 {
      return Ok(EmptyResults);
    }
    PreparedColumnsHaveBatchSize(inputs, spec, n);
    var cols := PrepareBatchedInputs(inputs, spec, n);
    var outs := DispatchEach(op, cols, n);
    if outs.Err? {
      return Err(outs.error);
    }
    var combined := CombineOutputs(outs.value);
    return Ok(combined);
  }

  /** The output of an operator that processes a record into one value. */
  function Processed(v: Value): (out: Value)
    ensures Normalize(out).Keys == {"results"}
    ensures Contribution(Normalize(out)["results"]) == [v]
  {
    Dict(map["results" := List([v])])
  }
}
