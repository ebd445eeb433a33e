/** A stateful operator (a call counter and a history of produced values)
    and the vectorised call that drives it: the state the tests inspect
    after each batch. */
module StatefulOperators {
  import opened Values
  import opened BatchPlanner
  import opened Combine
  import opened Transforms
  import opened TransformLaws

  /** Processing one more item appends its value. */
  lemma ProcessSnoc(process: Record -> Value, items: seq<Record>, i: nat)
    requires i < |items|
    ensures MapSeq(process, items[..i + 1]) == MapSeq(process, items[..i]) + [process(items[i])]
  {
  }

  /** The operator that outputs `{"results": [process(inputs)]}`. */
  function Recording(process: Record -> Value): (op: Operator)
  {
    (r: Record) => Ok(Processed(process(r)))
  }

  /** A stateful operator’s vectorised results are exactly the values it
      appended to its history, in order. */
  lemma RecordingResults(process: Record -> Value, inputs: Record, spec: AxisSpec)
    requires GetBatchSize(inputs, spec).Ok?
    ensures VMap(Recording(process), inputs, spec) ==
              Ok(map["results" := List(MapSeq(process, Invocations(inputs, spec)))])
  {
    ResultsColumn(Recording(process), inputs, spec, MapSeq(process, Invocations(inputs, spec)));
  }

  /** An operator that counts its calls and records, in order, the value it
      produced for each. */
  class StatefulOperator {
    const process: Record -> Value
    var callCount: nat
    var history: seq<Value>

    constructor (process: Record -> Value)
      ensures this.process == process && callCount == 0 && history == []
    {
      this.process := process;
      callCount := 0;
      history := [];
    }

    /** The operator as a function of its input. */
    function Behaviour(): (op: Operator)
    {
      Recording(process)
    }

    method Call(inputs: Record) returns (out: Value)
      modifies this
      ensures out == Processed(process(inputs))
      ensures callCount == old(callCount) + 1 && history == old(history) + [process(inputs)]
    {
      var v := process(inputs);
      callCount := callCount + 1;
      history := history + [v];
      out := Processed(v);
    }
  }

  /** The dispatch loop for a stateful operator: one call per item of the
      prepared columns, in index order. */
  method CallEach(op: StatefulOperator, cols: Record, n: nat) returns (outs: seq<Value>)
    requires ColumnsOfLength(cols, n)
    modifies op
    ensures Dispatch(op.Behaviour(), Items(cols, n)) == Ok(outs)
    ensures op.callCount == old(op.callCount) + n
    ensures op.history == old(op.history) + MapSeq(op.process, Items(cols, n))
  {
    ghost var items := Items(cols, n);
    ghost var f, process := op.Behaviour(), op.process;
    outs := [];
    var i := 0;
    while i < n
      invariant 0 <= i <= n
      invariant Dispatch(f, items[..i]) == Ok(outs)
      invariant op.callCount == old(op.callCount) + i
      invariant op.history == old(op.history) + MapSeq(process, items[..i])
    {
      var item := ItemAt(cols, n, i);
      assert item == items[i];
      var out := op.Call(item);
      DispatchSnoc(f, items, i, outs);
      ProcessSnoc(process, items, i);
      outs := outs + [out];
      i := i + 1;
    }
    assert items[..n] == items;
  }

  /** The vectorised call of a stateful operator: one call per item, in
      order, each appending to the operator's history. */
  method VectorizeStateful(op: StatefulOperator, inputs: Record, spec: AxisSpec) returns (res: Result<Record>)
    modifies op
    ensures res == VMap(op.Behaviour(), inputs, spec)
    ensures op.callCount == old(op.callCount) + |Invocations(inputs, spec)|
    ensures GetBatchSize(inputs, spec).Ok? ==>
              op.callCount == old(op.callCount) + GetBatchSize(inputs, spec).value
    ensures op.history == old(op.history) + MapSeq(op.process, Invocations(inputs, spec))
    ensures res.Ok? <==> GetBatchSize(inputs, spec).Ok?
    ensures res.Ok? ==> res.value == map["results" := List(op.history[|old(op.history)|..])]
  {
    if GetBatchSize(inputs, spec).Ok? {
      RecordingResults(op.process, inputs, spec);
    }
    var size := GetBatchSize(inputs, spec);
    if size.Err? {
      return Err(size.error);
    }
    var n := size.value;
    VMapOfBatch(op.Behaviour(), inputs, spec, n);
    if n == 0 {
      return Ok(EmptyResults);
    }
    PreparedColumnsHaveBatchSize(inputs, spec, n);
    var cols := PrepareBatchedInputs(inputs, spec, n);
    var outs := CallEach(op, cols, n);
    var combined := CombineOutputs(outs);
    return Ok(combined);
  }
}
