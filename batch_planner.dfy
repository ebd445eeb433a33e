/** Batch-size inference and input preparation of the vmap transform
    (`_get_batch_size` and `_prepare_batched_inputs`), and the per-item
    records the wrapper slices out of the prepared columns. */
module BatchPlanner {
  import opened Values

  /** One field's axis in a per-field `in_axes` map: `0` batches the field,
      `None` replicates it. */
  datatype Axis = Batched | Replicated

  /** `in_axes`: the integer `0`, applied to every field, or a per-field map;
      fields absent from the map are replicated. */
  datatype AxisSpec = Uniform | PerField(axes: map<string, Axis>)

  predicate IsBatched(spec: AxisSpec, key: string)
  {
    spec.Uniform? || (key in spec.axes && spec.axes[key] == Batched)
  }

  /** Field `key` is batched and holds a list: only such fields decide the
      batch size. */
  predicate IsBatchedList(r: Record, spec: AxisSpec, key: string)
  {
    key in r && IsBatched(spec, key) && r[key].List?
  }

  /** The lengths of all batched list fields. */
  function BatchSizes(r: Record, spec: AxisSpec): (sizes: set<nat>)
    ensures forall k :: IsBatchedList(r, spec, k) ==> |r[k].items| in sizes
    ensures forall n :: n in sizes ==> exists k :: IsBatchedList(r, spec, k) && |r[k].items| == n
  {
    set k | k in r && IsBatchedList(r, spec, k) :: |r[k].items|
  }

  predicate AllEqual(sizes: set<nat>)
  {
    forall a, b :: a in sizes && b in sizes ==> a == b
  }

  /** `_get_batch_size(inputs, in_axes)`: the common length of the batched
      list fields, 1 when there is none, and an error when two disagree. */
  function GetBatchSize(r: Record, spec: AxisSpec): (res: Result<nat>)
    ensures res.Ok? <==>
              forall k1, k2 :: IsBatchedList(r, spec, k1) && IsBatchedList(r, spec, k2) ==>
                |r[k1].items| == |r[k2].items|
    ensures res.Ok? ==> forall k :: IsBatchedList(r, spec, k) ==> |r[k].items| == res.value
    ensures res.Ok? && (forall k :: !IsBatchedList(r, spec, k)) ==> res.value == 1
    ensures res.Err? ==> res.error == InconsistentBatchSizes(BatchSizes(r, spec))
  {
    var sizes := BatchSizes(r, spec);
    if sizes == {} then Ok(1)
    else if AllEqual(sizes) then
      var n :| n in sizes; Ok(n)
    else
      Err(InconsistentBatchSizes(sizes))
  }

  /** Field `key` is passed through unsliced by `_prepare_batched_inputs`:
      a batched, non-empty list. */
  predicate KeptWhole(r: Record, spec: AxisSpec, key: string)
  {
    IsBatchedList(r, spec, key) && |r[key].items| > 0
  }

  /** `[v] * n` */
  function Replicate(v: Value, n: nat): (col: seq<Value>)
    ensures |col| == n
    ensures forall i :: 0 <= i < n ==> col[i] == v
  {
    seq(n, _ => v)
  }

  /** `_prepare_batched_inputs(inputs, in_axes, batch_size)`: a column-form
      record in which a batched non-empty list stays as it is and every other
      field (an empty list included) becomes `batch_size` copies of itself. */
  function PrepareBatchedInputs(r: Record, spec: AxisSpec, batchSize: nat): (cols: Record)
    ensures cols.Keys == r.Keys
    ensures forall k :: IsBatchedList(r, spec, k) && r[k].items != [] ==> cols[k] == r[k]
    ensures forall k :: k in r && !IsBatched(spec, k) ==> cols[k] == List(Replicate(r[k], batchSize))
    ensures forall k :: k in r && !r[k].List? ==> cols[k] == List(Replicate(r[k], batchSize))
    ensures forall k :: k in r && r[k] == List([]) ==> cols[k] == List(Replicate(List([]), batchSize))
  {
    map k | k in r :: if KeptWhole(r, spec, k) then r[k] else List(Replicate(r[k], batchSize))
  }

  /** Every field of `cols` is a list of `n` entries. */
  predicate ColumnsOfLength(cols: Record, n: nat)
  {
    forall k :: k in cols ==> cols[k].List? && |cols[k].items| == n
  }

  /** The record of item `i`: entry `i` of every column. */
  function ItemAt(cols: Record, n: nat, i: nat): (item: Record)
    requires ColumnsOfLength(cols, n) && i < n
    ensures item.Keys == cols.Keys
  {
    map k | k in cols :: cols[k].items[i]
  }

  /** The per-item input records the wrapper dispatches, in index order. */
  function Items(cols: Record, n: nat): (items: seq<Record>)
    requires ColumnsOfLength(cols, n)
    ensures |items| == n
  {
    seq(n, i requires 0 <= i < n => ItemAt(cols, n, i))
  }

  /** Once the batch size is inferred, every prepared column has exactly
      that many entries. */
  lemma PreparedColumnsHaveBatchSize(r: Record, spec: AxisSpec, n: nat)
    requires GetBatchSize(r, spec) == Ok(n)
    ensures ColumnsOfLength(PrepareBatchedInputs(r, spec, n), n)
  {
    var cols := PrepareBatchedInputs(r, spec, n);
    forall k | k in cols
      ensures cols[k].List? && |cols[k].items| == n
    {
      if KeptWhole(r, spec, k) {
        assert |r[k].items| == n;
      }
    }
  }

  /** The records `r` expands into, given its inferred batch size. */
  function Expand(r: Record, spec: AxisSpec, n: nat): (items: seq<Record>)
    requires GetBatchSize(r, spec) == Ok(n)
    ensures |items| == n
  {
    PreparedColumnsHaveBatchSize(r, spec, n);
    Items(PrepareBatchedInputs(r, spec, n), n)
  }

  /** Item `i` holds entry `i` of every batched list field (so batched fields
      are paired element-wise) and the unsliced value of every other field. */
  lemma ExpandAt(r: Record, spec: AxisSpec, n: nat, i: nat)
    requires GetBatchSize(r, spec) == Ok(n) && i < n
    ensures Expand(r, spec, n)[i].Keys == r.Keys
    ensures forall k :: IsBatchedList(r, spec, k) ==> Expand(r, spec, n)[i][k] == r[k].items[i]
    ensures forall k :: k in r && !IsBatchedList(r, spec, k) ==> Expand(r, spec, n)[i][k] == r[k]
  {
  }

  /** A field that is not a batched list (a `config` dict, say) does not
      affect the batch size, whatever non-batched value it is given. */
  lemma NonListFieldIgnored(r: Record, spec: AxisSpec, key: string, v: Value)
    requires !IsBatchedList(r, spec, key) && !IsBatchedList(r[key := v], spec, key)
    ensures GetBatchSize(r[key := v], spec) == GetBatchSize(r, spec)
  {
    var r' := r[key := v];
    forall n | n in BatchSizes(r', spec) ensures n in BatchSizes(r, spec) {
      var k :| IsBatchedList(r', spec, k) && |r'[k].items| == n;
      assert k != key && r'[k] == r[k];
    }
    forall n | n in BatchSizes(r, spec) ensures n in BatchSizes(r', spec) {
      var k :| IsBatchedList(r, spec, k) && |r[k].items| == n;
      assert k != key && r'[k] == r[k];
    }
    assert BatchSizes(r', spec) == BatchSizes(r, spec);
  }

  /** The per-field map that batches every field of `r`. */
  function AllBatched(r: Record): (spec: AxisSpec)
    ensures spec.PerField? && spec.axes.Keys == r.Keys
  {
    PerField(map k | k in r :: Batched)
  }

  /** Under the uniform axis `0` and under a per-field map with `0` for
      every field, the same fields are batched lists. */
  lemma SameBatchedLists(r: Record, k: string)
    ensures IsBatchedList(r, Uniform, k) == IsBatchedList(r, AllBatched(r), k)
  {
  }

  /** The uniform axis `0` means batching every field: it infers the same
      batch size as a per-field map with `0` for every field. */
  lemma UniformMeansEveryFieldBatched(r: Record)
    ensures GetBatchSize(r, Uniform) == GetBatchSize(r, AllBatched(r))
  {
    forall k ensures IsBatchedList(r, Uniform, k) == IsBatchedList(r, AllBatched(r), k) {
      SameBatchedLists(r, k);
    }
    assert BatchSizes(r, Uniform) == BatchSizes(r, AllBatched(r));
  }

  /** ... and it prepares the same columns. */
  lemma UniformPreparesAsEveryFieldBatched(r: Record, n: nat)
    ensures PrepareBatchedInputs(r, Uniform, n) == PrepareBatchedInputs(r, AllBatched(r), n)
  {
    var a, b := PrepareBatchedInputs(r, Uniform, n), PrepareBatchedInputs(r, AllBatched(r), n);
    forall k | k in r ensures a[k] == b[k] {
      SameBatchedLists(r, k);
      assert KeptWhole(r, Uniform, k) == KeptWhole(r, AllBatched(r), k);
    }
  }
}
