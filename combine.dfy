/** Output combination of the vmap transform (`_combine_outputs`): the
    per-item outputs, in order, merged into one record of per-field lists. */
module Combine {
  import opened Values

  /** A per-item output as a record: a bare (non-dict) output goes under
      `"result"`. */
  function Normalize(out: Value): (m: Record)
  {
    if out.Dict? then out.fields else map["result" := out]
  }

  /** What one output value adds to the list of its key: the elements of a
      list holding at most one element (a one-element list is unwrapped one
      level, an empty list adds nothing), and any other value itself. */
  function Contribution(v: Value): (c: seq<Value>)
  {
    if v.List? && |v.items| <= 1 then v.items else [v]
  }

  /** `v` adds exactly one entry: it is not an empty list. */
  predicate OneEntry(v: Value)
  {
    !(v.List? && v.items == [])
  }

  /** The single entry a value adds: a one-element list stands for its
      element, any other value for itself. */
  function Unwrap(v: Value): (u: Value)
    ensures OneEntry(v) <==> Contribution(v) == [u]
    ensures !OneEntry(v) <==> Contribution(v) == []
  {
    if v.List? && |v.items| == 1 then v.items[0] else v
  }

  /** The keys of any of the outputs. */
  function Keys(outs: seq<Value>): (keys: set<string>)
  {
    if outs == [] then {} else Keys(outs[..|outs| - 1]) + Normalize(outs[|outs| - 1]).Keys
  }

  /** The column of `key`: in order, what the value of `key` in each output
      that has it contributes. */
  function Column(outs: seq<Value>, key: string): (col: seq<Value>)
  {
    if outs == [] then []
    else
      var last := Normalize(outs[|outs| - 1]);
      Column(outs[..|outs| - 1], key) + if key in last then Contribution(last[key]) else []
  }

  /** The combined record: one list-valued field per key of any output. */
  function Combined(outs: seq<Value>): (combined: Record)
  {
    map k | k in Keys(outs) :: List(Column(outs, k))
  }

  /** The contributions of `vals`, in order, one after the other. */
  function Flat(vals: seq<Value>): (col: seq<Value>)
  {
    if vals == [] then [] else Flat(vals[..|vals| - 1]) + Contribution(vals[|vals| - 1])
  }

  /** The column of a key every output has is the flattened sequence of its
      values. */
  lemma {:induction false} ColumnOfValues(outs: seq<Value>, k: string, vals: seq<Value>)
    requires |vals| == |outs|
    requires forall i :: 0 <= i < |outs| ==> k in Normalize(outs[i]) && Normalize(outs[i])[k] == vals[i]
    ensures Column(outs, k) == Flat(vals)
  {
    if outs != [] {
      var n := |outs| - 1;
      forall i | 0 <= i < n
        ensures k in Normalize(outs[..n][i]) && Normalize(outs[..n][i])[k] == vals[..n][i]
      {
        assert outs[..n][i] == outs[i] && vals[..n][i] == vals[i];
      }
      ColumnOfValues(outs[..n], k, vals[..n]);
    }
  }

  /** Values that each add a single entry flatten to those entries. */
  lemma {:induction false} FlatOfSingletons(vals: seq<Value>, col: seq<Value>)
    requires |vals| == |col| && forall i :: 0 <= i < |vals| ==> Contribution(vals[i]) == [col[i]]
    ensures Flat(vals) == col
  {
    if vals != [] {
      var n := |vals| - 1;
      forall i | 0 <= i < n ensures Contribution(vals[..n][i]) == [col[..n][i]] {
        assert vals[..n][i] == vals[i] && col[..n][i] == col[i];
      }
      FlatOfSingletons(vals[..n], col[..n]);
      assert Flat(vals) == Flat(vals[..n]) + Contribution(vals[n]);
      assert Contribution(vals[n]) == [col[n]];
      assert col == col[..n] + [col[n]];
    }
  }

  /** Flattening distributes over concatenation. */
  lemma {:induction false} FlatConcat(a: seq<Value>, b: seq<Value>)
    ensures Flat(a + b) == Flat(a) + Flat(b)
  {
    if b == [] {
      assert a + b == a;
    } else {
      var n := |b| - 1;
      assert (a + b)[..|a + b| - 1] == a + b[..n];
      FlatConcat(a, b[..n]);
    }
  }

  /** Every output, as a record, has exactly the keys `keys`. */
  predicate SameKeys(outs: seq<Value>, keys: set<string>)
  {
    forall i :: 0 <= i < |outs| ==> Normalize(outs[i]).Keys == keys
  }

  /** Every field of every output adds exactly one entry. */
  predicate OneEntryEach(outs: seq<Value>)
  {
    forall i, k :: 0 <= i < |outs| && k in Normalize(outs[i]) ==> OneEntry(Normalize(outs[i])[k])
  }

  lemma SameKeysPrefix(outs: seq<Value>, keys: set<string>)
    requires SameKeys(outs, keys) && outs != []
    ensures SameKeys(outs[..|outs| - 1], keys)
    ensures OneEntryEach(outs) ==> OneEntryEach(outs[..|outs| - 1])
  {
    var init := outs[..|outs| - 1];
    forall i | 0 <= i < |init| ensures init[i] == outs[i] {
    }
  }

  /** Outputs with a common key set have exactly those keys (none for no
      output). */
  lemma {:induction false} KeysWhenSameKeys(outs: seq<Value>, keys: set<string>)
    requires SameKeys(outs, keys)
    ensures Keys(outs) == if outs == [] then {} else keys
  {
    if outs != [] {
      SameKeysPrefix(outs, keys);
      KeysWhenSameKeys(outs[..|outs| - 1], keys);
    }
  }

  /** Outputs sharing one key set combine to a record with those keys, each
      field holding what that field's values contribute, in order. */
  lemma CombinedColumn(outs: seq<Value>, keys: set<string>, k: string, vals: seq<Value>)
    requires SameKeys(outs, keys) && outs != [] && k in keys
    requires |vals| == |outs| && forall i :: 0 <= i < |outs| ==> Normalize(outs[i])[k] == vals[i]
    ensures Combined(outs).Keys == keys
    ensures Combined(outs)[k] == List(Flat(vals))
  {
    KeysWhenSameKeys(outs, keys);
    ColumnOfValues(outs, k, vals);
  }

  /** Outputs that are all `{"results": v_i}` combine to `{"results": ...}`
      holding what each `v_i` contributes, in order. */
  lemma CombinedResults(outs: seq<Value>, vals: seq<Value>)
    requires outs != [] && |vals| == |outs|
    requires forall i :: 0 <= i < |outs| ==>
               Normalize(outs[i]).Keys == {"results"} && Normalize(outs[i])["results"] == vals[i]
    ensures Combined(outs) == map["results" := List(Flat(vals))]
  {
    CombinedColumn(outs, {"results"}, "results", vals);
    OneField(Combined(outs), "results", List(Flat(vals)));
  }

  /** When every output has the key `k`, its column holds, in order, one
      (unwrapped) value per output. */
  lemma {:induction false} ColumnWhenSameKeys(outs: seq<Value>, keys: set<string>, k: string)
    requires SameKeys(outs, keys) && OneEntryEach(outs) && k in keys
    ensures |Column(outs, k)| == |outs|
    ensures forall i :: 0 <= i < |outs| ==> Column(outs, k)[i] == Unwrap(Normalize(outs[i])[k])
  {
    if outs != [] {
      var init := outs[..|outs| - 1];
      SameKeysPrefix(outs, keys);
      ColumnWhenSameKeys(init, keys, k);
      var col, before := Column(outs, k), Column(init, k);
      var last := Normalize(outs[|outs| - 1]);
      assert OneEntry(last[k]);
      assert col == before + [Unwrap(last[k])];
      forall i | 0 <= i < |init|
        ensures col[i] == Unwrap(Normalize(outs[i])[k])
      {
        assert col[i] == before[i];
        assert init[i] == outs[i];
      }
    }
  }

  /** Combining `[]` gives `{}`; outputs with a common key set, each field
      adding one entry, give for each key a list of the per-item values in
      order. */
  lemma CombinedWhenSameKeys(outs: seq<Value>, keys: set<string>)
    requires SameKeys(outs, keys) && OneEntryEach(outs)
    ensures outs == [] ==> Combined(outs) == map[]
    ensures outs != [] ==> Combined(outs).Keys == keys
    ensures forall k :: k in keys && outs != [] ==>
              Combined(outs)[k].List? && |Combined(outs)[k].items| == |outs|
    ensures forall k, i :: k in keys && 0 <= i < |outs| ==>
              Combined(outs)[k].items[i] == Unwrap(Normalize(outs[i])[k])
  {
    KeysWhenSameKeys(outs, keys);
    forall k | k in keys
      ensures |Column(outs, k)| == |outs|
      ensures forall i :: 0 <= i < |outs| ==> Column(outs, k)[i] == Unwrap(Normalize(outs[i])[k])
    {
      ColumnWhenSameKeys(outs, keys, k);
    }
  }

  /** Bare outputs are gathered, in order, under the single key `"result"`. */
  lemma CombinedBare(outs: seq<Value>)
    requires outs != []
    requires forall i :: 0 <= i < |outs| ==> !outs[i].Dict? && OneEntry(outs[i])
    ensures Combined(outs) == map["result" := List(MapSeq(Unwrap, outs))]
  {
    forall i | 0 <= i < |outs| ensures Normalize(outs[i]) == map["result" := outs[i]] {
    }
    assert SameKeys(outs, {"result"});
    assert OneEntryEach(outs);
    CombinedWhenSameKeys(outs, {"result"});
    assert Combined(outs)["result"].items == MapSeq(Unwrap, outs);
    OneField(Combined(outs), "result", List(MapSeq(Unwrap, outs)));
  }

  /** A key no output has has an empty column. */
  lemma {:induction false} ColumnOutsideKeys(outs: seq<Value>, k: string)
    requires k !in Keys(outs)
    ensures Column(outs, k) == []
  {
    if outs != [] {
      ColumnOutsideKeys(outs[..|outs| - 1], k);
    }
  }

  /** The accumulator holds the columns of the outputs merged so far. */
  predicate Accumulated(acc: map<string, seq<Value>>, outs: seq<Value>)
  {
    acc.Keys == Keys(outs) && forall k :: k in acc ==> acc[k] == Column(outs, k)
  }

  /** The accumulator after appending what each field of one more output
      record `m` contributes to its list. */
  function AppendRow(acc: map<string, seq<Value>>, m: Record): (next: map<string, seq<Value>>)
  {
    map k | k in acc.Keys + m.Keys ::
      (if k in acc then acc[k] else []) + (if k in m then Contribution(m[k]) else [])
  }

  /** Appending the record of the next output keeps the accumulator equal to
      the columns of the outputs merged so far. */
  lemma AppendRowAccumulates(acc: map<string, seq<Value>>, outs: seq<Value>, v: Value)
    requires Accumulated(acc, outs)
    ensures Accumulated(AppendRow(acc, Normalize(v)), outs + [v])
  {
    var done := outs + [v];
    assert done[..|outs|] == outs && done[|outs|] == v;
    var next := AppendRow(acc, Normalize(v));
    forall k | k in next ensures next[k] == Column(done, k) {
      if k !in acc {
        ColumnOutsideKeys(outs, k);
      }
    }
  }

  /** The inner loop of `_combine_outputs`: appends what each field of `m`
      contributes to the list of its key, one key at a time. */
  method MergeRow(acc: map<string, seq<Value>>, m: Record) returns (next: map<string, seq<Value>>)
    ensures next == AppendRow(acc, m)
  {
    next := acc;
    var pending := m.Keys;
    while pending != {}
      invariant pending <= m.Keys
      invariant next.Keys == acc.Keys + (m.Keys - pending)
      invariant forall k :: k in next ==>
                  next[k] == if k in m && k !in pending then
                               (if k in acc then acc[k] else []) + Contribution(m[k])
                             else acc[k]
      decreases pending
    {
      var k :| k in pending;
      next := next[k := (if k in next then next[k] else []) + Contribution(m[k])];
      pending := pending - {k};
    }
    forall k | k in next && k !in m ensures next[k] == acc[k] + [] {
      assert acc[k] + [] == acc[k];
    }
  }

  /** `_combine_outputs(results)`: accumulates per-key lists item by item. */
  method CombineOutputs(results: seq<Value>) returns (combined: Record)
    ensures combined == Combined(results)
  {
    var acc: map<string, seq<Value>> := map[];
    var i := 0;
    while i < |results|
      invariant 0 <= i <= |results|
      invariant Accumulated(acc, results[..i])
    {
      AppendRowAccumulates(acc, results[..i], results[i]);
      assert results[..i] + [results[i]] == results[..i + 1];
      acc := MergeRow(acc, Normalize(results[i]));
      i := i + 1;
    }
    assert results[..i] == results;
    combined := map k | k in acc :: List(acc[k]);
  }

  /** The model's reading of the one-level unwrapping for bare outputs: a
      bare one-element list is unwrapped like a dict field would be. */
  lemma BareSingletonUnwrapped(x: Value)
    requires !x.Dict?
    ensures Combined([List([x])]) == map["result" := List([x])]
  {
    CombinedBare([List([x])]);
    assert MapSeq(Unwrap, [List([x])]) == [x];
  }

  /** The model's reading of an empty list value: it adds nothing to its
      key's list, so `{"results": []}` next to `{"results": ["a"]}` gives
      `{"results": ["a"]}`. */
  lemma EmptyListAddsNothing()
    ensures Combined([Dict(map["results" := List([])]), Dict(map["results" := List([Str("a")])])]) ==
              map["results" := List([Str("a")])]
  {
    var outs := [Dict(map["results" := List([])]), Dict(map["results" := List([Str("a")])])];
    assert Normalize(outs[0]) == map["results" := List([])];
    assert Normalize(outs[1]) == map["results" := List([Str("a")])];
    assert SameKeys(outs, {"results"});
    KeysWhenSameKeys(outs, {"results"});
    ColumnOfValues(outs, "results", [List([]), List([Str("a")])]);
    assert [List([]), List([Str("a")])][..1] == [List([])];
    assert [List([])][..0] == [];
    OneField(Combined(outs), "results", List([Str("a")]));
  }
}
