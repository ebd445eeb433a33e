/** Laws of the vectorised call: empty batches, errors, order of results,
    the identity and composition properties, and the stateful operator's
    history. */
module TransformLaws {
  import opened Values
  import opened BatchPlanner
  import opened Combine
  import opened Transforms

  /** An empty batch returns `{"results": []}` without calling the
      operator, whatever the operator. */
  lemma EmptyBatch(op: Operator, inputs: Record, spec: AxisSpec)
    requires GetBatchSize(inputs, spec) == Ok(0)
    ensures Invocations(inputs, spec) == []
    ensures VMap(op, inputs, spec) == Ok(EmptyResults)
  {
  }

  /** Two batched list fields of different lengths fail the call with
      "Inconsistent batch sizes" before the operator is called at all. */
  lemma InconsistentBatchFailsBeforeDispatch(op: Operator, inputs: Record, spec: AxisSpec, k1: string, k2: string)
    requires IsBatchedList(inputs, spec, k1) && IsBatchedList(inputs, spec, k2)
    requires |inputs[k1].items| != |inputs[k2].items|
    ensures Invocations(inputs, spec) == []
    ensures VMap(op, inputs, spec).Err? && VMap(op, inputs, spec).error.InconsistentBatchSizes?
    ensures |inputs[k1].items| in VMap(op, inputs, spec).error.sizes
    ensures |inputs[k2].items| in VMap(op, inputs, spec).error.sizes
  {
  }

  /** The call succeeds exactly when the batch sizes agree and the operator
      succeeds on every item. */
  lemma SucceedsIffEveryItemSucceeds(op: Operator, inputs: Record, spec: AxisSpec)
    ensures VMap(op, inputs, spec).Ok? <==>
              GetBatchSize(inputs, spec).Ok? &&
              forall i :: 0 <= i < |Invocations(inputs, spec)| ==> op(Invocations(inputs, spec)[i]).Ok?
  {
  }

  /** When an item fails, the call raises the error of the first failing
      item: no result record is returned. */
  lemma FirstFailurePropagates(op: Operator, inputs: Record, spec: AxisSpec, i: int)
    requires FirstFailure(op, Invocations(inputs, spec), i)
    ensures VMap(op, inputs, spec) == Err(op(Invocations(inputs, spec)[i]).error)
  {
    var items := Invocations(inputs, spec);
    assert GetBatchSize(inputs, spec).Ok?;
    var res := Dispatch(op, items);
    assert res.Err?;
    var j :| FirstFailure(op, items, j) && res.error == op(items[j]).error;
    assert j == i;
  }

  /** A record without batched lists is one item: the operator receives the
      record itself. */
  lemma OneItemWithoutBatchedLists(inputs: Record, spec: AxisSpec)
    requires forall k :: !IsBatchedList(inputs, spec, k)
    ensures GetBatchSize(inputs, spec) == Ok(1)
    ensures Invocations(inputs, spec) == [inputs]
  {
    ExpandAt(inputs, spec, 1, 0);
    var item := Expand(inputs, spec, 1)[0];
    assert forall k :: k in inputs ==> item[k] == inputs[k];
    assert item == inputs;
  }

  /** Items that all succeed with one key set dispatch to outputs sharing
      that key set. */
  lemma DispatchWithKeys(op: Operator, items: seq<Record>, keys: set<string>)
    requires forall i :: 0 <= i < |items| ==> op(items[i]).Ok? && Normalize(op(items[i]).value).Keys == keys
    ensures Dispatch(op, items).Ok? && SameKeys(Dispatch(op, items).value, keys)
    ensures forall i :: 0 <= i < |items| ==> Dispatch(op, items).value[i] == op(items[i]).value
  {
  }

  /** A non-empty batch whose items all succeed yields the combined
      outputs. */
  lemma VMapCombinesDispatch(op: Operator, inputs: Record, spec: AxisSpec)
    requires GetBatchSize(inputs, spec).Ok? && Invocations(inputs, spec) != []
    requires Dispatch(op, Invocations(inputs, spec)).Ok?
    ensures VMap(op, inputs, spec) == Ok(Combined(Dispatch(op, Invocations(inputs, spec)).value))
  {
  }

  /** Outputs that share one key set, each field adding one entry, are
      combined field by field, each field holding the per-item values in
      input order. */
  lemma ResultsInOrder(op: Operator, inputs: Record, spec: AxisSpec, keys: set<string>)
    requires GetBatchSize(inputs, spec).Ok? && Invocations(inputs, spec) != []
    requires forall i :: 0 <= i < |Invocations(inputs, spec)| ==>
               op(Invocations(inputs, spec)[i]).Ok? &&
               Normalize(op(Invocations(inputs, spec)[i]).value).Keys == keys
    requires forall i, k :: 0 <= i < |Invocations(inputs, spec)| && k in keys ==>
               OneEntry(Normalize(op(Invocations(inputs, spec)[i]).value)[k])
    ensures VMap(op, inputs, spec).Ok? && VMap(op, inputs, spec).value.Keys == keys
    ensures forall k :: k in keys ==>
              VMap(op, inputs, spec).value[k].List? &&
              |VMap(op, inputs, spec).value[k].items| == |Invocations(inputs, spec)|
    ensures forall k, i :: k in keys && 0 <= i < |Invocations(inputs, spec)| ==>
              VMap(op, inputs, spec).value[k].items[i] ==
                Unwrap(Normalize(op(Invocations(inputs, spec)[i]).value)[k])
  {
    var items := Invocations(inputs, spec);
    DispatchWithKeys(op, items, keys);
    VMapCombinesDispatch(op, inputs, spec);
    var outs := Dispatch(op, items).value;
    assert OneEntryEach(outs);
    CombinedWhenSameKeys(outs, keys);
  }

  /** An operator whose every output is `{"results": v_i}` yields
      `{"results": ...}` holding what each `v_i` contributes, in item order;
      this covers the empty batch as well. */
  lemma ResultsFlat(op: Operator, inputs: Record, spec: AxisSpec, vals: seq<Value>)
    requires GetBatchSize(inputs, spec).Ok? && |vals| == |Invocations(inputs, spec)|
    requires forall i :: 0 <= i < |vals| ==>
               op(Invocations(inputs, spec)[i]).Ok? &&
               Normalize(op(Invocations(inputs, spec)[i]).value).Keys == {"results"} &&
               Normalize(op(Invocations(inputs, spec)[i]).value)["results"] == vals[i]
    ensures VMap(op, inputs, spec) == Ok(map["results" := List(Flat(vals))])
  {
    var items := Invocations(inputs, spec);
    if items == [] {
      assert GetBatchSize(inputs, spec) == Ok(0);
      EmptyBatch(op, inputs, spec);
    } else {
      DispatchResults(op, items, vals);
      VMapCombinesDispatch(op, inputs, spec);
    }
  }

  /** Items whose outputs are all `{"results": v_i}` dispatch and combine to
      `{"results": ...}` holding what each `v_i` contributes. */
  lemma DispatchResults(op: Operator, items: seq<Record>, vals: seq<Value>)
    requires items != [] && |vals| == |items|
    requires forall i :: 0 <= i < |items| ==>
               op(items[i]).Ok? &&
               Normalize(op(items[i]).value).Keys == {"results"} &&
               Normalize(op(items[i]).value)["results"] == vals[i]
    ensures Dispatch(op, items).Ok?
    ensures Combined(Dispatch(op, items).value) == map["results" := List(Flat(vals))]
  {
    DispatchWithKeys(op, items, {"results"});
    CombinedResults(Dispatch(op, items).value, vals);
  }

  /** An operator whose every output's `"results"` adds one entry yields the
      record `{"results": col}`, `col` holding those entries in item order. */
  lemma ResultsColumn(op: Operator, inputs: Record, spec: AxisSpec, col: seq<Value>)
    requires GetBatchSize(inputs, spec).Ok? && |col| == |Invocations(inputs, spec)|
    requires forall i :: 0 <= i < |col| ==>
               op(Invocations(inputs, spec)[i]).Ok? &&
               Normalize(op(Invocations(inputs, spec)[i]).value).Keys == {"results"} &&
               Contribution(Normalize(op(Invocations(inputs, spec)[i]).value)["results"]) == [col[i]]
    ensures VMap(op, inputs, spec) == Ok(map["results" := List(col)])
  {
    var items := Invocations(inputs, spec);
    var vals := seq(|col|, i requires 0 <= i < |col| => Normalize(op(items[i]).value)["results"]);
    FlatOfSingletons(vals, col);
    ResultsFlat(op, inputs, spec, vals);
  }

  /** The record `{"prompts": v}`. */
  function Prompts(v: Value): (r: Record)
  {
    map["prompts" := v]
  }

  /** A list of prompts is a batch of `{"prompts": p_i}` items, in order. */
  lemma PromptBatch(ps: seq<Value>)
    ensures GetBatchSize(Prompts(List(ps)), Uniform) == Ok(|ps|)
    ensures |Invocations(Prompts(List(ps)), Uniform)| == |ps|
    ensures forall i :: 0 <= i < |ps| ==> Invocations(Prompts(List(ps)), Uniform)[i] == Prompts(ps[i])
  {
    var r := Prompts(List(ps));
    assert IsBatchedList(r, Uniform, "prompts");
    forall i | 0 <= i < |ps| ensures Invocations(r, Uniform)[i] == Prompts(ps[i]) {
      ExpandAt(r, Uniform, |ps|, i);
    }
  }

  /** The `"results"` of `f(inputs)` in the tests, as a function of the
      prompts: `[h(p) for p in prompts]` for a list of prompts,
      `[h(prompts)]` otherwise. */
  function MapResults(h: Value -> Value): (results: Value -> Value)
  {
    (prompts: Value) => if prompts.List? then List(MapSeq(h, prompts.items)) else List([h(prompts)])
  }

  /** The operator `f(*, inputs)` built from a per-prompt function `h`. */
  function PromptMap(h: Value -> Value): (op: Operator)
  {
    (r: Record) => Ok(Dict(map["results" := MapResults(h)(GetOr(r, "prompts", List([])))]))
  }

  lemma PromptMapOnPrompt(h: Value -> Value, p: Value)
    ensures PromptMap(h)(Prompts(p)) == Ok(Dict(map["results" := MapResults(h)(p)]))
  {
    assert GetOr(Prompts(p), "prompts", List([])) == p;
  }

  /** An operator that answers each prompt `p` with `{"results": m(p)}`
      gives, over a list of prompts, what each `m(p_i)` contributes, in
      order. */
  lemma ResultsOverPrompts(op: Operator, m: Value -> Value, ps: seq<Value>)
    requires forall i :: 0 <= i < |ps| ==> op(Prompts(ps[i])) == Ok(Dict(map["results" := m(ps[i])]))
    ensures VMap(op, Prompts(List(ps)), Uniform) == Ok(map["results" := List(Flat(MapSeq(m, ps)))])
  {
    PromptBatch(ps);
    var vals := MapSeq(m, ps);
    forall i | 0 <= i < |ps|
      ensures Normalize(op(Prompts(ps[i])).value) == map["results" := vals[i]]
    {
    }
    ResultsFlat(op, Prompts(List(ps)), Uniform, vals);
  }

  /** Vectorising a per-prompt operator over a list of prompts gives, in
      order, what each prompt's `"results"` contributes: one entry for a
      plain prompt or a one-element list prompt, nothing for an empty list
      prompt, the whole processed list for a longer list prompt. */
  lemma VMapOverPromptList(h: Value -> Value, ps: seq<Value>)
    ensures VMap(PromptMap(h), Prompts(List(ps)), Uniform) ==
              Ok(map["results" := List(Flat(MapSeq(MapResults(h), ps)))])
  {
    forall i | 0 <= i < |ps| {
      PromptMapOnPrompt(h, ps[i]);
    }
    ResultsOverPrompts(PromptMap(h), MapResults(h), ps);
  }

  /** Over plain (non-list) prompts a per-prompt operator yields `h(p_i)`
      in order. */
  lemma VMapOverPlainPrompts(h: Value -> Value, ps: seq<Value>)
    requires forall i :: 0 <= i < |ps| ==> !ps[i].List?
    ensures VMap(PromptMap(h), Prompts(List(ps)), Uniform) == Ok(map["results" := List(MapSeq(h, ps))])
  {
    VMapOverPromptList(h, ps);
    var vals := MapSeq(MapResults(h), ps);
    forall i | 0 <= i < |ps| ensures Contribution(vals[i]) == [MapSeq(h, ps)[i]] {
    }
    FlatOfSingletons(vals, MapSeq(h, ps));
  }

  /** A single, non-list prompt (a string, a dict, ...) is one item. */
  lemma VMapOverSinglePrompt(h: Value -> Value, v: Value)
    requires !v.List?
    ensures VMap(PromptMap(h), Prompts(v), Uniform) == Ok(map["results" := List([h(v)])])
  {
    assert "prompts" in Prompts(v);
    OneItemWithoutBatchedLists(Prompts(v), Uniform);
    PromptMapOnPrompt(h, v);
    ResultsColumn(PromptMap(h), Prompts(v), Uniform, [h(v)]);
  }

  /** A record with no `"prompts"` field and no batched list is one item on
      which a per-prompt operator sees no prompts: `{"results": []}`. */
  lemma PromptlessInputGivesEmptyResults(h: Value -> Value, inputs: Record, spec: AxisSpec)
    requires "prompts" !in inputs
    requires forall k :: !IsBatchedList(inputs, spec, k)
    ensures VMap(PromptMap(h), inputs, spec) == Ok(EmptyResults)
  {
    OneItemWithoutBatchedLists(inputs, spec);
    assert MapSeq(h, []) == [];
    assert GetOr(inputs, "prompts", List([])) == List([]);
    assert MapResults(h)(List([])) == List([]);
    assert PromptMap(h)(inputs) == Ok(Dict(map["results" := List([])]));
    ResultsFlat(PromptMap(h), inputs, spec, [List([])]);
    assert Flat([List([])]) == [];
  }

  /** The empty inputs of the empty-input property: `{}`, `{"prompts": []}`,
      `{"prompts": [], "config": {}}` and `{"config": {}, "metadata": None}`
      all give `{"results": []}` for a per-prompt operator. */
  lemma EmptyInputProperty(h: Value -> Value)
    ensures VMap(PromptMap(h), map[], Uniform) == Ok(EmptyResults)
    ensures VMap(PromptMap(h), map["prompts" := List([])], Uniform) == Ok(EmptyResults)
    ensures VMap(PromptMap(h), map["prompts" := List([]), "config" := Dict(map[])], Uniform) == Ok(EmptyResults)
    ensures VMap(PromptMap(h), map["config" := Dict(map[]), "metadata" := Null], Uniform) == Ok(EmptyResults)
  {
    EmptyRecordOnly(h);
    EmptyPromptsOnly(h);
    EmptyPromptsAndConfig(h);
    ConfigAndMetadataOnly(h);
  }

  lemma EmptyRecordOnly(h: Value -> Value)
    ensures VMap(PromptMap(h), map[], Uniform) == Ok(EmptyResults)
  {
    PromptlessInputGivesEmptyResults(h, map[], Uniform);
  }

  lemma EmptyPromptsOnly(h: Value -> Value)
    ensures VMap(PromptMap(h), map["prompts" := List([])], Uniform) == Ok(EmptyResults)
  {
    EmptyPromptList(PromptMap(h), map["prompts" := List([])]);
  }

  lemma EmptyPromptsAndConfig(h: Value -> Value)
    ensures VMap(PromptMap(h), map["prompts" := List([]), "config" := Dict(map[])], Uniform) == Ok(EmptyResults)
  {
    var r: Record := map["prompts" := List([]), "config" := Dict(map[])];
    assert forall k :: k in r && k != "prompts" ==> k == "config";
    EmptyPromptList(PromptMap(h), r);
  }

  /** A record whose only batched list is an empty `"prompts"` is an empty
      batch. */
  lemma EmptyPromptList(op: Operator, r: Record)
    requires "prompts" in r && r["prompts"] == List([])
    requires forall k :: k in r && k != "prompts" ==> !r[k].List?
    ensures VMap(op, r, Uniform) == Ok(EmptyResults)
  {
    assert IsBatchedList(r, Uniform, "prompts");
    assert forall k :: IsBatchedList(r, Uniform, k) ==> k == "prompts";
    EmptyBatch(op, r, Uniform);
  }

  lemma ConfigAndMetadataOnly(h: Value -> Value)
    ensures VMap(PromptMap(h), map["config" := Dict(map[]), "metadata" := Null], Uniform) == Ok(EmptyResults)
  {
    var r: Record := map["config" := Dict(map[]), "metadata" := Null];
    assert forall k :: k in r ==> !r[k].List?;
    PromptlessInputGivesEmptyResults(h, r, Uniform);
  }

  /** `identity_fn`: `{"results": inputs.get("prompts", [])}`. */
  function Identity(): (op: Operator)
  {
    (r: Record) => Ok(Dict(map["results" := GetOr(r, "prompts", List([]))]))
  }

  /** A list of at most one element: a prompt the unwrapping changes. */
  predicate IsShortList(v: Value)
  {
    v.List? && |v.items| <= 1
  }

  /** Vectorising the identity gives the contributions of the prompts, in
      order. */
  lemma VMapOfIdentity(ps: seq<Value>)
    ensures VMap(Identity(), Prompts(List(ps)), Uniform) == Ok(map["results" := List(Flat(ps))])
  {
    var id := (p: Value) => p;
    forall i | 0 <= i < |ps| ensures Identity()(Prompts(ps[i])) == Ok(Dict(map["results" := id(ps[i])])) {
      assert GetOr(Prompts(ps[i]), "prompts", List([])) == ps[i];
    }
    ResultsOverPrompts(Identity(), id, ps);
    assert MapSeq(id, ps) == ps;
  }

  /** Vectorising the identity returns the batched prompts unchanged, as long
      as no prompt is a list of at most one element (those are unwrapped). */
  lemma IdentityPreservesPrompts(ps: seq<Value>)
    requires forall i :: 0 <= i < |ps| ==> !IsShortList(ps[i])
    ensures VMap(Identity(), Prompts(List(ps)), Uniform) == Ok(map["results" := List(ps)])
  {
    VMapOfIdentity(ps);
    FlatOfSingletons(ps, ps);
  }

  /** The one-level unwrapping shows through the identity: a one-element list
      prompt comes back as its element. */
  lemma IdentityUnwrapsSingletonPrompt(x: Value)
    ensures VMap(Identity(), Prompts(List([List([x])])), Uniform) == Ok(map["results" := List([x])])
  {
    VMapOfIdentity([List([x])]);
    FlatOfOne(List([x]));
  }

  /** An empty list prompt comes back as nothing at all. */
  lemma IdentityDropsEmptyPrompt(x: Value)
    ensures VMap(Identity(), Prompts(List([List([]), x])), Uniform) == Ok(map["results" := List(Contribution(x))])
  {
    VMapOfIdentity([List([]), x]);
    FlatConcat([List([])], [x]);
    FlatOfOne(List([]));
    FlatOfOne(x);
    assert [List([])] + [x] == [List([]), x];
  }

  /** `compose_fg`: run `f`, feed its `"results"` to `g` as `"prompts"`;
      a non-dict output of `f` raises a `TypeError` on subscription, a dict
      without `"results"` a `KeyError`. */
  function Compose(f: Operator, g: Operator): (fg: Operator)
  {
    (r: Record) =>
      match f(r)
      case Err(e) => Err(e)
      case Ok(v) =>
        if !v.Dict? then Err(Raised("TypeError"))
        else if "results" !in v.fields then Err(Raised("KeyError: 'results'"))
        else g(Prompts(v.fields["results"]))
  }

  /** The `"results"` value `compose_fg` gives for a prompt. */
  function ComposedMapper(hf: Value -> Value, hg: Value -> Value): (results: Value -> Value)
  {
    p => MapResults(hg)(MapResults(hf)(p))
  }

  lemma ComposeOnPrompt(hf: Value -> Value, hg: Value -> Value, p: Value)
    ensures Compose(PromptMap(hf), PromptMap(hg))(Prompts(p)) ==
              Ok(Dict(map["results" := ComposedMapper(hf, hg)(p)]))
  {
    PromptMapOnPrompt(hf, p);
    PromptMapOnPrompt(hg, MapResults(hf)(p));
  }

  /** `vmap(compose_fg)` gives, in order, what `g(f(p_i))` contributes. */
  lemma VMapOfComposition(hf: Value -> Value, hg: Value -> Value, ps: seq<Value>)
    ensures VMap(Compose(PromptMap(hf), PromptMap(hg)), Prompts(List(ps)), Uniform) ==
              Ok(map["results" := List(Flat(MapSeq(ComposedMapper(hf, hg), ps)))])
  {
    forall i | 0 <= i < |ps| {
      ComposeOnPrompt(hf, hg, ps[i]);
    }
    ResultsOverPrompts(Compose(PromptMap(hf), PromptMap(hg)), ComposedMapper(hf, hg), ps);
  }

  lemma FlatOfOne(v: Value)
    ensures Flat([v]) == Contribution(v)
  {
    assert [v][..0] == [];
  }

  /** The flattened results of `m` over a non-empty list of prompts end with
      what its last prompt contributes. */
  lemma FlatMapSnoc(m: Value -> Value, ps: seq<Value>)
    requires ps != []
    ensures Flat(MapSeq(m, ps)) == Flat(MapSeq(m, ps[..|ps| - 1])) + Contribution(m(ps[|ps| - 1]))
  {
    MapSeqPrefix(m, ps, |ps| - 1);
  }

  /** Running `g` over a concatenation of results runs it over each part. */
  lemma RegroupConcat(hg: Value -> Value, a: seq<Value>, b: seq<Value>)
    ensures Flat(MapSeq(MapResults(hg), a + b)) == Flat(MapSeq(MapResults(hg), a)) + Flat(MapSeq(MapResults(hg), b))
  {
    MapSeqConcat(MapResults(hg), a, b);
    FlatConcat(MapSeq(MapResults(hg), a), MapSeq(MapResults(hg), b));
  }

  /** On one prompt, `vmap(g)` over what `f` contributes equals what
      `compose_fg` contributes, when `f` never returns a list. */
  lemma RegroupOnePrompt(hf: Value -> Value, hg: Value -> Value, p: Value)
    requires forall x :: !hf(x).List?
    ensures Flat(MapSeq(MapResults(hg), Contribution(MapResults(hf)(p)))) ==
            Contribution(ComposedMapper(hf, hg)(p))
  {
    var r := MapResults(hf)(p);
    if !p.List? || |p.items| == 1 {
      var x := if p.List? then p.items[0] else p;
      assert MapSeq(hf, [x]) == [hf(x)];
      assert r == List([hf(x)]);
      assert Contribution(r) == [hf(x)];
      assert MapSeq(MapResults(hg), [hf(x)]) == [MapResults(hg)(hf(x))];
      FlatOfOne(MapResults(hg)(hf(x)));
      assert MapSeq(hg, [hf(x)]) == [hg(hf(x))];
    } else if |p.items| == 0 {
      assert MapSeq(hf, []) == [];
      assert r == List([]);
      assert MapSeq(hg, []) == [];
    } else {
      assert Contribution(r) == [r];
      assert MapSeq(MapResults(hg), [r]) == [MapResults(hg)(r)];
      FlatOfOne(MapResults(hg)(r));
    }
  }

  /** `vmap(g)` after `vmap(f)` contributes, prompt by prompt, what
      `compose_fg` contributes. */
  lemma {:induction false} RegroupAll(hf: Value -> Value, hg: Value -> Value, ps: seq<Value>)
    requires forall x :: !hf(x).List?
    ensures Flat(MapSeq(MapResults(hg), Flat(MapSeq(MapResults(hf), ps)))) == Flat(MapSeq(ComposedMapper(hf, hg), ps))
  {
    if ps != [] {
      var n := |ps| - 1;
      var init := ps[..n];
      RegroupAll(hf, hg, init);
      FlatMapSnoc(MapResults(hf), ps);
      FlatMapSnoc(ComposedMapper(hf, hg), ps);
      RegroupConcat(hg, Flat(MapSeq(MapResults(hf), init)), Contribution(MapResults(hf)(ps[n])));
      RegroupOnePrompt(hf, hg, ps[n]);
    }
  }

  /** `vmap(op)` with the default axis, as an operator returning the
      combined record as a dict. */
  function Vectorised(op: Operator): (vop: Operator)
  {
    (r: Record) =>
      match VMap(op, r, Uniform)
      case Ok(rec) => Ok(Dict(rec))
      case Err(e) => Err(e)
  }

  lemma VectorisedOverPromptList(h: Value -> Value, ps: seq<Value>)
    ensures Vectorised(PromptMap(h))(Prompts(List(ps))) ==
              Ok(Dict(map["results" := List(Flat(MapSeq(MapResults(h), ps)))]))
  {
    VMapOverPromptList(h, ps);
  }

  /** vmap commutes with composition: `compose_vmap_fg`, which runs `vmap(f)`
      and feeds its `"results"` to `vmap(g)`, gives the same record as
      `vmap(compose_fg)`, on any batch of prompts, when `f` never returns a
      list. */
  lemma VMapCommutesWithComposition(hf: Value -> Value, hg: Value -> Value, ps: seq<Value>)
    requires forall x :: !hf(x).List?
    ensures Compose(Vectorised(PromptMap(hf)), Vectorised(PromptMap(hg)))(Prompts(List(ps))) ==
            Vectorised(Compose(PromptMap(hf), PromptMap(hg)))(Prompts(List(ps)))
  {
    var rs := Flat(MapSeq(MapResults(hf), ps));
    VectorisedOverPromptList(hf, ps);
    VectorisedOverPromptList(hg, rs);
    VMapOfComposition(hf, hg, ps);
    RegroupAll(hf, hg, ps);
  }
}
