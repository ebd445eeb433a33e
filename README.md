# vmap batch vectorisation and chat prompt building, in Dafny

This project models two pieces of the ember orchestration layer.

1. **The `vmap` transform.** It turns an operator that handles one input
   record into an operator that handles a batch. The model has four parts:
   - `_get_batch_size`: infers the batch size from the list-valued batched
     fields.
   - `_prepare_batched_inputs`: puts the record into column form. Each
     non-batched field (and each empty list) is replicated `batch_size`
     times.
   - The wrapper: slices the columns into one record per item and calls the
     operator once per item, in index order. The first failing item fails
     the whole call.
   - `_combine_outputs`: merges the per-item outputs into one record of
     per-key lists. A bare (non-dict) output goes under `"result"`, and a
     one-element list value is unwrapped one level. The model adds one rule
     of its own: an empty list value adds nothing to its key's list. No test
     of `_combine_outputs` contains an empty list value. The rule is inferred
     from the `vmap` tests in which a one-item batch returns empty results:
     `{}` (test lines 183-185) and `{"config": {}, "metadata": None}` (test
     line 380).

   A stateful operator that counts its calls and records its history is a
   class, and its vectorised call is a method that updates that state.
2. **`BaseChatParameters.build_prompt`.** It prepends a non-empty context to
   the prompt, separated by a blank line.

Records are `map<string, Value>`. A value is a string, an integer, `None`, a
list or a dict. An operator is a function `Record -> Result<Value>`, where
`Err` stands for a raised exception. An input record without batched lists,
the empty record `{}` included, is one item: the operator is called once,
on the record itself. `in_axes` is either the uniform axis
`0` (`Uniform`) or a per-field map of `0` / `None` (`PerField`). A field
missing from that map is replicated.

The module that implements `vmap` is not part of this model. Its behaviour
comes from the tests that exercise it directly,
`tests/unit/xcs/transforms/test_vmap.py`. Two choices are fixed by those
tests: a batched field that is not a list is ignored rather than counted as
size 1, and an empty batched list is replicated rather than kept whole:
- A batched field that is not a list (a `config` dict under the uniform
  axis, say) does not count towards the batch size.
  `{"prompts": [a, b, c], "config": {...}}` under axis `0` has batch size 3,
  not an inconsistency between 3 and 1 (test lines 69-70).
- An empty batched list is replicated by `_prepare_batched_inputs`, like a
  scalar (test lines 108-111).

Modules:
- `Values` (values.dfy): values, records, `Option`, `Result`, errors.
- `BatchPlanner` (batch_planner.dfy): batch-size inference, input
  preparation, per-item records.
- `Combine` (combine.dfy): output combination, as a specification function
  and as the accumulating loop.
- `Transforms` (vmap.dfy): per-item dispatch, the vectorised call as a
  function, and the loop that runs it.
- `TransformLaws` (vmap_laws.dfy): laws for the empty batch, errors, order,
  identity and composition.
- `StatefulOperators` (stateful_operator.dfy): the operator with
  `call_count` and `history`, and the vectorised call that drives it.
- `HelperCases` (test_cases.dfy): the concrete cases of the helper unit
  tests, as facts about the model. The cases that only illustrate the
  model's own combination rules are `Combine.BareSingletonUnwrapped` and
  `Combine.EmptyListAddsNothing`.
- `BaseProvider` (base_provider.dfy): `BaseChatParameters` and
  `build_prompt`.

## Model

| member | source | states |
|---|---|---|
| BatchPlanner.GetBatchSize | tests/unit/xcs/transforms/test_vmap.py:63-86 | The call succeeds exactly when all batched list fields have the same length. The result is that common length, or 1 when there is no batched list. On failure it returns an "inconsistent batch sizes" error carrying the set of lengths found. |
| BatchPlanner.BatchSizes | tests/unit/xcs/transforms/test_vmap.py:77-81 | The sizes are exactly the lengths of the batched list fields: each such length is in the set, and each element of the set is the length of some batched list. |
| BatchPlanner.NonListFieldIgnored | tests/unit/xcs/transforms/test_vmap.py:69-70 | Replacing a field that is not a batched list with any other value that is not a batched list leaves the inferred batch size (or the error) unchanged. |
| BatchPlanner.UniformMeansEveryFieldBatched | tests/unit/xcs/transforms/test_vmap.py:68-75 | The uniform axis `0` infers the same batch size as a per-field map that gives `0` to every field. |
| BatchPlanner.UniformPreparesAsEveryFieldBatched | tests/unit/xcs/transforms/test_vmap.py:90-100 | The uniform axis `0` prepares the same columns as a per-field map that gives `0` to every field. |
| BatchPlanner.PrepareBatchedInputs | tests/unit/xcs/transforms/test_vmap.py:88-111 | Every field is kept. A non-empty batched list is left unchanged. A field that is unlisted or `None`, a non-list field and an empty list each become `batch_size` copies of themselves. |
| BatchPlanner.PreparedColumnsHaveBatchSize | tests/unit/xcs/transforms/test_vmap.py:88-111 | Once the batch size `n` has been inferred, every prepared column is a list of exactly `n` entries. |
| BatchPlanner.ExpandAt | tests/unit/xcs/transforms/test_vmap.py:197-210 | Item `i` has every field of the input. A batched list field gives its entry `i`, so several batched fields are paired element-wise. Any other field gives its unsliced value. |
| BatchPlanner.Replicate | tests/unit/xcs/transforms/test_vmap.py:98-99 | `[v] * n` has length `n`, and every entry is `v`. |
| Combine.CombinedWhenSameKeys | tests/unit/xcs/transforms/test_vmap.py:113-148 | Combining no outputs gives `{}`. Outputs that share one key set, each field adding one entry, give exactly those keys, each holding a list of one value per output, in order, each one-element list unwrapped. |
| Combine.CombinedColumn | tests/unit/xcs/transforms/test_vmap.py:118-133 | Outputs that share one key set give exactly those keys, and each key holds what its values contribute, in output order. |
| Combine.CombinedResults | tests/unit/xcs/transforms/test_vmap.py:118-124 | Outputs that are all `{"results": v_i}` combine to exactly `{"results": ...}` holding what each `v_i` contributes, in order. |
| Combine.ColumnOfValues | tests/unit/xcs/transforms/test_vmap.py:118-148 | The list of a key that every output has is the flattening of that key's values, in output order. |
| Combine.FlatOfSingletons | tests/unit/xcs/transforms/test_vmap.py:140-148 | When each value contributes exactly one entry, the flattened list is those entries in order. |
| Combine.FlatConcat | tests/unit/xcs/transforms/test_vmap.py:372-386 | Flattening a concatenation is the concatenation of the flattenings, so empty lists drop out wherever they stand. |
| Combine.Unwrap | tests/unit/xcs/transforms/test_vmap.py:140-148 | A value adds exactly one entry (the unwrapped value) precisely when it is not an empty list, and it adds nothing precisely when it is one. |
| Combine.KeysWhenSameKeys | tests/unit/xcs/transforms/test_vmap.py:113-128 | The combined keys of outputs that share a key set are that set, and there are no keys for no outputs. |
| Combine.ColumnWhenSameKeys | tests/unit/xcs/transforms/test_vmap.py:120-128 | The column of a key every output has is as long as the outputs, and its entry `i` is output `i`'s value, unwrapped. |
| Combine.CombinedBare | tests/unit/xcs/transforms/test_vmap.py:135-138 | Bare outputs, none of them an empty list, combine to `{"result": [...]}` holding each output, unwrapped, in order. |
| Combine.ColumnOutsideKeys | tests/unit/xcs/transforms/test_vmap.py:113-148 | A key that no output has has an empty column. |
| Combine.AppendRowAccumulates | tests/unit/xcs/transforms/test_vmap.py:113-148 | Appending the fields of the next output to the per-key lists keeps the accumulator equal to the columns of the outputs merged so far. |
| Combine.MergeRow | tests/unit/xcs/transforms/test_vmap.py:113-148 | The per-key loop appends each field of one output record to the list of its key and leaves every other list as it is. |
| Combine.CombineOutputs | tests/unit/xcs/transforms/test_vmap.py:113-148 | The accumulating loop over the outputs returns the combined record. |
| Combine.BareSingletonUnwrapped | tests/unit/xcs/transforms/test_vmap.py:140-148 | The model's extension of the one-level unwrapping to bare outputs: a bare one-element list output `[x]` combines to `{"result": [x]}`. No test of `_combine_outputs` has this case. |
| Combine.EmptyListAddsNothing | tests/unit/xcs/transforms/test_vmap.py:372-386 | The model's empty-list rule, inferred from the one-item batches that return empty results: `{"results": []}` next to `{"results": ["a"]}` combines to `{"results": ["a"]}`. No test of `_combine_outputs` has this case. |
| Transforms.Dispatch | tests/unit/xcs/transforms/test_vmap.py:156-171 | Dispatch succeeds exactly when the operator succeeds on every item. It then returns one output per item, in order. Otherwise it returns the error of the first failing item. |
| Transforms.Invocations | tests/unit/xcs/transforms/test_vmap.py:173-185 | An inconsistent batch leads to no operator call. A consistent batch of size `n` leads to exactly `n` calls. |
| Transforms.DispatchSnoc | tests/unit/xcs/transforms/test_vmap.py:352-364 | One more successful item appends its output at the end of the dispatched outputs. |
| Transforms.FailureAt | tests/unit/xcs/transforms/test_vmap.py:280-294 | When every item before `i` succeeds and item `i` fails, the whole dispatch fails with item `i`'s error. |
| Transforms.VMapOfBatch | tests/unit/xcs/transforms/test_vmap.py:173-185 | For batch size `n`, the calls are the `n` expanded items. A batch size of 0 gives `{"results": []}`. Otherwise the result is the combined dispatch outputs, or the dispatch error. |
| Transforms.DispatchEach | tests/unit/xcs/transforms/test_vmap.py:156-171 | The per-item loop over the prepared columns, which stops at the first failure, computes the dispatch of the expanded items. |
| Transforms.Vectorize | tests/unit/xcs/transforms/test_vmap.py:156-185 | The vectorised call, run as infer, prepare, loop and combine, returns what the vectorised-call function specifies. |
| Transforms.Processed | tests/unit/xcs/transforms/test_vmap.py:237-245 | An output `{"results": [v]}` combines under `"results"` alone and contributes exactly `v`. |
| TransformLaws.EmptyBatch | tests/unit/xcs/transforms/test_vmap.py:372-386 | A batch of size 0 makes no operator call and returns `{"results": []}`, whatever the operator. |
| TransformLaws.EmptyInputProperty | tests/unit/xcs/transforms/test_vmap.py:372-386 | For a per-prompt operator, each of `{}`, `{"prompts": []}`, `{"prompts": [], "config": {}}` and `{"config": {}, "metadata": None}` gives `{"results": []}`. |
| TransformLaws.EmptyRecordOnly | tests/unit/xcs/transforms/test_vmap.py:181-184 | `{}` gives `{"results": []}` for a per-prompt operator. |
| TransformLaws.EmptyPromptsOnly | tests/unit/xcs/transforms/test_vmap.py:176-179 | `{"prompts": []}` gives `{"results": []}` for a per-prompt operator. |
| TransformLaws.EmptyPromptsAndConfig | tests/unit/xcs/transforms/test_vmap.py:379 | `{"prompts": [], "config": {}}` gives `{"results": []}` for a per-prompt operator. |
| TransformLaws.EmptyPromptList | tests/unit/xcs/transforms/test_vmap.py:173-179 | A record whose `"prompts"` is `[]` and whose other fields are not lists gives `{"results": []}` for any operator. |
| TransformLaws.PromptlessInputGivesEmptyResults | tests/unit/xcs/transforms/test_vmap.py:181-184 | A record without `"prompts"` and without batched lists is one item on which a per-prompt operator finds no prompts, so the call gives `{"results": []}`. |
| TransformLaws.ConfigAndMetadataOnly | tests/unit/xcs/transforms/test_vmap.py:380 | `{"config": {}, "metadata": None}` gives `{"results": []}` for a per-prompt operator. |
| TransformLaws.InconsistentBatchFailsBeforeDispatch | tests/unit/xcs/transforms/test_vmap.py:560-567 | Two batched lists of different lengths make no operator call, and the call fails with an inconsistent-batch-sizes error that names both lengths. |
| TransformLaws.SucceedsIffEveryItemSucceeds | tests/unit/xcs/transforms/test_vmap.py:280-294 | The call succeeds exactly when the batch sizes agree and the operator succeeds on every item. |
| TransformLaws.FirstFailurePropagates | tests/unit/xcs/transforms/test_vmap.py:286-294 | When item `i` is the first to fail, the call fails with exactly that item's error, and no result record is returned. |
| TransformLaws.OneItemWithoutBatchedLists | tests/unit/xcs/transforms/test_vmap.py:187-195 | A record without batched lists has batch size 1, and the operator is called once, on the record itself. |
| TransformLaws.DispatchWithKeys | tests/unit/xcs/transforms/test_vmap.py:306-330 | Items that all succeed with one key set dispatch to outputs that share that key set, and output `i` is the operator's value on item `i`. |
| TransformLaws.VMapCombinesDispatch | tests/unit/xcs/transforms/test_vmap.py:156-171 | A non-empty batch on which every item succeeds returns the combination of the per-item outputs. |
| TransformLaws.ResultsInOrder | tests/unit/xcs/transforms/test_vmap.py:352-364 | When every item's output has the same keys and each field adds one entry, the call returns exactly those keys, and entry `i` of each field is item `i`'s value, unwrapped. |
| TransformLaws.ResultsFlat | tests/unit/xcs/transforms/test_vmap.py:156-185 | An operator whose outputs are `{"results": v_i}` makes the call return `{"results": ...}` holding what each `v_i` contributes, in item order, including for the empty batch. |
| TransformLaws.DispatchResults | tests/unit/xcs/transforms/test_vmap.py:156-171 | Items whose outputs are all `{"results": v_i}` dispatch successfully, and the outputs combine to `{"results": ...}` holding what each `v_i` contributes, in order. |
| TransformLaws.ResultsColumn | tests/unit/xcs/transforms/test_vmap.py:156-171 | An operator whose outputs are `{"results": v_i}`, each `v_i` adding one entry, makes the call return `{"results": col}` with `col[i]` that entry. This holds for the empty batch too. |
| TransformLaws.PromptBatch | tests/unit/xcs/transforms/test_vmap.py:156-171 | `{"prompts": [p0, ..., pn-1]}` has batch size `n`, and item `i` is `{"prompts": p_i}`. |
| TransformLaws.ResultsOverPrompts | tests/unit/xcs/transforms/test_vmap.py:156-171 | An operator answering each prompt `p` with `{"results": m(p)}` gives, over a list of prompts, the contributions of `m(p_0), ..., m(p_n-1)` in order. |
| TransformLaws.PromptMapOnPrompt | tests/unit/xcs/transforms/test_vmap.py:407-412 | On `{"prompts": p}` a per-prompt operator returns `{"results": ...}` mapping `h` over `p` when it is a list, and `[h(p)]` otherwise. |
| TransformLaws.VMapOverPromptList | tests/unit/xcs/transforms/test_vmap.py:474-497 | A per-prompt operator over a list of prompts gives, in order, one result for a plain or one-element list prompt, nothing for an empty list prompt, and the processed list for a longer list prompt. |
| TransformLaws.VMapOverSinglePrompt | tests/unit/xcs/transforms/test_vmap.py:453-464 | A single prompt that is not a list (a string or a dict) is one item and gives one result. |
| TransformLaws.VMapOverPlainPrompts | tests/unit/xcs/transforms/test_vmap.py:352-364 | Over prompts that are not lists, a per-prompt operator `h` gives `[h(p0), ..., h(pn-1)]` in order. |
| TransformLaws.VMapOfIdentity | tests/unit/xcs/transforms/test_vmap.py:388-403 | Vectorising the identity function returns, under `"results"`, the contributions of the prompts in order. |
| TransformLaws.IdentityPreservesPrompts | tests/unit/xcs/transforms/test_vmap.py:388-403 | Vectorising the identity function returns the batched prompts unchanged, when no prompt is a list of at most one element. |
| TransformLaws.IdentityUnwrapsSingletonPrompt | tests/unit/xcs/transforms/test_vmap.py:388-403 | A one-element list prompt comes back from the vectorised identity as its element, which is the boundary of the identity law. |
| TransformLaws.IdentityDropsEmptyPrompt | tests/unit/xcs/transforms/test_vmap.py:388-403 | An empty list prompt comes back from the vectorised identity as nothing: `[[], x]` gives what `x` alone contributes. |
| TransformLaws.ComposeOnPrompt | tests/unit/xcs/transforms/test_vmap.py:422-427 | On one prompt `p`, `compose_fg` returns `{"results": ...}` holding `g` applied to `f`'s results for `p`. |
| TransformLaws.VMapOfComposition | tests/unit/xcs/transforms/test_vmap.py:422-432 | `vmap(compose(f, g))` returns, under `"results"`, what `g(f(p_i))` contributes for each prompt, in order. |
| TransformLaws.FlatOfOne | tests/unit/xcs/transforms/test_vmap.py:140-148 | Flattening one value gives what it contributes. |
| TransformLaws.FlatMapSnoc | tests/unit/xcs/transforms/test_vmap.py:352-364 | The flattened results over a non-empty prompt list end with what the last prompt contributes. |
| TransformLaws.RegroupConcat | tests/unit/xcs/transforms/test_vmap.py:433-438 | `vmap(g)` over a concatenation of results is the concatenation of `vmap(g)` over each part. |
| TransformLaws.RegroupOnePrompt | tests/unit/xcs/transforms/test_vmap.py:405-432 | For one prompt, `g` run over what `f` contributes equals what `compose_fg` contributes, when `f` never returns a list. |
| TransformLaws.RegroupAll | tests/unit/xcs/transforms/test_vmap.py:405-445 | `vmap(g)` over the flattened results of `vmap(f)` equals the flattened results of `compose_fg`, prompt by prompt, when `f` never returns a list. |
| TransformLaws.VectorisedOverPromptList | tests/unit/xcs/transforms/test_vmap.py:434-435 | `vmap(f)` used as an operator returns, on a list of prompts, the dict `{"results": ...}` holding each prompt's contribution in order. |
| TransformLaws.VMapCommutesWithComposition | tests/unit/xcs/transforms/test_vmap.py:405-445 | For any batch of prompts, lists included, `compose_vmap_fg` (run `vmap(f)`, feed its `"results"` to `vmap(g)`) returns the same record as `vmap(compose_fg)`, when `f` never returns a list. |
| Values.MapSeq | tests/unit/xcs/transforms/test_vmap.py:407-412 | `[h(p) for p in ps]` has one entry per element, `h(p_i)` at `i`. |
| StatefulOperators.ProcessSnoc | tests/unit/xcs/transforms/test_vmap.py:253-260 | Processing one more item appends its value at the end. |
| StatefulOperators.RecordingResults | tests/unit/xcs/transforms/test_vmap.py:237-245 | A recording operator's vectorised result is `{"results": [...]}`, holding its processed value for each item, in order. |
| StatefulOperators.StatefulOperator.constructor | tests/unit/xcs/transforms/test_vmap.py:41-44 | A fresh operator has made no call and has an empty history. |
| StatefulOperators.StatefulOperator.Call | tests/unit/xcs/transforms/test_vmap.py:237-260 | One call increments `call_count` by one, appends the processed value to `history`, and returns `{"results": [value]}`. |
| StatefulOperators.CallEach | tests/unit/xcs/transforms/test_vmap.py:156-171 | One call per item, in order. The call count grows by the batch size, the history grows by the items' values in order, and the outputs are the dispatch outputs. |
| StatefulOperators.VectorizeStateful | tests/unit/xcs/transforms/test_vmap.py:237-260 | The outcome is the vectorised call's. The call count grows by the batch size, the history gains the batch's values appended in order, and the returned `"results"` are exactly the newly appended history. It succeeds exactly when the batch sizes agree. |
| HelperCases.BatchSizeOfEmptyInputs | tests/unit/xcs/transforms/test_vmap.py:65-66 | `_get_batch_size({}, 0) == 1`. |
| HelperCases.BatchSizeIgnoresConfig | tests/unit/xcs/transforms/test_vmap.py:68-70 | `{"prompts": [a, b, c], "config": {...}}` under axis `0` has batch size 3. |
| HelperCases.BatchSizeOfTwoBatchedFields | tests/unit/xcs/transforms/test_vmap.py:72-75 | Two batched fields of length 2 give batch size 2. |
| HelperCases.BatchSizeMismatchFails | tests/unit/xcs/transforms/test_vmap.py:77-81 | Batched lengths 2 and 3 are an error. |
| HelperCases.BatchSizeOfEmptyList | tests/unit/xcs/transforms/test_vmap.py:83-86 | `{"prompts": []}` has batch size 0. |
| HelperCases.PrepareKeepsBatchedList | tests/unit/xcs/transforms/test_vmap.py:90-93 | `{"prompts": [a, b]}` is prepared unchanged. |
| HelperCases.PrepareReplicatesConfig | tests/unit/xcs/transforms/test_vmap.py:95-99 | Under axis `0`, `config` becomes two copies of itself. |
| HelperCases.PrepareReplicatesUnlistedField | tests/unit/xcs/transforms/test_vmap.py:101-106 | A field missing from the axis map becomes two copies of itself. |
| HelperCases.PrepareReplicatesEmptyList | tests/unit/xcs/transforms/test_vmap.py:108-111 | An empty batched list becomes `[[]] * 2`. |
| HelperCases.CombineNothing | tests/unit/xcs/transforms/test_vmap.py:115-116 | Combining no outputs gives `{}`. |
| HelperCases.CombineDictOutputs | tests/unit/xcs/transforms/test_vmap.py:118-124 | Two `{"results": [x]}` outputs give `{"results": [a_processed, b_processed]}`. |
| HelperCases.WithMetadataFields | tests/unit/xcs/transforms/test_vmap.py:126-130 | Both outputs of the metadata case have the keys `results` and `metadata`, holding `["a_processed"]`, `{"id": 1}` and `["b_processed"]`, `{"id": 2}`. |
| HelperCases.CombineKeepsNonListValues | tests/unit/xcs/transforms/test_vmap.py:126-133 | With the metadata case, the keys are `results` and `metadata`, `results` is `["a_processed", "b_processed"]`, and the dict `metadata` values are kept whole and in order. |
| HelperCases.CombineBareOutputs | tests/unit/xcs/transforms/test_vmap.py:135-138 | `["a", "b", "c"]` combines to `{"result": ["a", "b", "c"]}`. |
| HelperCases.CombineUnwrapsOneLevel | tests/unit/xcs/transforms/test_vmap.py:140-148 | `[["a_nested"]]` is unwrapped exactly one level, to `["a_nested"]`. |
| BaseProvider.ChatParameters.BuildPrompt | src/ember/core/registry/model/providers/base_provider.py:32-42 | The result always ends with the prompt. Without a context (`None` or `""`) it is the prompt. With a context it is the context, then `"\n\n"`, then the prompt, with length `|context| + 2 + |prompt|`. |
| BaseProvider.UnchangedIffNoContext | src/ember/core/registry/model/providers/base_provider.py:38-42 | The prompt comes back unchanged exactly when there is no context (`None` or the empty string). |
| BaseProvider.ContextRecoverable | src/ember/core/registry/model/providers/base_provider.py:38-41 | With contexts present, two parameter sets with the same prompt build the same text only if their contexts are equal, so the join loses nothing. |

## Left out

- The module that implements `vmap` is not part of this model. The helpers and their composition come from the tests that call them.
- The mock operators (`BasicOperator`, `NestedOperator`, `ExceptionOperator`, `MockModule`, `ComplexInputOperator`) are not part of this model. The operator is an arbitrary function `Record -> Result<Value>`. `TransformLaws.PromptMap` stands for the basic operator's behaviour: it maps a per-prompt function over `inputs.get("prompts", [])` and returns it under `"results"`. One concrete stateful class covers the call-count and history properties.
- The performance test and the `threading` and `time` imports are left out, because they concern wall-clock time and concurrency.
- Parallel dispatch is left out. Dispatch is sequential and in index order.
- Markers for keys missing from some outputs are left out. Such a key's list holds only the values of the outputs that have it.
- Error messages enriched with the batch index and the failing item's fields are left out. The failure is the operator's own error value.
- Whether items after a failing one are still called is left out. `Vectorize` stops at the first failure, but the model states only the result, not how many calls a failed batch makes.
- Dict key order is left out. Records are maps.
- `in_axes` values other than `0` and `None` are left out.
- A batch whose outputs mix dicts and bare values is handled by wrapping each bare output as `{"result": v}`. No test pins this case down.
- The `temperature` bound (0.0 to 2.0), the defaults, and pydantic validation of `BaseChatParameters` are left out. They are field constraints enforced by the validation library, and `build_prompt` does not read them.
- `BaseProviderModel` (`create_client`, `forward`, `__call__`) is left out. It is abstract API-client plumbing around a provider call.
- The fuzzing harness, the prompt example models, the diversity scorer stubs and the registry-exception tests are left out. They are I/O and a foreign fuzzing library, plain data models, empty classes, and message checks on classes that are not part of this model.
- TransformLaws.IdentityPreservesPrompts: requires that no prompt is a list of at most one element, because the one-level unwrapping turns a one-element list into its element and an empty list into nothing. TransformLaws.IdentityUnwrapsSingletonPrompt and TransformLaws.IdentityDropsEmptyPrompt state those cases, and TransformLaws.VMapOfIdentity states the general one.
- TransformLaws.VMapCommutesWithComposition: requires that `f` never returns a list. A list-valued `f` result would be unwrapped or dropped when combined, but passed whole by `compose_fg`, and the law then fails.
- Combine.Contribution: the treatment of lists of at most one element is partly the model's own. The tests of `_combine_outputs` (test lines 113-148) fix only the one-level unwrapping of a one-element list in a dict field. The model adds three rules that no `_combine_outputs` test asserts. First, an empty list value in a dict field adds nothing to its key's list. That rule is inferred from the `vmap` tests where a one-item batch returns empty results, `{}` (test lines 183-185) and `{"config": {}, "metadata": None}` (test line 380). The implementation, which is not part of this model, could produce those results in the wrapper instead. Second, a bare one-element list output is unwrapped (`Combined([[x]])` is `{"result": [x]}`). Third, a bare empty list output adds nothing.
