/** The cases of the unit tests of the three internal helpers, as facts
    about the model. */
module HelperCases {
  import opened Values
  import opened BatchPlanner
  import opened Combine

  function Strs(ss: seq<string>): (vs: seq<Value>)
    ensures |vs| == |ss| && forall i :: 0 <= i < |ss| ==> vs[i] == Str(ss[i])
  {
    seq(|ss|, i requires 0 <= i < |ss| => Str(ss[i]))
  }

  const Config: Value := Dict(map["mode" := Str("test")])

  lemma BatchSizeOfEmptyInputs()
    ensures GetBatchSize(map[], Uniform) == Ok(1)
  {
  }

  lemma BatchSizeIgnoresConfig()
    ensures GetBatchSize(map["prompts" := List(Strs(["a", "b", "c"])), "config" := Config], Uniform) == Ok(3)
  {
    var r := map["prompts" := List(Strs(["a", "b", "c"])), "config" := Config];
    assert IsBatchedList(r, Uniform, "prompts");
  }

  lemma BatchSizeOfTwoBatchedFields()
    ensures GetBatchSize(map["prompts" := List(Strs(["a", "b"])), "other" := List(Strs(["x", "y"]))],
                         PerField(map["prompts" := Batched, "other" := Batched])) == Ok(2)
  {
    var r := map["prompts" := List(Strs(["a", "b"])), "other" := List(Strs(["x", "y"]))];
    assert IsBatchedList(r, PerField(map["prompts" := Batched, "other" := Batched]), "prompts");
  }

  lemma BatchSizeMismatchFails()
    ensures GetBatchSize(map["prompts" := List(Strs(["a", "b"])), "other" := List(Strs(["x", "y", "z"]))],
                         PerField(map["prompts" := Batched, "other" := Batched])).Err?
  {
    var r := map["prompts" := List(Strs(["a", "b"])), "other" := List(Strs(["x", "y", "z"]))];
    var spec := PerField(map["prompts" := Batched, "other" := Batched]);
    assert IsBatchedList(r, spec, "prompts") && IsBatchedList(r, spec, "other");
  }

  lemma BatchSizeOfEmptyList()
    ensures GetBatchSize(map["prompts" := List([])], Uniform) == Ok(0)
  {
    assert IsBatchedList(map["prompts" := List([])], Uniform, "prompts");
  }

  lemma PrepareKeepsBatchedList()
    ensures PrepareBatchedInputs(map["prompts" := List(Strs(["a", "b"]))], Uniform, 2) ==
              map["prompts" := List(Strs(["a", "b"]))]
  {
    assert IsBatchedList(map["prompts" := List(Strs(["a", "b"]))], Uniform, "prompts");
  }

  lemma PrepareReplicatesConfig()
    ensures PrepareBatchedInputs(map["prompts" := List(Strs(["a", "b"])), "config" := Config], Uniform, 2) ==
              map["prompts" := List(Strs(["a", "b"])), "config" := List([Config, Config])]
  {
    var r := map["prompts" := List(Strs(["a", "b"])), "config" := Config];
    assert IsBatchedList(r, Uniform, "prompts");
    assert Replicate(Config, 2) == [Config, Config];
  }

  lemma PrepareReplicatesUnlistedField()
    ensures PrepareBatchedInputs(map["prompts" := List(Strs(["a", "b"])), "config" := Config],
                                 PerField(map["prompts" := Batched]), 2) ==
              map["prompts" := List(Strs(["a", "b"])), "config" := List([Config, Config])]
  {
    var r := map["prompts" := List(Strs(["a", "b"])), "config" := Config];
    assert IsBatchedList(r, PerField(map["prompts" := Batched]), "prompts");
    assert !IsBatched(PerField(map["prompts" := Batched]), "config");
    assert Replicate(Config, 2) == [Config, Config];
  }

  lemma PrepareReplicatesEmptyList()
    ensures PrepareBatchedInputs(map["prompts" := List([])], Uniform, 2) ==
              map["prompts" := List([List([]), List([])])]
  {
    assert Replicate(List([]), 2) == [List([]), List([])];
  }

  function Results(v: Value): (out: Value)
  {
    Dict(map["results" := v])
  }

  lemma CombineNothing()
    ensures Combined([]) == map[]
  {
  }

  lemma CombineDictOutputs()
    ensures Combined([Results(List([Str("a_processed")])), Results(List([Str("b_processed")]))]) ==
              map["results" := List(Strs(["a_processed", "b_processed"]))]
  {
    var two := [Results(List([Str("a_processed")])), Results(List([Str("b_processed")]))];
    assert Normalize(two[0]) == map["results" := List([Str("a_processed")])];
    assert Normalize(two[1]) == map["results" := List([Str("b_processed")])];
    var results := [List([Str("a_processed")]), List([Str("b_processed")])];
    CombinedColumn(two, {"results"}, "results", results);
    FlatOfSingletons(results, Strs(["a_processed", "b_processed"]));
    OneField(Combined(two), "results", List(Strs(["a_processed", "b_processed"])));
  }

  lemma CombineBareOutputs()
    ensures Combined(Strs(["a", "b", "c"])) == map["result" := List(Strs(["a", "b", "c"]))]
  {
    var outs := Strs(["a", "b", "c"]);
    CombinedBare(outs);
    assert MapSeq(Unwrap, outs) == outs;
  }

  lemma CombineUnwrapsOneLevel()
    ensures Combined([Results(List([List([Str("a_nested")])])), Results(List([List([Str("b_nested")])]))]) ==
              map["results" := List([List([Str("a_nested")]), List([Str("b_nested")])])]
  {
    var nested := [Results(List([List([Str("a_nested")])])), Results(List([List([Str("b_nested")])]))];
    assert Normalize(nested[0]) == map["results" := List([List([Str("a_nested")])])];
    assert Normalize(nested[1]) == map["results" := List([List([Str("b_nested")])])];
    var results := [List([List([Str("a_nested")])]), List([List([Str("b_nested")])])];
    CombinedColumn(nested, {"results"}, "results", results);
    FlatOfSingletons(results, [List([Str("a_nested")]), List([Str("b_nested")])]);
    OneField(Combined(nested), "results", List([List([Str("a_nested")]), List([Str("b_nested")])]));
  }

  /** Two outputs carrying a list field and a dict field. */
  function WithMetadata(): (outs: seq<Value>)
  {
    [Dict(map["results" := List([Str("a_processed")]), "metadata" := Dict(map["id" := Int(1)])]),
     Dict(map["results" := List([Str("b_processed")]), "metadata" := Dict(map["id" := Int(2)])])]
  }

  const MetadataResults: seq<Value> := [List([Str("a_processed")]), List([Str("b_processed")])]
  const MetadataIds: seq<Value> := [Dict(map["id" := Int(1)]), Dict(map["id" := Int(2)])]

  lemma WithMetadataFields()
    ensures SameKeys(WithMetadata(), {"results", "metadata"})
    ensures |WithMetadata()| == 2
    ensures forall i :: 0 <= i < 2 ==> Normalize(WithMetadata()[i])["results"] == MetadataResults[i]
    ensures forall i :: 0 <= i < 2 ==> Normalize(WithMetadata()[i])["metadata"] == MetadataIds[i]
  {
    var outs := WithMetadata();
    assert Normalize(outs[0]).Keys == {"results", "metadata"};
    assert Normalize(outs[1]).Keys == {"results", "metadata"};
  }

  lemma CombineKeepsNonListValues()
    ensures Combined(WithMetadata()).Keys == {"results", "metadata"}
    ensures Combined(WithMetadata())["results"] == List(Strs(["a_processed", "b_processed"]))
    ensures Combined(WithMetadata())["metadata"] == List(MetadataIds)
  {
    WithMetadataFields();
    CombinedColumn(WithMetadata(), {"results", "metadata"}, "results", MetadataResults);
    FlatOfSingletons(MetadataResults, Strs(["a_processed", "b_processed"]));
    CombinedColumn(WithMetadata(), {"results", "metadata"}, "metadata", MetadataIds);
    FlatOfSingletons(MetadataIds, MetadataIds);
  }
}
