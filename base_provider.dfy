/** `BaseChatParameters` of the provider layer: the common chat fields and
    `build_prompt`, which prepends the optional context to the prompt. */
module BaseProvider {
  import opened Values

  /** `prompt`, `context`, `temperature` and `max_tokens`; a pydantic model
      whose fields `build_prompt` only reads. */
  datatype ChatParameters = ChatParameters(
    prompt: string,
    context: Option<string>,
    temperature: Option<real>,
    maxTokens: Option<int>)
  {
    /** `if self.context:` is Python truthiness: `None` and `""` both count
        as no context. */
    predicate HasContext()
    {
      context.Some? && context.value != ""
    }

    /** `build_prompt()`: `"{context}\n\n{prompt}"` when there is a context,
        the prompt alone otherwise. */
    function BuildPrompt(): (r: string)
      ensures |r| >= |prompt| && r[|r| - |prompt|..] == prompt
      ensures !HasContext() ==> r == prompt
      ensures HasContext() ==>
                |r| == |context.value| + 2 + |prompt| &&
                r[..|context.value|] == context.value &&
                r[|context.value|..|context.value| + 2] == "\n\n"
    {
      if HasContext() then context.value + "\n\n" + prompt else prompt
    }
  }

  /** The prompt comes back unchanged exactly when there is no context
      (`None` or the empty string). */
  lemma UnchangedIffNoContext(p: ChatParameters)
    ensures p.BuildPrompt() == p.prompt <==> !p.HasContext()
  {
  }

  /** With a context present, the built prompt determines the context: two
      parameter sets with the same prompt build the same text only if their
      contexts agree. */
  lemma ContextRecoverable(p: ChatParameters, q: ChatParameters)
    requires p.prompt == q.prompt && p.HasContext() && q.HasContext()
    requires p.BuildPrompt() == q.BuildPrompt()
    ensures p.context == q.context
  {
    var r := p.BuildPrompt();
    assert |p.context.value| == |q.context.value|;
    assert p.context.value == r[..|p.context.value|] == q.context.value;
  }
}
