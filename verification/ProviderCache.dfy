/** The incremental provider-message cache of `agent_loop.rs`, and the default converters of `hooks.rs`. */
module ProviderCache {
  import opened JsonValues
  import opened AgentEvents

  datatype Message =
    | UserMessage(text: string)
    | AssistantTurn(assistant: AssistantMessage)
    | ToolAnswer(result: ResultMessage)

  type Converter = seq<AgentMessage> -> seq<Message>

  /** The hooks of a loop configuration that decide what a provider is sent. */
  datatype Config = Config(convert: Converter, incremental: Option<Converter>,
                           transform: Option<seq<AgentMessage> -> seq<AgentMessage>>)
  {
    /** The full conversion of a context. */
    function Full(context: seq<AgentMessage>): seq<Message> {
      convert(if transform.Some? then transform.value(context) else context)
    }

    predicate Caches() {
      transform.None? && incremental.Some?
    }

    /** What an incremental converter promises: a suffix converts on its own. */
    ghost predicate Lawful() {
      incremental.Some? ==> forall xs, ys :: convert(xs + ys) == convert(xs) + incremental.value(ys)
    }
  }

  class ProviderMessageCache {
    var initialized: bool
    var sourceLen: nat
    var messages: seq<Message>

    /** The cache holds the full conversion of a prefix of the context. */
    ghost predicate Valid(context: seq<AgentMessage>, config: Config)
      reads this
    {
      ValidOrTooLong(context, config) && (initialized ==> sourceLen <= |context|)
    }

    /** The same, or the context has shrunk below what was converted. */
    ghost predicate ValidOrTooLong(context: seq<AgentMessage>, config: Config)
      reads this
    {
      initialized ==>
        config.Caches() && (sourceLen <= |context| ==> messages == config.Full(context[..sourceLen]))
    }

    constructor ()
      ensures !initialized
    {
      initialized, sourceLen, messages := false, 0, [];
    }

    method Invalidate()
      modifies this
      ensures !initialized && sourceLen == 0 && messages == []
    {
      initialized, sourceLen, messages := false, 0, [];
    }

    /** The converted context, if the cache can provide it; the caller gives it back with `RestoreMessages`. */
    method TakeMessages(context: seq<AgentMessage>, config: Config) returns (r: Option<seq<Message>>)
      requires ValidOrTooLong(context, config) && config.Lawful()
      modifies this
      ensures r.Some? ==> config.Caches() && r.value == config.Full(context)
      ensures r.Some? <==> old(initialized) && old(sourceLen) <= |context|
      ensures r.None? ==> !initialized
    {
      if config.transform.Some? || config.incremental.None? || !initialized {
        return None;
      }
      if sourceLen > |context| {
        Invalidate();
        return None;
      }
      var suffix := context[sourceLen..];
      assert context == context[..sourceLen] + suffix;
      messages := messages + config.incremental.value(suffix);
      sourceLen := |context|;
      r := Some(messages);
      messages := [];
    }

    method RestoreMessages(messages: seq<Message>)
      modifies this
      ensures initialized && this.messages == messages && sourceLen == old(sourceLen)
    {
      initialized := true;
      this.messages := messages;
    }
  }

  // ----- the default converters -----

  function Project(m: AgentMessage): seq<Message> {
    match m
    case User(text) => [UserMessage(text)]
    case Assistant(assistant) => [AssistantTurn(assistant)]
    case Tool(result) => [ToolAnswer(result)]
    case Custom(_, _) => []
  }

  /** `default_convert_to_llm_incremental`, a filter. */
  function DefaultIncremental(ms: seq<AgentMessage>): seq<Message> {
    if ms == [] then [] else Project(ms[0]) + DefaultIncremental(ms[1..])
  }

  /** `default_convert_to_llm`, a loop that pushes. */
  method DefaultConvert(ms: seq<AgentMessage>) returns (converted: seq<Message>)
    ensures converted == DefaultIncremental(ms)
  {
    converted := [];
    for i := 0 to |ms|
      invariant converted == DefaultIncremental(ms[..i])
    {
      DefaultIncrementalSplits(ms[..i], [ms[i]]);
      assert ms[..i + 1] == ms[..i] + [ms[i]];
      assert DefaultIncremental([ms[i]]) == Project(ms[i]) + DefaultIncremental([ms[i]][1..]);
      match ms[i]
      case User(text) => converted := converted + [UserMessage(text)];
      case Assistant(assistant) => converted := converted + [AssistantTurn(assistant)];
      case Tool(result) => converted := converted + [ToolAnswer(result)];
      case Custom(_, _) =>
    }
    assert ms[..|ms|] == ms;
  }

  lemma {:induction false} DefaultIncrementalSplits(xs: seq<AgentMessage>, ys: seq<AgentMessage>)
    ensures DefaultIncremental(xs + ys) == DefaultIncremental(xs) + DefaultIncremental(ys)
  {
    if xs == [] {
      assert xs + ys == ys;
    } else {
      assert (xs + ys)[1..] == xs[1..] + ys;
      DefaultIncrementalSplits(xs[1..], ys);
    }
  }

  /** The law holds for the default converters. */
  lemma DefaultIsLawful(transform: Option<seq<AgentMessage> -> seq<AgentMessage>>)
    ensures Config(DefaultIncremental, Some(DefaultIncremental), transform).Lawful()
  {
    forall xs, ys ensures DefaultIncremental(xs + ys) == DefaultIncremental(xs) + DefaultIncremental(ys) {
      DefaultIncrementalSplits(xs, ys);
    }
  }
}
