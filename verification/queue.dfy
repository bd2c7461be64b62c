/**
 * The server-side chat history kept by `DeepSeekCore`
 * (src/core/deepSeekCore.ts): a queue of role-tagged messages that is
 * appended to, truncated per entry and trimmed to a keep-first /
 * keep-most-recent window.
 */
module MessageQueue {
  import opened Wrappers

  datatype Role = System | User | Assistant

  datatype Message = Message(role: Role, content: string)

  /** Plain JavaScript numbers in the source; integers here. */
  datatype OptimizeConfig = OptimizeConfig(maxMessages: int, maxMessageLength: int, keepFirstUserMessage: bool)

  /** A `Partial<MessageOptimizeConfig>`: a missing field is `None`. */
  datatype PartialConfig = PartialConfig(maxMessages: Option<int>, maxMessageLength: Option<int>, keepFirstUserMessage: Option<bool>)

  const DefaultConfig := OptimizeConfig(20, 8000, true)

  /** Appended to every truncated message. */
  const TruncationNotice := "\n\n[消息过长，已自动截断...]"

  /** The end index `substring(0, max)` uses on a string longer than `max`. */
  function Clamp(max: int): nat {
    if max < 0 then 0 else max
  }

  /**
   * `truncateMessage`: short content is kept; longer content is cut to its
   * first `max` characters (none when `max` is negative) and the notice is
   * appended.
   */
  function Truncate(content: string, max: int): (r: string)
    ensures |content| <= max ==> r == content
    ensures |content| > max ==>
      |r| == Clamp(max) + |TruncationNotice| &&
      r[..Clamp(max)] == content[..Clamp(max)] &&
      r[Clamp(max)..] == TruncationNotice
    ensures max >= 0 ==> |r| <= max + |TruncationNotice|
  {
    if |content| <= max then content
    else content[..Clamp(max)] + TruncationNotice
  }

  /** Truncating twice with the same limit changes nothing more. */
  lemma TruncateIdempotent(content: string, max: int)
    ensures Truncate(Truncate(content, max), max) == Truncate(content, max)
  {
    if |content| > max {
      var t := Truncate(content, max);
      assert |t| > max;
      assert t[..Clamp(max)] + TruncationNotice == t;
    }
  }

  /** The start index JavaScript's `slice(start)` uses on a sequence of length `len`. */
  function SliceIndex(len: nat, start: int): (k: nat)
    ensures k <= len
    ensures start < 0 && -start <= len ==> k == len + start
    ensures start < 0 && -start > len ==> k == 0
    ensures 0 <= start <= len ==> k == start
    ensures start > len ==> k == len
  {
    if start < 0 then (if len + start < 0 then 0 else len + start)
    else if start > len then len
    else start
  }

  /** `s.slice(start)` for an integer `start`, negative counting from the end. */
  function JsSliceFrom<T>(s: seq<T>, start: int): (r: seq<T>)
    ensures |r| <= |s| && r == s[|s| - |r|..]
    ensures start < 0 && -start <= |s| ==> |r| == -start
    ensures start <= 0 && -start >= |s| ==> r == s
    ensures start == 0 ==> r == s
  {
    s[SliceIndex(|s|, start)..]
  }

  /**
   * `optimizeMessages` as a function of the queue and the configuration.
   * The contract states the window it keeps.
   */
  function Optimize(msgs: seq<Message>, cfg: OptimizeConfig): (r: seq<Message>)
    ensures |msgs| <= cfg.maxMessages ==> r == msgs
    ensures cfg.keepFirstUserMessage && |msgs| > cfg.maxMessages >= 2 ==>
      |r| == cfg.maxMessages && r[0] == msgs[0] && r[1..] == msgs[|msgs| - (cfg.maxMessages - 1)..]
    ensures cfg.keepFirstUserMessage && cfg.maxMessages == 1 ==> r == msgs
    ensures !cfg.keepFirstUserMessage && |msgs| > cfg.maxMessages >= 1 ==>
      r == msgs[|msgs| - cfg.maxMessages..]
    ensures forall i :: 0 <= i < |r| ==> r[i] in msgs
  {
    if |msgs| <= cfg.maxMessages then msgs
    else if cfg.keepFirstUserMessage && |msgs| > 0 then
      [msgs[0]] + JsSliceFrom(msgs[1..], -cfg.maxMessages + 1)
    else JsSliceFrom(msgs, -cfg.maxMessages)
  }

  /** The configurations under which trimming keeps the queue within `maxMessages`. */
  predicate Bounding(cfg: OptimizeConfig) {
    cfg.maxMessageLength >= 0 &&
    (cfg.maxMessages >= 2 || (!cfg.keepFirstUserMessage && cfg.maxMessages >= 1))
  }

  /** The queue respects the count limit and every entry the length limit. */
  predicate WithinLimits(msgs: seq<Message>, cfg: OptimizeConfig) {
    |msgs| <= cfg.maxMessages &&
    forall i :: 0 <= i < |msgs| ==> |msgs[i].content| <= cfg.maxMessageLength + |TruncationNotice|
  }

  /** The queue after `addMessage(user, assistant?)`. */
  function AfterAddMessage(msgs: seq<Message>, cfg: OptimizeConfig, user: string, assistant: Option<string>): seq<Message> {
    var withUser := msgs + [Message(User, Truncate(user, cfg.maxMessageLength))];
    var pushed := if assistant.Some? then withUser + [Message(Assistant, Truncate(assistant.value, cfg.maxMessageLength))]
                  else withUser;
    Optimize(pushed, cfg)
  }

  /** The queue after `addAssistantMessage(assistant)`. */
  function AfterAddAssistant(msgs: seq<Message>, cfg: OptimizeConfig, assistant: string): seq<Message> {
    Optimize(msgs + [Message(Assistant, Truncate(assistant, cfg.maxMessageLength))], cfg)
  }

  /** Trimming under a bounding configuration restores the count limit and keeps entries. */
  lemma OptimizeWithinLimits(msgs: seq<Message>, cfg: OptimizeConfig)
    requires Bounding(cfg)
    requires forall i :: 0 <= i < |msgs| ==> |msgs[i].content| <= cfg.maxMessageLength + |TruncationNotice|
    ensures WithinLimits(Optimize(msgs, cfg), cfg)
  {
    var r := Optimize(msgs, cfg);
    forall i | 0 <= i < |r|
      ensures |r[i].content| <= cfg.maxMessageLength + |TruncationNotice|
    {
      assert r[i] in msgs;
    }
  }

  /** Every add keeps a queue within the limits of a bounding configuration. */
  lemma AddMessageWithinLimits(msgs: seq<Message>, cfg: OptimizeConfig, user: string, assistant: Option<string>)
    requires Bounding(cfg) && WithinLimits(msgs, cfg)
    ensures WithinLimits(AfterAddMessage(msgs, cfg, user, assistant), cfg)
  {
    var withUser := msgs + [Message(User, Truncate(user, cfg.maxMessageLength))];
    var pushed := if assistant.Some? then withUser + [Message(Assistant, Truncate(assistant.value, cfg.maxMessageLength))]
                  else withUser;
    forall i | 0 <= i < |pushed|
      ensures |pushed[i].content| <= cfg.maxMessageLength + |TruncationNotice|
    {
      if i < |msgs| {
        assert pushed[i] == msgs[i];
      }
    }
    OptimizeWithinLimits(pushed, cfg);
  }

  lemma AddAssistantWithinLimits(msgs: seq<Message>, cfg: OptimizeConfig, assistant: string)
    requires Bounding(cfg) && WithinLimits(msgs, cfg)
    ensures WithinLimits(AfterAddAssistant(msgs, cfg, assistant), cfg)
  {
    var pushed := msgs + [Message(Assistant, Truncate(assistant, cfg.maxMessageLength))];
    forall i | 0 <= i < |pushed|
      ensures |pushed[i].content| <= cfg.maxMessageLength + |TruncationNotice|
    {
      if i < |msgs| {
        assert pushed[i] == msgs[i];
      }
    }
    OptimizeWithinLimits(pushed, cfg);
  }

  /** Under the default configuration a queue never exceeds 20 entries of 8000 characters plus the notice. */
  lemma DefaultConfigLimits(msgs: seq<Message>, user: string, assistant: Option<string>, reply: string)
    requires WithinLimits(msgs, DefaultConfig)
    ensures |AfterAddMessage(msgs, DefaultConfig, user, assistant)| <= 20
    ensures |AfterAddAssistant(msgs, DefaultConfig, reply)| <= 20
    ensures forall m :: m in AfterAddMessage(msgs, DefaultConfig, user, assistant) ==> |m.content| <= 8000 + |TruncationNotice|
    ensures forall m :: m in AfterAddAssistant(msgs, DefaultConfig, reply) ==> |m.content| <= 8000 + |TruncationNotice|
  {
    AddMessageWithinLimits(msgs, DefaultConfig, user, assistant);
    AddAssistantWithinLimits(msgs, DefaultConfig, reply);
  }

  /**
   * With `keepFirstUserMessage` and `maxMessages == 1` the queue is never
   * trimmed: `slice(-1 + 1)` is `slice(0)`.
   */
  lemma SingleSlotNeverTrims(msgs: seq<Message>, user: string)
    requires |msgs| >= 1
    ensures |AfterAddMessage(msgs, OptimizeConfig(1, 8000, true), user, None)| == |msgs| + 1
  {
  }

  /** The result of the empty-history guard in `callDeepSeekApi`. */
  datatype GuardOutcome = Proceed(toSend: seq<Message>) | Rejected(content: string, error: string)

  /**
   * `messages || this.messages` followed by the emptiness check. An array
   * argument is truthy even when empty, so an explicit empty list is rejected
   * however full the queue is.
   */
  function EmptyGuard(given: Option<seq<Message>>, queue: seq<Message>): (r: GuardOutcome)
    ensures r.Rejected? <==> (given.Some? && given.value == []) || (given.None? && queue == [])
    ensures r.Rejected? ==> r.content == "" && r.error == "消息历史为空"
    ensures r.Proceed? ==> r.toSend != [] && r.toSend == given.GetOr(queue)
  {
    var toSend := if given.Some? then given.value else queue;
    if toSend == [] then Rejected("", "消息历史为空") else Proceed(toSend)
  }

  /** `{ ...base, ...patch }` over the three configuration fields. */
  function MergeConfig(base: OptimizeConfig, patch: PartialConfig): (r: OptimizeConfig)
    ensures patch.maxMessages.Some? ==> r.maxMessages == patch.maxMessages.value
    ensures patch.maxMessages.None? ==> r.maxMessages == base.maxMessages
    ensures patch.maxMessageLength.Some? ==> r.maxMessageLength == patch.maxMessageLength.value
    ensures patch.maxMessageLength.None? ==> r.maxMessageLength == base.maxMessageLength
    ensures patch.keepFirstUserMessage.Some? ==> r.keepFirstUserMessage == patch.keepFirstUserMessage.value
    ensures patch.keepFirstUserMessage.None? ==> r.keepFirstUserMessage == base.keepFirstUserMessage
  {
    OptimizeConfig(patch.maxMessages.GetOr(base.maxMessages),
                   patch.maxMessageLength.GetOr(base.maxMessageLength),
                   patch.keepFirstUserMessage.GetOr(base.keepFirstUserMessage))
  }

  /** The message list `getOptimizedMessages` returns for a queue. */
  function WithSystemPrompt(msgs: seq<Message>, includeSystem: bool, systemPrompt: Option<string>): (r: seq<Message>)
    ensures includeSystem && systemPrompt.Some? && systemPrompt.value != [] ==>
      |r| == |msgs| + 1 && r[0] == Message(System, systemPrompt.value) && r[1..] == msgs
    ensures !(includeSystem && systemPrompt.Some? && systemPrompt.value != []) ==> r == msgs
  {
    if includeSystem && systemPrompt.Some? && systemPrompt.value != [] then [Message(System, systemPrompt.value)] + msgs
    else msgs
  }

  class DeepSeekCore {
    var messages: seq<Message>
    var optimizeConfig: OptimizeConfig

    constructor()
      ensures messages == [] && optimizeConfig == DefaultConfig
    {
      messages := [];
      optimizeConfig := DefaultConfig;
    }

    /** `optimizeMessages`: trims the queue in place. */
    method OptimizeMessages()
      modifies this
      ensures optimizeConfig == old(optimizeConfig)
      ensures messages == Optimize(old(messages), optimizeConfig)
    {
      var maxMessages, keepFirst := optimizeConfig.maxMessages, optimizeConfig.keepFirstUserMessage;
      if |messages| <= maxMessages {
        return;
      }
      if keepFirst && |messages| > 0 {
        var firstMessage := messages[0];
        var remaining := messages[1..];
        messages := [firstMessage] + JsSliceFrom(remaining, -maxMessages + 1);
      } else {
        messages := JsSliceFrom(messages, -maxMessages);
      }
    }

    method AddMessage(user: string, assistant: Option<string>)
      modifies this
      ensures optimizeConfig == old(optimizeConfig)
      ensures messages == AfterAddMessage(old(messages), optimizeConfig, user, assistant)
      ensures Bounding(optimizeConfig) && old(WithinLimits(messages, optimizeConfig)) ==> WithinLimits(messages, optimizeConfig)
    {
      ghost var before := messages;
      messages := messages + [Message(User, Truncate(user, optimizeConfig.maxMessageLength))];
      if assistant.Some? {
        messages := messages + [Message(Assistant, Truncate(assistant.value, optimizeConfig.maxMessageLength))];
      }
      OptimizeMessages();
      if Bounding(optimizeConfig) && WithinLimits(before, optimizeConfig) {
        AddMessageWithinLimits(before, optimizeConfig, user, assistant);
      }
    }

    method AddAssistantMessage(assistant: string)
      modifies this
      ensures optimizeConfig == old(optimizeConfig)
      ensures messages == AfterAddAssistant(old(messages), optimizeConfig, assistant)
      ensures Bounding(optimizeConfig) && old(WithinLimits(messages, optimizeConfig)) ==> WithinLimits(messages, optimizeConfig)
    {
      ghost var before := messages;
      messages := messages + [Message(Assistant, Truncate(assistant, optimizeConfig.maxMessageLength))];
      OptimizeMessages();
      if Bounding(optimizeConfig) && WithinLimits(before, optimizeConfig) {
        AddAssistantWithinLimits(before, optimizeConfig, assistant);
      }
    }

    /** Returns a fresh list; the queue itself is not touched. */
    method GetOptimizedMessages(includeSystem: bool, systemPrompt: Option<string>) returns (r: seq<Message>)
      ensures includeSystem && systemPrompt.Some? && systemPrompt.value != [] ==>
        r == [Message(System, systemPrompt.value)] + messages
      ensures !(includeSystem && systemPrompt.Some? && systemPrompt.value != []) ==> r == messages
    {
      var copy := messages;
      r := WithSystemPrompt(copy, includeSystem, systemPrompt);
    }

    method ClearMessages()
      modifies this
      ensures messages == [] && optimizeConfig == old(optimizeConfig)
    {
      messages := [];
    }

    /** Replaces the supplied fields only; the queue is not re-trimmed. */
    method SetOptimizeConfig(patch: PartialConfig)
      modifies this
      ensures optimizeConfig == MergeConfig(old(optimizeConfig), patch)
      ensures messages == old(messages)
    {
      optimizeConfig := MergeConfig(optimizeConfig, patch);
    }

    method GetMessageCount() returns (n: nat)
      ensures n == |messages|
    {
      n := |messages|;
    }
  }
}
