/** Message assembly for a model call (`getMessages` in src/text.ts). */
module Text {
  import opened AgentTypes

  /** The history: the function's result, the given array, or nothing. */
  function HistoryOf(h: History): seq<CoreMessage>
  {
    match h
    case NoHistory => []
    case GivenHistory(ms) => ms
    case ComputedHistory(ms) => ms
  }

  /** The user message carrying the prompt. */
  function UserMessage(prompt: string): CoreMessage
  {
    CoreMessage(UserRole, TextContent(prompt))
  }

  /** `getMessages`: the history followed by exactly one user message with the prompt. */
  function GetMessages(h: History, prompt: string): (r: seq<CoreMessage>)
    ensures |r| == |HistoryOf(h)| + 1
    ensures r[..|r| - 1] == HistoryOf(h)
    ensures r[|r| - 1] == UserMessage(prompt)
  {
    HistoryOf(h) + [UserMessage(prompt)]
  }

  /** The prompt message is the only one added: with no history it is the whole list. */
  lemma GetMessagesNoHistory(prompt: string)
    ensures GetMessages(NoHistory, prompt) == [UserMessage(prompt)]
  {
  }

  /** A given history and the same messages computed by a function give the same list. */
  lemma GetMessagesSourceIrrelevant(ms: seq<CoreMessage>, prompt: string)
    ensures GetMessages(GivenHistory(ms), prompt) == GetMessages(ComputedHistory(ms), prompt)
  {
  }
}
