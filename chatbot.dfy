/**
 * The chat panel (components/Chatbot.tsx): the submit handler that sends
 * the trimmed input through the store, and the closed-panel early return.
 */
module Chatbot {
  import opened Types
  import Text
  import Store

  /**
   * The guard of `handleSubmit`: the trimmed input is sent when it is
   * non-empty and no reply is pending.  What is sent is never empty and
   * neither starts nor ends with whitespace.
   */
  function SubmitGuard(input: string, isChatLoading: bool): (sent: Option<string>)
    ensures sent.Some? <==> !Text.AllWhitespace(input) && !isChatLoading
    ensures sent.Some? ==> sent.value == Text.Trim(input)
    ensures sent.Some? ==> sent.value != "" && !Text.IsWhitespace(sent.value[0]) && !Text.IsWhitespace(sent.value[|sent.value| - 1])
  {
    var message := Text.Trim(input);
    if message != "" && !isChatLoading then Some(message) else None
  }

  /** The panel: nothing while the chat is closed, the message log while it is open. */
  function Panel(s: AppState): (shown: Option<seq<ChatMessage>>)
    ensures shown.None? <==> !s.isChatOpen
    ensures shown.Some? ==> shown.value == s.chatMessages
  {
    if !s.isChatOpen then None else Some(s.chatMessages)
  }

  /** The component's own state: the text in the input box. */
  class ChatInput {
    var input: string

    constructor ()
      ensures input == ""
    {
      input := "";
    }

    /**
     * `handleSubmit`: when the guard lets it through, sends the trimmed
     * input with `sendMessageToAI` and clears the box; otherwise touches
     * neither the box nor the store.
     */
    method HandleSubmit(store: Store.AppStore, aiAvailable: bool, reply: Result<Option<string>, string>)
      returns (sent: Option<string>)
      modifies this, store
      ensures sent == SubmitGuard(old(input), old(store.state.isChatLoading))
      ensures sent.Some? ==> input == "" && store.state == Store.SendMessageEffect(old(store.state), sent.value, aiAvailable, reply)
      ensures sent.None? ==> input == old(input) && store.state == old(store.state)
      ensures store.persisted == old(store.persisted)
    {
      var message := Text.Trim(input);
      if message != "" && !store.state.isChatLoading {
        store.SendMessageToAI(message, aiAvailable, reply);
        input := "";
        sent := Some(message);
      } else {
        sent := None;
      }
    }
  }
}
