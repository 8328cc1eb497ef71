/**
 * `OllamaChatResult`: a chat reply that holds the conversation history by
 * reference and appends the assistant's answer to it.
 */
module OllamaChatResults {
  import opened Wrappers
  import opened Exceptions
  import opened Json
  import opened OllamaResults

  /** The roles of chat messages; only ASSISTANT is produced here. */
  datatype Role = SYSTEM | USER | ASSISTANT | TOOL | CustomRole(roleName: string)

  /** `OllamaChatMessage(role, content)`; the content is the (nullable) answer text. */
  datatype ChatMessage = ChatMessage(role: Role, content: Option<string>)

  /** The message `appendAnswerToChatHistory` adds for an answer. */
  function AssistantMessage(answer: Option<string>): (m: ChatMessage)
    ensures m.role == ASSISTANT && m.content == answer
  {
    ChatMessage(ASSISTANT, answer)
  }

  /**
   * A `java.util.List<OllamaChatMessage>`: a mutable object that several holders
   * (the chat request, the chat result) may share.
   */
  class MessageList {
    var items: seq<ChatMessage>

    constructor (items: seq<ChatMessage>)
      ensures this.items == items
    {
      this.items := items;
    }

    /** `List.add(m)`. */
    method Add(m: ChatMessage)
      modifies this
      ensures items == old(items) + [m]
    {
      items := items + [m];
    }
  }

  class OllamaChatResult {
    /** The answer text; `final` in the source. */
    const response: Option<string>
    var responseTime: int64
    var httpStatusCode: int32
    /** The history list, held by reference; None (null) for the three-argument constructor. */
    var chatHistory: Option<MessageList>
    /** The structured answer; set only by `Structured` with a non-null response type. */
    var structuredResponse: Option<JsonValue>

    /** `OllamaChatResult(response, responseTime, httpStatusCode)`: no history, nothing appended. */
    constructor Plain(response: Option<string>, responseTime: int64, httpStatusCode: int32)
      ensures this.response == response && this.responseTime == responseTime
      ensures this.httpStatusCode == httpStatusCode
      ensures chatHistory == None && structuredResponse == None
    {
      this.response := response;
      this.responseTime := responseTime;
      this.httpStatusCode := httpStatusCode;
      chatHistory := None;
      structuredResponse := None;
    }

    /**
     * `OllamaChatResult(response, responseTime, httpStatusCode, chatHistory)`: keeps
     * the caller's list and appends exactly one assistant message to it.
     */
    constructor WithHistory(response: Option<string>, responseTime: int64, httpStatusCode: int32,
                            chatHistory: MessageList)
      modifies chatHistory
      ensures this.response == response && this.responseTime == responseTime
      ensures this.httpStatusCode == httpStatusCode
      ensures this.chatHistory == Some(chatHistory) && structuredResponse == None
      ensures chatHistory.items == old(chatHistory.items) + [AssistantMessage(response)]
    {
      this.response := response;
      this.responseTime := responseTime;
      this.httpStatusCode := httpStatusCode;
      this.chatHistory := Some(chatHistory);
      structuredResponse := None;
      new;
      AppendAnswerToChatHistory(response);
    }

    /**
     * `OllamaChatResult(response, responseTime, httpStatusCode, chatHistory, responseType)`.
     * `convert` stands for Jackson's `readTree` followed by `convertValue`; it runs
     * before the append, so when it throws the constructor throws and the history
     * is left as it was. With a null type nothing is converted and the answer is
     * still appended.
     */
    static method Structured(response: Option<string>, responseTime: int64, httpStatusCode: int32,
                             chatHistory: MessageList, responseType: Option<TypeName>,
                             convert: (Option<string>, TypeName) -> Result<JsonValue, Throwable>)
      returns (r: Result<OllamaChatResult, Throwable>)
      modifies chatHistory
      ensures r.Err? <==> responseType.Some? && convert(response, responseType.value).Err?
      ensures r.Err? ==> r.error == convert(response, responseType.value).error
      ensures r.Err? ==> chatHistory.items == old(chatHistory.items)
      ensures r.Ok? ==> fresh(r.value)
      ensures r.Ok? ==> r.value.response == response && r.value.responseTime == responseTime
      ensures r.Ok? ==> r.value.httpStatusCode == httpStatusCode
      ensures r.Ok? ==> r.value.chatHistory == Some(chatHistory)
      ensures r.Ok? ==> chatHistory.items == old(chatHistory.items) + [AssistantMessage(response)]
      ensures r.Ok? ==>
                r.value.structuredResponse ==
                (if responseType.Some? then Some(convert(response, responseType.value).value) else None)
    {
      var structured: Option<JsonValue> := None;
      if responseType.Some? {
        var converted := convert(response, responseType.value);
        if converted.Err? {
          return Err(converted.error);
        }
        structured := Some(converted.value);
      }
      var c := new OllamaChatResult.WithHistory(response, responseTime, httpStatusCode, chatHistory);
      c.structuredResponse := structured;
      r := Ok(c);
    }

    /**
     * The overriding `getStructuredResponse()`: the stored value, with no
     * check of a response type, so it never throws; a result built without a
     * type yields None (Java `null`).
     */
    function GetStructuredResponse(): (value: Option<JsonValue>)
      reads this
      ensures value == structuredResponse
    {
      structuredResponse
    }

    /** `getChatHistory()`: the very list object given to the constructor. */
    function GetChatHistory(): (history: Option<MessageList>)
      reads this
      ensures history == chatHistory
    {
      chatHistory
    }

    /** The inherited `OllamaResult` view: the superclass's response type is null as constructed. */
    function AsOllamaResult(): (r: OllamaResult)
      reads this
      ensures r.response == response && r.responseType == None
      ensures r.responseTime == responseTime && r.httpStatusCode == httpStatusCode
    {
      NewResult(response, responseTime, httpStatusCode)
    }

    /** `appendAnswerToChatHistory(answer)`: `chatHistory.add(new OllamaChatMessage(ASSISTANT, answer))`. */
    method AppendAnswerToChatHistory(answer: Option<string>)
      requires chatHistory.Some?
      modifies chatHistory.value
      ensures chatHistory.value.items == old(chatHistory.value.items) + [AssistantMessage(answer)]
    {
      chatHistory.value.Add(AssistantMessage(answer));
    }
  }
}
