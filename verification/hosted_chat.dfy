/** The part the two hosted-API apps share (app.py and
    app_add_image_generator.py): the missing-key guard, the request built
    from the history, the reply or the error text of a failed call, and the
    outcome of a model listing. The service itself is the parameter
    `backend`, which maps a request to the reply or to the text of the
    exception it raised. */
module HostedChat {
  import opened Text
  import opened Conversation

  datatype Option<T> = None | Some(value: T)

  /** What the apps answer when no API key was entered. */
  const MissingKey := "❌ API 키를 입력해주세요."
  /** The start of the single entry a failed model listing produces. */
  const ListFailurePrefix := "❌ 모델 목록 불러오기 실패: "

  /** The request sent to a hosted chat service: the model, the system
      message and the text block of the user message. The image block and
      the sampling parameters are not modelled. */
  datatype ChatRequest = ChatRequest(model: string, systemPrompt: string, text: string)

  /** What `client.models.list()` gives: the model ids in the order the
      service lists them, or the text of the exception it raised. */
  datatype ModelListing = Listed(ids: seq<string>) | ListFailed(error: string)

  /** The reply of `generate_response_openrouter` and
      `generate_response_openai`: the missing-key text when no key was
      entered, else the service's reply or `errorPrefix` followed by the
      exception text. */
  function HostedReply(history: seq<Turn>, prompt: string, apiKey: string, systemPrompt: string,
                       modelName: string, errorPrefix: string, backend: ChatRequest -> BackendResult): string
  {
    if apiKey == "" then MissingKey
    else match backend(ChatRequest(modelName, systemPrompt, RequestText(history, prompt)))
         case Replied(text) => text
         case Raised(e) => errorPrefix + e
  }

  /** One call to the hosted service: no request at all without a key;
      otherwise exactly the request built from the history and the prompt,
      answered by the reply or by the error text. `sent` is the request
      that went out. */
  method AskHostedModel(history: seq<Turn>, prompt: string, apiKey: string, systemPrompt: string,
                        modelName: string, errorPrefix: string, backend: ChatRequest -> BackendResult)
    returns (reply: string, sent: Option<ChatRequest>)
    ensures apiKey == "" <==> sent == None
    ensures apiKey == "" ==> reply == MissingKey
    ensures apiKey != "" ==>
              && sent == Some(ChatRequest(modelName, systemPrompt, RequestText(history, prompt)))
              && reply == match backend(sent.value)
                          case Replied(text) => text
                          case Raised(e) => errorPrefix + e
    ensures reply == HostedReply(history, prompt, apiKey, systemPrompt, modelName, errorPrefix, backend)
  {
    if apiKey == "" {
      return MissingKey, None;
    }
    var context := AssembleContext(history);
    var request := ChatRequest(modelName, systemPrompt, context + "\n사용자: " + prompt);
    sent := Some(request);
    match backend(request) {
      case Replied(text) =>
        reply := text;
      case Raised(e) =>
        reply := errorPrefix + e;
    }
  }

  /** The history after one `chat_with_model` call of a hosted-API app
      whose failed calls answer `errorPrefix` followed by the exception text. */
  function NextHistory(turns: seq<Turn>, hasImage: bool, message: string, apiKey: string,
                       systemPrompt: string, modelName: string, errorPrefix: string,
                       backend: ChatRequest -> BackendResult)
    : (r: seq<Turn>)
    ensures IsBlank(message) ==> r == turns
    ensures !IsBlank(message) ==>
              && |r| == |turns| + 2
              && r[..|turns|] == turns
              && r[|turns|] == Turn(UserRole, message)
              && r[|turns| + 1].role == AiRole
    ensures !IsBlank(message) && !hasImage ==> r[|turns| + 1].text == ImageRequired
    ensures !IsBlank(message) && hasImage && apiKey == "" ==> r[|turns| + 1].text == MissingKey
    ensures !IsBlank(message) && hasImage && apiKey != "" ==>
              var request := ChatRequest(modelName, systemPrompt, RequestText(turns + [Turn(UserRole, message)], message));
              r[|turns| + 1].text == match backend(request)
                                     case Replied(text) => text
                                     case Raised(e) => errorPrefix + e
    ensures !IsBlank(message) && hasImage && apiKey != "" && |turns| % 2 == 0 ==>
              var request := ChatRequest(modelName, systemPrompt, ContextOf(turns) + "\n사용자: " + message);
              r[|turns| + 1].text == match backend(request)
                                     case Replied(text) => text
                                     case Raised(e) => errorPrefix + e
  {
    if IsBlank(message) then turns
    else
      var withUser := turns + [Turn(UserRole, message)];
      var reply :=
        if !hasImage then ImageRequired
        else HostedReply(withUser, message, apiKey, systemPrompt, modelName, errorPrefix, backend);
      assert |turns| % 2 == 0 ==> RequestText(withUser, message) == ContextOf(turns) + "\n사용자: " + message by {
        if |turns| % 2 == 0 {
          RequestCarriesPromptOnce(turns, message);
        }
      }
      withUser + [Turn(AiRole, reply)]
  }
}
