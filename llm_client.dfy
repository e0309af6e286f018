/**
 * The language-model client: credential and model resolution at
 * construction, parameter defaulting and message composition in `invoke`,
 * the offline stub reply, and text extraction from the two response shapes
 * the remote library may return. The remote call itself is a parameter.
 */
module LlmClient {
  import opened Wrappers

  // ---------------------------------------------------------------------
  // Configuration
  // ---------------------------------------------------------------------

  /** The process-wide settings the client falls back on. */
  datatype Config = Config(
    openAiApiKey: string,
    openAiModel: string,
    agentTemperature: real,
    agentMaxTokens: int)

  /** The settings when no environment variable overrides them. */
  const DefaultConfig: Config := Config("", "gpt-4", 0.7, 2048)

  /** Python's `value or fallback` for an optional string: None and "" are falsy. */
  function OrElse(value: Option<string>, fallback: string): (r: string)
    ensures value.Some? && value.value != "" ==> r == value.value
    ensures value.None? || value.value == "" ==> r == fallback
    ensures r == "" ==> fallback == ""
  {
    if value.Some? && value.value != "" then value.value else fallback
  }

  /** Python's `value if value is not None else fallback`: any given value, even a falsy one, wins. */
  function IfNone<T>(value: Option<T>, fallback: T): (r: T)
    ensures value.Some? ==> r == value.value
    ensures value.None? ==> r == fallback
  {
    if value.Some? then value.value else fallback
  }

  // ---------------------------------------------------------------------
  // Requests
  // ---------------------------------------------------------------------

  datatype ChatMessage = ChatMessage(role: string, content: string)

  /** What `ChatCompletion.create` is called with. */
  datatype Request = Request(
    model: string,
    messages: seq<ChatMessage>,
    temperature: real,
    maxTokens: int)

  /**
   * The message list `invoke` sends: a system message first exactly when a
   * non-empty system text is given, and the user prompt always last.
   */
  function MessagesFor(system: Option<string>, prompt: string): (m: seq<ChatMessage>)
    ensures 1 <= |m| <= 2
    ensures m[|m| - 1] == ChatMessage("user", prompt)
    ensures |m| == 2 <==> system.Some? && system.value != ""
    ensures |m| == 2 ==> m[0] == ChatMessage("system", system.value)
  {
    if system.Some? && system.value != "" then
      [ChatMessage("system", system.value), ChatMessage("user", prompt)]
    else
      [ChatMessage("user", prompt)]
  }

  /**
   * Temperature and token budget fall back only when they are absent, so
   * an explicit 0 is kept; the model falls back for any falsy value.
   */
  lemma DefaultingDiffers(config: Config, model: string)
    requires model != ""
    ensures IfNone(Some(0.0), config.agentTemperature) == 0.0
    ensures IfNone(Some(0), config.agentMaxTokens) == 0
    ensures IfNone(None, config.agentTemperature) == config.agentTemperature
    ensures OrElse(Some(""), model) == model
    ensures OrElse(None, model) == model
  {
  }

  // ---------------------------------------------------------------------
  // Responses
  // ---------------------------------------------------------------------

  /** The `message` entry of a dictionary-shaped choice. */
  datatype DictMessage =
    | NoMessage                         // absent, or a falsy value (`or {}` turns it into `{}`)
    | MessageDict(content: Option<string>)  // a dictionary, whose "content" key may be absent
    | MessageNotDict                    // a truthy value without `.get`: the call raises

  /** The first entry of a dictionary-shaped response's "choices". */
  datatype DictChoice =
    | FalsyChoice                       // None, an empty dictionary or another falsy value
    | ChoiceDict(message: DictMessage, text: Option<string>)
    | ChoiceNotDict                     // a truthy value that is not a dictionary

  /** An attribute-bearing message object; `content` may be missing. */
  datatype ObjMessage = ObjMessage(content: Option<string>)

  /** An attribute-bearing choice object; `message` is None when absent or falsy. */
  datatype ObjChoice = ObjChoice(message: Option<ObjMessage>, text: Option<string>)

  /**
   * A response of the remote call: a dictionary, or an object with
   * attributes. `choices` is None when the key or attribute is absent or
   * holds None.
   */
  datatype Response =
    | DictResponse(dictChoices: Option<seq<DictChoice>>)
    | ObjectResponse(objChoices: Option<seq<ObjChoice>>)

  /** The text `_extract_text_from_response` finds, or None. It never raises. */
  function ExtractText(resp: Response): (r: Option<string>)
    // Without a first choice there is nothing to extract.
    ensures resp.DictResponse? && (resp.dictChoices == None || resp.dictChoices == Some([])) ==> r == None
    ensures resp.ObjectResponse? && (resp.objChoices == None || resp.objChoices == Some([])) ==> r == None
    // Dictionary shape: the message content when it is non-empty, else the choice's text.
    // Dictionary shape: a first choice that is falsy or not a dictionary gives None.
    ensures (resp.DictResponse? && resp.dictChoices.Some? && resp.dictChoices.value != [] &&
             !resp.dictChoices.value[0].ChoiceDict?) ==> r == None
    ensures (resp.DictResponse? && resp.dictChoices.Some? && resp.dictChoices.value != [] &&
             resp.dictChoices.value[0].ChoiceDict?) ==>
      var choice := resp.dictChoices.value[0];
      match choice.message
      case MessageDict(content) =>
        r == if content.Some? && content.value != "" then content else choice.text
      case NoMessage => r == choice.text
      case MessageNotDict => r == None
    // Object shape: the message content whenever a message is present, even when empty.
    ensures resp.ObjectResponse? && resp.objChoices.Some? && resp.objChoices.value != [] ==>
      var first := resp.objChoices.value[0];
      r == if first.message.Some? then first.message.value.content else first.text
  {
    match resp
    case DictResponse(choices) =>
      if choices.None? || choices.value == [] then None
      else
        (match choices.value[0]
         case FalsyChoice => None
         case ChoiceNotDict => None  // the attribute lookup that follows finds no `choices` on a dictionary
         case ChoiceDict(message, text) =>
           match message
           case NoMessage => text
           case MessageNotDict => None
           case MessageDict(content) =>
             if content.Some? && content.value != "" then content else text)
    case ObjectResponse(choices) =>
      if choices.None? || choices.value == [] then None
      else
        var first := choices.value[0];
        if first.message.Some? then first.message.value.content else first.text
  }

  /**
   * The two shapes agree when the first choice carries non-empty message
   * content, or no message at all. They part ways on an empty or missing
   * content: a dictionary falls back to the choice's text, an object does not.
   */
  lemma ShapesCompared(content: Option<string>, text: Option<string>)
    ensures var d := DictResponse(Some([ChoiceDict(MessageDict(content), text)]));
            var o := ObjectResponse(Some([ObjChoice(Some(ObjMessage(content)), text)]));
      && (content.Some? && content.value != "" ==> ExtractText(d) == ExtractText(o) == content)
      && (content.None? || content.value == "" ==> ExtractText(d) == text && ExtractText(o) == content)
    ensures ExtractText(DictResponse(Some([ChoiceDict(NoMessage, text)]))) == text
    ensures ExtractText(ObjectResponse(Some([ObjChoice(None, text)]))) == text
  {
  }

  // ---------------------------------------------------------------------
  // The client
  // ---------------------------------------------------------------------

  /** The marker the offline reply starts with. */
  const StubPrefix: string := "[llm_stub] "

  /** What the remote call did: answered, or raised an error. */
  datatype RemoteOutcome = Responded(response: Response) | RemoteError(error: string)

  /** The remote endpoint, as the outcome it produces for each request. */
  type Remote = Request -> RemoteOutcome

  class LLMClient {
    const config: Config
    var apiKey: string
    var model: string
    /** Whether `_client` holds the imported remote library (live mode) rather than None (stub mode). */
    var live: bool

    /**
     * The explicit key and model win when they are non-empty; otherwise the
     * configured ones are used. The client is live exactly when the
     * resolved key is non-empty and the remote library could be imported.
     */
    constructor (config: Config, libraryImports: bool,
                 apiKey: Option<string> := None, model: Option<string> := None)
      ensures this.config == config
      ensures apiKey.Some? && apiKey.value != "" ==> this.apiKey == apiKey.value
      ensures apiKey.None? || apiKey.value == "" ==> this.apiKey == config.openAiApiKey
      ensures model.Some? && model.value != "" ==> this.model == model.value
      ensures model.None? || model.value == "" ==> this.model == config.openAiModel
      ensures live <==> this.apiKey != "" && libraryImports
    {
      this.config := config;
      var key := OrElse(apiKey, config.openAiApiKey);
      this.apiKey := key;
      this.model := OrElse(model, config.openAiModel);
      live := key != "" && libraryImports;
    }

    /**
     * In stub mode the reply is the marker followed by the prompt, and the
     * remote endpoint is not used. In live mode the endpoint receives the
     * resolved model, the composed messages, and the temperature and token
     * budget (the configured ones when absent); its error is re-raised
     * unchanged, and a response without extractable text gives "".
     */
    method Invoke(prompt: string, remote: Remote,
                  nameonly system: Option<string> := None, nameonly model: Option<string> := None,
                  nameonly temperature: Option<real> := None, nameonly maxTokens: Option<int> := None)
      returns (r: Result<string, string>)
      ensures !live ==> r == Success(StubPrefix + prompt)
      ensures live ==>
        var sent := Request(OrElse(model, this.model), MessagesFor(system, prompt),
                            IfNone(temperature, config.agentTemperature),
                            IfNone(maxTokens, config.agentMaxTokens));
        match remote(sent)
        case RemoteError(e) => r == Failure(e)
        case Responded(resp) =>
          r == Success(if ExtractText(resp).Some? then ExtractText(resp).value else "")
    {
      var usedModel := OrElse(model, this.model);
      var usedTemperature := IfNone(temperature, config.agentTemperature);
      var usedMaxTokens := IfNone(maxTokens, config.agentMaxTokens);

      var messages: seq<ChatMessage> := [];
      if system.Some? && system.value != "" {
        messages := messages + [ChatMessage("system", system.value)];
      }
      messages := messages + [ChatMessage("user", prompt)];
      assert messages == MessagesFor(system, prompt);

      if !live {
        return Success(StubPrefix + prompt);
      }

      var outcome := remote(Request(usedModel, messages, usedTemperature, usedMaxTokens));
      match outcome {
        case RemoteError(e) =>
          r := Failure(e);
        case Responded(resp) =>
          var text := ExtractText(resp);
          r := Success(if text.Some? then text.value else "");
      }
    }
  }

  /** Without a key anywhere, `LLMClient().invoke("hello")` replies "[llm_stub] hello". */
  method StubReplyExample(remote: Remote) returns (reply: Result<string, string>)
    ensures reply == Success("[llm_stub] hello")
  {
    var client := new LLMClient(DefaultConfig, true);
    assert !client.live;
    reply := client.Invoke("hello", remote);
    assert StubPrefix + "hello" == "[llm_stub] hello";
  }
}
