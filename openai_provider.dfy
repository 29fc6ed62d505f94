/**
 * The OpenAI provider of the LLM layer: its configuration state, the text
 * normalisation it applies to prompts, and the guards and response-shape
 * checks around its two backend calls.  The backend itself is a parameter:
 * a function from the request to the (possibly missing) response object.
 */
module Providers {
  import opened Options
  import opened PyStr

  /** The constructor's defaults for the input length and the output token budget. */
  const DefaultInputMaxCharacters: int := 1000
  const DefaultGenerationMaxOutputTokens: int := 1000

  /** The chat role of the prompt's author (OpenAIEnums.USER). */
  const UserRole: string := "user"

  /** A chat message as the provider builds it. */
  datatype Message = Message(role: string, content: string)

  /** What a chat-completion call is given (the temperature is left out). */
  datatype ChatRequest = ChatRequest(model: string, messages: seq<Message>, maxTokens: int)

  /** The shape of a chat-completion response the provider inspects. */
  datatype ChatMessage = ChatMessage(role: string, content: Option<string>)
  datatype Choice = Choice(message: Option<ChatMessage>)
  datatype ChatCompletion = ChatCompletion(choices: seq<Choice>)

  /** What an embedding call is given, and the shape of its response. */
  datatype EmbeddingRequest = EmbeddingRequest(model: string, input: string)
  datatype EmbeddingItem = EmbeddingItem(embedding: seq<real>)
  datatype EmbeddingResult = EmbeddingResult(data: seq<EmbeddingItem>)

  /** Python truthiness of an optional model id: unset and "" are both false. */
  predicate IsSet(id: Option<string>) {
    id.Some? && id.value != ""
  }

  /** The reply of a chat completion: the first choice's message, when there is one. */
  function ReplyOf(response: Option<ChatCompletion>): (r: Option<ChatMessage>)
    ensures r.Some? <==> response.Some? && |response.value.choices| > 0 && response.value.choices[0].message.Some?
    ensures r.Some? ==> r == response.value.choices[0].message
  {
    if response.None? || |response.value.choices| == 0 then None
    else response.value.choices[0].message
  }

  /** The vector of an embedding response: the first item's embedding, when it is non-empty. */
  function EmbeddingOf(response: Option<EmbeddingResult>): (r: Option<seq<real>>)
    ensures r.Some? <==> response.Some? && |response.value.data| > 0 && |response.value.data[0].embedding| > 0
    ensures r.Some? ==> r.value == response.value.data[0].embedding
  {
    if response.None? || |response.value.data| == 0 || |response.value.data[0].embedding| == 0 then None
    else Some(response.value.data[0].embedding)
  }

  /** A caller-owned chat history list, which generation appends to in place. */
  class ChatHistory {
    var messages: seq<Message>

    constructor (messages: seq<Message>)
      ensures this.messages == messages
    {
      this.messages := messages;
    }
  }

  /** What generation does with the code as written: it returns None, or raises TypeError. */
  datatype GenerateOutcome = Returned(reply: Option<ChatMessage>) | RaisedTypeError

  class OpenAIProvider {
    const apiKey: string
    const apiUrl: Option<string>
    const defaultInputMaxCharacters: int
    const defaultGenerationMaxOutputTokens: int
    /** Whether `self.client` is truthy. */
    const hasClient: bool

    var generationModelId: Option<string>
    var embeddingModelId: Option<string>
    var embeddingSize: Option<int>

    /** A new provider: configuration as given, no model chosen yet. */
    constructor (apiKey: string, apiUrl: Option<string> := None,
                 defaultInputMaxCharacters: int := DefaultInputMaxCharacters,
                 defaultGenerationMaxOutputTokens: int := DefaultGenerationMaxOutputTokens,
                 hasClient: bool := true)
      ensures this.apiKey == apiKey && this.apiUrl == apiUrl
      ensures this.defaultInputMaxCharacters == defaultInputMaxCharacters
      ensures this.defaultGenerationMaxOutputTokens == defaultGenerationMaxOutputTokens
      ensures this.hasClient == hasClient
      ensures generationModelId.None? && embeddingModelId.None? && embeddingSize.None?
    {
      this.apiKey := apiKey;
      this.apiUrl := apiUrl;
      this.defaultInputMaxCharacters := defaultInputMaxCharacters;
      this.defaultGenerationMaxOutputTokens := defaultGenerationMaxOutputTokens;
      this.hasClient := hasClient;
      generationModelId := None;
      embeddingModelId := None;
      embeddingSize := None;
    }

    method SetGenerationModel(modelId: string)
      modifies this`generationModelId
      ensures generationModelId == Some(modelId)
      ensures embeddingModelId == old(embeddingModelId) && embeddingSize == old(embeddingSize)
    {
      generationModelId := Some(modelId);
    }

    method SetEmbeddingModel(modelId: string, embeddingSize: int)
      modifies this`embeddingModelId, this`embeddingSize
      ensures embeddingModelId == Some(modelId) && this.embeddingSize == Some(embeddingSize)
      ensures generationModelId == old(generationModelId)
    {
      embeddingModelId := Some(modelId);
      this.embeddingSize := Some(embeddingSize);
    }

    /** The text cut to the configured number of characters, then stripped. */
    function ProcessText(text: string): (r: string)
      ensures |r| <= |text|
      ensures 0 <= defaultInputMaxCharacters ==> |r| <= defaultInputMaxCharacters
      ensures IsStripped(r)
      ensures exists a :: IsTrimAt(r, SliceTo(text, defaultInputMaxCharacters), a)
    {
      Strip(SliceTo(text, defaultInputMaxCharacters))
    }

    /** A chat message from `role` carrying the normalised prompt. */
    function ConstructPrompt(prompt: string, role: string): (m: Message)
      ensures m.role == role
      ensures m.content == ProcessText(prompt)
      ensures IsStripped(m.content)
      ensures 0 <= defaultInputMaxCharacters ==> |m.content| <= defaultInputMaxCharacters
    {
      Message(role, ProcessText(prompt))
    }

    /** The output token budget of a generation call. */
    function EffectiveMaxTokens(maxOutputToken: Option<int>): (n: int)
      ensures maxOutputToken.None? ==> n == defaultGenerationMaxOutputTokens
      ensures maxOutputToken.Some? ==> n == maxOutputToken.value
    {
      if maxOutputToken.Some? then maxOutputToken.value else defaultGenerationMaxOutputTokens
    }

    /**
     * generate_text as written: past its two guards, building the prompt
     * message raises TypeError (the `role` argument is missing), so the
     * history is never appended to and the backend is never called.
     */
    function GenerateTextAsWritten(prompt: string, chatHistory: seq<Message>,
                                   maxOutputToken: Option<int> := None): (out: GenerateOutcome)
      reads this
      ensures out == RaisedTypeError <==> hasClient && IsSet(generationModelId)
      ensures out != RaisedTypeError ==> out == Returned(None)
    {
      if !hasClient then Returned(None)
      else if !IsSet(generationModelId) then Returned(None)
      else RaisedTypeError
    }

    /**
     * generate_text as intended: unless the client or the generation model is
     * missing, the prompt is appended to the caller's history as a user message,
     * the whole history is sent, and the first choice's message is returned.
     */
    method GenerateText(prompt: string, chatHistory: ChatHistory, maxOutputToken: Option<int>,
                        backend: ChatRequest -> Option<ChatCompletion>)
      returns (reply: Option<ChatMessage>)
      modifies chatHistory
      ensures !(hasClient && IsSet(generationModelId)) ==>
                reply.None? && chatHistory.messages == old(chatHistory.messages)
      ensures hasClient && IsSet(generationModelId) ==>
                && chatHistory.messages == old(chatHistory.messages) + [ConstructPrompt(prompt, UserRole)]
                && reply == ReplyOf(backend(ChatRequest(generationModelId.value, chatHistory.messages,
                                                        EffectiveMaxTokens(maxOutputToken))))
    {
      if !hasClient {
        return None;
      }
      if !IsSet(generationModelId) {
        return None;
      }
      var maxTokens := EffectiveMaxTokens(maxOutputToken);
      chatHistory.messages := chatHistory.messages + [ConstructPrompt(prompt, UserRole)];
      var response := backend(ChatRequest(generationModelId.value, chatHistory.messages, maxTokens));
      reply := ReplyOf(response);
    }

    /** embed_text: the text is sent as it is; a missing or empty embedding gives None. */
    function EmbedText(text: string, documentType: string,
                       backend: EmbeddingRequest -> Option<EmbeddingResult>): (r: Option<seq<real>>)
      reads this
      ensures !hasClient || !IsSet(embeddingModelId) ==> r.None?
      ensures hasClient && IsSet(embeddingModelId) ==>
        var response := backend(EmbeddingRequest(embeddingModelId.value, text));
        && (r.Some? <==> response.Some? && |response.value.data| > 0 && |response.value.data[0].embedding| > 0)
        && (r.Some? ==> r.value == response.value.data[0].embedding)
    {
      if !hasClient then None
      else if !IsSet(embeddingModelId) then None
      else EmbeddingOf(backend(EmbeddingRequest(embeddingModelId.value, text)))
    }
  }

  /** Normalising twice is normalising once, for a non-negative length limit. */
  lemma ProcessTextIdempotent(p: OpenAIProvider, text: string)
    requires 0 <= p.defaultInputMaxCharacters
    ensures p.ProcessText(p.ProcessText(text)) == p.ProcessText(text)
  {
    var once := p.ProcessText(text);
    assert SliceTo(once, p.defaultInputMaxCharacters) == once;
    StripOfStripped(once);
  }

  /** With a negative limit Python's slice counts from the end, and normalising
      again cuts the text further. */
  lemma ProcessTextNegativeLimit(p: OpenAIProvider)
    requires p.defaultInputMaxCharacters == -1
    ensures p.ProcessText("ab") == "a"
    ensures p.ProcessText(p.ProcessText("ab")) == ""
  {
    var a := "a";
    assert SliceTo("ab", -1) == a;
    StripOfSingle('a');
    assert SliceTo(a, -1) == [];
    StripOfEmpty();
  }

  /** With the code as written, a configured provider never sends a prompt:
      whatever the prompt and history, generation raises TypeError. */
  lemma ConfiguredGenerationRaises(p: OpenAIProvider, prompt: string, chatHistory: seq<Message>, maxOutputToken: Option<int>)
    requires p.hasClient && IsSet(p.generationModelId)
    ensures p.GenerateTextAsWritten(prompt, chatHistory, maxOutputToken) == RaisedTypeError
  {
  }
}
