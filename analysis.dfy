/**
 * Assembly of the analysis request and the mapping of the remote call's
 * outcome to the text shown to the operator (analyze_image in app.py).
 * The remote chat-completion service is not modelled: it is a function
 * parameter from request to an abstract Response.
 */
module Analysis {
  import opened Wrappers
  import opened Messages

  /** The fixed system directive that opens every request. */
  const SystemDirective: string :=
    "You are an expert at analyzing images for quality control purposes. Provide detailed observations about any defects, damages, or quality issues."

  /** The model is hard-coded; the tool's model selection is never consulted. */
  const ModelName: string := "gpt-4o"
  const MaxTokens: nat := 1000

  const ErrorPrefix: string := "An error occurred during image analysis: "

  /** The text of the IndexError raised by indexing an empty choice list. */
  const EmptyChoicesError: string := "list index out of range"

  /** What the remote call yields: the choices' texts, or a failure with its description. */
  datatype Response = Completed(choices: seq<string>) | Failed(error: string)

  datatype ChatRequest = ChatRequest(model: string, messages: seq<Message>, maxTokens: nat)

  /** The inputs of one analysis, as recovered from an assembled message list. */
  datatype Query = Query(imageBase64: string, fewShot: seq<Message>, prompt: string)

  function SystemMessage(): Message {
    Message(System, Text(SystemDirective))
  }

  /** The final turn: one user message holding the target image, then the prompt. */
  function TargetMessage(imageBase64: string, prompt: string): Message {
    Message(User, Parts([ImagePart(ImageUrl(imageBase64)), TextPart(prompt)]))
  }

  /**
   * The message list of a request: the system directive, the few-shot
   * messages unchanged and in order, then the combined target turn.
   */
  function AssembleMessages(imageBase64: string, fewShot: seq<Message>, prompt: string): (r: seq<Message>)
    ensures |r| == |fewShot| + 2
    ensures r[0].role == System && r[0].content == Text(SystemDirective)
    ensures forall i :: 0 <= i < |fewShot| ==> r[i + 1] == fewShot[i]
    ensures r[|r| - 1].role == User && r[|r| - 1].content.Parts?
    ensures r[|r| - 1].content.parts == [ImagePart(DataUrlPrefix + imageBase64), TextPart(prompt)]
  {
    [SystemMessage()] + fewShot + [TargetMessage(imageBase64, prompt)]
  }

  /**
   * Reads a message list back into the inputs that would assemble it, or
   * None when the list does not have the shape of an assembled request.
   */
  function SplitMessages(messages: seq<Message>): (q: Option<Query>)
    ensures q.Some? ==> |messages| == |q.value.fewShot| + 2
  {
    if |messages| < 2 || messages[0] != SystemMessage() then None
    else
      var last := messages[|messages| - 1];
      if last.role == User && last.content.Parts? && |last.content.parts| == 2
         && last.content.parts[0].ImagePart? && last.content.parts[1].TextPart?
         && ImagePayload(last.content.parts[0].url).Some?
      then Some(Query(ImagePayload(last.content.parts[0].url).value,
                      messages[1..|messages| - 1],
                      last.content.parts[1].text))
      else None
  }

  /** Assembly loses nothing: its inputs are recovered from its output. */
  lemma SplitAssembled(imageBase64: string, fewShot: seq<Message>, prompt: string)
    ensures SplitMessages(AssembleMessages(imageBase64, fewShot, prompt)) == Some(Query(imageBase64, fewShot, prompt))
  {
  }

  /** Every list that splits is the assembly of what it splits into. */
  lemma AssembleSplit(messages: seq<Message>)
    requires SplitMessages(messages).Some?
    ensures var q := SplitMessages(messages).value;
            AssembleMessages(q.imageBase64, q.fewShot, q.prompt) == messages
  {
    var q := SplitMessages(messages).value;
    var last := messages[|messages| - 1];
    ImagePayloadRoundTrip(last.content.parts[0].url);
    assert last == TargetMessage(q.imageBase64, q.prompt);
    assert messages == [messages[0]] + messages[1..|messages| - 1] + [last];
  }

  /** The request handed to the remote call: fixed model, fixed output cap. */
  function BuildRequest(imageBase64: string, fewShot: seq<Message>, prompt: string): (req: ChatRequest)
    ensures req.model == "gpt-4o" && req.maxTokens == 1000
    ensures SplitMessages(req.messages) == Some(Query(imageBase64, fewShot, prompt))
  {
    SplitAssembled(imageBase64, fewShot, prompt);
    ChatRequest(ModelName, AssembleMessages(imageBase64, fewShot, prompt), MaxTokens)
  }

  /**
   * The text returned for a response: the first choice verbatim, or, for a
   * failure or an empty choice list, the error prefix followed by the
   * failure's description.
   */
  function ResultText(response: Response): (r: string)
    ensures response.Completed? && |response.choices| > 0 ==> r == response.choices[0]
    ensures response.Completed? && |response.choices| == 0 ==> r == ErrorPrefix + EmptyChoicesError
    ensures response.Failed? ==> |ErrorPrefix| <= |r| && r[..|ErrorPrefix|] == ErrorPrefix
                                 && r[|ErrorPrefix|..] == response.error
  {
    match response
    case Completed(choices) =>
      if |choices| > 0 then choices[0] else ErrorPrefix + EmptyChoicesError
    case Failed(error) => ErrorPrefix + error
  }

  /**
   * One analysis: assemble the request, hand it to the remote call and map
   * its outcome to text. Never fails: every failure becomes an error text.
   */
  function AnalyzeImage(imageBase64: string, fewShot: seq<Message>, prompt: string,
                        remote: ChatRequest -> Response): (r: string)
    ensures var response := remote(BuildRequest(imageBase64, fewShot, prompt));
            response.Completed? && |response.choices| > 0 ==> r == response.choices[0]
    ensures var response := remote(BuildRequest(imageBase64, fewShot, prompt));
            !(response.Completed? && |response.choices| > 0) ==>
              |ErrorPrefix| <= |r| && r[..|ErrorPrefix|] == ErrorPrefix
    ensures var response := remote(BuildRequest(imageBase64, fewShot, prompt));
            response.Completed? && |response.choices| == 0 ==> r == ErrorPrefix + EmptyChoicesError
    ensures var response := remote(BuildRequest(imageBase64, fewShot, prompt));
            response.Failed? ==> r == ErrorPrefix + response.error
  {
    ResultText(remote(BuildRequest(imageBase64, fewShot, prompt)))
  }
}
