/**
 * `POST /api/process-image`: validate, build the prompt, call the image
 * model, and pick the result from its first choice.
 */
module ProcessImageRoute {
  import opened Common

  /** The parsed JSON body; `None` fields are absent. */
  datatype ImageBody = ImageBody(prompt: Option<string>, image: Option<string>)

  /** One choice's message: text content, refusal, and the URLs of its `images`. */
  datatype Message = Message(content: Option<string>, refusal: Option<string>, images: seq<string>)

  /** The model's answer, or what it threw. */
  datatype Completion = Replied(choices: seq<Message>) | Threw(error: string)

  /** The one chat message sent to the model: its text part and its image part. */
  datatype ModelRequest = ModelRequest(model: string, text: string, imageUrl: string)

  /** `details` carries the model's error message; other exceptions' messages are not modelled (`None`). */
  datatype ImageResponseBody = ResultBody(result: string) | ErrorBody(error: string, details: Option<string>)

  datatype ImageOutcome = ImageOutcome(response: Response<ImageResponseBody>, modelCall: Option<ModelRequest>)

  const Model: string := "google/gemini-2.5-flash-image"
  const PromptPrefix: string := "Generate a new image based on the provided image and prompt: "
  const RefusalPrefix: string := "Refusal: "
  const NoContentText: string := "No content returned from API. Check server logs for full response."

  /** The result picked from a message: its first image, else its content, else a refusal or fallback text. */
  function SelectResult(m: Message): (r: string)
    ensures |m.images| > 0 ==> r == m.images[0]
    ensures |m.images| == 0 && Truthy(m.content) ==> r == m.content.value
    ensures |m.images| == 0 && !Truthy(m.content) && Truthy(m.refusal) ==> r == RefusalPrefix + m.refusal.value
    ensures |m.images| == 0 && !Truthy(m.content) && !Truthy(m.refusal) ==> r == NoContentText
  {
    if |m.images| > 0 then m.images[0]
    else if !Truthy(m.content) then
      (if Truthy(m.refusal) then RefusalPrefix + m.refusal.value else NoContentText)
    else m.content.value
  }

  /** When the model sends no image, a non-empty answer is never lost: the result is non-empty. */
  lemma ResultNonEmptyWithoutImages(m: Message)
    requires |m.images| == 0
    ensures SelectResult(m) != ""
  {
  }

  /**
   * The route. `body` is `None` when `req.json()` throws; `apiKey` is
   * OPENROUTER_API_KEY; `completion` is what the model call gives.
   */
  function ProcessImage(body: Option<ImageBody>, apiKey: Option<string>, completion: Completion): (o: ImageOutcome)
    ensures body.None? ==> o.modelCall.None? && o.response.status == 500
    ensures body.Some? && (!Truthy(body.value.prompt) || !Truthy(body.value.image)) ==>
      o == ImageOutcome(Response(400, ErrorBody("Missing prompt or image", None)), None)
    ensures body.Some? && Truthy(body.value.prompt) && Truthy(body.value.image) && !Truthy(apiKey) ==>
      o == ImageOutcome(Response(500, ErrorBody("Server configuration error: API key missing", None)), None)
    ensures o.modelCall.Some? <==>
      body.Some? && Truthy(body.value.prompt) && Truthy(body.value.image) && Truthy(apiKey)
    ensures o.modelCall.Some? ==>
      o.modelCall.value == ModelRequest(Model, PromptPrefix + body.value.prompt.value, body.value.image.value)
    ensures o.modelCall.Some? && completion.Replied? && |completion.choices| > 0 ==>
      o.response == Response(200, ResultBody(SelectResult(completion.choices[0])))
    ensures o.modelCall.Some? && (completion.Threw? || |completion.choices| == 0) ==>
      o.response.status == 500 && o.response.body.ErrorBody? && o.response.body.error == "Internal Server Error"
  {
    if body.None? then ImageOutcome(Response(500, ErrorBody("Internal Server Error", None)), None)
    else if !Truthy(body.value.prompt) || !Truthy(body.value.image) then
      ImageOutcome(Response(400, ErrorBody("Missing prompt or image", None)), None)
    else if !Truthy(apiKey) then
      ImageOutcome(Response(500, ErrorBody("Server configuration error: API key missing", None)), None)
    else
      var call := Some(ModelRequest(Model, PromptPrefix + body.value.prompt.value, body.value.image.value));
      match completion
      case Threw(e) => ImageOutcome(Response(500, ErrorBody("Internal Server Error", Some(e))), call)
      case Replied(choices) =>
        if |choices| == 0 then
          ImageOutcome(Response(500, ErrorBody("Internal Server Error", None)), call)
        else ImageOutcome(Response(200, ResultBody(SelectResult(choices[0]))), call)
  }

  /** The prompt sent ends with the user's prompt verbatim, after the fixed prefix. */
  lemma PromptIsPrefixed(prompt: string, image: string, key: string, completion: Completion)
    requires prompt != "" && image != "" && key != ""
    ensures var call := ProcessImage(Some(ImageBody(Some(prompt), Some(image))), Some(key), completion).modelCall.value;
      && PromptPrefix <= call.text
      && call.text[|PromptPrefix|..] == prompt
  {
  }
}
