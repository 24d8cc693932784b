/** The two entry points of the content service (content.service.ts): build the
    prompt, make one call to the generative model, normalise and parse its text,
    validate, and turn every failure on the way into one HTTP 500 error. The model
    call and `JSON.parse` are outside the model and are passed in as functions. */
module ContentGeneration {
  import opened Wrappers
  import opened JsonValues
  import opened JsText
  import opened ContentPrompt
  import opened ResponseNormalizer
  import opened ContentValidation

  /** The outcome of the one call to the generative model: its reply text, or
      the message of the error the client library threw. */
  datatype ModelReply = Replied(text: string) | ServiceFailed(message: string)

  /** The outcome of `JSON.parse`: a value, or the SyntaxError's message. */
  datatype ParseOutcome = Parsed(value: Json) | Unparsable(message: string)

  /** An `HttpException`: its status and message. */
  datatype HttpError = HttpError(status: int, message: string)

  const InternalServerError := 500
  const ContentFailurePrefix := "Failed to generate content: "
  const QuizFailurePrefix := "Failed to generate quiz: "

  /** The message of whatever the `try` block threw. */
  function FailureMessage(reply: ModelReply, parse: string -> ParseOutcome, validation: Option<ValidationError>): string
  {
    match reply
    case ServiceFailed(m) => m
    case Replied(text) =>
      match parse(Normalize(text))
      case Unparsable(m) => m
      case Parsed(_) => if validation.Some? then ErrorMessage(validation.value) else ""
  }

  /** `generateContent`. */
  function GenerateContent(req: ContentRequest, model: StoryPrompt -> ModelReply, parse: string -> ParseOutcome)
    : Result<Json, HttpError>
  {
    match model(BuildPrompt(req))
    case ServiceFailed(m) => Err(HttpError(InternalServerError, ContentFailurePrefix + m))
    case Replied(text) =>
      match parse(Normalize(text))
      case Unparsable(m) => Err(HttpError(InternalServerError, ContentFailurePrefix + m))
      case Parsed(v) =>
        match ValidateContent(v)
        case Err(e) => Err(HttpError(InternalServerError, ContentFailurePrefix + ErrorMessage(e)))
        case Ok(content) => Ok(content)
  }

  /** `generateOnlyQuiz`. */
  function GenerateQuiz(req: QuizRequest, model: QuizPrompt -> ModelReply, parse: string -> ParseOutcome)
    : Result<seq<Json>, HttpError>
  {
    match model(BuildQuizPrompt(req))
    case ServiceFailed(m) => Err(HttpError(InternalServerError, QuizFailurePrefix + m))
    case Replied(text) =>
      match parse(Normalize(text))
      case Unparsable(m) => Err(HttpError(InternalServerError, QuizFailurePrefix + m))
      case Parsed(v) =>
        match ValidateQuiz(v)
        case Err(e) => Err(HttpError(InternalServerError, QuizFailurePrefix + ErrorMessage(e)))
        case Ok(items) => Ok(items)
  }

  /** Content is returned exactly when the model replied, its normalised text
      parsed, and the parsed value passed validation; it is then the validated
      value. Every failure, of any stage, is one 500 error carrying the original
      message behind the same prefix. */
  lemma GenerateContentOutcome(req: ContentRequest, model: StoryPrompt -> ModelReply, parse: string -> ParseOutcome)
    ensures GenerateContent(req, model, parse).Ok? <==>
              model(BuildPrompt(req)).Replied? &&
              parse(Normalize(model(BuildPrompt(req)).text)).Parsed? &&
              ValidateContent(parse(Normalize(model(BuildPrompt(req)).text)).value).Ok?
    ensures GenerateContent(req, model, parse).Ok? ==>
              GenerateContent(req, model, parse).value ==
                ValidateContent(parse(Normalize(model(BuildPrompt(req)).text)).value).value
    ensures GenerateContent(req, model, parse).Err? ==>
              var e := GenerateContent(req, model, parse).error;
              var reply := model(BuildPrompt(req));
              var validation :=
                if reply.Replied? && parse(Normalize(reply.text)).Parsed?
                then Some(ValidateContent(parse(Normalize(reply.text)).value).error) else None;
              e.status == InternalServerError && StartsWith(e.message, ContentFailurePrefix) &&
              e.message[|ContentFailurePrefix|..] == FailureMessage(reply, parse, validation)
  {
  }

  /** The same for the quiz-only entry point. */
  lemma GenerateQuizOutcome(req: QuizRequest, model: QuizPrompt -> ModelReply, parse: string -> ParseOutcome)
    ensures GenerateQuiz(req, model, parse).Ok? <==>
              model(BuildQuizPrompt(req)).Replied? &&
              parse(Normalize(model(BuildQuizPrompt(req)).text)).Parsed? &&
              ValidateQuiz(parse(Normalize(model(BuildQuizPrompt(req)).text)).value).Ok?
    ensures GenerateQuiz(req, model, parse).Ok? ==>
              GenerateQuiz(req, model, parse).value ==
                ValidateQuiz(parse(Normalize(model(BuildQuizPrompt(req)).text)).value).value
    ensures GenerateQuiz(req, model, parse).Err? ==>
              var e := GenerateQuiz(req, model, parse).error;
              var reply := model(BuildQuizPrompt(req));
              var validation :=
                if reply.Replied? && parse(Normalize(reply.text)).Parsed?
                then Some(ValidateQuiz(parse(Normalize(reply.text)).value).error) else None;
              e.status == InternalServerError && StartsWith(e.message, QuizFailurePrefix) &&
              e.message[|QuizFailurePrefix|..] == FailureMessage(reply, parse, validation)
  {
  }

  /** A reply wrapped in a ```json fence reaches the parser as the trimmed text
      inside the fence, so a fenced reply that is otherwise valid is accepted. */
  lemma FencedReplyAccepted(req: ContentRequest, model: StoryPrompt -> ModelReply, parse: string -> ParseOutcome, body: string)
    requires model(BuildPrompt(req)) == Replied(OpeningFence + body + ClosingFence)
    requires parse(Trim(body)).Parsed? && ValidateContent(parse(Trim(body)).value).Ok?
    ensures GenerateContent(req, model, parse) == Ok(ValidateContent(parse(Trim(body)).value).value)
  {
    FencedReply(body);
  }
}
