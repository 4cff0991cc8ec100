/**
  The serverless text processor (scripts/modal_example.py): input validation, the
  result dictionary `process_data` builds from it, and how the REST endpoint turns that
  dictionary into an HTTP answer. The model call, the optional result file and the clock
  are outcomes passed in.
*/
module Validator {
  import opened Wrappers
  import opened Text

  const MaxInput := 10000
  const EmptyInput := "Los datos de entrada no pueden estar vacíos"
  const TooLong := "Los datos de entrada exceden el límite de 10000 caracteres"

  /**
    validate_input: True, or the text of the ValueError it raises. Emptiness is checked
    first, so a blank input is refused as empty whatever its length.
  */
  function ValidateInput(data: string): (r: Result<bool, string>)
    ensures r.Ok? <==> !IsBlank(data) && |data| <= MaxInput
    ensures r.Ok? ==> r.value
    ensures IsBlank(data) ==> r == Err(EmptyInput)
    ensures !IsBlank(data) && |data| > MaxInput ==> r == Err(TooLong)
  {
    StripTrims(data);
    if data == [] || |Strip(data)| == 0 then Err(EmptyInput)
    else if |data| > MaxInput then Err(TooLong)
    else Ok(true)
  }

  /** What `process_with_ai` returns. */
  datatype AiResult = AiResult(output: string, tokensUsed: nat, model: string)

  /** An exception raised inside `process_data`'s try block, by kind. */
  datatype Raised = ValueError(text: string) | OtherError(text: string)

  datatype Data = Data(output: string, tokensUsed: nat, modelUsed: string, outputFile: Option<string>, timestamp: string)

  /** The dictionary `process_data` returns: status, data (None on error) and message. */
  datatype Reply = Reply(status: string, data: Option<Data>, message: string)

  const ValidationPrefix := "Error de validación: "
  const NoApiKey := "No se encontró OPENAI_API_KEY en los secretos de Modal"

  function ErrorReply(message: string): (r: Reply)
    ensures r.status == "error" && r.data.None?
  {
    Reply("error", None, message)
  }

  /** The two except clauses: a ValueError is reported as a validation error, anything else as a processing error. */
  function Caught(e: Raised): (r: Reply)
    ensures r.status == "error" && r.data.None?
    ensures e.ValueError? ==> r.message == ValidationPrefix + e.text
    ensures e.OtherError? ==> r.message == "Error durante el procesamiento: " + e.text
  {
    match e
    case ValueError(t) => ErrorReply(ValidationPrefix + t)
    case OtherError(t) => ErrorReply("Error durante el procesamiento: " + t)
  }

  /** `not api_key`: the secret is missing or empty. */
  predicate NoKey(apiKey: Option<string>) {
    apiKey.None? || apiKey.value == []
  }

  /**
    process_data. `ai` is what the model call gives for a text (or what it raises),
    `save` what writing the result file gives (its path or what it raises), `now` the
    timestamp.
  */
  function ProcessData(inputData: string, saveOutput: bool, apiKey: Option<string>,
                       ai: string -> Result<AiResult, Raised>, save: AiResult -> Result<string, Raised>,
                       now: string): (r: Reply)
    ensures ValidateInput(inputData).Err? ==> r == Caught(ValueError(ValidateInput(inputData).error))
    ensures ValidateInput(inputData).Ok? && NoKey(apiKey) ==> r == ErrorReply(NoApiKey)
    ensures r.status == "success" <==>
      ValidateInput(inputData).Ok? && !NoKey(apiKey) && ai(inputData).Ok? && (saveOutput ==> save(ai(inputData).value).Ok?)
    ensures ValidateInput(inputData).Ok? && !NoKey(apiKey) && ai(inputData).Err? ==> r == Caught(ai(inputData).error)
    ensures ValidateInput(inputData).Ok? && !NoKey(apiKey) && ai(inputData).Ok? && saveOutput && save(ai(inputData).value).Err? ==>
      r == Caught(save(ai(inputData).value).error)
    ensures r.status != "success" ==> r.status == "error" && r.data.None?
    ensures r.status == "success" ==>
      && r.data.Some?
      && r.data.value.output == ai(inputData).value.output
      && r.data.value.tokensUsed == ai(inputData).value.tokensUsed
      && (r.data.value.outputFile.Some? <==> saveOutput)
  {
    var valid := ValidateInput(inputData);
    if valid.Err? then Caught(ValueError(valid.error))
    else if NoKey(apiKey) then ErrorReply(NoApiKey)
    else
      match ai(inputData)
      case Err(e) => Caught(e)
      case Ok(result) =>
        var saved := if saveOutput then save(result) else Ok("");
        if saved.Err? then Caught(saved.error)
        else
          var file := if saveOutput then Some(saved.value) else None;
          Reply("success", Some(Data(result.output, result.tokensUsed, result.model, file, now)),
                "✅ Procesamiento completado exitosamente con " + Decimal(result.tokensUsed) + " tokens")
  }

  /** A missing key is reported before the model is asked: the reply does not depend on it. */
  lemma {:induction false} MissingKeyBeforeAi(inputData: string, saveOutput: bool, apiKey: Option<string>,
                                              ai1: string -> Result<AiResult, Raised>,
                                              ai2: string -> Result<AiResult, Raised>,
                                              save: AiResult -> Result<string, Raised>, now: string)
    requires NoKey(apiKey)
    ensures ProcessData(inputData, saveOutput, apiKey, ai1, save, now) == ProcessData(inputData, saveOutput, apiKey, ai2, save, now)
    ensures ValidateInput(inputData).Ok? ==> ProcessData(inputData, saveOutput, apiKey, ai1, save, now) == ErrorReply(NoApiKey)
  {
  }

  /** An invalid input is reported before the key is even looked at. */
  lemma {:induction false} ValidationBeforeKey(inputData: string, saveOutput: bool, apiKey: Option<string>,
                                               ai: string -> Result<AiResult, Raised>,
                                               save: AiResult -> Result<string, Raised>, now: string)
    requires IsBlank(inputData) || |inputData| > MaxInput
    ensures ProcessData(inputData, saveOutput, apiKey, ai, save, now).message ==
      ValidationPrefix + (if IsBlank(inputData) then EmptyInput else TooLong)
  {
  }

  // ---------------------------------------------------------------------------
  // The REST endpoint
  // ---------------------------------------------------------------------------

  /** What the endpoint answers: the reply as JSON, or an HTTP error with its detail. */
  datatype Http = Respond(reply: Reply) | HttpError(code: nat, detail: string)

  /**
    process_endpoint as written: the HTTPException(400) it raises for an error reply is
    raised inside its own try block, caught by `except Exception`, and re-raised as a
    500 whose detail is the exception's text, which the web framework renders as
    "<code>: <detail>".
  */
  function EndpointAsWritten(r: Reply): (h: Http)
    ensures h.HttpError? <==> r.status == "error"
    ensures h.HttpError? ==> h.code == 500 && h.detail == "400: " + r.message
    ensures h.Respond? ==> h.reply == r
  {
    if r.status == "error" then HttpError(500, "400: " + r.message) else Respond(r)
  }

  /** A blank request comes back as a server error, not as the client error intended. */
  lemma {:induction false} BlankRequestIsServerError(inputData: string, apiKey: Option<string>,
                                                     ai: string -> Result<AiResult, Raised>,
                                                     save: AiResult -> Result<string, Raised>, now: string)
    requires IsBlank(inputData)
    ensures EndpointAsWritten(ProcessData(inputData, false, apiKey, ai, save, now))
      == HttpError(500, "400: " + (ValidationPrefix + EmptyInput))
  {
  }

  /** The endpoint as intended: an error reply is a 400 carrying the reply's message. */
  function Endpoint(r: Reply): (h: Http)
    ensures h.HttpError? <==> r.status == "error"
    ensures h.HttpError? ==> h.code == 400 && h.detail == r.message
    ensures h.Respond? ==> h.reply == r
  {
    if r.status == "error" then HttpError(400, r.message) else Respond(r)
  }

  /**
    With the endpoint as intended, every failed request is a client error that carries
    process_data's message, and a successful one is answered with the reply itself.
  */
  lemma {:induction false} EndpointAnswers(inputData: string, apiKey: Option<string>,
                                           ai: string -> Result<AiResult, Raised>,
                                           save: AiResult -> Result<string, Raised>, now: string)
    ensures var r := ProcessData(inputData, false, apiKey, ai, save, now);
      && (Endpoint(r).HttpError? <==> r.status == "error")
      && (Endpoint(r).HttpError? ==> Endpoint(r).code == 400 && Endpoint(r).detail == r.message)
      && (Endpoint(r).Respond? ==> Endpoint(r).reply.status == "success")
    ensures IsBlank(inputData) ==>
      Endpoint(ProcessData(inputData, false, apiKey, ai, save, now)) == HttpError(400, ValidationPrefix + EmptyInput)
  {
  }
}
