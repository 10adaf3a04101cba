/**
 * The HTTP surface: request bounds, the mapping from failures to error
 * responses with fixed user-facing messages, and the non-streaming research
 * endpoint. The streaming endpoint's loop is in the `Stream` module.
 */
module Server {
  import opened Outcomes
  import opened Models
  import opened Exceptions
  import opened Events
  import opened Demo

  const HeartbeatInterval: int := 30
  const MaxDuration: int := 600
  const MaxQueueSize: nat := 100

  const MinQueryLength: nat := 1
  const MaxQueryLength: nat := 1000

  /** The body of a research request is accepted iff its query has 1 to 1000 characters. */
  predicate ValidRequestQuery(query: string) {
    MinQueryLength <= |query| <= MaxQueryLength
  }

  const GenericDetail: string := "An error occurred processing your request."
  const UnexpectedDetail: string := "An unexpected error occurred."

  /** The fixed, user-facing message for each pipeline error class. */
  function SafeMessageTable(typeName: string): (r: Option<string>)
    ensures r.Some? <==> typeName in {"PlanningError", "GatheringError", "SynthesisError", "VerificationError"}
  {
    if typeName == "PlanningError" then Some("Unable to create research plan. Please try a different query.")
    else if typeName == "GatheringError" then Some("Unable to gather sufficient information. Please try again.")
    else if typeName == "SynthesisError" then Some("Unable to generate research report. Please try again.")
    else if typeName == "VerificationError" then Some("Unable to verify research quality. Please try again.")
    else None
  }

  /** The table entry for a class name, or the generic message. */
  function SafeMessage(typeName: string): (r: string)
    ensures SafeMessageTable(typeName).Some? ==> r == SafeMessageTable(typeName).value
    ensures SafeMessageTable(typeName).None? ==> r == GenericDetail
    ensures r in FixedDetails && r != UnexpectedDetail
    ensures r != GenericDetail <==> typeName in {"PlanningError", "GatheringError", "SynthesisError", "VerificationError"}
  {
    match SafeMessageTable(typeName)
    case Some(m) => m
    case None => GenericDetail
  }

  /** Every message a client can be shown in place of an exception's text. */
  const FixedDetails: set<string> := {
    "Unable to create research plan. Please try a different query.",
    "Unable to gather sufficient information. Please try again.",
    "Unable to generate research report. Please try again.",
    "Unable to verify research quality. Please try again.",
    GenericDetail,
    UnexpectedDetail
  }

  lemma SafeMessageIsFixed(typeName: string)
    ensures SafeMessage(typeName) in FixedDetails
  {
  }

  datatype Response =
    | ResultResponse(result: ResearchResult)
    | ErrorResponse(status: int, error: string, detail: string)
    | HttpError(status: int, message: string)
    | RequestRejected

  /**
   * The registered exception handlers, chosen by the exception's class: a
   * pipeline error gets 422 with its class name and the safe message; a
   * pydantic validation error gets 422 with its own text; anything else gets
   * 500 with a fixed text.
   */
  function HandleFailure(f: Failure): (r: Response)
    ensures r.ErrorResponse?
    ensures r.status == 422 <==> f.Pipeline? || f.typeName == "ValidationError"
    ensures r.status == 500 <==> !(f.Pipeline? || f.typeName == "ValidationError")
    ensures f.Pipeline? ==> r.error == TypeName(f.err) && r.detail in FixedDetails
    ensures f.Other? && f.typeName == "ValidationError" ==> r.error == "ValidationError" && r.detail == f.text
    ensures f.Pipeline? ==> r == ErrorResponse(422, TypeName(f.err), SafeMessage(TypeName(f.err)))
    ensures f.Other? && f.typeName != "ValidationError" ==> r == ErrorResponse(500, "InternalServerError", UnexpectedDetail)
  {
    match f
    case Pipeline(e) =>
      SafeMessageIsFixed(TypeName(e));
      ErrorResponse(422, TypeName(e), SafeMessage(TypeName(e)))
    case Other(typeName, text) =>
      if typeName == "ValidationError" then ErrorResponse(422, "ValidationError", text)
      else ErrorResponse(500, "InternalServerError", UnexpectedDetail)
  }

  /**
   * A pipeline error's response depends only on its class: its message, and the
   * query or reason inside it, never reach the client.
   */
  lemma PipelineResponseHidesMessage(a: PipelineError, b: PipelineError)
    requires TypeName(a) == TypeName(b)
    ensures HandleFailure(Pipeline(a)) == HandleFailure(Pipeline(b))
  {
  }

  /** Each phase's failure gets its own message, and a failure's class is what the client sees as `error`. */
  lemma PhaseMessagesDistinct(a: PipelineError, b: PipelineError)
    requires !a.PipelineBase? && !b.PipelineBase?
    requires HandleFailure(Pipeline(a)).detail == HandleFailure(Pipeline(b)).detail
    ensures TypeName(a) == TypeName(b)
  {
  }

  /** The error event the streaming endpoint sends when the workflow raises. */
  function StreamErrorEvent(f: Failure): (e: SseEvent)
    ensures e.kind == Error && e.cls == ErrorEvent
    ensures e.data.Keys == {"error", "error_type", "phase"}
    ensures e.data["error"] == JsonValue.JStr(SafeMessage(FailureTypeName(f)))
    ensures e.data["error_type"] == JsonValue.JStr(FailureTypeName(f))
    ensures e.data["phase"] == JsonValue.JStr("unknown")
  {
    NewError(SafeMessage(FailureTypeName(f)), FailureTypeName(f), "unknown")
  }

  /**
   * Unlike the HTTP handler, the stream shows a validation error's text to no
   * one: the two endpoints disagree on what a `ValidationError` reveals.
   */
  lemma ValidationTextShownOnlyOverHttp(text: string)
    ensures HandleFailure(Other("ValidationError", text)).detail == text
    ensures StreamErrorEvent(Other("ValidationError", text)).data["error"] == JsonValue.JStr(GenericDetail)
  {
  }

  /**
   * `POST /research`: the body is validated first; demo mode then answers with
   * the fixture (or 403 outside development and staging); otherwise the
   * workflow runs and its failure goes through the handlers.
   */
  function Research(
    query: string,
    demo: bool,
    environment: Option<string>,
    workflow: string -> Result<ResearchResult, Failure>)
    : (r: Response)
    ensures !ValidRequestQuery(query) <==> r.RequestRejected?
    ensures ValidRequestQuery(query) && demo && !DemoModeAllowed(environment) ==>
              r == HttpError(403, "Demo mode not available in this environment")
    ensures ValidRequestQuery(query) && demo && DemoModeAllowed(environment) ==>
              r == ResultResponse(DemoResult(query).value)
    ensures ValidRequestQuery(query) && !demo ==>
              r == (if workflow(query).Ok? then ResultResponse(workflow(query).value) else HandleFailure(workflow(query).error))
  {
    if !ValidRequestQuery(query) then RequestRejected
    else if demo then
      if !DemoModeAllowed(environment) then HttpError(403, "Demo mode not available in this environment")
      else
        match DemoResult(query)
        case Ok(result) => ResultResponse(result)
        case Err(f) => HandleFailure(f)
    else
      match workflow(query)
      case Ok(result) => ResultResponse(result)
      case Err(f) => HandleFailure(f)
  }

  /** The request schema bounds the query: the empty query and any query over 1000 characters are rejected, whatever else is asked. */
  lemma RequestQueryBounds(
    query: string, demo: bool, environment: Option<string>,
    workflow: string -> Result<ResearchResult, Failure>)
    ensures Research(query, demo, environment, workflow).RequestRejected? <==> |query| == 0 || |query| > 1000
  {
  }

  /** Whatever the workflow does, a valid request never gets a pipeline exception's text back. */
  lemma ResearchNeverLeaksPipelineText(
    query: string, demo: bool, environment: Option<string>,
    workflow: string -> Result<ResearchResult, Failure>)
    requires ValidRequestQuery(query) && !demo
    requires workflow(query).Err? && workflow(query).error.Pipeline?
    ensures var r := Research(query, demo, environment, workflow);
            r.ErrorResponse? && r.status == 422 && r.detail in FixedDetails
  {
  }
}
