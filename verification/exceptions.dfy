/**
 * The pipeline's exception hierarchy: one error per phase, each carrying the
 * context it was raised with and rendering a fixed message from it.
 */
module Exceptions {
  import opened Text

  /** `ResearchPipelineError` and its four subclasses. */
  datatype PipelineError =
    | PipelineBase(message: string)
    | PlanningError(topic: string, reason: string)
    | GatheringError(attempted: int, failed: int)
    | SynthesisError(reason: string)
    | VerificationError(reason: string)

  /** Anything an operation can raise: a pipeline error, or some other exception by class name and text. */
  datatype Failure =
    | Pipeline(err: PipelineError)
    | Other(typeName: string, text: string)

  /**
   * The error pydantic raises when a record fails its field constraints; its
   * full text (which lists every offending field) is abbreviated to the model name.
   */
  function ValidationFailure(model: string): (f: Failure)
    ensures f.Other? && f.typeName == "ValidationError"
  {
    Other("ValidationError", "validation error for " + model)
  }

  const PlanningPrefix: string := "Failed to create research plan for '"
  const GatheringSuffix: string := " search attempts failed. Cannot proceed with synthesis."
  const SynthesisPrefix: string := "Failed to synthesize research report: "
  const VerificationPrefix: string := "Failed to verify research: "

  /**
   * `str(e)`: the message each constructor builds. Every argument the message
   * mentions reads back from its own offset.
   */
  function Message(e: PipelineError): (r: string)
    ensures e.PipelineBase? ==> r == e.message
    ensures e.PlanningError? ==>
              && |r| == |PlanningPrefix| + |e.topic| + 3 + |e.reason|
              && PlanningPrefix <= r
              && r[|PlanningPrefix|..|PlanningPrefix| + |e.topic|] == e.topic
              && r[|PlanningPrefix| + |e.topic|..|r| - |e.reason|] == "': "
              && r[|r| - |e.reason|..] == e.reason
    ensures e.GatheringError? ==>
              && |r| == 4 + |IntToString(e.attempted)| + |GatheringSuffix|
              && "All " <= r
              && r[4..|r| - |GatheringSuffix|] == IntToString(e.attempted)
              && r[|r| - |GatheringSuffix|..] == GatheringSuffix
    ensures e.SynthesisError? ==> SynthesisPrefix <= r && r[|SynthesisPrefix|..] == e.reason
    ensures e.VerificationError? ==> VerificationPrefix <= r && r[|VerificationPrefix|..] == e.reason
  {
    match e
    case PipelineBase(m) => m
    case PlanningError(topic, reason) =>
      var r := PlanningPrefix + topic + "': " + reason;
      assert r[|PlanningPrefix|..|PlanningPrefix| + |topic|] == topic;
      assert r[|PlanningPrefix| + |topic|..|r| - |reason|] == "': ";
      r
    case GatheringError(attempted, _) =>
      var r := "All " + IntToString(attempted) + GatheringSuffix;
      assert r[4..|r| - |GatheringSuffix|] == IntToString(attempted);
      r
    case SynthesisError(reason) => SynthesisPrefix + reason
    case VerificationError(reason) => VerificationPrefix + reason
  }

  /** `type(e).__name__`. */
  function TypeName(e: PipelineError): (r: string)
    ensures |r| > 0
  {
    match e
    case PipelineBase(_) => "ResearchPipelineError"
    case PlanningError(_, _) => "PlanningError"
    case GatheringError(_, _) => "GatheringError"
    case SynthesisError(_) => "SynthesisError"
    case VerificationError(_) => "VerificationError"
  }

  function FailureTypeName(f: Failure): string {
    match f
    case Pipeline(e) => TypeName(e)
    case Other(t, _) => t
  }

  function FailureText(f: Failure): string {
    match f
    case Pipeline(e) => Message(e)
    case Other(_, m) => m
  }

  /** Each subclass has its own class name, so the name identifies the phase that failed. */
  lemma TypeNameDistinguishesKind(a: PipelineError, b: PipelineError)
    requires TypeName(a) == TypeName(b)
    ensures a.PipelineBase? == b.PipelineBase? && a.PlanningError? == b.PlanningError?
    ensures a.GatheringError? == b.GatheringError? && a.SynthesisError? == b.SynthesisError?
    ensures a.VerificationError? == b.VerificationError?
  {
  }

  /** The synthesis and verification messages keep the reason: it can be read back off the message. */
  lemma SynthesisMessageKeepsReason(r1: string, r2: string)
    requires Message(SynthesisError(r1)) == Message(SynthesisError(r2))
    ensures r1 == r2
  {
    var prefix := SynthesisPrefix;
    assert Message(SynthesisError(r1))[|prefix|..] == r1;
    assert Message(SynthesisError(r2))[|prefix|..] == r2;
  }

  lemma VerificationMessageKeepsReason(r1: string, r2: string)
    requires Message(VerificationError(r1)) == Message(VerificationError(r2))
    ensures r1 == r2
  {
    var prefix := VerificationPrefix;
    assert Message(VerificationError(r1))[|prefix|..] == r1;
    assert Message(VerificationError(r2))[|prefix|..] == r2;
  }

  /** The gathering message names how many searches were attempted, and only that. */
  lemma GatheringMessageDeterminesAttempted(a1: int, f1: int, a2: int, f2: int)
    ensures Message(GatheringError(a1, f1)) == Message(GatheringError(a2, f2)) <==> a1 == a2
  {
    if Message(GatheringError(a1, f1)) == Message(GatheringError(a2, f2)) {
      var m1 := Message(GatheringError(a1, f1));
      var m2 := Message(GatheringError(a2, f2));
      var tail := GatheringSuffix;
      var s1 := IntToString(a1);
      var s2 := IntToString(a2);
      assert m1 == "All " + s1 + tail;
      assert m2 == "All " + s2 + tail;
      assert |s1| == |s2|;
      assert s1 == m1[4..4 + |s1|];
      assert s2 == m2[4..4 + |s2|];
      IntToStringInjective(a1, a2);
    }
  }
}
