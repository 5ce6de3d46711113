/** `utils/agents/environment_helpers.py`: the same window text, verdict
    and explanation as the backend helpers, with no check of the reply:
    a missing content fails on `strip`, an empty one is read as it is. */
module UtilsEnvironmentHelpers {
  import opened Wrappers
  import opened Py
  import opened Llm
  import opened EnvironmentHelpers

  function TransitionOutcome(reply: Reply): Result<Transition> {
    match StrippedReply(reply)
    case Err(e) => Err(e)
    case Ok(output) => Ok(TransitionOf(output))
  }

  /** `analyze_environment` */
  method AnalyzeEnvironment(llm: Provider, scene: string, sceneNumber: int) returns (r: Result<string>)
    modifies llm
    ensures llm.prompts == old(llm.prompts) + [EnvironmentAnalysisPrompt(scene, sceneNumber)]
    ensures llm.script == Rest(old(llm.script))
    ensures r == StrippedReply(Next(old(llm.script)))
    ensures r.Ok? <==> Next(old(llm.script)).Content?
  {
    var reply := llm.Complete(EnvironmentAnalysisPrompt(scene, sceneNumber));
    r := StrippedReply(reply);
  }

  /** `verify_environment_transition` */
  method VerifyEnvironmentTransition(llm: Provider, prior: seq<Option<string>>, current: string, numScenes: int)
    returns (r: Result<Transition>)
    modifies llm
    ensures PriorLocationText(prior, numScenes).Err? ==>
      r == Err(NotIterable) && unchanged(llm)
    ensures PriorLocationText(prior, numScenes).Ok? ==>
      llm.prompts == old(llm.prompts) +
        [TransitionPrompt(PriorLocationText(prior, numScenes).value, current, numScenes)] &&
      llm.script == Rest(old(llm.script)) &&
      r == TransitionOutcome(Next(old(llm.script)))
  {
    var text := PriorLocationText(prior, numScenes);
    if text.Err? {
      return Err(text.error);
    }
    var reply := llm.Complete(TransitionPrompt(text.value, current, numScenes));
    match StrippedReply(reply)
    case Err(e) =>
      r := Err(e);
    case Ok(output) =>
      r := Ok(Transition(LinesVerdict(SplitLines(output)), Explanation(output), output));
  }

  /** Only a missing content fails, and an empty one gives a negative
      verdict with the fallback explanation. */
  lemma TransitionReplies(reply: Reply)
    ensures var r := TransitionOutcome(reply);
      (r.Err? <==> !reply.Content?) &&
      (r.Ok? ==>
        r.value.output == Strip(reply.text) &&
        r.value.isConsistent == LinesVerdict(SplitLines(Strip(reply.text))) &&
        r.value.explanation == Explanation(Strip(reply.text)))
    ensures TransitionOutcome(Content("")) == Ok(Transition(false, MissingExplanation, ""))
  {
    assert Strip("") == "";
    assert SplitLines("") == [];
    VerdictOfLines([]);
    ExplanationFacts("");
    assert !OccursAt("", ExplanationMarker, 0);
  }

  /** `suggest_environment_details` */
  method SuggestEnvironmentDetails(llm: Provider, analysis: string, check: CheckText, isConsistent: bool)
    returns (r: Result<string>)
    modifies llm
    ensures llm.prompts == old(llm.prompts) + [EnvironmentDetailsPrompt(analysis, check, ConsistencyNote(isConsistent))]
    ensures llm.script == Rest(old(llm.script))
    ensures r == StrippedReply(Next(old(llm.script)))
    ensures r.Ok? <==> Next(old(llm.script)).Content?
  {
    var note := if isConsistent then SmoothNote else JarringNote;
    var reply := llm.Complete(EnvironmentDetailsPrompt(analysis, check, note));
    r := StrippedReply(reply);
  }
}
