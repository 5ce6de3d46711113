/** `backend/utils/agents/environment_agents.py`: the `EnvironmentReActAgent`,
    an earlier form of the environment agent that analyses, verifies and
    suggests in one `run`. Its imports resolve, from the backend, to the
    backend helpers, so every reply it uses is checked for content.

    Its last call leaves out the `is_consistent` argument of
    `suggest_environment_details`, so a run that gets that far fails with a
    `TypeError` before any third prompt is sent: `Run` models the code as
    written, `RunAsIntended` the run with the argument passed. */
module EnvironmentReActAgents {
  import opened Wrappers
  import opened Llm
  import opened EnvironmentHelpers
  import EnvironmentAgents
  import Seqs
  import SceneMemory

  /** The thoughts, as the data their f-strings carry. */
  datatype Thought =
    | Analyzed(sceneNumber: int)  // "Analyzed environment features for Scene ..."
    | Verified(window: int)       // "Verified environment transition based on last ... scenes."
    | Suggested                   // "Suggested environment and sensory details for next scene."

  /** The four values a completed `run` returns. */
  datatype ReActResult = ReActResult(
    analysis: string,
    transition: Transition,
    suggestions: string,
    thoughts: seq<Thought>)

  /** The error a run as written ends with: that of the analysis, of the
      window of prior locations, or of the transition check, and otherwise
      the missing argument. */
  function AsWrittenFailure(script: seq<Reply>, prior: seq<Option<string>>, numScenes: int): Failure {
    match CheckedReply(Next(script))
    case Err(e) => e
    case Ok(_) =>
      match PriorLocationText(prior, numScenes)
      case Err(e) => e
      case Ok(_) =>
        match TransitionOutcome(Next(Rest(script)))
        case Err(e) => e
        case Ok(_) => MissingArgument("is_consistent")
  }

  /** The thoughts a run as written adds: one once the analysis is in, a
      second once the transition check is. */
  function AsWrittenThoughts(script: seq<Reply>, prior: seq<Option<string>>, numScenes: int, sceneNumber: int)
    : seq<Thought>
  {
    if !HasContent(Next(script)) then []
    else if PriorLocationText(prior, numScenes).Err? || TransitionOutcome(Next(Rest(script))).Err? then
      [Analyzed(sceneNumber)]
    else [Analyzed(sceneNumber), Verified(numScenes)]
  }

  /** The prompts a run as written sends: the analysis request, and the
      transition check when the window of prior locations can be joined. */
  function AsWrittenPrompts(script: seq<Reply>, prior: seq<Option<string>>, numScenes: int,
                            scene: string, sceneNumber: int): seq<Prompt>
  {
    if !HasContent(Next(script)) || PriorLocationText(prior, numScenes).Err? then
      [EnvironmentAnalysisPrompt(scene, sceneNumber)]
    else
      [EnvironmentAnalysisPrompt(scene, sceneNumber),
       TransitionPrompt(PriorLocationText(prior, numScenes).value,
                        EnvironmentAgents.EnvironmentOf(Py.Strip(Next(script).text)), numScenes)]
  }

  /** A run as written adds both its thoughts exactly when it ends on the
      missing argument, and sends no third prompt in any case. */
  lemma AsWrittenTrace(script: seq<Reply>, prior: seq<Option<string>>, numScenes: int,
                       scene: string, sceneNumber: int)
    ensures |AsWrittenThoughts(script, prior, numScenes, sceneNumber)| == 2 <==>
      AsWrittenFailure(script, prior, numScenes) == MissingArgument("is_consistent")
    ensures 1 <= |AsWrittenPrompts(script, prior, numScenes, scene, sceneNumber)| <= 2
    ensures AsWrittenThoughts(script, prior, numScenes, sceneNumber) <=
      [Analyzed(sceneNumber), Verified(numScenes)]
  {
    AsWrittenFailureCases(script, prior, numScenes);
    TransitionFails(Next(Rest(script)));
  }

  /** A run as written that reaches the last call: both thoughts, both
      prompts, and the missing argument. */
  lemma AsWrittenLastCall(script: seq<Reply>, prior: seq<Option<string>>, numScenes: int,
                          scene: string, sceneNumber: int)
    requires HasContent(Next(script)) && PriorLocationText(prior, numScenes).Ok?
    requires TransitionOutcome(Next(Rest(script))).Ok?
    ensures AsWrittenThoughts(script, prior, numScenes, sceneNumber) == [Analyzed(sceneNumber), Verified(numScenes)]
    ensures AsWrittenPrompts(script, prior, numScenes, scene, sceneNumber) ==
      [EnvironmentAnalysisPrompt(scene, sceneNumber),
       TransitionPrompt(PriorLocationText(prior, numScenes).value,
                        EnvironmentAgents.EnvironmentOf(Py.Strip(Next(script).text)), numScenes)]
    ensures AsWrittenFailure(script, prior, numScenes) == MissingArgument("is_consistent")
  {
  }

  /** What a run with the verdict passed on computes: the analysis, the
      transition triple and the suggestions, read from three replies. */
  datatype Outcome = Outcome(analysis: string, transition: Transition, suggestions: string)

  function IntendedRun(script: seq<Reply>, prior: seq<Option<string>>, numScenes: int): Result<Outcome> {
    match CheckedReply(Next(script))
    case Err(e) => Err(e)
    case Ok(analysis) =>
      match PriorLocationText(prior, numScenes)
      case Err(e) => Err(e)
      case Ok(_) =>
        match TransitionOutcome(Next(Rest(script)))
        case Err(e) => Err(e)
        case Ok(t) =>
          match CheckedReply(Next(Rest(Rest(script))))
          case Err(e) => Err(e)
          case Ok(suggestions) => Ok(Outcome(analysis, t, suggestions))
  }

  /** Three accepted replies and a window that can be joined complete the
      run with what they hold. */
  lemma IntendedComplete(script: seq<Reply>, prior: seq<Option<string>>, numScenes: int,
                         analysis: string, t: Transition, suggestions: string)
    requires CheckedReply(Next(script)) == Ok(analysis) && PriorLocationText(prior, numScenes).Ok?
    requires TransitionOutcome(Next(Rest(script))) == Ok(t) && CheckedReply(Next(Rest(Rest(script)))) == Ok(suggestions)
    ensures IntendedRun(script, prior, numScenes) == Ok(Outcome(analysis, t, suggestions))
  {
  }

  /** A run as written ends on the missing argument exactly when the two
      calls before it succeed, and never on any other way of completing. */
  lemma AsWrittenFailureCases(script: seq<Reply>, prior: seq<Option<string>>, numScenes: int)
    ensures AsWrittenFailure(script, prior, numScenes) == MissingArgument("is_consistent") <==>
      HasContent(Next(script)) && PriorLocationText(prior, numScenes).Ok? && HasContent(Next(Rest(script)))
    ensures !HasContent(Next(script)) ==> AsWrittenFailure(script, prior, numScenes) == ReplyFailure(Next(script))
  {
    TransitionFails(Next(Rest(script)));
  }

  /** The run with the argument passed succeeds exactly when the three
      replies have content and the window of prior locations can be
      joined; then the analysis is the first reply stripped, the transition
      is read from the second and the suggestions are the third. */
  lemma IntendedRunCases(script: seq<Reply>, prior: seq<Option<string>>, numScenes: int)
    ensures IntendedRun(script, prior, numScenes).Ok? <==>
      HasContent(Next(script)) && PriorLocationText(prior, numScenes).Ok? &&
      HasContent(Next(Rest(script))) && HasContent(Next(Rest(Rest(script))))
    ensures IntendedRun(script, prior, numScenes).Ok? ==>
      var o := IntendedRun(script, prior, numScenes).value;
      o.analysis == Py.Strip(Next(script).text) &&
      o.transition == TransitionOf(Py.Strip(Next(Rest(script)).text)) &&
      o.suggestions == Py.Strip(Next(Rest(Rest(script))).text)
  {
    TransitionReplies(Next(Rest(script)));
  }

  /** Three replies with content and no prior scene: the run as written
      fails where the intended one completes. */
  lemma MissingArgumentExample()
    ensures AsWrittenFailure([Content("a"), Content("b"), Content("c")], [], 3) ==
      MissingArgument("is_consistent")
    ensures IntendedRun([Content("a"), Content("b"), Content("c")], [], 3).Ok?
  {
    var s := [Content("a"), Content("b"), Content("c")];
    assert Rest(s) == [Content("b"), Content("c")];
    assert Rest(Rest(s)) == [Content("c")];
    assert HasContent(Next(s)) && HasContent(Next(Rest(s))) && HasContent(Next(Rest(Rest(s))));
    assert PriorLocationText([], 3).Ok?;
    IntendedRunCases(s, [], 3);
    AsWrittenFailureCases(s, [], 3);
  }

  class EnvironmentReActAgent {
    const llm: Provider
    const records: seq<SceneMemory.SceneRecord>
    const numScenes: int
    var thoughts: seq<Thought>

    constructor (llm: Provider, records: seq<SceneMemory.SceneRecord>, numScenes: int := 3)
      ensures this.llm == llm && this.records == records && this.numScenes == numScenes
      ensures thoughts == []
    {
      this.llm := llm;
      this.records := records;
      this.numScenes := numScenes;
      thoughts := [];
    }

    /** `run` as written: it never completes. A failed analysis adds no
        thought; a failed window or transition check adds the first; a run
        that reaches the last call adds two and sends two prompts. */
    method Run(scene: string, sceneNumber: int) returns (r: Result<ReActResult>)
      modifies this, llm
      ensures r == Err(AsWrittenFailure(old(llm.script), EnvironmentAgents.Locations(records), numScenes))
      ensures thoughts == old(thoughts) +
        AsWrittenThoughts(old(llm.script), EnvironmentAgents.Locations(records), numScenes, sceneNumber)
      ensures llm.prompts == old(llm.prompts) +
        AsWrittenPrompts(old(llm.script), EnvironmentAgents.Locations(records), numScenes, scene, sceneNumber)
    {
      ghost var t0 := thoughts;
      ghost var s0 := llm.script;
      ghost var p0 := llm.prompts;
      ghost var prior := EnvironmentAgents.Locations(records);
      var analysis := AnalyzeEnvironment(llm, scene, sceneNumber);
      if analysis.Err? {
        return Err(analysis.error);
      }
      thoughts := thoughts + [Analyzed(sceneNumber)];
      var environment := EnvironmentAgents.ParseEnvironment(analysis.value);
      var transition := VerifyEnvironmentTransition(llm, EnvironmentAgents.Locations(records), environment, numScenes);
      if transition.Err? {
        return Err(transition.error);
      }
      thoughts := thoughts + [Verified(numScenes)];
      AsWrittenLastCall(s0, prior, numScenes, scene, sceneNumber);
      Seqs.AppendTwo(t0, Analyzed(sceneNumber), Verified(numScenes));
      Seqs.AppendTwo(p0, EnvironmentAnalysisPrompt(scene, sceneNumber),
        TransitionPrompt(PriorLocationText(prior, numScenes).value, environment, numScenes));
      // `suggest_environment_details` is called without `is_consistent`.
      r := Err(MissingArgument("is_consistent"));
    }

    /** `run` with the verdict passed to the last helper and the whole
        transition triple as its check text. */
    method RunAsIntended(scene: string, sceneNumber: int) returns (r: Result<ReActResult>)
      modifies this, llm
      ensures r.Err? ==> IntendedRun(old(llm.script), EnvironmentAgents.Locations(records), numScenes) == Err(r.error)
      ensures r.Ok? ==> IntendedRun(old(llm.script), EnvironmentAgents.Locations(records), numScenes) ==
                        Ok(Outcome(r.value.analysis, r.value.transition, r.value.suggestions))
      ensures r.Ok? ==>
        r.value.thoughts == thoughts &&
        thoughts == old(thoughts) + [Analyzed(sceneNumber), Verified(numScenes), Suggested]
      ensures r.Ok? ==>
        PriorLocationText(EnvironmentAgents.Locations(records), numScenes).Ok? &&
        llm.prompts == old(llm.prompts) +
          [EnvironmentAnalysisPrompt(scene, sceneNumber),
           TransitionPrompt(PriorLocationText(EnvironmentAgents.Locations(records), numScenes).value,
                            EnvironmentAgents.EnvironmentOf(r.value.analysis), numScenes),
           EnvironmentDetailsPrompt(r.value.analysis,
             Triple(r.value.transition.isConsistent, r.value.transition.explanation, r.value.transition.output),
             ConsistencyNote(r.value.transition.isConsistent))]
    {
      ghost var t0 := thoughts;
      ghost var p0 := llm.prompts;
      ghost var s0 := llm.script;
      ghost var prior := EnvironmentAgents.Locations(records);
      var analysis := AnalyzeEnvironment(llm, scene, sceneNumber);
      if analysis.Err? {
        assert IntendedRun(s0, prior, numScenes) == Err(analysis.error);
        return Err(analysis.error);
      }
      thoughts := thoughts + [Analyzed(sceneNumber)];
      var environment := EnvironmentAgents.ParseEnvironment(analysis.value);
      var transition := VerifyEnvironmentTransition(llm, EnvironmentAgents.Locations(records), environment, numScenes);
      if transition.Err? {
        assert IntendedRun(s0, prior, numScenes) == Err(transition.error);
        return Err(transition.error);
      }
      thoughts := thoughts + [Verified(numScenes)];
      var t := transition.value;
      var suggestions := SuggestEnvironmentDetails(llm, analysis.value,
        Triple(t.isConsistent, t.explanation, t.output), t.isConsistent);
      if suggestions.Err? {
        assert IntendedRun(s0, prior, numScenes) == Err(suggestions.error);
        return Err(suggestions.error);
      }
      IntendedComplete(s0, prior, numScenes, analysis.value, t, suggestions.value);
      thoughts := thoughts + [Suggested];
      Seqs.AppendThree(t0, Analyzed(sceneNumber), Verified(numScenes), Suggested);
      Seqs.AppendThree(p0, EnvironmentAnalysisPrompt(scene, sceneNumber),
        TransitionPrompt(PriorLocationText(EnvironmentAgents.Locations(records), numScenes).value, environment, numScenes),
        EnvironmentDetailsPrompt(analysis.value, Triple(t.isConsistent, t.explanation, t.output),
          ConsistencyNote(t.isConsistent)));
      r := Ok(ReActResult(analysis.value, t, suggestions.value, thoughts));
    }
  }
}
