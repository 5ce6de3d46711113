/** `backend/utils/agents/comedy_agent.py`: the `ComedicAgent`, which checks
    a scene against the jokes of the prior scenes and then asks for comedic
    improvements. Its imports resolve, from the backend, to the backend
    helpers. It never hands its verdict to the improvement request, so that
    request always goes out without a critique. */
module ComedyAgents {
  import opened Wrappers
  import opened Py
  import opened Llm
  import opened SceneMemory
  import opened ComedyHelpers
  import Seqs

  /** The thoughts, as the data their f-strings carry. */
  datatype Thought =
    | Verified(sceneNumber: int)  // "Analyzed and verified comedic consistency for Scene ..."
    | Provided                    // "Provided comedic enhancement suggestions."

  /** The four values `run` returns. */
  datatype ComedyResult = ComedyResult(
    isConsistent: bool,
    analysis: string,
    recommendations: string,
    thoughts: seq<Thought>)

  /** The verdict, analysis and recommendations a run computes from its two
      replies, with the window of three prior scenes. */
  function ComedyRun(script: seq<Reply>, records: seq<SceneRecord>, scene: string)
    : Result<(bool, string, string)>
  {
    match CheckPrompt(records, scene, 3)
    case Err(e) => Err(e)
    case Ok(_) =>
      match CheckOutcome(Next(script))
      case Err(e) => Err(e)
      case Ok(check) =>
        match CheckedReply(Next(Rest(script)))
        case Err(e) => Err(e)
        case Ok(recommendations) => Ok((check.0, check.1, recommendations))
  }

  /** The thoughts a run adds: one after the check, one after the
      recommendations. */
  function ComedyThoughts(script: seq<Reply>, records: seq<SceneRecord>, scene: string, sceneNumber: int)
    : seq<Thought>
  {
    if CheckPrompt(records, scene, 3).Err? || CheckOutcome(Next(script)).Err? then []
    else if !HasContent(Next(Rest(script))) then [Verified(sceneNumber)]
    else [Verified(sceneNumber), Provided]
  }

  /** A run completes exactly when the last three records all have a joke,
      the first reply has content of at least two lines once stripped, and
      the second has content; the analysis is then the first reply stripped
      and the recommendations the second. */
  lemma ComedyRunCases(script: seq<Reply>, records: seq<SceneRecord>, scene: string)
    ensures ComedyRun(script, records, scene).Ok? <==>
      AllJoked(Window(records, 3)) &&
      HasContent(Next(script)) && '\n' in Strip(Next(script).text) &&
      HasContent(Next(Rest(script)))
    ensures ComedyRun(script, records, scene).Ok? ==>
      ComedyRun(script, records, scene).value.1 == Strip(Next(script).text) &&
      ComedyRun(script, records, scene).value.2 == Strip(Next(Rest(script)).text)
  {
    CheckPromptFacts(records, scene, 3);
    CheckReplies(Next(script));
  }

  /** A completed run has added both thoughts, and a run that fails has
      added at most the first. */
  lemma ComedyThoughtsCases(script: seq<Reply>, records: seq<SceneRecord>, scene: string, sceneNumber: int)
    ensures ComedyRun(script, records, scene).Ok? <==>
      ComedyThoughts(script, records, scene, sceneNumber) == [Verified(sceneNumber), Provided]
    ensures ComedyThoughts(script, records, scene, sceneNumber) <= [Verified(sceneNumber), Provided]
  {
    var both := [Verified(sceneNumber), Provided];
    if CheckPrompt(records, scene, 3).Err? || CheckOutcome(Next(script)).Err? {
      assert ComedyRun(script, records, scene).Err?;
      assert ComedyThoughts(script, records, scene, sceneNumber) == both[..0];
    } else if !HasContent(Next(Rest(script))) {
      assert CheckedReply(Next(Rest(script))).Err?;
      assert ComedyRun(script, records, scene).Err?;
      assert ComedyThoughts(script, records, scene, sceneNumber) == both[..1];
    } else {
      assert ComedyRun(script, records, scene).Ok?;
    }
  }

  class ComedicAgent {
    const llm: Provider
    const records: seq<SceneRecord>
    var thoughts: seq<Thought>

    constructor (llm: Provider, records: seq<SceneRecord>)
      ensures this.llm == llm && this.records == records && thoughts == []
    {
      this.llm := llm;
      this.records := records;
      thoughts := [];
    }

    /** `analyze_and_verify`, with the helper's default window of three. */
    method AnalyzeAndVerify(scene: string, sceneNumber: int) returns (r: Result<(bool, string)>)
      modifies this, llm
      ensures CheckPrompt(records, scene, 3).Err? ==>
        r == Err(CheckPrompt(records, scene, 3).error) && unchanged(llm)
      ensures CheckPrompt(records, scene, 3).Ok? ==>
        llm.prompts == old(llm.prompts) + [CheckPrompt(records, scene, 3).value] &&
        llm.script == Rest(old(llm.script)) &&
        r == CheckOutcome(Next(old(llm.script)))
      ensures r.Ok? ==> thoughts == old(thoughts) + [Verified(sceneNumber)]
      ensures r.Err? ==> thoughts == old(thoughts)
    {
      r := AnalyzeAndVerifyComedicConsistency(llm, records, scene);
      if r.Ok? {
        thoughts := thoughts + [Verified(sceneNumber)];
      }
    }

    /** `recommend`: the helper's defaults say the scene is consistent, so
        no critique is sent. */
    method Recommend(scene: string) returns (r: Result<string>)
      modifies this, llm
      ensures llm.prompts == old(llm.prompts) + [ComedyImprovePrompt(scene, None)]
      ensures llm.script == Rest(old(llm.script))
      ensures r == CheckedReply(Next(old(llm.script)))
      ensures r.Ok? ==> thoughts == old(thoughts) + [Provided]
      ensures r.Err? ==> thoughts == old(thoughts)
    {
      r := RecommendComedicImprovements(llm, scene);
      if r.Ok? {
        thoughts := thoughts + [Provided];
      }
    }

    /** `run`: check, then recommend; the thoughts returned are the agent's
        whole list. */
    method Run(scene: string, sceneNumber: int) returns (r: Result<ComedyResult>)
      modifies this, llm
      ensures var o := ComedyRun(old(llm.script), records, scene);
        (r.Ok? <==> o.Ok?) &&
        (r.Err? ==> r.error == o.error) &&
        (r.Ok? ==>
           r.value.isConsistent == o.value.0 &&
           r.value.analysis == o.value.1 &&
           r.value.recommendations == o.value.2)
      ensures thoughts == old(thoughts) + ComedyThoughts(old(llm.script), records, scene, sceneNumber)
      ensures r.Ok? ==> r.value.thoughts == thoughts
      ensures r.Ok? ==> llm.script == Rest(Rest(old(llm.script)))
      ensures r.Ok? ==>
        CheckPrompt(records, scene, 3).Ok? &&
        llm.prompts == old(llm.prompts) + [CheckPrompt(records, scene, 3).value, ComedyImprovePrompt(scene, None)]
    {
      ghost var p0 := llm.prompts;
      ghost var s0 := llm.script;
      ghost var t0 := thoughts;
      var check := AnalyzeAndVerify(scene, sceneNumber);
      if check.Err? {
        assert ComedyThoughts(s0, records, scene, sceneNumber) == [];
        assert t0 + [] == t0;
        return Err(check.error);
      }
      var recommendations := Recommend(scene);
      if recommendations.Err? {
        assert ComedyThoughts(s0, records, scene, sceneNumber) == [Verified(sceneNumber)];
        return Err(recommendations.error);
      }
      assert ComedyThoughts(s0, records, scene, sceneNumber) == [Verified(sceneNumber), Provided];
      Seqs.AppendTwo(t0, Verified(sceneNumber), Provided);
      Seqs.AppendTwo(p0, CheckPrompt(records, scene, 3).value, ComedyImprovePrompt(scene, None));
      r := Ok(ComedyResult(check.value.0, check.value.1, recommendations.value, thoughts));
    }
  }
}
