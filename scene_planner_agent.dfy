/** `backend/utils/agents/scene_planner_agent.py`: the `ScenePlannerAgent`,
    which turns the three agents' recommendations into a plan for the next
    scene with the shared three-attempt retry loop, and notes one thought
    per call: a success, or the final failure. */
module ScenePlannerAgents {
  import opened Wrappers
  import opened Llm

  /** The thoughts, as the data their f-strings carry. */
  datatype Thought =
    | PlanGenerated(sceneNumber: int)               // "Scene ... plan generated successfully."
    | PlanFailed(sceneNumber: int, cause: Failure)  // "Failed to generate scene plan for Scene ...: ..."

  /** The thought a call ends with: its success, or the failure of the
      last attempt. */
  function PlanThought(sceneNumber: int, outcome: Result<string>): Thought {
    if outcome.Ok? then PlanGenerated(sceneNumber) else PlanFailed(sceneNumber, Cause(outcome.error))
  }

  /** What the error message names: the last attempt's failure. */
  function Cause(e: Failure): Failure {
    if e.RetriesExhausted? then e.last else e
  }

  /** A call notes a success exactly when one of its three attempts got a
      content, and a failure, naming the third attempt's, otherwise; the
      failed attempts before a success note nothing of their own. */
  lemma PlanThoughtCases(script: seq<Reply>, sceneNumber: int)
    ensures PlanThought(sceneNumber, RetryOutcome(script)).PlanGenerated? <==>
      exists k :: 0 <= k < MaxAttempts && HasContent(ReplyAt(script, k))
    ensures PlanThought(sceneNumber, RetryOutcome(script)).PlanFailed? ==>
      PlanThought(sceneNumber, RetryOutcome(script)) ==
        PlanFailed(sceneNumber, ReplyFailure(ReplyAt(script, MaxAttempts - 1)))
    ensures PlanThought(sceneNumber, RetryOutcome(script)).sceneNumber == sceneNumber
  {
    RetryShape(script);
  }

  class ScenePlannerAgent {
    const llm: Provider
    var thoughts: seq<Thought>

    constructor (llm: Provider)
      ensures this.llm == llm && thoughts == []
    {
      this.llm := llm;
      thoughts := [];
    }

    /** `plan_next_scene`: up to three requests for the same plan, 1 s and
        then 2 s apart, the stripped content of the first with content, and
        exactly one thought. */
    method PlanNextScene(clock: Clock, characterRecommendations: string, comedicRecommendations: string,
                         environmentRecommendations: string, sceneNumber: int)
      returns (r: Result<string>)
      modifies this, llm, clock
      ensures r == RetryOutcome(old(llm.script))
      ensures llm.script == Drop(old(llm.script), AttemptsMade(old(llm.script)))
      ensures llm.prompts == old(llm.prompts) +
        seq(AttemptsMade(old(llm.script)),
            _ => ScenePlanPrompt(characterRecommendations, comedicRecommendations,
                                 environmentRecommendations, sceneNumber))
      ensures clock.sleeps == old(clock.sleeps) + RetrySleeps(old(llm.script))
      ensures thoughts == old(thoughts) + [PlanThought(sceneNumber, r)]
    {
      var prompt := ScenePlanPrompt(characterRecommendations, comedicRecommendations,
                                    environmentRecommendations, sceneNumber);
      r := CompleteWithRetry(llm, clock, prompt);
      if r.Ok? {
        thoughts := thoughts + [PlanGenerated(sceneNumber)];
      } else {
        thoughts := thoughts + [PlanFailed(sceneNumber, Cause(r.error))];
      }
    }
  }
}
