/** The language-model client, seen from the pipeline: every call sends one
    prompt and gets back a reply that the model does not constrain, and the
    `time.sleep` calls of the retry loops, seen as a record of requested delays.

    A `Provider` is scripted: it holds the replies it is going to give, in
    order, so that every behaviour of the real service is the behaviour of
    some script. Only the variable parts of each prompt are recorded; the
    fixed wording around them is not modelled. */
module Llm {
  import opened Wrappers
  import opened JsonValues
  import Py

  /** What one `client.chat.completions.create` call yields. */
  datatype Reply =
    | Raised                 // the call itself raised
    | NoContent              // no response, no choices, or a `None` content
    | Content(text: string)  // `response.choices[0].message.content`

  /** The backend helpers' test `if not response or not response.choices or
      not response.choices[0].message.content`, negated. */
  predicate HasContent(r: Reply) {
    r.Content? && r.text != []
  }

  /** The exception a backend helper raises for a reply without content. */
  function ReplyFailure(r: Reply): Failure {
    if r.Raised? then ProviderError else EmptyResponse
  }

  /** The backend helpers' handling of a reply: one without content raises,
      any other is used stripped. */
  function CheckedReply(r: Reply): Result<string> {
    if HasContent(r) then Ok(Py.Strip(r.text)) else Err(ReplyFailure(r))
  }

  /** `response.choices[0].message.content.strip()` with no check first: a
      missing content fails on the call to `strip`. */
  function StrippedReply(r: Reply): Result<string> {
    match r
    case Raised => Err(ProviderError)
    case NoContent => Err(NoneContent)
    case Content(t) => Ok(Py.Strip(t))
  }

  /** `response.choices[0].message.content` used as it is; a missing content
      fails on the first string operation applied to it. */
  function RawReply(r: Reply): Result<string> {
    match r
    case Raised => Err(ProviderError)
    case NoContent => Err(NoneContent)
    case Content(t) => Ok(t)
  }

  /** The transition check handed to `suggest_environment_details`: a text,
      or the whole tuple returned by `verify_environment_transition`. */
  datatype CheckText =
    | Text(text: string)
    | Triple(isConsistent: bool, explanation: string, output: string)

  /** The parts of each prompt that the code computes. */
  datatype Prompt =
    | SummarizePrompt(title: string, script: string)
    | CharactersExtractionPrompt(priorCharacters: string, scene: string, window: int)
    | AnalyzeCharactersPrompt(priorCharacters: string, scene: string)
    | CharacterListPrompt(scene: string)
    | ProfileFromScenesPrompt(character: string, scenes: string)
    | ProfileFromScenePrompt(character: string, scene: string)
    // `numScenes`: the scene window the backend's character prompts name;
    // `None` for the command-line prompts, which name none.
    | ConsistencyPrompt(profiles: seq<(string, string)>, scene: string, numScenes: Option<int>)
    | InteractionsPrompt(profiles: seq<(string, string)>, scene: string, critique: Option<string>,
                         numScenes: Option<int>)
    | ComedyCheckPrompt(summaryText: string, gags: string, scene: string)
    | ComedyImprovePrompt(scene: string, critique: Option<string>)
    | EnvironmentAnalysisPrompt(scene: string, sceneNumber: int)
    | TransitionPrompt(priorLocations: string, current: string, window: int)
    | EnvironmentDetailsPrompt(analysis: string, check: CheckText, note: string)
    | ScenePlanPrompt(character: string, comedy: string, environment: string, sceneNumber: int)
    | BlockEvaluationPrompt(concept: string, contextNote: string, scenes: string)
    | PitchPrompt(keywords: Option<seq<Json>>)
    | OutlinePrompt(pitch: Json)
    | ValidationPrompt(pitchValue: Json, outlineValue: Json)
    | SceneRequestPrompt(sceneValue: Json, outlineValue: Json)
    | FirstScenePrompt(sitcomTitle: Option<string>, sceneDescription: Option<string>)
    | SceneReviewPrompt(sceneNumber: int, description: Option<string>, memorySize: nat)
    | SceneScriptPrompt(plan: string, sceneNumber: int)

  /** The reply a scripted provider gives next: the head of the script, or a
      raised error once the script is used up. */
  function Next(script: seq<Reply>): Reply {
    if script == [] then Raised else script[0]
  }

  function Rest(script: seq<Reply>): seq<Reply> {
    if script == [] then [] else script[1..]
  }

  /** The script left after `k` calls. */
  function Drop(script: seq<Reply>, k: nat): seq<Reply> {
    if k == 0 then script else Drop(Rest(script), k - 1)
  }

  /** The reply to the call numbered `k` (from 0). */
  function ReplyAt(script: seq<Reply>, k: nat): Reply {
    Next(Drop(script, k))
  }

  lemma DropNext(script: seq<Reply>, k: nat)
    ensures Drop(script, k + 1) == Rest(Drop(script, k))
  {
    if k > 0 {
      DropNext(Rest(script), k - 1);
    }
  }

  class Provider {
    /** The replies still to be given, in order. */
    var script: seq<Reply>
    /** Every prompt sent so far, in order. */
    var prompts: seq<Prompt>

    constructor (replies: seq<Reply>)
      ensures script == replies && prompts == []
    {
      script := replies;
      prompts := [];
    }

    /** One `client.chat.completions.create` call. */
    method Complete(p: Prompt) returns (r: Reply)
      modifies this
      ensures r == Next(old(script)) && script == Rest(old(script))
      ensures prompts == old(prompts) + [p]
    {
      r := Next(script);
      script := Rest(script);
      prompts := prompts + [p];
    }
  }

  /** `time.sleep`, recorded instead of waited for. */
  class Clock {
    ghost var sleeps: seq<nat>

    constructor ()
      ensures sleeps == []
    {
      sleeps := [];
    }

    method Sleep(seconds: nat)
      modifies this
      ensures sleeps == old(sleeps) + [seconds]
    {
      sleeps := sleeps + [seconds];
    }
  }

  /** `for attempt in range(3)` in the two retry loops. */
  const MaxAttempts: nat := 3

  function Pow2(k: nat): nat {
    if k == 0 then 1 else 2 * Pow2(k - 1)
  }

  /** The first attempt, at or after `from`, whose reply has content. */
  function FirstAccepted(script: seq<Reply>, from: nat): (r: Option<nat>)
    ensures r.Some? ==> from <= r.value < MaxAttempts && HasContent(ReplyAt(script, r.value))
    ensures r.Some? ==> forall k :: from <= k < r.value ==> !HasContent(ReplyAt(script, k))
    ensures r.None? ==> forall k :: from <= k < MaxAttempts ==> !HasContent(ReplyAt(script, k))
    decreases MaxAttempts - from
  {
    if from >= MaxAttempts then None
    else if HasContent(ReplyAt(script, from)) then Some(from)
    else FirstAccepted(script, from + 1)
  }

  /** How many calls the retry loop makes against `script`. */
  function AttemptsMade(script: seq<Reply>): nat {
    match FirstAccepted(script, 0)
    case Some(i) => i + 1
    case None => MaxAttempts
  }

  /** The delays `2 ** attempt` requested after the first `k` failed attempts. */
  function Backoff(k: nat): seq<nat> {
    seq(k, j requires 0 <= j < k => Pow2(j))
  }

  /** The delays requested by the retry loop against `script`: one after
      every failed attempt except the last of the three. */
  function RetrySleeps(script: seq<Reply>): seq<nat> {
    Backoff(AttemptsMade(script) - 1)
  }

  /** What the retry loop against `script` ends with: the stripped content of
      the first accepted reply, or the failure of the third attempt. */
  function RetryOutcome(script: seq<Reply>): Result<string> {
    match FirstAccepted(script, 0)
    case Some(i) => Ok(Py.Strip(ReplyAt(script, i).text))
    case None => Err(RetriesExhausted(ReplyFailure(ReplyAt(script, MaxAttempts - 1))))
  }

  /** The loop makes one to three calls, sleeps 1 s and then 2 s between
      failed attempts, never sleeps after the last one, and fails only when
      all three replies lacked content. */
  lemma RetryShape(script: seq<Reply>)
    ensures 1 <= AttemptsMade(script) <= MaxAttempts
    ensures |RetrySleeps(script)| == AttemptsMade(script) - 1
    ensures RetrySleeps(script) <= [1, 2]
    ensures RetryOutcome(script).Err? <==> forall k :: 0 <= k < MaxAttempts ==> !HasContent(ReplyAt(script, k))
    ensures RetryOutcome(script).Err? ==> AttemptsMade(script) == MaxAttempts
  {
    var s := RetrySleeps(script);
    assert forall j :: 0 <= j < |s| ==> s[j] == Pow2(j);
    if RetryOutcome(script).Ok? {
      assert HasContent(ReplyAt(script, FirstAccepted(script, 0).value));
    }
  }

  /** The three-attempt loop shared by `summarize_scene` (backend) and
      `ScenePlannerAgent.plan_next_scene`: call, reject a reply without
      content, and back off `2 ** attempt` seconds before trying again. */
  method CompleteWithRetry(llm: Provider, clock: Clock, p: Prompt) returns (r: Result<string>)
    modifies llm, clock
    ensures r == RetryOutcome(old(llm.script))
    ensures llm.script == Drop(old(llm.script), AttemptsMade(old(llm.script)))
    ensures llm.prompts == old(llm.prompts) + seq(AttemptsMade(old(llm.script)), _ => p)
    ensures clock.sleeps == old(clock.sleeps) + RetrySleeps(old(llm.script))
  {
    ghost var s0 := llm.script;
    ghost var p0 := llm.prompts;
    ghost var c0 := clock.sleeps;
    var attempt: nat := 0;
    while true
      invariant attempt < MaxAttempts
      invariant FirstAccepted(s0, 0) == FirstAccepted(s0, attempt)
      invariant llm.script == Drop(s0, attempt)
      invariant llm.prompts == p0 + seq(attempt, _ => p)
      invariant clock.sleeps == c0 + Backoff(attempt)
      decreases MaxAttempts - attempt
    {
      var reply := llm.Complete(p);
      DropNext(s0, attempt);
      assert llm.prompts == p0 + seq(attempt + 1, _ => p);
      if HasContent(reply) {
        AcceptedAt(s0, attempt);
        r := Ok(Py.Strip(reply.text));
        return;
      }
      if attempt == MaxAttempts - 1 {
        AcceptedAt(s0, attempt);
        r := Err(RetriesExhausted(ReplyFailure(reply)));
        return;
      }
      clock.Sleep(Pow2(attempt));
      BackoffSnoc(attempt);
      attempt := attempt + 1;
    }
  }

  /** Where the search for an accepted reply stops at `attempt`, the loop
      has made `attempt + 1` calls and slept after each earlier one. */
  lemma AcceptedAt(script: seq<Reply>, attempt: nat)
    requires attempt < MaxAttempts && FirstAccepted(script, 0) == FirstAccepted(script, attempt)
    requires HasContent(ReplyAt(script, attempt)) || attempt == MaxAttempts - 1
    ensures AttemptsMade(script) == attempt + 1
    ensures RetrySleeps(script) == Backoff(attempt)
    ensures HasContent(ReplyAt(script, attempt)) ==> RetryOutcome(script) == Ok(Py.Strip(ReplyAt(script, attempt).text))
    ensures !HasContent(ReplyAt(script, attempt)) ==>
              RetryOutcome(script) == Err(RetriesExhausted(ReplyFailure(ReplyAt(script, attempt))))
  {
  }

  /** One more delay of `2 ** k` seconds. */
  lemma BackoffSnoc(k: nat)
    ensures Backoff(k) + [Pow2(k)] == Backoff(k + 1)
  {
  }
}
