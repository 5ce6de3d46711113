/** `utils/comedy_helpers.py`: the earlier comedic helpers. The prompt is
    built from the same windows as in the backend, but the reply is used
    without any check, and the improvement request takes no critique. */
module UtilsComedyHelpers {
  import opened Wrappers
  import opened Py
  import opened Llm
  import opened SceneMemory
  import opened Characters
  import opened ComedyHelpers

  function CheckOutcome(reply: Reply): Result<(bool, string)> {
    match StrippedReply(reply)
    case Err(e) => Err(e)
    case Ok(result) =>
      match SecondLineVerdict(result)
      case Err(e) => Err(e)
      case Ok(v) => Ok((v, result))
  }

  /** `analyze_and_verify_comedic_consistency` */
  method AnalyzeAndVerifyComedicConsistency(llm: Provider, records: seq<SceneRecord>, scene: string,
                                            maxScenes: int := 3)
    returns (r: Result<(bool, string)>)
    modifies llm
    ensures CheckPrompt(records, scene, maxScenes).Err? ==>
      r == Err(CheckPrompt(records, scene, maxScenes).error) && unchanged(llm)
    ensures CheckPrompt(records, scene, maxScenes).Ok? ==>
      llm.prompts == old(llm.prompts) + [CheckPrompt(records, scene, maxScenes).value] &&
      llm.script == Rest(old(llm.script)) &&
      r == CheckOutcome(Next(old(llm.script)))
  {
    var summaries := Window(SummariesOf(records), maxScenes);
    var gags := CollectGags(Window(records, maxScenes));
    match gags
    case Err(e) =>
      r := Err(e);
    case Ok(g) =>
      var reply := llm.Complete(ComedyCheckPrompt(Join(summaries, "\n"), GagText(g), scene));
      match StrippedReply(reply)
      case Err(e) =>
        r := Err(e);
      case Ok(result) =>
        match SecondLineVerdict(result)
        case Err(e) =>
          r := Err(e);
        case Ok(v) =>
          r := Ok((v, result));
  }

  /** Only a missing content or a one-line stripped text fails: an empty
      content is no error of its own, it fails as a single line. */
  lemma CheckReplies(reply: Reply)
    ensures var r := CheckOutcome(reply);
      (r.Err? <==> !reply.Content? || '\n' !in Strip(reply.text)) &&
      (r.Ok? ==> r.value.1 == Strip(reply.text))
    ensures CheckOutcome(Content("")) == Err(IndexOutOfRange)
  {
    if reply.Content? {
      LinesOfLower(Strip(reply.text));
    }
    assert Strip("") == "";
    SecondLineReads("", "", "");
  }

  /** The verdict reads line 1 of the stripped reply. */
  lemma CheckVerdict(text: string, first: string, second: string, rest: string)
    requires forall i :: 0 <= i < |first| ==> first[i] != '\n'
    requires forall i :: 0 <= i < |second| ==> second[i] != '\n'
    ensures Strip(text) == first + "\n" + second ==>
      CheckOutcome(Content(text)) == Ok((Contains(Lower(second), "yes"), Strip(text)))
    ensures Strip(text) == first + "\n" + second + "\n" + rest ==>
      CheckOutcome(Content(text)) == Ok((Contains(Lower(second), "yes"), Strip(text)))
  {
    ContentCheck(text);
    SecondLineReads(first, second, rest);
  }

  lemma ContentCheck(text: string)
    ensures var v := SecondLineVerdict(Strip(text));
      CheckOutcome(Content(text)) == if v.Ok? then Ok((v.value, Strip(text))) else Err(v.error)
  {
  }

  /** `recommend_comedic_improvements`: the scene alone, no critique. */
  method RecommendComedicImprovements(llm: Provider, scene: string) returns (r: Result<string>)
    modifies llm
    ensures llm.prompts == old(llm.prompts) + [ComedyImprovePrompt(scene, None)]
    ensures llm.script == Rest(old(llm.script))
    ensures r == StrippedReply(Next(old(llm.script)))
    ensures r.Err? <==> !Next(old(llm.script)).Content?
  {
    var reply := llm.Complete(ComedyImprovePrompt(scene, None));
    r := StrippedReply(reply);
  }
}
