/** `utils/character_agent.py`: the `CharacterAgent` ReAct loop over the
    earlier, unwindowed character helpers (`utils/character_helpers.py`):
    identify the characters, fetch a profile for each, check the scene
    against the profiles, and suggest interactions. */
module CharacterAgents {
  import opened Wrappers
  import opened Py
  import opened Llm
  import opened Characters
  import opened UtilsCharacterHelpers
  import opened Seqs

  /** The thoughts, as the data their f-strings carry. */
  datatype Thought =
    | Identified(characters: seq<string>, sceneNumber: int)  // "Think: Identified characters ... in Scene ..."
    | Retrieved(names: seq<string>)                          // "Act: Retrieved profiles for ..."
    | Judged(consistent: bool)                               // "Observe: Scene is ..."
    | Suggested                                              // "Recommend: Provided suggestions ..."

  /** The result of each profile request, one per listed name, the `k`-th
      read from the `k`-th reply after the analysis. */
  function Outcomes(records: seq<SceneRecord>, names: seq<string>, script: seq<Reply>)
    : (r: seq<Result<History>>)
    ensures |r| == |names|
    ensures forall k :: 0 <= k < |names| ==> r[k] == HistoryOutcome(records, names[k], 3, ReplyAt(script, k))
  {
    seq(|names|, k requires 0 <= k < |names| => HistoryOutcome(records, names[k], 3, ReplyAt(script, k)))
  }

  /** The dictionary `act` builds: the profiles put in name by name,
      stopping at the first request that fails. A name listed twice is
      asked about twice and keeps its first place with the last profile. */
  function Histories(records: seq<SceneRecord>, names: seq<string>, script: seq<Reply>)
    : Result<seq<(string, History)>>
  {
    Gather(names, Outcomes(records, names, script), |names|)
  }

  /** The profile requests for the names, one per name, in order. */
  function HistoryPrompts(records: seq<SceneRecord>, names: seq<string>, scene: string): (r: seq<Prompt>)
    ensures |r| == |names|
    ensures forall k :: 0 <= k < |names| ==> r[k] == HistoryPrompt(records, names[k], scene, 3)
  {
    seq(|names|, k requires 0 <= k < |names| => HistoryPrompt(records, names[k], scene, 3))
  }

  /** The first `n` calls get a content. */
  predicate AllAnswered(script: seq<Reply>, n: nat) {
    forall k :: 0 <= k < n ==> ReplyAt(script, k).Content?
  }

  lemma HistoryReply(records: seq<SceneRecord>, name: string, reply: Reply)
    ensures HistoryOutcome(records, name, 3, reply).Ok? <==> reply.Content?
  {
  }

  /** The dictionary is built exactly when every request gets a content. */
  lemma HistoriesSucceed(records: seq<SceneRecord>, names: seq<string>, script: seq<Reply>)
    ensures Histories(records, names, script).Ok? <==> AllAnswered(script, |names|)
  {
    var o := Outcomes(records, names, script);
    GatherSucceed(names, o, |names|);
    forall k | 0 <= k < |names|
      ensures o[k].Ok? <==> ReplyAt(script, k).Content?
    {
      HistoryReply(records, names[k], ReplyAt(script, k));
    }
  }

  /** Its keys are the names listed, each once, and every profile is about
      its key and carries that character's last three summaries. */
  lemma HistoriesShape(records: seq<SceneRecord>, names: seq<string>, script: seq<Reply>)
    ensures Histories(records, names, script).Ok? ==>
      var d := Histories(records, names, script).value;
      Distinct(Keys(d)) &&
      (forall x :: x in Keys(d) <==> x in names) &&
      (forall i :: 0 <= i < |d| ==> HistoryOf(records, d[i]))
  {
    var o := Outcomes(records, names, script);
    GatherShape(names, o, |names|);
    assert names[..|names|] == names;
    if Histories(records, names, script).Ok? {
      var d := Histories(records, names, script).value;
      forall i | 0 <= i < |d|
        ensures HistoryOf(records, d[i])
      {
        var j :| 0 <= j < |names| && names[j] == d[i].0 && o[j] == Ok(d[i].1);
      }
    }
  }

  /** The entry is the profile of its key with the key's last three
      summaries. */
  predicate HistoryOf(records: seq<SceneRecord>, entry: (string, History)) {
    entry.1.character == entry.0 && entry.1.sourceSummaries == RecentSummaries(records, entry.0, 3)
  }

  /** The five values `run` returns. */
  datatype CharacterResult = CharacterResult(
    histories: seq<(string, History)>,
    isConsistent: bool,
    explanation: string,
    recommendations: string,
    thoughts: seq<Thought>)

  class CharacterAgent {
    const llm: Provider
    const records: seq<SceneRecord>
    var thoughts: seq<Thought>

    constructor (llm: Provider, records: seq<SceneRecord>)
      ensures this.llm == llm && this.records == records && thoughts == []
    {
      this.llm := llm;
      this.records := records;
      thoughts := [];
    }

    /** `think`: the analysis of the scene, with its number. */
    method Think(scene: string, sceneNumber: int) returns (r: Result<Analysis>)
      modifies this, llm
      ensures llm.prompts == old(llm.prompts) +
        [AnalyzeCharactersPrompt(PriorText(PriorCharacters(records)), scene)]
      ensures llm.script == Rest(old(llm.script))
      ensures r == AnalysisOutcome(PriorCharacters(records), Next(old(llm.script)), Some(sceneNumber))
      ensures r.Ok? ==> thoughts == old(thoughts) + [Identified(r.value.current, sceneNumber)]
      ensures r.Err? ==> thoughts == old(thoughts)
    {
      r := AnalyzeCharacters(llm, scene, records, Some(sceneNumber));
      if r.Ok? {
        thoughts := thoughts + [Identified(r.value.current, sceneNumber)];
      }
    }

    /** `act`: one profile request per current character, three scenes
        each, gathered in a dictionary. */
    method Act(info: Analysis, scene: string) returns (r: Result<seq<(string, History)>>)
      modifies this, llm
      ensures r == Histories(records, info.current, old(llm.script))
      ensures r.Ok? ==>
        llm.prompts == old(llm.prompts) + HistoryPrompts(records, info.current, scene) &&
        llm.script == Drop(old(llm.script), |info.current|) &&
        thoughts == old(thoughts) + [Retrieved(Keys(r.value))]
      ensures r.Err? ==> thoughts == old(thoughts)
    {
      var names := info.current;
      ghost var outcomes := Outcomes(records, names, old(llm.script));
      ghost var prompts := HistoryPrompts(records, names, scene);
      var histories: seq<(string, History)> := [];
      for i := 0 to |names|
        invariant Gather(names, outcomes, i) == Ok(histories)
        invariant llm.prompts == old(llm.prompts) + prompts[..i]
        invariant llm.script == Drop(old(llm.script), i)
        invariant thoughts == old(thoughts)
      {
        DropNext(old(llm.script), i);
        var profile := RetrieveCharacterHistory(llm, names[i], records, scene, 3);
        if profile.Err? {
          GatherStopAtFailure(names, outcomes, i + 1, |names|);
          return Err(profile.error);
        }
        histories := Put(histories, names[i], profile.value);
        TakeNext(prompts, i);
        AppendAfter(old(llm.prompts), prompts[..i], prompts[i]);
      }
      assert prompts[..|names|] == prompts;
      thoughts := thoughts + [Retrieved(Keys(histories))];
      r := Ok(histories);
    }

    /** `observe` */
    method Observe(histories: seq<(string, History)>, scene: string) returns (r: Result<(bool, string)>)
      modifies this, llm
      ensures llm.prompts == old(llm.prompts) + [ConsistencyPrompt(ProfileTexts(histories), scene, None)]
      ensures llm.script == Rest(old(llm.script))
      ensures r == ConsistencyOutcome(Next(old(llm.script)))
      ensures r.Ok? ==> thoughts == old(thoughts) + [Judged(r.value.0)]
      ensures r.Err? ==> thoughts == old(thoughts)
    {
      r := VerifyCharacterConsistency(llm, histories, scene);
      if r.Ok? {
        thoughts := thoughts + [Judged(r.value.0)];
      }
    }

    /** `recommend` */
    method Recommend(histories: seq<(string, History)>, scene: string) returns (r: Result<string>)
      modifies this, llm
      ensures llm.prompts == old(llm.prompts) + [InteractionsPrompt(ProfileTexts(histories), scene, None, None)]
      ensures llm.script == Rest(old(llm.script))
      ensures r == StrippedReply(Next(old(llm.script)))
      ensures r.Ok? ==> thoughts == old(thoughts) + [Suggested]
      ensures r.Err? ==> thoughts == old(thoughts)
    {
      r := RecommendCharacterInteractions(llm, histories, scene);
      if r.Ok? {
        thoughts := thoughts + [Suggested];
      }
    }

    /** `run`: the four steps in order, one reply for the analysis, one per
        current character, then one each for the check and the suggestions. */
    method Run(scene: string, sceneNumber: int) returns (r: Result<CharacterResult>)
      modifies this, llm
      ensures r.Ok? ==> AnalysisOutcome(PriorCharacters(records), Next(old(llm.script)), Some(sceneNumber)).Ok?
      ensures r.Ok? ==>
        var a := AnalysisOutcome(PriorCharacters(records), Next(old(llm.script)), Some(sceneNumber));
        var s := Drop(Rest(old(llm.script)), |a.value.current|);
        Histories(records, a.value.current, Rest(old(llm.script))) == Ok(r.value.histories) &&
        ConsistencyOutcome(Next(s)) == Ok((r.value.isConsistent, r.value.explanation)) &&
        StrippedReply(Next(Rest(s))) == Ok(r.value.recommendations) &&
        thoughts == old(thoughts) +
          [Identified(a.value.current, sceneNumber), Retrieved(Keys(r.value.histories)),
           Judged(r.value.isConsistent), Suggested] &&
        r.value.thoughts == thoughts &&
        llm.prompts == old(llm.prompts) +
          [AnalyzeCharactersPrompt(PriorText(PriorCharacters(records)), scene)] +
          HistoryPrompts(records, a.value.current, scene) +
          [ConsistencyPrompt(ProfileTexts(r.value.histories), scene, None),
           InteractionsPrompt(ProfileTexts(r.value.histories), scene, None, None)]
      ensures var a := AnalysisOutcome(PriorCharacters(records), Next(old(llm.script)), Some(sceneNumber));
        a.Err? ==> r == Err(a.error) && thoughts == old(thoughts)
      ensures var a := AnalysisOutcome(PriorCharacters(records), Next(old(llm.script)), Some(sceneNumber));
        a.Ok? && Histories(records, a.value.current, Rest(old(llm.script))).Err? ==>
          r == Err(Histories(records, a.value.current, Rest(old(llm.script))).error) &&
          thoughts == old(thoughts) + [Identified(a.value.current, sceneNumber)]
      ensures var a := AnalysisOutcome(PriorCharacters(records), Next(old(llm.script)), Some(sceneNumber));
        a.Ok? && Histories(records, a.value.current, Rest(old(llm.script))).Ok? ==>
          var h := Histories(records, a.value.current, Rest(old(llm.script))).value;
          var s := Drop(Rest(old(llm.script)), |a.value.current|);
          var c := ConsistencyOutcome(Next(s));
          var think := [Identified(a.value.current, sceneNumber), Retrieved(Keys(h))];
          (c.Err? ==> r == Err(c.error) && thoughts == old(thoughts) + think) &&
          (c.Ok? && StrippedReply(Next(Rest(s))).Err? ==>
             r == Err(StrippedReply(Next(Rest(s))).error) &&
             thoughts == old(thoughts) + think + [Judged(c.value.0)])
    {
      ghost var t0 := thoughts;
      ghost var p0 := llm.prompts;
      var info := Think(scene, sceneNumber);
      if info.Err? {
        return Err(info.error);
      }
      ghost var p1 := llm.prompts;
      var histories := Act(info.value, scene);
      if histories.Err? {
        return Err(histories.error);
      }
      ghost var p2 := llm.prompts;
      var check := Observe(histories.value, scene);
      AppendTwo(t0, Identified(info.value.current, sceneNumber), Retrieved(Keys(histories.value)));
      if check.Err? {
        return Err(check.error);
      }
      var recommendations := Recommend(histories.value, scene);
      if recommendations.Err? {
        return Err(recommendations.error);
      }
      AppendFour(t0, Identified(info.value.current, sceneNumber), Retrieved(Keys(histories.value)),
        Judged(check.value.0), Suggested);
      AppendTwo(p2, ConsistencyPrompt(ProfileTexts(histories.value), scene, None),
        InteractionsPrompt(ProfileTexts(histories.value), scene, None, None));
      r := Ok(CharacterResult(histories.value, check.value.0, check.value.1, recommendations.value, thoughts));
    }
  }
}
