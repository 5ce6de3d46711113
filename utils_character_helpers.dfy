/** `utils/character_helpers.py`: the earlier, unwindowed character
    helpers. None of them checks the reply before using it: a missing
    content fails on `strip`, and an empty one goes through. */
module UtilsCharacterHelpers {
  import opened Wrappers
  import opened Py
  import opened Llm
  import opened Characters
  import opened CastParser

  /** The dictionary `analyze_characters` returns: no former characters. */
  datatype Analysis = Analysis(
    prior: seq<string>,
    current: seq<string>,
    newcomers: seq<string>,
    sceneNumber: Option<int>)

  /** Every name any record lists, sorted, each once: there is no window. */
  function PriorCharacters(records: seq<SceneRecord>): seq<string> {
    SortedUnique(AllNames(records))
  }

  function AnalysisOutcome(prior: seq<string>, reply: Reply, sceneNumber: Option<int>): Result<Analysis> {
    match StrippedReply(reply)
    case Err(e) => Err(e)
    case Ok(result) =>
      var c := ParseCast(Utils, Split(result, "\n"));
      Ok(Analysis(prior, c.current, c.newcomers, sceneNumber))
  }

  /** `analyze_characters`: the set of every listed name, the prompt naming
      them, and the parse of the stripped reply. */
  method AnalyzeCharacters(llm: Provider, scene: string, records: seq<SceneRecord>,
                           sceneNumber: Option<int> := None)
    returns (r: Result<Analysis>)
    modifies llm
    ensures llm.prompts == old(llm.prompts) +
      [AnalyzeCharactersPrompt(PriorText(PriorCharacters(records)), scene)]
    ensures llm.script == Rest(old(llm.script))
    ensures r == AnalysisOutcome(PriorCharacters(records), Next(old(llm.script)), sceneNumber)
  {
    var names := CollectNames(records);
    var prior := SortedNames(names);
    StrictlySortedUnique(prior, SortedUnique(AllNames(records)));
    var reply := llm.Complete(AnalyzeCharactersPrompt(PriorText(prior), scene));
    match StrippedReply(reply)
    case Err(e) =>
      r := Err(e);
    case Ok(result) =>
      var cast := ParseLines(Utils, Split(result, "\n"));
      r := Ok(Analysis(prior, cast.current, cast.newcomers, sceneNumber));
  }

  /** The prior characters are every name some record lists, ascending and
      without repeats. */
  lemma PriorCharactersShape(records: seq<SceneRecord>, x: string)
    ensures StrictlySorted(PriorCharacters(records))
    ensures x in PriorCharacters(records) <==> exists i :: 0 <= i < |records| && x in records[i].characters
  {
    AllNamesMembers(records, x);
    assert x in PriorCharacters(records) <==> x in Elements(PriorCharacters(records));
  }

  /** Only a missing content fails; otherwise each list comes from the last
      line with its label, with one bracket pair removed. */
  lemma AnalysisReplies(prior: seq<string>, reply: Reply, sceneNumber: Option<int>)
    ensures var r := AnalysisOutcome(prior, reply, sceneNumber);
      (r.Err? <==> !reply.Content?) &&
      (r.Ok? ==> var lines := Split(Strip(reply.text), "\n");
        r.value.prior == prior && r.value.sceneNumber == sceneNumber &&
        r.value.current == LastList(Utils, lines, Current) &&
        r.value.newcomers == LastList(Utils, lines, Newcomers))
  {
    if reply.Content? {
      ParseCastFields(Utils, Split(Strip(reply.text), "\n"));
    }
  }

  lemma EmptyLineUnlabelled(f: Field)
    ensures !Labelled("", Tag(f))
  {
    assert Strip("") == "";
  }

  /** An empty reply is no error here: it gives two empty lists. */
  lemma EmptyReplyAnalysis(prior: seq<string>, sceneNumber: Option<int>)
    ensures AnalysisOutcome(prior, Content(""), sceneNumber) == Ok(Analysis(prior, [], [], sceneNumber))
  {
    SplitNoChar("", '\n');
    assert Strip("") == "";
    EmptyLineUnlabelled(Current);
    EmptyLineUnlabelled(Newcomers);
    assert [""][..0] == [];
    assert ParseCast(Utils, [""]) == NoCast by {
      StepFields(Utils, NoCast, "");
    }
    ParsedAnalysis(prior, "", sceneNumber);
  }

  /** Round trip: the two list lines the prompt asks for give back their
      lists. */
  lemma AnalysisOfFormattedReply(prior: seq<string>, c: Cast, sceneNumber: Option<int>)
    requires AllListed(c.current) && AllListed(c.newcomers) && AllListed(c.former)
    ensures AnalysisOutcome(prior, Content(FormattedReply(Utils, c)), sceneNumber) ==
      Ok(Analysis(prior, c.current, c.newcomers, sceneNumber))
  {
    var text := FormattedReply(Utils, c);
    ParseFormattedReply(Utils, c);
    var k := ParseCast(Utils, Split(Strip(text), "\n"));
    assert k.current == c.current && k.newcomers == c.newcomers;
    ParsedAnalysis(prior, text, sceneNumber);
  }

  lemma ParsedAnalysis(prior: seq<string>, text: string, sceneNumber: Option<int>)
    ensures var k := ParseCast(Utils, Split(Strip(text), "\n"));
      AnalysisOutcome(prior, Content(text), sceneNumber) == Ok(Analysis(prior, k.current, k.newcomers, sceneNumber))
  {
    assert StrippedReply(Content(text)) == Ok(Strip(text));
  }

  // ---------------------------------------------------------------------
  // retrieve_character_history

  /** `[scene["summary"] for scene in relevant][-max_scenes:]` */
  function RecentSummaries(records: seq<SceneRecord>, character: string, maxScenes: int): seq<string> {
    Window(SummariesOf(Appearances(records, character)), maxScenes)
  }

  function HistoryPrompt(records: seq<SceneRecord>, character: string, scene: string, maxScenes: int): Prompt {
    var summaries := RecentSummaries(records, character, maxScenes);
    if summaries != [] then ProfileFromScenesPrompt(character, Join(summaries, "\n"))
    else ProfileFromScenePrompt(character, scene)
  }

  function HistoryOutcome(records: seq<SceneRecord>, character: string, maxScenes: int, reply: Reply): Result<History> {
    match StrippedReply(reply)
    case Err(e) => Err(e)
    case Ok(profile) => Ok(History(character, profile, RecentSummaries(records, character, maxScenes)))
  }

  method RetrieveCharacterHistory(llm: Provider, character: string, records: seq<SceneRecord>,
                                  scene: string, maxScenes: int := 3)
    returns (r: Result<History>)
    modifies llm
    ensures llm.prompts == old(llm.prompts) + [HistoryPrompt(records, character, scene, maxScenes)]
    ensures llm.script == Rest(old(llm.script))
    ensures r == HistoryOutcome(records, character, maxScenes, Next(old(llm.script)))
  {
    var summaries := Window(SummariesOf(Appearances(records, character)), maxScenes);
    var prompt;
    if summaries != [] {
      prompt := ProfileFromScenesPrompt(character, Join(summaries, "\n"));
    } else {
      prompt := ProfileFromScenePrompt(character, scene);
    }
    var reply := llm.Complete(prompt);
    match StrippedReply(reply)
    case Err(e) =>
      r := Err(e);
    case Ok(profile) =>
      r := Ok(History(character, profile, summaries));
  }

  /** The summaries are those of the last `maxScenes` records listing the
      character, at most `maxScenes` of them. */
  lemma HistorySummaries(records: seq<SceneRecord>, character: string, maxScenes: int)
    ensures RecentSummaries(records, character, maxScenes) ==
      SummariesOf(Window(Appearances(records, character), maxScenes))
    ensures maxScenes > 0 ==> |RecentSummaries(records, character, maxScenes)| <= maxScenes
  {
    SummariesWindow(Appearances(records, character), maxScenes);
  }

  /** The current-scene prompt is chosen exactly when no record lists the
      character, for a window size that is not negative. */
  lemma HistoryPromptChoice(records: seq<SceneRecord>, character: string, scene: string, maxScenes: int)
    requires maxScenes >= 0
    ensures HistoryPrompt(records, character, scene, maxScenes).ProfileFromScenePrompt? <==>
      forall i :: 0 <= i < |records| ==> character !in records[i].characters
  {
    HistorySummaries(records, character, maxScenes);
    NoRecentAppearances(records, character, maxScenes);
  }

  // ---------------------------------------------------------------------
  // verify_character_consistency and recommend_character_interactions

  function ConsistencyOutcome(reply: Reply): Result<(bool, string)> {
    match StrippedReply(reply)
    case Err(e) => Err(e)
    case Ok(result) => Ok((FirstLineSaysYes(result), result))
  }

  method VerifyCharacterConsistency(llm: Provider, profiles: seq<(string, History)>, scene: string)
    returns (r: Result<(bool, string)>)
    modifies llm
    ensures llm.prompts == old(llm.prompts) + [ConsistencyPrompt(ProfileTexts(profiles), scene, None)]
    ensures llm.script == Rest(old(llm.script))
    ensures r == ConsistencyOutcome(Next(old(llm.script)))
  {
    var reply := llm.Complete(ConsistencyPrompt(ProfileTexts(profiles), scene, None));
    match StrippedReply(reply)
    case Err(e) =>
      r := Err(e);
    case Ok(result) =>
      r := Ok((FirstLineSaysYes(result), result));
  }

  /** The verdict reads the first line of the stripped reply only. */
  lemma ConsistencyVerdict(text: string, line: string, rest: string)
    requires '\n' !in line
    ensures Strip(text) == line + "\n" + rest ==>
      ConsistencyOutcome(Content(text)) == Ok((Contains(Lower(line), "yes"), line + "\n" + rest))
    ensures Strip(text) == line ==>
      ConsistencyOutcome(Content(text)) == Ok((Contains(Lower(line), "yes"), line))
  {
    FirstLineVerdict(line, rest);
  }

  method RecommendCharacterInteractions(llm: Provider, profiles: seq<(string, History)>, scene: string)
    returns (r: Result<string>)
    modifies llm
    ensures llm.prompts == old(llm.prompts) + [InteractionsPrompt(ProfileTexts(profiles), scene, None, None)]
    ensures llm.script == Rest(old(llm.script))
    ensures r == StrippedReply(Next(old(llm.script)))
  {
    var reply := llm.Complete(InteractionsPrompt(ProfileTexts(profiles), scene, None, None));
    r := StrippedReply(reply);
  }
}
