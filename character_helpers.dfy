/** `backend/utils/utils/agents/character_helpers.py`: the four backend
    character helpers. Each sends one prompt; a reply without content is an
    error, and every other reply is used stripped. */
module CharacterHelpers {
  import opened Wrappers
  import opened Py
  import opened Llm
  import opened Characters
  import opened CastParser

  /** The dictionary `characters_extraction` returns. */
  datatype Extraction = Extraction(
    prior: seq<string>,
    current: seq<string>,
    newcomers: seq<string>,
    former: seq<string>,
    sceneNumber: Option<int>)

  /** The names listed by the last `numScenes` records, sorted, each once. */
  function PriorCharacters(records: seq<SceneRecord>, numScenes: int): seq<string> {
    SortedUnique(AllNames(Window(records, numScenes)))
  }

  /** What `characters_extraction` makes of the reply. */
  function ExtractionOutcome(prior: seq<string>, reply: Reply, sceneNumber: Option<int>): Result<Extraction> {
    match CheckedReply(reply)
    case Err(e) => Err(e)
    case Ok(result) =>
      var c := ParseCast(Backend, Split(result, "\n"));
      Ok(Extraction(prior, c.current, c.newcomers, c.former, sceneNumber))
  }

  /** `characters_extraction`: the map of the names in the window, the
      prompt naming them, and the parse of the reply. */
  method CharactersExtraction(llm: Provider, scene: string, records: seq<SceneRecord>,
                              sceneNumber: Option<int> := None, numScenes: int := 3)
    returns (r: Result<Extraction>)
    modifies llm
    ensures llm.prompts == old(llm.prompts) +
      [CharactersExtractionPrompt(PriorText(PriorCharacters(records, numScenes)), scene, numScenes)]
    ensures llm.script == Rest(old(llm.script))
    ensures r == ExtractionOutcome(PriorCharacters(records, numScenes), Next(old(llm.script)), sceneNumber)
  {
    var recent := Window(records, numScenes);
    var sceneMap := BuildSceneMap(recent);
    var prior := SortedNames(sceneMap.Keys);
    TallyShape(AllNames(recent));
    StrictlySortedUnique(prior, SortedUnique(AllNames(recent)));
    var reply := llm.Complete(CharactersExtractionPrompt(PriorText(prior), scene, numScenes));
    if !HasContent(reply) {
      r := Err(ReplyFailure(reply));
      return;
    }
    var result := Strip(reply.text);
    var cast := ParseLines(Backend, Split(result, "\n"));
    r := Ok(Extraction(prior, cast.current, cast.newcomers, cast.former, sceneNumber));
  }

  /** The prior characters are the names listed in the window, ascending
      and without repeats; the prompt says "None" when the window lists no
      name, and the window is the whole history when `numScenes` is 0 or
      at least its length. */
  lemma PriorCharactersShape(records: seq<SceneRecord>, numScenes: int, x: string)
    ensures var prior := PriorCharacters(records, numScenes);
      var recent := Window(records, numScenes);
      StrictlySorted(prior) &&
      (x in prior <==> exists i :: 0 <= i < |recent| && x in recent[i].characters) &&
      (prior == [] <==> AllNames(recent) == []) &&
      (AllNames(recent) == [] ==> PriorText(prior) == "None") &&
      (numScenes == 0 || numScenes >= |records| ==> recent == records)
  {
    var recent := Window(records, numScenes);
    var prior := PriorCharacters(records, numScenes);
    AllNamesMembers(recent, x);
    assert x in prior <==> x in Elements(prior);
    if AllNames(recent) != [] {
      assert AllNames(recent)[0] in Elements(prior);
    }
  }

  /** Every name of the reply is trimmed. */
  predicate AllTrimmed(xs: seq<string>) {
    forall i :: 0 <= i < |xs| ==> Trimmed(xs[i])
  }

  lemma LastListTrimmed(lines: seq<string>, f: Field)
    ensures AllTrimmed(LastList(Backend, lines, f))
  {
    match LastLabelled(lines, f)
    case None =>
    case Some(line) =>
      LabelledHasColon(line, Tag(f));
      assert LastList(Backend, lines, f) == BackendNames(line);
  }

  /** A reply without content is the error its absence raises; otherwise
      each list is the one carried by the last line with its label, `[]`
      without one, with every name trimmed. */
  lemma ExtractionReplies(prior: seq<string>, reply: Reply, sceneNumber: Option<int>)
    ensures var r := ExtractionOutcome(prior, reply, sceneNumber);
      (r.Err? <==> !HasContent(reply)) &&
      (r.Err? ==> r.error == ReplyFailure(reply)) &&
      (r.Ok? ==> var lines := Split(Strip(reply.text), "\n");
        r.value.prior == prior && r.value.sceneNumber == sceneNumber &&
        r.value.current == LastList(Backend, lines, Current) &&
        r.value.newcomers == LastList(Backend, lines, Newcomers) &&
        r.value.former == LastList(Backend, lines, Former) &&
        AllTrimmed(r.value.current) && AllTrimmed(r.value.newcomers) && AllTrimmed(r.value.former))
  {
    if HasContent(reply) {
      var lines := Split(Strip(reply.text), "\n");
      ParseCastFields(Backend, lines);
      LastListTrimmed(lines, Current);
      LastListTrimmed(lines, Newcomers);
      LastListTrimmed(lines, Former);
    }
  }

  /** Round trip: the reply the prompt asks for gives back its three lists. */
  lemma ExtractionOfFormattedReply(prior: seq<string>, c: Cast, sceneNumber: Option<int>)
    requires AllListed(c.current) && AllListed(c.newcomers) && AllListed(c.former)
    ensures ExtractionOutcome(prior, Content(FormattedReply(Backend, c)), sceneNumber) ==
      Ok(Extraction(prior, c.current, c.newcomers, c.former, sceneNumber))
  {
    var lines := ListLines(Backend, c);
    ListLineOnOneLine(Current, c.current);
    JoinEnds(lines, "\n");
    ParseFormattedReply(Backend, c);
  }

  // ---------------------------------------------------------------------
  // retrieve_character_history

  /** The records listing `character`, of which the last `numScenes`. */
  function RecentRelevant(records: seq<SceneRecord>, character: string, numScenes: int): seq<SceneRecord> {
    Window(Appearances(records, character), numScenes)
  }

  /** `"\n\n".join(f"Scene {n}:\n{summary.strip()}" ...)` */
  function LabelledSummaries(recent: seq<SceneRecord>): string {
    Join(seq(|recent|, i requires 0 <= i < |recent| =>
      "Scene " + UnknownSceneNumber + ":\n" + Strip(recent[i].summary)), "\n\n")
  }

  /** The prompt: built on the summaries when there are any, otherwise on
      the current scene alone. */
  function HistoryPrompt(records: seq<SceneRecord>, character: string, scene: string, numScenes: int): Prompt {
    var recent := RecentRelevant(records, character, numScenes);
    if SummariesOf(recent) != [] then ProfileFromScenesPrompt(character, LabelledSummaries(recent))
    else ProfileFromScenePrompt(character, scene)
  }

  function HistoryOutcome(records: seq<SceneRecord>, character: string, numScenes: int, reply: Reply): Result<History> {
    match CheckedReply(reply)
    case Err(e) => Err(e)
    case Ok(profile) => Ok(History(character, profile, SummariesOf(RecentRelevant(records, character, numScenes))))
  }

  method RetrieveCharacterHistory(llm: Provider, character: string, records: seq<SceneRecord>,
                                  scene: string, numScenes: int := 1)
    returns (r: Result<History>)
    modifies llm
    ensures llm.prompts == old(llm.prompts) + [HistoryPrompt(records, character, scene, numScenes)]
    ensures llm.script == Rest(old(llm.script))
    ensures r == HistoryOutcome(records, character, numScenes, Next(old(llm.script)))
  {
    var recent := Window(Appearances(records, character), numScenes);
    var summaries := SummariesOf(recent);
    var prompt;
    if summaries != [] {
      prompt := ProfileFromScenesPrompt(character, LabelledSummaries(recent));
    } else {
      prompt := ProfileFromScenePrompt(character, scene);
    }
    var reply := llm.Complete(prompt);
    if !HasContent(reply) {
      r := Err(ReplyFailure(reply));
      return;
    }
    r := Ok(History(character, Strip(reply.text), summaries));
  }

  /** The current-scene prompt is chosen exactly when no record lists the
      character, for a window size that is not negative. */
  lemma HistoryPromptChoice(records: seq<SceneRecord>, character: string, scene: string, numScenes: int)
    requires numScenes >= 0
    ensures HistoryPrompt(records, character, scene, numScenes).ProfileFromScenePrompt? <==>
      forall i :: 0 <= i < |records| ==> character !in records[i].characters
  {
    NoRecentAppearances(records, character, numScenes);
  }

  /** A reply without content is an error; otherwise the profile is the
      stripped reply and the source summaries are the last `numScenes`
      summaries of the records listing the character, in order. */
  lemma HistoryReplies(records: seq<SceneRecord>, character: string, numScenes: int, reply: Reply)
    ensures var r := HistoryOutcome(records, character, numScenes, reply);
      (r.Ok? <==> HasContent(reply)) &&
      (r.Ok? ==>
        r.value.character == character && r.value.profile == Strip(reply.text) &&
        r.value.sourceSummaries == Window(SummariesOf(Appearances(records, character)), numScenes) &&
        (numScenes > 0 ==> |r.value.sourceSummaries| <= numScenes))
  {
    SummariesWindow(Appearances(records, character), numScenes);
  }

  // ---------------------------------------------------------------------
  // verify_character_consistency and recommend_character_interactions

  /** The verdict and the stripped reply it was read from. */
  function ConsistencyOutcome(reply: Reply): Result<(bool, string)> {
    match CheckedReply(reply)
    case Err(e) => Err(e)
    case Ok(result) => Ok((FirstLineSaysYes(result), result))
  }

  method VerifyCharacterConsistency(llm: Provider, profiles: seq<(string, History)>, scene: string,
                                    numScenes: int := 1)
    returns (r: Result<(bool, string)>)
    modifies llm
    ensures llm.prompts == old(llm.prompts) + [ConsistencyPrompt(ProfileTexts(profiles), scene, Some(numScenes))]
    ensures llm.script == Rest(old(llm.script))
    ensures r == ConsistencyOutcome(Next(old(llm.script)))
  {
    var reply := llm.Complete(ConsistencyPrompt(ProfileTexts(profiles), scene, Some(numScenes)));
    if !HasContent(reply) {
      r := Err(ReplyFailure(reply));
      return;
    }
    var result := Strip(reply.text);
    r := Ok((FirstLineSaysYes(result), result));
  }

  /** The verdict is "yes" somewhere in the first line of the stripped
      reply, whatever the later lines say, and comes with the whole
      stripped reply. */
  lemma ConsistencyVerdict(text: string, line: string, rest: string)
    requires text != [] && '\n' !in line
    ensures Strip(text) == line + "\n" + rest ==>
      ConsistencyOutcome(Content(text)) == Ok((Contains(Lower(line), "yes"), line + "\n" + rest))
    ensures Strip(text) == line ==>
      ConsistencyOutcome(Content(text)) == Ok((Contains(Lower(line), "yes"), line))
  {
    FirstLineVerdict(line, rest);
  }

  /** The critique block of the recommendation prompt: present, stripped,
      exactly when the scene was judged inconsistent. */
  function Critique(isConsistent: bool, consistencyResult: string): Option<string> {
    if isConsistent then None else Some(Strip(consistencyResult))
  }

  method RecommendCharacterInteractions(llm: Provider, profiles: seq<(string, History)>, scene: string,
                                        numScenes: int := 1, isConsistent: bool := true,
                                        consistencyResult: string := "")
    returns (r: Result<string>)
    modifies llm
    ensures llm.prompts == old(llm.prompts) +
      [InteractionsPrompt(ProfileTexts(profiles), scene, Critique(isConsistent, consistencyResult),
                          Some(numScenes))]
    ensures llm.prompts[|llm.prompts| - 1].critique.Some? <==> !isConsistent
    ensures llm.script == Rest(old(llm.script))
    ensures r == CheckedReply(Next(old(llm.script)))
    ensures r.Ok? <==> HasContent(Next(old(llm.script)))
  {
    var critique := if isConsistent then None else Some(Strip(consistencyResult));
    var reply := llm.Complete(InteractionsPrompt(ProfileTexts(profiles), scene, critique, Some(numScenes)));
    r := CheckedReply(reply);
  }
}
