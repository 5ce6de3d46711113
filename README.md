# Lights-Camera-ReAction, modelled in Dafny

Lights-Camera-ReAction writes a sitcom pilot with a language model. A
user gives keywords in a few categories (a setting, characters, a premise
and so on). The pipeline then asks the model for a pitch, an outline and
a validated outline. It writes scene 1 and stores a summary of it in a
scene memory: a list of metadata records plus a vector index. For each
further scene, three "writers' room" agents review the scene against that
memory before a planner and a writer produce the next scene:

- a character agent checks continuity of the cast;
- a comedic agent checks the running gags;
- an environment agent checks whether the change of location makes sense.

The same pipeline runs in two forms: as a command-line script
(`sitcom_generator.py`), and as a Flask backend (`backend/app.py`) with a
React front end (`src/App.js`) that walks the user through the steps.

This project models the deterministic logic around the model's calls:

- **Text extraction.** `backend/utils/text_utils.py` finds a scene in an
  outline, the title and the episode concept. It groups scenes into
  fixed-size blocks and sorts them by number.
- **Scene memory.** `*/vector_db_utils.py` parses a labelled summary reply
  into a record with defaults, retrying three times with back-off in the
  backend version. It appends exactly one record and one vector per
  stored scene.
- **Continuity helpers.** The character, comedy and environment helpers
  provide:
  - the look-back windows, with Python's `xs[-n:]` semantics;
  - the character-to-scene map;
  - the `Characters:` / `Environment:` line parsers;
  - the "yes" verdict heuristics;
  - the explanation extraction;
  - the choice between prompt branches.
- **The ReAct agents.** These are classes whose runs append a fixed number
  of thoughts to a list that is never cleared. The scene planner also has
  a bounded retry loop.
- **Post-processing.** This covers extracting evaluation summaries and
  score rows, and choosing each block's context.
- **Orchestration.** This covers keyword flattening, the required-field
  gates of the Flask routes, and the per-scene loop.
- **The front end.** This covers the split helpers, the outline formatter,
  the concept parser, and the step navigation of the wizard.

Each call to the language model goes through `Llm.Provider`. A provider
holds a script of replies that the model might give: content, no content,
or an exception. Each call consumes one reply and records the prompt it
was sent. Every contract that depends on a reply is therefore stated for
every possible reply. A prompt records only the data its f-string
interpolates; the wording is not modelled. `time.sleep` is an
`Llm.Clock` that records the requested delays. The FAISS index is a
counter of the vectors it holds.

Python's string operations are restated in `Py`. These are `strip` over
Python's white space, `splitlines` with all its line boundaries,
`split`, `find` and `lower`, together with `xs[-n:]` and `int()`. Python's
failures are values of `Wrappers.Failure`: a missing argument, a wrong
type, an index out of range, a missing key, a missing reply content, or
retries exhausted. Each agent's `internal_thoughts` holds structured
`Thought` values that carry the data its f-strings print.

## Model

| member | source | states |
|---|---|---|
| Llm.Provider.Complete | backend/utils/agents/scene_planner_agent.py:93-98 | one completion call answers with the next scripted reply (a raised error once the script is used up), consumes it, and records the prompt after the earlier ones |
| Llm.Clock.Sleep | backend/utils/agents/scene_planner_agent.py:112 | a `time.sleep` is recorded after every earlier one |
| Llm.FirstAccepted | backend/utils/agents/scene_planner_agent.py:91-105 | the attempt the retry loop returns from is the first of the three whose reply has content; there is none exactly when no attempt's reply has content |
| Llm.RetryShape | backend/utils/agents/scene_planner_agent.py:91-112 | the loop makes one to three calls, requests a delay of 1 s and then 2 s after each failed attempt but the last, fails exactly when all three replies lack content, and then after three calls |
| Llm.CompleteWithRetry | backend/utils/vector_db_utils.py:75-89 | the loop returns the stripped content of the first reply with content, or the third attempt's failure; it consumes exactly the replies of the attempts made, sends the same prompt once per attempt and sleeps `2 ** attempt` between them |
| Llm.AcceptedAt | backend/utils/agents/scene_planner_agent.py:100-112 | where the loop stops at an attempt, it has made that many calls plus one, slept after each earlier one, and returns that reply's stripped content or its failure |
| SceneMemory.CleanName | backend/utils/vector_db_utils.py:101 | a cleaned character name has no white space at either end |
| SceneMemory.CleanNamesShape | backend/utils/vector_db_utils.py:101 | every parsed name is trimmed; with no blank line the names are the lines cleaned one for one, and a body of blank lines lists no one |
| SceneMemory.ParseReply | backend/utils/vector_db_utils.py:89-110 | the loop over the blank-line-separated sections yields the record that applying the sections in order to the defaults gives |
| SceneMemory.LastLabelled | backend/utils/vector_db_utils.py:98-107 | the section that sets a field is the last one starting with its label; there is none exactly when no section starts with it |
| SceneMemory.LastLabelledStep | backend/utils/vector_db_utils.py:98-107 | the last section either carries the label, and then sets the field, or leaves the field to the sections before it |
| SceneMemory.LabelsExclusive | backend/utils/vector_db_utils.py:98-107 | no section starts with two of the five labels, so the `elif` order never matters |
| SceneMemory.ParseSectionsFields | backend/utils/vector_db_utils.py:90-107 | each field keeps its default (`""`, `[]` or `None`) unless a section starts with its label, and then holds the value of the last such section |
| SceneMemory.NoLabelsDefaults | backend/utils/vector_db_utils.py:90-96 | a reply with no labelled section leaves every default in place |
| SceneMemory.SummarizeScene | backend/utils/vector_db_utils.py:75-115 | the backend summary succeeds exactly when the retry loop does and is then the parse of its reply; otherwise it fails with the loop's failure; calls, prompts and sleeps are the loop's |
| SceneMemory.SummarizeOnceOutcome | utils/vector_db_utils.py:63-95 | the single-attempt summary fails exactly when the reply has no content (a raised call or a missing content failing on `strip`); a blank reply parses to the defaults |
| SceneMemory.SummarizeSceneOnce | utils/vector_db_utils.py:63-95 | exactly one call is made, with the summary prompt, and its outcome is that reply's |
| SceneMemory.Encoder.Encode | backend/utils/vector_db_utils.py:132 | encoding records the summary after the texts encoded before |
| SceneMemory.VectorIndex.AddOne | backend/utils/vector_db_utils.py:134 | adding a batch of one vector grows `ntotal` by one |
| SceneMemory.MetadataList.Append | backend/utils/vector_db_utils.py:136-143 | the record goes after every earlier one |
| SceneMemory.AddSceneToVectorDb | backend/utils/vector_db_utils.py:118-143 | a missing model, index or list is rejected before anything changes; otherwise exactly the summary is encoded, one vector and one record (with the script) are added, and an index in step with the list stays in step |
| SceneMemory.StoreSceneInVectorDb | backend/utils/vector_db_utils.py:146-182 | storing succeeds exactly when summarizing succeeds and every collaborator is present, and then appends the parsed record with the script and one vector; a failed summary changes neither the list nor the index; the prompts, replies drawn and retry sleeps are those of the summary's retry loop |
| Characters.AllNamesMembers | backend/utils/utils/agents/character_helpers.py:34-36 | a name is listed by the window exactly when some record of the window lists it |
| Characters.TallyShape | backend/utils/utils/agents/character_helpers.py:34-36 | the character-to-scene map's keys are exactly the listed names, and each maps to one `"?"` label per listing (records carry no scene number) |
| Characters.BuildSceneMap | backend/utils/utils/agents/character_helpers.py:33-36 | the nested loops build exactly the tally of the names the window lists, record after record |
| Characters.TallyScene | backend/utils/utils/agents/character_helpers.py:35-36 | the inner loop adds one scene's names to the map as the tally of the names so far followed by them |
| Characters.TallySnoc | backend/utils/utils/agents/character_helpers.py:36 | one more listed name appends one label under it and changes no other key |
| Characters.CollectNames | utils/character_helpers.py:21-24 | the nested loops collect exactly the set of names some record lists |
| Characters.SortedNames | backend/utils/utils/agents/character_helpers.py:39 | `sorted` of a set of names is strictly ascending and holds exactly the set |
| Characters.LabelsColonLast | backend/utils/utils/agents/character_helpers.py:81-88 | each of the three labels ends with its only colon |
| Characters.LabelsExclusive | backend/utils/utils/agents/character_helpers.py:81-88 | no text starts with two of the labels, so the order of the `elif` chain never matters |
| Characters.LabelledHasColon | backend/utils/utils/agents/character_helpers.py:81-82 | a line that carries a label has a colon, so `split(":", 1)[1]` exists |
| Characters.Names | backend/utils/utils/agents/character_helpers.py:83 | every name the comma comprehension keeps is non-empty and trimmed |
| Characters.UnwrapBrackets | utils/character_helpers.py:61-62 | the `utils` bracket removal drops one enclosing pair exactly when the text starts with `[` and ends with `]`, and otherwise leaves it alone |
| Characters.StripBracketPair | backend/utils/utils/agents/character_helpers.py:82 | `strip("[]")` removes exactly the outer pair from a bracketed list whose own ends are not brackets |
| Characters.NamesOfJoin | backend/utils/utils/agents/character_helpers.py:83 | the comma parser reads back any list of listable names joined with `", "` |
| Characters.FieldTextOfListLine | backend/utils/utils/agents/character_helpers.py:81-82 | the line `tag [a, b]` carries its label and its text after the colon, stripped, is the bracketed list |
| Characters.BackendNamesOfListLine | backend/utils/utils/agents/character_helpers.py:81-83 | round trip: the backend parser reads back the names of a line written as the prompt asks |
| Characters.UtilsNamesOfListLine | utils/character_helpers.py:59-63 | round trip: the `utils` parser reads back the names of a line written as the prompt asks |
| Characters.UnwrapPair | utils/character_helpers.py:61-62 | the `utils` removal takes off exactly one enclosing pair |
| Characters.FirstLineVerdict | backend/utils/utils/agents/character_helpers.py:264-265 | the verdict is "yes" in the first line, lower-cased; whatever follows the first line break is ignored, and a reply of one line is read whole |
| Characters.Appearances | backend/utils/utils/agents/character_helpers.py:132 | the records that list a name, in order: none is missing and no other is kept, and there are none exactly when no record lists it |
| Characters.RecentAppearances | backend/utils/utils/agents/character_helpers.py:132-134 | the look-back at the last `num_scenes` appearances is empty exactly when no record lists the name, keeps only records listing it, and keeps `min(n, count)` of them |
| Characters.NoRecentAppearances | backend/utils/utils/agents/character_helpers.py:132-136 | the history prompt's `if relevant_summaries` fails exactly when no record lists the name |
| Characters.SummariesWindow | utils/character_helpers.py:99-100 | taking the summaries and then the last `n` (as `utils` does) equals taking the last `n` records and then their summaries (as the backend does) |
| CastParser.Tag | backend/utils/utils/agents/character_helpers.py:81-88 | each field's label ends with its only colon |
| CastParser.TagsExclusive | backend/utils/utils/agents/character_helpers.py:81-88 | no text starts with two different field labels |
| CastParser.LastLabelled | backend/utils/utils/agents/character_helpers.py:80-89 | the line found for a field carries its label |
| CastParser.LastLabelledSearch | backend/utils/utils/agents/character_helpers.py:80-89 | the line found is the one a search from the end with the label test finds: no later line carries the label, and there is none exactly when no line does |
| CastParser.LastListStep | backend/utils/utils/agents/character_helpers.py:80-89 | the list for a field comes from the final line when that carries the label, and otherwise from the lines before it |
| CastParser.LineLabelsExclusive | backend/utils/utils/agents/character_helpers.py:81-88 | a stripped line carries at most one of the labels |
| CastParser.StepFields | backend/utils/utils/agents/character_helpers.py:81-89 | one line replaces only the list its label names; `utils` never touches the former characters |
| CastParser.ParseCastFields | backend/utils/utils/agents/character_helpers.py:76-89 | each list comes from the last line carrying its label, whatever lines come between; a missing label leaves its list empty, and `utils` reads no former characters |
| CastParser.ParseLines | utils/character_helpers.py:55-68 | the loop of either parser over the reply's lines yields the lists the specification gives |
| CastParser.ListLineOnOneLine | backend/utils/utils/agents/character_helpers.py:80 | a list line of listable names holds no line break and starts and ends with non-space characters |
| CastParser.FormattedReplyLines | backend/utils/utils/agents/character_helpers.py:73-80 | a reply written as the prompt asks, once stripped and split on line breaks, is its list lines again |
| CastParser.LineListOfListLine | backend/utils/utils/agents/character_helpers.py:81-89 | either parser reads back the names of a list line, which carries its label |
| CastParser.StepListLine | backend/utils/utils/agents/character_helpers.py:81-89 | one list line replaces the list of its own field and no other |
| CastParser.ParseListLines | backend/utils/utils/agents/character_helpers.py:76-89 | the parser reads the list lines back one list each; `utils` reads no former characters |
| CastParser.ParseFormattedReply | utils/character_helpers.py:52-68 | round trip: a reply written exactly as the prompt asks gives back its lists, except that `utils` drops the former characters |
| CharacterHelpers.CharactersExtraction | backend/utils/utils/agents/character_helpers.py:5-100 | `characters_extraction` sends one prompt naming the window's characters (or "None") and returns the parse of the stripped reply, or the error a reply without content raises |
| CharacterHelpers.PriorCharactersShape | backend/utils/utils/agents/character_helpers.py:30-39 | the prior characters are ascending, without repeats, and are exactly the names the last `num_scenes` records list; the prompt says "None" when they list no one; a size of 0 or beyond the history takes every record |
| CharacterHelpers.ExtractionReplies | backend/utils/utils/agents/character_helpers.py:70-98 | the extraction fails exactly when the reply lacks content, with the error raised; otherwise each list is the one carried by the last line with its label, `[]` without one, every name trimmed |
| CharacterHelpers.ExtractionOfFormattedReply | backend/utils/utils/agents/character_helpers.py:73-98 | round trip: a reply in the requested format gives back its three lists |
| CharacterHelpers.RetrieveCharacterHistory | backend/utils/utils/agents/character_helpers.py:103-198 | one prompt, built on the last `num_scenes` summaries of the scenes listing the character, or on the current scene when there are none; the profile is the stripped reply |
| CharacterHelpers.HistoryPromptChoice | backend/utils/utils/agents/character_helpers.py:132-162 | the current-scene prompt is chosen exactly when no record lists the character |
| CharacterHelpers.HistoryReplies | backend/utils/utils/agents/character_helpers.py:186-196 | the history succeeds exactly when the reply has content, and then holds the character, the stripped reply and the last `num_scenes` summaries of the records listing the character, in order |
| CharacterHelpers.VerifyCharacterConsistency | backend/utils/utils/agents/character_helpers.py:201-270 | one prompt listing the profiles and naming the `num_scenes` window; the outcome is the first-line verdict with the stripped reply, or the error a reply without content raises |
| CharacterHelpers.ConsistencyVerdict | backend/utils/utils/agents/character_helpers.py:264-267 | the verdict is "yes" in the first line of the stripped reply, whatever later lines say, and comes with the whole stripped reply |
| CharacterHelpers.RecommendCharacterInteractions | backend/utils/utils/agents/character_helpers.py:273-355 | one prompt naming the `num_scenes` window, which carries the stripped critique exactly when the scene was judged inconsistent; the result is the stripped reply, present exactly when the reply has content |
| UtilsCharacterHelpers.AnalyzeCharacters | utils/character_helpers.py:4-76 | `analyze_characters` sends one prompt naming every character ever listed (or "None") and returns the `utils` parse of the stripped reply, or the failure of a reply without content |
| UtilsCharacterHelpers.PriorCharactersShape | utils/character_helpers.py:21-26 | the prior characters are ascending, without repeats, and are exactly the names some record lists |
| UtilsCharacterHelpers.AnalysisReplies | utils/character_helpers.py:52-76 | only a missing content fails; otherwise each list comes from the last line with its label, with one bracket pair removed |
| UtilsCharacterHelpers.EmptyReplyAnalysis | utils/character_helpers.py:52-76 | an empty reply is no error here: it gives two empty lists |
| UtilsCharacterHelpers.AnalysisOfFormattedReply | utils/character_helpers.py:52-76 | round trip: the two list lines the prompt asks for give back their lists |
| UtilsCharacterHelpers.ParsedAnalysis | utils/character_helpers.py:52-76 | any content is stripped, split on line breaks and parsed |
| UtilsCharacterHelpers.RetrieveCharacterHistory | utils/character_helpers.py:78-148 | one prompt, built on the last `max_scenes` summaries of the scenes listing the character (joined by line breaks), or on the current scene when there are none; the profile is the stripped reply |
| UtilsCharacterHelpers.HistorySummaries | utils/character_helpers.py:99-100 | the summaries are those of the last `max_scenes` records listing the character, at most `max_scenes` of them |
| UtilsCharacterHelpers.HistoryPromptChoice | utils/character_helpers.py:99-104 | the current-scene prompt is chosen exactly when no record lists the character |
| UtilsCharacterHelpers.VerifyCharacterConsistency | utils/character_helpers.py:151-196 | one prompt listing the profiles; the outcome is the first-line verdict with the stripped reply, and a missing content fails on `strip` |
| UtilsCharacterHelpers.ConsistencyVerdict | utils/character_helpers.py:191-196 | the verdict reads the first line of the stripped reply only, even of an empty reply |
| UtilsCharacterHelpers.RecommendCharacterInteractions | utils/character_helpers.py:199-243 | one prompt without a critique; the result is the stripped reply |
| CharacterManagement.FirstCharactersLine | utils/character_management.py:34-38 | the line found carries the `Characters:` label and has a colon to split at |
| CharacterManagement.FirstCharactersLineSearch | utils/character_management.py:34-38 | the line found is the first one, from the front, whose stripped form starts with `Characters:` |
| CharacterManagement.StripAll | utils/character_management.py:51 | every piece is stripped, one for one |
| CharacterManagement.DropEmpty | utils/character_management.py:54 | no kept name is empty |
| CharacterManagement.TwoPassNames | utils/character_management.py:51-54 | stripping every piece and then dropping the empty ones equals the one-pass comprehension of the other parsers |
| CharacterManagement.LineNamesAgree | utils/character_management.py:44-54 | the names of the `Characters:` line are what the `utils` parser reads: split at the first colon, one bracket pair removed when both are present, comma-split, trimmed, empties dropped |
| CharacterManagement.FindCharactersLine | utils/character_management.py:34-38 | the scan stops at the first labelled line, or finds none |
| CharacterManagement.AnalyzeCharacters | utils/character_management.py:5-56 | one prompt; the result is the names of the first `Characters:` line of the raw reply, `[]` without one, or the failure of a reply without content |
| CharacterManagement.AnalysisReplies | utils/character_management.py:31-56 | only a missing content fails; the names come from the first labelled line, read as `utils` reads them, and no such line gives `[]` |
| CharacterManagement.ContentAnalysis | utils/character_management.py:31-56 | any content, even empty, is scanned unstripped |
| CharacterManagement.AnalysisOfListLine | utils/character_management.py:31-56 | round trip: a reply whose first line is the list line the prompt asks for gives back its names, whatever follows |
| CharacterManagement.FirstLineFound | utils/character_management.py:35-38 | a labelled first line is the line the scan stops at |
| CharacterManagement.VerifyCharacterConsistency | utils/character_management.py:112-157 | one prompt listing the profiles; the verdict is read from the raw reply, which comes back unchanged |
| CharacterManagement.ConsistencyVerdict | utils/character_management.py:153-157 | the verdict reads the first line of the raw reply only |
| ComedyHelpers.Letters | backend/utils/agents/comedy_helpers.py:34 | `extend` with a string adds one entry per character, in order |
| ComedyHelpers.CollectGags | backend/utils/agents/comedy_helpers.py:32-34 | the loop over the last `max_scenes` records extends the gag list record by record, and fails on the first record whose joke is `None` |
| ComedyHelpers.GagsFail | backend/utils/agents/comedy_helpers.py:33-34 | gathering the gags fails, as not iterable, exactly when some record of the window has no joke |
| ComedyHelpers.GagsFacts | backend/utils/agents/comedy_helpers.py:33-34 | otherwise the gags are the characters of the jokes, one each, in record order |
| ComedyHelpers.FlattenAppend | backend/utils/agents/comedy_helpers.py:34 | concatenating the entries of two gag lists is concatenating their concatenations |
| ComedyHelpers.FlattenLetters | backend/utils/agents/comedy_helpers.py:34 | the characters a joke contributes spell the joke again |
| ComedyHelpers.JokeStringsStep | backend/utils/agents/comedy_helpers.py:33-34 | a record with a joke adds that joke after the earlier ones |
| ComedyHelpers.GagTextNone | backend/utils/agents/comedy_helpers.py:37 | with one-character gags, the gag text is `"None"` exactly when there are none |
| ComedyHelpers.FlattenEmpty | backend/utils/agents/comedy_helpers.py:34-37 | the gags spell nothing exactly when every entry is empty |
| ComedyHelpers.AnalyzeAndVerifyComedicConsistency | backend/utils/agents/comedy_helpers.py:4-83 | a record without a joke fails before any call; otherwise one prompt with the window's summaries and gag text, and the outcome is the second-line verdict with the stripped reply, or the failure of an empty or one-line reply |
| ComedyHelpers.CheckPromptFacts | backend/utils/agents/comedy_helpers.py:31-37 | the prompt carries the summaries of the last `max_scenes` records in order; it can be built exactly when each of those records has a joke, and then says `"None"` exactly when all their jokes are empty |
| ComedyHelpers.NoGags | backend/utils/agents/comedy_helpers.py:33-37 | the gag text of a window whose records all have jokes is `"None"` exactly when every joke is empty |
| ComedyHelpers.LowerKeepsLineBreaks | backend/utils/agents/comedy_helpers.py:78 | lower-casing keeps every line break where it was and adds none |
| ComedyHelpers.SecondLineReads | backend/utils/agents/comedy_helpers.py:78 | the verdict is "yes" in line 1 of the lower-cased reply; line 0 and lines after 1 are ignored, and a reply of one line has no line 1 and fails |
| ComedyHelpers.LinesOfLower | backend/utils/agents/comedy_helpers.py:78 | the lower-cased reply has a line 1 exactly when it holds a line break |
| ComedyHelpers.FirstLineBreak | backend/utils/agents/comedy_helpers.py:78 | a text holding a line break splits into at least two lines |
| ComedyHelpers.CheckReplies | backend/utils/agents/comedy_helpers.py:74-83 | a reply fails exactly when it has no content or its stripped text is a single line; otherwise the whole stripped text comes back |
| ComedyHelpers.CheckVerdict | backend/utils/agents/comedy_helpers.py:77-80 | the verdict of a reply whose stripped text has at least two lines is read from its second line |
| ComedyHelpers.RecommendComedicImprovements | backend/utils/agents/comedy_helpers.py:86-152 | one prompt, which carries the stripped critique exactly when the scene was judged inconsistent; the result is the stripped reply, present exactly when the reply has content |
| UtilsComedyHelpers.AnalyzeAndVerifyComedicConsistency | utils/comedy_helpers.py:4-62 | a record without a joke fails before any call; otherwise one prompt with the same window as the backend, and the outcome is the second-line verdict with the stripped reply, unchecked |
| UtilsComedyHelpers.CheckReplies | utils/comedy_helpers.py:58-62 | only a missing content or a one-line stripped text fails; an empty content is no error of its own and fails as a single line |
| UtilsComedyHelpers.CheckVerdict | utils/comedy_helpers.py:58-62 | the verdict reads line 1 of the stripped reply |
| UtilsComedyHelpers.ContentCheck | utils/comedy_helpers.py:58-62 | any content is stripped and then read for its second line |
| UtilsComedyHelpers.RecommendComedicImprovements | utils/comedy_helpers.py:65-101 | one prompt with the scene alone and no critique; the result is the stripped reply, failing only on a missing content |
| UtilsEnvironmentHelpers.AnalyzeEnvironment | utils/agents/environment_helpers.py:4-44 | one prompt; the result is the stripped reply, failing only on a missing content |
| UtilsEnvironmentHelpers.VerifyEnvironmentTransition | utils/agents/environment_helpers.py:47-114 | a window holding a missing location fails before any call; otherwise one prompt with the window text, and the outcome is the verdict, the explanation and the stripped reply |
| UtilsEnvironmentHelpers.TransitionReplies | utils/agents/environment_helpers.py:101-114 | only a missing content fails; an empty one gives a negative verdict with the fallback explanation |
| UtilsEnvironmentHelpers.SuggestEnvironmentDetails | utils/agents/environment_helpers.py:117-165 | one prompt whose note is chosen by `is_consistent` alone; the result is the stripped reply |
| EnvironmentHelpers.Present | backend/utils/agents/environment_helpers.py:85 | the strings of the locations, one for one |
| EnvironmentHelpers.PriorLocationTextFacts | backend/utils/agents/environment_helpers.py:85 | the window text is `"None"` for no locations; otherwise it joins the last `num_scenes` locations with `", "` in order (all of them for 0 or a size beyond their number) and fails exactly when one of those is missing |
| EnvironmentHelpers.NoYesInEmpty | backend/utils/agents/environment_helpers.py:123-124 | the empty default line says no "yes" |
| EnvironmentHelpers.VerdictOfLines | backend/utils/agents/environment_helpers.py:123-124 | the verdict holds exactly when some line carries `Logical Transition?` and the first such line says "yes" in any case; with no such line it is false |
| EnvironmentHelpers.FirstMarked | backend/utils/agents/environment_helpers.py:123 | the first marked line is unique |
| EnvironmentHelpers.ExplanationFacts | backend/utils/agents/environment_helpers.py:127-131 | the explanation is the stripped suffix from the first `Short Explanation:` and starts with it; the fallback is given exactly when the marker occurs nowhere |
| EnvironmentHelpers.AnalyzeEnvironment | backend/utils/agents/environment_helpers.py:4-55 | one prompt; the result is the stripped reply, present exactly when the reply has content |
| EnvironmentHelpers.VerifyEnvironmentTransition | backend/utils/agents/environment_helpers.py:58-136 | the window text is built before the call, so a missing location in it fails with nothing sent; otherwise one prompt, and the outcome is the verdict, the explanation and the stripped reply |
| EnvironmentHelpers.TransitionFails | backend/utils/agents/environment_helpers.py:117-118 | the transition check fails exactly on a reply without content, with that reply's error |
| EnvironmentHelpers.TransitionReplies | backend/utils/agents/environment_helpers.py:117-133 | otherwise the third component is the whole stripped reply and the verdict and explanation are read from it |
| EnvironmentHelpers.SplitLinesHead | backend/utils/agents/environment_helpers.py:123 | a first line free of line breaks comes first among the `splitlines` pieces |
| EnvironmentHelpers.FirstLineBreakAt | backend/utils/agents/environment_helpers.py:123 | `splitlines` cuts at the first line break |
| EnvironmentHelpers.VerdictFirst | backend/utils/agents/environment_helpers.py:123-124 | a reply whose first line is the verdict line is judged by that line alone |
| EnvironmentHelpers.NoteChoice | backend/utils/agents/environment_helpers.py:164-168 | the note depends on `is_consistent` alone and tells the two verdicts apart |
| EnvironmentHelpers.SuggestEnvironmentDetails | backend/utils/agents/environment_helpers.py:139-206 | one prompt with the analysis, the check and the note chosen by `is_consistent`; the result is the stripped reply, present exactly when the reply has content |
| EnvironmentAgents.LastEnvironmentLine | backend/utils/agents/environment_agent.py:51-54 | the line `act` takes the environment from is labelled `Environment:` once stripped and holds a colon |
| EnvironmentAgents.LastEnvironmentLineSearch | backend/utils/agents/environment_agent.py:51-54 | the line is the last labelled one, the one a search from the end finds, and none when no line is labelled |
| EnvironmentAgents.EnvironmentOfLinesStep | backend/utils/agents/environment_agent.py:52-54 | one pass of the loop: a labelled line replaces the environment with its stripped text after the first colon, any other line keeps it |
| EnvironmentAgents.ParseEnvironment | backend/utils/agents/environment_agent.py:51-54 | the loop over the analysis lines yields the environment of the last labelled line, or `""` when there is none |
| EnvironmentAgents.FirstColonOfLabel | backend/utils/agents/environment_agent.py:54 | the first colon of a labelled line is the label's own |
| EnvironmentAgents.EnvironmentOfLine | backend/utils/agents/environment_agent.py:51-54 | round trip: a one-line analysis `Environment: <location>` parses back to the location, for a location without newlines and outer spaces |
| EnvironmentAgents.EnvironmentOfOne | backend/utils/agents/environment_agent.py:52-54 | a single labelled line names its own field text |
| EnvironmentAgents.SingleLine | backend/utils/agents/environment_agent.py:52 | a line without newlines splits into itself |
| EnvironmentAgents.FieldOfLine | backend/utils/agents/environment_agent.py:53-54 | `Environment: <location>` is labelled, holds a colon and its field is the location |
| EnvironmentAgents.LabelledLine | backend/utils/agents/environment_agent.py:53 | anything after the label still starts with the label |
| EnvironmentAgents.SceneRangeFacts | backend/utils/agents/environment_agent.py:32-33 | the prior scenes are ascending and are exactly those from 1 up to but excluding the scene that lie at most `num_scenes` before it: none for scene 1, never more than `num_scenes` |
| EnvironmentAgents.Locations | backend/utils/agents/environment_agent.py:65 | one prior location per metadata record, in order |
| EnvironmentAgents.EnvironmentAgent.constructor | backend/utils/agents/environment_agent.py:14-26 | the agent keeps its client, metadata and window size and starts with no thoughts |
| EnvironmentAgents.EnvironmentAgent.Think | backend/utils/agents/environment_agent.py:28-38 | returns the scene range and records one thought naming it and the scene |
| EnvironmentAgents.EnvironmentAgent.Act | backend/utils/agents/environment_agent.py:40-59 | sends one analysis prompt; on a reply returns it with the environment parsed from it and records one thought, on a failure records none |
| EnvironmentAgents.EnvironmentAgent.Observe | backend/utils/agents/environment_agent.py:61-78 | hands the records' locations to the transition check, which asks the model only when every location in the window is a string; a verdict records one thought saying consistent or not |
| EnvironmentAgents.EnvironmentAgent.Recommend | backend/utils/agents/environment_agent.py:80-91 | sends one suggestions prompt carrying the analysis, the check and the consistency note; a reply records one thought |
| EnvironmentAgents.EnvironmentAgent.Run | backend/utils/agents/environment_agent.py:93-108 | the thoughts added, the prompts sent, the replies drawn and the result are exactly those of the run that the three replies and the window text lead to, as `RunTraceCases` spells out; a result carries the agent's whole thought list |
| EnvironmentAgents.RunTraceCases | backend/utils/agents/environment_agent.py:93-108 | a run completes exactly when the analysis, transition and suggestions replies have content and the window text can be built. It then returns the stripped analysis with its parsed environment, the verdict and explanation read from the stripped transition reply and the stripped suggestions, adds the four thoughts in step order and sends the three prompts, the last carrying the transition text. A run cut short fails with the error of the first failing step, adds the thoughts of the steps before it and draws one reply per request sent |
| EnvironmentAgents.Returned | backend/utils/agents/environment_agent.py:104-108 | the run returns the failed step's error, or the context, verdict, explanation and suggestions it computed with the agent's thought list |
| EnvironmentReActAgents.AsWrittenTrace | backend/utils/agents/environment_agents.py:40-71 | a run as written adds both its thoughts exactly when it ends on the missing argument, never adds a third, and sends one or two prompts, never the suggestions prompt |
| EnvironmentReActAgents.AsWrittenLastCall | backend/utils/agents/environment_agents.py:56-70 | once the analysis, the window and the transition check succeed, a run as written has added both thoughts, sent the analysis and transition prompts and fails on the missing `is_consistent` |
| EnvironmentReActAgents.IntendedComplete | backend/utils/agents/environment_agents.py:40-73 | with the argument passed, three accepted replies and a joinable window complete the run with what the replies hold |
| EnvironmentReActAgents.AsWrittenFailureCases | backend/utils/agents/environment_agents.py:66-70 | a run as written fails on the missing argument exactly when the analysis has content, the window can be joined and the transition reply has content; without an analysis it fails with that reply's error |
| EnvironmentReActAgents.IntendedRunCases | backend/utils/agents/environment_agents.py:40-73 | with the argument passed, the run succeeds exactly when all three replies have content and the window can be joined, and then returns the stripped analysis, the transition read from the second reply and the stripped suggestions |
| EnvironmentReActAgents.MissingArgumentExample | backend/utils/agents/environment_agents.py:66-70 | three replies `a`, `b`, `c` and no prior scene: the run as written fails on the missing argument where the intended run completes |
| EnvironmentReActAgents.EnvironmentReActAgent.constructor | backend/utils/agents/environment_agents.py:15-27 | the agent keeps its client, metadata and window size and starts with no thoughts |
| EnvironmentReActAgents.EnvironmentReActAgent.Run | backend/utils/agents/environment_agents.py:29-73 | the run as written always fails, with the first error met or else the missing argument; it adds the thoughts and sends the prompts of the steps that finished, parsing the environment as the environment agent does |
| EnvironmentReActAgents.EnvironmentReActAgent.RunAsIntended | backend/utils/agents/environment_agents.py:29-73 | the run with the verdict passed on: its outcome is the intended run of the replies; a completed run adds the three thoughts analysed, verified, suggested, returns the whole thought list and sends exactly the analysis, transition and suggestions prompts |
| ComedyAgents.ComedyRunCases | backend/utils/agents/comedy_agent.py:51-63 | a run completes exactly when the three prior records all carry a joke, the check reply has content spanning at least two lines once stripped and the improvement reply has content; it then returns the stripped check reply as analysis and the stripped second reply |
| ComedyAgents.ComedyThoughtsCases | backend/utils/agents/comedy_agent.py:29-49 | a completed run has added both thoughts, a failed one at most the first |
| ComedyAgents.ComedicAgent.constructor | backend/utils/agents/comedy_agent.py:9-19 | the agent keeps its client and metadata and starts with no thoughts |
| ComedyAgents.ComedicAgent.AnalyzeAndVerify | backend/utils/agents/comedy_agent.py:21-35 | asks the model only when the window of three prior scenes can be read, returns the helper's verdict and analysis, and a verdict records one thought |
| ComedyAgents.ComedicAgent.Recommend | backend/utils/agents/comedy_agent.py:37-49 | sends one improvement prompt without a critique, returns the checked reply and a reply records one thought |
| ComedyAgents.ComedicAgent.Run | backend/utils/agents/comedy_agent.py:51-63 | the run's verdict, analysis and recommendations are those of its two replies, its thoughts are those of the steps that finished and the whole list is returned; a completed run consumes two replies and sends exactly the check and the improvement prompts |
| CharacterAgents.Outcomes | utils/character_agent.py:35-43 | one profile request per listed character, the `k`-th answered by the `k`-th reply with a window of three scenes |
| CharacterAgents.HistoryPrompts | utils/character_agent.py:35-42 | one profile prompt per listed character, in order |
| CharacterAgents.HistoryReply | utils/character_agent.py:36-42 | a profile request succeeds exactly when its reply has content |
| CharacterAgents.HistoriesSucceed | utils/character_agent.py:34-45 | the dictionary is built exactly when each of the first as many replies as there are characters has content |
| CharacterAgents.HistoriesShape | utils/character_agent.py:34-45 | the dictionary's keys are the listed characters, each once, and each entry is the profile of its key carrying that character's last three summaries |
| CharacterAgents.CharacterAgent.constructor | utils/character_agent.py:12-15 | the agent keeps its client and metadata and starts with no thoughts |
| CharacterAgents.CharacterAgent.Think | utils/character_agent.py:17-28 | sends one analysis prompt with the prior characters, returns the parsed analysis with the scene number and records one thought naming the current characters |
| CharacterAgents.CharacterAgent.Act | utils/character_agent.py:30-45 | the loop asks once per current character in order and builds the dictionary of their profiles, consuming one reply each; on success it records one thought listing the dictionary's keys, on a failure none |
| CharacterAgents.CharacterAgent.Observe | utils/character_agent.py:47-58 | sends one consistency prompt over the profiles, returns the verdict read from the reply and records one thought saying consistent or not |
| CharacterAgents.CharacterAgent.Recommend | utils/character_agent.py:60-70 | sends one interactions prompt over the profiles with no critique, returns the stripped reply and records one thought |
| CharacterAgents.CharacterAgent.Run | utils/character_agent.py:72-80 | a completed run's analysis, profiles, verdict and suggestions come from the replies in order (one, one per current character, one, one), its four thoughts are added in step order, the whole list is returned, and exactly the analysis, profile, consistency and interactions prompts are sent; a run cut short fails with the error of the first failing step and adds exactly the thoughts of the steps before it |
| ScenePlannerAgents.PlanThoughtCases | backend/utils/agents/scene_planner_agent.py:100-111 | a call notes a success exactly when one of its three attempts got content; otherwise it notes a failure naming the third attempt's error; either way for the scene planned |
| ScenePlannerAgents.ScenePlannerAgent.constructor | backend/utils/agents/scene_planner_agent.py:6-14 | the agent keeps its client and starts with no thoughts |
| ScenePlannerAgents.ScenePlannerAgent.PlanNextScene | backend/utils/agents/scene_planner_agent.py:16-112 | the plan is the outcome of the three-attempt retry over the replies; the same prompt goes out once per attempt made, one reply is consumed per attempt, the sleeps are those of the failed attempts before the last, and exactly one thought is added |
| AgentEvaluation.FindShortExplanation | backend/utils/agents/agent_evaluation.py:41-45 | the search loop with `break` returns the first line whose stripped form starts with the marker, stripped, or `""` |
| AgentEvaluation.FirstMarkedCases | backend/utils/agents/agent_evaluation.py:41-45 | the short explanation is empty exactly when no line is marked; otherwise it starts with the marker and is the stripped form of a marked line with no marked line before it |
| AgentEvaluation.MarkedNotEmpty | backend/utils/agents/agent_evaluation.py:43-44 | a marked line, stripped, is not empty and keeps the marker |
| AgentEvaluation.NumberedLinesFacts | backend/utils/agents/agent_evaluation.py:48-51 | the recommendation lines kept are exactly those starting with `1.` or `2.` once stripped, in order; lines that all qualify are kept whole, and the filter distributes over concatenation |
| AgentEvaluation.ShownExplanation | backend/utils/agents/agent_evaluation.py:55 | the explanation printed is the whole text stripped exactly when no line is marked, and otherwise the marked line |
| AgentEvaluation.ReportExplanation | backend/utils/agents/agent_evaluation.py:41-112 | the character summary shows its `2. Short Explanation Why:` line and the comedy summary its `3. Short Explanation` line when there is one, and the whole explanation stripped otherwise |
| AgentEvaluation.EvaluateEnvironmentAgentScene | backend/utils/agents/agent_evaluation.py:122-166 | one run of the environment agent: the thoughts, prompts and replies drawn are the run's, a failed run's error comes back unchanged, and a completed run's values come back as they came with a summary of its verdict and its explanation and suggestions stripped |
| AgentEvaluation.EvaluateComedicAgentScene | backend/utils/agents/agent_evaluation.py:65-90 | fails for every agent and scene on the `num_scenes` the backend's comedic agent never sets, before the agent runs |
| EvalUtils.DescriptionLines | utils/eval_utils.py:32-34 | one `Scene <n>: <description>` line per previous scene, in order |
| EvalUtils.ContextNoteCases | utils/eval_utils.py:31-41 | the context note is empty exactly when there is no previous block or it is empty; otherwise it starts with the intro, ends with a line break, and the text between splits back into the previous scenes' lines when no description holds a line break |
| EvalUtils.DescriptionLineFree | utils/eval_utils.py:33 | a scene's line holds a line break only where its description does |
| EvalUtils.EvaluateSceneBlock | utils/eval_utils.py:5-85 | sends one request with the concept, the context note and the scenes joined by blank lines; a reply without content fails, any other comes back stripped |
| EvalUtils.BlockNames | utils/eval_utils.py:112-113 | the keys `scene_block_1` to `scene_block_n` in order |
| EvalUtils.BlockNamesDistinct | utils/eval_utils.py:132 | no two block numbers give the same key |
| EvalUtils.BlockContext | utils/eval_utils.py:113-130 | block `k`'s request can be built exactly when its key is present and, from the second block on, the previous block's description key is; the first block goes without a context note, a later one with the note of the previous block's descriptions |
| EvalUtils.BlockOutcomes | utils/eval_utils.py:112-132 | one outcome per block, the `k`-th read from the `k`-th reply |
| EvalUtils.BlockPrompts | utils/eval_utils.py:112-130 | one request per block |
| EvalUtils.BlockOutcomeCases | utils/eval_utils.py:113-132 | a block's evaluation is read exactly when its keys are present and its reply has content, and is then that reply stripped |
| EvalUtils.Evaluated | utils/eval_utils.py:132-134 | a completed dictionary has one entry per block |
| EvalUtils.EpisodeEvaluationsShape | utils/eval_utils.py:110-134 | the evaluation completes exactly when every key looked up is present and every reply has content, and then holds `scene_block_k` with the `k`-th reply stripped, for every block in order |
| EvalUtils.EvaluateEpisodeBlocks | utils/eval_utils.py:88-134 | the loop computes the episode's evaluations, a missing key failing before its request; a completed loop sends exactly one request per block in order and consumes one reply each |
| EvalUtils.NameRunEnd | utils/eval_utils.py:155 | `[\w ]+` stops at the first character outside the class |
| EvalUtils.LineEnd | utils/eval_utils.py:155 | `.+` stops at the first line break |
| EvalUtils.MatchScoreLine | utils/eval_utils.py:155 | a matching line starts with `- ` and its score group is all digits |
| EvalUtils.ParseScoreLine | utils/eval_utils.py:155-159 | a line reads as a row exactly when the pattern matches it |
| EvalUtils.CriteriaAccepted | utils/eval_utils.py:69-73 | each of the five criteria the prompt asks for is a name the pattern accepts |
| EvalUtils.MatchScoreLineAt | utils/eval_utils.py:155 | a line with a name run, `: `, a digit run and the en dash at given places matches with those groups |
| EvalUtils.ParseScoreLineRoundTrip | utils/eval_utils.py:155-159 | round trip: a line written in the requested format `- <criterion>: <score> – <justification>` reads back as the criterion and justification stripped and the score |
| EvalUtils.ScoreRowsAppend | utils/eval_utils.py:152 | the table lists the blocks' rows one block after the other |
| EvalUtils.ScoreRowsMembers | utils/eval_utils.py:150-174 | a row is in the table exactly when it carries the episode and version given, the name of a block, and the reading of one of that block's lines |
| EvalUtils.BlockRowsMembers | utils/eval_utils.py:153-168 | a row comes from a block exactly when it carries the block's name and the reading of one of its lines |
| EvalUtils.LineRowsCases | utils/eval_utils.py:155-168 | a line gives a row exactly when it matches, and the row carries the line's reading |
| EvalUtils.ExtractBlockScores | utils/eval_utils.py:153-168 | the inner loop yields the block's rows in line order |
| EvalUtils.ExtractEvaluationScores | utils/eval_utils.py:137-174 | the loop yields the table's rows, block by block in dictionary order |
| TextUtils.SceneSpan | backend/utils/text_utils.py:12-13 | the pattern finds a span exactly when `Scene {n}:` occurs; the span starts at its first occurrence and ends at the first `\nScene {n+1}:` after that header, or at the end of the text |
| TextUtils.ExtractScene | backend/utils/text_utils.py:10-14 | the scene is `None` exactly when its header does not occur; otherwise it starts with the header and carries no outer whitespace |
| TextUtils.StrippedSpan | backend/utils/text_utils.py:14 | the matched span, stripped, still starts with the header |
| TextUtils.ExtractSceneBoundary | backend/utils/text_utils.py:12-14 | the scene is the stripped span, and it runs to the end of the text when the next scene's header does not follow it |
| TextUtils.FirstTitleLine | backend/utils/text_utils.py:19-24 | the first line yielding a title, with none before it; none exactly when no line yields one |
| TextUtils.TitleOfLines | backend/utils/text_utils.py:19-25 | the title is `None` exactly when no line starts with `Title:` and holds two distinct quotes; otherwise it comes from the first such line |
| TextUtils.QuotedTitleShape | backend/utils/text_utils.py:20-24 | a title is the text strictly between the first and the last `"` of a line starting with `Title:` |
| TextUtils.GetEpisodeConcept | backend/utils/text_utils.py:42-49 | an outline without the `Episode Concept:` marker gives the fallback message |
| TextUtils.GetEpisodeConceptToEnd | backend/utils/text_utils.py:42-49 | the corrected concept: the fallback message without the marker |
| TextUtils.EpisodeConceptBeforeScene | backend/utils/text_utils.py:43-47 | with a `Scene` after the marker, the concept is the stripped text between them, and the code as written agrees with the corrected definition |
| TextUtils.EpisodeConceptDropsLastChar | backend/utils/text_utils.py:45-46 | `Episode Concept: A pilot` with no `Scene` after it gives `A pilo`: `find` returns -1 and the slice stops before the last character |
| TextUtils.EpisodeConceptKeepsLastChar | backend/utils/text_utils.py:45-46 | the corrected definition gives `A pilot` for the same outline |
| TextUtils.Chunks | backend/utils/text_utils.py:87-90 | the blocks are non-empty, all of `block_size` items but the last, and there are none only for an empty list |
| TextUtils.ChunkCount | backend/utils/text_utils.py:87-90 | block `k` exists exactly when `k * block_size` lies inside the list: there are ceil(n / block_size) blocks |
| TextUtils.FlattenChunks | backend/utils/text_utils.py:87-90 | the blocks concatenated give back the list in order |
| TextUtils.ChunkAt | backend/utils/text_utils.py:87-90 | block `k` holds exactly the items from `k * block_size` up to the next multiple or the end |
| TextUtils.Blocks | backend/utils/text_utils.py:87-90 | a zero block size raises (`range` with step 0), a negative one yields no blocks, a positive one yields blocks that concatenate to the list |
| TextUtils.GetSceneDescriptionBlock | backend/utils/text_utils.py:52-92 | for a positive block size the scene list is cut into non-empty blocks of `block_size` scenes, the last possibly shorter, concatenating back to the list; zero raises, a negative size yields none |
| TextUtils.DigitRunEnd | backend/utils/text_utils.py:120 | `\d+` ends at the first non-digit |
| TextUtils.HeaderAt | backend/utils/text_utils.py:120 | a header found at a position ends after it and inside the text |
| TextUtils.HeadersFrom | backend/utils/text_utils.py:120 | the headers `re.split` cuts at lie inside the text, left to right, without overlaps |
| TextUtils.ScenesInTextOrder | backend/utils/text_utils.py:123-127 | one scene per header |
| TextUtils.InsertByNumber | backend/utils/text_utils.py:130 | inserting a scene into a list sorted by number keeps it sorted and adds exactly that scene |
| TextUtils.SortByNumber | backend/utils/text_utils.py:130 | the sorted scenes are ordered by number and are a permutation of the input |
| TextUtils.KeyedBlockAt | backend/utils/text_utils.py:133-136 | block `k` of the dictionary exists exactly when `k * block_size` lies inside the list, is keyed `block_{k+1}` and holds the next `block_size` scenes or the rest |
| TextUtils.CombineScenes | backend/utils/text_utils.py:120-127 | the loop pairs each header, in text order, with the stripped body up to the next header |
| TextUtils.PartitionIntoBlocks | backend/utils/text_utils.py:133-136 | the loop builds the dictionary of keyed blocks, one block per step |
| TextUtils.ExtractAndPartitionScenes | backend/utils/text_utils.py:95-138 | the scenes cut at the headers, sorted by number, cut into keyed blocks; a zero block size raises, a negative one gives an empty dictionary |
| TextUtils.PartitionShape | backend/utils/text_utils.py:119-138 | the blocks are keyed `block_1` to `block_k` with k = ceil(scenes / block_size), the scenes come out by ascending number, and the blocks together hold every scene of the text exactly once |
| TextUtils.KeyedBlocksShape | backend/utils/text_utils.py:133-136 | ceil(n / block_size) blocks keyed in order whose values concatenate back to the list |
| TextUtils.NoHeadersNoBlocks | backend/utils/text_utils.py:117-138 | a text without headers gives an empty dictionary, not an error |
| SitcomGenerator.CategoriesDistinct | sitcom_generator.py:98-103 | the four categories are distinct keys |
| SitcomGenerator.CollectKeywords | sitcom_generator.py:106-113 | the dictionary has the four categories as keys in order, each holding its answer split at commas, stripped, blanks dropped |
| SitcomGenerator.KeywordsOfAnswer | sitcom_generator.py:113 | every keyword kept is non-empty with no outer whitespace, and a list typed as `a, b, c` gives back exactly its items |
| SitcomGenerator.FlattenKeywords | sitcom_generator.py:116-118 | the loop yields the categories' keywords one list after another |
| SitcomGenerator.FlatKeywords | sitcom_generator.py:116-118 | the flat list holds a word exactly when some category does, and keeps the categories in order |
| SitcomGenerator.FirstSceneScript | sitcom_generator.py:155-160 | scene 1's script exists exactly when its reply has content, and starts with the heading for scene index 0 |
| SitcomGenerator.ReviewsSnoc | sitcom_generator.py:193-206 | sending a prompt records a review exactly when it is a round's review request |
| SitcomGenerator.SceneTwoSnoc | sitcom_generator.py:283-287 | a prompt that writes no scene, or writes scene 2, keeps every written scene asked for as scene 2 |
| SitcomGenerator.PlannedReviews | sitcom_generator.py:193-206 | the rounds review scenes 2 to `n + 1` in order, each with its description from the outline and a memory of one record per earlier scene |
| SitcomGenerator.ReviewsAppend | sitcom_generator.py:193 | the reviews of two runs of prompts are the first's followed by the second's |
| SitcomGenerator.CarryScriptsStep | sitcom_generator.py:297-303 | a record added with its script keeps every record carrying its script and leaves scene 1's record first |
| SitcomGenerator.StoreScene | sitcom_generator.py:291-303 | one summary request; on a reply with content one record carrying the script and one vector are added, otherwise nothing is stored |
| SitcomGenerator.ScriptsAsSceneTwoAppend | sitcom_generator.py:283-287 | joining two runs that write scenes only as scene 2 keeps that so |
| SitcomGenerator.NextRound | sitcom_generator.py:193-303 | a round that records the next planned review extends the reviews so far by exactly it |
| SitcomGenerator.WriteFirstScene | sitcom_generator.py:150-177 | scene 1 is written from its outline description, summarized and stored with its script as the one new record; a failure stores nothing |
| SitcomGenerator.PlayRound | sitcom_generator.py:193-303 | one round reviews scene `k` with the current memory size, writes the plan as scene 2, summarizes and stores it with its script; a failed round stores nothing |
| SitcomGenerator.PlayRounds | sitcom_generator.py:193-317 | the rounds run in order and stop at the first failure; the reviews sent are a prefix of the planned ones, every record carries its script, scene 1's record stays first, and a completed loop adds one record per round |
| SitcomGenerator.GenerateEpisode | sitcom_generator.py:146-323 | from the outline: scene 1 and then `num_scenes` rounds; the index holds one vector per record, and a completed run saves under the outline's title a text holding scene 1 alone, the only scene appended to `scenes` |
| SitcomGenerator.Max0 | sitcom_generator.py:193 | `range(n)` runs `n` times for a positive `n` and never otherwise |
| BackendApp.Status | backend/app.py:31-230 | every route answers 200, 400 or 500 |
| BackendApp.MissingAny | backend/app.py:37-175 | the 400 test holds exactly when one of the required fields is absent or false |
| BackendApp.Gates | backend/app.py:37-175 | each route's required fields: the key alone for the concept; key and concept; key, concept and outline; key and outline; key, outline and scene number; key, outline and scene-1 script; key and outline |
| BackendApp.Answer | backend/app.py:55-57 | a call that produced a text is answered `{key: text}` with 200, one that raised with 500 and its message |
| BackendApp.Strings | backend/app.py:48 | one JSON text per word, in order |
| BackendApp.FlattenKeywords | backend/app.py:43-48 | the loop collects each category's contribution in dictionary order: a list as it is, a text split at commas with blanks dropped, nothing otherwise |
| BackendApp.KeywordArg | backend/app.py:50-53 | the pitch gets `None` exactly for an empty list and the list otherwise |
| BackendApp.FlatKeywords | backend/app.py:43-53 | the flat list holds a value exactly when some category adds it, concatenates over categories in order, goes on as `None` exactly when no category adds anything, and every word read from a text is non-empty with no outer whitespace |
| BackendApp.NoKeywords | backend/app.py:50-51 | the list is empty exactly when no category contributes |
| BackendApp.WordsTrimmed | backend/app.py:48 | every word read from a text is trimmed and non-empty |
| BackendApp.GenerateConcept | backend/app.py:31-57 | 400 exactly without a key; keywords that are not a dictionary fail with 500 before any request; otherwise one pitch request with the flattened keywords, answered as `concept` |
| BackendApp.GenerateOutline | backend/app.py:59-73 | 400 exactly without key or concept and then no request; otherwise one outline request answered as `outline` |
| BackendApp.ValidateOutline | backend/app.py:75-89 | 400 exactly without key, concept or outline and then no request; otherwise one validation request answered as `validation` |
| BackendApp.GenerateSceneOne | backend/app.py:91-110 | 400 exactly without key or outline; an outline that is not a text fails with 500 before any request; otherwise one request with the outline's title and scene 1 description, answered stripped as `scene1` or 500 on a reply without content |
| BackendApp.GenerateScene | backend/app.py:112-135 | 400 exactly without key, outline or scene number; otherwise one request naming the scene and the outline, its content answered as `scene` |
| BackendApp.Backend.constructor | backend/app.py:22-25 | the shared index and metadata list start empty |
| BackendApp.Backend.SceneOneVectorInfo | backend/app.py:137-167 | 400 exactly without key, outline or script; non-text fields fail with 500 before any request or store; otherwise the script is summarized with up to three attempts, one record carrying it and one vector are added and that record's five fields are answered, while a failed summary answers 500 and stores nothing; the index keeps one vector per record |
| BackendApp.Backend.StoreAndReport | backend/app.py:146-165 | past the checks: a summary stores one record with the script and reports it, a failure stores nothing |
| BackendApp.Backend.WritersRoom | backend/app.py:169-230 | 400 exactly without key or outline; otherwise always 500, because the environment agent's run never completes: when the character and comedic agents succeed, the answer is the environment run's failure on scene 2 |
| BackendApp.Backend.RunAgents | backend/app.py:176-208 | the agents run in order and the route ends with an error, the first agent's failure or the environment run's |
| FrontEndText.Trim | src/App.js:94-114 | `trim` never lengthens a text and leaves no JavaScript white space at either end |
| FrontEndText.TrimTwice | src/App.js:94-114 | trimming is idempotent |
| FrontEndText.CloseBracket | src/App.js:97 | the lazy `.*?\]` stops at the first `]`, and `.` crosses no line terminator before it |
| FrontEndText.NumberedAt | src/App.js:94-114 | `\d+\. ` matches a whole digit run followed by `. ` |
| FrontEndText.SuggestionAt | src/App.js:97 | `- \[Suggestion.*?\]:?` matches text starting with `- [Suggestion` |
| FrontEndText.FirstMatch | src/App.js:94-114 | the separator match the split cuts at is the leftmost one at or after the position, and none means no match anywhere after it |
| FrontEndText.SplitBy | src/App.js:94-114 | `split` always yields at least one piece |
| FrontEndText.Separators | src/App.js:94-114 | one matched separator between each two pieces |
| FrontEndText.SplitRejoins | src/App.js:94-114 | round trip: the pieces with the matched separators put back between them make up the text again, and every separator has its pattern's shape |
| FrontEndText.DashSplit | src/App.js:94-109 | `/- /` splits exactly as splitting at the string `- ` does, and joining with `- ` undoes it |
| FrontEndText.PiecesHoldNoSeparator | src/App.js:94-114 | no piece holds a match of its separator |
| FrontEndText.SplitTrimmedItems | src/App.js:94-114 | the items are exactly the trimmed forms of the non-empty pieces, never more than the pieces, each already trimmed |
| FrontEndText.SplitHelpers | src/App.js:106-114 | `splitByDash` and `splitNumbered` give no items for the empty text, the trimmed non-empty pieces otherwise, and the whole text trimmed when no separator occurs |
| FrontEndText.RecommendationCases | src/App.js:94-104 | `splitRecommendations` is empty exactly for the empty text; one item is the whole text trimmed; several items are the suggestion-or-number split when that has more than one piece, else the dash split |
| FrontEndText.SceneLabelEnd | src/App.js:63 | `/^Scene \d+:/` matches a line starting with `Scene ` and ends at the colon |
| FrontEndText.SceneTitle | src/App.js:65 | the heading group starts with the scene label and a quote, the line starts with heading and rest, and the rest holds no line terminator |
| FrontEndText.Classify | src/App.js:57-88 | a line becomes the concept element exactly when it starts with `Episode Concept:` (carrying the rest trimmed), a scene element exactly when it otherwise starts with a scene label, with a bold heading exactly when the title pattern matches, and is kept as it is otherwise |
| FrontEndText.FormatOutline | src/App.js:51-91 | the empty outline gives `''`; otherwise one element per non-blank line, in order |
| FrontEndText.OutlineOfLines | src/App.js:54 | an outline of lines joined by line feeds yields one element per non-blank line |
| FrontEndText.OutlineAppend | src/App.js:54-89 | formatting works line by line: two outlines joined by a line feed format to the first's elements followed by the second's |
| FrontEndText.SplitCharAppend | src/App.js:54 | splitting at a character undoes joining two texts with it |
| FrontEndText.MatchAfterTitle | src/App.js:40 | after `Title:` the match found satisfies the pattern, and none means no way of giving back white space lets it match |
| FrontEndText.MatchFromLeftmost | src/App.js:40 | the concept match found is the leftmost one |
| FrontEndText.NoMatchAnywhere | src/App.js:40-41 | with no match found the pattern matches at no position |
| FrontEndText.ConceptFallback | src/App.js:38-49 | the concept falls back to no title and the whole text exactly when the pattern matches nowhere |
| FrontEndText.TitleHasNoQuote | src/App.js:40-43 | a title parsed from the concept holds no double quote |
| FrontEndSteps.AfterNext | src/App.js:285-311 | `handleNext` moves one step on, except that the outline step starts the scene flow at its first step |
| FrontEndSteps.AfterBack | src/App.js:313-321 | `handleBack` moves one step back, except that the scene flow's first step goes back to the outline step and leaves the scene flow |
| FrontEndSteps.PressStaysOnStep | src/App.js:773-788 | an enabled button keeps the wizard on a step the stepper shows; an enabled Next goes where `handleNext` goes and an enabled Back one step back |
| FrontEndSteps.RunStaysOnStep | src/App.js:773-788 | any run of clicks keeps the wizard on one of the six steps or on the scene flow's step |
| FrontEndSteps.SceneFlowReached | src/App.js:285-311 | with an API key, six clicks on Next lead from `API Key` into the scene flow |
| FrontEndSteps.SceneFlowIsFinal | src/App.js:773-788 | as written, once in the scene flow no click moves the wizard: Back is disabled on step 0 and Next is not shown |
| FrontEndSteps.IntendedBack | src/App.js:315-319 | with Back enabled on the scene flow's first step, Back returns to the outline step; outside the scene flow nothing else changes |
| FrontEndSteps.AllKeywordsFilled | src/App.js:742 | `allKeywordsFilled` holds exactly when every category's value, trimmed, is not empty |
| FrontEndSteps.NextIgnoresKeywords | src/App.js:783-788 | as written, Next on the keyword step is enabled with every keyword blank, so `allKeywordsFilled` gates nothing |
| FrontEndSteps.IntendedNextNeedsKeywords | src/App.js:742-788 | with the keyword check in Next's gate, leaving the keyword step needs every keyword filled; on every other step the gate is unchanged |
| FrontEndSteps.KeywordEntries | src/App.js:323-328 | the keywords go to the concept request one string per category, in category order |
| FrontEndSteps.FilledButNoKeywords | src/App.js:742 | a comma in every category passes `allKeywordsFilled` and still gives the backend no keyword at all |
| FrontEndSteps.Wizard.constructor | src/App.js:117-129 | the wizard starts on `API Key` outside the scene flow, nothing loading, progress 0, every keyword blank |
| FrontEndSteps.Wizard.HandleNext | src/App.js:285-311 | the new position is where `handleNext` goes; the error is cleared; the initialising step runs the progress to 100 and ends not loading; leaving the outline clears the scene-1 script; the keywords are unchanged |
| FrontEndSteps.Wizard.HandleBack | src/App.js:313-321 | the new position is where `handleBack` goes; the error is cleared and nothing else changes |
| FrontEndSteps.Wizard.HandleKeywordChange | src/App.js:323-328 | one category's value is replaced and nothing else changes; every category keeps a value |

## Left out

- Language-model calls: they are replies drawn from a script, and the model's output quality cannot be stated. Prompt wording is not modelled, only the data each prompt carries.
- Embeddings, FAISS and numpy: the index is a counter that grows by one per stored scene. `retrieve_character_history` in `utils/character_management.py` ranks records by embedding similarity, so it is not modelled.
- `time.sleep`: the requested delays are recorded in `Llm.Clock` rather than waited for.
- Printing, `input`, `getpass`, writing the `.env` file and saving the script to disk in `sitcom_generator.py`. The answers to the keyword questions and the outline are parameters, and the saved text is the model's result.
- pandas: `extract_evaluation_scores` builds its DataFrame from a sequence of rows, and the model returns that sequence.
- Flask routing, JSON parsing, CORS and the HTTP status plumbing. A request body is a map from keys to JSON values, without floating point or repeated keys.
- React rendering, `fetch`, `useEffect` and styling. The `setInterval` progress animation of `handleNext` is taken as the end it reaches: progress 100, loading off, one step on.
- Modules imported by the core but not part of this model, each with no logic beyond one request: `utils/text_utils.py` (the backend's `backend/utils/text_utils.py` stands in for it), the `utils.agents.*` wrappers of the command-line script, the pitch, outline, validation and screen-writing helpers, `utils/rag_utils.py`, `sitcom_generator_baseline.py` and the interactive `test_roll_the_prompt.py`. The planner and the three agents that `sitcom_generator.py` imports are not part of this model either. One round of review and planning there is one request whose reply is the plan. `plan_next_scene_explicit`, which that script calls, is not defined in any planner that is part of this model.
- The character evaluator in `backend/utils/agents/agent_evaluation.py` runs a character agent whose module (`backend/utils/agents/character_agent.py`) is not part of this model, so only the summary it prints is modelled.
- The comedy evaluator in the same file is modelled as the failure it always ends in: the backend's comedic agent keeps no `num_scenes`. Were that attribute there, the evaluator would still fail, since it unpacks five values from a run that returns four. The summary it was meant to print is modelled on its own as `ComedyReport`. The environment evaluator is modelled whole.
- EnvironmentAgents.EnvironmentAgent.Run: returns a copy of the thought list. Python returns the agent's own list object, so thoughts added by a later run show through a list returned earlier; that aliasing is not modelled. The same holds for ComedyAgents.ComedicAgent.Run and CharacterAgents.CharacterAgent.Run.
- BackendApp.Backend.WritersRoom: the character agent this route builds comes from `backend/utils/agents/character_agent.py`, which is not part of this model. Its outcome is the parameter `character`. Its window of one scene, its prompts and the replies it draws are not modelled, and the provider's script starts with the replies after its own.
- BackendApp.Backend.RunAgents: takes the character agent's run as its outcome `character`, for the reason given for `WritersRoom`; only the comedic and environment agents' prompts and replies are modelled.
- Regular expressions are restated pattern by pattern as explicit searches, not through a regex engine. In them `\w` and `\d` are ASCII letters, digits and `_`; Python also accepts other Unicode letters and digits.
- The scene-header `findall` of `get_scene_description_block`: the scene list it returns is the function's parameter, and the chunking is modelled.
- `lower()` is ASCII only. No other character lower-cases to a letter of "yes", so the verdicts are unaffected.
- Exceptions that the source catches and re-raises with a longer message keep only their `Failure` kind here, not the message text.
- TextUtils.SortByNumber: states that the sorted scenes are ordered and a permutation of the input, not that equal scene numbers keep their input order, as Python's stable sort does.
- BackendApp.GenerateScene: a reply without content answers 500 here, where Flask would answer 200 with a null `scene`, because the response body holds strings only.
- BackendApp.Backend.SceneOneVectorInfo: a `scene1Script` or `outline` that is not a string answers 500 before any request. Python would carry a non-string script into the summary prompt's f-string.

## Findings

| source | as written | input that shows it | evidently intended | confidence | as-written member | corrected member |
|---|---|---|---|---|---|---|
| backend/utils/agents/environment_agents.py:66-70 | `run` calls `suggest_environment_details` without its required `is_consistent` argument, so every run fails with a `TypeError` after its first two thoughts. `/api/scene-1-writers-room` therefore always answers 500. | replies `"a"`, `"b"`, `"c"` and no prior locations: the run fails, where the intended run succeeds | pass the verdict of `transition_check` as `is_consistent`, and complete with three thoughts | not executed | `EnvironmentReActAgents.MissingArgumentExample` | `EnvironmentReActAgents.IntendedRunCases` |
| src/App.js:773-775 | Back is disabled whenever `activeStep === 0`, including the scene flow's only step, so `handleBack`'s branch back to the outline (lines 315-319) can never run, and the scene flow is never left | any click sequence after entering the scene flow | enable Back on the scene flow's first step so it returns to the outline step | not executed | `FrontEndSteps.SceneFlowIsFinal` | `FrontEndSteps.IntendedBack` |
| backend/utils/text_utils.py:45-46 | with no `Scene` after `Episode Concept:`, `find` returns -1 and the slice drops the concept's last character | `"Episode Concept: A pilot"` gives `"A pilo"` | run to the end of the text when no `Scene` follows | not executed | `TextUtils.EpisodeConceptDropsLastChar` | `TextUtils.EpisodeConceptKeepsLastChar` |
| src/App.js:742 | `allKeywordsFilled` is computed but used by no button, so Next leaves the keyword step with every keyword blank | the keyword step with all categories `""` | keep Next disabled on the keyword step until every keyword is filled | not executed | `FrontEndSteps.NextIgnoresKeywords` | `FrontEndSteps.IntendedNextNeedsKeywords` |
