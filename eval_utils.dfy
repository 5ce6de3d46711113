/** `utils/eval_utils.py`: the evaluation of an episode block by block,
    each block after the first seen against the descriptions of the block
    before it, and the reading of the scores out of the evaluations. */
module EvalUtils {
  import opened Wrappers
  import opened Py
  import opened Llm
  import opened Seqs
  import TextUtils

  // ---------------------------------------------------------------------
  // evaluate_scene_block

  /** An entry of `previous_scene_block`. */
  datatype PriorScene = PriorScene(sceneNumber: int, description: string)

  /** The text put before the previous scenes' lines. */
  const ContextIntro: string :=
    "\nTo help you evaluate this scene block in context, here is a summary of the previous scenes:\n\n"

  function DescriptionLine(s: PriorScene): string {
    "Scene " + IntToString(s.sceneNumber) + ": " + s.description
  }

  function DescriptionLines(previous: seq<PriorScene>): (r: seq<string>)
    ensures |r| == |previous|
    ensures forall i :: 0 <= i < |previous| ==> r[i] == DescriptionLine(previous[i])
  {
    seq(|previous|, i requires 0 <= i < |previous| => DescriptionLine(previous[i]))
  }

  /** `context_note`: empty when there is no previous block (absent or
      empty), otherwise the intro and one line per previous scene. */
  function ContextNote(previous: Option<seq<PriorScene>>): string {
    if previous.None? || previous.value == [] then ""
    else ContextIntro + Join(DescriptionLines(previous.value), "\n") + "\n"
  }

  /** The note is empty exactly when there is no previous scene; otherwise
      the lines between the intro and the final line break are one per
      previous scene, and split back into them when no description holds a
      line break. */
  lemma ContextNoteCases(previous: Option<seq<PriorScene>>)
    ensures ContextNote(previous) == "" <==> previous.None? || previous.value == []
    ensures ContextNote(previous) != "" ==>
      var note := ContextNote(previous);
      |ContextIntro| < |note| && StartsWith(note, ContextIntro) && note[|note| - 1] == '\n' &&
      ((forall i :: 0 <= i < |previous.value| ==> '\n' !in previous.value[i].description) ==>
         Split(note[|ContextIntro|..|note| - 1], "\n") == DescriptionLines(previous.value))
  {
    if ContextNote(previous) != "" {
      var note := ContextNote(previous);
      var lines := DescriptionLines(previous.value);
      var body := Join(lines, "\n");
      assert note == ContextIntro + body + "\n";
      assert note[..|ContextIntro|] == ContextIntro;
      assert note[|ContextIntro|..|note| - 1] == body;
      if forall i :: 0 <= i < |previous.value| ==> '\n' !in previous.value[i].description {
        forall i | 0 <= i < |lines|
          ensures '\n' !in lines[i]
        {
          DescriptionLineFree(previous.value[i]);
        }
        SplitJoinChar(lines, '\n');
      }
    }
  }

  /** A scene's line holds a line break only where its description does. */
  lemma DescriptionLineFree(s: PriorScene)
    requires '\n' !in s.description
    ensures '\n' !in DescriptionLine(s)
  {
    var n := IntToString(s.sceneNumber);
    assert '\n' !in n by {
      if s.sceneNumber < 0 {
        assert n == "-" + NatToString(-s.sceneNumber);
      }
    }
    assert DescriptionLine(s) == "Scene " + n + ": " + s.description;
  }

  /** The request for one block: the concept, the context note and the
      scenes joined by blank lines. */
  function BlockRequest(scenes: seq<string>, concept: string, previous: Option<seq<PriorScene>>): Prompt {
    BlockEvaluationPrompt(concept, ContextNote(previous), Join(scenes, "\n\n"))
  }

  /** `evaluate_scene_block`: one request; a reply without content raises,
      any other is returned stripped. */
  method EvaluateSceneBlock(llm: Provider, scenes: seq<string>, concept: string, previous: Option<seq<PriorScene>>)
    returns (r: Result<string>)
    modifies llm
    ensures llm.prompts == old(llm.prompts) + [BlockRequest(scenes, concept, previous)]
    ensures llm.script == Rest(old(llm.script))
    ensures r == CheckedReply(Next(old(llm.script)))
  {
    var note := ContextNote(previous);
    var reply := llm.Complete(BlockEvaluationPrompt(concept, note, Join(scenes, "\n\n")));
    if !HasContent(reply) {
      return Err(ReplyFailure(reply));
    }
    r := Ok(Strip(reply.text));
  }

  // ---------------------------------------------------------------------
  // evaluate_episode_blocks

  function BlockName(k: int): string {
    "scene_block_" + IntToString(k)
  }

  /** The names `scene_block_1` to `scene_block_n`. */
  function BlockNames(n: nat): (r: seq<string>)
    ensures |r| == n
    ensures forall j :: 0 <= j < n ==> r[j] == BlockName(j + 1)
  {
    seq(n, j requires 0 <= j < n => BlockName(j + 1))
  }

  lemma BlockNamesDistinct(n: nat)
    ensures forall i, j :: 0 <= i < j < n ==> BlockNames(n)[i] != BlockNames(n)[j]
  {
    forall i, j | 0 <= i < j < n
      ensures BlockNames(n)[i] != BlockNames(n)[j]
    {
      var a := NatToString(i + 1);
      var b := NatToString(j + 1);
      assert BlockName(i + 1) == "scene_block_" + a;
      assert BlockName(j + 1) == "scene_block_" + b;
      if a == b {
        DigitsValueOfNatToString(i + 1);
        DigitsValueOfNatToString(j + 1);
      }
      assert a != b;
      assert ("scene_block_" + a)[12..] == a;
      assert ("scene_block_" + b)[12..] == b;
    }
  }

  /** What block `k` is evaluated with: its scenes, and from the second
      block on the descriptions of the block before it; a missing key
      raises before any request. */
  function BlockPrompt(scriptBlocks: seq<(string, seq<string>)>, descriptionBlocks: seq<(string, seq<PriorScene>)>,
                       concept: string, k: nat): Result<Prompt>
    requires 1 <= k
  {
    match Get(scriptBlocks, BlockName(k))
    case None => Err(MissingKey(BlockName(k)))
    case Some(scenes) =>
      if k == 1 then Ok(BlockRequest(scenes, concept, None))
      else
        match Get(descriptionBlocks, BlockName(k - 1))
        case None => Err(MissingKey(BlockName(k - 1)))
        case Some(previous) => Ok(BlockRequest(scenes, concept, Some(previous)))
  }

  /** The first block is sent with no context note; a later one with the
      note of the descriptions stored under the name of the block before. */
  lemma BlockContext(scriptBlocks: seq<(string, seq<string>)>, descriptionBlocks: seq<(string, seq<PriorScene>)>,
                     concept: string, k: nat)
    requires 1 <= k
    ensures BlockPrompt(scriptBlocks, descriptionBlocks, concept, k).Ok? <==>
      BlockName(k) in Keys(scriptBlocks) && (k == 1 || BlockName(k - 1) in Keys(descriptionBlocks))
    ensures BlockPrompt(scriptBlocks, descriptionBlocks, concept, k).Ok? && k == 1 ==>
      BlockPrompt(scriptBlocks, descriptionBlocks, concept, k).value.contextNote == ""
    ensures BlockPrompt(scriptBlocks, descriptionBlocks, concept, k).Ok? && k > 1 ==>
      BlockPrompt(scriptBlocks, descriptionBlocks, concept, k).value.contextNote ==
        ContextNote(Some(Get(descriptionBlocks, BlockName(k - 1)).value))
  {
  }

  /** The evaluation block `k` gets, read from the reply to the `k`-th
      request. */
  function BlockOutcome(script: seq<Reply>, scriptBlocks: seq<(string, seq<string>)>,
                        descriptionBlocks: seq<(string, seq<PriorScene>)>, concept: string, k: nat): Result<string>
    requires 1 <= k
  {
    if BlockPrompt(scriptBlocks, descriptionBlocks, concept, k).Err? then
      Err(BlockPrompt(scriptBlocks, descriptionBlocks, concept, k).error)
    else CheckedReply(ReplyAt(script, k - 1))
  }

  function BlockOutcomes(script: seq<Reply>, scriptBlocks: seq<(string, seq<string>)>,
                         descriptionBlocks: seq<(string, seq<PriorScene>)>, concept: string, n: nat)
    : (r: seq<Result<string>>)
    ensures |r| == n
    ensures forall j :: 0 <= j < n ==> r[j] == BlockOutcome(script, scriptBlocks, descriptionBlocks, concept, j + 1)
  {
    seq(n, j requires 0 <= j < n => BlockOutcome(script, scriptBlocks, descriptionBlocks, concept, j + 1))
  }

  /** The requests for the blocks, as far as their keys are present. */
  function BlockPrompts(scriptBlocks: seq<(string, seq<string>)>, descriptionBlocks: seq<(string, seq<PriorScene>)>,
                        concept: string, n: nat): (r: seq<Prompt>)
    ensures |r| == n
  {
    seq(n, j requires 0 <= j < n =>
      var p := BlockPrompt(scriptBlocks, descriptionBlocks, concept, j + 1);
      if p.Ok? then p.value else BlockEvaluationPrompt(concept, "", ""))
  }

  /** The dictionary `evaluate_episode_blocks` returns. */
  function EpisodeEvaluations(script: seq<Reply>, scriptBlocks: seq<(string, seq<string>)>,
                              descriptionBlocks: seq<(string, seq<PriorScene>)>, concept: string)
    : Result<seq<(string, string)>>
  {
    var n := |scriptBlocks|;
    Gather(BlockNames(n), BlockOutcomes(script, scriptBlocks, descriptionBlocks, concept, n), n)
  }

  /** A block's evaluation is read exactly when its keys are present and
      its reply has content, and is then that reply stripped. */
  lemma BlockOutcomeCases(script: seq<Reply>, scriptBlocks: seq<(string, seq<string>)>,
                          descriptionBlocks: seq<(string, seq<PriorScene>)>, concept: string, k: nat)
    requires 1 <= k
    ensures BlockOutcome(script, scriptBlocks, descriptionBlocks, concept, k).Ok? <==>
      BlockPrompt(scriptBlocks, descriptionBlocks, concept, k).Ok? && HasContent(ReplyAt(script, k - 1))
    ensures BlockOutcome(script, scriptBlocks, descriptionBlocks, concept, k).Ok? ==>
      BlockOutcome(script, scriptBlocks, descriptionBlocks, concept, k).value == Strip(ReplyAt(script, k - 1).text)
  {
  }

  /** The dictionary of a completed evaluation: `scene_block_k` holding the
      `k`-th reply stripped, for `k` from 1 to `n`, in that order. */
  function Evaluated(script: seq<Reply>, n: nat): (r: seq<(string, string)>)
    ensures |r| == n
  {
    seq(n, j requires 0 <= j < n => (BlockName(j + 1), ReplyText(ReplyAt(script, j))))
  }

  /** The stripped text of a reply, empty for one without content. */
  function ReplyText(reply: Reply): string {
    if reply.Content? then Strip(reply.text) else ""
  }

  /** The evaluation completes exactly when every key looked up is present
      and every reply has content, and its result then holds the blocks in
      order, each with its own reply stripped. */
  lemma EpisodeEvaluationsShape(script: seq<Reply>, scriptBlocks: seq<(string, seq<string>)>,
                                descriptionBlocks: seq<(string, seq<PriorScene>)>, concept: string)
    ensures EpisodeEvaluations(script, scriptBlocks, descriptionBlocks, concept).Ok? <==>
      forall k :: 1 <= k <= |scriptBlocks| ==>
        BlockPrompt(scriptBlocks, descriptionBlocks, concept, k).Ok? && HasContent(ReplyAt(script, k - 1))
    ensures EpisodeEvaluations(script, scriptBlocks, descriptionBlocks, concept).Ok? ==>
      EpisodeEvaluations(script, scriptBlocks, descriptionBlocks, concept).value == Evaluated(script, |scriptBlocks|)
  {
    var n := |scriptBlocks|;
    var names := BlockNames(n);
    var outcomes := BlockOutcomes(script, scriptBlocks, descriptionBlocks, concept, n);
    forall k | 1 <= k <= n
      ensures outcomes[k - 1].Ok? <==>
        BlockPrompt(scriptBlocks, descriptionBlocks, concept, k).Ok? && HasContent(ReplyAt(script, k - 1))
      ensures outcomes[k - 1].Ok? ==> outcomes[k - 1].value == Strip(ReplyAt(script, k - 1).text)
    {
      BlockOutcomeCases(script, scriptBlocks, descriptionBlocks, concept, k);
    }
    GatherSucceed(names, outcomes, n);
    BlockNamesDistinct(n);
    GatherDistinct(names, outcomes, n);
    var r := Gather(names, outcomes, n);
    if r.Ok? {
      forall j | 0 <= j < n
        ensures r.value[j] == Evaluated(script, n)[j]
      {
        assert outcomes[(j + 1) - 1].Ok?;
      }
    }
  }

  /** `evaluate_episode_blocks`: one request per block in the order of the
      block numbers, the results gathered under the block names. The
      dictionary's keys are distinct, so its entries count its blocks. */
  method EvaluateEpisodeBlocks(llm: Provider, scriptBlocks: seq<(string, seq<string>)>,
                               descriptionBlocks: seq<(string, seq<PriorScene>)>, concept: string)
    returns (r: Result<seq<(string, string)>>)
    requires Distinct(Keys(scriptBlocks))
    modifies llm
    ensures r == EpisodeEvaluations(old(llm.script), scriptBlocks, descriptionBlocks, concept)
    ensures r.Ok? ==>
      llm.prompts == old(llm.prompts) + BlockPrompts(scriptBlocks, descriptionBlocks, concept, |scriptBlocks|) &&
      llm.script == Drop(old(llm.script), |scriptBlocks|)
  {
    var n := |scriptBlocks|;
    ghost var names := BlockNames(n);
    ghost var outcomes := BlockOutcomes(old(llm.script), scriptBlocks, descriptionBlocks, concept, n);
    ghost var prompts := BlockPrompts(scriptBlocks, descriptionBlocks, concept, n);
    var results: seq<(string, string)> := [];
    for k := 1 to n + 1
      invariant Gather(names, outcomes, k - 1) == Ok(results)
      invariant llm.prompts == old(llm.prompts) + prompts[..k - 1]
      invariant llm.script == Drop(old(llm.script), k - 1)
    {
      var scenes := Get(scriptBlocks, BlockName(k));
      if scenes.None? {
        GatherStopAtFailure(names, outcomes, k, n);
        return Err(MissingKey(BlockName(k)));
      }
      var result;
      if k == 1 {
        result := EvaluateSceneBlock(llm, scenes.value, concept, None);
      } else {
        var previous := Get(descriptionBlocks, BlockName(k - 1));
        if previous.None? {
          GatherStopAtFailure(names, outcomes, k, n);
          return Err(MissingKey(BlockName(k - 1)));
        }
        result := EvaluateSceneBlock(llm, scenes.value, concept, previous);
      }
      DropNext(old(llm.script), k - 1);
      if result.Err? {
        GatherStopAtFailure(names, outcomes, k, n);
        return Err(result.error);
      }
      results := Put(results, BlockName(k), result.value);
      TakeNext(prompts, k - 1);
      AppendAfter(old(llm.prompts), prompts[..k - 1], prompts[k - 1]);
    }
    assert prompts[..n] == prompts;
    r := Ok(results);
  }

  // ---------------------------------------------------------------------
  // extract_evaluation_scores

  /** A character `\w` matches (the ASCII part of it). */
  predicate IsWordChar(c: char) {
    'a' <= c <= 'z' || 'A' <= c <= 'Z' || IsDigit(c) || c == '_'
  }

  /** A character `[\w ]` matches. */
  predicate IsNameChar(c: char) {
    IsWordChar(c) || c == ' '
  }

  /** The end of the longest run of `[\w ]` from `from`. */
  function NameRunEnd(line: string, from: nat): (r: nat)
    requires from <= |line|
    ensures from <= r <= |line|
    ensures forall i :: from <= i < r ==> IsNameChar(line[i])
    ensures r < |line| ==> !IsNameChar(line[r])
    decreases |line| - from
  {
    if from < |line| && IsNameChar(line[from]) then NameRunEnd(line, from + 1) else from
  }

  /** The end of the text `.` can match from `from`: up to the first
      `\n`. */
  function LineEnd(line: string, from: nat): (r: nat)
    requires from <= |line|
    ensures from <= r <= |line|
    ensures forall i :: from <= i < r ==> line[i] != '\n'
    ensures r < |line| ==> line[r] == '\n'
    decreases |line| - from
  {
    if from < |line| && line[from] != '\n' then LineEnd(line, from + 1) else from
  }

  /** The separator between the score and the justification: an en dash
      between two spaces. */
  const Dash: string := " \U{2013} "

  /** The three groups of `re.match(r"- (\w[\w ]+): (\d+) – (.+)", line)`,
      or `None` when the line does not match. Backtracking cannot help
      either run: a shorter name run is followed by a name character, not
      by `:`, and a shorter digit run by a digit, not by a space, so the
      match uses the longest runs or fails. */
  function MatchScoreLine(line: string): (r: Option<(string, string, string)>)
    ensures r.Some? ==> StartsWith(line, "- ") && AllDigits(r.value.1)
  {
    if !(StartsWith(line, "- ") && 2 < |line| && IsWordChar(line[2])) then None
    else
      var e := NameRunEnd(line, 3);
      if e < 4 || !OccursAt(line, ": ", e) then None
      else
        var d := TextUtils.DigitRunEnd(line, e + 2);
        if d == e + 2 || !OccursAt(line, Dash, d) then None
        else
          var t := d + |Dash|;
          var end := LineEnd(line, t);
          if end == t then None
          else Some((line[2..e], line[e + 2..d], line[t..end]))
  }

  /** The groups read as `extract_evaluation_scores` reads them: the
      criterion stripped, the score as an integer, the justification
      stripped. */
  function ParseScoreLine(line: string): (r: Option<(string, nat, string)>)
    ensures r.Some? <==> MatchScoreLine(line).Some?
  {
    var m := MatchScoreLine(line);
    if m.None? then None
    else Some((Strip(m.value.0), DigitsValue(m.value.1), Strip(m.value.2)))
  }

  /** A criterion the pattern accepts: a word character, then at least one
      more word character or space. */
  predicate IsCriterion(c: string) {
    2 <= |c| && IsWordChar(c[0]) && forall i :: 0 <= i < |c| ==> IsNameChar(c[i])
  }

  /** A line in the format the prompt asks for. */
  function ScoreLine(criterion: string, score: nat, justification: string): string {
    "- " + criterion + ": " + NatToString(score) + Dash + justification
  }

  /** The five criteria the prompt lists. */
  const Criteria: seq<string> := ["Coherence", "Relevance", "Interestingness", "Humor", "Overall Quality"]

  lemma CriteriaAccepted()
    ensures forall i :: 0 <= i < |Criteria| ==> IsCriterion(Criteria[i])
  {
    forall i | 0 <= i < |Criteria|
      ensures IsCriterion(Criteria[i])
    {
      var c := Criteria[i];
      assert forall j :: 0 <= j < |c| ==> IsNameChar(c[j]);
    }
  }

  /** A line read at given boundaries: the name run ends at `e`, the
      digit run at `d`, and the justification runs to the end. */
  lemma MatchScoreLineAt(line: string, e: nat, d: nat)
    requires 4 <= e && e + 2 < d && d + |Dash| < |line|
    requires StartsWith(line, "- ") && IsWordChar(line[2])
    requires forall i :: 3 <= i < e ==> IsNameChar(line[i])
    requires OccursAt(line, ": ", e)
    requires forall i :: e + 2 <= i < d ==> IsDigit(line[i])
    requires OccursAt(line, Dash, d)
    requires forall i :: d + |Dash| <= i < |line| ==> line[i] != '\n'
    ensures MatchScoreLine(line) == Some((line[2..e], line[e + 2..d], line[d + |Dash|..]))
  {
    assert |Dash| == 3;
    assert line[e] == ':' by {
      assert line[e..e + 2][0] == line[e];
    }
    assert line[d] == ' ' by {
      assert line[d..d + |Dash|][0] == line[d];
    }
    NameRunEndAt(line, 3, e);
    DigitRunEndAt(line, e + 2, d);
    LineEndAt(line, d + |Dash|);
    assert line[d + |Dash|..|line|] == line[d + |Dash|..];
  }

  /** A line written in the requested format reads back as its criterion
      and justification stripped and its score. */
  lemma ParseScoreLineRoundTrip(criterion: string, score: nat, justification: string)
    requires IsCriterion(criterion)
    requires justification != [] && '\n' !in justification
    ensures ParseScoreLine(ScoreLine(criterion, score, justification)) ==
      Some((Strip(criterion), score, Strip(justification)))
  {
    var digits := NatToString(score);
    var line := ScoreLine(criterion, score, justification);
    var e := 2 + |criterion|;
    var d := e + 2 + |digits|;
    var t := d + |Dash|;
    assert line == "- " + criterion + ": " + digits + Dash + justification;
    assert line[2..e] == criterion;
    assert line[e + 2..d] == digits;
    assert line[t..] == justification;
    assert OccursAt(line, ": ", e) by {
      assert line[e..e + 2] == ": ";
    }
    assert OccursAt(line, Dash, d) by {
      assert line[d..t] == Dash;
    }
    forall i | 3 <= i < e
      ensures IsNameChar(line[i])
    {
      assert line[i] == criterion[i - 2];
    }
    forall i | e + 2 <= i < d
      ensures IsDigit(line[i])
    {
      assert line[i] == digits[i - (e + 2)];
    }
    forall i | t <= i < |line|
      ensures line[i] != '\n'
    {
      assert line[i] == justification[i - t];
    }
    MatchScoreLineAt(line, e, d);
    DigitsValueOfNatToString(score);
  }

  lemma NameRunEndAt(line: string, from: nat, e: nat)
    requires from <= e <= |line|
    requires forall i :: from <= i < e ==> IsNameChar(line[i])
    requires e < |line| && !IsNameChar(line[e])
    ensures NameRunEnd(line, from) == e
  {
  }

  lemma DigitRunEndAt(line: string, from: nat, d: nat)
    requires from <= d <= |line|
    requires forall i :: from <= i < d ==> IsDigit(line[i])
    requires d < |line| && !IsDigit(line[d])
    ensures TextUtils.DigitRunEnd(line, from) == d
  {
  }

  lemma LineEndAt(line: string, from: nat)
    requires from <= |line|
    requires forall i :: from <= i < |line| ==> line[i] != '\n'
    ensures LineEnd(line, from) == |line|
  {
  }

  /** A row of the table. */
  datatype ScoreRow = ScoreRow(
    episode: int,
    version: string,
    sceneBlock: string,
    criterion: string,
    score: nat,
    justification: string)

  /** The rows one line gives: one when it matches, none otherwise. */
  function LineRows(episode: int, version: string, blockName: string, line: string): seq<ScoreRow> {
    match ParseScoreLine(line)
    case Some(m) => [ScoreRow(episode, version, blockName, m.0, m.1, m.2)]
    case None => []
  }

  function LineRowsOf(episode: int, version: string, blockName: string): string -> seq<ScoreRow> {
    line => LineRows(episode, version, blockName, line)
  }

  /** The rows of one block: its lines' rows in order. */
  function BlockRows(episode: int, version: string, block: (string, string)): seq<ScoreRow> {
    FlatMap(SplitLines(block.1), LineRowsOf(episode, version, block.0))
  }

  function BlockRowsOf(episode: int, version: string): ((string, string)) -> seq<ScoreRow> {
    block => BlockRows(episode, version, block)
  }

  /** The rows of the table: the blocks' rows in the order of the
      dictionary. */
  function ScoreRows(evaluations: seq<(string, string)>, episode: int, version: string): seq<ScoreRow> {
    FlatMap(evaluations, BlockRowsOf(episode, version))
  }

  /** The table lists the blocks one after the other. */
  lemma ScoreRowsAppend(a: seq<(string, string)>, b: seq<(string, string)>, episode: int, version: string)
    ensures ScoreRows(a + b, episode, version) == ScoreRows(a, episode, version) + ScoreRows(b, episode, version)
  {
    FlatMapAppend(a, b, BlockRowsOf(episode, version));
  }

  /** A row is in the table exactly when some line of some block matches
      and reads as the row's criterion, score and justification; every row
      carries the episode and version given and the name of its block. */
  lemma ScoreRowsMembers(evaluations: seq<(string, string)>, episode: int, version: string, row: ScoreRow)
    ensures row in ScoreRows(evaluations, episode, version) <==>
      row.episode == episode && row.version == version &&
      exists i :: 0 <= i < |evaluations| && evaluations[i].0 == row.sceneBlock &&
        exists line :: line in SplitLines(evaluations[i].1) && ReadsAs(line, row)
  {
    FlatMapMembers(evaluations, BlockRowsOf(episode, version), row);
    forall i | 0 <= i < |evaluations|
      ensures row in BlockRows(episode, version, evaluations[i]) <==>
        row.episode == episode && row.version == version && evaluations[i].0 == row.sceneBlock &&
        exists line :: line in SplitLines(evaluations[i].1) && ReadsAs(line, row)
    {
      BlockRowsMembers(episode, version, evaluations[i], row);
    }
  }

  lemma BlockRowsMembers(episode: int, version: string, block: (string, string), row: ScoreRow)
    ensures row in BlockRows(episode, version, block) <==>
      row.episode == episode && row.version == version && block.0 == row.sceneBlock &&
      exists line :: line in SplitLines(block.1) && ReadsAs(line, row)
  {
    var lines := SplitLines(block.1);
    var f := LineRowsOf(episode, version, block.0);
    FlatMapMembers(lines, f, row);
    forall i | 0 <= i < |lines|
      ensures row in f(lines[i]) <==>
        row.episode == episode && row.version == version && block.0 == row.sceneBlock && ReadsAs(lines[i], row)
    {
      LineRowsCases(episode, version, block.0, lines[i], row);
    }
    if exists line :: line in lines && ReadsAs(line, row) {
      var line :| line in lines && ReadsAs(line, row);
      var i :| 0 <= i < |lines| && lines[i] == line;
    }
  }

  /** The line matches and reads as the row's criterion, score and
      justification. */
  predicate ReadsAs(line: string, row: ScoreRow) {
    ParseScoreLine(line) == Some((row.criterion, row.score, row.justification))
  }

  lemma LineRowsCases(episode: int, version: string, blockName: string, line: string, row: ScoreRow)
    ensures row in LineRows(episode, version, blockName, line) <==>
      row.episode == episode && row.version == version && blockName == row.sceneBlock && ReadsAs(line, row)
  {
  }

  /** The inner loop of `extract_evaluation_scores`: the lines of one
      block, in order, a row for each line that matches. */
  method ExtractBlockScores(blockName: string, text: string, episode: int, version: string)
    returns (rows: seq<ScoreRow>)
    ensures rows == BlockRows(episode, version, (blockName, text))
  {
    var lines := SplitLines(text);
    ghost var f := LineRowsOf(episode, version, blockName);
    rows := [];
    for i := 0 to |lines|
      invariant rows == FlatMap(lines[..i], f)
    {
      var m := ParseScoreLine(lines[i]);
      FlatMapStep(lines, i, f);
      assert f(lines[i]) == LineRows(episode, version, blockName, lines[i]);
      if m.Some? {
        rows := rows + [ScoreRow(episode, version, blockName, m.value.0, m.value.1, m.value.2)];
      }
    }
    assert lines[..|lines|] == lines;
  }

  /** `extract_evaluation_scores`: every block in the order of the
      dictionary, a row for each of its lines that matches. */
  method ExtractEvaluationScores(evaluations: seq<(string, string)>, episode: int, version: string)
    returns (rows: seq<ScoreRow>)
    ensures rows == ScoreRows(evaluations, episode, version)
  {
    ghost var g := BlockRowsOf(episode, version);
    rows := [];
    for b := 0 to |evaluations|
      invariant rows == FlatMap(evaluations[..b], g)
    {
      var (blockName, text) := evaluations[b];
      var blockRows := ExtractBlockScores(blockName, text, episode, version);
      FlatMapStep(evaluations, b, g);
      assert g(evaluations[b]) == BlockRows(episode, version, (blockName, text));
      rows := rows + blockRows;
    }
    assert evaluations[..|evaluations|] == evaluations;
  }
}
