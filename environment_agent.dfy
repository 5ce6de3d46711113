/** `backend/utils/agents/environment_agent.py`: the `EnvironmentAgent`
    ReAct loop (think, act, observe, recommend) and the parser that reads
    the environment name out of the analysis. The agent keeps one list of
    thoughts for its whole life: every step that completes appends one. */
module EnvironmentAgents {
  import opened Wrappers
  import opened Py
  import opened Llm
  import opened Characters
  import SceneMemory
  import opened EnvironmentHelpers
  import opened Seqs

  const EnvironmentLabel := "Environment:"

  /** The last line whose stripped form starts with the label. */
  function LastEnvironmentLine(lines: seq<string>): (r: Option<string>)
    ensures r.Some? ==> Labelled(r.value, EnvironmentLabel) && Contains(r.value, ":")
  {
    if lines == [] then None
    else if Labelled(lines[|lines| - 1], EnvironmentLabel) then
      LabelledHasColon(lines[|lines| - 1], EnvironmentLabel);
      Some(lines[|lines| - 1])
    else LastEnvironmentLine(lines[..|lines| - 1])
  }

  /** The line is the one a search from the end with the label test finds. */
  lemma {:induction false} LastEnvironmentLineSearch(lines: seq<string>)
    ensures LastEnvironmentLine(lines) ==
      match LastWhere(lines, LabelTest(EnvironmentLabel))
      case None => None
      case Some(i) => Some(lines[i])
    decreases |lines|
  {
    if lines != [] && !Labelled(lines[|lines| - 1], EnvironmentLabel) {
      LastEnvironmentLineSearch(lines[..|lines| - 1]);
    }
  }

  /** The environment named by the lines: the text after the first colon
      of the last labelled line, stripped, or `""` when no line is labelled. */
  function EnvironmentOfLines(lines: seq<string>): string {
    match LastEnvironmentLine(lines)
    case None => ""
    case Some(line) => FieldText(line)
  }

  function EnvironmentOf(analysis: string): string {
    EnvironmentOfLines(Split(analysis, "\n"))
  }

  lemma EnvironmentOfLinesStep(lines: seq<string>, i: nat)
    requires i < |lines|
    ensures Labelled(lines[i], EnvironmentLabel) ==>
      Contains(lines[i], ":") && EnvironmentOfLines(lines[..i + 1]) == FieldText(lines[i])
    ensures !Labelled(lines[i], EnvironmentLabel) ==>
      EnvironmentOfLines(lines[..i + 1]) == EnvironmentOfLines(lines[..i])
  {
    assert lines[..i + 1][..i] == lines[..i];
    if Labelled(lines[i], EnvironmentLabel) {
      LabelledHasColon(lines[i], EnvironmentLabel);
    }
  }

  /** The loop of `act`, which overwrites the environment at every labelled
      line. */
  method ParseEnvironment(analysis: string) returns (environment: string)
    ensures environment == EnvironmentOf(analysis)
  {
    var lines := Split(analysis, "\n");
    environment := "";
    for i := 0 to |lines|
      invariant environment == EnvironmentOfLines(lines[..i])
    {
      EnvironmentOfLinesStep(lines, i);
      if Labelled(lines[i], EnvironmentLabel) {
        environment := FieldText(lines[i]);
      }
    }
    assert lines[..|lines|] == lines;
  }

  /** The label's colon is the first colon of a line that starts with it. */
  lemma FirstColonOfLabel(rest: string)
    ensures Find(EnvironmentLabel + rest, ":") == Some(|EnvironmentLabel| - 1)
  {
    var line := EnvironmentLabel + rest;
    var k := |EnvironmentLabel| - 1;
    assert line[k..k + 1] == ":";
    assert OccursAt(line, ":", k);
    forall j | 0 <= j < k
      ensures !OccursAt(line, ":", j)
    {
      assert line[j] == EnvironmentLabel[j] != ':';
      assert line[j..j + 1][0] == line[j];
    }
  }

  /** Round trip: an analysis of one labelled line gives back the location
      it names. */
  lemma EnvironmentOfLine(location: string)
    requires '\n' !in location && Strip(location) == location
    ensures EnvironmentOf(EnvironmentLabel + " " + location) == location
  {
    var line := EnvironmentLabel + " " + location;
    SingleLine(location);
    FieldOfLine(location);
    EnvironmentOfOne(line);
  }

  lemma EnvironmentOfOne(line: string)
    requires Labelled(line, EnvironmentLabel)
    ensures Contains(line, ":") && EnvironmentOfLines([line]) == FieldText(line)
  {
    LabelledHasColon(line, EnvironmentLabel);
    assert [line][|[line]| - 1] == line;
  }

  lemma SingleLine(location: string)
    requires '\n' !in location
    ensures Split(EnvironmentLabel + " " + location, "\n") == [EnvironmentLabel + " " + location]
  {
    var line := EnvironmentLabel + " " + location;
    assert forall j :: 0 <= j < |line| ==> line[j] != '\n' by {
      assert forall j :: |EnvironmentLabel| + 1 <= j < |line| ==> line[j] == location[j - |EnvironmentLabel| - 1];
    }
    SplitNoChar(line, '\n');
  }

  lemma FieldOfLine(location: string)
    requires Strip(location) == location
    ensures Labelled(EnvironmentLabel + " " + location, EnvironmentLabel)
    ensures Contains(EnvironmentLabel + " " + location, ":")
    ensures FieldText(EnvironmentLabel + " " + location) == location
  {
    var rest := " " + location;
    var line := EnvironmentLabel + rest;
    assert EnvironmentLabel + " " + location == line;
    LabelledLine(rest);
    FirstColonOfLabel(rest);
    assert line[|EnvironmentLabel|..] == rest;
    StripLeading(" ", location, Space);
  }

  lemma LabelledLine(rest: string)
    ensures Labelled(EnvironmentLabel + rest, EnvironmentLabel)
  {
    var line := EnvironmentLabel + rest;
    assert line[..|EnvironmentLabel|] == EnvironmentLabel;
    StripKeepsPrefix(line, EnvironmentLabel, Space);
  }

  /** `list(range(max(1, n - k), n))` */
  function SceneRange(n: int, k: int): seq<int> {
    var start := if n - k > 1 then n - k else 1;
    if start >= n then [] else seq(n - start, i requires 0 <= i < n - start => start + i)
  }

  /** The range is ascending and holds exactly the scene numbers from 1 up
      to but excluding `n` that are at most `k` before it: empty for
      `n <= 1`, never more than `k` of them. */
  lemma SceneRangeFacts(n: int, k: int)
    ensures var r := SceneRange(n, k);
      (forall x :: x in r <==> 1 <= x < n && n - k <= x) &&
      (forall i :: 0 < i < |r| ==> r[i] == r[i - 1] + 1) &&
      (n <= 1 ==> r == []) &&
      (k >= 0 ==> |r| <= k)
  {
    var r := SceneRange(n, k);
    var start := if n - k > 1 then n - k else 1;
    forall x | 1 <= x < n && n - k <= x
      ensures x in r
    {
      assert r[x - start] == x;
    }
  }

  /** The prior locations `observe` hands on: one per record, in order. */
  function Locations(records: seq<SceneMemory.SceneRecord>): (r: seq<Option<string>>)
    ensures |r| == |records|
    ensures forall i :: 0 <= i < |records| ==> r[i] == records[i].location
  {
    seq(|records|, i requires 0 <= i < |records| => records[i].location)
  }

  /** The thoughts, as the data their f-strings carry. */
  datatype Thought =
    | Retrieved(sceneRange: seq<int>, sceneNumber: int)  // "Think: Retrieved ... from scene(s) ..."
    | Analyzed(sceneNumber: int)                        // "Act: Analyzed environment features ..."
    | Judged(consistent: bool)                          // "Observe: Scene transition is ..."
    | Suggested                                         // "Recommend: Provided ... suggestions."

  /** The dictionary `act` returns. */
  datatype Context = Context(analysis: string, environment: string)

  function ActOutcome(reply: Reply): Result<Context> {
    match CheckedReply(reply)
    case Err(e) => Err(e)
    case Ok(analysis) => Ok(Context(analysis, EnvironmentOf(analysis)))
  }

  /** The five values `run` returns. */
  datatype RunResult = RunResult(
    context: Context,
    isConsistent: bool,
    explanation: string,
    suggestions: string,
    thoughts: seq<Thought>)

  /** What a completed run computes: the context `act` returns, the
      transition `observe` reads and the suggestions `recommend` returns. */
  datatype RunValues = RunValues(context: Context, transition: Transition, suggestions: string)

  /** A run as the replies and the window text lead it: its outcome, the
      thoughts it adds, the prompts it sends and the replies it draws. */
  datatype RunTrace = RunTrace(outcome: Result<RunValues>, added: seq<Thought>, sent: seq<Prompt>, used: nat)

  /** The run's steps in order, each cut short by the first failure: what
      `act` makes of the analysis reply, the window text (built before the
      transition request), what `observe` reads from the transition reply
      and what `recommend` makes of the suggestions reply. */
  function RunTraceOf(act: Result<Context>, text: Result<string>, transition: Result<Transition>,
                      suggestions: Result<string>, scene: string, sceneNumber: int, numScenes: int): RunTrace
  {
    var think := Retrieved(SceneRange(sceneNumber, numScenes), sceneNumber);
    var analysisPrompt := EnvironmentAnalysisPrompt(scene, sceneNumber);
    if act.Err? then RunTrace(Err(act.error), [think], [analysisPrompt], 1)
    else if text.Err? then RunTrace(Err(NotIterable), [think, Analyzed(sceneNumber)], [analysisPrompt], 1)
    else
      var transitionPrompt := TransitionPrompt(text.value, act.value.environment, numScenes);
      if transition.Err? then
        RunTrace(Err(transition.error), [think, Analyzed(sceneNumber)], [analysisPrompt, transitionPrompt], 2)
      else
        var t := transition.value;
        var sent := [analysisPrompt, transitionPrompt,
                     EnvironmentDetailsPrompt(act.value.analysis, Text(t.output), ConsistencyNote(t.isConsistent))];
        if suggestions.Err? then
          RunTrace(Err(suggestions.error), [think, Analyzed(sceneNumber), Judged(t.isConsistent)], sent, 3)
        else
          RunTrace(Ok(RunValues(act.value, t, suggestions.value)),
                   [think, Analyzed(sceneNumber), Judged(t.isConsistent), Suggested], sent, 3)
  }

  /** The run the three replies `script` begins with lead to. */
  function RunTraceOfReplies(script: seq<Reply>, text: Result<string>, scene: string, sceneNumber: int,
                             numScenes: int): RunTrace
  {
    RunTraceOf(ActOutcome(Next(script)), text, TransitionOutcome(Next(Rest(script))),
               CheckedReply(Next(Rest(Rest(script)))), scene, sceneNumber, numScenes)
  }

  /** What `run` returns: the error of the step that failed, or the
      computed values with the agent's thought list. */
  function Returned(outcome: Result<RunValues>, thoughts: seq<Thought>): (r: Result<RunResult>)
    ensures outcome.Err? <==> r.Err?
    ensures outcome.Err? ==> r.error == outcome.error
    ensures outcome.Ok? ==>
      r.value.context == outcome.value.context &&
      r.value.isConsistent == outcome.value.transition.isConsistent &&
      r.value.explanation == outcome.value.transition.explanation &&
      r.value.suggestions == outcome.value.suggestions &&
      r.value.thoughts == thoughts
  {
    match outcome
    case Err(e) => Err(e)
    case Ok(v) => Ok(RunResult(v.context, v.transition.isConsistent, v.transition.explanation, v.suggestions, thoughts))
  }

  /** A run completes exactly when its three replies have content and the
      window text can be built; it then adds the four thoughts, sends the
      three prompts, and returns the stripped analysis with the environment
      parsed from it, the verdict and explanation read from the stripped
      transition reply, and the stripped suggestions. A run cut short adds
      the thoughts of the steps that finished, the think thought first,
      and fails with the error of the first reply without content, or as
      the window text does. */
  lemma RunTraceCases(script: seq<Reply>, text: Result<string>, scene: string, sceneNumber: int,
                      numScenes: int)
    ensures var trace := RunTraceOfReplies(script, text, scene, sceneNumber, numScenes);
      var think := Retrieved(SceneRange(sceneNumber, numScenes), sceneNumber);
      var (a, b, c) := (Next(script), Next(Rest(script)), Next(Rest(Rest(script))));
      (trace.outcome.Ok? <==> HasContent(a) && text.Ok? && HasContent(b) && HasContent(c)) &&
      (!HasContent(a) ==>
        trace.outcome == Err(ReplyFailure(a)) && trace.added == [think] && trace.used == 1) &&
      (HasContent(a) && text.Err? ==>
        trace.outcome == Err(NotIterable) && trace.added == [think, Analyzed(sceneNumber)] && trace.used == 1) &&
      (HasContent(a) && text.Ok? && !HasContent(b) ==>
        trace.outcome == Err(ReplyFailure(b)) && trace.added == [think, Analyzed(sceneNumber)] &&
        trace.used == 2) &&
      (HasContent(a) && text.Ok? && HasContent(b) && !HasContent(c) ==>
        trace.outcome == Err(ReplyFailure(c)) && trace.used == 3 &&
        trace.added == [think, Analyzed(sceneNumber), Judged(TransitionOf(Strip(b.text)).isConsistent)]) &&
      (trace.outcome.Ok? ==>
        var v := trace.outcome.value;
        v.context == Context(Strip(a.text), EnvironmentOf(Strip(a.text))) &&
        v.transition == TransitionOf(Strip(b.text)) &&
        v.suggestions == Strip(c.text) &&
        trace.used == 3 &&
        trace.added == [think, Analyzed(sceneNumber), Judged(v.transition.isConsistent), Suggested] &&
        trace.sent == [EnvironmentAnalysisPrompt(scene, sceneNumber),
                       TransitionPrompt(text.value, v.context.environment, numScenes),
                       EnvironmentDetailsPrompt(v.context.analysis, Text(v.transition.output),
                                                ConsistencyNote(v.transition.isConsistent))])
  {
    var (a, b, c) := (Next(script), Next(Rest(script)), Next(Rest(Rest(script))));
    var trace := RunTraceOfReplies(script, text, scene, sceneNumber, numScenes);
    var think := Retrieved(SceneRange(sceneNumber, numScenes), sceneNumber);
    if !HasContent(a) {
      assert ActOutcome(a) == Err(ReplyFailure(a));
      return;
    }
    var context := Context(Strip(a.text), EnvironmentOf(Strip(a.text)));
    assert ActOutcome(a) == Ok(context);
    if text.Err? || !HasContent(b) {
      assert text.Ok? ==> TransitionOutcome(b) == Err(ReplyFailure(b));
      return;
    }
    var t := TransitionOf(Strip(b.text));
    assert TransitionOutcome(b) == Ok(t);
    if !HasContent(c) {
      assert CheckedReply(c) == Err(ReplyFailure(c));
      assert trace.added == [think, Analyzed(sceneNumber), Judged(t.isConsistent)];
      return;
    }
    assert CheckedReply(c) == Ok(Strip(c.text));
    assert trace.outcome == Ok(RunValues(context, t, Strip(c.text)));
  }

  /** The state a run leaves, from the replies `script` holds, the window
      text and the thoughts and prompts before it: the thoughts and prompts
      its trace adds, the replies it draws and what it returns. */
  predicate RunEnds(script: seq<Reply>, text: Result<string>, scene: string, sceneNumber: int, numScenes: int,
                    thoughts0: seq<Thought>, prompts0: seq<Prompt>,
                    thoughts: seq<Thought>, prompts: seq<Prompt>, left: seq<Reply>, r: Result<RunResult>)
  {
    var trace := RunTraceOfReplies(script, text, scene, sceneNumber, numScenes);
    thoughts == thoughts0 + trace.added &&
    prompts == prompts0 + trace.sent &&
    left == Drop(script, trace.used) &&
    r == Returned(trace.outcome, thoughts)
  }

  // The state each return of `run` leaves, one lemma per step that can
  // end it, in the terms its steps' contracts give.

  lemma EndsAtAnalysis(script: seq<Reply>, text: Result<string>, scene: string, sceneNumber: int,
                       numScenes: int, t0: seq<Thought>, p0: seq<Prompt>)
    requires ActOutcome(Next(script)).Err?
    ensures RunEnds(script, text, scene, sceneNumber, numScenes, t0, p0,
                    t0 + [Retrieved(SceneRange(sceneNumber, numScenes), sceneNumber)],
                    p0 + [EnvironmentAnalysisPrompt(scene, sceneNumber)],
                    Rest(script), Err(ActOutcome(Next(script)).error))
  {
  }

  lemma EndsAtWindow(script: seq<Reply>, text: Result<string>, scene: string, sceneNumber: int,
                     numScenes: int, t0: seq<Thought>, p0: seq<Prompt>)
    requires ActOutcome(Next(script)).Ok? && text.Err?
    ensures RunEnds(script, text, scene, sceneNumber, numScenes, t0, p0,
                    t0 + [Retrieved(SceneRange(sceneNumber, numScenes), sceneNumber)] + [Analyzed(sceneNumber)],
                    p0 + [EnvironmentAnalysisPrompt(scene, sceneNumber)],
                    Rest(script), Err(NotIterable))
  {
    AppendTwo(t0, Retrieved(SceneRange(sceneNumber, numScenes), sceneNumber), Analyzed(sceneNumber));
  }

  lemma EndsAtTransition(script: seq<Reply>, text: Result<string>, scene: string, sceneNumber: int,
                         numScenes: int, t0: seq<Thought>, p0: seq<Prompt>)
    requires ActOutcome(Next(script)).Ok? && text.Ok? && TransitionOutcome(Next(Rest(script))).Err?
    ensures RunEnds(script, text, scene, sceneNumber, numScenes, t0, p0,
                    t0 + [Retrieved(SceneRange(sceneNumber, numScenes), sceneNumber)] + [Analyzed(sceneNumber)],
                    p0 + [EnvironmentAnalysisPrompt(scene, sceneNumber)] +
                      [TransitionPrompt(text.value, ActOutcome(Next(script)).value.environment, numScenes)],
                    Rest(Rest(script)), Err(TransitionOutcome(Next(Rest(script))).error))
  {
    var think := Retrieved(SceneRange(sceneNumber, numScenes), sceneNumber);
    var context := ActOutcome(Next(script)).value;
    var sent := [EnvironmentAnalysisPrompt(scene, sceneNumber), TransitionPrompt(text.value, context.environment, numScenes)];
    var trace := RunTraceOfReplies(script, text, scene, sceneNumber, numScenes);
    assert trace == RunTrace(Err(TransitionOutcome(Next(Rest(script))).error), [think, Analyzed(sceneNumber)], sent, 2);
    DropNext(script, 0);
    DropNext(script, 1);
    AppendTwo(t0, think, Analyzed(sceneNumber));
    AppendTwo(p0, sent[0], sent[1]);
  }

  lemma EndsAtRecommend(script: seq<Reply>, text: Result<string>, scene: string, sceneNumber: int,
                        numScenes: int, t0: seq<Thought>, p0: seq<Prompt>)
    requires ActOutcome(Next(script)).Ok? && text.Ok? && TransitionOutcome(Next(Rest(script))).Ok?
    requires CheckedReply(Next(Rest(Rest(script)))).Err?
    ensures var context := ActOutcome(Next(script)).value;
      var t := TransitionOutcome(Next(Rest(script))).value;
      RunEnds(script, text, scene, sceneNumber, numScenes, t0, p0,
              t0 + [Retrieved(SceneRange(sceneNumber, numScenes), sceneNumber)] + [Analyzed(sceneNumber)] +
                [Judged(t.isConsistent)],
              p0 + [EnvironmentAnalysisPrompt(scene, sceneNumber)] +
                [TransitionPrompt(text.value, context.environment, numScenes)] +
                [EnvironmentDetailsPrompt(context.analysis, Text(t.output), ConsistencyNote(t.isConsistent))],
              Rest(Rest(Rest(script))), Err(CheckedReply(Next(Rest(Rest(script)))).error))
  {
    var think := Retrieved(SceneRange(sceneNumber, numScenes), sceneNumber);
    var context := ActOutcome(Next(script)).value;
    var t := TransitionOutcome(Next(Rest(script))).value;
    var sent := [EnvironmentAnalysisPrompt(scene, sceneNumber), TransitionPrompt(text.value, context.environment, numScenes),
                 EnvironmentDetailsPrompt(context.analysis, Text(t.output), ConsistencyNote(t.isConsistent))];
    var trace := RunTraceOfReplies(script, text, scene, sceneNumber, numScenes);
    assert trace == RunTrace(Err(CheckedReply(Next(Rest(Rest(script)))).error),
                             [think, Analyzed(sceneNumber), Judged(t.isConsistent)], sent, 3);
    DropNext(script, 0);
    DropNext(script, 1);
    DropNext(script, 2);
    AppendThree(t0, think, Analyzed(sceneNumber), Judged(t.isConsistent));
    AppendThree(p0, sent[0], sent[1], sent[2]);
  }

  lemma EndsComplete(script: seq<Reply>, text: Result<string>, scene: string, sceneNumber: int,
                     numScenes: int, t0: seq<Thought>, p0: seq<Prompt>)
    requires ActOutcome(Next(script)).Ok? && text.Ok? && TransitionOutcome(Next(Rest(script))).Ok?
    requires CheckedReply(Next(Rest(Rest(script)))).Ok?
    ensures var context := ActOutcome(Next(script)).value;
      var t := TransitionOutcome(Next(Rest(script))).value;
      var thoughts := t0 + [Retrieved(SceneRange(sceneNumber, numScenes), sceneNumber)] + [Analyzed(sceneNumber)] +
                      [Judged(t.isConsistent)] + [Suggested];
      RunEnds(script, text, scene, sceneNumber, numScenes, t0, p0, thoughts,
              p0 + [EnvironmentAnalysisPrompt(scene, sceneNumber)] +
                [TransitionPrompt(text.value, context.environment, numScenes)] +
                [EnvironmentDetailsPrompt(context.analysis, Text(t.output), ConsistencyNote(t.isConsistent))],
              Rest(Rest(Rest(script))),
              Ok(RunResult(context, t.isConsistent, t.explanation, CheckedReply(Next(Rest(Rest(script)))).value,
                           thoughts)))
  {
    var think := Retrieved(SceneRange(sceneNumber, numScenes), sceneNumber);
    var context := ActOutcome(Next(script)).value;
    var t := TransitionOutcome(Next(Rest(script))).value;
    var sent := [EnvironmentAnalysisPrompt(scene, sceneNumber), TransitionPrompt(text.value, context.environment, numScenes),
                 EnvironmentDetailsPrompt(context.analysis, Text(t.output), ConsistencyNote(t.isConsistent))];
    var trace := RunTraceOfReplies(script, text, scene, sceneNumber, numScenes);
    assert trace == RunTrace(Ok(RunValues(context, t, CheckedReply(Next(Rest(Rest(script)))).value)),
                             [think, Analyzed(sceneNumber), Judged(t.isConsistent), Suggested], sent, 3);
    DropNext(script, 0);
    DropNext(script, 1);
    DropNext(script, 2);
    AppendFour(t0, think, Analyzed(sceneNumber), Judged(t.isConsistent), Suggested);
    AppendThree(p0, sent[0], sent[1], sent[2]);
  }

  class EnvironmentAgent {
    const llm: Provider
    /** The shared scene list; the agent only reads it. */
    const records: seq<SceneMemory.SceneRecord>
    const numScenes: int
    var thoughts: seq<Thought>

    constructor (llm: Provider, records: seq<SceneMemory.SceneRecord>, numScenes: int := 3)
      ensures this.llm == llm && this.records == records && this.numScenes == numScenes
      ensures thoughts == []
    {
      this.llm := llm;
      this.records := records;
      this.numScenes := numScenes;
      thoughts := [];
    }

    /** The run this agent's replies `script` lead to for one scene. */
    function TraceFrom(script: seq<Reply>, scene: string, sceneNumber: int): RunTrace {
      RunTraceOfReplies(script, PriorLocationText(Locations(records), numScenes), scene, sceneNumber, numScenes)
    }

    method Think(scene: string, sceneNumber: int) returns (sceneRange: seq<int>)
      modifies this
      ensures sceneRange == SceneRange(sceneNumber, numScenes)
      ensures thoughts == old(thoughts) + [Retrieved(sceneRange, sceneNumber)]
    {
      sceneRange := SceneRange(sceneNumber, numScenes);
      thoughts := thoughts + [Retrieved(sceneRange, sceneNumber)];
    }

    method Act(scene: string, sceneNumber: int) returns (r: Result<Context>)
      modifies this, llm
      ensures llm.prompts == old(llm.prompts) + [EnvironmentAnalysisPrompt(scene, sceneNumber)]
      ensures llm.script == Rest(old(llm.script))
      ensures r == ActOutcome(Next(old(llm.script)))
      ensures r.Ok? ==> thoughts == old(thoughts) + [Analyzed(sceneNumber)]
      ensures r.Err? ==> thoughts == old(thoughts)
    {
      var analysis := AnalyzeEnvironment(llm, scene, sceneNumber);
      if analysis.Err? {
        return Err(analysis.error);
      }
      thoughts := thoughts + [Analyzed(sceneNumber)];
      var environment := ParseEnvironment(analysis.value);
      r := Ok(Context(analysis.value, environment));
    }

    method Observe(current: string) returns (r: Result<Transition>)
      modifies this, llm
      ensures var text := PriorLocationText(Locations(records), numScenes);
        (text.Err? ==> r == Err(NotIterable) && unchanged(llm)) &&
        (text.Ok? ==>
          llm.prompts == old(llm.prompts) + [TransitionPrompt(text.value, current, numScenes)] &&
          llm.script == Rest(old(llm.script)) &&
          r == TransitionOutcome(Next(old(llm.script))))
      ensures r.Ok? ==> thoughts == old(thoughts) + [Judged(r.value.isConsistent)]
      ensures r.Err? ==> thoughts == old(thoughts)
    {
      r := VerifyEnvironmentTransition(llm, Locations(records), current, numScenes);
      if r.Ok? {
        thoughts := thoughts + [Judged(r.value.isConsistent)];
      }
    }

    method Recommend(analysis: string, check: string, isConsistent: bool) returns (r: Result<string>)
      modifies this, llm
      ensures llm.prompts == old(llm.prompts) +
        [EnvironmentDetailsPrompt(analysis, Text(check), ConsistencyNote(isConsistent))]
      ensures llm.script == Rest(old(llm.script))
      ensures r == CheckedReply(Next(old(llm.script)))
      ensures r.Ok? ==> thoughts == old(thoughts) + [Suggested]
      ensures r.Err? ==> thoughts == old(thoughts)
    {
      r := SuggestEnvironmentDetails(llm, analysis, Text(check), isConsistent);
      if r.Ok? {
        thoughts := thoughts + [Suggested];
      }
    }

    /** `run`: think, act, observe the parsed environment, and recommend
        from the analysis and the full transition text. The thoughts, the
        prompts, the replies drawn and the outcome are those of the run
        the replies and the window text lead to (`RunTraceCases` spells
        them out); the thought list is returned with the values. */
    method Run(scene: string, sceneNumber: int) returns (r: Result<RunResult>)
      modifies this, llm
      ensures RunEnds(old(llm.script), PriorLocationText(Locations(records), numScenes), scene, sceneNumber,
                      numScenes, old(thoughts), old(llm.prompts), thoughts, llm.prompts, llm.script, r)
    {
      ghost var t0 := thoughts;
      ghost var p0 := llm.prompts;
      ghost var s0 := llm.script;
      ghost var text := PriorLocationText(Locations(records), numScenes);
      var sceneRange := Think(scene, sceneNumber);
      var context := Act(scene, sceneNumber);
      if context.Err? {
        EndsAtAnalysis(s0, text, scene, sceneNumber, numScenes, t0, p0);
        return Err(context.error);
      }
      var transition := Observe(context.value.environment);
      if transition.Err? {
        if text.Err? {
          EndsAtWindow(s0, text, scene, sceneNumber, numScenes, t0, p0);
        } else {
          EndsAtTransition(s0, text, scene, sceneNumber, numScenes, t0, p0);
        }
        return Err(transition.error);
      }
      var suggestions := Recommend(context.value.analysis, transition.value.output, transition.value.isConsistent);
      if suggestions.Err? {
        EndsAtRecommend(s0, text, scene, sceneNumber, numScenes, t0, p0);
        return Err(suggestions.error);
      }
      EndsComplete(s0, text, scene, sceneNumber, numScenes, t0, p0);
      r := Ok(RunResult(context.value, transition.value.isConsistent, transition.value.explanation,
                        suggestions.value, thoughts));
    }
  }
}
