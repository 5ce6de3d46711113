/** `backend/utils/agents/agent_evaluation.py`: the summaries the three
    `evaluate_*` functions print after an agent's `run`, and the
    environment evaluator, which hands back the run's values unchanged. */
module AgentEvaluation {
  import opened Wrappers
  import opened Py
  import EnvironmentAgents
  import ComedyAgents
  import opened Llm
  import Seqs

  /** The label of the line the character summary shows. */
  const CharacterExplanationMarker: string := "2. Short Explanation Why:"

  /** The label of the line the comedy summary shows. */
  const ComedyExplanationMarker: string := "3. Short Explanation"

  predicate Marked(line: string, marker: string) {
    StartsWith(Strip(line), marker)
  }

  /** The line test the search applies. */
  function MarkedBy(marker: string): string -> bool {
    (line: string) => Marked(line, marker)
  }

  /** The first of the lines whose stripped form starts with the marker,
      stripped, or `""` when no line does. */
  function FirstMarked(lines: seq<string>, marker: string): string {
    match FirstWhere(lines, MarkedBy(marker))
    case Some(i) => Strip(lines[i])
    case None => ""
  }

  /** `short_explanation`: the first marked line of the text. */
  function ShortExplanation(text: string, marker: string): string {
    FirstMarked(Split(text, "\n"), marker)
  }

  /** The search loop with `break`. */
  method FindShortExplanation(text: string, marker: string) returns (r: string)
    ensures r == ShortExplanation(text, marker)
  {
    var lines := Split(text, "\n");
    r := "";
    var i := 0;
    while i < |lines|
      invariant i <= |lines|
      invariant FirstWhere(lines, MarkedBy(marker)) == FirstWhereFrom(lines, MarkedBy(marker), i)
    {
      FirstWhereStep(lines, MarkedBy(marker), i);
      if Marked(lines[i], marker) {
        r := Strip(lines[i]);
        break;
      }
      i := i + 1;
    }
  }

  /** With a non-empty marker the result is empty exactly when no line is
      marked, and is otherwise the first marked line, stripped. */
  lemma FirstMarkedCases(lines: seq<string>, marker: string)
    requires marker != ""
    ensures FirstMarked(lines, marker) == "" <==> forall i :: 0 <= i < |lines| ==> !Marked(lines[i], marker)
    ensures FirstMarked(lines, marker) != "" ==>
      StartsWith(FirstMarked(lines, marker), marker) &&
      exists i :: 0 <= i < |lines| && FirstMarked(lines, marker) == Strip(lines[i]) &&
        forall j :: 0 <= j < i ==> !Marked(lines[j], marker)
  {
    var f := FirstWhere(lines, MarkedBy(marker));
    if f.Some? {
      MarkedNotEmpty(lines[f.value], marker);
    }
  }

  lemma MarkedNotEmpty(line: string, marker: string)
    requires marker != "" && Marked(line, marker)
    ensures Strip(line) != "" && StartsWith(Strip(line), marker)
  {
  }

  /** The recommendation lines kept: those whose stripped form starts
      with `1.` or `2.`. */
  predicate Numbered(line: string) {
    StartsWith(Strip(line), "1.") || StartsWith(Strip(line), "2.")
  }

  function NumberedLines(lines: seq<string>): seq<string> {
    Seqs.Filter(lines, Numbered)
  }

  /** The lines kept are exactly the numbered ones, in their order: the
      filter distributes over joining two lists of lines, and keeps a list
      of numbered lines whole. */
  lemma NumberedLinesFacts(lines: seq<string>, more: seq<string>)
    ensures forall x :: x in NumberedLines(lines) <==> x in lines && Numbered(x)
    ensures (forall i :: 0 <= i < |lines| ==> Numbered(lines[i])) ==> NumberedLines(lines) == lines
    ensures NumberedLines(lines + more) == NumberedLines(lines) + NumberedLines(more)
  {
    Seqs.FilterMembers(lines, Numbered);
    Seqs.FilterAppend(lines, more, Numbered);
  }

  /** `clean_recommendations`. */
  function CleanRecommendations(recommendations: string): string {
    Join(NumberedLines(Split(recommendations, "\n")), "\n")
  }

  /** What an evaluator prints: the verdict, an explanation, and the
      recommendations. */
  datatype Report = Report(isConsistent: bool, explanation: string, recommendations: string)

  /** The explanation shown: the short one, or the whole text stripped when
      there is none. */
  function Shown(short: string, full: string): string {
    if short != "" then short else Strip(full)
  }

  function CharacterReport(isConsistent: bool, explanation: string, recommendations: string): Report {
    Report(isConsistent,
           Shown(ShortExplanation(explanation, CharacterExplanationMarker), explanation),
           Strip(CleanRecommendations(recommendations)))
  }

  function ComedyReport(isConsistent: bool, analysis: string, recommendations: string): Report {
    Report(isConsistent,
           Shown(ShortExplanation(analysis, ComedyExplanationMarker), analysis),
           Strip(CleanRecommendations(recommendations)))
  }

  /** The explanation shown falls back to the whole text stripped exactly
      when there is no labelled line, and is otherwise that line. */
  lemma ShownExplanation(explanation: string, marker: string)
    requires marker != ""
    ensures var shown := Shown(ShortExplanation(explanation, marker), explanation);
      (ShortExplanation(explanation, marker) == "" ==> shown == Strip(explanation)) &&
      (ShortExplanation(explanation, marker) != "" ==>
         shown == ShortExplanation(explanation, marker) && StartsWith(shown, marker))
  {
    FirstMarkedCases(Split(explanation, "\n"), marker);
  }

  /** The character and comedy summaries show their labelled line when
      there is one, and the whole explanation stripped otherwise. */
  lemma ReportExplanation(isConsistent: bool, explanation: string, recommendations: string)
    ensures var shown := CharacterReport(isConsistent, explanation, recommendations).explanation;
      (ShortExplanation(explanation, CharacterExplanationMarker) == "" ==> shown == Strip(explanation)) &&
      (ShortExplanation(explanation, CharacterExplanationMarker) != "" ==>
         StartsWith(shown, CharacterExplanationMarker))
    ensures var shown := ComedyReport(isConsistent, explanation, recommendations).explanation;
      (ShortExplanation(explanation, ComedyExplanationMarker) == "" ==> shown == Strip(explanation)) &&
      (ShortExplanation(explanation, ComedyExplanationMarker) != "" ==>
         StartsWith(shown, ComedyExplanationMarker))
  {
    ShownExplanation(explanation, CharacterExplanationMarker);
    ShownExplanation(explanation, ComedyExplanationMarker);
  }

  /** `evaluate_comedic_agent_scene`: its opening line reads the agent's
      `num_scenes`, which the backend's comedic agent never sets, so the
      call fails before the agent runs and changes nothing. */
  method EvaluateComedicAgentScene(agent: ComedyAgents.ComedicAgent, scene: string, sceneNumber: int)
    returns (r: Result<Report>)
    ensures r == Err(MissingAttribute("num_scenes"))
  {
    r := Err(MissingAttribute("num_scenes"));
  }

  /** The environment summary prints the explanation and suggestions
      stripped. */
  function EnvironmentReport(result: EnvironmentAgents.RunResult): Report {
    Report(result.isConsistent, Strip(result.explanation), Strip(result.suggestions))
  }

  /** `evaluate_environment_agent_scene`: one run of the agent, its summary,
      and the run's five values handed back as they came; a failed run's
      error passes through. */
  method EvaluateEnvironmentAgentScene(agent: EnvironmentAgents.EnvironmentAgent, scene: string, sceneNumber: int)
    returns (r: Result<(Report, EnvironmentAgents.RunResult)>)
    modifies agent, agent.llm
    ensures var trace := agent.TraceFrom(old(agent.llm.script), scene, sceneNumber);
      var run := EnvironmentAgents.Returned(trace.outcome, agent.thoughts);
      agent.thoughts == old(agent.thoughts) + trace.added &&
      agent.llm.prompts == old(agent.llm.prompts) + trace.sent &&
      agent.llm.script == Drop(old(agent.llm.script), trace.used) &&
      (r.Err? <==> run.Err?) &&
      (r.Err? ==> r.error == run.error) &&
      (r.Ok? ==> r.value.1 == run.value && r.value.0 == EnvironmentReport(run.value))
  {
    var result := agent.Run(scene, sceneNumber);
    if result.Err? {
      return Err(result.error);
    }
    r := Ok((EnvironmentReport(result.value), result.value));
  }
}
