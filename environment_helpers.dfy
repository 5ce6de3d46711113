/** `backend/utils/agents/environment_helpers.py`: the environment
    analysis, the transition check against the last locations, and the
    request for setting details. Every helper rejects a reply without
    content. */
module EnvironmentHelpers {
  import opened Wrappers
  import opened Py
  import opened Llm

  /** `", ".join(prior[-n:]) if prior else "None"`. A location that is
      `None` has no string to join: inside the window it raises. */
  function PriorLocationText(prior: seq<Option<string>>, n: int): Result<string> {
    if prior == [] then Ok("None")
    else if AllPresent(Window(prior, n)) then Ok(Join(Present(Window(prior, n)), ", "))
    else Err(NotIterable)
  }

  predicate AllPresent(xs: seq<Option<string>>) {
    forall i :: 0 <= i < |xs| ==> xs[i].Some?
  }

  /** The strings of a list of locations, `""` standing for a missing one. */
  function Present(xs: seq<Option<string>>): (r: seq<string>)
    ensures |r| == |xs|
    ensures forall i :: 0 <= i < |xs| && xs[i].Some? ==> r[i] == xs[i].value
  {
    seq(|xs|, i requires 0 <= i < |xs| => match xs[i] case Some(s) => s case None => "")
  }

  /** The text is `"None"` for no locations at all; otherwise, for a window
      size that is not negative, it joins the last `n` of them in order (all
      of them when `n` is 0 or at least their number), and it fails exactly
      when one of those is missing. */
  lemma PriorLocationTextFacts(prior: seq<Option<string>>, n: int)
    requires n >= 0
    ensures prior == [] ==> PriorLocationText(prior, n) == Ok("None")
    ensures var k := if 0 < n < |prior| then n else |prior|;
      var last := prior[|prior| - k..];
      prior != [] ==>
        (PriorLocationText(prior, n).Ok? <==> AllPresent(last)) &&
        (PriorLocationText(prior, n).Ok? ==> PriorLocationText(prior, n).value == Join(Present(last), ", "))
  {
  }

  const TransitionMarker := "Logical Transition?"
  const ExplanationMarker := "Short Explanation:"
  const MissingExplanation := "Explanation not found."

  predicate HasTransitionMarker(line: string) {
    Contains(line, TransitionMarker)
  }

  /** `next((line for line in lines if marker in line), "")` */
  function VerdictLine(lines: seq<string>): string {
    match FirstWhere(lines, HasTransitionMarker)
    case Some(i) => lines[i]
    case None => ""
  }

  /** `"yes" in verdict_line.lower()` */
  predicate LinesVerdict(lines: seq<string>) {
    Contains(Lower(VerdictLine(lines)), "yes")
  }

  lemma NoYesInEmpty()
    ensures !Contains(Lower(""), "yes")
  {
    assert Lower("") == "";
    assert !OccursAt("", "yes", 0);
  }

  /** The verdict holds exactly when some line carries the marker and the
      first such line says "yes" in any case; with no marked line it fails. */
  lemma VerdictOfLines(lines: seq<string>)
    ensures LinesVerdict(lines) <==>
      exists i :: 0 <= i < |lines| && HasTransitionMarker(lines[i]) &&
        (forall j :: 0 <= j < i ==> !HasTransitionMarker(lines[j])) &&
        Contains(Lower(lines[i]), "yes")
    ensures (forall i :: 0 <= i < |lines| ==> !HasTransitionMarker(lines[i])) ==> !LinesVerdict(lines)
  {
    NoYesInEmpty();
    match FirstWhere(lines, HasTransitionMarker)
    case None =>
    case Some(k) =>
      assert HasTransitionMarker(lines[k]);
      forall i | 0 <= i < |lines| && HasTransitionMarker(lines[i]) &&
        (forall j :: 0 <= j < i ==> !HasTransitionMarker(lines[j]))
        ensures i == k
      {
        FirstMarked(lines, k, i);
      }
  }

  lemma FirstMarked(lines: seq<string>, k: nat, i: nat)
    requires FirstWhere(lines, HasTransitionMarker) == Some(k)
    requires i < |lines| && HasTransitionMarker(lines[i])
    requires forall j :: 0 <= j < i ==> !HasTransitionMarker(lines[j])
    ensures i == k
  {
    assert HasTransitionMarker(lines[k]);
    assert forall j :: 0 <= j < k ==> !HasTransitionMarker(lines[j]);
  }

  /** `output[output.find(marker):].strip()`, or the fallback text. */
  function Explanation(output: string): string {
    match Find(output, ExplanationMarker)
    case Some(i) => Strip(output[i..])
    case None => MissingExplanation
  }

  /** The explanation starts with its marker, taken from the first place the
      marker occurs, and the fallback is given exactly when it occurs nowhere. */
  lemma ExplanationFacts(output: string)
    ensures Contains(output, ExplanationMarker) ==>
      StartsWith(Explanation(output), ExplanationMarker) &&
      exists i :: 0 <= i <= |output| && OccursAt(output, ExplanationMarker, i) &&
        (forall j :: 0 <= j < i ==> !OccursAt(output, ExplanationMarker, j)) &&
        Explanation(output) == Strip(output[i..])
    ensures !Contains(output, ExplanationMarker) ==> Explanation(output) == MissingExplanation
  {
    if Contains(output, ExplanationMarker) {
      var i := Find(output, ExplanationMarker).value;
      var s := output[i..];
      assert s[..|ExplanationMarker|] == output[i..i + |ExplanationMarker|];
      StripKeepsPrefix(s, ExplanationMarker, Space);
    }
  }

  /** The triple `verify_environment_transition` returns. */
  datatype Transition = Transition(isConsistent: bool, explanation: string, output: string)

  function TransitionOf(output: string): Transition {
    Transition(LinesVerdict(SplitLines(output)), Explanation(output), output)
  }

  function TransitionOutcome(reply: Reply): Result<Transition> {
    match CheckedReply(reply)
    case Err(e) => Err(e)
    case Ok(output) => Ok(TransitionOf(output))
  }

  /** `analyze_environment` */
  method AnalyzeEnvironment(llm: Provider, scene: string, sceneNumber: int) returns (r: Result<string>)
    modifies llm
    ensures llm.prompts == old(llm.prompts) + [EnvironmentAnalysisPrompt(scene, sceneNumber)]
    ensures llm.script == Rest(old(llm.script))
    ensures r == CheckedReply(Next(old(llm.script)))
    ensures r.Ok? <==> HasContent(Next(old(llm.script)))
  {
    var reply := llm.Complete(EnvironmentAnalysisPrompt(scene, sceneNumber));
    r := CheckedReply(reply);
  }

  /** `verify_environment_transition`: the window text is built before the
      call, so a missing location in it fails with nothing sent. */
  method VerifyEnvironmentTransition(llm: Provider, prior: seq<Option<string>>, current: string, numScenes: int)
    returns (r: Result<Transition>)
    modifies llm
    ensures PriorLocationText(prior, numScenes).Err? ==>
      r == Err(NotIterable) && unchanged(llm)
    ensures PriorLocationText(prior, numScenes).Ok? ==>
      llm.prompts == old(llm.prompts) +
        [TransitionPrompt(PriorLocationText(prior, numScenes).value, current, numScenes)] &&
      llm.script == Rest(old(llm.script)) &&
      r == TransitionOutcome(Next(old(llm.script)))
  {
    var text := PriorLocationText(prior, numScenes);
    if text.Err? {
      return Err(text.error);
    }
    var reply := llm.Complete(TransitionPrompt(text.value, current, numScenes));
    match CheckedReply(reply)
    case Err(e) =>
      r := Err(e);
    case Ok(output) =>
      r := Ok(Transition(LinesVerdict(SplitLines(output)), Explanation(output), output));
  }

  /** The transition check fails exactly on a reply without content. */
  lemma TransitionFails(reply: Reply)
    ensures TransitionOutcome(reply).Err? <==> !HasContent(reply)
    ensures TransitionOutcome(reply).Err? ==> TransitionOutcome(reply).error == ReplyFailure(reply)
  {
  }

  /** A reply fails exactly when it has no content; otherwise the third
      component is the whole stripped reply and the other two are read
      from it. */
  lemma TransitionReplies(reply: Reply)
    ensures var r := TransitionOutcome(reply);
      (r.Err? <==> !HasContent(reply)) &&
      (r.Err? ==> r.error == ReplyFailure(reply)) &&
      (r.Ok? ==>
        r.value.output == Strip(reply.text) &&
        r.value.isConsistent == LinesVerdict(SplitLines(Strip(reply.text))) &&
        r.value.explanation == Explanation(Strip(reply.text)))
  {
  }

  /** The line breaks `splitlines` recognises after a first line free of
      them: that line comes first. */
  lemma SplitLinesHead(first: string, rest: string)
    requires forall i :: 0 <= i < |first| ==> !IsLineBreak(first[i])
    ensures SplitLines(first + "\n" + rest) == [first] + SplitLines(rest)
  {
    var s := first + "\n" + rest;
    assert forall i :: 0 <= i < |first| ==> s[i] == first[i];
    FirstLineBreakAt(s, |first|);
    assert s[..|first|] == first;
    assert s[|first| + 1..] == rest;
  }

  lemma FirstLineBreakAt(s: string, i: nat)
    requires i < |s| && IsLineBreak(s[i]) && s[i] == '\n'
    requires forall j :: 0 <= j < i ==> !IsLineBreak(s[j])
    ensures SplitLines(s) == [s[..i]] + SplitLines(s[i + 1..])
  {
    assert FindAnyFrom(s, LineBreak, 0) == Some(i);
  }

  /** A reply whose first line is the verdict line is judged by that line. */
  lemma VerdictFirst(first: string, rest: string)
    requires HasTransitionMarker(first)
    requires forall i :: 0 <= i < |first| ==> !IsLineBreak(first[i])
    ensures TransitionOf(first + "\n" + rest).isConsistent == Contains(Lower(first), "yes")
  {
    SplitLinesHead(first, rest);
    assert FirstWhere([first] + SplitLines(rest), HasTransitionMarker) == Some(0);
  }

  const SmoothNote := "The transition is smooth, so these details should support continuity and tone."
  const JarringNote :=
    "The transition is jarring, so use details that subtly reinforce the new setting and ease the audience into it."

  function ConsistencyNote(isConsistent: bool): string {
    if isConsistent then SmoothNote else JarringNote
  }

  /** The note depends on the verdict alone, and tells the two apart. */
  lemma NoteChoice(a: bool, b: bool)
    ensures ConsistencyNote(a) == ConsistencyNote(b) <==> a == b
    ensures ConsistencyNote(a) == SmoothNote <==> a
  {
    assert |SmoothNote| < |JarringNote|;
  }

  /** `suggest_environment_details` */
  method SuggestEnvironmentDetails(llm: Provider, analysis: string, check: CheckText, isConsistent: bool)
    returns (r: Result<string>)
    modifies llm
    ensures llm.prompts == old(llm.prompts) + [EnvironmentDetailsPrompt(analysis, check, ConsistencyNote(isConsistent))]
    ensures llm.script == Rest(old(llm.script))
    ensures r == CheckedReply(Next(old(llm.script)))
    ensures r.Ok? <==> HasContent(Next(old(llm.script)))
  {
    var note := if isConsistent then SmoothNote else JarringNote;
    var reply := llm.Complete(EnvironmentDetailsPrompt(analysis, check, note));
    r := CheckedReply(reply);
  }
}
