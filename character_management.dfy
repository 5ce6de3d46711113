/** `utils/character_management.py`: the first-line character parser and
    the consistency check of the ReAct character tools. Replies are used
    raw, unstripped. */
module CharacterManagement {
  import opened Wrappers
  import opened Py
  import opened Llm
  import opened Characters
  import CastParser

  /** The first line whose stripped form starts with `Characters:`. */
  function FirstCharactersLine(lines: seq<string>): (r: Option<string>)
    ensures r.Some? ==> Labelled(r.value, CurrentLabel) && Contains(r.value, ":")
  {
    if lines == [] then None
    else if Labelled(lines[0], CurrentLabel) then
      LabelsColonLast();
      LabelledHasColon(lines[0], CurrentLabel);
      Some(lines[0])
    else FirstCharactersLine(lines[1..])
  }

  lemma FirstCharactersLineStep(lines: seq<string>, i: nat)
    requires i < |lines|
    ensures FirstCharactersLine(lines[i..]) ==
      if Labelled(lines[i], CurrentLabel) then Some(lines[i]) else FirstCharactersLine(lines[i + 1..])
  {
    assert lines[i..][0] == lines[i];
    assert lines[i..][1..] == lines[i + 1..];
  }

  /** The line is the one a search from the front with the label test
      finds. */
  lemma {:induction false} FirstCharactersLineSearch(lines: seq<string>, k: nat)
    requires k <= |lines|
    ensures FirstCharactersLine(lines[k..]) ==
      match FirstWhereFrom(lines, LabelTest(CurrentLabel), k)
      case None => None
      case Some(i) => Some(lines[i])
    decreases |lines| - k
  {
    if k < |lines| {
      FirstCharactersLineStep(lines, k);
      if !Labelled(lines[k], CurrentLabel) {
        FirstCharactersLineSearch(lines, k + 1);
      }
    }
  }

  /** `[c.strip() for c in pieces]` */
  function StripAll(pieces: seq<string>): (r: seq<string>)
    ensures |r| == |pieces| && forall i :: 0 <= i < |r| ==> r[i] == Strip(pieces[i])
  {
    seq(|pieces|, i requires 0 <= i < |pieces| => Strip(pieces[i]))
  }

  /** `[c for c in names if c]` */
  function DropEmpty(names: seq<string>): (r: seq<string>)
    ensures forall i :: 0 <= i < |r| ==> r[i] != []
  {
    if names == [] then []
    else (if names[0] != [] then [names[0]] else []) + DropEmpty(names[1..])
  }

  /** Stripping every piece and then dropping the empty ones is the
      one-pass comprehension of the other parsers. */
  lemma {:induction false} TwoPassNames(pieces: seq<string>)
    ensures DropEmpty(StripAll(pieces)) == MapWhere(pieces, NotBlank, Strip)
    decreases |pieces|
  {
    if pieces != [] {
      TwoPassNames(pieces[1..]);
      assert StripAll(pieces)[1..] == StripAll(pieces[1..]);
    }
  }

  /** The names of the `Characters:` line, in two passes. */
  function LineNames(line: string): seq<string>
    requires Contains(line, ":")
  {
    DropEmpty(StripAll(Split(UnwrapBrackets(FieldText(line)), ",")))
  }

  lemma LineNamesAgree(line: string)
    requires Contains(line, ":")
    ensures LineNames(line) == UtilsNames(line)
  {
    TwoPassNames(Split(UnwrapBrackets(FieldText(line)), ","));
  }

  function AnalysisOutcome(reply: Reply): Result<seq<string>> {
    match RawReply(reply)
    case Err(e) => Err(e)
    case Ok(result) =>
      match FirstCharactersLine(Split(result, "\n"))
      case None => Ok([])
      case Some(line) => Ok(LineNames(line))
  }

  /** The scan of `analyze_characters` for the first `Characters:` line,
      which stops at it. */
  method FindCharactersLine(lines: seq<string>) returns (found: Option<string>)
    ensures found == FirstCharactersLine(lines)
  {
    found := None;
    var i := 0;
    while i < |lines|
      invariant i <= |lines|
      invariant FirstCharactersLine(lines) == FirstCharactersLine(lines[i..])
    {
      FirstCharactersLineStep(lines, i);
      if Labelled(lines[i], CurrentLabel) {
        found := Some(lines[i]);
        return;
      }
      i := i + 1;
    }
    assert lines[i..] == [];
  }

  /** `analyze_characters`: the first `Characters:` line, then the clean-up
      of its names. */
  method AnalyzeCharacters(llm: Provider, scene: string) returns (r: Result<seq<string>>)
    modifies llm
    ensures llm.prompts == old(llm.prompts) + [CharacterListPrompt(scene)]
    ensures llm.script == Rest(old(llm.script))
    ensures r == AnalysisOutcome(Next(old(llm.script)))
  {
    var reply := llm.Complete(CharacterListPrompt(scene));
    match RawReply(reply)
    case Err(e) =>
      r := Err(e);
    case Ok(result) =>
      var found := FindCharactersLine(Split(result, "\n"));
      match found
      case None =>
        r := Ok([]);
      case Some(line) =>
        r := Ok(LineNames(line));
  }

  /** Only a missing content fails; the names come from the first
      `Characters:` line of the raw reply, read as `utils` reads them, and
      no such line gives no names. */
  lemma AnalysisReplies(reply: Reply)
    ensures var r := AnalysisOutcome(reply);
      (r.Err? <==> !reply.Content?) &&
      (r.Ok? ==> var lines := Split(reply.text, "\n");
        match FirstWhere(lines, LabelTest(CurrentLabel))
        case None => r.value == []
        case Some(i) => Contains(lines[i], ":") && r.value == UtilsNames(lines[i]))
  {
    if reply.Content? {
      var lines := Split(reply.text, "\n");
      FirstCharactersLineSearch(lines, 0);
      assert lines[0..] == lines;
      match FirstCharactersLine(lines)
      case None =>
      case Some(line) => LineNamesAgree(line);
    }
  }

  lemma ContentAnalysis(text: string)
    ensures AnalysisOutcome(Content(text)) ==
      match FirstCharactersLine(Split(text, "\n"))
      case None => Ok([])
      case Some(line) => Ok(UtilsNames(line))
  {
    assert RawReply(Content(text)) == Ok(text);
    match FirstCharactersLine(Split(text, "\n"))
    case None =>
    case Some(line) => LineNamesAgree(line);
  }

  /** Round trip: a reply whose first line is the list line the prompt asks
      for gives back its names, whatever follows. */
  lemma AnalysisOfListLine(xs: seq<string>, rest: string)
    requires CastParser.AllListed(xs)
    ensures AnalysisOutcome(Content(ListLine(CurrentLabel, xs) + "\n" + rest)) == Ok(xs)
  {
    var line := ListLine(CastParser.Tag(CastParser.Current), xs);
    CastParser.ListLineOnOneLine(CastParser.Current, xs);
    CastParser.LineListOfListLine(CastParser.Utils, CastParser.Current, xs);
    FirstLineFound(line, rest);
    ContentAnalysis(line + "\n" + rest);
  }

  /** A labelled first line is the line the scan finds. */
  lemma FirstLineFound(line: string, rest: string)
    requires '\n' !in line && Labelled(line, CurrentLabel)
    ensures FirstCharactersLine(Split(line + "\n" + rest, "\n")) == Some(line)
  {
    SplitAfterHead(line, '\n', rest);
    var lines := Split(line + "\n" + rest, "\n");
    FirstCharactersLineStep(lines, 0);
    assert lines[0..] == lines;
  }

  // ---------------------------------------------------------------------
  // verify_character_consistency

  /** The verdict read from the raw reply, which is returned as it came. */
  function ConsistencyOutcome(reply: Reply): Result<(bool, string)> {
    match RawReply(reply)
    case Err(e) => Err(e)
    case Ok(result) => Ok((FirstLineSaysYes(result), result))
  }

  method VerifyCharacterConsistency(llm: Provider, profiles: seq<(string, History)>, scene: string)
    returns (r: Result<(bool, string)>)
    modifies llm
    ensures llm.prompts == old(llm.prompts) + [ConsistencyPrompt(ProfileTexts(profiles), scene, None)]
    ensures llm.script == Rest(old(llm.script))
    ensures r == ConsistencyOutcome(Next(old(llm.script)))
  {
    var reply := llm.Complete(ConsistencyPrompt(ProfileTexts(profiles), scene, None));
    match RawReply(reply)
    case Err(e) =>
      r := Err(e);
    case Ok(result) =>
      r := Ok((FirstLineSaysYes(result), result));
  }

  /** The verdict reads the first line of the raw reply only, and the reply
      comes back unchanged. */
  lemma ConsistencyVerdict(line: string, rest: string)
    requires '\n' !in line
    ensures ConsistencyOutcome(Content(line + "\n" + rest)) ==
      Ok((Contains(Lower(line), "yes"), line + "\n" + rest))
    ensures ConsistencyOutcome(Content(line)) == Ok((Contains(Lower(line), "yes"), line))
  {
    FirstLineVerdict(line, rest);
  }
}
