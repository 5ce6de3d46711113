/** The scene memory shared by the agents: `summarize_scene` turns a scene
    into a labelled record through one model call (three attempts in the
    backend), and `add_scene_to_vector_db` appends the record to the metadata
    list and its summary's embedding to the vector index.

    The embedding model and the FAISS index are seen only through what the
    pipeline relies on: which summaries were encoded, and how many vectors
    the index holds. */
module SceneMemory {
  import opened Wrappers
  import opened Py
  import Llm

  /** The dictionary `summarize_scene` returns; `None` stands for Python's
      `None` in the three optional fields. */
  datatype Summary = Summary(
    summary: string,
    characters: seq<string>,
    location: Option<string>,
    recurringJoke: Option<string>,
    emotionalTone: Option<string>)

  /** One entry of `vector_metadata`: the summary's fields and the script. */
  datatype SceneRecord = SceneRecord(
    summary: string,
    characters: seq<string>,
    location: Option<string>,
    recurringJoke: Option<string>,
    emotionalTone: Option<string>,
    script: Option<string>)

  /** The record `add_scene_to_vector_db` appends. */
  function RecordOf(s: Summary, fullScript: Option<string>): SceneRecord {
    SceneRecord(s.summary, s.characters, s.location, s.recurringJoke, s.emotionalTone, fullScript)
  }

  // ---------------------------------------------------------------------
  // The section parser

  const SummaryLabel: string := "Summary:"
  const CharactersLabel: string := "Characters:"
  const LocationLabel: string := "Location:"
  const JokeLabel: string := "Recurring Joke:"
  const ToneLabel: string := "Emotional Tone:"

  /** The fields before any section is read. */
  const Defaults: Summary := Summary("", [], None, None, None)

  /** `section.replace(tag, "").strip()` */
  function LabelValue(section: string, tag: string): string
    requires tag != []
  {
    Strip(ReplaceAll(section, tag, ""))
  }

  /** Empty, or without white space at either end. */
  predicate NoOuterSpace(n: string) {
    n == [] || (!IsSpace(n[0]) && !IsSpace(n[|n| - 1]))
  }

  /** `line.strip("- ").strip()` */
  function CleanName(line: string): (r: string)
    ensures NoOuterSpace(r)
  {
    Strip(StripClass(line, Chars({'-', ' '})))
  }

  /** The names listed under a `Characters:` header: every line that is not
      blank, cleaned, in order. */
  function CleanNames(lines: seq<string>): seq<string> {
    MapWhere(lines, NotBlank, CleanName)
  }

  /** Every parsed name is trimmed; with no blank line, the names are the
      cleaned lines one for one, and with only blank lines there are none. */
  lemma CleanNamesShape(lines: seq<string>)
    ensures forall i :: 0 <= i < |CleanNames(lines)| ==> NoOuterSpace(CleanNames(lines)[i])
    ensures (forall i :: 0 <= i < |lines| ==> !IsBlank(lines[i])) ==>
      |CleanNames(lines)| == |lines| && forall i :: 0 <= i < |lines| ==> CleanNames(lines)[i] == CleanName(lines[i])
    ensures (forall i :: 0 <= i < |lines| ==> IsBlank(lines[i])) ==> CleanNames(lines) == []
  {
    MapWhereAll(lines, NotBlank, CleanName, NoOuterSpace);
  }

  /** The lines of a section after its header line. */
  function BodyLines(section: string): seq<string> {
    var lines := SplitLines(section);
    if lines == [] then [] else lines[1..]
  }

  /** The effect of one section on the record: the first label it starts with
      sets its field, and any other section changes nothing. */
  function ApplySection(p: Summary, section: string): Summary {
    if StartsWith(section, SummaryLabel) then p.(summary := LabelValue(section, SummaryLabel))
    else if StartsWith(section, CharactersLabel) then p.(characters := CleanNames(BodyLines(section)))
    else if StartsWith(section, LocationLabel) then p.(location := Some(LabelValue(section, LocationLabel)))
    else if StartsWith(section, JokeLabel) then p.(recurringJoke := Some(LabelValue(section, JokeLabel)))
    else if StartsWith(section, ToneLabel) then p.(emotionalTone := Some(LabelValue(section, ToneLabel)))
    else p
  }

  /** The sections applied in order, starting from the defaults. */
  function ParseSections(sections: seq<string>): Summary {
    if sections == [] then Defaults
    else ApplySection(ParseSections(sections[..|sections| - 1]), sections[|sections| - 1])
  }

  /** The record parsed from a stripped reply, whose sections are separated
      by blank lines. */
  function ParseReplyText(output: string): Summary {
    ParseSections(Split(output, "\n\n"))
  }

  /** The loop of `summarize_scene` over the sections of the reply. */
  method ParseReply(output: string) returns (parsed: Summary)
    ensures parsed == ParseReplyText(output)
  {
    var sections := Split(output, "\n\n");
    parsed := Defaults;
    var i := 0;
    while i < |sections|
      invariant i <= |sections|
      invariant parsed == ParseSections(sections[..i])
    {
      assert sections[..i + 1][..i] == sections[..i];
      parsed := ApplySection(parsed, sections[i]);
      i := i + 1;
    }
    assert sections[..i] == sections;
  }

  /** The index of the last section that starts with `tag`: an independent
      statement of which section sets a field. */
  function LastLabelled(sections: seq<string>, tag: string): (r: Option<nat>)
    ensures r.Some? ==> r.value < |sections| && StartsWith(sections[r.value], tag)
    ensures r.Some? ==> forall j :: r.value < j < |sections| ==> !StartsWith(sections[j], tag)
    ensures r.None? ==> forall j :: 0 <= j < |sections| ==> !StartsWith(sections[j], tag)
  {
    if sections == [] then None
    else if StartsWith(sections[|sections| - 1], tag) then Some(|sections| - 1)
    else LastLabelled(sections[..|sections| - 1], tag)
  }

  /** The field a label sets, read from the last section carrying it. */
  function Labelled(sections: seq<string>, tag: string): Option<string>
    requires tag != []
  {
    match LastLabelled(sections, tag)
    case None => None
    case Some(k) => Some(LabelValue(sections[k], tag))
  }

  /** The last section either carries the label or leaves the search to
      the sections before it. */
  lemma LastLabelledStep(sections: seq<string>, tag: string)
    requires sections != [] && tag != []
    ensures var init := sections[..|sections| - 1];
      var last := sections[|sections| - 1];
      (StartsWith(last, tag) ==> (Labelled(sections, tag) == Some(LabelValue(last, tag)) &&
        LastLabelled(sections, tag) == Some(|sections| - 1))) &&
      (!StartsWith(last, tag) ==> (Labelled(sections, tag) == Labelled(init, tag) &&
        LastLabelled(sections, tag) == LastLabelled(init, tag) &&
        (LastLabelled(init, tag).Some? ==> sections[LastLabelled(init, tag).value] == init[LastLabelled(init, tag).value])))
  {
  }

  /** No section starts with two labels: their first letters differ. */
  lemma LabelsExclusive(section: string)
    ensures StartsWith(section, SummaryLabel) ==> (!StartsWith(section, CharactersLabel) &&
      !StartsWith(section, LocationLabel) && !StartsWith(section, JokeLabel) && !StartsWith(section, ToneLabel))
    ensures StartsWith(section, CharactersLabel) ==>
      (!StartsWith(section, LocationLabel) && !StartsWith(section, JokeLabel) && !StartsWith(section, ToneLabel))
    ensures StartsWith(section, LocationLabel) ==> !StartsWith(section, JokeLabel) && !StartsWith(section, ToneLabel)
    ensures StartsWith(section, JokeLabel) ==> !StartsWith(section, ToneLabel)
  {
    if section != [] {
      assert StartsWith(section, SummaryLabel) ==> section[0] == 'S';
      assert StartsWith(section, CharactersLabel) ==> section[0] == 'C';
      assert StartsWith(section, LocationLabel) ==> section[0] == 'L';
      assert StartsWith(section, JokeLabel) ==> section[0] == 'R';
      assert StartsWith(section, ToneLabel) ==> section[0] == 'E';
    }
  }

  /** Each field keeps its default unless some section starts with its
      label, and then holds the value of the last such section: a later
      duplicate overwrites an earlier one. */
  lemma {:induction false} ParseSectionsFields(sections: seq<string>)
    ensures var p := ParseSections(sections);
      var cs := LastLabelled(sections, CharactersLabel);
      p.summary == (match Labelled(sections, SummaryLabel) case None => "" case Some(v) => v) &&
      p.characters == (if cs.None? then [] else CleanNames(BodyLines(sections[cs.value]))) &&
      p.location == Labelled(sections, LocationLabel) &&
      p.recurringJoke == Labelled(sections, JokeLabel) &&
      p.emotionalTone == Labelled(sections, ToneLabel)
  {
    if sections != [] {
      var init := sections[..|sections| - 1];
      var last := sections[|sections| - 1];
      ParseSectionsFields(init);
      LabelsExclusive(last);
      LastLabelledStep(sections, SummaryLabel);
      LastLabelledStep(sections, CharactersLabel);
      LastLabelledStep(sections, LocationLabel);
      LastLabelledStep(sections, JokeLabel);
      LastLabelledStep(sections, ToneLabel);
    }
  }

  /** A reply with no labelled section leaves every default in place. */
  lemma NoLabelsDefaults(sections: seq<string>)
    requires forall j :: 0 <= j < |sections| ==>
      !StartsWith(sections[j], SummaryLabel) && !StartsWith(sections[j], CharactersLabel) &&
      !StartsWith(sections[j], LocationLabel) && !StartsWith(sections[j], JokeLabel) &&
      !StartsWith(sections[j], ToneLabel)
    ensures ParseSections(sections) == Defaults
  {
    ParseSectionsFields(sections);
  }

  // ---------------------------------------------------------------------
  // summarize_scene

  /** `summarize_scene` in the backend: three attempts with back-off, then
      the section parser on the first reply with content. */
  method SummarizeScene(llm: Llm.Provider, clock: Llm.Clock, title: string, script: string)
    returns (r: Result<Summary>)
    modifies llm, clock
    ensures var out := Llm.RetryOutcome(old(llm.script));
      (r.Ok? <==> out.Ok?) &&
      (r.Ok? ==> r.value == ParseReplyText(out.value)) &&
      (r.Err? ==> r.error == out.error)
    ensures llm.script == Llm.Drop(old(llm.script), Llm.AttemptsMade(old(llm.script)))
    ensures llm.prompts == old(llm.prompts) +
      seq(Llm.AttemptsMade(old(llm.script)), _ => Llm.SummarizePrompt(title, script))
    ensures clock.sleeps == old(clock.sleeps) + Llm.RetrySleeps(old(llm.script))
  {
    var out := Llm.CompleteWithRetry(llm, clock, Llm.SummarizePrompt(title, script));
    if out.Err? {
      return Err(out.error);
    }
    var parsed := ParseReply(out.value);
    r := Ok(parsed);
  }

  /** What the single-attempt `summarize_scene` makes of one reply: a raised
      call escapes, a missing content fails on `.strip()`, and any content,
      even an empty one, is parsed. */
  function SummarizeOnceOutcome(reply: Llm.Reply): (r: Result<Summary>)
    ensures r.Err? <==> !reply.Content?
    ensures reply.Raised? ==> r == Err(ProviderError)
    ensures reply.NoContent? ==> r == Err(NoneContent)
    ensures reply.Content? && IsBlank(reply.text) ==> r == Ok(Defaults)
  {
    match reply
    case Raised => Err(ProviderError)
    case NoContent => Err(NoneContent)
    case Content(text) =>
      if IsBlank(text) then
        assert Split(Strip(text), "\n\n") == [""];
        Ok(Defaults)
      else Ok(ParseReplyText(Strip(text)))
  }

  /** `summarize_scene` in `utils`: exactly one call, no retry. */
  method SummarizeSceneOnce(llm: Llm.Provider, title: string, script: string) returns (r: Result<Summary>)
    modifies llm
    ensures r == SummarizeOnceOutcome(Llm.Next(old(llm.script)))
    ensures llm.script == Llm.Rest(old(llm.script))
    ensures llm.prompts == old(llm.prompts) + [Llm.SummarizePrompt(title, script)]
  {
    var reply := llm.Complete(Llm.SummarizePrompt(title, script));
    match reply
    case Raised => r := Err(ProviderError);
    case NoContent => r := Err(NoneContent);
    case Content(text) =>
      var parsed := ParseReply(Strip(text));
      r := Ok(parsed);
  }

  // ---------------------------------------------------------------------
  // add_scene_to_vector_db

  /** The sentence-embedding model, seen as the texts it was asked to encode. */
  class Encoder {
    var encoded: seq<string>

    constructor ()
      ensures encoded == []
    {
      encoded := [];
    }

    method Encode(text: string)
      modifies this
      ensures encoded == old(encoded) + [text]
    {
      encoded := encoded + [text];
    }
  }

  /** The FAISS index, seen as the number of vectors it holds. */
  class VectorIndex {
    var ntotal: nat

    constructor ()
      ensures ntotal == 0
    {
      ntotal := 0;
    }

    /** `index.add` with a batch of one vector. */
    method AddOne()
      modifies this
      ensures ntotal == old(ntotal) + 1
    {
      ntotal := ntotal + 1;
    }
  }

  /** The `vector_metadata` list, which the agents read in order. */
  class MetadataList {
    var items: seq<SceneRecord>

    constructor ()
      ensures items == []
    {
      items := [];
    }

    method Append(r: SceneRecord)
      modifies this
      ensures items == old(items) + [r]
    {
      items := items + [r];
    }
  }

  /** `add_scene_to_vector_db`, the same in both versions. A missing
      collaborator is rejected before anything is encoded or appended;
      otherwise exactly one vector and one record are added, so an index
      that was in step with the list stays in step. */
  method AddSceneToVectorDb(s: Summary, fullScript: Option<string>, encoder: Encoder?, index: VectorIndex?,
                            meta: MetadataList?) returns (r: Result<()>)
    modifies encoder, index, meta
    ensures r.Err? <==> encoder == null || index == null || meta == null
    ensures r.Err? ==> r.error == MissingCollaborator
    ensures r.Err? ==> ((encoder != null ==> encoder.encoded == old(encoder.encoded)) &&
      (index != null ==> index.ntotal == old(index.ntotal)) &&
      (meta != null ==> meta.items == old(meta.items)))
    ensures r.Ok? ==> (encoder.encoded == old(encoder.encoded) + [s.summary] &&
      index.ntotal == old(index.ntotal) + 1 &&
      meta.items == old(meta.items) + [RecordOf(s, fullScript)])
    ensures r.Ok? && old(index.ntotal) == old(|meta.items|) ==> index.ntotal == |meta.items|
  {
    if encoder == null || index == null || meta == null {
      return Err(MissingCollaborator);
    }
    encoder.Encode(s.summary);
    index.AddOne();
    meta.Append(RecordOf(s, fullScript));
    r := Ok(());
  }

  /** `store_scene_in_vector_db` in the backend: summarize with retries, then
      add the record carrying the script. A failed summary adds nothing. */
  method StoreSceneInVectorDb(llm: Llm.Provider, clock: Llm.Clock, title: string, script: string,
                              encoder: Encoder?, index: VectorIndex?, meta: MetadataList?)
    returns (r: Result<()>)
    modifies llm, clock, encoder, index, meta
    ensures var out := Llm.RetryOutcome(old(llm.script));
      (r.Ok? <==> out.Ok? && encoder != null && index != null && meta != null) &&
      (r.Ok? ==> (meta.items == old(meta.items) + [RecordOf(ParseReplyText(out.value), Some(script))] &&
        index.ntotal == old(index.ntotal) + 1)) &&
      (out.Err? ==> (r == Err(out.error) && (meta != null ==> meta.items == old(meta.items)) &&
        (index != null ==> index.ntotal == old(index.ntotal))))
    ensures llm.script == Llm.Drop(old(llm.script), Llm.AttemptsMade(old(llm.script)))
    ensures llm.prompts == old(llm.prompts) +
      seq(Llm.AttemptsMade(old(llm.script)), _ => Llm.SummarizePrompt(title, script))
    ensures clock.sleeps == old(clock.sleeps) + Llm.RetrySleeps(old(llm.script))
  {
    var summary := SummarizeScene(llm, clock, title, script);
    if summary.Err? {
      return Err(summary.error);
    }
    r := AddSceneToVectorDb(summary.value, Some(script), encoder, index, meta);
  }
}
