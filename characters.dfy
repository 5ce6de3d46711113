/** What the three character-helper files share: the names the scene
    records list, the character-to-scene map, the parser for one
    `Characters:`-style reply line, the consistency verdict read from the
    first line of a reply, and the profiles handed to the prompts. */
module Characters {
  import opened Wrappers
  import opened Py
  import SceneMemory

  type SceneRecord = SceneMemory.SceneRecord

  /** `meta.get("scene_number", "?")`: no record written by
      `add_scene_to_vector_db` carries a scene number, so every label is
      the default. */
  const UnknownSceneNumber: string := "?"

  // ---------------------------------------------------------------------
  // The names listed by the records

  /** Every name listed by `records`, record after record, repeats kept. */
  function AllNames(records: seq<SceneRecord>): seq<string> {
    if records == [] then []
    else AllNames(records[..|records| - 1]) + records[|records| - 1].characters
  }

  lemma AllNamesStep(records: seq<SceneRecord>, i: nat)
    requires i < |records|
    ensures AllNames(records[..i + 1]) == AllNames(records[..i]) + records[i].characters
  {
    assert records[..i + 1][..i] == records[..i];
  }

  /** A name is listed exactly when some record lists it. */
  lemma {:induction false} AllNamesMembers(records: seq<SceneRecord>, x: string)
    ensures x in AllNames(records) <==> exists i :: 0 <= i < |records| && x in records[i].characters
    decreases |records|
  {
    if records != [] {
      var n := |records| - 1;
      var init := records[..n];
      AllNamesMembers(init, x);
      assert forall i :: 0 <= i < n ==> init[i] == records[i];
      if x in records[n].characters {
        assert 0 <= n < |records| && x in records[n].characters;
      }
    }
  }

  /** `character_scene_map.setdefault(char, []).append(label)` for each
      listed name in turn. */
  function Tally(names: seq<string>): map<string, seq<string>> {
    if names == [] then map[]
    else
      var m := Tally(names[..|names| - 1]);
      var c := names[|names| - 1];
      m[c := (if c in m then m[c] else []) + [UnknownSceneNumber]]
  }

  /** The map's keys are exactly the listed names, and each name maps to
      one label per listing. */
  lemma {:induction false} TallyShape(names: seq<string>)
    ensures Tally(names).Keys == Elements(names)
    ensures forall c :: c in Tally(names) ==> Tally(names)[c] == seq(multiset(names)[c], _ => UnknownSceneNumber)
    decreases |names|
  {
    if names != [] {
      var init := names[..|names| - 1];
      var c := names[|names| - 1];
      TallyShape(init);
      assert names == init + [c];
      assert multiset(names) == multiset(init) + multiset{c};
      assert Elements(names) == Elements(init) + {c};
    }
  }

  /** The nested loops of `characters_extraction` that fill the map from
      the window. */
  method BuildSceneMap(window: seq<SceneRecord>) returns (m: map<string, seq<string>>)
    ensures m == Tally(AllNames(window))
  {
    m := map[];
    var i := 0;
    while i < |window|
      invariant i <= |window|
      invariant m == Tally(AllNames(window[..i]))
    {
      AllNamesStep(window, i);
      m := TallyScene(m, AllNames(window[..i]), window[i].characters);
      i := i + 1;
    }
    assert window[..i] == window;
  }

  /** The inner loop of `characters_extraction`: one scene's names added
      to the map in turn. */
  method TallyScene(m0: map<string, seq<string>>, before: seq<string>, names: seq<string>)
    returns (m: map<string, seq<string>>)
    requires m0 == Tally(before)
    ensures m == Tally(before + names)
  {
    m := m0;
    var j := 0;
    assert before + names[..0] == before;
    while j < |names|
      invariant j <= |names|
      invariant m == Tally(before + names[..j])
    {
      var c := names[j];
      var labels := if c in m then m[c] else [];
      m := m[c := labels + [UnknownSceneNumber]];
      PrefixSnoc(before, names, j);
      TallySnoc(before + names[..j], c);
      j := j + 1;
    }
    assert names[..j] == names;
  }

  /** One more listed name adds one label under it. */
  lemma TallySnoc(names: seq<string>, c: string)
    ensures Tally(names + [c]) == Tally(names)[c := (if c in Tally(names) then Tally(names)[c] else []) + [UnknownSceneNumber]]
  {
    assert (names + [c])[..|names|] == names;
  }

  lemma PrefixSnoc<T>(before: seq<T>, xs: seq<T>, j: nat)
    requires j < |xs|
    ensures before + xs[..j + 1] == (before + xs[..j]) + [xs[j]]
  {
    assert xs[..j + 1] == xs[..j] + [xs[j]];
  }

  /** The nested loops of `analyze_characters` in `utils` that add every
      listed name to a set. */
  method CollectNames(records: seq<SceneRecord>) returns (names: set<string>)
    ensures names == Elements(AllNames(records))
  {
    names := {};
    var i := 0;
    while i < |records|
      invariant i <= |records|
      invariant names == Elements(AllNames(records[..i]))
    {
      var listed := records[i].characters;
      ghost var before := AllNames(records[..i]);
      AllNamesStep(records, i);
      var j := 0;
      while j < |listed|
        invariant j <= |listed|
        invariant names == Elements(before + listed[..j])
      {
        assert before + listed[..j + 1] == (before + listed[..j]) + [listed[j]];
        names := names + {listed[j]};
        j := j + 1;
      }
      assert listed[..j] == listed;
      i := i + 1;
    }
    assert records[..i] == records;
  }

  /** `sorted(names)` for a set of names: ascending and duplicate-free,
      which by `StrictlySortedUnique` leaves exactly one possible list. */
  method SortedNames(names: set<string>) returns (r: seq<string>)
    ensures StrictlySorted(r) && Elements(r) == names
  {
    r := [];
    var rest := names;
    while rest != {}
      invariant StrictlySorted(r)
      invariant Elements(r) + rest == names
      decreases rest
    {
      var x :| x in rest;
      r := InsertSorted(x, r);
      rest := rest - {x};
    }
  }

  /** `", ".join(prior) if prior else "None"` */
  function PriorText(prior: seq<string>): string {
    if prior == [] then "None" else Join(prior, ", ")
  }

  // ---------------------------------------------------------------------
  // One labelled line of a reply

  const CurrentLabel: string := "Characters:"
  const NewLabel: string := "New Characters:"
  const FormerLabel: string := "Former Characters:"

  /** `line.strip().startswith(tag)` */
  predicate Labelled(line: string, tag: string) {
    StartsWith(Strip(line), tag)
  }

  /** The same test as a value, for the line searches. */
  function LabelTest(tag: string): string -> bool {
    (line: string) => Labelled(line, tag)
  }

  /** A label whose only colon is its last character. */
  predicate ColonLast(tag: string) {
    tag != [] && tag[|tag| - 1] == ':' && !IsSpace(tag[0]) &&
    forall i :: 0 <= i < |tag| - 1 ==> tag[i] != ':'
  }

  lemma LabelsColonLast()
    ensures ColonLast(CurrentLabel) && ColonLast(NewLabel) && ColonLast(FormerLabel)
  {
  }

  /** No text starts with two of the labels: their first letters differ. */
  lemma LabelsExclusive(t: string)
    ensures StartsWith(t, CurrentLabel) ==> !StartsWith(t, NewLabel) && !StartsWith(t, FormerLabel)
    ensures StartsWith(t, NewLabel) ==> !StartsWith(t, FormerLabel)
  {
    if t != [] {
      assert StartsWith(t, CurrentLabel) ==> t[0] == 'C';
      assert StartsWith(t, NewLabel) ==> t[0] == 'N';
      assert StartsWith(t, FormerLabel) ==> t[0] == 'F';
    }
  }

  /** A line carrying a label has a colon for `split(":", 1)`. */
  lemma LabelledHasColon(line: string, tag: string)
    requires ColonLast(tag) && Labelled(line, tag)
    ensures Contains(line, ":")
  {
    assert tag[|tag| - 1..|tag|] == ":";
    OccursContains(tag, ":", |tag| - 1);
    PrefixContains(Strip(line), tag, ":");
    ContainsThroughStrip(line, ":", Space);
  }

  /** `line.split(":", 1)[1].strip()` */
  function FieldText(line: string): string
    requires Contains(line, ":")
  {
    Strip(AfterFirst(line, ":"))
  }

  /** A name as it comes out of the parser: non-empty, without white space
      at either end. */
  predicate Trimmed(n: string) {
    n != [] && !IsSpace(n[0]) && !IsSpace(n[|n| - 1])
  }


  /** `[c.strip() for c in text.split(",") if c.strip()]`: every name is
      trimmed and none is empty. */
  function Names(text: string): (r: seq<string>)
    ensures forall i :: 0 <= i < |r| ==> Trimmed(r[i])
  {
    MapWhereAll(Split(text, ","), NotBlank, Strip, Trimmed);
    MapWhere(Split(text, ","), NotBlank, Strip)
  }

  const Brackets: CharClass := Chars({'[', ']'})

  /** `text.strip("[]")` in the backend: brackets go from both ends, any
      number of them, whether or not they pair up. */
  function StripBrackets(text: string): string {
    StripClass(text, Brackets)
  }

  /** `text[1:-1]` when `text` starts with "[" and ends with "]", as in
      `utils`: one pair goes, or nothing. */
  function UnwrapBrackets(text: string): (r: string)
    ensures r == text || text == "[" + r + "]"
    ensures StartsWith(text, "[") && EndsWith(text, "]") <==> text == "[" + r + "]"
  {
    if StartsWith(text, "[") && EndsWith(text, "]") then
      assert text[..1][0] == '[' && text[|text| - 1..][0] == ']';
      var r := text[1..|text| - 1];
      assert text == text[..1] + r + text[|text| - 1..];
      r
    else
      assert |"[" + text + "]"| != |text|;
      text
  }

  /** The names of a labelled line, backend style. */
  function BackendNames(line: string): seq<string>
    requires Contains(line, ":")
  {
    Names(StripBrackets(FieldText(line)))
  }

  /** The names of a labelled line, `utils` style. */
  function UtilsNames(line: string): seq<string>
    requires Contains(line, ":")
  {
    Names(UnwrapBrackets(FieldText(line)))
  }

  /** `.strip("[]")` removes exactly the outer pair from a bracketed text
      whose own ends are not brackets. */
  lemma StripBracketPair(body: string)
    requires body == [] || (!In(body[0], Brackets) && !In(body[|body| - 1], Brackets))
    ensures StripBrackets("[" + body + "]") == body
  {
    assert "[" + body + "]" == "[" + (body + "]");
    LStripLeading("[", body + "]", Brackets);
    if body == [] {
      assert LStrip("]", Brackets) == LStrip("", Brackets);
    } else {
      StripOpenPair(body);
    }
  }

  /** With the opening bracket gone, the closing one goes alone. */
  lemma StripOpenPair(body: string)
    requires body != [] && !In(body[0], Brackets) && !In(body[|body| - 1], Brackets)
    ensures StripClass(body + "]", Brackets) == body
  {
    LStripKept(body);
    RStripTrailing(body, "]", Brackets);
    assert RStrip(body, Brackets) == body;
  }

  lemma LStripKept(body: string)
    requires body != [] && !In(body[0], Brackets)
    ensures LStrip(body + "]", Brackets) == body + "]"
  {
    assert (body + "]")[0] == body[0];
  }

  // ---------------------------------------------------------------------
  // The list format the prompts ask for

  /** A name the format `[a, b, c]` can carry. */
  predicate Listable(n: string) {
    Trimmed(n) && forall i :: 0 <= i < |n| ==> n[i] != ',' && n[i] != '[' && n[i] != ']'
  }

  /** The line `tag [a, b, c]` that the prompts ask for. */
  function ListLine(tag: string, xs: seq<string>): string {
    tag + " [" + Join(xs, ", ") + "]"
  }

  /** A listable name after at most one space strips back to itself. */
  lemma StripPadded(lead: string, x: string)
    requires lead == "" || lead == " "
    requires Listable(x)
    ensures Strip(lead + x) == x
  {
    StripLeading(lead, x, Space);
    StripTrimmed(x, Space);
  }

  /** The first comma of `lead + x + ", " + tail` ends the first piece. */
  lemma SplitAfterName(lead: string, x: string, tail: string)
    requires lead == "" || lead == " "
    requires Listable(x)
    ensures Split(lead + x + ", " + tail, ",") == [lead + x] + Split(" " + tail, ",")
  {
    var head := lead + x;
    assert forall j :: 0 <= j < |head| ==> head[j] != ',' by {
      assert forall j :: 0 <= j < |x| ==> head[|lead| + j] == x[j];
    }
    assert lead + x + ", " + tail == head + "," + (" " + tail);
    SplitAfterHead(head, ',', " " + tail);
  }

  /** A listable name after at most one space is a single piece. */
  lemma SplitLastName(lead: string, x: string)
    requires lead == "" || lead == " "
    requires Listable(x)
    ensures Split(lead + x, ",") == [lead + x]
  {
    SplitNoChar(lead + x, ',');
  }

  /** The comprehension keeps a first piece that is not blank. */
  lemma MapWhereCons(p: string, rest: seq<string>)
    requires NotBlank(p)
    ensures MapWhere([p] + rest, NotBlank, Strip) == [Strip(p)] + MapWhere(rest, NotBlank, Strip)
  {
    assert ([p] + rest)[1..] == rest;
  }

  /** One name of the list, then the rest. */
  lemma NamesStep(lead: string, x: string, tail: string, rest: seq<string>)
    requires lead == "" || lead == " "
    requires Listable(x)
    requires MapWhere(Split(" " + tail, ","), NotBlank, Strip) == rest
    ensures MapWhere(Split(lead + x + ", " + tail, ","), NotBlank, Strip) == [x] + rest
  {
    StripPadded(lead, x);
    SplitAfterName(lead, x, tail);
    MapWhereCons(lead + x, Split(" " + tail, ","));
  }

  /** The last name of the list. */
  lemma NamesLast(lead: string, x: string)
    requires lead == "" || lead == " "
    requires Listable(x)
    ensures MapWhere(Split(lead + x, ","), NotBlank, Strip) == [x]
  {
    StripPadded(lead, x);
    SplitLastName(lead, x);
    MapWhereCons(lead + x, []);
  }

  /** Unfolds one step of a padded `", "`-join. */
  lemma PaddedJoinStep(lead: string, xs: seq<string>)
    requires |xs| >= 2
    ensures lead + Join(xs, ", ") == lead + xs[0] + ", " + Join(xs[1..], ", ")
  {
  }

  lemma {:induction false} NamesOfPaddedJoin(xs: seq<string>, lead: string)
    requires xs != [] && forall i :: 0 <= i < |xs| ==> Listable(xs[i])
    requires lead == "" || lead == " "
    ensures MapWhere(Split(lead + Join(xs, ", "), ","), NotBlank, Strip) == xs
    decreases |xs|
  {
    var x := xs[0];
    assert Listable(x);
    if |xs| == 1 {
      assert lead + Join(xs, ", ") == lead + x;
      NamesLast(lead, x);
    } else {
      var rest := xs[1..];
      assert xs == [x] + rest;
      assert forall i :: 0 <= i < |rest| ==> Listable(rest[i]) by {
        assert forall i :: 0 <= i < |rest| ==> rest[i] == xs[i + 1];
      }
      var tail := Join(rest, ", ");
      PaddedJoinStep(lead, xs);
      NamesOfPaddedJoin(rest, " ");
      NamesStep(lead, x, tail, rest);
    }
  }

  /** The comma parser reads back a list joined with ", ". */
  lemma NamesOfJoin(xs: seq<string>)
    requires forall i :: 0 <= i < |xs| ==> Listable(xs[i])
    ensures Names(Join(xs, ", ")) == xs
  {
    if xs == [] {
      SplitNoChar("", ',');
      assert !NotBlank("");
    } else {
      NamesOfPaddedJoin(xs, "");
      assert "" + Join(xs, ", ") == Join(xs, ", ");
    }
  }

  /** The text after the label's colon in `tag [a, b, c]`. */
  lemma AfterColonOfListLine(tag: string, xs: seq<string>)
    requires ColonLast(tag)
    ensures Contains(ListLine(tag, xs), ":")
    ensures AfterFirst(ListLine(tag, xs), ":") == " " + ("[" + Join(xs, ", ") + "]")
  {
    var line := ListLine(tag, xs);
    var body := "[" + Join(xs, ", ") + "]";
    assert line == tag + (" " + body);
    assert forall j :: 0 <= j < |tag| ==> line[j] == tag[j];
    FindFirstChar(line, ':', |tag| - 1);
    assert line[|tag|..] == " " + body;
  }

  lemma OneSpaceStrips()
    ensures LStrip(" ", Space) == []
  {
    assert In(' ', Space);
  }

  lemma BracketsNotSpace()
    ensures !In('[', Space) && !In(']', Space)
  {
  }

  /** A bracketed text after one space strips back to itself. */
  lemma StripSpacedBracketed(body: string)
    requires |body| >= 2 && body[0] == '[' && body[|body| - 1] == ']'
    ensures Strip(" " + body) == body
  {
    OneSpaceStrips();
    StripLeading(" ", body, Space);
    BracketsNotSpace();
    StripTrimmed(body, Space);
  }

  /** A line that starts with a label and ends with a bracket carries the
      label. */
  lemma ListLineLabelled(line: string, tag: string)
    requires ColonLast(tag) && StartsWith(line, tag) && line[|line| - 1] == ']'
    ensures Labelled(line, tag)
  {
    assert line[0] == tag[0];
    StripTrimmed(line, Space);
  }

  lemma ListLineShape(tag: string, xs: seq<string>)
    ensures var body := "[" + Join(xs, ", ") + "]";
      |body| >= 2 && body[0] == '[' && body[|body| - 1] == ']'
    ensures var line := ListLine(tag, xs);
      StartsWith(line, tag) && line[|line| - 1] == ']'
  {
    var line := ListLine(tag, xs);
    assert line[..|tag|] == tag;
  }

  /** `tag [a, b, c]` carries its label and has the bracketed list as its
      field text. */
  lemma FieldTextOfListLine(tag: string, xs: seq<string>)
    requires ColonLast(tag)
    ensures Contains(ListLine(tag, xs), ":")
    ensures Labelled(ListLine(tag, xs), tag)
    ensures FieldText(ListLine(tag, xs)) == "[" + Join(xs, ", ") + "]"
  {
    AfterColonOfListLine(tag, xs);
    ListLineShape(tag, xs);
    StripSpacedBracketed("[" + Join(xs, ", ") + "]");
    ListLineLabelled(ListLine(tag, xs), tag);
  }

  lemma ListBodyEnds(xs: seq<string>)
    requires forall i :: 0 <= i < |xs| ==> Listable(xs[i])
    ensures var body := Join(xs, ", ");
      body == [] || (!In(body[0], Brackets) && !In(body[|body| - 1], Brackets))
  {
    if xs != [] {
      JoinEnds(xs, ", ");
    }
  }

  /** Round trip of the backend parser: the line the prompt asks for gives
      back the listed names. */
  lemma BackendNamesOfListLine(tag: string, xs: seq<string>)
    requires ColonLast(tag)
    requires forall i :: 0 <= i < |xs| ==> Listable(xs[i])
    ensures Contains(ListLine(tag, xs), ":")
    ensures Labelled(ListLine(tag, xs), tag)
    ensures BackendNames(ListLine(tag, xs)) == xs
  {
    FieldTextOfListLine(tag, xs);
    ListBodyEnds(xs);
    StripBracketPair(Join(xs, ", "));
    NamesOfJoin(xs);
  }

  /** Round trip of the `utils` parser, which removes one bracket pair. */
  lemma UtilsNamesOfListLine(tag: string, xs: seq<string>)
    requires ColonLast(tag)
    requires forall i :: 0 <= i < |xs| ==> Listable(xs[i])
    ensures Contains(ListLine(tag, xs), ":")
    ensures Labelled(ListLine(tag, xs), tag)
    ensures UtilsNames(ListLine(tag, xs)) == xs
  {
    FieldTextOfListLine(tag, xs);
    UnwrapPair(Join(xs, ", "));
    NamesOfJoin(xs);
  }

  lemma UnwrapPair(body: string)
    ensures UnwrapBrackets("[" + body + "]") == body
  {
    var text := "[" + body + "]";
    assert text[..1] == "[" && text[|text| - 1..] == "]";
    assert text[1..|text| - 1] == body;
  }

  // ---------------------------------------------------------------------
  // The consistency verdict

  /** `"yes" in result.lower().split("\n")[0].lower()` */
  predicate FirstLineSaysYes(result: string) {
    Contains(Lower(Split(Lower(result), "\n")[0]), "yes")
  }

  /** The verdict reads the first line only: whatever follows the first
      line break is ignored, and a reply of one line is read whole. */
  lemma FirstLineVerdict(line: string, rest: string)
    requires forall i :: 0 <= i < |line| ==> line[i] != '\n'
    ensures FirstLineSaysYes(line + "\n" + rest) <==> Contains(Lower(line), "yes")
    ensures FirstLineSaysYes(line) <==> Contains(Lower(line), "yes")
  {
    LowerIdempotent(line);
    SplitNoChar(Lower(line), '\n');
    var low := Lower(line + "\n" + rest);
    assert Split(low, "\n")[0] == Lower(line) by {
      assert low == Lower(line) + "\n" + Lower(rest) by {
        LowerConcat(line, "\n" + rest);
        LowerConcat("\n", rest);
        assert Lower("\n") == "\n";
      }
      SplitAtChar(low, '\n', |line|);
      assert low[..|line|] == Lower(line);
    }
  }

  // ---------------------------------------------------------------------
  // Profiles

  /** The dictionary `retrieve_character_history` returns. */
  datatype History = History(character: string, profile: string, sourceSummaries: seq<string>)

  /** The `(name, profile)` pairs a prompt lists, in dictionary order. */
  function ProfileTexts(profiles: seq<(string, History)>): seq<(string, string)> {
    seq(|profiles|, i requires 0 <= i < |profiles| => (profiles[i].0, profiles[i].1.profile))
  }

  /** `[meta for meta in metadata if name in meta["characters"]]` */
  function Appearances(records: seq<SceneRecord>, name: string): (r: seq<SceneRecord>)
    ensures |r| <= |records|
    ensures forall i :: 0 <= i < |r| ==> r[i] in records && name in r[i].characters
    ensures r == [] <==> forall i :: 0 <= i < |records| ==> name !in records[i].characters
  {
    if records == [] then []
    else
      var init := records[..|records| - 1];
      var last := records[|records| - 1];
      var rest := Appearances(init, name);
      assert forall x :: x in init ==> x in records;
      if name in last.characters then rest + [last] else rest
  }

  /** `[scene["summary"] for scene in records]` */
  function SummariesOf(records: seq<SceneRecord>): seq<string> {
    seq(|records|, i requires 0 <= i < |records| => records[i].summary)
  }

  /** A look-back over the records that list a name is empty exactly when
      no record lists it, provided the window size is not negative; its
      records all list the name, and a positive size `n` keeps at most `n`. */
  lemma RecentAppearances(records: seq<SceneRecord>, name: string, n: int)
    requires n >= 0
    ensures Window(Appearances(records, name), n) == [] <==>
      forall i :: 0 <= i < |records| ==> name !in records[i].characters
    ensures forall i :: 0 <= i < |Window(Appearances(records, name), n)| ==>
      name in Window(Appearances(records, name), n)[i].characters
    ensures n > 0 ==> |Window(Appearances(records, name), n)| ==
                      (if n < |Appearances(records, name)| then n else |Appearances(records, name)|)
  {
    NoRecentAppearances(records, name, n);
    var relevant := Appearances(records, name);
    var recent := Window(relevant, n);
    forall i | 0 <= i < |recent|
      ensures name in recent[i].characters
    {
      assert recent[i] == relevant[|relevant| - |recent| + i];
    }
  }

  /** The look-back is empty exactly when no record lists the name. */
  lemma NoRecentAppearances(records: seq<SceneRecord>, name: string, n: int)
    requires n >= 0
    ensures Window(Appearances(records, name), n) == [] <==>
      forall i :: 0 <= i < |records| ==> name !in records[i].characters
  {
    var relevant := Appearances(records, name);
    assert Window(relevant, n) == [] <==> relevant == [];
  }

  /** Taking the summaries and then the window is taking the window and then
      the summaries. */
  lemma SummariesWindow(records: seq<SceneRecord>, n: int)
    ensures Window(SummariesOf(records), n) == SummariesOf(Window(records, n))
  {
    var all := SummariesOf(records);
    var w := Window(records, n);
    var sw := Window(all, n);
    assert |sw| == |w|;
    var k := |records| - |w|;
    forall i | 0 <= i < |w|
      ensures sw[i] == SummariesOf(w)[i]
    {
      assert sw[i] == all[k + i];
      assert w[i] == records[k + i];
    }
  }
}
