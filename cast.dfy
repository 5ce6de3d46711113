/** The reply parser shared by `characters_extraction` in the backend and
    `analyze_characters` in `utils`: one pass over the reply's lines in
    which every labelled line replaces the list its label names. The two
    differ in how a line's brackets are removed and in whether the
    `Former Characters:` label is read at all. */
module CastParser {
  import opened Wrappers
  import opened Py
  import opened Characters

  /** Which of the two helper files parses. */
  datatype Style = Backend | Utils

  /** The lists a reply fills in; `utils` has no former characters. */
  datatype Cast = Cast(current: seq<string>, newcomers: seq<string>, former: seq<string>)

  const NoCast: Cast := Cast([], [], [])

  /** The three labelled fields of a reply. */
  datatype Field = Current | Newcomers | Former

  function Tag(f: Field): (t: string)
    ensures ColonLast(t)
  {
    LabelsColonLast();
    match f
    case Current => CurrentLabel
    case Newcomers => NewLabel
    case Former => FormerLabel
  }

  /** No text starts with two different labels. */
  lemma TagsExclusive(t: string, f: Field, g: Field)
    requires f != g && StartsWith(t, Tag(f))
    ensures !StartsWith(t, Tag(g))
  {
    assert Tag(f)[0] == t[0];
    assert Tag(Current)[0] == 'C' && Tag(Newcomers)[0] == 'N' && Tag(Former)[0] == 'F';
  }

  /** The names a line carrying the label of `f` lists. */
  function LineList(style: Style, line: string, f: Field): seq<string>
    requires Labelled(line, Tag(f))
  {
    LabelledHasColon(line, Tag(f));
    match style
    case Backend => BackendNames(line)
    case Utils => UtilsNames(line)
  }

  /** One pass of the `if`/`elif` chain over a line. */
  function Step(style: Style, c: Cast, line: string): Cast {
    if Labelled(line, Tag(Current)) then c.(current := LineList(style, line, Current))
    else if Labelled(line, Tag(Newcomers)) then c.(newcomers := LineList(style, line, Newcomers))
    else if style.Backend? && Labelled(line, Tag(Former)) then c.(former := LineList(style, line, Former))
    else c
  }

  /** The lists after the loop over `lines`. */
  function ParseCast(style: Style, lines: seq<string>): Cast {
    if lines == [] then NoCast
    else Step(style, ParseCast(style, lines[..|lines| - 1]), lines[|lines| - 1])
  }

  /** The last of `lines` carrying the label of `f`. */
  function LastLabelled(lines: seq<string>, f: Field): (r: Option<string>)
    ensures r.Some? ==> Labelled(r.value, Tag(f))
  {
    if lines == [] then None
    else if Labelled(lines[|lines| - 1], Tag(f)) then Some(lines[|lines| - 1])
    else LastLabelled(lines[..|lines| - 1], f)
  }

  /** The line is the one found by a search from the end with the label
      test: no later line carries the label, and there is none exactly when
      no line does. */
  lemma {:induction false} LastLabelledSearch(lines: seq<string>, f: Field)
    ensures LastLabelled(lines, f) ==
      match LastWhere(lines, LabelTest(Tag(f)))
      case None => None
      case Some(i) => Some(lines[i])
    decreases |lines|
  {
    if lines != [] && !Labelled(lines[|lines| - 1], Tag(f)) {
      LastLabelledSearch(lines[..|lines| - 1], f);
    }
  }

  /** The list carried by the last line labelled for `f`, or `[]` when no
      line is. */
  function LastList(style: Style, lines: seq<string>, f: Field): seq<string> {
    match LastLabelled(lines, f)
    case None => []
    case Some(line) => LineList(style, line, f)
  }

  /** The last labelled line is the final line when that carries the label,
      and otherwise the last labelled line before it. */
  lemma LastListStep(style: Style, lines: seq<string>, f: Field)
    requires lines != []
    ensures LastList(style, lines, f) ==
      if Labelled(lines[|lines| - 1], Tag(f)) then LineList(style, lines[|lines| - 1], f)
      else LastList(style, lines[..|lines| - 1], f)
  {
  }

  /** A line carries at most one of the labels. */
  lemma LineLabelsExclusive(line: string)
    ensures Labelled(line, Tag(Current)) ==> !Labelled(line, Tag(Newcomers)) && !Labelled(line, Tag(Former))
    ensures Labelled(line, Tag(Newcomers)) ==> !Labelled(line, Tag(Former))
  {
    var t := Strip(line);
    if StartsWith(t, Tag(Current)) {
      TagsExclusive(t, Current, Newcomers);
      TagsExclusive(t, Current, Former);
    } else if StartsWith(t, Tag(Newcomers)) {
      TagsExclusive(t, Newcomers, Former);
    }
  }

  /** A line changes only the list its label names: the labels exclude
      each other, so the `elif` order does not matter. */
  lemma StepFields(style: Style, c: Cast, line: string)
    ensures Step(style, c, line).current ==
      if Labelled(line, Tag(Current)) then LineList(style, line, Current) else c.current
    ensures Step(style, c, line).newcomers ==
      if Labelled(line, Tag(Newcomers)) then LineList(style, line, Newcomers) else c.newcomers
    ensures Step(style, c, line).former ==
      if style.Backend? && Labelled(line, Tag(Former)) then LineList(style, line, Former) else c.former
  {
    LineLabelsExclusive(line);
  }

  /** Each list comes from the last line carrying its label, whatever
      other lines come between; a missing label leaves its list empty, and
      `utils` never fills the former characters. */
  lemma {:induction false} ParseCastFields(style: Style, lines: seq<string>)
    ensures ParseCast(style, lines) ==
      Cast(LastList(style, lines, Current), LastList(style, lines, Newcomers),
           if style.Backend? then LastList(style, lines, Former) else [])
    decreases |lines|
  {
    if lines != [] {
      var init := lines[..|lines| - 1];
      var line := lines[|lines| - 1];
      ParseCastFields(style, init);
      LastListStep(style, lines, Current);
      LastListStep(style, lines, Newcomers);
      LastListStep(style, lines, Former);
      StepFields(style, ParseCast(style, init), line);
    }
  }

  /** The loop of either parser, over the lines of the stripped reply. */
  method ParseLines(style: Style, lines: seq<string>) returns (c: Cast)
    ensures c == ParseCast(style, lines)
  {
    var current, newcomers, former := [], [], [];
    for i := 0 to |lines|
      invariant Cast(current, newcomers, former) == ParseCast(style, lines[..i])
    {
      var line := lines[i];
      ghost var before := Cast(current, newcomers, former);
      assert lines[..i + 1][..i] == lines[..i];
      assert ParseCast(style, lines[..i + 1]) == Step(style, before, line);
      StepFields(style, before, line);
      LineLabelsExclusive(line);
      if Labelled(line, Tag(Current)) {
        current := LineList(style, line, Current);
      } else if Labelled(line, Tag(Newcomers)) {
        newcomers := LineList(style, line, Newcomers);
      } else if style.Backend? && Labelled(line, Tag(Former)) {
        former := LineList(style, line, Former);
      }
    }
    assert lines[..|lines|] == lines;
    c := Cast(current, newcomers, former);
  }

  // ---------------------------------------------------------------------
  // The reply the prompts ask for

  /** A name the list format carries on one line. */
  predicate Listed(n: string) {
    Listable(n) && '\n' !in n
  }

  predicate AllListed(xs: seq<string>) {
    forall i :: 0 <= i < |xs| ==> Listed(xs[i])
  }

  /** The lines of a reply in exactly the format the prompt asks for: one
      list line per label, in the prompt's order. */
  function ListLines(style: Style, c: Cast): seq<string> {
    match style
    case Backend =>
      [ListLine(Tag(Current), c.current), ListLine(Tag(Newcomers), c.newcomers), ListLine(Tag(Former), c.former)]
    case Utils =>
      [ListLine(Tag(Current), c.current), ListLine(Tag(Newcomers), c.newcomers)]
  }

  function FormattedReply(style: Style, c: Cast): string {
    Join(ListLines(style, c), "\n")
  }

  lemma ListLineOnOneLine(f: Field, xs: seq<string>)
    requires AllListed(xs)
    ensures '\n' !in ListLine(Tag(f), xs)
    ensures |ListLine(Tag(f), xs)| > 1 && !IsSpace(ListLine(Tag(f), xs)[0])
    ensures ListLine(Tag(f), xs)[|ListLine(Tag(f), xs)| - 1] == ']'
  {
    JoinFree(xs, ", ", '\n');
    var line := ListLine(Tag(f), xs);
    assert line == Tag(f) + (" [" + Join(xs, ", ") + "]");
    assert line[0] == Tag(f)[0];
  }

  /** The reply splits back into its list lines. */
  lemma FormattedReplyLines(style: Style, c: Cast)
    requires AllListed(c.current) && AllListed(c.newcomers) && AllListed(c.former)
    ensures Split(Strip(FormattedReply(style, c)), "\n") == ListLines(style, c)
  {
    var lines := ListLines(style, c);
    ListLineOnOneLine(Current, c.current);
    ListLineOnOneLine(Newcomers, c.newcomers);
    ListLineOnOneLine(Former, c.former);
    assert forall i :: 0 <= i < |lines| ==> '\n' !in lines[i] && |lines[i]| > 1 && lines[i][|lines[i]| - 1] == ']';
    JoinEnds(lines, "\n");
    var text := FormattedReply(style, c);
    assert !In(text[0], Space) && !In(']', Space);
    StripTrimmed(text, Space);
    SplitJoinChar(lines, '\n');
  }

  /** A list line read back by the parser of either style. */
  lemma LineListOfListLine(style: Style, f: Field, xs: seq<string>)
    requires AllListed(xs)
    ensures Labelled(ListLine(Tag(f), xs), Tag(f))
    ensures LineList(style, ListLine(Tag(f), xs), f) == xs
  {
    assert forall i :: 0 <= i < |xs| ==> Listable(xs[i]);
    match style
    case Backend => BackendNamesOfListLine(Tag(f), xs);
    case Utils => UtilsNamesOfListLine(Tag(f), xs);
  }

  /** One more list line after lines that filled `c`. */
  lemma StepListLine(style: Style, c: Cast, f: Field, xs: seq<string>)
    requires AllListed(xs)
    requires style.Utils? ==> f != Former
    ensures Step(style, c, ListLine(Tag(f), xs)) ==
      match f
      case Current => c.(current := xs)
      case Newcomers => c.(newcomers := xs)
      case Former => c.(former := xs)
  {
    var line := ListLine(Tag(f), xs);
    LineListOfListLine(style, f, xs);
    LineLabelsExclusive(line);
    StepFields(style, c, line);
    if f != Current {
      TagsExclusive(Strip(line), f, Current);
    }
    if f == Former {
      TagsExclusive(Strip(line), f, Newcomers);
    }
  }

  /** The parser reads the list lines back, one list each. */
  lemma ParseListLines(style: Style, c: Cast)
    requires AllListed(c.current) && AllListed(c.newcomers) && AllListed(c.former)
    ensures ParseCast(style, ListLines(style, c)) == if style.Backend? then c else c.(former := [])
  {
    var l1 := ListLine(Tag(Current), c.current);
    var l2 := ListLine(Tag(Newcomers), c.newcomers);
    var first := NoCast.(current := c.current);
    var second := first.(newcomers := c.newcomers);
    StepListLine(style, NoCast, Current, c.current);
    StepListLine(style, first, Newcomers, c.newcomers);
    ParseOne(style, l1);
    ParseTwo(style, l1, l2);
    match style
    case Utils =>
    case Backend =>
      var l3 := ListLine(Tag(Former), c.former);
      StepListLine(style, second, Former, c.former);
      ParseThree(style, l1, l2, l3);
  }

  /** The loop over one line is one pass. */
  lemma ParseOne(style: Style, a: string)
    ensures ParseCast(style, [a]) == Step(style, NoCast, a)
  {
    assert [a][..0] == [];
  }

  /** The loop over two lines ends with a pass over the second. */
  lemma ParseTwo(style: Style, a: string, b: string)
    ensures ParseCast(style, [a, b]) == Step(style, ParseCast(style, [a]), b)
  {
    assert [a, b][..1] == [a];
  }

  /** The loop over three lines ends with a pass over the third. */
  lemma ParseThree(style: Style, a: string, b: string, c: string)
    ensures ParseCast(style, [a, b, c]) == Step(style, ParseCast(style, [a, b]), c)
  {
    assert [a, b, c][..2] == [a, b];
  }

  /** Round trip: a reply written exactly as the prompt asks gives back its
      lists, except that `utils` reads no former characters. */
  lemma ParseFormattedReply(style: Style, c: Cast)
    requires AllListed(c.current) && AllListed(c.newcomers) && AllListed(c.former)
    ensures ParseCast(style, Split(Strip(FormattedReply(style, c)), "\n")) ==
      if style.Backend? then c else c.(former := [])
  {
    FormattedReplyLines(style, c);
    ParseListLines(style, c);
  }
}
