/** The text helpers of the React front end (`src/App.js`): the three list
    splitters that lay out the writers-room findings, the outline formatter
    and the concept parser. Each regular expression is restated as explicit
    first-occurrence string functions over JavaScript's white space and line
    terminators. */
module FrontEndText {
  import opened Wrappers
  import opened Py
  import Seqs
  import TextUtils

  /** `String.prototype.trim`. */
  function Trim(s: string): (r: string)
    ensures |r| <= |s|
    ensures r != [] ==> !IsJsSpace(r[0]) && !IsJsSpace(r[|r| - 1])
  {
    StripClass(s, JsSpace)
  }

  /** Trimming twice trims no more than trimming once. */
  lemma TrimTwice(s: string)
    ensures Trim(Trim(s)) == Trim(s)
  {
    StripTrimmed(Trim(s), JsSpace);
  }

  /** The characters a regular-expression `.` does not match. */
  predicate IsLineTerminator(c: char) {
    c == '\n' || c == '\r' || c == '\U{2028}' || c == '\U{2029}'
  }

  /** The end of the run of white space that starts at `from`. */
  function SpaceEnd(s: string, from: nat): (r: nat)
    requires from <= |s|
    ensures from <= r <= |s|
    decreases |s| - from
  {
    if from == |s| || !IsJsSpace(s[from]) then from else SpaceEnd(s, from + 1)
  }

  /** The first double quote at or after `from`, or the length of the text. */
  function QuoteFrom(s: string, from: nat): (r: nat)
    requires from <= |s|
    ensures from <= r <= |s| && (r < |s| ==> s[r] == '"')
    ensures forall j :: from <= j < r ==> s[j] != '"'
    decreases |s| - from
  {
    if from == |s| || s[from] == '"' then from else QuoteFrom(s, from + 1)
  }

  /** The first line terminator at or after `from`, or the length of the
      text. */
  function LineEnd(s: string, from: nat): (r: nat)
    requires from <= |s|
    ensures from <= r <= |s|
    ensures forall j :: from <= j < r ==> !IsLineTerminator(s[j])
    decreases |s| - from
  {
    if from == |s| || IsLineTerminator(s[from]) then from else LineEnd(s, from + 1)
  }

  // ---------------------------------------------------------------------
  // The list splitters.

  /** The separators the helpers split on. */
  datatype Separator =
    | Dash        // `/- /g`
    | Numbered    // `/\d+\. /g`
    | Suggestion  // `/- \[Suggestion.*?\]:?|\d+\. /g`

  const SuggestionMark: string := "- [Suggestion"

  /** The lazy `.*?\]` after `- [Suggestion`: the first `]` at or after
      `from`, provided no line terminator comes before it. */
  function CloseBracket(s: string, from: nat): (r: Option<nat>)
    requires from <= |s|
    ensures r.Some? ==> from <= r.value < |s| && s[r.value] == ']'
    ensures r.Some? ==> forall j :: from <= j < r.value ==> s[j] != ']' && !IsLineTerminator(s[j])
    decreases |s| - from
  {
    if from == |s| || IsLineTerminator(s[from]) then None
    else if s[from] == ']' then Some(from)
    else CloseBracket(s, from + 1)
  }

  /** A numbered-item separator: a run of digits, a full stop, a space. */
  predicate NumberText(m: string) {
    |m| >= 3 && AllDigits(m[..|m| - 2]) && m[|m| - 2..] == ". "
  }

  /** `\d+\. ` at `p`: the digit run is taken whole, as the greedy `\d+`
      must be for the `. ` after it to match. */
  function NumberedAt(s: string, p: nat): (r: Option<nat>)
    requires p <= |s|
    ensures r.Some? ==> p + 3 <= r.value <= |s| && NumberText(s[p..r.value])
  {
    if p < |s| && IsDigit(s[p]) then
      var q := TextUtils.DigitRunEnd(s, p);
      if OccursAt(s, ". ", q) then
        assert s[p..q + 2][..q - p] == s[p..q];
        assert s[p..q + 2][q - p..] == s[q..q + 2];
        Some(q + 2)
      else None
    else None
  }

  /** `- \[Suggestion.*?\]:?` at `p`. */
  function SuggestionAt(s: string, p: nat): (r: Option<nat>)
    requires p <= |s|
    ensures r.Some? ==> p + |SuggestionMark| < r.value <= |s| && StartsWith(s[p..r.value], SuggestionMark)
  {
    if OccursAt(s, SuggestionMark, p) then
      match CloseBracket(s, p + |SuggestionMark|)
      case Some(j) =>
        var e := if j + 1 < |s| && s[j + 1] == ':' then j + 2 else j + 1;
        assert s[p..e][..|SuggestionMark|] == s[p..p + |SuggestionMark|];
        Some(e)
      case None => None
    else None
  }

  /** Where a match of the separator that starts at `p` ends, if one does;
      the first alternative of the suggestion pattern is tried first. */
  function MatchAt(sep: Separator, s: string, p: nat): (r: Option<nat>)
    requires p <= |s|
    ensures r.Some? ==> p < r.value <= |s|
  {
    match sep
    case Dash => if OccursAt(s, "- ", p) then Some(p + 2) else None
    case Numbered => NumberedAt(s, p)
    case Suggestion => if SuggestionAt(s, p).Some? then SuggestionAt(s, p) else NumberedAt(s, p)
  }

  /** What a separator's matched text looks like. */
  predicate SeparatorText(sep: Separator, m: string) {
    match sep
    case Dash => m == "- "
    case Numbered => NumberText(m)
    case Suggestion => StartsWith(m, SuggestionMark) || NumberText(m)
  }

  /** The leftmost match at or after `from`: its start and its end. */
  function FirstMatch(sep: Separator, s: string, from: nat): (r: Option<(nat, nat)>)
    requires from <= |s|
    ensures r.Some? ==> from <= r.value.0 < r.value.1 <= |s| && MatchAt(sep, s, r.value.0) == Some(r.value.1)
    ensures r.Some? ==> forall j :: from <= j < r.value.0 ==> MatchAt(sep, s, j).None?
    ensures r.None? ==> forall j :: from <= j <= |s| ==> MatchAt(sep, s, j).None?
    decreases |s| - from
  {
    if from == |s| then None
    else match MatchAt(sep, s, from)
      case Some(e) => Some((from, e))
      case None => FirstMatch(sep, s, from + 1)
  }

  /** `text.split(re)`: the pieces between the leftmost non-overlapping
      matches, left to right. The patterns look only forward from where
      they start, so searching the rest of the text after a match is the
      same as searching on in the whole text. */
  function SplitBy(sep: Separator, s: string): (r: seq<string>)
    ensures |r| >= 1
    decreases |s|
  {
    match FirstMatch(sep, s, 0)
    case None => [s]
    case Some((i, e)) => [s[..i]] + SplitBy(sep, s[e..])
  }

  /** The matched separators, in order. */
  function Separators(sep: Separator, s: string): (r: seq<string>)
    ensures |r| == |SplitBy(sep, s)| - 1
    decreases |s|
  {
    match FirstMatch(sep, s, 0)
    case None => []
    case Some((i, e)) => [s[i..e]] + Separators(sep, s[e..])
  }

  /** The pieces with the separators put back between them. */
  function Weave(pieces: seq<string>, seps: seq<string>): string
    requires |pieces| == |seps| + 1
  {
    if seps == [] then pieces[0] else pieces[0] + seps[0] + Weave(pieces[1..], seps[1..])
  }

  /** The pieces and the separators between them make up the text again,
      and every separator has its pattern's shape. */
  lemma {:induction false} SplitRejoins(sep: Separator, s: string)
    ensures Weave(SplitBy(sep, s), Separators(sep, s)) == s
    ensures forall m :: m in Separators(sep, s) ==> SeparatorText(sep, m)
    decreases |s|
  {
    match FirstMatch(sep, s, 0)
    case None =>
    case Some((i, e)) =>
      SplitRejoins(sep, s[e..]);
      MatchText(sep, s, i);
      assert SplitBy(sep, s)[1..] == SplitBy(sep, s[e..]);
      assert Separators(sep, s)[1..] == Separators(sep, s[e..]);
      ThreeParts(s, i, e);
  }

  /** A match's text has its separator's shape. */
  lemma MatchText(sep: Separator, s: string, p: nat)
    requires p <= |s| && MatchAt(sep, s, p).Some?
    ensures SeparatorText(sep, s[p..MatchAt(sep, s, p).value])
  {
    if sep.Dash? {
      assert s[p..p + 2] == "- ";
    }
  }

  /** `/- /` splits exactly as splitting at the string `"- "` does, so
      joining the pieces with `"- "` gives back the text. */
  lemma {:induction false} DashSplit(s: string)
    ensures SplitBy(Dash, s) == Split(s, "- ")
    ensures Join(SplitBy(Dash, s), "- ") == s
    decreases |s|
  {
    DashFirstMatch(s, 0);
    match FindFrom(s, "- ", 0)
    case None =>
    case Some(i) =>
      DashSplit(s[i + 2..]);
    JoinSplit(s, "- ");
  }

  lemma {:induction false} DashFirstMatch(s: string, from: nat)
    requires from <= |s|
    ensures FirstMatch(Dash, s, from) ==
      (match FindFrom(s, "- ", from) case None => None case Some(i) => Some((i, i + 2)))
    decreases |s| - from
  {
    if from < |s| && !OccursAt(s, "- ", from) {
      DashFirstMatch(s, from + 1);
    }
  }

  /** A match inside a prefix of the text is a match in the whole text. */
  lemma MatchInPrefix(sep: Separator, s: string, n: nat, p: nat)
    requires p <= n <= |s| && MatchAt(sep, s[..n], p).Some?
    ensures MatchAt(sep, s, p).Some?
  {
    var t := s[..n];
    match sep
    case Dash =>
      assert t[p..p + 2] == s[p..p + 2];
    case Numbered =>
      NumberedInPrefix(s, n, p);
    case Suggestion =>
      if SuggestionAt(t, p).Some? {
        SuggestionInPrefix(s, n, p);
      } else {
        NumberedInPrefix(s, n, p);
      }
  }

  lemma NumberedInPrefix(s: string, n: nat, p: nat)
    requires p <= n <= |s| && NumberedAt(s[..n], p).Some?
    ensures NumberedAt(s, p).Some?
  {
    var t := s[..n];
    var q := TextUtils.DigitRunEnd(t, p);
    DigitRunInPrefix(s, n, p);
    assert t[q..q + 2] == s[q..q + 2];
  }

  /** A digit run that ends inside a prefix ends at the same place in the
      whole text. */
  lemma {:induction false} DigitRunInPrefix(s: string, n: nat, p: nat)
    requires p <= n <= |s| && TextUtils.DigitRunEnd(s[..n], p) < n
    ensures TextUtils.DigitRunEnd(s, p) == TextUtils.DigitRunEnd(s[..n], p)
    decreases n - p
  {
    if p < n && IsDigit(s[p]) {
      DigitRunInPrefix(s, n, p + 1);
    }
  }

  lemma SuggestionInPrefix(s: string, n: nat, p: nat)
    requires p <= n <= |s| && SuggestionAt(s[..n], p).Some?
    ensures SuggestionAt(s, p).Some?
  {
    var t := s[..n];
    assert t[p..p + |SuggestionMark|] == s[p..p + |SuggestionMark|];
    CloseBracketInPrefix(s, n, p + |SuggestionMark|);
  }

  lemma {:induction false} CloseBracketInPrefix(s: string, n: nat, from: nat)
    requires from <= n <= |s| && CloseBracket(s[..n], from).Some?
    ensures CloseBracket(s, from) == CloseBracket(s[..n], from)
    decreases n - from
  {
    if from < n && !IsLineTerminator(s[from]) && s[from] != ']' {
      CloseBracketInPrefix(s, n, from + 1);
    }
  }

  /** No piece holds a match of its separator: each match was cut out. */
  lemma {:induction false} PiecesHoldNoSeparator(sep: Separator, s: string)
    ensures forall k, j :: 0 <= k < |SplitBy(sep, s)| && 0 <= j <= |SplitBy(sep, s)[k]| ==>
      MatchAt(sep, SplitBy(sep, s)[k], j).None?
    decreases |s|
  {
    var pieces := SplitBy(sep, s);
    match FirstMatch(sep, s, 0)
    case None =>
      assert pieces == [s];
    case Some((i, e)) =>
      PiecesHoldNoSeparator(sep, s[e..]);
      assert pieces[1..] == SplitBy(sep, s[e..]);
      forall j | 0 <= j <= i
        ensures MatchAt(sep, s[..i], j).None?
      {
        if MatchAt(sep, s[..i], j).Some? {
          MatchInPrefix(sep, s, i, j);
        }
      }
      forall k, j | 0 <= k < |pieces| && 0 <= j <= |pieces[k]|
        ensures MatchAt(sep, pieces[k], j).None?
      {
        if k > 0 {
          assert pieces[k] == SplitBy(sep, s[e..])[k - 1];
        }
      }
  }

  /** `.filter(Boolean)` keeps the non-empty strings. */
  predicate NonEmpty(x: string) {
    x != []
  }

  function Kept(pieces: seq<string>): seq<string> {
    Seqs.Filter(pieces, NonEmpty)
  }

  function TrimAll(items: seq<string>): seq<string> {
    seq(|items|, i requires 0 <= i < |items| => Trim(items[i]))
  }

  /** Split, drop the empty pieces, trim the rest. */
  function SplitTrimmed(sep: Separator, text: string): seq<string> {
    TrimAll(Kept(SplitBy(sep, text)))
  }

  /** The items are the trimmed forms of the non-empty pieces, in their
      order and no more of them; every item is trimmed already. */
  lemma SplitTrimmedItems(sep: Separator, text: string)
    ensures |SplitTrimmed(sep, text)| <= |SplitBy(sep, text)|
    ensures forall x :: x in SplitTrimmed(sep, text) <==>
      exists p :: p in SplitBy(sep, text) && p != [] && x == Trim(p)
    ensures forall x :: x in SplitTrimmed(sep, text) ==> Trim(x) == x
  {
    var pieces := SplitBy(sep, text);
    KeptShrinks(pieces);
    ItemsFromPieces(pieces);
    PiecesToItems(pieces);
  }

  lemma ItemsFromPieces(pieces: seq<string>)
    ensures forall x :: x in TrimAll(Kept(pieces)) ==>
      (exists p :: p in pieces && p != [] && x == Trim(p)) && Trim(x) == x
  {
    forall x | x in TrimAll(Kept(pieces))
      ensures (exists p :: p in pieces && p != [] && x == Trim(p)) && Trim(x) == x
    {
      ItemFromPiece(pieces, x);
    }
  }

  lemma ItemFromPiece(pieces: seq<string>, x: string)
    requires x in TrimAll(Kept(pieces))
    ensures exists p :: p in pieces && p != [] && x == Trim(p)
    ensures Trim(x) == x
  {
    var kept := Kept(pieces);
    Seqs.FilterMembers(pieces, NonEmpty);
    var i :| 0 <= i < |kept| && x == TrimAll(kept)[i];
    var p := kept[i];
    assert p in kept;
    assert p in pieces && p != [] && x == Trim(p);
    TrimTwice(p);
  }

  lemma PiecesToItems(pieces: seq<string>)
    ensures forall p :: p in pieces && p != [] ==> Trim(p) in TrimAll(Kept(pieces))
  {
    forall p | p in pieces && p != []
      ensures Trim(p) in TrimAll(Kept(pieces))
    {
      PieceToItem(pieces, p);
    }
  }

  lemma PieceToItem(pieces: seq<string>, p: string)
    requires p in pieces && p != []
    ensures Trim(p) in TrimAll(Kept(pieces))
  {
    var kept := Kept(pieces);
    Seqs.FilterMembers(pieces, NonEmpty);
    assert p in kept;
    var i :| 0 <= i < |kept| && kept[i] == p;
    assert TrimAll(kept)[i] == Trim(p);
  }

  lemma KeptOne(x: string)
    requires x != []
    ensures Kept([x]) == [x]
  {
    assert [x][1..] == [];
    assert Seqs.Filter([x][1..], NonEmpty) == [];
    assert NonEmpty(x);
  }

  lemma {:induction false} KeptShrinks(pieces: seq<string>)
    ensures |Kept(pieces)| <= |pieces|
  {
    if pieces != [] {
      KeptShrinks(pieces[1..]);
    }
  }

  /** `splitByDash`. */
  function SplitByDash(text: string): seq<string> {
    if text == "" then [] else SplitTrimmed(Dash, text)
  }

  /** `splitNumbered`. */
  function SplitNumbered(text: string): seq<string> {
    if text == "" then [] else SplitTrimmed(Numbered, text)
  }

  /** The empty text gives no items; a text without a separator gives
      itself, trimmed; and the dash split is the split at the string
      `"- "`. */
  lemma SplitHelpers(text: string)
    ensures text == "" ==> SplitByDash(text) == [] && SplitNumbered(text) == []
    ensures text != "" ==> SplitByDash(text) == TrimAll(Kept(Split(text, "- ")))
    ensures text != "" && FirstMatch(Dash, text, 0).None? ==> SplitByDash(text) == [Trim(text)]
    ensures text != "" && FirstMatch(Numbered, text, 0).None? ==> SplitNumbered(text) == [Trim(text)]
  {
    DashSplit(text);
    if text != "" {
      KeptOne(text);
    }
  }

  /** `splitRecommendations`: the suggestion-or-number split when it has
      more than one item, else the dash split when it has, else the whole
      text trimmed. */
  function SplitRecommendations(text: string): seq<string> {
    if text == "" then []
    else
      var items := Kept(SplitBy(Suggestion, text));
      if |items| > 1 then TrimAll(items)
      else
        var dashItems := Kept(SplitBy(Dash, text));
        if |dashItems| > 1 then TrimAll(dashItems) else [Trim(text)]
  }

  /** The list is empty exactly for the empty text; a single item is the
      whole text trimmed; several items are one of the two splits. */
  lemma RecommendationCases(text: string)
    ensures SplitRecommendations(text) == [] <==> text == ""
    ensures |SplitRecommendations(text)| == 1 ==> SplitRecommendations(text) == [Trim(text)]
    ensures |SplitRecommendations(text)| > 1 ==>
      SplitRecommendations(text) == SplitTrimmed(Suggestion, text) ||
      SplitRecommendations(text) == SplitTrimmed(Dash, text)
    ensures text != "" && |Kept(SplitBy(Suggestion, text))| > 1 ==>
      SplitRecommendations(text) == SplitTrimmed(Suggestion, text)
  {
  }

  // ---------------------------------------------------------------------
  // The outline.

  const ConceptMarker: string := "Episode Concept:"

  /** One line of the formatted outline. */
  datatype Element =
    | ConceptLine(text: string)                    // the label in bold, then the rest of the line trimmed
    | SceneHeading(heading: string, rest: string)  // scene label and quoted title in bold, then the rest
    | SceneLine(line: string)                      // a scene line without a quoted title, as it is
    | OtherLine(line: string)                      // any other line, as it is

  /** What `formatOutline` gives: `''` for an empty outline, or the
      elements. */
  datatype Outline = NoOutline | Elements(items: seq<Element>)

  /** `/^Scene \d+:/`: the index just past the colon. */
  function SceneLabelEnd(line: string): (r: Option<nat>)
    ensures r.Some? ==> 8 <= r.value <= |line| && StartsWith(line, "Scene ") && line[r.value - 1] == ':'
  {
    if StartsWith(line, "Scene ") && 6 < |line| && IsDigit(line[6]) then
      var q := TextUtils.DigitRunEnd(line, 6);
      if q < |line| && line[q] == ':' then Some(q + 1) else None
    else None
  }

  /** `/^(Scene \d+:\s*"[^"]+"\s*)(.*)/`: the heading, up to the white space
      after the quoted title, and the rest of the line up to a line
      terminator. */
  function SceneTitle(line: string): (r: Option<(string, string)>)
    ensures r.Some? ==> SceneLabelEnd(line).Some? && StartsWith(line, r.value.0 + r.value.1)
    ensures r.Some? ==> StartsWith(r.value.0, "Scene ") && '"' in r.value.0
    ensures r.Some? ==> forall j :: 0 <= j < |r.value.1| ==> !IsLineTerminator(r.value.1[j])
  {
    match SceneLabelEnd(line)
    case None => None
    case Some(c) =>
      var open := SpaceEnd(line, c);
      if open < |line| && line[open] == '"' then
        var close := QuoteFrom(line, open + 1);
        if open + 1 < close < |line| then
          var h := SpaceEnd(line, close + 1);
          var e := LineEnd(line, h);
          assert line[..h] + line[h..e] == line[..e];
          assert line[..h][..6] == line[..6];
          assert line[..h][open] == '"';
          Some((line[..h], line[h..e]))
        else None
      else None
  }

  /** The element a line becomes. */
  function Classify(line: string): (e: Element)
    ensures e.ConceptLine? <==> StartsWith(line, ConceptMarker)
    ensures e.ConceptLine? ==> e.text == Trim(line[|ConceptMarker|..])
    ensures e.SceneHeading? || e.SceneLine? <==> !StartsWith(line, ConceptMarker) && SceneLabelEnd(line).Some?
    ensures e.SceneHeading? <==> !StartsWith(line, ConceptMarker) && SceneTitle(line).Some?
    ensures e.SceneHeading? ==> StartsWith(line, e.heading + e.rest)
    ensures e.SceneLine? || e.OtherLine? ==> e.line == line
  {
    if StartsWith(line, ConceptMarker) then
      // `replace` drops the first occurrence of the label, the prefix
      ConceptLine(Trim(line[|ConceptMarker|..]))
    else if SceneLabelEnd(line).Some? then
      match SceneTitle(line)
      case Some((heading, rest)) => SceneHeading(heading, rest)
      case None => SceneLine(line)
    else OtherLine(line)
  }

  /** A line that is not blank once trimmed. */
  predicate HasText(line: string) {
    Trim(line) != []
  }

  /** The lines kept: the outline's lines that are not blank. */
  function OutlineLines(outline: string): seq<string> {
    Seqs.Filter(Split(outline, "\n"), HasText)
  }

  function Classified(lines: seq<string>): seq<Element> {
    Seqs.Map(lines, Classify)
  }

  /** `formatOutline`: one element pushed for each kept line. */
  method FormatOutline(outline: string) returns (r: Outline)
    ensures outline == "" <==> r == NoOutline
    ensures r.Elements? ==> r.items == Classified(OutlineLines(outline))
  {
    if outline == "" {
      return NoOutline;
    }
    var lines := Seqs.Filter(Split(outline, "\n"), HasText);
    var elements: seq<Element> := [];
    for i := 0 to |lines|
      invariant elements == Classified(lines[..i])
    {
      assert lines[..i + 1] == lines[..i] + [lines[i]];
      elements := elements + [Classify(lines[i])];
    }
    assert lines[..|lines|] == lines;
    r := Elements(elements);
  }

  /** An outline given as lines joined by line feeds yields one element per
      line that is not blank, in their order. */
  lemma OutlineOfLines(lines: seq<string>)
    requires lines != [] && forall i :: 0 <= i < |lines| ==> '\n' !in lines[i]
    ensures OutlineLines(Join(lines, "\n")) == Seqs.Filter(lines, HasText)
    ensures |Classified(OutlineLines(Join(lines, "\n")))| == |Seqs.Filter(lines, HasText)|
  {
    SplitJoinChar(lines, '\n');
  }

  /** Formatting works line by line: the elements of two outlines joined by
      a line feed are the elements of the first, then of the second. */
  lemma OutlineAppend(a: string, b: string)
    ensures OutlineLines(a + "\n" + b) == OutlineLines(a) + OutlineLines(b)
    ensures Classified(OutlineLines(a + "\n" + b)) == Classified(OutlineLines(a)) + Classified(OutlineLines(b))
  {
    SplitCharAppend(a, b, '\n');
    Seqs.FilterAppend(Split(a, "\n"), Split(b, "\n"), HasText);
    Seqs.MapAppend(OutlineLines(a), OutlineLines(b), Classify);
  }

  /** Splitting at a character undoes joining two texts with it. */
  lemma {:induction false} SplitCharAppend(a: string, b: string, c: char)
    ensures Split(a + [c] + b, [c]) == Split(a, [c]) + Split(b, [c])
    decreases |a|
  {
    CharFound(a, c);
    match FindFrom(a, [c], 0)
    case None =>
      SplitAfterHead(a, c, b);
      SplitNoChar(a, c);
    case Some(i) =>
      SplitCharAppend(a[i + 1..], b, c);
      SplitCharAppendAt(a, b, c, i);
  }

  /** What the search for a one-character separator finds. */
  lemma CharFound(a: string, c: char)
    ensures FindFrom(a, [c], 0).None? ==> forall j :: 0 <= j < |a| ==> a[j] != c
    ensures FindFrom(a, [c], 0).Some? ==>
      FindFrom(a, [c], 0).value < |a| && a[FindFrom(a, [c], 0).value] == c &&
      forall j :: 0 <= j < FindFrom(a, [c], 0).value ==> a[j] != c
  {
    var found := FindFrom(a, [c], 0);
    var end := if found.Some? then found.value else |a|;
    forall j | 0 <= j < end
      ensures a[j] != c
    {
      assert !OccursAt(a, [c], j);
      assert a[j..j + 1] == [a[j]];
    }
    if found.Some? {
      assert a[end..end + 1] == [c];
    }
  }

  /** The step of the induction: the first separator of `a` at `i`. */
  lemma SplitCharAppendAt(a: string, b: string, c: char, i: nat)
    requires i < |a| && a[i] == c && forall j :: 0 <= j < i ==> a[j] != c
    requires Split(a[i + 1..] + [c] + b, [c]) == Split(a[i + 1..], [c]) + Split(b, [c])
    ensures Split(a + [c] + b, [c]) == Split(a, [c]) + Split(b, [c])
  {
    var s := a + [c] + b;
    var tail := a[i + 1..] + [c] + b;
    assert Split(s, [c]) == [a[..i]] + Split(tail, [c]) by {
      AroundFirst(a, b, c, i);
      SplitAtChar(s, c, i);
    }
    assert Split(a, [c]) == [a[..i]] + Split(a[i + 1..], [c]) by {
      SplitAtChar(a, c, i);
    }
    Seqs.AppendJoined([a[..i]], Split(a[i + 1..], [c]), Split(b, [c]));
  }

  /** The text joined with `b` at `c`, before and after the position `i`
      of `a`. */
  lemma AroundFirst(a: string, b: string, c: char, i: nat)
    requires i < |a|
    ensures (a + [c] + b)[..i] == a[..i]
    ensures (a + [c] + b)[i + 1..] == a[i + 1..] + [c] + b
    ensures forall j :: 0 <= j <= i ==> (a + [c] + b)[j] == a[j]
  {
  }

  // ---------------------------------------------------------------------
  // The concept.

  /** The concept as the concept step shows it. */
  datatype Concept = Concept(title: string, description: string)

  /** `word`, written in lower case, at `p` in any case: the `i` flag
      folds the ASCII letters only. */
  predicate WordAt(s: string, p: nat, word: string)
    decreases |word|
  {
    if word == [] then p <= |s| else p < |s| && LowerChar(s[p]) == word[0] && WordAt(s, p + 1, word[1..])
  }

  lemma {:induction false} WordInside(s: string, p: nat, word: string)
    requires WordAt(s, p, word)
    ensures p + |word| <= |s|
    decreases |word|
  {
    if word != [] {
      WordInside(s, p + 1, word[1..]);
    }
  }

  predicate TitleAt(s: string, p: nat) {
    WordAt(s, p, "title:")
  }

  predicate DescriptionAt(s: string, d: nat) {
    WordAt(s, d, "description")
  }

  /** Where the title group starts once the white space after `Title:`
      ends at `w`: past an opening quote, when there is one. */
  function GroupStart(s: string, w: nat): (g: nat)
    requires w <= |s|
    ensures w <= g <= |s|
  {
    if w < |s| && s[w] == '"' then w + 1 else w
  }

  /** Where `Description` has to begin when the title group ends at `e`:
      past the closing quote, when there is one, and the white space after. */
  function DescriptionStart(s: string, e: nat): nat
    requires e <= |s|
  {
    if e < |s| && s[e] == '"' then SpaceEnd(s, e + 1) else SpaceEnd(s, e)
  }

  /** `Description` follows a title group that ends at `e`. */
  predicate DescribedAfter(s: string, e: nat) {
    e <= |s| && DescriptionAt(s, DescriptionStart(s, e))
  }

  /** The pattern `/Title:\s*"?([^"]+)"?\s*Description:?\s*(.*)/is` matches
      with `Title:` at `p`, the white space after it taken up to `w` and
      the title group ending at `e`. */
  predicate MatchesAt(s: string, p: nat, w: nat, e: nat) {
    TitleAt(s, p) && p + 6 <= |s| && p + 6 <= w <= SpaceEnd(s, p + 6) &&
    GroupStart(s, w) < e <= QuoteFrom(s, GroupStart(s, w)) &&
    DescribedAfter(s, e)
  }

  /** The pattern matches nowhere with `Title:` at `p`. */
  ghost predicate NoMatchAt(s: string, p: nat) {
    forall w, e :: !MatchesAt(s, p, w, e)
  }

  /** The last position after `g` and up to `e` that has the property. */
  function LastPositionWhere(g: nat, e: nat, holds: nat -> bool): (r: Option<nat>)
    requires g <= e
    ensures r.Some? ==> g < r.value <= e && holds(r.value)
    ensures r.Some? ==> forall k: nat :: r.value < k <= e ==> !holds(k)
    ensures r.None? ==> forall k: nat :: g < k <= e ==> !holds(k)
    decreases e
  {
    if e == g then None
    else if holds(e) then Some(e)
    else LastPositionWhere(g, e - 1, holds)
  }

  /** The property of a title-group end that `Description` follows it. */
  function Described(s: string): nat -> bool {
    (k: nat) => DescribedAfter(s, k)
  }

  /** The greedy title group from `g`: the last end at or before `e` after
      which `Description` follows. */
  function TitleEnd(s: string, g: nat, e: nat): (r: Option<nat>)
    requires g <= e <= |s|
    ensures r.Some? ==> g < r.value <= e && DescribedAfter(s, r.value)
    ensures r.Some? ==> forall k: nat :: r.value < k <= e ==> !DescribedAfter(s, k)
    ensures r.None? ==> forall k: nat :: g < k <= e ==> !DescribedAfter(s, k)
  {
    var r := LastPositionWhere(g, e, Described(s));
    assert forall k: nat :: Described(s)(k) == DescribedAfter(s, k);
    r
  }

  /** The backtracking after `Title:` at `p`: the white space is given back
      one character at a time, from `w` down, until a title group fits. */
  function MatchAfterTitle(s: string, p: nat, w: nat): (r: Option<(nat, nat)>)
    requires TitleAt(s, p) && p + 6 <= |s| && p + 6 <= w <= SpaceEnd(s, p + 6)
    ensures r.Some? ==> MatchesAt(s, p, r.value.0, r.value.1)
    ensures r.None? ==> forall v, e :: p + 6 <= v <= w ==> !MatchesAt(s, p, v, e)
    decreases w
  {
    var g := GroupStart(s, w);
    match TitleEnd(s, g, QuoteFrom(s, g))
    case Some(e) => Some((w, e))
    case None => if w == p + 6 then None else MatchAfterTitle(s, p, w - 1)
  }

  /** The leftmost match at or after `from`. */
  function MatchFrom(s: string, from: nat): (r: Option<(nat, nat, nat)>)
    requires from <= |s|
    ensures r.Some? ==> from <= r.value.0 && MatchesAt(s, r.value.0, r.value.1, r.value.2)
    decreases |s| - from
  {
    if from == |s| then None
    else if TitleAt(s, from) then
      WordInside(s, from, "title:");
      match MatchAfterTitle(s, from, SpaceEnd(s, from + 6))
      case Some((w, e)) => Some((from, w, e))
      case None => MatchFrom(s, from + 1)
    else MatchFrom(s, from + 1)
  }

  /** The search after `Title:` at `p`, from the whole white-space run. */
  function TitleMatch(s: string, p: nat): Option<(nat, nat)>
    requires TitleAt(s, p)
  {
    WordInside(s, p, "title:");
    MatchAfterTitle(s, p, SpaceEnd(s, p + 6))
  }

  /** Where the search moves on from a position, nothing matches there. */
  lemma Skipped(s: string, p: nat)
    requires p < |s| && (!TitleAt(s, p) || TitleMatch(s, p).None?)
    ensures MatchFrom(s, p) == MatchFrom(s, p + 1)
    ensures NoMatchAt(s, p)
  {
    if TitleAt(s, p) {
      WordInside(s, p, "title:");
    }
  }

  /** Past the end, nothing matches. */
  lemma NothingPastEnd(s: string, p: nat)
    requires |s| <= p
    ensures NoMatchAt(s, p)
  {
    forall w, e
      ensures !MatchesAt(s, p, w, e)
    {
      if TitleAt(s, p) {
        WordInside(s, p, "title:");
      }
    }
  }

  /** Every position from `a` up to `b` has the property. */
  ghost predicate Throughout(a: nat, b: nat, holds: nat -> bool)
    decreases b - a
  {
    a >= b || (holds(a) && Throughout(a + 1, b, holds))
  }

  lemma {:induction false} ThroughoutAt(a: nat, b: nat, holds: nat -> bool, p: nat)
    requires Throughout(a, b, holds) && a <= p < b
    ensures holds(p)
    decreases b - a
  {
    if a < p {
      ThroughoutAt(a + 1, b, holds, p);
    }
  }

  /** The property of a position that the pattern matches nowhere
      there. */
  ghost function Unmatched(s: string): nat -> bool {
    (p: nat) => NoMatchAt(s, p)
  }

  /** The pattern matches at no position from `a` up to `b`. */
  ghost predicate NoMatchIn(s: string, a: nat, b: nat) {
    Throughout(a, b, Unmatched(s))
  }

  /** The match found is the leftmost: no position before it matches, and
      when none is found no position up to the end does. */
  lemma {:induction false} MatchFromLeftmost(s: string, from: nat)
    requires from <= |s|
    ensures MatchFrom(s, from).Some? ==> NoMatchIn(s, from, MatchFrom(s, from).value.0)
    ensures MatchFrom(s, from).None? ==> NoMatchIn(s, from, |s| + 1)
    decreases |s| - from
  {
    var noMatch := Unmatched(s);
    if from == |s| {
      assert MatchFrom(s, from) == None;
      NothingPastEnd(s, from);
      assert Throughout(from + 1, |s| + 1, noMatch);
    } else if !TitleAt(s, from) || TitleMatch(s, from).None? {
      Skipped(s, from);
      MatchFromLeftmost(s, from + 1);
      assert noMatch(from);
    } else {
      assert MatchFrom(s, from).value.0 == from;
    }
  }

  /** With no match found, the pattern matches at no position at all. */
  lemma NoMatchAnywhere(s: string)
    requires MatchFrom(s, 0).None?
    ensures forall p :: NoMatchAt(s, p)
  {
    MatchFromLeftmost(s, 0);
    forall p: nat
      ensures NoMatchAt(s, p)
    {
      if p <= |s| {
        ThroughoutAt(0, |s| + 1, Unmatched(s), p);
      } else {
        NothingPastEnd(s, p);
      }
    }
  }

  /** `parseSitcomConcept`: the title group and the text after
      `Description`, both trimmed, or no title and the whole concept. */
  function ParseSitcomConcept(concept: string): Concept {
    match MatchFrom(concept, 0)
    case None => Concept("", concept)
    case Some((_, w, e)) => Concept(Trim(concept[GroupStart(concept, w)..e]), Trim(AfterDescription(concept, e)))
  }

  /** The second group: what follows `Description`, an optional colon and
      the white space after them, when the title group ends at `e`. */
  function AfterDescription(s: string, e: nat): (r: string)
    requires e <= |s| && DescribedAfter(s, e)
    ensures |r| + 11 <= |s|
  {
    var d := DescriptionStart(s, e) + 11;
    WordInside(s, DescriptionStart(s, e), "description");
    var after := if d < |s| && s[d] == ':' then d + 1 else d;
    s[SpaceEnd(s, after)..]
  }

  /** The concept falls back to no title and the whole text exactly when
      the pattern matches at no position. */
  lemma ConceptFallback(concept: string)
    ensures ParseSitcomConcept(concept) == Concept("", concept) <==> forall p :: NoMatchAt(concept, p)
  {
    var m := MatchFrom(concept, 0);
    if m.None? {
      NoMatchAnywhere(concept);
    } else {
      var (p, w, e) := m.value;
      assert !NoMatchAt(concept, p);
      var rest := AfterDescription(concept, e);
      assert |Trim(rest)| < |concept|;
    }
  }

  /** A title found holds no double quote. */
  lemma TitleHasNoQuote(concept: string)
    ensures '"' !in ParseSitcomConcept(concept).title
  {
    var m := MatchFrom(concept, 0);
    if m.Some? {
      var (p, w, e) := m.value;
      var g := GroupStart(concept, w);
      QuoteFreeRun(concept, g, e);
      TrimInside(concept[g..e]);
    }
  }

  /** The characters before the first quote are no quotes. */
  lemma QuoteFreeRun(s: string, g: nat, e: nat)
    requires g <= |s| && g <= e <= QuoteFrom(s, g)
    ensures '"' !in s[g..e]
  {
    forall j | 0 <= j < e - g
      ensures s[g..e][j] != '"'
    {
      assert s[g..e][j] == s[g + j];
    }
  }

  /** Trimming only removes characters: what is left is a slice. */
  lemma TrimInside(s: string)
    ensures forall c :: c in Trim(s) ==> c in s
  {
    var l := LStrip(s, JsSpace);
    var a := |s| - |l|;
    var r := RStrip(l, JsSpace);
    assert r == s[a..a + |r|];
    SliceMembers(s, a, a + |r|);
  }

  lemma SliceMembers(s: string, a: nat, b: nat)
    requires a <= b <= |s|
    ensures forall c :: c in s[a..b] ==> c in s
  {
    forall c | c in s[a..b]
      ensures c in s
    {
      var j :| 0 <= j < b - a && s[a..b][j] == c;
      assert s[a + j] == c;
    }
  }
}
