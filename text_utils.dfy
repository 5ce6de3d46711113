/** Text extraction over outlines and scripts: one scene of an outline, the
    sitcom title, the episode concept, and the grouping of scenes into
    fixed-size blocks. The regular expressions of the original are restated
    as explicit first-occurrence searches. */
module TextUtils {
  import opened Wrappers
  import opened Py
  import Seqs

  // ---------------------------------------------------------------------
  // extract_scene

  /** `Scene {n}:` */
  function SceneHead(n: int): (r: string)
    ensures |r| > 7 && r[0] == 'S' && r[|r| - 1] == ':'
  {
    "Scene " + IntToString(n) + ":"
  }

  /** `\nScene {n + 1}:` */
  function NextSceneHead(n: int): string {
    "\nScene " + IntToString(n + 1) + ":"
  }

  /** The span the scene pattern matches: from the first `Scene {n}:` up to
      the first `\nScene {n + 1}:` that starts after it, or to the end. */
  function SceneSpan(text: string, n: int): (r: Option<(nat, nat)>)
    ensures r.None? <==> !Contains(text, SceneHead(n))
    ensures r.Some? ==>
      var (i, j) := r.value;
      i + |SceneHead(n)| <= j <= |text| &&
      OccursAt(text, SceneHead(n), i) &&
      (forall k :: 0 <= k < i ==> !OccursAt(text, SceneHead(n), k)) &&
      (j < |text| ==> OccursAt(text, NextSceneHead(n), j)) &&
      (forall k :: i + |SceneHead(n)| <= k < j ==> !OccursAt(text, NextSceneHead(n), k))
  {
    match Find(text, SceneHead(n))
    case None => None
    case Some(i) =>
      match FindFrom(text, NextSceneHead(n), i + |SceneHead(n)|)
      case Some(j) => Some((i, j))
      case None => Some((i, |text|))
  }

  /** `extract_scene(outline_text, n)`. */
  function ExtractScene(text: string, n: int): (r: Option<string>)
    ensures r.None? <==> !Contains(text, SceneHead(n))
    ensures r.Some? ==> StartsWith(r.value, SceneHead(n))
    ensures r.Some? ==> !IsSpace(r.value[0]) && !IsSpace(r.value[|r.value| - 1])
  {
    match SceneSpan(text, n)
    case None => None
    case Some((i, j)) =>
      var t := StrippedSpan(text, SceneHead(n), i, j);
      Some(t)
  }

  /** The matched span, stripped: it still starts with the scene's header,
      whose ends are not white space. */
  function StrippedSpan(text: string, head: string, i: nat, j: nat): (t: string)
    requires i + |head| <= j <= |text| && OccursAt(text, head, i)
    requires head != [] && !IsSpace(head[0]) && !IsSpace(head[|head| - 1])
    ensures StartsWith(t, head) && t != []
    ensures !IsSpace(t[0]) && !IsSpace(t[|t| - 1])
  {
    assert StartsWith(text[i..j], head) by {
      assert text[i..j][..|head|] == text[i..i + |head|];
    }
    StripKeepsPrefix(text[i..j], head, Space);
    Strip(text[i..j])
  }

  /** The scene runs to the end of the text when the next scene's header
      does not follow it, and stops right before that header when it does. */
  lemma ExtractSceneBoundary(text: string, n: int)
    requires Contains(text, SceneHead(n))
    ensures var (i, j) := SceneSpan(text, n).value;
      ExtractScene(text, n) == Some(Strip(text[i..j])) &&
      (!Contains(text[i..], NextSceneHead(n)) ==> j == |text|)
  {
    var (i, j) := SceneSpan(text, n).value;
    if j < |text| {
      OccursInSuffix(text, NextSceneHead(n), i, j);
    }
  }

  // ---------------------------------------------------------------------
  // extract_title

  /** The text strictly between the first and the last `"` of a line that
      starts with `Title:`, when there are two distinct quotes. */
  function QuotedTitle(line: string): Option<string> {
    if !StartsWith(line, "Title:") then None
    else
      match (FindAnyFrom(line, Chars({'"'}), 0), RFindChar(line, '"'))
      case (Some(s), Some(e)) => if e > s then Some(line[s + 1..e]) else None
      case _ => None
  }

  /** The index of the first line, at or after `from`, that yields a title. */
  function FirstTitleLine(lines: seq<string>, from: nat): (r: Option<nat>)
    requires from <= |lines|
    ensures r.None? <==> forall k :: from <= k < |lines| ==> QuotedTitle(lines[k]).None?
    ensures r.Some? ==> (from <= r.value < |lines| && QuotedTitle(lines[r.value]).Some? &&
      forall k :: from <= k < r.value ==> QuotedTitle(lines[k]).None?)
    decreases |lines| - from
  {
    if from == |lines| then None
    else if QuotedTitle(lines[from]).Some? then Some(from)
    else FirstTitleLine(lines, from + 1)
  }

  /** The loop of `extract_title`: the title of the first line that starts
      with `Title:` and holds two distinct quotes, or `None`. */
  function TitleOfLines(lines: seq<string>): (r: Option<string>)
    ensures r.None? <==> forall k :: 0 <= k < |lines| ==> QuotedTitle(lines[k]).None?
    ensures r.Some? ==> exists k :: (0 <= k < |lines| && QuotedTitle(lines[k]) == r &&
      forall m :: 0 <= m < k ==> QuotedTitle(lines[m]).None?)
  {
    match FirstTitleLine(lines, 0)
    case None => None
    case Some(k) =>
      assert QuotedTitle(lines[k]).Some?;
      QuotedTitle(lines[k])
  }

  /** `extract_title(text)`. */
  function ExtractTitle(text: string): Option<string> {
    TitleOfLines(SplitLines(text))
  }

  /** The title sits between the first and the last quote of its line. */
  lemma QuotedTitleShape(line: string)
    requires QuotedTitle(line).Some?
    ensures StartsWith(line, "Title:")
    ensures exists s, e :: (0 <= s < e < |line| && line[s] == '"' && line[e] == '"' &&
      (forall j :: 0 <= j < s ==> line[j] != '"') &&
      (forall j :: e < j < |line| ==> line[j] != '"') &&
      QuotedTitle(line) == Some(line[s + 1..e]))
  {
    var s := FindAnyFrom(line, Chars({'"'}), 0).value;
    var e := RFindChar(line, '"').value;
    assert In(line[s], Chars({'"'}));
  }

  // ---------------------------------------------------------------------
  // get_episode_concept

  const ConceptMarker: string := "Episode Concept:"
  const ConceptNotFound: string := "Episode concept not found."

  /** Python's `text[start:end]` for `0 <= start` and `-1 <= end`, where
      `end == -1` stands for the last position. */
  function SliceToFound(text: string, start: nat, end: Option<nat>): string
    requires start <= |text|
    requires end.Some? ==> start <= end.value <= |text|
  {
    match end
    case Some(e) => text[start..e]
    case None => if |text| == 0 || start > |text| - 1 then [] else text[start..|text| - 1]
  }

  /** `get_episode_concept(outline_text)` as written: the stripped text from
      the marker to the next `Scene`, where a missing `Scene` makes `find`
      return -1 and the slice stop before the last character. */
  function GetEpisodeConcept(text: string): (r: string)
    ensures !Contains(text, ConceptMarker) ==> r == ConceptNotFound
  {
    match Find(text, ConceptMarker)
    case None => ConceptNotFound
    case Some(i) =>
      var start := i + |ConceptMarker|;
      Strip(SliceToFound(text, start, FindFrom(text, "Scene", start)))
  }

  /** `get_episode_concept` with the end of the text used when no `Scene`
      follows the marker. */
  function GetEpisodeConceptToEnd(text: string): (r: string)
    ensures !Contains(text, ConceptMarker) ==> r == ConceptNotFound
  {
    match Find(text, ConceptMarker)
    case None => ConceptNotFound
    case Some(i) =>
      var start := i + |ConceptMarker|;
      match FindFrom(text, "Scene", start)
      case Some(e) => Strip(text[start..e])
      case None => Strip(text[start..])
  }

  /** When a scene follows the marker, the concept is the stripped text
      between them, and the two definitions agree. */
  lemma EpisodeConceptBeforeScene(text: string, i: nat, e: nat)
    requires Find(text, ConceptMarker) == Some(i)
    requires FindFrom(text, "Scene", i + |ConceptMarker|) == Some(e)
    ensures GetEpisodeConcept(text) == Strip(text[i + |ConceptMarker|..e])
    ensures GetEpisodeConcept(text) == GetEpisodeConceptToEnd(text)
  {
  }

  lemma StripOfPilo()
    ensures Strip(" A pilo") == "A pilo"
  {
    StripSpaced("A pilo");
  }

  lemma StripOfPilot()
    ensures Strip(" A pilot") == "A pilot"
  {
    StripSpaced("A pilot");
  }

  /** An outline whose concept is not followed by any scene. */
  const PilotOutline: string := "Episode Concept: A pilot"

  lemma PilotOutlineSearches()
    ensures Find(PilotOutline, ConceptMarker) == Some(0)
    ensures FindFrom(PilotOutline, "Scene", |ConceptMarker|).None?
  {
    var text := PilotOutline;
    assert OccursAt(text, ConceptMarker, 0);
    forall j | 16 <= j <= |text|
      ensures !OccursAt(text, "Scene", j)
    {
      if j + 5 <= |text| {
        assert text[j..j + 5][0] == text[j] != 'S';
      }
    }
  }

  /** With no `Scene` after the marker the concept as written loses the
      last character of the outline. */
  lemma EpisodeConceptDropsLastChar()
    ensures GetEpisodeConcept(PilotOutline) == "A pilo"
  {
    PilotOutlineSearches();
    PilotConcept();
    assert SliceToFound(PilotOutline, 16, None) == PilotOutline[16..23];
    StripOfPilo();
  }

  /** The corrected definition keeps the whole concept. */
  lemma EpisodeConceptKeepsLastChar()
    ensures GetEpisodeConceptToEnd(PilotOutline) == "A pilot"
  {
    PilotOutlineSearches();
    PilotConcept();
    StripOfPilot();
  }

  lemma PilotConcept()
    ensures |PilotOutline| == 24
    ensures PilotOutline[16..23] == " A pilo" && PilotOutline[16..] == " A pilot"
  {
  }

  // ---------------------------------------------------------------------
  // Blocks (get_scene_description_block, extract_and_partition_scenes)

  function Flatten<T>(xss: seq<seq<T>>): seq<T> {
    if xss == [] then [] else xss[0] + Flatten(xss[1..])
  }

  /** `[xs[i:i + size] for i in range(0, len(xs), size)]` for a positive size:
      non-empty blocks, all of `size` items but the last (`ChunkCount` says
      how many). */
  function Chunks<T>(xs: seq<T>, size: nat): (r: seq<seq<T>>)
    requires size > 0
    ensures xs == [] <==> r == []
    ensures forall k :: 0 <= k < |r| ==> 0 < |r[k]| <= size
    ensures forall k :: 0 <= k < |r| - 1 ==> |r[k]| == size
    decreases |xs|
  {
    if xs == [] then []
    else if |xs| <= size then [xs]
    else [xs[..size]] + Chunks(xs[size..], size)
  }

  lemma MulStep(k: nat, size: nat)
    requires k > 0
    ensures (k - 1) * size + size == k * size
    ensures k * size >= size
  {
  }

  /** Block `k` exists exactly when it would start inside the list: there
      are ceil(|xs| / size) blocks. */
  lemma {:induction false} ChunkCount<T>(xs: seq<T>, size: nat, k: nat)
    requires size > 0
    ensures k < |Chunks(xs, size)| <==> k * size < |xs|
    decreases |xs|
  {
    if k > 0 {
      MulStep(k, size);
      if |xs| > size {
        var rest := Chunks(xs[size..], size);
        assert Chunks(xs, size) == [xs[..size]] + rest;
        ChunkCount(xs[size..], size, k - 1);
      }
    }
  }

  /** Flattening the blocks gives back the list, in order. */
  lemma {:induction false} FlattenChunks<T>(xs: seq<T>, size: nat)
    requires size > 0
    ensures Flatten(Chunks(xs, size)) == xs
    decreases |xs|
  {
    if xs != [] && |xs| > size {
      FlattenChunks(xs[size..], size);
      var r := Chunks(xs, size);
      assert r[1..] == Chunks(xs[size..], size);
    } else if xs != [] {
      assert Flatten([xs]) == xs + Flatten<T>([]);
    }
  }

  /** Block `k` holds exactly the items `k * size .. (k + 1) * size`. */
  lemma {:induction false} ChunkAt<T>(xs: seq<T>, size: nat, k: nat)
    requires size > 0 && k < |Chunks(xs, size)|
    ensures k * size < |xs|
    ensures Chunks(xs, size)[k] == xs[k * size..if (k + 1) * size < |xs| then (k + 1) * size else |xs|]
    decreases |xs|
  {
    ChunkCount(xs, size, k);
    if k > 0 {
      MulStep(k, size);
      MulStep(k + 1, size);
      var rest := Chunks(xs[size..], size);
      assert Chunks(xs, size) == [xs[..size]] + rest;
      ChunkAt(xs[size..], size, k - 1);
      assert xs[size..][(k - 1) * size..] == xs[k * size..];
    }
  }

  /** The blocks for a `block_size` given as a Python integer:
      `range(..., 0)` raises and a negative step yields no block. */
  function Blocks<T>(xs: seq<T>, blockSize: int): (r: Result<seq<seq<T>>>)
    ensures blockSize == 0 <==> r.Err?
    ensures blockSize < 0 ==> r == Ok([])
    ensures blockSize > 0 ==> r.Ok? && Flatten(r.value) == xs
  {
    if blockSize == 0 then Err(BadRange)
    else if blockSize < 0 then Ok([])
    else
      FlattenChunks(xs, blockSize);
      Ok(Chunks(xs, blockSize))
  }

  /** One entry of `get_scene_description_block`'s scene list. */
  datatype SceneEntry = SceneEntry(number: int, title: string, description: string)

  /** `get_scene_description_block(outline_text, block_size)` applied to the
      scenes its pattern finds. */
  function GetSceneDescriptionBlock(scenes: seq<SceneEntry>, blockSize: int): (r: Result<seq<seq<SceneEntry>>>)
    ensures blockSize > 0 ==> r.Ok? && Flatten(r.value) == scenes
    ensures blockSize > 0 ==> forall k :: 0 <= k < |r.value| - 1 ==> |r.value[k]| == blockSize
    ensures blockSize > 0 ==> forall k :: 0 <= k < |r.value| ==> r.value[k] != []
    ensures blockSize == 0 ==> r == Err(BadRange)
    ensures blockSize < 0 ==> r == Ok([])
  {
    Blocks(scenes, blockSize)
  }

  // ---------------------------------------------------------------------
  // extract_and_partition_scenes

  const HeaderOpen: string := "### Scene "
  const HeaderClose: string := " ###"

  /** The end of the run of ASCII digits starting at `from`. */
  function DigitRunEnd(text: string, from: nat): (r: nat)
    requires from <= |text|
    ensures from <= r <= |text| && AllDigits(text[from..r])
    ensures r < |text| ==> !IsDigit(text[r])
    decreases |text| - from
  {
    if from < |text| && IsDigit(text[from]) then
      var r := DigitRunEnd(text, from + 1);
      assert text[from..r] == [text[from]] + text[from + 1..r];
      r
    else from
  }

  /** A scene header `### Scene <digits> ###` starting at `p`: its number
      and the index right after it. */
  function HeaderAt(text: string, p: nat): (r: Option<(nat, nat)>)
    requires p <= |text|
    ensures r.Some? ==> p < r.value.1 <= |text|
  {
    if !OccursAt(text, HeaderOpen, p) then None
    else
      var d := DigitRunEnd(text, p + |HeaderOpen|);
      if d > p + |HeaderOpen| && OccursAt(text, HeaderClose, d) then
        Some((DigitsValue(text[p + |HeaderOpen|..d]), d + |HeaderClose|))
      else None
  }

  datatype Header = Header(start: nat, end: nat, number: nat)

  /** The headers `re.split` cuts at, left to right, without overlaps. */
  function HeadersFrom(text: string, p: nat): (r: seq<Header>)
    requires p <= |text|
    ensures forall k :: 0 <= k < |r| ==> p <= r[k].start < r[k].end <= |text|
    ensures forall k, m :: 0 <= k < m < |r| ==> r[k].end <= r[m].start
    decreases |text| - p
  {
    if p == |text| then []
    else
      match HeaderAt(text, p)
      case Some((n, e)) => [Header(p, e, n)] + HeadersFrom(text, e)
      case None => HeadersFrom(text, p + 1)
  }

  function Headers(text: string): (r: seq<Header>)
    ensures Placed(text, r)
  {
    HeadersFrom(text, 0)
  }

  /** The headers lie inside the text, in order and without overlaps. */
  predicate Placed(text: string, hs: seq<Header>) {
    (forall m :: 0 <= m < |hs| ==> hs[m].start < hs[m].end <= |text|) &&
    (forall j, m :: 0 <= j < m < |hs| ==> hs[j].end <= hs[m].start)
  }

  /** One scene as `extract_and_partition_scenes` rebuilds it: the header,
      a newline, and the stripped text up to the next header. */
  function SceneText(text: string, hs: seq<Header>, k: nat): string
    requires k < |hs| && Placed(text, hs)
  {
    var bodyEnd := if k + 1 < |hs| then hs[k + 1].start else |text|;
    Strip(text[hs[k].start..hs[k].end]) + "\n" + Strip(text[hs[k].end..bodyEnd])
  }

  /** A scene and the number its header carries (the sort key). */
  datatype NumberedScene = NumberedScene(number: nat, text: string)

  /** The scene cut at header `k`. */
  function SceneAt(text: string, hs: seq<Header>, k: nat): NumberedScene
    requires k < |hs| && Placed(text, hs)
  {
    NumberedScene(hs[k].number, SceneText(text, hs, k))
  }

  /** The scenes cut at headers `k` onwards. */
  function ScenesFrom(text: string, hs: seq<Header>, k: nat): (r: seq<NumberedScene>)
    requires k <= |hs| && Placed(text, hs)
    ensures |r| == |hs| - k
    decreases |hs| - k
  {
    if k == |hs| then [] else [SceneAt(text, hs, k)] + ScenesFrom(text, hs, k + 1)
  }

  /** The scenes in the order their headers appear in the text. */
  function ScenesInTextOrder(text: string): (r: seq<NumberedScene>)
    ensures |r| == |Headers(text)|
  {
    ScenesFrom(text, Headers(text), 0)
  }

  predicate SortedByNumber(xs: seq<NumberedScene>) {
    forall i, j :: 0 <= i < j < |xs| ==> xs[i].number <= xs[j].number
  }

  /** Inserts `x` after every scene whose number is not larger. */
  function InsertByNumber(x: NumberedScene, xs: seq<NumberedScene>): (r: seq<NumberedScene>)
    requires SortedByNumber(xs)
    ensures SortedByNumber(r)
    ensures multiset(r) == multiset(xs) + multiset{x}
    ensures |r| == |xs| + 1 && (r[0] == x || (xs != [] && r[0] == xs[0]))
  {
    if xs == [] || x.number < xs[0].number then [x] + xs
    else
      var rest := InsertByNumber(x, xs[1..]);
      ConsSorted(xs[0], rest);
      assert xs == [xs[0]] + xs[1..];
      assert multiset([xs[0]] + rest) == multiset{xs[0]} + multiset(rest);
      [xs[0]] + rest
  }

  lemma ConsSorted(y: NumberedScene, rest: seq<NumberedScene>)
    requires SortedByNumber(rest) && (rest != [] ==> y.number <= rest[0].number)
    ensures SortedByNumber([y] + rest)
  {
    assert forall j :: 0 <= j < |rest| ==> rest[0].number <= rest[j].number;
  }

  /** `scenes.sort(key=...)`: a stable sort by scene number. */
  function SortByNumber(xs: seq<NumberedScene>): (r: seq<NumberedScene>)
    ensures |r| == |xs| && SortedByNumber(r)
    ensures multiset(r) == multiset(xs)
  {
    if xs == [] then []
    else
      assert xs == xs[..|xs| - 1] + [xs[|xs| - 1]];
      InsertByNumber(xs[|xs| - 1], SortByNumber(xs[..|xs| - 1]))
  }

  function Texts(xs: seq<NumberedScene>): (r: seq<string>)
    ensures |r| == |xs| && forall k :: 0 <= k < |xs| ==> r[k] == xs[k].text
  {
    seq(|xs|, k requires 0 <= k < |xs| => xs[k].text)
  }

  /** `block_{k}` */
  function BlockKey(k: nat): string {
    "block_" + NatToString(k)
  }

  /** The dictionary `extract_and_partition_scenes` returns, in insertion
      order: block `k + 1` holds the sorted scenes of chunk `k`. */
  function KeyedBlocks(scenes: seq<string>, size: nat): (r: seq<(string, seq<string>)>)
    requires size > 0
  {
    var cs := Chunks(scenes, size);
    seq(|cs|, k requires 0 <= k < |cs| => (BlockKey(k + 1), cs[k]))
  }

  /** The dictionary's values, in order. */
  function Values(blocks: seq<(string, seq<string>)>): (r: seq<seq<string>>)
    ensures |r| == |blocks| && forall k :: 0 <= k < |r| ==> r[k] == blocks[k].1
  {
    seq(|blocks|, k requires 0 <= k < |blocks| => blocks[k].1)
  }

  /** Block `k` of the dictionary, when it exists, is keyed `block_{k+1}`
      and holds the items from `k * size` up to `size` of them. */
  lemma KeyedBlockAt(xs: seq<string>, size: nat, k: nat)
    requires size > 0
    ensures k < |KeyedBlocks(xs, size)| <==> k * size < |xs|
    ensures k + 1 < |KeyedBlocks(xs, size)| <==> k * size + size < |xs|
    ensures (k + 1) * size == k * size + size
    ensures k * size < |xs| ==>
      KeyedBlocks(xs, size)[k] == (BlockKey(k + 1), xs[k * size..if k * size + size < |xs| then k * size + size else |xs|])
  {
    assert (k + 1) * size == k * size + size;
    ChunkCount(xs, size, k);
    ChunkCount(xs, size, k + 1);
    if k * size < |xs| {
      ChunkAt(xs, size, k);
    }
  }

  /** The loop of `extract_and_partition_scenes` that pairs every header
      with the stripped body after it. */
  method CombineScenes(text: string) returns (scenes: seq<NumberedScene>)
    ensures scenes == ScenesInTextOrder(text)
  {
    var hs := Headers(text);
    scenes := [];
    var k := 0;
    while k < |hs|
      invariant k <= |hs|
      invariant scenes + ScenesFrom(text, hs, k) == ScenesInTextOrder(text)
    {
      var scene := SceneAt(text, hs, k);
      assert ScenesFrom(text, hs, k) == [scene] + ScenesFrom(text, hs, k + 1);
      Seqs.AppendJoined(scenes, [scene], ScenesFrom(text, hs, k + 1));
      scenes := scenes + [scene];
      k := k + 1;
    }
    assert scenes + [] == scenes;
  }

  /** The loop of `extract_and_partition_scenes` that fills the dictionary,
      one block of `block_size` scenes per step. */
  method PartitionIntoBlocks(sorted: seq<string>, blockSize: nat) returns (blocks: seq<(string, seq<string>)>)
    requires blockSize > 0
    ensures blocks == KeyedBlocks(sorted, blockSize)
  {
    blocks := [];
    var i := 0;
    var b: nat := 0;
    ghost var target := KeyedBlocks(sorted, blockSize);
    ChunkCount(sorted, blockSize, 0);
    while i < |sorted|
      invariant i == b * blockSize && b <= |target|
      invariant b < |target| <==> i < |sorted|
      invariant blocks == target[..b]
      decreases |sorted| - i
    {
      var blockNum := b + 1;  // `i // block_size + 1`, since i == b * blockSize
      KeyedBlockAt(sorted, blockSize, b);
      var end := if i + blockSize < |sorted| then i + blockSize else |sorted|;
      blocks := blocks + [(BlockKey(blockNum), sorted[i..end])];
      i := i + blockSize;
      b := b + 1;
    }
  }

  /** `extract_and_partition_scenes(text, block_size)`: split at the headers,
      sort by scene number, and cut into keyed blocks. */
  method ExtractAndPartitionScenes(text: string, blockSize: int) returns (r: Result<seq<(string, seq<string>)>>)
    ensures blockSize == 0 ==> r == Err(BadRange)
    ensures blockSize < 0 ==> r == Ok([])
    ensures blockSize > 0 ==> r == Ok(KeyedBlocks(Texts(SortByNumber(ScenesInTextOrder(text))), blockSize))
  {
    var scenes := CombineScenes(text);
    var sorted := Texts(SortByNumber(scenes));
    if blockSize == 0 {
      return Err(BadRange);
    }
    if blockSize < 0 {
      return Ok([]);
    }
    var blocks := PartitionIntoBlocks(sorted, blockSize);
    r := Ok(blocks);
  }

  /** The blocks are keyed `block_1` .. `block_k` with k = ceil(n / size),
      the scenes come out by ascending number, and together the blocks hold
      every scene of the text exactly once. */
  lemma PartitionShape(text: string, size: nat)
    requires size > 0
    ensures var scenes := SortByNumber(ScenesInTextOrder(text));
      var blocks := KeyedBlocks(Texts(scenes), size);
      (|blocks| - 1) * size < |Headers(text)| <= |blocks| * size &&
      (forall k :: 0 <= k < |blocks| ==> blocks[k].0 == BlockKey(k + 1)) &&
      Flatten(Values(blocks)) == Texts(scenes) &&
      SortedByNumber(scenes) && multiset(scenes) == multiset(ScenesInTextOrder(text))
  {
    var scenes := SortByNumber(ScenesInTextOrder(text));
    KeyedBlocksShape(Texts(scenes), size);
  }

  /** The dictionary over a list: ceil(n / size) blocks keyed in order,
      whose values flatten back to the list. */
  lemma KeyedBlocksShape(xs: seq<string>, size: nat)
    requires size > 0
    ensures var blocks := KeyedBlocks(xs, size);
      (|blocks| - 1) * size < |xs| <= |blocks| * size &&
      (forall k :: 0 <= k < |blocks| ==> blocks[k].0 == BlockKey(k + 1)) &&
      Flatten(Values(blocks)) == xs
  {
    var n := |Chunks(xs, size)|;
    ChunkCount(xs, size, n);
    if n > 0 {
      ChunkCount(xs, size, n - 1);
    }
    FlattenChunks(xs, size);
    assert Values(KeyedBlocks(xs, size)) == Chunks(xs, size);
  }

  /** A text without headers gives an empty dictionary, not an error. */
  lemma NoHeadersNoBlocks(text: string, size: nat)
    requires size > 0 && Headers(text) == []
    ensures KeyedBlocks(Texts(SortByNumber(ScenesInTextOrder(text))), size) == []
  {
  }
}
