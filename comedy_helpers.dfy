/** `backend/utils/agents/comedy_helpers.py`: the comedic continuity
    check and the improvement request. The check reads the summaries and
    running gags of the last `max_scenes` records and takes its verdict
    from the second line of the reply. */
module ComedyHelpers {
  import opened Wrappers
  import opened Py
  import opened Llm
  import opened SceneMemory
  import opened Characters
  import TextUtils
  import CharacterHelpers

  /** `list.extend` with a string: one entry per character. */
  function Letters(s: string): (r: seq<string>)
    ensures |r| == |s|
    ensures forall i :: 0 <= i < |r| ==> r[i] == [s[i]]
  {
    seq(|s|, i requires 0 <= i < |s| => [s[i]])
  }

  /** The running gags `extend` gathers over `window`, record by record: a
      `recurring_joke` of `None` is not iterable and raises. */
  function Gags(window: seq<SceneRecord>): Result<seq<string>>
    decreases |window|
  {
    if window == [] then Ok([])
    else
      match Gags(window[..|window| - 1])
      case Err(e) => Err(e)
      case Ok(g) =>
        match window[|window| - 1].recurringJoke
        case None => Err(NotIterable)
        case Some(j) => Ok(g + Letters(j))
  }

  /** The jokes of the records, in order, with `""` for a record without one. */
  function JokeStrings(window: seq<SceneRecord>): seq<string> {
    seq(|window|, i requires 0 <= i < |window| =>
      match window[i].recurringJoke case Some(j) => j case None => "")
  }

  predicate AllJoked(window: seq<SceneRecord>) {
    forall i :: 0 <= i < |window| ==> window[i].recurringJoke.Some?
  }

  /** `", ".join(gags) if gags else "None"` */
  function GagText(gags: seq<string>): string {
    if gags == [] then "None" else Join(gags, ", ")
  }

  /** The loop over the window, extending the gag list record by record. */
  method CollectGags(window: seq<SceneRecord>) returns (r: Result<seq<string>>)
    ensures r == Gags(window)
  {
    var gags: seq<string> := [];
    var i := 0;
    while i < |window|
      invariant 0 <= i <= |window|
      invariant Gags(window[..i]) == Ok(gags)
    {
      assert window[..i + 1][..i] == window[..i];
      match window[i].recurringJoke
      case None =>
        GagsFacts(window);
        return Err(NotIterable);
      case Some(j) =>
        gags := gags + Letters(j);
      i := i + 1;
    }
    assert window[..i] == window;
    r := Ok(gags);
  }

  lemma {:induction false} FlattenAppend(xs: seq<string>, ys: seq<string>)
    ensures TextUtils.Flatten(xs + ys) == TextUtils.Flatten(xs) + TextUtils.Flatten(ys)
  {
    if xs != [] {
      assert (xs + ys)[1..] == xs[1..] + ys;
      FlattenAppend(xs[1..], ys);
    } else {
      assert xs + ys == ys;
    }
  }

  lemma {:induction false} FlattenLetters(s: string)
    ensures TextUtils.Flatten(Letters(s)) == s
  {
    if s != [] {
      assert Letters(s)[1..] == Letters(s[1..]);
      FlattenLetters(s[1..]);
    }
  }

  /** The gags fail exactly when some record of the window has no joke. */
  lemma {:induction false} GagsFail(window: seq<SceneRecord>)
    ensures Gags(window).Err? <==> !AllJoked(window)
    ensures Gags(window).Err? ==> Gags(window).error == NotIterable
  {
    if window != [] {
      var p := window[..|window| - 1];
      GagsFail(p);
      assert AllJoked(window) <==> AllJoked(p) && window[|window| - 1].recurringJoke.Some?;
    }
  }

  /** Otherwise the gags are the characters of the jokes, one each, in
      record order. */
  lemma {:induction false} GagsFacts(window: seq<SceneRecord>)
    ensures Gags(window).Err? <==> !AllJoked(window)
    ensures Gags(window).Err? ==> Gags(window).error == NotIterable
    ensures Gags(window).Ok? ==>
      TextUtils.Flatten(Gags(window).value) == TextUtils.Flatten(JokeStrings(window)) &&
      forall k :: 0 <= k < |Gags(window).value| ==> |Gags(window).value[k]| == 1
  {
    GagsFail(window);
    if window != [] && Gags(window).Ok? {
      var n := |window| - 1;
      var p := window[..n];
      var j := window[n].recurringJoke.value;
      JokeStringsStep(window);
      GagsFacts(p);
      var g := Gags(p).value;
      FlattenAppend(g, Letters(j));
      FlattenLetters(j);
      FlattenAppend(JokeStrings(p), [j]);
      assert TextUtils.Flatten([j]) == j + TextUtils.Flatten([]);
    } else if window == [] {
      assert JokeStrings(window) == [];
    }
  }

  lemma JokeStringsStep(window: seq<SceneRecord>)
    requires window != [] && window[|window| - 1].recurringJoke.Some?
    ensures JokeStrings(window) ==
      JokeStrings(window[..|window| - 1]) + [window[|window| - 1].recurringJoke.value]
  {
  }

  /** With one-character gags, the text is `"None"` exactly when there are
      none: a single gag is one character, and two or more are separated
      by `", "`. */
  lemma GagTextNone(gags: seq<string>)
    requires forall k :: 0 <= k < |gags| ==> |gags[k]| == 1
    ensures GagText(gags) == "None" <==> gags == []
  {
    if |gags| >= 2 {
      var t := Join(gags, ", ");
      assert t == gags[0] + ", " + Join(gags[1..], ", ");
      assert t[1] == ',';
    }
  }

  lemma {:induction false} FlattenEmpty(xs: seq<string>)
    ensures TextUtils.Flatten(xs) == [] <==> forall i :: 0 <= i < |xs| ==> xs[i] == []
  {
    if xs != [] {
      FlattenEmpty(xs[1..]);
      assert forall i :: 1 <= i < |xs| ==> xs[i] == xs[1..][i - 1];
    }
  }

  // ---------------------------------------------------------------------
  // analyze_and_verify_comedic_consistency

  /** The prompt of the check: the window's summaries, one per line, and its
      gag text; a record without a joke fails before any call. */
  function CheckPrompt(records: seq<SceneRecord>, scene: string, maxScenes: int): Result<Prompt> {
    match Gags(Window(records, maxScenes))
    case Err(e) => Err(e)
    case Ok(g) => Ok(ComedyCheckPrompt(Join(Window(SummariesOf(records), maxScenes), "\n"), GagText(g), scene))
  }

  /** `"yes" in result.lower().split("\n")[1].lower()`: line 1 must exist. */
  function SecondLineVerdict(result: string): Result<bool> {
    var lines := Split(Lower(result), "\n");
    if |lines| < 2 then Err(IndexOutOfRange) else Ok(Contains(Lower(lines[1]), "yes"))
  }

  function CheckOutcome(reply: Reply): Result<(bool, string)> {
    match CheckedReply(reply)
    case Err(e) => Err(e)
    case Ok(result) =>
      match SecondLineVerdict(result)
      case Err(e) => Err(e)
      case Ok(v) => Ok((v, result))
  }

  /** `analyze_and_verify_comedic_consistency`. */
  method AnalyzeAndVerifyComedicConsistency(llm: Provider, records: seq<SceneRecord>, scene: string,
                                            maxScenes: int := 3)
    returns (r: Result<(bool, string)>)
    modifies llm
    ensures CheckPrompt(records, scene, maxScenes).Err? ==>
      r == Err(CheckPrompt(records, scene, maxScenes).error) && unchanged(llm)
    ensures CheckPrompt(records, scene, maxScenes).Ok? ==>
      llm.prompts == old(llm.prompts) + [CheckPrompt(records, scene, maxScenes).value] &&
      llm.script == Rest(old(llm.script)) &&
      r == CheckOutcome(Next(old(llm.script)))
  {
    var summaries := Window(SummariesOf(records), maxScenes);
    var gags := CollectGags(Window(records, maxScenes));
    match gags
    case Err(e) =>
      r := Err(e);
    case Ok(g) =>
      var reply := llm.Complete(ComedyCheckPrompt(Join(summaries, "\n"), GagText(g), scene));
      match CheckedReply(reply)
      case Err(e) =>
        r := Err(e);
      case Ok(result) =>
        match SecondLineVerdict(result)
        case Err(e) =>
          r := Err(e);
        case Ok(v) =>
          r := Ok((v, result));
  }

  /** The prompt carries the summaries of the last `maxScenes` records, in
      order; it can be built exactly when each of those records has a
      joke, and then says `"None"` exactly when all their jokes are empty. */
  lemma CheckPromptFacts(records: seq<SceneRecord>, scene: string, maxScenes: int)
    ensures var w := Window(records, maxScenes);
      var p := CheckPrompt(records, scene, maxScenes);
      (p.Ok? <==> AllJoked(w)) &&
      (p.Err? ==> p.error == NotIterable) &&
      (p.Ok? ==>
        p.value.summaryText == Join(SummariesOf(w), "\n") && p.value.scene == scene &&
        (p.value.gags == "None" <==> forall i :: 0 <= i < |w| ==> w[i].recurringJoke == Some("")))
  {
    var w := Window(records, maxScenes);
    GagsFail(w);
    if AllJoked(w) {
      NoGags(w);
      SummariesWindow(records, maxScenes);
      assert CheckPrompt(records, scene, maxScenes) ==
        Ok(ComedyCheckPrompt(Join(SummariesOf(w), "\n"), GagText(Gags(w).value), scene));
    } else {
      assert CheckPrompt(records, scene, maxScenes) == Err(NotIterable);
    }
  }

  /** The gag text of a window whose records all have jokes is `"None"`
      exactly when every joke is empty. */
  lemma NoGags(w: seq<SceneRecord>)
    requires AllJoked(w)
    ensures Gags(w).Ok?
    ensures GagText(Gags(w).value) == "None" <==> forall i :: 0 <= i < |w| ==> w[i].recurringJoke == Some("")
  {
    GagsFacts(w);
    var g := Gags(w).value;
    GagTextNone(g);
    FlattenEmpty(g);
    FlattenEmpty(JokeStrings(w));
    assert forall i :: 0 <= i < |w| ==> JokeStrings(w)[i] == w[i].recurringJoke.value;
  }

  lemma LowerKeepsLineBreaks(s: string)
    ensures forall i :: 0 <= i < |s| ==> (Lower(s)[i] == '\n' <==> s[i] == '\n')
  {
  }

  /** The verdict reads line 1: the first line break separates the line
      that is ignored, the next one (if any) ends the line that is read;
      a reply of one line has no line 1. */
  lemma SecondLineReads(first: string, second: string, rest: string)
    requires forall i :: 0 <= i < |first| ==> first[i] != '\n'
    requires forall i :: 0 <= i < |second| ==> second[i] != '\n'
    ensures SecondLineVerdict(first + "\n" + second + "\n" + rest) == Ok(Contains(Lower(second), "yes"))
    ensures SecondLineVerdict(first + "\n" + second) == Ok(Contains(Lower(second), "yes"))
    ensures SecondLineVerdict(first) == Err(IndexOutOfRange)
  {
    LowerKeepsLineBreaks(first);
    LowerKeepsLineBreaks(second);
    LowerIdempotent(second);
    var a := Lower(first);
    var b := Lower(second);
    assert Lower("\n") == "\n";
    // two lines and more
    assert Lower(first + "\n" + second + "\n" + rest) == a + "\n" + (b + "\n" + Lower(rest)) by {
      LowerConcat(first + "\n" + second + "\n", rest);
      LowerConcat(first + "\n" + second, "\n");
      LowerConcat(first + "\n", second);
      LowerConcat(first, "\n");
    }
    SplitAfterHead(a, '\n', b + "\n" + Lower(rest));
    SplitAfterHead(b, '\n', Lower(rest));
    // exactly two lines
    assert Lower(first + "\n" + second) == a + "\n" + b by {
      LowerConcat(first + "\n", second);
      LowerConcat(first, "\n");
    }
    SplitAfterHead(a, '\n', b);
    SplitNoChar(b, '\n');
    // one line
    SplitNoChar(a, '\n');
  }

  /** A text splits into two lines or more exactly when it holds a line
      break, and lower-casing keeps the line breaks where they are. */
  lemma LinesOfLower(s: string)
    ensures |Split(Lower(s), "\n")| >= 2 <==> '\n' in s
  {
    var t := Lower(s);
    LowerKeepsLineBreaks(s);
    if '\n' in s {
      var i :| 0 <= i < |s| && s[i] == '\n';
      FirstLineBreak(t, i);
    } else {
      SplitNoChar(t, '\n');
    }
  }

  lemma FirstLineBreak(t: string, i: nat)
    requires i < |t| && t[i] == '\n'
    ensures |Split(t, "\n")| >= 2
    decreases i
  {
    if exists j :: 0 <= j < i && t[j] == '\n' {
      var j :| 0 <= j < i && t[j] == '\n';
      FirstLineBreak(t, j);
    } else {
      SplitAtChar(t, '\n', i);
    }
  }

  /** A reply fails exactly when it has no content or its stripped text is
      a single line; otherwise the whole stripped text comes back. */
  lemma CheckReplies(reply: Reply)
    ensures var r := CheckOutcome(reply);
      (r.Err? <==> !HasContent(reply) || '\n' !in Strip(reply.text)) &&
      (r.Ok? ==> r.value.1 == Strip(reply.text))
  {
    if HasContent(reply) {
      LinesOfLower(Strip(reply.text));
    }
  }

  /** The verdict of a reply whose stripped text has at least two lines. */
  lemma CheckVerdict(text: string, first: string, second: string, rest: string)
    requires forall i :: 0 <= i < |first| ==> first[i] != '\n'
    requires forall i :: 0 <= i < |second| ==> second[i] != '\n'
    ensures Strip(text) == first + "\n" + second ==>
      CheckOutcome(Content(text)) == Ok((Contains(Lower(second), "yes"), Strip(text)))
    ensures Strip(text) == first + "\n" + second + "\n" + rest ==>
      CheckOutcome(Content(text)) == Ok((Contains(Lower(second), "yes"), Strip(text)))
  {
    SecondLineReads(first, second, rest);
  }

  // ---------------------------------------------------------------------
  // recommend_comedic_improvements

  /** `recommend_comedic_improvements`: the critique block goes into the
      prompt exactly when the scene was judged inconsistent. */
  method RecommendComedicImprovements(llm: Provider, scene: string, isConsistent: bool := true,
                                      consistencyResult: string := "")
    returns (r: Result<string>)
    modifies llm
    ensures llm.prompts == old(llm.prompts) +
      [ComedyImprovePrompt(scene, CharacterHelpers.Critique(isConsistent, consistencyResult))]
    ensures llm.prompts[|llm.prompts| - 1].critique.Some? <==> !isConsistent
    ensures llm.script == Rest(old(llm.script))
    ensures r == CheckedReply(Next(old(llm.script)))
    ensures r.Ok? <==> HasContent(Next(old(llm.script)))
  {
    var critique := if isConsistent then None else Some(Strip(consistencyResult));
    var reply := llm.Complete(ComedyImprovePrompt(scene, critique));
    r := CheckedReply(reply);
  }
}
