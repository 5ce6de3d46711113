/** `sitcom_generator.py`: the command-line pipeline. It reads the keywords
    category by category, writes and stores scene 1, then runs one round of
    review, planning, writing and storing per additional scene, and finally
    saves the collected scripts.

    The pitch, outline and validation calls before the scenes are one-call
    wrappers; the outline they produce is a parameter here. The three agents
    and the planner this script imports are not part of this model: one
    round's review and planning is one request that sees the scene's number,
    its description and how many records the memory holds, and whose reply
    is the plan. */
module SitcomGenerator {
  import opened Wrappers
  import opened Py
  import opened Llm
  import opened Seqs
  import opened SceneMemory
  import Characters
  import TextUtils

  // ---------------------------------------------------------------------
  // Keywords

  /** The keys of `categories`, in the order they are asked for. */
  const Categories: seq<string> := ["setting", "characters", "themes", "tone_genre"]

  lemma CategoriesDistinct()
    ensures forall i, j :: 0 <= i < j < |Categories| ==> Categories[i] != Categories[j]
  {
    assert Categories[0][0] == 's' && Categories[1][0] == 'c' && Categories[2][0] == 't';
    assert Categories[2][1] == 'h' && Categories[3][1] == 'o';
  }

  /** The first loop: each answer read as a comma-separated list, the
      pieces stripped and the blank ones dropped (the same comprehension as
      `Characters.Names`), stored under its category. */
  method CollectKeywords(answers: seq<string>) returns (keywords: seq<(string, seq<string>)>)
    requires |answers| == |Categories|
    ensures Keys(keywords) == Categories
    ensures forall i :: 0 <= i < |Categories| ==> keywords[i].1 == Characters.Names(answers[i])
  {
    CategoriesDistinct();
    keywords := [];
    for i := 0 to |Categories|
      invariant |keywords| == i
      invariant forall j :: 0 <= j < i ==> keywords[j] == (Categories[j], Characters.Names(answers[j]))
    {
      assert Categories[i] !in Keys(keywords) by {
        forall j | 0 <= j < i
          ensures Keys(keywords)[j] != Categories[i]
        {
          assert keywords[j].0 == Categories[j];
        }
      }
      PutFresh(keywords, Categories[i], Characters.Names(answers[i]));
      keywords := Put(keywords, Categories[i], Characters.Names(answers[i]));
    }
    assert Keys(keywords) == Categories;
  }

  /** Every keyword kept is non-empty and has no white space at either end,
      and a list typed as `a, b, c` gives back exactly its items. */
  lemma KeywordsOfAnswer(answer: string, typed: seq<string>)
    ensures forall w :: w in Characters.Names(answer) ==> Characters.Trimmed(w)
    ensures (forall i :: 0 <= i < |typed| ==> Characters.Listable(typed[i])) ==>
      Characters.Names(Join(typed, ", ")) == typed
  {
    if forall i :: 0 <= i < |typed| ==> Characters.Listable(typed[i]) {
      Characters.NamesOfJoin(typed);
    }
  }

  function Words(entry: (string, seq<string>)): seq<string> {
    entry.1
  }

  /** The second loop: the categories' keywords one list after another. */
  method FlattenKeywords(keywords: seq<(string, seq<string>)>) returns (keywordList: seq<string>)
    ensures keywordList == FlatMap(keywords, Words)
  {
    keywordList := [];
    for i := 0 to |keywords|
      invariant keywordList == FlatMap(keywords[..i], Words)
    {
      FlatMapStep(keywords, i, Words);
      keywordList := keywordList + keywords[i].1;
    }
    assert keywords[..|keywords|] == keywords;
  }

  /** The flat list holds a word exactly when some category does, and keeps
      the categories in order: the list of two groups of categories is the
      first group's list followed by the second's. */
  lemma FlatKeywords(keywords: seq<(string, seq<string>)>, more: seq<(string, seq<string>)>, w: string)
    ensures w in FlatMap(keywords, Words) <==> exists i :: 0 <= i < |keywords| && w in keywords[i].1
    ensures FlatMap(keywords + more, Words) == FlatMap(keywords, Words) + FlatMap(more, Words)
  {
    FlatMapMembers(keywords, Words, w);
    FlatMapAppend(keywords, more, Words);
  }

  // ---------------------------------------------------------------------
  // Scenes

  /** The heading `generate_scene_1_script` puts before scene 1, whose
      index 0 makes the times `0:00` and `0:02`. */
  const FirstSceneHeading: string := "# Scene 1 \U{2014} [0:00\U{2013}0:02]\n"

  /** The script of scene 1: the heading, a line break, and the reply
      stripped; a missing content fails on `.strip()`. */
  function FirstSceneScript(reply: Reply): (r: Result<string>)
    ensures r.Ok? <==> reply.Content?
    ensures r.Ok? ==> StartsWith(r.value, FirstSceneHeading)
  {
    match StrippedReply(reply)
    case Err(e) => Err(e)
    case Ok(text) => Ok(FirstSceneHeading + "\n" + text)
  }

  /** What the agents of one round see: the scene's number, its description
      and how many records the memory holds. */
  datatype Review = Review(sceneNumber: int, description: Option<string>, memorySize: nat)

  /** The reviews the prompts sent record, in order. */
  function Reviews(ps: seq<Prompt>): seq<Review> {
    if ps == [] then []
    else
      var last := ps[|ps| - 1];
      Reviews(ps[..|ps| - 1]) +
        (if last.SceneReviewPrompt? then [Review(last.sceneNumber, last.description, last.memorySize)] else [])
  }

  lemma ReviewsSnoc(ps: seq<Prompt>, p: Prompt)
    ensures Reviews(ps + [p]) ==
      Reviews(ps) + (if p.SceneReviewPrompt? then [Review(p.sceneNumber, p.description, p.memorySize)] else [])
  {
    assert (ps + [p])[..|ps|] == ps;
  }

  /** A prompt that writes no scene, or writes scene 2, keeps the prompts
      writing scenes only as scene 2. */
  lemma SceneTwoSnoc(ps: seq<Prompt>, p: Prompt)
    requires ScriptsAsSceneTwo(ps) && (p.SceneScriptPrompt? ==> p.sceneNumber == 2)
    ensures ScriptsAsSceneTwo(ps + [p])
  {
    assert forall j :: 0 <= j < |ps| ==> (ps + [p])[j] == ps[j];
  }

  /** The rounds the loop runs: scene `k` for `k` from 2 to `n + 1`, in
      order, reviewed with its description from the outline while the
      memory holds `k - 1` records. */
  function PlannedReviews(outline: string, n: nat): (r: seq<Review>)
    ensures |r| == n
    ensures forall i :: 0 <= i < n ==> r[i] == RoundReview(outline, i + 2, i + 1)
  {
    seq(n, i requires 0 <= i < n => RoundReview(outline, i + 2, i + 1))
  }

  /** The review of scene `k`: its description from the outline. */
  function RoundReview(outline: string, k: int, memorySize: nat): Review {
    Review(k, TextUtils.ExtractScene(outline, k), memorySize)
  }

  /** Every scene written in the loop is asked for as scene 2. */
  predicate ScriptsAsSceneTwo(ps: seq<Prompt>) {
    forall j :: 0 <= j < |ps| && ps[j].SceneScriptPrompt? ==> ps[j].sceneNumber == 2
  }

  /** Every record holds the script it summarizes. */
  predicate RecordsCarryScripts(records: seq<SceneRecord>) {
    forall j :: 0 <= j < |records| ==> records[j].script.Some?
  }

  lemma {:induction false} ReviewsAppend(ps: seq<Prompt>, qs: seq<Prompt>)
    ensures Reviews(ps + qs) == Reviews(ps) + Reviews(qs)
    decreases |qs|
  {
    if qs == [] {
      assert ps + qs == ps;
    } else {
      var init := qs[..|qs| - 1];
      var last := qs[|qs| - 1];
      assert qs == init + [last];
      assert ps + qs == (ps + init) + [last];
      ReviewsAppend(ps, init);
      ReviewsSnoc(ps + init, last);
      ReviewsSnoc(init, last);
    }
  }

  /** A record added with its script keeps every record carrying its
      script, and leaves the first record in place. */
  lemma CarryScriptsStep(before: seq<SceneRecord>, after: seq<SceneRecord>)
    requires |after| == |before| + 1 && after[..|before|] == before && after[|before|].script.Some?
    requires RecordsCarryScripts(before)
    ensures RecordsCarryScripts(after)
    ensures |before| > 0 ==> after[0] == before[0]
  {
    forall j | 0 <= j < |before|
      ensures after[j] == before[j]
    {
      assert after[..|before|][j] == after[j];
    }
  }

  /** `summarize_scene` followed by `add_scene_to_vector_db`, as the
      script does for every scene it writes: one request, and on success one
      record carrying the script and one vector. */
  method StoreScene(llm: Provider, title: string, script: string,
                    encoder: Encoder, index: VectorIndex, meta: MetadataList)
    returns (r: Result<()>)
    modifies llm, encoder, index, meta
    ensures llm.prompts == old(llm.prompts) + [SummarizePrompt(title, script)]
    ensures llm.script == Rest(old(llm.script))
    ensures r.Ok? <==> Next(old(llm.script)).Content?
    ensures r.Ok? ==>
      meta.items == old(meta.items) + [RecordOf(SummarizeOnceOutcome(Next(old(llm.script))).value, Some(script))] &&
      index.ntotal == old(index.ntotal) + 1
    ensures r.Err? ==> meta.items == old(meta.items) && index.ntotal == old(index.ntotal)
  {
    var summary := SummarizeSceneOnce(llm, title, script);
    if summary.Err? {
      return Err(summary.error);
    }
    r := AddSceneToVectorDb(summary.value, Some(script), encoder, index, meta);
  }

  /** Prompts that write scenes only as scene 2 stay so when joined. */
  lemma ScriptsAsSceneTwoAppend(sent: seq<Prompt>, more: seq<Prompt>)
    requires ScriptsAsSceneTwo(sent) && ScriptsAsSceneTwo(more)
    ensures ScriptsAsSceneTwo(sent + more)
  {
    forall j | 0 <= j < |sent + more| && (sent + more)[j].SceneScriptPrompt?
      ensures (sent + more)[j].sceneNumber == 2
    {
      if j >= |sent| {
        assert (sent + more)[j] == more[j - |sent|];
      }
    }
  }

  /** A round that records the next planned review extends the reviews
      recorded so far by it. */
  lemma NextRound(sent: seq<Prompt>, roundSent: seq<Prompt>, planned: seq<Review>, i: nat)
    requires i < |planned|
    requires Reviews(sent) == planned[..i] && Reviews(roundSent) == [planned[i]]
    requires ScriptsAsSceneTwo(sent) && ScriptsAsSceneTwo(roundSent)
    ensures Reviews(sent + roundSent) == planned[..i + 1]
    ensures ScriptsAsSceneTwo(sent + roundSent)
  {
    ReviewsAppend(sent, roundSent);
    TakeNext(planned, i);
    ScriptsAsSceneTwoAppend(sent, roundSent);
  }

  /** Scene 1: written from its description in the outline, summarized,
      and stored with its script before any round begins. */
  method WriteFirstScene(llm: Provider, outline: string, title: Option<string>,
                         encoder: Encoder, index: VectorIndex, meta: MetadataList)
    returns (r: Result<string>, ghost sent: seq<Prompt>)
    modifies llm, encoder, index, meta
    ensures llm.prompts == old(llm.prompts) + sent
    ensures Reviews(sent) == [] && ScriptsAsSceneTwo(sent)
    ensures r.Ok? ==> r == FirstSceneScript(Next(old(llm.script)))
    ensures r.Ok? ==>
      |meta.items| == |old(meta.items)| + 1 && meta.items[..|old(meta.items)|] == old(meta.items) &&
      meta.items[|old(meta.items)|].script == Some(r.value) && index.ntotal == old(index.ntotal) + 1
    ensures r.Err? ==> meta.items == old(meta.items) && index.ntotal == old(index.ntotal)
  {
    var description := TextUtils.ExtractScene(outline, 1);
    var reply := llm.Complete(FirstScenePrompt(title, description));
    sent := [FirstScenePrompt(title, description)];
    ReviewsSnoc([], FirstScenePrompt(title, description));
    SceneTwoSnoc([], FirstScenePrompt(title, description));
    assert [] + [FirstScenePrompt(title, description)] == sent;
    r := FirstSceneScript(reply);
    if r.Err? {
      return;
    }
    ghost var p0 := old(llm.prompts);
    var summarize := SummarizePrompt(Rendered(title), r.value);
    var stored := StoreScene(llm, Rendered(title), r.value, encoder, index, meta);
    AppendAfter(p0, sent, summarize);
    ReviewsSnoc(sent, summarize);
    SceneTwoSnoc(sent, summarize);
    sent := sent + [summarize];
    if stored.Err? {
      return Err(stored.error), sent;
    }
  }

  /** One round of the loop, for scene `k`: review and plan it while the
      memory holds what it holds, write it as scene 2, summarize it, and
      store it with its script. A round that fails stores nothing. */
  method PlayRound(llm: Provider, outline: string, title: Option<string>, k: int,
                   encoder: Encoder, index: VectorIndex, meta: MetadataList)
    returns (r: Result<()>, ghost sent: seq<Prompt>)
    modifies llm, encoder, index, meta
    ensures llm.prompts == old(llm.prompts) + sent
    ensures Reviews(sent) == [RoundReview(outline, k, |old(meta.items)|)]
    ensures ScriptsAsSceneTwo(sent)
    ensures r.Ok? ==>
      |meta.items| == |old(meta.items)| + 1 && meta.items[..|old(meta.items)|] == old(meta.items) &&
      meta.items[|old(meta.items)|].script.Some? && index.ntotal == old(index.ntotal) + 1
    ensures r.Err? ==> meta.items == old(meta.items) && index.ntotal == old(index.ntotal)
  {
    var description := TextUtils.ExtractScene(outline, k);
    var review := SceneReviewPrompt(k, description, |meta.items|);
    ghost var p0 := llm.prompts;
    ghost var reviewed := [RoundReview(outline, k, |meta.items|)];
    var planReply := llm.Complete(review);
    sent := [review];
    ReviewsSnoc([], review);
    assert [] + [review] == sent;
    assert Reviews(sent) == reviewed;
    var plan := CheckedReply(planReply);
    if plan.Err? {
      return Err(plan.error), sent;
    }
    var scriptPrompt := SceneScriptPrompt(plan.value, 2);
    var scriptReply := llm.Complete(scriptPrompt);
    AppendAfter(p0, sent, scriptPrompt);
    ReviewsSnoc(sent, scriptPrompt);
    SceneTwoSnoc(sent, scriptPrompt);
    sent := sent + [scriptPrompt];
    assert Reviews(sent) == reviewed;
    var script := StrippedReply(scriptReply);
    if script.Err? {
      return Err(script.error), sent;
    }
    var summarize := SummarizePrompt(Rendered(title), script.value);
    r := StoreScene(llm, Rendered(title), script.value, encoder, index, meta);
    AppendAfter(p0, sent, summarize);
    ReviewsSnoc(sent, summarize);
    SceneTwoSnoc(sent, summarize);
    sent := sent + [summarize];
    assert Reviews(sent) == reviewed;
  }

  /** The `numScenes` rounds after scene 1, in order, stopping at the
      first that fails; the memory starts with scene 1's record alone. */
  method PlayRounds(llm: Provider, outline: string, title: Option<string>, n: nat,
                    encoder: Encoder, index: VectorIndex, meta: MetadataList)
    returns (r: Result<()>, ghost sent: seq<Prompt>)
    requires |meta.items| == 1 && index.ntotal == 1 && meta.items[0].script.Some?
    modifies llm, encoder, index, meta
    ensures llm.prompts == old(llm.prompts) + sent
    ensures index.ntotal == |meta.items| && |meta.items| >= 1 && meta.items[0] == old(meta.items[0])
    ensures RecordsCarryScripts(meta.items)
    ensures var m := |Reviews(sent)|;
      m <= n && Reviews(sent) == PlannedReviews(outline, n)[..m] && |meta.items| >= m
    ensures ScriptsAsSceneTwo(sent)
    ensures r.Ok? ==> |Reviews(sent)| == n && |meta.items| == n + 1
  {
    ghost var planned := PlannedReviews(outline, n);
    sent := [];
    assert planned[..0] == [];
    for i := 0 to n
      invariant llm.prompts == old(llm.prompts) + sent
      invariant Reviews(sent) == planned[..i]
      invariant ScriptsAsSceneTwo(sent)
      invariant |meta.items| == i + 1 && index.ntotal == |meta.items|
      invariant meta.items[0] == old(meta.items[0])
      invariant RecordsCarryScripts(meta.items)
    {
      ghost var before := meta.items;
      var round;
      ghost var roundSent;
      round, roundSent := PlayRound(llm, outline, title, i + 2, encoder, index, meta);
      NextRound(sent, roundSent, planned, i);
      sent := sent + roundSent;
      if round.Err? {
        return Err(round.error), sent;
      }
      CarryScriptsStep(before, meta.items);
    }
    assert planned[..n] == planned;
    r := Ok(());
  }

  /** `main` from the outline on: scene 1 is written, summarized and
      stored, then each of the `numScenes` rounds reviews and plans its
      scene, writes it, summarizes it and stores it. The saved text joins
      the list `scenes`, which only scene 1 was ever appended to. */
  method GenerateEpisode(llm: Provider, outline: string, numScenes: int)
    returns (r: Result<(string, string)>, meta: MetadataList, index: VectorIndex, ghost sent: seq<Prompt>)
    modifies llm
    ensures fresh(meta) && fresh(index)
    ensures llm.prompts == old(llm.prompts) + sent
    ensures index.ntotal == |meta.items|
    ensures RecordsCarryScripts(meta.items)
    ensures var m := |Reviews(sent)|;
      m <= Max0(numScenes) && Reviews(sent) == PlannedReviews(outline, Max0(numScenes))[..m] &&
      (m > 0 ==> |meta.items| >= m)
    ensures ScriptsAsSceneTwo(sent)
    ensures r.Ok? ==> |Reviews(sent)| == Max0(numScenes) && |meta.items| == Max0(numScenes) + 1
    ensures r.Ok? ==> r.value == (Rendered(TextUtils.ExtractTitle(outline)), meta.items[0].script.value)
  {
    var n := Max0(numScenes);
    meta := new MetadataList();
    index := new VectorIndex();
    var encoder := new Encoder();
    var scenes: seq<string> := [];

    var title := TextUtils.ExtractTitle(outline);
    var scene1;
    scene1, sent := WriteFirstScene(llm, outline, title, encoder, index, meta);
    if scene1.Err? {
      assert PlannedReviews(outline, n)[..0] == [];
      return Err(scene1.error), meta, index, sent;
    }
    scenes := scenes + [scene1.value];
    var rounds;
    ghost var roundsSent;
    rounds, roundsSent := PlayRounds(llm, outline, title, n, encoder, index, meta);
    ghost var p0 := old(llm.prompts);
    AppendJoined(p0, sent, roundsSent);
    ReviewsAppend(sent, roundsSent);
    ScriptsAsSceneTwoAppend(sent, roundsSent);
    sent := sent + roundsSent;
    if rounds.Err? {
      return Err(rounds.error), meta, index, sent;
    }
    var savedTitle := TextUtils.ExtractTitle(outline);
    r := Ok((Rendered(savedTitle), Join(scenes, "\n\n")));
  }

  /** `range(n)` runs `n` times for a positive `n` and not at all
      otherwise. */
  function Max0(n: int): (r: nat)
    ensures n <= 0 ==> r == 0
    ensures n > 0 ==> r == n
  {
    if n > 0 then n else 0
  }
}
