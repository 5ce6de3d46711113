/** `backend/app.py`: the Flask routes of the web application. Each route
    reads its fields from the JSON body, answers 400 when one it needs is
    missing or false, and otherwise calls the pipeline, answering 500 with
    the message of any exception.

    The one-call wrappers the first routes delegate to (the pitch, the
    outline, the validation) are not part of this model: each is one request
    carrying the route's inputs, whose reply content is the answer. The
    embedding model, the FAISS index and the metadata list are module-level
    globals shared by every request: here they are the fields of one
    `Backend` object. */
module BackendApp {
  import opened Wrappers
  import opened Py
  import opened JsonValues
  import opened Llm
  import Seqs
  import Characters
  import TextUtils
  import SceneMemory
  import ComedyAgents
  import EnvironmentAgents
  import EnvironmentReActAgents

  /** What a route answers. */
  datatype Response =
    | Success(body: seq<(string, Json)>)  // 200 with this JSON object
    | BadRequest                          // 400 "Missing required fields"
    | ServerError(cause: Failure)         // 500 with the exception's message

  function Status(r: Response): (code: int)
    ensures code in {200, 400, 500}
  {
    match r
    case Success(_) => 200
    case BadRequest => 400
    case ServerError(_) => 500
  }

  // ---------------------------------------------------------------------
  // Required fields

  /** `data.get(key)` is present and true. */
  predicate Given(data: map<string, Json>, key: string) {
    key in data && Truthy(data[key])
  }

  /** `not data.get(f1) or not data.get(f2) or ...` */
  function MissingAny(data: map<string, Json>, fields: seq<string>): (r: bool)
    ensures r <==> exists i :: 0 <= i < |fields| && !Given(data, fields[i])
  {
    if fields == [] then false
    else if !Given(data, fields[0]) then true
    else
      var rest := MissingAny(data, fields[1..]);
      assert forall i :: 1 <= i < |fields| ==> fields[i] == fields[1..][i - 1];
      rest
  }

  const ConceptFields: seq<string> := ["apiKey"]
  const OutlineFields: seq<string> := ["apiKey", "concept"]
  const ValidationFields: seq<string> := ["apiKey", "concept", "outline"]
  const SceneOneFields: seq<string> := ["apiKey", "outline"]
  const SceneFields: seq<string> := ["apiKey", "outline", "sceneNumber"]
  const VectorInfoFields: seq<string> := ["apiKey", "outline", "scene1Script"]
  const WritersRoomFields: seq<string> := ["apiKey", "outline"]

  /** Each route's list of required fields, spelled out. */
  lemma Gates(data: map<string, Json>)
    ensures MissingAny(data, ConceptFields) <==> !Given(data, "apiKey")
    ensures MissingAny(data, OutlineFields) <==> !Given(data, "apiKey") || !Given(data, "concept")
    ensures MissingAny(data, ValidationFields) <==>
      !Given(data, "apiKey") || !Given(data, "concept") || !Given(data, "outline")
    ensures MissingAny(data, SceneOneFields) <==> !Given(data, "apiKey") || !Given(data, "outline")
    ensures MissingAny(data, SceneFields) <==>
      !Given(data, "apiKey") || !Given(data, "outline") || !Given(data, "sceneNumber")
    ensures MissingAny(data, VectorInfoFields) <==>
      !Given(data, "apiKey") || !Given(data, "outline") || !Given(data, "scene1Script")
    ensures MissingAny(data, WritersRoomFields) <==> !Given(data, "apiKey") || !Given(data, "outline")
  {
    assert ValidationFields[1] == "concept" && ValidationFields[2] == "outline";
    assert SceneFields[1] == "outline" && SceneFields[2] == "sceneNumber";
    assert VectorInfoFields[1] == "outline" && VectorInfoFields[2] == "scene1Script";
  }

  /** The field is a non-empty text. */
  predicate GivenText(data: map<string, Json>, key: string) {
    key in data && data[key].JString? && data[key].s != []
  }

  /** The answer `{key: text}` to a call that produced a text, or the 500
      of one that raised. */
  function Answer(key: string, out: Result<string>): (r: Response)
    ensures out.Ok? <==> r.Success?
    ensures out.Ok? ==> r.body == [(key, JString(out.value))]
    ensures out.Err? ==> r == ServerError(out.error)
  {
    if out.Ok? then Success([(key, JString(out.value))]) else ServerError(out.error)
  }

  // ---------------------------------------------------------------------
  // Keywords

  function Strings(xs: seq<string>): (r: seq<Json>)
    ensures |r| == |xs| && forall i :: 0 <= i < |xs| ==> r[i] == JString(xs[i])
  {
    if xs == [] then [] else [JString(xs[0])] + Strings(xs[1..])
  }

  /** What one category adds to the list: a list as it is, a text read as
      a comma-separated list (the comprehension of `Characters.Names`), and
      nothing for any other value. */
  function Contribution(words: Json): seq<Json> {
    match words
    case JList(items) => items
    case JString(s) => Strings(Characters.Names(s))
    case _ => []
  }

  function CategoryWords(entry: (string, Json)): seq<Json> {
    Contribution(entry.1)
  }

  /** The loop over `keywords.items()`. */
  method FlattenKeywords(entries: seq<(string, Json)>) returns (keywordList: seq<Json>)
    ensures keywordList == Seqs.FlatMap(entries, CategoryWords)
  {
    keywordList := [];
    for i := 0 to |entries|
      invariant keywordList == Seqs.FlatMap(entries[..i], CategoryWords)
    {
      Seqs.FlatMapStep(entries, i, CategoryWords);
      var words := entries[i].1;
      if words.JList? {
        keywordList := keywordList + words.items;
      } else if words.JString? {
        keywordList := keywordList + Strings(Characters.Names(words.s));
      }
    }
    assert entries[..|entries|] == entries;
  }

  /** `None` for an empty list. */
  function KeywordArg(keywordList: seq<Json>): (r: Option<seq<Json>>)
    ensures r.None? <==> keywordList == []
    ensures r.Some? ==> r.value == keywordList
  {
    if keywordList == [] then None else Some(keywordList)
  }

  /** The flat list holds a value exactly when some category adds it, keeps
      the categories in order, and is passed on as `None` exactly when no
      category adds anything; every word read from a text is a non-empty
      text with no white space at either end. */
  lemma FlatKeywords(entries: seq<(string, Json)>, more: seq<(string, Json)>, w: Json)
    ensures w in Seqs.FlatMap(entries, CategoryWords) <==>
      exists i :: 0 <= i < |entries| && w in Contribution(entries[i].1)
    ensures Seqs.FlatMap(entries + more, CategoryWords) ==
      Seqs.FlatMap(entries, CategoryWords) + Seqs.FlatMap(more, CategoryWords)
    ensures KeywordArg(Seqs.FlatMap(entries, CategoryWords)).None? <==>
      forall i :: 0 <= i < |entries| ==> Contribution(entries[i].1) == []
    ensures forall i :: 0 <= i < |entries| && entries[i].1.JString? ==>
      forall v :: v in Contribution(entries[i].1) ==> v.JString? && Characters.Trimmed(v.s)
  {
    Seqs.FlatMapMembers(entries, CategoryWords, w);
    Seqs.FlatMapAppend(entries, more, CategoryWords);
    NoKeywords(entries);
    WordsTrimmed(entries);
  }

  lemma NoKeywords(entries: seq<(string, Json)>)
    ensures Seqs.FlatMap(entries, CategoryWords) == [] <==>
      forall i :: 0 <= i < |entries| ==> Contribution(entries[i].1) == []
  {
    var flat := Seqs.FlatMap(entries, CategoryWords);
    if flat != [] {
      Seqs.FlatMapMembers(entries, CategoryWords, flat[0]);
    }
    forall i | 0 <= i < |entries| && Contribution(entries[i].1) != []
      ensures flat != []
    {
      Seqs.FlatMapMembers(entries, CategoryWords, Contribution(entries[i].1)[0]);
    }
  }

  lemma WordsTrimmed(entries: seq<(string, Json)>)
    ensures forall i :: 0 <= i < |entries| && entries[i].1.JString? ==>
      forall v :: v in Contribution(entries[i].1) ==> v.JString? && Characters.Trimmed(v.s)
  {
  }

  // ---------------------------------------------------------------------
  // The stateless routes

  /** `/api/generate-concept`: only the key is required; the keywords must
      then be a dictionary, whose flattened values go to the pitch. */
  method GenerateConcept(data: map<string, Json>, llm: Provider) returns (r: Response)
    modifies llm
    ensures !Given(data, "apiKey") ==> r == BadRequest && unchanged(llm)
    ensures Given(data, "apiKey") && ("keywords" !in data || !data["keywords"].JObject?) ==>
      r == ServerError(WrongType) && unchanged(llm)
    ensures Given(data, "apiKey") && "keywords" in data && data["keywords"].JObject? ==>
      llm.prompts == old(llm.prompts) +
        [PitchPrompt(KeywordArg(Seqs.FlatMap(data["keywords"].entries, CategoryWords)))] &&
      llm.script == Rest(old(llm.script)) &&
      r == Answer("concept", RawReply(Next(old(llm.script))))
    ensures r == BadRequest <==> MissingAny(data, ConceptFields)
  {
    Gates(data);
    if !Given(data, "apiKey") {
      return BadRequest;
    }
    if "keywords" !in data || !data["keywords"].JObject? {
      // `keywords.items()` on a missing or non-dictionary value.
      return ServerError(WrongType);
    }
    var keywordList := FlattenKeywords(data["keywords"].entries);
    var reply := llm.Complete(PitchPrompt(KeywordArg(keywordList)));
    r := Answer("concept", RawReply(reply));
  }

  /** `/api/generate-outline` */
  method GenerateOutline(data: map<string, Json>, llm: Provider) returns (r: Response)
    modifies llm
    ensures r == BadRequest <==> MissingAny(data, OutlineFields)
    ensures r == BadRequest ==> unchanged(llm)
    ensures Given(data, "apiKey") && Given(data, "concept") ==>
      llm.prompts == old(llm.prompts) + [OutlinePrompt(data["concept"])] &&
      llm.script == Rest(old(llm.script)) &&
      r == Answer("outline", RawReply(Next(old(llm.script))))
  {
    Gates(data);
    if !Given(data, "apiKey") || !Given(data, "concept") {
      return BadRequest;
    }
    var reply := llm.Complete(OutlinePrompt(data["concept"]));
    r := Answer("outline", RawReply(reply));
  }

  /** `/api/validate-outline` */
  method ValidateOutline(data: map<string, Json>, llm: Provider) returns (r: Response)
    modifies llm
    ensures r == BadRequest <==> MissingAny(data, ValidationFields)
    ensures r == BadRequest ==> unchanged(llm)
    ensures Given(data, "apiKey") && Given(data, "concept") && Given(data, "outline") ==>
      llm.prompts == old(llm.prompts) + [ValidationPrompt(data["concept"], data["outline"])] &&
      llm.script == Rest(old(llm.script)) &&
      r == Answer("validation", RawReply(Next(old(llm.script))))
  {
    Gates(data);
    if !Given(data, "apiKey") || !Given(data, "concept") || !Given(data, "outline") {
      return BadRequest;
    }
    var reply := llm.Complete(ValidationPrompt(data["concept"], data["outline"]));
    r := Answer("validation", RawReply(reply));
  }

  /** `/api/generate-scene-1`: scene 1's description and the title read
      from the outline, and `generate_scene_1_script`, which fails on a
      reply without content and otherwise answers it stripped. An outline
      that is not a text fails in the regular expression search. */
  method GenerateSceneOne(data: map<string, Json>, llm: Provider) returns (r: Response)
    modifies llm
    ensures r == BadRequest <==> MissingAny(data, SceneOneFields)
    ensures r == BadRequest ==> unchanged(llm)
    ensures Given(data, "apiKey") && Given(data, "outline") && !data["outline"].JString? ==>
      r == ServerError(WrongType) && unchanged(llm)
    ensures Given(data, "apiKey") && Given(data, "outline") && data["outline"].JString? ==>
      var outline := data["outline"].s;
      llm.prompts == old(llm.prompts) +
        [FirstScenePrompt(TextUtils.ExtractTitle(outline), TextUtils.ExtractScene(outline, 1))] &&
      llm.script == Rest(old(llm.script)) &&
      r == Answer("scene1", CheckedReply(Next(old(llm.script))))
  {
    Gates(data);
    if !Given(data, "apiKey") || !Given(data, "outline") {
      return BadRequest;
    }
    if !data["outline"].JString? {
      return ServerError(WrongType);
    }
    var outline := data["outline"].s;
    var description := TextUtils.ExtractScene(outline, 1);
    var title := TextUtils.ExtractTitle(outline);
    var reply := llm.Complete(FirstScenePrompt(title, description));
    r := Answer("scene1", CheckedReply(reply));
  }

  /** `/api/generate-scene`: one request naming the scene and the outline,
      whose content is answered as it is. */
  method GenerateScene(data: map<string, Json>, llm: Provider) returns (r: Response)
    modifies llm
    ensures r == BadRequest <==> MissingAny(data, SceneFields)
    ensures r == BadRequest ==> unchanged(llm)
    ensures Given(data, "apiKey") && Given(data, "outline") && Given(data, "sceneNumber") ==>
      llm.prompts == old(llm.prompts) + [SceneRequestPrompt(data["sceneNumber"], data["outline"])] &&
      llm.script == Rest(old(llm.script)) &&
      r == Answer("scene", RawReply(Next(old(llm.script))))
  {
    Gates(data);
    if !Given(data, "apiKey") || !Given(data, "outline") || !Given(data, "sceneNumber") {
      return BadRequest;
    }
    var reply := llm.Complete(SceneRequestPrompt(data["sceneNumber"], data["outline"]));
    r := Answer("scene", RawReply(reply));
  }

  // ---------------------------------------------------------------------
  // The routes that use the shared memory

  function OptionalText(o: Option<string>): Json {
    if o.Some? then JString(o.value) else JNull
  }

  /** The fields `scene_1_vector_info` reports of a record. Every record
      holds all five keys, so the `''` defaults of its lookups never apply. */
  function InfoBody(rec: SceneMemory.SceneRecord): seq<(string, Json)> {
    [("summary", JString(rec.summary)),
     ("characters", JList(Strings(rec.characters))),
     ("location", OptionalText(rec.location)),
     ("recurring_joke", OptionalText(rec.recurringJoke)),
     ("emotional_tone", OptionalText(rec.emotionalTone))]
  }

  class Backend {
    const encoder: SceneMemory.Encoder
    const index: SceneMemory.VectorIndex
    const meta: SceneMemory.MetadataList

    /** The globals at start-up: an empty index and an empty list. */
    constructor ()
      ensures fresh(encoder) && fresh(index) && fresh(meta)
      ensures index.ntotal == 0 && meta.items == []
      ensures InStep()
    {
      encoder := new SceneMemory.Encoder();
      index := new SceneMemory.VectorIndex();
      meta := new SceneMemory.MetadataList();
    }

    /** The index holds one vector per record. */
    predicate InStep()
      reads index, meta
    {
      index.ntotal == |meta.items|
    }

    /** `/api/scene-1-vector-info`: the script summarized with the
        backend's three attempts and stored, and the last record reported.
        A failed summary stores nothing. */
    method SceneOneVectorInfo(data: map<string, Json>, llm: Provider, clock: Clock) returns (r: Response)
      modifies llm, clock, encoder, index, meta
      ensures r == BadRequest <==> MissingAny(data, VectorInfoFields)
      ensures r == BadRequest ==> unchanged(llm)
      ensures r.BadRequest? || r == ServerError(WrongType) ==>
        meta.items == old(meta.items) && index.ntotal == old(index.ntotal)
      ensures (Given(data, "apiKey") && Given(data, "outline") && Given(data, "scene1Script")) ==>
        (r == ServerError(WrongType) && unchanged(llm) <==>
         !data["outline"].JString? || !data["scene1Script"].JString?)
      ensures Given(data, "apiKey") && GivenText(data, "outline") && GivenText(data, "scene1Script") ==>
        var out := RetryOutcome(old(llm.script));
        (out.Ok? ==>
           meta.items == old(meta.items) +
             [SceneMemory.RecordOf(SceneMemory.ParseReplyText(out.value), Some(data["scene1Script"].s))] &&
           index.ntotal == old(index.ntotal) + 1 &&
           r == Success(InfoBody(meta.items[|meta.items| - 1]))) &&
        (out.Err? ==>
           r == ServerError(out.error) && meta.items == old(meta.items) && index.ntotal == old(index.ntotal))
      ensures old(InStep()) ==> InStep()
    {
      Gates(data);
      if !Given(data, "apiKey") || !Given(data, "outline") || !Given(data, "scene1Script") {
        return BadRequest;
      }
      if !data["outline"].JString? || !data["scene1Script"].JString? {
        return ServerError(WrongType);
      }
      r := StoreAndReport(llm, clock, data["outline"].s, data["scene1Script"].s);
    }

    /** The body of `scene_1_vector_info` past its checks. */
    method StoreAndReport(llm: Provider, clock: Clock, outline: string, script: string) returns (r: Response)
      modifies llm, clock, encoder, index, meta
      ensures var out := RetryOutcome(old(llm.script));
        (out.Ok? ==>
           meta.items == old(meta.items) +
             [SceneMemory.RecordOf(SceneMemory.ParseReplyText(out.value), Some(script))] &&
           index.ntotal == old(index.ntotal) + 1 &&
           r == Success(InfoBody(meta.items[|meta.items| - 1]))) &&
        (out.Err? ==>
           r == ServerError(out.error) && meta.items == old(meta.items) && index.ntotal == old(index.ntotal))
      ensures r != ServerError(WrongType) && r != BadRequest
    {
      var title := TextUtils.ExtractTitle(outline);
      var stored := SceneMemory.StoreSceneInVectorDb(llm, clock, Rendered(title), script, encoder, index, meta);
      if stored.Err? {
        return ServerError(stored.error);
      }
      r := Success(InfoBody(meta.items[|meta.items| - 1]));
    }

    /** `/api/scene-1-writers-room`: the three agents on scene 2's
        description, over the memory as it stands. The character agent
        this route imports is not part of this model: `character` is how
        it ends, and the provider's script holds the replies after its
        own. The environment agent's `run` never completes, so once the
        fields are there the route always answers 500. */
    method WritersRoom(data: map<string, Json>, llm: Provider, character: Result<()>) returns (r: Response)
      modifies llm
      ensures r == BadRequest <==> MissingAny(data, WritersRoomFields)
      ensures r == BadRequest ==> unchanged(llm)
      ensures !MissingAny(data, WritersRoomFields) ==> r.ServerError?
      ensures (Given(data, "apiKey") && GivenText(data, "outline") && character.Ok? &&
               ComedyAgents.ComedyRun(old(llm.script), meta.items,
                                      Rendered(TextUtils.ExtractScene(data["outline"].s, 2))).Ok?) ==>
        r == ServerError(EnvironmentReActAgents.AsWrittenFailure(
               Rest(Rest(old(llm.script))), EnvironmentAgents.Locations(meta.items), 3))
    {
      Gates(data);
      if !Given(data, "apiKey") || !Given(data, "outline") {
        return BadRequest;
      }
      if !data["outline"].JString? {
        return ServerError(WrongType);
      }
      var scene := Rendered(TextUtils.ExtractScene(data["outline"].s, 2));
      r := RunAgents(llm, character, scene);
    }

    /** The route past its checks: the character agent's outcome, then the
        comedic and the environment agents on the scene. */
    method RunAgents(llm: Provider, character: Result<()>, scene: string) returns (r: Response)
      modifies llm
      ensures r.ServerError?
      ensures character.Ok? && ComedyAgents.ComedyRun(old(llm.script), meta.items, scene).Ok? ==>
        r == ServerError(EnvironmentReActAgents.AsWrittenFailure(
               Rest(Rest(old(llm.script))), EnvironmentAgents.Locations(meta.items), 3))
    {
      if character.Err? {
        return ServerError(character.error);
      }
      var comedic := new ComedyAgents.ComedicAgent(llm, meta.items);
      var comedy := comedic.Run(scene, 2);
      if comedy.Err? {
        return ServerError(comedy.error);
      }
      var environment := new EnvironmentReActAgents.EnvironmentReActAgent(llm, meta.items, 3);
      var env := environment.Run(scene, 2);
      r := ServerError(env.error);
    }
  }
}
