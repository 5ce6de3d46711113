/** The step navigation of the React front end (`src/App.js`): the six
    steps of the outline wizard, the scene flow that follows them, the Back
    and Next buttons that move between them, and the keyword check of the
    keyword step. */
module FrontEndSteps {
  import opened Wrappers
  import opened JsonValues
  import FrontEndText
  import BackendApp
  import Seqs
  import Py

  /** The wizard's steps, `API Key` to `Outline`; the scene flow has one. */
  const StepCount: int := 6

  /** The keys of the keyword categories, in the order the form lists them. */
  const CategoryKeys: seq<string> := ["setting", "characters", "themes", "tone_genre"]

  /** Where the wizard is: its active step, and whether the scene flow has
      begun. */
  datatype Position = Position(step: int, sceneFlow: bool)

  const Start: Position := Position(0, false)

  /** A step the stepper shows: one of the wizard's six, or the scene
      flow's only one. */
  predicate OnStep(n: Position) {
    (!n.sceneFlow && 0 <= n.step < StepCount) || (n.sceneFlow && n.step == 0)
  }

  /** Where `handleNext` goes: the outline step starts the scene flow at its
      first step, every other step moves on by one (the initialising step
      after its progress animation). */
  function AfterNext(n: Position): (r: Position)
    ensures !n.sceneFlow && n.step == StepCount - 1 ==> r == Position(0, true)
    ensures n.sceneFlow || n.step != StepCount - 1 ==> r == Position(n.step + 1, n.sceneFlow)
  {
    if !n.sceneFlow && n.step == 5 then Position(0, true) else Position(n.step + 1, n.sceneFlow)
  }

  /** Where `handleBack` goes: from the scene flow's first step back to the
      outline step, from any other step one step back. */
  function AfterBack(n: Position): (r: Position)
    ensures n.sceneFlow && n.step == 0 ==> r == Position(StepCount - 1, false)
    ensures !n.sceneFlow || n.step != 0 ==> r == Position(n.step - 1, n.sceneFlow)
  {
    if n.sceneFlow && n.step == 0 then Position(5, false) else Position(n.step - 1, n.sceneFlow)
  }

  /** The Back button is enabled: it is disabled on step 0 and while
      loading. */
  predicate BackEnabled(n: Position, loading: bool) {
    !(n.step == 0 || loading)
  }

  /** The Next button is shown outside the scene flow, and is disabled while
      loading and on the first step until an API key is given. */
  predicate NextEnabled(n: Position, loading: bool, apiKey: string) {
    !n.sceneFlow && !(loading || (n.step == 0 && apiKey == []) || (n.step == 4 && loading) || (n.step == 5 && loading))
  }

  /** The two buttons that move between steps; `Generate Scripts` on the
      outline step calls the same handler as Next. */
  datatype Click = Next | Back

  /** A click when nothing is loading: an enabled button moves, a disabled
      one does nothing. */
  function Press(n: Position, c: Click, apiKey: string): Position {
    match c
    case Next => if NextEnabled(n, false, apiKey) then AfterNext(n) else n
    case Back => if BackEnabled(n, false) then AfterBack(n) else n
  }

  function Run(n: Position, clicks: seq<Click>, apiKey: string): Position
    decreases |clicks|
  {
    if clicks == [] then n else Run(Press(n, clicks[0], apiKey), clicks[1..], apiKey)
  }

  /** An enabled button keeps the wizard on a step the stepper shows. */
  lemma PressStaysOnStep(n: Position, c: Click, apiKey: string)
    requires OnStep(n)
    ensures OnStep(Press(n, c, apiKey))
    ensures c == Next && NextEnabled(n, false, apiKey) ==>
      Press(n, c, apiKey).step == n.step + 1 || Press(n, c, apiKey) == Position(0, true)
    ensures c == Back && BackEnabled(n, false) ==> Press(n, c, apiKey) == Position(n.step - 1, n.sceneFlow)
  {
  }

  /** Any run of clicks keeps the wizard on a step the stepper shows. */
  lemma {:induction false} RunStaysOnStep(n: Position, clicks: seq<Click>, apiKey: string)
    requires OnStep(n)
    ensures OnStep(Run(n, clicks, apiKey))
    decreases |clicks|
  {
    if clicks != [] {
      PressStaysOnStep(n, clicks[0], apiKey);
      RunStaysOnStep(Press(n, clicks[0], apiKey), clicks[1..], apiKey);
    }
  }

  /** Six clicks on Next, with an API key given, lead from the first step
      into the scene flow. */
  lemma SceneFlowReached(apiKey: string)
    requires apiKey != []
    ensures Run(Start, [Next, Next, Next, Next, Next, Next], apiKey) == Position(0, true)
  {
    var clicks: seq<Click> := [Next, Next, Next, Next, Next, Next];
    assert Run(Start, clicks, apiKey) == Run(Position(1, false), clicks[1..], apiKey);
    assert clicks[1..][1..] == [Next, Next, Next, Next];
    assert Run(Position(1, false), clicks[1..], apiKey) == Run(Position(2, false), [Next, Next, Next, Next], apiKey);
    assert [Next, Next, Next, Next][1..] == [Next, Next, Next];
    assert [Next, Next, Next][1..] == [Next, Next];
    assert [Next, Next][1..] == [Next];
    assert Run(Position(2, false), [Next, Next, Next, Next], apiKey) == Run(Position(5, false), [Next], apiKey);
  }

  /** As written, the scene flow is never left: on its only step Back is
      disabled, as on every step 0, and Next is not shown, so no run of
      clicks moves the wizard, and the branch of `handleBack` that returns
      to the outline step is never taken. */
  lemma {:induction false} SceneFlowIsFinal(n: Position, clicks: seq<Click>, apiKey: string)
    requires OnStep(n) && n.sceneFlow
    ensures Run(n, clicks, apiKey) == n
    ensures !BackEnabled(n, false) && !NextEnabled(n, false, apiKey)
    decreases |clicks|
  {
    if clicks != [] {
      SceneFlowIsFinal(n, clicks[1..], apiKey);
    }
  }

  /** Back as evidently intended: also enabled on the scene flow's first
      step, where `handleBack` has its way back to the outline. */
  predicate BackEnabledAsIntended(n: Position, loading: bool) {
    !loading && (n.step != 0 || n.sceneFlow)
  }

  function PressAsIntended(n: Position, c: Click, apiKey: string): Position {
    match c
    case Next => if NextEnabled(n, false, apiKey) then AfterNext(n) else n
    case Back => if BackEnabledAsIntended(n, false) then AfterBack(n) else n
  }

  /** With Back enabled as intended, Back leaves the scene flow for the
      outline step; outside the scene flow Back is enabled exactly as
      written; and every click keeps the wizard on a step. */
  lemma IntendedBack(n: Position, c: Click, apiKey: string)
    requires OnStep(n)
    ensures n.sceneFlow ==> PressAsIntended(n, Back, apiKey) == Position(StepCount - 1, false)
    ensures !n.sceneFlow ==> (BackEnabledAsIntended(n, false) <==> BackEnabled(n, false))
    ensures !n.sceneFlow ==> PressAsIntended(n, c, apiKey) == Press(n, c, apiKey)
    ensures OnStep(PressAsIntended(n, c, apiKey))
  {
  }

  // ---------------------------------------------------------------------
  // The keywords.

  /** The form's state holds a value for every category. */
  predicate HasCategories(keywords: map<string, string>) {
    forall i :: 0 <= i < |CategoryKeys| ==> CategoryKeys[i] in keywords
  }

  /** A keyword value counts as given once trimmed it is not empty. */
  predicate Filled(value: string) {
    FrontEndText.Trim(value) != []
  }

  /** `allKeywordsFilled`: every category's value is filled in. */
  function AllKeywordsFilled(keywords: map<string, string>): (r: bool)
    requires HasCategories(keywords)
    ensures r <==> forall i :: 0 <= i < |CategoryKeys| ==> Filled(keywords[CategoryKeys[i]])
  {
    Every(keywords, CategoryKeys)
  }

  /** The `every` over a list of keys. */
  function Every(keywords: map<string, string>, keys: seq<string>): (r: bool)
    requires forall k :: k in keys ==> k in keywords
    ensures r <==> forall k :: k in keys ==> Filled(keywords[k])
  {
    if keys == [] then true
    else Filled(keywords[keys[0]]) && Every(keywords, keys[1..])
  }

  /** As written, Next on the keyword step is enabled whether or not every
      keyword is filled in: the check is computed but gates nothing. */
  lemma NextIgnoresKeywords(apiKey: string)
    ensures var blank := map k | k in CategoryKeys :: "";
      HasCategories(blank) && !AllKeywordsFilled(blank) &&
      NextEnabled(Position(2, false), false, apiKey)
  {
    var blank := map k | k in CategoryKeys :: "";
    assert CategoryKeys[0] in CategoryKeys;
    assert !Filled(blank[CategoryKeys[0]]);
  }

  /** Next as evidently intended: on the keyword step also disabled until
      every keyword is filled in. */
  predicate NextEnabledAsIntended(n: Position, loading: bool, apiKey: string, keywords: map<string, string>)
    requires HasCategories(keywords)
  {
    NextEnabled(n, loading, apiKey) && !(n.step == 2 && !AllKeywordsFilled(keywords))
  }

  /** With the check in place, leaving the keyword step by Next needs every
      category filled in, and other steps are unaffected. */
  lemma IntendedNextNeedsKeywords(n: Position, loading: bool, apiKey: string, keywords: map<string, string>)
    requires HasCategories(keywords)
    ensures NextEnabledAsIntended(n, loading, apiKey, keywords) && n == Position(2, false) ==>
      forall i :: 0 <= i < |CategoryKeys| ==> Filled(keywords[CategoryKeys[i]])
    ensures n.step != 2 ==> (NextEnabledAsIntended(n, loading, apiKey, keywords) <==> NextEnabled(n, loading, apiKey))
  {
  }

  /** What the concept request sends for the keywords: one string per
      category, in the form's order. */
  function KeywordEntries(keywords: map<string, string>): (r: seq<(string, Json)>)
    requires HasCategories(keywords)
    ensures |r| == |CategoryKeys|
    ensures forall i :: 0 <= i < |r| ==> r[i] == (CategoryKeys[i], JString(keywords[CategoryKeys[i]]))
  {
    seq(|CategoryKeys|, i requires 0 <= i < |CategoryKeys| => (CategoryKeys[i], JString(keywords[CategoryKeys[i]])))
  }

  /** A comma in every category. */
  const Commas: map<string, string> := map k | k in CategoryKeys :: ","

  /** Filled-in keywords need not give the backend any keyword: a comma in
      every category passes the check, yet each splits into no names, and
      the concept is requested without keywords. */
  lemma FilledButNoKeywords()
    ensures HasCategories(Commas) && AllKeywordsFilled(Commas)
    ensures BackendApp.KeywordArg(Seqs.FlatMap(KeywordEntries(Commas), BackendApp.CategoryWords)) == None
  {
    CommasFilled();
    CommasGiveNoWords();
  }

  lemma CommasFilled()
    ensures HasCategories(Commas) && AllKeywordsFilled(Commas)
  {
    CommaFilled();
    forall i | 0 <= i < |CategoryKeys|
      ensures CategoryKeys[i] in Commas && Commas[CategoryKeys[i]] == ","
    {
      assert CategoryKeys[i] in CategoryKeys;
    }
  }

  lemma CommaFilled()
    ensures Filled(",")
  {
    assert Py.StripClass(",", Py.JsSpace) == ",";
  }

  lemma CommasGiveNoWords()
    requires HasCategories(Commas)
    ensures BackendApp.KeywordArg(Seqs.FlatMap(KeywordEntries(Commas), BackendApp.CategoryWords)) == None
  {
    var entries := KeywordEntries(Commas);
    NoNamesInComma();
    forall i | 0 <= i < |entries|
      ensures BackendApp.Contribution(entries[i].1) == []
    {
      assert entries[i].1 == JString(",");
    }
    BackendApp.FlatKeywords(entries, [], JNull);
  }

  lemma NoNamesInComma()
    ensures BackendApp.Contribution(JString(",")) == []
  {
    assert Py.OccursAt(",", ",", 0);
    assert Py.FindFrom(",", ",", 0) == Some(0);
    assert Py.Split(",", ",") == [""] + Py.Split("", ",");
    assert Py.Split("", ",") == [""];
  }

  // ---------------------------------------------------------------------
  // The wizard's state.

  /** The state the two navigation handlers and the keyword form change. */
  class Wizard {
    var activeStep: int
    var sceneFlow: bool
    var scene1Script: string
    var error: string
    var loading: bool
    var progress: int
    var keywords: map<string, string>

    function At(): Position
      reads this
    {
      Position(activeStep, sceneFlow)
    }

    constructor ()
      ensures At() == Start && scene1Script == [] && error == [] && !loading && progress == 0
      ensures keywords == (map k | k in CategoryKeys :: "") && HasCategories(keywords)
    {
      activeStep := 0;
      sceneFlow := false;
      scene1Script := "";
      error := "";
      loading := false;
      progress := 0;
      keywords := map k | k in CategoryKeys :: "";
      assert forall i :: 0 <= i < |CategoryKeys| ==> CategoryKeys[i] in CategoryKeys;
    }

    /** `handleNext`. On the initialising step the progress bar runs up in
        ten steps of ten while loading, then the step moves on. */
    method HandleNext()
      modifies this
      ensures At() == AfterNext(old(At()))
      ensures error == []
      ensures scene1Script == if old(At()) == Position(5, false) then [] else old(scene1Script)
      ensures old(At()) == Position(1, false) ==> progress == 100 && !loading
      ensures old(At()) != Position(1, false) ==> progress == old(progress) && loading == old(loading)
      ensures keywords == old(keywords)
    {
      error := "";
      if !sceneFlow && activeStep == 1 {
        progress := 0;
        loading := true;
        var value := 0;
        while value < 100
          invariant 0 <= value <= 100 && value % 10 == 0 && progress == value
          invariant At() == old(At()) && error == [] && scene1Script == old(scene1Script)
          invariant keywords == old(keywords)
        {
          value := value + 10;
          progress := value;
        }
        loading := false;
        activeStep := activeStep + 1;
        return;
      }
      if !sceneFlow && activeStep == 5 {
        sceneFlow := true;
        activeStep := 0;
        scene1Script := "";
        return;
      }
      activeStep := activeStep + 1;
    }

    /** `handleBack`. */
    method HandleBack()
      modifies this
      ensures At() == AfterBack(old(At()))
      ensures error == []
      ensures scene1Script == old(scene1Script) && loading == old(loading) && progress == old(progress)
      ensures keywords == old(keywords)
    {
      error := "";
      if sceneFlow && activeStep == 0 {
        sceneFlow := false;
        activeStep := 5;
        return;
      }
      activeStep := activeStep - 1;
    }

    /** `handleKeywordChange(category)`: one category's value replaced. */
    method HandleKeywordChange(category: string, value: string)
      modifies this
      ensures keywords == old(keywords)[category := value]
      ensures At() == old(At()) && error == old(error) && scene1Script == old(scene1Script)
      ensures loading == old(loading) && progress == old(progress)
      ensures old(HasCategories(keywords)) ==> HasCategories(keywords)
    {
      keywords := keywords[category := value];
    }
  }
}
