/** The `Dashboard` page: the idea of the day, the founder-fit heuristic,
    saving the idea, the builder prompts and the gating of the pro-only
    panels. The idea generator, the random draw of the fit heuristic and the
    database's answers are parameters; the database writes the page issues
    are recorded in the order it issues them. */
module Dashboard {
  import opened Domain

  function Min(a: int, b: int): int
  {
    if a <= b then a else b
  }

  /** The founder-fit heuristic for a skills description of `len` characters
      and the random draw `floor(random * 30)`: half the length, capped at 70,
      plus the draw, rounded, capped at 99. */
  function FitScore(len: nat, draw: int): (score: int)
    requires 0 <= draw < 30
    ensures 0 <= score <= 99
    // Half the length rounded up (a half-point rounds up), plus the draw.
    ensures score == Min((Min(len, 140) + 1) / 2 + draw, 99)
    ensures len >= 140 ==> score == 70 + draw
  {
    // Twice the base score keeps the half-points integral.
    Min(RoundDiv(Min(len, 140) + 2 * draw, 2), 99)
  }

  /** A longer description never scores less, for the same draw. */
  lemma FitScoreMonotone(len1: nat, len2: nat, draw: int)
    requires 0 <= draw < 30 && len1 <= len2
    ensures FitScore(len1, draw) <= FitScore(len2, draw)
  {
  }

  /** A template whose `fixed` pieces surround the `values`:
      `fixed[0] + values[0] + fixed[1] + ... + values[n-1] + fixed[n]`. */
  function Fill(fixed: seq<string>, values: seq<string>): string
    requires |fixed| == |values| + 1
  {
    if values == [] then fixed[0]
    else fixed[0] + values[0] + Fill(fixed[1..], values[1..])
  }

  /** Where `values[k]` starts in `Fill(fixed, values)`. */
  function Slot(fixed: seq<string>, values: seq<string>, k: nat): nat
    requires |fixed| == |values| + 1 && k < |values|
  {
    if k == 0 then |fixed[0]|
    else |fixed[0]| + |values[0]| + Slot(fixed[1..], values[1..], k - 1)
  }

  /** Each value appears at its slot, and the slots follow one another in
      the order of the values, without overlapping. */
  lemma {:induction false} FillPlacesValues(fixed: seq<string>, values: seq<string>, k: nat)
    requires |fixed| == |values| + 1 && k < |values|
    ensures Slot(fixed, values, k) + |values[k]| <= |Fill(fixed, values)|
    ensures Fill(fixed, values)[Slot(fixed, values, k)..Slot(fixed, values, k) + |values[k]|] == values[k]
    ensures k + 1 < |values| ==> Slot(fixed, values, k) + |values[k]| <= Slot(fixed, values, k + 1)
  {
    var head := fixed[0] + values[0];
    var rest := Fill(fixed[1..], values[1..]);
    assert Fill(fixed, values) == head + rest;
    if k == 0 {
      assert (head + rest)[|fixed[0]|..|head|] == values[0];
      if 1 < |values| {
        assert Slot(fixed, values, 1) == |head| + Slot(fixed[1..], values[1..], 0);
      }
    } else {
      FillPlacesValues(fixed[1..], values[1..], k - 1);
      var s := Slot(fixed[1..], values[1..], k - 1);
      assert (head + rest)[|head| + s..|head| + s + |values[k]|] == rest[s..s + |values[k]|];
    }
  }

  const FullPromptText: seq<string> := [
    "Build a startup app for \"",
    "\".\n\nProblem: ",
    "\n\nSolution: ",
    "\n\nTarget market: ",
    "\n\nKey features to include: User authentication, basic dashboard, core functionality to solve the problem, and simple UI/UX. Make it scalable and modern using React or similar."
  ]

  const BuilderPromptText: seq<string> := [
    "Build a startup app for \"",
    "\". Problem: ",
    ". Solution: ",
    ". Target market: ",
    ". Include key features like user authentication and a basic dashboard."
  ]

  /** The four fields of an idea in the order the prompts cite them. */
  function Fields(idea: IdeaCore): (fs: seq<string>)
    ensures |fs| == 4
    ensures fs[0] == idea.title && fs[1] == idea.problem && fs[2] == idea.solution && fs[3] == idea.market
  {
    [idea.title, idea.problem, idea.solution, idea.market]
  }

  /** Each value of a template sits at its slot of `p`, and the slots follow
      one another in the order of the values, without overlapping. */
  ghost predicate CitesInOrder(p: string, fixed: seq<string>, values: seq<string>)
    requires |fixed| == |values| + 1
  {
    forall k :: 0 <= k < |values| ==>
      var at := Slot(fixed, values, k);
      at + |values[k]| <= |p| && p[at..at + |values[k]|] == values[k]
      && (k + 1 < |values| ==> at + |values[k]| <= Slot(fixed, values, k + 1))
  }

  /** A filled template cites all its values in order. */
  lemma FillCitesInOrder(fixed: seq<string>, values: seq<string>)
    requires |fixed| == |values| + 1
    ensures CitesInOrder(Fill(fixed, values), fixed, values)
  {
    forall k | 0 <= k < |values| {
      FillPlacesValues(fixed, values, k);
    }
  }

  /** The prompt shown for copying: empty without an idea, else the fixed
      text with the title, problem, solution and market, each at its place
      and in that order. */
  function FullPrompt(idea: Option<IdeaCore>): (r: string)
    ensures idea.None? ==> r == ""
    ensures idea.Some? ==> CitesInOrder(r, FullPromptText, Fields(idea.value))
    ensures idea.Some? ==> r == Fill(FullPromptText, Fields(idea.value))
  {
    if idea.None? then ""
    else
      FillCitesInOrder(FullPromptText, Fields(idea.value));
      Fill(FullPromptText, Fields(idea.value))
  }

  /** The builder prompt before URL encoding: the fixed text with the title,
      problem, solution and market, each at its place and in that order. */
  function PlainBuilderPrompt(idea: IdeaCore): (t: string)
    ensures CitesInOrder(t, BuilderPromptText, Fields(idea))
    ensures t == Fill(BuilderPromptText, Fields(idea))
  {
    FillCitesInOrder(BuilderPromptText, Fields(idea));
    Fill(BuilderPromptText, Fields(idea))
  }

  /** The prompt passed to the builders' links, through the URL encoder
      `encode`: empty without an idea. */
  function BuilderPrompt(idea: Option<IdeaCore>, encode: string -> string): (r: string)
    ensures idea.None? ==> r == ""
    ensures idea.Some? ==> r == encode(PlainBuilderPrompt(idea.value))
  {
    if idea.None? then "" else encode(PlainBuilderPrompt(idea.value))
  }

  /** A pro user has a profile whose subscription status is exactly `pro`. */
  predicate IsProUser(profile: Option<Profile>)
  {
    profile.Some? && profile.value.subscription == Some("pro")
  }

  /** The panels of the loaded page, in order. */
  datatype Panel =
    | IdeaCard | FounderFitQuiz | ExportReport | AiAnalysis | TrendSignals
    | GoToMarketHelpers | BuildSection | UpgradeCard(title: string)

  /** The panels shown once an idea is loaded: the quiz, trend signals,
      go-to-market helpers and the build section only for a pro user, who
      sees no upgrade card. */
  function Panels(pro: bool): (ps: seq<Panel>)
    ensures IdeaCard in ps && ExportReport in ps && AiAnalysis in ps
    ensures FounderFitQuiz in ps <==> pro
    ensures TrendSignals in ps <==> pro
    ensures GoToMarketHelpers in ps <==> pro
    ensures BuildSection in ps <==> pro
    ensures pro ==> forall i :: 0 <= i < |ps| ==> !ps[i].UpgradeCard?
    ensures !pro ==> |ps| == 6 && ps[1].UpgradeCard? && ps[4].UpgradeCard? && ps[5].UpgradeCard?
  {
    if pro then [IdeaCard, FounderFitQuiz, ExportReport, AiAnalysis, TrendSignals, GoToMarketHelpers, BuildSection]
    else [IdeaCard, UpgradeCard("Unlock Founder Fit Analysis"), ExportReport, AiAnalysis,
          UpgradeCard("Unlock Trend Signals"), UpgradeCard("Unlock Go-to-Market Helpers")]
  }

  /** Only the exact status `pro` unlocks the panels: `admin`, `Pro` or no
      status at all do not. */
  lemma OnlyProUnlocks(profile: Profile)
    ensures IsProUser(Some(profile)) <==> profile.subscription == Some("pro")
    ensures profile.subscription == Some("admin") ==> FounderFitQuiz !in Panels(IsProUser(Some(profile)))
    ensures !IsProUser(None)
  {
    assert "admin"[0] != "pro"[0];
  }

  /** What `handleSaveIdea` did. */
  datatype SaveOutcome = NotLoggedIn | NoIdea | Saved | SaveFailed

  /** The page's state. `skillsWrites` and `savedIdeas` are the updates of
      `profiles.skills_description` and the inserts into `ideas` the page
      has issued, oldest first. */
  class Page {
    var isLoading: bool
    var isSaving: bool
    var ideaGenerated: bool
    var currentIdea: Option<IdeaCore>
    var analysisData: Option<Analysis>
    var trendData: Option<Trends>
    var goToMarketData: Option<GoToMarket>
    var fitScore: Option<int>
    var isAnalyzingFit: bool
    var user: Option<UserId>
    var profile: Option<Profile>
    var showBuilders: bool
    var skillsWrites: seq<(UserId, string)>
    var savedIdeas: seq<OwnedIdea>

    /** A fit score on display is always between 0 and 99. */
    ghost predicate Valid()
      reads this
    {
      fitScore.Some? ==> 0 <= fitScore.value <= 99
    }

    constructor (user: Option<UserId>, profile: Option<Profile>)
      ensures Valid()
      ensures isLoading && !isSaving && !ideaGenerated && !isAnalyzingFit && !showBuilders
      ensures currentIdea.None? && analysisData.None? && trendData.None? && goToMarketData.None?
      ensures fitScore.None? && this.user == user && this.profile == profile
      ensures skillsWrites == [] && savedIdeas == []
    {
      isLoading := true;
      isSaving := false;
      ideaGenerated := false;
      currentIdea := None;
      analysisData := None;
      trendData := None;
      goToMarketData := None;
      fitScore := None;
      isAnalyzingFit := false;
      this.user := user;
      this.profile := profile;
      showBuilders := false;
      skillsWrites := [];
      savedIdeas := [];
    }

    /** `fetchIdeaOfTheDay` up to the generator call. */
    method BeginFetch()
      requires Valid()
      modifies this`isLoading, this`fitScore, this`showBuilders
      ensures Valid()
      ensures isLoading && fitScore.None? && !showBuilders
    {
      isLoading := true;
      fitScore := None;
      showBuilders := false;
    }

    /** `fetchIdeaOfTheDay` once the generator answered: a new idea replaces
        the shown one and flips `ideaGenerated` (which resets the quiz); a
        failure keeps everything. Loading ends either way. */
    method FinishFetch(generated: Option<IdeaData>)
      requires Valid()
      modifies this`isLoading, this`currentIdea, this`analysisData, this`trendData,
               this`goToMarketData, this`ideaGenerated
      ensures Valid()
      ensures !isLoading
      ensures generated.None? ==>
                currentIdea == old(currentIdea) && analysisData == old(analysisData)
                && trendData == old(trendData) && goToMarketData == old(goToMarketData)
                && ideaGenerated == old(ideaGenerated)
      ensures generated.Some? ==>
                currentIdea == Some(generated.value.idea) && analysisData == generated.value.analysis
                && trendData == generated.value.trends && goToMarketData == generated.value.goToMarket
                && ideaGenerated == !old(ideaGenerated)
    {
      if generated.Some? {
        var data := generated.value;
        currentIdea := Some(data.idea);
        analysisData := data.analysis;
        trendData := data.trends;
        goToMarketData := data.goToMarket;
        ideaGenerated := !ideaGenerated;
      }
      isLoading := false;
    }

    /** `handleAnalyzeFit` up to the timer: the analysis starts, the old
        score goes, and a description that differs from the stored one is
        written to the signed-in user's profile. */
    method BeginAnalyzeFit(description: string)
      requires Valid()
      modifies this`isAnalyzingFit, this`fitScore, this`skillsWrites
      ensures Valid()
      ensures isAnalyzingFit && fitScore.None?
      ensures user.Some? && (profile.None? || profile.value.skills != Some(description)) ==>
                skillsWrites == old(skillsWrites) + [(user.value, description)]
      ensures user.None? || (profile.Some? && profile.value.skills == Some(description)) ==>
                skillsWrites == old(skillsWrites)
    {
      isAnalyzingFit := true;
      fitScore := None;
      if user.Some? && (profile.None? || profile.value.skills != Some(description)) {
        skillsWrites := skillsWrites + [(user.value, description)];
      }
    }

    /** The timer of `handleAnalyzeFit` firing, with the random draw. */
    method FinishAnalyzeFit(description: string, draw: int)
      requires Valid() && 0 <= draw < 30
      modifies this`fitScore, this`isAnalyzingFit
      ensures Valid()
      ensures fitScore == Some(FitScore(|description|, draw)) && !isAnalyzingFit
    {
      fitScore := Some(FitScore(|description|, draw));
      isAnalyzingFit := false;
    }

    /** `handleSaveIdea`; `insertFails` is the database rejecting the insert. */
    method SaveIdea(insertFails: bool) returns (outcome: SaveOutcome)
      requires Valid()
      modifies this`isSaving, this`savedIdeas
      ensures Valid()
      ensures user.Some? && currentIdea.Some? ==> !isSaving
      ensures user.None? || currentIdea.None? ==> isSaving == old(isSaving)
      ensures user.None? ==> outcome == NotLoggedIn && savedIdeas == old(savedIdeas)
      ensures user.Some? && currentIdea.None? ==> outcome == NoIdea && savedIdeas == old(savedIdeas)
      ensures user.Some? && currentIdea.Some? && insertFails ==>
                outcome == SaveFailed && savedIdeas == old(savedIdeas)
      ensures user.Some? && currentIdea.Some? && !insertFails ==>
                outcome == Saved
                && savedIdeas == old(savedIdeas) + [OwnedIdea(
                     user.value, currentIdea.value.title, currentIdea.value.problem,
                     currentIdea.value.solution, currentIdea.value.market, analysisData,
                     trendData, goToMarketData, None, None, None, fitScore)]
    {
      if user.None? {
        return NotLoggedIn;
      }
      if currentIdea.None? {
        return NoIdea;
      }
      isSaving := true;
      if insertFails {
        outcome := SaveFailed;
      } else {
        var idea := currentIdea.value;
        savedIdeas := savedIdeas + [OwnedIdea(
          user.value, idea.title, idea.problem, idea.solution, idea.market,
          analysisData, trendData, goToMarketData, None, None, None, fitScore)];
        outcome := Saved;
      }
      isSaving := false;
    }

    /** `handleCopyAndOpenBuilders`: the builders open whether or not the
        clipboard accepted the prompt. */
    method CopyAndOpenBuilders()
      requires Valid()
      modifies this`showBuilders
      ensures Valid() && showBuilders
    {
      showBuilders := true;
    }
  }
}
