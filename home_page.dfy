/**
 * The main page: its filter state, the in-memory store of entries, the displayed results, and the
 * handlers that change them. Every change to the search term, the category selection, the region
 * or the store re-runs the page's load effect, which is `LoadSlang` here; what the collaborators
 * answer during that load (mention sources, the definition flow, the clock) is a parameter.
 */
module HomePage {
  import opened Results
  import opened Collections
  import opened Text
  import opened SlangTypes
  import opened Query
  import opened Votes
  import DefineSlangFlow

  /** What the collaborators answer during one load. */
  datatype LoadEnv = LoadEnv(
    src: WildSources,
    promptOutput: Option<DefineSlangFlow.DefineSlangOutput>,
    now: Clock)

  /** The community definitions of "Rizz" in the seed store. */
  const RizzDefinitions: seq<DefinitionDetail> := [
    DefinitionDetail(
      id := "def1-1",
      definition := "Like, when someone's smooth with words and actions, especially when flirting.",
      example := "Dude walked up to her and just started rizzing, it was wild.",
      tone := Playful, tags := Some([Accurate]), upvotes := 120, downvotes := 5,
      submittedBy := Some("User123"), createdAt := CalendarDate(2023, 6, 10)),
    DefinitionDetail(
      id := "def1-2",
      definition := "It's the aura someone gives off that makes people attracted to them, doesn't even have to be romantic.",
      example := "The way she commands the room? Pure rizz.",
      tone := Sincere, tags := Some([Accurate, Funny]), upvotes := 85, downvotes := 2,
      submittedBy := Some("AnotherUser"), createdAt := CalendarDate(2023, 6, 15))
  ]

  /** The entries of the seed store: approved, without pronunciation, mentions or AI flag. */
  const SeedRizz: SlangEntry := SlangEntry(
    id := "1", term := "Rizz",
    definition := "Short for charisma; the ability to charm or flirt successfully.",
    example := "He's got unspoken rizz.",
    tone := Playful, categories := [Social], freshness := Fresh,
    origin := Some("Popularized by streamer Kai Cenat"),
    createdAt := CalendarDate(2023, 5, 1), upvotes := 1502, downvotes := 55,
    submittedBy := Some("ZMaster"), approved := true,
    thenVsNow := Some(ThenVsNow("Not applicable (new term)",
      "Skill in charming potential romantic partners.")),
    pronunciationUrl := None, region := Global, isAIGenerated := false,
    communityDefinitions := Some(RizzDefinitions), inTheWild := None)

  const SeedBussin: SlangEntry := SlangEntry(
    id := "2", term := "Bussin'",
    definition := "Used to describe something that is really good, especially food.",
    example := "This pizza is bussin' bussin'.",
    tone := Sincere, categories := [Food, Social], freshness := Established,
    origin := Some("African American Vernacular English (AAVE), popularized on TikTok"),
    createdAt := CalendarDate(2022, 1, 10), upvotes := 987, downvotes := 102,
    submittedBy := None, approved := true,
    thenVsNow := None,
    pronunciationUrl := None, region := USEast, isAIGenerated := false,
    communityDefinitions := None, inTheWild := None)

  const SeedMid: SlangEntry := SlangEntry(
    id := "3", term := "Mid",
    definition := "Used to describe something as mediocre or average, often unimpressive.",
    example := "The movie was kinda mid, tbh.",
    tone := Neutral, categories := [Social, Internet], freshness := Established,
    origin := None,
    createdAt := CalendarDate(2022, 8, 20), upvotes := 765, downvotes := 88,
    submittedBy := None, approved := true,
    thenVsNow := None,
    pronunciationUrl := None, region := Global, isAIGenerated := false,
    communityDefinitions := None, inTheWild := None)

  const SeedBet: SlangEntry := SlangEntry(
    id := "4", term := "Bet",
    definition := "An affirmation, agreement, or response meaning \"Okay,\" \"Alright,\" or \"For sure.\"",
    example := "Wanna grab food later? \"Bet.\"",
    tone := Neutral, categories := [Social], freshness := Established,
    origin := None,
    createdAt := CalendarDate(2021, 3, 5), upvotes := 1100, downvotes := 30,
    submittedBy := None, approved := true,
    thenVsNow := Some(ThenVsNow("A wager or agreement based on an uncertain outcome.",
      "A simple affirmation or agreement.")),
    pronunciationUrl := None, region := Global, isAIGenerated := false,
    communityDefinitions := None, inTheWild := None)

  const SeedSlay: SlangEntry := SlangEntry(
    id := "5", term := "Slay",
    definition := "To do something exceptionally well; to impress or succeed.",
    example := "She slayed that presentation!",
    tone := Sincere, categories := [Social, Fashion, Emotions], freshness := Established,
    origin := Some("Ballroom culture, popularized through RuPaul's Drag Race and general internet usage."),
    createdAt := CalendarDate(2020, 10, 15), upvotes := 1350, downvotes := 45,
    submittedBy := None, approved := true,
    thenVsNow := None,
    pronunciationUrl := None, region := Global, isAIGenerated := false,
    communityDefinitions := None, inTheWild := None)

  const SeedNpc: SlangEntry := SlangEntry(
    id := "6", term := "NPC",
    definition := "Non-Player Character; Used to describe someone who seems to lack independent thought or acts predictably, like a background character in a video game.",
    example := "He just stands there nodding, total NPC vibes.",
    tone := Sarcastic, categories := [Gaming, Internet, Social], freshness := Fresh,
    origin := Some("Video game terminology, adopted as internet slang."),
    createdAt := CalendarDate(2023, 8, 1), upvotes := 600, downvotes := 150,
    submittedBy := None, approved := true,
    thenVsNow := None,
    pronunciationUrl := None, region := Global, isAIGenerated := false,
    communityDefinitions := None, inTheWild := None)

  const SeedSkibidi: SlangEntry := SlangEntry(
    id := "7", term := "Skibidi",
    definition := "Originating from a viral YouTube series featuring bizarre singing toilet characters. Often used nonsensically or to refer to the trend itself.",
    example := "What is this skibidi toilet thing everyone is talking about?",
    tone := Playful, categories := [Internet], freshness := Fresh,
    origin := Some("YouTube series \"Skibidi Toilet\" by DaFuq!?Boom!"),
    createdAt := CalendarDate(2023, 9, 1), upvotes := 450, downvotes := 200,
    submittedBy := None, approved := true,
    thenVsNow := None,
    pronunciationUrl := None, region := Global, isAIGenerated := false,
    communityDefinitions := None, inTheWild := None)

  const SeedAte: SlangEntry := SlangEntry(
    id := "10", term := "Ate",
    definition := "Similar to \"slay,\" meaning someone did something extremely well or looked amazing.",
    example := "She absolutely ate that performance.",
    tone := Sincere, categories := [Social, Fashion], freshness := Fresh,
    origin := Some("AAVE, popularized online."),
    createdAt := CalendarDate(2023, 11, 1), upvotes := 950, downvotes := 35,
    submittedBy := None, approved := true,
    thenVsNow := None,
    pronunciationUrl := None, region := Global, isAIGenerated := false,
    communityDefinitions := None, inTheWild := None)

  /** The store the page starts with. */
  const InitialSlangData: seq<SlangEntry> :=
    [SeedRizz, SeedBussin, SeedMid, SeedBet, SeedSlay, SeedNpc, SeedSkibidi, SeedAte]

  /** The seed store has eight entries with distinct identifiers, none of them AI-generated, and only
      "Rizz" carries community definitions. */
  lemma SeedStoreShape()
    ensures |InitialSlangData| == 8
    ensures forall i, j :: 0 <= i < j < |InitialSlangData| ==> InitialSlangData[i].id != InitialSlangData[j].id
    ensures forall i :: 0 <= i < |InitialSlangData| ==> !InitialSlangData[i].isAIGenerated
    ensures forall i :: 0 <= i < |InitialSlangData| ==>
      (InitialSlangData[i].communityDefinitions.Some? <==> i == 0)
  {
  }

  /** Upvoting "Mid" in the seed store moves its counts from 765/88 to 766/88 and is applied. */
  lemma UpvoteMidInSeedStore()
    ensures var r := VotedStore(InitialSlangData, "3", Upvote, TermTarget, None);
      r[2].upvotes == 766 && r[2].downvotes == 88 && r[2].term == "Mid"
    ensures VoteApplied(InitialSlangData, "3", Upvote, TermTarget, None)
  {
    TermVoteCountsOnce(InitialSlangData, 2, Upvote);
  }

  /** A downvote on the second community definition of "Rizz" finds "Rizz" as its parent and moves
      that definition's counts from 85/2 to 85/3. */
  lemma DownvoteRizzDefinitionInSeedStore()
    ensures ParentIndex(InitialSlangData, "def1-2") == Some(0)
    ensures var r := VotedStore(InitialSlangData, "1", Downvote, DefinitionTarget, Some("def1-2"));
      && r[0].communityDefinitions.Some? && |r[0].communityDefinitions.value| == 2
      && r[0].communityDefinitions.value[1].upvotes == 85
      && r[0].communityDefinitions.value[1].downvotes == 3
      && r[0].communityDefinitions.value[0] == InitialSlangData[0].communityDefinitions.value[0]
  {
    var defs := RizzDefinitions;
    assert defs[1].id == "def1-2";
    assert defs[0].id != "def1-2";
    DefinitionVoteCountsMatch(InitialSlangData, 0, Downvote, "def1-2", 1);
    DefinitionVoteCountsMatch(InitialSlangData, 0, Downvote, "def1-2", 0);
  }

  /** The page component. */
  class Home {
    var searchTerm: string
    var selectedCategories: seq<Category>
    var selectedRegion: Region
    var slangResults: seq<SlangEntry>
    var allSlangData: seq<SlangEntry>
    var isLoading: bool
    var isGeneratingAI: bool
    var error: Option<string>

    /** The category selection never holds a category twice. */
    predicate Valid()
      reads this
    {
      NoDuplicates(selectedCategories)
    }

    /** The initial state: the `search` and `region` URL parameters, when present and non-empty,
        seed the term and the region; the store is the seed store. */
    constructor(searchParam: Option<string>, regionParam: Option<Region>)
      ensures searchTerm == (if Truthy(searchParam) then searchParam.value else "")
      ensures selectedRegion == (if regionParam.Some? then regionParam.value else Global)
      ensures selectedCategories == [] && slangResults == [] && allSlangData == InitialSlangData
      ensures !isLoading && !isGeneratingAI && error == None
      ensures Valid()
    {
      searchTerm := if Truthy(searchParam) then searchParam.value else "";
      selectedRegion := if regionParam.Some? then regionParam.value else Global;
      selectedCategories := [];
      slangResults := [];
      allSlangData := InitialSlangData;
      isLoading := false;
      isGeneratingAI := false;
      error := None;
    }

    /** `fetchSlang`: narrows the store step by step, then attaches or strips mentions. */
    method FetchSlang(term: string, categories: seq<Category>, region: Region, src: WildSources)
      returns (results: seq<SlangEntry>)
      ensures results == WithWild(Matches(allSlangData, term, categories, region), term, src)
    {
      results := Filter(allSlangData, e => RegionMatches(e, region));
      if term != "" {
        results := Filter(results, e => TermMatches(e, term));
      }
      if |categories| > 0 {
        results := Filter(results, e => SharesCategory(e, categories));
      }
      if |results| == 1 && term != "" {
        results := results[0 := results[0].(inTheWild := Some(CombinedFetch(src)))];
      } else if |results| > 0 {
        results := seq(|results|, i requires 0 <= i < |results| => Strip(results[i]));
      }
    }

    /** The `try` block of `loadSlang`: fetches, and when the fetch is empty for a non-blank term with
        no categories in the `Global` region, raises the AI flag around a call of the definition
        flow with the trimmed term, whose entry, if any, replaces the empty results. `asked` is the
        term the flow was called with, if it was called. */
    method FetchOrGenerate(term: string, categories: seq<Category>, region: Region, env: LoadEnv)
      returns (results: seq<SlangEntry>, asked: Option<string>)
      modifies this`isGeneratingAI
      ensures results == LoadResults(allSlangData, term, categories, region, env.src, env.promptOutput, env.now)
      ensures asked == FlowRequest(allSlangData, term, categories, region, env.src)
      ensures isGeneratingAI ==> old(isGeneratingAI)
    {
      results := FetchSlang(term, categories, region, env.src);
      asked := None;
      if FallbackEligible(results, term, categories, region) {
        isGeneratingAI := true;
        asked := Some(Trim(term));
        var aiResult := GenerateAIDefinition(asked.value, env.promptOutput, env.now);
        isGeneratingAI := false;
        if aiResult.Some? {
          results := [aiResult.value];
        }
      }
    }

    /** `loadSlang`: raises the loading flag, clears the error and the results, runs the `try`
        block, and lowers both flags. */
    method LoadSlang(term: string, categories: seq<Category>, region: Region, env: LoadEnv)
      returns (asked: Option<string>)
      modifies this`isLoading, this`isGeneratingAI, this`error, this`slangResults
      ensures slangResults == LoadResults(allSlangData, term, categories, region, env.src, env.promptOutput, env.now)
      ensures asked == FlowRequest(allSlangData, term, categories, region, env.src)
      ensures !isLoading && !isGeneratingAI && error == None
    {
      isLoading, isGeneratingAI, error, slangResults := true, false, None, [];
      var results;
      results, asked := FetchOrGenerate(term, categories, region, env);
      slangResults, isLoading, isGeneratingAI := results, false, false;
    }

    /** The load effect with the page's current filters, as on first render. */
    method Refresh(env: LoadEnv)
      modifies this
      ensures slangResults == LoadResults(allSlangData, searchTerm, selectedCategories, selectedRegion, env.src, env.promptOutput, env.now)
      ensures !isLoading && !isGeneratingAI && error == None
      ensures unchanged(this`allSlangData, this`searchTerm, this`selectedCategories, this`selectedRegion)
    {
      var _ := LoadSlang(searchTerm, selectedCategories, selectedRegion, env);
    }

    /** `handleVote`: the store becomes the voted store; replacing it re-runs the load effect with
        the current filters. The answer says whether a counter changed. */
    method HandleVote(id: string, vote: VoteType, target: VoteTarget, definitionId: Option<string>, env: LoadEnv)
      returns (applied: bool)
      modifies this
      ensures allSlangData == VotedStore(old(allSlangData), id, vote, target, definitionId)
      ensures applied == VoteApplied(old(allSlangData), id, vote, target, definitionId)
      ensures slangResults == LoadResults(allSlangData, searchTerm, selectedCategories, selectedRegion, env.src, env.promptOutput, env.now)
      ensures !isLoading && !isGeneratingAI && error == None
      ensures unchanged(this`searchTerm, this`selectedCategories, this`selectedRegion)
    {
      var newData, updated := ApplyVote(allSlangData, id, vote, target, definitionId);
      allSlangData := newData;
      var _ := LoadSlang(searchTerm, selectedCategories, selectedRegion, env);
      applied := updated;
    }

    /** `handleTermVote`: a vote on an entry itself. */
    method HandleTermVote(id: string, vote: VoteType, env: LoadEnv)
      modifies this
      ensures allSlangData == VotedStore(old(allSlangData), id, vote, TermTarget, None)
      ensures slangResults == LoadResults(allSlangData, searchTerm, selectedCategories, selectedRegion, env.src, env.promptOutput, env.now)
      ensures unchanged(this`searchTerm, this`selectedCategories, this`selectedRegion)
    {
      var _ := HandleVote(id, vote, TermTarget, None, env);
    }

    /** `handleDefinitionVote`: the vote goes to the first entry holding the definition; when no
        entry holds it, nothing happens. */
    method HandleDefinitionVote(definitionId: string, vote: VoteType, env: LoadEnv)
      modifies this
      ensures ParentIndex(old(allSlangData), definitionId).None? ==>
        unchanged(this)
      ensures ParentIndex(old(allSlangData), definitionId).Some? ==>
        && allSlangData == VotedStore(old(allSlangData), old(allSlangData)[ParentIndex(old(allSlangData), definitionId).value].id,
                                      vote, DefinitionTarget, Some(definitionId))
        && slangResults == LoadResults(allSlangData, searchTerm, selectedCategories, selectedRegion, env.src, env.promptOutput, env.now)
      ensures unchanged(this`searchTerm, this`selectedCategories, this`selectedRegion)
    {
      var parent := ParentIndex(allSlangData, definitionId);
      if parent.Some? {
        var _ := HandleVote(allSlangData[parent.value].id, vote, DefinitionTarget, Some(definitionId), env);
      }
    }

    /** `handleSearch`: a new term replaces the old one and re-runs the load; the same term again
        changes nothing. */
    method HandleSearch(newTerm: string, env: LoadEnv)
      modifies this
      ensures searchTerm == newTerm
      ensures newTerm != old(searchTerm) ==>
        slangResults == LoadResults(allSlangData, newTerm, selectedCategories, selectedRegion, env.src, env.promptOutput, env.now)
      ensures newTerm == old(searchTerm) ==> unchanged(this)
      ensures unchanged(this`allSlangData, this`selectedCategories, this`selectedRegion)
    {
      if newTerm != searchTerm {
        searchTerm := newTerm;
        var _ := LoadSlang(searchTerm, selectedCategories, selectedRegion, env);
      }
    }

    /** `handleCategoryChange`: the category is toggled in the selection and the load re-runs. */
    method HandleCategoryChange(category: Category, env: LoadEnv)
      requires Valid()
      modifies this
      ensures Valid()
      ensures selectedCategories == ToggleCategory(old(selectedCategories), category)
      ensures slangResults == LoadResults(allSlangData, searchTerm, selectedCategories, selectedRegion, env.src, env.promptOutput, env.now)
      ensures unchanged(this`allSlangData, this`searchTerm, this`selectedRegion)
    {
      ToggleKeepsNoDuplicates(selectedCategories, category);
      selectedCategories := ToggleCategory(selectedCategories, category);
      var _ := LoadSlang(searchTerm, selectedCategories, selectedRegion, env);
    }

    /** `handleRegionChange`: a new region replaces the old one and re-runs the load; the same region
        again changes nothing. */
    method HandleRegionChange(region: Region, env: LoadEnv)
      modifies this
      ensures selectedRegion == region
      ensures region != old(selectedRegion) ==>
        slangResults == LoadResults(allSlangData, searchTerm, selectedCategories, region, env.src, env.promptOutput, env.now)
      ensures region == old(selectedRegion) ==> unchanged(this)
      ensures unchanged(this`allSlangData, this`searchTerm, this`selectedCategories)
    {
      if region != selectedRegion {
        selectedRegion := region;
        var _ := LoadSlang(searchTerm, selectedCategories, selectedRegion, env);
      }
    }
  }
}
