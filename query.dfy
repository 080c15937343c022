/**
 * The main page's query engine: the filter chain of `fetchSlang`, the attach-or-strip rule for
 * "in the wild" mentions, the AI fallback of `loadSlang` with the entry `generateAIDefinition`
 * builds, and the category toggle.
 */
module Query {
  import opened Results
  import opened Text
  import opened Collections
  import opened SlangTypes
  import Twitter
  import DefineSlangFlow

  /** The region step: the selected region, `Global` and `Unknown` entries pass. */
  predicate RegionMatches(e: SlangEntry, region: Region) {
    e.region == region || e.region == Global || e.region == Unknown
  }

  /** The text step: the term occurs in the headword or the definition, ignoring case. */
  predicate TermMatches(e: SlangEntry, term: string) {
    IncludesIgnoreCase(e.term, term) || IncludesIgnoreCase(e.definition, term)
  }

  /** The category step: the entry shares at least one category with the selection. */
  predicate SharesCategory(e: SlangEntry, categories: seq<Category>) {
    exists c :: c in e.categories && c in categories
  }

  /** The filter chain of `fetchSlang`: region first, then the term (only when it is non-empty,
      and untrimmed), then the categories (only when some are selected). */
  function Matches(store: seq<SlangEntry>, term: string, categories: seq<Category>, region: Region): (r: seq<SlangEntry>)
    ensures forall e :: e in r <==>
      && e in store
      && RegionMatches(e, region)
      && (term != "" ==> TermMatches(e, term))
      && (|categories| > 0 ==> SharesCategory(e, categories))
    ensures IsSubsequence(r, store)
  {
    var byRegion := Filter(store, e => RegionMatches(e, region));
    var byTerm := if term != "" then Filter(byRegion, e => TermMatches(e, term)) else byRegion;
    var byCategory := if |categories| > 0 then Filter(byTerm, e => SharesCategory(e, categories)) else byTerm;
    SubsequenceReflexive(byRegion);
    SubsequenceReflexive(byTerm);
    SubsequenceTransitive(byTerm, byRegion, store);
    SubsequenceTransitive(byCategory, byTerm, store);
    byCategory
  }

  /** What the three mention services answer for the headword being looked up: a list, or a
      rejection (`Err` or `None`). */
  datatype WildSources = WildSources(
    tweets: Result<seq<Twitter.Tweet>>,
    tiktoks: Option<seq<TikTokVideo>>,
    redditPosts: Option<seq<RedditPost>>)

  /** Some service rejected. */
  predicate AnyRejects(src: WildSources) {
    src.tweets.Err? || src.tiktoks.None? || src.redditPosts.None?
  }

  /** The joined lookup: all three services are awaited together, and if any one rejects, the
      error handler substitutes empty lists for all three. */
  function CombinedFetch(src: WildSources): (w: InTheWild)
    ensures AnyRejects(src) ==> w == InTheWild([], [], [])
    ensures !AnyRejects(src) ==>
      && w.tweets == src.tweets.value
      && w.tiktoks == src.tiktoks.value
      && w.redditPosts == src.redditPosts.value
  {
    if AnyRejects(src) then InTheWild([], [], [])
    else InTheWild(src.tweets.value, src.tiktoks.value, src.redditPosts.value)
  }

  /** An entry without its "in the wild" data. */
  function Strip(e: SlangEntry): (r: SlangEntry)
    ensures r.inTheWild.None?
  {
    e.(inTheWild := None)
  }

  /** The second half of `fetchSlang`: a single result of a non-empty term gets fresh mentions for
      its headword; in every other non-empty result list all mentions are removed. */
  function WithWild(results: seq<SlangEntry>, term: string, src: WildSources): (r: seq<SlangEntry>)
    ensures |r| == |results|
    ensures forall i :: 0 <= i < |r| ==> Strip(r[i]) == Strip(results[i])
    ensures forall i :: 0 <= i < |r| ==> (r[i].inTheWild.Some? <==> |results| == 1 && term != "")
    ensures |results| == 1 && term != "" ==> r[0].inTheWild == Some(CombinedFetch(src))
  {
    if |results| == 1 && term != "" then
      [results[0].(inTheWild := Some(CombinedFetch(src)))]
    else if |results| > 0 then
      seq(|results|, i requires 0 <= i < |results| => Strip(results[i]))
    else
      results
  }

  /** When the Twitter service answers as `getTweets` does for the single result's headword, the
      attached mentions hold at most two posts, each quoting the headword (ignoring case), and a
      Twitter failure empties all three lists. */
  lemma AttachedTweetsQuoteHeadword(results: seq<SlangEntry>, term: string, src: WildSources, fails: bool)
    requires |results| == 1 && term != ""
    requires src.tweets == Twitter.GetTweets(results[0].term, fails)
    ensures var w := WithWild(results, term, src)[0].inTheWild.value;
      && |w.tweets| <= Twitter.MaxTweets
      && (forall t :: t in w.tweets ==> IncludesIgnoreCase(t.text, results[0].term))
      && (fails ==> w == InTheWild([], [], []))
  {
  }

  /** The fallback condition of `loadSlang`: nothing found, a term that is not blank once trimmed,
      no category selected and the `Global` region. */
  predicate FallbackEligible(results: seq<SlangEntry>, term: string, categories: seq<Category>, region: Region) {
    |results| == 0 && Trim(term) != "" && |categories| == 0 && region == Global
  }

  /** The identifier of an AI entry: `ai-`, the lower-cased term with every run of white space
      replaced by `-`, another `-`, and the clock in milliseconds. */
  function AIEntryId(term: string, now: Clock): string {
    "ai-" + Slug(Lower(term)) + "-" + Decimal(now.epochMillis)
  }

  /** The entry `generateAIDefinition` builds from the flow's output. */
  function AIEntry(term: string, output: DefineSlangFlow.DefineSlangOutput, now: Clock): SlangEntry {
    SlangEntry(
      id := AIEntryId(term, now),
      term := term,
      definition := output.definition,
      example := output.example,
      tone := output.tone,
      categories := output.categories,
      freshness := output.freshness,
      origin := None,
      createdAt := now.date,
      upvotes := 0,
      downvotes := 0,
      submittedBy := Some("Zictionary AI"),
      approved := true,
      thenVsNow := None,
      pronunciationUrl := None,
      region := Unknown,
      isAIGenerated := true,
      communityDefinitions := Some([]),
      inTheWild := None)
  }

  /** `generateAIDefinition`: the flow's answer as an entry, or nothing when the flow throws. */
  function GenerateAIDefinition(term: string, promptOutput: Option<DefineSlangFlow.DefineSlangOutput>, now: Clock): (r: Option<SlangEntry>)
    ensures r.Some? <==> promptOutput.Some?
    ensures r.Some? ==>
      && r.value.term == term
      && r.value.isAIGenerated
      && r.value.region == Unknown
      && r.value.upvotes == 0 && r.value.downvotes == 0
      && r.value.communityDefinitions == Some([])
      && r.value.inTheWild.None?
      && |r.value.categories| <= DefineSlangFlow.MaxCategories
      && r.value.categories <= promptOutput.value.categories
      && r.value.definition == promptOutput.value.definition
      && r.value.example == promptOutput.value.example
      && r.value.tone == promptOutput.value.tone
      && r.value.freshness == promptOutput.value.freshness
    ensures r.Some? ==>
      && r.value.id == AIEntryId(term, now)
      && r.value.createdAt == now.date
      && r.value.submittedBy == Some("Zictionary AI")
      && r.value.approved
      && r.value.origin.None? && r.value.thenVsNow.None? && r.value.pronunciationUrl.None?
  {
    match DefineSlangFlow.DefineSlang(term, promptOutput)
    case Err(_) => None
    case Ok(output) => Some(AIEntry(term, output, now))
  }

  /** The term `loadSlang` asks the definition flow about: the trimmed term when the fallback
      applies, and nothing otherwise. */
  function FlowRequest(store: seq<SlangEntry>, term: string, categories: seq<Category>, region: Region,
                       src: WildSources): Option<string>
  {
    if FallbackEligible(Matches(store, term, categories, region), term, categories, region) then Some(Trim(term))
    else None
  }

  /** The flow is asked exactly when nothing matches, the trimmed term is not blank, no category is
      selected and the region is `Global`, and then about the trimmed term, which is never empty.
      In any other region, `UK` for one, it is never asked. */
  lemma FlowRequestWhenEligible(store: seq<SlangEntry>, term: string, categories: seq<Category>, region: Region,
                                src: WildSources)
    ensures FlowRequest(store, term, categories, region, src).Some? <==>
      Matches(store, term, categories, region) == [] && Trim(term) != "" && categories == [] && region == Global
    ensures FlowRequest(store, term, categories, region, src).Some? ==>
      FlowRequest(store, term, categories, region, src).value == Trim(term) != ""
  {
  }

  /** The flow's answer matters only when the flow is asked: otherwise the settled results are the
      fetched ones, whatever the flow would have answered. When it is asked, it is asked about the
      term the fallback entry carries. */
  lemma FlowAnswerUsedOnlyWhenAsked(store: seq<SlangEntry>, term: string, categories: seq<Category>, region: Region,
                                    src: WildSources, promptOutput: Option<DefineSlangFlow.DefineSlangOutput>, now: Clock)
    ensures FlowRequest(store, term, categories, region, src).None? ==>
      LoadResults(store, term, categories, region, src, promptOutput, now) ==
        WithWild(Matches(store, term, categories, region), term, src)
    ensures FlowRequest(store, term, categories, region, src).Some? && promptOutput.Some? ==>
      LoadResults(store, term, categories, region, src, promptOutput, now)[0].term ==
        FlowRequest(store, term, categories, region, src).value
  {
  }

  /** The results `loadSlang` settles on: the fetched list, replaced by the AI entry when the fallback
      applies and the flow succeeds. The flow is asked about the trimmed term. */
  function LoadResults(store: seq<SlangEntry>, term: string, categories: seq<Category>, region: Region,
                       src: WildSources, promptOutput: Option<DefineSlangFlow.DefineSlangOutput>, now: Clock): seq<SlangEntry>
  {
    var fetched := WithWild(Matches(store, term, categories, region), term, src);
    if FallbackEligible(fetched, term, categories, region) then
      match GenerateAIDefinition(Trim(term), promptOutput, now)
      case Some(e) => [e]
      case None => []
    else fetched
  }

  /** The identifier of an AI entry starts with `ai-` and contains no white space. */
  lemma AIEntryIdHasNoSpace(term: string, now: Clock)
    ensures StartsWith(AIEntryId(term, now), "ai-")
    ensures NoSpace(AIEntryId(term, now))
  {
    var slug := Slug(Lower(term));
    var digits := Decimal(now.epochMillis);
    assert NoSpace("ai-") && NoSpace("-");
    DigitsHaveNoSpace(digits);
    NoSpaceConcat("ai-", slug);
    NoSpaceConcat("ai-" + slug, "-");
    NoSpaceConcat("ai-" + slug + "-", digits);
    assert ("ai-" + slug + "-" + digits)[..3] == "ai-";
  }

  /** The fallback never fires when it should not: whenever the settled results differ from the
      fetched ones, the fetch was empty, the trimmed term non-blank, no category was selected and
      the region was `Global`. */
  lemma FallbackOnlyWhenEligible(store: seq<SlangEntry>, term: string, categories: seq<Category>, region: Region,
                                 src: WildSources, promptOutput: Option<DefineSlangFlow.DefineSlangOutput>, now: Clock)
    requires LoadResults(store, term, categories, region, src, promptOutput, now) != WithWild(Matches(store, term, categories, region), term, src)
    ensures Matches(store, term, categories, region) == []
    ensures Trim(term) != "" && categories == [] && region == Global
  {
  }

  /** A successful fallback yields exactly one fresh AI entry: region `Unknown`, no votes, flagged
      as AI-generated, no community definitions, at most three categories. A failed one yields nothing. */
  lemma FallbackOutcome(store: seq<SlangEntry>, term: string, categories: seq<Category>, region: Region,
                        src: WildSources, promptOutput: Option<DefineSlangFlow.DefineSlangOutput>, now: Clock)
    requires Matches(store, term, categories, region) == []
    requires Trim(term) != "" && categories == [] && region == Global
    ensures var r := LoadResults(store, term, categories, region, src, promptOutput, now);
      && (promptOutput.None? ==> r == [])
      && (promptOutput.Some? ==>
            && |r| == 1
            && r[0].term == Trim(term)
            && r[0].id == AIEntryId(Trim(term), now)
            && r[0].region == Unknown
            && r[0].upvotes == 0 && r[0].downvotes == 0
            && r[0].isAIGenerated
            && r[0].communityDefinitions == Some([])
            && |r[0].categories| <= DefineSlangFlow.MaxCategories)
  {
  }

  /** Every entry shown after a load is either an entry of the store (up to its mentions) that passes
      every step of the filter chain, or the AI entry of a fallback. */
  lemma LoadedEntriesMatchQuery(store: seq<SlangEntry>, term: string, categories: seq<Category>, region: Region,
                                src: WildSources, promptOutput: Option<DefineSlangFlow.DefineSlangOutput>, now: Clock,
                                i: nat) returns (k: nat)
    requires i < |LoadResults(store, term, categories, region, src, promptOutput, now)|
    ensures var e := LoadResults(store, term, categories, region, src, promptOutput, now)[i];
      || (&& k < |store| && Strip(store[k]) == Strip(e)
          && RegionMatches(e, region)
          && (term != "" ==> TermMatches(e, term))
          && (|categories| > 0 ==> SharesCategory(e, categories)))
      || (e.isAIGenerated && FallbackEligible([], term, categories, region))
  {
    var matched := Matches(store, term, categories, region);
    var fetched := WithWild(matched, term, src);
    k := 0;
    if !FallbackEligible(fetched, term, categories, region) {
      assert Strip(fetched[i]) == Strip(matched[i]);
      assert matched[i] in matched;
      k :| k < |store| && store[k] == matched[i];
    }
  }

  /** Trimming "Rizz " drops its trailing space. */
  lemma TrimTrailingSpace()
    ensures Trim("Rizz ") == "Rizz"
  {
    var s := "Rizz ";
    assert LeadingSpaces(s) == 0 by {
      assert !IsSpace(s[0]);
    }
    assert TrailingSpaces(s) == 1 by {
      assert IsSpace(s[4]) && s[..4] == "Rizz";
      assert !IsSpace("Rizz"[3]);
    }
    assert TrimStart(s) == s;
    assert TrimEnd(s) == "Rizz";
  }

  /** The filter chain searches for the untrimmed term while the fallback test trims it: a search for
      "Rizz " with a trailing space misses an entry whose headword is "Rizz" and, when the flow answers,
      shows an AI entry for "Rizz" instead. */
  lemma UntrimmedTermFallsBack(e: SlangEntry, src: WildSources, output: DefineSlangFlow.DefineSlangOutput, now: Clock)
    requires e.term == "Rizz" && e.definition == "wit" && e.region == Global
    ensures Matches([e], "Rizz ", [], Global) == []
    ensures var r := LoadResults([e], "Rizz ", [], Global, src, Some(output), now);
      |r| == 1 && r[0].isAIGenerated && r[0].term == e.term
  {
    assert !TermMatches(e, "Rizz ") by {
      assert |Lower("Rizz ")| == 5 && |Lower(e.term)| == 4 && |Lower(e.definition)| == 3;
    }
    var matched := Matches([e], "Rizz ", [], Global);
    assert e !in matched;
    TrimTrailingSpace();
  }

  /** The category toggle: a selected category is removed, an unselected one is appended. */
  function ToggleCategory(selected: seq<Category>, category: Category): (r: seq<Category>)
    ensures category in r <==> category !in selected
    ensures forall c :: c != category ==> (c in r <==> c in selected)
  {
    if category in selected then Filter(selected, c => c != category) else selected + [category]
  }

  /** Toggling never creates a duplicate selection. */
  lemma ToggleKeepsNoDuplicates(selected: seq<Category>, category: Category)
    requires NoDuplicates(selected)
    ensures NoDuplicates(ToggleCategory(selected, category))
  {
    if category in selected {
      FilterNoDuplicates(selected, c => c != category);
    } else {
      var r := selected + [category];
      forall i, j | 0 <= i < j < |r| ensures r[i] != r[j] {
        if j == |selected| {
          assert r[i] == selected[i];
        } else {
          assert r[i] == selected[i] && r[j] == selected[j];
        }
      }
    }
  }

  /** Toggling an unselected category twice restores the original selection exactly. */
  lemma ToggleTwiceRestores(selected: seq<Category>, category: Category)
    requires category !in selected
    ensures ToggleCategory(ToggleCategory(selected, category), category) == selected
  {
    var once := selected + [category];
    FilterAppend(selected, category, c => c != category);
    FilterAll(selected, c => c != category);
  }

  /** Toggling a selected category twice keeps the same categories but moves it to the end: the
      order is restored only when it was already last. */
  lemma ToggleTwiceMovesToEnd(selected: seq<Category>, category: Category)
    requires category in selected
    ensures ToggleCategory(ToggleCategory(selected, category), category) == Filter(selected, c => c != category) + [category]
    ensures forall c :: c in ToggleCategory(ToggleCategory(selected, category), category) <==> c in selected
  {
  }

  /** A concrete case where the double toggle does not restore the order. */
  lemma ToggleTwiceReorders()
    ensures ToggleCategory(ToggleCategory([Social, Food], Social), Social) == [Food, Social]
  {
    assert Filter([Social, Food], c => c != Social) == [Food] by {
      assert [Social, Food][1..] == [Food];
      assert [Food][1..] == [];
    }
  }
}
