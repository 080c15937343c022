# Zictionary in Dafny

Zictionary is a Next.js dictionary of Gen Z slang. The home page filters a store of entries by region, search term and categories. It attaches "in the wild" mentions from Twitter, TikTok and Reddit to a single hit. When nothing matches a plain `Global` search, it asks a language model to define the term.

Votes raise the counters of entries and of their community definitions. The archive page groups entries by creation year and sorts each year by headword. Several components add their own state:

- a search bar with voice input;
- a freshness meter;
- a list of community definitions;
- a one-shot "slang battle" vote;
- two dialogs that send text to a language model.

This project models that core in Dafny and proves what it promises.

Layout, one module per file:

- `results.dfy` (`Results`): `Option` and `Result`.
- `text.dfy` (`Text`): the JavaScript string operations the application calls: `trim`, `toLowerCase`, `includes`, `indexOf`, `replace` and the `\s+` slug.
- `collections.dfy` (`Collections`): `filter`, subsequences, grouping.
- `slang_types.dfy` (`SlangTypes`): the records of `src/types/slang.ts`.
- `twitter.dfy` (`Twitter`): the mock `getTweets`.
- `define_slang_flow.dfy` (`DefineSlangFlow`): the definition flow after the model has answered.
- `query.dfy` (`Query`): the filter chain of `fetchSlang`, the in-the-wild step, the AI fallback of `loadSlang`, and the category toggle.
- `votes.dfy` (`Votes`): `handleVote`'s update of the store.
- `home_page.dfy` (`HomePage`): the seed store and the page component as a class.
- `term_order.dfy` (`TermOrder`) and `archive.dfy` (`Archive`): the archive page.
- `community_definitions.dfy`, `freshness_meter.dfy`, `battle_card.dfy`, `search_bar.dfy`: the components.
- `prompt_modal.dfy`, `slang_generator_modal.dfy`, `boomer_translator_modal.dfy`: the AI dialogs.

Components whose handlers update state fields become classes. Examples are `HomePage.Home`, `SearchBar.Bar`, `BattleCard.Card` and the two `Modal` classes. Their methods state the new state through specification functions, and the lemmas prove the properties of those functions.

An `async` handler is split in two at its `await`: a `Begin…` method and a `Complete…` method, joined by a `Handle…` method. The outcome of the awaited call is a parameter.

Code that only computes is written as functions:

- the filter chain;
- the tag variants;
- the freshness table;
- the sorting comparators.

The model takes these collaborators as parameters:

- the language model's answers;
- the three mention services' answers (`WildSources`);
- the clock (`Clock`);
- the random failure of the Twitter mock.

## Model

| member | source | states |
|---|---|---|
| Text.LeadingSpaces | src/app/page.tsx:185 | The leading run is white space and ends at the first non-space or at the end. |
| Text.TrailingSpaces | src/app/page.tsx:185 | The trailing run is white space and starts after the last non-space or at the start. |
| Text.Trim | src/app/page.tsx:185 | `trim` returns a slice of the string with only white space before and after it. The result is empty exactly when the string is all white space, and otherwise starts and ends with a non-space. |
| Text.TrimInfix | src/app/page.tsx:185 | What trimming leaves starts after the leading white space and is followed only by white space. |
| Text.TrimBlank | src/app/page.tsx:185 | Stripping both ends leaves nothing exactly when every character is white space. |
| Text.Lower | src/app/page.tsx:91-92 | `toLowerCase` keeps the length and maps each character on its own. |
| Text.LowerChar | src/app/page.tsx:91-92 | An ASCII capital becomes a different, small letter, and every other character is kept. |
| Text.IndexOf | src/components/slang/SlangFreshnessMeter.tsx:27 | `indexOf` returns a position where the pattern occurs with no earlier occurrence, or nothing when it occurs nowhere. |
| Text.ReplaceFirst | src/components/slang/SlangFreshnessMeter.tsx:27 | `replace` with a string pattern leaves a string without the pattern unchanged. Otherwise the text before the first occurrence is kept, the occurrence becomes the replacement, and the text after it is kept. |
| Text.IncludesAt | src/app/page.tsx:91-92 | A pattern found at a position is reported by `includes`, and `indexOf` finds it there or earlier. |
| Text.IncludesIgnoreCaseOfIncludes | src/app/page.tsx:91-92 | A case-sensitive match is also a match after both sides are lower-cased. |
| Text.Slug | src/app/page.tsx:145 | `replace(/\s+/g, '-')` leaves no white space, never lengthens, and keeps a string that has no white space. |
| Text.TrimStartOfRun | src/app/page.tsx:145 | Dropping the leading white space of a blank run followed by a string that starts with a non-space leaves that string. |
| Text.SlugRun | src/app/page.tsx:145 | A white-space run after a space-free prefix becomes exactly one hyphen: the prefix is kept and the rest is slugged on its own. |
| Text.Decimal | src/app/page.tsx:145 | A timestamp prints as a non-empty string of digits with no leading zero. |
| Text.DecimalValue | src/app/page.tsx:145 | The printed digits read back as the number printed. |
| Collections.Filter | src/app/page.tsx:87-100 | `filter` keeps exactly the elements that pass, in their original order. |
| Collections.FilterNoDuplicates | src/app/page.tsx:336 | Filtering a duplicate-free list leaves it duplicate-free. |
| Collections.GroupsPartition | src/app/archive/page.tsx:36-42 | Grouping by a duplicate-free list of keys that covers every element keeps every element exactly once. |
| Twitter.GetTweets | src/services/twitter.ts:28-65 | The lookup fails exactly when the simulated failure happens, with the mock message. Otherwise it returns at most two posts, each mentioning the term (ignoring case), as a prefix of the filtered mock posts. |
| Twitter.GetTweetsReturnsFirstTwo | src/services/twitter.ts:40-64 | Every mock post quotes the term, so a successful lookup returns the first two mock posts. |
| Twitter.MockTweets | src/services/twitter.ts:40-56 | There are three mock posts. |
| DefineSlangFlow.SchemasAreExactEnumerations | src/ai/flows/define-slang-flow.ts:20-22 | The tone, category and freshness schemas list each value of their type exactly once (6, 7 and 5 values). |
| DefineSlangFlow.CapCategories | src/ai/flows/define-slang-flow.ts:77-79 | The category list is cut to its first three, in order, only when it is longer than three. |
| DefineSlangFlow.DefineSlang | src/ai/flows/define-slang-flow.ts:71-81 | A missing output is an error naming the term. Otherwise the output comes back unchanged except for its categories, which are a prefix of at most three, and unchanged when there were at most three. |
| DefineSlangFlow.DefineSlangFlow | src/ai/flows/define-slang-flow.ts:71-81 | The flow body, which cuts the category list in place, returns the same result as `DefineSlang`. |
| Query.Matches | src/app/page.tsx:87-100 | An entry is a result exactly when it is in the store, its region is the selected one, `Global` or `Unknown`, a non-empty term occurs in its headword or definition (ignoring case), and it shares a category with a non-empty selection. The results keep store order. |
| Query.CombinedFetch | src/app/page.tsx:105-117 | If any of the three services rejects, all three lists are empty. Otherwise each list is that service's answer. |
| Query.Strip | src/app/page.tsx:120-123 | A stripped entry has no mentions. |
| Query.WithWild | src/app/page.tsx:103-124 | Results keep their number and all fields but the mentions. An entry has mentions exactly when there is one result and the term is non-empty, and then they are the combined fetch. |
| Query.AttachedTweetsQuoteHeadword | src/app/page.tsx:103-113 | When the Twitter service answers as `getTweets` does for the single result's headword, the attached posts are at most two and each quotes the headword. A Twitter failure empties all three lists. |
| Query.GenerateAIDefinition | src/app/page.tsx:137-170 | The flow's answer becomes one approved AI entry with the searched term. Its id is `ai-`, the slug, a dash and the clock. It is dated now and submitted by "Zictionary AI". It has region `Unknown`, no votes, empty community definitions, no mentions, no origin, then-vs-now or pronunciation, and the flow's definition, example, tone, freshness and capped categories. A failed flow gives nothing. |
| Query.AIEntryIdHasNoSpace | src/app/page.tsx:145 | An AI entry's id starts with `ai-` and contains no white space. |
| Query.FlowRequestWhenEligible | src/app/page.tsx:185-188 | The flow is asked exactly when the fetch is empty, the trimmed term is non-blank, no category is selected and the region is `Global`, and then about the trimmed term. |
| Query.FlowAnswerUsedOnlyWhenAsked | src/app/page.tsx:185-198 | When the flow is not asked, the settled results are the fetched ones whatever the flow would answer. When it is asked and answers, the entry shown carries the term it was asked about. |
| Query.FallbackOnlyWhenEligible | src/app/page.tsx:185-198 | The settled results differ from the fetched ones only when the fetch was empty, the trimmed term non-blank, no category selected and the region `Global`. |
| Query.FallbackOutcome | src/app/page.tsx:185-198 | An eligible fallback yields exactly the one AI entry for the trimmed term, or nothing when the flow fails. |
| Query.LoadedEntriesMatchQuery | src/app/page.tsx:175-201 | Every entry shown after a load passes every filter step and equals a store entry up to its mentions, unless it is the AI entry of a fallback. |
| Query.TrimTrailingSpace | src/app/page.tsx:185-188 | Trimming "Rizz " gives "Rizz". |
| Query.UntrimmedTermFallsBack | src/app/page.tsx:89-94 | The filter searches for the untrimmed term, but the fallback trims it. So "Rizz " misses the entry "Rizz" and produces an AI entry for "Rizz". |
| Query.ToggleCategory | src/app/page.tsx:333-339 | Toggling selects a category exactly when it was not selected and leaves every other category as it was. |
| Query.ToggleKeepsNoDuplicates | src/app/page.tsx:333-339 | Toggling never creates a duplicate selection. |
| Query.ToggleTwiceRestores | src/app/page.tsx:333-339 | Toggling an unselected category twice restores the selection. |
| Query.ToggleTwiceMovesToEnd | src/app/page.tsx:333-339 | Toggling a selected category twice keeps the same categories but moves that one to the end. |
| Query.ToggleTwiceReorders | src/app/page.tsx:333-339 | Toggling `social` twice in `[social, food]` gives `[food, social]`. |
| Votes.CountEntryVote | src/app/page.tsx:232-238 | A term vote raises exactly one counter by one, the one the vote names, and changes no other field. |
| Votes.CountDefinitionVote | src/app/page.tsx:250-257 | A definition vote raises exactly one counter of the definition by one and changes no other field. |
| Votes.VoteDefinitions | src/app/page.tsx:250-260 | Only definitions with the identifier change. The list keeps its length, and it is unchanged when no definition matches. |
| Votes.VotedStore | src/app/page.tsx:218-266 | The store keeps its length after a vote. |
| Votes.ApplyVote | src/app/page.tsx:217-266 | The loop that maps the store while setting the `updated` flag yields the voted store. The flag is true exactly when some counter changed. |
| Votes.TermVoteCountsOnce | src/app/page.tsx:220-238 | A term vote on a non-AI entry raises exactly the named counter of that entry by one. It changes no other field and is applied. |
| Votes.OtherEntriesUnchanged | src/app/page.tsx:219-264 | A vote never changes an entry with another identifier. |
| Votes.AIEntriesRefuseVotes | src/app/page.tsx:222-229 | Votes on an AI-generated entry, of either kind, leave the store unchanged and are not applied. |
| Votes.DefinitionVoteWithoutTarget | src/app/page.tsx:239-264 | A definition vote leaves the store unchanged and is not applied in these cases: an empty or missing definition id, no community definitions, or no definition with the id. |
| Votes.DefinitionVoteCountsMatch | src/app/page.tsx:239-261 | On a non-AI entry, every definition with the identifier gets the named counter raised by one, and the others are kept. The vote is applied exactly when such a definition exists. |
| Votes.UnchangedIffNotApplied | src/app/page.tsx:217-278 | The store is left exactly as it was if and only if the vote is not applied. |
| Votes.ParentIndex | src/app/page.tsx:357 | `find` returns the first entry whose community definitions hold the identifier, or nothing when none does. |
| Votes.ParentVoteApplies | src/app/page.tsx:355-360 | A definition vote sent to its parent is applied when the id is non-empty and the parent is not AI-generated. |
| Votes.VotesNeverDecrease | src/app/page.tsx:218-266 | No vote lowers a counter. |
| Votes.RepeatedUpvotes | src/app/page.tsx:232-238 | After `n` upvotes on a non-AI entry, its upvotes are exactly `n` higher and its downvotes unchanged. |
| HomePage.SeedStoreShape | src/app/page.tsx:30-44 | The seed store has eight entries with distinct ids, none AI-generated, and only "Rizz" has community definitions. |
| HomePage.UpvoteMidInSeedStore | src/app/page.tsx:38 | Upvoting "Mid" in the seed store moves its counts from 765/88 to 766/88. |
| HomePage.DownvoteRizzDefinitionInSeedStore | src/app/page.tsx:31-35 | The definition `def1-2` has "Rizz" as its parent, and a downvote moves it from 85/2 to 85/3, leaving `def1-1` as it was. |
| HomePage.Home.constructor | src/app/page.tsx:63-69 | A non-empty `search` parameter seeds the term, and the `region` parameter seeds the region (default `Global`). The store is the seed store, and nothing is loading. |
| HomePage.Home.FetchSlang | src/app/page.tsx:83-127 | The step-by-step `fetchSlang` returns the filtered results with mentions attached or stripped. |
| HomePage.Home.FetchOrGenerate | src/app/page.tsx:181-199 | The `try` block yields the load results, reports the term the definition flow was called with (none when it was not called), and never leaves the AI flag raised when it was down before. |
| HomePage.Home.LoadSlang | src/app/page.tsx:175-210 | A load leaves the settled results, no error and both flags down, and reports the term the definition flow was called with. It writes only the two flags, the error and the results, so the filters and the store are unchanged. |
| HomePage.Home.Refresh | src/app/page.tsx:311-312 | The load effect runs a load with the page's current filters. |
| HomePage.Home.HandleVote | src/app/page.tsx:213-279 | The store becomes the voted store, and the answer says whether a counter changed. The results are reloaded with the current filters. |
| HomePage.Home.HandleTermVote | src/app/page.tsx:346-353 | A term vote is a `term` vote on the entry. |
| HomePage.Home.HandleDefinitionVote | src/app/page.tsx:355-365 | A definition vote goes to the first entry holding the definition. Nothing happens when no entry holds it. |
| HomePage.Home.HandleSearch | src/app/page.tsx:329-331 | A new term replaces the old one and reloads, and the same term again changes nothing. |
| HomePage.Home.HandleCategoryChange | src/app/page.tsx:333-339 | The selection becomes the toggled one, stays duplicate-free, and the results reload. |
| HomePage.Home.HandleRegionChange | src/app/page.tsx:341-343 | A new region replaces the old one and reloads, and the same region again changes nothing. |
| TermOrder.StrLeTotal | src/app/archive/page.tsx:45 | Any two headwords are comparable in the order the archive sorts by. |
| TermOrder.StrLeTransitive | src/app/archive/page.tsx:45 | The order is transitive. |
| TermOrder.InsertSorted | src/app/archive/page.tsx:45 | Inserting into a list sorted by headword keeps it sorted. |
| TermOrder.SortByTermSortsAndPermutes | src/app/archive/page.tsx:44-46 | The sort returns the same entries, ascending by headword. |
| Archive.Bucket | src/app/archive/page.tsx:36-42 | A year's bucket holds exactly the entries of that year. |
| Archive.EmptyBucket | src/app/archive/page.tsx:38-40 | A year that does not occur has an empty bucket. |
| Archive.PushedBuckets | src/app/archive/page.tsx:36-42 | Pushing one more entry onto its year's list, created empty when the year is new, keeps the lists exact. Their keys are the years that occur so far, and each list holds its year's entries in data order. |
| Archive.SortedBuckets | src/app/archive/page.tsx:44-46 | Lists keyed by the years that occur, each holding its year's bucket sorted by headword, are the grouping `slangByYear` computes. |
| Archive.SlangByYear | src/app/archive/page.tsx:34-48 | The grouping loop and the sorting loop together yield one list per year that occurs, holding that year's entries sorted by headword. |
| Archive.PushByYear | src/app/archive/page.tsx:35-42 | The first loop yields the unsorted bucket of every year that occurs, and a key list naming each year once. |
| Archive.PushEntry | src/app/archive/page.tsx:37-41 | The callback pushes the entry onto its year's list, creating the list and recording the key on first use. |
| Archive.SortEachGroup | src/app/archive/page.tsx:44-46 | The second loop replaces every list by its sorted copy and keeps the set of years. |
| Archive.EntryInOwnYear | src/app/archive/page.tsx:34-46 | An entry is in a year's group exactly when it is in the data and was created in that year. |
| Archive.GroupsPermuteBuckets | src/app/archive/page.tsx:44-46 | Sorting the groups changes none of their entries: laid end to end, they hold the same entries as the unsorted buckets. |
| Archive.GroupsPartitionData | src/app/archive/page.tsx:34-46 | Laid end to end, the groups hold every entry exactly once, so their sizes sum to the number of entries. |
| Archive.CardOf | src/app/archive/page.tsx:95-108 | A card shows the first two categories at most, and a region badge exactly when the region is not `Global`. |
| Archive.Timeline | src/app/archive/page.tsx:79-118 | The timeline has one section per listed year. |
| Archive.TimelineShape | src/app/archive/page.tsx:27-117 | The years run strictly downward from 2025 to 2020. A year shows the placeholder exactly when it has no entries, and otherwise one card per entry in group order. Every year but 2020 is followed by a separator. |
| Archive.OtherYearsHidden | src/app/archive/page.tsx:27-79 | An entry from a year outside 2020 to 2025 is grouped but never shown. |
| CommunityDefinitions.TagVariant | src/components/slang/CommunityDefinitions.tsx:18-26 | `accurate` alone gives `default`, `boomer-safe` alone `outline`, and `satirical` alone `destructive`. `funny` and every unknown tag give `secondary`. |
| CommunityDefinitions.InsertByUpvotes | src/components/slang/CommunityDefinitions.tsx:41 | Inserting adds exactly the new definition. |
| CommunityDefinitions.InsertKeepsUpvoteOrder | src/components/slang/CommunityDefinitions.tsx:41 | Inserting into a list ordered by upvotes keeps it ordered. |
| CommunityDefinitions.SortByUpvotes | src/components/slang/CommunityDefinitions.tsx:41 | The sorted copy is a permutation of the definitions with upvotes never increasing. |
| CommunityDefinitions.Submitter | src/components/slang/CommunityDefinitions.tsx:71 | The author shown is the submitter when it is a non-empty string and `Anonymous` otherwise, so it is never empty. |
| CommunityDefinitions.CardOf | src/components/slang/CommunityDefinitions.tsx:49-73 | A card carries the definition's id and counts, one badge per tag with that tag's variant, and the tone. Its two buttons vote `up` and `down` on the definition's own id. |
| CommunityDefinitions.Render | src/components/slang/CommunityDefinitions.tsx:31-49 | Missing or empty definitions give the placeholder. Otherwise there is one card per definition, in the order of the sorted copy. |
| CommunityDefinitions.ListingShowsEveryDefinition | src/components/slang/CommunityDefinitions.tsx:41-49 | Every definition gets a card, and the cards run from most to fewest upvotes. |
| FreshnessMeter.Value | src/components/slang/SlangFreshnessMeter.tsx:10-16 | Every freshness level has a meter value between 0 and 100. |
| FreshnessMeter.Config | src/components/slang/SlangFreshnessMeter.tsx:10-19 | Every freshness level has a row of the table, with a value between 0 and 100. |
| FreshnessMeter.ValueFallsWithAge | src/components/slang/SlangFreshnessMeter.tsx:11-15 | The value falls strictly from fresh to established, waning, cringe and dead, and no two levels share a value. |
| FreshnessMeter.DropBackgroundPrefix | src/components/slang/SlangFreshnessMeter.tsx:27 | Removing the first `bg-` from `bg-<rest>` leaves the rest. |
| FreshnessMeter.DropShadeSuffix | src/components/slang/SlangFreshnessMeter.tsx:27 | Removing the first `-500` from `<hue>-500` leaves a dash-free hue. |
| FreshnessMeter.HueOfBackground | src/components/slang/SlangFreshnessMeter.tsx:27 | Removing the first `bg-` and the first `-500` from `bg-<hue>-500` gives back a dash-free hue. |
| FreshnessMeter.TextClasses | src/components/slang/SlangFreshnessMeter.tsx:27 | The label's classes start with `text-`. |
| FreshnessMeter.TextClassesOfBackground | src/components/slang/SlangFreshnessMeter.tsx:27 | For `bg-<hue>-500` the label's classes are `text-<hue>-600 dark:text-<hue>-400`. |
| FreshnessMeter.ConfigTextClasses | src/components/slang/SlangFreshnessMeter.tsx:11-43 | Every row's colour is a shade-500 background of its hue. Its label classes are the shade-600 and dark shade-400 text classes of the same hue, as the class list at the end of the file expects. |
| BattleCard.Vote | src/components/gamification/SlangBattleCard.tsx:18-34 | A refused click changes nothing. Otherwise, afterwards no vote is in flight, and the selection is the chosen term on success and nothing on failure. |
| BattleCard.Started | src/components/gamification/SlangBattleCard.tsx:21-22 | A started vote is in flight with the chosen term selected. |
| BattleCard.Settled | src/components/gamification/SlangBattleCard.tsx:27-33 | A settled vote is not in flight, and the selection is dropped only when the vote failed. |
| BattleCard.DisabledExactlyWhenBlocked | src/components/gamification/SlangBattleCard.tsx:19-61 | The buttons are disabled exactly when the handler would refuse a click. |
| BattleCard.InFlightBlocksSecondVote | src/components/gamification/SlangBattleCard.tsx:19-22 | While a vote is awaited, a second click is refused and the buttons are disabled. |
| BattleCard.VoteIsOneShot | src/components/gamification/SlangBattleCard.tsx:18-34 | After a successful vote for a non-empty id, every later click changes nothing. |
| BattleCard.FailedVoteAllowsRetry | src/components/gamification/SlangBattleCard.tsx:27-33 | A failed vote returns the card to its initial state, so it can vote again. |
| BattleCard.Card.constructor | src/components/gamification/SlangBattleCard.tsx:15-16 | A card starts with nothing selected and nothing in flight. |
| BattleCard.Card.BeginVote | src/components/gamification/SlangBattleCard.tsx:19-24 | A refused click changes nothing and sends nothing. Otherwise the vote is in flight, the term selected, and the vote sent for this battle and term. |
| BattleCard.Card.CompleteVote | src/components/gamification/SlangBattleCard.tsx:27-33 | The state after the `await` is the settled state. |
| BattleCard.Card.HandleVote | src/components/gamification/SlangBattleCard.tsx:18-34 | The handler ends in the state `Vote` gives and sends a vote exactly when the click was not refused. |
| SearchBar.SearchRequest | src/components/search/SearchBar.tsx:103-107 | A term is passed on exactly when it is not blank, and then trimmed: non-empty, with no white space at either end. |
| SearchBar.SearchNeverForwardsEmpty | src/components/search/SearchBar.tsx:103-135 | Searching never passes on an empty term, so clearing is the only way the page receives one. |
| SearchBar.ErrorMessage | src/components/search/SearchBar.tsx:66-81 | The error text is the table's non-empty message for the code, otherwise the generic message with the code. It is never empty. |
| SearchBar.ErrorMessageOfCode | src/components/search/SearchBar.tsx:66-81 | Each of the six known codes gets its own message, and any other code gets `Speech recognition error: ` followed by the code. |
| SearchBar.MicClick | src/components/search/SearchBar.tsx:114-130 | Without a recognizer, the unavailability toast appears and listening is unchanged. Otherwise listening flips, stopping when it was on and starting when it was off. |
| SearchBar.MicClickTwice | src/components/search/SearchBar.tsx:123-129 | With a recognizer, two clicks restore listening, with one start and one stop between them. |
| SearchBar.Bar.constructor | src/components/search/SearchBar.tsx:17-38 | The field starts with the initial term or empty. Nothing is heard yet, and the recognizer is there exactly when the browser supports one. |
| SearchBar.Bar.SyncInitialTerm | src/components/search/SearchBar.tsx:24-26 | A new initial term overwrites the field. |
| SearchBar.Bar.HandleInputChange | src/components/search/SearchBar.tsx:99-101 | Typing replaces the field's text. |
| SearchBar.Bar.HandleFormSubmit | src/components/search/SearchBar.tsx:109-112 | A submit passes on the search request for the field's text. |
| SearchBar.Bar.ClearSearch | src/components/search/SearchBar.tsx:132-135 | Clearing empties the field and passes on the empty term. |
| SearchBar.Bar.HandleMicClick | src/components/search/SearchBar.tsx:114-130 | The click leaves listening and the effect that `MicClick` gives. |
| SearchBar.Bar.OnResult | src/components/search/SearchBar.tsx:48-52 | A recognized phrase fills the field, is searched for, and ends listening. |
| SearchBar.Bar.OnError | src/components/search/SearchBar.tsx:62-81 | An error ends listening and yields the error text for its code. |
| SearchBar.Bar.OnEnd | src/components/search/SearchBar.tsx:87-89 | The end of recognition ends listening. |
| PromptModal.Begin | src/components/ai/SlangGeneratorModal.tsx:30-34 | A blank text changes nothing. Otherwise the request is pending, the error and the previous answer are cleared, and the text is kept. |
| PromptModal.Complete | src/components/ai/SlangGeneratorModal.tsx:38-45 | Afterwards nothing is pending. The answer is shown on success, and the fixed error on failure with the answer left as it was. |
| PromptModal.OpenChange | src/components/ai/SlangGeneratorModal.tsx:49-57 | Closing clears all four fields, and opening keeps them. |
| PromptModal.SubmitOutcome | src/components/ai/SlangGeneratorModal.tsx:29-46 | A non-blank submit ends with nothing pending and the text kept, showing either the answer with no error or the fixed error with no answer. |
| PromptModal.EnabledSubmitStarts | src/components/ai/SlangGeneratorModal.tsx:30-81 | An enabled submit button always starts a request, and the request disables the button. |
| PromptModal.CloseForgetsEverything | src/components/ai/SlangGeneratorModal.tsx:49-57 | Closing leaves every dialog in the same cleared state, closing twice is closing once, and a closed dialog's submit button is disabled. |
| SlangGeneratorModal.Modal.constructor | src/components/ai/SlangGeneratorModal.tsx:24-27 | The dialog starts cleared. |
| SlangGeneratorModal.Modal.HandleInputChange | src/components/ai/SlangGeneratorModal.tsx:77 | Typing replaces the sentence. |
| SlangGeneratorModal.Modal.BeginGenerate | src/components/ai/SlangGeneratorModal.tsx:30-38 | The state moves as `Begin` says, and the untrimmed sentence is sent exactly when it is not blank. |
| SlangGeneratorModal.Modal.CompleteGenerate | src/components/ai/SlangGeneratorModal.tsx:38-45 | The state moves as `Complete` says, with the generator's own error message. |
| SlangGeneratorModal.Modal.HandleGenerate | src/components/ai/SlangGeneratorModal.tsx:29-46 | The handler ends in the state `Submit` gives and sends the untrimmed sentence exactly when it is not blank. |
| SlangGeneratorModal.Modal.HandleModalChange | src/components/ai/SlangGeneratorModal.tsx:49-57 | The state moves as `OpenChange` says, and the open state is always passed on. |
| SlangGeneratorModal.ControlsDisabled | src/components/ai/SlangGeneratorModal.tsx:79-81 | The button is disabled exactly when a request is pending or the sentence is blank, and the text box exactly when a request is pending. |
| BoomerTranslatorModal.Modal.constructor | src/components/common/BoomerTranslatorModal.tsx:24-27 | The dialog starts cleared. |
| BoomerTranslatorModal.Modal.HandleInputChange | src/components/common/BoomerTranslatorModal.tsx:77 | Typing replaces the slang. |
| BoomerTranslatorModal.Modal.BeginTranslate | src/components/common/BoomerTranslatorModal.tsx:30-38 | The state moves as `Begin` says, and the untrimmed slang is sent exactly when it is not blank. |
| BoomerTranslatorModal.Modal.CompleteTranslate | src/components/common/BoomerTranslatorModal.tsx:38-45 | The state moves as `Complete` says, with the translator's own error message. |
| BoomerTranslatorModal.Modal.HandleTranslate | src/components/common/BoomerTranslatorModal.tsx:29-46 | The handler ends in the state `Submit` gives and sends the untrimmed slang exactly when it is not blank. |
| BoomerTranslatorModal.Modal.HandleModalChange | src/components/common/BoomerTranslatorModal.tsx:49-57 | The state moves as `OpenChange` says, and the open state is always passed on. |
| BoomerTranslatorModal.ControlsDisabled | src/components/common/BoomerTranslatorModal.tsx:79-81 | The button is disabled exactly when a request is pending or the slang is blank, and the text box exactly when a request is pending. |

## Left out

- HomePage.Home.HandleVote: The model reloads the results after every vote. The page replaces the store with a new array on every vote, and that array changes the load effect's dependencies. The `updated` answer is the intended one: whether a counter changed. The page reads its flag right after handing an updater to React, so it can read the flag before the updater has run. React's scheduling is not modelled.
- Votes.ApplyVote: The toasts for votes on AI-generated entries are not modelled; only the unchanged store and the `false` answer are.
- TermOrder.StrLe: `localeCompare` is replaced by code-point order on characters (Unicode scalar values). Locale collation is not modelled, so the proved order is "ascending by code point". Code-point order also differs from UTF-16 code-unit order between characters outside the Basic Multilingual Plane and those from U+E000 to U+FFFF.
- Strings are sequences of Unicode scalar values, not of UTF-16 code units. A character outside the Basic Multilingual Plane is one character here and two code units in JavaScript, so lengths and positions differ on strings that contain one.
- Stability is not proved: both sorts are written stable, as `Array.prototype.sort` is, but only order and permutation are proved about them.
- Text.Lower: `toLowerCase` maps only ASCII capitals. Other Unicode case mappings are not modelled.
- HomePage.Home.constructor: the `region` URL parameter is cast without a check in the page. A string that names no region is not modelled; the parameter is an optional `Region`.
- The load's `catch` branch, with its "Failed to load slang" message, is not modelled. `fetchSlang` and `generateAIDefinition` catch their own failures, so that branch cannot be reached.
- Query.CombinedFetch: the three services are awaited together with `Promise.all`. The model gives their answers sequentially as parameters. The TikTok and Reddit services are stubs that return constants, so they are parameters too.
- Twitter.GetTweets: the random delay and the 5% random failure are a boolean parameter, not a probability.
- The clock (`Date.now()`, `new Date()`) is a parameter, and relative dates (`formatDistanceToNow`) are not modelled.
- URL synchronisation (`replaceState`, `useSearchParams`), timers, console logging and toasts are not modelled. The toast texts themselves are also left out, except the speech error text, which `SearchBar.ErrorMessage` models.
- Rendering, styling, icons and tooltips are not modelled. The exceptions are what the proved properties are about: the archive timeline and cards, the community definition cards, the freshness table and classes, and the disabled states.
- `fetchBattle`, `handleBattleVote` and `loadBattle` are not modelled. The battle card takes its vote call's outcome as a parameter.
- The archive page's own list of eight entries (`src/app/archive/page.tsx:14-25`) is not a constant of the model. `Archive.SlangByYear` takes the list as a parameter, and every archive property holds for any list.
- The archive page's loading and error states are not modelled. They never change from their initial values.
- The archive cards' links (`encodeURIComponent` of the headword) are not modelled.
- SearchBar: setting up the speech recognizer is not modelled: its settings, and rebuilding it each time listening changes. The recognizer's start and stop calls are the `MicEffect` a click returns.
- SearchBar.ErrorMessage: the message table is looked up as a map. JavaScript would also find inherited object properties for codes such as `constructor`. The recognizer only reports the codes of the Web Speech API, so this is not modelled.
- The language model calls (`prompt(...)`, `slangGenerator`, `boomerTranslator`) are not modelled. Their outcome is a parameter: an answer, or `None` for a failure.
