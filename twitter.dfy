/** The mock Twitter lookup: three templated posts filtered on the term and capped at two. */
module Twitter {
  import opened Results
  import opened Text
  import opened Collections

  /** A post on X, as the lookup returns it. */
  datatype Tweet = Tweet(text: string, author: string, url: string)

  /** How many posts the lookup returns at most. */
  const MaxTweets: nat := 2

  /** The message of the simulated API failure. */
  const MockErrorMessage: string := "Failed to fetch Tweets (mock error)"

  /** The three mock posts, each quoting the searched term. */
  function MockTweets(term: string): (r: seq<Tweet>)
    ensures |r| == 3
  {
    [ Tweet("Just learned what \"" + term + "\" means lol, feeling old.",
            "MillennialMike", "https://twitter.com/MillennialMike/status/12345"),
      Tweet("Is it just me or is \"" + term + "\" already kinda overused? \U{00F0}\U{0178}\U{00A4}\U{201D} #genzslang",
            "SlangWatcher", "https://twitter.com/SlangWatcher/status/67890"),
      Tweet("My friend just used \"" + term + "\" in a sentence and I pretended to know what it meant.",
            "ConfusedConnie", "https://twitter.com/ConfusedConnie/status/11223") ]
  }

  /** The filter `getTweets` applies: the post mentions the term, ignoring case. */
  predicate Mentions(term: string, t: Tweet) {
    IncludesIgnoreCase(t.text, term)
  }

  /** `getTweets`. The simulated random failure is the parameter `fails`: the caller (the
      environment) decides whether this call is one of the failing ones. */
  function GetTweets(term: string, fails: bool): (r: Result<seq<Tweet>>)
    ensures r.Err? <==> fails
    ensures r.Err? ==> r.message == MockErrorMessage
    ensures r.Ok? ==> |r.value| <= MaxTweets
    ensures r.Ok? ==> forall t :: t in r.value ==> IncludesIgnoreCase(t.text, term)
    ensures r.Ok? ==> r.value <= Filter(MockTweets(term), t => Mentions(term, t))
  {
    if fails then Err(MockErrorMessage)
    else
      var filtered := Filter(MockTweets(term), t => Mentions(term, t));
      var limited := if |filtered| <= MaxTweets then filtered else filtered[..MaxTweets];
      assert forall t :: t in limited ==> t in filtered;
      Ok(limited)
  }

  /** Every mock post quotes the term, so a successful lookup always returns the first two posts. */
  lemma GetTweetsReturnsFirstTwo(term: string)
    ensures GetTweets(term, false) == Ok(MockTweets(term)[..2])
  {
    var ts := MockTweets(term);
    IncludesInfix("Just learned what \"", term, "\" means lol, feeling old.");
    IncludesInfix("Is it just me or is \"", term, "\" already kinda overused? \U{00F0}\U{0178}\U{00A4}\U{201D} #genzslang");
    IncludesInfix("My friend just used \"", term, "\" in a sentence and I pretended to know what it meant.");
    forall t | t in ts ensures Mentions(term, t) {
      IncludesIgnoreCaseOfIncludes(t.text, term);
    }
    FilterAll(ts, t => Mentions(term, t));
  }
}
