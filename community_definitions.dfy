/** The list of user-submitted definitions under an entry: most upvoted first, each with its tag
    badges, its submitter and its two vote buttons. */
module CommunityDefinitions {
  import opened Results
  import opened SlangTypes
  import opened Votes

  /** The four looks a badge can take. */
  datatype BadgeVariant = Default | Secondary | Destructive | Outline

  /** The badge look of a definition tag; a tag outside the four known ones looks like `funny`. */
  function TagVariant(tag: DefinitionTag): (v: BadgeVariant)
    ensures v == Default <==> tag == Accurate
    ensures v == Outline <==> tag == BoomerSafe
    ensures v == Destructive <==> tag == Satirical
    ensures v == Secondary <==> (tag == Funny || tag.OtherTag?)
  {
    match tag
    case Funny => Secondary
    case Accurate => Default
    case BoomerSafe => Outline
    case Satirical => Destructive
    case OtherTag(_) => Secondary
  }

  /** Upvotes never increase along the list. */
  predicate ByUpvotesDescending(s: seq<DefinitionDetail>) {
    forall i, j :: 0 <= i < j < |s| ==> s[i].upvotes >= s[j].upvotes
  }

  /** Places `x` after every element of `r` with at least as many upvotes, so that definitions
      with equal upvotes keep their order. */
  function InsertByUpvotes(r: seq<DefinitionDetail>, x: DefinitionDetail): (res: seq<DefinitionDetail>)
    ensures multiset(res) == multiset(r) + multiset{x}
    ensures |res| == |r| + 1
    ensures forall e :: e in res <==> e in r || e == x
  {
    if r == [] then [x]
    else if r[|r| - 1].upvotes >= x.upvotes then r + [x]
    else
      assert r == r[..|r| - 1] + [r[|r| - 1]];
      InsertByUpvotes(r[..|r| - 1], x) + [r[|r| - 1]]
  }

  /** Inserting into a list in upvote order keeps it in upvote order. */
  lemma {:induction false} InsertKeepsUpvoteOrder(r: seq<DefinitionDetail>, x: DefinitionDetail)
    requires ByUpvotesDescending(r)
    ensures ByUpvotesDescending(InsertByUpvotes(r, x))
  {
    if r != [] && r[|r| - 1].upvotes < x.upvotes {
      var last := r[|r| - 1];
      var front := r[..|r| - 1];
      InsertKeepsUpvoteOrder(front, x);
      var ins := InsertByUpvotes(front, x);
      assert forall k :: 0 <= k < |front| ==> front[k] == r[k];
      var res := ins + [last];
      forall i, j | 0 <= i < j < |res| ensures res[i].upvotes >= res[j].upvotes {
        if j == |ins| {
          assert res[i] in ins;
        }
      }
    }
  }

  /** A sorted copy of the definitions, most upvoted first. The comparator is the difference of
      the upvote counts, and `Array.prototype.sort` is stable, so ties keep their input order;
      each definition in turn is inserted into the already sorted ones before it. */
  function SortByUpvotes(defs: seq<DefinitionDetail>): (r: seq<DefinitionDetail>)
    ensures multiset(r) == multiset(defs)
    ensures |r| == |defs|
    ensures forall e :: e in r <==> e in defs
    ensures ByUpvotesDescending(r)
  {
    if defs == [] then []
    else
      assert defs == defs[..|defs| - 1] + [defs[|defs| - 1]];
      var sortedFront := SortByUpvotes(defs[..|defs| - 1]);
      InsertKeepsUpvoteOrder(sortedFront, defs[|defs| - 1]);
      InsertByUpvotes(sortedFront, defs[|defs| - 1])
  }

  /** The name shown as the author: the submitter when it is a non-empty string, otherwise
      `Anonymous`. */
  function Submitter(d: DefinitionDetail): (s: string)
    ensures s != []
    ensures Truthy(d.submittedBy) ==> s == d.submittedBy.value
    ensures !Truthy(d.submittedBy) ==> s == "Anonymous"
  {
    if Truthy(d.submittedBy) then d.submittedBy.value else "Anonymous"
  }

  /** A click on a vote button: the definition it is for and the direction. */
  datatype VoteAction = VoteAction(definitionId: string, vote: VoteType)

  /** A tag shown as a badge of the given look. */
  datatype TagBadge = TagBadge(tag: DefinitionTag, variant: BadgeVariant)

  /** What one definition shows. The tone badge always follows the tag badges. */
  datatype DefinitionCard = DefinitionCard(
    id: string,
    definition: string,
    example: string,
    tagBadges: seq<TagBadge>,
    toneBadge: Tone,
    upvotes: nat,
    downvotes: nat,
    submitter: string,
    upvoteAction: VoteAction,
    downvoteAction: VoteAction)

  /** Either the invitation to add the first definition, or the sorted list of cards. */
  datatype DefinitionsView = Placeholder | Listing(cards: seq<DefinitionCard>)

  /** The card of one definition. */
  function CardOf(d: DefinitionDetail): (c: DefinitionCard)
    ensures c.id == d.id && c.upvotes == d.upvotes && c.downvotes == d.downvotes
    ensures c.upvoteAction == VoteAction(d.id, Upvote)
    ensures c.downvoteAction == VoteAction(d.id, Downvote)
    ensures d.tags.None? ==> c.tagBadges == []
    ensures d.tags.Some? ==> |c.tagBadges| == |d.tags.value|
    ensures d.tags.Some? ==> forall i :: 0 <= i < |c.tagBadges| ==>
      c.tagBadges[i] == TagBadge(d.tags.value[i], TagVariant(d.tags.value[i]))
    ensures c.toneBadge == d.tone
    ensures c.submitter == Submitter(d)
  {
    var tags := if d.tags.Some? then d.tags.value else [];
    DefinitionCard(
      d.id, d.definition, d.example,
      seq(|tags|, i requires 0 <= i < |tags| => TagBadge(tags[i], TagVariant(tags[i]))),
      d.tone, d.upvotes, d.downvotes, Submitter(d),
      VoteAction(d.id, Upvote), VoteAction(d.id, Downvote))
  }

  /** The component: the placeholder for missing or empty definitions, otherwise one card per
      definition in upvote order. */
  function Render(definitions: Option<seq<DefinitionDetail>>): (v: DefinitionsView)
    ensures v.Placeholder? <==> definitions.None? || definitions.value == []
    ensures v.Listing? ==> |v.cards| == |definitions.value|
    ensures v.Listing? ==> forall i :: 0 <= i < |v.cards| ==>
      v.cards[i] == CardOf(SortByUpvotes(definitions.value)[i])
  {
    if definitions.None? || definitions.value == [] then Placeholder
    else
      var sorted := SortByUpvotes(definitions.value);
      Listing(seq(|sorted|, i requires 0 <= i < |sorted| => CardOf(sorted[i])))
  }

  /** Every definition gets a card, and the cards run from most to fewest upvotes. */
  lemma ListingShowsEveryDefinition(defs: seq<DefinitionDetail>)
    requires defs != []
    ensures Render(Some(defs)).Listing?
    ensures forall d :: d in defs ==> CardOf(d) in Render(Some(defs)).cards
    ensures forall i, j :: 0 <= i < j < |Render(Some(defs)).cards| ==>
      Render(Some(defs)).cards[i].upvotes >= Render(Some(defs)).cards[j].upvotes
  {
    var sorted := SortByUpvotes(defs);
    var cards := Render(Some(defs)).cards;
    forall d | d in defs ensures CardOf(d) in cards {
      var k :| 0 <= k < |sorted| && sorted[k] == d;
      assert cards[k] == CardOf(d);
    }
  }
}
