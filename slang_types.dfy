/** The dictionary's record types: an entry, its community definitions and its "in the wild" mentions. */
module SlangTypes {
  import opened Results
  import Twitter

  /** The six tones an entry or definition can carry. */
  datatype Tone = Sarcastic | Sincere | Ironic | Playful | Serious | Neutral

  /** The seven categories an entry can belong to. */
  datatype Category = Emotions | Social | Fashion | Gaming | Internet | Food | Other

  /** How current a term is, from freshest to deadest. */
  datatype Freshness = Fresh | Established | Waning | Cringe | Dead

  /** The regions of the regional filter, plus `Unknown`, which AI-generated entries carry. */
  datatype Region = Global | USEast | USWest | UK | AU | Unknown

  /** A community definition's tag. Tags outside the four known ones can reach the page at run
      time (the data is not validated), so they are kept by name. */
  datatype DefinitionTag = Funny | Accurate | BoomerSafe | Satirical | OtherTag(name: string)

  /** A creation date; `month` counts from 0, as JavaScript's `Date` does. */
  datatype CalendarDate = CalendarDate(year: int, month: int, day: int)

  /** The reading of the clock at one moment: milliseconds since the epoch and the local date. */
  datatype Clock = Clock(epochMillis: nat, date: CalendarDate)

  /** A word's traditional meaning next to its current one. */
  datatype ThenVsNow = ThenVsNow(traditionalMeaning: string, genZMeaning: string)

  /** A user-submitted definition attached to an entry. */
  datatype DefinitionDetail = DefinitionDetail(
    id: string,
    definition: string,
    example: string,
    tone: Tone,
    tags: Option<seq<DefinitionTag>>,
    upvotes: nat,
    downvotes: nat,
    submittedBy: Option<string>,
    createdAt: CalendarDate)

  /** A TikTok video mentioning a term. */
  datatype TikTokVideo = TikTokVideo(url: string, caption: string, author: string)

  /** A Reddit post mentioning a term. */
  datatype RedditPost = RedditPost(title: string, body: string, author: string, url: string)

  /** Mentions of a term gathered from the three sources. */
  datatype InTheWild = InTheWild(
    tweets: seq<Twitter.Tweet>,
    tiktoks: seq<TikTokVideo>,
    redditPosts: seq<RedditPost>)

  /** A dictionary entry. `isAIGenerated` false stands for both `false` and an absent flag. */
  datatype SlangEntry = SlangEntry(
    id: string,
    term: string,
    definition: string,
    example: string,
    tone: Tone,
    categories: seq<Category>,
    freshness: Freshness,
    origin: Option<string>,
    createdAt: CalendarDate,
    upvotes: nat,
    downvotes: nat,
    submittedBy: Option<string>,
    approved: bool,
    thenVsNow: Option<ThenVsNow>,
    pronunciationUrl: Option<string>,
    region: Region,
    isAIGenerated: bool,
    communityDefinitions: Option<seq<DefinitionDetail>>,
    inTheWild: Option<InTheWild>)
}
