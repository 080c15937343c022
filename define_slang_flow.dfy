/**
 * The definition flow behind AI fallback: the schema enumerations and the post-processing the flow
 * applies to the language model's answer. The prompt call itself is a collaborator; its answer
 * (or its absence) is a parameter.
 */
module DefineSlangFlow {
  import opened Results
  import opened SlangTypes

  /** The structured answer the prompt is asked for. */
  datatype DefineSlangOutput = DefineSlangOutput(
    definition: string,
    example: string,
    tone: Tone,
    categories: seq<Category>,
    freshness: Freshness)

  /** The options of the tone schema, in schema order. */
  const ToneOptions: seq<Tone> := [Sarcastic, Sincere, Ironic, Playful, Serious, Neutral]

  /** The options of the category schema, in schema order. */
  const CategoryOptions: seq<Category> := [Emotions, Social, Fashion, Gaming, Internet, Food, Other]

  /** The options of the freshness schema, in schema order. */
  const FreshnessOptions: seq<Freshness> := [Fresh, Established, Waning, Cringe, Dead]

  /** The most categories a definition keeps. */
  const MaxCategories: nat := 3

  /** The schemas list every value of their type exactly once: 6 tones, 7 categories, 5 freshness levels. */
  lemma SchemasAreExactEnumerations()
    ensures |ToneOptions| == 6 && forall t: Tone :: t in ToneOptions
    ensures |CategoryOptions| == 7 && forall c: Category :: c in CategoryOptions
    ensures |FreshnessOptions| == 5 && forall f: Freshness :: f in FreshnessOptions
    ensures forall i, j :: 0 <= i < j < |ToneOptions| ==> ToneOptions[i] != ToneOptions[j]
    ensures forall i, j :: 0 <= i < j < |CategoryOptions| ==> CategoryOptions[i] != CategoryOptions[j]
    ensures forall i, j :: 0 <= i < j < |FreshnessOptions| ==> FreshnessOptions[i] != FreshnessOptions[j]
  {
    forall t: Tone ensures t in ToneOptions {
      match t
      case Sarcastic => assert ToneOptions[0] == t;
      case Sincere => assert ToneOptions[1] == t;
      case Ironic => assert ToneOptions[2] == t;
      case Playful => assert ToneOptions[3] == t;
      case Serious => assert ToneOptions[4] == t;
      case Neutral => assert ToneOptions[5] == t;
    }
    forall c: Category ensures c in CategoryOptions {
      match c
      case Emotions => assert CategoryOptions[0] == c;
      case Social => assert CategoryOptions[1] == c;
      case Fashion => assert CategoryOptions[2] == c;
      case Gaming => assert CategoryOptions[3] == c;
      case Internet => assert CategoryOptions[4] == c;
      case Food => assert CategoryOptions[5] == c;
      case Other => assert CategoryOptions[6] == c;
    }
    forall f: Freshness ensures f in FreshnessOptions {
      match f
      case Fresh => assert FreshnessOptions[0] == f;
      case Established => assert FreshnessOptions[1] == f;
      case Waning => assert FreshnessOptions[2] == f;
      case Cringe => assert FreshnessOptions[3] == f;
      case Dead => assert FreshnessOptions[4] == f;
    }
  }

  /** The category cap: a list longer than three is cut to its first three, in order. */
  function CapCategories(categories: seq<Category>): (r: seq<Category>)
    ensures |r| <= MaxCategories
    ensures r <= categories
    ensures |r| == if |categories| <= MaxCategories then |categories| else MaxCategories
  {
    if |categories| > MaxCategories then categories[..MaxCategories] else categories
  }

  /** The message the flow throws when the prompt produced no output. */
  function MissingOutputMessage(term: string): string {
    "Failed to generate definition for term: " + term
  }

  /** `defineSlangFlow` after the prompt has answered: a missing output is an error, otherwise the
      output is returned with its categories capped. `promptOutput` is `None` when the model
      produced no structured output. */
  function DefineSlang(term: string, promptOutput: Option<DefineSlangOutput>): (r: Result<DefineSlangOutput>)
    ensures r.Err? <==> promptOutput.None?
    ensures r.Err? ==> r.message == MissingOutputMessage(term)
    ensures r.Ok? ==> |r.value.categories| <= MaxCategories
    ensures r.Ok? ==> r.value.categories <= promptOutput.value.categories
    ensures r.Ok? && |promptOutput.value.categories| <= MaxCategories ==> r.value == promptOutput.value
    ensures r.Ok? ==> r.value == promptOutput.value.(categories := r.value.categories)
  {
    match promptOutput
    case None => Err(MissingOutputMessage(term))
    case Some(output) =>
      if |output.categories| > MaxCategories then Ok(output.(categories := CapCategories(output.categories)))
      else Ok(output)
  }

  /** The flow body step by step: a missing output is thrown as an error, and an over-long
      category list is cut to its first three in place before the output is returned. */
  method DefineSlangFlow(term: string, promptOutput: Option<DefineSlangOutput>) returns (r: Result<DefineSlangOutput>)
    ensures r == DefineSlang(term, promptOutput)
  {
    if promptOutput.None? {
      return Err(MissingOutputMessage(term));
    }
    var output := promptOutput.value;
    if |output.categories| > 3 {
      output := output.(categories := output.categories[..3]);
    }
    return Ok(output);
  }
}
