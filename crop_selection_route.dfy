/**
 * `POST /api/crop-selection`: validate the three conditions, ask the model
 * for recommendations through the SDK, and recover a JSON object from its
 * reply, falling back to an empty result of the expected shape.
 */
module CropSelectionRoute {
  import opened Outcomes
  import opened Strings
  import opened JsonValues
  import opened Http
  import opened Recovery

  const MissingFields := "Missing required fields."
  const RecommendationFailure := "Failed to get crop recommendations."

  /**
   * The SDK call `model.generateContent(prompt)` and `response.text()`: the
   * text, or a failure (among them a missing API key, which the SDK reports
   * by throwing).
   */
  datatype SdkReply = SdkFailed | SdkText(text: string)

  /** The prompt's fixed opening, up to and including "Conditions:". */
  const PromptIntro: string :=
    "You are an expert in agriculture. Based on the following conditions, provide the following as a single JSON object:\n" +
    "\n" +
    "1. recommendedCrops: The 3-5 best crops to grow, each as an object with name, duration (in days or range), yield (e.g. High/Medium/Low or tons/acre), and a rating (1-5, where 5 is best).\n" +
    "2. popularCrops: The 3-5 most popular crops grown, each as an object with name, duration, yield, and rating.\n" +
    "3. weather: A short summary of typical weather (temperature range, humidity, sunlight hours) for these conditions.\n" +
    "4. growingTips: 3-5 essential tips for successful crop cultivation in these conditions.\n" +
    "\n" +
    "Conditions:"

  /** The prompt's fixed closing: the JSON layout to answer in. */
  const PromptFormat: string :=
    "\n" +
    "Format your response as:\n" +
    "{\n" +
    "  \"recommendedCrops\": [{\"name\": \"\", \"duration\": \"\", \"yield\": \"\", \"rating\": 0}],\n" +
    "  \"popularCrops\": [{\"name\": \"\", \"duration\": \"\", \"yield\": \"\", \"rating\": 0}],\n" +
    "  \"weather\": { \"temperature\": \"\", \"humidity\": \"\", \"sunlight\": \"\" },\n" +
    "  \"growingTips\": [\"Tip1\", \"Tip2\", ...]\n" +
    "}"

  /** The three condition lines, each on a line of its own. */
  function ConditionLines(soilType: string, region: string, season: string): string {
    "\nSoil type: " + soilType + "\nRegion: " + region + "\nSeason: " + season + "\n"
  }

  function CropPrompt(soilType: string, region: string, season: string): string {
    PromptIntro + ConditionLines(soilType, region, season) + PromptFormat
  }

  /** `!soilType || !region || !season` fails for none of them. */
  predicate FieldsPresent(body: Json) {
    Truthy(Member(body, "soilType")) && Truthy(Member(body, "region")) && Truthy(Member(body, "season"))
  }

  /** The value `aiData` starts from, and keeps when recovery fails. */
  function DefaultCropData(): Json {
    JObj([
      ("recommendedCrops", JArr([])),
      ("popularCrops", JArr([])),
      ("weather", JObj([("temperature", JStr("")), ("humidity", JStr("")), ("sunlight", JStr(""))])),
      ("growingTips", JArr([]))
    ])
  }

  /** The recovered `aiData`: the value of the `{...}` span, or the default. */
  function CropData(parse: Parser, text: string): Json {
    ParseSpan(parse, text, '{', '}').GetOr(DefaultCropData())
  }

  /**
   * The handler. `sdk` is what the model call would return and `parse` stands
   * for `JSON.parse`; `calls` lists the outgoing calls made.
   */
  method Post(req: RequestBody, sdk: SdkReply, parse: Parser) returns (resp: Response, calls: seq<Call>)
    ensures (req.Unreadable? || req == Parsed(JNull)) ==>
              resp == Response(500, ErrorJson(RecommendationFailure)) && calls == []
    ensures req.Parsed? && req.value != JNull && !FieldsPresent(req.value) ==>
              resp == Response(400, ErrorJson(MissingFields)) && calls == []
    ensures req.Parsed? && req.value != JNull && FieldsPresent(req.value) ==>
              && calls == [Generate(CropPrompt(Display(Member(req.value, "soilType")),
                                               Display(Member(req.value, "region")),
                                               Display(Member(req.value, "season"))))]
              && resp == match sdk
                         case SdkFailed => Response(500, ErrorJson(RecommendationFailure))
                         case SdkText(text) => Response(200, CropData(parse, text))
  {
    calls := [];
    // `await req.json()` throwing, or destructuring `null`, lands in the outer catch
    if req.Unreadable? || req.value == JNull {
      resp := Response(500, ErrorJson(RecommendationFailure));
      return;
    }
    var body := req.value;
    var soilType, region, season := Member(body, "soilType"), Member(body, "region"), Member(body, "season");
    if !Truthy(soilType) || !Truthy(region) || !Truthy(season) {
      resp := Response(400, ErrorJson(MissingFields));
      return;
    }
    var prompt := CropPrompt(Display(soilType), Display(region), Display(season));
    calls := calls + [Generate(prompt)];
    if sdk.SdkFailed? {
      resp := Response(500, ErrorJson(RecommendationFailure));
      return;
    }
    var text := sdk.text;
    var aiData := DefaultCropData();
    var m := GreedyMatch(text, '{', '}');
    if m.Some? {
      var parsed := parse(m.value);
      if parsed.Some? {
        aiData := parsed.value;
      }
    }
    resp := Response(200, aiData);
  }

  // ---------------------------------------------------------------------------
  // Properties

  /** The prompt carries the three conditions verbatim, on lines of their own. */
  lemma {:induction false} PromptCarriesConditions(soilType: string, region: string, season: string)
    ensures Includes(CropPrompt(soilType, region, season), ConditionLines(soilType, region, season))
  {
    var p, c := CropPrompt(soilType, region, season), ConditionLines(soilType, region, season);
    assert p[|PromptIntro|..|PromptIntro| + |c|] == c;
    assert OccursAt(p, c, |PromptIntro|);
    IncludesIff(p, c);
  }

  /**
   * Only the brace span is parsed, never the whole text: two parsers that agree
   * on the span give the same result however they treat the whole text, and
   * a text with no span gives the default even if it would parse as a whole.
   */
  lemma SpanOnly(parse: Parser, other: Parser, text: string)
    requires GreedyMatch(text, '{', '}').Some? ==>
               parse(GreedyMatch(text, '{', '}').value) == other(GreedyMatch(text, '{', '}').value)
    ensures CropData(parse, text) == CropData(other, text)
    ensures GreedyMatch(text, '{', '}').None? ==> CropData(parse, text) == DefaultCropData()
  {
  }

  /** A span that does not parse leaves the default unchanged. */
  lemma UnparsableSpanKeepsDefault(parse: Parser, text: string)
    requires GreedyMatch(text, '{', '}').Some? && parse(GreedyMatch(text, '{', '}').value).None?
    ensures CropData(parse, text) == DefaultCropData()
  {
  }

  /** The default has empty lists and a weather object of three empty strings. */
  lemma DefaultShape()
    ensures Member(DefaultCropData(), "recommendedCrops") == Some(JArr([]))
    ensures Member(DefaultCropData(), "popularCrops") == Some(JArr([]))
    ensures Member(DefaultCropData(), "growingTips") == Some(JArr([]))
    ensures Member(DefaultCropData(), "weather") ==
              Some(JObj([("temperature", JStr("")), ("humidity", JStr("")), ("sunlight", JStr(""))]))
  {
  }
}
