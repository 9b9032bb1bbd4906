/**
 * `POST /api/soil-analysis`: ask the model for three soil-health tips and
 * recover a JSON array from its reply.
 */
module SoilAnalysisRoute {
  import opened Outcomes
  import opened Strings
  import opened JsonValues
  import opened Http
  import opened Recovery

  const SoilIntro := "You are an expert agronomist. Based on the following soil analysis, provide exactly 3 short, "
    + "actionable soil health tips. Each tip should be a single sentence, around 10 words, and output "
    + "as a JSON array of strings.\n"

  /** The prompt, with the four request fields spliced in as template literals do. */
  function SoilPrompt(body: Json): string {
    SoilIntro + "\nLocation: " + Display(Member(body, "location"))
    + "\nSoil Type: " + Display(Member(body, "soilType"))
    + "\nMoisture: " + Display(Member(body, "moisture"))
    + "%\npH: " + Display(Member(body, "ph"))
  }

  /**
   * The value `tips` holds once the recovery is over: the whole reply if it
   * parses to an array; otherwise the value of the `[...]` span if that parses;
   * otherwise whatever the first parse produced (an array was required only of
   * the first parse, so a non-array stays), or `[]` if it threw.
   */
  function RecoveredTips(parse: Parser, aiText: string): Json {
    match parse(aiText)
    case Some(JArr(items)) => JArr(items)
    case first => ParseSpan(parse, aiText, '[', ']').GetOr(first.GetOr(JArr([])))
  }

  /**
   * `if (!tips.length) tips = [aiText]; return NextResponse.json({ tips })`;
   * reading `.length` of `null` throws, and the outer `catch` answers 500.
   */
  function TipsResponse(parse: Parser, aiText: string): Response {
    var tips := RecoveredTips(parse, aiText);
    match Length(Some(tips))
    case Err(e) => Caught(e)
    case Ok(len) => Response(200, JObj([("tips", if Truthy(len) then tips else JArr([JStr(aiText)]))]))
  }

  /** The `try`/`catch` block that fills `tips`, starting from `[]`. */
  method RecoverTips(parse: Parser, aiText: string) returns (tips: Json)
    ensures tips == RecoveredTips(parse, aiText)
  {
    tips := JArr([]);
    // try { tips = JSON.parse(aiText); if (!Array.isArray(tips)) throw ... }
    var threw := true;
    var first := parse(aiText);
    if first.Some? {
      tips := first.value;
      threw := !tips.JArr?;
    }
    // catch { const match = aiText.match(/\[[\s\S]*\]/); if (match) try { tips = JSON.parse(match[0]) } catch {} }
    if threw {
      var m := GreedyMatch(aiText, '[', ']');
      if m.Some? {
        var second := parse(m.value);
        if second.Some? {
          tips := second.value;
        }
      }
    }
  }

  /**
   * The handler. `apiKey` is the environment's `GEMINI_API_KEY`, `reply` what
   * the model call would return and `parse` stands for `JSON.parse`; `calls`
   * lists the outgoing calls made.
   */
  method Post(req: RequestBody, apiKey: Option<string>, reply: Reply, parse: Parser)
    returns (resp: Response, calls: seq<Call>)
    ensures req.Unreadable? ==> resp == Caught(req.error) && calls == []
    ensures req == Parsed(JNull) ==> resp == Caught(DestructureNullError("location")) && calls == []
    ensures req.Parsed? && req.value != JNull && KeyMissing(apiKey) ==>
              resp == Response(500, ErrorJson(KeyNotSet)) && calls == []
    ensures req.Parsed? && req.value != JNull && !KeyMissing(apiKey) ==>
              && calls == [Generate(SoilPrompt(req.value))]
              && resp == match reply
                         case Unreachable(e) => Caught(e)
                         case Rejected(t) => Response(500, ErrorJson(t))
                         case Answered(text) => TipsResponse(parse, CandidateText(text, "[]"))
  {
    calls := [];
    if req.Unreadable? {
      resp := Caught(req.error);
      return;
    }
    var body := req.value;
    if body == JNull {
      resp := Caught(DestructureNullError("location"));
      return;
    }
    if KeyMissing(apiKey) {
      resp := Response(500, ErrorJson(KeyNotSet));
      return;
    }
    var prompt := SoilPrompt(body);
    calls := calls + [Generate(prompt)];
    match reply {
      case Unreachable(e) =>
        resp := Caught(e);
      case Rejected(t) =>
        resp := Response(500, ErrorJson(t));
      case Answered(text) =>
        var aiText := CandidateText(text, "[]");
        var tips := RecoverTips(parse, aiText);
        var len := Length(Some(tips));
        if len.Err? {
          resp := Caught(len.error);
          return;
        }
        if !Truthy(len.value) {
          tips := JArr([JStr(aiText)]);
        }
        resp := Response(200, JObj([("tips", tips)]));
    }
  }

  // ---------------------------------------------------------------------------
  // Properties of the recovery

  /**
   * When the whole reply parses to an array it is the tips, and the bracket
   * extraction is not consulted: any parser that agrees on the whole text
   * gives the same answer.
   */
  lemma ArrayReplyWins(parse: Parser, other: Parser, aiText: string, items: seq<Json>)
    requires parse(aiText) == Some(JArr(items))
    ensures RecoveredTips(parse, aiText) == JArr(items)
    ensures other(aiText) == parse(aiText) ==> TipsResponse(other, aiText) == TipsResponse(parse, aiText)
    ensures TipsResponse(parse, aiText) ==
              Response(200, JObj([("tips", if items != [] then JArr(items) else JArr([JStr(aiText)]))]))
  {
  }

  /** Otherwise the `[...]` span is parsed; if that fails, the first value stays. */
  lemma NonArrayFallsBack(parse: Parser, aiText: string)
    requires !(parse(aiText).Some? && parse(aiText).value.JArr?)
    ensures ParseSpan(parse, aiText, '[', ']').Some? ==>
              RecoveredTips(parse, aiText) == ParseSpan(parse, aiText, '[', ']').value
    ensures ParseSpan(parse, aiText, '[', ']').None? ==>
              RecoveredTips(parse, aiText) == parse(aiText).GetOr(JArr([]))
  {
  }

  /** The span tried runs from the first `[` to the last `]`, and exists only if a `]` follows the first `[`. */
  lemma BracketSpanShape(parse: Parser, aiText: string)
    ensures ParseSpan(parse, aiText, '[', ']').Some? ==>
              && GreedySpan(aiText, '[', ']').Some?
              && var (i, j) := GreedySpan(aiText, '[', ']').value;
                 && parse(aiText[i..j]) == ParseSpan(parse, aiText, '[', ']')
                 && LeftmostLongest(aiText, '[', ']', i, j)
  {
    GreedySpanIsRegexMatch(aiText, '[', ']');
  }

  /**
   * A success always carries exactly `{ tips }`, and tips whose `length` is
   * falsy have been replaced by the single tip `[aiText]`.
   */
  lemma TipsBodyShape(parse: Parser, aiText: string)
    ensures TipsResponse(parse, aiText).status in {200, 500}
    ensures TipsResponse(parse, aiText).status == 200 ==>
              exists tips :: TipsResponse(parse, aiText).body == JObj([("tips", tips)]) &&
                (tips == JArr([JStr(aiText)]) ||
                 (tips == RecoveredTips(parse, aiText) && Length(Some(tips)).Ok? && Truthy(Length(Some(tips)).value)))
  {
    var tips := RecoveredTips(parse, aiText);
    match Length(Some(tips))
    case Err(_) =>
    case Ok(len) =>
      var sent := if Truthy(len) then tips else JArr([JStr(aiText)]);
      assert TipsResponse(parse, aiText).body == JObj([("tips", sent)]);
  }

  /** No candidate text: the reply text is "[]", which parses to `[]`, so the tips are `["[]"]`. */
  lemma MissingCandidate(parse: Parser)
    requires parse("[]") == Some(JArr([]))
    ensures TipsResponse(parse, CandidateText(None, "[]")) ==
              Response(200, JObj([("tips", JArr([JStr("[]")]))]))
  {
  }

  /**
   * A reply of `null` without a bracketed array in it makes `tips.length`
   * throw, and the handler answers 500 instead of falling back.
   */
  lemma NullReplyFails(parse: Parser, aiText: string)
    requires parse(aiText) == Some(JNull)
    requires ParseSpan(parse, aiText, '[', ']').None?
    ensures TipsResponse(parse, aiText) == Caught(ReadError(Some(JNull), "length"))
    ensures TipsResponse(parse, aiText).status == 500
  {
  }

  /** A reply that is a non-empty JSON string reaches the client as `tips`, though it is not an array. */
  lemma StringReplySurvives(parse: Parser, aiText: string, s: string)
    requires parse(aiText) == Some(JStr(s)) && s != ""
    requires ParseSpan(parse, aiText, '[', ']').None?
    ensures TipsResponse(parse, aiText) == Response(200, JObj([("tips", JStr(s))]))
  {
  }
}
