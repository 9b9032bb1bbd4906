/**
 * The soil-management page: the analysis request to `/api/soil-analysis`,
 * how its outcome settles into the `result` and `error` state, and the choice
 * between the server's tips and the page's three static tips.
 */
module SoilManagementPage {
  import opened Outcomes
  import opened Strings
  import opened JsonValues

  const AnalyzeFailure := "Failed to analyze soil."
  const UnknownError := "Unknown error"

  /**
   * The outcome of `fetch` and `res.json()`: the fetch threw, or it answered
   * with its `ok` flag and the body's value (or the error reading it threw).
   */
  datatype Fetched = FetchThrew(error: JsError) | Answered(ok: bool, data: Result<Json, JsError>)

  /** What the `try` block leaves behind: `setResult(tips)`, or the message passed to `setError`. */
  datatype Settled = Tips(tips: Option<Json>) | Failed(message: string)

  /** `err.message || "Failed to analyze soil."`. */
  function CaughtMessage(e: JsError): string {
    if e.message == "" then AnalyzeFailure else e.message
  }

  /** `new Error(data.error || "Unknown error").message`: the message converted to a string. */
  function ReplyErrorMessage(errorField: Option<Json>): string {
    if Truthy(errorField) then Display(errorField) else UnknownError
  }

  /** How a completed request settles. */
  function Settle(outcome: Fetched): (s: Settled)
    ensures s.Failed? ==> s.message != ""
  {
    match outcome
    case FetchThrew(e) => Failed(CaughtMessage(e))
    case Answered(_, Err(e)) => Failed(CaughtMessage(e))
    case Answered(ok, Ok(data)) =>
      var field := if ok then "tips" else "error";
      match Get(Some(data), field)
      case Err(e) => Failed(CaughtMessage(e))
      case Ok(v) =>
        if ok then Tips(v) else Failed(CaughtMessage(JsError("Error", ReplyErrorMessage(v))))
  }

  /** `JSON.stringify({ location, soilType, ph, moisture })`, as a value. */
  function RequestJson(location: string, soilType: string, ph: string, moisture: string): Json {
    JObj([("location", JStr(location)), ("soilType", JStr(soilType)), ("ph", JStr(ph)), ("moisture", JStr(moisture))])
  }

  // ---------------------------------------------------------------------------
  // The tips shown

  datatype TipCard = TipCard(title: string, body: string)

  const StaticTips: seq<TipCard> := [
    TipCard("Add Organic Matter", "Incorporate compost or manure to improve soil fertility and structure."),
    TipCard("Maintain Moisture", "Mulch your soil to retain moisture and reduce evaporation."),
    TipCard("Monitor Temperature", "Keep an eye on soil temperature for optimal plant growth.")
  ]

  /** `Array.isArray(result) && result.length > 0`. */
  predicate ServerTips(result: Option<Json>) {
    result.Some? && result.value.JArr? && |result.value.items| > 0
  }

  /**
   * What React renders for `{v}` as a child: `None` when rendering throws (an
   * object is not a valid child); `null` and booleans render nothing; an array
   * renders its elements one after another.
   */
  function ChildText(v: Json): Option<string>
    decreases v
  {
    match v
    case JNull => Some("")
    case JBool(_) => Some("")
    case JNum(n) => Some(IntToString(n))
    case JStr(s) => Some(s)
    case JObj(_) => None
    case JArr(items) => Concat(seq(|items|, i requires 0 <= i < |items| => ChildText(items[i])))
  }

  /** The texts one after another, or `None` as soon as one of them throws. */
  function Concat(parts: seq<Option<string>>): Option<string> {
    if parts == [] then Some("")
    else match parts[0]
      case None => None
      case Some(p) =>
        match Concat(parts[1..])
        case None => None
        case Some(rest) => Some(p + rest)
  }

  /** The concatenation throws exactly when one of the parts does. */
  lemma {:induction false} ConcatNone(parts: seq<Option<string>>)
    ensures Concat(parts).None? <==> exists k :: 0 <= k < |parts| && parts[k].None?
  {
    if parts != [] {
      ConcatNone(parts[1..]);
      if exists k :: 0 <= k < |parts[1..]| && parts[1..][k].None? {
        var k :| 0 <= k < |parts[1..]| && parts[1..][k].None?;
        assert parts[k + 1].None?;
      }
      if exists k :: 0 <= k < |parts| && parts[k].None? {
        var k :| 0 <= k < |parts| && parts[k].None?;
        if k > 0 {
          assert parts[1..][k - 1].None?;
        }
      }
    }
  }

  /**
   * How entries render: a string as itself, a number as its numeral, `null`
   * and booleans as nothing; an object throws, and so does an array holding
   * one, while an array of strings shows them run together.
   */
  lemma ChildTextCases(items: seq<Json>, a: string, b: string)
    ensures forall s :: ChildText(JStr(s)) == Some(s)
    ensures forall n :: ChildText(JNum(n)) == Some(IntToString(n))
    ensures ChildText(JNull) == Some("") && ChildText(JBool(true)) == Some("") && ChildText(JBool(false)) == Some("")
    ensures forall fields :: ChildText(JObj(fields)) == None
    ensures ChildText(JArr(items)).None? <==> exists k :: 0 <= k < |items| && ChildText(items[k]).None?
    ensures ChildText(JArr([JStr(a), JStr(b)])) == Some(a + b)
  {
    var parts := seq(|items|, i requires 0 <= i < |items| => ChildText(items[i]));
    ConcatNone(parts);
    assert forall k :: 0 <= k < |items| ==> parts[k] == ChildText(items[k]);
    var two := seq(2, i requires 0 <= i < 2 => ChildText([JStr(a), JStr(b)][i]));
    assert two == [Some(a), Some(b)];
    assert two[1..] == [Some(b)] && two[1..][1..] == [];
    assert b + "" == b;
    assert Concat(two[1..]) == Some(b);
  }

  /** Every server tip renders. */
  ghost predicate AllRender(items: seq<Json>) {
    forall k :: 0 <= k < |items| ==> ChildText(items[k]).Some?
  }

  /**
   * The cards rendered: "Tip 1" to "Tip n" with each entry as React renders it
   * for server tips, otherwise the static ones; `None` when an entry makes the
   * render throw.
   */
  function TipCards(result: Option<Json>): (cards: Option<seq<TipCard>>)
    ensures ServerTips(result) ==> (cards.Some? <==> AllRender(result.value.items))
    ensures ServerTips(result) && cards.Some? ==>
              && |cards.value| == |result.value.items|
              && forall k :: 0 <= k < |cards.value| ==>
                   cards.value[k] == TipCard("Tip " + NatToString(k + 1), ChildText(result.value.items[k]).value)
    ensures !ServerTips(result) ==> cards == Some(StaticTips)
  {
    if ServerTips(result) then
      var items := result.value.items;
      if forall k :: 0 <= k < |items| ==> ChildText(items[k]).Some? then
        Some(seq(|items|, k requires 0 <= k < |items| => TipCard("Tip " + NatToString(k + 1), ChildText(items[k]).value)))
      else None
    else Some(StaticTips)
  }

  /** The static tips are shown exactly when there are no server tips. */
  lemma StaticTipsIff(result: Option<Json>)
    ensures TipCards(result) == Some(StaticTips) <==> !ServerTips(result)
  {
    if ServerTips(result) && TipCards(result).Some? {
      var first := TipCards(result).value[0].title;
      assert first == "Tip " + NatToString(1);
      assert first[0] == 'T' != StaticTips[0].title[0];
    }
  }

  // ---------------------------------------------------------------------------
  // The page state

  class Page {
    var location: string
    var soilType: string
    var ph: string
    var moisture: string
    var isAnalyzing: bool
    /** `result`; `None` stands for both `null` and `undefined`, which render alike. */
    var result: Option<Json>
    var error: Option<string>

    constructor ()
      ensures location == "" && soilType == "" && ph == "" && moisture == ""
      ensures !isAnalyzing && result == None && error == None
    {
      location, soilType, ph, moisture := "", "", "", "";
      isAnalyzing, result, error := false, None, None;
    }

    method SetLocation(value: string)
      modifies this
      ensures location == value && soilType == old(soilType) && ph == old(ph) && moisture == old(moisture)
      ensures isAnalyzing == old(isAnalyzing) && result == old(result) && error == old(error)
    {
      location := value;
    }

    method SetSoilType(value: string)
      modifies this
      ensures soilType == value && location == old(location) && ph == old(ph) && moisture == old(moisture)
      ensures isAnalyzing == old(isAnalyzing) && result == old(result) && error == old(error)
    {
      soilType := value;
    }

    method SetMoisture(value: string)
      modifies this
      ensures moisture == value && location == old(location) && soilType == old(soilType) && ph == old(ph)
      ensures isAnalyzing == old(isAnalyzing) && result == old(result) && error == old(error)
    {
      moisture := value;
    }

    method SetPh(value: string)
      modifies this
      ensures ph == value && location == old(location) && soilType == old(soilType) && moisture == old(moisture)
      ensures isAnalyzing == old(isAnalyzing) && result == old(result) && error == old(error)
    {
      ph := value;
    }

    /** `disabled={isAnalyzing}`. */
    predicate AnalyzeDisabled()
      reads this
    {
      isAnalyzing
    }

    /** The start of `handleAnalyze`, up to the request it sends. */
    method StartAnalyze() returns (body: Json)
      modifies this
      ensures isAnalyzing && result == None && error == None
      ensures location == old(location) && soilType == old(soilType) && ph == old(ph) && moisture == old(moisture)
      ensures body == RequestJson(location, soilType, ph, moisture)
    {
      isAnalyzing := true;
      result := None;
      error := None;
      body := RequestJson(location, soilType, ph, moisture);
    }

    /** The rest of `handleAnalyze`, once the request has an outcome; `finally` ends the analysis. */
    method CompleteAnalyze(outcome: Fetched)
      modifies this
      ensures !isAnalyzing
      ensures Settle(outcome).Tips? ==> result == Settle(outcome).tips && error == old(error)
      ensures Settle(outcome).Failed? ==> error == Some(Settle(outcome).message) && result == old(result)
      ensures location == old(location) && soilType == old(soilType) && ph == old(ph) && moisture == old(moisture)
    {
      match outcome {
        case FetchThrew(e) =>
          error := Some(CaughtMessage(e));
        case Answered(ok, data) =>
          if data.Err? {
            error := Some(CaughtMessage(data.error));
          } else if !ok {
            var field := Get(Some(data.value), "error");
            if field.Err? {
              error := Some(CaughtMessage(field.error));
            } else {
              error := Some(CaughtMessage(JsError("Error", ReplyErrorMessage(field.value))));
            }
          } else {
            var tips := Get(Some(data.value), "tips");
            if tips.Err? {
              error := Some(CaughtMessage(tips.error));
            } else {
              result := tips.value;
            }
          }
      }
      isAnalyzing := false;
    }
  }

  // ---------------------------------------------------------------------------
  // Properties of the settling

  /**
   * An OK answer sets the result to its `tips`; a non-OK one without `error`
   * reports "Unknown error"; a thrown error without a message reports the
   * page's own failure text; a body of `null` fails on reading its member.
   */
  lemma SettleCases(fields: seq<(string, Json)>, e: JsError, ok: bool)
    ensures Settle(Answered(true, Ok(JObj(fields)))) == Tips(Lookup(fields, "tips"))
    ensures Lookup(fields, "error").None? ==> Settle(Answered(false, Ok(JObj(fields)))) == Failed(UnknownError)
    ensures Settle(FetchThrew(e)) == Failed(if e.message == "" then AnalyzeFailure else e.message)
    ensures Settle(Answered(ok, Ok(JNull))) == Failed(ReadError(Some(JNull), if ok then "tips" else "error").message)
  {
  }

  /** A non-OK answer whose `error` is a non-empty string shows that string. */
  lemma ReplyErrorShown(fields: seq<(string, Json)>, message: string)
    requires Lookup(fields, "error") == Some(JStr(message)) && message != ""
    ensures Settle(Answered(false, Ok(JObj(fields)))) == Failed(message)
  {
  }
}
