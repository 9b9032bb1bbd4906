/**
 * Best-effort recovery of a JSON value from the free text a model returns.
 * `JSON.parse` is left abstract: a `Parser` gives the value a text denotes, or
 * `None` where `JSON.parse` would throw. Only the order in which the
 * candidates are tried is modelled.
 */
module Recovery {
  import opened Outcomes
  import opened Strings
  import opened JsonValues

  /** `JSON.parse`: `Some(value)`, or `None` when it throws a SyntaxError. */
  type Parser = string -> Option<Json>

  /** `const match = text.match(/open[\s\S]*close/); match && JSON.parse(match[0])`. */
  function ParseSpan(parse: Parser, text: string, open: char, close: char): Option<Json> {
    match GreedyMatch(text, open, close)
    case None => None
    case Some(m) => parse(m)
  }

  /**
   * The chain of the disease and weather handlers: parse the whole text; if
   * that throws, parse the first-`{`-to-last-`}` substring; if there is none
   * or it throws too, keep `default`.
   */
  function WholeThenSpan(parse: Parser, text: string, default: Json): Json {
    match parse(text)
    case Some(v) => v
    case None => ParseSpan(parse, text, '{', '}').GetOr(default)
  }

  /** A substring of `text` that runs from a `{` to a `}`. */
  ghost predicate BraceSpanOf(text: string, m: string) {
    |m| >= 2 && m[0] == '{' && m[|m| - 1] == '}' && exists i :: OccursAt(text, m, i)
  }

  /**
   * The three steps, in order: a whole-text parse wins, and then nothing else
   * is looked at; otherwise the brace span is parsed; otherwise the default.
   */
  lemma WholeThenSpanOrder(parse: Parser, other: Parser, text: string, default: Json)
    ensures parse(text).Some? ==> WholeThenSpan(parse, text, default) == parse(text).value
    ensures parse(text).Some? && other(text) == parse(text) ==>
              WholeThenSpan(other, text, default) == WholeThenSpan(parse, text, default)
    ensures parse(text).None? && GreedyMatch(text, '{', '}').Some? ==>
              WholeThenSpan(parse, text, default) == parse(GreedyMatch(text, '{', '}').value).GetOr(default)
    ensures parse(text).None? && GreedyMatch(text, '{', '}').None? ==>
              WholeThenSpan(parse, text, default) == default
  {
  }

  /**
   * Whatever the parser does, the recovered value is the value of the whole
   * text, the value of a `{...}` substring of it, or the default.
   */
  lemma WholeThenSpanSources(parse: Parser, text: string, default: Json)
    ensures var r := WholeThenSpan(parse, text, default);
            || parse(text) == Some(r)
            || r == default
            || exists m :: BraceSpanOf(text, m) && parse(m) == Some(r)
  {
    GreedyMatchShape(text, '{', '}');
    var g := GreedyMatch(text, '{', '}');
    if parse(text).None? && g.Some? && parse(g.value).Some? {
      assert BraceSpanOf(text, g.value);
    }
  }

  /** With no whole-text parse, the span step looks only at the span's text. */
  lemma ParseSpanLocal(parse: Parser, other: Parser, text: string, open: char, close: char)
    requires GreedyMatch(text, open, close).Some?
    requires parse(GreedyMatch(text, open, close).value) == other(GreedyMatch(text, open, close).value)
    ensures ParseSpan(parse, text, open, close) == ParseSpan(other, text, open, close)
  {
  }
}
