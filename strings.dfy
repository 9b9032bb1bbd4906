/**
 * The string operations the handlers and pages rely on: substring inclusion
 * (`String.prototype.includes`), the greedy bracket match of the regular
 * expressions `/\{[\s\S]*\}/` and `/\[[\s\S]*\]/`, `substring(0, n)`, and the
 * decimal rendering of whole numbers in template literals.
 */
module Strings {
  import opened Outcomes

  // ---------------------------------------------------------------------------
  // Substring inclusion

  /** `t` occurs in `s` starting at index `i`. */
  ghost predicate OccursAt(s: string, t: string, i: int) {
    0 <= i && i + |t| <= |s| && s[i..i + |t|] == t
  }

  /** `s.includes(t)`: case-sensitive, character by character (a character is a Unicode scalar value). */
  predicate Includes(s: string, t: string)
    decreases |s|
  {
    (|t| <= |s| && s[..|t|] == t) || (s != [] && Includes(s[1..], t))
  }

  /** The scan agrees with "some position of `s` starts a copy of `t`". */
  lemma {:induction false} IncludesIff(s: string, t: string)
    ensures Includes(s, t) <==> exists i :: OccursAt(s, t, i)
    decreases |s|
  {
    if |t| <= |s| && s[..|t|] == t {
      assert OccursAt(s, t, 0);
    } else if s == [] {
      assert forall i :: !OccursAt(s, t, i);
    } else {
      IncludesIff(s[1..], t);
      if exists i :: OccursAt(s[1..], t, i) {
        var i :| OccursAt(s[1..], t, i);
        assert s[i + 1..i + 1 + |t|] == s[1..][i..i + |t|];
        assert OccursAt(s, t, i + 1);
      }
      if exists i :: OccursAt(s, t, i) {
        var i :| OccursAt(s, t, i);
        if i > 0 {
          assert s[1..][i - 1..i - 1 + |t|] == s[i..i + |t|];
          assert OccursAt(s[1..], t, i - 1);
        }
      }
    }
  }

  // ---------------------------------------------------------------------------
  // First and last occurrence of a character

  function FirstIndex(s: string, c: char): (r: Option<nat>)
    ensures r.Some? ==> r.value < |s| && s[r.value] == c
    ensures r.Some? ==> forall k :: 0 <= k < r.value ==> s[k] != c
    ensures r.None? ==> forall k :: 0 <= k < |s| ==> s[k] != c
  {
    if s == [] then None
    else if s[0] == c then Some(0)
    else match FirstIndex(s[1..], c)
      case None => None
      case Some(i) => Some(i + 1)
  }

  function LastIndex(s: string, c: char): (r: Option<nat>)
    ensures r.Some? ==> r.value < |s| && s[r.value] == c
    ensures r.Some? ==> forall k :: r.value < k < |s| ==> s[k] != c
    ensures r.None? ==> forall k :: 0 <= k < |s| ==> s[k] != c
  {
    if s == [] then None
    else if s[|s| - 1] == c then Some(|s| - 1)
    else LastIndex(s[..|s| - 1], c)
  }

  // ---------------------------------------------------------------------------
  // The greedy bracket match

  /**
   * `s[i..j]` is a match of the regular expression `open [\s\S]* close`:
   * it starts with `open`, ends with `close` and has at least those two units.
   */
  ghost predicate RegexMatch(s: string, open: char, close: char, i: int, j: int) {
    0 <= i && i + 2 <= j <= |s| && s[i] == open && s[j - 1] == close
  }

  /**
   * The match `String.prototype.match` reports: the leftmost start, and from
   * that start the longest extent (the `*` is greedy).
   */
  ghost predicate LeftmostLongest(s: string, open: char, close: char, i: int, j: int) {
    && RegexMatch(s, open, close, i, j)
    && forall i', j' :: RegexMatch(s, open, close, i', j') ==> i < i' || (i == i' && j' <= j)
  }

  /** From the first `open` to the last `close`, when that `close` comes after it. */
  function GreedySpan(s: string, open: char, close: char): (r: Option<(nat, nat)>)
    ensures r.Some? ==> r.value.0 + 2 <= r.value.1 <= |s|
  {
    match (FirstIndex(s, open), LastIndex(s, close))
    case (Some(i), Some(k)) => if i < k then Some((i, k + 1)) else None
    case _ => None
  }

  /** `s.match(/\{[\s\S]*\}/)?.[0]` for `open == '{'`, `close == '}'`. */
  function GreedyMatch(s: string, open: char, close: char): Option<string> {
    match GreedySpan(s, open, close)
    case None => None
    case Some((i, j)) => Some(s[i..j])
  }

  /**
   * The span exists exactly when some `close` follows the first `open`, and
   * then it is the leftmost-longest match of the regular expression; when it
   * does not exist, the regular expression matches nowhere.
   */
  lemma GreedySpanIsRegexMatch(s: string, open: char, close: char)
    ensures GreedySpan(s, open, close).Some? <==>
              (FirstIndex(s, open).Some? &&
               exists k :: FirstIndex(s, open).value < k < |s| && s[k] == close)
    ensures GreedySpan(s, open, close).None? <==>
              forall i, j :: !RegexMatch(s, open, close, i, j)
    ensures GreedySpan(s, open, close).Some? ==>
              LeftmostLongest(s, open, close, GreedySpan(s, open, close).value.0,
                              GreedySpan(s, open, close).value.1)
  {
    var first, last := FirstIndex(s, open), LastIndex(s, close);
    if first.Some? && last.Some? && first.value < last.value {
      var i, k := first.value, last.value;
      assert RegexMatch(s, open, close, i, k + 1);
      forall i', j' | RegexMatch(s, open, close, i', j')
        ensures i < i' || (i == i' && j' <= k + 1)
      {
        assert s[j' - 1] == close;
      }
    } else {
      forall i, j ensures !RegexMatch(s, open, close, i, j) {
        if 0 <= i && i + 2 <= j <= |s| && s[i] == open {
          assert first.Some? && first.value <= i < j - 1;
        }
      }
      if first.Some? {
        forall k | first.value < k < |s| ensures s[k] != close {
          if last.Some? { assert last.value <= first.value < k; }
        }
      }
    }
  }

  /** The match text runs from an `open` to a `close` and lies inside `s`. */
  lemma GreedyMatchShape(s: string, open: char, close: char)
    ensures GreedyMatch(s, open, close).Some? ==>
              var m := GreedyMatch(s, open, close).value;
              |m| >= 2 && m[0] == open && m[|m| - 1] == close &&
              exists i :: OccursAt(s, m, i)
  {
    if GreedySpan(s, open, close).Some? {
      var (i, j) := GreedySpan(s, open, close).value;
      assert OccursAt(s, s[i..j], i);
    }
  }

  // ---------------------------------------------------------------------------
  // substring(0, n)

  /** `s.substring(0, n)`: the first `n` units, or all of `s` when it is shorter. */
  function Truncate(s: string, n: nat): (r: string)
    ensures r <= s
    ensures |r| == if |s| <= n then |s| else n
  {
    if |s| <= n then s else s[..n]
  }

  // ---------------------------------------------------------------------------
  // Decimal numerals

  function DigitChar(d: nat): char
    requires d < 10
  {
    ['0', '1', '2', '3', '4', '5', '6', '7', '8', '9'][d]
  }

  /** `String(n)` for a whole number `n >= 0`. */
  function NatToString(n: nat): (r: string)
    ensures |r| >= 1
    ensures forall k :: 0 <= k < |r| ==> '0' <= r[k] <= '9'
    decreases n
  {
    if n < 10 then [DigitChar(n)] else NatToString(n / 10) + [DigitChar(n % 10)]
  }

  /** `String(n)` for any whole number `n`. */
  function IntToString(n: int): string {
    if n < 0 then "-" + NatToString(-n) else NatToString(n)
  }

  /** The value of a string of decimal digits. */
  function DecimalValue(s: string): nat {
    if s == [] then 0
    else
      var d := s[|s| - 1] as int - '0' as int;
      DecimalValue(s[..|s| - 1]) * 10 + (if 0 <= d < 10 then d else 0)
  }

  /** Reading back the numeral gives the number: the numeral names `n`. */
  lemma {:induction false} DecimalValueOfNatToString(n: nat)
    ensures DecimalValue(NatToString(n)) == n
    decreases n
  {
    var r := NatToString(n);
    if n < 10 {
      assert r[..|r| - 1] == [];
    } else {
      DecimalValueOfNatToString(n / 10);
      assert r[..|r| - 1] == NatToString(n / 10);
    }
  }

  /** Different numbers have different numerals. */
  lemma NatToStringInjective(m: nat, n: nat)
    ensures NatToString(m) == NatToString(n) ==> m == n
  {
    DecimalValueOfNatToString(m);
    DecimalValueOfNatToString(n);
  }

  // ---------------------------------------------------------------------------
  // Counting a character (used to count lines)

  function Count(s: string, c: char): nat {
    if s == [] then 0 else Count(s[..|s| - 1], c) + (if s[|s| - 1] == c then 1 else 0)
  }

  lemma {:induction false} CountAppend(a: string, b: string, c: char)
    ensures Count(a + b, c) == Count(a, c) + Count(b, c)
    decreases |b|
  {
    if b == [] {
      assert a + b == a;
    } else {
      CountAppend(a, b[..|b| - 1], c);
      assert (a + b)[..|a + b| - 1] == a + b[..|b| - 1];
    }
  }

  lemma {:induction false} CountAbsent(s: string, c: char)
    requires forall k :: 0 <= k < |s| ==> s[k] != c
    ensures Count(s, c) == 0
    decreases |s|
  {
    if s != [] {
      CountAbsent(s[..|s| - 1], c);
    }
  }
}
