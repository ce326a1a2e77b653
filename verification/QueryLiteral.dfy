/** Escaping of ids inside Drive search queries. */
module QueryLiteral {
  import opened Common

  const BACKSLASH: char := '\\'
  const QUOTE: char := '\''

  /** Replaces every occurrence of one character by a string. */
  function ReplaceAll(s: string, c: char, replacement: string): string {
    if s == "" then "" else (if s[0] == c then replacement else [s[0]]) + ReplaceAll(s[1..], c, replacement)
  }

  /** The escape as the client computes it: backslashes first, then quotes. */
  function Escape(value: string): string {
    ReplaceAll(ReplaceAll(value, BACKSLASH, [BACKSLASH, BACKSLASH]), QUOTE, [BACKSLASH, QUOTE])
  }

  /** How Drive reads a literal: text up to the first quote that no backslash
      precedes, with each backslash standing for the character after it. The
      result is the value and what follows the closing quote. */
  function ReadLiteral(input: string): Option<(string, string)> {
    if input == "" then None
    else if input[0] == QUOTE then Some(("", input[1..]))
    else if input[0] == BACKSLASH then
      if |input| == 1 then None
      else match ReadLiteral(input[2..])
           case None => None
           case Some((value, rest)) => Some(([input[1]] + value, rest))
    else match ReadLiteral(input[1..])
         case None => None
         case Some((value, rest)) => Some(([input[0]] + value, rest))
  }

  function EscapeChar(c: char): (r: string)
    ensures r != "" && r[|r| - 1] == c
  {
    if c == BACKSLASH || c == QUOTE then [BACKSLASH, c] else [c]
  }

  lemma {:induction false} ReplaceAllAppend(s: string, t: string, c: char, replacement: string)
    ensures ReplaceAll(s + t, c, replacement) == ReplaceAll(s, c, replacement) + ReplaceAll(t, c, replacement)
  {
    if s == "" {
      assert s + t == t;
    } else {
      assert (s + t)[1..] == s[1..] + t;
      ReplaceAllAppend(s[1..], t, c, replacement);
    }
  }

  /** The two replace passes escape one character at a time: the second pass
      never touches a backslash the first one added. */
  lemma {:induction false} EscapeIsCharacterwise(value: string)
    requires value != ""
    ensures Escape(value) == EscapeChar(value[0]) + Escape(value[1..])
  {
    var first := if value[0] == BACKSLASH then [BACKSLASH, BACKSLASH] else [value[0]];
    var rest := ReplaceAll(value[1..], BACKSLASH, [BACKSLASH, BACKSLASH]);
    ReplaceAllAppend(first, rest, QUOTE, [BACKSLASH, QUOTE]);
    assert ReplaceAll(first, QUOTE, [BACKSLASH, QUOTE]) == EscapeChar(value[0]) by {
      assert first[1..] == (if value[0] == BACKSLASH then [BACKSLASH] else []);
      assert first[1..] != [] ==> first[1..][1..] == [];
    }
  }

  /** Reading an escaped value back gives that value and leaves the rest of the
      query untouched, whatever the value contains. */
  lemma {:induction false} EscapeRoundTrip(value: string, rest: string)
    ensures ReadLiteral(Escape(value) + [QUOTE] + rest) == Some((value, rest))
  {
    if value == "" {
      assert Escape(value) + [QUOTE] + rest == [QUOTE] + rest;
    } else {
      EscapeIsCharacterwise(value);
      EscapeRoundTrip(value[1..], rest);
      var head := EscapeChar(value[0]);
      var tail := Escape(value[1..]) + [QUOTE] + rest;
      assert Escape(value) + [QUOTE] + rest == head + tail;
      assert (head + tail)[|head|..] == tail;
      assert [value[0]] + value[1..] == value;
    }
  }

  /** Two ids never share an escaped form. */
  lemma EscapeInjective(a: string, b: string)
    requires Escape(a) == Escape(b)
    ensures a == b
  {
    EscapeRoundTrip(a, "");
    EscapeRoundTrip(b, "");
  }
}
