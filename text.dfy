/** Character-level helpers shared by the configuration parser and the number conversions. */
module Text {

  /** The whitespace set of the configuration parser, `" \t\r\n\v\f"`, which is also what C's `isspace` accepts. */
  predicate IsWhitespace(c: char) {
    c == ' ' || c == '\t' || c == '\r' || c == '\n' || c == 11 as char || c == 12 as char
  }

  predicate AllWhitespace(s: string) {
    forall k :: 0 <= k < |s| ==> IsWhitespace(s[k])
  }

  /** Index of the first non-whitespace character, or |s| when there is none (`find_first_not_of`). */
  function LeadingWhitespace(s: string): (i: nat)
    ensures i <= |s|
    ensures forall k :: 0 <= k < i ==> IsWhitespace(s[k])
    ensures i < |s| ==> !IsWhitespace(s[i])
  {
    if s == [] || !IsWhitespace(s[0]) then 0 else 1 + LeadingWhitespace(s[1..])
  }

  /** Length of the prefix ending at the last non-whitespace character, 0 when there is none
      (one past `find_last_not_of`). */
  function ContentEnd(s: string): (e: nat)
    ensures e <= |s|
    ensures forall k :: e <= k < |s| ==> IsWhitespace(s[k])
    ensures e > 0 ==> !IsWhitespace(s[e - 1])
  {
    if s == [] || !IsWhitespace(s[|s| - 1]) then |s| else ContentEnd(s[..|s| - 1])
  }

  /** Index of the first occurrence of `d`, or |s| when `d` does not occur. */
  function IndexOf(s: string, d: char): (i: nat)
    ensures i <= |s|
  {
    if s == [] || s[0] == d then 0 else 1 + IndexOf(s[1..], d)
  }

  /** `IndexOf` finds the first occurrence: none before it, and `d` at it unless it is |s|. */
  lemma {:induction false} IndexOfFirst(s: string, d: char)
    ensures forall k :: 0 <= k < IndexOf(s, d) ==> s[k] != d
    ensures IndexOf(s, d) < |s| ==> s[IndexOf(s, d)] == d
  {
    if s != [] && s[0] != d {
      IndexOfFirst(s[1..], d);
    }
  }

  /** Conversely, an index with no `d` before it and `d` at it (or the end) is `IndexOf`. */
  lemma {:induction false} IndexOfIs(s: string, d: char, i: nat)
    requires i <= |s|
    requires forall k :: 0 <= k < i ==> s[k] != d
    requires i < |s| ==> s[i] == d
    ensures IndexOf(s, d) == i
  {
    if i > 0 {
      IndexOfIs(s[1..], d, i - 1);
    }
  }

  /** Whitespace followed by a non-whitespace character (or nothing) is skipped exactly. */
  lemma {:induction false} LeadingWhitespaceOfPrefix(ws: string, t: string)
    requires AllWhitespace(ws)
    requires t == [] || !IsWhitespace(t[0])
    ensures LeadingWhitespace(ws + t) == |ws|
  {
    if ws != [] {
      assert (ws + t)[1..] == ws[1..] + t;
      LeadingWhitespaceOfPrefix(ws[1..], t);
    } else {
      assert ws + t == t;
    }
  }
}
