/** The string operations the tracker applies to field values and to its
    static labels: JavaScript's `String.prototype.trim` (used by every
    "non-empty" test of the completion metrics), `toLowerCase` on the ASCII
    labels, and the checklist slug derivation. */
module JsText {

  /** A code point that `trim` strips: the ECMAScript WhiteSpace production
      (TAB, VT, FF, SPACE, NO-BREAK SPACE, ZERO WIDTH NO-BREAK SPACE and the
      Unicode "Zs" space separators) together with the LineTerminator
      production (LF, CR, LINE SEPARATOR, PARAGRAPH SEPARATOR). */
  predicate IsTrimmable(c: char) {
    || c == '\t' || c == '\n' || c == '\U{000B}' || c == '\U{000C}' || c == '\r'
    || c == ' ' || c == '\U{00A0}' || c == '\U{1680}'
    || ('\U{2000}' <= c <= '\U{200A}')
    || c == '\U{2028}' || c == '\U{2029}' || c == '\U{202F}' || c == '\U{205F}'
    || c == '\U{3000}' || c == '\U{FEFF}'
  }

  /** Drops the leading trimmable code points: the result is the suffix of
      `s` that starts at its first non-trimmable code point. */
  function TrimStart(s: string): (r: string)
    ensures |r| <= |s| && r == s[|s| - |r|..]
    ensures forall i :: 0 <= i < |s| - |r| ==> IsTrimmable(s[i])
    ensures r == [] || !IsTrimmable(r[0])
  {
    if s != [] && IsTrimmable(s[0]) then TrimStart(s[1..]) else s
  }

  /** Drops the trailing trimmable code points: the result is the prefix of
      `s` that ends at its last non-trimmable code point. */
  function TrimEnd(s: string): (r: string)
    ensures |r| <= |s| && r == s[..|r|]
    ensures forall i :: |r| <= i < |s| ==> IsTrimmable(s[i])
    ensures r == [] || !IsTrimmable(r[|r| - 1])
  {
    if s != [] && IsTrimmable(s[|s| - 1]) then TrimEnd(s[..|s| - 1]) else s
  }

  /** `s.trim()`: the contiguous piece `s[a..a + |r|]` left after cutting
      a trimmable prefix and a trimmable suffix, where `a` is the length of
      the leading run of trimmable code points. The piece neither starts
      nor ends with a trimmable code point, so no longer cut is possible. */
  function Trim(s: string): (r: string)
    ensures var a := |s| - |TrimStart(s)|;
      && a + |r| <= |s|
      && r == s[a..a + |r|]
      && (forall i :: 0 <= i < a ==> IsTrimmable(s[i]))
      && (forall i :: a + |r| <= i < |s| ==> IsTrimmable(s[i]))
    ensures r == [] || (!IsTrimmable(r[0]) && !IsTrimmable(r[|r| - 1]))
  {
    TrimEnd(TrimStart(s))
  }

  /** The test `v.trim() !== ''` negated: the value counts as empty because
      every one of its code points is trimmable ("" included). */
  predicate IsBlank(s: string) {
    forall i :: 0 <= i < |s| ==> IsTrimmable(s[i])
  }

  /** `v.trim() === ''` holds exactly when the value is blank: the metrics'
      emptiness test may be read either way. */
  lemma TrimEmptyIffBlank(s: string)
    ensures Trim(s) == "" <==> IsBlank(s)
  {
  }

  /** Whether `c` is an ASCII capital letter. */
  predicate IsAsciiUpper(c: char) {
    'A' <= c <= 'Z'
  }

  /** `toLowerCase` on one ASCII code point. */
  function LowerChar(c: char): (l: char)
    ensures !IsAsciiUpper(l)
    ensures IsAsciiUpper(c) ==> l as int - c as int == 'a' as int - 'A' as int
    ensures !IsAsciiUpper(c) ==> l == c
  {
    if IsAsciiUpper(c) then (c as int - 'A' as int + 'a' as int) as char else c
  }

  /** `toLowerCase` on a string whose letters are ASCII. */
  function ToLowerAscii(s: string): (r: string)
    ensures |r| == |s|
    ensures forall i :: 0 <= i < |r| ==> !IsAsciiUpper(r[i])
    ensures forall i :: 0 <= i < |s| && !IsAsciiUpper(s[i]) ==> r[i] == s[i]
    ensures forall i :: 0 <= i < |s| && IsAsciiUpper(s[i]) ==> r[i] as int == s[i] as int + ('a' as int - 'A' as int)
  {
    seq(|s|, i requires 0 <= i < |s| => LowerChar(s[i]))
  }

  /** `replace(/ /g, '-')`: every space becomes a hyphen. */
  function ReplaceSpaces(s: string): (r: string)
    ensures |r| == |s|
    ensures ' ' !in r
    ensures forall i :: 0 <= i < |s| && s[i] != ' ' ==> r[i] == s[i]
    ensures forall i :: 0 <= i < |s| && s[i] == ' ' ==> r[i] == '-'
  {
    seq(|s|, i requires 0 <= i < |s| => if s[i] == ' ' then '-' else s[i])
  }

  /** The persisted identifier of a checklist item:
      `item.toLowerCase().replace(/ /g, '-')`. Position by position, a space
      becomes a hyphen, an ASCII capital its small letter, and every other
      code point stays. */
  function Slug(item: string): (r: string)
    ensures |r| == |item|
    ensures ' ' !in r
    ensures forall i :: 0 <= i < |r| ==> !IsAsciiUpper(r[i])
    ensures forall i :: 0 <= i < |item| && item[i] == ' ' ==> r[i] == '-'
    ensures forall i :: 0 <= i < |item| && IsAsciiUpper(item[i]) ==> r[i] as int == item[i] as int + ('a' as int - 'A' as int)
    ensures forall i :: 0 <= i < |item| && item[i] != ' ' && !IsAsciiUpper(item[i]) ==> r[i] == item[i]
  {
    ReplaceSpaces(ToLowerAscii(item))
  }

  /** Deriving a slug from a slug changes nothing: slugs are fixed points. */
  lemma SlugIdempotent(item: string)
    ensures Slug(Slug(item)) == Slug(item)
  {
  }
}
