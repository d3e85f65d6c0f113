/** The string operations the component applies: JavaScript's `trim`, a
    lower-casing for ASCII letters, `includes`, and the 60-character
    shortening of a run name. */
module Text {

  /** The characters JavaScript's `String.prototype.trim` strips: white space
      and line terminators. */
  predicate IsJsWhitespace(c: char)
  {
    c == '\t' || c == '\n' || c == '\U{000B}' || c == '\U{000C}' || c == '\r' || c == ' '
    || c == '\U{00A0}' || c == '\U{1680}' || ('\U{2000}' <= c <= '\U{200A}')
    || c == '\U{2028}' || c == '\U{2029}' || c == '\U{202F}' || c == '\U{205F}'
    || c == '\U{3000}' || c == '\U{FEFF}'
  }

  /** `s` without its leading white space: a suffix of `s` that starts with a
      non-white-space character, and only white space was removed. */
  function TrimStart(s: string): (r: string)
    ensures |r| <= |s| && r == s[|s| - |r|..]
    ensures r == [] || !IsJsWhitespace(r[0])
    ensures forall i :: 0 <= i < |s| - |r| ==> IsJsWhitespace(s[i])
    ensures (forall i :: 0 <= i < |s| ==> IsJsWhitespace(s[i])) ==> r == []
  {
    if s == [] || !IsJsWhitespace(s[0]) then s else TrimStart(s[1..])
  }

  /** `s` without its trailing white space: a prefix of `s` that ends with a
      non-white-space character, and only white space was removed. */
  function TrimEnd(s: string): (r: string)
    ensures |r| <= |s| && r == s[..|r|]
    ensures r == [] || !IsJsWhitespace(r[|r| - 1])
    ensures forall i :: |r| <= i < |s| ==> IsJsWhitespace(s[i])
  {
    if s == [] || !IsJsWhitespace(s[|s| - 1]) then s else TrimEnd(s[..|s| - 1])
  }

  function Trim(s: string): string
  {
    TrimEnd(TrimStart(s))
  }

  /** `!text.trim()`: the text is empty once trimmed. */
  predicate IsBlank(s: string)
  {
    Trim(s) == []
  }

  /** A text is blank exactly when every character of it is white space. */
  lemma BlankIffAllWhitespace(s: string)
    ensures IsBlank(s) <==> forall i :: 0 <= i < |s| ==> IsJsWhitespace(s[i])
  {
    var t := TrimStart(s);
    if IsBlank(s) {
      assert t == [];
    }
  }

  /** Lower-cases the ASCII letters and leaves every other character alone. */
  function LowerAscii(s: string): (r: string)
    ensures |r| == |s|
    ensures forall i :: 0 <= i < |s| ==>
      r[i] == (if 'A' <= s[i] <= 'Z' then (s[i] as int + 32) as char else s[i])
  {
    if s == [] then []
    else [if 'A' <= s[0] <= 'Z' then (s[0] as int + 32) as char else s[0]] + LowerAscii(s[1..])
  }

  /** JavaScript's `s.includes(q)`: `q` occurs in `s` as a contiguous piece. */
  predicate Includes(s: string, q: string)
  {
    exists i :: 0 <= i <= |s| - |q| && OccursAt(s, q, i)
  }

  predicate OccursAt(s: string, q: string, i: int)
  {
    0 <= i <= |s| - |q| && s[i..i + |q|] == q
  }

  /** The 60-character cap on a run name, with an ellipsis when cut. */
  function Shorten(p: string): (r: string)
    ensures |p| <= 60 ==> r == p
    ensures |p| > 60 ==> |r| == 61 && r[..60] == p[..60] && r[60] == '\U{2026}'
  {
    if |p| > 60 then p[..60] + "\U{2026}" else p
  }
}
