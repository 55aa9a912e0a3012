/** The few JavaScript built-ins whose behaviour the app relies on:
    array indexing that yields `undefined` out of range, string truthiness,
    and `String.prototype.trim`. */
module Js {

  /** A JavaScript value that may be `undefined` (or `null`). */
  datatype Option<+T> = None | Some(value: T)

  /** `xs[i]` on a JavaScript array: the element when `i` is an index of `xs`,
      `undefined` otherwise (negative and too-large indices alike). */
  function Lookup<T>(xs: seq<T>, i: int): Option<T>
  {
    if 0 <= i < |xs| then Some(xs[i]) else None
  }

  /** `x ?? fallback`: the fallback only when `x` is `undefined`. */
  function OrElse<T>(x: Option<T>, fallback: T): T
  {
    match x
    case Some(v) => v
    case None => fallback
  }

  /** A string is truthy in JavaScript exactly when it is not empty. */
  predicate Truthy(s: string)
  {
    s != ""
  }

  /** The characters `trim` removes: ECMAScript WhiteSpace (tab, vertical tab,
      form feed, space, no-break space, byte order mark and the Space_Separator
      category) and LineTerminator (line feed, carriage return, line and
      paragraph separators). */
  predicate IsWhiteSpace(c: char)
  {
    c == '\t' || c == '\n' || c == '\U{B}' || c == '\U{C}' || c == '\r' ||
    c == ' ' || c == '\U{A0}' || c == '\U{1680}' ||
    ('\U{2000}' <= c <= '\U{200A}') ||
    c == '\U{2028}' || c == '\U{2029}' || c == '\U{202F}' || c == '\U{205F}' ||
    c == '\U{3000}' || c == '\U{FEFF}'
  }

  /** Every character of `s` is white space (vacuously true of ""). */
  predicate IsBlank(s: string)
  {
    forall i :: 0 <= i < |s| ==> IsWhiteSpace(s[i])
  }

  /** Leading white space removed: what is dropped is white space, and what
      remains is a suffix of `s` that is empty or starts with a non-space. */
  function TrimStart(s: string): (r: string)
    ensures |r| <= |s| && r == s[|s| - |r|..]
    ensures IsBlank(s[..|s| - |r|])
    ensures r != "" ==> !IsWhiteSpace(r[0])
  {
    if |s| > 0 && IsWhiteSpace(s[0]) then TrimStart(s[1..]) else s
  }

  /** Trailing white space removed: what is dropped is white space, and what
      remains is a prefix of `s` that is empty or ends with a non-space. */
  function TrimEnd(s: string): (r: string)
    ensures |r| <= |s| && r == s[..|r|]
    ensures IsBlank(s[|r|..])
    ensures r != "" ==> !IsWhiteSpace(r[|r| - 1])
  {
    if |s| > 0 && IsWhiteSpace(s[|s| - 1]) then TrimEnd(s[..|s| - 1]) else s
  }

  /** `s.trim()`. */
  function Trim(s: string): string
  {
    TrimEnd(TrimStart(s))
  }

  /** `!s.trim()` holds exactly for the blank strings: `trim` yields "" if and
      only if every character is white space. */
  lemma TrimEmptyIffBlank(s: string)
    ensures Trim(s) == "" <==> IsBlank(s)
  {
    var t := TrimStart(s);
    if Trim(s) == "" {
      assert IsBlank(t[0..]);
      assert s == s[..|s| - |t|] + t;
    }
  }
}
