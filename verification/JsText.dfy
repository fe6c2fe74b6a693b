/** The values and string helpers that the TypeScript sources lean on. */
module JsText {
  /** A field of a JSON readback; `Other` covers booleans, lists, objects and
      numbers that are not finite. */
  datatype Field = Absent | Null | Num(n: real) | Text(s: string) | Other

  /** The `length` of a string: its UTF-16 code units. */
  function Utf16Length(s: string): nat {
    if s == [] then 0 else (if s[0] < '\U{10000}' then 1 else 2) + Utf16Length(s[1..])
  }

  /** White space and line terminators of ECMA-262, which `trim` strips. */
  predicate IsJsSpace(c: char) {
    || '\U{9}' <= c <= '\U{D}' || c == ' ' || c == '\U{A0}' || c == '\U{1680}'
    || '\U{2000}' <= c <= '\U{200A}' || c == '\U{2028}' || c == '\U{2029}' || c == '\U{202F}'
    || c == '\U{205F}' || c == '\U{3000}' || c == '\U{FEFF}'
  }

  function JsTrimStart(s: string): (t: string)
    ensures t == [] || !IsJsSpace(t[0])
    ensures s != [] && !IsJsSpace(s[0]) ==> t == s
  {
    if s != [] && IsJsSpace(s[0]) then JsTrimStart(s[1..]) else s
  }

  function JsTrimEnd(s: string): (t: string)
    ensures t == [] || !IsJsSpace(t[|t| - 1])
    ensures t <= s
    ensures s != [] && !IsJsSpace(s[|s| - 1]) ==> t == s
  {
    if s != [] && IsJsSpace(s[|s| - 1]) then JsTrimEnd(s[..|s| - 1]) else s
  }

  function JsTrim(s: string): string {
    JsTrimEnd(JsTrimStart(s))
  }

  lemma {:induction false} JsTrimIdempotent(s: string)
    ensures JsTrim(JsTrim(s)) == JsTrim(s)
  {
  }
}
