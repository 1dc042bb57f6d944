/** Shared value types: an optional value and the trimming used on text lines. */
module Prelude {

  datatype Option<+T> = None | Some(value: T)

  /** The ASCII white space that JavaScript's `trim` removes. */
  predicate IsBlankChar(c: char) {
    c == ' ' || c == '\t' || c == '\n' || c == '\r' || c as int == 11 || c as int == 12
  }

  function TrimStart(s: string): string {
    if s != "" && IsBlankChar(s[0]) then TrimStart(s[1..]) else s
  }

  function TrimEnd(s: string): string {
    if s != "" && IsBlankChar(s[|s| - 1]) then TrimEnd(s[..|s| - 1]) else s
  }

  function Trim(s: string): string {
    TrimEnd(TrimStart(s))
  }

  predicate IsBlank(s: string) {
    forall i | 0 <= i < |s| :: IsBlankChar(s[i])
  }

  /** Trimming takes blanks off both ends, all of them, and nothing else. */
  predicate IsTrimmed(s: string) {
    s != "" ==> !IsBlankChar(s[0]) && !IsBlankChar(s[|s| - 1])
  }

  lemma {:induction false} TrimStartIsExact(s: string) returns (before: string)
    ensures s == before + TrimStart(s) && IsBlank(before)
    ensures TrimStart(s) != "" ==> !IsBlankChar(TrimStart(s)[0])
  {
    if s != "" && IsBlankChar(s[0]) {
      var rest := TrimStartIsExact(s[1..]);
      before := [s[0]] + rest;
      assert s == [s[0]] + s[1..];
    } else {
      before := "";
    }
  }

  lemma {:induction false} TrimEndIsExact(s: string) returns (after: string)
    ensures s == TrimEnd(s) + after && IsBlank(after)
    ensures TrimEnd(s) != "" ==> !IsBlankChar(TrimEnd(s)[|TrimEnd(s)| - 1])
  {
    if s != "" && IsBlankChar(s[|s| - 1]) {
      var rest := TrimEndIsExact(s[..|s| - 1]);
      after := rest + [s[|s| - 1]];
      assert s == s[..|s| - 1] + [s[|s| - 1]];
    } else {
      after := "";
    }
  }

  /** A text is its trimmed form between blanks, and the trimmed form neither begins nor ends with one. */
  lemma TrimIsExact(s: string) returns (before: string, after: string)
    ensures s == before + Trim(s) + after && IsBlank(before) && IsBlank(after) && IsTrimmed(Trim(s))
  {
    hide TrimStart, TrimEnd;
    before := TrimStartIsExact(s);
    after := TrimEndIsExact(TrimStart(s));
    if Trim(s) != "" { assert TrimStart(s)[0] == Trim(s)[0]; }
  }
}
