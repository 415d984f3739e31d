/** JavaScript's `trim`, `toLowerCase` and `toUpperCase`, the cases letter by letter in ASCII. */
module JsText {
  /** What `trim` removes. */
  predicate Space(c: char) {
    c in {' ', '\t', '\n', '\r', '\U{000B}', '\U{000C}', '\U{00A0}', '\U{1680}', '\U{2028}', '\U{2029}', '\U{202F}', '\U{205F}', '\U{3000}', '\U{FEFF}'}
    || '\U{2000}' <= c <= '\U{200A}'
  }

  function TrimStart(s: string): string {
    if s != [] && Space(s[0]) then TrimStart(s[1..]) else s
  }

  function TrimEnd(s: string): string {
    if s != [] && Space(s[|s| - 1]) then TrimEnd(s[..|s| - 1]) else s
  }

  function Trim(s: string): string { TrimEnd(TrimStart(s)) }

  function LowerChar(c: char): char {
    if 'A' <= c <= 'Z' then (c - 'A') + 'a' else c
  }

  function Lower(s: string): (r: string)
    ensures |r| == |s|
  {
    seq(|s|, i requires 0 <= i < |s| => LowerChar(s[i]))
  }

  function UpperChar(c: char): char {
    if 'a' <= c <= 'z' then (c - 'a') + 'A' else c
  }

  function Upper(s: string): (r: string)
    ensures |r| == |s|
  {
    seq(|s|, i requires 0 <= i < |s| => UpperChar(s[i]))
  }

  predicate Bare(s: string) {
    s == [] || (!Space(s[0]) && !Space(s[|s| - 1]))
  }

  predicate Lowered(s: string) {
    forall i :: 0 <= i < |s| ==> !('A' <= s[i] <= 'Z')
  }

  lemma {:induction false} TrimStartBare(s: string)
    ensures var r := TrimStart(s); r == [] || !Space(r[0])
  {
    if s != [] && Space(s[0]) {
      TrimStartBare(s[1..]);
    }
  }

  lemma {:induction false} TrimEndBare(s: string)
    ensures var r := TrimEnd(s); (r == [] || !Space(r[|r| - 1])) && r <= s
  {
    if s != [] && Space(s[|s| - 1]) {
      TrimEndBare(s[..|s| - 1]);
    }
  }

  lemma TrimBare(s: string)
    ensures Bare(Trim(s))
  {
    TrimStartBare(s);
    TrimEndBare(TrimStart(s));
  }

  lemma LowerBare(s: string)
    requires Bare(s)
    ensures Bare(Lower(s)) && Lowered(Lower(s))
  {
  }

  lemma BareStays(s: string)
    requires Bare(s) && Lowered(s)
    ensures Lower(Trim(s)) == s
  {
  }
}
