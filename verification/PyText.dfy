/** Python's `str.splitlines`, `strip` and `join`, and what of a text survives them: its lines
    that are neither blank nor comments. */
module PyText {
  import Sequences

  /** Where `splitlines` breaks; "\r\n" is one break. */
  predicate IsBreak(c: char) {
    c in {'\n', '\r', '\U{000B}', '\U{000C}', '\U{001C}', '\U{001D}', '\U{001E}', '\U{0085}', '\U{2028}', '\U{2029}'}
  }

  /** `str.isspace`, which is also what `\s` matches. */
  predicate Space(c: char) {
    IsBreak(c)
    || c in {'\t', ' ', '\U{001F}', '\U{00A0}', '\U{1680}', '\U{202F}', '\U{205F}', '\U{3000}'}
    || '\U{2000}' <= c <= '\U{200A}'
  }

  function TrimStart(s: string): string {
    if s != [] && Space(s[0]) then TrimStart(s[1..]) else s
  }

  function TrimEnd(s: string): string {
    if s != [] && Space(s[|s| - 1]) then TrimEnd(s[..|s| - 1]) else s
  }

  function Strip(s: string): string { TrimEnd(TrimStart(s)) }

  function FirstBreak(s: string): (n: nat)
    ensures n <= |s| && (n < |s| ==> IsBreak(s[n])) && forall i :: 0 <= i < n ==> !IsBreak(s[i])
  {
    if s == [] || IsBreak(s[0]) then 0 else 1 + FirstBreak(s[1..])
  }

  function SplitLines(s: string): seq<string>
    decreases |s|
  {
    var n := FirstBreak(s);
    if s == [] then []
    else if n == |s| then [s]
    else if s[n] == '\r' && n + 1 < |s| && s[n + 1] == '\n' then [s[..n]] + SplitLines(s[n + 2..])
    else [s[..n]] + SplitLines(s[n + 1..])
  }

  function Join(lines: seq<string>): string {
    if lines == [] then "" else if |lines| == 1 then lines[0] else lines[0] + "\n" + Join(lines[1..])
  }

  /** The line means nothing: it is blank or a comment. */
  predicate Idle(line: string) {
    Strip(line) == [] || Strip(line)[0] == '#'
  }

  /** The other lines, stripped. */
  function Code(lines: seq<string>): seq<string> {
    if lines == [] then [] else (if Idle(lines[0]) then [] else [Strip(lines[0])]) + Code(lines[1..])
  }

  lemma {:induction false} CodeSplit(a: seq<string>, b: seq<string>)
    ensures Code(a + b) == Code(a) + Code(b)
  {
    if a == [] {
      assert a + b == b;
    } else {
      hide Idle, Strip;
      CodeSplit(a[1..], b);
      Sequences.TailOfConcat(a, b);
      Sequences.Assoc(if Idle(a[0]) then [] else [Strip(a[0])], Code(a[1..]), Code(b));
    }
  }

  // Cutting at every break

  /** The pieces between the breaks, one more than there are breaks. */
  function Pieces(s: string): seq<string>
    decreases |s|
  {
    var n := FirstBreak(s);
    if n == |s| then [s] else [s[..n]] + Pieces(s[n + 1..])
  }

  predicate Unbroken(s: string) {
    forall i :: 0 <= i < |s| ==> !IsBreak(s[i])
  }

  lemma IdleEmpty()
    ensures Code([""]) == []
  {
  }

  lemma CodeOfEmptyFirst(lines: seq<string>)
    ensures Code([""] + lines) == Code(lines)
  {
    IdleEmpty();
    CodeSplit([""], lines);
  }

  lemma CodeOfFirst(line: string, a: seq<string>, b: seq<string>)
    requires Code(a) == Code(b)
    ensures Code([line] + a) == Code([line] + b)
  {
    CodeSplit([line], a);
    CodeSplit([line], b);
  }

  /** "\r\n" and a missing last line make a difference only in blank lines. */
  lemma {:induction false} SplitLinesIsPieces(s: string)
    ensures Code(SplitLines(s)) == Code(Pieces(s))
    decreases |s|
  {
    var n := FirstBreak(s);
    if s == [] {
      IdleEmpty();
    } else if n < |s| {
      if s[n] == '\r' && n + 1 < |s| && s[n + 1] == '\n' {
        var rest := s[n + 1..];
        assert FirstBreak(rest) == 0;
        assert rest[..0] == "" && rest[1..] == s[n + 2..];
        SplitLinesIsPieces(s[n + 2..]);
        CodeOfEmptyFirst(Pieces(s[n + 2..]));
        assert Pieces(rest) == [""] + Pieces(s[n + 2..]);
        CodeOfFirst(s[..n], SplitLines(s[n + 2..]), Pieces(rest));
      } else {
        SplitLinesIsPieces(s[n + 1..]);
        CodeOfFirst(s[..n], SplitLines(s[n + 1..]), Pieces(s[n + 1..]));
      }
    }
  }

  lemma {:induction false} SplitLinesUnbroken(s: string)
    ensures forall line :: line in SplitLines(s) ==> Unbroken(line)
    decreases |s|
  {
    var n := FirstBreak(s);
    if s != [] && n < |s| {
      if s[n] == '\r' && n + 1 < |s| && s[n + 1] == '\n' {
        SplitLinesUnbroken(s[n + 2..]);
      } else {
        SplitLinesUnbroken(s[n + 1..]);
      }
    }
  }

  lemma {:induction false} PiecesUnbroken(s: string)
    ensures forall piece :: piece in Pieces(s) ==> Unbroken(piece)
    decreases |s|
  {
    var n := FirstBreak(s);
    if n < |s| {
      PiecesUnbroken(s[n + 1..]);
    }
  }

  lemma FirstBreakOf(a: string, b: string)
    ensures FirstBreak(a) < |a| ==> FirstBreak(a + b) == FirstBreak(a)
    ensures FirstBreak(a) == |a| ==> FirstBreak(a + b) == |a| + FirstBreak(b)
  {
    var n, m := FirstBreak(a), FirstBreak(a + b);
    if n < |a| {
      assert (a + b)[n] == a[n];
      assert forall i :: 0 <= i < n ==> (a + b)[i] == a[i];
    } else {
      assert forall i :: 0 <= i < FirstBreak(b) ==> (a + b)[|a| + i] == b[i];
      assert forall i :: 0 <= i < |a| ==> (a + b)[i] == a[i];
      if FirstBreak(b) < |b| {
        assert (a + b)[|a| + FirstBreak(b)] == b[FirstBreak(b)];
      }
      if m < |a + b| && m >= |a| {
        assert (a + b)[m] == b[m - |a|];
      }
    }
  }

  lemma CutAtFirst(s: string, n: nat)
    requires n == FirstBreak(s) < |s|
    ensures Pieces(s) == [s[..n]] + Pieces(s[n + 1..])
  {
  }

  lemma SlicesOfApart(a: string, c: char, b: string, n: nat)
    requires n < |a|
    ensures (a + [c] + b)[..n] == a[..n] && (a + [c] + b)[n + 1..] == a[n + 1..] + [c] + b
  {
  }

  lemma FirstBreakApart(a: string, c: char, b: string)
    requires IsBreak(c)
    ensures FirstBreak(a + [c] + b) == FirstBreak(a) < |a + [c] + b|
  {
    assert a + [c] + b == a + ([c] + b);
    FirstBreakOf(a, [c] + b);
    assert FirstBreak([c] + b) == 0;
  }

  /** A break between two texts keeps their pieces apart. */
  lemma {:induction false} PiecesApart(a: string, c: char, b: string)
    requires IsBreak(c)
    ensures Pieces(a + [c] + b) == Pieces(a) + Pieces(b)
    decreases |a|
  {
    hide IsBreak, FirstBreak;
    var n := FirstBreak(a);
    FirstBreakApart(a, c, b);
    if n == |a| {
      assert (a + [c] + b)[..n] == a && (a + [c] + b)[n + 1..] == b;
    } else {
      hide Pieces;
      SlicesOfApart(a, c, b, n);
      PiecesApart(a[n + 1..], c, b);
      CutAtFirst(a, n);
      CutAtFirst(a + [c] + b, n);
      Sequences.Assoc([a[..n]], Pieces(a[n + 1..]), Pieces(b));
    }
  }

  lemma {:induction false} UnbrokenPiece(s: string)
    requires Unbroken(s)
    ensures Pieces(s) == [s]
  {
  }

  /** Joined lines come apart again. */
  lemma {:induction false} CodeOfJoin(lines: seq<string>)
    requires forall line :: line in lines ==> Unbroken(line)
    ensures Code(Pieces(Join(lines))) == Code(lines)
  {
    if lines == [] {
      IdleEmpty();
    } else if |lines| == 1 {
      UnbrokenPiece(lines[0]);
      assert [lines[0]] == lines;
    } else {
      CodeOfJoin(lines[1..]);
      PiecesApart(lines[0], '\n', Join(lines[1..]));
      UnbrokenPiece(lines[0]);
      CodeSplit([lines[0]], Pieces(Join(lines[1..])));
      CodeSplit([lines[0]], lines[1..]);
      assert [lines[0]] + lines[1..] == lines;
    }
  }

  // Trimming the whole text

  lemma {:induction false} TrimStartOfSpaced(s: string, c: char)
    requires Space(c)
    ensures TrimStart(s + [c]) == (if TrimStart(s) == [] then [] else TrimStart(s) + [c])
  {
    if s == [] {
      assert s + [c] == [c];
    } else if Space(s[0]) {
      TrimStartOfSpaced(s[1..], c);
      assert (s + [c])[1..] == s[1..] + [c];
    }
  }

  lemma StripOfSpaced(s: string, c: char)
    requires Space(c)
    ensures Strip(s + [c]) == Strip(s)
  {
    TrimStartOfSpaced(s, c);
    if TrimStart(s) != [] {
      assert (TrimStart(s) + [c])[..|TrimStart(s)|] == TrimStart(s);
    }
  }

  /** White space at the end of a text ends its last line or adds blank ones. */
  lemma {:induction false} CodeOfSpaced(s: string, c: char)
    requires Space(c)
    ensures Code(Pieces(s + [c])) == Code(Pieces(s))
    decreases |s|
  {
    if IsBreak(c) {
      PiecesApart(s, c, "");
      assert s + [c] + "" == s + [c];
      CodeSplit(Pieces(s), Pieces(""));
      IdleEmpty();
    } else {
      var n := FirstBreak(s);
      FirstBreakOf(s, [c]);
      if n == |s| {
        assert FirstBreak([c]) == 1;
        StripOfSpaced(s, c);
      } else {
        assert (s + [c])[..n] == s[..n] && (s + [c])[n + 1..] == s[n + 1..] + [c];
        CodeOfSpaced(s[n + 1..], c);
        CodeOfFirst(s[..n], Pieces(s[n + 1..] + [c]), Pieces(s[n + 1..]));
      }
    }
  }

  lemma {:induction false} CodeOfTrimmed(s: string)
    ensures Code(Pieces(TrimEnd(s))) == Code(Pieces(s))
  {
    hide Code, Pieces, Space;
    if s != [] && Space(s[|s| - 1]) {
      CodeOfTrimmed(s[..|s| - 1]);
      CodeOfSpaced(s[..|s| - 1], s[|s| - 1]);
      assert s[..|s| - 1] + [s[|s| - 1]] == s;
    }
  }

  // Trimming what needs no trimming

  predicate Bare(s: string) {
    s == [] || (!Space(s[0]) && !Space(s[|s| - 1]))
  }

  lemma StripBare(s: string)
    requires Bare(s)
    ensures Strip(s) == s
  {
  }

  lemma {:induction false} TrimStartBare(s: string)
    ensures var r := TrimStart(s); (r == [] || !Space(r[0])) && |r| <= |s| && r == s[|s| - |r|..]
  {
    if s != [] && Space(s[0]) {
      TrimStartBare(s[1..]);
    }
  }

  lemma {:induction false} TrimEndBare(s: string)
    ensures var r := TrimEnd(s); (r == [] || !Space(r[|r| - 1])) && r <= s
  {
    if s != [] && Space(s[|s| - 1]) {
      TrimEndBare(s[..|s| - 1]);
    }
  }

  lemma StripUnbroken(s: string)
    requires Unbroken(s)
    ensures Unbroken(Strip(s))
  {
    TrimStartBare(s);
    TrimEndBare(TrimStart(s));
  }
}
