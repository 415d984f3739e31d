/** Reading back what `merge` printed: the settings of the original, overridden by the patch,
    exactly when no value of the patch contains a line separator. */
module EnvRoundTrip {
  import opened PyText
  import opened EnvFile

  // Keys that may be patched

  lemma PaymentIsKey(k: string)
    requires k in PAYMENT_KEYS
    ensures KeyText(k)
  {
  }

  lemma MailIsKey(k: string)
    requires k in MAIL_KEYS
    ensures KeyText(k)
  {
  }

  lemma ProviderIsKey(i: nat)
    requires i < |PROVIDERS|
    ensures KeyText(PROVIDERS[i].0 + "_CLIENT_ID") && KeyText(PROVIDERS[i].0 + "_CLIENT_SECRET")
    ensures KeyText(PROVIDERS[i].0 + "_REDIRECT_URI")
  {
    var name := PROVIDERS[i].0;
    assert KeyText("GOOGLE") && KeyText("GITHUB") && KeyText("AMAZON") && KeyText("MICROSOFT");
    KeyWithSuffix(name, "_CLIENT_ID");
    KeyWithSuffix(name, "_CLIENT_SECRET");
    KeyWithSuffix(name, "_REDIRECT_URI");
  }

  lemma AllowedIsKey(k: string)
    requires Allowed(k)
    ensures KeyText(k)
  {
    hide KeyText;
    if k in PAYMENT_KEYS {
      PaymentIsKey(k);
    } else if k in MAIL_KEYS {
      MailIsKey(k);
    } else {
      var i :| 0 <= i < |PROVIDERS| && k in {PROVIDERS[i].0 + "_CLIENT_ID", PROVIDERS[i].0 + "_CLIENT_SECRET", PROVIDERS[i].0 + "_REDIRECT_URI"};
      ProviderIsKey(i);
    }
  }

  lemma KeyWithSuffix(name: string, suffix: string)
    requires KeyText(name) && forall i :: 0 <= i < |suffix| ==> KeyChar(suffix[i])
    ensures KeyText(name + suffix)
  {
  }

  lemma KeyPlain(k: string)
    requires KeyText(k)
    ensures Unbroken(k) && Bare(k) && k[0] != '#' && k[0] != 'e' && '=' !in k
    ensures forall i :: 0 <= i < |k| ==> !Space(k[i])
  {
    assert forall i :: 0 <= i < |k| ==> KeyChar(k[i]);
  }

  // One printed line

  lemma FirstEqualsAfter(k: string, rest: string)
    requires '=' !in k
    ensures FirstEquals(k + "=" + rest) == |k|
  {
    var s := k + "=" + rest;
    assert s[|k|] == '=';
    assert forall i :: 0 <= i < |k| ==> s[i] == k[i];
  }

  /** `key='...` is split at its first equals sign, which is the one that was printed. */
  lemma SplitPrinted(k: string, rest: string)
    requires KeyText(k)
    ensures var line := k + "=" + rest;
            && !("export " <= line) && FirstEquals(line) == |k| && line[..|k|] == k && line[|k| + 1..] == rest
            && Strip(k) == k
  {
    var line := k + "=" + rest;
    KeyPlain(k);
    FirstEqualsAfter(k, rest);
    StripBare(k);
    assert line[0] == k[0];
  }

  lemma QuotedShape(k: string, v: string)
    requires KeyText(k) && Unbroken(v)
    ensures var line := Quoted(k, v); Bare(line) && line != [] && line[0] == k[0] && line[0] != '#' && Unbroken(line)
    ensures Bare("'" + v + "'") && Unbroken("'" + v + "'") && ("'" + v + "'")[1..|v| + 1] == v
    ensures Quoted(k, v) == k + "=" + ("'" + v + "'")
  {
    KeyPlain(k);
  }

  lemma QuotedDecodes(v: string, json: Json)
    requires Unbroken(v)
    ensures Decode("'" + v + "'", json) == Fine(v) && '\n' !in v && '\r' !in v
  {
    var value := "'" + v + "'";
    assert value[1..|value| - 1] == v;
  }

  lemma QuotedReads(k: string, v: string, json: Json)
    requires KeyText(k) && Unbroken(v)
    ensures ReadSetting(Quoted(k, v), json) == Setting(k, v)
    ensures Bare(Quoted(k, v)) && !Idle(Quoted(k, v)) && Strip(Quoted(k, v)) == Quoted(k, v) && Unbroken(Quoted(k, v))
  {
    QuotedShape(k, v);
    QuotedDecodes(v, json);
    hide Quoted, Decode, Strip, Unbroken, KeyText;
    SplitPrinted(k, "'" + v + "'");
    StripBare(Quoted(k, v));
    StripBare("'" + v + "'");
  }

  /** What is read of a line whose value opens with a single quote has no break in it. */
  lemma QuotedPieceReads(k: string, piece: string, json: Json)
    requires KeyText(k) && Unbroken(piece)
    ensures var line := Strip(k + "='" + piece); line != [] && line[0] != '#'
    ensures var parsed := ReadSetting(Strip(k + "='" + piece), json); parsed.Setting? ==> parsed.key == k && Unbroken(parsed.value)
  {
    var raw := k + "='" + piece;
    KeyPlain(k);
    assert Unbroken(raw);
    StripUnbroken(raw);
    var line := StrippedPiece(k, piece);
    var rest := line[|k| + 1..];
    assert line == k + "=" + rest && rest[0] == '\'' && Unbroken(rest) && line[0] == k[0];
    hide KeyText, Unbroken, Strip;
    SplitPrinted(k, rest);
    QuotedRestReads(rest);
    DecodedUnbroken(Strip(rest), json);
  }

  lemma DecodedUnbroken(value: string, json: Json)
    requires value != [] && value[0] == '\'' && (|value| > 1 ==> Unbroken(value[1..|value| - 1]))
    ensures Decode(value, json).Fine? ==> Unbroken(Decode(value, json).value)
  {
  }

  /** Stripping cannot reach the quote. */
  lemma StrippedPiece(k: string, piece: string) returns (line: string)
    requires KeyText(k)
    ensures line == Strip(k + "='" + piece) && |line| >= |k| + 2 && k + "='" <= line
  {
    var raw := k + "='" + piece;
    KeyPlain(k);
    assert raw[0] == k[0];
    assert TrimStart(raw) == raw;
    line := TrimEnd(raw);
    TrimEndKeeps(raw, |k| + 1);
    assert raw[|k| + 1] == '\'';
    assert raw[..|k| + 2] == k + "='";
  }

  lemma {:induction false} TrimEndKeeps(s: string, i: nat)
    requires i < |s| && !Space(s[i])
    ensures TrimEnd(s) <= s && |TrimEnd(s)| > i
  {
    if Space(s[|s| - 1]) {
      TrimEndKeeps(s[..|s| - 1], i);
    }
  }

  lemma QuotedRestReads(rest: string)
    requires rest != [] && rest[0] == '\'' && Unbroken(rest)
    ensures var value := Strip(rest); value != [] && value[0] == '\'' && Unbroken(value)
    ensures var value := Strip(rest); |value| > 1 ==> Unbroken(value[1..|value| - 1])
  {
    assert TrimStart(rest) == rest;
    TrimEndKeeps(rest, 0);
    StripUnbroken(rest);
  }

  // Both programs see the same key

  lemma {:induction false} TrimStartCuts(s: string) returns (n: nat)
    ensures n <= |s| && TrimStart(s) == s[n..] && (n < |s| ==> !Space(s[n]))
    ensures forall i :: 0 <= i < n ==> Space(s[i])
  {
    if s != [] && Space(s[0]) {
      var m := TrimStartCuts(s[1..]);
      n := m + 1;
    } else {
      n := 0;
    }
  }

  lemma FirstEqualsShift(s: string, n: nat)
    requires n <= |s| && forall i :: 0 <= i < n ==> s[i] != '='
    ensures FirstEquals(s) == n + FirstEquals(s[n..])
  {
    var m := FirstEquals(s[n..]);
    assert forall i :: 0 <= i < m ==> s[n..][i] == s[n + i];
    if m < |s[n..]| {
      assert s[n + m] == '=';
    }
  }

  lemma {:induction false} StripSkips(s: string, n: nat)
    requires n <= |s| && forall i :: 0 <= i < n ==> Space(s[i])
    ensures Strip(s) == Strip(s[n..])
  {
    if n > 0 {
      StripSkips(s[1..], n - 1);
      assert s[1..][n - 1..] == s[n..];
    }
  }

  /** White space before a key is no part of it. */
  lemma SpacedKey(rest: string)
    requires var body := TrimStart(rest); FirstEquals(body) < |body| && KeyText(TrimEnd(body[..FirstEquals(body)]))
    ensures FirstEquals(rest) < |rest|
    ensures var body := TrimStart(rest); Strip(rest[..FirstEquals(rest)]) == TrimEnd(body[..FirstEquals(body)])
  {
    hide KeyText;
    var n := TrimStartCuts(rest);
    FirstEqualsShift(rest, n);
    var m := FirstEquals(rest[n..]);
    assert rest[..n + m][n..] == rest[n..][..m];
    StripSkips(rest[..n + m], n);
    PlainStart(rest[n..], m);
  }

  lemma SameKey(line: string, json: Json)
    requires MergeSetting(line).Setting? && ReadSetting(line, json).Setting?
    ensures MergeSetting(line).key == ReadSetting(line, json).key
  {
    hide KeyText, Decode;
    if "export " <= line {
      assert "export" <= line && line[6] == ' ';
      assert line[6..][1..] == line[7..];
      SpacedKey(line[7..]);
    } else {
      ExportNeedsSpace(line);
      PlainStart(line, FirstEquals(line));
    }
  }

  /** In front of a key there is no white space left to trim. */
  lemma PlainStart(body: string, m: nat)
    requires m <= |body| && (body != [] ==> !Space(body[0]))
    ensures Strip(body[..m]) == TrimEnd(body[..m])
  {
    TrimEndBare(body[..m]);
  }

  lemma NotAKey(s: string)
    requires s != [] && s[0] == 'e'
    ensures !KeyText(Strip(s))
  {
    assert TrimStart(s) == s;
    TrimEndKeeps(s, 0);
    assert Strip(s)[0] == 'e';
  }

  /** A line that only `merge` takes for an export is no setting for `read_env`. */
  lemma ExportNeedsSpace(line: string)
    requires MergeSetting(line).Setting? && !("export " <= line)
    requires FirstEquals(line) < |line| && KeyText(Strip(line[..FirstEquals(line)]))
    ensures !("export" <= line && |line| > 6 && Space(line[6]))
    ensures line != [] && !Space(line[0])
  {
    var n := FirstEquals(line);
    if line[0] == 'e' {
      NotAKey(line[..n]);
    } else {
      assert !("export" <= line);
      TrimEndBare(line[..n]);
      KeyPlain(TrimEnd(line[..n]));
      assert line[0] == TrimEnd(line[..n])[0];
    }
  }

  // The lines that stay

  /** The lines whose setting is not replaced. */
  function Kept(code: seq<string>, replaced: set<string>): seq<string> {
    if code == [] then []
    else
      var line := code[|code| - 1];
      Kept(code[..|code| - 1], replaced) + if MergeSetting(line).Setting? && MergeSetting(line).key in replaced then [] else [line]
  }

  lemma KeptSnoc(code: seq<string>, line: string, replaced: set<string>)
    ensures Kept(code + [line], replaced) ==
            Kept(code, replaced) + if MergeSetting(line).Setting? && MergeSetting(line).key in replaced then [] else [line]
  {
    assert (code + [line])[..|code|] == code;
  }

  lemma ScanSnoc(lines: seq<string>, line: string, replaced: set<string>)
    ensures Scan(lines + [line], replaced) ==
      (var before, parsed := Scan(lines, replaced), MergeSetting(Strip(line));
       if before.Failed? then Failed
       else if Idle(line) then Fine(before.value.(retained := before.value.retained + [line]))
       else if parsed.Malformed? || parsed.key in before.value.values then Failed
       else Fine(Scanned(before.value.values[parsed.key := parsed.value],
                         if parsed.key in replaced then before.value.retained else before.value.retained + [line])))
  {
    hide MergeSetting, Idle;
    assert (lines + [line])[..|lines|] == lines;
  }

  /** The retained lines are the lines of the original without the replaced settings. */
  lemma {:induction false} RetainedIsKept(lines: seq<string>, replaced: set<string>)
    requires Scan(lines, replaced).Fine?
    ensures Code(Scan(lines, replaced).value.retained) == Kept(Code(lines), replaced)
    ensures forall line :: line in Scan(lines, replaced).value.retained ==> line in lines
    ensures forall line :: line in Code(lines) ==> MergeSetting(line).Setting?
  {
    if lines == [] {
      assert Code([]) == [];
    } else {
      hide MergeSetting, Idle, Scan, Code, Kept;
      var before, line := lines[..|lines| - 1], lines[|lines| - 1];
      assert before + [line] == lines;
      ScanSnoc(before, line, replaced);
      RetainedIsKept(before, replaced);
      RetainedSnoc(before, line, replaced);
    }
  }

  lemma RetainedSnoc(lines: seq<string>, line: string, replaced: set<string>)
    requires Scan(lines, replaced).Fine? && Scan(lines + [line], replaced).Fine?
    requires Code(Scan(lines, replaced).value.retained) == Kept(Code(lines), replaced)
    requires forall l :: l in Code(lines) ==> MergeSetting(l).Setting?
    ensures Code(Scan(lines + [line], replaced).value.retained) == Kept(Code(lines + [line]), replaced)
    ensures forall l :: l in Code(lines + [line]) ==> MergeSetting(l).Setting?
  {
    hide MergeSetting, Idle, Scan, Code, Kept;
    ScanSnoc(lines, line, replaced);
    CodeSnoc(lines, line);
    CodeSnoc(Scan(lines, replaced).value.retained, line);
    KeptSnoc(Code(lines), Strip(line), replaced);
    assert Code(lines) + [] == Code(lines);
  }

  lemma CodeSnoc(lines: seq<string>, line: string)
    ensures Code(lines + [line]) == Code(lines) + if Idle(line) then [] else [Strip(line)]
  {
    CodeSplit(lines, [line]);
  }

  lemma KeptOneMore(code: seq<string>, line: string, replaced: set<string>, json: Json)
    requires ReadAll(code, json).Fine? && ReadAll(code + [line], json).Fine? && MergeSetting(line).Setting?
    requires ReadAll(Kept(code, replaced), json) == Fine(ReadAll(code, json).value - replaced)
    ensures ReadAll(Kept(code + [line], replaced), json) == Fine(ReadAll(code + [line], json).value - replaced)
  {
    hide MergeSetting, ReadSetting, ReadAll, Kept;
    ReadSnoc(code, line, json);
    SameKey(line, json);
    KeptSnoc(code, line, replaced);
    ReadSnoc(Kept(code, replaced), line, json);
    var m, last := ReadAll(code, json).value, ReadSetting(line, json);
    if last.key in replaced {
      assert m[last.key := last.value] - replaced == m - replaced;
      assert Kept(code, replaced) + [] == Kept(code, replaced);
    } else {
      assert m[last.key := last.value] - replaced == (m - replaced)[last.key := last.value];
    }
  }

  /** Reading the kept lines gives the settings that are not replaced. */
  lemma {:induction false} KeptReads(code: seq<string>, replaced: set<string>, json: Json)
    requires ReadAll(code, json).Fine? && forall line :: line in code ==> MergeSetting(line).Setting?
    ensures ReadAll(Kept(code, replaced), json) == Fine(ReadAll(code, json).value - replaced)
  {
    if code == [] {
      var none: Settings := map[];
      assert none - replaced == none;
    } else {
      hide MergeSetting, ReadSetting, Kept;
      var before, line := code[..|code| - 1], code[|code| - 1];
      assert before + [line] == code;
      ReadSnoc(before, line, json);
      KeptReads(before, replaced, json);
      KeptOneMore(before, line, replaced, json);
    }
  }

  // The lines that are added

  /** What the patch says. */
  function Patched(patch: Patch): Settings
    requires forall i :: 0 <= i < |patch| ==> patch[i].1.Text?
  {
    if patch == [] then map[]
    else Patched(patch[..|patch| - 1])[patch[|patch| - 1].0 := patch[|patch| - 1].1.text]
  }

  predicate AllText(patch: Patch) {
    forall i :: 0 <= i < |patch| ==> patch[i].1.Text? && KeyText(patch[i].0)
  }

  predicate OneLine(patch: Patch)
    requires AllText(patch)
  {
    forall i :: 0 <= i < |patch| ==> Unbroken(patch[i].1.text)
  }

  lemma {:induction false} PatchedKeys(patch: Patch)
    requires AllText(patch)
    ensures Patched(patch).Keys == KeysOf(patch)
  {
    if patch != [] {
      var n := |patch| - 1;
      PatchedKeys(patch[..n]);
      assert KeysOf(patch) == KeysOf(patch[..n]) + {patch[n].0} by {
        assert patch[n].0 in KeysOf(patch);
        forall k | k in KeysOf(patch[..n]) ensures k in KeysOf(patch) {
          var i :| 0 <= i < n && patch[..n][i].0 == k;
          assert patch[i].0 == k;
        }
        forall k | k in KeysOf(patch) ensures k in KeysOf(patch[..n]) + {patch[n].0} {
          var i :| 0 <= i < |patch| && patch[i].0 == k;
          if i < n {
            assert patch[..n][i].0 == k;
          }
        }
      }
    }
  }

  lemma RenderedSnoc(patch: Patch)
    requires patch != [] && AllText(patch)
    ensures var n := |patch| - 1; Rendered(patch) == Rendered(patch[..n]) + [Quoted(patch[n].0, patch[n].1.text)]
  {
  }

  lemma LastIsNew(patch: Patch)
    requires patch != [] && AllText(patch) && DistinctKeys(patch)
    ensures var n := |patch| - 1; DistinctKeys(patch[..n]) && patch[n].0 !in KeysOf(patch[..n])
  {
  }

  lemma RenderedOneMore(code: seq<string>, patch: Patch, json: Json)
    requires patch != [] && AllText(patch) && OneLine(patch) && DistinctKeys(patch)
    requires ReadAll(code, json).Fine? && ReadAll(code, json).value.Keys !! KeysOf(patch)
    requires ReadAll(code + Rendered(patch[..|patch| - 1]), json) == Fine(ReadAll(code, json).value + Patched(patch[..|patch| - 1]))
    ensures ReadAll(code + Rendered(patch), json) == Fine(ReadAll(code, json).value + Patched(patch))
  {
    hide ReadSetting, KeyText, Quoted, ReadAll, DistinctKeys, KeysOf;
    var n := |patch| - 1;
    var k, v := patch[n].0, patch[n].1.text;
    LastIsNew(patch);
    FewerKeys(patch);
    RenderedSnoc(patch);
    assert code + Rendered(patch) == (code + Rendered(patch[..n])) + [Quoted(k, v)];
    ReadSnoc(code + Rendered(patch[..n]), Quoted(k, v), json);
    QuotedReads(k, v, json);
    PatchedKeys(patch[..n]);
    OverrideOneMore(ReadAll(code, json).value, Patched(patch[..n]), k, v);
  }

  lemma OverrideOneMore(m: Settings, p: Settings, k: string, v: string)
    ensures m + p[k := v] == (m + p)[k := v]
  {
  }

  /** The printed settings are read after the others, and as they were given. */
  lemma {:induction false} RenderedReads(code: seq<string>, patch: Patch, json: Json)
    requires ReadAll(code, json).Fine? && AllText(patch) && OneLine(patch) && DistinctKeys(patch)
    requires ReadAll(code, json).value.Keys !! KeysOf(patch)
    ensures ReadAll(code + Rendered(patch), json) == Fine(ReadAll(code, json).value + Patched(patch))
  {
    if patch == [] {
      assert code + Rendered(patch) == code;
      assert ReadAll(code, json).value + Patched(patch) == ReadAll(code, json).value;
    } else {
      hide ReadSetting, KeyText, Quoted, ReadAll, KeysOf;
      LastIsNew(patch);
      FewerKeys(patch);
      RenderedReads(code, patch[..|patch| - 1], json);
      RenderedOneMore(code, patch, json);
    }
  }

  lemma FewerKeys(patch: Patch)
    requires patch != []
    ensures KeysOf(patch[..|patch| - 1]) <= KeysOf(patch) && patch[|patch| - 1].0 in KeysOf(patch)
  {
    var n := |patch| - 1;
    forall k | k in KeysOf(patch[..n]) ensures k in KeysOf(patch) {
      var i :| 0 <= i < n && patch[..n][i].0 == k;
      assert patch[i].0 == k;
    }
    assert patch[n].0 in KeysOf(patch);
  }

  // The printed text

  lemma UnbrokenConcat(a: string, b: string)
    requires Unbroken(a) && Unbroken(b)
    ensures Unbroken(a + b)
  {
  }

  lemma HeadingIsIdle()
    ensures Unbroken(HEADING) && Code([HEADING]) == []
  {
    var a, b, c, d := "# Production ", "integrations ", "(Razorpay TEST ", "mode)";
    UnbrokenConcat(a, b);
    UnbrokenConcat(a + b, c);
    UnbrokenConcat(a + b + c, d);
    assert HEADING == a + b + c + d;
    assert HEADING[0] == a[0] == '#' && HEADING[|HEADING| - 1] == d[4] == ')';
    StripBare(HEADING);
    assert Idle(HEADING);
  }

  lemma IdleLineFirst(line: string, rest: string)
    requires Unbroken(line) && Code([line]) == []
    ensures Code(Pieces(line + ['\n'] + rest)) == Code(Pieces(rest))
  {
    hide Code, Pieces, Unbroken;
    PiecesApart(line, '\n', rest);
    UnbrokenPiece(line);
    CodeSplit([line], Pieces(rest));
    assert [] + Code(Pieces(rest)) == Code(Pieces(rest));
  }

  /** A blank line and a comment in front change nothing. */
  lemma CodeAfterHeading(heading: string, added: string)
    requires Unbroken(heading) && Code([heading]) == []
    ensures Code(Pieces("\n" + heading + "\n" + added + "\n")) == Code(Pieces(added))
  {
    hide Code, Pieces, Idle;
    CodeOfSpaced(added, '\n');
    IdleLineFirst(heading, added + "\n");
    IdleEmpty();
    IdleLineFirst("", heading + "\n" + (added + "\n"));
    assert "" + ['\n'] + (heading + "\n" + (added + "\n")) == "\n" + heading + "\n" + added + "\n";
  }

  lemma CodeOfParts(kept: string, heading: string, added: string)
    requires Unbroken(heading) && Code([heading]) == []
    ensures Code(Pieces(kept + "\n\n" + heading + "\n" + added + "\n")) == Code(Pieces(kept)) + Code(Pieces(added))
  {
    hide Code, Pieces;
    var rest := "\n" + heading + "\n" + added + "\n";
    CodeAfterHeading(heading, added);
    PiecesApart(kept, '\n', rest);
    CodeSplit(Pieces(kept), Pieces(rest));
    assert kept + "\n\n" + heading + "\n" + added + "\n" == kept + ['\n'] + rest;
  }

  /** Around the retained lines and the printed settings there are only blank lines and a comment. */
  lemma CodeOfPrinted(retained: seq<string>, patch: Patch)
    requires AllText(patch) && forall line :: line in retained ==> Unbroken(line)
    ensures Code(Pieces(Printed(retained, patch))) == Code(retained) + Code(Pieces(Join(Rendered(patch))))
  {
    hide Code, Pieces, Join, TrimEnd;
    CodeOfTrimmed(Join(retained));
    CodeOfJoin(retained);
    HeadingIsIdle();
    CodeOfParts(TrimEnd(Join(retained)), HEADING, Join(Rendered(patch)));
  }

  /** The kept settings and the patched ones, together. */
  lemma OverrideIsUnion(m: Settings, p: Settings, replaced: set<string>)
    requires p.Keys == replaced
    ensures (m - replaced) + p == m + p
  {
  }

  lemma RenderedUnbroken(patch: Patch, json: Json)
    requires AllText(patch) && OneLine(patch)
    ensures forall line :: line in Rendered(patch) ==> Unbroken(line) && Bare(line) && !Idle(line)
  {
    hide Quoted, Idle;
    forall i | 0 <= i < |patch|
      ensures var line := Rendered(patch)[i]; Unbroken(line) && Bare(line) && !Idle(line)
    {
      QuotedReads(patch[i].0, patch[i].1.text, json);
    }
  }

  lemma {:induction false} CodeOfBare(lines: seq<string>)
    requires forall line :: line in lines ==> Bare(line) && !Idle(line)
    ensures Code(lines) == lines
  {
    if lines != [] {
      StripBare(lines[0]);
      CodeOfBare(lines[1..]);
    }
  }

  // A value with a separator in it

  lemma {:induction false} ReadHasLine(code: seq<string>, line: string, json: Json)
    requires ReadAll(code, json).Fine? && line in code
    ensures ReadSetting(line, json).Setting?
    ensures var last := ReadSetting(line, json); last.key in ReadAll(code, json).value && ReadAll(code, json).value[last.key] == last.value
  {
    hide ReadSetting;
    if line != code[|code| - 1] {
      assert line in code[..|code| - 1];
      ReadHasLine(code[..|code| - 1], line, json);
    }
  }

  lemma FirstPiece(s: string)
    ensures s[..FirstBreak(s)] in Pieces(s)
  {
    assert s[..|s|] == s;
  }

  lemma {:induction false} PieceOfJoin(lines: seq<string>, i: nat)
    requires i < |lines|
    ensures lines[i][..FirstBreak(lines[i])] in Pieces(Join(lines))
  {
    FirstPiece(lines[i]);
    if |lines| > 1 {
      PiecesApart(lines[0], '\n', Join(lines[1..]));
      if i > 0 {
        PieceOfJoin(lines[1..], i - 1);
      }
    }
  }

  lemma {:induction false} CodeHas(lines: seq<string>, line: string)
    requires line in lines && !Idle(line)
    ensures Strip(line) in Code(lines)
  {
    if line != lines[0] {
      CodeHas(lines[1..], line);
    }
  }

  lemma QuotedPiece(k: string, v: string)
    requires KeyText(k) && !Unbroken(v)
    ensures var line := Quoted(k, v); line[..FirstBreak(line)] == k + "='" + v[..FirstBreak(v)]
  {
    var line := Quoted(k, v);
    KeyPlain(k);
    var n := FirstBreak(v);
    assert n < |v| by {
      assert v[..|v|] == v;
    }
    FirstBreakOf(k + "='", v + "'");
    FirstBreakOf(v, "'");
    assert line == (k + "='") + (v + "'");
    assert FirstBreak(line) == |k| + 2 + n;
    assert line[..|k| + 2 + n] == k + "='" + v[..n];
  }

  /** What is read for a broken value is not that value. */
  lemma BrokenIsLost(code: seq<string>, patch: Patch, i: nat, json: Json)
    requires AllText(patch) && i < |patch| && !Unbroken(patch[i].1.text)
    requires forall line :: line in Code(Pieces(Join(Rendered(patch)))) ==> line in code
    requires ReadAll(code, json).Fine?
    ensures var m := ReadAll(code, json).value; patch[i].0 in m && m[patch[i].0] != patch[i].1.text
  {
    var k, v := patch[i].0, patch[i].1.text;
    var piece := v[..FirstBreak(v)];
    var line := k + "='" + piece;
    assert line in Pieces(Join(Rendered(patch))) by {
      PieceOfJoin(Rendered(patch), i);
      QuotedPiece(k, v);
    }
    hide ReadAll, ReadSetting, Code, Pieces;
    QuotedPieceReads(k, piece, json);
    CodeHas(Pieces(Join(Rendered(patch))), line);
    ReadHasLine(code, Strip(line), json);
  }

  lemma {:induction false} PatchedAt(patch: Patch, i: nat)
    requires AllText(patch) && DistinctKeys(patch) && i < |patch|
    ensures patch[i].0 in Patched(patch) && Patched(patch)[patch[i].0] == patch[i].1.text
  {
    var n := |patch| - 1;
    if i < n {
      PatchedAt(patch[..n], i);
      assert patch[i].0 != patch[n].0;
    }
  }

  // The theorem

  /** What `merge` prints for `patch` on top of `original`. */
  function Merged(original: string, patch: Patch): string
    requires Scan(SplitLines(original), KeysOf(patch)).Fine? && AllText(patch)
  {
    Printed(Scan(SplitLines(original), KeysOf(patch)).value.retained, patch)
  }

  lemma MergedCode(original: string, patch: Patch)
    requires Scan(SplitLines(original), KeysOf(patch)).Fine? && AllText(patch)
    ensures Code(Pieces(Merged(original, patch))) ==
            Kept(Code(Pieces(original)), KeysOf(patch)) + Code(Pieces(Join(Rendered(patch))))
    ensures forall line :: line in Code(Pieces(original)) ==> MergeSetting(line).Setting?
  {
    hide Code, Pieces, Kept, MergeSetting, Scan, Printed;
    SplitLinesUnbroken(original);
    SplitLinesIsPieces(original);
    RetainedIsKept(SplitLines(original), KeysOf(patch));
    CodeOfPrinted(Scan(SplitLines(original), KeysOf(patch)).value.retained, patch);
  }

  lemma UnbrokenIsKept(original: string, patch: Patch, json: Json)
    requires Scan(SplitLines(original), KeysOf(patch)).Fine? && AllText(patch) && DistinctKeys(patch) && OneLine(patch)
    requires ReadEnv(original, json).Fine?
    ensures ReadEnv(Merged(original, patch), json) == Fine(ReadEnv(original, json).value + Patched(patch))
  {
    hide Code, Pieces, Kept, MergeSetting, Scan, Merged, ReadAll, KeysOf, Quoted, KeyText, DistinctKeys;
    var code := Code(Pieces(original));
    MergedCode(original, patch);
    RenderedUnbroken(patch, json);
    CodeOfJoin(Rendered(patch));
    CodeOfBare(Rendered(patch));
    KeptReads(code, KeysOf(patch), json);
    RenderedReads(Kept(code, KeysOf(patch)), patch, json);
    PatchedKeys(patch);
    OverrideIsUnion(ReadAll(code, json).value, Patched(patch), KeysOf(patch));
  }

  lemma BrokenIsNotRead(original: string, patch: Patch, json: Json)
    requires Scan(SplitLines(original), KeysOf(patch)).Fine? && AllText(patch) && DistinctKeys(patch) && !OneLine(patch)
    requires ReadEnv(original, json).Fine?
    ensures ReadEnv(Merged(original, patch), json) != Fine(ReadEnv(original, json).value + Patched(patch))
  {
    var i :| 0 <= i < |patch| && !Unbroken(patch[i].1.text);
    hide Code, Pieces, Kept, MergeSetting, Scan, Merged, ReadAll, KeysOf, Quoted, KeyText, DistinctKeys, Unbroken;
    MergedCode(original, patch);
    PatchedAt(patch, i);
    if ReadEnv(Merged(original, patch), json).Fine? {
      BrokenIsLost(Code(Pieces(Merged(original, patch))), patch, i, json);
    }
  }

  /** For every original that both programs accept and every acceptable patch: reading back what
      was printed gives the original's settings overridden by the patch, exactly when no patched
      value contains a line separator. (The patch check refuses "\n" and "\r" only.) */
  lemma MergeRoundTrips(original: string, patch: Patch, domain: string, port: string -> bool, json: Json)
    requires Acceptable(patch, domain, port) && DistinctKeys(patch)
    requires Scan(SplitLines(original), KeysOf(patch)).Fine? && ReadEnv(original, json).Fine?
    ensures AllText(patch)
    ensures ReadEnv(Merged(original, patch), json) == Fine(ReadEnv(original, json).value + Patched(patch))
            <==> OneLine(patch)
  {
    hide Acceptable, Scan, ReadEnv, Merged, KeysOf, KeyText, Allowed, DistinctKeys;
    TextOfAcceptable(patch, domain, port);
    forall i | 0 <= i < |patch|
      ensures KeyText(patch[i].0)
    {
      AllowedIsKey(patch[i].0);
    }
    if OneLine(patch) {
      UnbrokenIsKept(original, patch, json);
    } else {
      BrokenIsNotRead(original, patch, json);
    }
  }
}
