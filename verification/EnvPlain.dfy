/** Settings without quotes, as people write them: what `read_env` in infrastructure/scripts/settings.py,
    lines 17-32, takes for their value. */
module EnvPlain {
  import opened EnvFile
  import opened PyText
  import EnvRoundTrip

  /** No `#` stands after a space. */
  predicate NoComment(v: string) {
    forall i :: 0 < i < |v| && v[i] == '#' ==> v[i - 1] != ' '
  }

  /** A value that needs no quotes: it begins with none, has no comment, no break and no space around it. */
  predicate Plain(v: string) {
    Bare(v) && Unbroken(v) && NoComment(v) && (v != [] ==> v[0] != '"' && v[0] != '\'')
  }

  lemma {:induction false} NothingToCut(v: string)
    requires NoComment(v)
    ensures BeforeComment(v) == v
  {
    if |v| >= 2 {
      assert v[1] == '#' ==> v[0] != ' ';
      forall i | 0 < i < |v[1..]| && v[1..][i] == '#'
        ensures v[1..][i - 1] != ' '
      {
        assert v[i + 1] == '#';
      }
      NothingToCut(v[1..]);
    }
  }

  lemma {:induction false} CommentIsCut(v: string, note: string)
    requires NoComment(v) && v != [] && v[|v| - 1] != ' '
    ensures BeforeComment(v + " #" + note) == v
  {
    var s := v + " #" + note;
    if |v| == 1 {
      assert s[1..] == " #" + note && s[1] == ' ' && s[1..][0] == ' ' && s[1..][1] == '#';
      assert BeforeComment(s[1..]) == "";
    } else {
      assert s[1..] == v[1..] + " #" + note && s[0] == v[0] && s[1] == v[1];
      assert v[1] == '#' ==> v[0] != ' ';
      forall i | 0 < i < |v[1..]| && v[1..][i] == '#'
        ensures v[1..][i - 1] != ' '
      {
        assert v[i + 1] == '#';
      }
      CommentIsCut(v[1..], note);
    }
  }

  lemma BareStays(v: string)
    requires Bare(v)
    ensures TrimEnd(v) == v
  {
  }

  lemma UnbrokenIsOneLine(v: string)
    requires Unbroken(v)
    ensures '\n' !in v && '\r' !in v
  {
  }

  lemma PlainDecodes(v: string, json: Json)
    requires Plain(v)
    ensures Strip(v) == v && Decode(v, json) == Fine(v)
  {
    hide Strip, TrimEnd, BeforeComment, Unbroken, NoComment;
    StripBare(v);
    BareStays(v);
    NothingToCut(v);
  }

  lemma CommentDecodes(v: string, note: string, json: Json)
    requires Plain(v) && v != [] && (note == [] || !Space(note[|note| - 1]))
    ensures var value := v + " #" + note; Strip(value) == value && Decode(value, json) == Fine(v)
  {
    hide Strip, TrimEnd, BeforeComment, Unbroken, NoComment;
    var value := v + " #" + note;
    assert value[0] == v[0] && value[|value| - 1] == (if note == [] then '#' else note[|note| - 1]);
    StripBare(value);
    BareStays(v);
    CommentIsCut(v, note);
  }

  lemma DecodedReads(k: string, value: string, v: string, json: Json)
    requires KeyText(k) && Unbroken(v) && Strip(value) == value && Decode(value, json) == Fine(v)
    ensures ReadSetting(k + "=" + value, json) == Setting(k, v)
  {
    hide KeyText, Strip, Decode, Unbroken;
    EnvRoundTrip.SplitPrinted(k, value);
    UnbrokenIsOneLine(v);
  }

  /** A plain value is read as it stands, with or without a comment after it. */
  lemma PlainReads(k: string, v: string, note: string, json: Json)
    requires KeyText(k) && Plain(v)
    ensures ReadSetting(k + "=" + v, json) == Setting(k, v)
    ensures v != [] && (note == [] || !Space(note[|note| - 1])) ==> ReadSetting(k + "=" + (v + " #" + note), json) == Setting(k, v)
  {
    hide KeyText, Strip, Decode, Unbroken, ReadSetting, NoComment;
    PlainDecodes(v, json);
    DecodedReads(k, v, v, json);
    if v != [] && (note == [] || !Space(note[|note| - 1])) {
      CommentDecodes(v, note, json);
      DecodedReads(k, v + " #" + note, v, json);
    }
  }

  lemma HashIsKept(note: string, json: Json)
    requires Unbroken(note) && NoComment("#" + note) && (note == [] || !Space(note[|note| - 1]))
    ensures Strip(" #" + note) == "#" + note && Decode("#" + note, json) == Fine("#" + note)
    ensures '\n' !in "#" + note && '\r' !in "#" + note
  {
    hide NoComment;
    var value := "#" + note;
    StripBare(value);
    BareStays(value);
    NothingToCut(value);
    assert (" #" + note)[1..] == value && (" #" + note)[0] == ' ' && Space(' ');
    UnbrokenIsOneLine(note);
  }

  /** Where no value stands before it, the comment becomes the value: the space that would set it off is
      stripped first. */
  lemma CommentForValue(k: string, note: string, json: Json)
    requires KeyText(k) && Unbroken(note) && NoComment("#" + note) && (note == [] || !Space(note[|note| - 1]))
    ensures ReadSetting(k + "=" + (" #" + note), json) == Setting(k, "#" + note)
  {
    hide KeyText, NoComment, Strip, Decode;
    EnvRoundTrip.SplitPrinted(k, " #" + note);
    HashIsKept(note, json);
  }
}
