/** The production environment file: `merge` in infrastructure/scripts/update-integrations.py, lines
    18-68, prints what `read_env` in infrastructure/scripts/settings.py, lines 11-36, must read back.
    `json` stands for `json.loads` on a text that begins with a double quote. */
module EnvFile {
  import opened PyText

  datatype Outcome<+T> = Fine(value: T) | Failed

  type Settings = map<string, string>
  type Json = string -> Outcome<string>

  // One line

  predicate KeyChar(c: char) { 'A' <= c <= 'Z' || '0' <= c <= '9' || c == '_' }

  /** `[A-Z][A-Z0-9_]*` */
  predicate KeyText(k: string) {
    k != [] && 'A' <= k[0] <= 'Z' && forall i :: 0 <= i < |k| ==> KeyChar(k[i])
  }

  function FirstEquals(s: string): (n: nat)
    ensures n <= |s| && (n < |s| ==> s[n] == '=') && forall i :: 0 <= i < n ==> s[i] != '='
  {
    if s == [] || s[0] == '=' then 0 else 1 + FirstEquals(s[1..])
  }

  datatype Parsed = Setting(key: string, value: string) | Malformed

  /** The regular expression of line 48 on a stripped line. */
  function MergeSetting(line: string): Parsed {
    var body := if "export" <= line && |line| > 6 && Space(line[6]) then TrimStart(line[6..]) else line;
    var n := FirstEquals(body);
    if n == |body| || !KeyText(TrimEnd(body[..n])) then Malformed
    else Setting(TrimEnd(body[..n]), TrimStart(body[n + 1..]))
  }

  /** `value.split(' #', 1)[0]` */
  function BeforeComment(s: string): string {
    if |s| < 2 || (s[0] == ' ' && s[1] == '#') then (if |s| < 2 then s else "") else [s[0]] + BeforeComment(s[1..])
  }

  /** Lines 23-30 of settings.py. */
  function Decode(value: string, json: Json): Outcome<string> {
    if value != [] && value[0] == '"' then json(value)
    else if value != [] && value[0] == '\'' then
      if value[|value| - 1] != '\'' then Failed else Fine(if |value| == 1 then "" else value[1..|value| - 1])
    else Fine(TrimEnd(BeforeComment(value)))
  }

  /** Lines 17-32 of settings.py on a stripped line. */
  function ReadSetting(line: string, json: Json): Parsed {
    var body := if "export " <= line then line[7..] else line;
    var n := FirstEquals(body);
    if n == |body| || !KeyText(Strip(body[..n])) then Malformed
    else
      var value := Decode(Strip(body[n + 1..]), json);
      if value.Failed? || '\n' in value.value || '\r' in value.value then Malformed
      else Setting(Strip(body[..n]), value.value)
  }

  // Whole files

  /** The settings of the lines that are neither blank nor comments; a repeated key is an error. */
  function ReadAll(code: seq<string>, json: Json): Outcome<Settings> {
    if code == [] then Fine(map[])
    else
      var before := ReadAll(code[..|code| - 1], json);
      var last := ReadSetting(code[|code| - 1], json);
      if before.Failed? || last.Malformed? || last.key in before.value then Failed
      else Fine(before.value[last.key := last.value])
  }

  function ReadEnv(text: string, json: Json): Outcome<Settings> {
    ReadAll(Code(Pieces(text)), json)
  }

  method ReadEnvFile(text: string, json: Json) returns (r: Outcome<Settings>)
    ensures r == ReadEnv(text, json)
  {
    SplitLinesIsPieces(text);
    var lines := SplitLines(text);
    var settings: Settings := map[];
    assert ReadAll(Code([]), json) == Fine(map[]);
    assert lines[..0] == [];
    hide ReadAll, Code, ReadSetting;
    for i := 0 to |lines|
      invariant ReadAll(Code(lines[..i]), json) == Fine(settings)
    {
      ReadOneMore(lines, i, json);
      var line := Strip(lines[i]);
      if line == [] || line[0] == '#' {
        continue;
      }
      var parsed := ReadSetting(line, json);
      if parsed.Malformed? || parsed.key in settings {
        return Failed;
      }
      settings := settings[parsed.key := parsed.value];
    }
    assert lines[..|lines|] == lines;
    return Fine(settings);
  }

  lemma ReadSnoc(code: seq<string>, line: string, json: Json)
    ensures ReadAll(code + [line], json) ==
      (var before, last := ReadAll(code, json), ReadSetting(line, json);
       if before.Failed? || last.Malformed? || last.key in before.value then Failed
       else Fine(before.value[last.key := last.value]))
  {
    hide ReadSetting;
    assert (code + [line])[..|code|] == code;
  }

  lemma NextCode(lines: seq<string>, i: nat)
    requires i < |lines|
    ensures Code(lines[..i + 1]) == Code(lines[..i]) + if Idle(lines[i]) then [] else [Strip(lines[i])]
  {
    assert lines[..i + 1] == lines[..i] + [lines[i]];
    CodeSplit(lines[..i], [lines[i]]);
  }

  lemma FailsOnward(lines: seq<string>, i: nat, json: Json)
    requires i <= |lines|
    ensures ReadAll(Code(lines[..i]), json).Failed? ==> ReadAll(Code(lines), json).Failed?
  {
    hide ReadAll;
    ReadFailsOnward(Code(lines[..i]), Code(lines[i..]), json);
    CodeSplit(lines[..i], lines[i..]);
    assert lines[..i] + lines[i..] == lines;
  }

  lemma ReadOneMore(lines: seq<string>, i: nat, json: Json)
    requires i < |lines| && ReadAll(Code(lines[..i]), json).Fine?
    ensures ReadAll(Code(lines[..i + 1]), json) ==
      (var before, last := ReadAll(Code(lines[..i]), json).value, ReadSetting(Strip(lines[i]), json);
       if Idle(lines[i]) then Fine(before)
       else if last.Malformed? || last.key in before then Failed
       else Fine(before[last.key := last.value]))
    ensures ReadAll(Code(lines[..i + 1]), json).Failed? ==> ReadAll(Code(lines), json).Failed?
  {
    hide ReadSetting, ReadAll, Code;
    NextCode(lines, i);
    ReadSnoc(Code(lines[..i]), Strip(lines[i]), json);
    FailsOnward(lines, i + 1, json);
    assert Code(lines[..i]) + [] == Code(lines[..i]);
  }

  /** A bad line spoils the file whatever follows. */
  lemma {:induction false} ReadFailsOnward(a: seq<string>, b: seq<string>, json: Json)
    ensures ReadAll(a, json).Failed? ==> ReadAll(a + b, json).Failed?
    decreases |b|
  {
    if b == [] {
      assert a + b == a;
    } else {
      ReadFailsOnward(a, b[..|b| - 1], json);
      assert (a + b)[..|a + b| - 1] == a + b[..|b| - 1];
    }
  }

  // Merging

  /** A patch is a JSON object; a value need not be a string. */
  datatype PatchValue = Text(text: string) | NotText
  type Patch = seq<(string, PatchValue)>

  const PROVIDERS := [("GOOGLE", "google"), ("GITHUB", "github"), ("AMAZON", "amazon"), ("MICROSOFT", "microsoft")]
  const PAYMENT_KEYS := {"RAZORPAY_KEY_ID", "RAZORPAY_KEY_SECRET", "RAZORPAY_WEBHOOK_SECRET", "RAZORPAY_PREVIOUS_WEBHOOK_SECRET"}
  const MAIL_KEYS := {"SMTP_HOST", "SMTP_PORT", "SMTP_SECURE", "SMTP_USER", "SMTP_PASS", "FROM_EMAIL", "BYPASS_EMAIL_ERROR"}

  predicate Allowed(k: string) {
    k in PAYMENT_KEYS || k in MAIL_KEYS || exists i | 0 <= i < |PROVIDERS| ::
      k in {PROVIDERS[i].0 + "_CLIENT_ID", PROVIDERS[i].0 + "_CLIENT_SECRET", PROVIDERS[i].0 + "_REDIRECT_URI"}
  }

  ghost predicate DistinctKeys(patch: Patch) {
    forall i, j :: 0 <= i < j < |patch| ==> patch[i].0 != patch[j].0
  }

  function KeysOf(patch: Patch): set<string> {
    set i | 0 <= i < |patch| :: patch[i].0
  }

  function Get(patch: Patch, key: string): string {
    if patch == [] then "" else if patch[0].0 == key && patch[0].1.Text? then patch[0].1.text else Get(patch[1..], key)
  }

  predicate ProviderComplete(patch: Patch, name: string, lower: string, domain: string) {
    var id, secret, uri := name + "_CLIENT_ID", name + "_CLIENT_SECRET", name + "_REDIRECT_URI";
    (id !in KeysOf(patch) && secret !in KeysOf(patch) && uri !in KeysOf(patch))
    || (Get(patch, id) != "" && Get(patch, secret) != ""
        && Get(patch, uri) == "https://" + domain + "/api/auth/oauth/" + lower + "/callback")
  }

  /** Lines 19-41; `port` says whether a text is a port number. */
  predicate Acceptable(patch: Patch, domain: string, port: string -> bool) {
    && patch != []
    && (forall i :: 0 <= i < |patch| ==> Allowed(patch[i].0))
    && (forall i :: 0 <= i < |patch| ==>
          patch[i].1.Text? && '\r' !in patch[i].1.text && '\n' !in patch[i].1.text && '\'' !in patch[i].1.text)
    && "rzp_test_" <= Get(patch, "RAZORPAY_KEY_ID") && Get(patch, "RAZORPAY_KEY_SECRET") != ""
    && Get(patch, "BYPASS_EMAIL_ERROR") == "false"
    && Get(patch, "SMTP_HOST") != "" && Get(patch, "SMTP_PORT") != "" && Get(patch, "SMTP_USER") != ""
    && Get(patch, "SMTP_PASS") != "" && Get(patch, "FROM_EMAIL") != ""
    && port(Get(patch, "SMTP_PORT"))
    && Get(patch, "SMTP_SECURE") in {"true", "false"}
    && forall i :: 0 <= i < |PROVIDERS| ==> ProviderComplete(patch, PROVIDERS[i].0, PROVIDERS[i].1, domain)
  }

  datatype Scanned = Scanned(values: Settings, retained: seq<string>)

  /** Lines 42-56: the settings found, and the lines that stay. */
  function Scan(lines: seq<string>, replaced: set<string>): Outcome<Scanned> {
    if lines == [] then Fine(Scanned(map[], []))
    else
      var before := Scan(lines[..|lines| - 1], replaced);
      var line := lines[|lines| - 1];
      if before.Failed? then Failed
      else if Idle(line) then Fine(before.value.(retained := before.value.retained + [line]))
      else
        var parsed := MergeSetting(Strip(line));
        if parsed.Malformed? || parsed.key in before.value.values then Failed
        else Fine(Scanned(before.value.values[parsed.key := parsed.value],
                          if parsed.key in replaced then before.value.retained else before.value.retained + [line]))
  }

  /** Lines 57-63. */
  function Scalar(values: Settings, key: string, json: Json): Outcome<string> {
    var raw := if key in values then values[key] else "";
    if raw != [] && raw[0] == '"' then json(raw)
    else if raw != [] && raw[0] == '\'' && raw[|raw| - 1] == '\'' then Fine(if |raw| == 1 then "" else raw[1..|raw| - 1])
    else Fine(TrimEnd(BeforeComment(raw)))
  }

  function Rendered(patch: Patch): seq<string>
    requires forall i :: 0 <= i < |patch| ==> patch[i].1.Text?
  {
    seq(|patch|, i requires 0 <= i < |patch| => Quoted(patch[i].0, patch[i].1.text))
  }

  function Quoted(key: string, value: string): string { key + "='" + value + "'" }

  const HEADING := "# Production " + "integrations " + "(Razorpay TEST " + "mode)"

  function Printed(retained: seq<string>, patch: Patch): string
    requires forall i :: 0 <= i < |patch| ==> patch[i].1.Text?
  {
    TrimEnd(Join(retained)) + "\n\n" + HEADING + "\n" + Join(Rendered(patch)) + "\n"
  }

  method Merge(original: string, patch: Patch, domain: string, json: Json, port: string -> bool) returns (r: Outcome<string>)
    ensures r.Fine? ==> Acceptable(patch, domain, port)
    ensures r.Fine? ==> Scan(SplitLines(original), KeysOf(patch)).Fine?
    ensures r.Fine? ==> r.value == Printed(Scan(SplitLines(original), KeysOf(patch)).value.retained, patch)
    ensures r.Fine? <==>
      && Acceptable(patch, domain, port) && Scan(SplitLines(original), KeysOf(patch)).Fine?
      && Scalar(Scan(SplitLines(original), KeysOf(patch)).value.values, "NODE_ENV", json) == Fine("production")
      && Scalar(Scan(SplitLines(original), KeysOf(patch)).value.values, "DOMAIN", json) == Fine(domain)
  {
    if !Acceptable(patch, domain, port) {
      return Failed;
    }
    hide Acceptable, Scalar;
    assert forall i :: 0 <= i < |patch| ==> patch[i].1.Text? by {
      TextOfAcceptable(patch, domain, port);
    }
    var lines := SplitLines(original);
    var values: Settings, retained: seq<string> := map[], [];
    for i := 0 to |lines|
      invariant Scan(lines[..i], KeysOf(patch)) == Fine(Scanned(values, retained))
    {
      var line := lines[i];
      var stripped := Strip(line);
      assert lines[..i + 1][..i] == lines[..i];
      ScanFailsOnward(lines[..i + 1], lines[i + 1..], KeysOf(patch));
      assert lines[..i + 1] + lines[i + 1..] == lines;
      if stripped == [] || stripped[0] == '#' {
        retained := retained + [line];
        continue;
      }
      var parsed := MergeSetting(stripped);
      if parsed.Malformed? || parsed.key in values {
        return Failed;
      }
      values := values[parsed.key := parsed.value];
      if parsed.key !in KeysOf(patch) {
        retained := retained + [line];
      }
    }
    assert lines[..|lines|] == lines;
    if Scalar(values, "NODE_ENV", json) != Fine("production") || Scalar(values, "DOMAIN", json) != Fine(domain) {
      return Failed;
    }
    return Fine(Printed(retained, patch));
  }

  lemma TextOfAcceptable(patch: Patch, domain: string, port: string -> bool)
    requires Acceptable(patch, domain, port)
    ensures forall i :: 0 <= i < |patch| ==> patch[i].1.Text? && Allowed(patch[i].0)
  {
  }

  lemma {:induction false} ScanFailsOnward(a: seq<string>, b: seq<string>, replaced: set<string>)
    ensures Scan(a, replaced).Failed? ==> Scan(a + b, replaced).Failed?
    decreases |b|
  {
    if b == [] {
      assert a + b == a;
    } else {
      ScanFailsOnward(a, b[..|b| - 1], replaced);
      assert (a + b)[..|a + b| - 1] == a + b[..|b| - 1];
    }
  }
}
