/** What an accepted update makes of the production file: read back, it is still the production file of the
    domain, on test payments and with mail, and nothing but the integrations has changed. */
module EnvProduction {
  import opened EnvFile
  import opened EnvRoundTrip
  import opened PyText

  // The same value in both programs

  lemma TrimmedEnd(s: string)
    requires s != [] ==> !Space(s[|s| - 1])
    ensures Strip(s) == TrimStart(s)
  {
    var n := TrimStartCuts(s);
    assert s[n..] != [] ==> s[n..][|s[n..]| - 1] == s[|s| - 1];
  }

  /** White space before a key moves the value nowhere. */
  lemma SpacedValue(rest: string)
    requires rest != [] ==> !Space(rest[|rest| - 1])
    requires FirstEquals(TrimStart(rest)) < |TrimStart(rest)|
    ensures FirstEquals(rest) < |rest|
    ensures var body := TrimStart(rest); Strip(rest[FirstEquals(rest) + 1..]) == TrimStart(body[FirstEquals(body) + 1..])
  {
    hide TrimStart, Strip;
    var n := TrimStartCuts(rest);
    FirstEqualsShift(rest, n);
    var m := FirstEquals(rest[n..]);
    var value := rest[n + m + 1..];
    assert rest[n..][m + 1..] == value;
    assert value != [] ==> value[|value| - 1] == rest[|rest| - 1];
    TrimmedEnd(value);
  }

  lemma NoSpaceFirst(s: string)
    requires s != [] ==> !Space(s[0])
    ensures TrimStart(s) == s
  {
  }

  lemma SpaceFirst(s: string)
    requires s != [] && Space(s[0])
    ensures TrimStart(s) == TrimStart(s[1..])
  {
  }

  /** Behind the same key both programs find the same text. */
  lemma SameValue(line: string, json: Json)
    requires Bare(line) && MergeSetting(line).Setting? && ReadSetting(line, json).Setting?
    ensures MergeSetting(line).key == ReadSetting(line, json).key
    ensures Decode(MergeSetting(line).value, json) == Fine(ReadSetting(line, json).value)
  {
    SameKey(line, json);
    if "export " <= line {
      ExportedValue(line, json);
    } else {
      hide Decode, Strip, TrimStart, TrimEnd, KeyText;
      ExportNeedsSpace(line);
      NoSpaceFirst(line);
      SpacedValue(line);
    }
  }

  lemma ExportedValue(line: string, json: Json)
    requires Bare(line) && "export " <= line && MergeSetting(line).Setting? && ReadSetting(line, json).Setting?
    ensures Decode(MergeSetting(line).value, json) == Fine(ReadSetting(line, json).value)
  {
    hide Decode, Strip, TrimStart, TrimEnd, KeyText;
    assert "export" <= line && line[6] == ' ' && line[6..][1..] == line[7..] && line[6..][0] == ' ';
    SpaceFirst(line[6..]);
    var rest := line[7..];
    assert rest != [] ==> rest[|rest| - 1] == line[|line| - 1];
    SpacedValue(rest);
  }

  /** The texts that `merge` collects decode to the settings that `read_env` finds. */
  ghost predicate Decodes(values: Settings, settings: Settings, json: Json) {
    values.Keys == settings.Keys && forall k :: k in values ==> Decode(values[k], json) == Fine(settings[k])
  }

  lemma DecodesOneMore(values: Settings, settings: Settings, k: string, raw: string, value: string, json: Json)
    requires Decodes(values, settings, json) && Decode(raw, json) == Fine(value)
    ensures Decodes(values[k := raw], settings[k := value], json)
  {
    hide Decode;
  }

  lemma {:induction false} ScanDecodes(lines: seq<string>, replaced: set<string>, json: Json)
    requires Scan(lines, replaced).Fine? && ReadAll(Code(lines), json).Fine?
    ensures Decodes(Scan(lines, replaced).value.values, ReadAll(Code(lines), json).value, json)
  {
    if lines == [] {
      assert Code([]) == [];
    } else {
      hide MergeSetting, ReadSetting, Decode, ReadAll, Code, Scan, Strip, Decodes;
      var before, line := lines[..|lines| - 1], lines[|lines| - 1];
      assert before + [line] == lines;
      ScanSnoc(before, line, replaced);
      CodeSnoc(before, line);
      if Idle(line) {
        assert Code(before) + [] == Code(before);
        ScanDecodes(before, replaced, json);
      } else {
        ReadSnoc(Code(before), Strip(line), json);
        ScanDecodes(before, replaced, json);
        StrippedIsBare(line);
        SameValue(Strip(line), json);
        var parsed, read := MergeSetting(Strip(line)), ReadSetting(Strip(line), json);
        DecodesOneMore(Scan(before, replaced).value.values, ReadAll(Code(before), json).value, parsed.key, parsed.value, read.value, json);
      }
    }
  }

  lemma StrippedIsBare(line: string)
    ensures Bare(Strip(line))
  {
    TrimStartBare(line);
    TrimEndBare(TrimStart(line));
  }

  /** Lines 57-63 agree with `read_env` wherever that reads the value. */
  lemma ScalarIsRead(values: Settings, settings: Settings, key: string, json: Json)
    requires Decodes(values, settings, json)
    ensures Scalar(values, key, json) == Fine(if key in settings then settings[key] else "")
  {
    if key in values {
      assert Decode(values[key], json) == Fine(settings[key]);
    }
  }

  // What the patch says

  lemma GetIsPatched(patch: Patch, k: string)
    requires AllText(patch) && DistinctKeys(patch) && Get(patch, k) != ""
    ensures k in Patched(patch) && Patched(patch)[k] == Get(patch, k)
  {
    var i := Found(patch, k);
    PatchedAt(patch, i);
  }

  lemma {:induction false} Found(patch: Patch, k: string) returns (i: nat)
    requires (forall i :: 0 <= i < |patch| ==> patch[i].1.Text?) && Get(patch, k) != ""
    ensures i < |patch| && patch[i].0 == k && patch[i].1.text == Get(patch, k)
  {
    if patch[0].0 == k {
      i := 0;
    } else {
      i := Found(patch[1..], k);
      i := i + 1;
    }
  }

  /** The settings an update may touch: payments, mail and sign-in providers. */
  predicate Integration(k: string) {
    k == "RAZORPAY_KEY_ID" || k == "RAZORPAY_KEY_SECRET" || k == "RAZORPAY_WEBHOOK_SECRET" || k == "RAZORPAY_PREVIOUS_WEBHOOK_SECRET"
    || k == "SMTP_HOST" || k == "SMTP_PORT" || k == "SMTP_SECURE" || k == "SMTP_USER" || k == "SMTP_PASS" || k == "FROM_EMAIL"
    || k == "BYPASS_EMAIL_ERROR"
    || "GOOGLE_" <= k || "GITHUB_" <= k || "AMAZON_" <= k || "MICROSOFT_" <= k
  }

  lemma AllowedIsIntegration(k: string)
    requires Allowed(k)
    ensures Integration(k)
  {
    if k !in PAYMENT_KEYS && k !in MAIL_KEYS {
      var i :| 0 <= i < |PROVIDERS| && k in {PROVIDERS[i].0 + "_CLIENT_ID", PROVIDERS[i].0 + "_CLIENT_SECRET", PROVIDERS[i].0 + "_REDIRECT_URI"};
      assert i == 0 || i == 1 || i == 2 || i == 3;
      assert PROVIDERS[i].0 + "_" <= k by {
        StartsWith(PROVIDERS[i].0, k);
      }
    }
  }

  lemma StartsWith(name: string, k: string)
    requires k in {name + "_CLIENT_ID", name + "_CLIENT_SECRET", name + "_REDIRECT_URI"}
    ensures name + "_" <= k
  {
  }

  /** An update of a production file, if no value has a line separator in it. The result is the production
      file of the same domain. It uses test payments, does not pass over mail errors and names a mail
      server with a port. Every other setting is as it was, and none is new. */
  lemma MergedIsProduction(original: string, patch: Patch, domain: string, port: string -> bool, json: Json)
    requires Acceptable(patch, domain, port) && DistinctKeys(patch) && AllText(patch) && OneLine(patch)
    requires Scan(SplitLines(original), KeysOf(patch)).Fine? && ReadEnv(original, json).Fine?
    requires Scalar(Scan(SplitLines(original), KeysOf(patch)).value.values, "NODE_ENV", json) == Fine("production")
    requires Scalar(Scan(SplitLines(original), KeysOf(patch)).value.values, "DOMAIN", json) == Fine(domain) && domain != ""
    ensures ReadEnv(Merged(original, patch), json).Fine?
    ensures var before, after := ReadEnv(original, json).value, ReadEnv(Merged(original, patch), json).value;
            && "NODE_ENV" in after && after["NODE_ENV"] == "production" && "DOMAIN" in after && after["DOMAIN"] == domain
            && "RAZORPAY_KEY_ID" in after && "rzp_test_" <= after["RAZORPAY_KEY_ID"]
            && "RAZORPAY_KEY_SECRET" in after && after["RAZORPAY_KEY_SECRET"] != ""
            && "BYPASS_EMAIL_ERROR" in after && after["BYPASS_EMAIL_ERROR"] == "false"
            && "SMTP_PORT" in after && port(after["SMTP_PORT"])
            && "SMTP_SECURE" in after && after["SMTP_SECURE"] in {"true", "false"}
            && (forall k :: k in {"SMTP_HOST", "SMTP_USER", "SMTP_PASS", "FROM_EMAIL"} ==> k in after && after[k] != "")
            && (forall k :: !Integration(k) ==> (k in after <==> k in before) && (k in before ==> after[k] == before[k]))
  {
    hide Scan, ReadAll, Decode, Merged, KeysOf, Scalar, Code, Decodes, Acceptable, KeyText, DistinctKeys, Unbroken, Integration, Patched;
    MergeRoundTrips(original, patch, domain, port, json);
    SplitLinesIsPieces(original);
    var lines := SplitLines(original);
    var before := ReadEnv(original, json).value;
    ScanDecodes(lines, KeysOf(patch), json);
    ScalarIsRead(Scan(lines, KeysOf(patch)).value.values, before, "NODE_ENV", json);
    ScalarIsRead(Scan(lines, KeysOf(patch)).value.values, before, "DOMAIN", json);
    PatchSays(patch, domain, port);
    NotIntegrations();
  }

  /** What an acceptable patch sets. */
  lemma PatchSays(patch: Patch, domain: string, port: string -> bool)
    requires Acceptable(patch, domain, port) && DistinctKeys(patch) && AllText(patch)
    ensures var p := Patched(patch);
            && "RAZORPAY_KEY_ID" in p && "rzp_test_" <= p["RAZORPAY_KEY_ID"]
            && "RAZORPAY_KEY_SECRET" in p && p["RAZORPAY_KEY_SECRET"] != ""
            && "BYPASS_EMAIL_ERROR" in p && p["BYPASS_EMAIL_ERROR"] == "false"
            && "SMTP_PORT" in p && port(p["SMTP_PORT"])
            && "SMTP_SECURE" in p && p["SMTP_SECURE"] in {"true", "false"}
            && (forall k :: k in {"SMTP_HOST", "SMTP_USER", "SMTP_PASS", "FROM_EMAIL"} ==> k in p && p[k] != "")
            && (forall k :: k in p ==> Integration(k))
  {
    hide Allowed, KeyText, DistinctKeys, Integration, Patched, Get;
    OnlyIntegrations(patch);
    forall k | k in {"RAZORPAY_KEY_ID", "RAZORPAY_KEY_SECRET", "BYPASS_EMAIL_ERROR", "SMTP_PORT", "SMTP_SECURE", "SMTP_HOST", "SMTP_USER", "SMTP_PASS", "FROM_EMAIL"}
      ensures k in Patched(patch) && Patched(patch)[k] == Get(patch, k)
    {
      GetIsPatched(patch, k);
    }
  }

  lemma NotIntegrations()
    ensures !Integration("NODE_ENV") && !Integration("DOMAIN")
  {
    assert "GOOGLE_"[0] == 'G' && "GITHUB_"[0] == 'G' && "AMAZON_"[0] == 'A' && "MICROSOFT_"[0] == 'M';
    assert "NODE_ENV"[0] == 'N' && "DOMAIN"[0] == 'D';
  }

  lemma {:induction false} OnlyIntegrations(patch: Patch)
    requires forall i :: 0 <= i < |patch| ==> patch[i].1.Text? && Allowed(patch[i].0)
    ensures forall k :: k in Patched(patch) ==> Integration(k)
  {
    if patch != [] {
      hide Allowed, Integration;
      AllowedIsIntegration(patch[|patch| - 1].0);
      OnlyIntegrations(patch[..|patch| - 1]);
    }
  }
}
