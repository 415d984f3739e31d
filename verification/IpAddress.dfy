/** Client addresses: backend/src/utils/location.js, lines 4-25. `isIP` is Node's test, 0 for a
    text that is no address; texts are taken to be lower-cased letter by letter in ASCII. */
module IpAddress {
  import opened BillingTypes
  import opened JsText

  const MAPPED := "::ffff:"

  predicate HexDigit(c: char) { '0' <= c <= '9' || 'a' <= c <= 'f' }

  function HexValue(c: char): (v: nat)
    requires HexDigit(c)
    ensures v < 16
  {
    if c <= '9' then (c - '0') as nat else 10 + (c - 'a') as nat
  }

  predicate HexGroup(s: string) {
    1 <= |s| <= 4 && forall i :: 0 <= i < |s| ==> HexDigit(s[i])
  }

  function ParseHex(s: string): nat
    requires forall i :: 0 <= i < |s| ==> HexDigit(s[i])
  {
    if s == [] then 0 else ParseHex(s[..|s| - 1]) * 16 + HexValue(s[|s| - 1])
  }

  lemma GroupValue(s: string)
    requires HexGroup(s)
    ensures ParseHex(s) < 65536
  {
    HexBound(s);
  }

  function Pow16(n: nat): nat { if n == 0 then 1 else 16 * Pow16(n - 1) }

  lemma {:induction false} HexBound(s: string)
    requires forall i :: 0 <= i < |s| ==> HexDigit(s[i])
    ensures ParseHex(s) < Pow16(|s|)
    ensures Pow16(4) == 65536 && (|s| <= 4 ==> Pow16(|s|) <= 65536)
  {
    if s != [] {
      HexBound(s[..|s| - 1]);
    }
  }

  function Decimal(n: nat): (r: string)
    ensures r != [] && forall i :: 0 <= i < |r| ==> '0' <= r[i] <= '9'
  {
    if n < 10 then [(n as char) + '0'] else Decimal(n / 10) + [((n % 10) as char) + '0']
  }

  function Dotted(high: nat, low: nat): string {
    Decimal(high / 256) + "." + Decimal(high % 256) + "." + Decimal(low / 256) + "." + Decimal(low % 256)
  }

  /** The two groups of a mapped address in hexadecimal, if that is what the text is. */
  function Groups(s: string): Option<(string, string)> {
    if exists i :: 0 <= i < |s| && s[i] == ':' && HexGroup(s[..i]) && HexGroup(s[i + 1..]) then
      var i :| 0 <= i < |s| && s[i] == ':' && HexGroup(s[..i]) && HexGroup(s[i + 1..]);
      assert forall j :: 0 <= j < |s| && s[j] == ':' && HexGroup(s[..j]) && HexGroup(s[j + 1..]) ==> j == i by { OneColon(s, i); }
      Some((s[..i], s[i + 1..]))
    else None
  }

  lemma OneColon(s: string, i: nat)
    requires i < |s| && s[i] == ':' && HexGroup(s[..i]) && HexGroup(s[i + 1..])
    ensures forall j :: 0 <= j < |s| && s[j] == ':' ==> j == i
  {
    forall j | 0 <= j < |s| && j != i
      ensures s[j] != ':'
    {
      if j < i {
        assert HexDigit(s[..i][j]);
      } else {
        assert HexDigit(s[i + 1..][j - i - 1]);
      }
    }
  }

  /** An IPv4-mapped address loses its prefix, and two hexadecimal groups become four octets. */
  function Unmapped(ip: string): string {
    if MAPPED <= ip then
      var rest := ip[|MAPPED|..];
      var groups := Groups(rest);
      if groups.Some? then Dotted(ParseHex(groups.value.0), ParseHex(groups.value.1)) else rest
    else ip
  }

  function Normalize(value: string, isIP: string -> nat): Option<string> {
    var ip := Unmapped(Lower(Trim(value)));
    if isIP(ip) != 0 then Some(ip) else None
  }

  /** The dotted form of a 32-bit number. */
  function DottedNumber(n: nat): string {
    Decimal(n / 16777216) + "." + Decimal(n / 65536 % 256) + "." + Decimal(n / 256 % 256) + "." + Decimal(n % 256)
  }

  lemma OctetsOf(high: nat, low: nat)
    requires high < 65536 && low < 65536
    ensures var n := high * 65536 + low;
            && n < 0x1_0000_0000
            && n / 16777216 == high / 256 && n / 65536 % 256 == high % 256 && n / 256 % 256 == low / 256 && n % 256 == low % 256
  {
  }

  lemma GroupsOf(s: string, t: string)
    requires HexGroup(s) && HexGroup(t)
    ensures Groups(s + ":" + t) == Some((s, t))
  {
    var text := s + ":" + t;
    assert text[|s|] == ':' && text[..|s|] == s && text[|s| + 1..] == t;
    OneColon(text, |s|);
  }

  lemma DottedIs(high: nat, low: nat)
    requires high < 65536 && low < 65536
    ensures Dotted(high, low) == DottedNumber(high * 65536 + low)
  {
    hide Decimal;
    OctetsOf(high, low);
  }

  /** A mapped address in hexadecimal becomes the dotted form of the 32-bit number that its two groups
      write. */
  lemma MappedOctets(s: string, t: string)
    requires HexGroup(s) && HexGroup(t)
    ensures var n := ParseHex(s) * 65536 + ParseHex(t);
            n < 0x1_0000_0000 && Unmapped(MAPPED + s + ":" + t) == DottedNumber(n)
  {
    hide Decimal, ParseHex, Groups, Dotted, DottedNumber;
    var ip := MAPPED + s + ":" + t;
    assert ip[|MAPPED|..] == s + ":" + t;
    GroupsOf(s, t);
    GroupValue(s);
    GroupValue(t);
    DottedIs(ParseHex(s), ParseHex(t));
  }

  // Normalizing twice

  /** Node accepts no text with white space in it. */
  ghost predicate NoSpaces(isIP: string -> nat) {
    forall s, i :: isIP(s) != 0 && 0 <= i < |s| ==> !Space(s[i])
  }

  lemma DottedIsPlain(high: nat, low: nat)
    ensures Bare(Dotted(high, low)) && Lowered(Dotted(high, low)) && !(MAPPED <= Dotted(high, low))
  {
    var a, b, c, d := Decimal(high / 256), Decimal(high % 256), Decimal(low / 256), Decimal(low % 256);
    var r := Dotted(high, low);
    assert r == a + "." + b + "." + c + "." + d;
    assert r[0] == a[0] && r[|r| - 1] == d[|d| - 1];
  }

  lemma UnmappedIsPlain(ip: string, isIP: string -> nat)
    requires NoSpaces(isIP) && Bare(ip) && Lowered(ip) && isIP(Unmapped(ip)) != 0
    ensures Bare(Unmapped(ip)) && Lowered(Unmapped(ip))
  {
    if MAPPED <= ip {
      var groups := Groups(ip[|MAPPED|..]);
      if groups.Some? {
        DottedIsPlain(ParseHex(groups.value.0), ParseHex(groups.value.1));
      }
    }
  }

  lemma ShorterUnmapped(ip: string)
    requires MAPPED <= ip
    ensures Unmapped(ip) != ip
  {
    var groups := Groups(ip[|MAPPED|..]);
    if groups.Some? {
      DottedIsPlain(ParseHex(groups.value.0), ParseHex(groups.value.1));
    }
  }

  lemma NotGroups(s: string)
    requires s != [] && s[0] == ':'
    ensures Groups(s).None?
  {
    forall i | 0 < i < |s|
      ensures !HexGroup(s[..i])
    {
      assert s[..i][0] == ':';
    }
  }

  lemma PrefixOfRest(a: string, b: string, rest: string)
    ensures a + b <= a + rest <==> b <= rest
  {
    if |b| <= |rest| {
      assert (a + rest)[..|a| + |b|] == a + rest[..|b|];
      assert (a + b)[|a|..] == b && (a + rest[..|b|])[|a|..] == rest[..|b|];
    }
  }

  lemma StillMapped(ip: string)
    ensures MAPPED <= Unmapped(ip) <==> MAPPED + MAPPED <= ip
  {
    if MAPPED <= ip {
      var rest := ip[|MAPPED|..];
      assert ip == MAPPED + rest;
      PrefixOfRest(MAPPED, MAPPED, rest);
      var groups := Groups(rest);
      if MAPPED <= rest {
        NotGroups(rest);
      } else if groups.Some? {
        DottedIsPlain(ParseHex(groups.value.0), ParseHex(groups.value.1));
      }
    }
  }

  /** A normalized address is its own normal form exactly unless the address it was made from had the
      mapped prefix twice: only one is taken off. */
  lemma NormalizeIsIdempotent(value: string, isIP: string -> nat)
    requires NoSpaces(isIP) && Normalize(value, isIP).Some?
    ensures var ip := Normalize(value, isIP).value; Normalize(ip, isIP) == Some(ip) <==> !(MAPPED + MAPPED <= Lower(Trim(value)))
  {
    TrimBare(value);
    LowerBare(Trim(value));
    var ip := Normalize(value, isIP).value;
    UnmappedIsPlain(Lower(Trim(value)), isIP);
    BareStays(ip);
    StillMapped(Lower(Trim(value)));
    if MAPPED <= ip {
      ShorterUnmapped(ip);
    }
  }

  /** An address that Node accepts although it is not in normal form. */
  lemma PrefixedTwice(isIP: string -> nat)
    requires isIP(MAPPED + "1.2.3.4") != 0
    ensures Normalize(MAPPED + MAPPED + "1.2.3.4", isIP) == Some(MAPPED + "1.2.3.4")
  {
    var ip := MAPPED + "1.2.3.4";
    var value := MAPPED + ip;
    assert value == MAPPED + MAPPED + "1.2.3.4";
    assert Bare(value) && Lowered(value);
    BareStays(value);
    assert value[|MAPPED|..] == ip;
    NotGroups(ip);
  }

  // Lines 15-25: public addresses

  /** An IPv4 address as the 32-bit number it stands for. */
  function Number(a: nat, b: nat, c: nat, d: nat): nat {
    a * 16777216 + b * 65536 + c * 256 + d
  }

  /** One of the `size` addresses from `first` on. */
  predicate Within(n: nat, first: nat, size: nat) {
    first <= n < first + size
  }

  /** 0/8, 10/8, 127/8 and 224/3. */
  predicate WholeReserved(n: nat) {
    Within(n, 0, 0x100_0000) || Within(n, 0x0A00_0000, 0x100_0000) || Within(n, 0x7F00_0000, 0x100_0000)
    || Within(n, 0xE000_0000, 0x2000_0000)
  }

  /** 100.64/10, 169.254/16, 172.16/12, 192.168/16, 192.0/16 and 198.18/15. */
  predicate PartReserved(n: nat) {
    Within(n, 0x6440_0000, 0x40_0000) || Within(n, 0xA9FE_0000, 0x1_0000) || Within(n, 0xAC10_0000, 0x10_0000)
    || Within(n, 0xC0A8_0000, 0x1_0000) || Within(n, 0xC000_0000, 0x1_0000) || Within(n, 0xC612_0000, 0x2_0000)
  }

  /** 198.51.100/24 and 203.0.113/24. */
  predicate SampleReserved(n: nat) {
    Within(n, 0xC633_6400, 0x100) || Within(n, 0xCB00_7100, 0x100)
  }

  predicate Reserved(n: nat) {
    WholeReserved(n) || PartReserved(n) || SampleReserved(n)
  }

  /** Lines 20-24, on the first three octets; a missing one is below all others. */
  predicate PublicOctets(a: int, b: int, c: int) {
    !(a == 0 || a == 10 || a == 127 || a >= 224 ||
      (a == 100 && b >= 64 && b <= 127) || (a == 169 && b == 254) ||
      (a == 172 && b >= 16 && b <= 31) || (a == 192 && b == 168) ||
      (a == 192 && b == 0) || (a == 198 && (b == 18 || b == 19)) ||
      (a == 198 && b == 51 && c == 100) || (a == 203 && b == 0 && c == 113))
  }

  lemma WholeBlocks(a: nat, b: nat, c: nat, d: nat)
    requires a < 256 && b < 256 && c < 256 && d < 256
    ensures WholeReserved(Number(a, b, c, d)) <==> a == 0 || a == 10 || a == 127 || a >= 224
  {
  }

  lemma PartBlocks(a: nat, b: nat, c: nat, d: nat)
    requires a < 256 && b < 256 && c < 256 && d < 256
    ensures PartReserved(Number(a, b, c, d)) <==>
      || (a == 100 && 64 <= b <= 127) || (a == 169 && b == 254) || (a == 172 && 16 <= b <= 31)
      || (a == 192 && b == 168) || (a == 192 && b == 0) || (a == 198 && 18 <= b <= 19)
  {
  }

  lemma SampleBlocks(a: nat, b: nat, c: nat, d: nat)
    requires a < 256 && b < 256 && c < 256 && d < 256
    ensures SampleReserved(Number(a, b, c, d)) <==> (a == 198 && b == 51 && c == 100) || (a == 203 && b == 0 && c == 113)
  {
  }

  /** The test on octets is membership in none of the twelve blocks. */
  lemma IsPublicV4(a: nat, b: nat, c: nat, d: nat)
    requires a < 256 && b < 256 && c < 256 && d < 256
    ensures PublicOctets(a, b, c) <==> !Reserved(Number(a, b, c, d))
  {
    hide Number, WholeReserved, PartReserved, SampleReserved;
    WholeBlocks(a, b, c, d);
    PartBlocks(a, b, c, d);
    SampleBlocks(a, b, c, d);
  }

  // Reading the octets

  function Split(s: string, at: char): (parts: seq<string>)
    ensures parts != []
  {
    if s == [] then [""]
    else if s[0] == at then [""] + Split(s[1..], at)
    else
      var rest := Split(s[1..], at);
      [[s[0]] + rest[0]] + rest[1..]
  }

  function ParseDecimal(s: string): int {
    if s == [] then 0 else ParseDecimal(s[..|s| - 1]) * 10 + (s[|s| - 1] as int - '0' as int)
  }

  function Octet(parts: seq<string>, i: nat): int {
    if i < |parts| then ParseDecimal(parts[i]) else -1
  }

  /** Lines 15-25; the address is normalized once more on the way. */
  function IsPublic(value: Option<string>, isIP: string -> nat): bool {
    var ip := if value.Some? then Normalize(value.value, isIP) else None;
    if ip.None? || ip.value == "" then false
    else if isIP(ip.value) == 6 then ip.value[0] in {'2', '3'} && !("2001:db8:" <= ip.value)
    else
      var parts := Split(ip.value, '.');
      PublicOctets(Octet(parts, 0), Octet(parts, 1), Octet(parts, 2))
  }

  lemma {:induction false} DecimalReads(n: nat)
    ensures ParseDecimal(Decimal(n)) == n
  {
    if n >= 10 {
      DecimalReads(n / 10);
      assert Decimal(n)[..|Decimal(n)| - 1] == Decimal(n / 10);
    }
  }

  lemma {:induction false} SplitFirst(s: string, at: char, rest: string)
    requires at !in s
    ensures Split(s + [at] + rest, at) == [s] + Split(rest, at)
  {
    var text := s + [at] + rest;
    if s == [] {
      assert text[1..] == rest;
    } else {
      SplitFirst(s[1..], at, rest);
      assert text[1..] == s[1..] + [at] + rest;
      assert [s[0]] + s[1..] == s;
    }
  }

  lemma DottedParts(a: string, b: string, c: string, d: string)
    requires '.' !in a && '.' !in b && '.' !in c
    ensures var parts := Split(a + "." + b + "." + c + "." + d, '.');
            |parts| >= 3 && parts[0] == a && parts[1] == b && parts[2] == c
  {
    assert a + "." + b + "." + c + "." + d == a + ['.'] + (b + ['.'] + (c + ['.'] + d));
    SplitFirst(a, '.', b + ['.'] + (c + ['.'] + d));
    SplitFirst(b, '.', c + ['.'] + d);
    SplitFirst(c, '.', d);
  }

  lemma Bytes(x: nat)
    ensures x == x / 256 * 256 + x % 256
  {
  }

  lemma OctetsBack(n: nat)
    requires n < 0x1_0000_0000
    ensures n / 16777216 < 256
    ensures Number(n / 16777216, n / 65536 % 256, n / 256 % 256, n % 256) == n
  {
    var high, low := n / 65536, n % 65536;
    assert n == high * 65536 + low;
    OctetsOf(high, low);
    Bytes(high);
    Bytes(low);
  }

  /** A dotted address, whatever it was read from, is public exactly when its number is in none of the
      reserved blocks. */
  lemma DottedIsPublic(n: nat, isIP: string -> nat)
    requires n < 0x1_0000_0000 && isIP(DottedNumber(n)) == 4
    ensures IsPublic(Some(DottedNumber(n)), isIP) <==> !Reserved(n)
  {
    hide Decimal, Reserved, Number, PublicOctets, Split, ParseDecimal, Trim, Lower;
    var a, b, c, d := n / 16777216, n / 65536 % 256, n / 256 % 256, n % 256;
    NumberIsPlain(n);
    BareStays(DottedNumber(n));
    DottedParts(Decimal(a), Decimal(b), Decimal(c), Decimal(d));
    DecimalReads(a);
    DecimalReads(b);
    DecimalReads(c);
    OctetsBack(n);
    IsPublicV4(a, b, c, d);
  }

  lemma NumberIsPlain(n: nat)
    requires n < 0x1_0000_0000
    ensures DottedNumber(n) != "" && Bare(DottedNumber(n)) && Lowered(DottedNumber(n)) && !(MAPPED <= DottedNumber(n))
  {
    hide Decimal;
    OctetsOf(n / 65536, n % 65536);
    assert n / 65536 * 65536 + n % 65536 == n;
    DottedIsPlain(n / 65536, n % 65536);
  }

  lemma {:induction false} HexPlain(s: string)
    requires HexGroup(s)
    ensures Lowered(s) && !Space(s[0]) && !Space(s[|s| - 1])
  {
  }

  /** An IPv4-mapped address in hexadecimal is judged by the IPv4 address that it stands for. */
  lemma MappedIsPublic(s: string, t: string, isIP: string -> nat)
    requires HexGroup(s) && HexGroup(t) && isIP(DottedNumber(ParseHex(s) * 65536 + ParseHex(t))) == 4
    ensures IsPublic(Normalize(MAPPED + s + ":" + t, isIP), isIP) <==> !Reserved(ParseHex(s) * 65536 + ParseHex(t))
  {
    hide IsPublic, Reserved, DottedNumber, Trim, Lower, ParseHex, Unmapped;
    HexPlain(s);
    HexPlain(t);
    var ip := MAPPED + s + ":" + t;
    assert ip[0] == ':' && ip[|ip| - 1] == t[|t| - 1];
    BareStays(ip);
    MappedOctets(s, t);
    DottedIsPublic(ParseHex(s) * 65536 + ParseHex(t), isIP);
  }
}
