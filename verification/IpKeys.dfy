/** When two client addresses share a rate-limit bucket (src/device-auth/ip.ts:45-62). */
module IpKeys {
  import opened Basics
  import opened IpKey
  import opened IpStrings
  import opened IpSpelling

  // ----- texts that reach the IPv6 branch -----

  lemma SpellingHasColon(text: string, h: seq<nat>)
    requires Spells(text, h)
    ensures !Free(text, ':') && |h| == 8
  {
    var f :| Render(f) == text && Denotes(f, h);
    match f
    case Whole(groups) =>
      assert |TailValues(groups)| <= |groups| + 1;
      assert text[|groups[0]|] == ':';
    case Gapped(head, rest) => assert text[|Join(head, ':')|] == ':';
  }

  lemma KeyOfSpelling(text: string, h: seq<nat>)
    requires Spells(text, h)
    ensures |h| == 8 && KeyOfCleaned(text) == HextetsKey(h)
  {
    SpellingHasColon(text, h);
    ExpandsExactlySpellings(text, h);
    if Dotted(text) { QuadWritten(text); }
  }

  // ----- keys -----

  lemma FourTexts(a: string, b: string, c: string, d: string, sep: char)
    requires AllFree([a, b, c, d], sep)
    ensures Split(Join([a, b, c, d], sep), sep) == [a, b, c, d]
  {
    SplitJoin([a, b, c, d], sep);
  }

  function NetworkText(h: seq<nat>): string requires |h| == 8 {
    Join([HexText(h[0]), HexText(h[1]), HexText(h[2]), HexText(h[3])], ':')
  }

  lemma HexTextFree(n: nat)
    ensures Free(HexText(n), ':')
  {
    HexTextBack(n);
  }

  lemma NetworkBack(h: seq<nat>)
    requires |h| == 8
    ensures Split(NetworkText(h), ':') == [HexText(h[0]), HexText(h[1]), HexText(h[2]), HexText(h[3])]
  {
    HexTextFree(h[0]);
    HexTextFree(h[1]);
    HexTextFree(h[2]);
    HexTextFree(h[3]);
    FourTexts(HexText(h[0]), HexText(h[1]), HexText(h[2]), HexText(h[3]), ':');
  }

  lemma SameNetworkText(g: seq<nat>, h: seq<nat>)
    requires |g| == 8 && |h| == 8 && NetworkText(g) == NetworkText(h)
    ensures g[..4] == h[..4]
  {
    NetworkBack(g);
    NetworkBack(h);
    forall i | 0 <= i < 4 ensures g[i] == h[i] {
      assert Split(NetworkText(g), ':')[i] == HexText(g[i]) && Split(NetworkText(h), ':')[i] == HexText(h[i]);
      HexTextBack(g[i]);
      HexTextBack(h[i]);
    }
  }

  /** Two IPv6 addresses that are not IPv4 in disguise share a key exactly when their first 64 bits agree. */
  lemma SameKeySameNetwork(s: string, t: string, g: seq<nat>, h: seq<nat>)
    requires Spells(s, g) && Spells(t, h) && !Mapped(g) && !Mapped(h)
    ensures |g| == 8 && |h| == 8 && (KeyOfCleaned(s) == KeyOfCleaned(t) <==> g[..4] == h[..4])
  {
    KeyOfSpelling(s, g);
    KeyOfSpelling(t, h);
    if KeyOfCleaned(s) == KeyOfCleaned(t) {
      var k := KeyOfCleaned(s);
      assert k[..|k| - 5] == NetworkText(g) && k[..|k| - 5] == NetworkText(h);
      SameNetworkText(g, h);
    }
    if g[..4] == h[..4] {
      assert forall i :: 0 <= i < 4 ==> g[i] == g[..4][i] && h[i] == h[..4][i];
    }
  }

  lemma DottedTextFree(a: nat, b: nat, c: nat, d: nat)
    ensures Free(DottedText(a, b, c, d), ':')
    ensures Split(DottedText(a, b, c, d), '.') == [DecText(a), DecText(b), DecText(c), DecText(d)]
  {
    DecTextBack(a);
    DecTextBack(b);
    DecTextBack(c);
    DecTextBack(d);
    var parts := [DecText(a), DecText(b), DecText(c), DecText(d)];
    FourTexts(DecText(a), DecText(b), DecText(c), DecText(d), '.');
    JoinFree(parts, '.', ':');
  }

  /** The hextets' dotted text is the quad's own, exactly for the quad they carry. */
  lemma DottedPair(m: nat, n: nat, v4: string)
    requires Quad(v4)
    ensures Ipv4(v4) == Some(DottedText(m / 256, m % 256, n / 256, n % 256)) <==> [m, n] == QuadValues(v4)
  {
    var o := Octets(v4).value;
    OctetsBounded(v4);
    SamePair(m, o[0], o[1]);
    SamePair(n, o[2], o[3]);
    SameDotted(m / 256, m % 256, n / 256, n % 256, o[0], o[1], o[2], o[3]);
  }

  /** `::ffff:a.b.c.d` in any spelling has the key of `a.b.c.d` in any spelling, and of no other IPv4 address. */
  lemma MappedHasIpv4Key(s: string, h: seq<nat>, v4: string)
    requires Spells(s, h) && Mapped(h) && Quad(v4)
    ensures KeyOfCleaned(s) == KeyOfCleaned(v4) <==> [h[6], h[7]] == QuadValues(v4)
  {
    KeyOfSpelling(s, h);
    DottedPair(h[6], h[7], v4);
  }

  /** No IPv4 address, in whatever clothing, shares a key with an IPv6 network. */
  lemma NetworkKeysApart(s: string, h: seq<nat>, t: string, g: seq<nat>, v4: string)
    requires Spells(s, h) && Mapped(h) && Spells(t, g) && !Mapped(g) && Quad(v4)
    ensures KeyOfCleaned(t) != KeyOfCleaned(s) && KeyOfCleaned(t) != KeyOfCleaned(v4)
  {
    KeyOfSpelling(s, h);
    KeyOfSpelling(t, g);
    var o, k := Octets(v4).value, KeyOfCleaned(t);
    DottedTextFree(h[6] / 256, h[6] % 256, h[7] / 256, h[7] % 256);
    DottedTextFree(o[0], o[1], o[2], o[3]);
    assert k[|k| - 5] == ':';
  }

  lemma SamePair(n: nat, hi: nat, lo: nat)
    requires lo < 256
    ensures n == hi * 256 + lo <==> n / 256 == hi && n % 256 == lo
  {}

  lemma SameDotted(a: nat, b: nat, c: nat, d: nat, e: nat, f: nat, g: nat, h: nat)
    ensures DottedText(a, b, c, d) == DottedText(e, f, g, h) <==> a == e && b == f && c == g && d == h
  {
    DottedTextFree(a, b, c, d);
    DottedTextFree(e, f, g, h);
    if DottedText(a, b, c, d) == DottedText(e, f, g, h) {
      assert [DecText(a), DecText(b), DecText(c), DecText(d)] == [DecText(e), DecText(f), DecText(g), DecText(h)];
      assert DecText(a) == DecText(e) && DecText(b) == DecText(f) && DecText(c) == DecText(g) && DecText(d) == DecText(h);
      DecTextBack(a);
      DecTextBack(b);
      DecTextBack(c);
      DecTextBack(d);
      DecTextBack(e);
      DecTextBack(f);
      DecTextBack(g);
      DecTextBack(h);
    }
  }

  // ----- what comes before: case, spaces, brackets, zones -----

  /** Lower-case characters of an address. */
  predicate AddressText(t: string) { t != "" && forall i :: 0 <= i < |t| ==> IsHex(t[i]) || t[i] == ':' || t[i] == '.' }

  lemma {:induction false} LowerCaseConcat(a: string, b: string)
    ensures LowerCase(a + b) == LowerCase(a) + LowerCase(b)
  {
    if a == "" {
      assert a + b == b;
    } else {
      LowerCaseConcat(a[1..], b);
      assert (a + b)[1..] == a[1..] + b;
    }
  }

  lemma {:induction false} LowerCaseAt(s: string, i: nat)
    requires i < |s|
    ensures LowerCase(s)[i] == Lower(s[i])
  {
    if i > 0 { LowerCaseAt(s[1..], i - 1); }
  }

  /** Trimming the end stops at the last character that is no space. */
  lemma {:induction false} TrimEndStops(x: string, c: char, z: string)
    requires !Space(c)
    ensures exists w :: TrimEnd(x + [c] + z) == x + [c] + w
  {
    var s := x + [c] + z;
    if z == "" {
      assert s == x + [c] + "" && TrimEnd(s) == s;
    } else if Space(s[|s| - 1]) {
      assert s[..|s| - 1] == x + [c] + z[..|z| - 1];
      TrimEndStops(x, c, z[..|z| - 1]);
    } else {
      assert TrimEnd(s) == s;
    }
  }

  lemma ZoneDropped(t: string, w: string)
    requires AddressText(t)
    ensures Split(t + "%" + w, '%')[0] == t && Split(t, '%') == [t]
  {
    SplitFree(t, '%');
    SplitConcat(t, w, '%');
  }

  predicate Blank(s: string) { forall i :: 0 <= i < |s| ==> Space(s[i]) }

  lemma {:induction false} TrimStartPad(left: string, s: string)
    requires Blank(left) && s != "" && !Space(s[0])
    ensures TrimStart(left + s) == s
  {
    if left == "" {
      assert left + s == s;
    } else {
      TrimStartPad(left[1..], s);
      assert (left + s)[1..] == left[1..] + s;
    }
  }

  lemma {:induction false} TrimEndPad(s: string, right: string)
    requires Blank(right) && s != "" && !Space(s[|s| - 1])
    ensures TrimEnd(s + right) == s
  {
    if right == "" {
      assert s + right == s;
    } else {
      TrimEndPad(s, right[..|right| - 1]);
      assert (s + right)[..|s + right| - 1] == s + right[..|right| - 1];
    }
  }

  lemma Trimmed(left: string, s: string, right: string)
    requires Blank(left) && Blank(right) && s != "" && !Space(s[0]) && !Space(s[|s| - 1])
    ensures TrimEnd(TrimStart(left + s + right)) == s
  {
    assert left + s + right == left + (s + right);
    TrimStartPad(left, s + right);
    TrimEndPad(s, right);
  }

  lemma EndsAreAddress(raw: string, t: string)
    requires AddressText(t) && LowerCase(raw) == t
    ensures raw != "" && t != "" && !Space(raw[0]) && !Space(raw[|raw| - 1]) && t[0] != '['
  {
    assert t != "" && |raw| == |t|;
    hide AddressText, IsHex, Space, LowerCase;
    LowerCaseAt(raw, 0);
    LowerCaseAt(raw, |raw| - 1);
    AddressChar(t, raw[0], 0);
    AddressChar(t, raw[|raw| - 1], |raw| - 1);
  }

  lemma AddressChar(t: string, c: char, i: nat)
    requires AddressText(t) && i < |t| && t[i] == Lower(c)
    ensures !Space(c) && t[i] != '['
  {}

  lemma CleanedPlain(raw: string, t: string, left: string, right: string)
    requires AddressText(t) && LowerCase(raw) == t && Blank(left) && Blank(right)
    ensures Cleaned(left + raw + right) == t
  {
    EndsAreAddress(raw, t);
    Trimmed(left, raw, right);
    ZoneDropped(t, "");
  }

  lemma LowerCaseBracketed(inside: string)
    ensures LowerCase("[" + inside + "]") == "[" + LowerCase(inside) + "]"
  {
    LowerCaseConcat("[" + inside, "]");
    LowerCaseConcat("[", inside);
    assert LowerCase("[") == "[" && LowerCase("]") == "]";
  }

  lemma CleanedBracketed(raw: string, t: string, left: string, right: string)
    requires AddressText(t) && LowerCase(raw) == t && Blank(left) && Blank(right)
    ensures Cleaned(left + ("[" + raw + "]") + right) == t
  {
    Trimmed(left, "[" + raw + "]", right);
    LowerCaseBracketed(raw);
    assert ("[" + t + "]")[1..|"[" + t + "]"| - 1] == t && Unbracketed("[" + t + "]") == t;
    ZoneDropped(t, "");
  }

  lemma LowerCaseZoned(raw: string, zone: string)
    ensures LowerCase(raw + "%" + zone) == LowerCase(raw) + "%" + LowerCase(zone)
  {
    LowerCaseConcat(raw + "%", zone);
    LowerCaseConcat(raw, "%");
    assert LowerCase("%") == "%";
  }

  lemma CleanedZoned(raw: string, t: string, zone: string, left: string)
    requires AddressText(t) && LowerCase(raw) == t && Blank(left)
    ensures Cleaned(left + (raw + "%" + zone)) == t
  {
    EndsAreAddress(raw, t);
    TrimEndStops(raw, '%', zone);
    var w :| TrimEnd(raw + ['%'] + zone) == raw + ['%'] + w;
    TrimStartPad(left, raw + "%" + zone);
    LowerCaseZoned(raw, w);
    var low := t + "%" + LowerCase(w);
    assert low[0] == t[0] && Unbracketed(low) == low;
    ZoneDropped(t, LowerCase(w));
  }

  lemma LowerCaseOneLine(s: string)
    requires OneLine(s)
    ensures OneLine(LowerCase(s))
  {
    forall i | 0 <= i < |s| ensures LowerCase(s)[i] != '\n' && LowerCase(s)[i] != '\r' {
      LowerCaseAt(s, i);
      assert s[i] in s;
    }
  }

  lemma CleanedBracketedZone(raw: string, t: string, zone: string, left: string, right: string)
    requires AddressText(t) && LowerCase(raw) == t && Blank(left) && Blank(right) && OneLine(zone)
    ensures Cleaned(left + ("[" + (raw + "%" + zone) + "]") + right) == t
  {
    var inside := raw + "%" + zone;
    Trimmed(left, "[" + inside + "]", right);
    LowerCaseBracketed(inside);
    LowerCaseZoned(raw, zone);
    LowerCaseOneLine(zone);
    var low := t + "%" + LowerCase(zone);
    assert ("[" + low + "]")[1..|"[" + low + "]"| - 1] == low && OneLine(low);
    ZoneDropped(t, LowerCase(zone));
  }

  /**
   * Upper case, white space around, brackets and a zone make no difference,
   * alone or together: in brackets, any zone a pattern's `.` matches; without
   * them, any at all.
   */
  lemma CleanedAlike(raw: string, t: string, zone: string, left: string, right: string)
    requires AddressText(t) && LowerCase(raw) == t && Blank(left) && Blank(right)
    ensures IpRateLimitKey(left + raw + right) == KeyOfCleaned(t)
    ensures IpRateLimitKey(left + ("[" + raw + "]") + right) == KeyOfCleaned(t)
    ensures IpRateLimitKey(left + (raw + "%" + zone)) == KeyOfCleaned(t)
    ensures OneLine(zone) ==> IpRateLimitKey(left + ("[" + (raw + "%" + zone) + "]") + right) == KeyOfCleaned(t)
  {
    CleanedPlain(raw, t, left, right);
    CleanedBracketed(raw, t, left, right);
    CleanedZoned(raw, t, zone, left);
    if OneLine(zone) { CleanedBracketedZone(raw, t, zone, left, right); }
  }
}
