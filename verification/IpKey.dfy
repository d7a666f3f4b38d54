/** The rate-limit key of a client IP (src/device-auth/ip.ts). */
module IpKey {
  import opened Basics

  // ----- strings -----

  predicate Free(s: string, sep: char) { sep !in s }

  /** `s.split(sep)`. */
  function Split(s: string, sep: char): (parts: seq<string>)
    ensures |parts| >= 1
  {
    if s == "" then [""]
    else
      var rest := Split(s[1..], sep);
      if s[0] == sep then [""] + rest else [[s[0]] + rest[0]] + rest[1..]
  }

  /** `parts.join(sep)`. */
  function Join(parts: seq<string>, sep: char): string {
    if parts == [] then "" else if |parts| == 1 then parts[0] else parts[0] + [sep] + Join(parts[1..], sep)
  }

  function Lower(c: char): char { if 'A' <= c <= 'Z' then c - 'A' + 'a' else c }

  function LowerCase(s: string): (t: string)
    ensures |t| == |s|
  {
    if s == "" then "" else [Lower(s[0])] + LowerCase(s[1..])
  }

  /** What `trim` takes off ASCII text: the space, and tab to carriage return. */
  predicate Space(c: char) { c == ' ' || '\t' <= c <= '\r' }

  function TrimStart(s: string): string { if s != "" && Space(s[0]) then TrimStart(s[1..]) else s }

  function TrimEnd(s: string): string { if s != "" && Space(s[|s| - 1]) then TrimEnd(s[..|s| - 1]) else s }

  // ----- digits -----

  predicate IsDigit(c: char) { '0' <= c <= '9' }

  predicate IsHex(c: char) { IsDigit(c) || 'a' <= c <= 'f' }

  function DigitOf(n: nat): char requires n < 16 { if n < 10 then '0' + n as char else 'a' + (n - 10) as char }

  function ValueOf(c: char): nat { if IsDigit(c) then (c - '0') as nat else if 'a' <= c <= 'f' then (c - 'a') as nat + 10 else 0 }

  /** `parseInt(s, base)` of a string of digits. */
  function Number(s: string, base: nat): nat {
    if s == "" then 0 else Number(s[..|s| - 1], base) * base + ValueOf(s[|s| - 1])
  }

  /** `n.toString(16)`. */
  function HexText(n: nat): string { if n < 16 then [DigitOf(n)] else HexText(n / 16) + [DigitOf(n % 16)] }

  /** `n.toString()`. */
  function DecText(n: nat): string { if n < 10 then [DigitOf(n)] else DecText(n / 10) + [DigitOf(n % 10)] }

  // ----- IPv4 -----

  predicate OctetText(s: string) { 1 <= |s| <= 3 && forall i :: 0 <= i < |s| ==> IsDigit(s[i]) }

  /** Four groups of one to three digits. */
  predicate Dotted(s: string) {
    var parts := Split(s, '.'); |parts| == 4 && forall i :: 0 <= i < 4 ==> OctetText(parts[i])
  }

  function Octets(s: string): Option<seq<nat>> {
    var parts := Split(s, '.');
    if Dotted(s) && forall i :: 0 <= i < 4 ==> Number(parts[i], 10) <= 255
    then Some([Number(parts[0], 10), Number(parts[1], 10), Number(parts[2], 10), Number(parts[3], 10)]) else None
  }

  function DottedText(a: nat, b: nat, c: nat, d: nat): string {
    Join([DecText(a), DecText(b), DecText(c), DecText(d)], '.')
  }

  /** `ipv4`: the address without leading zeros, or nothing. */
  function Ipv4(value: string): Option<string> {
    var octets := Octets(value);
    if octets.Some? && |octets.value| == 4
    then Some(DottedText(octets.value[0], octets.value[1], octets.value[2], octets.value[3])) else None
  }

  // ----- IPv6 -----

  predicate Hextet(s: string) { 1 <= |s| <= 4 && forall i :: 0 <= i < |s| ==> IsHex(s[i]) }

  predicate AllHextets(groups: seq<string>) { forall i :: 0 <= i < |groups| ==> Hextet(groups[i]) }

  function Values(groups: seq<string>): (v: seq<nat>)
    ensures |v| == |groups|
  {
    if groups == [] then [] else [Number(groups[0], 16)] + Values(groups[1..])
  }

  function Zeros(n: nat): (z: seq<nat>) ensures |z| == n { if n == 0 then [] else [0] + Zeros(n - 1) }

  /** Where the first "::" starts. */
  function FirstDouble(s: string): (r: Option<nat>)
    ensures r.Some? ==> r.value + 2 <= |s| && s[r.value] == ':' && s[r.value + 1] == ':'
  {
    if |s| < 2 then None
    else if s[0] == ':' && s[1] == ':' then Some(0)
    else
      var rest := FirstDouble(s[1..]);
      if rest.Some? then Some(rest.value + 1) else None
  }

  function Parse(s: string): seq<string> { if s == "" then [] else Split(s, ':') }

  /** The two shapes of an address: all groups written, or one gap. */
  datatype Form = Whole(groups: seq<string>) | Gapped(head: seq<string>, rest: seq<string>)

  /** `text.split('::')` and the split of its one or two halves; more halves are refused. */
  function ParseForm(text: string): Option<Form> {
    var at := FirstDouble(text);
    if at.None? then Some(Whole(Parse(text)))
    else if FirstDouble(text[at.value + 2..]).Some? then None
    else Some(Gapped(Parse(text[..at.value]), Parse(text[at.value + 2..])))
  }

  function ExpandForm(f: Form): Option<seq<nat>> {
    match f
    case Whole(groups) => if AllHextets(groups) && |groups| == 8 then Some(Values(groups)) else None
    case Gapped(head, rest) =>
      if AllHextets(head) && AllHextets(rest) && |head| + |rest| < 8
      then Some(Values(head) + Zeros(8 - |head| - |rest|) + Values(rest)) else None
  }

  function ExpandPlain(text: string): Option<seq<nat>> {
    var f := ParseForm(text);
    if f.Some? then ExpandForm(f.value) else None
  }

  function HextetPair(octets: seq<nat>): string requires |octets| == 4 {
    HexText(octets[0] * 256 + octets[1]) + ":" + HexText(octets[2] * 256 + octets[3])
  }

  /** A dotted tail after the last colon becomes two hextets first. */
  function ExpandIpv6(value: string): Option<seq<nat>> {
    var pieces := Split(value, ':');
    var last := pieces[|pieces| - 1];
    if |pieces| >= 2 && Dotted(last) && |last| <= |value| then
      var octets := Octets(last);
      if octets.Some? && |octets.value| == 4 then ExpandPlain(value[..|value| - |last|] + HextetPair(octets.value)) else None
    else ExpandPlain(value)
  }

  // ----- the key -----

  predicate Mapped(h: seq<nat>) { |h| == 8 && h[..5] == [0, 0, 0, 0, 0] && h[5] == 0xffff }

  function HextetsKey(h: seq<nat>): string requires |h| == 8 {
    if Mapped(h) then DottedText(h[6] / 256, h[6] % 256, h[7] / 256, h[7] % 256)
    else Join([HexText(h[0]), HexText(h[1]), HexText(h[2]), HexText(h[3])], ':') + "::/64"
  }

  /** What `.` matches in a pattern. */
  predicate OneLine(s: string) { '\n' !in s && '\r' !in s }

  function Unbracketed(s: string): string {
    if |s| >= 2 && s[0] == '[' && s[|s| - 1] == ']' && OneLine(s[1..|s| - 1]) then s[1..|s| - 1] else s
  }

  /** Trimmed, lower-cased, without brackets or zone. */
  function Cleaned(raw: string): string { Split(Unbracketed(LowerCase(TrimEnd(TrimStart(raw)))), '%')[0] }

  function KeyOfCleaned(value: string): string {
    var v4 := Ipv4(value);
    if v4.Some? then v4.value
    else if ':' !in value then value
    else
      var h := ExpandIpv6(value);
      if h.Some? && |h.value| == 8 then HextetsKey(h.value) else value
  }

  function IpRateLimitKey(raw: string): string { KeyOfCleaned(Cleaned(raw)) }
}
