/** Which texts `expandIpv6` reads, and as what: section 2.2 of RFC 4291. */
module IpSpelling {
  import opened Basics
  import opened IpKey
  import opened IpStrings

  // ----- what a spelling is -----

  function Render(f: Form): string {
    match f
    case Whole(groups) => Join(groups, ':')
    case Gapped(head, rest) => Join(head, ':') + "::" + Join(rest, ':')
  }

  /** Four decimal numbers up to 255. */
  predicate Quad(s: string) { Octets(s).Some? }

  predicate EndsInQuad(groups: seq<string>) { groups != [] && Quad(groups[|groups| - 1]) }

  /** Hextets, of which the last two may be written as one dotted quad. */
  predicate LegalTail(groups: seq<string>) {
    if EndsInQuad(groups) then AllHextets(groups[..|groups| - 1]) else AllHextets(groups)
  }

  function QuadValues(s: string): (v: seq<nat>)
    requires Quad(s)
    ensures |v| == 2
  {
    var parts := Split(s, '.');
    [Number(parts[0], 10) * 256 + Number(parts[1], 10), Number(parts[2], 10) * 256 + Number(parts[3], 10)]
  }

  function TailValues(groups: seq<string>): seq<nat> {
    if EndsInQuad(groups) then Values(groups[..|groups| - 1]) + QuadValues(groups[|groups| - 1]) else Values(groups)
  }

  /** The eight hextets a form stands for; "::" stands for one or more groups of zeros. */
  predicate Denotes(f: Form, h: seq<nat>) {
    |h| == 8 &&
    match f
    case Whole(groups) => LegalTail(groups) && h == TailValues(groups)
    case Gapped(head, rest) =>
      AllHextets(head) && LegalTail(rest) && |head| + |TailValues(rest)| < 8
      && h == Values(head) + Zeros(8 - |head| - |TailValues(rest)|) + TailValues(rest)
  }

  /** `text` is a legal spelling of `h`. */
  ghost predicate Spells(text: string, h: seq<nat>) { exists f :: Render(f) == text && Denotes(f, h) }

  // ----- forms and texts -----

  lemma HextetsWritten(groups: seq<string>)
    requires AllHextets(groups)
    ensures Written(groups) && !EndsInQuad(groups)
  {
    forall i | 0 <= i < |groups| ensures groups[i] != "" && Free(groups[i], ':') { HextetBound(groups[i]); }
    if groups != [] {
      HextetBound(groups[|groups| - 1]);
      SplitFree(groups[|groups| - 1], '.');
    }
  }

  lemma {:induction false} JoinFree(parts: seq<string>, sep: char, c: char)
    requires AllFree(parts, c) && c != sep
    ensures Free(Join(parts, sep), c)
  {
    if |parts| > 1 { JoinFree(parts[1..], sep, c); }
  }

  lemma QuadWritten(s: string)
    requires Dotted(s)
    ensures s != "" && Free(s, ':')
  {
    JoinSplit(s, '.');
    JoinFree(Split(s, '.'), '.', ':');
  }

  lemma TailWritten(groups: seq<string>)
    requires LegalTail(groups)
    ensures Written(groups)
  {
    if EndsInQuad(groups) {
      var init, q := groups[..|groups| - 1], groups[|groups| - 1];
      HextetsWritten(init);
      QuadWritten(q);
      forall i | 0 <= i < |groups| ensures groups[i] != "" && Free(groups[i], ':') {
        assert i < |init| ==> groups[i] == init[i];
      }
    } else {
      HextetsWritten(groups);
    }
  }

  lemma ParseJoin(groups: seq<string>)
    requires Written(groups)
    ensures Parse(Join(groups, ':')) == groups
  {
    JoinHasNoDouble(groups);
    if groups != [] {
      assert AllFree(groups, ':');
      SplitJoin(groups, ':');
    }
  }

  /** Reading a legal form's text gives the form back. */
  lemma FormBack(f: Form, h: seq<nat>)
    requires Denotes(f, h)
    ensures ParseForm(Render(f)) == Some(f)
  {
    match f
    case Whole(groups) =>
      TailWritten(groups);
      JoinHasNoDouble(groups);
      ParseJoin(groups);
    case Gapped(head, rest) =>
      HextetsWritten(head);
      TailWritten(rest);
      JoinHasNoDouble(head);
      JoinHasNoDouble(rest);
      DoubleAfter(Join(head, ':'), Join(rest, ':'));
      ParseJoin(head);
      ParseJoin(rest);
      var text := Render(f);
      assert text[..|Join(head, ':')|] == Join(head, ':') && text[|Join(head, ':')| + 2..] == Join(rest, ':');
  }

  lemma JoinParse(s: string)
    ensures Join(Parse(s), ':') == s
  {
    if s != "" { JoinSplit(s, ':'); }
  }

  /** Rendering what was read gives the text back. */
  lemma TextBack(text: string)
    requires ParseForm(text).Some?
    ensures Render(ParseForm(text).value) == text
  {
    var at := FirstDouble(text);
    if at.None? {
      JoinParse(text);
    } else {
      JoinParse(text[..at.value]);
      JoinParse(text[at.value + 2..]);
      assert text == text[..at.value] + "::" + text[at.value + 2..];
    }
  }

  // ----- dotted tails -----

  /** What the text before the last colon reads as, before its tail. */
  function Base(x: string): Option<Form> {
    var p := x + ":";
    var at := FirstDouble(p);
    if at.None? then Some(Whole(Split(x, ':')))
    else
      var y := p[at.value + 2..];
      if FirstDouble(y).Some? then None
      else Some(Gapped(Parse(p[..at.value]), if y == "" then [] else Split(y[..|y| - 1], ':')))
  }

  function WithTail(f: Form, tail: seq<string>): Form {
    match f
    case Whole(groups) => Whole(groups + tail)
    case Gapped(head, rest) => Gapped(head, rest + tail)
  }

  /** Any tail after the last colon is read after the same base. */
  lemma ParseTail(x: string, tail: seq<string>)
    requires tail != [] && Written(tail)
    ensures ParseForm(x + ":" + Join(tail, ':'))
            == if Base(x).Some? then Some(WithTail(Base(x).value, tail)) else None
  {
    var p, j := x + ":", Join(tail, ':');
    var text, at := p + j, FirstDouble(p);
    JoinHasNoDouble(tail);
    DoubleBeforeTail(p, j);
    assert AllFree(tail, ':');
    SplitJoin(tail, ':');
    if at.None? {
      SplitConcat(x, j, ':');
      assert text == x + ":" + j;
    } else {
      var y := p[at.value + 2..];
      assert text[at.value + 2..] == y + j && text[..at.value] == p[..at.value];
      DoubleBeforeTail(y, j);
      if y == "" {
        assert y + j == j && [] + tail == tail;
      } else {
        assert y[..|y| - 1] + [':'] == y;
        SplitConcat(y[..|y| - 1], j, ':');
      }
    }
  }

  function PairOf(octets: seq<nat>): seq<string> requires |octets| == 4 {
    [HexText(octets[0] * 256 + octets[1]), HexText(octets[2] * 256 + octets[3])]
  }

  lemma OctetsBounded(s: string)
    requires Quad(s)
    ensures var o := Octets(s).value;
      |o| == 4 && o[0] * 256 + o[1] < 65536 && o[2] * 256 + o[3] < 65536 && QuadValues(s) == [o[0] * 256 + o[1], o[2] * 256 + o[3]]
  {}

  /** Two hextets, or the quad they came from: the same address. */
  lemma PairIsQuad(f: Form, q: string, h: seq<nat>)
    requires Quad(q)
    ensures ExpandForm(WithTail(f, PairOf(Octets(q).value))) == Some(h) <==> Denotes(WithTail(f, [q]), h)
  {
    OctetsBounded(q);
    var o, pair := Octets(q).value, PairOf(Octets(q).value);
    HextetText(o[0] * 256 + o[1]);
    HextetText(o[2] * 256 + o[3]);
    var g := if f.Whole? then f.groups else f.rest;
    TailOfQuad(g, q);
    PairValues(g, q);
  }

  lemma TailOfQuad(g: seq<string>, q: string)
    requires Quad(q)
    ensures EndsInQuad(g + [q]) && (LegalTail(g + [q]) <==> AllHextets(g))
    ensures TailValues(g + [q]) == Values(g) + QuadValues(q)
  {
    assert (g + [q])[..|g|] == g;
  }

  lemma PairValues(g: seq<string>, q: string)
    requires Quad(q)
    ensures var pair := PairOf(Octets(q).value);
      (AllHextets(g + pair) <==> AllHextets(g)) && Values(g + pair) == Values(g) + QuadValues(q)
  {
    OctetsBounded(q);
    var o, pair := Octets(q).value, PairOf(Octets(q).value);
    HextetText(o[0] * 256 + o[1]);
    HextetText(o[2] * 256 + o[3]);
    ValuesConcat(g, pair);
    assert pair[1..] == [pair[1]] && pair[1..][1..] == [];
    assert Values(pair) == QuadValues(q);
    if AllHextets(g + pair) {
      forall i | 0 <= i < |g| ensures Hextet(g[i]) { assert (g + pair)[i] == g[i]; }
    }
  }

  // ----- the reader -----

  lemma DottedIsNoHextet(s: string)
    requires Dotted(s)
    ensures !Hextet(s)
  {
    if Hextet(s) {
      HextetBound(s);
      SplitFree(s, '.');
    }
  }

  lemma PlainDenotes(f: Form, h: seq<nat>)
    requires f.Whole? ==> !EndsInQuad(f.groups)
    requires f.Gapped? ==> !EndsInQuad(f.rest)
    ensures ExpandForm(f) == Some(h) <==> Denotes(f, h)
  {}

  lemma LastAfterColon(pre: string, rest: string)
    ensures var pieces, parts := Split(pre + ":" + rest, ':'), Split(rest, ':');
      pieces[|pieces| - 1] == parts[|parts| - 1]
  {
    SplitConcat(pre, rest, ':');
  }

  /** The last piece between colons is the last group of the form. */
  lemma LastGroup(text: string)
    requires ParseForm(text).Some?
    ensures var f, pieces := ParseForm(text).value, Split(text, ':');
      var groups := if f.Whole? then f.groups else f.rest;
      groups != [] ==> groups[|groups| - 1] == pieces[|pieces| - 1]
  {
    hide Split, FirstDouble;
    var at := FirstDouble(text);
    if at.Some? {
      var pre, rest := text[..at.value + 1], text[at.value + 2..];
      assert text == pre + ":" + rest;
      LastAfterColon(pre, rest);
    }
  }

  lemma {:induction false} OnePiece(text: string)
    requires |Split(text, ':')| == 1
    ensures Free(text, ':') && FirstDouble(text).None?
  {
    JoinSplit(text, ':');
    FreeHasNoDouble(text);
  }

  /** Without a dotted last piece, no group of the form is a quad. */
  lemma ReadsPlain(text: string, h: seq<nat>)
    requires var pieces := Split(text, ':'); |pieces| == 1 || !Dotted(pieces[|pieces| - 1])
    ensures ExpandPlain(text) == Some(h) <==> ParseForm(text).Some? && Denotes(ParseForm(text).value, h)
  {
    if |Split(text, ':')| == 1 {
      OnePiece(text);
      assert |TailValues(Parse(text))| <= 2;
    } else if ParseForm(text).Some? {
      LastGroup(text);
      PlainDenotes(ParseForm(text).value, h);
    }
  }

  lemma LastPiece(text: string)
    requires |Split(text, ':')| >= 2
    ensures var pieces := Split(text, ':'); var last := pieces[|pieces| - 1];
      var x := Join(pieces[..|pieces| - 1], ':');
      |last| <= |text| && text == x + ":" + last && text[..|text| - |last|] == x + ":"
  {
    var pieces := Split(text, ':');
    JoinSplit(text, ':');
    JoinConcat(pieces[..|pieces| - 1], [pieces[|pieces| - 1]], ':');
    assert pieces == pieces[..|pieces| - 1] + [pieces[|pieces| - 1]];
  }

  lemma ReadsQuad(x: string, q: string, h: seq<nat>)
    requires Quad(q) && Free(q, ':')
    ensures ExpandPlain(x + ":" + HextetPair(Octets(q).value)) == Some(h)
            <==> ParseForm(x + ":" + q).Some? && Denotes(ParseForm(x + ":" + q).value, h)
  {
    var o := Octets(q).value;
    QuadWritten(q);
    OctetsBounded(q);
    HextetText(o[0] * 256 + o[1]);
    HextetText(o[2] * 256 + o[3]);
    HextetsWritten(PairOf(o));
    ParseTail(x, [q]);
    ParseTail(x, PairOf(o));
    assert PairOf(o)[1..] == [PairOf(o)[1]];
    assert x + ":" + HextetPair(o) == x + ":" + Join(PairOf(o), ':');
    if Base(x).Some? { PairIsQuad(Base(x).value, q, h); }
  }

  lemma ReadsBadQuad(x: string, q: string, h: seq<nat>)
    requires Dotted(q) && !Quad(q)
    ensures !(ParseForm(x + ":" + q).Some? && Denotes(ParseForm(x + ":" + q).value, h))
  {
    QuadWritten(q);
    ParseTail(x, [q]);
    if Base(x).Some? { NoQuadNoAddress(Base(x).value, q, h); }
  }

  lemma DottedExpands(text: string)
    requires var pieces := Split(text, ':'); |pieces| >= 2 && Dotted(pieces[|pieces| - 1])
    ensures var pieces := Split(text, ':'); var last := pieces[|pieces| - 1]; var x := Join(pieces[..|pieces| - 1], ':');
      && text == x + ":" + last
      && ExpandIpv6(text) == if Quad(last) then ExpandPlain(x + ":" + HextetPair(Octets(last).value)) else None
  {
    hide ParseForm, ExpandForm;
    LastPiece(text);
  }

  lemma ReadsDotted(text: string, h: seq<nat>)
    requires var pieces := Split(text, ':'); |pieces| >= 2 && Dotted(pieces[|pieces| - 1])
    ensures ExpandIpv6(text) == Some(h) <==> ParseForm(text).Some? && Denotes(ParseForm(text).value, h)
  {
    hide ExpandIpv6, ExpandPlain, ParseForm, Denotes;
    var pieces := Split(text, ':');
    var last := pieces[|pieces| - 1];
    var x := Join(pieces[..|pieces| - 1], ':');
    DottedExpands(text);
    QuadWritten(last);
    if Quad(last) { ReadsQuad(x, last, h); } else { ReadsBadQuad(x, last, h); }
  }

  lemma NoQuadNoAddress(f: Form, last: string, h: seq<nat>)
    requires Dotted(last) && !Quad(last)
    ensures !Denotes(WithTail(f, [last]), h)
  {
    DottedIsNoHextet(last);
    var g := if f.Whole? then f.groups else f.rest;
    assert (g + [last])[|g|] == last;
  }

  lemma Reads(text: string, h: seq<nat>)
    ensures ExpandIpv6(text) == Some(h) <==> ParseForm(text).Some? && Denotes(ParseForm(text).value, h)
  {
    hide Denotes, ParseForm, ExpandPlain;
    var pieces := Split(text, ':');
    if |pieces| >= 2 && Dotted(pieces[|pieces| - 1]) {
      ReadsDotted(text, h);
    } else {
      ReadsPlain(text, h);
    }
  }

  /**
   * `expandIpv6` reads exactly the legal spellings, each as the eight hextets
   * it denotes: "::" over any run of zero groups, leading zeros, a dotted tail.
   */
  lemma ExpandsExactlySpellings(text: string, h: seq<nat>)
    ensures ExpandIpv6(text) == Some(h) <==> Spells(text, h)
  {
    Reads(text, h);
    if ParseForm(text).Some? { TextBack(text); }
    if Spells(text, h) {
      var f :| Render(f) == text && Denotes(f, h);
      FormBack(f, h);
    }
  }
}
