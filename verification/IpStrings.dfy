/** Splitting, joining and writing numbers: what `ip.ts` relies on from JavaScript's strings. */
module IpStrings {
  import opened Basics
  import opened IpKey

  predicate AllFree(parts: seq<string>, sep: char) { forall i :: 0 <= i < |parts| ==> Free(parts[i], sep) }

  lemma {:induction false} SplitFree(s: string, sep: char)
    requires Free(s, sep)
    ensures Split(s, sep) == [s]
  {
    if s != "" {
      SplitFree(s[1..], sep);
      assert [s[0]] + s[1..] == s;
    }
  }

  lemma PrependToBoth(r: seq<string>, m: seq<string>, c: char)
    requires |r| >= 1
    ensures [[c] + (r + m)[0]] + (r + m)[1..] == ([[c] + r[0]] + r[1..]) + m
    ensures [""] + (r + m) == ([""] + r) + m
  {
    assert (r + m)[1..] == r[1..] + m;
  }

  lemma {:induction false} SplitConcat(x: string, y: string, sep: char)
    ensures Split(x + [sep] + y, sep) == Split(x, sep) + Split(y, sep)
  {
    if x == "" {
      assert (x + [sep] + y)[1..] == y;
    } else {
      SplitConcat(x[1..], y, sep);
      assert (x + [sep] + y)[1..] == x[1..] + [sep] + y;
      PrependToBoth(Split(x[1..], sep), Split(y, sep), x[0]);
    }
  }

  lemma {:induction false} SplitJoin(parts: seq<string>, sep: char)
    requires parts != [] && AllFree(parts, sep)
    ensures Split(Join(parts, sep), sep) == parts
  {
    SplitFree(parts[0], sep);
    if |parts| > 1 {
      SplitJoin(parts[1..], sep);
      SplitConcat(parts[0], Join(parts[1..], sep), sep);
      assert [parts[0]] + parts[1..] == parts;
    }
  }

  lemma {:induction false} JoinSplit(s: string, sep: char)
    ensures Join(Split(s, sep), sep) == s && AllFree(Split(s, sep), sep)
  {
    if s != "" {
      var rest := Split(s[1..], sep);
      JoinSplit(s[1..], sep);
      assert s == [s[0]] + s[1..];
      if s[0] == sep {
        assert ([""] + rest)[1..] == rest;
      } else {
        var parts := [[s[0]] + rest[0]] + rest[1..];
        assert parts[1..] == rest[1..];
        assert AllFree(parts, sep);
      }
    }
  }

  lemma {:induction false} JoinConcat(a: seq<string>, b: seq<string>, sep: char)
    requires a != [] && b != []
    ensures Join(a + b, sep) == Join(a, sep) + [sep] + Join(b, sep)
  {
    if |a| == 1 {
      assert (a + b)[1..] == b;
    } else {
      JoinConcat(a[1..], b, sep);
      assert (a + b)[1..] == a[1..] + b;
    }
  }

  lemma {:induction false} ValuesConcat(a: seq<string>, b: seq<string>)
    ensures Values(a + b) == Values(a) + Values(b)
  {
    hide Number;
    if a == [] {
      assert a + b == b;
    } else {
      ValuesConcat(a[1..], b);
      assert (a + b)[1..] == a[1..] + b && (a + b)[0] == a[0];
      var first, more, last := [Number(a[0], 16)], Values(a[1..]), Values(b);
      assert Values(a) == first + more && Values(a + b) == first + (more + last);
      hide Values;
      assert first + (more + last) == first + more + last;
    }
  }

  // ----- the first "::" -----

  lemma {:induction false} DoubleBeforeTail(p: string, j: string)
    requires FirstDouble(j).None? && (j != "" ==> j[0] != ':')
    ensures FirstDouble(p + j) == FirstDouble(p)
  {
    if p == "" {
      assert p + j == j;
    } else {
      DoubleBeforeTail(p[1..], j);
      assert (p + j)[1..] == p[1..] + j;
    }
  }

  lemma {:induction false} DoubleAfter(x: string, y: string)
    requires FirstDouble(x).None? && (x != "" ==> x[|x| - 1] != ':')
    ensures FirstDouble(x + "::" + y) == Some(|x|)
  {
    var s := x + "::" + y;
    if x != "" {
      DoubleAfter(x[1..], y);
      assert s[1..] == x[1..] + "::" + y;
    }
  }

  predicate Written(groups: seq<string>) { forall i :: 0 <= i < |groups| ==> groups[i] != "" && Free(groups[i], ':') }

  lemma {:induction false} FreeHasNoDouble(s: string)
    requires Free(s, ':')
    ensures FirstDouble(s).None?
  {
    if |s| >= 2 { FreeHasNoDouble(s[1..]); }
  }

  /** Written groups join to a text without "::" and without a colon at either end. */
  lemma {:induction false} JoinHasNoDouble(groups: seq<string>)
    requires Written(groups)
    ensures var t := Join(groups, ':');
      FirstDouble(t).None? && (groups == [] <==> t == "") && (t != "" ==> t[0] != ':' && t[|t| - 1] != ':')
  {
    if groups != [] {
      FreeHasNoDouble(groups[0]);
      if |groups| > 1 {
        var rest := Join(groups[1..], ':');
        JoinHasNoDouble(groups[1..]);
        OneColon(groups[0], rest);
      }
    }
  }

  lemma {:induction false} OneColon(g: string, rest: string)
    requires Free(g, ':') && FirstDouble(rest).None? && rest != "" && rest[0] != ':'
    ensures FirstDouble(g + ":" + rest).None?
  {
    DoubleBeforeTail(g + ":", rest);
    NoDoubleBeforeColon(g);
  }

  lemma {:induction false} NoDoubleBeforeColon(g: string)
    requires Free(g, ':')
    ensures FirstDouble(g + ":").None?
  {
    if g != "" {
      NoDoubleBeforeColon(g[1..]);
      assert (g + ":")[1..] == g[1..] + ":";
    }
  }

  // ----- numbers -----

  lemma DigitBack(n: nat)
    requires n < 16
    ensures ValueOf(DigitOf(n)) == n && IsHex(DigitOf(n)) && (n < 10 ==> IsDigit(DigitOf(n))) && DigitOf(n) != ':'
    ensures DigitOf(n) != '.'
  {}

  lemma NumberAppend(s: string, c: char, base: nat)
    ensures Number(s + [c], base) == Number(s, base) * base + ValueOf(c)
  {
    assert (s + [c])[..|s|] == s;
  }

  lemma {:induction false} HexTextBack(n: nat)
    ensures Number(HexText(n), 16) == n && HexText(n) != ""
    ensures forall i :: 0 <= i < |HexText(n)| ==> IsHex(HexText(n)[i])
  {
    DigitBack(n % 16);
    if n < 16 {
      DigitBack(n);
      NumberAppend("", DigitOf(n), 16);
      assert "" + [DigitOf(n)] == HexText(n);
    } else {
      HexTextBack(n / 16);
      NumberAppend(HexText(n / 16), DigitOf(n % 16), 16);
    }
  }

  lemma {:induction false} DecTextBack(n: nat)
    ensures Number(DecText(n), 10) == n && DecText(n) != ""
    ensures forall i :: 0 <= i < |DecText(n)| ==> IsDigit(DecText(n)[i])
  {
    DigitBack(n % 10);
    if n < 10 {
      DigitBack(n);
      NumberAppend("", DigitOf(n), 10);
      assert "" + [DigitOf(n)] == DecText(n);
    } else {
      DecTextBack(n / 10);
      NumberAppend(DecText(n / 10), DigitOf(n % 10), 10);
    }
  }

  lemma HextetText(n: nat)
    requires n < 65536
    ensures Hextet(HexText(n)) && Number(HexText(n), 16) == n
  {
    HexTextBack(n);
    var a := n / 16;
    var b := a / 16;
    var c := b / 16;
    assert |HexText(c)| == 1;
    assert |HexText(b)| <= 2;
    assert |HexText(a)| <= 3;
  }

  function Cap(digits: nat): nat {
    if digits == 0 then 1 else if digits == 1 then 16 else if digits == 2 then 256 else if digits == 3 then 4096 else 65536
  }

  lemma {:induction false} NumberBelowCap(s: string)
    requires |s| <= 4
    ensures Number(s, 16) < Cap(|s|)
  {
    if s != "" { NumberBelowCap(s[..|s| - 1]); }
  }

  /** At most four hex digits stay below 65536. */
  lemma HextetBound(s: string)
    requires Hextet(s)
    ensures Number(s, 16) < 65536 && Free(s, ':') && Free(s, '.')
  {
    NumberBelowCap(s);
  }
}
