/** The JavaScript string operations the application relies on: relational
    comparison of strings, `split`, `includes`, `trim`, `substring`,
    `parseInt` of an hour field, and the `YYYY-MM-DD` to `DD/MM/YYYY`
    date formatter. */
module Strings {
  import opened Seqs

  // ---------------------------------------------------------------------
  // relational comparison (`a < b`, `a <= b` on strings)

  /** `a < b` on two strings: lexicographic order by character code. */
  predicate Less(a: string, b: string)
  {
    if b == [] then false
    else if a == [] then true
    else a[0] < b[0] || (a[0] == b[0] && Less(a[1..], b[1..]))
  }

  /** `a <= b` on two strings. */
  predicate LessEq(a: string, b: string)
  {
    !Less(b, a)
  }

  /** No string is below itself. */
  lemma {:induction false} LessIrreflexive(a: string)
    ensures !Less(a, a)
  {
    if a != [] {
      LessIrreflexive(a[1..]);
    }
  }

  /** The order is total: of two different strings one is below the other. */
  lemma {:induction false} LessTotal(a: string, b: string)
    ensures a == b || Less(a, b) || Less(b, a)
  {
    if a != [] && b != [] && a[0] == b[0] {
      LessTotal(a[1..], b[1..]);
      if a[1..] == b[1..] {
        assert a == [a[0]] + a[1..] && b == [b[0]] + b[1..];
      }
    }
  }

  /** If `c < a` then every `b` lies above `c` or below `a`. */
  lemma {:induction false} LessSplits(a: string, b: string, c: string)
    requires Less(c, a)
    ensures Less(c, b) || Less(b, a)
  {
    if b != [] && c != [] && a != [] && c[0] == a[0] && b[0] == a[0] {
      LessSplits(a[1..], b[1..], c[1..]);
    }
  }

  /** A common prefix does not change the order. */
  lemma {:induction false} LessCommonPrefix(p: string, a: string, b: string)
    ensures Less(p + a, p + b) == Less(a, b)
  {
    if p == [] {
      assert p + a == a && p + b == b;
    } else {
      assert (p + a)[1..] == p[1..] + a && (p + b)[1..] == p[1..] + b;
      LessCommonPrefix(p[1..], a, b);
    }
  }

  /** Two-digit numerals compare as the numbers they denote. */
  lemma LessTwoDigits(a: string, b: string)
    requires |a| == 2 && |b| == 2
    requires IsDigit(a[0]) && IsDigit(a[1]) && IsDigit(b[0]) && IsDigit(b[1])
    ensures Less(a, b) <==> DigitsValue(a) < DigitsValue(b)
  {
    DigitsValueTwo(a);
    DigitsValueTwo(b);
    assert a[1..][0] == a[1] && b[1..][0] == b[1];
    assert a[1..][1..] == [] && b[1..][1..] == [];
    assert Less(a[1..], b[1..]) <==> a[1] < b[1];
    assert Less(a, b) <==> a[0] < b[0] || (a[0] == b[0] && a[1] < b[1]);
  }

  lemma DigitsValueTwo(a: string)
    requires |a| == 2 && IsDigit(a[0]) && IsDigit(a[1])
    ensures DigitsValue(a) == 10 * DigitValue(a[0]) + DigitValue(a[1])
  {
    var p := a[..1];
    assert p[..|p| - 1] == [] && p[|p| - 1] == a[0];
    assert DigitsValue(p) == DigitValue(a[0]);
    assert a[..|a| - 1] == p;
  }

  /** `<=` on strings is transitive. */
  lemma LessEqTransitive(a: string, b: string, c: string)
    requires LessEq(a, b) && LessEq(b, c)
    ensures LessEq(a, c)
  {
    if Less(c, a) {
      LessSplits(a, b, c);
    }
  }

  // ---------------------------------------------------------------------
  // split, substring, includes, trim

  /** `s.split(c)` with a one-character separator: the pieces between the
      separators, always at least one (`"".split("-")` is `[""]`). */
  function Split(s: string, c: char): (parts: seq<string>)
    ensures |parts| >= 1
  {
    if s == [] then [""]
    else if s[0] == c then [""] + Split(s[1..], c)
    else
      var rest := Split(s[1..], c);
      [[s[0]] + rest[0]] + rest[1..]
  }

  /** A string without the separator is one piece. */
  lemma {:induction false} SplitNoSeparator(s: string, c: char)
    requires c !in s
    ensures Split(s, c) == [s]
  {
    if s != [] {
      SplitNoSeparator(s[1..], c);
      assert s == [s[0]] + s[1..];
    }
  }

  /** Splitting at the first separator. */
  lemma {:induction false} SplitAtFirst(a: string, c: char, b: string)
    requires c !in a
    ensures Split(a + [c] + b, c) == [a] + Split(b, c)
  {
    if a == [] {
      assert a + [c] + b == [c] + b;
    } else {
      assert (a + [c] + b)[1..] == a[1..] + [c] + b;
      SplitAtFirst(a[1..], c, b);
      assert a == [a[0]] + a[1..];
    }
  }

  /** `ss.join(sep)`. */
  function Join(ss: seq<string>, sep: string): string
  {
    if ss == [] then ""
    else if |ss| == 1 then ss[0]
    else ss[0] + sep + Join(ss[1..], sep)
  }

  /** A joined list ends with its last piece. */
  lemma {:induction false} JoinEndsWithLast(ss: seq<string>, sep: string)
    requires ss != []
    ensures |Join(ss, sep)| >= |ss[|ss| - 1]|
    ensures Join(ss, sep)[|Join(ss, sep)| - |ss[|ss| - 1]|..] == ss[|ss| - 1]
  {
    if |ss| > 1 {
      JoinEndsWithLast(ss[1..], sep);
      var j := Join(ss[1..], sep);
      var last := ss[|ss| - 1];
      assert ss[1..][|ss[1..]| - 1] == last;
      assert Join(ss, sep) == (ss[0] + sep) + j;
      assert (ss[0] + sep + j)[|ss[0] + sep + j| - |last|..] == j[|j| - |last|..];
    }
  }

  /** Splitting a joined list at a separator that occurs in no piece gives
      the pieces back. */
  lemma {:induction false} SplitJoin(ss: seq<string>, c: char)
    requires ss != []
    requires forall i :: 0 <= i < |ss| ==> c !in ss[i]
    ensures Split(Join(ss, [c]), c) == ss
  {
    if |ss| == 1 {
      SplitNoSeparator(ss[0], c);
    } else {
      SplitJoin(ss[1..], c);
      SplitAtFirst(ss[0], c, Join(ss[1..], [c]));
      assert ss == [ss[0]] + ss[1..];
    }
  }

  /** `s.substring(0, n)`: at most the first `n` characters. */
  function Prefix(s: string, n: nat): (r: string)
    ensures |r| == if |s| < n then |s| else n
    ensures r <= s
  {
    if |s| <= n then s else s[..n]
  }

  /** `hay.includes(needle)`: `needle` occurs somewhere in `hay`. */
  predicate Contains(hay: string, needle: string)
    decreases |hay|
  {
    needle <= hay || (hay != [] && Contains(hay[1..], needle))
  }

  /** `needle` occurs in `hay` starting at position `i`. */
  predicate OccursAt(hay: string, needle: string, i: int)
  {
    0 <= i && i + |needle| <= |hay| && hay[i..i + |needle|] == needle
  }

  /** `Contains` holds exactly when `needle` occurs at some position. */
  lemma {:induction false} ContainsIff(hay: string, needle: string)
    ensures Contains(hay, needle) <==> exists i :: OccursAt(hay, needle, i)
    decreases |hay|
  {
    if needle <= hay {
      assert OccursAt(hay, needle, 0);
    }
    if hay != [] {
      ContainsIff(hay[1..], needle);
      if exists i :: OccursAt(hay, needle, i) {
        var i :| OccursAt(hay, needle, i);
        if i > 0 {
          assert hay[1..][i - 1..i - 1 + |needle|] == needle;
          assert OccursAt(hay[1..], needle, i - 1);
        } else {
          assert needle <= hay;
        }
      }
      if exists j :: OccursAt(hay[1..], needle, j) {
        var j :| OccursAt(hay[1..], needle, j);
        assert hay[j + 1..j + 1 + |needle|] == needle;
        assert OccursAt(hay, needle, j + 1);
      }
    } else if exists i :: OccursAt(hay, needle, i) {
      var i :| OccursAt(hay, needle, i);
      assert needle == [];
    }
  }

  /** A string contains whatever occurs in it at some position. */
  lemma ContainsAt(hay: string, needle: string, i: nat)
    requires OccursAt(hay, needle, i)
    ensures Contains(hay, needle)
  {
    ContainsIff(hay, needle);
  }

  /** The characters `trim` removes: the white space and line terminators
      of ECMAScript (tab, line feed, vertical tab, form feed, carriage
      return, space, no-break space, the byte order mark, the Unicode space
      separators and the line and paragraph separators). */
  const WhiteSpace: set<char> := {
    '\U{9}', '\U{A}', '\U{B}', '\U{C}', '\U{D}', ' ', '\U{A0}', '\U{1680}',
    '\U{2000}', '\U{2001}', '\U{2002}', '\U{2003}', '\U{2004}', '\U{2005}', '\U{2006}',
    '\U{2007}', '\U{2008}', '\U{2009}', '\U{200A}', '\U{2028}', '\U{2029}', '\U{202F}',
    '\U{205F}', '\U{3000}', '\U{FEFF}'}

  predicate IsSpace(c: char)
  {
    c in WhiteSpace
  }

  /** `s.trim()`: the part of `s` between a run of leading and a run of
      trailing white space, neither end of it white space. */
  function Trim(s: string): (r: string)
    ensures |r| <= |s|
    ensures r != [] ==> !IsSpace(r[0]) && !IsSpace(r[|r| - 1])
    ensures r == [] <==> forall i :: 0 <= i < |s| ==> IsSpace(s[i])
    ensures exists i :: Aparado(s, r, i)
  {
    var t := TrimStart(s);
    var r := TrimEnd(t);
    TrimmedPart(s, t, r);
    r
  }

  /** `r` is `s[i..i + |r|]`, and everything of `s` around it is white space. */
  predicate Aparado(s: string, r: string, i: int)
  {
    0 <= i <= |s| - |r| && r == s[i..i + |r|]
    && (forall k :: 0 <= k < i ==> IsSpace(s[k]))
    && (forall k :: i + |r| <= k < |s| ==> IsSpace(s[k]))
  }

  lemma TrimmedPart(s: string, t: string, r: string)
    requires |r| <= |t| <= |s|
    requires t == s[|s| - |t|..] && forall k :: 0 <= k < |s| - |t| ==> IsSpace(s[k])
    requires r == t[..|r|] && forall k :: |r| <= k < |t| ==> IsSpace(t[k])
    ensures Aparado(s, r, |s| - |t|)
  {
    var i := |s| - |t|;
    assert forall k :: i <= k < |s| ==> s[k] == t[k - i];
  }

  /** A string of the ideographic space, the byte order mark and a space
      trims to nothing. */
  lemma TrimUnicodeSpaces()
    ensures Trim("\U{3000}\U{FEFF} ") == []
  {
    var s := "\U{3000}\U{FEFF} ";
    assert IsSpace(s[0]) && IsSpace(s[1]) && IsSpace(s[2]);
  }

  function TrimStart(s: string): (r: string)
    ensures |r| <= |s|
    ensures r != [] ==> !IsSpace(r[0])
    ensures r == [] <==> forall i :: 0 <= i < |s| ==> IsSpace(s[i])
    ensures r == s[|s| - |r|..]
    ensures forall i :: 0 <= i < |s| - |r| ==> IsSpace(s[i])
  {
    if s == [] then s
    else if IsSpace(s[0]) then
      AllSpaceTail(s);
      TrimStart(s[1..])
    else s
  }

  /** Behind a leading space, the string is all space exactly when its tail is. */
  lemma AllSpaceTail(s: string)
    requires s != [] && IsSpace(s[0])
    ensures (forall i :: 0 <= i < |s| ==> IsSpace(s[i])) <==> (forall i :: 0 <= i < |s[1..]| ==> IsSpace(s[1..][i]))
  {
    assert forall i :: 1 <= i < |s| ==> s[i] == s[1..][i - 1];
  }

  function TrimEnd(s: string): (r: string)
    ensures |r| <= |s|
    ensures r != [] ==> !IsSpace(r[|r| - 1])
    ensures r == [] <==> forall i :: 0 <= i < |s| ==> IsSpace(s[i])
    ensures r == s[..|r|]
    ensures forall i :: |r| <= i < |s| ==> IsSpace(s[i])
  {
    if s == [] then s
    else if IsSpace(s[|s| - 1]) then TrimEnd(s[..|s| - 1])
    else s
  }

  // ---------------------------------------------------------------------
  // numbers in text

  predicate IsDigit(c: char) { '0' <= c <= '9' }

  function DigitValue(c: char): (d: nat)
    requires IsDigit(c)
    ensures d <= 9
  {
    (c as int) - ('0' as int)
  }

  /** The longest run of leading decimal digits. */
  function LeadingDigits(s: string): (r: string)
    ensures r <= s
    ensures forall i :: 0 <= i < |r| ==> IsDigit(r[i])
    ensures |r| < |s| ==> !IsDigit(s[|r|])
  {
    if s != [] && IsDigit(s[0]) then [s[0]] + LeadingDigits(s[1..]) else []
  }

  /** The value of a string of decimal digits. */
  function DigitsValue(ds: string): nat
    requires forall i :: 0 <= i < |ds| ==> IsDigit(ds[i])
  {
    if ds == [] then 0 else DigitsValue(ds[..|ds| - 1]) * 10 + DigitValue(ds[|ds| - 1])
  }

  /** `parseInt(s)` for strings that start with a digit; `None` stands for
      `NaN`. */
  function ParseInt(s: string): Option<nat>
  {
    var ds := LeadingDigits(s);
    if ds == [] then None else Some(DigitsValue(ds))
  }

  /** `parseInt(hora.split(':')[0])`, the hour of an `HH:MM` time. */
  function Hora(hora: string): Option<nat>
  {
    ParseInt(Split(hora, ':')[0])
  }

  /** On a well-formed `HH:MM` time the hour is the two leading digits. */
  lemma HoraBemFormada(hora: string)
    requires |hora| == 5 && IsDigit(hora[0]) && IsDigit(hora[1]) && hora[2] == ':'
    requires IsDigit(hora[3]) && IsDigit(hora[4])
    ensures Hora(hora) == Some(10 * DigitValue(hora[0]) + DigitValue(hora[1]))
  {
    var hh := hora[..2];
    assert hora == hh + [':'] + hora[3..];
    SplitAtFirst(hh, ':', hora[3..]);
    assert Split(hora, ':')[0] == hh;
    assert LeadingDigits(hh[1..][1..]) == [];
    assert LeadingDigits(hh[1..]) == hh[1..];
    assert LeadingDigits(hh) == hh;
    assert hh[..1] == [hora[0]];
    assert hh[..1][..0] == [];
    assert DigitsValue(hh[..1]) == DigitValue(hora[0]);
  }

  /** Decimal text of a natural number (JavaScript's `${n}` for an integer). */
  function NatToString(n: nat): (s: string)
    ensures s != []
    ensures forall i :: 0 <= i < |s| ==> IsDigit(s[i])
  {
    var d := ['0' + ((n % 10) as char)];
    assert IsDigit(d[0]);
    if n < 10 then d else NatToString(n / 10) + d
  }

  /** Reading the text of a number back gives the number. */
  lemma {:induction false} NatToStringRoundTrip(n: nat)
    ensures DigitsValue(NatToString(n)) == n
  {
    var s := NatToString(n);
    if n >= 10 {
      NatToStringRoundTrip(n / 10);
      assert s[..|s| - 1] == NatToString(n / 10);
    }
  }

  // ---------------------------------------------------------------------
  // dates

  /** `formatarData(data)`: `''` for an empty date, otherwise the pieces of
      `data.split('-')` as `${dia}/${mes}/${ano}`; a missing piece prints
      as `undefined`. */
  function FormatarData(data: string): string
  {
    if data == [] then ""
    else
      var parts := Split(data, '-');
      var ano := parts[0];
      var mes := if |parts| > 1 then parts[1] else "undefined";
      var dia := if |parts| > 2 then parts[2] else "undefined";
      dia + "/" + mes + "/" + ano
  }

  /** An ISO `YYYY-MM-DD` date. */
  predicate DataIso(s: string)
  {
    |s| == 10 && s[4] == '-' && s[7] == '-' &&
    forall i :: 0 <= i < 10 && i != 4 && i != 7 ==> IsDigit(s[i])
  }

  /** On ISO dates the formatter reorders the three fields as `DD/MM/YYYY`. */
  lemma FormatarDataIso(s: string)
    requires DataIso(s)
    ensures FormatarData(s) == s[8..10] + "/" + s[5..7] + "/" + s[..4]
    ensures |FormatarData(s)| == 10
  {
    var ano, mes, dia := s[..4], s[5..7], s[8..10];
    assert s == ano + ['-'] + (mes + ['-'] + dia);
    assert '-' !in ano;
    SplitAtFirst(ano, '-', mes + ['-'] + dia);
    assert '-' !in mes;
    SplitAtFirst(mes, '-', dia);
    assert '-' !in dia;
    SplitNoSeparator(dia, '-');
    assert Split(s, '-') == [ano, mes, dia];
  }

  // ---------------------------------------------------------------------
  // lower case

  /** An upper-case letter `toLowerCase` maps by adding 32: ASCII `A`-`Z`
      and the Latin-1 letters from U+00C0 to U+00DE except U+00D7. */
  predicate IsUpper(c: char)
  {
    ('A' <= c <= 'Z') || ('\U{C0}' <= c <= '\U{DE}' && c != '\U{D7}')
  }

  function LowerChar(c: char): (r: char)
    ensures !IsUpper(r)
    ensures !IsUpper(c) ==> r == c
  {
    if IsUpper(c) then (c as int + 32) as char else c
  }

  /** `s.toLowerCase()` on the letters above. */
  function ToLower(s: string): (r: string)
    ensures |r| == |s|
    ensures forall i :: 0 <= i < |s| ==> r[i] == LowerChar(s[i])
  {
    seq(|s|, i requires 0 <= i < |s| => LowerChar(s[i]))
  }

  /** Lowering twice is lowering once; text without upper-case letters is
      already lower case. */
  lemma ToLowerIdempotent(s: string)
    ensures ToLower(ToLower(s)) == ToLower(s)
    ensures (forall i :: 0 <= i < |s| ==> !IsUpper(s[i])) ==> ToLower(s) == s
  {
  }
}
