/** Python's string operations as the scraper uses them: substring search
    (`in`), `split`, `replace`, `lower` and `int()`, each defined once and
    characterised by lemmas that the rest of the model relies on. */
module Text {
  import opened Wrappers

  /** `p` occurs in `s` starting at index `i`. */
  predicate Occurs(s: string, p: string, i: int) {
    0 <= i && i + |p| <= |s| && s[i..i + |p|] == p
  }

  lemma OccursTail(s: string, p: string, j: int)
    requires |s| > 0 && j >= 0
    ensures Occurs(s[1..], p, j) <==> Occurs(s, p, j + 1)
  {
    if 0 <= j && j + |p| <= |s| - 1 {
      assert s[1..][j..j + |p|] == s[j + 1..j + 1 + |p|];
    }
  }

  /** Index of the first occurrence of `p` in `s` (Python's `str.find`). */
  function Find(s: string, p: string): (r: Option<nat>)
    decreases |s|
    ensures r.Some? ==> Occurs(s, p, r.value)
    ensures r.Some? ==> forall j :: 0 <= j < r.value ==> !Occurs(s, p, j)
    ensures r.None? ==> forall j :: !Occurs(s, p, j)
  {
    if |s| < |p| then
      assert forall j :: !Occurs(s, p, j);
      None
    else if s[..|p|] == p then
      Some(0)
    else
      assert !Occurs(s, p, 0);
      match Find(s[1..], p)
      case None =>
        assert forall j :: !Occurs(s, p, j) by {
          forall j ensures !Occurs(s, p, j) {
            if j >= 1 { OccursTail(s, p, j - 1); }
          }
        }
        None
      case Some(i) =>
        OccursTail(s, p, i);
        assert forall j :: 0 <= j < i + 1 ==> !Occurs(s, p, j) by {
          forall j | 0 <= j < i + 1 ensures !Occurs(s, p, j) {
            if j >= 1 { OccursTail(s, p, j - 1); }
          }
        }
        Some(i + 1)
  }

  /** Python's `p in s`. */
  predicate Contains(s: string, p: string) {
    Find(s, p).Some?
  }

  lemma ContainsIff(s: string, p: string)
    ensures Contains(s, p) <==> exists j :: Occurs(s, p, j)
  {
    if Contains(s, p) {
      assert Occurs(s, p, Find(s, p).value);
    }
  }

  /** A one-character pattern occurs exactly when the character does. */
  lemma ContainsChar(s: string, c: char)
    ensures Contains(s, [c]) <==> c in s
  {
    ContainsIff(s, [c]);
    if c in s {
      var j :| 0 <= j < |s| && s[j] == c;
      assert s[j..j + 1] == [c];
      assert Occurs(s, [c], j);
    }
    if Contains(s, [c]) {
      var j :| Occurs(s, [c], j);
      assert s[j] == s[j..j + 1][0] == c;
    }
  }

  /** Python's `s.split(sep)` for a non-empty separator. */
  function Split(s: string, sep: string): (r: seq<string>)
    requires |sep| > 0
    decreases |s|
    ensures |r| >= 1
  {
    match Find(s, sep)
    case None => [s]
    case Some(i) => [s[..i]] + Split(s[i + |sep|..], sep)
  }

  /** Python's `sep.join(fields)`. */
  function Join(fields: seq<string>, sep: string): string {
    if |fields| == 0 then ""
    else if |fields| == 1 then fields[0]
    else fields[0] + sep + Join(fields[1..], sep)
  }

  lemma JoinCons(a: string, fields: seq<string>, sep: string)
    requires |fields| >= 1
    ensures Join([a] + fields, sep) == a + sep + Join(fields, sep)
  {
    assert ([a] + fields)[1..] == fields;
  }

  /** A text holding a pattern holds every prefix of it. */
  lemma ContainsPrefix(s: string, p: string, q: string)
    requires |p| <= |q| && q[..|p|] == p
    requires Contains(s, q)
    ensures Contains(s, p)
  {
    var j := Find(s, q).value;
    assert s[j..j + |p|] == s[j..j + |q|][..|p|];
    assert Occurs(s, p, j);
    ContainsIff(s, p);
  }

  /** A match that ends inside the first part of a string is a match of
      that part. */
  lemma PrefixOccurs(a: string, b: string, p: string, j: nat)
    requires j + |p| <= |a|
    ensures Occurs(a + b, p, j) <==> Occurs(a, p, j)
  {
    assert (a + b)[j..j + |p|] == a[j..j + |p|];
  }

  /** A string is the text before an occurrence, the occurrence and the
      text after it. */
  lemma AroundOccurrence(s: string, p: string, i: nat)
    requires Occurs(s, p, i)
    ensures s == s[..i] + p + s[i + |p|..]
  {
    assert s[i..] == s[i..i + |p|] + s[i + |p|..];
    assert s == s[..i] + s[i..];
  }

  /** Joining the fields of a split gives the original text back. */
  lemma {:induction false} JoinSplit(s: string, sep: string)
    requires |sep| > 0
    ensures Join(Split(s, sep), sep) == s
    decreases |s|
  {
    match Find(s, sep)
    case None =>
    case Some(i) =>
      var rest := s[i + |sep|..];
      JoinSplit(rest, sep);
      JoinCons(s[..i], Split(rest, sep), sep);
      AroundOccurrence(s, sep, i);
  }

  /** No field of a split contains the separator. */
  lemma {:induction false} SplitFieldsFree(s: string, sep: string, k: int)
    requires |sep| > 0
    requires 0 <= k < |Split(s, sep)|
    ensures !Contains(Split(s, sep)[k], sep)
    decreases |s|
  {
    match Find(s, sep)
    case None =>
    case Some(i) =>
      if k == 0 {
        var f := s[..i];
        if Contains(f, sep) {
          var j := Find(f, sep).value;
          assert s == f + s[i..];
          PrefixOccurs(f, s[i..], sep, j);
          assert false;
        }
      } else {
        SplitFieldsFree(s[i + |sep|..], sep, k - 1);
      }
  }

  lemma {:induction false} SplitNoSep(s: string, sep: string)
    requires |sep| > 0
    requires !Contains(s, sep)
    ensures Split(s, sep) == [s]
  {
  }

  /** Splitting on one character undoes joining on it, when no field holds it. */
  lemma {:induction false} SplitJoin(fields: seq<string>, c: char)
    requires |fields| >= 1
    requires forall k :: 0 <= k < |fields| ==> !Contains(fields[k], [c])
    ensures Split(Join(fields, [c]), [c]) == fields
    decreases |fields|
  {
    if |fields| == 1 {
      SplitNoSep(fields[0], [c]);
    } else {
      var f := fields[0];
      var rest := Join(fields[1..], [c]);
      var s := f + [c] + rest;
      assert Join(fields, [c]) == s;
      assert Occurs(s, [c], |f|);
      forall j | 0 <= j < |f| ensures !Occurs(s, [c], j) {
        assert !Occurs(f, [c], j);
        assert s[j..j + 1] == f[j..j + 1];
      }
      assert Find(s, [c]) == Some(|f|);
      assert s[..|f|] == f;
      assert s[|f| + 1..] == rest;
      SplitJoin(fields[1..], c);
    }
  }

  /** `s.split(sep)[0]`: the text before the first separator, or all of it. */
  function Before(s: string, sep: string): string
    requires |sep| > 0
  {
    Split(s, sep)[0]
  }

  lemma BeforeIsPrefix(s: string, sep: string)
    requires |sep| > 0
    ensures Find(s, sep).None? ==> Before(s, sep) == s
    ensures Find(s, sep).Some? ==> Before(s, sep) == s[..Find(s, sep).value]
  {
  }

  /** `s.split(sep)[-1]`: the text after the last separator, or all of it. */
  function After(s: string, sep: string): string
    requires |sep| > 0
  {
    var f := Split(s, sep);
    f[|f| - 1]
  }

  lemma SplitCons(s: string, sep: string, i: nat)
    requires |sep| > 0
    requires Find(s, sep) == Some(i)
    ensures Split(s, sep) == [s[..i]] + Split(s[i + |sep|..], sep)
  {
  }

  lemma AfterFree(s: string, sep: string)
    requires |sep| > 0
    ensures !Contains(After(s, sep), sep)
  {
    SplitFieldsFree(s, sep, |Split(s, sep)| - 1);
  }

  lemma AfterWhole(s: string, sep: string)
    requires |sep| > 0
    requires !Contains(s, sep)
    ensures After(s, sep) == s
  {
  }

  lemma LastOfCons(a: string, g: seq<string>)
    requires |g| > 0
    ensures ([a] + g)[|g|] == g[|g| - 1]
  {
  }

  lemma AfterCons(s: string, sep: string, i: nat)
    requires |sep| > 0
    requires Find(s, sep) == Some(i)
    ensures After(s, sep) == After(s[i + |sep|..], sep)
  {
    var f := Split(s, sep);
    var g := Split(s[i + |sep|..], sep);
    SplitCons(s, sep, i);
    LastOfCons(s[..i], g);
  }

  /** When the separator occurs, the last field directly follows its last
      occurrence. */
  lemma {:induction false} AfterIsSuffix(s: string, sep: string)
    requires |sep| > 0
    requires Contains(s, sep)
    ensures |After(s, sep)| + |sep| <= |s|
    ensures s[|s| - |After(s, sep)| - |sep|..] == sep + After(s, sep)
    decreases |s|
  {
    var i := Find(s, sep).value;
    var rest := s[i + |sep|..];
    AfterCons(s, sep, i);
    var a := After(rest, sep);
    AroundOccurrence(s, sep, i);
    if Contains(rest, sep) {
      AfterIsSuffix(rest, sep);
      var k := |rest| - |a| - |sep|;
      assert s[i + |sep| + k..] == rest[k..];
    } else {
      AfterWhole(rest, sep);
    }
  }

  /** Python's `s.replace(pat, sub)` for a non-empty `pat`: leftmost,
      non-overlapping occurrences are replaced. */
  function Replace(s: string, pat: string, sub: string): string
    requires |pat| > 0
    decreases |s|
  {
    if |s| < |pat| then s
    else if s[..|pat|] == pat then sub + Replace(s[|pat|..], pat, sub)
    else [s[0]] + Replace(s[1..], pat, sub)
  }

  /** Replacing a single character is a character-wise map. */
  lemma {:induction false} ReplaceCharAt(s: string, a: char, b: string, k: int)
    requires |b| == 1
    requires 0 <= k < |s|
    ensures |Replace(s, [a], b)| == |s|
    ensures Replace(s, [a], b)[k] == if s[k] == a then b[0] else s[k]
    decreases |s|
  {
    if |s| > 0 {
      ReplaceLength(s[1..], a, b);
      if k > 0 {
        ReplaceCharAt(s[1..], a, b, k - 1);
      }
    }
  }

  lemma {:induction false} ReplaceLength(s: string, a: char, b: string)
    requires |b| == 1
    ensures |Replace(s, [a], b)| == |s|
    decreases |s|
  {
    if |s| > 0 { ReplaceLength(s[1..], a, b); }
  }

  /** Removing every occurrence of one character (`replace(c, "")`). */
  lemma {:induction false} RemoveCharFree(s: string, c: char)
    ensures c !in Replace(s, [c], "")
    ensures |Replace(s, [c], "")| <= |s|
    decreases |s|
  {
    if |s| > 0 { RemoveCharFree(s[1..], c); }
  }

  function LowerChar(c: char): char {
    if 'A' <= c <= 'Z' then (c as int + 32) as char else c
  }

  /** Python's `str.lower()` on ASCII letters. */
  function Lower(s: string): (r: string)
    ensures |r| == |s|
    ensures forall i :: 0 <= i < |s| ==> r[i] == LowerChar(s[i])
  {
    seq(|s|, i requires 0 <= i < |s| => LowerChar(s[i]))
  }

  /** Lower-casing keeps every occurrence of a pattern, lower-cased. */
  lemma LowerOccurs(s: string, p: string, j: int)
    requires Occurs(s, p, j)
    ensures Occurs(Lower(s), Lower(p), j)
  {
    assert Lower(s)[j..j + |p|] == Lower(p) by {
      forall k | 0 <= k < |p| ensures Lower(s)[j..j + |p|][k] == Lower(p)[k] {
        assert s[j + k] == p[k];
      }
    }
  }

  lemma LowerContains(s: string, p: string)
    requires Contains(s, p)
    ensures Contains(Lower(s), Lower(p))
  {
    var j := Find(s, p).value;
    LowerOccurs(s, p, j);
    ContainsIff(Lower(s), Lower(p));
  }

  predicate IsDigit(c: char) { '0' <= c <= '9' }

  predicate AllDigits(s: string) {
    forall i :: 0 <= i < |s| ==> IsDigit(s[i])
  }

  /** Value of a run of decimal digits, most significant first. */
  function DigitsValue(s: string): nat
    requires AllDigits(s)
  {
    if s == [] then 0
    else DigitsValue(s[..|s| - 1]) * 10 + (s[|s| - 1] as int - '0' as int)
  }

  /** The whitespace `int` and pandas skip around a number: the ASCII
      spaces and separators and the Latin-1 next-line and no-break space. */
  predicate IsSpace(c: char) {
    c == ' ' || '\t' <= c <= '\r' || '\U{1C}' <= c <= '\U{1F}' || c == '\U{85}' || c == '\U{A0}'
  }

  /** `s.strip()`: the text without its leading and trailing whitespace. */
  function Strip(s: string): (r: string)
    ensures |r| <= |s|
    ensures |r| > 0 ==> !IsSpace(r[0]) && !IsSpace(r[|r| - 1])
    ensures |s| > 0 && !IsSpace(s[0]) && !IsSpace(s[|s| - 1]) ==> r == s
  {
    if s == [] then []
    else if IsSpace(s[0]) then Strip(s[1..])
    else if IsSpace(s[|s| - 1]) then Strip(s[..|s| - 1])
    else s
  }

  predicate DigitsOrUnderscores(t: string) {
    forall i :: 0 <= i < |t| ==> IsDigit(t[i]) || t[i] == '_'
  }

  /** A body of decimal digits in which, when `underscores` is set, a
      single `_` may stand between two digits; read left to right. */
  predicate DigitBody(t: string, underscores: bool) {
    |t| > 0 && IsDigit(t[0]) &&
    (|t| == 1 ||
     if underscores && t[1] == '_' then DigitBody(t[2..], underscores) else DigitBody(t[1..], underscores))
  }

  /** A digit body holds only digits and, when allowed, underscores. */
  lemma {:induction false} DigitBodyChars(t: string, underscores: bool)
    requires DigitBody(t, underscores)
    ensures DigitsOrUnderscores(t)
    ensures !underscores ==> AllDigits(t)
    decreases |t|
  {
    if |t| > 1 {
      var rest := if underscores && t[1] == '_' then t[2..] else t[1..];
      DigitBodyChars(rest, underscores);
      forall i | 0 <= i < |t| ensures IsDigit(t[i]) || (underscores && t[i] == '_') {
        if i > 0 && underscores && t[1] == '_' {
          if i > 1 { assert t[i] == rest[i - 2]; }
        } else if i > 0 {
          assert t[i] == rest[i - 1];
        }
      }
    }
  }

  /** The body without its underscores. */
  function DropUnderscores(t: string): (r: string)
    ensures DigitsOrUnderscores(t) ==> AllDigits(r)
    ensures AllDigits(t) ==> r == t
  {
    if t == [] then []
    else if t[0] == '_' then DropUnderscores(t[1..])
    else [t[0]] + DropUnderscores(t[1..])
  }

  /** The value of a digit body. */
  function Unsigned(body: string, underscores: bool): Option<nat> {
    if DigitBody(body, underscores) then
      DigitBodyChars(body, underscores);
      Some(DigitsValue(DropUnderscores(body)))
    else None
  }

  /** An optional sign followed by a digit body. */
  function Signed(t: string, underscores: bool): Option<int> {
    if |t| > 0 && t[0] == '-' then
      match Unsigned(t[1..], underscores)
      case Some(n) => Some(0 - n)
      case None => None
    else if |t| > 0 && t[0] == '+' then
      match Unsigned(t[1..], underscores)
      case Some(n) => Some(n)
      case None => None
    else
      match Unsigned(t, underscores)
      case Some(n) => Some(n)
      case None => None
  }

  /** Python's `int(s)` on a string: surrounding whitespace, an optional
      sign and one or more digits with single underscores allowed between
      them; anything else raises, here `None`. */
  function ParseInt(s: string): Option<int> {
    Signed(Strip(s), true)
  }

  /** The integers pandas' numeric parser reads from a string: surrounding
      whitespace, an optional sign and digits, without underscores. */
  function ParseDecimal(s: string): Option<int> {
    Signed(Strip(s), false)
  }

  function DigitChar(d: nat): char
    requires d < 10
  {
    ('0' as int + d) as char
  }

  /** Decimal rendering of a natural number, as Python's `str(n)`. */
  function NatToString(n: nat): (r: string)
    ensures |r| > 0 && AllDigits(r)
  {
    if n < 10 then [DigitChar(n)] else NatToString(n / 10) + [DigitChar(n % 10)]
  }

  function IntToString(i: int): string {
    if i < 0 then "-" + NatToString(-i) else NatToString(i)
  }

  lemma {:induction false} DigitsValueOfNatToString(n: nat)
    ensures DigitsValue(NatToString(n)) == n
  {
    var s := NatToString(n);
    if n >= 10 {
      DigitsValueOfNatToString(n / 10);
      assert s[..|s| - 1] == NatToString(n / 10);
    }
  }

  /** A plain run of digits is a digit body worth its value. */
  lemma {:induction false} DigitsBody(d: string, underscores: bool)
    requires |d| > 0 && AllDigits(d)
    ensures DigitBody(d, underscores)
    ensures Unsigned(d, underscores) == Some(DigitsValue(d))
  {
    if |d| > 1 {
      DigitsBody(d[1..], underscores);
    }
  }

  /** A run of digits reads as its value. */
  lemma SignedDigits(d: string, underscores: bool)
    requires |d| > 0 && AllDigits(d)
    ensures Signed(d, underscores) == Some(DigitsValue(d))
  {
    DigitsBody(d, underscores);
  }

  /** A minus sign before a run of digits reads as the negated value. */
  lemma SignedNegative(t: string, d: string, underscores: bool)
    requires |d| > 0 && AllDigits(d) && |t| > 0 && t[0] == '-' && t[1..] == d
    ensures Signed(t, underscores) == Some(0 - DigitsValue(d))
  {
    DigitsBody(d, underscores);
  }

  /** A plain run of digits parses to its value under both parsers. */
  lemma ParseDigits(d: string)
    requires |d| > 0 && AllDigits(d)
    ensures ParseInt(d) == Some(DigitsValue(d))
    ensures ParseDecimal(d) == Some(DigitsValue(d))
  {
    assert Strip(d) == d by { assert !IsSpace(d[0]) && !IsSpace(d[|d| - 1]); }
    SignedDigits(d, true);
    SignedDigits(d, false);
  }

  /** `int` reads a minus sign before a run of digits as the negated
      value. */
  lemma ParseNegative(t: string, d: string)
    requires |d| > 0 && AllDigits(d) && |t| > 0 && t[0] == '-' && t[1..] == d
    ensures ParseInt(t) == Some(0 - DigitsValue(d))
  {
    assert t[|t| - 1] == d[|d| - 1];
    assert Strip(t) == t by { assert !IsSpace(t[0]) && !IsSpace(t[|t| - 1]); }
    SignedNegative(t, d, true);
  }

  /** A rendered negative integer is a minus sign and the rendered
      magnitude. */
  lemma NegativeText(i: int)
    requires i < 0
    ensures var t := IntToString(i);
      |t| > 0 && t[0] == '-' && t[1..] == NatToString(-i)
  {
  }

  /** A minus sign before a rendered natural number parses to its
      negation. */
  lemma ParseMinusNat(n: nat, t: string)
    requires n > 0 && |t| > 0 && t[0] == '-' && t[1..] == NatToString(n)
    ensures ParseInt(t) == Some(-(n as int))
  {
    ParseNegative(t, NatToString(n));
    DigitsValueOfNatToString(n);
  }

  /** Parsing a rendered negative integer gives it back. */
  lemma ParseNegativeToString(i: int)
    requires i < 0
    ensures ParseInt(IntToString(i)) == Some(i)
  {
    NegativeText(i);
    ParseMinusNat(-i, IntToString(i));
  }

  /** Parsing a rendered integer gives it back. */
  lemma ParseIntToString(i: int)
    ensures ParseInt(IntToString(i)) == Some(i)
  {
    if i < 0 {
      ParseNegativeToString(i);
    } else {
      ParseDigits(NatToString(i));
      DigitsValueOfNatToString(i);
    }
  }

  /** pandas' parser reads back a rendered natural number. */
  lemma ParseDecimalToString(n: nat)
    ensures ParseDecimal(NatToString(n)) == Some(n)
  {
    ParseDigits(NatToString(n));
    DigitsValueOfNatToString(n);
  }

  /** `int` skips surrounding whitespace. */
  lemma ParseIntSpaces()
    ensures ParseInt(" 72\n") == Some(72)
  {
    assert Strip(" 72\n") == "72" by {
      assert " 72\n"[1..] == "72\n";
      assert "72\n"[..2] == "72";
    }
    assert DigitsValue("72") == 72 by {
      assert "72"[..1] == "7";
      assert "7"[..0] == "";
    }
  }

  /** `int` skips single underscores between digits. */
  lemma ParseIntUnderscores()
    ensures ParseInt("-1_000") == Some(-1000)
  {
    var t := "-1_000";
    assert Strip(t) == t by { assert !IsSpace(t[0]) && !IsSpace(t[|t| - 1]); }
    assert t[0] == '-' && t[1..] == "1_000";
    GroupedThousand();
  }

  /** The body "1_000" is a digit body worth 1000. */
  lemma GroupedThousand()
    ensures Unsigned("1_000", true) == Some(1000)
  {
    var body := "1_000";
    assert DigitBody(body, true) by {
      assert body[2..] == "000" && AllDigits("000");
      DigitsBody("000", true);
    }
    assert DropUnderscores(body) == "1000" by {
      assert body[1..] == "_000";
      assert "_000"[1..] == "000";
      assert AllDigits("000");
    }
    assert DigitsValue("1000") == 1000 by {
      assert "1000"[..3] == "100";
      assert "100"[..2] == "10";
      assert "10"[..1] == "1";
      assert "1"[..0] == "";
    }
  }


  /** A doubled, leading or trailing underscore makes `int` raise. */
  lemma ParseIntRejectsUnderscores()
    ensures ParseInt("1__0") == None && ParseInt("_1") == None && ParseInt("1_") == None
  {
    assert !DigitBody("1__0", true) by { var t := "1__0"; assert t[1] == '_' && !IsDigit(t[2]); }
  }

  /** A space after the sign, or no digits at all, make `int` raise. */
  lemma ParseIntRejectsSign()
    ensures ParseInt("- 5") == None && ParseInt("") == None && ParseInt("+") == None
  {
    assert "- 5"[1..] == " 5";
    assert "+"[1..] == "";
  }

  /** pandas' parser also skips whitespace but takes no underscore. */
  lemma ParseDecimalExamples()
    ensures ParseDecimal(" 72") == Some(72) && ParseDecimal("1_000") == None
  {
    assert Strip(" 72") == "72" by { assert " 72"[1..] == "72"; }
    assert DigitsValue("72") == 72 by {
      assert "72"[..1] == "7";
      assert "7"[..0] == "";
    }
    assert !DigitBody("1_000", false) by { assert "1_000"[1] == '_'; }
  }
}
