/** The JavaScript string and number behaviour the program's helpers rely on:
    `trim`, `split`, the regular-expression split on `\s+`, `Number(...)` of a
    field, `String(n)`, `padStart(2, "0")`, `slice(0, n)`, `startsWith` and the
    `<`/`>=` comparison of strings. */
module Text {

  /** The characters `String.prototype.trim` and the regular-expression class
      `\s` treat as white space (ECMAScript WhiteSpace and LineTerminator). */
  const SpaceChars: set<char> := {
    ' ', '\t', '\n', '\r', '\U{000B}', '\U{000C}', '\U{00A0}', '\U{1680}',
    '\U{2000}', '\U{2001}', '\U{2002}', '\U{2003}', '\U{2004}', '\U{2005}',
    '\U{2006}', '\U{2007}', '\U{2008}', '\U{2009}', '\U{200A}',
    '\U{2028}', '\U{2029}', '\U{202F}', '\U{205F}', '\U{3000}', '\U{FEFF}'
  }

  predicate IsSpace(c: char)
  {
    c in SpaceChars
  }

  predicate IsBlank(s: string)
  {
    forall i :: 0 <= i < |s| ==> IsSpace(s[i])
  }

  function TrimStart(s: string): (r: string)
    ensures |r| <= |s| && r == s[|s| - |r|..]
    ensures IsBlank(s[..|s| - |r|])
    ensures r == [] || !IsSpace(r[0])
  {
    if s != [] && IsSpace(s[0]) then
      var t := s[1..];
      var r := TrimStart(t);
      var k := |t| - |r|;
      BlankAfterSpace(s[0], t[..k]);
      assert s[..k + 1] == [s[0]] + t[..k];
      assert t[k..] == s[k + 1..];
      r
    else s
  }

  /** A white-space character in front of a blank part gives a longer blank
      part. */
  lemma BlankAfterSpace(c: char, b: string)
    requires IsSpace(c) && IsBlank(b)
    ensures IsBlank([c] + b)
  {
    assert forall i :: 0 < i <= |b| ==> ([c] + b)[i] == b[i - 1];
  }

  function TrimEnd(s: string): (r: string)
    ensures |r| <= |s| && r == s[..|r|]
    ensures IsBlank(s[|r|..])
    ensures r == [] || !IsSpace(r[|r| - 1])
  {
    if s != [] && IsSpace(s[|s| - 1]) then
      var t := s[..|s| - 1];
      var r := TrimEnd(t);
      BlankBeforeSpace(t[|r|..], s[|s| - 1]);
      assert s[|r|..] == t[|r|..] + [s[|s| - 1]];
      assert t[..|r|] == s[..|r|];
      r
    else s
  }

  /** A blank part followed by a white-space character is a longer blank
      part. */
  lemma BlankBeforeSpace(b: string, c: char)
    requires IsBlank(b) && IsSpace(c)
    ensures IsBlank(b + [c])
  {
    assert forall i :: 0 <= i < |b| ==> (b + [c])[i] == b[i];
  }

  /** `s.trim()`: a part of `s` that neither starts nor ends with white
      space, and is empty exactly when `s` is blank. */
  function Trim(s: string): (r: string)
    ensures |r| <= |s|
    ensures r == [] || (!IsSpace(r[0]) && !IsSpace(r[|r| - 1]))
    ensures r == [] <==> IsBlank(s)
  {
    var t := TrimStart(s);
    var r := TrimEnd(t);
    assert r == [] ==> IsBlank(t) by {
      if r == [] {
        assert t[|r|..] == t;
      }
    }
    assert r == [] ==> IsBlank(s) by {
      if r == [] {
        assert s[..|s| - |t|] == s;
      }
    }
    assert IsBlank(s) ==> IsBlank(t) by {
      if IsBlank(s) {
        assert IsBlank(s[|s| - |t|..]);
      }
    }
    r
  }

  /** Trimming a trimmed string changes nothing. */
  lemma TrimIdempotent(s: string)
    ensures Trim(Trim(s)) == Trim(s)
  {
    var r := Trim(s);
    if r != [] {
      assert TrimStart(r) == r;
      assert TrimEnd(r) == r;
    }
  }

  /** A string that neither starts nor ends with white space is its own trim. */
  lemma TrimOfTrimmed(s: string)
    requires s == [] || (!IsSpace(s[0]) && !IsSpace(s[|s| - 1]))
    ensures Trim(s) == s
  {
  }

  // ---------------------------------------------------------------------
  // `split` on a single separator character

  /** `s.split(sep)`: the fields between occurrences of `sep`; always at least one. */
  function Split(s: string, sep: char): (r: seq<string>)
    ensures |r| >= 1
  {
    if s == [] then [""]
    else
      var rest := Split(s[1..], sep);
      if s[0] == sep then [""] + rest else [[s[0]] + rest[0]] + rest[1..]
  }

  /** One field more than there are separators, and no field holds one. */
  lemma {:induction false} SplitFields(s: string, sep: char)
    ensures |Split(s, sep)| == multiset(s)[sep] + 1
    ensures forall i :: 0 <= i < |Split(s, sep)| ==> sep !in Split(s, sep)[i]
  {
    if s != [] {
      assert s == [s[0]] + s[1..];
      SplitFields(s[1..], sep);
    }
  }

  /** Without a separator there is a single field, the whole string. */
  lemma {:induction false} SplitWithoutSeparator(s: string, sep: char)
    requires sep !in s
    ensures Split(s, sep) == [s]
  {
    if s != [] {
      SplitWithoutSeparator(s[1..], sep);
      assert [s[0]] + s[1..] == s;
    }
  }

  /** A separator after a separator-free prefix ends the first field there. */
  lemma {:induction false} SplitAtFirstSeparator(a: string, sep: char, b: string)
    requires sep !in a
    ensures Split(a + [sep] + b, sep) == [a] + Split(b, sep)
  {
    if a == [] {
      assert a + [sep] + b == [sep] + b;
      assert ([sep] + b)[1..] == b;
    } else {
      assert (a + [sep] + b)[1..] == a[1..] + [sep] + b;
      SplitAtFirstSeparator(a[1..], sep, b);
      assert [a[0]] + a[1..] == a;
    }
  }

  // ---------------------------------------------------------------------
  // `split(/\s+/)`

  /** `s.split(/\s+/)`: the fields between maximal runs of white space. A
      leading or trailing run yields an empty field; `""` yields `[""]`. */
  function SplitOnSpaces(s: string): (r: seq<string>)
    ensures |r| >= 1
    decreases |s|
  {
    if s == [] then [""]
    else if IsSpace(s[0]) then [""] + SplitOnSpaces(TrimStart(s))
    else
      var rest := SplitOnSpaces(s[1..]);
      [[s[0]] + rest[0]] + rest[1..]
  }

  predicate NoSpace(s: string)
  {
    forall i :: 0 <= i < |s| ==> !IsSpace(s[i])
  }

  /** A word followed by a white-space run: the word is the first field, and
      the fields after it are those of what follows the run. */
  lemma {:induction false} SplitOnSpacesWord(w: string, sp: string, rest: string)
    requires NoSpace(w) && sp != [] && IsBlank(sp)
    requires rest == [] || !IsSpace(rest[0])
    ensures SplitOnSpaces(w + sp + rest) == [w] + SplitOnSpaces(rest)
  {
    if w == [] {
      assert w + sp + rest == sp + rest;
      TrimStartOfBlankPrefix(sp, rest);
    } else {
      assert (w + sp + rest)[1..] == w[1..] + sp + rest;
      SplitOnSpacesWord(w[1..], sp, rest);
      assert [w[0]] + w[1..] == w;
    }
  }

  /** A string without white space is a single field. */
  lemma {:induction false} SplitOnSpacesOneWord(w: string)
    requires NoSpace(w)
    ensures SplitOnSpaces(w) == [w]
  {
    if w != [] {
      SplitOnSpacesOneWord(w[1..]);
      assert [w[0]] + w[1..] == w;
    }
  }

  /** Splitting a string that does not end with white space gives no empty
      field after the first, and none at all when the string does not start
      with white space either. */
  lemma {:induction false} SplitOnSpacesNoEmptyField(s: string)
    requires s == [] || !IsSpace(s[|s| - 1])
    ensures forall i :: 1 <= i < |SplitOnSpaces(s)| ==> SplitOnSpaces(s)[i] != []
    ensures s != [] && !IsSpace(s[0]) ==> SplitOnSpaces(s)[0] != []
    decreases |s|
  {
    if s != [] && IsSpace(s[0]) {
      var d := TrimStart(s);
      SplitOnSpacesNoEmptyField(d);
    } else if s != [] {
      SplitOnSpacesNoEmptyField(s[1..]);
    }
  }

  /** The fields of a trimmed string: one field, or two or more of which the
      first two are not empty. */
  lemma FieldsOfTrimmed(t: string, parts: seq<string>)
    requires t == [] || (!IsSpace(t[0]) && !IsSpace(t[|t| - 1]))
    requires parts == SplitOnSpaces(t)
    ensures |parts| >= 1
    ensures |parts| >= 2 ==> parts[0] != [] && parts[1] != []
  {
    SplitOnSpacesNoEmptyField(t);
    if t == [] {
      assert parts == [""];
    }
  }

  /** White space in front of a string that does not start with it is
      dropped by `trimStart`. */
  lemma {:induction false} TrimStartOfBlankPrefix(p: string, s: string)
    requires IsBlank(p) && (s == [] || !IsSpace(s[0]))
    ensures TrimStart(p + s) == s
  {
    if p == [] {
      assert p + s == s;
    } else {
      assert (p + s)[1..] == p[1..] + s;
      TrimStartOfBlankPrefix(p[1..], s);
    }
  }

  /** `trimEnd` of a string that follows a part ending in a visible character
      only trims the string. */
  lemma {:induction false} TrimEndAfterVisible(u: string, v: string)
    requires u != [] && !IsSpace(u[|u| - 1])
    ensures TrimEnd(u + v) == u + TrimEnd(v)
    decreases |v|
  {
    if v == [] {
      assert u + v == u;
    } else if IsSpace(v[|v| - 1]) {
      assert (u + v)[..|u + v| - 1] == u + v[..|v| - 1];
      TrimEndAfterVisible(u, v[..|v| - 1]);
    }
  }

  /** A blank string trims to nothing at its end. */
  lemma TrimEndOfBlank(s: string)
    requires IsBlank(s)
    ensures TrimEnd(s) == []
  {
  }

  /** Trimming a visible part between white space in front and anything
      after it keeps the part and trims only what follows. */
  lemma TrimAroundVisible(pre: string, u: string, post: string)
    requires IsBlank(pre)
    requires u != [] && !IsSpace(u[0]) && !IsSpace(u[|u| - 1])
    ensures Trim(pre + u + post) == u + TrimEnd(post)
  {
    assert pre + u + post == pre + (u + post);
    TrimStartOfBlankPrefix(pre, u + post);
    TrimEndAfterVisible(u, post);
  }

  /** A word then white space (or nothing) starts with that word as a field. */
  lemma {:induction false} SplitOnSpacesFirstField(w: string, rest: string)
    requires NoSpace(w)
    requires rest == [] || IsSpace(rest[0])
    ensures SplitOnSpaces(w + rest)[0] == w
  {
    if w == [] {
      if rest == [] {
      } else {
        assert w + rest == rest;
      }
    } else {
      assert (w + rest)[1..] == w[1..] + rest;
      SplitOnSpacesFirstField(w[1..], rest);
      assert [w[0]] + w[1..] == w;
    }
  }

  // ---------------------------------------------------------------------
  // Numbers

  /** A JavaScript number as far as the program's time and date fields can
      produce one: an integer, or NaN. */
  datatype Num = Finite(value: int) | NaN

  /** `a + b`: NaN when either side is NaN. */
  function Plus(a: Num, b: Num): (r: Num)
    ensures r.NaN? <==> a.NaN? || b.NaN?
    ensures r.Finite? ==> r.value - b.value == a.value
  {
    if a.Finite? && b.Finite? then Finite(a.value + b.value) else NaN
  }

  /** `a * k` for an integer `k`: NaN when `a` is NaN. */
  function Times(a: Num, k: int): (r: Num)
    ensures r.NaN? <==> a.NaN?
    ensures r.Finite? ==> r.value == a.value * k
  {
    if a.Finite? then Finite(a.value * k) else NaN
  }

  /** `a < b`: every comparison involving NaN is false. */
  predicate Less(a: Num, b: Num)
    ensures Less(a, b) ==> a.Finite? && b.Finite? && a != b
    ensures a.Finite? && b.Finite? ==> (Less(a, b) <==> a.value < b.value)
  {
    a.Finite? && b.Finite? && a.value < b.value
  }

  predicate IsDigit(c: char)
  {
    '0' <= c <= '9'
  }

  predicate AllDigits(s: string)
  {
    forall i :: 0 <= i < |s| ==> IsDigit(s[i])
  }

  /** The value of a string of decimal digits (`""` is 0). */
  function DigitsValue(s: string): nat
    requires AllDigits(s)
  {
    if s == [] then 0 else 10 * DigitsValue(s[..|s| - 1]) + (s[|s| - 1] as int - '0' as int)
  }

  /** Leading zeros do not change the value. */
  lemma {:induction false} DigitsValueLeadingZero(s: string)
    requires AllDigits(s)
    ensures AllDigits("0" + s) && DigitsValue("0" + s) == DigitsValue(s)
  {
    if s != [] {
      assert ("0" + s)[..|s|] == "0" + s[..|s| - 1];
      DigitsValueLeadingZero(s[..|s| - 1]);
    }
  }

  /** `Number(field)` for the fields the program parses: the field is trimmed;
      an empty field is 0, a run of decimal digits is its value, and anything
      else is NaN. A field that is already a run of digits needs no trimming
      and is read as it is (`ToNumberTrims`: the same as trimming first). */
  function ToNumber(s: string): (n: Num)
    ensures n.Finite? ==> n.value >= 0
  {
    if AllDigits(s) then Finite(DigitsValue(s))
    else NumberOfTrimmed(Trim(s))
  }

  /** `Number` of a trimmed field. */
  function NumberOfTrimmed(t: string): Num
  {
    if t == [] then Finite(0)
    else if AllDigits(t) then Finite(DigitsValue(t))
    else NaN
  }

  /** `ToNumber` trims the field first, as `Number` does. */
  lemma ToNumberTrims(s: string)
    ensures ToNumber(s) == NumberOfTrimmed(Trim(s))
  {
    if AllDigits(s) {
      TrimOfDigits(s);
    }
  }

  lemma TrimOfDigits(s: string)
    requires AllDigits(s)
    ensures Trim(s) == s
  {
    if s != [] {
      assert IsDigit(s[0]) && IsDigit(s[|s| - 1]);
      TrimOfTrimmed(s);
    }
  }

  function DigitChar(d: int): char
    requires 0 <= d < 10
  {
    ('0' as int + d) as char
  }

  /** `String(n)` for a natural number: its decimal digits, without leading zeros. */
  function NatToString(n: nat): (s: string)
    ensures |s| >= 1 && AllDigits(s) && DigitsValue(s) == n
    ensures s[0] == '0' <==> n == 0
    ensures n < 10 <==> |s| == 1
  {
    if n < 10 then [DigitChar(n)]
    else
      var s := NatToString(n / 10) + [DigitChar(n % 10)];
      assert s[..|s| - 1] == NatToString(n / 10);
      s
  }

  /** `String(i)` for an integer. */
  function IntToString(i: int): (s: string)
    ensures i >= 0 ==> s == NatToString(i)
    ensures i < 0 ==> s == "-" + NatToString(-i)
  {
    if i < 0 then "-" + NatToString(-i) else NatToString(i)
  }

  /** Different integers print differently. */
  lemma IntToStringInjective(i: int, j: int)
    requires IntToString(i) == IntToString(j)
    ensures i == j
  {
    assert IntToString(i)[0] == '-' <==> i < 0;
    assert IntToString(j)[0] == '-' <==> j < 0;
    if i < 0 {
      assert NatToString(-i) == IntToString(i)[1..] == IntToString(j)[1..] == NatToString(-j);
    }
  }

  /** `s.padStart(2, "0")`. */
  function PadStart2(s: string): (r: string)
    ensures |r| == if |s| >= 2 then |s| else 2
    ensures r[|r| - |s|..] == s
    ensures forall i :: 0 <= i < |r| - |s| ==> r[i] == '0'
  {
    if |s| == 0 then "00" else if |s| == 1 then "0" + s else s
  }

  /** `String(n).padStart(2, "0")` for a natural number: at least two decimal
      digits, exactly two below 100, with the value `n`. */
  function TwoDigits(n: nat): (r: string)
    ensures AllDigits(r) && DigitsValue(r) == n
    ensures n < 100 <==> |r| == 2
  {
    var s := NatToString(n);
    if |s| == 1 then
      DigitsValueLeadingZero(s);
      "0" + s
    else
      assert n >= 10;
      assert n >= 100 ==> |NatToString(n / 10)| >= 2;
      s
  }

  // ---------------------------------------------------------------------
  // Other string operations

  /** `s.slice(0, n)`. */
  function Take(s: string, n: nat): (r: string)
    ensures |r| == if n < |s| then n else |s|
    ensures r == s[..|r|]
  {
    if n < |s| then s[..n] else s
  }

  /** `s.startsWith(p)`: `s` is `p` followed by the rest of `s`. */
  predicate StartsWith(s: string, p: string)
    ensures StartsWith(s, p) <==> |p| <= |s| && s == p + s[|p|..]
  {
    |p| <= |s| && s[..|p|] == p
  }

  /** `a < b` on strings: lexicographic order of the characters, in which a
      proper prefix comes first. */
  predicate StrLess(a: string, b: string)
    ensures a != b && |a| <= |b| && a == b[..|a|] ==> StrLess(a, b)
  {
    if a == [] then b != []
    else if b == [] then false
    else if a[0] != b[0] then a[0] < b[0]
    else StrLess(a[1..], b[1..])
  }

  /** String `<` is irreflexive, transitive and total: a strict total order. */
  lemma {:induction false} StrLessIrreflexive(a: string)
    ensures !StrLess(a, a)
  {
    if a != [] {
      StrLessIrreflexive(a[1..]);
    }
  }

  lemma {:induction false} StrLessTransitive(a: string, b: string, c: string)
    requires StrLess(a, b) && StrLess(b, c)
    ensures StrLess(a, c)
  {
    if a != [] && b != [] && c != [] && a[0] == b[0] && b[0] == c[0] {
      StrLessTransitive(a[1..], b[1..], c[1..]);
    }
  }

  lemma {:induction false} StrLessTotal(a: string, b: string)
    ensures a == b || StrLess(a, b) || StrLess(b, a)
  {
    if a != [] && b != [] && a[0] == b[0] {
      StrLessTotal(a[1..], b[1..]);
      if a[1..] == b[1..] {
        assert a == [a[0]] + a[1..] && b == [b[0]] + b[1..];
      }
    }
  }

  lemma StrLessAsymmetric(a: string, b: string)
    requires StrLess(a, b)
    ensures !StrLess(b, a)
  {
    if StrLess(b, a) {
      StrLessTransitive(a, b, a);
      StrLessIrreflexive(a);
    }
  }
}
