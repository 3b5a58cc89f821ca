/**
 * String helpers of the webhook: identifier normalisation (`sanitize_id`),
 * input validation (`validate_input`), and the pieces of Python's string
 * and regular-expression library the handlers rely on (split, join, `in`,
 * `str.replace`, `int()`, `str()` of an integer, and the leading-number
 * search `\d+\.?\d*`). Character classes are ASCII: `\w` is `[A-Za-z0-9_]`
 * and `\s` is the ASCII part of Python's whitespace (tab to carriage return,
 * the four separators 0x1C-0x1F, and space).
 */
module Text {
  import opened Wrappers

  /** `MAX_INPUT_LENGTH` */
  const MaxInputLength := 50

  // ---------------------------------------------------------------------
  // Character classes
  // ---------------------------------------------------------------------

  predicate IsDigit(c: char) { '0' <= c <= '9' }

  predicate IsUpper(c: char) { 'A' <= c <= 'Z' }

  predicate IsLowerLetter(c: char) { 'a' <= c <= 'z' }

  /** `\w` restricted to ASCII */
  predicate IsWordChar(c: char) { IsLowerLetter(c) || IsUpper(c) || IsDigit(c) || c == '_' }

  /** `\s`, and what `str.strip()` removes, restricted to ASCII */
  predicate IsSpace(c: char) { 9 <= c as int <= 13 || 28 <= c as int <= 32 }

  /** The class `[\w\s-]` of `validate_input` */
  predicate IsInputChar(c: char) { IsWordChar(c) || IsSpace(c) || c == '-' }

  /** A character that a normalised identifier may hold */
  predicate IsIdChar(c: char) { IsLowerLetter(c) || IsDigit(c) || c == '_' }

  predicate AllDigits(s: string) { forall i | 0 <= i < |s| :: IsDigit(s[i]) }

  // ---------------------------------------------------------------------
  // lower() and strip()
  // ---------------------------------------------------------------------

  function ToLower(c: char): (r: char)
    ensures !IsUpper(r)
    ensures IsWordChar(c) <==> IsWordChar(r)
    ensures !IsUpper(c) ==> r == c
  {
    if IsUpper(c) then (c as int + 32) as char else c
  }

  /** `str.lower()` */
  function Lower(s: string): (r: string)
    ensures |r| == |s|
    ensures forall i | 0 <= i < |r| :: !IsUpper(r[i])
  {
    seq(|s|, i requires 0 <= i < |s| => ToLower(s[i]))
  }

  function TrimStart(s: string): (r: string)
    ensures |r| <= |s| && r == s[|s| - |r|..]
    ensures r == [] || !IsSpace(r[0])
    decreases |s|
  {
    if s != [] && IsSpace(s[0]) then TrimStart(s[1..]) else s
  }

  function TrimEnd(s: string): (r: string)
    ensures |r| <= |s| && r == s[..|r|]
    ensures r == [] || !IsSpace(r[|r| - 1])
    decreases |s|
  {
    if s != [] && IsSpace(s[|s| - 1]) then TrimEnd(s[..|s| - 1]) else s
  }

  /** `str.strip()` */
  function Strip(s: string): string {
    TrimEnd(TrimStart(s))
  }

  // ---------------------------------------------------------------------
  // sanitize_id: re.sub(r'\W+', '_', name.strip().lower())
  // ---------------------------------------------------------------------

  /** The rest of `s` after its leading run of non-word characters. */
  function DropNonWord(s: string): (r: string)
    ensures |r| <= |s| && r == s[|s| - |r|..]
    ensures r == [] || IsWordChar(r[0])
    decreases |s|
  {
    if s != [] && !IsWordChar(s[0]) then DropNonWord(s[1..]) else s
  }

  /** `re.sub(r'\W+', '_', s)`: every maximal run of non-word characters becomes one `_`. */
  function Collapse(s: string): string
    decreases |s|
  {
    if s == [] then []
    else if IsWordChar(s[0]) then [s[0]] + Collapse(s[1..])
    else "_" + Collapse(DropNonWord(s[1..]))
  }

  /** What collapsing leaves: word characters only, each a `_` or a character of the input. */
  lemma {:induction false} CollapseChars(s: string)
    ensures forall i | 0 <= i < |Collapse(s)| :: IsWordChar(Collapse(s)[i])
    ensures forall i | 0 <= i < |Collapse(s)| :: Collapse(s)[i] == '_' || Collapse(s)[i] in s
    decreases |s|
  {
    if s != [] {
      if IsWordChar(s[0]) {
        CollapseChars(s[1..]);
      } else {
        var rest := DropNonWord(s[1..]);
        CollapseChars(rest);
        assert forall c | c in rest :: c in s;
      }
    }
  }

  /** `sanitize_id`: the identifier a display name is stored under. */
  function SanitizeId(name: string): (r: string)
    ensures forall i | 0 <= i < |r| :: IsIdChar(r[i])
  {
    var lowered := Lower(Strip(name));
    var r := Collapse(lowered);
    CollapseChars(lowered);
    assert forall i | 0 <= i < |r| :: IsIdChar(r[i]) by {
      forall i | 0 <= i < |r| ensures IsIdChar(r[i]) {
        if r[i] != '_' {
          var j :| 0 <= j < |lowered| && lowered[j] == r[i];
          assert !IsUpper(lowered[j]);
        }
      }
    }
    r
  }

  lemma {:induction false} CollapseOfWordChars(s: string)
    requires forall i | 0 <= i < |s| :: IsWordChar(s[i])
    ensures Collapse(s) == s
    decreases |s|
  {
    if s != [] {
      CollapseOfWordChars(s[1..]);
    }
  }

  /** An identifier has no whitespace, no upper case and no run of non-word
      characters, so normalising it again changes nothing. */
  lemma SanitizeIdIdempotent(name: string)
    ensures SanitizeId(SanitizeId(name)) == SanitizeId(name)
  {
    var id := SanitizeId(name);
    assert TrimStart(id) == id;
    assert TrimEnd(id) == id;
    assert Lower(id) == id;
    CollapseOfWordChars(id);
  }

  // ---------------------------------------------------------------------
  // validate_input
  // ---------------------------------------------------------------------

  /** `re.match(r"^[\w\s-]+$", s)` */
  function MatchesInputClass(s: string): bool
    decreases |s|
  {
    |s| >= 1 && IsInputChar(s[0]) && (|s| == 1 || MatchesInputClass(s[1..]))
  }

  /** `validate_input` */
  function ValidateInput(value: string): bool {
    if value == [] || |value| > MaxInputLength then false
    else MatchesInputClass(value)
  }

  lemma {:induction false} MatchesInputClassIff(s: string)
    ensures MatchesInputClass(s) <==> |s| >= 1 && forall i | 0 <= i < |s| :: IsInputChar(s[i])
    decreases |s|
  {
    if |s| > 1 {
      MatchesInputClassIff(s[1..]);
      if forall i | 0 <= i < |s| :: IsInputChar(s[i]) {
        assert forall i | 0 <= i < |s[1..]| :: IsInputChar(s[1..][i]);
      }
      if MatchesInputClass(s) {
        forall i | 0 <= i < |s| ensures IsInputChar(s[i]) {
          if i > 0 { assert s[i] == s[1..][i - 1]; }
        }
      }
    }
  }

  /** An input is valid exactly when it has 1 to 50 characters, each a word
      character, whitespace or `-`. There is no three-character minimum. */
  lemma ValidateInputIff(value: string)
    ensures ValidateInput(value) <==>
      1 <= |value| <= MaxInputLength && forall i | 0 <= i < |value| :: IsInputChar(value[i])
  {
    MatchesInputClassIff(value);
  }

  // ---------------------------------------------------------------------
  // split and join
  // ---------------------------------------------------------------------

  /** `s.split(sep)` for a one-character separator */
  function Split(s: string, sep: char): (parts: seq<string>)
    ensures |parts| >= 1
    ensures forall i | 0 <= i < |parts| :: sep !in parts[i]
    decreases |s|
  {
    if s == [] then [[]]
    else
      var rest := Split(s[1..], sep);
      if s[0] == sep then [[]] + rest else [[s[0]] + rest[0]] + rest[1..]
  }

  /** `sep.join(parts)` */
  function Join(sep: string, parts: seq<string>): string
    decreases |parts|
  {
    if parts == [] then []
    else if |parts| == 1 then parts[0]
    else parts[0] + sep + Join(sep, parts[1..])
  }

  lemma {:induction false} JoinSplit(s: string, sep: char)
    ensures Join([sep], Split(s, sep)) == s
    decreases |s|
  {
    if s != [] {
      var rest := Split(s[1..], sep);
      JoinSplit(s[1..], sep);
      if s[0] == sep {
        var parts := [[]] + rest;
        assert parts[1..] == rest;
        assert Join([sep], parts) == [] + [sep] + Join([sep], rest);
      } else {
        var parts := [[s[0]] + rest[0]] + rest[1..];
        if |rest| > 1 {
          assert parts[1..] == rest[1..];
          assert Join([sep], rest) == rest[0] + [sep] + Join([sep], rest[1..]);
        }
      }
    }
  }

  lemma {:induction false} SplitNoSep(a: string, sep: char)
    requires sep !in a
    ensures Split(a, sep) == [a]
    decreases |a|
  {
    if a != [] {
      SplitNoSep(a[1..], sep);
      assert [a[0]] + a[1..] == a;
    }
  }

  lemma {:induction false} SplitAtSep(a: string, sep: char, t: string)
    requires sep !in a
    ensures Split(a + [sep] + t, sep) == [a] + Split(t, sep)
    decreases |a|
  {
    if a == [] {
      assert a + [sep] + t == [sep] + t;
      assert ([sep] + t)[1..] == t;
    } else {
      SplitAtSep(a[1..], sep, t);
      assert (a + [sep] + t)[1..] == a[1..] + [sep] + t;
      assert [a[0]] + a[1..] == a;
    }
  }

  /** Joining segments that hold no separator and splitting again gives
      back the segments: the round trip `handle_list_query` performs when
      it re-joins the rest of a path for `get_nested_property`. */
  lemma {:induction false} SplitJoin(parts: seq<string>, sep: char)
    requires |parts| >= 1
    requires forall i | 0 <= i < |parts| :: sep !in parts[i]
    ensures Split(Join([sep], parts), sep) == parts
    decreases |parts|
  {
    if |parts| == 1 {
      SplitNoSep(parts[0], sep);
    } else {
      SplitJoin(parts[1..], sep);
      SplitAtSep(parts[0], sep, Join([sep], parts[1..]));
      assert [parts[0]] + parts[1..] == parts;
    }
  }

  // ---------------------------------------------------------------------
  // `sub in s` and str.replace
  // ---------------------------------------------------------------------

  predicate StartsWith(s: string, prefix: string) {
    |prefix| <= |s| && s[..|prefix|] == prefix
  }

  /** Python's `sub in s` on strings */
  predicate Contains(s: string, sub: string)
    decreases |s|
  {
    StartsWith(s, sub) || (s != [] && Contains(s[1..], sub))
  }

  /** `s.replace(pat, rep)`: left to right, non-overlapping. */
  function ReplaceAll(s: string, pat: string, rep: string): string
    requires pat != []
    decreases |s|
  {
    if |s| < |pat| then s
    else if s[..|pat|] == pat then rep + ReplaceAll(s[|pat|..], pat, rep)
    else [s[0]] + ReplaceAll(s[1..], pat, rep)
  }

  lemma {:induction false} ReplaceAllAbsent(s: string, pat: string, rep: string)
    requires pat != []
    requires !Contains(s, pat)
    ensures ReplaceAll(s, pat, rep) == s
    decreases |s|
  {
    if |s| >= |pat| {
      ReplaceAllAbsent(s[1..], pat, rep);
    }
  }

  // ---------------------------------------------------------------------
  // Decimal integers: str(n) and int(s)
  // ---------------------------------------------------------------------

  function DigitChar(d: nat): (c: char)
    requires d < 10
    ensures IsDigit(c) && c as int - '0' as int == d
  {
    (d + '0' as int) as char
  }

  function DigitValue(c: char): (d: nat)
    requires IsDigit(c)
    ensures d < 10
  {
    c as int - '0' as int
  }

  /** `str(n)` for a natural number */
  function NatToString(n: nat): (r: string)
    ensures |r| >= 1 && AllDigits(r)
    decreases n
  {
    if n < 10 then [DigitChar(n)] else NatToString(n / 10) + [DigitChar(n % 10)]
  }

  /** `str(i)` */
  function IntToString(i: int): string {
    if i < 0 then "-" + NatToString(-i) else NatToString(i)
  }

  /** The number a run of decimal digits denotes. */
  function DigitsValue(s: string): nat
    requires AllDigits(s)
    decreases |s|
  {
    if s == [] then 0 else DigitsValue(s[..|s| - 1]) * 10 + DigitValue(s[|s| - 1])
  }

  /** A decimal numeral as `int()` reads one: digits, with single
      underscores allowed between two digits, as in "1_000". Read from the
      end: a digit, after a numeral, after a numeral and one underscore, or
      alone. */
  predicate Numeral(t: string)
    decreases |t|
  {
    && |t| >= 1 && IsDigit(t[|t| - 1])
    && (|t| == 1 || Numeral(t[..|t| - 1]) || (|t| >= 3 && t[|t| - 2] == '_' && Numeral(t[..|t| - 2])))
  }

  /** The digits of a text in order, anything else dropped: for a numeral,
      the digits without the underscores. */
  function DigitsOf(t: string): (d: string)
    ensures AllDigits(d) && |d| <= |t|
    decreases |t|
  {
    if t == [] then []
    else DigitsOf(t[..|t| - 1]) + (if IsDigit(t[|t| - 1]) then [t[|t| - 1]] else [])
  }

  /** `int(s)` for a string: surrounding whitespace, an optional sign and a
      numeral; anything else is the `ValueError` case, `None`. Digits and
      whitespace are the ASCII ones. */
  function ParseInt(s: string): Option<int> {
    ParseStripped(Strip(s))
  }

  function ParseStripped(t: string): Option<int> {
    if Numeral(t) then Some(DigitsValue(DigitsOf(t)))
    else if |t| >= 2 && (t[0] == '-' || t[0] == '+') && Numeral(t[1..]) then
      var magnitude: int := DigitsValue(DigitsOf(t[1..]));
      Some(if t[0] == '-' then -magnitude else magnitude)
    else None
  }

  /** A numeral starts with a digit. */
  lemma {:induction false} NumeralStartsWithDigit(t: string)
    requires Numeral(t)
    ensures IsDigit(t[0])
    decreases |t|
  {
    if |t| > 1 {
      var init := if Numeral(t[..|t| - 1]) then t[..|t| - 1] else t[..|t| - 2];
      NumeralStartsWithDigit(init);
      assert init[0] == t[0];
    }
  }

  /** A run of digits is a numeral whose digits are itself. */
  lemma {:induction false} DigitsAreNumeral(d: string)
    requires |d| >= 1 && AllDigits(d)
    ensures Numeral(d) && DigitsOf(d) == d
    decreases |d|
  {
    if |d| > 1 {
      DigitsAreNumeral(d[..|d| - 1]);
    }
    assert d[..|d| - 1] + [d[|d| - 1]] == d;
  }

  lemma {:induction false} DigitsValueOfNatToString(n: nat)
    ensures DigitsValue(NatToString(n)) == n
    decreases n
  {
    if n >= 10 {
      DigitsValueOfNatToString(n / 10);
      var s := NatToString(n / 10) + [DigitChar(n % 10)];
      assert s[..|s| - 1] == NatToString(n / 10);
    }
  }

  lemma {:induction false} DigitsAreNotSpace(s: string)
    requires AllDigits(s)
    ensures Strip(s) == s
  {
    assert TrimStart(s) == s;
    assert TrimEnd(s) == s;
  }

  /** A minus sign followed by digits has no surrounding whitespace. */
  lemma {:induction false} SignedDigitsStripped(t: string)
    requires |t| >= 2 && t[0] == '-' && AllDigits(t[1..])
    ensures Strip(t) == t
  {
    assert TrimStart(t) == t;
    assert t[|t| - 1] == t[1..][|t| - 2];
    assert TrimEnd(t) == t;
  }

  /** A stripped text that is a minus sign before a numeral parses to the
      negated value of the numeral. */
  lemma ParseStrippedNegative(t: string)
    requires |t| >= 2 && t[0] == '-' && Numeral(t[1..])
    ensures ParseStripped(t) == Some(-(DigitsValue(DigitsOf(t[1..])) as int))
  {
    if Numeral(t) {
      NumeralStartsWithDigit(t);
    }
  }

  /** `int` of a minus sign followed by digits is the negated digit value. */
  lemma {:induction false} ParseSignedDigits(t: string)
    requires |t| >= 2 && t[0] == '-' && AllDigits(t[1..])
    ensures ParseInt(t) == Some(-(DigitsValue(t[1..]) as int))
  {
    DigitsAreNumeral(t[1..]);
    calc {
      ParseInt(t);
      { SignedDigitsStripped(t); }
      ParseStripped(t);
      { ParseStrippedNegative(t); }
      Some(-(DigitsValue(DigitsOf(t[1..])) as int));
      Some(-(DigitsValue(t[1..]) as int));
    }
  }

  /** `int(str(-n)) == -n` for a positive `n`. */
  lemma {:induction false} ParseIntOfNegative(n: nat)
    requires n > 0
    ensures ParseInt(IntToString(-(n as int))) == Some(-(n as int))
  {
    var t := IntToString(-(n as int));
    assert t[1..] == NatToString(n);
    calc {
      ParseInt(t);
      { ParseSignedDigits(t); }
      Some(-(DigitsValue(t[1..]) as int));
      { DigitsValueOfNatToString(n); }
      Some(-(n as int));
    }
  }

  lemma {:induction false} ParseIntOfNatural(n: nat)
    ensures ParseInt(NatToString(n)) == Some(n as int)
    ensures ParseInt(IntToString(n)) == Some(n as int)
  {
    var digits := NatToString(n);
    assert IntToString(n) == digits;
    assert ParseInt(digits) == ParseStripped(digits) by { DigitsAreNotSpace(digits); }
    assert ParseStripped(digits) == Some(DigitsValue(digits) as int) by { ParseDigits(digits); }
    assert DigitsValue(digits) == n by { DigitsValueOfNatToString(n); }
  }

  lemma {:induction false} ParseDigits(d: string)
    requires |d| >= 1 && AllDigits(d)
    ensures ParseStripped(d) == Some(DigitsValue(d) as int)
  {
    DigitsAreNumeral(d);
  }

  /** A text without whitespace at either end is its own stripped form. */
  lemma StripUnspaced(t: string)
    requires |t| >= 1 && !IsSpace(t[0]) && !IsSpace(t[|t| - 1])
    ensures Strip(t) == t
  {
    assert TrimStart(t) == t;
    assert TrimEnd(t) == t;
  }

  /** `int()` accepts one underscore between two digits, so "1_0" is 10. */
  lemma ParseIntUnderscore(a: char, b: char)
    requires IsDigit(a) && IsDigit(b)
    ensures ParseInt([a, '_', b]) == Some(DigitValue(a) * 10 + DigitValue(b))
  {
    var t := [a, '_', b];
    StripUnspaced(t);
    assert t[..2] == [a, '_'] && t[..1] == [a] && [a, '_'][..1] == [a] && [a][..0] == [];
    assert Numeral([a]);
    assert Numeral(t);
    assert DigitsOf([a]) == [a];
    assert DigitsOf([a, '_']) == [a];
    assert DigitsOf(t) == [a, b];
    assert [a, b][..1] == [a];
    assert DigitsValue([a]) == DigitValue(a);
  }

  /** Two underscores in a row, or one before the digits, are the
      `ValueError` case: "1__0" and "_10" do not convert. */
  lemma ParseIntUnderscoreMisplaced(a: char, b: char)
    requires IsDigit(a) && IsDigit(b)
    ensures ParseInt([a, '_', '_', b]) == None
    ensures ParseInt(['_', a, b]) == None
  {
    var t := [a, '_', '_', b];
    StripUnspaced(t);
    assert t[..3] == [a, '_', '_'] && t[..2] == [a, '_'];
    assert !Numeral([a, '_', '_']) && !Numeral([a, '_']);
    assert !Numeral(t);
    var u := ['_', a, b];
    StripUnspaced(u);
    assert u[..2] == ['_', a] && u[..1] == ['_'] && ['_', a][..1] == ['_'];
    assert !Numeral(['_']);
    assert !Numeral(['_', a]);
    assert !Numeral(u);
  }

  /** `int(str(i)) == i` */
  lemma {:induction false} ParseIntOfIntToString(i: int)
    ensures ParseInt(IntToString(i)) == Some(i)
  {
    if i < 0 {
      ParseIntOfNegative(-i);
    } else {
      ParseIntOfNatural(i);
    }
  }

  // ---------------------------------------------------------------------
  // re.search(r'(\d+\.?\d*)', s)
  // ---------------------------------------------------------------------

  /** Length of the leading run of digits of `s`. */
  function DigitRun(s: string): (k: nat)
    ensures k <= |s| && AllDigits(s[..k])
    ensures k < |s| ==> !IsDigit(s[k])
    decreases |s|
  {
    if s != [] && IsDigit(s[0]) then 1 + DigitRun(s[1..]) else 0
  }

  function Pow10(k: nat): (p: nat)
    ensures p >= 1
  {
    if k == 0 then 1 else 10 * Pow10(k - 1)
  }

  /** The number `\d+\.?\d*` matches at the start of `s`, as an exact decimal. */
  function NumberAt(s: string): real
    requires s != [] && IsDigit(s[0])
  {
    var k := DigitRun(s);
    if k < |s| && s[k] == '.' then
      var f := DigitRun(s[k + 1..]);
      assert s[k + 1..][..f] == s[k + 1..k + 1 + f];
      assert AllDigits(s[..k] + s[k + 1..k + 1 + f]);
      (DigitsValue(s[..k] + s[k + 1..k + 1 + f]) as real) / (Pow10(f) as real)
    else DigitsValue(s[..k]) as real
  }

  /** The first match of `\d+\.?\d*` in `s`, or `None` when `s` has no digit. */
  function LeadingNumber(s: string): (r: Option<real>)
    ensures r.None? <==> forall i | 0 <= i < |s| :: !IsDigit(s[i])
    decreases |s|
  {
    if s == [] then None
    else if IsDigit(s[0]) then Some(NumberAt(s))
    else
      var r := LeadingNumber(s[1..]);
      assert forall i | 1 <= i < |s| :: s[i] == s[1..][i - 1];
      r
  }
}
