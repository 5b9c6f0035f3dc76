/**
 * The few Python string built-ins the experiment scripts rely on:
 * `str.strip()`, `str.lower()` and `int()` applied to a table cell.
 */
module PyText {
  import opened Wrappers

  /** The characters for which Python's `str.isspace()` holds. */
  predicate IsSpace(c: char)
  {
    || ('\t' <= c <= '\r')
    || ('\U{1c}' <= c <= '\U{1f}')
    || c == ' ' || c == '\U{85}' || c == '\U{a0}' || c == '\U{1680}'
    || ('\U{2000}' <= c <= '\U{200a}')
    || c == '\U{2028}' || c == '\U{2029}' || c == '\U{202f}' || c == '\U{205f}' || c == '\U{3000}'
  }

  /** `s.lstrip()`: drop leading whitespace. */
  function StripLeft(s: string): (r: string)
    ensures |r| <= |s| && r == s[|s| - |r|..]
  {
    if s != [] && IsSpace(s[0]) then StripLeft(s[1..]) else s
  }

  /** What `lstrip` removed is whitespace, and what it kept does not start with whitespace. */
  lemma {:induction false} StripLeftSpec(s: string)
    ensures var r := StripLeft(s);
      && (r == [] || !IsSpace(r[0]))
      && forall i :: 0 <= i < |s| - |r| ==> IsSpace(s[i])
  {
    if s != [] && IsSpace(s[0]) {
      StripLeftSpec(s[1..]);
      var r := StripLeft(s[1..]);
      forall i | 0 <= i < |s| - |r|
        ensures IsSpace(s[i])
      {
        if i > 0 {
          assert s[i] == s[1..][i - 1];
        }
      }
    }
  }

  /** `s.rstrip()`: drop trailing whitespace. */
  function StripRight(s: string): (r: string)
    ensures |r| <= |s| && r == s[..|r|]
  {
    if s != [] && IsSpace(s[|s| - 1]) then StripRight(s[..|s| - 1]) else s
  }

  /** What `rstrip` removed is whitespace, and what it kept does not end with whitespace. */
  lemma {:induction false} StripRightSpec(s: string)
    ensures var r := StripRight(s);
      && (r == [] || !IsSpace(r[|r| - 1]))
      && forall i :: |r| <= i < |s| ==> IsSpace(s[i])
  {
    if s != [] && IsSpace(s[|s| - 1]) {
      StripRightSpec(s[..|s| - 1]);
      var r := StripRight(s[..|s| - 1]);
      forall i | |r| <= i < |s|
        ensures IsSpace(s[i])
      {
        if i < |s| - 1 {
          assert s[i] == s[..|s| - 1][i];
        }
      }
    }
  }

  /** `s.strip()`. */
  function Strip(s: string): string
  {
    StripRight(StripLeft(s))
  }

  /** Lower-case one character (ASCII letters; every other character is kept). */
  function LowerChar(c: char): (d: char)
    ensures 'A' <= c <= 'Z' ==> d as int == c as int + 32
    ensures !('A' <= c <= 'Z') ==> d == c
  {
    if 'A' <= c <= 'Z' then (c as int + 32) as char else c
  }

  /** `s.lower()`. */
  function Lower(s: string): (r: string)
    ensures |r| == |s|
  {
    if s == [] then [] else [LowerChar(s[0])] + Lower(s[1..])
  }

  /** `lower` maps each character on its own. */
  lemma {:induction false} LowerSpec(s: string)
    ensures forall i :: 0 <= i < |s| ==> Lower(s)[i] == LowerChar(s[i])
  {
    if s != [] {
      LowerSpec(s[1..]);
    }
  }

  /** A table cell as the stimulus loader hands it over. */
  datatype Cell =
    | IntCell(n: int)        // an integer column
    | FloatCell(x: real)     // a float column (finite value)
    | NanCell                // a missing value in a numeric column
    | BoolCell(b: bool)      // a column of True/False values
    | TextCell(s: string)    // a text column

  predicate IsDigit(c: char) { '0' <= c <= '9' }

  predicate AllDigits(s: string) { forall i :: 0 <= i < |s| ==> IsDigit(s[i]) }

  /** The value of a non-empty run of decimal digits. */
  function DigitsValue(s: string): (n: nat)
    requires AllDigits(s)
  {
    if s == [] then 0
    else
      assert IsDigit(s[|s| - 1]);
      DigitsValue(s[..|s| - 1]) * 10 + (s[|s| - 1] as int - '0' as int)
  }

  /** The decimal digits of `n`, most significant first, as Python's `str(n)` writes them. */
  function Decimal(n: nat): (s: string)
    ensures s != [] && AllDigits(s)
  {
    if n < 10 then [('0' as int + n) as char] else Decimal(n / 10) + [('0' as int + n % 10) as char]
  }

  lemma {:induction false} DigitsValueOfDecimal(n: nat)
    ensures DigitsValue(Decimal(n)) == n
  {
    if n >= 10 {
      var s := Decimal(n);
      assert s[..|s| - 1] == Decimal(n / 10);
      DigitsValueOfDecimal(n / 10);
    }
  }

  /**
   * Decimal digits in which single underscores may separate two digits, the
   * literal form `int()` accepts: a digit, then either the end, another such
   * literal, or '_' and another such literal.
   */
  predicate DigitGroups(s: string)
  {
    && s != [] && IsDigit(s[0])
    && (|s| == 1 || if s[1] == '_' then DigitGroups(s[2..]) else DigitGroups(s[1..]))
  }

  /** Every non-empty run of plain digits is such a literal. */
  lemma {:induction false} DigitsAreGroups(d: string)
    requires d != [] && AllDigits(d)
    ensures DigitGroups(d)
  {
    if |d| > 1 {
      assert IsDigit(d[1]);
      DigitsAreGroups(d[1..]);
    }
  }

  /** Joining a digit run to such a literal with one underscore gives such a literal. */
  lemma {:induction false} GroupsJoin(a: string, b: string)
    requires a != [] && AllDigits(a) && DigitGroups(b)
    ensures DigitGroups(a + "_" + b)
  {
    var s := a + "_" + b;
    assert s[0] == a[0];
    if |a| == 1 {
      assert s[1] == '_' && s[2..] == b;
    } else {
      assert s[1] == a[1] && IsDigit(a[1]);
      assert s[1..] == a[1..] + "_" + b;
      GroupsJoin(a[1..], b);
    }
  }

  /** A literal never ends with an underscore. */
  lemma {:induction false} GroupsEndInDigit(s: string)
    requires s != [] && s[|s| - 1] == '_'
    ensures !DigitGroups(s)
  {
    if |s| > 2 && s[1] == '_' {
      assert s[2..][|s| - 3] == '_';
      GroupsEndInDigit(s[2..]);
    } else if |s| > 1 && s[1] != '_' {
      assert s[1..][|s| - 2] == '_';
      GroupsEndInDigit(s[1..]);
    }
  }

  /** The value of the digits of `s`, the underscores (and any other non-digit) skipped. */
  function GroupedValue(s: string): (n: nat)
    ensures AllDigits(s) ==> n == DigitsValue(s)
  {
    if s == [] then 0
    else if !IsDigit(s[|s| - 1]) then GroupedValue(s[..|s| - 1])
    else GroupedValue(s[..|s| - 1]) * 10 + (s[|s| - 1] as int - '0' as int)
  }

  /** An underscore inside a literal does not change its value. */
  lemma {:induction false} GroupedValueSkips(a: string, b: string)
    ensures GroupedValue(a + "_" + b) == GroupedValue(a + b)
  {
    var s, t := a + "_" + b, a + b;
    if b == [] {
      assert s[..|s| - 1] == a && t == a;
    } else {
      var b' := b[..|b| - 1];
      assert s[..|s| - 1] == a + "_" + b' && s[|s| - 1] == b[|b| - 1];
      assert t[..|t| - 1] == a + b' && t[|t| - 1] == b[|b| - 1];
      GroupedValueSkips(a, b');
    }
  }

  /** The value of an unsigned literal, or None when `int()` rejects it. */
  function GroupsValue(s: string): (r: Option<nat>)
    ensures r.Some? <==> DigitGroups(s)
    ensures r.Some? && AllDigits(s) ==> r.value == DigitsValue(s)
  {
    if DigitGroups(s) then Some(GroupedValue(s)) else None
  }

  /**
   * `int(s)` for a string: optional surrounding whitespace, an optional sign,
   * then decimal digits, possibly grouped by single underscores.
   */
  function ParseInt(s: string): Option<int>
  {
    Signed(Strip(s))
  }

  /** The stripped text of `int(s)`: an optional sign, then the literal. */
  function Signed(t: string): Option<int>
  {
    if t == [] then None
    else if t[0] == '-' then Negated(GroupsValue(t[1..]))
    else if t[0] == '+' then Widened(GroupsValue(t[1..]))
    else Widened(GroupsValue(t))
  }

  /** An unsigned value as an int. */
  function Widened(v: Option<nat>): Option<int>
  {
    if v.None? then None else Some(v.value as int)
  }

  /** An unsigned value after a '-' sign. */
  function Negated(v: Option<nat>): Option<int>
  {
    if v.None? then None else Some(-(v.value as int))
  }

  /** `int(x)` for a float: truncation toward zero. */
  function Truncate(x: real): (n: int)
    ensures 0.0 <= x ==> n as real <= x < n as real + 1.0
    ensures x < 0.0 ==> n as real - 1.0 < x <= n as real
  {
    if x >= 0.0 then x.Floor else -((-x).Floor)
  }

  /** `int(cell)`, or None where Python raises (a missing column, NaN, a non-numeric string). */
  function IntOf(cell: Option<Cell>): Option<int>
  {
    match cell
    case None => None
    case Some(IntCell(n)) => Some(n)
    case Some(FloatCell(x)) => Some(Truncate(x))
    case Some(NanCell) => None
    case Some(BoolCell(b)) => Some(if b then 1 else 0)
    case Some(TextCell(s)) => ParseInt(s)
  }

  /** Python's `str(n)` for an integer. */
  function Show(n: int): string
  {
    if n < 0 then "-" + Decimal(-n) else Decimal(n)
  }

  /**
   * Python's `str(cell)`, or None for a finite float: its text always holds a '.',
   * an exponent or "inf", so it never spells a word or a bare integer.
   */
  function CellText(cell: Cell): (r: Option<string>)
    ensures r.None? <==> cell.FloatCell?
  {
    match cell
    case IntCell(n) => Some(Show(n))
    case FloatCell(_) => None
    case NanCell => Some("nan")
    case BoolCell(b) => Some(if b then "True" else "False")
    case TextCell(s) => Some(s)
  }

  lemma {:induction false} StripLeftSpaces(pre: string, rest: string)
    requires forall i :: 0 <= i < |pre| ==> IsSpace(pre[i])
    requires rest == [] || !IsSpace(rest[0])
    ensures StripLeft(pre + rest) == rest
  {
    if pre != [] {
      assert (pre + rest)[1..] == pre[1..] + rest;
      StripLeftSpaces(pre[1..], rest);
    }
  }

  lemma {:induction false} StripRightSpaces(rest: string, post: string)
    requires forall i :: 0 <= i < |post| ==> IsSpace(post[i])
    requires rest == [] || !IsSpace(rest[|rest| - 1])
    ensures StripRight(rest + post) == rest
  {
    if post != [] {
      assert (rest + post)[..|rest + post| - 1] == rest + post[..|post| - 1];
      StripRightSpaces(rest, post[..|post| - 1]);
    } else {
      assert rest + post == rest;
    }
  }

  /** Whitespace around a word that neither starts nor ends with whitespace is stripped off. */
  lemma StripPadded(pre: string, word: string, post: string)
    requires forall i :: 0 <= i < |pre| ==> IsSpace(pre[i])
    requires forall i :: 0 <= i < |post| ==> IsSpace(post[i])
    requires word != [] && !IsSpace(word[0]) && !IsSpace(word[|word| - 1])
    ensures Strip(pre + word + post) == word
  {
    assert pre + word + post == pre + (word + post);
    StripLeftSpaces(pre, word + post);
    StripRightSpaces(word, post);
  }

  lemma StripKeepsUnspaced(s: string)
    requires s != [] && !IsSpace(s[0]) && !IsSpace(s[|s| - 1])
    ensures Strip(s) == s
  {
  }

  /** Text without surrounding whitespace goes straight to the sign and the literal. */
  lemma ParseIntUnspaced(s: string)
    requires s != [] && !IsSpace(s[0]) && !IsSpace(s[|s| - 1])
    ensures ParseInt(s) == Signed(s)
  {
    StripKeepsUnspaced(s);
  }

  lemma ParseIntUnsigned(d: string)
    requires d != [] && AllDigits(d)
    ensures ParseInt(d) == Some(DigitsValue(d))
  {
    assert IsDigit(d[0]) && IsDigit(d[|d| - 1]);
    StripKeepsUnspaced(d);
    DigitsAreGroups(d);
  }

  /** An underscore between two digit runs is ignored: `int("1_000") == int("1000")`. */
  lemma UnderscoreIgnored(a: string, b: string)
    requires a != [] && AllDigits(a) && b != [] && AllDigits(b)
    ensures ParseInt(a + "_" + b) == ParseInt(a + b) == Some(DigitsValue(a + b))
  {
    var s := a + "_" + b;
    DigitsAreGroups(b);
    GroupsJoin(a, b);
    GroupedValueSkips(a, b);
    assert AllDigits(a + b);
    assert GroupsValue(s) == Some(DigitsValue(a + b));
    assert s[0] == a[0] && IsDigit(a[0]);
    assert Signed(s) == Some(DigitsValue(a + b));
    assert s[|s| - 1] == b[|b| - 1] && IsDigit(b[|b| - 1]);
    ParseIntUnspaced(s);
    ParseIntUnsigned(a + b);
  }

  /** An underscore that does not sit between two digits makes `int` fail. */
  lemma MisplacedUnderscoreRejected(d: string)
    requires d != [] && AllDigits(d)
    ensures ParseInt("_" + d) == None
    ensures ParseInt(d + "_") == None
    ensures ParseInt("1__" + d) == None
  {
    var lead := "_" + d;
    assert lead[|lead| - 1] == d[|d| - 1] && IsDigit(d[|d| - 1]);
    StripKeepsUnspaced(lead);
    assert !DigitGroups(lead);
    var trail := d + "_";
    assert trail[0] == d[0] && IsDigit(d[0]);
    StripKeepsUnspaced(trail);
    GroupsEndInDigit(trail);
    var double := "1__" + d;
    assert double[|double| - 1] == d[|d| - 1];
    StripKeepsUnspaced(double);
    assert double[1] == '_' && double[2..][0] == '_';
    assert !DigitGroups(double);
  }

  lemma ParseIntNegative(d: string)
    requires d != [] && AllDigits(d)
    ensures ParseInt("-" + d) == Some(-(DigitsValue(d) as int))
  {
    var t := "-" + d;
    SignedNegative(d);
    assert t[|t| - 1] == d[|d| - 1] && IsDigit(d[|d| - 1]);
    ParseIntUnspaced(t);
  }

  /** A '-' followed by a plain digit run reads as the negated value. */
  lemma SignedNegative(d: string)
    requires d != [] && AllDigits(d)
    ensures Signed("-" + d) == Some(-(DigitsValue(d) as int))
  {
    assert ("-" + d)[1..] == d;
    DigitsAreGroups(d);
  }

  lemma {:induction false} ParseIntOfShow(n: int)
    ensures ParseInt(Show(n)) == Some(n)
  {
    var d := Decimal(if n < 0 then -n else n);
    DigitsValueOfDecimal(if n < 0 then -n else n);
    if n < 0 {
      ParseIntNegative(d);
      assert ParseInt(Show(n)) == ParseInt("-" + d);
    } else {
      ParseIntUnsigned(d);
      assert ParseInt(Show(n)) == ParseInt(d);
    }
  }

  /** Distinct integers print differently. */
  lemma ShowInjective(a: int, b: int)
    ensures Show(a) == Show(b) <==> a == b
  {
    ParseIntOfShow(a);
    ParseIntOfShow(b);
  }

  /** `str(n)` is a run of digits, with a leading '-' for a negative n. */
  lemma ShowIsPlain(n: int)
    ensures Show(n) != [] && (IsDigit(Show(n)[0]) || Show(n)[0] == '-') && IsDigit(Show(n)[|Show(n)| - 1])
    ensures forall i :: 0 <= i < |Show(n)| ==> IsDigit(Show(n)[i]) || Show(n)[i] == '-'
  {
  }

  /** A text cell holding `str(n)` converts back to `n`, exactly like an integer cell. */
  lemma IntOfShownInt(n: int)
    ensures IntOf(Some(TextCell(Show(n)))) == IntOf(Some(IntCell(n))) == Some(n)
  {
    ParseIntOfShow(n);
  }
}
