/** Python's `int(text)` with the default base 10, which the configuration
    getters apply to the text of an environment variable. The grammar accepted is:
    optional surrounding whitespace (ASCII space and `\t`..`\r`, plus the non-ASCII
    characters `str.isspace` accepts), an optional `+` or `-`, then ASCII digits in
    groups separated by single underscores. Leading zeros are allowed. A literal
    of more than 4300 digits is refused as well; as in CPython 3.12 and later, that
    count is made only once the whole text has passed the grammar. Every refusal is
    a `ValueError` in Python and an `Err` here. `Show` is the inverse direction,
    Python's `str` of an int. */
module IntLiteral {
  import opened Wrappers

  /** The default of `sys.get_int_max_str_digits()`: the most digits `int()` reads. */
  const MaxStrDigits: nat := 4300

  /** Why `int()` refuses a text: it is no int literal, or it has too many digits. */
  datatype IntError = InvalidLiteral | ExceedsDigitLimit(digits: nat)

  /** The whitespace `int()` ignores at either end. An ASCII text is scanned with C's
      `isspace`: space and `\t`..`\r`, but not U+001C..U+001F, which `str.isspace`
      accepts. A non-ASCII text first has its `str.isspace` characters at or above
      U+0080 replaced by a space. */
  predicate IsSpace(c: char) {
    || c == ' '
    || ('\t' <= c <= '\r')
    || c == '\U{0085}' || c == '\U{00A0}' || c == '\U{1680}'
    || ('\U{2000}' <= c <= '\U{200A}')
    || c == '\U{2028}' || c == '\U{2029}' || c == '\U{202F}' || c == '\U{205F}'
    || c == '\U{3000}'
  }

  predicate AllSpace(s: string) {
    forall i :: 0 <= i < |s| ==> IsSpace(s[i])
  }

  predicate IsDigit(c: char) {
    '0' <= c <= '9'
  }

  function DigitValue(c: char): (d: nat)
    requires IsDigit(c)
    ensures d < 10
  {
    (c as int) - ('0' as int)
  }

  function DigitChar(d: nat): (c: char)
    requires d < 10
    ensures IsDigit(c) && DigitValue(c) == d
  {
    ('0' as int + d) as char
  }

  /** Drops the leading whitespace: what is left is a suffix of `s` that is empty
      or starts with a non-space, and everything dropped was whitespace. */
  function TrimLeft(s: string): (t: string)
    ensures |t| <= |s| && t == s[|s| - |t|..]
    ensures AllSpace(s[..|s| - |t|])
    ensures |t| > 0 ==> !IsSpace(t[0])
  {
    if |s| > 0 && IsSpace(s[0]) then TrimLeft(s[1..]) else s
  }

  /** Drops the trailing whitespace: what is left is a prefix of `s` that is empty
      or ends with a non-space, and everything dropped was whitespace. */
  function TrimRight(s: string): (t: string)
    ensures |t| <= |s| && t == s[..|t|]
    ensures AllSpace(s[|t|..])
    ensures |t| > 0 ==> !IsSpace(t[|t| - 1])
  {
    if |s| > 0 && IsSpace(s[|s| - 1]) then TrimRight(s[..|s| - 1]) else s
  }

  function Strip(s: string): string {
    TrimLeft(TrimRight(s))
  }

  predicate IsRunChar(c: char) {
    IsDigit(c) || c == '_'
  }

  /** One or more ASCII digits, where a single underscore may stand between two digits:
      digits and underscores only, a digit at either end, and no two underscores in a row. */
  predicate IsDigitGroup(d: string) {
    && |d| > 0
    && IsDigit(d[0]) && IsDigit(d[|d| - 1])
    && (forall i :: 0 <= i < |d| ==> IsRunChar(d[i]))
    && (forall i, j :: 0 <= i < |d| && 0 <= j < |d| && j == i + 1 ==> IsDigit(d[i]) || IsDigit(d[j]))
  }

  /** The longest prefix of `s` made of digits and underscores: how far CPython's
      scan of a literal reads before it judges the underscores and counts the digits. */
  function DigitRun(s: string): (run: string)
    ensures |run| <= |s| && run == s[..|run|]
    ensures forall i :: 0 <= i < |run| ==> IsRunChar(run[i])
    ensures |run| < |s| ==> !IsRunChar(s[|run|])
  {
    if |s| > 0 && IsRunChar(s[0]) then [s[0]] + DigitRun(s[1..]) else []
  }

  /** The number of digits in `d`, underscores not counted; all of `d` when it is all digits. */
  function DigitCount(d: string): (k: nat)
    ensures k <= |d|
    ensures (forall i :: 0 <= i < |d| ==> IsDigit(d[i])) ==> k == |d|
  {
    if |d| == 0 then 0
    else DigitCount(d[..|d| - 1]) + (if IsDigit(d[|d| - 1]) then 1 else 0)
  }

  /** The decimal value of the digits of `d`, read left to right; underscores are skipped. */
  function DigitsValue(d: string): nat {
    if |d| == 0 then 0
    else if IsDigit(d[|d| - 1]) then 10 * DigitsValue(d[..|d| - 1]) + DigitValue(d[|d| - 1])
    else DigitsValue(d[..|d| - 1])
  }

  /** A base-10 literal with no padding: an optional sign, then a digit group. */
  predicate IsIntLiteral(t: string) {
    || IsDigitGroup(t)
    || (|t| > 0 && (t[0] == '+' || t[0] == '-') && IsDigitGroup(t[1..]))
  }

  /** The value a literal denotes: its digits, negated after a minus sign. */
  function LiteralValue(t: string): int
    requires |t| > 0
  {
    if t[0] == '-' then -(DigitsValue(t) as int) else DigitsValue(t)
  }

  /** `int(text)`: `Ok(n)` where Python returns `n`, `Err` where it raises `ValueError`.
      Once the surrounding whitespace is stripped, the text must be a literal of at
      most `MaxStrDigits` digits; a literal with more is refused with its count. */
  function Parse(text: string): (r: Result<int, IntError>)
    ensures r.Ok? <==> IsIntLiteral(Strip(text)) && DigitCount(Strip(text)) <= MaxStrDigits
    ensures r.Ok? ==> r.value == LiteralValue(Strip(text))
    ensures r == Err(InvalidLiteral) <==> !IsIntLiteral(Strip(text))
    ensures r.Err? && r.error.ExceedsDigitLimit? ==> r.error.digits == DigitCount(Strip(text))
  {
    ParseStripped(Strip(text))
  }

  /** The literal once the surrounding whitespace is gone: an optional sign, then the
      digits. The contract is the grammar over the whole text, sign included. */
  function ParseStripped(t: string): (r: Result<int, IntError>)
    ensures r.Ok? <==> IsIntLiteral(t) && DigitCount(t) <= MaxStrDigits
    ensures r.Ok? ==> r.value == LiteralValue(t)
    ensures r == Err(InvalidLiteral) <==> !IsIntLiteral(t)
    ensures r.Err? && r.error.ExceedsDigitLimit? ==> r.error.digits == DigitCount(t)
  {
    if |t| > 0 && (t[0] == '+' || t[0] == '-') then
      SkipLeadingNonDigit(t);
      ParseBody(t[0] == '-', t[1..])
    else ParseBody(false, t)
  }

  /** A sign is no digit: it adds nothing to the digit count or to the value. */
  lemma {:induction false} SkipLeadingNonDigit(t: string)
    requires |t| > 0 && !IsDigit(t[0])
    ensures DigitCount(t) == DigitCount(t[1..])
    ensures DigitsValue(t) == DigitsValue(t[1..])
    decreases |t|
  {
    if |t| == 1 {
      assert t[1..] == [] && t[..0] == [];
    } else {
      var p := t[..|t| - 1];
      assert p[0] == t[0] && p[1..] == t[1..][..|t| - 2];
      assert t[|t| - 1] == t[1..][|t| - 2];
      SkipLeadingNonDigit(p);
    }
  }

  /** What follows the sign, checked the way CPython 3.12 and later check it. The run
      of digits and underscores must keep its underscores between digits and hold a
      digit, and nothing but the run may follow the sign. Only a text that passes
      all of this has its digits counted against `MaxStrDigits`. The contract is
      the grammar that this scan decides. */
  function ParseBody(negative: bool, body: string): (r: Result<int, IntError>)
    ensures r.Ok? <==> IsDigitGroup(body) && DigitCount(body) <= MaxStrDigits
    ensures r.Ok? ==> r.value == if negative then -(DigitsValue(body) as int) else DigitsValue(body)
    ensures r == Err(InvalidLiteral) <==> !IsDigitGroup(body)
    ensures r.Err? && r.error.ExceedsDigitLimit? ==> r.error.digits == DigitCount(body)
  {
    DigitRunWhole(body);
    var run := DigitRun(body);
    var v: int := DigitsValue(run);
    if !IsDigitGroup(run) then Err(InvalidLiteral)
    else if |run| < |body| then Err(InvalidLiteral)
    else if DigitCount(run) > MaxStrDigits then Err(ExceedsDigitLimit(DigitCount(run)))
    else Ok(if negative then -v else v)
  }

  /** The run is the whole text when it is as long, and a digit group is all run. */
  lemma DigitRunWhole(s: string)
    ensures |DigitRun(s)| == |s| ==> DigitRun(s) == s
    ensures IsDigitGroup(s) ==> DigitRun(s) == s
  {
    assert s[..|s|] == s;
  }

  /** Decimal digits of `n`, most significant first, no leading zeros. */
  function NatToString(n: nat): (s: string)
    ensures |s| > 0
    ensures forall i :: 0 <= i < |s| ==> IsDigit(s[i])
    ensures |s| > 1 ==> s[0] != '0'
  {
    if n < 10 then [DigitChar(n)] else NatToString(n / 10) + [DigitChar(n % 10)]
  }

  /** Python's `str(n)` for an int: a minus sign for negatives, then the digits.
      Python refuses to write more than `MaxStrDigits` digits; this is the text it
      would have written. */
  function Show(n: int): (s: string)
    ensures |s| > 0
    ensures s[0] == '-' <==> n < 0
  {
    if n < 0 then "-" + NatToString(-n) else NatToString(n)
  }

  /** How many decimal digits `n` has, its sign not counted. */
  function DecimalDigits(n: int): nat {
    |NatToString(if n < 0 then -n else n)|
  }

  lemma {:induction false} DigitsValueOfNatToString(n: nat)
    ensures IsDigitGroup(NatToString(n))
    ensures DigitsValue(NatToString(n)) == n
  {
    var s := NatToString(n);
    if n >= 10 {
      DigitsValueOfNatToString(n / 10);
      assert s[..|s| - 1] == NatToString(n / 10);
    }
  }

  /** A string that begins and ends with a non-space is its own stripped form. */
  lemma StripNoPadding(s: string)
    requires |s| > 0 && !IsSpace(s[0]) && !IsSpace(s[|s| - 1])
    ensures Strip(s) == s
  {
  }

  /** `str(n)` has no surrounding whitespace. */
  lemma StripShow(n: int)
    ensures Strip(Show(n)) == Show(n)
  {
    var d := NatToString(if n < 0 then -n else n);
    var s := Show(n);
    assert s[|s| - 1] == d[|d| - 1];
    StripNoPadding(s);
  }

  /** The digits of `m` read back as `m`, or as `-m` after a minus sign, unless there
      are too many of them. */
  lemma ParseBodyNatToString(negative: bool, m: nat)
    ensures var d := NatToString(m);
      ParseBody(negative, d) ==
        if |d| <= MaxStrDigits then Ok(if negative then -(m as int) else m)
        else Err(ExceedsDigitLimit(|d|))
  {
    DigitsValueOfNatToString(m);
  }

  /** A minus sign before the digits of `m` negates the value read. */
  lemma ParseStrippedNegative(m: nat)
    requires m > 0
    ensures var d := NatToString(m);
      ParseStripped("-" + d) ==
        if |d| <= MaxStrDigits then Ok(-(m as int)) else Err(ExceedsDigitLimit(|d|))
  {
    var t := "-" + NatToString(m);
    assert t[0] == '-' && t[1..] == NatToString(m);
    ParseBodyNatToString(true, m);
  }

  /** Unsigned digits read as their value. */
  lemma ParseStrippedNatToString(m: nat)
    ensures var d := NatToString(m);
      ParseStripped(d) == if |d| <= MaxStrDigits then Ok(m as int) else Err(ExceedsDigitLimit(|d|))
  {
    assert IsDigit(NatToString(m)[0]);
    ParseBodyNatToString(false, m);
  }

  lemma ParseStrippedShow(n: int)
    ensures ParseStripped(Show(n)) ==
      if DecimalDigits(n) <= MaxStrDigits then Ok(n) else Err(ExceedsDigitLimit(DecimalDigits(n)))
  {
    var m: nat := if n < 0 then -n else n;
    assert DecimalDigits(n) == |NatToString(m)|;
    if n < 0 {
      assert Show(n) == "-" + NatToString(m);
      ParseStrippedNegative(m);
    } else {
      assert Show(n) == NatToString(m);
      ParseStrippedNatToString(m);
    }
  }

  /** `int(str(n)) == n` for every int of at most `MaxStrDigits` digits; the text of a
      longer one is refused with its digit count. */
  lemma {:induction false} ParseShow(n: int)
    ensures Parse(Show(n)) ==
      if DecimalDigits(n) <= MaxStrDigits then Ok(n) else Err(ExceedsDigitLimit(DecimalDigits(n)))
  {
    StripShow(n);
    ParseStrippedShow(n);
  }

  /** The text after the digits is checked before the digits are counted: a digit
      group followed by text that starts outside the run and is not all whitespace
      is an invalid literal, however many digits the group has. */
  lemma ParseTrailingTextFirst(d: string, rest: string)
    requires IsDigitGroup(d)
    requires |rest| > 0 && !IsRunChar(rest[0]) && !AllSpace(rest)
    ensures Parse(d + rest) == Err(InvalidLiteral)
  {
    var tr := TrimRight(rest);
    TrimRightNonEmpty(rest);
    StripKeepsTail(d, rest);
    GroupThenOtherIsNoLiteral(d, tr);
  }

  /** Stripping a text that starts with a non-space and does not end in whitespace
      only trims the end of its tail. */
  lemma StripKeepsTail(d: string, rest: string)
    requires |d| > 0 && !IsSpace(d[0]) && !AllSpace(rest)
    ensures Strip(d + rest) == d + TrimRight(rest)
  {
    var tr := TrimRight(rest);
    TrimRightNonEmpty(rest);
    var ws := rest[|tr|..];
    assert rest == tr + ws;
    var t := d + tr;
    assert d + rest == t + ws;
    TrimRightSkipsSpaces(t, ws);
    assert t[|t| - 1] == tr[|tr| - 1];
    StripNoPadding(t);
  }

  /** Text that is not all whitespace keeps a character once its end is trimmed. */
  lemma TrimRightNonEmpty(s: string)
    requires !AllSpace(s)
    ensures |TrimRight(s)| > 0
  {
    assert s[0..] == s;
  }

  /** A digit group followed by a character outside the run is no literal. */
  lemma GroupThenOtherIsNoLiteral(d: string, tail: string)
    requires IsDigitGroup(d)
    requires |tail| > 0 && !IsRunChar(tail[0])
    ensures !IsIntLiteral(d + tail)
  {
    var t := d + tail;
    assert t[0] == d[0] && t[|d|] == tail[0];
  }

  lemma {:induction false} TrimLeftSkipsSpaces(ws: string, s: string)
    requires AllSpace(ws)
    ensures TrimLeft(ws + s) == TrimLeft(s)
    decreases |ws|
  {
    if |ws| > 0 {
      assert (ws + s)[1..] == ws[1..] + s;
      TrimLeftSkipsSpaces(ws[1..], s);
    } else {
      assert ws + s == s;
    }
  }

  lemma {:induction false} TrimRightSkipsSpaces(s: string, ws: string)
    requires AllSpace(ws)
    ensures TrimRight(s + ws) == TrimRight(s)
    decreases |ws|
  {
    if |ws| > 0 {
      assert (s + ws)[..|s + ws| - 1] == s + ws[..|ws| - 1];
      TrimRightSkipsSpaces(s, ws[..|ws| - 1]);
    } else {
      assert s + ws == s;
    }
  }

  /** Stripping removes exactly the whitespace around a text that begins and ends with a non-space. */
  lemma StripPadded(ws1: string, s: string, ws2: string)
    requires AllSpace(ws1) && AllSpace(ws2)
    requires |s| > 0 && !IsSpace(s[0]) && !IsSpace(s[|s| - 1])
    ensures Strip(ws1 + s + ws2) == s
  {
    var inner := ws1 + s;
    TrimRightSkipsSpaces(inner, ws2);
    assert inner[|inner| - 1] == s[|s| - 1];
    TrimLeftSkipsSpaces(ws1, s);
  }

  /** Surrounding whitespace does not change what `int()` makes of a text. */
  lemma ParseIgnoresPadding(ws1: string, s: string, ws2: string)
    requires AllSpace(ws1) && AllSpace(ws2)
    requires |s| > 0 && !IsSpace(s[0]) && !IsSpace(s[|s| - 1])
    ensures Parse(ws1 + s + ws2) == Parse(s)
  {
    StripPadded(ws1, s, ws2);
    StripNoPadding(s);
    assert Strip(ws1 + s + ws2) == Strip(s);
  }

  /** Text that is empty or only whitespace is not an int literal. */
  lemma ParseBlank(s: string)
    requires AllSpace(s)
    ensures Parse(s) == Err(InvalidLiteral)
  {
    assert Strip(s) == [];
  }
}
