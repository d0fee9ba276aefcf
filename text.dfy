/**
 * The string helpers the bot leans on from Python: `str.strip()`,
 * `str.startswith`, `int(...)` on decimal text, `str(n)` of an integer and
 * the second field of `str.split('_')`.
 */
module Text {
  import opened Wrappers

  /** The characters Python's `str.isspace()` accepts, which `strip()` skips. */
  predicate IsSpace(c: char) {
    || c == ' '
    || ('\t' <= c <= '\r')
    || ('\U{1C}' <= c <= '\U{1F}')
    || c == '\U{85}' || c == '\U{A0}' || c == '\U{1680}'
    || ('\U{2000}' <= c <= '\U{200A}')
    || c == '\U{2028}' || c == '\U{2029}' || c == '\U{202F}' || c == '\U{205F}' || c == '\U{3000}'
  }

  /**
   * The white space `int()` skips around a number: CPython's `int()` skips
   * non-ASCII white space and ASCII space and `\t`..`\r`, but not the four
   * separator controls U+001C..U+001F that `str.isspace()` also accepts.
   */
  predicate IsIntSpace(c: char) {
    IsSpace(c) && !('\U{1C}' <= c <= '\U{1F}')
  }

  /** Which white space is skipped: `strip()`'s or `int()`'s. */
  datatype Blanks = StrBlanks | IntBlanks

  predicate IsBlank(c: char, ws: Blanks) {
    if ws == StrBlanks then IsSpace(c) else IsIntSpace(c)
  }

  /** Drops the leading characters of class `ws`. */
  function TrimLeft(s: string, ws: Blanks): string {
    if |s| > 0 && IsBlank(s[0], ws) then TrimLeft(s[1..], ws) else s
  }

  /** Drops the trailing characters of class `ws`. */
  function TrimRight(s: string, ws: Blanks): string {
    if |s| > 0 && IsBlank(s[|s| - 1], ws) then TrimRight(s[..|s| - 1], ws) else s
  }

  /** Drops the characters of class `ws` at both ends. */
  function StripWith(s: string, ws: Blanks): string {
    TrimRight(TrimLeft(s, ws), ws)
  }

  /** Python's `s.strip()`. */
  function Strip(s: string): string {
    StripWith(s, StrBlanks)
  }

  /** `TrimLeft` keeps the suffix that starts at the first character outside `ws`. */
  lemma {:induction false} TrimLeftSpec(s: string, ws: Blanks)
    ensures var r := TrimLeft(s, ws);
      && |r| <= |s| && r == s[|s| - |r|..]
      && (forall i :: 0 <= i < |s| - |r| ==> IsBlank(s[i], ws))
      && (r == [] || !IsBlank(r[0], ws))
  {
    if |s| > 0 && IsBlank(s[0], ws) {
      TrimLeftSpec(s[1..], ws);
    }
  }

  /** `TrimRight` keeps the prefix that ends at the last character outside `ws`. */
  lemma {:induction false} TrimRightSpec(s: string, ws: Blanks)
    ensures var r := TrimRight(s, ws);
      && |r| <= |s| && r == s[..|r|]
      && (forall i :: |r| <= i < |s| ==> IsBlank(s[i], ws))
      && (r == [] || !IsBlank(r[|r| - 1], ws))
  {
    if |s| > 0 && IsBlank(s[|s| - 1], ws) {
      TrimRightSpec(s[..|s| - 1], ws);
    }
  }

  /**
   * Stripping class `ws` removes exactly the characters of that class at both
   * ends: the result is the slice of `s` from `k` that neither starts nor ends
   * with one of them, and all that was cut off belongs to `ws`.
   */
  lemma StripWithSpec(s: string, ws: Blanks)
    ensures var r, k := StripWith(s, ws), |s| - |TrimLeft(s, ws)|;
      && 0 <= k <= |s| - |r|
      && r == s[k..k + |r|]
      && (forall i :: 0 <= i < k || k + |r| <= i < |s| ==> IsBlank(s[i], ws))
      && (r == [] || (!IsBlank(r[0], ws) && !IsBlank(r[|r| - 1], ws)))
  {
    var l := TrimLeft(s, ws);
    TrimLeftSpec(s, ws);
    TrimRightSpec(l, ws);
    var r := TrimRight(l, ws);
    var k := |s| - |l|;
    assert r == s[k..k + |r|];
    forall i | k + |r| <= i < |s| ensures IsBlank(s[i], ws) {
      assert s[i] == l[i - k];
    }
  }

  /**
   * `strip()` removes exactly the white space at both ends: the result is a
   * slice of `s` that neither starts nor ends with white space, and all that
   * was cut off is white space.
   */
  lemma StripSpec(s: string)
    ensures var r, k := Strip(s), |s| - |TrimLeft(s, StrBlanks)|;
      && 0 <= k <= |s| - |r|
      && r == s[k..k + |r|]
      && (forall i :: 0 <= i < k || k + |r| <= i < |s| ==> IsSpace(s[i]))
      && (r == [] || (!IsSpace(r[0]) && !IsSpace(r[|r| - 1])))
  {
    StripWithSpec(s, StrBlanks);
  }

  /** Text that neither starts nor ends with a character of `ws` is unchanged by stripping `ws`. */
  lemma StripUnpadded(s: string, ws: Blanks)
    requires s == [] || (!IsBlank(s[0], ws) && !IsBlank(s[|s| - 1], ws))
    ensures StripWith(s, ws) == s
  {
  }

  /** Python's `s.startswith(p)`. */
  predicate StartsWith(s: string, p: string) {
    |p| <= |s| && s[..|p|] == p
  }

  predicate IsDigit(c: char) {
    '0' <= c <= '9'
  }

  predicate AllDigits(s: string) {
    forall i :: 0 <= i < |s| ==> IsDigit(s[i])
  }

  function DigitValue(c: char): (d: nat)
    requires IsDigit(c)
    ensures d < 10
  {
    (c as int) - ('0' as int)
  }

  function DigitChar(d: nat): (c: char)
    requires d < 10
    ensures IsDigit(c) && DigitValue(c) == d
  {
    ((('0' as int) + d) as char)
  }

  /** The value of a string of decimal digits, most significant first. */
  function DigitsValue(s: string): nat
    requires AllDigits(s)
  {
    if s == [] then 0 else DigitsValue(s[..|s| - 1]) * 10 + DigitValue(s[|s| - 1])
  }

  /** Python's `str(n)` for a natural number: no sign, no leading zeros. */
  function ShowNat(n: nat): (s: string)
    ensures |s| >= 1 && AllDigits(s)
  {
    if n < 10 then [DigitChar(n)] else ShowNat(n / 10) + [DigitChar(n % 10)]
  }

  /** Python's `str(n)` (and an f-string `{n}`) for an integer. */
  function ShowInt(n: int): (s: string)
    ensures |s| >= 1 && (forall i :: 1 <= i < |s| ==> IsDigit(s[i]))
    ensures IsDigit(s[0]) || s[0] == '-'
  {
    if n < 0 then "-" + ShowNat(-n) else ShowNat(n)
  }

  /**
   * Python's `int(s)` restricted to plain decimal text: the white space
   * `int()` accepts around the number (`IsIntSpace`) is skipped, then one
   * optional sign, then one or more ASCII digits;
   * anything else is the ValueError case, `None`.
   */
  function ParseInt(s: string): Option<int>
  {
    var t := StripWith(s, IntBlanks);
    var signed := |t| > 0 && (t[0] == '-' || t[0] == '+');
    var body := if signed then t[1..] else t;
    if |body| > 0 && AllDigits(body) then
      var v: int := DigitsValue(body);
      Some(if signed && t[0] == '-' then -v else v)
    else
      None
  }

  lemma {:induction false} DigitsValueOfShowNat(n: nat)
    ensures DigitsValue(ShowNat(n)) == n
  {
    if n >= 10 {
      var s := ShowNat(n);
      assert s[..|s| - 1] == ShowNat(n / 10);
      DigitsValueOfShowNat(n / 10);
    }
  }

  /** No printable ASCII character is white space, for `strip()` or for `int()`. */
  lemma VisibleIsNotSpace(c: char)
    requires '!' <= c <= '~'
    ensures !IsSpace(c) && !IsIntSpace(c)
  {
  }

  lemma DigitIsNotSpace(c: char)
    requires IsDigit(c) || c == '-'
    ensures !IsIntSpace(c)
  {
    VisibleIsNotSpace(c);
  }

  /**
   * Text whose first and last characters are printable ASCII is its own
   * `strip()`, and `int()` skips nothing of it either.
   */
  lemma StripOfVisibleEnds(s: string)
    requires |s| > 0 && '!' <= s[0] <= '~' && '!' <= s[|s| - 1] <= '~'
    ensures Strip(s) == s && StripWith(s, IntBlanks) == s
  {
    VisibleIsNotSpace(s[0]);
    VisibleIsNotSpace(s[|s| - 1]);
    StripUnpadded(s, StrBlanks);
    StripUnpadded(s, IntBlanks);
  }

  /** `int(str(n)) == n`: the printed form of every integer parses back to it. */
  lemma ParseShowInt(n: int)
    ensures ParseInt(ShowInt(n)) == Some(n)
  {
    if n < 0 {
      ParseNegative(-n);
    } else {
      ParseNonNegative(n);
    }
  }

  /** `int(str(m)) == m` for a natural number. */
  lemma ParseNonNegative(m: nat)
    ensures ParseInt(ShowNat(m)) == Some(m)
  {
    var s := ShowNat(m);
    DigitIsNotSpace(s[0]);
    DigitIsNotSpace(s[|s| - 1]);
    StripUnpadded(s, IntBlanks);
    assert !(s[0] == '-' || s[0] == '+');
    DigitsValueOfShowNat(m);
  }

  /** `int("-" + str(m)) == -m`. */
  lemma ParseNegative(m: nat)
    ensures ParseInt("-" + ShowNat(m)) == Some(-(m as int))
  {
    var s := "-" + ShowNat(m);
    DigitIsNotSpace(s[0]);
    DigitIsNotSpace(s[|s| - 1]);
    StripUnpadded(s, IntBlanks);
    assert s[1..] == ShowNat(m);
    DigitsValueOfShowNat(m);
  }

  /** Printing is injective: two integers with the same decimal text are equal. */
  lemma ShowIntInjective(m: int, n: int)
    requires ShowInt(m) == ShowInt(n)
    ensures m == n
  {
    ParseShowInt(m);
    ParseShowInt(n);
  }

  /** Text without a single decimal digit never parses as an integer. */
  lemma ParseIntNeedsDigit(s: string)
    requires forall c :: c in s ==> !IsDigit(c)
    ensures ParseInt(s).None?
  {
    StripWithSpec(s, IntBlanks);
    var t := StripWith(s, IntBlanks);
    var k := |s| - |TrimLeft(s, IntBlanks)|;
    if |t| > 0 {
      assert t[0] == s[k] && s[k] in s;
    }
    if |t| > 1 {
      assert t[1] == s[k + 1] && s[k + 1] in s;
    }
  }

  /**
   * `int()` does not skip the controls U+001C..U+001F that `strip()` removes:
   * `"\x1c15".strip()` is `"15"`, but `int("\x1c15")` raises ValueError.
   * Non-ASCII white space such as U+00A0 is skipped by both.
   */
  lemma IntSkipsLessThanStrip()
    ensures Strip("\U{1C}15") == "15" && ParseInt("\U{1C}15").None?
    ensures ParseInt("\U{A0}15") == Some(15)
  {
    var s, u := "\U{1C}15", "\U{A0}15";
    assert TrimLeft(s, StrBlanks) == "15" by { assert s[1..] == "15"; }
    StripOfVisibleEnds("15");
    assert StripWith(s, IntBlanks) == s by { StripUnpadded(s, IntBlanks); }
    assert TrimLeft(u, IntBlanks) == "15" by { assert u[1..] == "15"; }
    assert "15"[..1] == "1";
    assert DigitsValue("1") == 1 by { assert "1"[..0] == ""; }
  }

  /** The text before the first `sep` (all of `s` when there is none). */
  function UpTo(s: string, sep: char): (r: string)
    ensures |r| <= |s| && r == s[..|r|]
    ensures sep !in r
    ensures |r| == |s| || s[|r|] == sep
  {
    if s == [] || s[0] == sep then []
    else
      var tail := UpTo(s[1..], sep);
      assert s[..|tail| + 1] == [s[0]] + s[1..][..|tail|];
      [s[0]] + tail
  }

  /** The text after the first `sep`, or `None` when `s` has none. */
  function AfterFirst(s: string, sep: char): (r: Option<string>)
    ensures r.None? <==> sep !in s
    ensures r.Some? ==> s == UpTo(s, sep) + [sep] + r.value
  {
    if s == [] then None
    else if s[0] == sep then Some(s[1..])
    else match AfterFirst(s[1..], sep)
      case None => None
      case Some(rest) => Some(rest)
  }

  /** `s` is `a`, then `sep`, then `f`, then `b`, with `f` ended by `b`'s first `sep` (or by the end) and no `sep` in `a`. */
  ghost predicate FieldBetween(s: string, sep: char, a: string, f: string, b: string) {
    s == a + [sep] + f + b && sep !in a && (b == [] || b[0] == sep)
  }

  /**
   * `s.split(sep)[1]`: the field between the first and the second `sep`, or
   * `None` where Python raises IndexError because `s` holds no `sep`.
   */
  function SecondField(s: string, sep: char): (r: Option<string>)
    ensures r.None? <==> sep !in s
    ensures r.Some? ==> sep !in r.value
    ensures r.Some? ==> exists a, b :: FieldBetween(s, sep, a, r.value, b)
  {
    match AfterFirst(s, sep)
    case None => None
    case Some(rest) =>
      SecondFieldBetween(s, sep, rest);
      Some(UpTo(rest, sep))
  }

  /** The text after the first `sep`, cut at its own first `sep`, is the field between them. */
  lemma SecondFieldBetween(s: string, sep: char, rest: string)
    requires AfterFirst(s, sep) == Some(rest)
    ensures FieldBetween(s, sep, UpTo(s, sep), UpTo(rest, sep), rest[|UpTo(rest, sep)|..])
  {
    var f := UpTo(rest, sep);
    assert rest == f + rest[|f|..];
  }

  /** The second field of `tag + sep + field` is `field` when neither holds `sep`. */
  lemma SecondFieldOfJoin(tag: string, sep: char, field: string)
    requires sep !in tag && sep !in field
    ensures SecondField(tag + [sep] + field, sep) == Some(field)
  {
    var s := tag + [sep] + field;
    assert s[|tag|] == sep;
    assert sep in s;
    var rest := AfterFirst(s, sep).value;
    assert UpTo(s, sep) == tag by {
      assert forall i :: 0 <= i < |tag| ==> s[i] == tag[i] && s[i] != sep;
      assert s[..|tag|] == tag;
    }
    assert s == tag + [sep] + rest;
    assert rest == s[|tag| + 1..] == field;
    assert UpTo(field, sep) == field by {
      assert forall i :: 0 <= i < |field| ==> field[i] != sep;
    }
  }
}
