/**
 * The input checks of the registration form and the parse of inline-button
 * payloads (adminBot/main.py, `process_twitter_id`, `process_telegram_id`,
 * `process_age`, `handle_level`, `process_upgrade`).
 */
module Validate {
  import opened Wrappers
  import opened Text

  /** The class `[A-Za-z0-9_]` of both handle patterns. */
  predicate IsWordChar(c: char) {
    ('A' <= c <= 'Z') || ('a' <= c <= 'z') || ('0' <= c <= '9') || c == '_'
  }

  predicate AllWordChars(s: string) {
    forall i :: 0 <= i < |s| ==> IsWordChar(s[i])
  }

  const TwitterPrefix: string := "https://x.com/"

  /** Position of the unescaped `.` in the pattern's `x.com`: it matches any character but a newline. */
  const WildcardAt := 9

  /** A full match of `^https://x.com/[A-Za-z0-9_]{1,15}$` (Python `re`, no flags). */
  predicate MatchesTwitterPattern(t: string) {
    && |TwitterPrefix| + 1 <= |t| <= |TwitterPrefix| + 15
    && (forall i :: 0 <= i < |TwitterPrefix| && i != WildcardAt ==> t[i] == TwitterPrefix[i])
    && t[WildcardAt] != '\n'
    && AllWordChars(t[|TwitterPrefix|..])
  }

  /** `process_twitter_id` accepts the message text. */
  predicate TwitterAccepted(text: string) {
    var t := Strip(text);
    !StartsWith(t, "@") && MatchesTwitterPattern(t)
  }

  /** A full match of `^@[A-Za-z0-9_]{5,32}$`. */
  predicate MatchesTelegramPattern(t: string) {
    6 <= |t| <= 33 && t[0] == '@' && AllWordChars(t[1..])
  }

  /** `process_telegram_id` accepts the message text. */
  predicate TelegramAccepted(text: string) {
    var t := Strip(text);
    StartsWith(t, "@") && MatchesTelegramPattern(t)
  }

  /** The age `process_age` stores, or `None` when it re-prompts (not an integer, or outside 11..99). */
  function AgeOf(text: string): (r: Option<int>)
    ensures r.Some? ==> 10 < r.value < 100 && ParseInt(text) == r
    ensures r.None? ==> ParseInt(text).None? || !(10 < ParseInt(text).value < 100)
  {
    match ParseInt(text)
    case None => None
    case Some(a) => if 10 < a < 100 then Some(a) else None
  }

  /** The payload of a button: `f"{tag}_{n}"`. */
  function CallbackData(tag: string, n: int): string {
    tag + "_" + ShowInt(n)
  }

  /** `int(data.split('_')[1])`, `None` where Python raises IndexError or ValueError. */
  function CallbackLevel(data: string): Option<int> {
    match SecondField(data, '_')
    case None => None
    case Some(f) => ParseInt(f)
  }

  /**
   * A profile link `https://x.com/<handle>` whose handle does not end in white
   * space is accepted exactly when the handle is 1 to 15 word characters.
   * (Trailing white space is stripped before the match, so such a link is
   * accepted as well and stored with the white space.)
   */
  lemma TwitterLinkAccepted(handle: string)
    requires handle == [] || !IsSpace(handle[|handle| - 1])
    ensures TwitterAccepted(TwitterPrefix + handle) <==> 1 <= |handle| <= 15 && AllWordChars(handle)
  {
    var s := TwitterPrefix + handle;
    assert s[|TwitterPrefix|..] == handle;
    VisibleIsNotSpace(s[0]);
    if handle == [] {
      VisibleIsNotSpace(s[|s| - 1]);
    } else {
      assert s[|s| - 1] == handle[|handle| - 1];
    }
    StripUnpadded(s, StrBlanks);
    assert !StartsWith(s, "@") by { assert s[0] == 'h'; }
  }

  /**
   * A handle `@<name>` whose name does not end in white space is accepted
   * exactly when the name is 5 to 32 word characters.
   */
  lemma TelegramHandleAccepted(name: string)
    requires name == [] || !IsSpace(name[|name| - 1])
    ensures TelegramAccepted("@" + name) <==> 5 <= |name| <= 32 && AllWordChars(name)
  {
    var s := "@" + name;
    assert s[1..] == name;
    VisibleIsNotSpace(s[0]);
    if name == [] {
      VisibleIsNotSpace(s[|s| - 1]);
    } else {
      assert s[|s| - 1] == name[|name| - 1];
    }
    StripUnpadded(s, StrBlanks);
  }

  /** Typing the decimal form of `n` as one's age is accepted exactly when `10 < n < 100`. */
  lemma AgeOfNumber(n: int)
    ensures AgeOf(ShowInt(n)) == if 10 < n < 100 then Some(n) else None
  {
    ParseShowInt(n);
  }

  /** The level written into a button's payload is the level its handler reads back. */
  lemma CallbackRoundTrip(tag: string, n: int)
    requires '_' !in tag
    ensures CallbackLevel(CallbackData(tag, n)) == Some(n)
    ensures StartsWith(CallbackData(tag, n), tag + "_")
  {
    var digits := ShowInt(n);
    assert '_' !in digits by {
      assert forall i :: 0 <= i < |digits| ==> digits[i] != '_';
    }
    assert CallbackData(tag, n) == tag + ['_'] + digits;
    SecondFieldOfJoin(tag, '_', digits);
    ParseShowInt(n);
  }

  /** The registration examples: a link is accepted, a bare `@name` is not, and the unescaped dot lets `xycom` through. */
  lemma TwitterExamples()
    ensures TwitterAccepted("https://x.com/abc")
    ensures !TwitterAccepted("https://x.com/")
    ensures !TwitterAccepted("@abc")
    ensures TwitterAccepted("https://xycom/abc")
  {
    TwitterShortLink();
    TwitterNoHandle();
    TwitterBareHandle();
    TwitterDotIsWildcard();
  }

  lemma TwitterShortLink()
    ensures TwitterAccepted("https://x.com/abc")
  {
    TwitterLinkAccepted("abc");
    assert TwitterPrefix + "abc" == "https://x.com/abc";
  }

  lemma TwitterNoHandle()
    ensures !TwitterAccepted("https://x.com/")
  {
    TwitterLinkAccepted("");
    assert TwitterPrefix + "" == "https://x.com/";
  }

  lemma TwitterBareHandle()
    ensures !TwitterAccepted("@abc")
  {
    StripOfVisibleEnds("@abc");
  }

  lemma TwitterDotIsWildcard()
    ensures TwitterAccepted("https://xycom/abc")
  {
    var odd := "https://xycom/abc";
    StripOfVisibleEnds(odd);
    assert odd[|TwitterPrefix|..] == "abc";
    assert !StartsWith(odd, "@") by { assert odd[0] == 'h'; }
  }

  /** The age examples: "15" is accepted; "5", "150" and "abc" are not. */
  lemma AgeExamples()
    ensures AgeOf("15") == Some(15)
    ensures AgeOf("5").None? && AgeOf("150").None? && AgeOf("abc").None?
  {
    AgeFifteen();
    AgeFive();
    AgeHundredFifty();
    ParseIntNeedsDigit("abc");
  }

  lemma AgeFifteen()
    ensures AgeOf("15") == Some(15)
  {
    StripOfVisibleEnds("15");
    assert "15"[..1] == "1";
    assert DigitsValue("1") == 1 by { assert "1"[..0] == ""; }
    assert DigitsValue("15") == 15;
  }

  lemma AgeFive()
    ensures AgeOf("5").None?
  {
    StripOfVisibleEnds("5");
  }

  lemma AgeHundredFifty()
    ensures AgeOf("150").None?
  {
    StripOfVisibleEnds("150");
    assert "150"[..2] == "15" && "15"[..1] == "1";
  }
}
