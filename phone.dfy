/** The Philippine mobile-number pattern both form panels test the trimmed
    contact number against: `^(?:\+63|0)?9\d{9}$`. */
module PhonePattern {

  /** The regular expression's `\d` (without the `u` flag): an ASCII digit. */
  predicate IsDigit(c: char) {
    '0' <= c <= '9'
  }

  /** What follows the optional prefix: `9` and exactly nine digits. */
  predicate IsSubscriberPart(s: string) {
    |s| == 10 && s[0] == '9' && forall i :: 1 <= i < 10 ==> IsDigit(s[i])
  }

  /** The language of the pattern, one disjunct per way of reading the optional
      group: absent, `+63`, or `0`. */
  ghost predicate InPhoneLanguage(s: string) {
    || IsSubscriberPart(s)
    || (|s| >= 3 && s[..3] == "+63" && IsSubscriberPart(s[3..]))
    || (|s| >= 1 && s[..1] == "0" && IsSubscriberPart(s[1..]))
  }

  /** `phoneRegex.test(s)`, written as a left-to-right matcher: the first
      character decides which alternative of the optional group applies. */
  function Matches(s: string): (b: bool)
    ensures b <==> InPhoneLanguage(s)
  {
    if |s| > 0 && s[0] == '+' then
      |s| >= 3 && s[1] == '6' && s[2] == '3' && IsSubscriberPart(s[3..])
    else if |s| > 0 && s[0] == '0' then
      IsSubscriberPart(s[1..])
    else
      IsSubscriberPart(s)
  }

  /** An accepted number has 10, 11 or 13 characters, all digits except a
      leading `+`, and starts with `9`, `09` or `+639`. */
  lemma AcceptedShape(s: string)
    requires Matches(s)
    ensures |s| == 10 || |s| == 11 || |s| == 13
    ensures forall i :: 0 <= i < |s| ==> IsDigit(s[i]) || (i == 0 && s[i] == '+')
    ensures s[..1] == "9" || s[..2] == "09" || s[..4] == "+639"
  {
  }

  /** The placeholder examples of the two forms are accepted; a number without
      its leading `9`, a short one and one with separators are not. */
  lemma Examples()
    ensures Matches("09171234567")
    ensures Matches("+639171234567")
    ensures Matches("9171234567")
    ensures !Matches("0817123456")
    ensures !Matches("0917123456")
    ensures !Matches("0917-123-4567")
  {
  }
}
