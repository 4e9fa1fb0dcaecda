/**
  The few Python `str` operations the core relies on: `isspace`/`strip`,
  `upper`, `capitalize`, `isalpha` and `isupper`.
  Whitespace follows Python exactly; case mapping and letters are ASCII.
 */
module PyText {

  /** Python's `str.isspace` for one character: the set `str.strip()` removes. */
  predicate IsSpace(c: char)
  {
    var n := c as int;
    (9 <= n <= 13) || (28 <= n <= 32) || n == 0x85 || n == 0xA0 || n == 0x1680
    || (0x2000 <= n <= 0x200A) || n == 0x2028 || n == 0x2029 || n == 0x202F
    || n == 0x205F || n == 0x3000
  }

  /** Every character is whitespace (this includes the empty string). */
  predicate IsBlank(s: string)
  {
    forall i :: 0 <= i < |s| ==> IsSpace(s[i])
  }

  /** Neither the first nor the last character is whitespace. */
  predicate NoSurroundingSpace(s: string)
  {
    s == [] || (!IsSpace(s[0]) && !IsSpace(s[|s| - 1]))
  }

  /** The length of the longest whitespace prefix. */
  function LeadingSpace(s: string): (n: nat)
    ensures n <= |s|
    ensures forall i :: 0 <= i < n ==> IsSpace(s[i])
    ensures n < |s| ==> !IsSpace(s[n])
  {
    if s != [] && IsSpace(s[0]) then
      var n := LeadingSpace(s[1..]);
      assert forall i :: 1 <= i < n + 1 ==> s[i] == s[1..][i - 1];
      n + 1
    else 0
  }

  /** Where the longest whitespace suffix starts. */
  function ContentEnd(s: string): (n: nat)
    ensures n <= |s|
    ensures forall i :: n <= i < |s| ==> IsSpace(s[i])
    ensures n > 0 ==> !IsSpace(s[n - 1])
  {
    if s != [] && IsSpace(s[|s| - 1]) then
      var n := ContentEnd(s[..|s| - 1]);
      assert forall i :: 0 <= i < |s| - 1 ==> s[i] == s[..|s| - 1][i];
      n
    else |s|
  }

  /** Python's `str.strip()` with no argument. */
  function Strip(s: string): (r: string)
    ensures NoSurroundingSpace(r)
    ensures r == [] <==> IsBlank(s)
    ensures |r| <= |s|
  {
    var a := LeadingSpace(s);
    if a == |s| then []
    else
      var b := ContentEnd(s);
      assert !IsSpace(s[a]);
      s[a..b]
  }

  /**
    `strip` keeps the middle of `s`: what it cuts off on either side is all
    whitespace.
   */
  lemma StripIsMiddle(s: string)
    ensures var r := Strip(s);
            exists k :: 0 <= k <= |s| - |r| && r == s[k..k + |r|] && IsBlank(s[..k]) && IsBlank(s[k + |r|..])
  {
    var r := Strip(s);
    var a := LeadingSpace(s);
    assert forall i :: 0 <= i < a ==> s[..a][i] == s[i];
    if a < |s| {
      var b := ContentEnd(s);
      assert a + |r| == b;
      assert forall i :: 0 <= i < |s| - b ==> s[b..][i] == s[b + i];
      assert IsBlank(s[..a]) && IsBlank(s[a + |r|..]);
    } else {
      assert IsBlank(s[a + |r|..]);
    }
  }

  /** A string with no surrounding whitespace is its own strip. */
  lemma StripOfTrimmed(t: string)
    requires NoSurroundingSpace(t)
    ensures Strip(t) == t
  {
    if t != [] {
      assert LeadingSpace(t) == 0;
      assert ContentEnd(t) == |t|;
    }
  }

  /** `strip` is idempotent. */
  lemma StripIdempotent(s: string)
    ensures Strip(Strip(s)) == Strip(s)
  {
    StripOfTrimmed(Strip(s));
  }

  predicate IsAsciiUpper(c: char) { 'A' <= c <= 'Z' }

  predicate IsAsciiLower(c: char) { 'a' <= c <= 'z' }

  predicate IsAsciiLetter(c: char) { IsAsciiUpper(c) || IsAsciiLower(c) }

  function UpperChar(c: char): char
  {
    if IsAsciiLower(c) then (c as int - 32) as char else c
  }

  function LowerChar(c: char): char
  {
    if IsAsciiUpper(c) then (c as int + 32) as char else c
  }

  /** Python's `str.upper()`, on ASCII letters. */
  function Upper(s: string): string
  {
    seq(|s|, i requires 0 <= i < |s| => UpperChar(s[i]))
  }

  /** Python's `str.capitalize()`: first character upper-case, the rest lower-case. */
  function Capitalize(s: string): string
  {
    seq(|s|, i requires 0 <= i < |s| => if i == 0 then UpperChar(s[i]) else LowerChar(s[i]))
  }

  /** Python's `str.isalpha()`: non-empty and every character a letter. */
  predicate IsAlpha(s: string)
  {
    |s| > 0 && forall i :: 0 <= i < |s| ==> IsAsciiLetter(s[i])
  }

  /** Python's `str.isupper()`: some cased character, and no lower-case one. */
  predicate IsUpper(s: string)
  {
    (exists i :: 0 <= i < |s| && IsAsciiUpper(s[i]))
    && forall i :: 0 <= i < |s| ==> !IsAsciiLower(s[i])
  }
}
