/** The text operations the SGF properties of a game go through: trimming, case and decimals. */
module Text {
  import opened Rules
  import opened Sgf

  function StripLeft(s: string): string {
    if s != [] && IsSpace(s[0]) then StripLeft(s[1..]) else s
  }

  function StripRight(s: string): string {
    if s != [] && IsSpace(s[|s| - 1]) then StripRight(s[..|s| - 1]) else s
  }

  function Strip(s: string): string {
    StripRight(StripLeft(s))
  }

  /** Lower case as far as a comparison with ASCII words can tell: the Kelvin sign becomes `k`. */
  function Lower(s: string): string {
    seq(|s|, k requires 0 <= k < |s| =>
      if 'A' <= s[k] <= 'Z' then s[k] - 'A' + 'a' else if s[k] == '\U{212A}' then 'k' else s[k])
  }

  /** Lower-case words with dashes, such as the names of the rule sets. */
  predicate IsWord(s: string) {
    forall k :: 0 <= k < |s| ==> 'a' <= s[k] <= 'z' || s[k] == '-'
  }

  lemma {:induction false} ReplaceNothing(s: string, c: char, w: string)
    requires c !in s
    ensures Replace(s, c, w) == s
  {
    if s != [] {
      ReplaceNothing(s[1..], c, w);
    }
  }

  lemma WordIsStripped(s: string)
    requires IsWord(s)
    ensures Strip(s) == s
  {
  }

  lemma WordIsLower(s: string)
    requires IsWord(s)
    ensures Lower(s) == s
  {
  }

  lemma WordIsPlain(s: string)
    requires IsWord(s)
    ensures Strip(s) == s && Lower(s) == s && Replace(s, '_', "-") == s && Replace(s, ' ', "-") == s
  {
    hide Replace, Strip, Lower;
    WordIsStripped(s);
    WordIsLower(s);
    ReplaceNothing(s, '_', "-");
    ReplaceNothing(s, ' ', "-");
  }

  // ----- decimals -----

  predicate IsDigit(c: char) {
    '0' <= c <= '9'
  }

  predicate AllDigits(s: string) {
    s != [] && forall k :: 0 <= k < |s| ==> IsDigit(s[k])
  }

  function Decimal(n: nat): (s: string)
    ensures s != []
  {
    if n < 10 then ['0' + n as char] else Decimal(n / 10) + ['0' + (n % 10) as char]
  }

  function ValueOf(digits: string): nat
    requires forall k :: 0 <= k < |digits| ==> IsDigit(digits[k])
  {
    if digits == [] then 0
    else
      assert IsDigit(digits[|digits| - 1]);
      10 * ValueOf(digits[..|digits| - 1]) + (digits[|digits| - 1] as int - '0' as int)
  }

  function StripZeros(s: string): (r: string)
    ensures |r| <= |s| && (forall k :: 0 <= k < |r| ==> r[k] in s)
  {
    if s != [] && s[0] == '0' then StripZeros(s[1..]) else s
  }

  /** The number a string of digits writes; `None` for five digits or more after its leading zeros. */
  function SmallInt(digits: string): Option<nat>
    requires AllDigits(digits)
  {
    var d := StripZeros(digits);
    if |d| > 4 then None
    else
      assert forall k :: 0 <= k < |d| ==> d[k] in digits;
      Some(ValueOf(d))
  }

  lemma {:induction false} DecimalReadsBack(n: nat)
    ensures AllDigits(Decimal(n)) && ValueOf(Decimal(n)) == n
    ensures n > 0 ==> Decimal(n)[0] != '0'
    ensures n < 10 ==> |Decimal(n)| == 1
    ensures 10 <= n < 10000 ==> |Decimal(n)| <= 1 + |Decimal(n / 10)|
  {
    var s := Decimal(n);
    if n >= 10 {
      DecimalReadsBack(n / 10);
      assert s[..|s| - 1] == Decimal(n / 10);
    }
  }

  /** A number below ten thousand is written as digits that read back as it. */
  lemma SmallIntReadsBack(n: nat)
    requires n < 10000
    ensures AllDigits(Decimal(n)) && SmallInt(Decimal(n)) == Some(n)
  {
    DecimalReadsBack(n);
    if n == 0 {
      assert StripZeros("0") == "";
    } else {
      DecimalReadsBack(n / 10);
      DecimalReadsBack(n / 10 / 10);
      DecimalReadsBack(n / 10 / 10 / 10);
    }
  }
}
