/**
 * Shared vocabulary of the model: optional values, the pieces of Java's
 * String and Integer behaviour the services rely on, and wall-clock time.
 */
module Common {

  datatype Option<T> = None | Some(value: T)
  {
    function GetOr(default: T): T
    {
      if Some? then value else default
    }
  }

  // ------------------------------------------------------------------
  // Time

  /** A LocalDateTime, as whole seconds from a fixed local midnight.
    * LocalDateTime carries no zone, so there are no DST jumps. */
  type Instant = int

  const SECONDS_PER_MINUTE: int := 60
  const SECONDS_PER_DAY: int := 86400

  /** Seconds since midnight of the day `t` falls in. */
  function TimeOfDay(t: Instant): (r: int)
    ensures 0 <= r < SECONDS_PER_DAY
    ensures (t - r) % SECONDS_PER_DAY == 0
  {
    t % SECONDS_PER_DAY
  }

  /** Duration.between(from, to).toMinutes(): whole minutes, truncated toward zero. */
  function WholeMinutes(from: Instant, to: Instant): (r: int)
    ensures from <= to ==> 0 <= r && 60 * r <= to - from < 60 * r + 60
    ensures to < from ==> r <= 0 && 60 * -r <= from - to < 60 * -r + 60
  {
    if from <= to then (to - from) / 60 else -((from - to) / 60)
  }

  // ------------------------------------------------------------------
  // Java int

  const INT_MIN: int := -0x8000_0000
  const INT_MAX: int := 0x7fff_ffff

  /** The value a Java int holds after an arithmetic result `x` wraps around. */
  function Wrap32(x: int): (r: int)
    ensures INT_MIN <= r <= INT_MAX
    ensures (x - r) % 0x1_0000_0000 == 0
    ensures INT_MIN <= x <= INT_MAX ==> r == x
  {
    (x + 0x8000_0000) % 0x1_0000_0000 - 0x8000_0000
  }

  // ------------------------------------------------------------------
  // Characters and strings

  predicate IsAsciiDigit(c: char)
  {
    '0' <= c <= '9'
  }

  predicate AllAsciiDigits(s: string)
  {
    forall i :: 0 <= i < |s| ==> IsAsciiDigit(s[i])
  }

  function DigitValue(c: char): (r: int)
    requires IsAsciiDigit(c)
    ensures 0 <= r <= 9
  {
    c as int - '0' as int
  }

  /** Character.isWhitespace: the Unicode space, line and paragraph separators
    * other than the no-break spaces, and the ASCII controls \t \n \u000B \f \r
    * and \u001C-\u001F. */
  predicate IsJavaWhitespace(c: char)
  {
    c == ' ' || ('\t' <= c <= '\r') || ('\U{1C}' <= c <= '\U{1F}')
    || c == '\U{1680}' || ('\U{2000}' <= c <= '\U{2006}') || ('\U{2008}' <= c <= '\U{200A}')
    || c == '\U{2028}' || c == '\U{2029}' || c == '\U{205F}' || c == '\U{3000}'
  }

  /** StringUtils.hasText: not null, and at least one non-whitespace character. */
  predicate HasText(s: Option<string>)
  {
    s.Some? && exists i :: 0 <= i < |s.value| && !IsJavaWhitespace(s.value[i])
  }

  /** A non-empty run of digits has text. */
  lemma DigitsHaveText(s: string)
    requires |s| > 0 && AllAsciiDigits(s)
    ensures HasText(Some(s))
  {
    assert !IsJavaWhitespace(s[0]);
  }

  function Repeat(c: char, n: nat): (r: string)
    ensures |r| == n
    ensures forall i :: 0 <= i < n ==> r[i] == c
  {
    seq(n, _ => c)
  }

  predicate OccursAt(s: string, sub: string, i: int)
  {
    0 <= i <= |s| - |sub| && s[i..i + |sub|] == sub
  }

  /** `sub` occurs in `s` at some position (String.contains). */
  predicate Contains(s: string, sub: string)
  {
    exists i :: 0 <= i <= |s| - |sub| && OccursAt(s, sub, i)
  }

  /** The index of the first character of `s` from `i` on that is above U+0020, or |s|. */
  function SkipSpaces(s: string, i: nat): (r: nat)
    requires i <= |s|
    ensures i <= r <= |s| && (r == |s| || s[r] > ' ')
    ensures forall k :: i <= k < r ==> s[k] <= ' '
    decreases |s| - i
  {
    if i < |s| && s[i] <= ' ' then SkipSpaces(s, i + 1) else i
  }

  /** The end of `s[..j]` once the characters up to U+0020 at its end, down to `lo`, are cut. */
  function CutSpaces(s: string, lo: nat, j: nat): (r: nat)
    requires lo <= j <= |s|
    ensures lo <= r <= j && (r == lo || s[r - 1] > ' ')
    ensures forall k :: r <= k < j ==> s[k] <= ' '
  {
    if lo < j && s[j - 1] <= ' ' then CutSpaces(s, lo, j - 1) else j
  }

  /** String.trim: the slice of `s` left once every leading and trailing character up to
    * U+0020 is removed. */
  function Trim(s: string): (r: string)
    ensures r == [] || (r[0] > ' ' && r[|r| - 1] > ' ')
    ensures exists lo, hi :: (0 <= lo <= hi <= |s| && r == s[lo..hi]
      && (forall k :: 0 <= k < lo ==> s[k] <= ' ') && (forall k :: hi <= k < |s| ==> s[k] <= ' '))
  {
    var lo := SkipSpaces(s, 0);
    var hi := CutSpaces(s, lo, |s|);
    s[lo..hi]
  }

  // Comma splitting

  /** Every comma-separated field of `s`, empty ones included: `s.split(",", -1)` in Java. */
  function Fields(s: string): (r: seq<string>)
    ensures |r| >= 1
    ensures forall i :: 0 <= i < |r| ==> ',' !in r[i]
  {
    if |s| == 0 then [""]
    else
      var init := Fields(s[..|s| - 1]);
      var c := s[|s| - 1];
      if c == ',' then init + [""]
      else init[..|init| - 1] + [init[|init| - 1] + [c]]
  }

  /** The inverse of `Fields`: the fields joined with single commas. */
  function Join(fs: seq<string>): string
    requires |fs| >= 1
  {
    if |fs| == 1 then fs[0] else Join(fs[..|fs| - 1]) + "," + fs[|fs| - 1]
  }

  lemma {:induction false} JoinFields(s: string)
    ensures Join(Fields(s)) == s
  {
    if |s| > 0 {
      var p, c := s[..|s| - 1], s[|s| - 1];
      assert s == p + [c];
      var init := Fields(p);
      JoinFields(p);
      if c == ',' {
        var out := init + [""];
        assert Fields(s) == out;
        assert out[..|out| - 1] == init;
      } else {
        var n := |init|;
        var last := init[n - 1] + [c];
        var out := init[..n - 1] + [last];
        assert Fields(s) == out;
        if n > 1 {
          assert out[..n - 1] == init[..n - 1];
          assert Join(out) == Join(init[..n - 1]) + "," + last;
          assert Join(init) == Join(init[..n - 1]) + "," + init[n - 1];
        }
      }
    }
  }

  /** The fields without the trailing run of empty ones. */
  function DropTrailingEmpty(fs: seq<string>): (r: seq<string>)
    ensures r <= fs
    ensures r == [] || r[|r| - 1] != ""
    ensures forall i :: |r| <= i < |fs| ==> fs[i] == ""
  {
    if |fs| > 0 && fs[|fs| - 1] == "" then DropTrailingEmpty(fs[..|fs| - 1]) else fs
  }

  /** Java's `s.split(",")`: when `s` has no comma the result is `[s]`; otherwise the
    * comma-separated fields with the trailing empty fields removed. */
  function SplitComma(s: string): (r: seq<string>)
    ensures ',' !in s ==> r == [s]
    ensures ',' in s ==> r <= Fields(s) && forall i :: |r| <= i < |Fields(s)| ==> Fields(s)[i] == ""
    ensures ',' in s ==> r == [] || r[|r| - 1] != ""
  {
    if ',' !in s then [s] else DropTrailingEmpty(Fields(s))
  }

  // ------------------------------------------------------------------
  // Integer.parseInt (radix 10)

  /** The value of a run of ASCII digits. */
  function DigitsValue(s: string): (r: nat)
    requires AllAsciiDigits(s)
  {
    if |s| == 0 then 0 else 10 * DigitsValue(s[..|s| - 1]) + DigitValue(s[|s| - 1])
  }

  /** Integer.parseInt: an optional sign followed by at least one digit, within the int
    * range; None where Java throws NumberFormatException. */
  function ParseInt(s: string): (r: Option<int>)
    ensures r.Some? ==> INT_MIN <= r.value <= INT_MAX
    ensures r.Some? <==> (
      (AllAsciiDigits(s) && |s| >= 1 && DigitsValue(s) <= INT_MAX)
      || (|s| >= 2 && s[0] == '+' && AllAsciiDigits(s[1..]) && DigitsValue(s[1..]) <= INT_MAX)
      || (|s| >= 2 && s[0] == '-' && AllAsciiDigits(s[1..]) && DigitsValue(s[1..]) <= -INT_MIN))
    ensures r.Some? && AllAsciiDigits(s) ==> r.value == DigitsValue(s)
  {
    if |s| == 0 then None
    else if s[0] == '+' || s[0] == '-' then
      if |s| == 1 || !AllAsciiDigits(s[1..]) then None
      else
        var v: int := if s[0] == '-' then -(DigitsValue(s[1..]) as int) else DigitsValue(s[1..]);
        if INT_MIN <= v <= INT_MAX then Some(v) else None
    else if AllAsciiDigits(s) && DigitsValue(s) <= INT_MAX then Some(DigitsValue(s))
    else None
  }

  /** A two-digit field such as an expiry month parses to its decimal value. */
  lemma ParseTwoDigits(s: string)
    requires |s| == 2 && AllAsciiDigits(s)
    ensures ParseInt(s) == Some(10 * DigitValue(s[0]) + DigitValue(s[1]))
  {
    assert s[..1][..0] == [];
    assert DigitsValue(s[..1]) == DigitValue(s[0]);
  }
}
