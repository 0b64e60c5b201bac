/**
 * `adjustColor(color, amount)`: drop one leading '#', then rewrite every
 * two-character run (the regular expression `/../g`) as the channel value
 * clamped to [0, 255] after adding `amount`, in two lower-case hex digits.
 * `amount` is an integer at every call site.
 */
module ColorAdjust {
  import opened Wrappers

  /** Characters the regular-expression dot does not match. */
  predicate IsLineTerminator(ch: char) {
    ch == '\n' || ch == '\r' || ch == '\U{2028}' || ch == '\U{2029}'
  }

  /** White space `parseInt` skips before the digits (line terminators never occur inside a run). */
  predicate IsWhiteSpace(ch: char) {
    ch == '\t' || ch == '\U{000B}' || ch == '\U{000C}' || ch == ' ' || ch == '\U{00A0}' || ch == '\U{FEFF}'
    || ch == '\U{1680}' || ('\U{2000}' <= ch <= '\U{200A}') || ch == '\U{202F}' || ch == '\U{205F}' || ch == '\U{3000}'
  }

  function HexValue(ch: char): Option<nat> {
    if '0' <= ch <= '9' then Some(ch as int - '0' as int)
    else if 'a' <= ch <= 'f' then Some(ch as int - 'a' as int + 10)
    else if 'A' <= ch <= 'F' then Some(ch as int - 'A' as int + 10)
    else None
  }

  /**
   * `parseInt(a + b, 16)` with `None` for NaN: leading white space and one sign are
   * accepted, a "0x" prefix is stripped, and parsing stops at the first non-digit.
   */
  function ParseChannel(a: char, b: char): (v: Option<int>)
    ensures v.Some? ==> -15 <= v.value <= 255
  {
    if a == '0' && (b == 'x' || b == 'X') then None
    else if HexValue(a).Some? then
      (if HexValue(b).Some? then Some(16 * HexValue(a).value + HexValue(b).value as int) else Some(HexValue(a).value as int))
    else if IsWhiteSpace(a) || a == '+' then
      (if HexValue(b).Some? then Some(HexValue(b).value) else None)
    else if a == '-' then
      (if HexValue(b).Some? then Some(0 - HexValue(b).value as int) else None)
    else None
  }

  function Clamp(x: int): (y: int)
    ensures 0 <= y <= 255
    ensures 0 <= x <= 255 ==> y == x
  {
    if x < 0 then 0 else if x > 255 then 255 else x
  }

  function LowerHexDigit(d: nat): (ch: char)
    requires d < 16
    ensures HexValue(ch) == Some(d)
  {
    "0123456789abcdef"[d]
  }

  /** `('0' + n.toString(16)).substr(-2)` for n in [0, 255]. */
  function Hex2(n: nat): (s: string)
    requires n < 256
    ensures |s| == 2
  {
    [LowerHexDigit(n / 16), LowerHexDigit(n % 16)]
  }

  /** The replacement text of one run; NaN gives `('0' + 'NaN').substr(-2)`, that is "aN". */
  function ChannelText(a: char, b: char, amount: int): (s: string)
    ensures |s| == 2
  {
    match ParseChannel(a, b)
    case Some(v) => Hex2(Clamp(v + amount))
    case None => "aN"
  }

  /** `s.replace(/../g, ...)`: runs are taken left to right; a line terminator breaks a run. */
  function AdjustRuns(s: string, amount: int): string
    decreases |s|
  {
    if |s| >= 2 && !IsLineTerminator(s[0]) && !IsLineTerminator(s[1]) then
      ChannelText(s[0], s[1], amount) + AdjustRuns(s[2..], amount)
    else if |s| >= 1 then
      [s[0]] + AdjustRuns(s[1..], amount)
    else
      ""
  }

  /** `color.replace(/^#/, '')`. */
  function StripHash(color: string): string {
    if |color| > 0 && color[0] == '#' then color[1..] else color
  }

  /** The result is one '#' followed by as many characters as the colour has after its own '#'. */
  function AdjustColor(color: string, amount: int): (r: string)
    ensures |r| == 1 + |StripHash(color)| && r[0] == '#'
  {
    AdjustRunsLength(StripHash(color), amount);
    "#" + AdjustRuns(StripHash(color), amount)
  }

  // ---------------------------------------------------------------------------
  // Properties

  predicate IsHexDigit(ch: char) {
    HexValue(ch).Some?
  }

  predicate IsLowerHexDigit(ch: char) {
    '0' <= ch <= '9' || 'a' <= ch <= 'f'
  }

  /** The value of the hex run starting at `i`. */
  function RunValue(s: string, i: nat): nat
    requires i + 1 < |s| && IsHexDigit(s[i]) && IsHexDigit(s[i + 1])
  {
    16 * HexValue(s[i]).value + HexValue(s[i + 1]).value
  }

  /** Every run is replaced by exactly two characters, so the length is kept. */
  lemma {:induction false} AdjustRunsLength(s: string, amount: int)
    ensures |AdjustRuns(s, amount)| == |s|
    decreases |s|
  {
    if |s| >= 2 && !IsLineTerminator(s[0]) && !IsLineTerminator(s[1]) {
      AdjustRunsLength(s[2..], amount);
    } else if |s| >= 1 {
      AdjustRunsLength(s[1..], amount);
    }
  }

  /** Writing a channel value and reading it back gives the value. */
  lemma Hex2RoundTrip(n: nat)
    requires n < 256
    ensures ParseChannel(Hex2(n)[0], Hex2(n)[1]) == Some(n)
    ensures IsLowerHexDigit(Hex2(n)[0]) && IsLowerHexDigit(Hex2(n)[1])
  {
    var s := Hex2(n);
    assert s[0] == "0123456789abcdef"[n / 16];
    assert s[1] == "0123456789abcdef"[n % 16];
  }

  /**
   * On a string of hex digits of even length, run k of the result is two
   * lower-case hex digits reading as the clamped sum of run k's value and `amount`.
   */
  lemma AdjustHexRuns(s: string, amount: int, k: nat)
    requires |s| % 2 == 0 && forall i :: 0 <= i < |s| ==> IsHexDigit(s[i])
    requires 2 * k + 1 < |s|
    ensures |AdjustRuns(s, amount)| == |s|
    ensures IsLowerHexDigit(AdjustRuns(s, amount)[2 * k])
    ensures IsLowerHexDigit(AdjustRuns(s, amount)[2 * k + 1])
    ensures ParseChannel(AdjustRuns(s, amount)[2 * k], AdjustRuns(s, amount)[2 * k + 1])
         == Some(Clamp(RunValue(s, 2 * k) + amount))
  {
    AdjustRunsLength(s, amount);
    var t := s[2 * k..];
    DropRuns(s, amount, k);
    AdjustHexHead(t, amount);
    assert RunValue(t, 0) == RunValue(s, 2 * k);
    var out := AdjustRuns(s, amount);
    assert out[2 * k] == out[2 * k..][0] && out[2 * k + 1] == out[2 * k..][1];
  }

  /** The first k runs of a string free of line terminators leave the rest of it to be adjusted on its own. */
  lemma {:induction false} DropRuns(s: string, amount: int, k: nat)
    requires 2 * k <= |s| && forall i :: 0 <= i < 2 * k ==> !IsLineTerminator(s[i])
    ensures |AdjustRuns(s, amount)| == |s|
    ensures AdjustRuns(s, amount)[2 * k..] == AdjustRuns(s[2 * k..], amount)
  {
    AdjustRunsLength(s, amount);
    if k > 0 {
      var head, rest := ChannelText(s[0], s[1], amount), AdjustRuns(s[2..], amount);
      assert AdjustRuns(s, amount) == head + rest;
      DropRuns(s[2..], amount, k - 1);
      assert s[2..][2 * (k - 1)..] == s[2 * k..];
      assert (head + rest)[2 * k..] == rest[2 * (k - 1)..];
    }
  }

  /** The first run of a string starting with two hex digits. */
  lemma AdjustHexHead(s: string, amount: int)
    requires |s| >= 2 && IsHexDigit(s[0]) && IsHexDigit(s[1])
    ensures var out := AdjustRuns(s, amount);
      && |out| >= 2
      && IsLowerHexDigit(out[0]) && IsLowerHexDigit(out[1])
      && ParseChannel(out[0], out[1]) == Some(Clamp(RunValue(s, 0) + amount))
  {
    var v := Clamp(RunValue(s, 0) + amount);
    assert ParseChannel(s[0], s[1]) == Some(RunValue(s, 0));
    assert ChannelText(s[0], s[1], amount) == Hex2(v);
    assert AdjustRuns(s, amount) == Hex2(v) + AdjustRuns(s[2..], amount);
    Hex2RoundTrip(v);
  }

  /** A colour written "#rrggbb" in hex digits. */
  predicate IsHexColor(color: string) {
    |color| == 7 && color[0] == '#' && forall i :: 1 <= i < 7 ==> IsHexDigit(color[i])
  }

  /**
   * For "#rrggbb", the result is "#" and three runs of two lower-case hex digits,
   * each channel the input channel plus `amount`, clamped to [0, 255].
   */
  lemma AdjustColorChannels(color: string, amount: int, k: nat)
    requires IsHexColor(color) && k < 3
    ensures IsHexColor(AdjustColor(color, amount))
    ensures IsLowerHexDigit(AdjustColor(color, amount)[1 + 2 * k])
    ensures IsLowerHexDigit(AdjustColor(color, amount)[2 + 2 * k])
    ensures RunValue(AdjustColor(color, amount), 1 + 2 * k) == Clamp(RunValue(color, 1 + 2 * k) + amount)
  {
    var body := color[1..];
    assert StripHash(color) == body;
    var out := AdjustColor(color, amount);
    AdjustRunsLength(body, amount);
    forall j | 0 <= j < 3
      ensures IsLowerHexDigit(out[1 + 2 * j]) && IsLowerHexDigit(out[2 + 2 * j])
    {
      AdjustHexRuns(body, amount, j);
    }
    forall i | 1 <= i < 7 ensures IsHexDigit(out[i]) {
      var j := (i - 1) / 2;
      assert i == 1 + 2 * j || i == 2 + 2 * j;
    }
    AdjustHexRuns(body, amount, k);
    assert RunValue(body, 2 * k) == RunValue(color, 1 + 2 * k);
    var run := AdjustRuns(body, amount);
    assert out[1 + 2 * k] == run[2 * k] && out[2 + 2 * k] == run[2 * k + 1];
  }

  /** Adjusting by 0 keeps every channel value (the digits may change case). */
  lemma AdjustByZeroKeepsChannels(color: string, k: nat)
    requires IsHexColor(color) && k < 3
    ensures IsHexColor(AdjustColor(color, 0))
    ensures RunValue(AdjustColor(color, 0), 1 + 2 * k) == RunValue(color, 1 + 2 * k)
  {
    AdjustColorChannels(color, 0, k);
  }

  /** A run that does not start like a number reads as NaN and becomes "aN". */
  lemma NonNumericRun(a: char, b: char, amount: int)
    requires !IsHexDigit(a) && !IsWhiteSpace(a) && a != '+' && a != '-'
    ensures ChannelText(a, b, amount) == "aN"
  {
  }
}
