/** The few pieces of Python string behaviour the orchestrator relies on:
    whitespace stripping, concatenation, decimal formatting of counts and the
    removal of the trailing termination sentinel. Strings are `seq<char>`
    whose elements are Unicode code points, as Python's `str` is. */
module Text {

  /** Python's `str.isspace()`: the ASCII separators plus Unicode White_Space. */
  predicate IsSpace(c: char) {
    || c == ' ' || c == '\t' || c == '\n' || c == '\r'
    || c == '\U{0B}' || c == '\U{0C}'
    || ('\U{1C}' <= c <= '\U{1F}')
    || c == '\U{85}' || c == '\U{A0}' || c == '\U{1680}'
    || ('\U{2000}' <= c <= '\U{200A}')
    || c == '\U{2028}' || c == '\U{2029}' || c == '\U{202F}'
    || c == '\U{205F}' || c == '\U{3000}'
  }

  /** True when `s.strip()` is empty, i.e. `not s.strip()` in Python. */
  predicate IsBlank(s: string) {
    forall i :: 0 <= i < |s| ==> IsSpace(s[i])
  }

  /** The end of the whitespace run that starts at `i`. */
  function SpaceRunEnd(s: string, i: nat): (j: nat)
    requires i <= |s|
    ensures i <= j <= |s|
    ensures forall k :: i <= k < j ==> IsSpace(s[k])
    ensures j < |s| ==> !IsSpace(s[j])
    decreases |s| - i
  {
    if i < |s| && IsSpace(s[i]) then SpaceRunEnd(s, i + 1) else i
  }

  /** The start of the whitespace run that ends at `j`. */
  function SpaceRunStart(s: string, j: nat): (i: nat)
    requires j <= |s|
    ensures i <= j
    ensures forall k :: i <= k < j ==> IsSpace(s[k])
    ensures i > 0 ==> !IsSpace(s[i - 1])
  {
    if j > 0 && IsSpace(s[j - 1]) then SpaceRunStart(s, j - 1) else j
  }

  /** Python's `s.rstrip()`. */
  function RStrip(s: string): (r: string)
    ensures r <= s
    ensures forall i :: |r| <= i < |s| ==> IsSpace(s[i])
    ensures |r| > 0 ==> !IsSpace(r[|r| - 1])
  {
    s[..SpaceRunStart(s, |s|)]
  }

  /** Python's `s.strip()`: the input with its leading and trailing
      whitespace cut off, i.e. the middle part that starts and ends with a
      non-space character (empty for a blank input). */
  function Strip(s: string): (r: string)
    ensures r == [] <==> IsBlank(s)
    ensures |r| > 0 ==> !IsSpace(r[0]) && !IsSpace(r[|r| - 1])
    ensures !IsBlank(s) ==> SpaceRunEnd(s, 0) < SpaceRunStart(s, |s|) && r == s[SpaceRunEnd(s, 0)..SpaceRunStart(s, |s|)]
  {
    var e := SpaceRunStart(s, |s|);
    var b := SpaceRunEnd(s, 0);
    if e <= b then [] else s[b..e]
  }

  /** Independent characterisation of `Strip`: any cut of `s` that removes
      only whitespace at both ends and leaves either nothing or a non-space
      character at each end is the stripped text. */
  lemma StripUnique(s: string, b: nat, e: nat)
    requires b <= e <= |s| && IsBlank(s[..b]) && IsBlank(s[e..])
    requires b == e || (!IsSpace(s[b]) && !IsSpace(s[e - 1]))
    ensures Strip(s) == s[b..e]
  {
    if b == e {
      forall i | 0 <= i < |s| ensures IsSpace(s[i]) {
        if i < b { assert s[..b][i] == s[i]; } else { assert s[e..][i - e] == s[i]; }
      }
    } else {
      SpaceRunEndAt(s, 0, b);
      SpaceRunStartAt(s, |s|, e);
    }
  }

  /** The whitespace run from `i` ends at the first non-space character. */
  lemma {:induction false} SpaceRunEndAt(s: string, i: nat, b: nat)
    requires i <= b < |s| && !IsSpace(s[b])
    requires forall k :: i <= k < b ==> IsSpace(s[k])
    ensures SpaceRunEnd(s, i) == b
    decreases b - i
  {
    if i < b {
      SpaceRunEndAt(s, i + 1, b);
    }
  }

  /** The whitespace run ending at `j` starts after the last non-space
      character. */
  lemma {:induction false} SpaceRunStartAt(s: string, j: nat, e: nat)
    requires 0 < e <= j <= |s| && !IsSpace(s[e - 1])
    requires forall k :: e <= k < j ==> IsSpace(s[k])
    ensures SpaceRunStart(s, j) == e
    decreases j - e
  {
    if e < j {
      SpaceRunStartAt(s, j - 1, e);
    }
  }

  /** Stripping is idempotent. */
  lemma StripIdempotent(s: string)
    ensures Strip(Strip(s)) == Strip(s)
  {
    var r := Strip(s);
    if r != [] {
      StripOfTrimmed(r);
    }
  }

  /** Text that starts and ends with a non-space character strips to itself. */
  lemma StripOfTrimmed(a: string)
    requires |a| > 0 && !IsSpace(a[0]) && !IsSpace(a[|a| - 1])
    ensures Strip(a) == a && !IsBlank(a)
  {
    assert SpaceRunStart(a, |a|) == |a|;
    assert SpaceRunEnd(a, 0) == 0;
    assert a[0..|a|] == a;
  }

  /** `s.endswith(suffix)`. */
  predicate EndsWith(s: string, suffix: string) {
    |suffix| <= |s| && s[|s| - |suffix|..] == suffix
  }

  /** `"".join(parts)`. */
  function Concat(parts: seq<string>): (r: string)
    ensures |parts| == 0 ==> r == []
  {
    if |parts| == 0 then [] else Concat(parts[..|parts| - 1]) + parts[|parts| - 1]
  }

  function DigitChar(d: nat): (c: char)
    requires d < 10
    ensures '0' <= c <= '9' && DigitValue(c) == d
  {
    ('0' as int + d) as char
  }

  /** The value of one decimal digit character. */
  function DigitValue(c: char): int {
    c as int - '0' as int
  }

  /** The number a string of decimal digits denotes, most significant first. */
  function DecimalValue(r: string): int {
    if |r| == 0 then 0 else DecimalValue(r[..|r| - 1]) * 10 + DigitValue(r[|r| - 1])
  }

  /** `str(n)` for a non-negative integer: decimal digits that read back as
      `n`. */
  function NatToString(n: nat): (r: string)
    ensures |r| > 0
    ensures forall i :: 0 <= i < |r| ==> '0' <= r[i] <= '9'
    ensures DecimalValue(r) == n
    decreases n
  {
    if n < 10 then [DigitChar(n)]
    else
      var r := NatToString(n / 10) + [DigitChar(n % 10)];
      assert r[..|r| - 1] == NatToString(n / 10);
      r
  }

  /** The token the answer agents append to signal that they are done. */
  const Sentinel: string := "TERMINATE"

  /** `EventProcessor._strip_termination_token`: drop trailing whitespace,
      then one exact trailing sentinel together with the whitespace before it. */
  function StripTermination(text: string): (r: string)
    ensures r <= text
    ensures |r| > 0 ==> !IsSpace(r[|r| - 1])
    ensures !EndsWith(RStrip(text), Sentinel) ==> r == RStrip(text)
    ensures var t := RStrip(text);
            EndsWith(t, Sentinel) ==>
              && |r| <= |t| - |Sentinel|
              && r == t[..|r|]
              && IsBlank(t[|r|..|t| - |Sentinel|])
  {
    var t := RStrip(text);
    if EndsWith(t, Sentinel) then
      var r := RStrip(t[..|t| - |Sentinel|]);
      BlankGap(t, r);
      r
    else t
  }

  lemma BlankGap(t: string, r: string)
    requires EndsWith(t, Sentinel) && r == RStrip(t[..|t| - |Sentinel|])
    ensures |r| <= |t| - |Sentinel| && IsBlank(t[|r|..|t| - |Sentinel|])
  {
    var gap := t[|r|..|t| - |Sentinel|];
    forall i | 0 <= i < |gap| ensures IsSpace(gap[i]) {
      assert gap[i] == t[..|t| - |Sentinel|][|r| + i];
    }
  }

  /** Text with no sentinel at its end loses only its trailing whitespace. */
  lemma StripTerminationWithoutSentinel(text: string)
    requires !EndsWith(RStrip(text), Sentinel)
    ensures StripTermination(text) == RStrip(text)
  {
  }

  lemma RStripOfTrimmed(a: string)
    requires |a| > 0 ==> !IsSpace(a[|a| - 1])
    ensures RStrip(a) == a
  {
  }

  lemma RStripDropsBlankTail(a: string, w: string)
    requires IsBlank(w)
    ensures RStrip(a + w) == RStrip(a)
    decreases |w|
  {
    if |w| > 0 {
      assert (a + w)[..|a + w| - 1] == a + w[..|w| - 1];
      RStripDropsBlankTail(a, w[..|w| - 1]);
    } else {
      assert a + w == a;
    }
  }

  /** Round trip: text without trailing whitespace, followed by any blank
      run, the sentinel and another blank run, strips back to itself. */
  lemma {:induction false} StripTerminationRoundTrip(a: string, w1: string, w2: string)
    requires |a| > 0 ==> !IsSpace(a[|a| - 1])
    requires IsBlank(w1) && IsBlank(w2)
    ensures StripTermination(a + w1 + Sentinel + w2) == a
  {
    var s := a + w1 + Sentinel;
    RStripDropsBlankTail(s, w2);
    assert !IsSpace(s[|s| - 1]);
    RStripOfTrimmed(s);
    assert RStrip(s + w2) == s;
    assert EndsWith(s, Sentinel);
    assert s[..|s| - |Sentinel|] == a + w1;
    RStripDropsBlankTail(a, w1);
    RStripOfTrimmed(a);
  }

  /** Only one sentinel is removed: a doubled sentinel leaves the first. */
  lemma StripTerminationRemovesOnlyOne()
    ensures StripTermination("TERMINATE TERMINATE") == "TERMINATE"
  {
    StripTerminationRoundTrip("TERMINATE", " ", "");
    assert "TERMINATE" + " " + Sentinel + "" == "TERMINATE TERMINATE";
  }
}
