/** JavaScript semantics the client code relies on: `||` between optional
    strings, the truncating `%`, and the `h/m/s` elapsed-time rendering that
    both screens share (they differ only in the separator). */
module Script {
  import opened Wrappers
  import opened Text

  /** A string is truthy when it is present and not empty. */
  predicate Truthy(s: Option<string>) {
    s.Some? && s.value != ""
  }

  /** `a || b` on optional strings. */
  function OrElse(a: Option<string>, b: Option<string>): Option<string> {
    if Truthy(a) then a else b
  }

  /** `a || b || fallback`: the first truthy of two optional messages, else
      the fallback. */
  function MessageOr(first: Option<string>, second: Option<string>, fallback: string): (r: string)
    ensures Truthy(first) ==> r == first.value
    ensures !Truthy(first) && Truthy(second) ==> r == second.value
    ensures !Truthy(first) && !Truthy(second) ==> r == fallback
    ensures fallback != "" ==> r != ""
  {
    var m := OrElse(first, second);
    if Truthy(m) then m.value else fallback
  }

  /** JavaScript's `a % b` for a positive divisor: the sign follows `a`. */
  function Rem(a: int, b: int): (r: int)
    requires b > 0
    ensures a >= 0 ==> 0 <= r < b && r == a % b
    ensures a < 0 ==> -b < r <= 0
  {
    if a >= 0 then a % b else -((-a) % b)
  }

  /** `Math.floor(s / 3600)`. */
  function Hours(s: int): int {
    s / 3600
  }

  /** `Math.floor((s % 3600) / 60)`. */
  function Minutes(s: int): int {
    Rem(s, 3600) / 60
  }

  /** `s % 60`. */
  function Seconds(s: int): int {
    Rem(s, 60)
  }

  /** For a non-negative count the three parts are its hours, minutes and
      seconds, the last two below 60. */
  lemma PartsDecompose(s: int)
    requires s >= 0
    ensures 3600 * Hours(s) + 60 * Minutes(s) + Seconds(s) == s
    ensures 0 <= Minutes(s) < 60 && 0 <= Seconds(s) < 60 && Hours(s) >= 0
  {
    var h, r := s / 3600, s % 3600;
    assert s == 3600 * h + r;
    assert Minutes(s) == r / 60;
    assert r == 60 * (r / 60) + r % 60;
    assert Seconds(s) == r % 60 by {
      assert s == 60 * (60 * h + r / 60) + r % 60;
    }
  }

  /** `Math.floor((nowMs - startMs) / 1000)`: whole seconds since a start
      time, negative when the start lies ahead. */
  function ElapsedSeconds(startMs: int, nowMs: int): (r: int)
    ensures 1000 * r <= nowMs - startMs < 1000 * (r + 1)
  {
    (nowMs - startMs) / 1000
  }

  /** `n.toString().padStart(2, '0')`. */
  function Pad2(n: int): string {
    PadStart(IntToString(n), 2, '0')
  }

  /** The timer text: hours, minutes and seconds, each padded to two digits,
      with `sep` between them. */
  function FormatElapsed(s: int, sep: string): string {
    Pad2(Hours(s)) + sep + Pad2(Minutes(s)) + sep + Pad2(Seconds(s))
  }

  predicate AllDigits(s: string) {
    forall i | 0 <= i < |s| :: '0' <= s[i] <= '9'
  }

  /** Reads a timer text back: the last two digits are seconds, the two
      before the separator minutes, everything before hours. */
  function ParseElapsed(f: string, sep: string): Option<int> {
    var w := |sep|;
    if |f| < 6 + 2 * w then None
    else ReadFields(f[..|f| - 4 - 2 * w], f[|f| - 4 - 2 * w..|f| - 4 - w], f[|f| - 4 - w..|f| - 2 - w],
                    f[|f| - 2 - w..|f| - 2], f[|f| - 2..], sep)
  }

  function ReadFields(hh: string, s1: string, mm: string, s2: string, ss: string, sep: string): Option<int> {
    if s1 != sep || s2 != sep || !AllDigits(hh) || !AllDigits(mm) || !AllDigits(ss) then None
    else Some(3600 * DigitsValue(hh) + 60 * DigitsValue(mm) + DigitsValue(ss))
  }

  /** The rendering of a non-negative count reads back as the same count. */
  lemma FormatElapsedRoundTrip(s: int, sep: string)
    requires s >= 0
    ensures ParseElapsed(FormatElapsed(s, sep), sep) == Some(s)
  {
    PartsDecompose(s);
    PartsRoundTrip(Hours(s), Minutes(s), Seconds(s), sep, s);
  }

  /** Hours, minutes and seconds rendered and read back give the count they
      stand for. */
  lemma PartsRoundTrip(h: int, m: int, c: int, sep: string, s: int)
    requires h >= 0 && 0 <= m < 60 && 0 <= c < 60 && s == 3600 * h + 60 * m + c
    ensures ParseElapsed(Pad2(h) + sep + Pad2(m) + sep + Pad2(c), sep) == Some(s)
  {
    PaddedValue(h);
    PaddedValue(m);
    PaddedValue(c);
    PaddedWidth(h);
    PaddedWidth(m);
    PaddedWidth(c);
    FieldsRoundTrip(Pad2(h), sep, Pad2(m), Pad2(c), h, m, c, s);
  }

  /** Three digit fields of the timer's shape read back as the count they
      stand for. */
  lemma FieldsRoundTrip(hh: string, sep: string, mm: string, ss: string, h: int, m: int, c: int, s: int)
    requires |hh| >= 2 && |mm| == 2 && |ss| == 2
    requires AllDigits(hh) && AllDigits(mm) && AllDigits(ss)
    requires DigitsValue(hh) == h && DigitsValue(mm) == m && DigitsValue(ss) == c
    requires s == 3600 * h + 60 * m + c
    ensures ParseElapsed(hh + sep + mm + sep + ss, sep) == Some(s)
  {
    ParseShape(hh, sep, mm, ss);
    ReadBack(hh, sep, mm, ss, h, m, c, s);
  }

  lemma ReadBack(hh: string, sep: string, mm: string, ss: string, h: int, m: int, c: int, s: int)
    requires AllDigits(hh) && AllDigits(mm) && AllDigits(ss)
    requires DigitsValue(hh) == h && DigitsValue(mm) == m && DigitsValue(ss) == c
    requires s == 3600 * h + 60 * m + c
    ensures ReadFields(hh, sep, mm, sep, ss, sep) == Some(s)
  {
  }

  /** A text of the shape `hh sep mm sep ss` reads as its three fields. */
  lemma ParseShape(hh: string, sep: string, mm: string, ss: string)
    requires |hh| >= 2 && |mm| == 2 && |ss| == 2
    ensures ParseElapsed(hh + sep + mm + sep + ss, sep) == ReadFields(hh, sep, mm, sep, ss, sep)
  {
    FiveSlices(hh, sep, mm, ss);
  }

  /** Slicing a text of the shape `hh sep mm sep ss` from the right, with
      two-character `mm` and `ss`. */
  lemma FiveSlices(hh: string, sep: string, mm: string, ss: string)
    requires |hh| >= 2 && |mm| == 2 && |ss| == 2
    ensures var f, w := hh + sep + mm + sep + ss, |sep|;
      && |f| >= 6 + 2 * w
      && f[..|f| - 4 - 2 * w] == hh
      && f[|f| - 4 - 2 * w..|f| - 4 - w] == sep
      && f[|f| - 4 - w..|f| - 2 - w] == mm
      && f[|f| - 2 - w..|f| - 2] == sep
      && f[|f| - 2..] == ss
  {
    var f := hh + sep + mm + sep + ss;
    var a, b, c, d := |hh|, |hh| + |sep|, |hh| + |sep| + 2, |hh| + 2 * |sep| + 2;
    assert f[..a] == hh;
    assert f[a..b] == sep;
    assert f[b..c] == mm;
    assert f[c..d] == sep;
    assert f[d..] == ss;
  }

  /** Two-digit padding of a count below 100 is exactly two characters wide,
      and never narrower for larger ones. */
  lemma PaddedWidth(n: int)
    requires n >= 0
    ensures |Pad2(n)| >= 2
    ensures n < 100 ==> |Pad2(n)| == 2
  {
    if n < 100 {
      assert Pow10(2) == 100;
      NatToStringLength(n, 2);
    }
  }

  /** Zero-padding a decimal keeps its value and its digits. */
  lemma PaddedValue(n: int)
    requires n >= 0
    ensures AllDigits(Pad2(n)) && DigitsValue(Pad2(n)) == n
  {
    var t := NatToString(n);
    NatToStringRoundTrip(n);
    if |t| < 2 {
      LeadingZeros(Repeat('0', 2 - |t|), t);
    }
  }

  /** Leading zeros do not change the value of a digit string. */
  lemma {:induction false} LeadingZeros(z: string, t: string)
    requires forall i | 0 <= i < |z| :: z[i] == '0'
    requires AllDigits(t)
    ensures AllDigits(z + t) && DigitsValue(z + t) == DigitsValue(t)
    decreases |t|
  {
    if t == [] {
      assert z + t == z;
      ZerosValue(z);
    } else {
      var u := z + t;
      assert u[..|u| - 1] == z + t[..|t| - 1];
      LeadingZeros(z, t[..|t| - 1]);
    }
  }

  lemma {:induction false} ZerosValue(z: string)
    requires forall i | 0 <= i < |z| :: z[i] == '0'
    ensures DigitsValue(z) == 0
  {
    if z != [] {
      ZerosValue(z[..|z| - 1]);
    }
  }
}
