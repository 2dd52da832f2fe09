/**
 * adjustColorBrightness: reads the red, green and blue channels of a `#rrggbb` or `rgb(...)` colour,
 * moves each by `factor * 255`, rounds, clamps to [0, 255] and prints `rgb(r, g, b)`.
 * A channel that does not parse is NaN (`None`), which survives the arithmetic and prints as `NaN`.
 */
module Colors {
  import opened Wrappers
  import opened Text

  /** The channels read from a colour; `None` is NaN. */
  datatype Rgb = Rgb(r: Option<int>, g: Option<int>, b: Option<int>)

  const TypeErrorMessage := "Cannot read properties of null (reading '0')"

  // ---------------------------------------------------------------------------
  // parseInt(text, 16)
  // ---------------------------------------------------------------------------

  /** The white space and line terminators `parseInt` skips before the number. */
  predicate IsJsSpace(c: char)
  {
    var n := c as int;
    n == 0x09 || n == 0x0A || n == 0x0B || n == 0x0C || n == 0x0D || n == 0x20 || n == 0xA0
    || n == 0x1680 || (0x2000 <= n <= 0x200A) || n == 0x2028 || n == 0x2029 || n == 0x202F
    || n == 0x205F || n == 0x3000 || n == 0xFEFF
  }

  predicate IsHexDigit(c: char)
  {
    IsAsciiDigit(c) || 'a' <= c <= 'f' || 'A' <= c <= 'F'
  }

  /** The value of a hexadecimal digit (0 for any other character, which is never asked for). */
  function HexDigitValue(c: char): (v: nat)
    ensures v < 16
  {
    if IsAsciiDigit(c) then c as int - '0' as int
    else if 'a' <= c <= 'f' then c as int - 'a' as int + 10
    else if 'A' <= c <= 'F' then c as int - 'A' as int + 10
    else 0
  }

  function HexValue(s: string): (v: nat)
  {
    if s == [] then 0 else 16 * HexValue(s[..|s| - 1]) + HexDigitValue(s[|s| - 1])
  }

  function TrimStart(s: string): (t: string)
    ensures |t| <= |s|
  {
    if s != [] && IsJsSpace(s[0]) then TrimStart(s[1..]) else s
  }

  /** The length of the longest prefix of `s` made of hexadecimal digits. */
  function LeadingHexDigits(s: string): (n: nat)
    ensures n <= |s|
  {
    if s != [] && IsHexDigit(s[0]) then 1 + LeadingHexDigits(s[1..]) else 0
  }

  /** `parseInt(s, 16)`: leading white space, an optional sign, an optional `0x`, then hex digits. */
  function ParseHex(s: string): Option<int>
  {
    var t := TrimStart(s);
    var negative := t != [] && t[0] == '-';
    var unsigned := if t != [] && (t[0] == '-' || t[0] == '+') then t[1..] else t;
    var digits := if |unsigned| >= 2 && unsigned[0] == '0' && (unsigned[1] == 'x' || unsigned[1] == 'X')
                  then unsigned[2..] else unsigned;
    var n := LeadingHexDigits(digits);
    if n == 0 then None
    else if negative then Some(-(HexValue(digits[..n]) as int))
    else Some(HexValue(digits[..n]))
  }

  /** Two hexadecimal digits read as one channel in [0, 255]. */
  lemma ParseHexPair(hi: char, lo: char)
    requires IsHexDigit(hi) && IsHexDigit(lo)
    ensures ParseHex([hi, lo]) == Some(16 * HexDigitValue(hi) + HexDigitValue(lo))
    ensures 0 <= ParseHex([hi, lo]).value <= 255
  {
    var s := [hi, lo];
    assert TrimStart(s) == s;
    assert s[1..] == [lo] && s[1..][1..] == [];
    assert LeadingHexDigits(s[1..]) == 1;
    assert LeadingHexDigits(s) == 2;
    assert s[..2] == s && s[..1] == [hi];
    assert HexValue([hi]) == HexDigitValue(hi);
    assert HexValue(s) == 16 * HexDigitValue(hi) + HexDigitValue(lo);
  }

  /** `s.substr(start, length)` for non-negative arguments. */
  function Substr(s: string, start: nat, length: nat): (t: string)
    ensures |t| <= length
  {
    var from := if start < |s| then start else |s|;
    var to := if start + length < |s| then start + length else |s|;
    s[from..to]
  }

  /** The channels of a colour that starts with `#`. */
  function HexChannels(color: string): Rgb
  {
    Rgb(ParseHex(Substr(color, 1, 2)), ParseHex(Substr(color, 3, 2)), ParseHex(Substr(color, 5, 2)))
  }

  // ---------------------------------------------------------------------------
  // color.match(/\d+/g)
  // ---------------------------------------------------------------------------

  /** The length of the longest prefix of `s` made of decimal digits. */
  function LeadingDigits(s: string): (n: nat)
    ensures n <= |s|
    ensures forall k :: 0 <= k < n ==> IsAsciiDigit(s[k])
    ensures n < |s| ==> !IsAsciiDigit(s[n])
  {
    if s != [] && IsAsciiDigit(s[0]) then 1 + LeadingDigits(s[1..]) else 0
  }

  /** The maximal runs of decimal digits of `s`, left to right (the matches of `/\d+/g`). */
  function Runs(s: string): (runs: seq<string>)
    ensures forall i :: 0 <= i < |runs| ==> |runs[i]| > 0 && AllDigits(runs[i])
    decreases |s|
  {
    if s == [] then []
    else if !IsAsciiDigit(s[0]) then Runs(s[1..])
    else
      var n := LeadingDigits(s);
      [s[..n]] + Runs(s[n..])
  }

  /** `parseInt(match[i])`: NaN when there is no i-th run. */
  function RunValue(runs: seq<string>, i: nat): Option<int>
    requires forall j :: 0 <= j < |runs| ==> AllDigits(runs[j])
  {
    if i < |runs| then
      assert AllDigits(runs[i]);
      Some(DecimalValue(runs[i]))
    else None
  }

  /** The channels of a colour that starts with `rgb`; `None` when there is no digit at all. */
  function RgbChannels(color: string): (c: Option<Rgb>)
    ensures c.None? <==> Runs(color) == []
  {
    var runs := Runs(color);
    assert forall j :: 0 <= j < |runs| ==> AllDigits(runs[j]);
    if runs == [] then None
    else Some(Rgb(RunValue(runs, 0), RunValue(runs, 1), RunValue(runs, 2)))
  }

  lemma {:induction false} RunsSkip(prefix: string, s: string)
    requires forall k :: 0 <= k < |prefix| ==> !IsAsciiDigit(prefix[k])
    ensures Runs(prefix + s) == Runs(s)
  {
    if prefix != [] {
      assert (prefix + s)[0] == prefix[0];
      assert (prefix + s)[1..] == prefix[1..] + s;
      RunsSkip(prefix[1..], s);
      assert Runs(prefix + s) == Runs((prefix + s)[1..]);
    } else {
      assert prefix + s == s;
    }
  }

  lemma {:induction false} LeadingDigitsOf(digits: string, s: string)
    requires AllDigits(digits)
    requires s == [] || !IsAsciiDigit(s[0])
    ensures LeadingDigits(digits + s) == |digits|
  {
    if digits != [] {
      assert (digits + s)[1..] == digits[1..] + s;
      LeadingDigitsOf(digits[1..], s);
    }
  }

  lemma RunsNumber(digits: string, s: string)
    requires |digits| > 0 && AllDigits(digits)
    requires s == [] || !IsAsciiDigit(s[0])
    ensures Runs(digits + s) == [digits] + Runs(s)
  {
    LeadingDigitsOf(digits, s);
    assert (digits + s)[..|digits|] == digits;
    assert (digits + s)[|digits|..] == s;
  }

  // ---------------------------------------------------------------------------
  // Adjusting and printing
  // ---------------------------------------------------------------------------

  /** `Math.round`: halves go up. */
  function Round(x: real): (n: int)
    ensures x - 0.5 < n as real <= x + 0.5
  {
    (x + 0.5).Floor
  }

  function Clamp(n: int): (c: int)
    ensures 0 <= c <= 255
    ensures 0 <= n <= 255 ==> c == n
    ensures n < 0 ==> c == 0
    ensures n > 255 ==> c == 255
  {
    if n > 255 then 255 else if n < 0 then 0 else n
  }

  /** `Math.min(255, Math.max(0, Math.round(v + factor * 255)))`; NaN stays NaN. */
  function Shift(channel: Option<int>, factor: real): (s: Option<int>)
    ensures s.None? <==> channel.None?
    ensures s.Some? ==> 0 <= s.value <= 255
  {
    match channel
    case None => None
    case Some(v) => Some(Clamp(Round(v as real + factor * 255.0)))
  }

  function ShiftAll(c: Rgb, factor: real): Rgb
  {
    Rgb(Shift(c.r, factor), Shift(c.g, factor), Shift(c.b, factor))
  }

  predicate InRange(c: Option<int>)
  {
    c.Some? ==> 0 <= c.value <= 255
  }

  /** The decimal text of a channel as a template literal prints it. */
  function Show(c: Option<int>): (s: string)
    ensures c.Some? && c.value >= 0 ==> s == NatToString(c.value)
  {
    match c
    case None => "NaN"
    case Some(v) => if v >= 0 then NatToString(v) else "-" + NatToString(-v)
  }

  /** `rgb(${r}, ${g}, ${b})`. */
  function Render(c: Rgb): string
  {
    "rgb(" + Show(c.r) + ", " + Show(c.g) + ", " + Show(c.b) + ")"
  }

  /** `s.replace(")", text)`: the first `)` only. */
  function ReplaceFirstParen(s: string, text: string): (t: string)
    ensures ')' !in s ==> t == s
  {
    if s == [] then []
    else if s[0] == ')' then text + s[1..]
    else [s[0]] + ReplaceFirstParen(s[1..], text)
  }

  /**
   * The `hsl` branch: `hsl` becomes `hsla` and the first `)` becomes `, ${1 + factor})`.
   * `show` is the number-to-text conversion of the alpha value.
   */
  function Hsla(color: string, factor: real, show: real -> string): string
    requires StartsWith(color, "hsl")
  {
    ReplaceFirstParen("hsla" + color[3..], ", " + show(1.0 + factor) + ")")
  }

  /** adjustColorBrightness(color, factor): the new colour, or the TypeError an `rgb` colour without digits raises. */
  function AdjustColorBrightness(color: string, factor: real, show: real -> string): (r: Result<string, string>)
    ensures StartsWith(color, "#") ==> r == Success(Render(ShiftAll(HexChannels(color), factor)))
    ensures !StartsWith(color, "#") && StartsWith(color, "rgb") ==>
      if Runs(color) == [] then r == Failure(TypeErrorMessage)
      else r == Success(Render(ShiftAll(RgbChannels(color).value, factor)))
    ensures !StartsWith(color, "#") && !StartsWith(color, "rgb") && StartsWith(color, "hsl") ==>
      r == Success(Hsla(color, factor, show))
    ensures !StartsWith(color, "#") && !StartsWith(color, "rgb") && !StartsWith(color, "hsl") ==>
      r == Success(color)
  {
    if StartsWith(color, "#") then Success(Render(ShiftAll(HexChannels(color), factor)))
    else if StartsWith(color, "rgb") then
      match RgbChannels(color)
      case None => Failure(TypeErrorMessage)
      case Some(c) => Success(Render(ShiftAll(c, factor)))
    else if StartsWith(color, "hsl") then Success(Hsla(color, factor, show))
    else Success(color)
  }

  // ---------------------------------------------------------------------------
  // Properties
  // ---------------------------------------------------------------------------

  /** A zero factor leaves a channel in [0, 255] as it is. */
  lemma ShiftByZero(c: Option<int>)
    requires InRange(c)
    ensures Shift(c, 0.0) == c
  {
    if c.Some? {
      assert Round(c.value as real) == c.value;
    }
  }

  /** A larger factor never darkens a channel. */
  lemma ShiftMonotone(c: Option<int>, f1: real, f2: real)
    requires c.Some? && f1 <= f2
    ensures Shift(c, f1).value <= Shift(c, f2).value
  {
    var x1 := c.value as real + f1 * 255.0;
    var x2 := c.value as real + f2 * 255.0;
    assert x1 <= x2;
    assert (x1 + 0.5).Floor <= (x2 + 0.5).Floor;
  }

  lemma RgbTextNested(a: string, b: string, d: string)
    ensures "rgb(" + a + ", " + b + ", " + d + ")" == "rgb(" + (a + (", " + (b + (", " + (d + ")")))))
  {
  }

  /** A run of digits followed by a separator and more text. */
  lemma RunsNumberThenSeparator(digits: string, sep: string, rest: string)
    requires |digits| > 0 && AllDigits(digits)
    requires |sep| > 0 && forall k :: 0 <= k < |sep| ==> !IsAsciiDigit(sep[k])
    ensures Runs(digits + (sep + rest)) == [digits] + Runs(rest)
  {
    RunsSkip(sep, rest);
    assert (sep + rest)[0] == sep[0];
    RunsNumber(digits, sep + rest);
  }

  /** The digit runs of `rgb(a, b, d)` are `a`, `b` and `d`. */
  lemma RunsOfTriple(a: string, b: string, d: string)
    requires |a| > 0 && AllDigits(a) && |b| > 0 && AllDigits(b) && |d| > 0 && AllDigits(d)
    ensures Runs("rgb(" + a + ", " + b + ", " + d + ")") == [a, b, d]
  {
    var tail3 := d + (")" + []);
    var tail2 := b + (", " + tail3);
    var tail1 := a + (", " + tail2);
    RunsNumberThenSeparator(d, ")", []);
    RunsNumberThenSeparator(b, ", ", tail3);
    RunsNumberThenSeparator(a, ", ", tail2);
    RunsSkip("rgb(", tail1);
    RgbTextNested(a, b, d);
    assert ")" + [] == ")";
  }

  /** The printed colour reads back, through `/\d+/g`, as the same three channels. */
  lemma RenderReadsBack(c: Rgb)
    requires c.r.Some? && c.g.Some? && c.b.Some?
    requires InRange(c.r) && InRange(c.g) && InRange(c.b)
    ensures StartsWith(Render(c), "rgb") && !StartsWith(Render(c), "#")
    ensures RgbChannels(Render(c)) == Some(c)
  {
    RunsOfTriple(Show(c.r), Show(c.g), Show(c.b));
    assert Render(c)[..3] == "rgb";
  }

  /** Adjusting an already adjusted colour by zero gives it back unchanged. */
  lemma AdjustByZeroIsStable(color: string, factor: real, show: real -> string)
    requires StartsWith(color, "#") || (StartsWith(color, "rgb") && Runs(color) != [])
    requires var c := if StartsWith(color, "#") then HexChannels(color) else RgbChannels(color).value;
      c.r.Some? && c.g.Some? && c.b.Some?
    ensures AdjustColorBrightness(color, factor, show).Success?
    ensures var t := AdjustColorBrightness(color, factor, show).value;
      AdjustColorBrightness(t, 0.0, show) == Success(t)
  {
    var c := if StartsWith(color, "#") then HexChannels(color) else RgbChannels(color).value;
    var shifted := ShiftAll(c, factor);
    assert AdjustColorBrightness(color, factor, show) == Success(Render(shifted));
    RenderReadsBack(shifted);
    ShiftByZero(shifted.r);
    ShiftByZero(shifted.g);
    ShiftByZero(shifted.b);
  }

  /** Two hexadecimal digits at `i` and `i + 1` read as one channel. */
  lemma HexChannelAt(color: string, i: nat)
    requires i + 2 <= |color| && IsHexDigit(color[i]) && IsHexDigit(color[i + 1])
    ensures ParseHex(Substr(color, i, 2)) == Some(16 * HexDigitValue(color[i]) + HexDigitValue(color[i + 1]))
  {
    assert Substr(color, i, 2) == [color[i], color[i + 1]];
    ParseHexPair(color[i], color[i + 1]);
  }

  /** A well-formed `#rrggbb` colour yields three parsed channels in [0, 255]. */
  lemma HexColorChannels(color: string)
    requires |color| == 7 && color[0] == '#'
    requires IsHexDigit(color[1]) && IsHexDigit(color[2]) && IsHexDigit(color[3])
    requires IsHexDigit(color[4]) && IsHexDigit(color[5]) && IsHexDigit(color[6])
    ensures HexChannels(color) == Rgb(Some(16 * HexDigitValue(color[1]) + HexDigitValue(color[2])),
                                      Some(16 * HexDigitValue(color[3]) + HexDigitValue(color[4])),
                                      Some(16 * HexDigitValue(color[5]) + HexDigitValue(color[6])))
  {
    HexChannelAt(color, 1);
    HexChannelAt(color, 3);
    HexChannelAt(color, 5);
  }

  /** `#ff0000` reads as pure red. */
  lemma PureRedChannels()
    ensures HexChannels("#ff0000") == Rgb(Some(255), Some(0), Some(0))
  {
    assert "#ff0000" == ['#', 'f', 'f', '0', '0', '0', '0'];
    TwoDigitColor('f', '0');
  }

  /** `#hhllll`: the red channel doubles `hi`, green and blue double `lo`. */
  lemma TwoDigitColor(hi: char, lo: char)
    requires IsHexDigit(hi) && IsHexDigit(lo)
    ensures var v := HexChannels(['#', hi, hi, lo, lo, lo, lo]);
      v == Rgb(Some(17 * HexDigitValue(hi)), Some(17 * HexDigitValue(lo)), Some(17 * HexDigitValue(lo)))
  {
    HexColorChannels(['#', hi, hi, lo, lo, lo, lo]);
  }

  /** Moving pure red by -20%: 255 - 51 = 204, and 0 - 51 clamps to 0. */
  lemma PureRedDarkened()
    ensures ShiftAll(Rgb(Some(255), Some(0), Some(0)), -0.2) == Rgb(Some(204), Some(0), Some(0))
  {
    assert Round(255.0 + -0.2 * 255.0) == 204;
    assert Round(0.0 + -0.2 * 255.0) == -51;
  }

  lemma RenderDarkRed()
    ensures Render(Rgb(Some(204), Some(0), Some(0))) == "rgb(204, 0, 0)"
  {
    assert NatToString(204) == "204" && NatToString(0) == "0";
  }

  /** Darkening pure red by 20% gives `rgb(204, 0, 0)`. */
  lemma DarkenRed(show: real -> string)
    ensures AdjustColorBrightness("#ff0000", -0.2, show) == Success("rgb(204, 0, 0)")
  {
    assert StartsWith("#ff0000", "#");
    PureRedChannels();
    PureRedDarkened();
    RenderDarkRed();
  }

  /** A colour that is neither `#`, `rgb` nor `hsl` comes back unchanged, e.g. a named colour. */
  lemma NamedColorUnchanged(show: real -> string)
    ensures AdjustColorBrightness("red", 0.3, show) == Success("red")
  {
    assert "red"[..1] != "#" && "red"[..3] != "rgb" && "red"[..3] != "hsl" by {
      assert "red"[..1][0] != "#"[0];
      assert "red"[..3][2] != "rgb"[2] && "red"[..3][0] != "hsl"[0];
    }
  }

  /** `rgb` followed by no digit at all makes `match` return null, and indexing it throws. */
  lemma RgbWithoutDigitsThrows(show: real -> string)
    ensures AdjustColorBrightness("rgb(a, b, c)", 0.1, show) == Failure(TypeErrorMessage)
  {
    var color := "rgb(a, b, c)";
    assert !StartsWith(color, "#") by { assert color[..1][0] != "#"[0]; }
    assert StartsWith(color, "rgb");
    RunsSkip(color, []);
    assert color + [] == color;
  }
}
