/** The arithmetic of the DuoTrivia charts (duotrivia/js/charts.js): the colour helper `_rgba`,
    the bar heights of `drawBars`, the slices and legend percentages of `drawPie`, and the
    points of `drawLine`. Canvas drawing itself is not modelled; lengths and angles are exact
    reals, and angles are measured in turns (a full circle is 1) so that no π appears. */
module Charts {
  import opened Wrappers
  import opened JsText
  import opened Numeric

  // ---------------------------------------------------------------- colours

  /** The position of the first occurrence of `c` in `s`. */
  function FirstIndex(s: string, c: char): (k: nat)
    requires c in s
    ensures k < |s| && s[k] == c && c !in s[..k]
  {
    if s[0] == c then 0
    else
      var k := FirstIndex(s[1..], c);
      assert s[..k + 1] == [s[0]] + s[1..][..k];
      k + 1
  }

  /** Past a first character other than `c`, removing the first `c` from the rest and putting
      the first character back removes the first `c` from the whole text. */
  lemma RemoveFirstTail(s: string, c: char, rest: string)
    requires s != [] && s[0] != c && c in s
    requires c in s[1..] && rest == s[1..][..FirstIndex(s[1..], c)] + s[1..][FirstIndex(s[1..], c) + 1..]
    ensures [s[0]] + rest == s[..FirstIndex(s, c)] + s[FirstIndex(s, c) + 1..]
  {
    var k := FirstIndex(s[1..], c);
    assert s == [s[0]] + s[1..];
    assert FirstIndex(s, c) == k + 1;
    assert s[..k + 1] == [s[0]] + s[1..][..k];
    assert s[k + 2..] == s[1..][k + 1..];
  }

  /** `s.replace(c, '')` with a one-character pattern: only the first occurrence goes. */
  function RemoveFirst(s: string, c: char): (r: string)
    ensures c !in s ==> r == s
    ensures c in s ==> r == s[..FirstIndex(s, c)] + s[FirstIndex(s, c) + 1..]
    ensures |r| == if c in s then |s| - 1 else |s|
  {
    if s == [] then []
    else if s[0] == c then
      assert FirstIndex(s, c) == 0 && s[..0] + s[1..] == s[1..];
      s[1..]
    else
      var rest := RemoveFirst(s[1..], c);
      if c in s then
        assert c in s[1..] by {
          assert s == [s[0]] + s[1..];
        }
        RemoveFirstTail(s, c, rest);
        [s[0]] + rest
      else
        assert c !in s[1..] && [s[0]] + s[1..] == s;
        [s[0]] + rest
  }

  /** `s.substring(start, end)` for `start <= end`: both ends are clamped to the length. */
  function Substring(s: string, start: nat, end: nat): (r: string)
    requires start <= end
    ensures end <= |s| ==> r == s[start..end]
    ensures start < |s| < end ==> r == s[start..]
    ensures start >= |s| ==> r == []
  {
    var i := if start <= |s| then start else |s|;
    var j := if end <= |s| then end else |s|;
    s[i..j]
  }

  /** The length of the longest prefix of hexadecimal digits. */
  function HexRun(s: string): (n: nat)
    ensures n <= |s|
    ensures AllHexDigits(s[..n])
    ensures n < |s| ==> !IsHexDigit(s[n])
    ensures AllHexDigits(s) ==> n == |s|
  {
    if s != [] && IsHexDigit(s[0]) then
      var k := HexRun(s[1..]);
      assert s[..k + 1] == [s[0]] + s[1..][..k];
      k + 1
    else 0
  }

  /** `parseInt(s, 16)`: leading white space is skipped, then an optional sign and an optional
      `0x`/`0X` prefix; the longest run of hexadecimal digits that follows is the value, and
      without any digit the result is NaN (`None`). */
  function ParseIntHex(s: string): (r: Option<int>)
    ensures s == [] ==> r.None?
    ensures |s| >= 1 && AllHexDigits(s) ==> r == Some(HexValue(s))
  {
    var t := TrimStart(s);
    var negative := t != [] && t[0] == '-';
    var u := if t != [] && (t[0] == '-' || t[0] == '+') then t[1..] else t;
    var v := if |u| >= 2 && u[0] == '0' && (u[1] == 'x' || u[1] == 'X') then u[2..] else u;
    var n := HexRun(v);
    if |s| >= 1 && AllHexDigits(s) then
      assert t == s by {
        assert !IsSpace(s[0]);
      }
      assert v[..n] == s;
      Some(HexValue(s))
    else if n == 0 then None
    else
      var magnitude: int := HexValue(v[..n]);
      Some(if negative then -magnitude else magnitude)
  }

  /** A channel as a template literal renders it: the number, or "NaN". */
  function ChannelText(c: Option<int>): string {
    match c
    case None => "NaN"
    case Some(n) => IntToString(n)
  }

  /** The three parsed channels of a colour. */
  datatype Channels = Channels(red: Option<int>, green: Option<int>, blue: Option<int>)

  /** The channels `_rgba` reads from a colour: the first `#` removed, then characters 0-1,
      2-3 and 4-5 parsed as hexadecimal. */
  function ParseChannels(hex: string): (c: Channels)
    ensures var s := RemoveFirst(hex, '#');
            c == Channels(ParseIntHex(Substring(s, 0, 2)), ParseIntHex(Substring(s, 2, 4)),
                          ParseIntHex(Substring(s, 4, 6)))
    ensures |RemoveFirst(hex, '#')| < 5 ==> c.blue.None?
  {
    var s := RemoveFirst(hex, '#');
    Channels(ParseIntHex(Substring(s, 0, 2)), ParseIntHex(Substring(s, 2, 4)),
             ParseIntHex(Substring(s, 4, 6)))
  }

  /** `_rgba(hex, a)`: the CSS colour `rgba(r,g,b,a)`; `alpha` is the text of the number `a`. */
  function Rgba(hex: string, alpha: string): (r: string)
    ensures |r| >= |alpha| + 2 && r[|r| - 1] == ')' && r[|r| - |alpha| - 2] == ','
    ensures r[|r| - |alpha| - 1..|r| - 1] == alpha
  {
    var c := ParseChannels(hex);
    RgbaText(ChannelText(c.red), ChannelText(c.green), ChannelText(c.blue), alpha)
  }

  /** The text `rgba(red,green,blue,alpha)`; the alpha is its last field. */
  function RgbaText(red: string, green: string, blue: string, alpha: string): (r: string)
    ensures |r| >= |alpha| + 2 && r[|r| - 1] == ')' && r[|r| - |alpha| - 2] == ','
    ensures r[|r| - |alpha| - 1..|r| - 1] == alpha
  {
    var x := "rgba(" + red + "," + green + "," + blue;
    var y := x + ",";
    var z := y + alpha;
    assert (z + ")")[..|z|] == z && z[|y|..] == alpha && y[|x|] == ',';
    z + ")"
  }

  /** The lower-case hexadecimal digit of a value below 16. */
  function HexChar(d: nat): (c: char)
    requires d < 16
    ensures IsHexDigit(c) && HexDigitValue(c) == d
  {
    if d < 10 then ('0' as int + d) as char else ('a' as int + d - 10) as char
  }

  /** The two-digit hexadecimal text of a byte. */
  function HexPair(n: nat): (s: string)
    requires n < 256
    ensures |s| == 2 && AllHexDigits(s)
  {
    [HexChar(n / 16), HexChar(n % 16)]
  }

  /** Two hexadecimal digits are read back as the byte they were written from. */
  lemma HexPairValue(n: nat)
    requires n < 256
    ensures HexValue(HexPair(n)) == n
  {
    var s := HexPair(n);
    assert s[..1][..0] == [];
    assert HexValue(s[..1]) == n / 16;
  }

  /** Two hexadecimal digits never exceed a byte. */
  lemma HexPairBound(s: string)
    requires |s| == 2 && AllHexDigits(s)
    ensures HexValue(s) < 256
  {
    assert s[..1][..0] == [];
    assert HexValue(s[..1]) == HexDigitValue(s[0]);
  }

  /** The colour `#rrggbb` of three bytes. */
  function HexColor(r: nat, g: nat, b: nat): (s: string)
    requires r < 256 && g < 256 && b < 256
    ensures |s| == 7 && s[0] == '#'
  {
    "#" + HexPair(r) + HexPair(g) + HexPair(b)
  }

  /** Every `#` followed by six hexadecimal digits gives three channels that are bytes. */
  lemma ChannelsAreBytes(digits: string)
    requires |digits| == 6 && AllHexDigits(digits)
    ensures var c := ParseChannels("#" + digits);
            c.red.Some? && c.green.Some? && c.blue.Some? &&
            0 <= c.red.value < 256 && 0 <= c.green.value < 256 && 0 <= c.blue.value < 256
  {
    assert RemoveFirst("#" + digits, '#') == digits;
    HexPairBound(digits[0..2]);
    HexPairBound(digits[2..4]);
    HexPairBound(digits[4..6]);
  }

  /** The channels of `#rrggbb` are the three bytes it was written from. */
  lemma HexColorChannels(r: nat, g: nat, b: nat)
    requires r < 256 && g < 256 && b < 256
    ensures ParseChannels(HexColor(r, g, b)) == Channels(Some(r), Some(g), Some(b))
  {
    var digits := HexPair(r) + HexPair(g) + HexPair(b);
    assert HexColor(r, g, b) == "#" + digits;
    assert RemoveFirst(HexColor(r, g, b), '#') == digits;
    assert digits[0..2] == HexPair(r);
    assert digits[2..4] == HexPair(g);
    assert digits[4..6] == HexPair(b);
    HexPairValue(r);
    HexPairValue(g);
    HexPairValue(b);
  }

  /** `_rgba` reads back the bytes a `#rrggbb` colour was written from. */
  lemma RgbaOfHexColor(r: nat, g: nat, b: nat, alpha: string)
    requires r < 256 && g < 256 && b < 256
    ensures Rgba(HexColor(r, g, b), alpha) ==
            "rgba(" + NatToString(r) + "," + NatToString(g) + "," + NatToString(b) + "," + alpha + ")"
  {
    HexColorChannels(r, g, b);
    var c := ParseChannels(HexColor(r, g, b));
    assert ChannelText(c.red) == NatToString(r);
    assert ChannelText(c.green) == NatToString(g);
    assert ChannelText(c.blue) == NatToString(b);
  }

  /** The two chart colours name the bytes they are meant to: green `#3ddc97` for right
      answers and red `#ff3860` for wrong ones. */
  lemma ChartColours()
    ensures ParseChannels("#3ddc97") == Channels(Some(61), Some(220), Some(151))
    ensures ParseChannels("#ff3860") == Channels(Some(255), Some(56), Some(96))
  {
    assert HexColor(61, 220, 151) == "#3ddc97";
    assert HexColor(255, 56, 96) == "#ff3860";
    HexColorChannels(61, 220, 151);
    HexColorChannels(255, 56, 96);
  }

  // ---------------------------------------------------------------- bars

  /** `drawBars`' scale `Math.max(1, correct, incorrect)`. */
  function MaxVal(correct: int, incorrect: int): (m: int)
    ensures m >= 1 && m >= correct && m >= incorrect
    ensures m == 1 || m == correct || m == incorrect
  {
    if correct >= incorrect && correct >= 1 then correct
    else if incorrect >= 1 then incorrect
    else 1
  }

  /** The height of a bar as a fraction of the chart height: `value / maxVal`. */
  function BarFraction(value: int, maxVal: int): (f: real)
    requires maxVal >= 1
    ensures f * maxVal as real == value as real
  {
    value as real / maxVal as real
  }

  /** Both bars fit the chart, and when either count is positive the larger bar is exactly the
      full height. */
  lemma BarsFit(correct: nat, incorrect: nat)
    ensures var m := MaxVal(correct, incorrect);
            0.0 <= BarFraction(correct, m) <= 1.0 && 0.0 <= BarFraction(incorrect, m) <= 1.0
    ensures var m := MaxVal(correct, incorrect);
            correct >= 1 && correct >= incorrect ==> BarFraction(correct, m) == 1.0
    ensures var m := MaxVal(correct, incorrect);
            incorrect >= 1 && incorrect >= correct ==> BarFraction(incorrect, m) == 1.0
    ensures correct == 0 && incorrect == 0 ==>
            BarFraction(correct, MaxVal(correct, incorrect)) == 0.0 &&
            BarFraction(incorrect, MaxVal(correct, incorrect)) == 0.0
  {
    var m := MaxVal(correct, incorrect);
    FractionAtMostOne(correct, m);
    FractionAtMostOne(incorrect, m);
  }

  lemma FractionAtMostOne(v: nat, m: int)
    requires m >= 1 && v <= m
    ensures 0.0 <= v as real / m as real <= 1.0
  {
    var q := v as real / m as real;
    assert q * m as real == v as real;
  }

  // ---------------------------------------------------------------- pie

  /** `drawPie`'s total `Math.max(0, correct + incorrect)`. */
  function PieTotal(correct: int, incorrect: int): (t: int)
    ensures t >= 0 && t >= correct + incorrect
    ensures correct + incorrect >= 0 ==> t == correct + incorrect
  {
    if correct + incorrect > 0 then correct + incorrect else 0
  }

  /** The share of the circle a slice takes: `value / total`, and 0 without a total. */
  function SliceFraction(value: int, total: int): (f: real)
    ensures 0 <= value <= total ==> 0.0 <= f <= 1.0
    ensures 0 < value == total ==> f == 1.0
    ensures total <= 0 ==> f == 0.0
  {
    if total > 0 && 0 <= value <= total then
      FractionAtMostOne(value, total);
      value as real / total as real
    else if total > 0 then value as real / total as real
    else 0.0
  }

  /** The two slices start a quarter turn back and, when there is any answer, close the circle
      exactly; without answers they are both empty. Angles are in turns. */
  lemma SlicesCoverCircle(correct: nat, incorrect: nat)
    ensures var t := PieTotal(correct, incorrect);
            var start := -0.25;
            var mid := start + SliceFraction(correct, t);
            var end := mid + SliceFraction(incorrect, t);
            (t > 0 ==> end == start + 1.0) && (t == 0 ==> mid == start && end == start)
    ensures var t := PieTotal(correct, incorrect);
            0.0 <= SliceFraction(correct, t) <= 1.0 && 0.0 <= SliceFraction(incorrect, t) <= 1.0
  {
    var t := PieTotal(correct, incorrect);
    if t > 0 {
      var total := t as real;
      assert total == correct as real + incorrect as real;
      assert correct as real / total + incorrect as real / total == (correct as real + incorrect as real) / total;
      assert SliceFraction(correct, t) + SliceFraction(incorrect, t) == total / total == 1.0;
    }
  }

  /** The legend's `total > 0 ? Math.round((value / total) * 100) : 0`. */
  function LegendPercent(value: int, total: int): (p: int)
    ensures total <= 0 ==> p == 0
    ensures 0 <= value <= total ==> 0 <= p <= 100
  {
    PercentInRangeIfShare(value, total);
    Percent(value, total)
  }

  lemma PercentInRangeIfShare(value: int, total: int)
    ensures 0 <= value <= total ==> 0 <= Percent(value, total) <= 100
  {
    if 0 <= value <= total {
      PercentInRange(value, total);
    }
  }

  /** The two legend percentages add up to 100 or, when both shares end in exactly one half,
      to 101; without answers both are 0. */
  lemma LegendPercentsSum(correct: nat, incorrect: nat)
    ensures var t := PieTotal(correct, incorrect);
            var sum := LegendPercent(correct, t) + LegendPercent(incorrect, t);
            (t > 0 ==> sum == 100 || sum == 101) && (t == 0 ==> sum == 0)
  {
    var t := PieTotal(correct, incorrect);
    if t > 0 {
      var p := RoundHalfUp(100 * correct, t);
      var q := RoundHalfUp(100 * incorrect, t);
      assert 2 * t * (p + q) <= 202 * t;
      MulStrict(2 * t, p + q, 102);
      assert 198 * t < 2 * t * (p + q);
      MulStrict(2 * t, 99, p + q);
    }
  }

  /** The legend rounds half-way shares up, so two equal-halves slices make 101: one right and
      seven wrong answers show 13% and 88%. */
  lemma LegendCanSumTo101()
    ensures LegendPercent(1, PieTotal(1, 7)) == 13 && LegendPercent(7, PieTotal(1, 7)) == 88
  {
    PercentExactRounded(1, 8, 13);
    PercentExactRounded(7, 8, 88);
  }

  lemma PercentExactRounded(part: int, whole: int, p: int)
    requires whole > 0 && 2 * whole * p <= 200 * part + whole < 2 * whole * p + 2 * whole
    ensures Percent(part, whole) == p
  {
    var r := RoundHalfUp(100 * part, whole);
    MulStrict(2 * whole, r, p + 1);
    MulStrict(2 * whole, p, r + 1);
  }

  // ---------------------------------------------------------------- line

  /** `Math.max(0, Math.min(100, v))`: a series value clamped to the 0-100% axis. */
  function Clamp100(v: real): (c: real)
    ensures 0.0 <= c <= 100.0
    ensures 0.0 <= v <= 100.0 ==> c == v
    ensures v < 0.0 ==> c == 0.0
    ensures v > 100.0 ==> c == 100.0
  {
    if v > 100.0 then 100.0 else if v < 0.0 then 0.0 else v
  }

  /** The horizontal step between points: the width spread over `n - 1` gaps, or 0 for a
      single point. */
  function StepX(chartW: real, n: nat): (d: real)
    ensures n > 1 ==> d * (n - 1) as real == chartW
    ensures n <= 1 ==> d == 0.0
  {
    if n > 1 then chartW / (n - 1) as real else 0.0
  }

  /** The position of point `i`: `originX + i * stepX`, and `originY` less the clamped value's
      share of the chart height. */
  function PointX(originX: real, chartW: real, n: nat, i: nat): (x: real)
    ensures i == 0 ==> x == originX
    ensures n > 1 ==> (x - originX) * (n - 1) as real == i as real * chartW
  {
    var d := StepX(chartW, n);
    assert n > 1 ==> (i as real * d) * (n - 1) as real == i as real * (d * (n - 1) as real);
    originX + i as real * d
  }

  function PointY(originY: real, chartH: real, v: real): (y: real)
    ensures 0.0 <= v <= 100.0 ==> (originY - y) * 100.0 == v * chartH
  {
    originY - (Clamp100(v) / 100.0) * chartH
  }

  /** Every point stays inside the plot: between the axis and the top of the chart vertically,
      and from the first to the last point horizontally, the last point sitting on the right
      end of the axis. */
  lemma PointsInPlot(originX: real, originY: real, chartW: real, chartH: real, n: nat, i: nat, v: real)
    requires chartW >= 0.0 && chartH >= 0.0 && i < n
    ensures originY - chartH <= PointY(originY, chartH, v) <= originY
    ensures originX <= PointX(originX, chartW, n, i) <= originX + chartW
    ensures n > 1 ==> PointX(originX, chartW, n, n - 1) == originX + chartW
  {
    PointYInPlot(originY, chartH, v);
    if n > 1 {
      PointXInPlot(originX, chartW, n, i);
    }
  }

  lemma PointYInPlot(originY: real, chartH: real, v: real)
    requires chartH >= 0.0
    ensures originY - chartH <= PointY(originY, chartH, v) <= originY
  {
    var f := Clamp100(v) / 100.0;
    assert 0.0 <= f <= 1.0;
    assert 0.0 <= f * chartH <= chartH;
  }

  lemma PointXInPlot(originX: real, chartW: real, n: nat, i: nat)
    requires chartW >= 0.0 && 1 < n && i < n
    ensures originX <= PointX(originX, chartW, n, i) <= originX + chartW
    ensures PointX(originX, chartW, n, n - 1) == originX + chartW
  {
    var step := chartW / (n - 1) as real;
    assert step * (n - 1) as real == chartW;
    assert 0.0 <= step;
    assert 0.0 <= i as real * step <= (n - 1) as real * step;
  }
}
