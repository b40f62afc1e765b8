/** shadeColor in aprender.js: reads the three two-digit hexadecimal
    channels of a '#RRGGBB' colour and moves each one a percentage of the
    way towards black (negative percent) or white (non-negative percent). */
module Shade {
  import opened Builtins

  function HexDigit(c: char): (d: Option<int>)
    ensures d.Some? ==> 0 <= d.value < 16
  {
    if '0' <= c <= '9' then Some(c as int - '0' as int)
    else if 'a' <= c <= 'f' then Some(c as int - 'a' as int + 10)
    else if 'A' <= c <= 'F' then Some(c as int - 'A' as int + 10)
    else None
  }

  /** parseInt(s, 16) on the at most two characters a channel substring
      holds: the value of its leading hexadecimal digits, or None (NaN) when
      it does not start with one. */
  function ParseChannel(s: string): (v: Option<int>)
    requires |s| <= 2
    ensures v.Some? ==> 0 <= v.value <= 255
  {
    if |s| == 0 || HexDigit(s[0]).None? then None
    else if |s| == 2 && HexDigit(s[1]).Some? then Some(16 * HexDigit(s[0]).value + HexDigit(s[1]).value)
    else HexDigit(s[0])
  }

  /** String.prototype.substring(a, b) for 0 <= a <= b: both ends clamped
      to the length. */
  function Substring(s: string, a: nat, b: nat): (r: string)
    requires a <= b
    ensures |r| <= b - a
  {
    s[MinInt(a, |s|)..MinInt(b, |s|)]
  }

  /** One channel: Math.round((t - c) * p) + c with t = 0 or 255 and
      p = |percent| / 100. */
  function ShadeChannel(c: int, percent: real): int
  {
    var t := if percent < 0.0 then 0 else 255;
    var p := Abs(percent) / 100.0;
    Round((t - c) as real * p) + c
  }

  /** The three output channels; None stands for NaN. */
  datatype Rgb = Rgb(r: Option<int>, g: Option<int>, b: Option<int>)

  function ShadeOpt(c: Option<int>, percent: real): Option<int>
  {
    match c
    case None => None
    case Some(v) => Some(ShadeChannel(v, percent))
  }

  function ShadeColor(hex: string, percent: real): Rgb
  {
    var f := if |hex| >= 1 then hex[1..] else "";
    var r := ParseChannel(Substring(f, 0, 2));
    var g := ParseChannel(Substring(f, 2, 4));
    var b := ParseChannel(Substring(f, 4, 6));
    Rgb(ShadeOpt(r, percent), ShadeOpt(g, percent), ShadeOpt(b, percent))
  }

  /** A channel of 0..255 moves towards 0 for a negative percent and towards
      255 otherwise, stays where it is at 0%, reaches the end at -100% and
      100%, and never leaves 0..255 while |percent| <= 100. */
  lemma ShadeChannelFacts(c: int, percent: real)
    requires 0 <= c <= 255
    ensures percent == 0.0 ==> ShadeChannel(c, percent) == c
    ensures -100.0 <= percent < 0.0 ==> 0 <= ShadeChannel(c, percent) <= c
    ensures 0.0 <= percent <= 100.0 ==> c <= ShadeChannel(c, percent) <= 255
    ensures percent == -100.0 ==> ShadeChannel(c, percent) == 0
    ensures percent == 100.0 ==> ShadeChannel(c, percent) == 255
  {
    if -100.0 <= percent < 0.0 {
      ShadeDown(c, percent);
    } else if 0.0 <= percent <= 100.0 {
      ShadeUp(c, percent);
    }
  }

  lemma ShadeDown(c: int, percent: real)
    requires 0 <= c <= 255 && -100.0 <= percent < 0.0
    ensures 0 <= ShadeChannel(c, percent) <= c
    ensures percent == -100.0 ==> ShadeChannel(c, percent) == 0
  {
    var p := Abs(percent) / 100.0;
    assert 0.0 < p <= 1.0 && (percent == -100.0 ==> p == 1.0);
    MoveWithin(0 - c, p);
  }

  lemma ShadeUp(c: int, percent: real)
    requires 0 <= c <= 255 && 0.0 <= percent <= 100.0
    ensures c <= ShadeChannel(c, percent) <= 255
    ensures percent == 0.0 ==> ShadeChannel(c, percent) == c
    ensures percent == 100.0 ==> ShadeChannel(c, percent) == 255
  {
    var p := Abs(percent) / 100.0;
    assert 0.0 <= p <= 1.0 && (percent == 0.0 ==> p == 0.0) && (percent == 100.0 ==> p == 1.0);
    MoveWithin(255 - c, p);
  }

  /** Moving a rounded fraction p of the distance e stays between 0 and e,
      and covers all of it at p = 1 and none of it at p = 0. */
  lemma MoveWithin(e: int, p: real)
    requires 0.0 <= p <= 1.0
    ensures e >= 0 ==> 0 <= Round(e as real * p) <= e
    ensures e <= 0 ==> e <= Round(e as real * p) <= 0
    ensures p == 1.0 ==> Round(e as real * p) == e
    ensures p == 0.0 ==> Round(e as real * p) == 0
  {
    var d := e as real * p;
    if e >= 0 {
      ScaleWithin(e as real, p);
      RoundWithin(d, 0, e);
    } else {
      ScaleWithin(-e as real, p);
      assert d == -((-e) as real * p);
      RoundWithin(d, e, 0);
    }
  }

  lemma ScaleWithin(x: real, p: real)
    requires x >= 0.0 && 0.0 <= p <= 1.0
    ensures 0.0 <= x * p <= x
  {
    assert x * p <= x * 1.0;
  }

  // ---------------------------------------------------------------------
  // Writing a colour, to state what reading one gives back.

  function HexChar(d: int): char
    requires 0 <= d < 16
  {
    if d < 10 then ('0' as int + d) as char else ('A' as int + d - 10) as char
  }

  /** Two upper-case hexadecimal digits. */
  function HexPair(v: int): (s: string)
    requires 0 <= v <= 255
    ensures |s| == 2
  {
    [HexChar(v / 16), HexChar(v % 16)]
  }

  lemma HexCharDigit(d: int)
    requires 0 <= d < 16
    ensures HexDigit(HexChar(d)) == Some(d)
  {
  }

  /** Reading two written digits gives the channel back. */
  lemma ParseHexPair(v: int)
    requires 0 <= v <= 255
    ensures ParseChannel(HexPair(v)) == Some(v)
  {
    HexCharDigit(v / 16);
    HexCharDigit(v % 16);
  }

  /** For a well-formed '#RRGGBB' colour every channel is read and shaded;
      at 0% the colour comes back unchanged, and for |percent| <= 100 every
      output channel lies in 0..255. */
  lemma ShadeWellFormed(r: int, g: int, b: int, percent: real)
    requires 0 <= r <= 255 && 0 <= g <= 255 && 0 <= b <= 255
    ensures ShadeColor("#" + HexPair(r) + HexPair(g) + HexPair(b), percent)
      == Rgb(Some(ShadeChannel(r, percent)), Some(ShadeChannel(g, percent)), Some(ShadeChannel(b, percent)))
    ensures percent == 0.0 ==>
      ShadeColor("#" + HexPair(r) + HexPair(g) + HexPair(b), percent) == Rgb(Some(r), Some(g), Some(b))
    ensures -100.0 <= percent <= 100.0 ==>
      0 <= ShadeChannel(r, percent) <= 255 && 0 <= ShadeChannel(g, percent) <= 255 && 0 <= ShadeChannel(b, percent) <= 255
  {
    var hex := "#" + HexPair(r) + HexPair(g) + HexPair(b);
    var f := hex[1..];
    assert f == HexPair(r) + HexPair(g) + HexPair(b);
    assert Substring(f, 0, 2) == HexPair(r);
    assert Substring(f, 2, 4) == HexPair(g);
    assert Substring(f, 4, 6) == HexPair(b);
    ParseHexPair(r);
    ParseHexPair(g);
    ParseHexPair(b);
    ShadeChannelFacts(r, percent);
    ShadeChannelFacts(g, percent);
    ShadeChannelFacts(b, percent);
  }
}
