/** `adjustBrightness` of `src/pages/CustomKnife.tsx`: read a `#rrggbb` colour as
    a hexadecimal number, add an amount to each of its three 8-bit channels with
    clamping to [0, 255], and print the result back as `#` and six lower-case
    hexadecimal digits. */
module Color {
  import opened Wrappers

  predicate IsHexDigit(c: char)
  {
    '0' <= c <= '9' || 'a' <= c <= 'f' || 'A' <= c <= 'F'
  }

  predicate IsLowerHexDigit(c: char)
  {
    '0' <= c <= '9' || 'a' <= c <= 'f'
  }

  predicate AllHex(s: string)
  {
    forall i :: 0 <= i < |s| ==> IsHexDigit(s[i])
  }

  function DigitValue(c: char): (r: nat)
    requires IsHexDigit(c)
    ensures r < 16
  {
    if '0' <= c <= '9' then c as int - '0' as int
    else if 'a' <= c <= 'f' then c as int - 'a' as int + 10
    else c as int - 'A' as int + 10
  }

  /** The lower-case digit `toString(16)` prints for a value below 16. */
  function DigitChar(d: nat): (c: char)
    requires d < 16
    ensures IsLowerHexDigit(c) && IsHexDigit(c) && DigitValue(c) == d
  {
    if d < 10 then (d + '0' as int) as char else (d - 10 + 'a' as int) as char
  }

  function Pow16(k: nat): (r: nat)
    ensures r >= 1
  {
    if k == 0 then 1 else 16 * Pow16(k - 1)
  }

  /** The number a string of hexadecimal digits denotes. */
  function HexValue(s: string): nat
    requires AllHex(s)
  {
    if s == [] then 0 else HexValue(s[..|s| - 1]) * 16 + DigitValue(s[|s| - 1])
  }

  /** Length of the longest prefix made of hexadecimal digits. */
  function HexPrefixLength(s: string): (k: nat)
    ensures k <= |s| && AllHex(s[..k])
    ensures k < |s| ==> !IsHexDigit(s[k])
  {
    if s == [] || !IsHexDigit(s[0]) then 0
    else
      var k := 1 + HexPrefixLength(s[1..]);
      assert s[..k] == [s[0]] + s[1..][..k - 1];
      k
  }

  /** The value of the leading hexadecimal digits, or `None` when there are none. */
  function ParseHexDigits(s: string): (r: Option<nat>)
    ensures r.None? <==> (s == [] || !IsHexDigit(s[0]))
  {
    var k := HexPrefixLength(s);
    if k == 0 then None else Some(HexValue(s[..k]))
  }

  predicate StartsWithSign(s: string)
  {
    |s| > 0 && (s[0] == '-' || s[0] == '+')
  }

  /** `parseInt(s, 16)` on text without leading blanks or `0x`: an optional sign, then the
      leading hexadecimal digits; `None` (NaN) when no digit follows the sign. */
  function ParseHex(s: string): (r: Option<int>)
    ensures var body := if StartsWithSign(s) then s[1..] else s;
      r.None? <==> (body == [] || !IsHexDigit(body[0]))
    ensures r.Some? && !(|s| > 0 && s[0] == '-') ==> r.value >= 0
    ensures r.Some? && |s| > 0 && s[0] == '-' ==> r.value <= 0
  {
    if |s| > 0 && s[0] == '-' then
      match ParseHexDigits(s[1..]) case None => None case Some(v) => Some(-(v as int))
    else if |s| > 0 && s[0] == '+' then ParseHexDigits(s[1..])
    else ParseHexDigits(s)
  }

  /** A `-` negates what the digits after it spell, a `+` changes nothing, and text that
      starts with a digit is read as its digits. */
  lemma ParseHexSign(body: string)
    requires body != [] && IsHexDigit(body[0])
    ensures ParseHex(body) == Some(ParseHexDigits(body).value)
    ensures ParseHex("-" + body) == Some(-(ParseHexDigits(body).value as int))
    ensures ParseHex("+" + body) == Some(ParseHexDigits(body).value)
  {
    assert ("-" + body)[1..] == body;
    assert ("+" + body)[1..] == body;
  }

  /** `color.replace('#', '')`: removes the first `#` only. */
  function RemoveFirstHash(s: string): (r: string)
    ensures '#' !in s ==> r == s
    ensures |s| > 0 && s[0] == '#' ==> r == s[1..]
  {
    if s == [] then [] else if s[0] == '#' then s[1..] else [s[0]] + RemoveFirstHash(s[1..])
  }

  /** JavaScript's ToInt32, applied to the left operand of `>>` and `&`: NaN becomes 0, and
      any other integer wraps to the signed 32-bit value that agrees with it modulo 2^32. */
  function ToInt32(n: Option<int>): (r: int)
    ensures -0x8000_0000 <= r < 0x8000_0000
    ensures n.None? ==> r == 0
    ensures n.Some? ==> (r - n.value) % 0x1_0000_0000 == 0
    ensures n.Some? && -0x8000_0000 <= n.value < 0x8000_0000 ==> r == n.value
  {
    if n.None? then 0
    else
      var m := n.value % 0x1_0000_0000;
      if m >= 0x8000_0000 then m - 0x1_0000_0000 else m
  }

  /** `Math.min(255, Math.max(0, v))`. */
  function Clamp(v: int): (r: int)
    ensures 0 <= r <= 255
    ensures 0 <= v <= 255 ==> r == v
  {
    if v < 0 then 0 else if v > 255 then 255 else v
  }

  /** `n.toString(16)` for a non-negative integer. */
  function ToHex(n: nat): (r: string)
    ensures |r| >= 1
    ensures forall i :: 0 <= i < |r| ==> IsLowerHexDigit(r[i]) && IsHexDigit(r[i])
  {
    if n < 16 then [DigitChar(n)] else ToHex(n / 16) + [DigitChar(n % 16)]
  }

  /** `s.padStart(width, '0')`. */
  function PadStart(s: string, width: nat): (r: string)
    ensures |r| == if |s| >= width then |s| else width
  {
    if |s| >= width then s else seq(width - |s|, _ => '0') + s
  }

  /** The three channels of the parsed number, each moved by `amount` and clamped. */
  function Channels(num: Option<int>, amount: int): (r: (int, int, int))
    ensures IsBytes(r)
  {
    var x := ToInt32(num);
    (Clamp(x / 0x1_0000 + amount), Clamp((x / 0x100) % 0x100 + amount), Clamp(x % 0x100 + amount))
  }

  /** `adjustBrightness(color, amount)`. */
  function AdjustBrightness(color: string, amount: int): (r: string)
    ensures |r| >= 7 && r[0] == '#'
  {
    var hex := RemoveFirstHash(color);
    var num := ParseHex(hex);
    Render(Pack(Channels(num, amount)))
  }

  predicate IsBytes(ch: (int, int, int))
  {
    0 <= ch.0 < 0x100 && 0 <= ch.1 < 0x100 && 0 <= ch.2 < 0x100
  }

  /** `(r << 16) | (g << 8) | b` for three bytes. */
  function Pack(ch: (int, int, int)): int
  {
    ch.0 * 0x1_0000 + ch.1 * 0x100 + ch.2
  }

  /** `'#' + n.toString(16).padStart(6, '0')`. */
  function Render(n: nat): string
  {
    "#" + PadStart(ToHex(n), 6)
  }

  // ---------------------------------------------------------------------------
  // Proofs

  lemma {:induction false} HexValueAppend(a: string, b: string)
    requires AllHex(a) && AllHex(b)
    ensures AllHex(a + b)
    ensures HexValue(a + b) == HexValue(a) * Pow16(|b|) + HexValue(b)
    decreases |b|
  {
    if b == [] {
      assert a + b == a;
    } else {
      var ab := a + b;
      var init := b[..|b| - 1];
      assert ab[..|ab| - 1] == a + init;
      HexValueAppend(a, init);
      Regroup(HexValue(a), Pow16(|init|), HexValue(init), DigitValue(b[|b| - 1]));
    }
  }

  lemma Regroup(h: int, p: int, t: int, d: int)
    ensures (h * p + t) * 16 + d == h * (16 * p) + (t * 16 + d)
  {
  }

  lemma {:induction false} HexValueBound(s: string)
    requires AllHex(s)
    ensures HexValue(s) < Pow16(|s|)
  {
    if s != [] {
      HexValueBound(s[..|s| - 1]);
    }
  }

  lemma {:induction false} ZerosValue(k: nat)
    ensures AllHex(seq(k, _ => '0')) && HexValue(seq(k, _ => '0')) == 0
  {
    if k > 0 {
      assert seq(k, _ => '0')[..k - 1] == seq(k - 1, _ => '0');
      ZerosValue(k - 1);
    }
  }

  /** `toString(16)` is read back exactly, and a value below 16^k takes at most k digits. */
  lemma {:induction false} ToHexSpec(n: nat, k: nat)
    requires 1 <= k && n < Pow16(k)
    ensures AllHex(ToHex(n)) && HexValue(ToHex(n)) == n
    ensures |ToHex(n)| <= k
  {
    var r := ToHex(n);
    if n >= 16 {
      assert Pow16(1) == 16;
      assert k >= 2;
      assert n / 16 < Pow16(k - 1);
      ToHexSpec(n / 16, k - 1);
      assert r[..|r| - 1] == ToHex(n / 16);
    }
  }

  /** A value below 2^24 prints as exactly six digits that read back as the value. */
  lemma SixDigits(n: nat)
    requires n < 0x100_0000
    ensures |PadStart(ToHex(n), 6)| == 6
    ensures AllHex(PadStart(ToHex(n), 6)) && HexValue(PadStart(ToHex(n), 6)) == n
  {
    assert Pow16(6) == 0x100_0000;
    ToHexSpec(n, 6);
    var h := ToHex(n);
    if |h| < 6 {
      ZerosValue(6 - |h|);
      HexValueAppend(seq(6 - |h|, _ => '0'), h);
    }
  }

  /** Zero padding keeps a string of lower-case digits lower-case. */
  lemma PaddedLower(h: string, width: nat)
    requires forall i :: 0 <= i < |h| ==> IsLowerHexDigit(h[i])
    ensures forall i :: 0 <= i < |PadStart(h, width)| ==> IsLowerHexDigit(PadStart(h, width)[i])
  {
    if |h| < width {
      var pad := seq(width - |h|, _ => '0');
      var s := PadStart(h, width);
      assert s == pad + h;
      forall i | 0 <= i < |s| ensures IsLowerHexDigit(s[i]) {
        if i >= |pad| {
          assert s[i] == h[i - |pad|];
        }
      }
    }
  }

  /** Reading the three pairs of a six-digit string. */
  lemma SplitSix(s: string)
    requires |s| == 6 && AllHex(s)
    ensures AllHex(s[..2]) && AllHex(s[2..4]) && AllHex(s[4..])
    ensures HexValue(s) == HexValue(s[..2]) * 0x1_0000 + HexValue(s[2..4]) * 0x100 + HexValue(s[4..])
    ensures HexValue(s[..2]) < 0x100 && HexValue(s[2..4]) < 0x100 && HexValue(s[4..]) < 0x100
  {
    assert Pow16(2) == 0x100 && Pow16(4) == 0x1_0000;
    assert s[..4] == s[..2] + s[2..4];
    assert s == s[..4] + s[4..];
    HexValueAppend(s[..2], s[2..4]);
    HexValueAppend(s[..4], s[4..]);
    HexValueBound(s[..2]);
    HexValueBound(s[2..4]);
    HexValueBound(s[4..]);
  }

  /** Base-256 digits are unique. */
  lemma ThreeBytesUnique(a: int, b: int, c: int, x: int, y: int, z: int)
    requires 0 <= a < 0x100 && 0 <= b < 0x100 && 0 <= c < 0x100
    requires 0 <= x < 0x100 && 0 <= y < 0x100 && 0 <= z < 0x100
    requires a * 0x1_0000 + b * 0x100 + c == x * 0x1_0000 + y * 0x100 + z
    ensures a == x && b == y && c == z
  {
  }

  /** Dividing a three-byte number recovers its bytes. */
  lemma ThreeBytesDiv(a: int, b: int, c: int)
    requires 0 <= a < 0x100 && 0 <= b < 0x100 && 0 <= c < 0x100
    ensures var v := a * 0x1_0000 + b * 0x100 + c;
      v / 0x1_0000 == a && (v / 0x100) % 0x100 == b && v % 0x100 == c
  {
    var v := a * 0x1_0000 + b * 0x100 + c;
    assert v == (a * 0x100 + b) * 0x100 + c;
    assert v / 0x100 == a * 0x100 + b;
  }

  /** `r` is a colour of seven characters whose three digit pairs denote `red`, `green`
      and `blue`. */
  predicate PairsRead(r: string, red: int, green: int, blue: int)
  {
    && |r| == 7 && AllHex(r[1..3]) && AllHex(r[3..5]) && AllHex(r[5..])
    && HexValue(r[1..3]) == red && HexValue(r[3..5]) == green && HexValue(r[5..]) == blue
  }

  /** The result is `#` and six lower-case digits whose pairs are the clamped channels. */
  lemma AdjustBrightnessSpec(color: string, amount: int)
    ensures var r := AdjustBrightness(color, amount);
      && |r| == 7 && r[0] == '#'
      && (forall i :: 1 <= i < 7 ==> IsLowerHexDigit(r[i]))
      && var ch := Channels(ParseHex(RemoveFirstHash(color)), amount);
         PairsRead(r, ch.0, ch.1, ch.2)
  {
    RenderSpec(Channels(ParseHex(RemoveFirstHash(color)), amount));
  }

  /** Three bytes render as `#` and six lower-case digits whose pairs read back as the bytes. */
  lemma RenderSpec(ch: (int, int, int))
    requires IsBytes(ch)
    ensures var r := Render(Pack(ch));
      && |r| == 7 && r[0] == '#'
      && (forall i :: 1 <= i < 7 ==> IsLowerHexDigit(r[i]))
      && PairsRead(r, ch.0, ch.1, ch.2)
  {
    var (red, green, blue) := ch;
    var n := Pack(ch);
    SixDigits(n);
    var s := PadStart(ToHex(n), 6);
    var r := Render(n);
    assert r[1..] == s && r[1..3] == s[..2] && r[3..5] == s[2..4] && r[5..] == s[4..];
    PaddedLower(ToHex(n), 6);
    forall i | 1 <= i < 7 ensures IsLowerHexDigit(r[i]) {
      assert r[i] == s[i - 1];
    }
    SplitSix(s);
    ThreeBytesUnique(HexValue(s[..2]), HexValue(s[2..4]), HexValue(s[4..]), red, green, blue);
  }

  /** For a well-formed `#rrggbb` colour each output pair is the matching input pair plus
      `amount`, clamped to [0, 255]. */
  lemma AdjustWellFormed(color: string, amount: int)
    requires |color| == 7 && color[0] == '#' && AllHex(color[1..])
    ensures AllHex(color[1..3]) && AllHex(color[3..5]) && AllHex(color[5..])
    ensures PairsRead(AdjustBrightness(color, amount), Clamp(HexValue(color[1..3]) + amount),
      Clamp(HexValue(color[3..5]) + amount), Clamp(HexValue(color[5..]) + amount))
  {
    ReadWellFormed(color);
    var num := ParseHex(RemoveFirstHash(color));
    ChannelsOfBytes(num, HexValue(color[1..3]), HexValue(color[3..5]), HexValue(color[5..]), amount);
    AdjustBrightnessSpec(color, amount);
  }

  /** A well-formed `#rrggbb` colour is read as the number its three pairs spell. */
  lemma ReadWellFormed(color: string)
    requires |color| == 7 && color[0] == '#' && AllHex(color[1..])
    ensures AllHex(color[1..3]) && AllHex(color[3..5]) && AllHex(color[5..])
    ensures HexValue(color[1..3]) < 0x100 && HexValue(color[3..5]) < 0x100 && HexValue(color[5..]) < 0x100
    ensures ParseHex(RemoveFirstHash(color)) ==
      Some(HexValue(color[1..3]) * 0x1_0000 + HexValue(color[3..5]) * 0x100 + HexValue(color[5..]))
  {
    var hex := color[1..];
    assert RemoveFirstHash(color) == hex;
    var x, y, z := color[1..3], color[3..5], color[5..];
    assert hex == x + y + z;
    JoinPairs(x, y, z);
    ParseAllHex(hex);
    assert ParseHex(RemoveFirstHash(color)) == Some(HexValue(x + y + z));
  }

  /** Three pairs of hex digits spell the number with those pairs as its bytes. */
  lemma JoinPairs(x: string, y: string, z: string)
    requires |x| == 2 && |y| == 2 && |z| == 2 && AllHex(x + y + z)
    ensures AllHex(x) && AllHex(y) && AllHex(z)
    ensures HexValue(x + y + z) == HexValue(x) * 0x1_0000 + HexValue(y) * 0x100 + HexValue(z)
    ensures HexValue(x) < 0x100 && HexValue(y) < 0x100 && HexValue(z) < 0x100
  {
    var s := x + y + z;
    assert s[..2] == x && s[2..4] == y && s[4..] == z;
    SplitSix(s);
  }

  /** Text made only of hexadecimal digits is read whole. */
  lemma ParseAllHex(s: string)
    requires s != [] && AllHex(s)
    ensures ParseHex(s) == Some(HexValue(s))
  {
    assert HexPrefixLength(s) == |s|;
    assert s[..|s|] == s;
    assert ParseHex(s) == ParseHexDigits(s);
  }

  /** The channels of a parsed three-byte number are its bytes, moved and clamped. */
  lemma ChannelsOfBytes(num: Option<int>, a: int, b: int, c: int, amount: int)
    requires 0 <= a < 0x100 && 0 <= b < 0x100 && 0 <= c < 0x100
    requires num == Some(a * 0x1_0000 + b * 0x100 + c)
    ensures Channels(num, amount) == (Clamp(a + amount), Clamp(b + amount), Clamp(c + amount))
  {
    ThreeBytesDiv(a, b, c);
  }
}
