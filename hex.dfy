/** JavaScript's `Number.prototype.toString(16)` on non-negative integers and
    `String.prototype.padStart`, as the scene and the playground use them to
    build CSS colours. */
module Hex {

  /** The digits `toString(16)` writes, lower case. */
  const Digits: string := "0123456789abcdef"

  /** 16 to the power `k`. */
  function Pow16(k: nat): (p: nat)
    ensures p >= 1
  {
    if k == 0 then 1 else 16 * Pow16(k - 1)
  }

  /** `n.toString(16)`: the shortest hexadecimal numeral for `n`. */
  function ToHex(n: nat): (s: string)
    ensures |s| >= 1
    ensures forall i :: 0 <= i < |s| ==> s[i] in Digits
    decreases n
  {
    if n < 16 then [Digits[n]] else ToHex(n / 16) + [Digits[n % 16]]
  }

  /** The value of a hexadecimal digit; 0 for any other character. */
  function DigitValue(c: char): (v: nat)
    ensures v < 16
  {
    if '0' <= c <= '9' then (c - '0') as nat
    else if 'a' <= c <= 'f' then (c - 'a') as nat + 10
    else 0
  }

  /** The number a hexadecimal numeral denotes. */
  function FromHex(s: string): nat {
    if s == [] then 0 else FromHex(s[..|s| - 1]) * 16 + DigitValue(s[|s| - 1])
  }

  lemma DigitsRead(d: nat)
    requires d < 16
    ensures DigitValue(Digits[d]) == d
  {
  }

  /** Reading back the numeral `toString(16)` writes gives the number. */
  lemma {:induction false} HexRoundTrip(n: nat)
    ensures FromHex(ToHex(n)) == n
    decreases n
  {
    DigitsRead(n % 16);
    if n >= 16 {
      HexRoundTrip(n / 16);
      var s := ToHex(n);
      assert s[..|s| - 1] == ToHex(n / 16);
    }
  }

  /** The numeral has no leading zero, and at most `k` digits when n < 16^k. */
  lemma {:induction false} HexLength(n: nat, k: nat)
    requires 1 <= k && n < Pow16(k)
    ensures |ToHex(n)| <= k
    ensures |ToHex(n)| > 1 ==> ToHex(n)[0] != '0'
    decreases n
  {
    if n >= 16 {
      assert Pow16(1) == 16;
      assert k >= 2;
      HexLength(n / 16, k - 1);
      assert ToHex(n)[0] == ToHex(n / 16)[0];
      if |ToHex(n / 16)| == 1 {
        assert ToHex(n / 16) == [Digits[n / 16]];
        assert n / 16 >= 1;
      }
    }
  }

  /** A numeral with exactly `k` digits denotes a number below 16^k. */
  lemma {:induction false} FromHexBelow(s: string)
    ensures FromHex(s) < Pow16(|s|)
  {
    if s != [] {
      FromHexBelow(s[..|s| - 1]);
    }
  }

  /** `s.padStart(width, fill)`: `s` preceded by enough `fill` characters to make
      it `width` long; `s` itself when it is already that long. */
  function PadStart(s: string, width: nat, fill: char): (r: string)
    ensures |r| == if |s| >= width then |s| else width
    ensures r[|r| - |s|..] == s
    ensures forall i :: 0 <= i < |r| - |s| ==> r[i] == fill
  {
    if |s| >= width then s else seq(width - |s|, _ => fill) + s
  }

  /** Leading zeros do not change the value of a numeral. */
  lemma {:induction false} LeadingZeros(z: nat, s: string)
    ensures FromHex(seq(z, _ => '0') + s) == FromHex(s)
    decreases |s|
  {
    if s == [] {
      ZerosRead(z);
      assert seq(z, _ => '0') + s == seq(z, _ => '0');
    } else {
      var init := s[..|s| - 1];
      LeadingZeros(z, init);
      assert (seq(z, _ => '0') + s)[..z + |s| - 1] == seq(z, _ => '0') + init;
    }
  }

  lemma {:induction false} ZerosRead(z: nat)
    ensures FromHex(seq(z, _ => '0')) == 0
  {
    if z > 0 {
      ZerosRead(z - 1);
      assert seq(z, _ => '0')[..z - 1] == seq(z - 1, _ => '0');
    }
  }

  /** A CSS colour `#rrggbb`: the hexadecimal numeral padded with zeros to six digits. */
  function CssColor(color: nat): string {
    "#" + PadStart(ToHex(color), 6, '0')
  }

  /** Every 24-bit colour becomes exactly seven characters, and the six digits
      read back as the colour. */
  lemma CssColorRoundTrip(color: nat)
    requires color < 0x1000000
    ensures |CssColor(color)| == 7 && CssColor(color)[0] == '#'
    ensures FromHex(CssColor(color)[1..]) == color
  {
    var padded := PadStart(ToHex(color), 6, '0');
    PaddedReads(color);
    assert CssColor(color) == "#" + padded;
    assert CssColor(color)[1..] == padded;
  }

  /** Six zero-padded digits of a 24-bit colour read back as the colour. */
  lemma PaddedReads(color: nat)
    requires color < 0x1000000
    ensures |PadStart(ToHex(color), 6, '0')| == 6
    ensures FromHex(PadStart(ToHex(color), 6, '0')) == color
  {
    assert Pow16(6) == 0x1000000;
    HexLength(color, 6);
    var h := ToHex(color);
    assert PadStart(h, 6, '0') == seq(6 - |h|, _ => '0') + h;
    LeadingZeros(6 - |h|, h);
    HexRoundTrip(color);
  }
}
