/** The seven-bit code of the B-news encode and decode programs.

    Three bytes become four six-bit values; the values are collected in groups of thirteen, the thirteenth
    spread as top bits over six pairs of the others, and each 13-bit pair written as two base-91 digits. */
module Codec {

  type Byte = x: int | 0 <= x < 256
  type Six = x: int | 0 <= x < 64
  /** A character of the code, less the space that makes it printable. */
  type Digit = x: int | 0 <= x < 91

  const SPACE := 32
  const MARK: Digit := 90

  // --- the code as functions --------------------------------------------------------------

  /** Four values from three bytes; in the last group the fourth value is the number of bytes instead. */
  function Group4(b0: Byte, b1: Byte, b2: Byte, n: nat): seq<Six>
    requires n <= 3
  {
    [b0 / 4, SecondSix(b0, b1), ThirdSix(b1, b2), if n == 3 then b2 % 64 else n]
  }

  /** The low two bits of one byte and the high four of the next. */
  function SecondSix(b0: Byte, b1: Byte): Six {
    b0 % 4 * 16 + b1 / 16
  }

  /** The low four bits of one byte and the high two of the next. */
  function ThirdSix(b1: Byte, b2: Byte): Six {
    b1 % 16 * 4 + b2 / 64
  }

  /** The values of a whole input.  `stale` is what the three-byte buffer held before. */
  function Sextets(s: seq<Byte>, stale: seq<Byte>): seq<Six>
    requires |stale| == 3
  {
    if |s| >= 3 then Group4(s[0], s[1], s[2], 3) + Sextets(s[3..], s[..3])
    else var b := s + stale[|s|..]; Group4(b[0], b[1], b[2], |s|)
  }

  function Bit5(x: nat): (b: nat)
    ensures b <= 1
  {
    x / 32 % 2
  }

  /** A 13-bit word: two values and a top bit. */
  function Word(hi: Six, lo: Six, top: nat): (c: nat)
    requires top <= 1
    ensures c < 8192
  {
    4096 * top + 64 * hi + lo
  }

  function TwoDigits(c: nat): (ds: seq<Digit>)
    requires c < 8192
    ensures |ds| == 2
  {
    [c / 91, c % 91]
  }

  /** The first `n` values of `buf` from pair `k` on, with the top bits taken from bit 5 of `last`, `2 * last` and so
      on. */
  function PairDigits(buf: seq<Six>, k: nat, n: nat, last: nat): seq<Digit>
    requires |buf| == 13 && n <= 12
    decreases |buf| - k
  {
    if 2 * k >= n then []
    else
      var c := Word(buf[2 * k], buf[2 * k + 1], Bit5(last));
      TwoDigits(c) + PairDigits(buf, k + 1, n, 2 * last)
  }

  /** The first top bits of a group of `n` values. */
  function Last(buf: seq<Six>, n: nat): nat
    requires |buf| == 13
  {
    if n == 13 then buf[12] else if n % 2 == 1 then 32 else 0
  }

  function Dump(buf: seq<Six>, n: nat): seq<Digit>
    requires |buf| == 13 && n <= 13
  {
    PairDigits(buf, 0, if n == 13 then 12 else n, Last(buf, n))
  }

  /** All groups of thirteen, except that the last one, full or not, follows the end marker and its length.
      `buf` is what the group buffer held before: an odd tail is written with one stale value. */
  function Pack(vs: seq<Six>, buf: seq<Six>): seq<Digit>
    requires |buf| == 13
  {
    if |vs| > 13 then Dump(vs[..13], 13) + Pack(vs[13..], vs[..13])
    else [MARK, MARK, |vs|] + Dump(vs + buf[|vs|..], |vs|)
  }

  function Zeros(): seq<Six> {
    [0, 0, 0, 0, 0, 0, 0, 0, 0, 0, 0, 0, 0]
  }

  function Printed(ds: seq<Digit>): (s: seq<Byte>)
    ensures |s| == |ds|
    ensures forall i | 0 <= i < |s| :: SPACE <= s[i] < SPACE + 91 && s[i] - SPACE == ds[i]
  {
    seq(|ds|, i requires 0 <= i < |ds| => SPACE + ds[i])
  }

  /** The output of the encoder for input `s`. */
  function Encoded(s: seq<Byte>, stale: seq<Byte>): seq<Byte>
    requires |stale| == 3
  {
    Printed(Pack(Sextets(s, stale), Zeros()))
  }

  // --- decoding, one unit at a time ---------------------------------------------------------

  /** The units of a stream: runs of twelve digits and a shorter tail.  A marker at the start of a run sets the
      length of the last unit. */
  function Units(ds: seq<Digit>, cnt: nat): (seq<seq<Digit>>, nat) {
    if |ds| >= 3 && ds[0] == MARK && ds[1] == MARK then Units(ds[3..], ds[2])
    else if |ds| >= 12 then
      var (us, n) := Units(ds[12..], cnt);
      ([ds[..12]] + us, n)
    else (if ds == [] then [] else [ds], cnt)
  }

  function Value(d0: Digit, d1: Digit): nat {
    91 * d0 + d1
  }

  function TwoValues(c: nat): (vs: seq<Six>)
    ensures |vs| == 2
  {
    [c / 64 % 64, c % 64]
  }

  function TopBit(c: nat): nat {
    c / 4096 % 2
  }

  function PairValues(u: seq<Digit>): (vs: seq<Six>)
    ensures |vs| == |u| - |u| % 2
  {
    if |u| < 2 then []
    else
      TwoLess(|u|);
      TwoValues(Value(u[0], u[1])) + PairValues(u[2..])
  }

  lemma TwoLess(n: nat)
    requires n >= 2
    ensures (n - 2) % 2 == n % 2
  {}

  function TopBits(u: seq<Digit>, acc: nat): nat {
    if |u| < 2 then acc else TopBits(u[2..], 2 * acc + TopBit(Value(u[0], u[1])))
  }

  /** The values of one unit, the top bits last; `last` cuts the final unit to its length. */
  function UnitValues(u: seq<Digit>, last: nat): seq<nat>
    requires last <= |u| - |u| % 2 + 1
  {
    var vs: seq<nat> := PairValues(u) + [TopBits(u, 0)];
    if last > 0 then vs[..last] else vs
  }

  /** The last unit has an even number of digits and enough values for its stated length.  Otherwise the decoder
      reads memory that it never wrote. */
  predicate Sized(us: seq<seq<Digit>>, last: nat) {
    us == [] || (|us[|us| - 1]| % 2 == 0 && last <= |us[|us| - 1]| + 1)
  }

  function AllValues(us: seq<seq<Digit>>, last: nat): seq<nat>
    requires Sized(us, last)
  {
    if us == [] then []
    else if |us| == 1 then UnitValues(us[0], last)
    else UnitValues(us[0], 0) + AllValues(us[1..], last)
  }

  function Quad(v: seq<nat>): seq<Byte>
    requires |v| == 4
  {
    [Byte0(v[0], v[1]), Byte1(v[1], v[2]), Byte2(v[2], v[3])]
  }

  function Byte0(v0: nat, v1: nat): Byte {
    (4 * v0 + v1 / 16 % 4) % 256
  }

  function Byte1(v1: nat, v2: nat): Byte {
    (16 * v1 + v2 / 4 % 16) % 256
  }

  function Byte2(v2: nat, v3: nat): Byte {
    (64 * v2 + v3 % 64) % 256
  }

  /** Four values to three bytes.  In a marked stream the last value says how many bytes the last group has; a group
      that is cut short is completed from what `buf` held before. */
  function Unpack(vs: seq<nat>, buf: seq<nat>, marked: bool): seq<Byte>
    requires |buf| == 4
  {
    if |vs| > 4 || (|vs| == 4 && !marked) then Quad(vs[..4]) + Unpack(vs[4..], vs[..4], marked)
    else if marked && vs != [] then
      var k := vs[|vs| - 1];
      Quad(vs + buf[|vs|..])[..if k >= 3 then 3 else k]
    else []
  }

  datatype Ending = Done | BadData | Unspecified

  predicate Printable(s: seq<Byte>) {
    forall i | 0 <= i < |s| :: SPACE <= s[i] < SPACE + 91
  }

  function Digits(s: seq<Byte>): (ds: seq<Digit>)
    requires Printable(s)
    ensures |ds| == |s| && forall i | 0 <= i < |s| :: ds[i] == s[i] - SPACE
  {
    seq(|s|, i requires 0 <= i < |s| => s[i] - SPACE)
  }

  /** How the decoder ends on input `s`, and its output if it ends properly. */
  function Decoded(s: seq<Byte>): (Ending, seq<Byte>) {
    if !Printable(s) then (BadData, [])
    else
      var (us, last) := Units(Digits(s), 0);
      if !Sized(us, last) then (Unspecified, [])
      else (Done, Unpack(AllValues(us, last), [0, 0, 0, 0], last > 0))
  }

  // --- decoding inverts encoding ------------------------------------------------------------

  lemma Div64(q: nat, r: nat)
    requires r < 64
    ensures (64 * q + r) / 64 == q && (64 * q + r) % 64 == r
  {}

  lemma Div4096(q: nat, r: nat)
    requires r < 4096
    ensures (4096 * q + r) / 4096 == q
  {}

  /** A word survives its two digits, and is never the marker. */
  lemma WordInverts(hi: Six, lo: Six, top: nat)
    requires top <= 1
    ensures var ds := TwoDigits(Word(hi, lo, top));
            && Value(ds[0], ds[1]) == Word(hi, lo, top) && (ds[0] != MARK || ds[1] != MARK)
    ensures TwoValues(Word(hi, lo, top)) == [hi, lo] && TopBit(Word(hi, lo, top)) == top
  {
    Div64(64 * top + hi, lo);
    Div64(top, hi);
    Div4096(top, 64 * hi + lo);
  }

  lemma UnfoldDigits(buf: seq<Six>, k: nat, n: nat, last: nat)
    requires |buf| == 13 && n <= 12 && 2 * k < n
    ensures PairDigits(buf, k, n, last) ==
            TwoDigits(Word(buf[2 * k], buf[2 * k + 1], Bit5(last))) + PairDigits(buf, k + 1, n, 2 * last)
  {
    hide TwoDigits, Word, Bit5;
  }

  lemma {:induction false} PairsInvert(buf: seq<Six>, k: nat, n: nat, last: nat)
    requires |buf| == 13 && 2 * k <= n <= 12 && n % 2 == 0
    ensures |PairDigits(buf, k, n, last)| == n - 2 * k
    ensures PairValues(PairDigits(buf, k, n, last)) == buf[2 * k..n]
    decreases 12 - k
  {
    hide Word, TwoDigits, Value, TwoValues, Bit5;
    if 2 * k < n {
      PairsInvert(buf, k + 1, n, 2 * last);
      WordInverts(buf[2 * k], buf[2 * k + 1], Bit5(last));
      UnfoldDigits(buf, k, n, last);
      var c, rest := TwoDigits(Word(buf[2 * k], buf[2 * k + 1], Bit5(last))), PairDigits(buf, k + 1, n, 2 * last);
      UnfoldPair(c + rest, 0);
      hide PairDigits, PairValues;
      assert (c + rest)[2..] == rest;
      assert buf[2 * k..n] == [buf[2 * k], buf[2 * k + 1]] + buf[2 * k + 2..n];
    }
  }

  /** `acc`, followed by the first `r` of the six low bits of `last`. */
  function Collected(acc: nat, last: nat, r: nat): nat
    requires r <= 6
  {
    var x := last % 64;
    if r == 0 then acc
    else if r == 1 then 2 * acc + x / 32
    else if r == 2 then 4 * acc + x / 16
    else if r == 3 then 8 * acc + x / 8
    else if r == 4 then 16 * acc + x / 4
    else if r == 5 then 32 * acc + x / 2
    else 64 * acc + x
  }

  lemma CollectBit(acc: nat, last: nat, r: nat)
    requires 0 < r <= 6
    ensures Collected(acc, last, r) == Collected(2 * acc + Bit5(last), 2 * last, r - 1)
  {
    var b := last % 64 / 32;
    Div64(last / 64, last % 64);
    assert Bit5(last) == b;
    assert 2 * last % 64 == 2 * (last % 64 % 32) by { Div64(2 * (last / 64) + b, 2 * (last % 64 % 32)); }
  }

  lemma TopBitsStep(buf: seq<Six>, k: nat, last: nat, acc: nat)
    requires |buf| == 13 && k < 6
    ensures TopBits(PairDigits(buf, k, 12, last), acc)
         == TopBits(PairDigits(buf, k + 1, 12, 2 * last), 2 * acc + Bit5(last))
  {
    hide Word, TwoDigits, Value, TopBit, Bit5;
    var ds := PairDigits(buf, k, 12, last);
    assert ds[2..] == PairDigits(buf, k + 1, 12, 2 * last);
    WordInverts(buf[2 * k], buf[2 * k + 1], Bit5(last));
  }

  lemma {:induction false} TopBitsInvert(buf: seq<Six>, k: nat, last: nat, acc: nat)
    requires |buf| == 13 && k <= 6
    ensures TopBits(PairDigits(buf, k, 12, last), acc) == Collected(acc, last, 6 - k)
    decreases 6 - k
  {
    if k < 6 {
      TopBitsStep(buf, k, last, acc);
      CollectBit(acc, last, 6 - k);
      TopBitsInvert(buf, k + 1, 2 * last, 2 * acc + Bit5(last));
    }
  }

  lemma CollectAll(last: Six, r: nat, acc: nat)
    requires r == 6 && acc == 0
    ensures Collected(acc, last, r) == last
  {}

  lemma TopBitsWhole(buf: seq<Six>, k: nat, last: Six, acc: nat)
    requires |buf| == 13 && k == 0 && acc == 0
    ensures TopBits(PairDigits(buf, k, 12, last), acc) == last
  {
    CollectAll(last, 6 - k, acc);
    TopBitsInvert(buf, k, last, acc);
  }

  lemma {:induction false} OddDigits(buf: seq<Six>, k: nat, n: nat, last: nat)
    requires |buf| == 13 && 2 * k < n < 12 && n % 2 == 1
    ensures PairDigits(buf, k, n, last) == PairDigits(buf, k, n + 1, last)
    decreases n - k
  {
    if 2 * k + 2 < n {
      OddDigits(buf, k + 1, n, 2 * last);
    }
  }

  /** A group of thirteen, read back. */
  lemma ThirteenInvert(buf: seq<Six>)
    requires |buf| == 13
    ensures var u := Dump(buf, 13);
            && |u| == 12 && (u[0] != MARK || u[1] != MARK)
            && UnitValues(u, 0) == buf && UnitValues(u, 13) == buf
  {
    var u := PairDigits(buf, 0, 12, buf[12]);
    hide PairDigits, PairValues, TopBits;
    FirstPair(buf, 0, 12, buf[12]);
    PairsInvert(buf, 0, 12, buf[12]);
    TopBitsWhole(buf, 0, buf[12], 0);
    var vs: seq<nat> := PairValues(u) + [TopBits(u, 0)];
    assert vs == buf[0..12] + [buf[12]] == buf;
    assert vs[..13] == vs;
  }

  lemma EvenDump(buf: seq<Six>, n: nat)
    requires |buf| == 13 && 1 <= n <= 12
    ensures Dump(buf, n) == PairDigits(buf, 0, n + n % 2, Last(buf, n))
  {
    hide PairDigits;
    if n % 2 == 1 {
      OddDigits(buf, 0, n, Last(buf, n));
    }
  }

  lemma FirstPair(buf: seq<Six>, k: nat, n: nat, last: nat)
    requires |buf| == 13 && 2 * k < n <= 12
    ensures var u := PairDigits(buf, k, n, last);
            |u| >= 2 && (u[0] != MARK || u[1] != MARK)
  {
    hide Word, TwoDigits, Value, TopBit, Bit5;
    WordInverts(buf[2 * k], buf[2 * k + 1], Bit5(last));
  }

  /** A shorter group, read back with its length. */
  lemma TailInverts(buf: seq<Six>, n: nat)
    requires |buf| == 13 && 1 <= n <= 12
    ensures var u := Dump(buf, n);
            && |u| == n + n % 2 && (u[0] != MARK || u[1] != MARK)
            && UnitValues(u, n) == buf[..n]
  {
    var m, last := n + n % 2, Last(buf, n);
    assert n <= m <= 12 && m % 2 == 0;
    EvenDump(buf, n);
    hide *;
    FirstPair(buf, 0, m, last);
    PairsInvert(buf, 0, m, last);
    assert buf[0..m][..n] == buf[..n];
    ShortUnit(PairDigits(buf, 0, m, last), n, buf[0..m]);
  }

  lemma ShortUnit(u: seq<Digit>, n: nat, b: seq<nat>)
    requires 0 < n <= |b| && |u| % 2 == 0 && PairValues(u) == b
    ensures UnitValues(u, n) == b[..n]
  {
    hide PairValues, TopBits;
  }

  /** The last group: marker, length, digits. */
  lemma MarkedInverts(d: seq<Digit>, n: nat, cnt: nat)
    requires 1 <= n <= 13 && 2 <= |d| <= 12 && (d[0] != MARK || d[1] != MARK)
    ensures Units([MARK, MARK, n] + d, cnt) == ([d], n)
  {
    var ds := [MARK, MARK, n] + d;
    assert ds[3..] == d;
    if |d| == 12 {
      assert d[12..] == [] && d[..12] == d;
      assert Units(d[12..], n) == ([], n) && [d] + [] == [d];
    }
  }

  /** An inner group: twelve digits that do not look like a marker. */
  lemma InnerUnit(d: seq<Digit>, rest: seq<Digit>, cnt: nat)
    requires |d| == 12 && (d[0] != MARK || d[1] != MARK)
    ensures Units(d + rest, cnt) == ([d] + Units(rest, cnt).0, Units(rest, cnt).1)
  {
    assert (d + rest)[12..] == rest && (d + rest)[..12] == d;
  }

  lemma ConsValues(u: seq<Digit>, us: seq<seq<Digit>>, last: nat)
    requires us != [] && Sized(us, last)
    ensures Sized([u] + us, last) && AllValues([u] + us, last) == UnitValues(u, 0) + AllValues(us, last)
  {
    assert ([u] + us)[1..] == us;
  }

  lemma OneUnit(u: seq<Digit>, last: nat)
    requires Sized([u], last)
    ensures AllValues([u], last) == UnitValues(u, last)
  {}

  /** The unit-wise decoder finds the groups and the length of the last one again. */
  lemma {:induction false} PackInverts(vs: seq<Six>, buf: seq<Six>, cnt: nat)
    requires |buf| == 13 && vs != []
    ensures var (us, last) := Units(Pack(vs, buf), cnt);
            us != [] && last > 0 && Sized(us, last) && AllValues(us, last) == vs
  {
    hide Dump, Units, UnitValues, AllValues;
    if |vs| > 13 {
      var d, rest := Dump(vs[..13], 13), Pack(vs[13..], vs[..13]);
      var (us, last) := Units(rest, cnt);
      PackInverts(vs[13..], vs[..13], cnt);
      ThirteenInvert(vs[..13]);
      InnerUnit(d, rest, cnt);
      ConsValues(d, us, last);
      assert vs == vs[..13] + vs[13..];
    } else {
      var group, n := vs + buf[|vs|..], |vs|;
      if n == 13 {
        ThirteenInvert(group);
      } else {
        TailInverts(group, n);
      }
      MarkedInverts(Dump(group, n), n, cnt);
      assert group[..n] == vs;
      assert AllValues([Dump(group, n)], n) == UnitValues(Dump(group, n), n) by { OneUnit(Dump(group, n), n); }
    }
  }

  lemma FirstByte(b0: Byte, b1: Byte)
    ensures Byte0(b0 / 4, SecondSix(b0, b1)) == b0
  {
    assert SecondSix(b0, b1) / 16 == b0 % 4;
  }

  lemma SecondByte(b0: Byte, b1: Byte, b2: Byte)
    ensures Byte1(SecondSix(b0, b1), ThirdSix(b1, b2)) == b1
  {
    assert ThirdSix(b1, b2) / 4 == b1 % 16;
    assert 16 * SecondSix(b0, b1) == 256 * (b0 % 4) + 16 * (b1 / 16);
  }

  lemma ThirdByte(b1: Byte, b2: Byte)
    ensures Byte2(ThirdSix(b1, b2), b2 % 64) == b2
  {
    assert 64 * ThirdSix(b1, b2) == 256 * (b1 % 16) + 64 * (b2 / 64);
  }

  lemma ThreeBytes(b0: Byte, b1: Byte, b2: Byte)
    ensures Quad(Group4(b0, b1, b2, 3)) == [b0, b1, b2]
  {
    hide Byte0, Byte1, Byte2, SecondSix, ThirdSix;
    FirstByte(b0, b1);
    SecondByte(b0, b1, b2);
    ThirdByte(b1, b2);
  }

  lemma FewBytes(b0: Byte, b1: Byte, b2: Byte, n: nat)
    requires n < 3
    ensures Quad(Group4(b0, b1, b2, n))[..n] == [b0, b1, b2][..n]
  {
    hide Byte0, Byte1, Byte2, SecondSix, ThirdSix;
    FirstByte(b0, b1);
    SecondByte(b0, b1, b2);
  }

  lemma {:induction false} SextetsInvert(s: seq<Byte>, stale: seq<Byte>, buf: seq<nat>)
    requires |stale| == 3 && |buf| == 4
    ensures |Sextets(s, stale)| >= 4
    ensures Unpack(Sextets(s, stale), buf, true) == s
  {
    var vs := Sextets(s, stale);
    if |s| >= 3 {
      SextetsInvert(s[3..], s[..3], vs[..4]);
      ThreeBytes(s[0], s[1], s[2]);
      assert vs[4..] == Sextets(s[3..], s[..3]) && vs[..4] == Group4(s[0], s[1], s[2], 3);
      assert s == [s[0], s[1], s[2]] + s[3..];
    } else {
      var b := s + stale[|s|..];
      FewBytes(b[0], b[1], b[2], |s|);
      assert vs + buf[4..] == vs;
      assert [b[0], b[1], b[2]][..|s|] == s;
    }
  }

  lemma RoundTripFrom(s: seq<Byte>, stale: seq<Byte>, buf: seq<Six>)
    requires |stale| == 3 && |buf| == 13
    ensures Decoded(Printed(Pack(Sextets(s, stale), buf))) == (Done, s)
  {
    hide Sextets, Pack, Units, Unpack, AllValues;
    var vs := Sextets(s, stale);
    SextetsInvert(s, stale, [0, 0, 0, 0]);
    PackInverts(vs, buf, 0);
    assert Digits(Printed(Pack(vs, buf))) == Pack(vs, buf);
  }

  /** Decoding what was encoded gives the input back, for every input and whatever the encoder's buffer held. */
  lemma RoundTrip(s: seq<Byte>, stale: seq<Byte>)
    requires |stale| == 3
    ensures Decoded(Encoded(s, stale)) == (Done, s)
  {
    RoundTripFrom(s, stale, Zeros());
  }

  // --- the programs ---------------------------------------------------------------------------

  /** Whatever is left in the group buffer beyond the values themselves matters only for the last group. */
  lemma {:induction false} PackIgnores(vs: seq<Six>, a: seq<Six>, b: seq<Six>)
    requires |a| == |b| == 13
    requires |vs| <= 13 ==> a[|vs|..] == b[|vs|..]
    ensures Pack(vs, a) == Pack(vs, b)
  {}

  lemma PrintedConcat(a: seq<Digit>, b: seq<Digit>)
    ensures Printed(a + b) == Printed(a) + Printed(b)
  {}

  /** The output of an encoder that has written `out`, holds the first `n` values of `buf` and is to get `rest`. */
  function Final(out: seq<Byte>, buf: seq<Six>, n: nat, rest: seq<Six>): seq<Byte>
    requires |buf| == 13 && n <= 13
  {
    out + Printed(Pack(buf[..n] + rest, buf))
  }

  lemma PutValue(out: seq<Byte>, buf: seq<Six>, n: nat, v: Six, rest: seq<Six>)
    requires |buf| == 13 && n < 13
    ensures Final(out, buf[n := v], n + 1, rest) == Final(out, buf, n, [v] + rest)
  {
    var vs := buf[..n] + ([v] + rest);
    assert buf[n := v][..n + 1] + rest == vs;
    PackIgnores(vs, buf, buf[n := v]);
  }

  lemma FlushGroup(out: seq<Byte>, buf: seq<Six>, rest: seq<Six>)
    requires |buf| == 13 && rest != []
    ensures Final(out, buf, 13, rest) == Final(out + Printed(Dump(buf, 13)), buf, 0, rest)
  {
    var vs := buf[..13] + rest;
    assert vs[..13] == buf && vs[13..] == rest && buf[..0] + rest == rest;
    PrintedConcat(Dump(buf, 13), Pack(rest, buf));
  }

  /** The values still to come from `p` bytes of `b3` and the bytes `rest`. */
  function Coming(b3: seq<Byte>, p: nat, rest: seq<Byte>): seq<Six>
    requires |b3| == 3 && p <= 3
  {
    Sextets(b3[..p] + rest, b3)
  }

  lemma FillByte(b3: seq<Byte>, p: nat, c: Byte, rest: seq<Byte>)
    requires |b3| == 3 && p < 3
    ensures Coming(b3, p, [c] + rest) == Coming(b3[p := c], p + 1, rest)
  {
    assert b3[..p] + ([c] + rest) == b3[p := c][..p + 1] + rest;
  }

  lemma FullTriple(b3: seq<Byte>, rest: seq<Byte>)
    requires |b3| == 3
    ensures Coming(b3, 3, rest) == Group4(b3[0], b3[1], b3[2], 3) + Coming(b3, 0, rest)
  {
    var s := b3[..3] + rest;
    assert s[3..] == rest == b3[..0] + rest && s[..3] == b3;
  }

  lemma LastBytes(b3: seq<Byte>, p: nat)
    requires |b3| == 3 && p < 3
    ensures Coming(b3, p, []) == Group4(b3[0], b3[1], b3[2], p) + []
  {
    assert b3[..p] + [] == b3[..p] && b3[..p] + b3[p..] == b3;
  }

  lemma PairStep(buf: seq<Six>, k: nat, m: nat, last: nat)
    requires |buf| == 13 && 2 * k < m <= 12
    ensures Printed(PairDigits(buf, k, m, last))
         == Printed(TwoDigits(Word(buf[2 * k], buf[2 * k + 1], Bit5(last))))
            + Printed(PairDigits(buf, k + 1, m, 2 * last))
  {
    hide Word, TwoDigits, Bit5;
    PrintedConcat(TwoDigits(Word(buf[2 * k], buf[2 * k + 1], Bit5(last))), PairDigits(buf, k + 1, m, 2 * last));
  }

  lemma PairsEnd(buf: seq<Six>, k: nat, m: nat, last: nat)
    requires |buf| == 13 && m <= 12 && 2 * k >= m
    ensures PairDigits(buf, k, m, last) == [] && Printed([]) == []
  {}

  lemma DumpStart(buf: seq<Six>, n: nat)
    requires |buf| == 13 && n <= 13
    ensures Dump(buf, n) == PairDigits(buf, 0, if n == 13 then 12 else n, Last(buf, n))
  {
    hide PairDigits;
  }

  lemma FlushStep(out: seq<Byte>, buf: seq<Six>, n: nat)
    requires |buf| == 13 && n <= 13
    ensures out + [SPACE + MARK, SPACE + MARK, SPACE + n] + Printed(Dump(buf, n)) == Final(out, buf, n, [])
  {
    assert buf[..n] + [] == buf[..n];
    assert buf[..n] + buf[n..] == buf;
    PrintedConcat([MARK, MARK, n], Dump(buf, n));
    assert Printed([MARK, MARK, n]) == [SPACE + MARK, SPACE + MARK, SPACE + n];
  }

  /** The encode program: its static buffer and count, and its standard output. */
  class Encoder {
    const buffer: array<Six>
    var count: nat
    var out: seq<Byte>

    ghost predicate Valid()
      reads this
    {
      buffer.Length == 13 && count <= 13
    }

    constructor ()
      ensures Valid() && fresh(buffer) && buffer[..] == Zeros() && count == 0 && out == []
    {
      buffer := new Six[13](_ => 0);
      count, out := 0, [];
    }

    method DumpCode(n: nat)
      requires Valid() && n <= 13
      modifies this`out
      ensures out == old(out) + Printed(Dump(buffer[..], n))
    {
      hide PairDigits, Word, TwoDigits, Bit5, Dump, Last, Printed;
      var left: int, last: nat := if n == 13 then 12 else n, Last(buffer[..], n);
      ghost var buf, m := buffer[..], left;
      DumpStart(buf, n);
      ghost var goal := out + Printed(PairDigits(buf, 0, m, last));
      var p: nat := 0;
      ghost var k: nat := 0;
      while left > 0
        invariant left == m - p && p == 2 * k
        invariant out + Printed(PairDigits(buf, k, m, last)) == goal
      {
        PairStep(buf, k, m, last);
        var c := Word(buffer[p], buffer[p + 1], Bit5(last));
        last := 2 * last;
        out := out + Printed(TwoDigits(c));
        p, k, left := p + 2, k + 1, left - 2;
      }
      PairsEnd(buf, k, m, last);
    }

    method FlushOut()
      requires Valid()
      modifies this`out
      ensures out == Final(old(out), buffer[..], count, [])
    {
      FlushStep(out, buffer[..], count);
      out := out + [SPACE + MARK, SPACE + MARK, SPACE + count];
      DumpCode(count);
    }

    /** Adds one group of values; `rest` is whatever follows. */
    method Encode(b3: array<Byte>, n: nat, ghost rest: seq<Six>)
      requires Valid() && b3.Length == 3 && n <= 3
      modifies this, buffer
      ensures Valid()
      ensures Final(out, buffer[..], count, rest)
           == old(Final(out, buffer[..], count, Group4(b3[0], b3[1], b3[2], n) + rest))
    {
      hide Final, Dump;
      var b4 := Group4(b3[0], b3[1], b3[2], n);
      hide Group4;
      var i: nat, j := count, 0;
      assert b4[j..] == b4;
      while j < 4
        invariant 0 <= j <= 4 && i <= 13 && count == old(count)
        invariant Final(out, buffer[..], i, b4[j..] + rest) == old(Final(out, buffer[..], count, b4 + rest))
      {
        if i == 13 {
          FlushGroup(out, buffer[..], b4[j..] + rest);
          DumpCode(13);
          i := 0;
        }
        ghost var buf := buffer[..];
        PutValue(out, buf, i, b4[j], b4[j + 1..] + rest);
        assert [b4[j]] + (b4[j + 1..] + rest) == b4[j..] + rest;
        buffer[i] := b4[j];
        assert buffer[..] == buf[i := b4[j]];
        i, j := i + 1, j + 1;
      }
      count := i;
      assert b4[j..] + rest == rest;
    }

    /** The whole program; `b3` is an uninitialised buffer. */
    method Run(input: seq<Byte>, b3: array<Byte>)
      requires Valid() && buffer[..] == Zeros() && count == 0 && out == []
      requires b3.Length == 3 && b3 as object != buffer
      modifies this, buffer, b3
      ensures out == Encoded(input, old(b3[..]))
    {
      hide Final, Encoded, Group4, Pack, Coming;
      EncodedStart(input, b3[..], buffer[..]);
      ghost var goal := Encoded(input, b3[..]);
      var i, p := 0, 0;
      assert input[0..] == input;
      while i < |input|
        invariant 0 <= p < 3 && 0 <= i <= |input| && Valid()
        invariant Final(out, buffer[..], count, Coming(b3[..], p, input[i..])) == goal
      {
        ghost var was := b3[..];
        FillByte(was, p, input[i], input[i + 1..]);
        assert [input[i]] + input[i + 1..] == input[i..];
        b3[p] := input[i];
        assert b3[..] == was[p := input[i]];
        i, p := i + 1, p + 1;
        if p == 3 {
          FullTriple(b3[..], input[i..]);
          Encode(b3, 3, Coming(b3[..], 0, input[i..]));
          p := 0;
        }
      }
      assert input[i..] == [];
      LastBytes(b3[..], p);
      Encode(b3, p, []);
      FlushOut();
    }
  }

  lemma EncodedStart(input: seq<Byte>, b3: seq<Byte>, buf: seq<Six>)
    requires |b3| == 3 && buf == Zeros()
    ensures Final([], buf, 0, Coming(b3, 0, input)) == Encoded(input, b3)
  {
    assert b3[..0] + input == input;
    var vs := Sextets(input, b3);
    assert buf[..0] + vs == vs;
  }

  /** How the bytes still to come depend on the values in the decoder's buffer and the values still to come. */
  function Left(out: seq<Byte>, buf: seq<nat>, n: nat, rest: seq<nat>, marked: bool): seq<Byte>
    requires |buf| == 4 && n <= 4
  {
    out + Unpack(buf[..n] + rest, buf, marked)
  }

  lemma UnpackIgnores(vs: seq<nat>, a: seq<nat>, b: seq<nat>, marked: bool)
    requires |a| == |b| == 4
    requires |vs| <= 4 ==> a[|vs|..] == b[|vs|..]
    ensures Unpack(vs, a, marked) == Unpack(vs, b, marked)
  {}

  lemma StoreValue(out: seq<Byte>, buf: seq<nat>, n: nat, v: nat, rest: seq<nat>, marked: bool)
    requires |buf| == 4 && n < 4
    ensures Left(out, buf[n := v], n + 1, rest, marked) == Left(out, buf, n, [v] + rest, marked)
  {
    var vs := buf[..n] + ([v] + rest);
    assert buf[n := v][..n + 1] + rest == vs;
    UnpackIgnores(vs, buf, buf[n := v], marked);
  }

  lemma EmitQuad(out: seq<Byte>, buf: seq<nat>, rest: seq<nat>, marked: bool)
    requires |buf| == 4 && (rest != [] || !marked)
    ensures Left(out, buf, 4, rest, marked) == Left(out + Quad(buf), buf, 0, rest, marked)
  {
    var vs := buf[..4] + rest;
    assert vs[..4] == buf && vs[4..] == rest && buf[..0] + rest == rest;
  }

  /** The decode program: its static buffer and count, and its standard output. */
  class Decoder {
    const buffer: array<nat>
    var count: nat
    var out: seq<Byte>

    ghost predicate Valid()
      reads this
    {
      buffer.Length == 4 && count < 4
    }

    constructor ()
      ensures Valid() && fresh(buffer) && buffer[..] == [0, 0, 0, 0] && count == 0 && out == []
    {
      buffer := new nat[4](_ => 0);
      count, out := 0, [];
    }

    /** Writes the three bytes of the buffer, or as many as the last value says. */
    method Pack6(n: nat, last: nat)
      requires Valid() && 1 <= n <= 4
      requires last == 0 ==> n == 4
      modifies this`out
      ensures out == old(out) + Unpack(buffer[..n], buffer[..], last > 0)
    {
      var i := 3;
      if last > 0 {
        i := buffer[n - 1];
        if i >= 3 {
          i := 3;
        }
      }
      assert buffer[..n] + buffer[..][n..] == buffer[..];
      out := out + Quad(buffer[..])[..i];
    }

    /** The first half of pack12: the values of `n` digits, and the collected top bits. */
    static method Spread(p: array<Digit>, n: nat, b13: array<nat>)
      requires p.Length == 12 && n <= 12 && n % 2 == 0 && b13.Length == 13
      modifies b13
      ensures b13[..n + 1] == PairValues(p[..n]) + [TopBits(p[..n], 0)]
    {
      hide Value, TopBit, TwoValues, PairValues, TopBits;
      var i, c13: nat := 0, 0;
      ghost var j, half := 0, n / 2;
      while i < n
        invariant i == 2 * j && j <= half && n == 2 * half
        invariant b13[..i] + PairValues(p[i..n]) == PairValues(p[..n])
        invariant TopBits(p[i..n], c13) == TopBits(p[..n], 0)
      {
        var c := Value(p[i], p[i + 1]);
        SpreadPair(p[..], b13[..i], i, n, c13);
        b13[i], b13[i + 1] := TwoValues(c)[0], TwoValues(c)[1];
        assert b13[..i + 2] == b13[..i] + TwoValues(c);
        c13 := 2 * c13 + TopBit(c);
        i, j := i + 2, j + 1;
      }
      assert p[i..n] == [];
      UnfoldNone(c13);
      b13[i] := c13;
    }

    /** Decodes `n` digits of `p`.  `rest` is whatever values follow, in a stream that is `marked` or not. */
    method Pack12(p: array<Digit>, n: nat, last: nat, ghost rest: seq<nat>, ghost marked: bool)
      requires Valid() && p.Length == 12 && n <= 12 && n % 2 == 0 && last <= n + 1
      requires last > 0 ==> marked && rest == []
      requires last == 0 && rest == [] ==> !marked
      modifies this, buffer
      ensures Valid()
      ensures Left(out, buffer[..], count, rest, marked)
           == old(Left(out, buffer[..], count, UnitValues(p[..n], last) + rest, marked))
      ensures last > 0 ==> count == 0
    {
      hide PairValues, TopBits, Unpack, Left, Quad;
      var b13 := new nat[13];
      Spread(p, n, b13);
      var q := n + 1;
      if last > 0 {
        q := last;
      }
      ghost var vs := UnitValues(p[..n], last);
      assert b13[..q] == vs == vs[0..];
      hide UnitValues;
      var i: nat, j := count, 0;
      while j + 1 < q
        invariant 0 <= j < q && i < 4 && b13[..q] == vs && count == old(count)
        invariant Left(out, buffer[..], i, vs[j..] + rest, marked) ==
            old(Left(out, buffer[..], count, vs + rest, marked))
      {
        StoreValue(out, buffer[..], i, b13[j], vs[j + 1..] + rest, marked);
        assert [vs[j]] + (vs[j + 1..] + rest) == vs[j..] + rest;
        buffer[i] := b13[j];
        i, j := i + 1, j + 1;
        if i == 4 {
          EmitQuad(out, buffer[..], vs[j..] + rest, marked);
          out := out + Quad(buffer[..]);
          i := 0;
        }
      }
      StoreValue(out, buffer[..], i, b13[j], rest, marked);
      assert [vs[j]] + rest == vs[j..] + rest;
      buffer[i] := b13[j];
      i := i + 1;
      if last > 0 || i == 4 {
        FinishUnit(out, buffer[..], i, rest, last, marked);
        Pack6(i, last);
        i := 0;
      }
      count := i;
    }

    /** The whole program: two group buffers, so that a full group is decoded only when the next one is full too. */
    method Run(input: seq<Byte>) returns (e: Ending)
      requires Valid() && buffer[..] == [0, 0, 0, 0] && count == 0 && out == []
      modifies this, buffer
      ensures e == Decoded(input).0
      ensures e.Done? ==> out == Decoded(input).1
    {
      hide Units, Unpack, AllValues, UnitValues, Decoded, Left, Ongoing, Sized, Remaining, Digits;
      var base, other := new Digit[12], new Digit[12];
      var first, i, cnt: nat := true, 12, 0;
      ghost var ok := Printable(input);
      ghost var ds := if ok then Digits(input) else [];
      Start(ds);
      assert base[..0] == [] && (ok ==> ds[0..] == ds);
      var k := 0;
      while k < |input|
        invariant 0 <= k <= |input| && 1 <= i <= 12 && cnt < 91 && Valid()
        invariant base.Length == other.Length == 12 && base != other && fresh(base) && fresh(other)
        invariant first ==> count == 0
        invariant Printable(input[..k]) && ok == Printable(input) && (ok ==> ds == Digits(input))
        invariant 12 - i >= 3 ==> !IsMarker(base[..12 - i])
        invariant ok ==> Ongoing(ds, Held(first, other[..]), base[..12 - i], ds[k..], cnt, out, buffer[..], count)
      {
        var c := input[k];
        if c < SPACE || c >= SPACE + 91 {
          UnprintableEnds(input, k);
          return BadData;
        }
        k := k + 1;
        ghost var part := base[..12 - i];
        if i == 10 && base[1] == MARK && base[0] == MARK {
          if ok {
            OngoingMarker(ds, k - 1, Held(first, other[..]), part, cnt, out, buffer[..], count);
          }
          cnt, i := c - SPACE, 12;
          assert base[..0] == [];
          continue;
        }
        assert |part| >= 2 ==> !IsMarker(part) && !IsMarker(part + [c - SPACE]);
        if ok {
          OngoingDigit(ds, k - 1, Held(first, other[..]), part, cnt, out, buffer[..], count);
        }
        base[12 - i] := c - SPACE;
        i := i - 1;
        assert base[..12 - i] == part + [c - SPACE];
        if i == 0 {
          assert base[..] == part + [c - SPACE] && [] + [base[..]] == [base[..]];
          if !first {
            PackHeld(other, ok, ds, base[..], if ok then ds[k..] else [], cnt);
          }
          first := false;
          base, other := other, base;
          i := 12;
          assert base[..0] == [];
        }
      }
      assert input[..k] == input;
      ghost var part := base[..12 - i];
      OngoingEnds(input, first, other[..], part, cnt, out, buffer[..], count);
      SizedAtEnd(first, other[..], part, i, cnt);
      if (i == 12 && !first && cnt > 13) || (i != 12 && ((12 - i) % 2 != 0 || cnt > 12 - i + 1)) {
        return Unspecified;
      }
      Finish(first, other, base, i, cnt);
      e := Done;
    }

    /** Decodes the unit held back, now that another full one, `part`, is known to follow. */
    method PackHeld(full: array<Digit>, ghost ok: bool, ghost ds: seq<Digit>, ghost part: seq<Digit>,
                    ghost tail: seq<Digit>, ghost cnt: nat)
      requires Valid() && full.Length == 12
      requires ok ==> Ongoing(ds, [full[..]] + [part], [], tail, cnt, out, buffer[..], count)
      modifies this, buffer
      ensures Valid()
      ensures ok ==> Ongoing(ds, [part], [], tail, cnt, out, buffer[..], count)
    {
      hide Units, Unpack, UnitValues, Left, Ongoing, Values;
      ghost var ahead := Ahead([part], [], tail, cnt);
      ghost var out0, buf0, n0 := out, buffer[..], count;
      ValuesNonempty(part, tail, cnt);
      assert full[..12] == full[..];
      Pack12(full, 12, 0, Values(ahead), ahead.1 > 0);
      if ok {
        OngoingFlush(ds, full[..], part, tail, cnt, out0, buf0, n0, out, buffer[..], count);
      }
    }

    /** The end of the program: the unit held back, if any, and the unit that was being filled, if any. */
    method Finish(first: bool, full: array<Digit>, base: array<Digit>, i: nat, cnt: nat)
      requires Valid() && full.Length == base.Length == 12 && 1 <= i <= 12
      requires Sized(Remaining(first, full[..], base[..12 - i]), cnt)
      requires first && i == 12 ==> count == 0
      modifies this, buffer
      ensures out ==
          old(Left(out, buffer[..], count, AllValues(Remaining(first, full[..], base[..12 - i]), cnt), cnt > 0))
    {
      hide UnitValues, Left;
      ghost var part := base[..12 - i];
      RemainingValues(first, full[..], part, cnt);
      hide AllValues;
      assert full[..12] == full[..];
      ghost var goal := Left(out, buffer[..], count, AllValues(Remaining(first, full[..], part), cnt), cnt > 0);
      if !first {
        Pack12(full, 12, if i == 12 then cnt else 0, if i == 12 then [] else UnitValues(part, cnt), cnt > 0);
      }
      if i != 12 {
        assert UnitValues(part, cnt) + [] == UnitValues(part, cnt);
        assert Left(out, buffer[..], count, UnitValues(part, cnt), cnt > 0) == goal;
        Pack12(base, 12 - i, cnt, [], cnt > 0);
      }
      assert Left(out, buffer[..], count, [], cnt > 0) == goal;
      LeftDone(out, buffer[..], count, cnt > 0);
    }
  }

  /** The units that are left at the end of the input. */
  function Remaining(first: bool, full: seq<Digit>, part: seq<Digit>): seq<seq<Digit>> {
    (if first then [] else [full]) + (if part == [] then [] else [part])
  }

  lemma SizedAtEnd(first: bool, full: seq<Digit>, part: seq<Digit>, i: nat, cnt: nat)
    requires |full| == 12 && 1 <= i <= 12 && |part| == 12 - i
    ensures Sized(Remaining(first, full, part), cnt)
       <==> !((i == 12 && !first && cnt > 13) || (i != 12 && ((12 - i) % 2 != 0 || cnt > 12 - i + 1)))
  {}

  lemma RemainingValues(first: bool, full: seq<Digit>, part: seq<Digit>, cnt: nat)
    requires |full| == 12 && Sized(Remaining(first, full, part), cnt)
    ensures part != [] ==> cnt <= |part| - |part| % 2 + 1
    ensures part != [] ==> UnitValues(part, cnt) != []
    ensures !first && part == [] ==> cnt <= 13
    ensures AllValues(Remaining(first, full, part), cnt)
         == if first then (if part == [] then [] else UnitValues(part, cnt))
            else if part == [] then UnitValues(full, cnt) + [] else UnitValues(full, 0) + UnitValues(part, cnt)
  {
    var us := Remaining(first, full, part);
    if !first && part != [] {
      assert us[1..] == [part];
    }
  }

  lemma LeftDone(out: seq<Byte>, buf: seq<nat>, n: nat, marked: bool)
    requires |buf| == 4 && n < 4
    requires marked ==> n == 0
    ensures Left(out, buf, n, [], marked) == out
  {
    assert buf[..n] + [] == buf[..n];
  }

  lemma UnfoldPair(u: seq<Digit>, acc: nat)
    requires |u| >= 2
    ensures PairValues(u) == TwoValues(Value(u[0], u[1])) + PairValues(u[2..])
    ensures TopBits(u, acc) == TopBits(u[2..], 2 * acc + TopBit(Value(u[0], u[1])))
  {
    hide TwoValues, Value, TopBit;
  }

  lemma SpreadPair(p: seq<Digit>, done: seq<nat>, i: nat, n: nat, acc: nat)
    requires i + 2 <= n <= |p|
    ensures var c := Value(p[i], p[i + 1]);
            && done + PairValues(p[i..n]) == (done + TwoValues(c)) + PairValues(p[i + 2..n])
            && TopBits(p[i..n], acc) == TopBits(p[i + 2..n], 2 * acc + TopBit(c))
  {
    hide TwoValues, Value, TopBit, PairValues, TopBits;
    UnfoldPair(p[i..n], acc);
    assert p[i..n][2..] == p[i + 2..n];
  }

  lemma UnfoldNone(acc: nat)
    ensures PairValues([]) == [] && TopBits([], acc) == acc
  {}

  lemma FinishUnit(out: seq<Byte>, buf: seq<nat>, n: nat, rest: seq<nat>, last: nat, marked: bool)
    requires |buf| == 4 && 1 <= n <= 4
    requires last == 0 ==> n == 4
    requires last > 0 ==> marked && rest == []
    requires last == 0 && rest == [] ==> !marked
    ensures Left(out, buf, n, rest, marked) == Left(out + Unpack(buf[..n], buf, last > 0), buf, 0, rest, marked)
  {
    assert buf[..n] + [] == buf[..n] && buf[..0] + rest == rest;
    if last == 0 {
      EmitQuad(out, buf, rest, marked);
      assert buf[..4] == buf;
    }
  }

  /** What the decoder still has to read: a full unit held back, the unit it is filling, and the digits left. */
  function Ahead(held: seq<seq<Digit>>, part: seq<Digit>, ds: seq<Digit>, cnt: nat): (seq<seq<Digit>>, nat) {
    var (us, last) := Units(part + ds, cnt);
    (held + us, last)
  }

  predicate IsMarker(part: seq<Digit>) {
    |part| >= 2 && part[0] == MARK && part[1] == MARK
  }

  lemma AheadMarker(held: seq<seq<Digit>>, part: seq<Digit>, ds: seq<Digit>, cnt: nat)
    requires |part| == 2 && IsMarker(part) && ds != []
    ensures Ahead(held, part, ds, cnt) == Ahead(held, [], ds[1..], ds[0])
  {
    assert (part + ds)[3..] == ds[1..] == [] + ds[1..];
  }

  lemma AheadDigit(held: seq<seq<Digit>>, part: seq<Digit>, ds: seq<Digit>, cnt: nat)
    requires ds != []
    ensures Ahead(held, part, ds, cnt) == Ahead(held, part + [ds[0]], ds[1..], cnt)
  {
    assert part + ds == part + [ds[0]] + ds[1..];
  }

  lemma AheadUnit(held: seq<seq<Digit>>, part: seq<Digit>, ds: seq<Digit>, cnt: nat)
    requires |part| == 12 && !IsMarker(part)
    ensures Ahead(held, part, ds, cnt) == Ahead(held + [part], [], ds, cnt)
  {
    InnerUnit(part, ds, cnt);
    assert [] + ds == ds;
    assert held + ([part] + Units(ds, cnt).0) == held + [part] + Units(ds, cnt).0;
  }

  lemma AheadEnd(held: seq<seq<Digit>>, part: seq<Digit>, cnt: nat)
    requires |part| < 12 && (|part| >= 3 ==> !IsMarker(part))
    ensures Ahead(held, part, [], cnt) == (held + (if part == [] then [] else [part]), cnt)
  {
    assert part + [] == part;
  }

  function Values(ahead: (seq<seq<Digit>>, nat)): seq<nat> {
    if Sized(ahead.0, ahead.1) then AllValues(ahead.0, ahead.1) else [0]
  }

  lemma ValuesNonempty(part: seq<Digit>, ds: seq<Digit>, cnt: nat)
    ensures Values(Ahead([part], [], ds, cnt)) != []
  {
    var (us, last) := Ahead([part], [], ds, cnt);
  }

  /** The decoder is on its way: what it has written and what it still has to read make up the decoded stream. */
  predicate Ongoing(ds: seq<Digit>, held: seq<seq<Digit>>, part: seq<Digit>, tail: seq<Digit>, cnt: nat,
                    out: seq<Byte>, buf: seq<nat>, n: nat)
    requires |buf| == 4 && n <= 4
  {
    var (all, length) := Units(ds, 0);
    var (us, last) := Ahead(held, part, tail, cnt);
    && last == length
    && (Sized(us, last) <==> Sized(all, length))
    && (Sized(us, last) ==>
          Left(out, buf, n, AllValues(us, last), last > 0) == Unpack(AllValues(all, length), [0, 0, 0, 0], length > 0))
  }

  lemma Start(ds: seq<Digit>)
    ensures Ongoing(ds, [], [], ds, 0, [], [0, 0, 0, 0], 0)
  {
    var (us, last) := Units(ds, 0);
    assert [] + ds == ds && [] + us == us;
    if Sized(us, last) {
      var vs := AllValues(us, last);
      assert [0, 0, 0, 0][..0] + vs == vs;
    }
  }

  /** Decoding the unit held back keeps the decoder on its way. */
  lemma OngoingFlush(ds: seq<Digit>, h: seq<Digit>, part: seq<Digit>, tail: seq<Digit>, cnt: nat,
                     out: seq<Byte>, buf: seq<nat>, n: nat, out': seq<Byte>, buf': seq<nat>, n': nat)
    requires |buf| == |buf'| == 4 && n <= 4 && n' <= 4 && |h| == 12
    requires Left(out', buf', n', Values(Ahead([part], [], tail, cnt)), Ahead([part], [], tail, cnt).1 > 0)
          == Left(out, buf, n, UnitValues(h, 0) + Values(Ahead([part], [], tail, cnt)),
                  Ahead([part], [], tail, cnt).1 > 0)
    requires Ongoing(ds, [h] + [part], [], tail, cnt, out, buf, n)
    ensures Ongoing(ds, [part], [], tail, cnt, out', buf', n')
  {
    hide Left, Units, Unpack, UnitValues, AllValues, Sized, Ahead;
    var (us, last) := Ahead([part], [], tail, cnt);
    AheadHeld(h, part, tail, cnt);
    SizedCons(h, us, last);
    if Sized(us, last) {
      ConsValues(h, us, last);
    }
  }

  lemma AheadHeld(h: seq<Digit>, part: seq<Digit>, tail: seq<Digit>, cnt: nat)
    ensures var (us, last) := Ahead([part], [], tail, cnt);
            us != [] && Ahead([h] + [part], [], tail, cnt) == ([h] + us, last)
  {
    hide Units;
    var more := Units([] + tail, cnt).0;
    assert [h] + [part] + more == [h] + ([part] + more);
  }

  lemma SizedCons(h: seq<Digit>, us: seq<seq<Digit>>, last: nat)
    requires us != []
    ensures Sized([h] + us, last) <==> Sized(us, last)
  {
    assert ([h] + us)[|us|] == us[|us| - 1];
  }

  lemma OngoingMarker(ds: seq<Digit>, k: nat, held: seq<seq<Digit>>, part: seq<Digit>, cnt: nat,
                      out: seq<Byte>, buf: seq<nat>, n: nat)
    requires |buf| == 4 && n <= 4 && k < |ds| && |part| == 2 && IsMarker(part)
    requires Ongoing(ds, held, part, ds[k..], cnt, out, buf, n)
    ensures Ongoing(ds, held, [], ds[k + 1..], ds[k], out, buf, n)
  {
    AheadMarker(held, part, ds[k..], cnt);
  }

  /** A digit joins the unit being filled; a full unit is held back. */
  lemma OngoingDigit(ds: seq<Digit>, k: nat, held: seq<seq<Digit>>, part: seq<Digit>, cnt: nat,
                     out: seq<Byte>, buf: seq<nat>, n: nat)
    requires |buf| == 4 && n <= 4 && k < |ds| && |part| < 12 && !(|part| == 2 && IsMarker(part))
    requires |part| >= 3 ==> !IsMarker(part)
    requires Ongoing(ds, held, part, ds[k..], cnt, out, buf, n)
    ensures |part| < 11 ==> Ongoing(ds, held, part + [ds[k]], ds[k + 1..], cnt, out, buf, n)
    ensures |part| == 11 ==> Ongoing(ds, held + [part + [ds[k]]], [], ds[k + 1..], cnt, out, buf, n)
  {
    AheadDigit(held, part, ds[k..], cnt);
    assert ds[k..][1..] == ds[k + 1..];
    if |part| == 11 {
      AheadUnit(held, part + [ds[k]], ds[k + 1..], cnt);
    }
  }

  function Held(first: bool, full: seq<Digit>): seq<seq<Digit>> {
    if first then [] else [full]
  }

  lemma UnprintableEnds(input: seq<Byte>, k: nat)
    requires k < |input| && (input[k] < SPACE || input[k] >= SPACE + 91)
    ensures Decoded(input) == (BadData, []) && !Printable(input)
  {}

  /** At the end of the input only the unit held back and the last, shorter one remain. */
  lemma OngoingEnds(input: seq<Byte>, first: bool, full: seq<Digit>, part: seq<Digit>, cnt: nat,
                    out: seq<Byte>, buf: seq<nat>, n: nat)
    requires |buf| == 4 && n <= 4 && Printable(input)
    requires |part| < 12 && (|part| >= 3 ==> !IsMarker(part)) && |full| == 12
    requires Ongoing(Digits(input), Held(first, full), part, Digits(input)[|input|..], cnt, out, buf, n)
    ensures var us := Remaining(first, full, part);
            && Decoded(input).0 == (if Sized(us, cnt) then Done else Unspecified)
            && (Sized(us, cnt) ==> Left(out, buf, n, AllValues(us, cnt), cnt > 0) == Decoded(input).1)
  {
    AheadEnd(Held(first, full), part, cnt);
  }

  /** The two programs, one after the other. */
  method EncodeAndDecode(input: seq<Byte>, b3: array<Byte>) returns (e: Ending, output: seq<Byte>)
    requires b3.Length == 3
    modifies b3
    ensures e.Done? && output == input
  {
    hide Encoded, Decoded;
    ghost var stale := b3[..];
    var encoder := new Encoder();
    encoder.Run(input, b3);
    var decoder := new Decoder();
    e := decoder.Run(encoder.out);
    output := decoder.out;
    RoundTrip(input, stale);
  }
}
