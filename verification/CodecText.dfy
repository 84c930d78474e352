/** The characters that encode writes, said in numbers: how they stand for the values, and the values for the bytes. */
module CodecText {
  import opened Codec

  /** Two printable characters, read as a number in base 91, stand for a top bit and two values. */
  predicate Stands(x: Byte, y: Byte, top: nat, hi: nat, lo: nat) {
    32 <= x < 123 && 32 <= y < 123 && 91 * (x - 32) + (y - 32) == 4096 * top + 64 * hi + lo
  }

  /** The bits of a value, the highest first. */
  function BitAt(v: nat, k: nat): nat
    requires k < 6
  {
    match k
    case 0 => v / 32 % 2
    case 1 => v / 16 % 2
    case 2 => v / 8 % 2
    case 3 => v / 4 % 2
    case 4 => v / 2 % 2
    case _ => v % 2
  }

  /** The characters from position `12 * j` on stand for the `j`th group of thirteen values: the last value gives the
      top bits. */
  predicate GroupStands(out: seq<Byte>, vs: seq<Six>, j: nat) {
    && 12 * j + 12 <= |out| && 13 * j + 13 <= |vs|
    && forall k: nat | k < 6 ::
         Stands(out[12 * j + 2 * k], out[12 * j + 2 * k + 1], BitAt(vs[13 * j + 12], k), vs[13 * j + 2 * k],
                vs[13 * j + 2 * k + 1])
  }

  /** How many characters a last group of `n` values has. */
  function Width(n: nat): nat {
    if n == 13 then 12 else n + n % 2
  }

  function LastTop(vs: seq<Six>, g: nat, n: nat, k: nat): nat
    requires n <= 13 && 13 * g + n <= |vs| && k < 6
  {
    if n == 13 then BitAt(vs[13 * g + 12], k) else if n % 2 == 1 && k == 0 then 1 else 0
  }

  /** The value that fills up an odd last group: the one in its place in the group before. */
  function Filler(vs: seq<Six>, before: seq<Six>, g: nat, n: nat): nat
    requires |before| == 13 && n <= 12 && 13 * g + n <= |vs|
  {
    if g == 0 then before[n] else vs[13 * (g - 1) + n]
  }

  /** A pair of the last group. */
  predicate LastPair(out: seq<Byte>, vs: seq<Six>, before: seq<Six>, g: nat, k: nat)
    requires |before| == 13
  {
    && k < 6 && 13 * g < |vs| <= 13 * g + 13
    && var n, p := |vs| - 13 * g, 12 * g + 3;
    && 2 * k < n && 2 * k + 1 < Width(n) && |out| == p + Width(n)
    && Stands(out[p + 2 * k], out[p + 2 * k + 1], LastTop(vs, g, n, k), vs[13 * g + 2 * k],
              if 2 * k + 1 < n then vs[13 * g + 2 * k + 1] else Filler(vs, before, g, n))
  }

  /** After the groups come "zz", the length of the last group, and the last group. */
  predicate LastStands(out: seq<Byte>, vs: seq<Six>, before: seq<Six>, g: nat)
    requires |before| == 13
  {
    && 13 * g < |vs| <= 13 * g + 13
    && var n, p := |vs| - 13 * g, 12 * g + 3;
    && |out| == p + Width(n)
    && out[p - 3] == 'z' as int && out[p - 2] == 'z' as int && out[p - 1] == 32 + n
    && forall k: nat | k < 6 && 2 * k < n :: LastPair(out, vs, before, g, k)
  }

  /** `out` is the code of the values `vs`, which are those of `g` full groups and a last one. */
  predicate CodeOf(out: seq<Byte>, vs: seq<Six>, before: seq<Six>, g: nat)
    requires |before| == 13
  {
    (forall j: nat | j < g :: GroupStands(out, vs, j)) && LastStands(out, vs, before, g)
  }

  function Base64(a: nat, b: nat, c: nat, d: nat): nat {
    262144 * a + 4096 * b + 64 * c + d
  }

  function Base256(a: nat, b: nat, c: nat): nat {
    65536 * a + 256 * b + c
  }

  /** Four values read as a number in base 64 are three bytes read as one in base 256. */
  predicate SameNumber(vs: seq<Six>, s: seq<Byte>, j: nat) {
    && 4 * j + 4 <= |vs| && 3 * j + 3 <= |s|
    && Base64(vs[4 * j], vs[4 * j + 1], vs[4 * j + 2], vs[4 * j + 3]) ==
       Base256(s[3 * j], s[3 * j + 1], s[3 * j + 2])
  }

  /** The three bytes that end the input, filled up with those before them. */
  function Rest(s: seq<Byte>, stale: seq<Byte>, m: nat): seq<Byte>
    requires |stale| == 3 && 3 * m <= |s| < 3 * m + 3
  {
    s[3 * m..] + (if m == 0 then stale else s[3 * m - 3..3 * m])[|s| - 3 * m..]
  }

  /** `vs` are the values of `m` triples of bytes and what is left; the last value says how much that is. */
  predicate ValuesOf(vs: seq<Six>, s: seq<Byte>, stale: seq<Byte>, m: nat)
    requires |stale| == 3
  {
    && 3 * m <= |s| < 3 * m + 3 && |vs| == 4 * m + 4
    && (forall j: nat | j < m :: SameNumber(vs, s, j))
    && vs[4 * m + 3] == |s| - 3 * m
    && var b := Rest(s, stale, m);
       Base64(0, vs[4 * m], vs[4 * m + 1], vs[4 * m + 2]) == Base256(b[0], b[1], b[2]) / 64
  }

  // --- the values -----------------------------------------------------------------------------

  lemma TripleNumber(b0: Byte, b1: Byte, b2: Byte)
    ensures var v := Group4(b0, b1, b2, 3);
            Base64(v[0], v[1], v[2], v[3]) == Base256(b0, b1, b2)
  {
    Split(b0, 4);
    Split(b1, 16);
    Split(b2, 64);
  }

  lemma Split(x: nat, n: nat)
    requires n > 0
    ensures x == x / n * n + x % n
  {}

  lemma RestNumber(b0: Byte, b1: Byte, b2: Byte, n: nat)
    requires n < 3
    ensures var v := Group4(b0, b1, b2, n);
            Base64(0, v[0], v[1], v[2]) == Base256(b0, b1, b2) / 64 && v[3] == n
  {
    Split(b0, 4);
    Split(b1, 16);
    assert Base256(b0, b1, b2) == 64 * (1024 * b0 + 4 * b1) + b2;
    var v := Group4(b0, b1, b2, n);
    assert Base64(0, v[0], v[1], v[2]) == 1024 * b0 + 4 * b1 + b2 / 64;
  }

  lemma MoreSextets(s: seq<Byte>, stale: seq<Byte>)
    requires |stale| == 3 && |s| >= 3
    ensures Sextets(s, stale) == Group4(s[0], s[1], s[2], 3) + Sextets(s[3..], s[..3])
    ensures |Group4(s[0], s[1], s[2], 3)| == 4
  {}

  lemma NumberMoves(v: seq<Six>, more: seq<Six>, s: seq<Byte>, j: nat)
    requires |v| == 4 && |s| >= 3 && SameNumber(more, s[3..], j)
    ensures SameNumber(v + more, s, j + 1)
  {
    hide Base64, Base256;
    Behind(v, more, 4 * j);
    Behind(v, more, 4 * j + 1);
    Behind(v, more, 4 * j + 2);
    Behind(v, more, 4 * j + 3);
    var t := s[3..];
    assert s == s[..3] + t;
    Behind(s[..3], t, 3 * j);
    Behind(s[..3], t, 3 * j + 1);
    Behind(s[..3], t, 3 * j + 2);
  }

  lemma NoTriple(s: seq<Byte>, stale: seq<Byte>)
    requires |stale| == 3 && |s| < 3
    ensures ValuesOf(Sextets(s, stale), s, stale, 0)
  {
    hide Base64, Base256;
    var b := s + stale[|s|..];
    RestNumber(b[0], b[1], b[2], |s|);
    assert s[0..] == s;
  }

  lemma RestMoves(s: seq<Byte>, stale: seq<Byte>, m: nat)
    requires |stale| == 3 && m > 0 && 3 * m <= |s| < 3 * m + 3
    ensures Rest(s, stale, m) == Rest(s[3..], s[..3], m - 1)
  {
    assert s[3..][3 * (m - 1)..] == s[3 * m..];
    if m > 1 {
      assert s[3..][3 * (m - 1) - 3..3 * (m - 1)] == s[3 * m - 3..3 * m];
    }
  }

  lemma NumbersMove(v: seq<Six>, more: seq<Six>, s: seq<Byte>, m: nat)
    requires |v| == 4 && |s| >= 3 && Base64(v[0], v[1], v[2], v[3]) == Base256(s[0], s[1], s[2])
    requires forall j: nat | j < m :: SameNumber(more, s[3..], j)
    ensures forall j: nat | j < m + 1 :: SameNumber(v + more, s, j)
  {
    hide Base64, Base256;
    forall j: nat | j < m + 1 ensures SameNumber(v + more, s, j) {
      if j > 0 {
        hide SameNumber;
        NumberMoves(v, more, s, j - 1);
      }
    }
  }

  lemma ValuesMove(v: seq<Six>, more: seq<Six>, s: seq<Byte>, stale: seq<Byte>, m: nat)
    requires |stale| == 3 && |v| == 4 && |s| >= 3 && ValuesOf(more, s[3..], s[..3], m)
    requires Base64(v[0], v[1], v[2], v[3]) == Base256(s[0], s[1], s[2])
    ensures ValuesOf(v + more, s, stale, m + 1)
  {
    RestMoves(s, stale, m + 1);
    hide Base64, Base256, Rest, SameNumber;
    NumbersMove(v, more, s, m);
    Behind(v, more, 4 * m);
    Behind(v, more, 4 * m + 1);
    Behind(v, more, 4 * m + 2);
    Behind(v, more, 4 * m + 3);
  }

  lemma {:induction false} ValuesAre(s: seq<Byte>, stale: seq<Byte>, m: nat)
    requires |stale| == 3 && 3 * m <= |s| < 3 * m + 3
    ensures ValuesOf(Sextets(s, stale), s, stale, m)
  {
    hide Group4, Base64, Base256, Sextets, ValuesOf;
    if m == 0 {
      NoTriple(s, stale);
    } else {
      ValuesAre(s[3..], s[..3], m - 1);
      MoreSextets(s, stale);
      TripleNumber(s[0], s[1], s[2]);
      ValuesMove(Group4(s[0], s[1], s[2], 3), Sextets(s[3..], s[..3]), s, stale, m - 1);
    }
  }

  // --- the characters -------------------------------------------------------------------------

  lemma WordStands(hi: Six, lo: Six, top: nat)
    requires top <= 1
    ensures var ds := Printed(TwoDigits(Word(hi, lo, top)));
            |ds| == 2 && Stands(ds[0], ds[1], top, hi, lo)
  {}

  function Shifted(last: nat, k: nat): nat {
    if k == 0 then last else 2 * Shifted(last, k - 1)
  }

  lemma Bits(v: Six)
    ensures 2 * v / 32 == v / 16 && 4 * v / 32 == v / 8 && 8 * v / 32 == v / 4
    ensures 16 * v / 32 == v / 2 && 32 * v / 32 == v
  {}

  lemma ShiftedBit(v: Six, k: nat)
    requires k < 6
    ensures Bit5(Shifted(v, k)) == BitAt(v, k)
  {
    Shifts(v, k);
    Bits(v);
    hide Shifted;
  }

  lemma NoShiftedBit(k: nat)
    requires k < 6
    ensures Bit5(Shifted(0, k)) == 0 && Bit5(Shifted(32, k)) == if k == 0 then 1 else 0
  {
    Shifts(0, k);
    Shifts(32, k);
    hide Shifted;
  }

  lemma Shifts(v: nat, k: nat)
    requires k < 6
    ensures Shifted(v, k) == match k case 0 => v case 1 => 2 * v case 2 => 4 * v case 3 => 8 * v case 4 => 16 * v
                                       case _ => 32 * v
  {
    if k > 0 {
      Shifts(v, k - 1);
    }
  }

  /** The pairs of a group, from the `k`th on. */
  lemma {:induction false} PairsStand(buf: seq<Six>, k: nat, n: nat, last: nat, i: nat)
    requires |buf| == 13 && n <= 12 && k <= i < 6 && 2 * i < n
    ensures var ds := Printed(PairDigits(buf, k, n, Shifted(last, k)));
            && |ds| == n + n % 2 - 2 * k
            && 2 * (i - k) + 1 < |ds|
            && Stands(ds[2 * (i - k)], ds[2 * (i - k) + 1], Bit5(Shifted(last, i)), buf[2 * i], buf[2 * i + 1])
    decreases 12 - k
  {
    hide Stands, Word, TwoDigits, Bit5, PairDigits, Shifted;
    var w := TwoDigits(Word(buf[2 * k], buf[2 * k + 1], Bit5(Shifted(last, k))));
    WordStands(buf[2 * k], buf[2 * k + 1], Bit5(Shifted(last, k)));
    UnfoldDigits(buf, k, n, Shifted(last, k));
    NextShift(last, k);
    var more := PairDigits(buf, k + 1, n, Shifted(last, k + 1));
    PrintedConcat(w, more);
    if 2 * (k + 1) < n {
      PairsStand(buf, k + 1, n, last, if i == k then i + 1 else i);
      if i > k {
        Behind(Printed(w), Printed(more), 2 * (i - (k + 1)));
        Behind(Printed(w), Printed(more), 2 * (i - (k + 1)) + 1);
      }
    } else {
      NoDigits(buf, k + 1, n, Shifted(last, k + 1));
    }
  }

  lemma NextShift(last: nat, k: nat)
    ensures Shifted(last, k + 1) == 2 * Shifted(last, k)
  {}

  lemma NoDigits(buf: seq<Six>, k: nat, n: nat, last: nat)
    requires |buf| == 13 && n <= 12 && 2 * k >= n
    ensures PairDigits(buf, k, n, last) == []
  {}

  /** A group of any length. */
  lemma DumpStands(buf: seq<Six>, n: nat, k: nat)
    requires |buf| == 13 && n <= 13 && k < 6 && 2 * k < n
    ensures var ds := Printed(Dump(buf, n));
            && |ds| == Width(n) && 2 * k + 1 < |ds|
            && Stands(ds[2 * k], ds[2 * k + 1],
                      if n == 13 then BitAt(buf[12], k) else if n % 2 == 1 && k == 0 then 1 else 0,
                      buf[2 * k], buf[2 * k + 1])
  {
    hide PairDigits, Stands, BitAt, Bit5;
    var m := if n == 13 then 12 else n;
    PairsStand(buf, 0, m, Last(buf, n), k);
    ShiftedBit(if n == 13 then buf[12] else 0, k);
    NoShiftedBit(k);
  }

  lemma PackShort(vs: seq<Six>, buf: seq<Six>)
    requires |buf| == 13 && |vs| <= 13
    ensures Pack(vs, buf) == [MARK, MARK, |vs|] + Dump(vs + buf[|vs|..], |vs|)
  {}

  lemma OnlyPair(vs: seq<Six>, before: seq<Six>, k: nat)
    requires |before| == 13 && 2 * k < |vs| <= 13 && k < 6
    ensures LastPair(Printed(Pack(vs, before)), vs, before, 0, k)
  {
    var n, buf := |vs|, vs + before[|vs|..];
    var mark: seq<Digit> := [MARK, MARK, n];
    PackShort(vs, before);
    hide Dump, Stands, BitAt, LastTop, Pack, Width, Filler;
    DumpStands(buf, n, k);
    PrintedConcat(mark, Dump(buf, n));
    var ds := Printed(Dump(buf, n));
    Behind(Printed(mark), ds, 2 * k);
    Behind(Printed(mark), ds, 2 * k + 1);
    TopAlone(vs, buf, n, k);
    if 2 * k + 1 >= n {
      FillerAlone(vs, before, n);
      assert 2 * k + 1 == n;
    }
  }

  lemma OnlyGroup(vs: seq<Six>, before: seq<Six>)
    requires |before| == 13 && 0 < |vs| <= 13
    ensures CodeOf(Printed(Pack(vs, before)), vs, before, 0)
  {
    hide Dump, LastPair, Pack;
    PackShort(vs, before);
    PrintedConcat([MARK, MARK, |vs|], Dump(vs + before[|vs|..], |vs|));
    DumpStands(vs + before[|vs|..], |vs|, 0);
    forall k: nat | k < 6 && 2 * k < |vs| ensures LastPair(Printed(Pack(vs, before)), vs, before, 0, k) {
      OnlyPair(vs, before, k);
    }
  }

  lemma FillerAlone(vs: seq<Six>, before: seq<Six>, n: nat)
    requires |vs| == n <= 12 && |before| == 13
    ensures Filler(vs, before, 0, n) == (vs + before[n..])[n]
  {}

  lemma TopAlone(vs: seq<Six>, buf: seq<Six>, n: nat, k: nat)
    requires |vs| == n <= 13 == |buf| && buf[..n] == vs && k < 6
    ensures LastTop(vs, 0, n, k) == if n == 13 then BitAt(buf[12], k) else if n % 2 == 1 && k == 0 then 1 else 0
  {}

  lemma FirstGroup(vs: seq<Six>, rest: seq<Byte>)
    requires |vs| >= 13
    ensures GroupStands(Printed(Dump(vs[..13], 13)) + rest, vs, 0)
  {
    hide Dump, Stands, BitAt;
    var ds := Printed(Dump(vs[..13], 13));
    DumpStands(vs[..13], 13, 0);
    forall k: nat | k < 6
      ensures Stands((ds + rest)[2 * k], (ds + rest)[2 * k + 1], BitAt(vs[12], k), vs[2 * k], vs[2 * k + 1])
    {
      DumpStands(vs[..13], 13, k);
    }
  }

  lemma GroupMoves(d: seq<Byte>, out: seq<Byte>, v: seq<Six>, vs: seq<Six>, j: nat)
    requires |d| == 12 && |v| == 13 && GroupStands(out, vs, j)
    ensures GroupStands(d + out, v + vs, j + 1)
  {
    hide Stands, BitAt;
    Behind(v, vs, 13 * j + 12);
    forall k: nat | k < 6
      ensures Stands((d + out)[12 * (j + 1) + 2 * k], (d + out)[12 * (j + 1) + 2 * k + 1],
                     BitAt((v + vs)[13 * (j + 1) + 12], k), (v + vs)[13 * (j + 1) + 2 * k],
                     (v + vs)[13 * (j + 1) + 2 * k + 1])
    {
      Behind(d, out, 12 * j + 2 * k);
      Behind(d, out, 12 * j + 2 * k + 1);
      Behind(v, vs, 13 * j + 2 * k);
      Behind(v, vs, 13 * j + 2 * k + 1);
    }
  }

  lemma Behind<T>(a: seq<T>, b: seq<T>, i: nat)
    requires i < |b|
    ensures (a + b)[i + |a|] == b[i]
  {}

  lemma FillerMoves(v: seq<Six>, vs: seq<Six>, before: seq<Six>, g: nat, n: nat)
    requires |v| == |before| == 13 && n <= 12 && 13 * g + n <= |vs|
    ensures Filler(v + vs, before, g + 1, n) == Filler(vs, v, g, n)
  {
    if g > 0 {
      Behind(v, vs, 13 * (g - 1) + n);
    }
  }

  lemma TopMoves(v: seq<Six>, vs: seq<Six>, g: nat, n: nat, k: nat)
    requires |v| == 13 && n <= 13 && 13 * g + n <= |vs| && k < 6
    ensures LastTop(v + vs, g + 1, n, k) == LastTop(vs, g, n, k)
  {
    hide BitAt;
    if n == 13 {
      Behind(v, vs, 13 * g + 12);
    }
  }

  lemma LastPairMoves(d: seq<Byte>, out: seq<Byte>, v: seq<Six>, vs: seq<Six>, before: seq<Six>, g: nat, k: nat)
    requires |d| == 12 && |v| == |before| == 13 && LastPair(out, vs, v, g, k)
    ensures LastPair(d + out, v + vs, before, g + 1, k)
  {
    hide Stands, BitAt, LastTop, Filler;
    var n, p := |vs| - 13 * g, 12 * g + 3;
    Behind(d, out, p + 2 * k);
    Behind(d, out, p + 2 * k + 1);
    TopMoves(v, vs, g, n, k);
    Behind(v, vs, 13 * g + 2 * k);
    if 2 * k + 1 < n {
      Behind(v, vs, 13 * g + 2 * k + 1);
    } else {
      FillerMoves(v, vs, before, g, n);
    }
  }

  lemma LastMoves(d: seq<Byte>, out: seq<Byte>, v: seq<Six>, vs: seq<Six>, before: seq<Six>, g: nat)
    requires |d| == 12 && |v| == |before| == 13 && LastStands(out, vs, v, g)
    ensures LastStands(d + out, v + vs, before, g + 1)
  {
    hide Stands, BitAt, LastTop, Filler;
    var n, p := |vs| - 13 * g, 12 * g + 3;
    Behind(d, out, p - 3);
    Behind(d, out, p - 2);
    Behind(d, out, p - 1);
    forall k: nat | k < 6 && 2 * k < n ensures LastPair(d + out, v + vs, before, g + 1, k) {
      LastPairMoves(d, out, v, vs, before, g, k);
    }
  }

  lemma {:induction false} PackStands(vs: seq<Six>, before: seq<Six>, g: nat)
    requires |before| == 13 && 13 * g < |vs| <= 13 * g + 13
    ensures CodeOf(Printed(Pack(vs, before)), vs, before, g)
  {
    hide Dump, LastStands, GroupStands;
    if g == 0 {
      OnlyGroup(vs, before);
    } else {
      var v, more := vs[..13], vs[13..];
      var d, out := Printed(Dump(v, 13)), Printed(Pack(more, v));
      PackStands(more, v, g - 1);
      PrintedConcat(Dump(v, 13), Pack(more, v));
      DumpStands(v, 13, 0);
      assert v + more == vs && Printed(Pack(vs, before)) == d + out;
      FirstGroup(vs, out);
      forall j: nat | j < g ensures GroupStands(d + out, vs, j) {
        if j > 0 {
          GroupMoves(d, out, v, more, j - 1);
        }
      }
      LastMoves(d, out, v, more, before, g - 1);
    }
  }

  /** What the encoder writes, said of its characters and of the bytes it read: for every input the output is the one
      text that stands for the values of these bytes. */
  lemma Characters(s: seq<Byte>, stale: seq<Byte>, m: nat, g: nat)
    requires |stale| == 3 && 3 * m <= |s| < 3 * m + 3 && 13 * g < 4 * m + 4 <= 13 * g + 13
    ensures ValuesOf(Sextets(s, stale), s, stale, m)
    ensures CodeOf(Encoded(s, stale), Sextets(s, stale), [0, 0, 0, 0, 0, 0, 0, 0, 0, 0, 0, 0, 0], g)
  {
    hide Pack, Sextets, CodeOf;
    ValuesAre(s, stale, m);
    PackStands(Sextets(s, stale), Zeros(), g);
  }

  function Bytes(text: string): seq<Byte>
    requires forall i | 0 <= i < |text| :: text[i] as int < 256
  {
    seq(|text|, i requires 0 <= i < |text| => text[i] as int)
  }

  /** A whole text. */
  lemma Abc()
    ensures Encoded(Bytes("abc"), [0, 0, 0]) == Bytes("zz(1+&a1+&>")
    ensures Decoded(Bytes("zz(1+&a1+&>")) == (Done, Bytes("abc"))
  {
    var s, zero: seq<Byte> := [97, 98, 99], [0, 0, 0];
    assert Bytes("abc") == s;
    AbcValues();
    var vs: seq<Six> := [24, 22, 9, 35, 24, 22, 9, 0];
    AbcPacked();
    assert Printed([90, 90, 8, 17, 11, 6, 65, 17, 11, 6, 30]) == Bytes("zz(1+&a1+&>");
    hide Pack, Sextets;
    RoundTrip(s, zero);
  }

  lemma AbcValues()
    ensures Sextets([97, 98, 99], [0, 0, 0]) == [24, 22, 9, 35, 24, 22, 9, 0]
  {
    var s: seq<Byte> := [97, 98, 99];
    assert s[3..] == [] && s[..3] == s;
    assert Sextets([], s) == [24, 22, 9, 0] by {
      var none: seq<Byte> := [];
      assert none + s[|none|..] == s;
    }
  }

  lemma AbcPacked()
    ensures Pack([24, 22, 9, 35, 24, 22, 9, 0], Zeros()) == [90, 90, 8, 17, 11, 6, 65, 17, 11, 6, 30]
  {
    var vs: seq<Six> := [24, 22, 9, 35, 24, 22, 9, 0];
    var buf := vs + Zeros()[8..];
    hide Pack;
    assert PairDigits(buf, 4, 8, 0) == [];
    assert PairDigits(buf, 3, 8, 0) == [6, 30];
    assert PairDigits(buf, 2, 8, 0) == [17, 11, 6, 30];
    assert PairDigits(buf, 1, 8, 0) == [6, 65, 17, 11, 6, 30];
    assert PairDigits(buf, 0, 8, 0) == [17, 11, 6, 65, 17, 11, 6, 30];
    PackShort(vs, Zeros());
  }
}
