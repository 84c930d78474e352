/** The characters that decode reads, said in numbers: the values that they stand for, and the bytes that these give. */
module CodecRead {
  import opened Codec
  import opened CodecText

  /** Two characters as a number in base 91. */
  function Base91(x: Byte, y: Byte): int {
    91 * (x - 32) + (y - 32)
  }

  /** The values `v` of the characters `t` of a unit: two for each pair, and a last one made of the top bits of all
      pairs; a unit may be cut short. */
  ghost predicate UnitReads(t: seq<Byte>, v: seq<nat>) {
    && |t| % 2 == 0 && |t| <= 12 && 0 < |v| <= |t| + 1
    && (forall i | 0 <= i < |v| :: v[i] < 64)
    && (forall k: nat | 2 * k < |t| :: PairReads(t, v, k))
    && (|v| == |t| + 1 ==> forall i: nat | i < 6 :: TopReads(t, v[|t|], i))
  }

  predicate PairReads(t: seq<Byte>, v: seq<nat>, k: nat) {
    && 2 * k + 1 < |t|
    && (2 * k + 1 < |v| ==> Base64(0, 0, v[2 * k], v[2 * k + 1]) == Base91(t[2 * k], t[2 * k + 1]) % 4096)
    && (2 * k + 1 == |v| ==> v[2 * k] == Base91(t[2 * k], t[2 * k + 1]) % 4096 / 64)
  }

  predicate TopReads(t: seq<Byte>, top: nat, i: nat) {
    && i < 6 && |t| % 2 == 0 && |t| <= 12
    && var gap := 6 - |t| / 2;
       BitAt(top, i) == if i < gap then 0 else Base91(t[2 * (i - gap)], t[2 * (i - gap) + 1]) / 4096 % 2
  }

  /** The values of `m` full units; a marker and its count may follow, and one more unit. */
  ghost predicate TextReads(text: seq<Byte>, vs: seq<nat>, m: nat) {
    && 12 * m <= |text| && 13 * m <= |vs|
    && (forall j: nat | j < m :: UnitReads(text[12 * j..12 * j + 12], vs[13 * j..13 * j + 13]))
    && if |text| == 12 * m then |vs| == 13 * m
       else
         && 12 * m + 3 <= |text| && text[12 * m] == text[12 * m + 1] == 122
         && text[12 * m + 2] as int == 32 + |vs| - 13 * m && UnitReads(text[12 * m + 3..], vs[13 * m..])
  }

  predicate QuadReads(vs: seq<nat>, out: seq<Byte>, j: nat) {
    && 4 * j + 4 <= |vs| && 3 * j + 3 <= |out|
    && Base256(out[3 * j], out[3 * j + 1], out[3 * j + 2]) ==
       Base64(vs[4 * j], vs[4 * j + 1], vs[4 * j + 2], vs[4 * j + 3])
  }

  /** The first bytes of the number that four values make. */
  ghost predicate EndReads(v: seq<nat>, end: seq<Byte>) {
    |v| == 4 && |end| <= 3 &&
    exists t: seq<Byte> :: |t| == 3 && end == t[..|end|] && Base256(t[0], t[1], t[2]) == Base64(v[0], v[1], v[2], v[3])
  }

  /** The bytes of `r` times four values.  In a marked text up to four more values follow, of which the last says how
      many bytes they give, but no more than three; they are filled up with those before them. */
  ghost predicate BytesRead(vs: seq<nat>, before: seq<nat>, out: seq<Byte>, r: nat, marked: bool)
    requires |before| == 4
  {
    && 4 * r <= |vs|
    && (forall j: nat | j < r :: QuadReads(vs, out, j))
    && if marked then
         && 4 * r < |vs| <= 4 * r + 4
         && var k := vs[|vs| - 1];
            |out| == 3 * r + (if k > 3 then 3 else k)
            && EndReads(vs[4 * r..] + (if r == 0 then before else vs[4 * r - 4..4 * r])[|vs| - 4 * r..], out[3 * r..])
       else |vs| < 4 * r + 4 && |out| == 3 * r
  }

  predicate Marked(text: seq<Byte>, p: nat) {
    p + 2 <= |text| && text[p] == 122 && text[p + 1] == 122
  }

  // --- the values of a unit -------------------------------------------------------------------

  lemma {:induction false} PairNumbers(u: seq<Digit>, k: nat)
    requires 2 * k + 1 < |u|
    ensures var vs, c := PairValues(u), Value(u[2 * k], u[2 * k + 1]);
            && |vs| == |u| - |u| % 2 && 2 * k + 1 < |vs|
            && Base64(0, 0, vs[2 * k], vs[2 * k + 1]) == c % 4096
  {
    hide Value;
    if k == 0 {
      var c := Value(u[0], u[1]);
      Parts(c);
      UnfoldPair(u, 0);
      hide TwoValues;
      assert PairValues(u)[..2] == TwoValues(c);
    } else {
      UnfoldPair(u, 0);
      PairNumbers(u[2..], k - 1);
      hide TwoValues, PairValues;
      Behind(TwoValues(Value(u[0], u[1])), PairValues(u[2..]), 2 * (k - 1));
      Behind(TwoValues(Value(u[0], u[1])), PairValues(u[2..]), 2 * (k - 1) + 1);
      assert u[2..][2 * (k - 1)] == u[2 * k] && u[2..][2 * (k - 1) + 1] == u[2 * k + 1];
    }
  }

  lemma Parts(c: nat)
    ensures 64 * (c / 64 % 64) + c % 64 == c % 4096
  {
    assert c == 4096 * (c / 4096) + c % 4096;
    assert c / 64 == 64 * (c / 4096) + c % 4096 / 64;
  }

  lemma BitMoves(acc: nat, b: nat, i: nat)
    requires acc < 32 && b <= 1 && i < 6
    ensures BitAt(2 * acc + b, i) == if i < 5 then BitAt(acc, i + 1) else b
  {}

  /** The values that `h` more top bits can be added to. */
  function Room(h: nat): nat
    requires h <= 6
  {
    match h case 0 => 64 case 1 => 32 case 2 => 16 case 3 => 8 case 4 => 4 case 5 => 2 case _ => 1
  }

  lemma {:induction false} TopNumbers(u: seq<Digit>, h: nat, acc: nat, i: nat)
    requires |u| == 2 * h <= 12 && acc < Room(h) && i < 6
    ensures TopBits(u, acc) < 64
    ensures BitAt(TopBits(u, acc), i) ==
            if i < 6 - h then BitAt(acc, i + h)
            else Value(u[2 * (i - (6 - h))], u[2 * (i - (6 - h)) + 1]) / 4096 % 2
  {
    hide Value, BitAt;
    if h > 0 {
      var b := TopBit(Value(u[0], u[1]));
      UnfoldPair(u, acc);
      assert 2 * acc + b < Room(h - 1);
      TopNumbers(u[2..], h - 1, 2 * acc + b, i);
      if i <= 6 - h {
        BitMoves(acc, b, i + h - 1);
      }
    }
  }

  // --- the bytes of four values ---------------------------------------------------------------

  lemma Small(x: nat, n: nat)
    requires x < n
    ensures x % n == x
  {}

  lemma FirstNumber(v0: nat, q: nat, r: nat)
    requires v0 < 64 && q < 4 && r < 16
    ensures Byte0(v0, 16 * q + r) == 4 * v0 + q
  {
    Small(q, 4);
    Small(4 * v0 + q, 256);
    assert (16 * q + r) / 16 == q;
  }

  lemma SecondNumber(q: nat, r: nat, p: nat, o: nat)
    requires q < 4 && r < 16 && p < 16 && o < 4
    ensures Byte1(16 * q + r, 4 * p + o) == 16 * r + p
  {
    Small(p, 16);
    assert (4 * p + o) / 4 == p;
    assert 16 * (16 * q + r) + p == 256 * q + (16 * r + p);
  }

  lemma ThirdNumber(q: nat, r: nat, v3: nat)
    requires q < 16 && r < 4 && v3 < 64
    ensures Byte2(4 * q + r, v3) == 64 * r + v3
  {
    Small(v3, 64);
    assert 64 * (4 * q + r) + v3 == 256 * q + (64 * r + v3);
  }

  lemma Divided(v: nat, n: nat) returns (q: nat, r: nat)
    requires n > 0
    ensures v == n * q + r && r < n
  {
    q, r := v / n, v % n;
  }

  lemma QuadNumber(v: seq<nat>)
    requires |v| == 4 && v[0] < 64 && v[1] < 64 && v[2] < 64 && v[3] < 64
    ensures var b := Quad(v); Base256(b[0], b[1], b[2]) == Base64(v[0], v[1], v[2], v[3])
  {
    hide Byte0, Byte1, Byte2, Base64, Base256;
    var q1, r1 := Divided(v[1], 16);
    var q2, r2 := Divided(v[2], 4);
    FirstNumber(v[0], q1, r1);
    SecondNumber(q1, r1, q2, r2);
    ThirdNumber(q2, r2, v[3]);
    Sums(v[0], q1, r1, q2, r2, v[3]);
  }

  lemma Sums(v0: nat, q1: nat, r1: nat, q2: nat, r2: nat, v3: nat)
    ensures Base256(4 * v0 + q1, 16 * r1 + q2, 64 * r2 + v3) == Base64(v0, 16 * q1 + r1, 4 * q2 + r2, v3)
  {}

  lemma DigitNumbers(t: seq<Byte>, k: nat)
    requires Printable(t) && k + 1 < |t|
    ensures Value(Digits(t)[k], Digits(t)[k + 1]) == Base91(t[k], t[k + 1])
  {}

  lemma UnitPrefix(u: seq<Digit>, last: nat, j: nat)
    requires |u| % 2 == 0 && last <= |u| + 1 && j < |u|
    ensures |UnitValues(u, last)| == (if last == 0 then |u| + 1 else last) && |PairValues(u)| == |u|
    ensures j < |UnitValues(u, last)| ==> UnitValues(u, last)[j] == PairValues(u)[j]
  {
    hide PairValues, TopBits;
  }

  lemma PairOf(t: seq<Byte>, last: nat, k: nat)
    requires Printable(t) && 2 * k + 1 < |t| <= 12 && |t| % 2 == 0 && last <= |t| + 1
    ensures PairReads(t, UnitValues(Digits(t), last), k)
  {
    var u := Digits(t);
    hide Value, PairValues, TopBits, Base64, Base91, Digits, UnitValues;
    UnitPrefix(u, last, 2 * k);
    UnitPrefix(u, last, 2 * k + 1);
    PairNumbers(u, k);
    DigitNumbers(t, 2 * k);
    HalfNumber(PairValues(u)[2 * k], PairValues(u)[2 * k + 1]);
  }

  lemma TopOf(t: seq<Byte>, h: nat, i: nat)
    requires Printable(t) && |t| == 2 * h <= 12 && i < 6
    ensures TopReads(t, TopBits(Digits(t), 0), i) && TopBits(Digits(t), 0) < 64
  {
    hide Value, TopBits, Base91, BitAt, Digits;
    TopNumbers(Digits(t), h, 0, i);
    NoBits(i);
    if i >= 6 - h {
      DigitNumbers(t, 2 * (i - (6 - h)));
    }
  }

  lemma UnitNumbers(t: seq<Byte>, last: nat)
    requires Printable(t) && 0 < |t| <= 12 && |t| % 2 == 0 && last <= |t| + 1
    ensures UnitReads(t, UnitValues(Digits(t), last))
    ensures |UnitValues(Digits(t), last)| == if last == 0 then |t| + 1 else last
  {
    var h, v := |t| / 2, UnitValues(Digits(t), last);
    hide PairReads, TopReads, TopBits, PairValues, Digits;
    TopOf(t, h, 0);
    forall k: nat | 2 * k < |t| ensures PairReads(t, v, k) {
      assert 2 * k + 1 < |t|;
      PairOf(t, last, k);
    }
    forall i: nat | i < 6 ensures TopReads(t, TopBits(Digits(t), 0), i) {
      TopOf(t, h, i);
    }
  }

  lemma HalfNumber(a: nat, b: nat)
    requires b < 64
    ensures Base64(0, 0, a, b) / 64 == a
  {}

  lemma NoBits(i: nat)
    requires i < 6
    ensures forall j: nat | j < 6 :: BitAt(0, j) == 0
  {}

  // --- all bytes ------------------------------------------------------------------------------

  lemma QuadMoves(v: seq<nat>, vs: seq<nat>, b: seq<Byte>, out: seq<Byte>, j: nat)
    requires |v| == 4 && |b| == 3 && QuadReads(vs, out, j)
    ensures QuadReads(v + vs, b + out, j + 1)
  {
    hide Base64, Base256;
    Behind(v, vs, 4 * j);
    Behind(v, vs, 4 * j + 1);
    Behind(v, vs, 4 * j + 2);
    Behind(v, vs, 4 * j + 3);
    Behind(b, out, 3 * j);
    Behind(b, out, 3 * j + 1);
    Behind(b, out, 3 * j + 2);
  }

  lemma EndOf(v: seq<nat>, k: nat)
    requires |v| == 4 && k <= 3 && v[0] < 64 && v[1] < 64 && v[2] < 64 && v[3] < 64
    ensures EndReads(v, Quad(v)[..k])
  {
    hide Base64, Base256;
    QuadNumber(v);
    var t := Quad(v);
    assert |t| == 3 && t[..k] == t[..|t[..k]|];
  }

  predicate Values64(vs: seq<nat>) {
    forall i | 0 <= i < |vs| :: vs[i] < 64
  }

  lemma UnpackOne(vs: seq<nat>, buf: seq<nat>, marked: bool)
    requires |buf| == 4 && Values64(vs) && Values64(buf)
    requires if marked then 0 < |vs| <= 4 else |vs| < 4
    ensures BytesRead(vs, buf, Unpack(vs, buf, marked), 0, marked)
  {
    if marked {
      hide Quad, EndReads;
      var v, k := vs + buf[|vs|..], vs[|vs| - 1];
      EndOf(v, if k >= 3 then 3 else k);
      assert vs[0..] == vs && Quad(v)[..3] == Quad(v);
      var out := Unpack(vs, buf, marked);
      assert out[0..] == out;
    }
  }

  lemma UnpackMore(vs: seq<nat>, buf: seq<nat>, marked: bool)
    requires |buf| == 4 && (|vs| > 4 || (|vs| == 4 && !marked))
    ensures Unpack(vs, buf, marked) == Quad(vs[..4]) + Unpack(vs[4..], vs[..4], marked)
  {}

  lemma Slices(v: seq<nat>, more: seq<nat>, i: nat)
    requires |v| == 4 && i <= |more|
    ensures (v + more)[i + 4..] == more[i..]
    ensures (v + more)[i..i + 4] == if i < 4 then v[i..] + more[..i] else more[i - 4..i]
  {}

  lemma EndMoves(v: seq<nat>, more: seq<nat>, before: seq<nat>, r: nat)
    requires |v| == |before| == 4 && 4 * r < |more| <= 4 * r + 4
    ensures (v + more)[4 * (r + 1)..] + (v + more)[4 * r..4 * (r + 1)][|more| - 4 * r..]
         == more[4 * r..] + (if r == 0 then v else more[4 * r - 4..4 * r])[|more| - 4 * r..]
  {
    var i := 4 * r;
    Slices(v, more, i);
    assert v[0..] + more[..0] == v;
    assert 4 * (r + 1) == i + 4;
  }

  lemma QuadsMove(v: seq<nat>, more: seq<nat>, b: seq<Byte>, rest: seq<Byte>, r: nat)
    requires |v| == 4 && |b| == 3 && Base256(b[0], b[1], b[2]) == Base64(v[0], v[1], v[2], v[3])
    requires forall j: nat | j < r :: QuadReads(more, rest, j)
    ensures forall j: nat | j < r + 1 :: QuadReads(v + more, b + rest, j)
  {
    hide Base64, Base256;
    forall j: nat | j < r + 1 ensures QuadReads(v + more, b + rest, j) {
      if j > 0 {
        QuadMoves(v, more, b, rest, j - 1);
      }
    }
  }

  lemma BytesMove(v: seq<nat>, more: seq<nat>, before: seq<nat>, b: seq<Byte>, rest: seq<Byte>, r: nat, marked: bool)
    requires |v| == |before| == 4 && |b| == 3 && Base256(b[0], b[1], b[2]) == Base64(v[0], v[1], v[2], v[3])
    requires BytesRead(more, v, rest, r, marked)
    ensures BytesRead(v + more, before, b + rest, r + 1, marked)
  {
    QuadsMove(v, more, b, rest, r);
    hide QuadReads, EndReads, Base64, Base256;
    var vs, out := v + more, b + rest;
    if marked {
      EndMoves(v, more, before, r);
      Behind(v, more, |more| - 1);
      assert out[3 * (r + 1)..] == rest[3 * r..] by {
        Dropped(b, rest, 3 * r);
      }
    }
  }

  lemma Dropped(b: seq<Byte>, rest: seq<Byte>, i: nat)
    requires |b| == 3 && i <= |rest|
    ensures (b + rest)[i + 3..] == rest[i..]
  {}

  lemma {:induction false} UnpackReads(vs: seq<nat>, buf: seq<nat>, marked: bool, r: nat)
    requires |buf| == 4 && Values64(vs) && Values64(buf)
    requires if marked then 4 * r < |vs| <= 4 * r + 4 else 4 * r <= |vs| < 4 * r + 4
    ensures BytesRead(vs, buf, Unpack(vs, buf, marked), r, marked)
  {
    hide Unpack, Quad, BytesRead, Base64, Base256;
    if r == 0 {
      UnpackOne(vs, buf, marked);
    } else {
      var v, more := vs[..4], vs[4..];
      assert vs == v + more;
      UnpackReads(more, v, marked, r - 1);
      UnpackMore(vs, buf, marked);
      QuadLength(v);
      QuadNumber(v);
      BytesMove(v, more, buf, Quad(v), Unpack(more, v, marked), r - 1, marked);
    }
  }

  lemma QuadLength(v: seq<nat>)
    requires |v| == 4
    ensures |Quad(v)| == 3
  {}

  // --- whole texts ----------------------------------------------------------------------------

  /** A text of `m` full units that do not look like the marker, and perhaps the marker, a count and one more unit that
      has as many values. */
  predicate WellFormed(text: seq<Byte>, m: nat) {
    && Printable(text) && 12 * m <= |text|
    && (forall j: nat | j < m :: !Marked(text, 12 * j))
    && (|text| == 12 * m ||
        (var w := |text| - 12 * m - 3;
         && 2 <= w <= 12 && w % 2 == 0 && Marked(text, 12 * m) && 33 <= text[12 * m + 2] as int <= 33 + w
         && !Marked(text, 12 * m + 3)))
  }

  lemma TextMoves(t: seq<Byte>, text: seq<Byte>, v: seq<nat>, vs: seq<nat>, m: nat)
    requires |t| == 12 && |v| == 13 && UnitReads(t, v) && TextReads(text, vs, m)
    ensures TextReads(t + text, v + vs, m + 1)
  {
    hide UnitReads;
    var a, b := t + text, v + vs;
    forall j: nat | j < m + 1 ensures UnitReads(a[12 * j..12 * j + 12], b[13 * j..13 * j + 13]) {
      if j == 0 {
        assert a[0..12] == t && b[0..13] == v;
      } else {
        assert a[12 * j..12 * j + 12] == text[12 * (j - 1)..12 * (j - 1) + 12];
        assert b[13 * j..13 * j + 13] == vs[13 * (j - 1)..13 * (j - 1) + 13];
      }
    }
    if |text| != 12 * m {
      Behind(t, text, 12 * m);
      Behind(t, text, 12 * m + 1);
      Behind(t, text, 12 * m + 2);
      assert a[12 * (m + 1) + 3..] == text[12 * m + 3..] && b[13 * (m + 1)..] == vs[13 * m..];
    }
  }

  lemma FormMoves(text: seq<Byte>, m: nat)
    requires m > 0 && WellFormed(text, m)
    ensures WellFormed(text[12..], m - 1) && !Marked(text, 0) && Printable(text[..12])
  {
    var rest := text[12..];
    assert forall i: nat | i < |rest| :: rest[i] == text[i + 12];
    assert !Marked(text, 12 * 0);
    forall j: nat | j < m - 1 ensures !Marked(rest, 12 * j) {
      assert !Marked(text, 12 * (j + 1));
    }
  }

  /** The values of a text, as the decoder takes it apart. */
  lemma {:induction false} ValuesRead(text: seq<Byte>, m: nat)
    requires WellFormed(text, m)
    ensures Understood(text, m)
    ensures Units(Digits(text), 0).1 == if |text| == 12 * m then 0 else text[12 * m + 2] - 32
  {
    hide Units, UnitValues, UnitReads, AllValues, Sized, Understood, TextReads;
    if m == 0 {
      NothingRead();
      if text != [] {
        LastRead(text);
      }
    } else {
      var t, rest := text[..12], text[12..];
      FormMoves(text, m);
      ValuesRead(rest, m - 1);
      assert t + rest == text;
      FirstRead(t, rest, m - 1);
    }
  }

  /** The values of a text, as `ValuesRead` says. */
  ghost predicate Understood(text: seq<Byte>, m: nat)
    requires Printable(text) && 12 * m <= |text|
  {
    var (us, last) := Units(Digits(text), 0);
    && Sized(us, last) && (us == [] <==> text == []) && (text == [] ==> last == 0)
    && TextReads(text, AllValues(us, last), m) && Values64(AllValues(us, last))
  }

  lemma FirstUnit(t: seq<Byte>, rest: seq<Byte>)
    requires |t| == 12 && Printable(t) && Printable(rest) && !Marked(t, 0)
    ensures Printable(t + rest)
    ensures Units(Digits(t + rest), 0) == ([Digits(t)] + Units(Digits(rest), 0).0, Units(Digits(rest), 0).1)
  {
    assert Digits(t + rest) == Digits(t) + Digits(rest);
    InnerUnit(Digits(t), Digits(rest), 0);
  }

  lemma FirstRead(t: seq<Byte>, rest: seq<Byte>, m: nat)
    requires |t| == 12 && Printable(t) && Printable(rest) && !Marked(t, 0) && 12 * m <= |rest| && Understood(rest, m)
    ensures Printable(t + rest) && Understood(t + rest, m + 1)
    ensures Units(Digits(t + rest), 0).1 == Units(Digits(rest), 0).1
  {
    FirstUnit(t, rest);
    UnitNumbers(t, 0);
    var (us, last) := Units(Digits(rest), 0);
    var u := Digits(t);
    var v := UnitValues(u, 0);
    UnitSmall(t, v);
    hide Units, UnitValues, UnitReads, AllValues, Sized, TextReads;
    if us == [] {
      assert [u] + us == [u];
      OneSized(u);
      OneUnit(u, 0);
      EmptyReads(rest, m);
      assert v + [] == v;
      TextMoves(t, rest, v, [], m);
    } else {
      ConsValues(u, us, last);
      TextMoves(t, rest, v, AllValues(us, last), m);
    }
  }

  lemma NothingRead()
    ensures Digits([]) == [] && Understood([], 0) && Units([], 0).1 == 0
  {}

  lemma OneSized(u: seq<Digit>)
    requires |u| == 12
    ensures Sized([u], 0)
  {}

  lemma EmptyReads(text: seq<Byte>, m: nat)
    requires text == [] && 12 * m <= |text|
    ensures TextReads(text, [], m)
  {}

  lemma UnitSmall(t: seq<Byte>, v: seq<nat>)
    requires UnitReads(t, v)
    ensures Values64(v)
  {}

  lemma LastRead(text: seq<Byte>)
    requires WellFormed(text, 0) && text != []
    ensures var (us, last) := Units(Digits(text), 0);
            && Understood(text, 0) && last == text[2] - 32
  {
    hide Units, UnitValues, UnitReads, AllValues;
    var t, n := text[3..], text[2] - 32;
    assert Digits(text) == [MARK, MARK, n] + Digits(t);
    MarkedInverts(Digits(t), n, 0);
    UnitNumbers(t, n);
    UnitSmall(t, UnitValues(Digits(t), n));
    OneUnit(Digits(t), n);
    var v := UnitValues(Digits(t), n);
    assert v[0..] == v;
  }

  /** What the decoder makes of any text that has the form of a code, said of its characters: the values, and the bytes
      that they give. */
  lemma Reads(text: seq<Byte>, m: nat) returns (vs: seq<nat>, r: nat)
    requires WellFormed(text, m)
    ensures Decoded(text).0.Done? && TextReads(text, vs, m)
    ensures BytesRead(vs, [0, 0, 0, 0], Decoded(text).1, r, |text| > 12 * m)
  {
    hide Units, UnitReads, AllValues, Sized, Unpack, QuadReads, EndReads;
    ValuesRead(text, m);
    var (us, last) := Units(Digits(text), 0);
    vs := AllValues(us, last);
    r := if |text| > 12 * m then (|vs| - 1) / 4 else |vs| / 4;
    UnpackReads(vs, [0, 0, 0, 0], last > 0, r);
  }

  /** Any character but those from the space to "z" is bad data. */
  lemma BadCharacters(text: seq<Byte>)
    ensures Decoded(text).0.BadData? <==> exists i :: 0 <= i < |text| && (text[i] < ' ' as int || text[i] > 'z' as int)
  {
    hide Units, Unpack, AllValues, Sized;
  }
}
