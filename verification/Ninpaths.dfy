/** ninpaths, the dump file of a table of hosts and of the links between them: it is written as text, with the hosts
    numbered, and read back into a table that may already have some of the hosts. */
module Ninpaths {

  const MAXHOST := 128
  const RECLINE := 120
  const HASH_TBL := 65536

  // --- scanning text --------------------------------------------------------------------------

  datatype Scan<T> = Fail(rest: string) | Got(value: T, rest: string)

  predicate White(c: char) {
    c == ' ' || '\t' <= c <= '\r'
  }

  predicate Digit(c: char) {
    '0' <= c <= '9'
  }

  predicate AllDigits(w: string) {
    forall i | 0 <= i < |w| :: Digit(w[i])
  }

  function SkipWhite(s: string): string {
    if s != "" && White(s[0]) then SkipWhite(s[1..]) else s
  }

  /** The longest prefix without white space, of at most `max` characters. */
  function TakeWord(s: string, max: nat): (r: (string, string))
    ensures r.0 + r.1 == s
  {
    if max == 0 || s == "" || White(s[0]) then ("", s)
    else
      var (w, t) := TakeWord(s[1..], max - 1);
      ([s[0]] + w, t)
  }

  function TakeDigits(s: string): (r: (string, string))
    ensures r.0 + r.1 == s && AllDigits(r.0)
  {
    if s == "" || !Digit(s[0]) then ("", s)
    else
      var (w, t) := TakeDigits(s[1..]);
      ([s[0]] + w, t)
  }

  function Value(digits: string): nat
    requires AllDigits(digits)
  {
    if digits == "" then 0
    else
      assert Digit(digits[|digits| - 1]);
      10 * Value(digits[..|digits| - 1]) + (digits[|digits| - 1] as int - '0' as int)
  }

  /** The conversion %s with a maximal width. */
  function ScanWord(s: string, max: nat): Scan<string> {
    var t := SkipWhite(s);
    var (w, u) := TakeWord(t, max);
    if w == "" then Fail(u) else Got(w, u)
  }

  /** The conversions %d and %ld. */
  function ScanInt(s: string): Scan<int> {
    var t := SkipWhite(s);
    var minus := t != "" && t[0] == '-';
    var (w, u) := TakeDigits(if minus || (t != "" && t[0] == '+') then t[1..] else t);
    var n: int := Value(w);
    if w == "" then Fail(u) else Got(if minus then -n else n, u)
  }

  /** A literal of the format. */
  function ScanLiteral(s: string, lit: string): Scan<()> {
    if lit <= s then Got((), s[|lit|..]) else Fail(s)
  }

  /** The conversion of a number to text. */
  function Nat(n: nat): (r: string)
    ensures r != "" && AllDigits(r) && Value(r) == n
  {
    var last := [(n % 10 + '0' as int) as char];
    if n < 10 then
      assert last[..0] == "";
      last
    else
      var r := Nat(n / 10) + last;
      assert r[..|r| - 1] == Nat(n / 10);
      r
  }

  function Int(n: int): string {
    if n < 0 then "-" + Nat(-n) else Nat(n)
  }

  /** The text does not go on with a digit. */
  predicate NoDigit(t: string) {
    t == "" || !Digit(t[0])
  }

  lemma {:induction false} DigitsTaken(w: string, t: string)
    requires AllDigits(w) && NoDigit(t)
    ensures TakeDigits(w + t) == (w, t)
  {
    if w == "" {
      assert w + t == t;
    } else {
      assert (w + t)[1..] == w[1..] + t && [w[0]] + w[1..] == w;
      DigitsTaken(w[1..], t);
    }
  }

  lemma IntScanned(n: int, t: string)
    requires NoDigit(t)
    ensures ScanInt(Int(n) + t) == Got(n, t) && Int(n) != "" && !White(Int(n)[0])
  {
    var w := Nat(if n < 0 then -n else n);
    assert Digit(w[0]);
    DigitsTaken(w, t);
    hide TakeDigits, Nat, Value, AllDigits, SkipWhite;
    if n < 0 {
      Minus(w, t);
    } else {
      NotWhite(w + t);
    }
  }

  lemma NotWhite(s: string)
    requires s != "" && !White(s[0])
    ensures SkipWhite(s) == s
  {}

  lemma Minus(w: string, t: string)
    ensures var s := ("-" + w) + t;
            SkipWhite(s) == s && s[0] == '-' && s[1..] == w + t
  {
    var s := ("-" + w) + t;
    assert s[1..] == w + t;
  }

  lemma {:induction false} WordTaken(w: string, t: string, max: nat)
    requires |w| <= max && (forall i | 0 <= i < |w| :: !White(w[i])) && t != "" && White(t[0])
    ensures TakeWord(w + t, max) == (w, t)
  {
    if w == "" {
      assert w + t == t;
    } else {
      assert (w + t)[1..] == w[1..] + t && [w[0]] + w[1..] == w;
      WordTaken(w[1..], t, max - 1);
    }
  }

  predicate Word(w: string, max: nat) {
    0 < |w| <= max && forall i | 0 <= i < |w| :: !White(w[i])
  }

  lemma WordScanned(w: string, t: string, max: nat)
    requires Word(w, max) && t != "" && White(t[0])
    ensures ScanWord(w + t, max) == Got(w, t)
  {
    assert !White(w[0]) && (w + t)[0] == w[0];
    WordTaken(w, t, max);
  }

  // --- the dump file --------------------------------------------------------------------------

  /** A host and the number of articles sent from it; a link to a numbered host with its tally; all links of a host. */
  datatype HostRec = HostRec(name: string, count: int)
  datatype LinkRec = LinkRec(b: nat, tally: int)
  datatype Row = Row(a: nat, links: seq<LinkRec>)

  datatype Dump = Dump(start: nat, end: nat, total: int, avg: int, hosts: seq<HostRec>, rows: seq<Row>)

  datatype Head = Head(version: string, start: int, end: int, sites: int, total: int, avg: int)

  const MAGIC := "!!NINP"
  const VERSION := "3.1.1"
  const NLREC := "!!NLREC"
  const NLEND := "!!NLEND"

  function HeadText(start: int, end: int, sites: int, total: int, avg: int): string {
    MAGIC + " " + (VERSION + " " + (Int(start) + " " + (Int(end) + " " + (Int(sites) + " "
    + (Int(total) + " " + (Int(avg) + "\n"))))))
  }

  function HeadOf(d: Dump): string {
    HeadText(d.start, d.end, |d.hosts|, d.total, d.avg)
  }

  function HostText(h: HostRec): string {
    h.name + " " + Int(h.count)
  }

  /** How much of the output line is used before the `i`th host: lines are broken after 120 characters. */
  function HostColumn(hosts: seq<HostRec>, i: nat): nat
    requires i <= |hosts|
  {
    if i == 0 then 0 else
      var j := HostColumn(hosts, i - 1) + |HostText(hosts[i - 1])|;
      if j > RECLINE then 0 else j
  }

  function HostEnd(hosts: seq<HostRec>, i: nat): string
    requires i < |hosts|
  {
    if HostColumn(hosts, i) + |HostText(hosts[i])| > RECLINE then "\n" else " "
  }

  function HostsFrom(hosts: seq<HostRec>, i: nat): string
    requires i <= |hosts|
    decreases |hosts| - i
  {
    if i == |hosts| then "" else HostText(hosts[i]) + (HostEnd(hosts, i) + HostsFrom(hosts, i + 1))
  }

  function LinkText(l: LinkRec): string {
    "!" + (Int(l.b) + if l.tally > 1 then "," + Int(l.tally) else "")
  }

  function LinksFrom(links: seq<LinkRec>, k: nat): string
    requires k <= |links|
    decreases |links| - k
  {
    if k == |links| then "" else LinkText(links[k]) + LinksFrom(links, k + 1)
  }

  function RowText(r: Row): string {
    ":" + (Int(r.a) + LinksFrom(r.links, 0))
  }

  function RowColumn(rows: seq<Row>, i: nat): nat
    requires i <= |rows|
  {
    if i == 0 then 0 else
      var j := RowColumn(rows, i - 1) + |RowText(rows[i - 1])|;
      if j > RECLINE then 0 else j
  }

  function RowEnd(rows: seq<Row>, i: nat): string
    requires i < |rows|
  {
    if RowColumn(rows, i) + |RowText(rows[i])| > RECLINE then "\n" else ""
  }

  function RowsFrom(rows: seq<Row>, i: nat): string
    requires i <= |rows|
    decreases |rows| - i
  {
    if i == |rows| then "" else RowText(rows[i]) + (RowEnd(rows, i) + RowsFrom(rows, i + 1))
  }

  function LinkCount(rows: seq<Row>): nat {
    if rows == [] then 0 else LinkCount(rows[..|rows| - 1]) + |rows[|rows| - 1].links|
  }

  function EndText(n: int): string {
    "\n" + (NLEND + (" " + (Int(n) + "\n")))
  }

  function Middle(): string {
    "\n" + (NLREC + "\n")
  }

  function Render(d: Dump): string {
    HeadOf(d) + (HostsFrom(d.hosts, 0) + (Middle() + (RowsFrom(d.rows, 0) + EndText(LinkCount(d.rows)))))
  }

  // --- reading it piece by piece --------------------------------------------------------------

  /** A word or a number and the text after it, for a format in which white space follows. */
  function ThenWhite<T>(s: Scan<T>): Scan<T> {
    match s case Got(v, t) => Got(v, SkipWhite(t)) case Fail(t) => Fail(t)
  }

  function ScanHead(s: string): Scan<Head> {
    var m := ScanLiteral(s, MAGIC);
    if m.Fail? then Fail(m.rest) else ScanFields(m.rest)
  }

  function ScanFields(s: string): Scan<Head> {
    var v := ScanWord(s, 15);
    if v.Fail? then Fail(v.rest) else
      var a := ScanInt(v.rest);
      if a.Fail? then Fail(a.rest) else
        var b := ScanInt(a.rest);
        if b.Fail? then Fail(b.rest) else
          var c := ScanInt(b.rest);
          if c.Fail? then Fail(c.rest) else
            var d := ScanInt(c.rest);
            if d.Fail? then Fail(d.rest) else
              var e := ScanInt(d.rest);
              if e.Fail? then Fail(e.rest) else
                Got(Head(v.value, a.value, b.value, c.value, d.value, e.value), SkipWhite(e.rest))
  }

  function ScanHost(s: string): Scan<HostRec> {
    var w := ScanWord(s, MAXHOST - 1);
    if w.Fail? then Fail(w.rest) else
      var n := ScanInt(w.rest);
      if n.Fail? then Fail(n.rest) else Got(HostRec(w.value, n.value), SkipWhite(n.rest))
  }

  function ScanRow(s: string): Scan<int> {
    var c := ScanLiteral(SkipWhite(s), ":");
    if c.Fail? then Fail(c.rest) else ScanInt(c.rest)
  }

  /** A link; without a tally it counts once. */
  function ScanLink(s: string): Scan<(int, int)> {
    var m := ScanLiteral(s, "!");
    if m.Fail? then Fail(m.rest) else
      var b := ScanInt(m.rest);
      if b.Fail? then Fail(b.rest) else
        var c := ScanLiteral(b.rest, ",");
        if c.Fail? then Got((b.value, 1), b.rest) else
          var t := ScanInt(c.rest);
          if t.Fail? then Got((b.value, 1), t.rest) else Got((b.value, t.value), t.rest)
  }

  /** A link in the format of version 3.0. */
  function ScanOldRow(s: string): Scan<(int, int, int)> {
    var a := ScanInt(s);
    if a.Fail? then Fail(a.rest) else
      var m := ScanLiteral(a.rest, "!");
      if m.Fail? then Fail(m.rest) else
        var b := ScanInt(m.rest);
        if b.Fail? then Fail(b.rest) else
          var c := ScanLiteral(b.rest, "!");
          if c.Fail? then Fail(c.rest) else
            var l := ScanInt(c.rest);
            if l.Fail? then Fail(l.rest) else Got((a.value, b.value, l.value), SkipWhite(l.rest))
  }

  function ScanEnd(s: string): Scan<int> {
    var m := ScanLiteral(s, NLEND);
    if m.Fail? then Fail(m.rest) else ThenWhite(ScanInt(m.rest))
  }

  /** What is read for a tally that was written. */
  function Effective(tally: int): int {
    if tally > 1 then tally else 1
  }

  lemma {:induction false} SkipTwice(s: string)
    ensures SkipWhite(SkipWhite(s)) == SkipWhite(s)
  {
    if s != "" && White(s[0]) {
      SkipTwice(s[1..]);
    }
  }

  lemma IntAfterSpace(n: int, t: string)
    requires NoDigit(t)
    ensures ScanInt(" " + (Int(n) + t)) == Got(n, t)
  {
    IntScanned(n, t);
    var u := Int(n) + t;
    hide Int, ScanInt;
    assert (" " + u)[1..] == u;
    SpaceBefore(u);
  }

  lemma SpaceSkipped(u: string)
    requires u != "" && !White(u[0])
    ensures SkipWhite(" " + u) == u == SkipWhite(u)
  {
    assert (" " + u)[1..] == u;
  }

  lemma SpaceBefore(u: string)
    requires u != "" && !White(u[0])
    ensures ScanInt(" " + u) == ScanInt(u)
    ensures forall m: nat :: ScanWord(" " + u, m) == ScanWord(u, m)
  {
    hide SkipWhite, TakeWord, TakeDigits, Value;
    SpaceSkipped(u);
  }

  lemma HostScanned(h: HostRec, sep: string, t: string)
    requires Word(h.name, MAXHOST - 1) && |sep| == 1 && White(sep[0])
    ensures ScanHost(HostText(h) + (sep + t)) == Got(h, SkipWhite(t))
    ensures SkipWhite(HostText(h) + (sep + t)) == HostText(h) + (sep + t)
  {
    var u := " " + (Int(h.count) + (sep + t));
    assert HostText(h) + (sep + t) == h.name + u;
    assert !White(h.name[0]) && (h.name + u)[0] == h.name[0];
    WordScanned(h.name, u, MAXHOST - 1);
    IntAfterSpace(h.count, sep + t);
    assert (sep + t)[1..] == t;
    hide ScanInt, ScanWord;
  }

  lemma LiteralScanned(lit: string, t: string)
    ensures ScanLiteral(lit + t, lit) == Got((), t)
  {
    assert (lit + t)[|lit|..] == t;
  }

  lemma LinkScanned(l: LinkRec, t: string)
    requires NoDigit(t) && (t != "" ==> t[0] != ',')
    ensures ScanLink(LinkText(l) + t) == Got((l.b, Effective(l.tally)), t)
  {
    var v := if l.tally > 1 then "," + (Int(l.tally) + t) else t;
    assert LinkText(l) + t == "!" + (Int(l.b) + v);
    LiteralScanned("!", Int(l.b) + v);
    IntScanned(l.b, v);
    hide ScanInt, Int;
    if l.tally > 1 {
      LiteralScanned(",", Int(l.tally) + t);
      IntScanned(l.tally, t);
    }
  }

  lemma RowScanned(a: nat, t: string)
    requires NoDigit(t)
    ensures ScanRow(":" + (Int(a) + t)) == Got(a, t)
    ensures SkipWhite(":" + (Int(a) + t)) == ":" + (Int(a) + t)
  {
    LiteralScanned(":", Int(a) + t);
    IntScanned(a, t);
  }

  lemma HeadScanned(d: Dump, t: string)
    ensures ScanHead(HeadOf(d) + t) ==
            Got(Head(VERSION, d.start, d.end, |d.hosts|, d.total, d.avg), SkipWhite(t))
  {
    hide ScanInt, ScanWord, ScanFields, SkipWhite, Int, HeadOf, ScanLiteral;
    HeadJoined(d, t);
    var f := FieldsText(VERSION, d.start, d.end, |d.hosts|, d.total, d.avg, t);
    LiteralScanned(MAGIC, f);
    VersionIsWord();
    FieldsScanned(VERSION, d.start, d.end, |d.hosts|, d.total, d.avg, t);
  }

  lemma VersionIsWord()
    ensures Word(VERSION, 15)
  {}

  function FieldsText(v: string, a: int, b: int, c: int, d: int, e: int, t: string): string {
    " " + (v + (" " + (Int(a) + (" " + (Int(b) + (" " + (Int(c) + (" " + (Int(d)
    + (" " + (Int(e) + ("\n" + t))))))))))))
  }

  lemma FieldsScanned(v: string, a: int, b: int, c: int, d: int, e: int, t: string)
    requires Word(v, 15)
    ensures ScanFields(FieldsText(v, a, b, c, d, e, t)) == Got(Head(v, a, b, c, d, e), SkipWhite(t))
  {
    hide ScanInt, ScanWord, SkipWhite, Int;
    var t4 := " " + (Int(e) + ("\n" + t));
    var t3 := " " + (Int(d) + t4);
    var t2 := " " + (Int(c) + t3);
    var t1 := " " + (Int(b) + t2);
    var t0 := " " + (Int(a) + t1);
    assert !White((v + t0)[0]);
    SpaceBefore(v + t0);
    WordScanned(v, t0, 15);
    IntAfterSpace(a, t1);
    IntAfterSpace(b, t2);
    IntAfterSpace(c, t3);
    IntAfterSpace(d, t4);
    IntAfterSpace(e, "\n" + t);
    NewlineSkipped(t);
  }

  lemma NewlineSkipped(t: string)
    ensures SkipWhite("\n" + t) == SkipWhite(t)
  {
    assert ("\n" + t)[1..] == t;
  }

  lemma HeadJoined(d: Dump, t: string)
    ensures HeadOf(d) + t == MAGIC + FieldsText(VERSION, d.start, d.end, |d.hosts|, d.total, d.avg, t)
  {
    hide Int;
    var a5 := Int(d.avg) + "\n";
    var a4 := Int(d.total) + " " + a5;
    var a3 := Int(|d.hosts|) + " " + a4;
    var a2 := Int(d.end) + " " + a3;
    var a1 := Int(d.start) + " " + a2;
    var a0 := VERSION + " " + a1;
    assert HeadOf(d) == MAGIC + " " + a0;
    assert a5 + t == Int(d.avg) + ("\n" + t);
    Peel(Int(d.total), a5, t);
    Peel(Int(|d.hosts|), a4, t);
    Peel(Int(d.end), a3, t);
    Peel(Int(d.start), a2, t);
    Peel(VERSION, a1, t);
    Peel(MAGIC, a0, t);
  }

  lemma Peel(x: string, y: string, t: string)
    ensures (x + " " + y) + t == x + (" " + (y + t))
  {}

  // --- the table ------------------------------------------------------------------------------

  /** Links and hosts refer to host records by their place in the pool of records. */
  datatype Link = Link(to: nat, tally: int)
  datatype Rec = Rec(id: string, sentto: int, no: nat, links: seq<Link>)

  /** The chain for a name, for any hash function. */
  function Bucket(hash: string -> nat, n: string): (b: nat)
    ensures b < HASH_TBL
  {
    hash(n) % HASH_TBL
  }

  /** Every record is in the chain of its hash, once, and no two have the same name. */
  predicate ChainsOk(hash: string -> nat, recs: seq<Rec>, ch: seq<seq<nat>>) {
    && |ch| == HASH_TBL
    && (forall b, k | 0 <= b < HASH_TBL && 0 <= k < |ch[b]| ::
          ch[b][k] < |recs| && Bucket(hash, recs[ch[b][k]].id) == b)
    && (forall b, j, k | 0 <= b < HASH_TBL && 0 <= j < k < |ch[b]| :: ch[b][j] != ch[b][k])
    && (forall i | 0 <= i < |recs| :: i in ch[Bucket(hash, recs[i].id)])
    && (forall i, j | 0 <= i < j < |recs| :: recs[i].id != recs[j].id)
  }

  predicate Named(recs: seq<Rec>, i: int, n: string) {
    0 <= i < |recs| && recs[i].id == n
  }

  ghost predicate SentOk(recs: seq<Rec>, sent: map<string, int>) {
    && (forall i | 0 <= i < |recs| :: recs[i].id in sent && sent[recs[i].id] == recs[i].sentto)
    && (forall n | n in sent :: exists i :: Named(recs, i, n))
  }

  /** Record `i` has, as its `k`th, a link to the named pair of hosts. */
  predicate IsLink(recs: seq<Rec>, i: int, k: int, p: (string, string)) {
    && 0 <= i < |recs| && 0 <= k < |recs[i].links| && recs[i].links[k].to < |recs|
    && p == (recs[i].id, recs[recs[i].links[k].to].id)
  }

  predicate LinksOf(r: Rec, n: nat) {
    && (forall k | 0 <= k < |r.links| :: r.links[k].to < n)
    && (forall j, k | 0 <= j < k < |r.links| :: r.links[j].to != r.links[k].to)
  }

  ghost predicate LinksOk(recs: seq<Rec>, tallies: map<(string, string), int>) {
    && (forall i | 0 <= i < |recs| :: LinksOf(recs[i], |recs|))
    && (forall i, k, p | IsLink(recs, i, k, p) :: p in tallies && tallies[p] == recs[i].links[k].tally)
    && (forall p | p in tallies :: exists i, k :: IsLink(recs, i, k, p))
  }

  function AddTo<K>(m: map<K, int>, k: K, n: int): map<K, int> {
    m[k := (if k in m then m[k] else 0) + n]
  }

  lemma NewChain(hash: string -> nat, recs: seq<Rec>, ch: seq<seq<nat>>, n: string)
    requires ChainsOk(hash, recs, ch)
    requires var b := Bucket(hash, n); forall k | 0 <= k < |ch[b]| :: recs[ch[b][k]].id != n
    ensures forall i | 0 <= i < |recs| :: recs[i].id != n
    ensures var b := Bucket(hash, n);
            ChainsOk(hash, recs + [Rec(n, 0, 0, [])], ch[b := [|recs|] + ch[b]])
  {
    hide Bucket;
    var r := recs + [Rec(n, 0, 0, [])];
    var b := Bucket(hash, n);
    var c := ch[b := [|recs|] + ch[b]];
    forall i | 0 <= i < |recs| ensures recs[i].id != n {
      assert i in ch[Bucket(hash, recs[i].id)];
    }
    forall i | 0 <= i < |r| ensures i in c[Bucket(hash, r[i].id)] {
      if i == |recs| {
        assert c[b][0] == i;
      } else {
        assert i in ch[Bucket(hash, recs[i].id)];
      }
    }
  }

  lemma NewSent(recs: seq<Rec>, sent: map<string, int>, n: string)
    requires SentOk(recs, sent) && forall i | 0 <= i < |recs| :: recs[i].id != n
    ensures n !in sent && SentOk(recs + [Rec(n, 0, 0, [])], sent[n := 0])
  {
    var r := recs + [Rec(n, 0, 0, [])];
    assert n in sent ==> exists i :: Named(recs, i, n);
    var s2 := sent[n := 0];
    forall m | m in s2 ensures exists i :: Named(r, i, m) {
      if m == n {
        assert Named(r, |recs|, n);
      } else {
        var i :| Named(recs, i, m);
        assert Named(r, i, m);
      }
    }
  }

  lemma NewLinks(recs: seq<Rec>, tallies: map<(string, string), int>, n: string)
    requires LinksOk(recs, tallies)
    ensures LinksOk(recs + [Rec(n, 0, 0, [])], tallies)
  {
    var r := recs + [Rec(n, 0, 0, [])];
    forall i | 0 <= i < |r| ensures LinksOf(r[i], |r|) {
      assert i < |recs| ==> r[i] == recs[i] && LinksOf(recs[i], |recs|);
    }
    forall i, k, p | IsLink(r, i, k, p) ensures p in tallies && tallies[p] == r[i].links[k].tally {
      assert LinksOf(recs[i], |recs|);
      assert IsLink(recs, i, k, p);
    }
    forall p | p in tallies ensures exists i, k :: IsLink(r, i, k, p) {
      var i, k :| IsLink(recs, i, k, p);
      assert IsLink(r, i, k, p);
    }
  }

  lemma MoreSent(recs: seq<Rec>, sent: map<string, int>, h: nat, l: int)
    requires SentOk(recs, sent) && h < |recs| && forall i, j | 0 <= i < j < |recs| :: recs[i].id != recs[j].id
    ensures var r := recs[h := recs[h].(sentto := recs[h].sentto + l)];
            SentOk(r, AddTo(sent, recs[h].id, l))
  {
    var r := recs[h := recs[h].(sentto := recs[h].sentto + l)];
    forall n | n in sent ensures exists i :: Named(r, i, n) {
      var i :| Named(recs, i, n);
      assert Named(r, i, n);
    }
  }

  /** Records whose names and links are the same. */
  predicate SameLinks(recs: seq<Rec>, r: seq<Rec>) {
    |r| == |recs| && forall i | 0 <= i < |recs| :: r[i].id == recs[i].id && r[i].links == recs[i].links
  }

  lemma LinksStay(recs: seq<Rec>, r: seq<Rec>, tallies: map<(string, string), int>)
    requires LinksOk(recs, tallies) && SameLinks(recs, r)
    ensures LinksOk(r, tallies)
  {
    forall i, k, p | IsLink(r, i, k, p) ensures p in tallies && tallies[p] == r[i].links[k].tally {
      assert IsLink(recs, i, k, p);
    }
    forall p | p in tallies ensures exists i, k :: IsLink(r, i, k, p) {
      var i, k :| IsLink(recs, i, k, p);
      assert IsLink(r, i, k, p);
    }
    forall i | 0 <= i < |r| ensures LinksOf(r[i], |r|) {
      assert LinksOf(recs[i], |recs|);
    }
  }

  lemma ChainsStay(hash: string -> nat, recs: seq<Rec>, r: seq<Rec>, ch: seq<seq<nat>>)
    requires ChainsOk(hash, recs, ch) && |r| == |recs| && forall i | 0 <= i < |recs| :: r[i].id == recs[i].id
    ensures ChainsOk(hash, r, ch)
  {
    hide Bucket;
  }

  predicate UniqueNames(recs: seq<Rec>) {
    forall i, j | 0 <= i < j < |recs| :: recs[i].id != recs[j].id
  }

  lemma OneLink(recs: seq<Rec>, i: int, k: int, j: int, m: int, p: (string, string))
    requires UniqueNames(recs) && IsLink(recs, i, k, p) && IsLink(recs, j, m, p) && LinksOf(recs[i], |recs|)
    ensures i == j && k == m
  {
    assert recs[i].links[k].to == recs[i].links[m].to;
  }

  /** Record `r` after articles were counted on its `k`th link, or after it got a new link. */
  function Counted(x: Rec, k: nat, l: int): Rec
    requires k < |x.links|
  {
    x.(links := x.links[k := x.links[k].(tally := x.links[k].tally + l)])
  }

  function Linked(x: Rec, h: nat): Rec {
    x.(links := [Link(h, 0)] + x.links)
  }

  lemma CountedLink(recs: seq<Rec>, r: nat, k: nat, l: int, i: int, j: int, p: (string, string))
    requires r < |recs| && k < |recs[r].links|
    ensures var s := recs[r := Counted(recs[r], k, l)];
            && (IsLink(s, i, j, p) <==> IsLink(recs, i, j, p))
            && (IsLink(recs, i, j, p) ==>
                  s[i].links[j].tally == recs[i].links[j].tally + if i == r && j == k then l else 0)
  {}

  lemma LinkedLink(recs: seq<Rec>, r: nat, h: nat, i: int, j: int, p: (string, string))
    requires r < |recs| && h < |recs|
    ensures var s := recs[r := Linked(recs[r], h)];
            var m := if i == r then j - 1 else j;
            if i == r && j == 0 then
              (IsLink(s, i, j, p) <==> p == (recs[r].id, recs[h].id))
              && (IsLink(s, i, j, p) ==> s[i].links[j].tally == 0)
            else
              (IsLink(s, i, j, p) <==> IsLink(recs, i, m, p))
              && (IsLink(recs, i, m, p) ==> s[i].links[j].tally == recs[i].links[m].tally)
  {}

  /** One more article on a link that is already there. */
  lemma MoreTally(recs: seq<Rec>, tallies: map<(string, string), int>, r: nat, k: nat, l: int)
    requires LinksOk(recs, tallies) && r < |recs| && k < |recs[r].links| && UniqueNames(recs)
    ensures recs[r].links[k].to < |recs|
    ensures LinksOk(recs[r := Counted(recs[r], k, l)], AddTo(tallies, (recs[r].id, recs[recs[r].links[k].to].id), l))
  {
    assert forall i | 0 <= i < |recs| :: LinksOf(recs[i], |recs|);
    assert LinksOf(Counted(recs[r], k, l), |recs|);
    var q := (recs[r].id, recs[recs[r].links[k].to].id);
    assert IsLink(recs, r, k, q);
    var s, t := recs[r := Counted(recs[r], k, l)], AddTo(tallies, q, l);
    hide IsLink, LinksOf, Counted, UniqueNames;
    forall i, j, p | IsLink(s, i, j, p) ensures p in t && t[p] == s[i].links[j].tally {
      CountedLink(recs, r, k, l, i, j, p);
      InRange(s, i, j, p);
      if p == q {
        OneLink(recs, i, j, r, k, p);
      }
    }
    forall p | p in t ensures exists i, j :: IsLink(s, i, j, p) {
      var i, j :| IsLink(recs, i, j, p);
      CountedLink(recs, r, k, l, i, j, p);
    }
  }

  lemma InRange(recs: seq<Rec>, i: int, j: int, p: (string, string))
    requires IsLink(recs, i, j, p)
    ensures 0 <= i < |recs| && 0 <= j < |recs[i].links|
  {}

  lemma NoSuchLink(recs: seq<Rec>, tallies: map<(string, string), int>, r: nat, h: nat)
    requires LinksOk(recs, tallies) && r < |recs| && h < |recs| && UniqueNames(recs)
    requires forall k | 0 <= k < |recs[r].links| :: recs[r].links[k].to != h
    ensures (recs[r].id, recs[h].id) !in tallies
  {
    var q := (recs[r].id, recs[h].id);
    forall i, j ensures !IsLink(recs, i, j, q) {
      assert 0 <= i < |recs| && recs[i].id == recs[r].id ==> i == r;
    }
  }

  /** A link that is new. */
  lemma NewTally(recs: seq<Rec>, tallies: map<(string, string), int>, r: nat, h: nat)
    requires LinksOk(recs, tallies) && r < |recs| && h < |recs| && UniqueNames(recs)
    requires forall k | 0 <= k < |recs[r].links| :: recs[r].links[k].to != h
    ensures (recs[r].id, recs[h].id) !in tallies
    ensures LinksOk(recs[r := Linked(recs[r], h)], tallies[(recs[r].id, recs[h].id) := 0])
  {
    assert forall i | 0 <= i < |recs| :: LinksOf(recs[i], |recs|);
    NoSuchLink(recs, tallies, r, h);
    var q := (recs[r].id, recs[h].id);
    var s, t := recs[r := Linked(recs[r], h)], tallies[q := 0];
    assert LinksOf(s[r], |s|);
    hide IsLink, LinksOf, Linked, UniqueNames;
    forall i, j, p | IsLink(s, i, j, p) ensures p in t && t[p] == s[i].links[j].tally {
      LinkedLink(recs, r, h, i, j, p);
    }
    forall p | p in t ensures exists i, j :: IsLink(s, i, j, p) {
      if p == q {
        LinkedLink(recs, r, h, r, 0, p);
      } else {
        var i, j :| IsLink(recs, i, j, p);
        LinkedLink(recs, r, h, i, if i == r then j + 1 else j, p);
      }
    }
  }

  // --- what writing puts down -----------------------------------------------------------------

  function HostsText(hosts: seq<HostRec>): string {
    if hosts == [] then "" else
      HostsText(hosts[..|hosts| - 1]) + (HostText(hosts[|hosts| - 1]) + HostEnd(hosts, |hosts| - 1))
  }

  function RowsText(rows: seq<Row>): string {
    if rows == [] then "" else RowsText(rows[..|rows| - 1]) + (RowText(rows[|rows| - 1]) + RowEnd(rows, |rows| - 1))
  }

  function LinksText(links: seq<LinkRec>, k: nat): string
    requires k <= |links|
  {
    if k == 0 then "" else LinksText(links, k - 1) + LinkText(links[k - 1])
  }

  lemma {:induction false} HostColumnPrefix(hosts: seq<HostRec>, n: nat, i: nat)
    requires i <= n <= |hosts|
    ensures HostColumn(hosts[..n], i) == HostColumn(hosts, i)
  {
    hide HostText;
    if i > 0 {
      HostColumnPrefix(hosts, n, i - 1);
      assert hosts[..n][i - 1] == hosts[i - 1];
    }
  }

  lemma {:induction false} RowColumnPrefix(rows: seq<Row>, n: nat, i: nat)
    requires i <= n <= |rows|
    ensures RowColumn(rows[..n], i) == RowColumn(rows, i)
  {
    hide RowText;
    if i > 0 {
      RowColumnPrefix(rows, n, i - 1);
      assert rows[..n][i - 1] == rows[i - 1];
    }
  }

  lemma HostsStep(xs: seq<HostRec>, i: nat)
    requires 0 < i <= |xs|
    ensures HostsText(xs[..i]) == HostsText(xs[..i - 1]) + (HostText(xs[i - 1]) + HostEnd(xs, i - 1))
  {
    assert xs[..i][..i - 1] == xs[..i - 1];
    HostColumnPrefix(xs, i, i - 1);
    hide HostColumn, HostText;
  }

  lemma HostsUnfold(xs: seq<HostRec>, i: nat)
    requires i < |xs|
    ensures HostsFrom(xs, i) == HostText(xs[i]) + (HostEnd(xs, i) + HostsFrom(xs, i + 1))
  {}

  lemma {:induction false} HostsWhole(xs: seq<HostRec>, i: nat)
    requires i <= |xs|
    ensures HostsText(xs[..i]) + HostsFrom(xs, i) == HostsFrom(xs, 0)
  {
    if i > 0 {
      hide *;
      HostsWhole(xs, i - 1);
      HostsStep(xs, i);
      HostsUnfold(xs, i - 1);
      Regroup(HostsText(xs[..i - 1]), HostText(xs[i - 1]), HostEnd(xs, i - 1), HostsFrom(xs, i));
    }
  }

  lemma NoText()
    ensures HostsText([]) == RowsText([]) == ""
    ensures HostColumn([], 0) == RowColumn([], 0) == LinkCount([]) == 0
  {}

  lemma MoreHosts(hosts: seq<HostRec>, h: HostRec)
    ensures var j := HostColumn(hosts, |hosts|) + |HostText(h)|;
            && HostsText(hosts + [h]) == HostsText(hosts) + (HostText(h) + if j > RECLINE then "\n" else " ")
            && HostColumn(hosts + [h], |hosts| + 1) == if j > RECLINE then 0 else j
  {
    hide HostText;
    assert (hosts + [h])[..|hosts|] == hosts;
    HostColumnPrefix(hosts + [h], |hosts|, |hosts|);
  }

  lemma MoreRows(rows: seq<Row>, r: Row)
    ensures var j := RowColumn(rows, |rows|) + |RowText(r)|;
            && RowsText(rows + [r]) == RowsText(rows) + (RowText(r) + if j > RECLINE then "\n" else "")
            && RowColumn(rows + [r], |rows| + 1) == if j > RECLINE then 0 else j
    ensures LinkCount(rows + [r]) == LinkCount(rows) + |r.links|
  {
    hide RowText;
    assert (rows + [r])[..|rows|] == rows;
    RowColumnPrefix(rows + [r], |rows|, |rows|);
  }

  lemma RowsStep(xs: seq<Row>, i: nat)
    requires 0 < i <= |xs|
    ensures RowsText(xs[..i]) == RowsText(xs[..i - 1]) + (RowText(xs[i - 1]) + RowEnd(xs, i - 1))
  {
    assert xs[..i][..i - 1] == xs[..i - 1];
    RowColumnPrefix(xs, i, i - 1);
    hide RowColumn, RowText;
  }

  lemma RowsUnfold(xs: seq<Row>, i: nat)
    requires i < |xs|
    ensures RowsFrom(xs, i) == RowText(xs[i]) + (RowEnd(xs, i) + RowsFrom(xs, i + 1))
  {}

  lemma {:induction false} RowsWhole(xs: seq<Row>, i: nat)
    requires i <= |xs|
    ensures RowsText(xs[..i]) + RowsFrom(xs, i) == RowsFrom(xs, 0)
  {
    if i > 0 {
      hide *;
      RowsWhole(xs, i - 1);
      RowsStep(xs, i);
      RowsUnfold(xs, i - 1);
      Regroup(RowsText(xs[..i - 1]), RowText(xs[i - 1]), RowEnd(xs, i - 1), RowsFrom(xs, i));
    }
  }

  lemma HostsAll(hosts: seq<HostRec>)
    ensures HostsText(hosts) == HostsFrom(hosts, 0)
  {
    HostsWhole(hosts, |hosts|);
    assert hosts[..|hosts|] == hosts;
    assert HostsText(hosts) + "" == HostsText(hosts);
  }

  lemma RowsAll(rows: seq<Row>)
    ensures RowsText(rows) == RowsFrom(rows, 0)
  {
    RowsWhole(rows, |rows|);
    assert rows[..|rows|] == rows;
    assert RowsText(rows) + "" == RowsText(rows);
  }

  lemma {:induction false} LinksWhole(links: seq<LinkRec>, k: nat)
    requires k <= |links|
    ensures LinksText(links, k) + LinksFrom(links, k) == LinksFrom(links, 0)
  {
    hide LinkText;
    if k > 0 {
      LinksWhole(links, k - 1);
      Assoc(LinksText(links, k - 1), LinkText(links[k - 1]), LinksFrom(links, k));
    }
  }

  lemma Regroup(x: string, a: string, b: string, y: string)
    ensures (x + (a + b)) + y == x + (a + (b + y))
  {}

  /** Every record, once. */
  predicate Complete(n: nat, order: seq<nat>) {
    && (forall k | 0 <= k < |order| :: order[k] < n)
    && (forall j, k | 0 <= j < k < |order| :: order[j] != order[k])
    && (forall i | 0 <= i < n :: i in order)
  }

  /** The records are numbered in that order. */
  predicate Numbered(recs: seq<Rec>, order: seq<nat>, n: nat)
    requires n <= |order|
  {
    forall k | 0 <= k < n :: order[k] < |recs| && recs[order[k]].no == k
  }

  function HostOf(x: Rec): HostRec {
    HostRec(x.id, x.sentto)
  }

  function RowOf(recs: seq<Rec>, x: nat): Row
    requires x < |recs| && LinksOf(recs[x], |recs|)
  {
    Row(recs[x].no, seq(|recs[x].links|, k requires 0 <= k < |recs[x].links| =>
          LinkRec(recs[recs[x].links[k].to].no, recs[x].links[k].tally)))
  }

  /** The dump lists the hosts. */
  ghost predicate HostsAre(hosts: seq<HostRec>, sent: map<string, int>) {
    && (forall i | 0 <= i < |hosts| :: hosts[i].name in sent && sent[hosts[i].name] == hosts[i].count)
    && (forall i, j | 0 <= i < j < |hosts| :: hosts[i].name != hosts[j].name)
    && (forall n | n in sent :: exists i :: 0 <= i < |hosts| && hosts[i].name == n)
  }

  /** Row `i` has, as its `k`th, a link between the named pair of hosts. */
  predicate RowLink(hosts: seq<HostRec>, rows: seq<Row>, i: int, k: int, p: (string, string)) {
    && 0 <= i < |rows| && 0 <= k < |rows[i].links| && rows[i].a < |hosts| && rows[i].links[k].b < |hosts|
    && p == (hosts[rows[i].a].name, hosts[rows[i].links[k].b].name)
  }

  /** The dump lists the links, each once. */
  ghost predicate RowsAre(hosts: seq<HostRec>, rows: seq<Row>, tallies: map<(string, string), int>) {
    && (forall i | 0 <= i < |rows| :: RowReadable(rows[i], |hosts|))
    && (forall i, k, p | RowLink(hosts, rows, i, k, p) :: p in tallies && tallies[p] == rows[i].links[k].tally)
    && (forall i, k, j, m, p | RowLink(hosts, rows, i, k, p) && RowLink(hosts, rows, j, m, p) :: i == j && k == m)
    && (forall p | p in tallies :: exists i, k :: RowLink(hosts, rows, i, k, p))
  }

  /** Which record each row is about. */
  predicate Sources(recs: seq<Rec>, rows: seq<Row>, src: seq<nat>) {
    |src| == |rows| && forall i | 0 <= i < |src| ::
      src[i] < |recs| && LinksOf(recs[src[i]], |recs|) && rows[i] == RowOf(recs, src[i])
  }

  /** The sources are different records from the first `n` of the order. */
  predicate FromPrefix(order: seq<nat>, src: seq<nat>, n: nat)
    requires n <= |order|
  {
    && (forall i | 0 <= i < |src| :: src[i] in order[..n])
    && (forall i, j | 0 <= i < j < |src| :: src[i] != src[j])
  }

  lemma SourcesNone(recs: seq<Rec>, order: seq<nat>)
    ensures Sources(recs, [], []) && FromPrefix(order, [], 0)
  {}

  lemma SourcesMore(recs: seq<Rec>, order: seq<nat>, rows: seq<Row>, src: seq<nat>, i: nat,
                    tallies: map<(string, string), int>)
    requires Sources(recs, rows, src) && i < |order| && FromPrefix(order, src, i) && Complete(|recs|, order)
    requires LinksOk(recs, tallies)
    ensures FromPrefix(order, src, i + 1) && FromPrefix(order, src + [order[i]], i + 1)
    ensures LinksOf(recs[order[i]], |recs|) && Sources(recs, rows + [RowOf(recs, order[i])], src + [order[i]])
  {
    assert LinksOf(recs[order[i]], |recs|);
    hide LinksOf, RowOf, LinksOk;
    assert order[..i + 1] == order[..i] + [order[i]];
    assert order[i] !in order[..i];
  }

  lemma RowLength(recs: seq<Rec>, x: nat)
    requires x < |recs| && LinksOf(recs[x], |recs|)
    ensures |RowOf(recs, x).links| == |recs[x].links|
  {}

  function Below(n: nat): (s: set<nat>)
    ensures forall i: nat :: i in s <==> i < n
    ensures |s| == n
  {
    if n == 0 then {} else Below(n - 1) + {n - 1}
  }

  function Elements(order: seq<nat>): (s: set<nat>)
    ensures forall x :: x in s <==> x in order
    ensures (forall j, k | 0 <= j < k < |order| :: order[j] != order[k]) ==> |s| == |order|
  {
    if order == [] then {} else
      assert order == order[..|order| - 1] + [order[|order| - 1]];
      Elements(order[..|order| - 1]) + {order[|order| - 1]}
  }

  lemma OrderLength(n: nat, order: seq<nat>)
    requires Complete(n, order)
    ensures |order| == n
  {
    assert Below(n) == Elements(order);
  }

  lemma HostsListed(recs: seq<Rec>, order: seq<nat>, hosts: seq<HostRec>, sent: map<string, int>)
    requires Complete(|recs|, order) && SentOk(recs, sent) && UniqueNames(recs) && |hosts| == |order|
    requires forall k | 0 <= k < |order| :: hosts[k] == HostOf(recs[order[k]])
    ensures HostsAre(hosts, sent)
  {
    forall n | n in sent ensures exists i :: 0 <= i < |hosts| && hosts[i].name == n {
      var x :| Named(recs, x, n);
      assert x in order;
      var k :| 0 <= k < |order| && order[k] == x;
      assert hosts[k].name == n;
    }
  }

  /** A link of a row is the link of a record. */
  lemma RowLinkIsLink(recs: seq<Rec>, order: seq<nat>, hosts: seq<HostRec>, rows: seq<Row>, src: seq<nat>, i: int,
                      k: int, p: (string, string))
    requires Complete(|recs|, order) && Numbered(recs, order, |order|) && |hosts| == |order| && Sources(recs, rows, src)
    requires forall j | 0 <= j < |order| :: hosts[j] == HostOf(recs[order[j]])
    ensures RowLink(hosts, rows, i, k, p) <==> 0 <= i < |src| && IsLink(recs, src[i], k, p)
    ensures RowLink(hosts, rows, i, k, p) ==>
              0 <= i < |rows| && 0 <= k < |rows[i].links| && rows[i].links[k].tally == recs[src[i]].links[k].tally
    ensures 0 <= i < |src| ==> RowReadable(rows[i], |hosts|)
  {
    if 0 <= i < |src| {
      var x := src[i];
      forall y | 0 <= y < |recs| ensures recs[y].no < |hosts| && hosts[recs[y].no].name == recs[y].id {
        assert y in order;
        var j :| 0 <= j < |order| && order[j] == y;
      }
      assert LinksOf(recs[x], |recs|);
    }
  }

  lemma RowsListed(recs: seq<Rec>, order: seq<nat>, hosts: seq<HostRec>, rows: seq<Row>, src: seq<nat>,
                   tallies: map<(string, string), int>)
    requires Complete(|recs|, order) && Numbered(recs, order, |order|) && |hosts| == |order| && Sources(recs, rows, src)
    requires forall j | 0 <= j < |order| :: hosts[j] == HostOf(recs[order[j]])
    requires FromPrefix(order, src, |order|)
    requires forall k | 0 <= k < |order| && recs[order[k]].links != [] :: order[k] in src
    requires LinksOk(recs, tallies) && UniqueNames(recs)
    ensures RowsAre(hosts, rows, tallies)
  {
    hide *;
    forall i, k, p | RowLink(hosts, rows, i, k, p)
      ensures 0 <= i < |rows| && 0 <= k < |rows[i].links| && p in tallies && tallies[p] == rows[i].links[k].tally
    {
      RowLinkIsLink(recs, order, hosts, rows, src, i, k, p);
      LinkTally(recs, src[i], k, p, tallies);
    }
    forall i | 0 <= i < |rows| ensures RowReadable(rows[i], |hosts|) {
      SourcesLength(recs, rows, src);
      RowLinkIsLink(recs, order, hosts, rows, src, i, 0, ("", ""));
    }
    forall i, k, j, m, p | RowLink(hosts, rows, i, k, p) && RowLink(hosts, rows, j, m, p) ensures i == j && k == m {
      RowLinkIsLink(recs, order, hosts, rows, src, i, k, p);
      RowLinkIsLink(recs, order, hosts, rows, src, j, m, p);
      LinkTally(recs, src[i], k, p, tallies);
      OneLink(recs, src[i], k, src[j], m, p);
      SourceOnce(order, src, i, j);
    }
    forall p | p in tallies ensures exists i, k :: RowLink(hosts, rows, i, k, p) {
      var x, k := LinkOf(recs, tallies, p);
      InRange(recs, x, k, p);
      var i := SourceOf(recs, order, src, x);
      RowLinkIsLink(recs, order, hosts, rows, src, i, k, p);
      assert RowLink(hosts, rows, i, k, p);
    }
    TheRows(hosts, rows, tallies);
  }

  lemma TheRows(hosts: seq<HostRec>, rows: seq<Row>, tallies: map<(string, string), int>)
    requires forall i | 0 <= i < |rows| :: RowReadable(rows[i], |hosts|)
    requires forall i, k, p | RowLink(hosts, rows, i, k, p) ::
               0 <= i < |rows| && 0 <= k < |rows[i].links| && p in tallies && tallies[p] == rows[i].links[k].tally
    requires forall i, k, j, m, p | RowLink(hosts, rows, i, k, p) && RowLink(hosts, rows, j, m, p) :: i == j && k == m
    requires forall p | p in tallies :: exists i, k :: RowLink(hosts, rows, i, k, p)
    ensures RowsAre(hosts, rows, tallies)
  {
    hide RowLink, RowReadable;
  }

  lemma SourcesLength(recs: seq<Rec>, rows: seq<Row>, src: seq<nat>)
    requires Sources(recs, rows, src)
    ensures |src| == |rows|
  {}

  lemma LinkTally(recs: seq<Rec>, x: nat, k: int, p: (string, string), tallies: map<(string, string), int>)
    requires LinksOk(recs, tallies) && IsLink(recs, x, k, p)
    ensures x < |recs| && 0 <= k < |recs[x].links| && p in tallies && tallies[p] == recs[x].links[k].tally
    ensures LinksOf(recs[x], |recs|)
  {}

  lemma LinkOf(recs: seq<Rec>, tallies: map<(string, string), int>, p: (string, string)) returns (i: int, k: int)
    requires LinksOk(recs, tallies) && p in tallies
    ensures IsLink(recs, i, k, p)
  {
    i, k :| IsLink(recs, i, k, p);
  }

  lemma SourceOnce(order: seq<nat>, src: seq<nat>, i: int, j: int)
    requires FromPrefix(order, src, |order|) && 0 <= i < |src| && 0 <= j < |src| && src[i] == src[j]
    ensures i == j
  {}

  lemma SourceOf(recs: seq<Rec>, order: seq<nat>, src: seq<nat>, x: int) returns (i: nat)
    requires Complete(|recs|, order) && 0 <= x < |recs| && recs[x].links != []
    requires forall k | 0 <= k < |order| && recs[order[k]].links != [] :: order[k] in src
    ensures i < |src| && src[i] == x
  {
    assert x in order;
    i :| i < |src| && src[i] == x;
  }

  // --- what reading adds ----------------------------------------------------------------------

  /** The dump can be read back: names are words that fit, and links are between its hosts. */
  predicate Readable(d: Dump) {
    && (forall i | 0 <= i < |d.hosts| :: Word(d.hosts[i].name, MAXHOST - 1))
    && (forall i | 0 <= i < |d.rows| :: RowReadable(d.rows[i], |d.hosts|))
  }

  predicate RowReadable(r: Row, n: nat) {
    r.a < n && forall k | 0 <= k < |r.links| :: r.links[k].b < n
  }

  function AddHosts(m: map<string, int>, hosts: seq<HostRec>, i: nat): map<string, int>
    requires i <= |hosts|
  {
    if i == 0 then m else AddTo(AddHosts(m, hosts, i - 1), hosts[i - 1].name, hosts[i - 1].count)
  }

  function AddLinks(m: map<(string, string), int>, hosts: seq<HostRec>, r: Row, k: nat): map<(string, string), int>
    requires RowReadable(r, |hosts|) && k <= |r.links|
  {
    if k == 0 then m else
      var l := r.links[k - 1];
      AddTo(AddLinks(m, hosts, r, k - 1), (hosts[r.a].name, hosts[l.b].name), Effective(l.tally))
  }

  function AddRows(m: map<(string, string), int>, hosts: seq<HostRec>, rows: seq<Row>, i: nat)
      : map<(string, string), int>
    requires i <= |rows| && forall j | 0 <= j < |rows| :: RowReadable(rows[j], |hosts|)
  {
    if i == 0 then m else AddLinks(AddRows(m, hosts, rows, i - 1), hosts, rows[i - 1], |rows[i - 1].links|)
  }

  /** The text after the rows. */
  function AfterRows(d: Dump): string {
    EndText(LinkCount(d.rows))
  }

  lemma HostStep(d: Dump, i: nat, t: string)
    requires Readable(d) && i < |d.hosts|
    ensures var s := SkipWhite(HostsFrom(d.hosts, i) + t);
            ScanHost(s) == Got(d.hosts[i], SkipWhite(HostsFrom(d.hosts, i + 1) + t))
  {
    var more := HostsFrom(d.hosts, i + 1) + t;
    hide ScanHost, SkipWhite, HostText;
    assert HostsFrom(d.hosts, i) + t == HostText(d.hosts[i]) + (HostEnd(d.hosts, i) + more);
    HostScanned(d.hosts[i], HostEnd(d.hosts, i), more);
  }

  lemma MiddleStep(body: string)
    ensures var s := SkipWhite(Middle() + body);
            && ScanWord(s, MAXHOST - 1).Got? && ScanWord(s, MAXHOST - 1).value == NLREC
            && SkipWhite(ScanWord(s, MAXHOST - 1).rest) == SkipWhite(body)
  {
    hide Word, ScanWord, SkipWhite;
    NlrecIsWord();
    LineStep(NLREC, body);
    LineAssoc(NLREC, body);
  }

  lemma LineAssoc(w: string, more: string)
    ensures ("\n" + (w + "\n")) + more == "\n" + (w + ("\n" + more))
  {}

  /** A word on a line of its own. */
  lemma LineStep(w: string, more: string)
    requires Word(w, MAXHOST - 1)
    ensures ScanWord(SkipWhite("\n" + (w + ("\n" + more))), MAXHOST - 1) == Got(w, "\n" + more)
    ensures SkipWhite("\n" + more) == SkipWhite(more)
  {
    assert w != "" && !White(w[0]);
    NewlineSkipped(w + ("\n" + more));
    NewlineSkipped(more);
    FirstBlack(w, "\n" + more);
    hide ScanWord, SkipWhite;
    WordScanned(w, "\n" + more, MAXHOST - 1);
  }

  lemma NlrecIsWord()
    ensures Word(NLREC, MAXHOST - 1)
  {}

  lemma FirstBlack(w: string, t: string)
    requires w != "" && !White(w[0])
    ensures SkipWhite(w + t) == w + t
  {}

  lemma RowStep(d: Dump, i: nat)
    requires Readable(d) && i < |d.rows|
    ensures var s := SkipWhite(RowsFrom(d.rows, i) + AfterRows(d));
            var more := RowEnd(d.rows, i) + (RowsFrom(d.rows, i + 1) + AfterRows(d));
            ScanRow(s) == Got(d.rows[i].a, LinksFrom(d.rows[i].links, 0) + more)
  {
    var more := RowEnd(d.rows, i) + (RowsFrom(d.rows, i + 1) + AfterRows(d));
    var t := LinksFrom(d.rows[i].links, 0) + more;
    hide ScanRow, SkipWhite, Int, ScanInt, EndText, LinksFrom, RowEnd, AfterRows;
    RowAssoc(Int(d.rows[i].a), LinksFrom(d.rows[i].links, 0), RowEnd(d.rows, i), RowsFrom(d.rows, i + 1), AfterRows(d));
    assert RowsFrom(d.rows, i) + AfterRows(d) == ":" + (Int(d.rows[i].a) + t);
    hide RowsFrom;
    AfterRow(d, i);
    LinksBegin(d.rows[i].links, 0, more);
    RowScanned(d.rows[i].a, t);
    SkipTwice(":" + (Int(d.rows[i].a) + t));
  }

  lemma RowAssoc(a: string, l: string, e: string, r: string, x: string)
    ensures ((":" + (a + l)) + (e + r)) + x == ":" + (a + (l + (e + (r + x))))
  {}

  /** What follows a row or a link cannot be taken for a part of it. */
  predicate Follows(t: string) {
    t != "" && (t[0] == '\n' || t[0] == ':')
  }

  lemma AfterRow(d: Dump, i: nat)
    requires i < |d.rows|
    ensures Follows(RowEnd(d.rows, i) + (RowsFrom(d.rows, i + 1) + AfterRows(d)))
    ensures SkipWhite(RowEnd(d.rows, i) + (RowsFrom(d.rows, i + 1) + AfterRows(d))) ==
            SkipWhite(RowsFrom(d.rows, i + 1) + AfterRows(d))
  {
    var t := RowsFrom(d.rows, i + 1) + AfterRows(d);
    if i + 1 < |d.rows| {
      assert t[0] == RowText(d.rows[i + 1])[0] == ':';
    } else {
      assert t == AfterRows(d);
    }
    NewlineSkipped(t);
    assert "" + t == t;
  }

  lemma LinksBegin(links: seq<LinkRec>, k: nat, t: string)
    requires k <= |links| && Follows(t)
    ensures var s := LinksFrom(links, k) + t;
            s != "" && NoDigit(s) && s[0] != ',' && (s[0] == '!' <==> k < |links|)
  {}

  lemma LinkStep(links: seq<LinkRec>, k: nat, t: string)
    requires k < |links| && Follows(t)
    ensures ScanLink(LinksFrom(links, k) + t) ==
            Got((links[k].b, Effective(links[k].tally)), LinksFrom(links, k + 1) + t)
  {
    hide *;
    LinksBegin(links, k + 1, t);
    LinkScanned(links[k], LinksFrom(links, k + 1) + t);
    LinksUnfold(links, k);
    Assoc(LinkText(links[k]), LinksFrom(links, k + 1), t);
  }

  lemma LinksUnfold(links: seq<LinkRec>, k: nat)
    requires k < |links|
    ensures LinksFrom(links, k) == LinkText(links[k]) + LinksFrom(links, k + 1)
  {}

  lemma Assoc(x: string, y: string, z: string)
    ensures (x + y) + z == x + (y + z)
  {}

  lemma LinksEnd(links: seq<LinkRec>, t: string)
    requires Follows(t)
    ensures ScanLink(LinksFrom(links, |links|) + t) == Fail(t)
  {
    assert LinksFrom(links, |links|) + t == t;
  }

  lemma EndStep(n: int)
    ensures var s := SkipWhite(EndText(n));
            && ScanRow(s).Fail? && ScanRow(s).rest == s && ScanEnd(s) == Got(n, "")
  {
    var u := NLEND + (" " + (Int(n) + "\n"));
    NewlineSkipped(u);
    NlendBlack();
    FirstBlack(NLEND, " " + (Int(n) + "\n"));
    IntAfterSpace(n, "\n");
    LiteralScanned(NLEND, " " + (Int(n) + "\n"));
    assert u[0] == '!';
    assert SkipWhite(u) == u;
    hide ScanInt, Int;
    assert ("\n")[1..] == "";
  }

  lemma NlendBlack()
    ensures NLEND != "" && NLEND[0] == '!' && !White(NLEND[0])
  {}

  // --- what a text says -----------------------------------------------------------------------

  /** The numbers of two hosts and a tally. */
  type Triple = (int, int, int)

  datatype Outcome = Loaded | FormatError | OutOfBounds

  /** What a dump file holds, as it is understood. */
  datatype File = File(total: int, hosts: seq<HostRec>, links: seq<Triple>)

  const NOTHING := File(0, [], [])

  /** The first `k` hosts, what comes after them, and whether there are as many. */
  function HostsIn(s: string, k: nat): (seq<HostRec>, string, bool)
    decreases k
  {
    if k == 0 then ([], s, true) else
      var x := ScanHost(s);
      if x.Fail? then ([], x.rest, false) else
        var (more, t, ok) := HostsIn(x.rest, k - 1);
        ([x.value] + more, t, ok)
  }

  /** The links of host `a`, up to where none can be read. */
  function LinksIn(a: int, s: string): (r: (seq<Triple>, string))
    ensures |r.1| <= |s|
    decreases |s|
  {
    var x := ScanLink(s);
    LinkShrinks(s);
    if x.Fail? then ([], x.rest) else
      var (more, t) := LinksIn(a, x.rest);
      ([(a, x.value.0, x.value.1)] + more, t)
  }

  function RowsIn(s: string): (seq<Triple>, string)
    decreases |s|
  {
    var x := ScanRow(s);
    RowShrinks(s);
    if x.Fail? then ([], x.rest) else
      var (ls, t) := LinksIn(x.value, x.rest);
      var (more, u) := RowsIn(t);
      (ls + more, u)
  }

  function OldRowsIn(s: string): (seq<Triple>, string)
    decreases |s|
  {
    var x := ScanOldRow(s);
    OldRowShrinks(s);
    if x.Fail? then ([], x.rest) else
      var (more, t) := OldRowsIn(x.rest);
      ([x.value] + more, t)
  }

  predicate InBounds(ls: seq<Triple>, n: nat) {
    forall i | 0 <= i < |ls| :: 0 <= ls[i].0 < n && 0 <= ls[i].1 < n
  }

  function Checked(ls: seq<Triple>, n: nat): Outcome {
    if InBounds(ls, n) then Loaded else OutOfBounds
  }

  /** Whether a text is a dump file, and what it holds.  For a negative number of hosts there is no memory. */
  function Read(text: string): (Outcome, File) {
    var h := ScanHead(text);
    if h.Fail? || h.value.sites < 0 then (FormatError, NOTHING) else
      var (hosts, t, ok) := HostsIn(h.rest, h.value.sites);
      var w := ScanWord(t, MAXHOST - 1);
      if !ok || w.Fail? || w.value != NLREC then (FormatError, NOTHING)
      else if "3.0" <= h.value.version then ReadEnd(h.value, hosts, OldRowsIn(SkipWhite(w.rest)))
      else if "3.1" <= h.value.version then ReadEnd(h.value, hosts, RowsIn(SkipWhite(w.rest)))
      else (FormatError, NOTHING)
  }

  /** The last line has the number of links. */
  function ReadEnd(h: Head, hosts: seq<HostRec>, rows: (seq<Triple>, string)): (Outcome, File) {
    var e := ScanEnd(rows.1);
    if !InBounds(rows.0, |hosts|) then (OutOfBounds, NOTHING)
    else if e.Fail? || e.value != |rows.0| then (FormatError, NOTHING)
    else (Loaded, File(h.total, hosts, rows.0))
  }

  function AddTriples(m: map<(string, string), int>, hosts: seq<HostRec>, ls: seq<Triple>): map<(string, string), int>
    requires InBounds(ls, |hosts|)
  {
    if ls == [] then m else
      var (a, b, l) := ls[|ls| - 1];
      AddTo(AddTriples(m, hosts, ls[..|ls| - 1]), (hosts[a].name, hosts[b].name), l)
  }

  lemma NoTriples(m: map<(string, string), int>, hosts: seq<HostRec>)
    ensures InBounds([], |hosts|) && AddTriples(m, hosts, []) == m
  {}

  lemma NoneAdded(m: map<string, int>)
    ensures AddHosts(m, [], 0) == m
  {}

  lemma AddOne(m: map<(string, string), int>, hosts: seq<HostRec>, ls: seq<Triple>, x: Triple)
    requires InBounds(ls, |hosts|) && 0 <= x.0 < |hosts| && 0 <= x.1 < |hosts|
    ensures InBounds(ls + [x], |hosts|)
    ensures AddTriples(m, hosts, ls + [x]) == AddTo(AddTriples(m, hosts, ls), (hosts[x.0].name, hosts[x.1].name), x.2)
  {
    assert (ls + [x])[..|ls|] == ls;
  }

  lemma {:induction false} AddJoin(m: map<(string, string), int>, hosts: seq<HostRec>, a: seq<Triple>, b: seq<Triple>)
    requires InBounds(a, |hosts|) && InBounds(b, |hosts|)
    ensures InBounds(a + b, |hosts|)
    ensures AddTriples(m, hosts, a + b) == AddTriples(AddTriples(m, hosts, a), hosts, b)
  {
    if b == [] {
      assert a + b == a;
    } else {
      var init, x := b[..|b| - 1], b[|b| - 1];
      AddJoin(m, hosts, a, init);
      AddOne(m, hosts, a + init, x);
      assert a + b == (a + init) + [x];
    }
  }

  lemma {:induction false} AddHostsPrefix(m: map<string, int>, hosts: seq<HostRec>, more: seq<HostRec>, i: nat)
    requires i <= |hosts|
    ensures AddHosts(m, hosts + more, i) == AddHosts(m, hosts, i)
  {
    if i > 0 {
      AddHostsPrefix(m, hosts, more, i - 1);
    }
  }

  lemma OneMoreHost(m: map<string, int>, hosts: seq<HostRec>, h: HostRec)
    ensures AddHosts(m, hosts + [h], |hosts| + 1) == AddTo(AddHosts(m, hosts, |hosts|), h.name, h.count)
  {
    AddHostsPrefix(m, hosts, [h], |hosts|);
  }

  lemma Triple3(a: seq<Triple>, b: seq<Triple>, c: seq<Triple>)
    ensures a + (b + c) == (a + b) + c
  {}

  /** All are in bounds only if those in the middle are. */
  lemma Bounded(a: seq<Triple>, b: seq<Triple>, c: seq<Triple>, n: nat)
    ensures InBounds(a + (b + c), n) ==> InBounds(b, n)
    ensures InBounds(a, n) && InBounds(b, n) ==> InBounds(a + b, n)
  {
    if InBounds(a + (b + c), n) {
      assert forall i | 0 <= i < |b| :: b[i] == (a + (b + c))[|a| + i];
    }
  }

  lemma OneBounded(x: Triple, n: nat)
    ensures InBounds([x], n) <==> 0 <= x.0 < n && 0 <= x.1 < n
  {
    assert InBounds([x], n) ==> [x][0] == x;
  }

  lemma LinkUnfold(a: int, s: string)
    ensures var x := ScanLink(s);
            LinksIn(a, s) == if x.Fail? then ([], x.rest) else
                               ([(a, x.value.0, x.value.1)] + LinksIn(a, x.rest).0, LinksIn(a, x.rest).1)
  {
    hide ScanLink;
  }

  lemma RowUnfold(s: string)
    ensures var x := ScanRow(s);
            RowsIn(s) == if x.Fail? then ([], x.rest) else
                           var (ls, t) := LinksIn(x.value, x.rest);
                           (ls + RowsIn(t).0, RowsIn(t).1)
  {
    hide ScanRow, LinksIn;
  }

  lemma OldRowUnfold(s: string)
    ensures var x := ScanOldRow(s);
            OldRowsIn(s) == if x.Fail? then ([], x.rest) else ([x.value] + OldRowsIn(x.rest).0, OldRowsIn(x.rest).1)
  {
    hide ScanOldRow;
  }

  /** After some hosts were read, `left` more are to be read from what is left of the text. */
  predicate HostsRead(text: string, sites: nat, hosts: seq<HostRec>, rest: string, left: nat) {
    HostsIn(text, sites) == (hosts + HostsIn(rest, left).0, HostsIn(rest, left).1, HostsIn(rest, left).2)
  }

  lemma FirstHost(text: string, sites: nat)
    ensures HostsRead(text, sites, [], text, sites)
  {
    assert [] + HostsIn(text, sites).0 == HostsIn(text, sites).0;
  }

  lemma NextHost(text: string, sites: nat, hosts: seq<HostRec>, rest: string, left: nat)
    requires HostsRead(text, sites, hosts, rest, left) && left > 0
    ensures ScanHost(rest).Fail? ==> !HostsIn(text, sites).2
    ensures var x := ScanHost(rest);
            x.Got? ==> HostsRead(text, sites, hosts + [x.value], x.rest, left - 1)
  {
    hide ScanHost;
    var x := ScanHost(rest);
    if x.Got? {
      assert hosts + ([x.value] + HostsIn(x.rest, left - 1).0) == (hosts + [x.value]) + HostsIn(x.rest, left - 1).0;
    }
  }

  lemma LastHost(text: string, sites: nat, hosts: seq<HostRec>, rest: string)
    requires HostsRead(text, sites, hosts, rest, 0)
    ensures HostsIn(text, sites) == (hosts, rest, true)
  {
    assert hosts + [] == hosts;
  }

  class Paths {
    const hash: string -> nat
    const hosthash: array<seq<nat>>
    var recs: seq<Rec>
    var total: int
    /** The articles sent from each host, and those on each link. */
    ghost var sent: map<string, int>
    ghost var tallies: map<(string, string), int>

    ghost predicate Valid()
      reads this, hosthash
    {
      hosthash.Length == HASH_TBL && ChainsOk(hash, recs, hosthash[..]) && SentOk(recs, sent) && LinksOk(recs, tallies)
    }

    constructor (hash: string -> nat)
      ensures Valid() && this.hash == hash && sent == map[] && tallies == map[] && total == 0 && fresh(hosthash)
    {
      this.hash := hash;
      hosthash := new seq<nat>[HASH_TBL](_ => []);
      recs, total, sent, tallies := [], 0, map[], map[];
    }

    /** The record of a host, which is made if there is none. */
    method HHost(n: string) returns (h: nat)
      requires Valid()
      modifies this`recs, this`sent, hosthash
      ensures Valid() && h < |recs| && recs[h].id == n
      ensures sent == if n in old(sent) then old(sent) else old(sent)[n := 0]
      ensures |old(recs)| <= |recs| && forall i | 0 <= i < |old(recs)| :: recs[i] == old(recs)[i]
    {
      hide ChainsOk, SentOk, LinksOk, Bucket;
      var b := Bucket(hash, n);
      var chain := hosthash[b];
      var k := 0;
      while k < |chain|
        invariant 0 <= k <= |chain| && Valid() && recs == old(recs) && sent == old(sent) && chain == hosthash[..][b]
        invariant forall j | 0 <= j < k :: chain[j] < |recs| && recs[chain[j]].id != n
      {
        InPool(hash, recs, hosthash[..], b, k);
        if recs[chain[k]].id == n {
          h := chain[k];
          SentHas(recs, sent, h);
          return;
        }
        k := k + 1;
      }
      ghost var r, ch := recs, hosthash[..];
      NewChain(hash, recs, ch, n);
      NewSent(recs, sent, n);
      NewLinks(recs, tallies, n);
      h := |recs|;
      recs := recs + [Rec(n, 0, 0, [])];
      sent := sent[n := 0];
      hosthash[b] := [h] + hosthash[b];
      assert hosthash[..] == ch[b := [|r|] + ch[b]];
    }

    /** Counts articles sent from a host. */
    method AddSent(h: nat, l: int)
      requires Valid() && h < |recs|
      modifies this`recs, this`sent
      ensures Valid() && sent == AddTo(old(sent), old(recs[h].id), l) && SameLinks(old(recs), recs)
    {
      hide SentOk, LinksOk;
      ghost var r := recs;
      MoreSent(recs, sent, h, l);
      sent := AddTo(sent, recs[h].id, l);
      recs := recs[h := recs[h].(sentto := recs[h].sentto + l)];
      ChainsStay(hash, r, recs, hosthash[..]);
      LinksStay(r, recs, tallies);
    }

    /** The place of the link between two hosts, which is made if there is none. */
    method TallyRec(r: nat, h: nat) returns (k: nat)
      requires Valid() && r < |recs| && h < |recs|
      modifies this`recs, this`tallies
      ensures Valid() && SameHosts(old(recs), recs) && k < |recs[r].links| && recs[r].links[k].to == h
      ensures var p := (recs[r].id, recs[h].id);
              tallies == if p in old(tallies) then old(tallies) else old(tallies)[p := 0]
    {
      hide ChainsOk, SentOk, LinksOk;
      k := 0;
      while k < |recs[r].links|
        invariant 0 <= k <= |recs[r].links| && Valid() && recs == old(recs) && tallies == old(tallies)
        invariant forall j | 0 <= j < k :: recs[r].links[j].to != h
      {
        if recs[r].links[k].to == h {
          LinkHas(recs, tallies, r, k);
          return;
        }
        k := k + 1;
      }
      ghost var s := recs;
      UniqueIds(hash, recs, hosthash[..]);
      NewTally(recs, tallies, r, h);
      tallies := tallies[(recs[r].id, recs[h].id) := 0];
      recs := recs[r := Linked(recs[r], h)];
      HostsStay(hash, s, recs, hosthash[..], sent);
      k := 0;
    }

    /** Counts articles on a link. */
    method AddTally(r: nat, h: nat, l: int)
      requires Valid() && r < |recs| && h < |recs|
      modifies this`recs, this`tallies
      ensures Valid() && SameHosts(old(recs), recs)
      ensures tallies == AddTo(old(tallies), (old(recs[r].id), old(recs[h].id)), l)
    {
      hide ChainsOk, SentOk, LinksOk;
      var k := TallyRec(r, h);
      ghost var s := recs;
      UniqueIds(hash, recs, hosthash[..]);
      MoreTally(recs, tallies, r, k, l);
      var x := recs[r].links[k];
      tallies := AddTo(tallies, (recs[r].id, recs[x.to].id), l);
      recs := recs[r := Counted(recs[r], k, l)];
      HostsStay(hash, s, recs, hosthash[..], sent);
    }

    // --- writing ------------------------------------------------------------------------------

    /** All records, in the order of the hash table. */
    method ListHosts() returns (order: seq<nat>)
      requires Valid()
      ensures Complete(|recs|, order)
    {
      hide Bucket, SentOk, LinksOk;
      order := [];
      var b := 0;
      while b < HASH_TBL
        invariant 0 <= b <= HASH_TBL
        invariant forall k | 0 <= k < |order| :: order[k] < |recs| && Bucket(hash, recs[order[k]].id) < b
        invariant forall j, k | 0 <= j < k < |order| :: order[j] != order[k]
        invariant forall i | 0 <= i < |recs| && Bucket(hash, recs[i].id) < b :: i in order
      {
        order := order + hosthash[b];
        b := b + 1;
      }
    }

    /** Writes the table to a dump file; `d` is the dump. */
    method WriteDump(start: nat, end: nat, avg: int) returns (ok: bool, text: string, ghost d: Dump)
      requires Valid()
      modifies this`recs
      ensures Valid() && (ok <==> total != 0)
      ensures ok ==>
                text == Render(d) && d.total == total && HostsAre(d.hosts, sent) && RowsAre(d.hosts, d.rows, tallies)
    {
      d := Dump(start, end, total, avg, [], []);
      if total == 0 {
        return false, "", d;
      }
      hide ChainsOk, SentOk, LinksOk, Complete, HostsAre, RowsAre, HostsText, RowsText, LinkCount, HeadText, HostsFrom,
           RowsFrom, EndText, Middle;
      var order := ListHosts();
      var out: string, out2: string, n: nat;
      ghost var hosts: seq<HostRec>, rows: seq<Row>;
      out, hosts := WriteHosts(order);
      out2, n, rows := WriteRows(order, hosts);
      d := Dump(start, end, total, avg, hosts, rows);
      OrderLength(|recs|, order);
      text := HeadText(start, end, |recs|, total, avg) + (out + (Middle() + (out2 + EndText(n))));
      HostsAll(hosts);
      RowsAll(rows);
      ok := true;
    }

    /** Writes the hosts and numbers them. */
    method WriteHosts(order: seq<nat>) returns (out: string, ghost hosts: seq<HostRec>)
      requires Valid() && Complete(|recs|, order)
      modifies this`recs
      ensures Valid() && |recs| == |old(recs)| && Numbered(recs, order, |order|)
      ensures out == HostsText(hosts) && |hosts| == |order|
      ensures forall k | 0 <= k < |order| :: order[k] < |recs| && hosts[k] == HostOf(recs[order[k]])
    {
      hide ChainsOk, SentOk, LinksOk, HostText, HostsText, HostColumn;
      out, hosts := "", [];
      NoText();
      var n, j := 0, 0;
      ghost var r := recs;
      while n < |order|
        invariant 0 <= n <= |order| && |hosts| == n && |recs| == |r| && Valid()
        invariant Numbered(recs, order, n) && out == HostsText(hosts) && j == HostColumn(hosts, n)
        invariant forall k | 0 <= k < n :: order[k] < |recs| && hosts[k] == HostOf(recs[order[k]])
      {
        ghost var r0 := recs;
        recs := recs[order[n] := recs[order[n]].(no := n)];
        HostsStay(hash, r0, recs, hosthash[..], sent);
        LinksStay(r0, recs, tallies);
        var t := HostText(HostOf(recs[order[n]]));
        MoreHosts(hosts, HostOf(recs[order[n]]));
        hosts := hosts + [HostOf(recs[order[n]])];
        j := j + |t|;
        if j > RECLINE {
          j := 0;
          out := out + (t + "\n");
        } else {
          out := out + (t + " ");
        }
        n := n + 1;
      }
    }

    /** Writes the links of every host that has some; `n` counts them. */
    method WriteRows(order: seq<nat>, ghost hosts: seq<HostRec>) returns (out: string, n: nat, ghost rows: seq<Row>)
      requires Valid() && Complete(|recs|, order) && Numbered(recs, order, |order|) && |hosts| == |order|
      requires forall k | 0 <= k < |order| :: order[k] < |recs| && hosts[k] == HostOf(recs[order[k]])
      ensures out == RowsText(rows) && n == LinkCount(rows)
      ensures HostsAre(hosts, sent) && RowsAre(hosts, rows, tallies)
    {
      hide ChainsOk, SentOk, LinksOk, HostsAre, RowsAre, Sources, FromPrefix, RowText, RowOf, LinksOf, Numbered, HostOf,
           RowsText, RowColumn, LinkCount;
      out, n, rows := "", 0, [];
      NoText();
      ghost var src: seq<nat> := [];
      var i, j: nat := 0, 0;
      SourcesNone(recs, order);
      while i < |order|
        invariant 0 <= i <= |order| && out == RowsText(rows) && n == LinkCount(rows) && j == RowColumn(rows, |rows|)
        invariant Sources(recs, rows, src) && FromPrefix(order, src, i)
        invariant forall k | 0 <= k < i && recs[order[k]].links != [] :: order[k] in src
      {
        var x := order[i];
        SourcesMore(recs, order, rows, src, i, tallies);
        if recs[x].links != [] {
          var t := WriteRow(x);
          MoreRows(rows, RowOf(recs, x));
          RowLength(recs, x);
          rows, src := rows + [RowOf(recs, x)], src + [x];
          n := n + |recs[x].links|;
          j := j + |t|;
          if j > RECLINE {
            j := 0;
            out := out + (t + "\n");
          } else {
            out := out + (t + "");
          }
        }
        i := i + 1;
      }
      UniqueIds(hash, recs, hosthash[..]);
      HostsListed(recs, order, hosts, sent);
      RowsListed(recs, order, hosts, rows, src, tallies);
    }

    /** The text for the links of one host. */
    method WriteRow(x: nat) returns (t: string)
      requires Valid() && x < |recs|
      ensures LinksOf(recs[x], |recs|) && t == RowText(RowOf(recs, x))
    {
      hide ChainsOk, SentOk;
      hide LinkText;
      assert LinksOf(recs[x], |recs|);
      ghost var links := RowOf(recs, x).links;
      var u := "";
      var k := 0;
      while k < |recs[x].links|
        invariant 0 <= k <= |recs[x].links| && u == LinksText(links, k)
      {
        var l := recs[x].links[k];
        u := u + LinkText(LinkRec(recs[l.to].no, l.tally));
        k := k + 1;
      }
      t := ":" + (Int(recs[x].no) + u);
      LinksWhole(links, |links|);
      assert u + "" == u;
    }

    // --- reading ------------------------------------------------------------------------------

    /** Reads a dump file of version 3.0 or 3.1, whatever its text, into the table. */
    method ReadDump(text: string) returns (o: Outcome)
      requires Valid()
      modifies this, hosthash
      ensures Valid() && o == Read(text).0
      ensures o.Loaded? ==>
                var file := Read(text).1;
                && InBounds(file.links, |file.hosts|) && total == old(total) + file.total
                && sent == AddHosts(old(sent), file.hosts, |file.hosts|)
                && tallies == AddTriples(old(tallies), file.hosts, file.links)
      ensures !o.Loaded? ==> total == old(total)
    {
      hide ChainsOk, SentOk, LinksOk, ScanHead, SkipWhite, ScanWord, ScanEnd, HostsIn, RowsIn, OldRowsIn, InBounds,
           AddHosts, AddTriples;
      var h := ScanHead(text);
      if h.Fail? || h.value.sites < 0 {
        return FormatError;
      }
      var n, rest, ok := ReadHosts(h.rest, h.value.sites);
      if !ok {
        return FormatError;
      }
      ghost var hosts := HostsIn(h.rest, h.value.sites).0;
      var w := ScanWord(rest, MAXHOST - 1);
      if w.Fail? || w.value != NLREC {
        return FormatError;
      }
      rest := SkipWhite(w.rest);
      var m: nat;
      if "3.0" <= h.value.version {
        o, rest, m := ReadOldRows(n, rest, hosts);
      } else if "3.1" <= h.value.version {
        o, rest, m := ReadRows(n, rest, hosts);
      } else {
        return FormatError;
      }
      if !o.Loaded? {
        return;
      }
      var e := ScanEnd(rest);
      if e.Fail? || e.value != m {
        return FormatError;
      }
      total := total + h.value.total;
    }

    /** The records are those of the hosts. */
    ghost predicate Refers(n: seq<nat>, hosts: seq<HostRec>)
      reads this
    {
      |n| == |hosts| && forall k | 0 <= k < |n| :: n[k] < |recs| && recs[n[k]].id == hosts[k].name
    }

    /** Reads the hosts; `n` are their records by number. */
    method ReadHosts(text: string, sites: nat) returns (n: seq<nat>, rest: string, ok: bool)
      requires Valid()
      modifies this`recs, this`sent, hosthash
      ensures Valid()
      ensures var (hosts, t, good) := HostsIn(text, sites);
              && ok == good
              && (ok ==> rest == t && Refers(n, hosts) && sent == AddHosts(old(sent), hosts, |hosts|))
    {
      hide ChainsOk, SentOk, LinksOk, ScanHost, AddHosts, HostsIn;
      n, rest, ok := [], text, true;
      ghost var hosts: seq<HostRec> := [];
      NoneAdded(sent);
      FirstHost(text, sites);
      var i := 0;
      while i < sites
        invariant 0 <= i <= sites && Valid() && Refers(n, hosts)
        invariant |hosts| == i && sent == AddHosts(old(sent), hosts, i)
        invariant HostsRead(text, sites, hosts, rest, sites - i)
      {
        NextHost(text, sites, hosts, rest, sites - i);
        var s := ScanHost(rest);
        if s.Fail? {
          ok := false;
          return;
        }
        ghost var sent0 := sent;
        var h := HHost(s.value.name);
        AddSent(h, s.value.count);
        assert sent == AddTo(sent0, s.value.name, s.value.count);
        OneMoreHost(old(sent), hosts, s.value);
        n, rest, hosts := n + [h], s.rest, hosts + [s.value];
        i := i + 1;
      }
      LastHost(text, sites, hosts, rest);
    }

    /** Reads the rows of a dump of version 3.1; `m` is the number of links. */
    method ReadRows(n: seq<nat>, text: string, ghost hosts: seq<HostRec>) returns (o: Outcome, rest: string, m: nat)
      requires Valid() && Refers(n, hosts)
      modifies this`recs, this`tallies
      ensures Valid() && o == Checked(RowsIn(text).0, |n|)
      ensures o.Loaded? ==>
                var (ls, t) := RowsIn(text);
                InBounds(ls, |hosts|) && rest == t && m == |ls| && tallies == AddTriples(old(tallies), hosts, ls)
    {
      hide ChainsOk, SentOk, LinksOk, ScanRow, RowsIn, LinksIn, AddTriples, InBounds;
      rest, m, o := text, 0, Loaded;
      ghost var done: seq<Triple> := [];
      NoTriples(tallies, hosts);
      assert [] + RowsIn(text).0 == RowsIn(text).0;
      var s := ScanRow(rest);
      while s.Got?
        invariant Valid() && Refers(n, hosts) && s == ScanRow(rest) && o.Loaded?
        invariant InBounds(done, |hosts|) && m == |done| && tallies == AddTriples(old(tallies), hosts, done)
        invariant RowsIn(text) == (done + RowsIn(rest).0, RowsIn(rest).1)
        decreases |rest|
      {
        RowUnfold(rest);
        RowShrinks(rest);
        ghost var before, ls, more := tallies, LinksIn(s.value, s.rest).0, RowsIn(LinksIn(s.value, s.rest).1).0;
        Triple3(done, ls, more);
        Bounded(done, ls, more, |hosts|);
        var count: nat;
        o, rest, count := ReadLinks(n, s.value, s.rest, hosts);
        if !o.Loaded? {
          return;
        }
        AddJoin(old(tallies), hosts, done, ls);
        m, done := m + count, done + ls;
        s := ScanRow(rest);
      }
      RowUnfold(rest);
      assert done + [] == done;
      rest := s.rest;
    }

    /** Reads the links of one host. */
    method ReadLinks(n: seq<nat>, a: int, text: string, ghost hosts: seq<HostRec>)
      returns (o: Outcome, rest: string, count: nat)
      requires Valid() && Refers(n, hosts)
      modifies this`recs, this`tallies
      ensures Valid() && |rest| <= |text| && SameHosts(old(recs), recs)
      ensures o == Checked(LinksIn(a, text).0, |n|)
      ensures o.Loaded? ==>
                var (ls, t) := LinksIn(a, text);
                InBounds(ls, |hosts|) && rest == t && count == |ls| && tallies == AddTriples(old(tallies), hosts, ls)
    {
      hide ChainsOk, SentOk, LinksOk, ScanLink, LinksIn, AddTriples, InBounds;
      rest, count := text, 0;
      ghost var done: seq<Triple> := [];
      NoTriples(tallies, hosts);
      assert [] + LinksIn(a, text).0 == LinksIn(a, text).0;
      var s := ScanLink(rest);
      while s.Got?
        invariant Valid() && SameHosts(old(recs), recs) && s == ScanLink(rest) && |rest| <= |text|
        invariant InBounds(done, |hosts|) && count == |done| && tallies == AddTriples(old(tallies), hosts, done)
        invariant LinksIn(a, text) == (done + LinksIn(a, rest).0, LinksIn(a, rest).1)
        decreases |rest|
      {
        LinkUnfold(a, rest);
        LinkShrinks(rest);
        var (b, l) := s.value;
        Triple3(done, [(a, b, l)], LinksIn(a, s.rest).0);
        Bounded(done, [(a, b, l)], LinksIn(a, s.rest).0, |hosts|);
        OneBounded((a, b, l), |hosts|);
        if !(0 <= a < |n| && 0 <= b < |n|) {
          return OutOfBounds, rest, count;
        }
        AddTally(n[a], n[b], l);
        AddOne(old(tallies), hosts, done, (a, b, l));
        rest, count, done := s.rest, count + 1, done + [(a, b, l)];
        s := ScanLink(rest);
      }
      LinkUnfold(a, rest);
      LinkShrinks(rest);
      assert done + [] == done;
      rest, o := s.rest, Loaded;
    }

    /** Reads the rows of a dump of version 3.0, which has both hosts and the tally for each link. */
    method ReadOldRows(n: seq<nat>, text: string, ghost hosts: seq<HostRec>) returns (o: Outcome, rest: string, m: nat)
      requires Valid() && Refers(n, hosts)
      modifies this`recs, this`tallies
      ensures Valid() && o == Checked(OldRowsIn(text).0, |n|)
      ensures o.Loaded? ==>
                var (ls, t) := OldRowsIn(text);
                InBounds(ls, |hosts|) && rest == t && m == |ls| && tallies == AddTriples(old(tallies), hosts, ls)
    {
      hide ChainsOk, SentOk, LinksOk, ScanOldRow, OldRowsIn, AddTriples, InBounds;
      rest, m := text, 0;
      ghost var done: seq<Triple> := [];
      NoTriples(tallies, hosts);
      assert [] + OldRowsIn(text).0 == OldRowsIn(text).0;
      var s := ScanOldRow(rest);
      while s.Got?
        invariant Valid() && Refers(n, hosts) && s == ScanOldRow(rest)
        invariant InBounds(done, |hosts|) && m == |done| && tallies == AddTriples(old(tallies), hosts, done)
        invariant OldRowsIn(text) == (done + OldRowsIn(rest).0, OldRowsIn(rest).1)
        decreases |rest|
      {
        OldRowUnfold(rest);
        OldRowShrinks(rest);
        var (a, b, l) := s.value;
        Triple3(done, [(a, b, l)], OldRowsIn(s.rest).0);
        Bounded(done, [(a, b, l)], OldRowsIn(s.rest).0, |hosts|);
        OneBounded((a, b, l), |hosts|);
        if !(0 <= a < |n| && 0 <= b < |n|) {
          return OutOfBounds, rest, m;
        }
        AddTally(n[a], n[b], l);
        AddOne(old(tallies), hosts, done, (a, b, l));
        rest, m, done := s.rest, m + 1, done + [(a, b, l)];
        s := ScanOldRow(rest);
      }
      OldRowUnfold(rest);
      assert done + [] == done;
      rest, o := s.rest, Loaded;
    }
  }

  // --- steps of the reader --------------------------------------------------------------------

  lemma VersionIs31()
    ensures !("3.0" <= VERSION) && "3.1" <= VERSION
  {
    assert VERSION[2] == '1' && "3.0"[2] == '0';
  }

  lemma RowsReadable(d: Dump)
    requires Readable(d)
    ensures forall i | 0 <= i < |d.rows| :: RowReadable(d.rows[i], |d.hosts|)
  {}

  lemma RowOrEnd(d: Dump, i: nat, rest: string)
    requires Readable(d) && i <= |d.rows| && SkipWhite(rest) == SkipWhite(RowsFrom(d.rows, i) + AfterRows(d))
    ensures if i < |d.rows| then
              var more := RowEnd(d.rows, i) + (RowsFrom(d.rows, i + 1) + AfterRows(d));
              ScanRow(rest) == Got(d.rows[i].a, LinksFrom(d.rows[i].links, 0) + more)
            else ScanRow(rest) == Fail(SkipWhite(AfterRows(d)))
  {
    SkipTwice(rest);
    SkipTwice(RowsFrom(d.rows, i) + AfterRows(d));
    assert ScanRow(rest) == ScanRow(SkipWhite(rest)) by {
      hide SkipWhite;
    }
    hide ScanRow, SkipWhite;
    if i < |d.rows| {
      RowStep(d, i);
    } else {
      assert RowsFrom(d.rows, i) + AfterRows(d) == AfterRows(d);
      EndStep(LinkCount(d.rows));
    }
  }

  lemma LinkOrEnd(links: seq<LinkRec>, k: nat, t: string)
    requires k <= |links| && Follows(t)
    ensures ScanLink(LinksFrom(links, k) + t) ==
            if k < |links| then Got((links[k].b, Effective(links[k].tally)), LinksFrom(links, k + 1) + t) else Fail(t)
  {
    hide ScanLink, LinksFrom;
    if k < |links| {
      LinkStep(links, k, t);
    } else {
      LinksEnd(links, t);
    }
  }

  lemma {:induction false} SkipShrinks(s: string)
    ensures |SkipWhite(s)| <= |s|
  {
    if s != "" && White(s[0]) {
      SkipShrinks(s[1..]);
    }
  }

  lemma IntShrinks(s: string)
    ensures |ScanInt(s).rest| <= |s| && (ScanInt(s).Got? ==> |ScanInt(s).rest| < |s|)
  {
    SkipShrinks(s);
    var t := SkipWhite(s);
    hide Value, SkipWhite;
  }

  lemma RowShrinks(s: string)
    ensures |ScanRow(s).rest| <= |s| && (ScanRow(s).Got? ==> |ScanRow(s).rest| < |s|)
  {
    SkipShrinks(s);
    hide ScanInt, SkipWhite;
    var c := ScanLiteral(SkipWhite(s), ":");
    IntShrinks(c.rest);
  }

  lemma LinkShrinks(s: string)
    ensures |ScanLink(s).rest| <= |s| && (ScanLink(s).Got? ==> |ScanLink(s).rest| < |s|)
  {
    hide ScanInt;
    var m := ScanLiteral(s, "!");
    IntShrinks(m.rest);
    var b := ScanInt(m.rest);
    IntShrinks(ScanLiteral(b.rest, ",").rest);
  }

  lemma OldRowShrinks(s: string)
    ensures ScanOldRow(s).Got? ==> |ScanOldRow(s).rest| < |s|
  {
    hide ScanInt, SkipWhite;
    var a := ScanInt(s);
    IntShrinks(s);
    var m := ScanLiteral(a.rest, "!");
    IntShrinks(m.rest);
    var b := ScanInt(m.rest);
    var c := ScanLiteral(b.rest, "!");
    IntShrinks(c.rest);
    SkipShrinks(ScanInt(c.rest).rest);
  }

  /** Records whose names and counts are the same. */
  predicate SameHosts(recs: seq<Rec>, r: seq<Rec>) {
    |r| == |recs| && forall i | 0 <= i < |recs| :: r[i].id == recs[i].id && r[i].sentto == recs[i].sentto
  }

  lemma HostsStay(hash: string -> nat, recs: seq<Rec>, r: seq<Rec>, ch: seq<seq<nat>>, sent: map<string, int>)
    requires ChainsOk(hash, recs, ch) && SentOk(recs, sent) && SameHosts(recs, r)
    ensures ChainsOk(hash, r, ch) && SentOk(r, sent)
  {
    ChainsStay(hash, recs, r, ch);
    forall n | n in sent ensures exists i :: Named(r, i, n) {
      var i :| Named(recs, i, n);
      assert Named(r, i, n);
    }
  }

  lemma UniqueIds(hash: string -> nat, recs: seq<Rec>, ch: seq<seq<nat>>)
    requires ChainsOk(hash, recs, ch)
    ensures UniqueNames(recs)
  {}

  lemma InPool(hash: string -> nat, recs: seq<Rec>, ch: seq<seq<nat>>, b: nat, k: nat)
    requires ChainsOk(hash, recs, ch) && b < HASH_TBL && k < |ch[b]|
    ensures ch[b][k] < |recs|
  {}

  lemma SentHas(recs: seq<Rec>, sent: map<string, int>, h: nat)
    requires SentOk(recs, sent) && h < |recs|
    ensures recs[h].id in sent
  {}

  lemma LinkHas(recs: seq<Rec>, tallies: map<(string, string), int>, r: nat, k: nat)
    requires LinksOk(recs, tallies) && r < |recs| && k < |recs[r].links|
    ensures recs[r].links[k].to < |recs| && (recs[r].id, recs[recs[r].links[k].to].id) in tallies
  {
    assert LinksOf(recs[r], |recs|);
    assert IsLink(recs, r, k, (recs[r].id, recs[recs[r].links[k].to].id));
  }

  // --- reading what was written ---------------------------------------------------------------

  lemma {:induction false} HostsBack(d: Dump, i: nat, t: string)
    requires Readable(d) && i <= |d.hosts|
    ensures HostsIn(SkipWhite(HostsFrom(d.hosts, i) + t), |d.hosts| - i) == (d.hosts[i..], SkipWhite(t), true)
    decreases |d.hosts| - i
  {
    hide ScanHost, SkipWhite, Readable, HostText, HostEnd;
    if i < |d.hosts| {
      HostStep(d, i, t);
      HostsBack(d, i + 1, t);
      assert d.hosts[i..] == [d.hosts[i]] + d.hosts[i + 1..];
    } else {
      assert "" + t == t && d.hosts[i..] == [];
    }
  }

  /** The links as they are read. */
  function LinkTriples(a: nat, links: seq<LinkRec>, k: nat): seq<Triple>
    requires k <= |links|
    decreases |links| - k
  {
    if k == |links| then [] else [(a, links[k].b, Effective(links[k].tally))] + LinkTriples(a, links, k + 1)
  }

  function RowTriples(rows: seq<Row>, i: nat): seq<Triple>
    requires i <= |rows|
    decreases |rows| - i
  {
    if i == |rows| then [] else LinkTriples(rows[i].a, rows[i].links, 0) + RowTriples(rows, i + 1)
  }

  lemma {:induction false} LinksBack(a: nat, links: seq<LinkRec>, k: nat, t: string)
    requires k <= |links| && Follows(t)
    ensures LinksIn(a, LinksFrom(links, k) + t) == (LinkTriples(a, links, k), t)
    decreases |links| - k
  {
    hide ScanLink, LinksFrom, Follows, LinksIn;
    LinkOrEnd(links, k, t);
    LinkUnfold(a, LinksFrom(links, k) + t);
    if k < |links| {
      LinksBack(a, links, k + 1, t);
    }
  }

  lemma {:induction false} RowsBack(d: Dump, i: nat, rest: string)
    requires Readable(d) && i <= |d.rows| && SkipWhite(rest) == SkipWhite(RowsFrom(d.rows, i) + AfterRows(d))
    ensures RowsIn(rest) == (RowTriples(d.rows, i), SkipWhite(AfterRows(d)))
    decreases |d.rows| - i
  {
    hide ScanRow, LinksFrom, RowsFrom, Follows, RowsIn, LinksIn, Readable, AfterRows, RowEnd, SkipWhite, LinkTriples;
    RowOrEnd(d, i, rest);
    RowUnfold(rest);
    if i < |d.rows| {
      var more := RowEnd(d.rows, i) + (RowsFrom(d.rows, i + 1) + AfterRows(d));
      AfterRow(d, i);
      LinksBack(d.rows[i].a, d.rows[i].links, 0, more);
      RowsBack(d, i + 1, more);
    }
  }

  lemma {:induction false} LinkTriplesBound(a: nat, links: seq<LinkRec>, k: nat, n: nat)
    requires k <= |links| && a < n && forall j | 0 <= j < |links| :: links[j].b < n
    ensures InBounds(LinkTriples(a, links, k), n) && |LinkTriples(a, links, k)| == |links| - k
    decreases |links| - k
  {
    if k < |links| {
      LinkTriplesBound(a, links, k + 1, n);
    }
  }

  lemma {:induction false} RowTriplesBound(rows: seq<Row>, i: nat, n: nat)
    requires i <= |rows| && forall j | 0 <= j < |rows| :: RowReadable(rows[j], n)
    ensures InBounds(RowTriples(rows, i), n) && LinkCount(rows[..i]) + |RowTriples(rows, i)| == LinkCount(rows)
    decreases |rows| - i
  {
    hide InBounds;
    if i < |rows| {
      var ls, more := LinkTriples(rows[i].a, rows[i].links, 0), RowTriples(rows, i + 1);
      LinkTriplesBound(rows[i].a, rows[i].links, 0, n);
      RowTriplesBound(rows, i + 1, n);
      Bounded(ls, more, [], n);
      assert rows[..i + 1][..i] == rows[..i];
    } else {
      assert rows[..i] == rows;
      NoTriples(map[], []);
      NoneInBounds(n);
    }
  }

  lemma NoneInBounds(n: nat)
    ensures InBounds([], n)
  {}

  /** A text with the head and the hosts of a dump, and any rows. */
  lemma Whole(d: Dump, body: string)
    requires Readable(d)
    ensures Read(HeadOf(d) + (HostsFrom(d.hosts, 0) + (Middle() + body))) ==
            ReadEnd(Head(VERSION, d.start, d.end, |d.hosts|, d.total, d.avg), d.hosts, RowsIn(SkipWhite(body)))
  {
    hide ScanHead, HeadOf, HostsFrom, HostsIn, RowsIn, OldRowsIn, Middle, SkipWhite, ScanWord, Readable, ReadEnd;
    HeadScanned(d, HostsFrom(d.hosts, 0) + (Middle() + body));
    HostsBack(d, 0, Middle() + body);
    MiddleStep(body);
    VersionIs31();
    assert d.hosts[0..] == d.hosts;
  }

  /** A dump is read as it was written, but for the tallies of less than one. */
  lemma ReadsBack(d: Dump)
    requires Readable(d)
    ensures Read(Render(d)) == (Loaded, File(d.total, d.hosts, RowTriples(d.rows, 0)))
    ensures InBounds(RowTriples(d.rows, 0), |d.hosts|)
  {
    var body := RowsFrom(d.rows, 0) + AfterRows(d);
    Whole(d, body);
    RowsReadable(d);
    EndStep(LinkCount(d.rows));
    hide HeadOf, HostsFrom, RowsIn, RowsFrom, Middle, SkipWhite, ScanEnd, Readable, EndText, RowTriples, InBounds, Read;
    SkipTwice(body);
    RowsBack(d, 0, SkipWhite(body));
    RowTriplesBound(d.rows, 0, |d.hosts|);
    assert d.rows[..0] == [] && LinkCount([]) == 0;
  }

  lemma {:induction false} LinksAdded(m: map<(string, string), int>, hosts: seq<HostRec>, r: Row, k: nat)
    requires RowReadable(r, |hosts|) && k <= |r.links|
    ensures InBounds(LinkTriples(r.a, r.links, k), |hosts|)
    ensures AddTriples(AddLinks(m, hosts, r, k), hosts, LinkTriples(r.a, r.links, k)) ==
            AddLinks(m, hosts, r, |r.links|)
    decreases |r.links| - k
  {
    LinkTriplesBound(r.a, r.links, k, |hosts|);
    hide InBounds, AddTriples;
    var n := AddLinks(m, hosts, r, k);
    NoTriples(n, hosts);
    if k < |r.links| {
      var x: Triple := (r.a, r.links[k].b, Effective(r.links[k].tally));
      OneBounded(x, |hosts|);
      LinksAdded(m, hosts, r, k + 1);
      AddOne(n, hosts, [], x);
      assert [] + [x] == [x];
      AddJoin(n, hosts, [x], LinkTriples(r.a, r.links, k + 1));
    }
  }

  lemma {:induction false} RowsAdded(m: map<(string, string), int>, hosts: seq<HostRec>, rows: seq<Row>, i: nat)
    requires i <= |rows| && forall j | 0 <= j < |rows| :: RowReadable(rows[j], |hosts|)
    ensures InBounds(RowTriples(rows, i), |hosts|)
    ensures AddTriples(AddRows(m, hosts, rows, i), hosts, RowTriples(rows, i)) == AddRows(m, hosts, rows, |rows|)
    decreases |rows| - i
  {
    RowTriplesBound(rows, i, |hosts|);
    hide InBounds, AddTriples, AddLinks, LinkTriples, RowReadable;
    var n := AddRows(m, hosts, rows, i);
    NoTriples(n, hosts);
    if i < |rows| {
      var r := rows[i];
      RowTriplesBound(rows, i + 1, |hosts|);
      LinksAdded(n, hosts, r, 0);
      NoLinksAdded(n, hosts, r);
      RowsAdded(m, hosts, rows, i + 1);
      AddJoin(n, hosts, LinkTriples(r.a, r.links, 0), RowTriples(rows, i + 1));
    }
  }

  lemma NoLinksAdded(m: map<(string, string), int>, hosts: seq<HostRec>, r: Row)
    requires RowReadable(r, |hosts|)
    ensures AddLinks(m, hosts, r, 0) == m
  {}

  // --- the round trip -------------------------------------------------------------------------

  function Get<K>(m: map<K, int>, k: K): int {
    if k in m then m[k] else 0
  }

  /** `r` has what `m` and `a` have, added up. */
  ghost predicate Sums<K(!new)>(m: map<K, int>, a: map<K, int>, r: map<K, int>) {
    forall k :: (k in r <==> k in m || k in a) && Get(r, k) == Get(m, k) + Get(a, k)
  }

  function Effectively(t: map<(string, string), int>): map<(string, string), int> {
    map p | p in t :: Effective(t[p])
  }

  lemma {:induction false} HostsSum(m: map<string, int>, hosts: seq<HostRec>, i: nat, x: string)
    requires i <= |hosts| && forall j, k | 0 <= j < k < |hosts| :: hosts[j].name != hosts[k].name
    ensures var r := AddHosts(m, hosts, i);
            && ((forall j | 0 <= j < i :: hosts[j].name != x) ==> (x in r <==> x in m) && Get(r, x) == Get(m, x))
            && (forall j | 0 <= j < i && hosts[j].name == x :: x in r && Get(r, x) == Get(m, x) + hosts[j].count)
  {
    if i > 0 {
      HostsSum(m, hosts, i - 1, x);
    }
  }

  lemma HostsTotal(m: map<string, int>, hosts: seq<HostRec>, sent: map<string, int>)
    requires HostsAre(hosts, sent)
    ensures Sums(m, sent, AddHosts(m, hosts, |hosts|))
  {
    var r := AddHosts(m, hosts, |hosts|);
    forall x ensures (x in r <==> x in m || x in sent) && Get(r, x) == Get(m, x) + Get(sent, x) {
      HostsSum(m, hosts, |hosts|, x);
      if x in sent {
        var i :| 0 <= i < |hosts| && hosts[i].name == x;
      }
    }
  }

  lemma {:induction false} LinksSum(m: map<(string, string), int>, hosts: seq<HostRec>, rows: seq<Row>, i: nat, k: nat,
                                    p: (string, string))
    requires i < |rows| && RowReadable(rows[i], |hosts|) && k <= |rows[i].links|
    requires forall q, n | RowLink(hosts, rows, i, q, p) && RowLink(hosts, rows, i, n, p) :: q == n
    ensures var r := AddLinks(m, hosts, rows[i], k);
            && ((forall q | 0 <= q < k :: !RowLink(hosts, rows, i, q, p)) ==>
                  (p in r <==> p in m) && Get(r, p) == Get(m, p))
            && (forall q | 0 <= q < k && RowLink(hosts, rows, i, q, p) ::
                  p in r && Get(r, p) == Get(m, p) + Effective(rows[i].links[q].tally))
  {
    if k > 0 {
      LinksSum(m, hosts, rows, i, k - 1, p);
      assert RowLink(hosts, rows, i, k - 1, p) <==> p == (hosts[rows[i].a].name, hosts[rows[i].links[k - 1].b].name);
    }
  }

  lemma {:induction false} RowsSum(m: map<(string, string), int>, hosts: seq<HostRec>, rows: seq<Row>, i: nat,
                                   p: (string, string))
    requires i <= |rows| && forall j | 0 <= j < |rows| :: RowReadable(rows[j], |hosts|)
    requires forall j, q, k, n | RowLink(hosts, rows, j, q, p) && RowLink(hosts, rows, k, n, p) :: j == k && q == n
    ensures var r := AddRows(m, hosts, rows, i);
            && ((forall j, q | 0 <= j < i :: !RowLink(hosts, rows, j, q, p)) ==>
                  (p in r <==> p in m) && Get(r, p) == Get(m, p))
            && (forall j, q | 0 <= j < i && RowLink(hosts, rows, j, q, p) ::
                  0 <= q < |rows[j].links| && p in r && Get(r, p) == Get(m, p) + Effective(rows[j].links[q].tally))
  {
    if i > 0 {
      RowsSum(m, hosts, rows, i - 1, p);
      LinksSum(AddRows(m, hosts, rows, i - 1), hosts, rows, i - 1, |rows[i - 1].links|, p);
      assert forall j, q | RowLink(hosts, rows, j, q, p) :: 0 <= j < |rows| && 0 <= q < |rows[j].links|;
      hide RowLink, AddLinks, Effective;
    }
  }

  lemma RowsTotal(m: map<(string, string), int>, hosts: seq<HostRec>, rows: seq<Row>,
                  tallies: map<(string, string), int>)
    requires RowsAre(hosts, rows, tallies)
    ensures Sums(m, Effectively(tallies), AddRows(m, hosts, rows, |rows|))
  {
    var r, e := AddRows(m, hosts, rows, |rows|), Effectively(tallies);
    forall p ensures (p in r <==> p in m || p in e) && Get(r, p) == Get(m, p) + Get(e, p) {
      RowsSum(m, hosts, rows, |rows|, p);
      if p in tallies {
        var i, k :| RowLink(hosts, rows, i, k, p);
        assert 0 <= i < |rows|;
      } else {
        assert forall i, k :: !RowLink(hosts, rows, i, k, p);
      }
    }
  }

  /** A tally comes back as it was exactly when it is positive; the reader takes no count for one. */
  lemma TalliesKept(m: map<(string, string), int>, t: map<(string, string), int>, r: map<(string, string), int>)
    requires Sums(m, Effectively(t), r)
    ensures Sums(m, t, r) <==> forall p | p in t :: t[p] >= 1
  {
    var e := Effectively(t);
    if Sums(m, t, r) {
      forall p | p in t ensures t[p] >= 1 {
        assert Get(r, p) == Get(m, p) + Get(e, p) && Get(r, p) == Get(m, p) + Get(t, p);
      }
    }
    if forall p | p in t :: t[p] >= 1 {
      assert e == t;
    }
  }

  /** The name of a host as it can be read: a word that fits. */
  ghost predicate Names(sent: map<string, int>) {
    forall n | n in sent :: Word(n, MAXHOST - 1)
  }

  lemma DumpReadable(d: Dump, sent: map<string, int>, tallies: map<(string, string), int>)
    requires Names(sent) && HostsAre(d.hosts, sent) && RowsAre(d.hosts, d.rows, tallies)
    ensures Readable(d)
  {}

  /** Dumping one table and reading it into another adds the one to the other, host by host and link by link. */
  method Reload(a: Paths, b: Paths, start: nat, end: nat, avg: int) returns (o: Outcome)
    requires a.Valid() && b.Valid() && a != b && a.hosthash != b.hosthash && a.total != 0 && Names(a.sent)
    modifies a`recs, b, b.hosthash
    ensures a.Valid() && b.Valid() && o.Loaded?
    ensures b.total == old(b.total) + a.total && Sums(old(b.sent), a.sent, b.sent)
    ensures Sums(old(b.tallies), Effectively(a.tallies), b.tallies)
    ensures Sums(old(b.tallies), a.tallies, b.tallies) <==> forall p | p in a.tallies :: a.tallies[p] >= 1
  {
    hide ChainsOk, SentOk, LinksOk, HostsAre, RowsAre, Sums, Names, Readable, Render, RowReadable, Read, InBounds,
         AddTriples, AddRows, AddHosts, RowTriples;
    ghost var sent, tallies := b.sent, b.tallies;
    var ok: bool, text: string;
    ghost var d: Dump;
    ok, text, d := a.WriteDump(start, end, avg);
    DumpReadable(d, a.sent, a.tallies);
    RowsReadable(d);
    ReadsBack(d);
    RowsAdded(tallies, d.hosts, d.rows, 0);
    NoRowsAdded(tallies, d.hosts, d.rows);
    o := b.ReadDump(text);
    HostsTotal(sent, d.hosts, a.sent);
    RowsTotal(tallies, d.hosts, d.rows, a.tallies);
    TalliesKept(tallies, a.tallies, b.tallies);
  }

  lemma NoRowsAdded(m: map<(string, string), int>, hosts: seq<HostRec>, rows: seq<Row>)
    requires forall j | 0 <= j < |rows| :: RowReadable(rows[j], |hosts|)
    ensures AddRows(m, hosts, rows, 0) == m
  {}

  // --- the format -----------------------------------------------------------------------------

  /** Names of hosts may have up to 127 characters. */
  lemma NameFits(w: string)
    ensures Word(w, MAXHOST - 1) <==> 0 < |w| <= 127 && forall i | 0 <= i < |w| :: !White(w[i])
  {}

  /** An output line is broken after a host if and only if it has more than 120 characters then. */
  lemma {:induction false} LinesBreak(hosts: seq<HostRec>, i: nat)
    requires i < |hosts|
    ensures HostColumn(hosts, i) <= 120
    ensures HostEnd(hosts, i) == "\n" <==> HostColumn(hosts, i) + |HostText(hosts[i])| > 120
    ensures HostColumn(hosts, i + 1) ==
            if HostEnd(hosts, i) == "\n" then 0 else HostColumn(hosts, i) + |HostText(hosts[i])|
  {
    hide HostText;
    if i > 0 {
      LinesBreak(hosts, i - 1);
    }
  }

  lemma {:induction false} RowsBreak(rows: seq<Row>, i: nat)
    requires i < |rows|
    ensures RowColumn(rows, i) <= 120
    ensures RowEnd(rows, i) == "\n" <==> RowColumn(rows, i) + |RowText(rows[i])| > 120
    ensures RowColumn(rows, i + 1) ==
            if RowEnd(rows, i) == "\n" then 0 else RowColumn(rows, i) + |RowText(rows[i])|
  {
    hide RowText;
    if i > 0 {
      RowsBreak(rows, i - 1);
    }
  }

  function SmallDump(): Dump {
    Dump(10, 27, 345, 6, [HostRec("a", 12), HostRec("b", 0)], [Row(0, [LinkRec(1, 7), LinkRec(0, 1)])])
  }

  /** A whole dump file. */
  lemma WholeDump()
    ensures Render(SmallDump()) == "!!NINP 3.1.1 10 27 2 345 6\na 12 b 0 \n!!NLREC\n:0!1,7!0\n!!NLEND 2\n"
  {
    var d := SmallDump();
    assert Render(d) ==
           HeadOf(d) + (HostsFrom(d.hosts, 0) + (Middle() + (RowsFrom(d.rows, 0) + EndText(LinkCount(d.rows)))));
    hide *;
    SmallHead();
    SmallHosts();
    SmallRows();
    DumpGlue();
  }

  lemma SmallHead()
    ensures HeadOf(SmallDump()) == "!!NINP 3.1.1 10 27 2 345 6\n"
  {
    Numerals();
    hide Int;
  }

  lemma SmallHosts()
    ensures HostsFrom(SmallDump().hosts, 0) == "a 12 b 0 " && Middle() == "\n!!NLREC\n"
  {
    Numerals();
    hide Int;
    var hosts := SmallDump().hosts;
    assert HostText(hosts[0]) == "a 12" && HostText(hosts[1]) == "b 0";
    hide HostText;
    assert HostsFrom(hosts, 2) == "" && HostsFrom(hosts, 1) == "b 0 ";
  }

  lemma SmallRows()
    ensures RowsFrom(SmallDump().rows, 0) == ":0!1,7!0" && EndText(LinkCount(SmallDump().rows)) == "\n!!NLEND 2\n"
  {
    Numerals();
    hide Int;
    var rows := SmallDump().rows;
    var links := rows[0].links;
    assert LinksFrom(links, 2) == "" && LinksFrom(links, 1) == "!0" && LinksFrom(links, 0) == "!1,7!0";
    hide LinksFrom;
    assert RowText(rows[0]) == ":0!1,7!0" && RowsFrom(rows, 1) == "";
    assert LinkCount([]) == 0 && rows[..0] == [] && LinkCount(rows) == 2;
  }

  lemma DumpGlue()
    ensures "!!NINP 3.1.1 10 27 2 345 6\n" + ("a 12 b 0 " + ("\n!!NLREC\n" + (":0!1,7!0" + "\n!!NLEND 2\n")))
         == "!!NINP 3.1.1 10 27 2 345 6\na 12 b 0 \n!!NLREC\n:0!1,7!0\n!!NLEND 2\n"
  {}

  lemma Numerals()
    ensures Int(0) == "0" && Int(1) == "1" && Int(2) == "2" && Int(6) == "6" && Int(7) == "7"
    ensures Int(10) == "10" && Int(12) == "12" && Int(27) == "27" && Int(345) == "345" && Int(-8) == "-8"
  {
    assert Nat(34) == "34";
  }

  // --- version 3.0 ----------------------------------------------------------------------------

  /** A link as version 3.0 writes it: both hosts and the tally. */
  function OldRowText(l: Triple): string {
    Int(l.0) + ("!" + (Int(l.1) + ("!" + (Int(l.2) + " "))))
  }

  function OldRowsText(ls: seq<Triple>): string {
    if ls == [] then "" else OldRowText(ls[0]) + OldRowsText(ls[1..])
  }

  lemma OldRowScanned(l: Triple, t: string)
    ensures ScanOldRow(OldRowText(l) + t) == Got(l, SkipWhite(t))
  {
    var e := " " + t;
    var d := Int(l.2) + e;
    var c := "!" + d;
    var b := Int(l.1) + c;
    var a := "!" + b;
    OldJoined(Int(l.0), Int(l.1), Int(l.2), t);
    IntScanned(l.0, a);
    IntScanned(l.1, c);
    IntScanned(l.2, e);
    LiteralScanned("!", b);
    LiteralScanned("!", d);
    assert e[1..] == t && SkipWhite(e) == SkipWhite(t);
    hide ScanInt, Int, SkipWhite;
  }

  lemma OldJoined(a: string, b: string, c: string, t: string)
    ensures (a + ("!" + (b + ("!" + (c + " "))))) + t == a + ("!" + (b + ("!" + (c + (" " + t)))))
  {}

  lemma OldEnd(n: int)
    ensures ScanOldRow(SkipWhite(EndText(n))) == Fail(SkipWhite(EndText(n)))
  {
    var u := NLEND + (" " + (Int(n) + "\n"));
    NewlineSkipped(u);
    NlendBlack();
    FirstBlack(NLEND, " " + (Int(n) + "\n"));
    assert u[0] == '!' && SkipWhite(u) == u;
  }

  lemma OldRowBegins(l: Triple, t: string)
    ensures SkipWhite(OldRowText(l) + t) == OldRowText(l) + t
  {
    IntScanned(l.0, "");
    FirstBlack(OldRowText(l), t);
  }

  /** Links in the format of version 3.0 are read as they stand there, whatever their tallies. */
  lemma {:induction false} OldRowsBack(ls: seq<Triple>, n: int)
    ensures OldRowsIn(SkipWhite(OldRowsText(ls) + EndText(n))) == (ls, SkipWhite(EndText(n)))
  {
    hide ScanOldRow, SkipWhite, OldRowText, EndText, OldRowsIn;
    var t := OldRowsText(ls) + EndText(n);
    OldRowUnfold(SkipWhite(t));
    if ls == [] {
      assert t == EndText(n);
      OldEnd(n);
    } else {
      var more := OldRowsText(ls[1..]) + EndText(n);
      assert t == OldRowText(ls[0]) + more;
      OldRowBegins(ls[0], more);
      OldRowScanned(ls[0], more);
      OldRowsBack(ls[1..], n);
      assert ls == [ls[0]] + ls[1..];
    }
  }

  /** A dump file of version 3.0 with the head and the hosts of `d`, these links, and a count of them. */
  function OldText(d: Dump, ls: seq<Triple>, n: int): string {
    MAGIC + FieldsText("3.0", d.start, d.end, |d.hosts|, d.total, d.avg,
                       HostsFrom(d.hosts, 0) + (Middle() + (OldRowsText(ls) + EndText(n))))
  }

  /** What a dump of version 3.0 means: its hosts, and links from the first to the second number with the tally.  It is
      not loaded if a number is out of bounds or the count is wrong. */
  lemma OldReadsBack(d: Dump, ls: seq<Triple>, n: int)
    requires Readable(d)
    ensures Read(OldText(d, ls, n)) ==
            if !InBounds(ls, |d.hosts|) then (OutOfBounds, NOTHING)
            else if n != |ls| then (FormatError, NOTHING)
            else (Loaded, File(d.total, d.hosts, ls))
  {
    hide ScanFields, HostsFrom, HostsIn, RowsIn, OldRowsIn, Middle, SkipWhite, ScanWord, Readable, ReadEnd, FieldsText,
         EndText, InBounds;
    var body := OldRowsText(ls) + EndText(n);
    var t := HostsFrom(d.hosts, 0) + (Middle() + body);
    LiteralScanned(MAGIC, FieldsText("3.0", d.start, d.end, |d.hosts|, d.total, d.avg, t));
    OldVersion();
    FieldsScanned("3.0", d.start, d.end, |d.hosts|, d.total, d.avg, t);
    HostsBack(d, 0, Middle() + body);
    MiddleStep(body);
    assert d.hosts[0..] == d.hosts;
    OldRowsBack(ls, n);
    EndStep(n);
    OldLoaded(Head("3.0", d.start, d.end, |d.hosts|, d.total, d.avg), d.hosts, ls, SkipWhite(EndText(n)), n);
  }

  lemma OldVersion()
    ensures Word("3.0", 15) && "3.0" <= "3.0"
  {}

  lemma OldLoaded(h: Head, hosts: seq<HostRec>, ls: seq<Triple>, rest: string, n: int)
    requires ScanEnd(rest) == Got(n, "")
    ensures ReadEnd(h, hosts, (ls, rest)) ==
            if !InBounds(ls, |hosts|) then (OutOfBounds, NOTHING)
            else if n != |ls| then (FormatError, NOTHING)
            else (Loaded, File(h.total, hosts, ls))
  {
    hide InBounds;
  }

  /** Link `i` is between the named pair of hosts. */
  predicate TripleLink(hosts: seq<HostRec>, ls: seq<Triple>, i: int, p: (string, string))
    requires InBounds(ls, |hosts|)
  {
    0 <= i < |ls| && p == (hosts[ls[i].0].name, hosts[ls[i].1].name)
  }

  /** The links are those of a table, each once, in any order. */
  ghost predicate TriplesAre(hosts: seq<HostRec>, ls: seq<Triple>, tallies: map<(string, string), int>)
    requires InBounds(ls, |hosts|)
  {
    && (forall i, p | TripleLink(hosts, ls, i, p) :: p in tallies && tallies[p] == ls[i].2)
    && (forall i, j, p | TripleLink(hosts, ls, i, p) && TripleLink(hosts, ls, j, p) :: i == j)
    && (forall p | p in tallies :: exists i :: TripleLink(hosts, ls, i, p))
  }

  lemma FirstTriples(ls: seq<Triple>, n: nat, k: nat)
    requires InBounds(ls, n) && k <= |ls|
    ensures InBounds(ls[..k], n)
  {}

  lemma {:induction false} TriplesSum(m: map<(string, string), int>, hosts: seq<HostRec>, ls: seq<Triple>, k: nat,
                                      p: (string, string))
    requires InBounds(ls, |hosts|) && k <= |ls|
    requires forall i, j | TripleLink(hosts, ls, i, p) && TripleLink(hosts, ls, j, p) :: i == j
    ensures InBounds(ls[..k], |hosts|)
    ensures var r := AddTriples(m, hosts, ls[..k]);
            && ((forall i | 0 <= i < k :: !TripleLink(hosts, ls, i, p)) ==>
                  (p in r <==> p in m) && Get(r, p) == Get(m, p))
            && (forall i | 0 <= i < k && TripleLink(hosts, ls, i, p) :: p in r && Get(r, p) == Get(m, p) + ls[i].2)
  {
    FirstTriples(ls, |hosts|, k);
    if k > 0 {
      TriplesSum(m, hosts, ls, k - 1, p);
      assert ls[..k] == ls[..k - 1] + [ls[k - 1]];
      hide InBounds;
      AddOne(m, hosts, ls[..k - 1], ls[k - 1]);
      hide AddTriples;
      assert TripleLink(hosts, ls, k - 1, p) <==> p == (hosts[ls[k - 1].0].name, hosts[ls[k - 1].1].name);
    }
  }

  /** A dump of version 3.0 that lists a table adds this table, whatever its tallies. */
  lemma OldTotal(m: map<(string, string), int>, hosts: seq<HostRec>, ls: seq<Triple>,
                 tallies: map<(string, string), int>)
    requires InBounds(ls, |hosts|) && TriplesAre(hosts, ls, tallies)
    ensures Sums(m, tallies, AddTriples(m, hosts, ls))
  {
    var r := AddTriples(m, hosts, ls);
    assert ls[..|ls|] == ls;
    forall p ensures (p in r <==> p in m || p in tallies) && Get(r, p) == Get(m, p) + Get(tallies, p) {
      TriplesSum(m, hosts, ls, |ls|, p);
      hide AddTriples, InBounds;
      if p in tallies {
        var i :| TripleLink(hosts, ls, i, p);
      }
    }
  }

  // --- a tally that is not kept ---------------------------------------------------------------

  /** The head and the host of a dump in which one host has a link to itself. */
  const ONE_HOST := Dump(1, 2, 5, 0, [HostRec("h", 3)], [])

  /** The row of a dump in which the link has that tally, written out. */
  function OneRow(tally: int): string {
    ":" + (Int(0) + ("!" + (Int(0) + ("," + (Int(tally) + EndText(1))))))
  }

  function OneLinkText(tally: int): string {
    HeadOf(ONE_HOST) + (HostsFrom(ONE_HOST.hosts, 0) + (Middle() + OneRow(tally)))
  }

  lemma FullLinkScanned(b: int, tally: int, t: string)
    requires NoDigit(t)
    ensures ScanLink("!" + (Int(b) + ("," + (Int(tally) + t)))) == Got((b, tally), t)
  {
    var v := "," + (Int(tally) + t);
    LiteralScanned("!", Int(b) + v);
    IntScanned(b, v);
    hide ScanInt, Int;
    LiteralScanned(",", Int(tally) + t);
    IntScanned(tally, t);
  }

  lemma EndIsNoLink(n: int)
    ensures NoDigit(EndText(n)) && ScanLink(EndText(n)) == Fail(EndText(n))
  {
    hide Int;
    assert EndText(n)[0] == '\n';
  }

  lemma OneRowIn(tally: int)
    ensures RowsIn(SkipWhite(OneRow(tally))) == ([(0, 0, tally)], SkipWhite(EndText(1)))
  {
    hide Int, EndText, ScanLink, ScanRow, SkipWhite, RowsIn, LinksIn, NoDigit;
    EndIsNoLink(1);
    var more := "!" + (Int(0) + ("," + (Int(tally) + EndText(1))));
    FullLinkScanned(0, tally, EndText(1));
    LinkUnfold(0, more);
    LinkUnfold(0, EndText(1));
    assert [(0, 0, tally)] + [] == [(0, 0, tally)];
    BangIsNoDigit(more);
    RowScanned(0, more);
    RowUnfold(OneRow(tally));
    EndStep(1);
    RowUnfold(EndText(1));
    EndIsNoRow(1);
  }

  lemma BangIsNoDigit(t: string)
    requires t != "" && t[0] == '!'
    ensures NoDigit(t)
  {}

  lemma EndIsNoRow(n: int)
    ensures ScanRow(EndText(n)) == Fail(SkipWhite(EndText(n)))
  {
    EndStep(n);
    SkipTwice(EndText(n));
    hide SkipWhite, EndText;
  }

  /** The text is a dump file, whatever the tally. */
  lemma OneLinkRead(tally: int)
    ensures Read(OneLinkText(tally)) == (Loaded, File(5, [HostRec("h", 3)], [(0, 0, tally)]))
  {
    hide HeadOf, HostsFrom, Middle, SkipWhite, OneRow, EndText, ScanEnd, RowsIn, Read, Render;
    assert Readable(ONE_HOST);
    Whole(ONE_HOST, OneRow(tally));
    OneRowIn(tally);
    EndStep(1);
  }

  lemma OneLinkAdded(tally: int)
    ensures AddHosts(map[], [HostRec("h", 3)], 1) == map["h" := 3]
    ensures InBounds([(0, 0, tally)], 1)
    ensures AddTriples(map[], [HostRec("h", 3)], [(0, 0, tally)]) == map[("h", "h") := tally]
  {
    var x: Triple := (0, 0, tally);
    OneBounded(x, 1);
    AddOne(map[], [HostRec("h", 3)], [], x);
    assert [] + [x] == [x];
  }

  lemma OneLinkKept(tally: int, r: map<(string, string), int>)
    requires Sums(map[], Effectively(map[("h", "h") := tally]), r)
    ensures r.Keys == {("h", "h")} && r[("h", "h")] == if tally >= 1 then tally else 1
  {
    var e := Effectively(map[("h", "h") := tally]);
    assert Get(r, ("h", "h")) == Get(map[], ("h", "h")) + Get(e, ("h", "h"));
  }

  lemma OneWord()
    ensures Word("h", MAXHOST - 1)
  {}

  /** A dump file can hold any tally; dumped and read once more, it comes back as one if it is less than one. */
  method AnyTally(hash: string -> nat, tally: int) returns (a: Paths, b: Paths)
    ensures a.Valid() && a.tallies == map[("h", "h") := tally]
    ensures b.Valid() && b.tallies.Keys == {("h", "h")} && b.tallies[("h", "h")] == if tally >= 1 then tally else 1
  {
    hide ChainsOk, SentOk, LinksOk, Read, OneLinkText, Bucket, Word;
    a := new Paths(hash);
    OneLinkRead(tally);
    var o := a.ReadDump(OneLinkText(tally));
    OneLinkAdded(tally);
    b := new Paths(hash);
    assert Names(a.sent) by {
      assert Word("h", MAXHOST - 1) by {
        OneWord();
      }
    }
    o := Reload(a, b, 1, 2, 0);
    OneLinkKept(tally, b.tallies);
  }
}
