/** innxmit, the transmitter of one batch file to one peer: the table of articles in flight, the peer's
    replies, and what becomes of the batch file.

    The peer answers whatever it likes, writes to it and all file operations may fail at any time, and
    every path that gives up is modelled, down to the exit of the program. */
module Innxmit {

  /** Articles streamed ahead, and when to stop filling the table. */
  const STNBUF := 32
  const STNBUFL := 16
  /** Articles in a row after which CHECK is skipped. */
  const STNC := 16
  const STNRETRY := 5
  const MAXLEN_COMMAND := 512
  const SPOOLNAMEBUFF := 512

  /** One line of the batch file, as reading it and opening its article turns out.  An `Article` gets to the offer
      step: the file was opened and the message-ID is known from the line or from the article.  A `Requeued` line names
      an article that exists but could not be read; it goes to the new batch as it is. */
  datatype Line =
    | TooLong
    | Unreadable
    | Ignored
    | Unopened
    | Requeued(text: string)
    | Article(fname: string, id: string)

  /** A line of the rewritten batch: a requeued article, one that could not be read, or a line copied as it was. */
  datatype Entry =
    | Entry(fname: string, id: string, item: nat)
    | Again(text: string, item: nat)
    | Raw(line: Line, item: nat)

  /** A reply of the peer; `Lost` is a failed or timed-out read. */
  datatype Reply = Lost | Reply(code: int, hasId: bool, id: string)

  datatype Temp = NotOpen | Opened(entries: seq<Entry>)

  /** What is found under the name of the batch file. */
  datatype Disk = Original | Rewritten(entries: seq<Entry>) | Removed

  /** A table entry, in use when the file name is not empty.  `item` is the number of its batch line; `checks` and
      `takes` count the CHECK and TAKETHIS commands sent for it. */
  datatype Slot = Slot(fname: string, id: string, retry: nat, age: nat, art: bool, hash: nat,
                       item: nat, checks: nat, takes: nat)

  const FREE := Slot("", "", 0, 0, false, 0, 0, 0, 0)

  // --- message-ID hash ------------------------------------------------------------------------

  /** The value of a character in the hash: upper case is folded, and characters are signed bytes. */
  function CharValue(c: char): int {
    var n := c as int % 256;
    if 'A' as int <= n <= 'Z' as int then n + 32 else if n >= 128 then n - 256 else n
  }

  function HashFrom(id: string, p: nat, h: nat): nat
    decreases |id| - p
  {
    if p >= |id| || id[p] == '>' then h
    else HashFrom(id, p + 1, (2 * h + CharValue(id[p])) % 0x1_0000_0000)
  }

  function IdHash(id: string): nat {
    HashFrom(id, 1, 0)
  }

  method StIdHash(id: string) returns (hash: nat)
    ensures hash == IdHash(id)
  {
    hash := 0;
    var p := 1;
    while p < |id| && id[p] != '>'
      invariant HashFrom(id, p, hash) == IdHash(id)
    {
      hash := (2 * hash + CharValue(id[p])) % 0x1_0000_0000;
      p := p + 1;
    }
  }

  lemma HashStep(id: string, p: nat, h: nat, v: nat)
    requires p < |id| && id[p] != '>' && CharValue(id[p]) == v && 2 * h + v < 0x1_0000_0000
    ensures HashFrom(id, p, h) == HashFrom(id, p + 1, 2 * h + v)
  {}

  lemma HashStops(id: string, p: nat, h: nat)
    requires p < |id| && id[p] == '>'
    ensures HashFrom(id, p, h) == h
  {}

  lemma LetterValue(c: char, d: char)
    requires 'a' <= d <= 'z' && (c == d || c as int + 32 == d as int)
    ensures CharValue(c) == d as int && c != '>'
  {}

  /** Upper and lower case hash alike, and only what comes before the closing bracket counts. */
  lemma HashedIds(id: string)
    requires |id| > 3 && (id[1] == 'a' || id[1] == 'A') && (id[2] == 'b' || id[2] == 'B') && id[3] == '>'
    ensures IdHash(id) == 2 * 97 + 98
  {
    hide HashFrom, CharValue;
    LetterValue(id[1], 'a');
    LetterValue(id[2], 'b');
    HashStep(id, 1, 0, 97);
    HashStep(id, 2, 97, 98);
    HashStops(id, 3, 292);
  }

  // --- sums over the table --------------------------------------------------------------------

  function Sum(s: seq<Slot>, f: Slot -> nat): nat {
    if s == [] then 0 else Sum(s[..|s| - 1], f) + f(s[|s| - 1])
  }

  lemma {:induction false} SumUpdate(s: seq<Slot>, i: nat, x: Slot, f: Slot -> nat)
    requires i < |s|
    ensures Sum(s[i := x], f) + f(s[i]) == Sum(s, f) + f(x)
  {
    var n := |s| - 1;
    if i < n {
      SumUpdate(s[..n], i, x, f);
      assert s[i := x][..n] == s[..n][i := x];
    } else {
      assert s[i := x][..n] == s[..n];
    }
  }

  lemma {:induction false} SumBound(s: seq<Slot>, i: nat, f: Slot -> nat)
    requires i < |s|
    ensures f(s[i]) <= Sum(s, f)
  {
    if i < |s| - 1 {
      SumBound(s[..|s| - 1], i, f);
    }
  }

  /** Number of slots in use. */
  function One(s: Slot): nat {
    if s.fname != "" then 1 else 0
  }

  /** How many more replies a slot can consume. */
  function Patience(s: Slot): nat {
    if s.fname == "" then 0 else 1 + (if s.art then 1 else 0) + (if s.retry < STNRETRY then STNRETRY - s.retry else 0)
  }

  lemma {:induction false} AllFree(s: seq<Slot>)
    requires forall i | 0 <= i < |s| :: s[i].fname == ""
    ensures Sum(s, One) == 0
  {
    if s != [] {
      AllFree(s[..|s| - 1]);
    }
  }

  lemma {:induction false} NoneFree(s: seq<Slot>)
    requires forall i | 0 <= i < |s| :: s[i].fname != ""
    ensures Sum(s, One) == |s|
  {
    if s != [] {
      NoneFree(s[..|s| - 1]);
    }
  }

  // --- the ledger -----------------------------------------------------------------------------

  /** What became of an article that was offered: taken, refused or rejected by the peer, skipped because an article
      of line `of` with the same message-ID was in flight, written to the new batch, or still in a slot of the table. */
  datatype Fate = Accepted | Refused | Rejected | Skipped(of: nat) | ToBatch | InFlight(slot: int)

  /** The line stands for an article that must not be lost. */
  predicate Live(line: Line) {
    line.Article? || line.Requeued?
  }

  /** The batch lines among the first `n` that reached the offer step or could not be read. */
  function Offered(lines: seq<Line>, n: nat): set<nat>
    requires n <= |lines|
  {
    set k: nat | k < n && Live(lines[k])
  }

  /** The articles with a given fate. */
  function With(fate: map<nat, Fate>, f: Fate): set<nat> {
    set k | k in fate && fate[k] == f
  }

  lemma WithUpdate(fate: map<nat, Fate>, k: nat, f: Fate, g: Fate)
    requires k in fate ==> fate[k] != g
    ensures |With(fate[k := f], g)| == |With(fate, g)| + if f == g then 1 else 0
  {
    if f == g {
      assert With(fate[k := f], g) == With(fate, g) + {k};
    } else {
      assert With(fate[k := f], g) == With(fate, g);
    }
  }

  function Clip(id: string): string {
    if |id| < MAXLEN_COMMAND then id else id[..MAXLEN_COMMAND - 1]
  }

  /** The table holds up to 511 characters of a message-ID. */
  lemma Clipped(id: string)
    ensures |Clip(id)| == (if |id| <= 511 then |id| else 511) && Clip(id) == id[..|Clip(id)|]
  {}

  /** The entry brings the article of line `k` back: its file name, and its message-ID unless that is too long for the
      table. */
  predicate Restores(e: Entry, lines: seq<Line>, k: nat) {
    k < |lines| &&
    match lines[k]
    case Article(fname, id) => e.Entry? && e.item == k && e.fname == fname && (|id| < MAXLEN_COMMAND ==> e.id == id)
    case Requeued(text) => e == Again(text, k)
    case _ => false
  }

  predicate HasEntry(entries: seq<Entry>, lines: seq<Line>, k: nat) {
    exists j :: 0 <= j < |entries| && Restores(entries[j], lines, k)
  }

  predicate SlotOk(lines: seq<Line>, s: Slot) {
    if s.fname == "" then s.id == "" else
      && s.item < |lines| && lines[s.item].Article? && lines[s.item].fname == s.fname
      && s.id == Clip(lines[s.item].id) && s.hash == IdHash(lines[s.item].id)
      && s.retry <= STNRETRY && s.checks <= s.retry + 1 && s.takes == if s.art then 0 else 1
  }

  /** The test by which the table is searched. */
  predicate Hit(s: Slot, id: string, hash: nat) {
    s.id != "" && s.hash == hash && s.id == id
  }

  /** A message-ID that the table can tell from others. */
  predicate Fits(id: string) {
    0 < |id| < MAXLEN_COMMAND
  }

  /** The message-ID of the article in a slot, before it was clipped. */
  function FullId(lines: seq<Line>, s: Slot): string {
    if s.item < |lines| && lines[s.item].Article? then lines[s.item].id else ""
  }

  /** No two articles in flight have the same message-ID. */
  predicate Distinct(lines: seq<Line>, s: seq<Slot>) {
    forall i, j | 0 <= i < j < |s| && s[i].fname != "" && s[j].fname != "" && Fits(FullId(lines, s[i])) ::
      FullId(lines, s[i]) != FullId(lines, s[j])
  }

  predicate TableOk(lines: seq<Line>, s: seq<Slot>) {
    && |s| == STNBUF
    && (forall i | 0 <= i < STNBUF :: SlotOk(lines, s[i]))
    && Distinct(lines, s)
  }

  /** A new article with a message-ID that the search did not find. */
  lemma TablePut(lines: seq<Line>, s: seq<Slot>, i: nat, x: Slot)
    requires TableOk(lines, s) && i < STNBUF && s[i].fname == "" && SlotOk(lines, x)
    requires forall j | 0 <= j < STNBUF :: !Hit(s[j], FullId(lines, x), IdHash(FullId(lines, x)))
    ensures TableOk(lines, s[i := x])
  {
    var t := s[i := x];
    forall j | 0 <= j < STNBUF && j != i && t[j].fname != "" && Fits(FullId(lines, t[j]))
      ensures FullId(lines, t[j]) != FullId(lines, x)
    {
      assert SlotOk(lines, s[j]) && !Hit(s[j], FullId(lines, x), IdHash(FullId(lines, x)));
    }
  }

  /** A slot that keeps its article, or gives it up. */
  lemma TableKeep(lines: seq<Line>, s: seq<Slot>, i: nat, x: Slot)
    requires TableOk(lines, s) && i < STNBUF && SlotOk(lines, x)
    requires x.fname != "" ==> s[i].fname != "" && x.item == s[i].item
    ensures TableOk(lines, s[i := x])
  {}

  /** The fates and the table agree on what is in flight. */
  predicate Linked(fate: map<nat, Fate>, s: seq<Slot>) {
    && (forall i | 0 <= i < |s| && s[i].fname != "" :: s[i].item in fate && fate[s[i].item] == InFlight(i))
    && (forall k | k in fate && fate[k].InFlight? ::
          0 <= fate[k].slot < |s| && s[fate[k].slot].fname != "" && s[fate[k].slot].item == k)
  }

  /** The table, its count of entries, and the fates. */
  predicate Consistent(lines: seq<Line>, s: seq<Slot>, n: int, fate: map<nat, Fate>) {
    TableOk(lines, s) && n == Sum(s, One) && Linked(fate, s)
  }

  lemma PutConsistent(lines: seq<Line>, s: seq<Slot>, n: int, fate: map<nat, Fate>, i: nat, x: Slot)
    requires Consistent(lines, s, n, fate) && i < STNBUF && s[i].fname == ""
    requires SlotOk(lines, x) && x.fname != "" && x.item !in fate
    requires forall j | 0 <= j < STNBUF :: !Hit(s[j], FullId(lines, x), IdHash(FullId(lines, x)))
    ensures Consistent(lines, s[i := x], n + 1, fate[x.item := InFlight(i)])
  {
    hide Sum;
    SumUpdate(s, i, x, One);
    TablePut(lines, s, i, x);
  }

  function Freed(x: Slot): Slot {
    x.(fname := "", id := "", art := false)
  }

  lemma DropConsistent(lines: seq<Line>, s: seq<Slot>, n: int, fate: map<nat, Fate>, i: nat, f: Fate)
    requires Consistent(lines, s, n, fate) && i < STNBUF && s[i].fname != "" && !f.InFlight?
    ensures Consistent(lines, s[i := Freed(s[i])], n - 1, fate[s[i].item := f])
    ensures s[i].item in fate && fate[s[i].item] == InFlight(i)
    ensures Sum(s[i := Freed(s[i])], Patience) < Sum(s, Patience)
  {
    hide Sum;
    SumUpdate(s, i, Freed(s[i]), One);
    SumUpdate(s, i, Freed(s[i]), Patience);
    TableKeep(lines, s, i, Freed(s[i]));
  }

  lemma KeepConsistent(lines: seq<Line>, s: seq<Slot>, n: int, fate: map<nat, Fate>, i: nat, x: Slot)
    requires Consistent(lines, s, n, fate) && i < STNBUF && s[i].fname != ""
    requires SlotOk(lines, x) && x.fname == s[i].fname && x.item == s[i].item
    ensures Consistent(lines, s[i := x], n, fate)
    ensures Sum(s[i := x], Patience) + Patience(s[i]) == Sum(s, Patience) + Patience(x)
  {
    hide Sum;
    SumUpdate(s, i, x, One);
    SumUpdate(s, i, x, Patience);
    TableKeep(lines, s, i, x);
  }

  /** Line `k` repeats the message-ID that the table had for the article of line `j`. */
  predicate Duplicate(lines: seq<Line>, j: nat, k: nat) {
    j < k < |lines| && lines[j].Article? && lines[k].Article? && lines[k].id == Clip(lines[j].id)
  }

  predicate Backed(fate: map<nat, Fate>, temp: Temp, lines: seq<Line>) {
    && (forall k | k in fate && fate[k].ToBatch? :: temp.Opened? && HasEntry(temp.entries, lines, k))
    && (forall k | k in fate && fate[k].Skipped? :: Duplicate(lines, fate[k].of, k))
  }

  /** Every line that was offered has exactly one fate, the counters tell how many were taken, refused and rejected, and
      what should go to the new batch is in it. */
  predicate Balanced(lines: seq<Line>, next: nat, fate: map<nat, Fate>, accepted: nat, refused: nat, rejected: nat,
                     temp: Temp, cur: set<nat>)
  {
    && next <= |lines|
    && fate.Keys == Offered(lines, next) - cur && cur <= Offered(lines, next)
    && accepted == |With(fate, Accepted)| && refused == |With(fate, Refused)| && rejected == |With(fate, Rejected)|
    && Backed(fate, temp, lines)
  }

  lemma Settle(lines: seq<Line>, next: nat, fate: map<nat, Fate>, accepted: nat, refused: nat, rejected: nat,
               temp: Temp, cur: set<nat>, k: nat, f: Fate)
    requires Balanced(lines, next, fate, accepted, refused, rejected, temp, cur)
    requires if k in fate then fate[k].InFlight? else k in cur
    requires f.ToBatch? ==> temp.Opened? && HasEntry(temp.entries, lines, k)
    requires f.Skipped? ==> Duplicate(lines, f.of, k)
    ensures Balanced(lines, next, fate[k := f], accepted + (if f == Accepted then 1 else 0),
                     refused + (if f == Refused then 1 else 0), rejected + (if f == Rejected then 1 else 0),
                     temp, cur - {k})
  {
    hide With;
    WithUpdate(fate, k, f, Accepted);
    WithUpdate(fate, k, f, Refused);
    WithUpdate(fate, k, f, Rejected);
    assert fate[k := f].Keys == Offered(lines, next) - (cur - {k});
  }

  function Entries(temp: Temp): seq<Entry> {
    if temp.Opened? then temp.entries else []
  }

  lemma Append(lines: seq<Line>, next: nat, fate: map<nat, Fate>, accepted: nat, refused: nat, rejected: nat,
               temp: Temp, cur: set<nat>, more: seq<Entry>)
    requires Balanced(lines, next, fate, accepted, refused, rejected, temp, cur)
    ensures Balanced(lines, next, fate, accepted, refused, rejected, Opened(Entries(temp) + more), cur)
  {
    forall k | k in fate && fate[k].ToBatch? ensures HasEntry(Entries(temp) + more, lines, k) {
      var j :| 0 <= j < |temp.entries| && Restores(temp.entries[j], lines, k);
      assert (Entries(temp) + more)[j] == temp.entries[j];
    }
  }

  lemma NobodyInFlight(lines: seq<Line>, s: seq<Slot>, n: int, fate: map<nat, Fate>)
    requires Consistent(lines, s, n, fate)
    requires n == 0 || forall i | 0 <= i < |s| :: s[i].fname == ""
    ensures forall k | k in fate :: !fate[k].InFlight?
  {
    if n == 0 {
      forall i | 0 <= i < |s| ensures s[i].fname == "" {
        SumBound(s, i, One);
      }
    }
  }

  lemma NextLine(lines: seq<Line>, next: nat, fate: map<nat, Fate>, accepted: nat, refused: nat, rejected: nat,
                 temp: Temp)
    requires next < |lines| && Balanced(lines, next, fate, accepted, refused, rejected, temp, {})
    ensures Balanced(lines, next + 1, fate, accepted, refused, rejected, temp,
                     if Live(lines[next]) then {next} else {})
    ensures next !in fate
  {
    assert Offered(lines, next + 1) == Offered(lines, next) + if Live(lines[next]) then {next} else {};
  }

  /** The article that is being offered, if it is not in the table yet. */
  datatype Current = Nobody | Current(fname: string, id: string, item: nat)

  /** Settling a line that is not in the table leaves the table as it is. */
  lemma Untouched(lines: seq<Line>, s: seq<Slot>, n: int, fate: map<nat, Fate>, k: nat, f: Fate)
    requires Consistent(lines, s, n, fate) && k !in fate && !f.InFlight?
    ensures Consistent(lines, s, n, fate[k := f])
  {}

  function CurSet(c: Current): set<nat> {
    if c.Nobody? then {} else {c.item}
  }

  // --- what the peer said -----------------------------------------------------------------------

  /** The last reply about an article: to CHECK or TAKETHIS, to IHAVE, or to the article sent after IHAVE. */
  datatype Heard = ToStream(code: int) | ToOffer(code: int) | ToArticle(code: int)

  predicate Takes(h: Heard) {
    h == ToStream(239) || h == ToArticle(235)
  }

  predicate Rejects(h: Heard) {
    h == ToStream(439) || h == ToArticle(437) || h == ToArticle(501)
  }

  predicate Refuses(h: Heard) {
    h == ToStream(438) || h == ToStream(501) || h == ToOffer(435) || h == ToOffer(501)
  }

  /** The peer has the article, or never wants it.  After any other reply the article has to be sent again. */
  predicate Final(h: Heard) {
    Takes(h) || Rejects(h) || Refuses(h)
  }

  /** An article is taken, rejected or refused if and only if the last reply about it says so. */
  predicate Says(f: Fate, heard: map<nat, Heard>, k: nat) {
    && (f == Accepted <==> k in heard && Takes(heard[k]))
    && (f == Rejected <==> k in heard && Rejects(heard[k]))
    && (f == Refused <==> k in heard && Refuses(heard[k]))
  }

  predicate Told(fate: map<nat, Fate>, heard: map<nat, Heard>, cur: set<nat>) {
    && (forall k | k in fate :: Says(fate[k], heard, k))
    && (forall k | k in heard :: k in fate || (k in cur && !Final(heard[k])))
  }

  /** At most one reply about article `k` is new. */
  predicate Newer(heard: map<nat, Heard>, news: map<nat, Heard>, k: nat) {
    news == heard || (k in news && news == heard[k := news[k]])
  }

  lemma ToldSet(fate: map<nat, Fate>, heard: map<nat, Heard>, cur: set<nat>, k: nat, f: Fate, news: map<nat, Heard>)
    requires Told(fate, heard, cur) && Says(f, news, k)
    requires Newer(heard, news, k)
    ensures Told(fate[k := f], news, cur - {k})
  {}

  /** An article that is not settled yet. */
  lemma NotFinal(fate: map<nat, Fate>, heard: map<nat, Heard>, cur: set<nat>, k: nat, f: Fate)
    requires Told(fate, heard, cur) && (k in fate ==> fate[k].InFlight?)
    requires f != Accepted && f != Rejected && f != Refused
    ensures Says(f, heard, k)
  {}

  /** A reply about an unsettled article that leaves it unsettled. */
  lemma ToldMore(fate: map<nat, Fate>, heard: map<nat, Heard>, cur: set<nat>, k: nat, h: Heard)
    requires Told(fate, heard, cur) && (if k in fate then fate[k].InFlight? else k in cur) && !Final(h)
    ensures Told(fate, heard[k := h], cur)
  {}

  // --- replies --------------------------------------------------------------------------------

  function First(replies: seq<Reply>): Reply {
    if replies == [] then Lost else replies[0]
  }

  function Rest(replies: seq<Reply>): seq<Reply> {
    if replies == [] then [] else replies[1..]
  }

  predicate Informational(r: Reply) {
    r.Reply? && 100 <= r.code < 200
  }

  /** The replies from the first one that is not informational. */
  function Skip(replies: seq<Reply>): (rest: seq<Reply>)
    ensures !Informational(First(rest))
  {
    if Informational(First(replies)) then Skip(Rest(replies)) else replies
  }

  /** What a reply to CHECK or TAKETHIS makes of the slot it is about. */
  function Reaction(code: int, x: Slot): Slot {
    if code == 238 then x.(art := false, age := 0, takes := x.takes + 1)
    else if code == 431 && x.retry < STNRETRY then x.(retry := x.retry + 1, age := 0, checks := x.checks + 1)
    else Freed(x)
  }

  /** What becomes of an article whose slot is released on a reply. */
  function Verdict(code: int): Fate {
    match code
    case 239 => Accepted
    case 439 => Rejected
    case 431 => ToBatch
    case _ => Refused
  }

  /** The replies to IHAVE, and to the article after 335, that do not stop the program. */
  predicate GoesOn(replies: seq<Reply>) {
    var offer, sent := First(replies), First(Rest(replies));
    && offer.Reply? && offer.code !in [500, 502, 403, 480, 436, 400]
    && (offer.code == 335 ==> sent.Reply? && sent.code !in [500, 502])
  }

  /** What becomes of an article offered with IHAVE. */
  function IhaveVerdict(replies: seq<Reply>): Fate
    requires GoesOn(replies)
  {
    var offer, sent := First(replies), First(Rest(replies));
    if offer.code == 335 then
      if sent.code == 235 then Accepted else if sent.code == 437 || sent.code == 501 then Rejected else ToBatch
    else if offer.code == 435 || offer.code == 501 then Refused
    else ToBatch
  }

  lemma SkipOne(r: Reply, more: seq<Reply>)
    requires Informational(r)
    ensures Skip([r] + more) == if more == [] then [] else Skip([more[0]] + more[1..])
  {
    assert Rest([r] + more) == more;
    if more != [] {
      assert [more[0]] + more[1..] == more;
    }
  }

  /** What a round of ageing does to a slot, when `n` slots are in use. */
  function AgeOne(x: Slot, n: int): Slot {
    if x.fname == "" then x
    else if x.age <= n then x.(age := x.age + 1)
    else if x.retry < STNRETRY then x.(retry := x.retry + 1, age := 0, checks := x.checks + 1)
    else Freed(x.(age := x.age + 1))
  }

  /** A round of ageing from slot `i` on; a slot that is released counts at once. */
  function Aged(s: seq<Slot>, n: int, i: nat): (seq<Slot>, int)
    decreases |s| - i
  {
    if i >= |s| then (s, n) else
      var x := AgeOne(s[i], n);
      Aged(s[i := x], if s[i].fname != "" && x.fname == "" then n - 1 else n, i + 1)
  }

  /** Nothing changes but that articles in flight are requeued. */
  predicate OnlyRequeued(f: map<nat, Fate>, g: map<nat, Fate>) {
    g.Keys == f.Keys && forall k | k in f :: g[k] == f[k] || (f[k].InFlight? && g[k] == ToBatch)
  }

  /** Something has to be sent again. */
  ghost predicate Deferred(fate: map<nat, Fate>) {
    exists k :: k in fate && fate[k].ToBatch?
  }

  /** The new batch has only articles that have to be sent again, and lines that were not read. */
  predicate Owed(lines: seq<Line>, next: nat, temp: Temp, fate: map<nat, Fate>) {
    forall j | 0 <= j < |Entries(temp)| :: OwedEntry(lines, next, Entries(temp)[j], fate)
  }

  predicate OwedEntry(lines: seq<Line>, next: nat, e: Entry, fate: map<nat, Fate>) {
    if e.Raw? then next <= e.item < |lines| && e.line == lines[e.item] else e.item in fate && fate[e.item].ToBatch?
  }

  lemma KeepsOwed(lines: seq<Line>, next: nat, temp: Temp, fate: map<nat, Fate>, k: nat, f: Fate)
    requires Owed(lines, next, temp, fate) && (k in fate ==> !fate[k].ToBatch?)
    ensures Owed(lines, next, temp, fate[k := f])
  {}

  lemma OwesLess(lines: seq<Line>, next: nat, temp: Temp, fate: map<nat, Fate>)
    requires Owed(lines, |lines|, temp, fate)
    ensures Owed(lines, next, temp, fate) && Owed(lines, |lines|, Opened(Entries(temp)), fate)
  {}

  /** The peer did not give its final answer about the article of an entry. */
  predicate Unanswered(e: Entry, heard: map<nat, Heard>) {
    e.Raw? || !(e.item in heard && Final(heard[e.item]))
  }

  /** Nothing that the peer has settled is sent again. */
  lemma OwedOpen(lines: seq<Line>, next: nat, temp: Temp, fate: map<nat, Fate>, heard: map<nat, Heard>)
    requires Owed(lines, next, temp, fate) && forall k | k in fate :: Says(fate[k], heard, k)
    ensures forall j | 0 <= j < |Entries(temp)| :: Unanswered(Entries(temp)[j], heard)
  {
    forall j | 0 <= j < |Entries(temp)| ensures Unanswered(Entries(temp)[j], heard) {
      assert OwedEntry(lines, next, Entries(temp)[j], fate);
    }
  }

  lemma OwesMore(lines: seq<Line>, next: nat, temp: Temp, fate: map<nat, Fate>, e: Entry)
    requires Owed(lines, next, temp, fate) && OwedEntry(lines, next, e, fate)
    ensures Owed(lines, next, Opened(Entries(temp) + [e]), fate)
  {}

  lemma KeepsDeferred(fate: map<nat, Fate>, k: nat, f: Fate)
    requires k in fate ==> !fate[k].ToBatch?
    ensures Deferred(fate) ==> Deferred(fate[k := f])
    ensures f.ToBatch? ==> Deferred(fate[k := f])
  {
    if Deferred(fate) {
      var j :| j in fate && fate[j].ToBatch?;
      assert j in fate[k := f] && fate[k := f][j].ToBatch?;
    }
    if f.ToBatch? {
      assert k in fate[k := f];
    }
  }

  /** A reply that makes sense: about an article in the table, which is asked for once only. */
  predicate Proper(r: Reply, s: seq<Slot>) {
    && r.Reply? && r.hasId && r.code in [501, 438, 238, 239, 439, 431]
    && (exists j :: 0 <= j < |s| && Hit(s[j], r.id, IdHash(r.id)))
    && (r.code == 238 ==> forall j | 0 <= j < |s| && Hit(s[j], r.id, IdHash(r.id)) :: s[j].art)
  }

  class Feed {
    const lines: seq<Line>
    const canStream: bool
    const doCheck: bool
    const alwaysRewrite: bool
    /** No file operation and no writing to the peer fails. */
    const calm: bool

    /** The table, and the number of its entries in use. */
    const st: array<Slot>
    var stnq: int
    var stnofail: int

    var statOffered: nat
    var statAccepted: nat
    var statRefused: nat
    var statRejected: nat
    var statMissing: nat

    /** Lines read so far. */
    var next: nat
    /** What the peer is going to say. */
    var replies: seq<Reply>

    var temp: Temp
    var disk: Disk
    var exited: bool
    ghost var fate: map<nat, Fate>
    ghost var heard: map<nat, Heard>
    /** The program stopped before the end of the batch file. */
    ghost var gaveUp: bool

    ghost predicate Table()
      reads this`stnq, this`fate, st
    {
      st.Length == STNBUF && Consistent(lines, st[..], stnq, fate)
    }

    /** `cur` holds the line being offered until it is in the table or settled. */
    ghost predicate Books(cur: set<nat>)
      reads this
    {
      && disk.Original? && Balanced(lines, next, fate, statAccepted, statRefused, statRejected, temp, cur)
      && Told(fate, heard, cur)
    }

    ghost predicate Valid(cur: set<nat>)
      reads this, st
    {
      && Table() && Books(cur) && (canStream || stnq == 0)
      && (temp.Opened? ==> Deferred(fate)) && Owed(lines, |lines|, temp, fate)
    }

    /** The peer gave its final answer about the article, or the article repeats one that was in flight. */
    ghost predicate Settled(k: nat)
      reads this
    {
      || (k in heard && Final(heard[k]))
      || (k in fate && fate[k].Skipped? && Duplicate(lines, fate[k].of, k))
    }

    /** The fates are what the replies say. */
    ghost predicate Honest()
      reads this
    {
      forall k | k in fate :: Says(fate[k], heard, k)
    }

    /** Every line that was offered is settled or comes back: the batch file is as it was, or it was rewritten with an
        entry for it; and the lines not yet read were copied, or the file was removed with nothing left to do. */
    ghost predicate NothingLost()
      reads this
    {
      next <= |lines| && Honest() &&
      match disk
      case Original => true
      case Removed => next == |lines| && forall k | k in Offered(lines, next) :: Settled(k)
      case Rewritten(entries) =>
        && (forall k | k in Offered(lines, next) :: Settled(k) || HasEntry(entries, lines, k))
        && (forall k | next <= k < |lines| && !lines[k].TooLong? :: Raw(lines[k], k) in entries)
        && (forall j | 0 <= j < |entries| :: Unanswered(entries[j], heard))
    }

    constructor (lines: seq<Line>, replies: seq<Reply>, canStream: bool, doCheck: bool, alwaysRewrite: bool, calm: bool)
      ensures this.lines == lines && this.replies == replies && next == 0 && this.calm == calm
      ensures fresh(st) && Valid({}) && !exited && !gaveUp
    {
      this.lines, this.replies := lines, replies;
      this.canStream, this.doCheck, this.alwaysRewrite, this.calm := canStream, doCheck, alwaysRewrite, calm;
      st := new Slot[STNBUF](_ => FREE);
      stnq, stnofail, next := 0, 0, 0;
      statOffered, statAccepted, statRefused, statRejected, statMissing := 0, 0, 0, 0, 0;
      temp, disk, exited := NotOpen, Original, false;
      fate, heard, gaveUp := map[], map[], false;
      new;
      AllFree(st[..]);
    }

    // --- the table --------------------------------------------------------------------------

    /** The slot with this message-ID and hash, or -1. */
    method StIndex(id: string, hash: nat) returns (i: int)
      requires st.Length == STNBUF
      ensures -1 <= i < STNBUF
      ensures i >= 0 ==> Hit(st[i], id, hash)
      ensures i < 0 ==> forall j | 0 <= j < STNBUF :: !Hit(st[j], id, hash)
    {
      i := 0;
      while i < STNBUF
        invariant 0 <= i <= STNBUF
        invariant forall j | 0 <= j < i :: !Hit(st[j], id, hash)
      {
        if st[i].id != "" && st[i].hash == hash && st[i].id == id {
          return;
        }
        i := i + 1;
      }
      i := -1;
    }

    method FirstFree() returns (i: nat)
      requires st.Length == STNBUF
      ensures i <= STNBUF && (i < STNBUF ==> st[i].fname == "")
      ensures forall j | 0 <= j < i :: st[j].fname != ""
    {
      i := 0;
      while i < STNBUF && st[i].fname != ""
        invariant 0 <= i <= STNBUF
        invariant forall j | 0 <= j < i :: st[j].fname != ""
      {
        i := i + 1;
      }
    }

    /** Puts the current article into a free slot.  The table is never full here; only a file name that is too long is
        turned away. */
    method StAlloc(fname: string, id: string, hash: nat, item: nat) returns (i: int)
      requires Valid({item}) && canStream && stnq < STNBUF && item !in fate
      requires item < next && lines[item] == Article(fname, id) && fname != "" && hash == IdHash(id)
      requires forall j | 0 <= j < STNBUF :: !Hit(st[j], id, hash)
      modifies this`stnq, this`fate, st
      ensures i >= 0 <==> |fname| < 512
      ensures i >= 0 ==> i < STNBUF && Valid({}) && stnq == old(stnq) + 1 && old(st[i].fname) == ""
      ensures i >= 0 ==> st[..] == old(st[..])[i := Slot(fname, Clip(id), 0, 0, true, hash, item, 0, 0)]
      ensures i >= 0 ==> fate == old(fate)[item := InFlight(i)]
      ensures i < 0 ==> i == -1 && st[..] == old(st[..]) && stnq == old(stnq) && fate == old(fate)
    {
      hide Balanced, IdHash, TableOk, Linked;
      BalancedNext(lines, next, fate, statAccepted, statRefused, statRejected, temp, {item});
      i := FirstFree();
      if i >= STNBUF {
        NoneFree(st[..]);
        assert false;
      }
      assert FullId(lines, Slot(fname, Clip(id), 0, 0, true, hash, item, 0, 0)) == id;
      if |fname| >= SPOOLNAMEBUFF {
        return -1;
      }
      var x := Slot(fname, Clip(id), 0, 0, true, hash, item, 0, 0);
      ghost var s := st[..];
      hide Consistent;
      PutConsistent(lines, s, stnq, fate, i, x);
      Settle(lines, next, fate, statAccepted, statRefused, statRejected, temp, {item}, item, InFlight(i));
      Unsettled({item}, item, InFlight(i));
      KeepsDeferred(fate, item, InFlight(i));
      KeepsOwed(lines, |lines|, temp, fate, item, InFlight(i));
      hide Told;
      assert {item} - {item} == {};
      st[i] := x;
      assert st[..] == s[i := x];
      stnq := stnq + 1;
      fate := fate[item := InFlight(i)];
    }

    /** Releases a slot; `f` is what became of its article. */
    method StRel(i: nat, ghost f: Fate)
      requires Table() && i < STNBUF && st[i].fname != "" && !f.InFlight?
      modifies this`stnq, this`fate, st
      ensures Table() && stnq == old(stnq) - 1
      ensures st[..] == old(st[..])[i := Freed(old(st[i]))] && fate == old(fate)[old(st[i].item) := f]
      ensures old(st[i].item in fate && fate[st[i].item] == InFlight(i))
      ensures Sum(st[..], Patience) < old(Sum(st[..], Patience))
    {
      ghost var s := st[..];
      DropConsistent(lines, s, stnq, fate, i, f);
      hide Consistent, Sum;
      fate := fate[st[i].item := f];
      st[i] := Freed(st[i]);
      assert st[..] == s[i := Freed(s[i])];
      stnq := stnq - 1;
    }

    // --- the batch file ---------------------------------------------------------------------

    /** Opens the temporary file if it is not open; a failure ends the program with the batch file as it was. */
    method OpenTemp()
      requires !exited
      modifies this`temp, this`exited
      ensures !exited ==> temp == Opened(Entries(old(temp)))
      ensures exited ==> temp == old(temp)
      ensures calm ==> !exited
    {
      if temp.NotOpen? {
        var ok: bool := *;
        if ok || calm {
          temp := Opened([]);
        } else {
          exited := true;
        }
      }
    }

    /** Writes one entry to the temporary file, or exits. */
    method Requeue(e: Entry)
      requires !exited
      modifies this`temp, this`exited
      ensures !exited ==> temp == Opened(Entries(old(temp)) + [e])
      ensures calm ==> !exited
    {
      OpenTemp();
      if !exited {
        temp := Opened(temp.entries + [e]);
        var ok: bool := *;
        exited := !ok && !calm;
      }
    }

    /** Puts the temporary file in the place of the batch file, or exits with the batch file as it was. */
    method CloseAndRename()
      requires temp.Opened? && disk.Original?
      modifies this`disk, this`exited
      ensures if exited then disk == Original else disk == Rewritten(temp.entries)
      ensures calm ==> !exited
    {
      var closed: bool, renamed: bool := *, *;
      exited := !calm && (!closed || !renamed);
      if !exited {
        disk := Rewritten(temp.entries);
      }
    }

    ghost predicate Carries(c: Current)
      reads this, st
    {
      Valid(CurSet(c)) && !exited
      && (c.Current? ==> c.item < |lines| && lines[c.item] == Article(c.fname, c.id) && c.item !in fate)
    }

    /** Requeues what is in flight. */
    method RequeueTable(ghost cur: set<nat>)
      requires Valid(cur) && !exited
      modifies this`stnq, this`fate, this`temp, this`exited, st
      ensures !exited ==> Valid(cur) && forall k | k in fate :: !fate[k].InFlight?
      ensures fate.Keys == old(fate.Keys) && Honest() && (calm ==> !exited)
    {
      hide Owed, Consistent, Balanced, Sum, Says;
      var i := 0;
      while i < STNBUF
        invariant 0 <= i <= STNBUF && Valid(cur) && !exited && fate.Keys == old(fate.Keys)
        invariant forall j | 0 <= j < i :: st[j].fname == ""
      {
        if st[i].fname != "" {
          RequeueSlot(i, cur);
          if exited {
            return;
          }
        }
        i := i + 1;
      }
      NobodyInFlight(lines, st[..], stnq, fate);
    }

    /** Requeues one article in flight and releases its slot. */
    method RequeueSlot(i: nat, ghost cur: set<nat>)
      requires Valid(cur) && !exited && i < STNBUF && st[i].fname != ""
      modifies this`stnq, this`fate, this`temp, this`exited, st
      ensures fate.Keys == old(fate.Keys) && Honest() && (calm ==> !exited)
      ensures !exited ==> Valid(cur) && stnq == old(stnq) - 1 && fate == old(fate)[old(st[i].item) := ToBatch]
      ensures !exited ==> st[..] == old(st[..])[i := Freed(old(st[i]))]
      ensures !exited ==> Sum(st[..], Patience) < old(Sum(st[..], Patience))
    {
      hide Owed, Consistent, Balanced, Sum, Says;
      ghost var k, fate0, temp0 := st[i].item, fate, temp;
      SlotInUse(lines, st[..], stnq, fate, i);
      Unsettled(cur, k, ToBatch);
      KeepsDeferred(fate, k, ToBatch);
      KeepsOwed(lines, |lines|, temp, fate, k, ToBatch);
      OwesMore(lines, |lines|, temp, fate[k := ToBatch], Entry(st[i].fname, st[i].id, k));
      var e := Entry(st[i].fname, st[i].id, st[i].item);
      Requeue(e);
      if exited {
        return;
      }
      Append(lines, next, fate0, statAccepted, statRefused, statRejected, temp0, cur, [e]);
      assert HasEntry(temp.entries, lines, k) by {
        assert temp.entries[|temp.entries| - 1] == e && Restores(e, lines, k);
      }
      StRel(i, ToBatch);
      Settle(lines, next, fate0, statAccepted, statRefused, statRejected, temp, cur, k, ToBatch);
      BalancedCur(lines, next, fate0, statAccepted, statRefused, statRejected, temp0, cur, k);
      assert cur - {k} == cur;
    }

    /** Gives up: leaves the batch file alone if nothing was sent, and otherwise rewrites it with the articles in
        flight, the current one and the lines not read yet. */
    method RequeueRestAndExit(c: Current)
      requires Carries(c)
      modifies this, st
      ensures exited && NothingLost() && gaveUp
      ensures !alwaysRewrite && old(statAccepted + statRejected + statRefused + statMissing) == 0 ==> disk.Original?
      ensures calm && (forall k | old(next) <= k < |lines| :: !lines[k].Unreadable?) ==>
                alwaysRewrite || old(statAccepted + statRejected + statRefused + statMissing) > 0 ==> disk.Rewritten?
    {
      hide Owed, Consistent, Balanced, Sum, Says, Told, Deferred;
      BooksHonest(CurSet(c));
      gaveUp := true;
      assert next <= |lines| by {
        BalancedNext(lines, next, fate, statAccepted, statRefused, statRejected, temp, CurSet(c));
      }
      if !alwaysRewrite && statAccepted == 0 && statRejected == 0 && statRefused == 0 && statMissing == 0 {
        exited := true;
        return;
      }
      if canStream {
        RequeueTable(CurSet(c));
        if exited {
          return;
        }
      } else {
        NobodyInFlight(lines, st[..], stnq, fate);
      }
      RequeueCurrent(c);
      if exited {
        return;
      }
      CopyRest();
      if exited {
        return;
      }
      CloseAndRename();
      if !exited {
        AllKept();
      }
      exited := true;
    }

    /** Requeues the current article, or only opens the temporary file. */
    method RequeueCurrent(c: Current)
      requires Carries(c)
      modifies this`fate, this`heard, this`temp, this`exited, this`statAccepted, this`statRefused, this`statRejected
      ensures !exited ==> Table() && Books({}) && (canStream || stnq == 0) && temp.Opened?
      ensures !exited ==> Owed(lines, |lines|, temp, fate)
      ensures !exited && c.Current? ==> Valid({}) && fate == old(fate)[c.item := ToBatch]
      ensures !exited && c.Nobody? ==> fate == old(fate)
      ensures Honest() && heard == old(heard) && (calm ==> !exited)
    {
      hide Owed, Consistent, Balanced, Sum, Says;
      ghost var temp0 := temp;
      if c.Nobody? {
        OpenTemp();
        if !exited {
          OwesLess(lines, next, temp0, fate);
          Append(lines, next, fate, statAccepted, statRefused, statRejected, temp0, {}, []);
          assert Entries(temp0) + [] == Entries(temp0);
        }
      } else {
        var e := Entry(c.fname, c.id, c.item);
        Requeue(e);
        if !exited {
          Append(lines, next, fate, statAccepted, statRefused, statRejected, temp0, {c.item}, [e]);
          assert HasEntry(temp.entries, lines, c.item) by {
            assert temp.entries[|temp.entries| - 1] == e && Restores(e, lines, c.item);
          }
          KeepsOwed(lines, |lines|, temp0, fate, c.item, ToBatch);
          OwesMore(lines, |lines|, temp0, fate[c.item := ToBatch], e);
          NotFinal(fate, heard, {c.item}, c.item, ToBatch);
          Finish(c.item, ToBatch, heard);
        }
      }
    }

    /** The current article leaves the program for good: notes why, and counts it.  `news` has the last reply. */
    method Finish(item: nat, f: Fate, ghost news: map<nat, Heard>)
      requires Table() && Books({item}) && (canStream || stnq == 0) && item !in fate && !f.InFlight?
      requires temp.Opened? ==> f.ToBatch? || Deferred(fate)
      requires Owed(lines, |lines|, temp, fate[item := f])
      requires f.ToBatch? ==> temp.Opened? && HasEntry(temp.entries, lines, item)
      requires f.Skipped? ==> Duplicate(lines, f.of, item)
      requires Newer(heard, news, item) && Says(f, news, item)
      modifies this`fate, this`heard, this`statAccepted, this`statRefused, this`statRejected
      ensures Valid({}) && fate == old(fate)[item := f] && heard == news
    {
      hide Owed, Consistent, Balanced, Sum, Says;
      Settle(lines, next, fate, statAccepted, statRefused, statRejected, temp, {item}, item, f);
      Untouched(lines, st[..], stnq, fate, item, f);
      ToldSet(fate, heard, {item}, item, f, news);
      KeepsDeferred(fate, item, f);
      assert {item} - {item} == {};
      fate, heard := fate[item := f], news;
      match f {
        case Accepted => statAccepted := statAccepted + 1;
        case Refused => statRefused := statRefused + 1;
        case Rejected => statRejected := statRejected + 1;
        case _ =>
      }
    }

    /** Copies the lines that were not read yet; overlong ones are skipped. */
    method CopyRest()
      requires Books({}) && temp.Opened? && !exited && next <= |lines| && Owed(lines, |lines|, temp, fate)
      modifies this`temp, this`exited
      ensures !exited ==> Books({}) && temp.Opened? && Owed(lines, next, temp, fate)
      ensures !exited ==> forall k | next <= k < |lines| && !lines[k].TooLong? :: Raw(lines[k], k) in temp.entries
      ensures exited ==> !calm || exists k :: next <= k < |lines| && lines[k].Unreadable?
    {
      hide Balanced;
      OwesLess(lines, next, temp, fate);
      var k := next;
      while k < |lines|
        invariant next <= k <= |lines| && Books({}) && temp.Opened? && !exited && Owed(lines, next, temp, fate)
        invariant forall j | next <= j < k && !lines[j].TooLong? :: Raw(lines[j], j) in temp.entries
      {
        if lines[k].Unreadable? {
          exited := true;
          return;
        }
        if !lines[k].TooLong? {
          Append(lines, next, fate, statAccepted, statRefused, statRejected, temp, {}, [Raw(lines[k], k)]);
          OwesMore(lines, next, temp, fate, Raw(lines[k], k));
          temp := Opened(temp.entries + [Raw(lines[k], k)]);
          var ok: bool := *;
          if !ok && !calm {
            exited := true;
            return;
          }
        }
        k := k + 1;
      }
    }

    /** The article that was not settled is not settled by this either. */
    lemma Unsettled(cur: set<nat>, k: nat, f: Fate)
      requires Told(fate, heard, cur) && (k in fate ==> fate[k].InFlight?)
      requires f != Accepted && f != Rejected && f != Refused
      ensures Told(fate[k := f], heard, cur - {k})
    {
      NotFinal(fate, heard, cur, k, f);
      ToldSet(fate, heard, cur, k, f, heard);
    }

    /** The rewritten batch holds everything that is not settled. */
    lemma AllKept()
      requires Balanced(lines, next, fate, statAccepted, statRefused, statRejected, temp, {}) && Told(fate, heard, {})
      requires forall k | k in fate :: !fate[k].InFlight?
      requires disk.Rewritten? && temp == Opened(disk.entries) && Owed(lines, next, temp, fate)
      requires forall k | next <= k < |lines| && !lines[k].TooLong? :: Raw(lines[k], k) in disk.entries
      ensures NothingLost()
    {
      OwedOpen(lines, next, temp, fate, heard);
      AllSettled();
      hide *;
      assert Entries(temp) == disk.entries;
      assert forall j | 0 <= j < |disk.entries| :: Unanswered(disk.entries[j], heard);
      assert forall k | k in Offered(lines, next) :: Settled(k) || HasEntry(disk.entries, lines, k);
    }

    /** If the batch file is as it was, nothing is lost. */
    lemma AsItWas()
      requires disk.Original? && next <= |lines| && Honest()
      ensures NothingLost()
    {}

    lemma BooksHonest(cur: set<nat>)
      requires Books(cur)
      ensures Honest()
    {}

    /** What was offered is settled or has to be sent again. */
    lemma AllSettled()
      requires Balanced(lines, next, fate, statAccepted, statRefused, statRejected, temp, {}) && Told(fate, heard, {})
      requires forall k | k in fate :: !fate[k].InFlight?
      ensures next <= |lines| && Honest()
      ensures forall k | k in Offered(lines, next) ::
                Settled(k) || (k in fate && fate[k].ToBatch? && temp.Opened? && HasEntry(temp.entries, lines, k))
    {
      hide HasEntry, Duplicate;
      forall k | k in Offered(lines, next)
        ensures Settled(k) || (k in fate && fate[k].ToBatch? && temp.Opened? && HasEntry(temp.entries, lines, k))
      {
        assert k in fate && Says(fate[k], heard, k);
      }
    }

    // --- talking to the peer ------------------------------------------------------------------

    /** The next line from the peer. */
    method ReadReply() returns (r: Reply)
      modifies this`replies
      ensures r == First(old(replies)) && replies == Rest(old(replies))
    {
      if replies == [] {
        return Lost;
      }
      r := replies[0];
      replies := replies[1..];
    }

    /** Sends CHECK; true means failure. */
    method Check() returns (failed: bool)
      modifies this`statOffered
      ensures statOffered == old(statOffered) + if failed then 0 else 1
      ensures calm ==> !failed
    {
      var ok: bool := *;
      if !ok && !calm {
        return true;
      }
      statOffered := statOffered + 1;
      failed := false;
    }

    /** Sends CHECK again for an article and records the retry. */
    method CheckAgain(i: nat, ghost cur: set<nat>) returns (failed: bool)
      requires Valid(cur) && i < STNBUF && st[i].fname != "" && st[i].retry < STNRETRY
      modifies this`statOffered, st
      ensures Valid(cur) && (calm ==> !failed)
      ensures failed ==> st[..] == old(st[..])
      ensures !failed ==>
                var x := old(st[i]);
                st[..] == old(st[..])[i := x.(retry := x.retry + 1, age := 0, checks := x.checks + 1)]
      ensures !failed ==> Sum(st[..], Patience) < old(Sum(st[..], Patience))
    {
      hide Balanced, Sum;
      failed := Check();
      if failed {
        return;
      }
      ghost var s := st[..];
      var x := st[i].(retry := st[i].retry + 1, age := 0, checks := st[i].checks + 1);
      assert SlotOk(lines, s[i]);
      KeepConsistent(lines, s, stnq, fate, i, x);
      hide Consistent;
      st[i] := x;
      assert st[..] == s[i := x];
    }

    /** Sends an article that is in the table, once; true means failure. */
    method TakeThis(i: nat, ghost cur: set<nat>) returns (failed: bool)
      requires Valid(cur) && i < STNBUF && st[i].fname != ""
      modifies st
      ensures Valid(cur) && (calm && old(st[i]).art ==> !failed)
      ensures failed ==> st[..] == old(st[..])
      ensures !failed ==>
                var x := old(st[i]);
                x.art && st[..] == old(st[..])[i := x.(art := false, age := 0, takes := x.takes + 1)]
      ensures !failed ==> Sum(st[..], Patience) < old(Sum(st[..], Patience))
    {
      hide Balanced, Sum;
      if !st[i].art {
        return true;
      }
      var written: bool, sent: bool := *, *;
      if !calm && (!written || !sent) {
        return true;
      }
      ghost var s := st[..];
      var x := st[i].(art := false, age := 0, takes := st[i].takes + 1);
      assert SlotOk(lines, s[i]);
      KeepConsistent(lines, s, stnq, fate, i, x);
      hide Consistent;
      st[i] := x;
      assert st[..] == s[i := x];
      failed := false;
    }

    /** The table has, slot by slot, no message-ID that it did not have before. */
    twostate predicate OnlyOldIds()
      requires st.Length == STNBUF
      reads st
    {
      forall j | 0 <= j < STNBUF :: st[j].id == "" || (st[j].id == old(st[j].id) && st[j].hash == old(st[j].hash))
    }

    /** Releases a slot whose article the peer has taken, refused or rejected, and counts it. */
    method Answered(i: nat, f: Fate, ghost code: int, ghost cur: set<nat>)
      requires Valid(cur) && i < STNBUF && st[i].fname != ""
      requires canStream && (f == Accepted || f == Refused || f == Rejected)
      requires Says(f, heard[st[i].item := ToStream(code)], st[i].item)
      modifies this`stnq, this`stnofail, this`fate, this`heard, this`statAccepted, this`statRefused, this`statRejected,
               st
      ensures Valid(cur) && stnq == old(stnq) - 1
      ensures OnlyOldIds() && st[..] == old(st[..])[i := Freed(old(st[i]))]
      ensures fate == old(fate)[old(st[i].item) := f] && heard == old(heard)[old(st[i].item) := ToStream(code)]
      ensures stnofail == if f == Accepted then old(stnofail) else 0
      ensures Sum(st[..], Patience) < old(Sum(st[..], Patience))
    {
      hide Owed, Consistent, Balanced, Sum, Says;
      ghost var s, k, fate0 := st[..], st[i].item, fate;
      SlotInUse(lines, s, stnq, fate, i);
      KeepsDeferred(fate, k, f);
      KeepsOwed(lines, |lines|, temp, fate, k, f);
      ToldSet(fate, heard, cur, k, f, heard[k := ToStream(code)]);
      StRel(i, f);
      assert forall j | 0 <= j < STNBUF :: st[j] == st[..][j];
      Settle(lines, next, fate0, statAccepted, statRefused, statRejected, temp, cur, k, f);
      assert cur - {k} == cur by {
        BalancedCur(lines, next, fate0, statAccepted, statRefused, statRejected, temp, cur, k);
      }
      heard := heard[k := ToStream(code)];
      match f {
        case Accepted => statAccepted := statAccepted + 1;
        case Refused => statRefused := statRefused + 1; stnofail := 0;
        case Rejected => statRejected := statRejected + 1; stnofail := 0;
        case _ =>
      }
    }

    /** The next reply that is not informational. */
    method NextReply() returns (r: Reply)
      modifies this`replies
      ensures r == First(Skip(old(replies)))
    {
      r := ReadReply();
      while r.Reply? && 100 <= r.code < 200
        invariant r.Reply? ==> Skip(old(replies)) == Skip([r] + replies)
        invariant r.Lost? ==> First(Skip(old(replies))) == Lost
        decreases |replies| + if r.Reply? then 1 else 0
      {
        SkipOne(r, replies);
        r := ReadReply();
      }
    }

    /** Waits for one reply and acts on it; true means that the connection is no good.  Otherwise the reply was about
        the article in slot `i`, and the table has come closer to being empty. */
    method StrListen(ghost cur: set<nat>) returns (failed: bool, i: int)
      requires Valid(cur) && !exited && canStream
      modifies this, st
      ensures next == old(next) && (!exited ==> Valid(cur)) && gaveUp == old(gaveUp)
      ensures exited ==> disk.Original? && !calm
      ensures fate.Keys == old(fate.Keys) && Honest()
      ensures !exited ==> stnq <= old(stnq) && OnlyOldIds()
      ensures !exited && !failed ==> Sum(st[..], Patience) < old(Sum(st[..], Patience))
      ensures !exited && !failed ==>
                var r := First(Skip(old(replies)));
                && r.Reply? && r.hasId && r.code in [501, 438, 238, 239, 439, 431] && 0 <= i < STNBUF
                && Hit(old(st[i]), r.id, IdHash(r.id))
                && st[..] == old(st[..])[i := Reaction(r.code, old(st[i]))]
                && fate == (if st[i].fname == "" then old(fate)[old(st[i].item) := Verdict(r.code)] else old(fate))
                && heard == old(heard)[old(st[i].item) := ToStream(r.code)]
                && stnofail == if r.code == 238 then old(stnofail) + 1
                               else if r.code == 239 || r.code == 431 then old(stnofail) else 0
      ensures !exited && calm && Proper(First(Skip(old(replies))), old(st[..])) ==> !failed
    {
      hide Owed, Consistent, Balanced, Sum, IdHash, Says;
      i := -1;
      var r := NextReply();
      if r.Lost? || r.code !in [501, 438, 238, 239, 439, 431] || !r.hasId {
        return true, -1;
      }
      var hash := StIdHash(r.id);
      i := StIndex(r.id, hash);
      if i < 0 {
        assert forall j | 0 <= j < STNBUF :: st[..][j] == st[j];
        return true, i;
      }
      assert st[i].fname != "" by {
        SlotInUse(lines, st[..], stnq, fate, i);
      }
      assert st[..][i] == st[i];
      failed := React(i, r.code, cur);
    }

    /** Acts on a reply about the article in slot `i`. */
    method React(i: nat, code: int, ghost cur: set<nat>) returns (failed: bool)
      requires Valid(cur) && !exited && canStream && i < STNBUF && st[i].fname != ""
      requires code in [501, 438, 238, 239, 439, 431]
      modifies this`stnq, this`stnofail, this`fate, this`heard, this`temp, this`exited, this`statOffered,
               this`statAccepted, this`statRefused, this`statRejected, st
      ensures !exited ==> Valid(cur) && stnq <= old(stnq) && OnlyOldIds()
      ensures fate.Keys == old(fate.Keys) && Honest() && heard == old(heard)[old(st[i].item) := ToStream(code)]
      ensures calm ==> !exited && (failed ==> code == 238 && !old(st[i]).art)
      ensures !exited && !failed ==> Sum(st[..], Patience) < old(Sum(st[..], Patience))
      ensures !exited && !failed ==>
                && st[..] == old(st[..])[i := Reaction(code, old(st[i]))]
                && fate == if st[i].fname == "" then old(fate)[old(st[i].item) := Verdict(code)] else old(fate)
      ensures !exited && !failed ==>
                stnofail == if code == 238 then old(stnofail) + 1
                            else if code == 239 || code == 431 then old(stnofail) else 0
    {
      hide Owed, Consistent, Balanced, Sum, Told, Deferred, SlotOk;
      SlotInUse(lines, st[..], stnq, fate, i);
      if code == 431 || code == 238 {
        failed := Unfinished(i, code, cur);
      } else {
        Answered(i, if code == 239 then Accepted else if code == 439 then Rejected else Refused, code, cur);
        BooksHonest(cur);
        failed := false;
      }
    }

    /** The peer wants the article, or wants to be asked again later. */
    method Unfinished(i: nat, code: int, ghost cur: set<nat>) returns (failed: bool)
      requires Valid(cur) && !exited && canStream && i < STNBUF && st[i].fname != "" && (code == 431 || code == 238)
      modifies this`stnq, this`stnofail, this`fate, this`heard, this`temp, this`exited, this`statOffered, st
      ensures !exited ==> Valid(cur) && stnq <= old(stnq) && OnlyOldIds()
      ensures fate.Keys == old(fate.Keys) && Honest() && heard == old(heard)[old(st[i].item) := ToStream(code)]
      ensures calm ==> !exited && (failed ==> code == 238 && !old(st[i]).art)
      ensures !exited && !failed ==> Sum(st[..], Patience) < old(Sum(st[..], Patience))
      ensures !exited && !failed ==>
                && st[..] == old(st[..])[i := Reaction(code, old(st[i]))]
                && fate == if st[i].fname == "" then old(fate)[old(st[i].item) := ToBatch] else old(fate)
      ensures !exited && !failed ==> stnofail == if code == 238 then old(stnofail) + 1 else old(stnofail)
    {
      hide Owed, Consistent, Balanced, Sum, Deferred;
      SlotInUse(lines, st[..], stnq, fate, i);
      ToldMore(fate, heard, cur, st[i].item, ToStream(code));
      hide Told;
      heard := heard[st[i].item := ToStream(code)];
      BooksHonest(cur);
      if code == 431 {
        if st[i].retry < STNRETRY {
          failed := CheckAgain(i, cur);
        } else {
          RequeueSlot(i, cur);
          failed := false;
        }
      } else {
        failed := TakeThis(i, cur);
        if !failed {
          stnofail := stnofail + 1;
        }
      }
      assert !exited ==> forall j | 0 <= j < STNBUF :: st[j] == st[..][j];
    }

    // --- the offer step -----------------------------------------------------------------------

    /** Empties part of the table if it is full; false means that the program has exited. */
    method MakeRoom(c: Current) returns (goOn: bool)
      requires Carries(c) && c.Current? && canStream
      modifies this, st
      ensures goOn ==> Carries(c) && stnq < STNBUF && OnlyOldIds()
      ensures goOn ==> fate.Keys == old(fate.Keys) && next == old(next)
      ensures var room := if doCheck && old(stnofail) < 16 then 32 else 16;
              if old(stnq) < room then goOn && st[..] == old(st[..]) && replies == old(replies)
              else goOn ==> stnq < 16
      ensures !goOn ==> exited && NothingLost() && (calm ==> gaveUp)
    {
      hide Owed, Consistent, Balanced, Sum, Says, Told, NothingLost, Deferred;
      ghost var old0 := st[..];
      BalancedNext(lines, next, fate, statAccepted, statRefused, statRejected, temp, {c.item});
      var lim := if doCheck && stnofail < STNC then STNBUF else STNBUFL;
      assert forall j | 0 <= j < STNBUF :: st[j] == old0[j];
      if stnq >= lim {
        while stnq >= STNBUFL
          invariant Carries(c) && next == old(next) && OnlyOldIds() && fate.Keys == old(fate.Keys)
          decreases Sum(st[..], Patience)
        {
          var failed, _ := StrListen({c.item});
          if exited {
            AsItWas();
            return false;
          }
          if failed {
            RequeueRestAndExit(c);
            return false;
          }
        }
      }
      goOn := true;
    }

    /** Offers one article to a streaming peer. */
    method OfferStream(c: Current)
      requires Carries(c) && c.Current? && c.fname != "" && c.item == next - 1 && canStream
      modifies this, st
      ensures if exited then NothingLost() && (calm ==> gaveUp) else Valid({}) && next == old(next)
      ensures !exited ==> c.item in fate && (fate[c.item].Skipped? || fate[c.item].InFlight? || fate[c.item].ToBatch?)
      ensures !exited ==>
                (fate[c.item].Skipped? <==> exists i :: 0 <= i < STNBUF && Hit(old(st[i]), c.id, IdHash(c.id)))
    {
      hide Owed, Consistent, Balanced, Sum, NothingLost, Says;
      var hash := StIdHash(c.id);
      var i := StIndex(c.id, hash);
      if i >= 0 {
        assert Duplicate(lines, st[i].item, c.item) by {
          SlotInUse(lines, st[..], stnq, fate, i);
          SlotOlder(c, i);
        }
        KeepsOwed(lines, |lines|, temp, fate, c.item, Skipped(st[i].item));
        NotFinal(fate, heard, {c.item}, c.item, Skipped(st[i].item));
        Finish(c.item, Skipped(st[i].item), heard);
        return;
      }
      var goOn := MakeRoom(c);
      if !goOn {
        return;
      }
      assert forall j | 0 <= j < STNBUF :: !Hit(st[j], c.id, hash);
      i := StAlloc(c.fname, c.id, hash, c.item);
      if i < 0 {
        RequeueRestAndExit(c);
        return;
      }
      SendFirst(i);
      if !exited {
        AgeSlots();
      }
    }

    /** What is in the table was offered before. */
    lemma SlotOlder(c: Current, i: nat)
      requires Carries(c) && c.Current? && c.item == next - 1 && i < STNBUF && st[i].fname != ""
      ensures st[i].item < c.item
    {
      hide Balanced, Consistent, Sum, Told, Owed, Deferred;
      SlotInUse(lines, st[..], stnq, fate, i);
      BalancedOld(lines, next, fate, statAccepted, statRefused, statRejected, temp, {c.item}, st[i].item);
    }

    /** Sends CHECK for a new article, or the article itself if the last ones were all taken. */
    method SendFirst(i: nat)
      requires Valid({}) && !exited && i < STNBUF && st[i].fname != "" && st[i].checks == 0 && canStream
      modifies this, st
      ensures if exited then NothingLost() && (calm ==> gaveUp)
              else Valid({}) && next == old(next) && fate == old(fate) && stnq == old(stnq)
      ensures !exited ==> statOffered == old(statOffered) + 1
      ensures !exited ==>
                var x := old(st[i]);
                st[..] == old(st[..])[i := if doCheck && old(stnofail) < 16 then x.(checks := 1)
                                           else x.(art := false, age := 0, takes := x.takes + 1)]
    {
      hide Owed, Consistent, Balanced, Sum, NothingLost;
      var failed: bool;
      if doCheck && stnofail < STNC {
        failed := Check();
        if !failed {
          CountCheck(i);
        }
      } else {
        statOffered := statOffered + 1;
        failed := TakeThis(i, {});
      }
      if failed {
        RequeueRestAndExit(Nobody);
      }
    }

    /** Resends CHECK for articles that have waited too long, and requeues them after too many retries. */
    method AgeSlots()
      requires Valid({}) && !exited && canStream
      modifies this, st
      ensures if exited then NothingLost() && (calm ==> gaveUp) else Valid({}) && next == old(next)
      ensures !exited ==> (st[..], stnq) == Aged(old(st[..]), old(stnq), 0)
      ensures !exited ==> OnlyRequeued(old(fate), fate)
    {
      hide Owed, Consistent, Balanced, Sum, Told, NothingLost, Deferred;
      BalancedNext(lines, next, fate, statAccepted, statRefused, statRejected, temp, {});
      var i := 0;
      while i < STNBUF
        invariant 0 <= i <= STNBUF && Valid({}) && !exited && next == old(next)
        invariant Aged(st[..], stnq, i) == Aged(old(st[..]), old(stnq), 0) && OnlyRequeued(old(fate), fate)
      {
        ghost var s0, n0 := st[..], stnq;
        SlotFate(s0, i);
        if st[i].fname != "" {
          var waited := st[i].age;
          Grow(i);
          if waited > stnq {
            if st[i].retry < STNRETRY {
              var failed := CheckAgain(i, {});
              if failed {
                RequeueRestAndExit(Nobody);
                return;
              }
            } else {
              RequeueSlot(i, {});
              if exited {
                AsItWas();
                return;
              }
            }
          }
        }
        assert st[..] == s0[i := AgeOne(s0[i], n0)];
        assert stnq == if s0[i].fname != "" && AgeOne(s0[i], n0).fname == "" then n0 - 1 else n0;
        i := i + 1;
      }
    }

    lemma SlotFate(s: seq<Slot>, i: nat)
      requires Valid({}) && s == st[..] && i < STNBUF
      ensures s[i].fname != "" ==> s[i].item in fate && fate[s[i].item].InFlight?
    {
      if s[i].fname != "" {
        SlotInUse(lines, s, stnq, fate, i);
      }
    }

    method Grow(i: nat)
      requires Valid({}) && i < STNBUF && st[i].fname != ""
      modifies st
      ensures Valid({}) && st[..] == old(st[..])[i := old(st[i]).(age := old(st[i].age) + 1)]
    {
      ghost var s := st[..];
      var x := st[i].(age := st[i].age + 1);
      KeepConsistent(lines, s, stnq, fate, i, x) by {
        SlotInUse(lines, s, stnq, fate, i);
      }
      hide Owed, Consistent, Balanced, Sum;
      st[i] := x;
      assert st[..] == s[i := x];
    }

    method CountCheck(i: nat)
      requires Valid({}) && i < STNBUF && st[i].fname != "" && st[i].checks == 0
      modifies st
      ensures Valid({}) && st[..] == old(st[..])[i := old(st[i]).(checks := 1)]
    {
      ghost var s := st[..];
      var x := st[i].(checks := 1);
      KeepConsistent(lines, s, stnq, fate, i, x) by {
        SlotInUse(lines, s, stnq, fate, i);
      }
      hide Owed, Consistent, Balanced, Sum;
      st[i] := x;
      assert st[..] == s[i := x];
    }

    /** Offers one article to a peer that does not stream. */
    method OfferIhave(c: Current)
      requires Carries(c) && c.Current? && !canStream
      modifies this, st
      ensures if exited then NothingLost() && (calm ==> gaveUp) else Valid({}) && next == old(next)
      ensures !exited ==> GoesOn(old(replies)) && fate == old(fate)[c.item := IhaveVerdict(old(replies))]
      ensures !exited ==>
                var offer, sent := First(old(replies)), First(Rest(old(replies)));
                heard == old(heard)[c.item := if offer.code == 335 then ToArticle(sent.code) else ToOffer(offer.code)]
      ensures calm && GoesOn(old(replies)) ==> !exited
    {
      hide Owed, Consistent, Balanced, Sum, Told, NothingLost, Deferred;
      BalancedNext(lines, next, fate, statAccepted, statRefused, statRejected, temp, {c.item});
      var written: bool := *;
      if !written && !calm {
        RequeueRestAndExit(c);
        return;
      }
      statOffered := statOffered + 1;
      var r := ReadReply();
      if r.Reply? && r.code != 435 && r.code != 501 {
        ToldMore(fate, heard, {c.item}, c.item, ToOffer(r.code));
        heard := heard[c.item := ToOffer(r.code)];
      }
      if r.Lost? || r.code in [500, 502, 403, 480, 436, 400] {
        RequeueRestAndExit(c);
      } else if r.code == 335 {
        SendArticle(c);
      } else if r.code == 435 || r.code == 501 {
        KeepsOwed(lines, |lines|, temp, fate, c.item, Refused);
        Finish(c.item, Refused, heard[c.item := ToOffer(r.code)]);
      } else {
        RequeueCurrent(c);
        if exited {
          AsItWas();
        }
      }
    }

    /** Sends an article after IHAVE and acts on the reply. */
    method SendArticle(c: Current)
      requires Carries(c) && c.Current? && !canStream
      modifies this, st
      ensures if exited then NothingLost() && (calm ==> gaveUp) else Valid({}) && next == old(next)
      ensures !exited ==> First(old(replies)).Reply?
      ensures !exited ==>
                var code := First(old(replies)).code;
                && code !in [500, 502]
                && heard == old(heard)[c.item := ToArticle(code)]
                && fate == old(fate)[c.item :=
                     if code == 235 then Accepted else if code == 437 || code == 501 then Rejected else ToBatch]
      ensures calm && First(old(replies)).Reply? && First(old(replies)).code !in [500, 502] ==> !exited
    {
      hide Owed, Consistent, Balanced, Sum, Told, NothingLost, Deferred;
      BalancedNext(lines, next, fate, statAccepted, statRefused, statRejected, temp, {c.item});
      var written: bool := *;
      if !written && !calm {
        RequeueRestAndExit(c);
        return;
      }
      var r := ReadReply();
      if r.Reply? && r.code != 235 && r.code != 437 && r.code != 501 {
        ToldMore(fate, heard, {c.item}, c.item, ToArticle(r.code));
        heard := heard[c.item := ToArticle(r.code)];
      }
      if r.Lost? || r.code == 500 || r.code == 502 {
        RequeueRestAndExit(c);
      } else if r.code == 235 {
        KeepsOwed(lines, |lines|, temp, fate, c.item, Accepted);
        Finish(c.item, Accepted, heard[c.item := ToArticle(r.code)]);
      } else if r.code == 437 || r.code == 501 {
        KeepsOwed(lines, |lines|, temp, fate, c.item, Rejected);
        Finish(c.item, Rejected, heard[c.item := ToArticle(r.code)]);
      } else {
        RequeueCurrent(c);
        if exited {
          AsItWas();
        }
      }
    }

    /** The article of a line exists but cannot be read: the line is requeued. */
    method RequeueLine(item: nat)
      requires Valid({item}) && !exited && item < |lines| && lines[item].Requeued? && item !in fate
      modifies this`fate, this`heard, this`temp, this`exited, this`statAccepted, this`statRefused, this`statRejected
      ensures !exited ==> Valid({})
      ensures Honest() && (calm ==> !exited)
    {
      hide Owed, Consistent, Balanced, Sum, Says;
      ghost var temp0 := temp;
      var e := Again(lines[item].text, item);
      Requeue(e);
      if !exited {
        Append(lines, next, fate, statAccepted, statRefused, statRejected, temp0, {item}, [e]);
        assert HasEntry(temp.entries, lines, item) by {
          assert temp.entries[|temp.entries| - 1] == e && Restores(e, lines, item);
        }
        KeepsOwed(lines, |lines|, temp0, fate, item, ToBatch);
        OwesMore(lines, |lines|, temp0, fate[item := ToBatch], e);
        NotFinal(fate, heard, {item}, item, ToBatch);
        Finish(item, ToBatch, heard);
      }
    }

    /** Transmits the batch file, whatever the peer says and whatever fails. */
    method Run()
      requires Valid({}) && next == 0 && !exited
      requires forall k | 0 <= k < |lines| && lines[k].Article? :: lines[k].fname != ""
      modifies this, st
      ensures exited && NothingLost()
      ensures calm && !gaveUp ==>
                next == |lines| && if Deferred(fate) then disk == Rewritten(Entries(temp)) else disk == Removed
    {
      hide Owed, Consistent, Balanced, Sum, Says;
      while next < |lines|
        invariant Valid({}) && !exited && next <= |lines|
        decreases |lines| - next
      {
        var timedOut: bool := *;
        if timedOut && !calm {
          RequeueRestAndExit(Nobody);
          return;
        }
        NextLine(lines, next, fate, statAccepted, statRefused, statRejected, temp);
        var item := next;
        next := next + 1;
        match lines[item] {
          case TooLong =>
          case Ignored =>
          case Unreadable =>
            exited, gaveUp := true, true;
          case Unopened =>
            var gone: bool := *;
            if gone {
              statMissing := statMissing + 1;
            }
          case Requeued(text) =>
            RequeueLine(item);
          case Article(fname, id) =>
            if canStream {
              OfferStream(Current(fname, id, item));
            } else {
              OfferIhave(Current(fname, id, item));
            }
        }
        if exited {
          return;
        }
      }
      Drain();
      if !exited {
        RemoveOrReplace();
      }
    }

    /** Waits until the table is empty. */
    method Drain()
      requires Valid({}) && !exited && next == |lines|
      modifies this, st
      ensures if exited then NothingLost() && (calm ==> gaveUp) else Valid({}) && next == |lines| && stnq == 0
    {
      hide Owed, Consistent, Balanced, Sum, Says;
      if canStream {
        while stnq > 0
          invariant Valid({}) && !exited && next == |lines|
          decreases Sum(st[..], Patience)
        {
          var failed, _ := StrListen({});
          if exited {
            return;
          }
          if failed {
            RequeueRestAndExit(Nobody);
            return;
          }
        }
        assert stnq >= 0 by {
          CountNotNegative(lines, st[..], stnq, fate);
        }
      }
    }

    /** Puts the new batch in place of the old one, or removes the old one if nothing has to be sent again. */
    method RemoveOrReplace()
      requires Valid({}) && !exited && next == |lines| && stnq == 0
      modifies this`disk, this`exited
      ensures exited && NothingLost()
      ensures disk == Original || if Deferred(fate) then disk == Rewritten(Entries(temp)) else disk == Removed
      ensures calm ==> disk != Original
    {
      NobodyInFlight(lines, st[..], stnq, fate);
      AllSettled();
      OwesLess(lines, next, temp, fate);
      DeferredOpened(lines, next, fate, statAccepted, statRefused, statRejected, temp, {});
      hide Consistent, Sum, Owed, Balanced, Told, HasEntry;
      if temp.Opened? {
        CloseAndRename();
        if !exited {
          AllKept();
        }
      } else {
        var removed: bool := *;
        if removed || calm {
          disk := Removed;
        }
      }
      exited := true;
    }
  }

  lemma SlotInUse(lines: seq<Line>, s: seq<Slot>, n: int, fate: map<nat, Fate>, i: nat)
    requires Consistent(lines, s, n, fate) && i < STNBUF && (s[i].id != "" || s[i].fname != "")
    ensures s[i].fname != "" && s[i].item in fate && fate[s[i].item] == InFlight(i) && SlotOk(lines, s[i]) && n > 0
  {
    SumBound(s, i, One);
  }

  lemma BalancedCur(lines: seq<Line>, next: nat, fate: map<nat, Fate>, accepted: nat, refused: nat, rejected: nat,
                    temp: Temp, cur: set<nat>, k: nat)
    requires Balanced(lines, next, fate, accepted, refused, rejected, temp, cur) && k in fate
    ensures k !in cur
  {}

  lemma BalancedOld(lines: seq<Line>, next: nat, fate: map<nat, Fate>, accepted: nat, refused: nat, rejected: nat,
                    temp: Temp, cur: set<nat>, k: nat)
    requires Balanced(lines, next, fate, accepted, refused, rejected, temp, cur) && k in fate
    ensures k < next && k !in cur
  {}

  lemma BalancedNext(lines: seq<Line>, next: nat, fate: map<nat, Fate>, accepted: nat, refused: nat, rejected: nat,
                     temp: Temp, cur: set<nat>)
    requires Balanced(lines, next, fate, accepted, refused, rejected, temp, cur)
    ensures next <= |lines|
  {}

  lemma DeferredOpened(lines: seq<Line>, next: nat, fate: map<nat, Fate>, accepted: nat, refused: nat, rejected: nat,
                       temp: Temp, cur: set<nat>)
    requires Balanced(lines, next, fate, accepted, refused, rejected, temp, cur)
    ensures Deferred(fate) ==> temp.Opened?
  {}

  lemma CountNotNegative(lines: seq<Line>, s: seq<Slot>, n: int, fate: map<nat, Fate>)
    requires Consistent(lines, s, n, fate)
    ensures n >= 0
  {}

  // --- conservation ---------------------------------------------------------------------------

  /** The articles of the first `m` slots. */
  function Items(s: seq<Slot>, m: nat): set<nat>
    requires m <= |s|
  {
    set i: nat | i < m && s[i].fname != "" :: s[i].item
  }

  /** No two slots hold the same article. */
  lemma OwnItem(s: seq<Slot>, i: nat, fate: map<nat, Fate>)
    requires i < |s| && Linked(fate, s) && s[i].fname != ""
    ensures s[i].item !in Items(s, i)
  {}

  lemma OneMoreItem(s: seq<Slot>, i: nat)
    requires i < |s|
    ensures Items(s, i + 1) == if s[i].fname == "" then Items(s, i) else Items(s, i) + {s[i].item}
  {}

  lemma OneMoreSummed(s: seq<Slot>, i: nat)
    requires i < |s|
    ensures Sum(s[..i + 1], One) == Sum(s[..i], One) + One(s[i])
  {
    assert s[..i + 1][..i] == s[..i];
  }

  lemma {:induction false} ItemsCounted(s: seq<Slot>, m: nat, fate: map<nat, Fate>)
    requires m <= |s| && Linked(fate, s)
    ensures |Items(s, m)| == Sum(s[..m], One)
  {
    hide Linked, Items, Sum;
    if m > 0 {
      ItemsCounted(s, m - 1, fate);
      OneMoreItem(s, m - 1);
      OneMoreSummed(s, m - 1);
      if s[m - 1].fname != "" {
        OwnItem(s, m - 1, fate);
      }
    } else {
      NoItems(s);
    }
  }

  lemma NoItems(s: seq<Slot>)
    ensures |Items(s, 0)| == 0 == Sum(s[..0], One)
  {}

  function Skips(fate: map<nat, Fate>): set<nat> {
    set k | k in fate && fate[k].Skipped?
  }

  function Flying(fate: map<nat, Fate>): set<nat> {
    set k | k in fate && fate[k].InFlight?
  }

  lemma Disjoint(a: set<nat>, b: set<nat>)
    requires a !! b
    ensures |a + b| == |a| + |b|
  {}

  lemma SixWays(all: set<nat>, a: set<nat>, b: set<nat>, c: set<nat>, d: set<nat>, e: set<nat>, f: set<nat>)
    requires all == a + b + c + d + e + f
    requires a !! b !! c !! d !! e !! f
    ensures |all| == |a| + |b| + |c| + |d| + |e| + |f|
  {
    Disjoint(a, b);
    Disjoint(a + b, c);
    Disjoint(a + b + c, d);
    Disjoint(a + b + c + d, e);
    Disjoint(a + b + c + d + e, f);
  }

  lemma SixFates(fate: map<nat, Fate>)
    ensures |fate.Keys| == |With(fate, Accepted)| + |With(fate, Refused)| + |With(fate, Rejected)|
                           + |With(fate, ToBatch)| + |Skips(fate)| + |Flying(fate)|
  {
    SixWays(fate.Keys, With(fate, Accepted), With(fate, Refused), With(fate, Rejected), With(fate, ToBatch),
            Skips(fate), Flying(fate));
  }

  /** Every article that was offered is counted exactly once. */
  lemma Conservation(lines: seq<Line>, next: nat, s: seq<Slot>, n: int, fate: map<nat, Fate>, accepted: nat,
                     refused: nat, rejected: nat, temp: Temp, cur: set<nat>)
    requires Consistent(lines, s, n, fate) && Balanced(lines, next, fate, accepted, refused, rejected, temp, cur)
    ensures |Offered(lines, next)| ==
            accepted + refused + rejected + |Skips(fate)| + |With(fate, ToBatch)| + n + |cur|
  {
    SixFates(fate);
    hide With, Skips, SlotOk, Distinct, Backed, Sum;
    ItemsCounted(s, |s|, fate);
    assert s[..|s|] == s;
    assert Flying(fate) == Items(s, |s|) by {
      forall k | k in Flying(fate) ensures k in Items(s, |s|) {
        var i := fate[k].slot;
        assert s[i].fname != "" && s[i].item == k;
      }
    }
    hide Offered, Flying, Items;
    assert Offered(lines, next) == fate.Keys + cur;
    Disjoint(fate.Keys, cur);
  }

  /** At most six CHECKs and one TAKETHIS are sent for an article while it is in its slot. */
  lemma FewCommands(lines: seq<Line>, s: seq<Slot>, n: int, fate: map<nat, Fate>, i: nat)
    requires Consistent(lines, s, n, fate) && i < STNBUF && s[i].fname != ""
    ensures s[i].checks <= 6 && s[i].takes <= 1
  {
    SlotInUse(lines, s, n, fate, i);
  }

  function AgedTimes(x: Slot, n: int, t: nat): Slot {
    if t == 0 then x else AgeOne(AgedTimes(x, n, t - 1), n)
  }

  /** While `n` slots are in use, CHECK is sent again for an article after `n` + 2 rounds without a reply about it;
      after five times it is requeued. */
  lemma {:induction false} AsksAgain(x: Slot, n: nat, t: nat)
    requires x.fname != "" && x.age == 0 && t <= n + 2
    ensures var y := AgedTimes(x, n, t);
            if t <= n + 1 then y == x.(age := t)
            else if x.retry < 5 then y == x.(retry := x.retry + 1, checks := x.checks + 1)
            else y.fname == "" && y.item == x.item
  {
    if t > 0 {
      AsksAgain(x, n, t - 1);
    }
  }

  /** A reply or a round of ageing sends at most one command for an article.  If it sends one the age of the slot starts
      again, and a CHECK is a retry; if not, the slot has become one round older, or is released. */
  lemma CommandRestartsAge(x: Slot, code: int, n: int)
    requires x.fname != "" && code in [501, 438, 238, 239, 439, 431]
    ensures forall y | y == AgeOne(x, n) || y == Reaction(code, x) ::
              var sent := y.checks + y.takes - x.checks - x.takes;
              && y.item == x.item && 0 <= sent <= 1 && y.retry - x.retry == y.checks - x.checks
              && (y.fname != "" ==> if sent == 1 then y.age == 0 else y == AgeOne(x, n) && y.age == x.age + 1)
              && (y.takes > x.takes <==> y == Reaction(code, x) && code == 238)
  {}

  /** The search by hash and message-ID finds a slot exactly when its article has that message-ID, unless it is longer
      than what the table can hold without clipping. */
  lemma SearchIsLookup(lines: seq<Line>, s: seq<Slot>, i: nat, id: string)
    requires TableOk(lines, s) && i < STNBUF && 0 < |id| < MAXLEN_COMMAND - 1
    ensures Hit(s[i], id, IdHash(id)) <==> s[i].fname != "" && FullId(lines, s[i]) == id
  {
    assert SlotOk(lines, s[i]);
  }

  // --- reading the batch again ----------------------------------------------------------------

  const MAXLEN_MSGID := 250

  /** A message-ID is accepted up to a length of 250. */
  lemma LongestId(x: string)
    ensures Bracketed("<" + x + ">") <==> |x| <= 248
  {}

  datatype Split = NotUsable | JustName(fname: string) | NameAndId(fname: string, id: string)

  function FirstSpace(text: string): (i: nat)
    ensures i <= |text| && (forall j | 0 <= j < i :: text[j] != ' ') && (i < |text| ==> text[i] == ' ')
  {
    if text == "" || text[0] == ' ' then 0 else FirstSpace(text[1..]) + 1
  }

  predicate UnderSpool(spool: string, text: string) {
    |text| > |spool| && text[0] == '/' && text[|spool|] == '/' && text[..|spool|] == spool
  }

  /** A message-ID that is accepted from the batch file. */
  predicate Bracketed(id: string) {
    id != "" && id[0] == '<' && id[|id| - 1] == '>' && |id| <= MAXLEN_MSGID
  }

  /** How a line of the batch file is taken apart, after the path of the spool was removed. */
  function SplitText(text: string): (r: Split)
    ensures r.NameAndId? ==> |text| == |r.fname| + 1 + |r.id|
  {
    var i := FirstSpace(text);
    if text == "" || i == 0 then NotUsable
    else if i == |text| then JustName(text)
    else if Bracketed(text[i + 1..]) then NameAndId(text[..i], text[i + 1..])
    else NotUsable
  }

  function SplitLine(spool: string, line: string): Split {
    SplitText(if UnderSpool(spool, line) then line[|spool| + 1..] else line)
  }

  /** The line that is written for a requeued article. */
  function Written(fname: string, id: string): string {
    fname + " " + id
  }

  lemma SpaceAfter(fname: string, id: string)
    requires ' ' !in fname
    ensures FirstSpace(Written(fname, id)) == |fname|
  {
    var text := Written(fname, id);
    var i := FirstSpace(text);
    assert forall j | 0 <= j < |fname| :: text[j] == fname[j] && fname[j] in fname;
    assert text[|fname|] == ' ';
  }

  /** The entry of a requeued article, with its message-ID clipped by the table or not, names the same article to the
      next run exactly when the message-ID is a short one in angle brackets and the name does not look like a path
      below the spool.  Message-IDs from the batch file are like that; one that was taken from the article need not
      be, and then the next run drops the article. */
  lemma RequeuedReadsBack(spool: string, fname: string, id: string, kept: string)
    requires fname != "" && ' ' !in fname && (kept == id || kept == Clip(id))
    ensures SplitLine(spool, Written(fname, kept)) == NameAndId(fname, id) <==>
            Bracketed(id) && !UnderSpool(spool, Written(fname, id))
  {
    hide Bracketed, FirstSpace;
    var text := Written(fname, kept);
    SpaceAfter(fname, kept);
    assert text[|fname| + 1..] == kept && text[..|fname|] == fname;
    if kept != id {
      assert !Bracketed(id) && !Bracketed(kept) by {
        TooLongToRead(id);
      }
    }
  }

  lemma TooLongToRead(id: string)
    ensures Clip(id) == id || (!Bracketed(id) && !Bracketed(Clip(id)))
  {}

  /** An article whose own Message-ID is longer than the limit is dropped by the next run. */
  lemma LongIdDropped(spool: string)
    ensures var id := "<" + seq(MAXLEN_MSGID, _ => 'x') + ">";
            SplitLine(spool, Written("a", id)) == NotUsable
  {
    var id := "<" + seq(MAXLEN_MSGID, _ => 'x') + ">";
    SpaceAfter("a", id);
    assert Written("a", id)[2..] == id;
  }
}
