/** actsync, the merge of two active files: the newsgroups of both hosts are sorted into one array, paired, and put out
    as a new active file or as a script of ctlinnd commands. */
module Actsync {

  /** Longest chain of "=" types that is followed. */
  const EQ_LOOP := 16

  datatype Host = Host1 | Host2
  datatype Check = CheckIgnore | CheckType | CheckBork | CheckHier
  datatype Problem = LongLoop | EqLoop | NonEq | Dup | EqName | BadType | BadName | Format

  /** A line of an active file: why it is ignored, what is wrong with it, and what shall become of it. */
  datatype Grp = Grp(name: string, typ: string, host: Host, line: nat, hi: string, low: string,
                     checks: set<Check>, errors: set<Problem>,
                     output: bool, remove: bool, outHi: string, outLow: string, outType: string)

  /** The command line options that matter to the merge. */
  datatype Options = Options(merge: bool, host2HiLowAll: bool, host2HiLowNew: bool)

  const DEF_HI := "0000000000"
  const DEF_LOW := "0000000001"

  /** Neither ignored nor in error. */
  predicate Passes(g: Grp) {
    g.checks == {} && g.errors == {}
  }

  // --- the order of names ---------------------------------------------------------------------

  function StrCmp(a: string, b: string): int {
    if a == [] && b == [] then 0
    else if a == [] then -1
    else if b == [] then 1
    else if a[0] != b[0] then a[0] as int - b[0] as int
    else StrCmp(a[1..], b[1..])
  }

  lemma {:induction false} CmpZero(a: string, b: string)
    ensures StrCmp(a, b) == 0 <==> a == b
  {
    if a != [] && b != [] {
      CmpZero(a[1..], b[1..]);
      assert a == [a[0]] + a[1..] && b == [b[0]] + b[1..];
    }
  }

  lemma {:induction false} CmpTurned(a: string, b: string)
    ensures StrCmp(a, b) == -StrCmp(b, a)
  {
    if a != [] && b != [] {
      CmpTurned(a[1..], b[1..]);
    }
  }

  /** One name comes before another if it is the beginning of the other or has the smaller character where they first
      differ. */
  lemma {:induction false} CmpIsOrder(a: string, b: string)
    ensures StrCmp(a, b) < 0 <==>
            exists i: nat :: i < |b| && i <= |a| && a[..i] == b[..i] && (i == |a| || a[i] < b[i])
  {
    if a != [] && b != [] && a[0] == b[0] {
      CmpIsOrder(a[1..], b[1..]);
      if i: nat :| i < |b| && i <= |a| && a[..i] == b[..i] && (i == |a| || a[i] < b[i]) {
        assert i > 0;
        assert a[1..][..i - 1] == a[..i][1..] && b[1..][..i - 1] == b[..i][1..];
      }
      if i: nat :| i < |b[1..]| && i <= |a[1..]| && a[1..][..i] == b[1..][..i]
                   && (i == |a[1..]| || a[1..][i] < b[1..][i]) {
        assert a[..i + 1] == [a[0]] + a[1..][..i] && b[..i + 1] == [b[0]] + b[1..][..i];
      }
    } else {
      assert a[..0] == b[..0];
      if i: nat :| i < |b| && i <= |a| && a[..i] == b[..i] && (i == |a| || a[i] < b[i]) {
        if i > 0 {
          SameStart(a, b, i);
        }
      }
    }
  }

  lemma SameStart(a: string, b: string, i: nat)
    requires 0 < i <= |a| && i <= |b| && a[..i] == b[..i]
    ensures a[0] == b[0]
  {
    assert a[..i][0] == b[..i][0];
  }

  function Before(a: int, b: int): int {
    if a < b then -1 else if a > b then 1 else 0
  }

  function HostNumber(h: Host): int {
    if h.Host1? then 1 else 2
  }

  /** The order of the array for the merge: name, host, line. */
  function MergeCmp(a: Grp, b: Grp): int {
    var i := StrCmp(a.name, b.name);
    if i != 0 then i
    else if a.host != b.host then Before(HostNumber(a.host), HostNumber(b.host))
    else Before(a.line, b.line)
  }

  predicate Sorted(s: seq<Grp>) {
    forall i, j | 0 <= i < j < |s| :: MergeCmp(s[i], s[j]) < 0
  }

  /** What stands between two entries of one name has the same name. */
  lemma SameBetween(s: seq<Grp>, i: nat, k: nat, j: nat)
    requires Sorted(s) && i <= k <= j < |s| && s[i].name == s[j].name
    ensures s[k].name == s[i].name
  {
    if i < k < j {
      assert MergeCmp(s[i], s[k]) < 0 && MergeCmp(s[k], s[j]) < 0;
      CmpZero(s[i].name, s[k].name);
      CmpTurned(s[i].name, s[k].name);
    }
  }

  /** No host names a group twice. */
  predicate Distinct(s: seq<Grp>) {
    forall i, j | 0 <= i < j < |s| && s[i].host == s[j].host :: s[i].name != s[j].name
  }

  /** The merge never touches what an entry says about its group. */
  predicate SameLine(a: Grp, b: Grp) {
    a.name == b.name && a.typ == b.typ && a.host == b.host && a.line == b.line && a.hi == b.hi && a.low == b.low
  }

  predicate SameLines(s: seq<Grp>, t: seq<Grp>) {
    |s| == |t| && forall i | 0 <= i < |s| :: SameLine(s[i], t[i])
  }

  // --- pairing --------------------------------------------------------------------------------

  predicate Mates(s: seq<Grp>, i: nat, j: nat)
    requires i < |s| && j < |s|
  {
    s[i].name == s[j].name && s[i].host != s[j].host && Passes(s[j])
  }

  predicate HasMate(s: seq<Grp>, i: nat)
    requires i < |s|
  {
    exists j :: 0 <= j < |s| && Mates(s, i, j)
  }

  /** Entry `j` passes and names the same group of the same host as entry `i`. */
  predicate Twin(s: seq<Grp>, i: nat, j: nat)
    requires i < |s| && j < |s|
  {
    s[i].name == s[j].name && s[i].host == s[j].host && Passes(s[j])
  }

  /** One entry before `n`, or two, name the same group of the same host as entry `i`. */
  predicate Again(s: seq<Grp>, i: nat, n: nat)
    requires i < |s| && n <= |s|
  {
    exists j :: 0 <= j < n && Twin(s, i, j)
  }

  predicate AgainTwice(s: seq<Grp>, i: nat, n: nat)
    requires i < |s| && n <= |s|
  {
    exists j, k :: 0 <= j < k < n && Twin(s, i, j) && Twin(s, i, k)
  }

  predicate MateBefore(s: seq<Grp>, i: nat, n: nat)
    requires i < |s| && n <= |s|
  {
    exists j :: 0 <= j < n && Mates(s, i, j)
  }

  function Kept(g: Grp, hi: string, low: string, typ: string): Grp {
    g.(output := true, outHi := hi, outLow := low, outType := typ)
  }

  function Duplicate(g: Grp): Grp {
    g.(errors := g.errors + {Dup})
  }

  /** What the merge makes of entry `i` of a sorted array, by looking for the group on both hosts.  A group of both
      hosts gets the type of the first entry of host 2, one of host 2 alone is new, and one of host 1 alone is removed
      unless the hosts are merged.  Later entries for a group are duplicates; but of a group of both hosts the second
      entry of host 2 is put out as if it were new, and only those after it are duplicates. */
  predicate Merged(s: seq<Grp>, i: nat, r: Grp, o: Options)
    requires i < |s|
  {
    var g := s[i];
    if g.host.Host2? && HasMate(s, i) then
      r == if AgainTwice(s, i, i) then Duplicate(g) else if Passes(g) && Again(s, i, i) then Single(g, o) else g
    else if Again(s, i, i) then r == Duplicate(g)
    else if !Passes(g) then r == g
    else if HasMate(s, i) then
      exists j :: 0 <= j < |s| && Mates(s, i, j) && !Again(s, j, j) &&
        r == Kept(g, if o.host2HiLowAll then s[j].hi else g.hi, if o.host2HiLowAll then s[j].low else g.low, s[j].typ)
    else r == Single(g, o)
  }

  /** What lies before `cur` bears on entry `j` only if that is a further entry of host 2 for a group of both hosts. */
  predicate ReadyAt(s: seq<Grp>, cur: nat, j: nat)
    requires cur <= j < |s|
  {
    && !AgainTwice(s, j, cur)
    && (Again(s, j, cur) ==> s[j].host.Host2? && MateBefore(s, j, cur))
    && (Passes(s[j]) && s[j].host.Host2? && MateBefore(s, j, cur) ==> Again(s, j, cur))
  }

  predicate Ready(s: seq<Grp>, cur: nat) {
    forall j | cur <= j < |s| :: ReadyAt(s, cur, j)
  }

  /** Host 1 stands before host 2. */
  lemma HostOrder(s: seq<Grp>, i: nat, j: nat)
    requires Sorted(s) && i < j < |s| && s[i].name == s[j].name
    ensures s[i].host == s[j].host || (s[i].host.Host1? && s[j].host.Host2?)
  {
    assert MergeCmp(s[i], s[j]) < 0;
    CmpZero(s[i].name, s[j].name);
  }

  /** The situation after entry `cur` was looked at: duplicates up to `d`, then entries that do not pass up to `nxt`. */
  predicate Looked(s: seq<Grp>, cur: nat, d: nat, nxt: nat) {
    && Sorted(s) && Ready(s, cur) && DupRun(s, cur, d) && Passes(s[cur])
    && d <= nxt <= |s| && forall i | d <= i < nxt :: !Passes(s[i])
  }

  /** No entry before `n` passes under the name of entry `j`. */
  predicate Unheard(s: seq<Grp>, j: nat, n: nat)
    requires j < |s| && n <= |s|
  {
    forall i | 0 <= i < n && Passes(s[i]) :: s[i].name != s[j].name
  }

  /** If the next entry that passes has another name, nothing before it bears on what comes. */
  lemma OtherName(s: seq<Grp>, cur: nat, d: nat, nxt: nat, j: nat)
    requires Looked(s, cur, d, nxt) && nxt <= j < |s| && s[nxt].name != s[cur].name
    ensures Unheard(s, j, nxt)
  {
    hide MergeCmp, Ready;
    forall i | 0 <= i < nxt && Passes(s[i]) ensures s[i].name != s[j].name {
      if s[i].name == s[j].name {
        SameBetween(s, i, nxt, j);
        if i < cur {
          SameBetween(s, i, cur, j);
        }
      }
    }
  }

  lemma UnheardReady(s: seq<Grp>, j: nat, n: nat)
    requires n <= j < |s| && Unheard(s, j, n)
    ensures ReadyAt(s, n, j)
  {}

  lemma ReadyAfterOne(s: seq<Grp>, cur: nat, d: nat, nxt: nat)
    requires Looked(s, cur, d, nxt) && (nxt < |s| ==> s[nxt].name != s[cur].name)
    ensures Ready(s, nxt)
  {
    hide ReadyAt, Unheard, Looked;
    forall j | nxt <= j < |s| ensures ReadyAt(s, nxt, j) {
      OtherName(s, cur, d, nxt, j);
      UnheardReady(s, j, nxt);
    }
  }

  /** What comes after a pair. */
  lemma ReadyAfterPair(s: seq<Grp>, cur: nat, d: nat, nxt: nat)
    requires Looked(s, cur, d, nxt) && nxt < |s| && Passes(s[nxt]) && s[nxt].name == s[cur].name
    ensures Ready(s, nxt + 1)
  {
    FirstIsHost1(s, cur, d, nxt);
    hide MergeCmp, Ready;
    var next := nxt + 1;
    forall j | next <= j < |s| ensures ReadyAt(s, next, j) {
      if s[j].name == s[cur].name {
        HostOrder(s, nxt, j);
        assert Mates(s, j, cur) && Twin(s, j, nxt);
        forall i | 0 <= i < nxt ensures !Twin(s, j, i) {
          if s[i].name == s[cur].name {
            NoneBefore(s, cur, d, nxt, i);
          }
        }
      } else {
        forall i | 0 <= i < nxt + 1 && Passes(s[i]) ensures s[i].name != s[j].name {
          if s[i].name == s[j].name {
            SameBetween(s, i, nxt, j);
          }
        }
        UnheardReady(s, j, nxt + 1);
      }
    }
  }

  /** Before the second of a pair nothing of host 2 passes under its name. */
  lemma NoneBefore(s: seq<Grp>, cur: nat, d: nat, nxt: nat, i: nat)
    requires Looked(s, cur, d, nxt) && nxt <= |s| && i < nxt && s[i].name == s[cur].name && s[cur].host.Host1?
    ensures !(s[i].host.Host2? && Passes(s[i]))
  {
    hide MergeCmp, Ready;
    if i < cur {
      HostOrder(s, i, cur);
    }
  }

  /** Nothing of host 1 with the name of an entry that is looked at was there before. */
  lemma FirstOfHost1(s: seq<Grp>, cur: nat)
    requires Ready(s, cur) && cur < |s| && s[cur].host.Host1?
    ensures !Again(s, cur, cur)
  {
    assert ReadyAt(s, cur, cur);
  }

  lemma PairMerged(s: seq<Grp>, cur: nat, d: nat, nxt: nat, r: Grp, o: Options)
    requires Looked(s, cur, d, nxt) && nxt < |s| && Passes(s[nxt]) && s[nxt].name == s[cur].name
    requires r == Kept(s[cur], if o.host2HiLowAll then s[nxt].hi else s[cur].hi,
                       if o.host2HiLowAll then s[nxt].low else s[cur].low, s[nxt].typ)
    ensures Merged(s, cur, r, o) && Merged(s, nxt, s[nxt], o)
  {
    FirstIsHost1(s, cur, d, nxt);
    FirstOfHost1(s, cur);
    hide MergeCmp, Ready;
    assert Mates(s, cur, nxt) && Mates(s, nxt, cur);
    forall i | 0 <= i < nxt ensures !Twin(s, nxt, i) {
      if s[i].name == s[cur].name {
        NoneBefore(s, cur, d, nxt, i);
      }
    }
  }

  /** Entries between the first of a pair and the second, or the next that passes. */
  lemma BetweenMerged(s: seq<Grp>, cur: nat, d: nat, nxt: nat, i: nat, o: Options)
    requires Looked(s, cur, d, nxt) && cur < i < nxt
    ensures Merged(s, i, if i < d then Duplicate(s[i]) else s[i], o)
  {
    if i < d {
      DupMerged(s, cur, d, nxt, i, o);
    } else if s[i].name == s[cur].name {
      SameNameMerged(s, cur, d, nxt, i, o);
    } else {
      hide MergeCmp, Ready;
      forall j | 0 <= j < i && Passes(s[j]) ensures s[j].name != s[i].name {
        if s[j].name == s[i].name && j < cur {
          SameBetween(s, j, cur, i);
        }
      }
      assert Unheard(s, i, i);
      assert !Again(s, i, i);
    }
  }

  lemma SameNameMerged(s: seq<Grp>, cur: nat, d: nat, nxt: nat, i: nat, o: Options)
    requires Looked(s, cur, d, nxt) && d <= i < nxt && s[i].name == s[cur].name
    ensures Merged(s, i, s[i], o)
  {
    FirstIsHost1(s, cur, d, i);
    hide MergeCmp, Ready;
    assert Mates(s, i, cur);
    forall j | 0 <= j < i ensures !Twin(s, i, j) {
      if s[j].name == s[cur].name {
        NoneBefore(s, cur, d, nxt, j);
      }
    }
    assert !Again(s, i, i) && !AgainTwice(s, i, i);
  }

  /** A mate of an entry of host 2 stands before it. */
  lemma MateIsBefore(s: seq<Grp>, i: nat, n: nat)
    requires Sorted(s) && i < |s| && n <= i && s[i].host.Host2? && HasMate(s, i)
    requires forall j | n <= j < i :: s[j].host.Host2? || s[j].name != s[i].name
    ensures MateBefore(s, i, n)
  {
    var j :| 0 <= j < |s| && Mates(s, i, j);
    if i < j {
      HostOrder(s, i, j);
    }
  }

  lemma DupMerged(s: seq<Grp>, cur: nat, d: nat, nxt: nat, i: nat, o: Options)
    requires Looked(s, cur, d, nxt) && cur < i < d
    ensures Merged(s, i, Duplicate(s[i]), o)
  {
    assert s[i].name == s[cur].name && s[i].host == s[cur].host;
    assert Twin(s, i, cur) && Again(s, i, i);
    if s[i].host.Host2? && HasMate(s, i) {
      var m :| 0 <= m < |s| && Mates(s, i, m);
      assert Mates(s, cur, m) && HasMate(s, cur);
      MateIsBefore(s, cur, cur);
      assert ReadyAt(s, cur, cur);
      var j :| 0 <= j < cur && Twin(s, cur, j);
      assert Twin(s, i, j);
      assert AgainTwice(s, i, i);
    }
  }

  /** An entry that is not paired with the next one. */
  lemma SingleMerged(s: seq<Grp>, cur: nat, d: nat, nxt: nat, o: Options)
    requires Looked(s, cur, d, nxt) && (nxt < |s| ==> s[nxt].name != s[cur].name)
    ensures Merged(s, cur, Single(s[cur], o), o)
  {
    assert ReadyAt(s, cur, cur);
    hide MergeCmp, Ready;
    if s[cur].host.Host2? {
      if HasMate(s, cur) {
        MateIsBefore(s, cur, cur);
      } else {
        assert forall j | 0 <= j < cur :: !Mates(s, cur, j);
      }
    } else {
      forall j | 0 <= j < |s| ensures !Mates(s, cur, j) {
        NoMateAhead(s, cur, d, nxt, j);
      }
    }
  }

  lemma NoMateAhead(s: seq<Grp>, cur: nat, d: nat, nxt: nat, j: nat)
    requires Looked(s, cur, d, nxt) && (nxt < |s| ==> s[nxt].name != s[cur].name) && j < |s| && s[cur].host.Host1?
    ensures !Mates(s, cur, j)
  {
    hide MergeCmp, Ready;
    if j < cur {
      if s[j].name == s[cur].name {
        HostOrder(s, j, cur);
      }
    } else if nxt <= j {
      if s[j].name == s[cur].name {
        SameBetween(s, cur, nxt, j);
      }
    }
  }

  lemma SkipMerged(s: seq<Grp>, cur: nat, o: Options)
    requires Sorted(s) && Ready(s, cur) && cur < |s| && !Passes(s[cur])
    ensures Merged(s, cur, s[cur], o) && Ready(s, cur + 1)
  {
    assert ReadyAt(s, cur, cur);
    hide MergeCmp, Ready;
    if Again(s, cur, cur) {
      var j :| 0 <= j < cur && Mates(s, cur, j);
      assert HasMate(s, cur);
    }
    SkipReady(s, cur);
  }

  lemma SkipReady(s: seq<Grp>, cur: nat)
    requires Ready(s, cur) && cur < |s| && !Passes(s[cur])
    ensures Ready(s, cur + 1)
  {
    var next := cur + 1;
    forall j | next <= j < |s| ensures ReadyAt(s, next, j) {
      assert ReadyAt(s, cur, j);
      assert !Twin(s, j, cur) && !Mates(s, j, cur);
      assert Again(s, j, cur + 1) <==> Again(s, j, cur);
      assert MateBefore(s, j, cur + 1) <==> MateBefore(s, j, cur);
      assert AgainTwice(s, j, cur + 1) ==> AgainTwice(s, j, cur);
    }
  }

  /** The entries from `nxt` on of the same host and name as entry `cur`. */
  predicate DupRun(s: seq<Grp>, cur: nat, nxt: nat) {
    && cur < nxt <= |s|
    && (forall i | cur < i < nxt :: s[i].name == s[cur].name && s[i].host == s[cur].host)
    && (nxt < |s| ==> s[nxt].name != s[cur].name || s[nxt].host != s[cur].host)
  }

  /** "Internal error #8" cannot happen: an entry that is paired with a later one of the same name is from host 1. */
  lemma FirstIsHost1(s: seq<Grp>, cur: nat, d: nat, nxt: nat)
    requires Sorted(s) && DupRun(s, cur, d) && d <= nxt < |s| && s[nxt].name == s[cur].name
    ensures s[cur].host.Host1? && s[nxt].host.Host2?
  {
    SameBetween(s, cur, d, nxt);
    assert MergeCmp(s[cur], s[d]) < 0;
    CmpZero(s[cur].name, s[d].name);
    if d < nxt {
      assert MergeCmp(s[d], s[nxt]) < 0;
      CmpZero(s[d].name, s[nxt].name);
    }
  }

  lemma LinesSorted(s: seq<Grp>, t: seq<Grp>)
    requires Sorted(s) && SameLines(s, t)
    ensures Sorted(t)
  {
    forall i, j | 0 <= i < j < |t| ensures MergeCmp(t[i], t[j]) < 0 {
      assert MergeCmp(s[i], s[j]) < 0;
    }
  }

  lemma ReadyStart(s: seq<Grp>)
    ensures Ready(s, 0) && SameLines(s, s)
  {}

  /** Pairs the groups of both hosts and decides what is put out.  The array has been sorted. */
  method PairUp(grp: array<Grp>, o: Options)
    requires Sorted(grp[..])
    modifies grp
    ensures SameLines(grp[..], old(grp[..]))
    ensures forall i | 0 <= i < grp.Length :: Merged(old(grp[..]), i, grp[i], o)
  {
    hide Merged, Ready, Sorted;
    ghost var s := grp[..];
    var cur := 0;
    ReadyStart(s);
    while cur < grp.Length
      invariant 0 <= cur <= grp.Length && SameLines(grp[..], s) && Ready(s, cur)
      invariant forall i | cur <= i < grp.Length :: grp[i] == s[i]
      invariant forall i | 0 <= i < cur :: Merged(s, i, grp[i], o)
    {
      if Passes(grp[cur]) {
        cur := PairOne(grp, cur, o, s);
      } else {
        SkipMerged(s, cur, o);
        cur := cur + 1;
      }
    }
  }

  /** Marks later entries of the same host and name as duplicates. */
  method MarkDups(grp: array<Grp>, cur: nat) returns (nxt: nat)
    requires cur < grp.Length
    modifies grp
    ensures cur < nxt <= grp.Length && SameLines(grp[..], old(grp[..])) && DupRun(old(grp[..]), cur, nxt)
    ensures forall i | 0 <= i < grp.Length ::
              grp[i] == if cur < i < nxt then Duplicate(old(grp[i])) else old(grp[i])
  {
    nxt := cur + 1;
    while nxt < grp.Length && grp[cur].host == grp[nxt].host && grp[cur].name == grp[nxt].name
      invariant cur < nxt <= grp.Length
      invariant forall i | cur < i < nxt :: old(grp[i]).name == grp[cur].name && old(grp[i]).host == grp[cur].host
      invariant forall i | 0 <= i < grp.Length ::
                  grp[i] == if cur < i < nxt then Duplicate(old(grp[i])) else old(grp[i])
    {
      grp[nxt] := Duplicate(grp[nxt]);
      nxt := nxt + 1;
    }
  }

  /** Decides about the entry `cur`, which passes, and the one it is paired with; returns the next one. */
  method PairOne(grp: array<Grp>, cur: nat, o: Options, ghost s: seq<Grp>) returns (next: nat)
    requires cur < grp.Length && Passes(grp[cur]) && Sorted(s) && SameLines(grp[..], s) && Ready(s, cur)
    requires forall i | cur <= i < grp.Length :: grp[i] == s[i]
    modifies grp
    ensures cur < next <= grp.Length && SameLines(grp[..], s) && Ready(s, next)
    ensures forall i | 0 <= i < cur :: grp[i] == old(grp[i])
    ensures forall i | next <= i < grp.Length :: grp[i] == s[i]
    ensures forall i | cur <= i < next :: Merged(s, i, grp[i], o)
  {
    hide Merged, Ready, Sorted, Duplicate;
    var nxt, d := FindNext(grp, cur, s);
    forall i | cur < i < nxt ensures Merged(s, i, grp[i], o) {
      BetweenMerged(s, cur, d, nxt, i, o);
    }
    if nxt < grp.Length && grp[cur].name == grp[nxt].name {
      FirstIsHost1(s, cur, d, nxt);
      assert grp[cur].host.Host1?;
      grp[cur] := Kept(grp[cur], if o.host2HiLowAll then grp[nxt].hi else grp[cur].hi,
                       if o.host2HiLowAll then grp[nxt].low else grp[cur].low, grp[nxt].typ);
      PairMerged(s, cur, d, nxt, grp[cur], o);
      ReadyAfterPair(s, cur, d, nxt);
      next := nxt + 1;
    } else {
      Decide(grp, cur, o);
      SingleMerged(s, cur, d, nxt, o);
      ReadyAfterOne(s, cur, d, nxt);
      next := nxt;
    }
  }

  method Decide(grp: array<Grp>, cur: nat, o: Options)
    requires cur < grp.Length
    modifies grp
    ensures forall i | 0 <= i < grp.Length :: grp[i] == if i == cur then Single(old(grp[i]), o) else old(grp[i])
  {
    if grp[cur].host.Host2? {
      grp[cur] := Kept(grp[cur], if o.host2HiLowNew then grp[cur].hi else DEF_HI,
                       if o.host2HiLowNew then grp[cur].low else DEF_LOW, grp[cur].typ);
    } else {
      grp[cur] := Kept(grp[cur], grp[cur].hi, grp[cur].low, grp[cur].typ);
      if !o.merge {
        grp[cur] := grp[cur].(remove := true);
      }
    }
  }

  /** A group of only one host. */
  function Single(g: Grp, o: Options): Grp {
    if g.host.Host2? then
      Kept(g, if o.host2HiLowNew then g.hi else DEF_HI, if o.host2HiLowNew then g.low else DEF_LOW, g.typ)
    else Kept(g, g.hi, g.low, g.typ).(remove := g.remove || !o.merge)
  }

  /** Marks duplicates of `cur`, and finds the next entry that passes. */
  method FindNext(grp: array<Grp>, cur: nat, ghost s: seq<Grp>) returns (nxt: nat, ghost d: nat)
    requires cur < grp.Length && Passes(grp[cur]) && SameLines(grp[..], s) && Sorted(s) && Ready(s, cur)
    requires forall i | cur <= i < grp.Length :: grp[i] == s[i]
    modifies grp
    ensures SameLines(grp[..], s) && Looked(s, cur, d, nxt) && nxt <= grp.Length && cur < d <= nxt
    ensures nxt < grp.Length ==> Passes(grp[nxt])
    ensures forall i | 0 <= i <= cur :: grp[i] == old(grp[i])
    ensures forall i | cur < i < grp.Length :: grp[i] == if i < d then Duplicate(s[i]) else s[i]
  {
    hide Ready, Sorted;
    nxt := MarkDups(grp, cur);
    d := nxt;
    assert DupRun(s, cur, d);
    while nxt < grp.Length && !Passes(grp[nxt])
      invariant d <= nxt <= grp.Length
      invariant forall i | d <= i < nxt :: !Passes(s[i])
    {
      nxt := nxt + 1;
    }
  }

  // --- errors ---------------------------------------------------------------------------------

  /** Marks groups in error of a host for removal. */
  method ErrorMark(grp: array<Grp>, host: Host)
    modifies grp
    ensures forall i | 0 <= i < grp.Length :: grp[i] == Doomed(old(grp[i]), host)
  {
    var i := 0;
    while i < grp.Length
      invariant 0 <= i <= grp.Length
      invariant forall k | 0 <= k < grp.Length :: grp[k] == if k < i then Doomed(old(grp[k]), host) else old(grp[k])
    {
      if grp[i].host == host && grp[i].errors != {} {
        if !grp[i].output || !grp[i].remove {
          grp[i] := grp[i].(output := true, remove := true);
        }
      }
      i := i + 1;
    }
  }

  function Doomed(g: Grp, host: Host): Grp {
    if g.host == host && g.errors != {} then g.(output := true, remove := true) else g
  }

  // --- output ---------------------------------------------------------------------------------

  datatype Line = Line(name: string, hi: string, low: string, typ: string)
  datatype Command =
    | RmGroup(name: string)
    | NewGroup(name: string, typ: string)
    | ChangeGroup(name: string, typ: string)

  predicate Keep(g: Grp) {
    g.output && !g.remove
  }

  predicate Removed(g: Grp) {
    g.output && g.remove
  }

  /** The group is not in host 1's active file as it shall be. */
  predicate NeedsCommand(g: Grp) {
    Keep(g) && (g.host.Host2? || g.typ != g.outType)
  }

  /** The new active file. */
  method OutputActive(grp: array<Grp>) returns (lines: seq<Line>)
    ensures lines == ActiveFile(grp[..])
  {
    lines := [];
    var i := 0;
    while i < grp.Length
      invariant 0 <= i <= grp.Length && lines == ActiveFile(grp[..i])
    {
      assert grp[..i + 1][..i] == grp[..i];
      if grp[i].output {
        if !grp[i].remove {
          lines := lines + [Line(grp[i].name, grp[i].outHi, grp[i].outLow, grp[i].outType)];
        }
      }
      i := i + 1;
    }
    assert grp[..i] == grp[..];
  }

  function ActiveFile(s: seq<Grp>): seq<Line> {
    if s == [] then [] else
      var g := s[|s| - 1];
      ActiveFile(s[..|s| - 1]) + if Keep(g) then [Line(g.name, g.outHi, g.outLow, g.outType)] else []
  }

  /** The script of ctlinnd commands: the array is walked once for the removals, and then once more. */
  method OutputScript(grp: array<Grp>) returns (cmds: seq<Command>)
    ensures cmds == Script(grp[..])
  {
    hide Removals, Additions;
    cmds := [];
    NoCommands();
    var rmCycle := 1;
    while rmCycle >= 0
      invariant -1 <= rmCycle <= 1
      invariant cmds == if rmCycle == 1 then [] else if rmCycle == 0 then Removals(grp[..]) else Script(grp[..])
    {
      var i := 0;
      assert grp[..i] == [];
      while i < grp.Length
        invariant 0 <= i <= grp.Length
        invariant cmds == if rmCycle == 1 then Removals(grp[..i]) else Removals(grp[..]) + Additions(grp[..i])
      {
        OneMore(grp[..], i);
        if grp[i].output {
          if grp[i].remove {
            if rmCycle == 1 {
              cmds := cmds + [RmGroup(grp[i].name)];
            }
          } else if grp[i].host.Host2? {
            if rmCycle == 0 {
              cmds := cmds + [NewGroup(grp[i].name, grp[i].outType)];
            }
          } else if grp[i].typ != grp[i].outType {
            if rmCycle == 0 {
              cmds := cmds + [ChangeGroup(grp[i].name, grp[i].outType)];
            }
          }
        }
        i := i + 1;
      }
      assert grp[..i] == grp[..];
      rmCycle := rmCycle - 1;
    }
  }

  lemma NoCommands()
    ensures Removals([]) == Additions([]) == []
  {}

  lemma OneMore(s: seq<Grp>, i: nat)
    requires i < |s|
    ensures Removals(s[..i + 1]) == Removals(s[..i]) + if Removed(s[i]) then [RmGroup(s[i].name)] else []
    ensures Additions(s[..i + 1]) ==
            Additions(s[..i]) +
            if !NeedsCommand(s[i]) then []
            else if s[i].host.Host2? then [NewGroup(s[i].name, s[i].outType)]
            else [ChangeGroup(s[i].name, s[i].outType)]
  {
    hide Removed, NeedsCommand;
    assert s[..i + 1][..i] == s[..i];
  }

  function Removals(s: seq<Grp>): seq<Command> {
    if s == [] then [] else
      var g := s[|s| - 1];
      Removals(s[..|s| - 1]) + if Removed(g) then [RmGroup(g.name)] else []
  }

  function Additions(s: seq<Grp>): seq<Command> {
    if s == [] then [] else
      var g := s[|s| - 1];
      Additions(s[..|s| - 1]) +
      if !NeedsCommand(g) then []
      else if g.host.Host2? then [NewGroup(g.name, g.outType)] else [ChangeGroup(g.name, g.outType)]
  }

  function Script(s: seq<Grp>): seq<Command> {
    Removals(s) + Additions(s)
  }

  // --- what the output means ------------------------------------------------------------------

  /** What a command does to an active file, seen as a map from groups to types. */
  function Apply(m: map<string, string>, c: Command): map<string, string> {
    match c
    case RmGroup(name) => m - {name}
    case NewGroup(name, typ) => m[name := typ]
    case ChangeGroup(name, typ) => m[name := typ]
  }

  function ApplyAll(m: map<string, string>, cmds: seq<Command>): map<string, string> {
    if cmds == [] then m else Apply(ApplyAll(m, cmds[..|cmds| - 1]), cmds[|cmds| - 1])
  }

  function Listed(lines: seq<Line>): map<string, string> {
    if lines == [] then map[] else
      var l := lines[|lines| - 1];
      Listed(lines[..|lines| - 1])[l.name := l.typ]
  }

  /** The names of selected entries, with a type for each. */
  function Table(s: seq<Grp>, sel: Grp -> bool, typ: Grp -> string): map<string, string> {
    if s == [] then map[] else
      var g, m := s[|s| - 1], Table(s[..|s| - 1], sel, typ);
      if sel(g) then m[g.name := typ(g)] else m
  }

  predicate Of1(g: Grp) { g.host.Host1? }
  predicate Left1(g: Grp) { g.host.Host1? && !g.output }
  predicate Passes1(g: Grp) { g.host.Host1? && Passes(g) }
  predicate Passes2(g: Grp) { g.host.Host2? && Passes(g) }
  function Type(g: Grp): string { g.typ }
  function OutType(g: Grp): string { g.outType }

  lemma {:induction false} TableHas(s: seq<Grp>, sel: Grp -> bool, typ: Grp -> string, n: string)
    ensures n in Table(s, sel, typ) <==> exists i :: 0 <= i < |s| && sel(s[i]) && s[i].name == n
    ensures n in Table(s, sel, typ) ==>
              exists i :: 0 <= i < |s| && sel(s[i]) && s[i].name == n && Table(s, sel, typ)[n] == typ(s[i])
  {
    if s != [] {
      var init := s[..|s| - 1];
      TableHas(init, sel, typ, n);
      assert forall i | 0 <= i < |init| :: init[i] == s[i];
      assert s[|s| - 1] == s[..][|s| - 1];
    }
  }

  lemma ApplyMore(m: map<string, string>, cmds: seq<Command>, c: Command)
    ensures ApplyAll(m, cmds + [c]) == Apply(ApplyAll(m, cmds), c)
  {
    assert (cmds + [c])[..|cmds|] == cmds;
  }

  lemma {:induction false} ApplyJoin(m: map<string, string>, a: seq<Command>, b: seq<Command>)
    ensures ApplyAll(m, a + b) == ApplyAll(ApplyAll(m, a), b)
  {
    if b == [] {
      assert a + b == a;
    } else {
      var init := b[..|b| - 1];
      assert a + b == (a + init) + [b[|b| - 1]];
      ApplyMore(m, a + init, b[|b| - 1]);
      ApplyJoin(m, a, init);
    }
  }

  lemma {:induction false} RemovalsRemove(m: map<string, string>, s: seq<Grp>)
    ensures ApplyAll(m, Removals(s)) == m - Table(s, Removed, Type).Keys
  {
    if s != [] {
      var init, g := s[..|s| - 1], s[|s| - 1];
      RemovalsRemove(m, init);
      hide Removed, ApplyAll;
      if Removed(g) {
        assert Removals(s) == Removals(init) + [RmGroup(g.name)];
        hide Removals;
        ApplyMore(m, Removals(init), RmGroup(g.name));
        assert Table(s, Removed, Type).Keys == Table(init, Removed, Type).Keys + {g.name};
      } else {
        assert Removals(s) == Removals(init);
      }
    }
  }

  lemma {:induction false} AdditionsAdd(m: map<string, string>, s: seq<Grp>)
    ensures ApplyAll(m, Additions(s)) == m + Table(s, NeedsCommand, OutType)
  {
    if s != [] {
      var init, g := s[..|s| - 1], s[|s| - 1];
      AdditionsAdd(m, init);
      hide NeedsCommand, ApplyAll;
      var c := if g.host.Host2? then NewGroup(g.name, g.outType) else ChangeGroup(g.name, g.outType);
      if NeedsCommand(g) {
        assert Additions(s) == Additions(init) + [c];
        hide Additions;
        ApplyMore(m, Additions(init), c);
        assert (m + Table(init, NeedsCommand, OutType))[g.name := g.outType] ==
               m + Table(init, NeedsCommand, OutType)[g.name := g.outType];
      } else {
        assert Additions(s) == Additions(init);
      }
    }
  }

  lemma {:induction false} FileListed(s: seq<Grp>)
    ensures Listed(ActiveFile(s)) == Table(s, Keep, OutType)
  {
    if s != [] {
      var init, g := s[..|s| - 1], s[|s| - 1];
      FileListed(init);
      if Keep(g) {
        var l := Line(g.name, g.outHi, g.outLow, g.outType);
        assert (ActiveFile(init) + [l])[..|ActiveFile(init)|] == ActiveFile(init);
      } else {
        assert ActiveFile(s) == ActiveFile(init);
      }
    }
  }

  /** No name is put out twice, and only groups of host 1 are removed. */
  predicate Clean(s: seq<Grp>) {
    && Distinct(s)
    && (forall i, j | 0 <= i < j < |s| && Keep(s[i]) && Keep(s[j]) :: s[i].name != s[j].name)
    && (forall i | 0 <= i < |s| && s[i].remove :: s[i].host.Host1?)
  }

  /** The commands turn host 1's active file into what the new active file says, plus the groups of host 1 that were not
      put out at all.  It matters that groups are removed first: a group in error may be removed and added again. */
  lemma ScriptIsFile(s: seq<Grp>)
    requires Clean(s)
    ensures ApplyAll(Table(s, Of1, Type), Script(s)) == Table(s, Left1, Type) + Listed(ActiveFile(s))
  {
    var m := Table(s, Of1, Type);
    ApplyJoin(m, Removals(s), Additions(s));
    RemovalsRemove(m, s);
    AdditionsAdd(m - Table(s, Removed, Type).Keys, s);
    FileListed(s);
    var l := m - Table(s, Removed, Type).Keys + Table(s, NeedsCommand, OutType);
    var r := Table(s, Left1, Type) + Table(s, Keep, OutType);
    forall n: string ensures n in l <==> n in r
                     ensures n in l ==> l[n] == r[n] {
      NameByName(s, n);
    }
    assert l == r;
  }

  predicate LostName(s: seq<Grp>, i: nat, j: nat, n: string) {
    i < |s| && j < |s| && Keep(s[i]) && Removed(s[j]) && s[i].name == n && s[j].name == n
  }

  /** For any array: the script loses a group of the new file if and only if it is also removed, and no command adds it
      again. */
  lemma LostByScript(s: seq<Grp>, n: string)
    ensures n in Listed(ActiveFile(s)) && n !in ApplyAll(Table(s, Of1, Type), Script(s)) <==>
            (exists i: nat, j: nat :: LostName(s, i, j, n))
            && forall k | 0 <= k < |s| && NeedsCommand(s[k]) :: s[k].name != n
  {
    var m := Table(s, Of1, Type);
    ApplyJoin(m, Removals(s), Additions(s));
    RemovalsRemove(m, s);
    AdditionsAdd(m - Table(s, Removed, Type).Keys, s);
    FileListed(s);
    TableHas(s, Of1, Type, n);
    TableHas(s, Removed, Type, n);
    TableHas(s, NeedsCommand, OutType, n);
    TableHas(s, Keep, OutType, n);
    hide Table, ApplyAll, Additions, Removals, Listed, ActiveFile;
    var after := ApplyAll(m, Script(s));
    assert after == m - Table(s, Removed, Type).Keys + Table(s, NeedsCommand, OutType);
    assert n in after <==>
           n in Table(s, NeedsCommand, OutType) || (n in m && n !in Table(s, Removed, Type));
    if n in Listed(ActiveFile(s)) && n !in after {
      var i :| 0 <= i < |s| && Keep(s[i]) && s[i].name == n;
      assert s[i].host.Host1? && Of1(s[i]);
      var j :| 0 <= j < |s| && Removed(s[j]) && s[j].name == n;
      assert LostName(s, i, j, n);
    }
    if i: nat, j: nat :| LostName(s, i, j, n) {
      assert Keep(s[i]) && Removed(s[j]);
    }
  }

  lemma NameByName(s: seq<Grp>, n: string)
    requires Clean(s)
    ensures var l := Table(s, Of1, Type) - Table(s, Removed, Type).Keys + Table(s, NeedsCommand, OutType);
            var r := Table(s, Left1, Type) + Table(s, Keep, OutType);
            (n in l <==> n in r) && (n in l ==> l[n] == r[n])
  {
    TableHas(s, Of1, Type, n);
    TableHas(s, Removed, Type, n);
    TableHas(s, NeedsCommand, OutType, n);
    TableHas(s, Left1, Type, n);
    TableHas(s, Keep, OutType, n);
    hide Table;
  }

  // --- what the merge means -------------------------------------------------------------------

  predicate Untouched(s: seq<Grp>) {
    forall i | 0 <= i < |s| :: !s[i].output && !s[i].remove
  }

  ghost predicate MergedAll(s: seq<Grp>, t: seq<Grp>, o: Options) {
    |s| == |t| && forall i | 0 <= i < |s| :: Merged(s, i, t[i], o)
  }

  lemma MergedEntry(s: seq<Grp>, t: seq<Grp>, i: nat, o: Options)
    requires Distinct(s) && Untouched(s) && MergedAll(s, t, o) && i < |s|
    ensures SameLine(s[i], t[i]) && t[i].errors == s[i].errors && (t[i].remove ==> t[i].host.Host1?)
    ensures Keep(t[i]) <==> Passes(s[i]) && if s[i].host.Host2? then !HasMate(s, i) else HasMate(s, i) || o.merge
    ensures Keep(t[i]) && s[i].host.Host2? ==> t[i].outType == s[i].typ
    ensures Keep(t[i]) && s[i].host.Host1? ==>
              if HasMate(s, i) then exists j :: 0 <= j < |s| && Mates(s, i, j) && t[i].outType == s[j].typ
              else t[i].outType == s[i].typ
  {
    assert Merged(s, i, t[i], o);
    assert forall j | 0 <= j < i :: !Twin(s, i, j);
  }

  /** What is kept passes; of host 1 it is the first entry for its group, of host 2 the first for a group of its own or
      the second for one of both hosts. */
  lemma KeptIs(s: seq<Grp>, t: seq<Grp>, i: nat, o: Options)
    requires Untouched(s) && MergedAll(s, t, o) && i < |s| && Keep(t[i])
    ensures t[i].name == s[i].name && Passes(s[i])
    ensures if s[i].host.Host2? && HasMate(s, i) then Again(s, i, i) && !AgainTwice(s, i, i) else !Again(s, i, i)
  {
    assert Merged(s, i, t[i], o);
  }

  /** Entry `i` is the second one that passes on host 2 for a group that passes on both hosts. */
  predicate SecondOfBoth(s: seq<Grp>, i: nat)
    requires i < |s|
  {
    Passes(s[i]) && s[i].host.Host2? && HasMate(s, i) && Again(s, i, i) && !AgainTwice(s, i, i)
  }

  predicate TwiceKept(t: seq<Grp>, i: nat, j: nat) {
    i < j < |t| && Keep(t[i]) && Keep(t[j]) && t[i].name == t[j].name
  }

  /** A group is put out twice if and only if it passes on both hosts and more than once on host 2. */
  lemma PutOutTwice(s: seq<Grp>, t: seq<Grp>, o: Options)
    requires Sorted(s) && Untouched(s) && MergedAll(s, t, o)
    ensures (exists i, j :: TwiceKept(t, i, j)) <==> exists i :: 0 <= i < |s| && SecondOfBoth(s, i)
  {
    if i, j :| TwiceKept(t, i, j) {
      KeptIs(s, t, i, o);
      KeptIs(s, t, j, o);
      KeptTwice(s, i, j);
    }
    if i :| 0 <= i < |s| && SecondOfBoth(s, i) {
      var h := FirstPassing(s, i);
      assert Merged(s, h, t[h], o) && Merged(s, i, t[i], o);
      assert Mates(s, h, i);
      assert TwiceKept(t, h, i);
    }
  }

  lemma KeptTwice(s: seq<Grp>, i: nat, j: nat)
    requires Sorted(s) && i < j < |s| && s[i].name == s[j].name && Passes(s[i]) && Passes(s[j])
    requires if s[i].host.Host2? && HasMate(s, i) then Again(s, i, i) && !AgainTwice(s, i, i) else !Again(s, i, i)
    requires if s[j].host.Host2? && HasMate(s, j) then Again(s, j, j) && !AgainTwice(s, j, j) else !Again(s, j, j)
    ensures SecondOfBoth(s, j)
  {
    HostOrder(s, i, j);
    if s[i].host == s[j].host {
      assert Twin(s, j, i);
    } else {
      assert Mates(s, j, i);
    }
  }

  /** The first entry of host 1 that passes for the group of entry `i`. */
  lemma FirstPassing(s: seq<Grp>, i: nat) returns (h: nat)
    requires Sorted(s) && i < |s| && SecondOfBoth(s, i)
    ensures h < i && s[h].host.Host1? && Passes(s[h]) && s[h].name == s[i].name && !Again(s, h, h)
  {
    MateIsBefore(s, i, i);
    h :| 0 <= h < i && Mates(s, i, h);
    h := Earliest(s, h);
  }

  lemma {:induction false} Earliest(s: seq<Grp>, i: nat) returns (h: nat)
    requires i < |s| && Passes(s[i])
    ensures h <= i && Twin(s, i, h) && !Again(s, h, h)
  {
    if Again(s, i, i) {
      var j :| 0 <= j < i && Twin(s, i, j);
      h := Earliest(s, j);
    } else {
      h := i;
    }
  }

  /** Entry `i` is the one of its group on host 1 that is kept, and entry `j` another one, either later or in error. */
  predicate TwiceOnHost1(s: seq<Grp>, i: nat, j: nat, o: Options) {
    && i < |s| && j < |s| && i != j && s[i].host.Host1? && s[j].host.Host1? && s[i].name == s[j].name
    && Passes(s[i]) && !Again(s, i, i) && (o.merge || HasMate(s, i))
    && (i < j || s[j].errors != {})
  }

  /** The group of entry `i` of host 1 is kept, and entry `j` has it removed. */
  predicate KeptRemoved(t: seq<Grp>, i: nat, j: nat) {
    i < |t| && j < |t| && t[i].host.Host1? && Keep(t[i]) && Removed(t[j]) && t[i].name == t[j].name
  }

  /** A group of host 1 is kept and removed at the same time if and only if host 1 names it twice, but for an earlier
      line that is only ignored.  Errors of aliases are left out here. */
  lemma DuplicateRemoved(s: seq<Grp>, t: seq<Grp>, u: seq<Grp>, o: Options)
    requires Untouched(s) && MergedAll(s, t, o) && Ended(t, u, false)
    ensures (exists i, j :: KeptRemoved(u, i, j)) <==> exists i, j :: TwiceOnHost1(s, i, j, o)
  {
    hide Again, HasMate;
    if i, j :| KeptRemoved(u, i, j) {
      RemovedTwice(s, t, u, i, j, o);
    }
    if i, j :| TwiceOnHost1(s, i, j, o) {
      TwiceRemoved(s, t, u, i, j, o);
    }
  }

  lemma RemovedTwice(s: seq<Grp>, t: seq<Grp>, u: seq<Grp>, i: nat, j: nat, o: Options)
    requires Untouched(s) && MergedAll(s, t, o) && Ended(t, u, false) && KeptRemoved(u, i, j)
    ensures TwiceOnHost1(s, i, j, o)
  {
    assert Merged(s, i, t[i], o) && Merged(s, j, t[j], o);
    assert i != j && Keep(t[i]) && t[i].errors == {};
    assert s[i].host.Host1? && s[i].name == s[j].name;
    if Again(s, j, j) {
      var k :| 0 <= k < j && Twin(s, j, k);
      assert j < i && s[j].host.Host1? ==> Twin(s, i, k);
    } else if t[j].errors == {} {
      assert Passes(s[j]) && s[j].host.Host1?;
      assert if i < j then Twin(s, j, i) else Twin(s, i, j);
    }
  }

  lemma TwiceRemoved(s: seq<Grp>, t: seq<Grp>, u: seq<Grp>, i: nat, j: nat, o: Options)
    requires Untouched(s) && MergedAll(s, t, o) && Ended(t, u, false) && TwiceOnHost1(s, i, j, o)
    ensures KeptRemoved(u, i, j)
  {
    assert Merged(s, i, t[i], o) && Merged(s, j, t[j], o);
    assert i < j ==> Twin(s, j, i);
    assert Dup in t[j].errors || t[j].errors == s[j].errors;
  }

  lemma MergeClean(s: seq<Grp>, t: seq<Grp>, o: Options)
    requires Distinct(s) && Untouched(s) && MergedAll(s, t, o)
    ensures Clean(t)
  {
    forall i | 0 <= i < |s|
      ensures SameLine(s[i], t[i]) && (t[i].remove ==> t[i].host.Host1?)
      ensures Keep(t[i]) ==> Passes(s[i]) && (s[i].host.Host2? ==> !HasMate(s, i))
    {
      MergedEntry(s, t, i, o);
    }
    forall i, j | 0 <= i < j < |t| && Keep(t[i]) && Keep(t[j]) ensures t[i].name != t[j].name {
      assert s[i].name == s[j].name && s[i].host != s[j].host && Passes(s[i]) && Passes(s[j]) ==>
          Mates(s, i, j) && Mates(s, j, i);
    }
  }

  /** The groups that are kept are host 2's, and with -m also those of host 1, where host 2's type wins. */
  lemma MergeResult(s: seq<Grp>, t: seq<Grp>, o: Options)
    requires Distinct(s) && Untouched(s) && MergedAll(s, t, o)
    ensures Listed(ActiveFile(t)) ==
            (if o.merge then Table(s, Passes1, Type) else map[]) + Table(s, Passes2, Type)
  {
    FileListed(t);
    var l := Table(t, Keep, OutType);
    var r := (if o.merge then Table(s, Passes1, Type) else map[]) + Table(s, Passes2, Type);
    forall n: string ensures (n in l <==> n in r) && (n in l ==> l[n] == r[n]) {
      ResultByName(s, t, o, n);
    }
    assert l == r;
  }

  lemma ResultByName(s: seq<Grp>, t: seq<Grp>, o: Options, n: string)
    requires Distinct(s) && Untouched(s) && MergedAll(s, t, o)
    ensures var l := Table(t, Keep, OutType);
            var r := (if o.merge then Table(s, Passes1, Type) else map[]) + Table(s, Passes2, Type);
            (n in l <==> n in r) && (n in l ==> l[n] == r[n])
  {
    TableHas(t, Keep, OutType, n);
    TableHas(s, Passes1, Type, n);
    TableHas(s, Passes2, Type, n);
    forall k | 0 <= k < |t| && Keep(t[k]) ensures Sourced(s, o, t[k].name, t[k].outType) {
      KeptHasSource(s, t, k, o);
    }
    forall i | 0 <= i < |s| && (Passes2(s[i]) || (o.merge && Passes1(s[i])))
      ensures exists k :: 0 <= k < |t| && Keep(t[k]) && t[k].name == s[i].name
    {
      SourceIsKept(s, t, i, o);
    }
    hide Table, MergedAll, Untouched, Passes, Keep;
  }

  /** The type is that of a group of host 2 that passes, or if there is none and hosts are merged of one of host 1. */
  predicate Sourced(s: seq<Grp>, o: Options, name: string, typ: string) {
    if exists j :: 0 <= j < |s| && Passes2(s[j]) && s[j].name == name then
      forall j | 0 <= j < |s| && Passes2(s[j]) && s[j].name == name :: typ == s[j].typ
    else
      o.merge && (exists i :: 0 <= i < |s| && Passes1(s[i]) && s[i].name == name)
      && forall i | 0 <= i < |s| && Passes1(s[i]) && s[i].name == name :: typ == s[i].typ
  }

  lemma KeptHasSource(s: seq<Grp>, t: seq<Grp>, k: nat, o: Options)
    requires Distinct(s) && Untouched(s) && MergedAll(s, t, o) && k < |t| && Keep(t[k])
    ensures Sourced(s, o, t[k].name, t[k].outType)
  {
    MergedEntry(s, t, k, o);
    hide MergedAll, Untouched, Keep;
    var n := s[k].name;
    forall j | 0 <= j < |s| && Passes2(s[j]) && s[j].name == n
      ensures t[k].outType == s[j].typ
    {
      if s[k].host.Host1? {
        assert Mates(s, k, j);
      }
    }
    if s[k].host.Host1? && HasMate(s, k) {
      var j :| 0 <= j < |s| && Mates(s, k, j);
      assert Passes2(s[j]);
    }
  }

  lemma SourceIsKept(s: seq<Grp>, t: seq<Grp>, i: nat, o: Options)
    requires Distinct(s) && Untouched(s) && MergedAll(s, t, o) && i < |s|
    requires Passes2(s[i]) || (o.merge && Passes1(s[i]))
    ensures exists k :: 0 <= k < |t| && Keep(t[k]) && t[k].name == s[i].name
  {
    MergedEntry(s, t, i, o);
    if s[i].host.Host2? && HasMate(s, i) {
      var k :| 0 <= k < |s| && Mates(s, i, k);
      assert Mates(s, k, i);
      MergedEntry(s, t, k, o);
    } else {
      assert Keep(t[i]);
    }
  }

  // --- aliases --------------------------------------------------------------------------------

  predicate IsAlias(g: Grp) {
    g.typ != "" && g.typ[0] == '='
  }

  /** A group that an alias of the host can refer to, or the alias itself. */
  predicate Sound(g: Grp, host: Host) {
    g.host == host && g.errors == {}
  }

  /** The name an alias stands for. */
  function Target(g: Grp): string
    requires IsAlias(g)
  {
    g.typ[1..]
  }

  /** The name belongs to a group of the host that is not an alias, or to an alias from which such a group is reached in
      at most `n` more hops. */
  ghost predicate Leads(s: seq<Grp>, host: Host, name: string, n: nat)
    decreases n
  {
    exists i :: 0 <= i < |s| && Sound(s[i], host) && s[i].name == name &&
      (!IsAlias(s[i]) || (n > 0 && Leads(s, host, Target(s[i]), n - 1)))
  }

  lemma {:induction false} LeadsLonger(s: seq<Grp>, host: Host, name: string, n: nat, m: nat)
    requires Leads(s, host, name, n) && n <= m
    ensures Leads(s, host, name, m)
    decreases n
  {
    var i :| 0 <= i < |s| && Sound(s[i], host) && s[i].name == name &&
      (!IsAlias(s[i]) || (n > 0 && Leads(s, host, Target(s[i]), n - 1)));
    if IsAlias(s[i]) {
      LeadsLonger(s, host, Target(s[i]), n - 1, m - 1);
    }
  }

  /** A record for an alias that is being resolved: its index, and the name it has been followed to. */
  datatype Eq = Eq(skip: bool, g: nat, eq: string)

  /** The order for resolving: records to be skipped come last, then by the name that is looked for. */
  function EqCmp(a: Eq, b: Eq, s: seq<Grp>): int
    requires a.g < |s| && b.g < |s|
  {
    if a.skip != b.skip then if a.skip then 1 else -1
    else
      var i := StrCmp(a.eq, b.eq);
      if i != 0 then i
      else
        var j := StrCmp(s[a.g].name, s[b.g].name);
        if j != 0 then j
        else if s[a.g].host != s[b.g].host then Before(HostNumber(s[a.g].host), HostNumber(s[b.g].host))
        else Before(s[a.g].line, s[b.g].line)
  }

  function InsertEq(r: Eq, eqs: seq<Eq>, s: seq<Grp>): (t: seq<Eq>)
    requires r.g < |s| && forall x | x in eqs :: x.g < |s|
    ensures |t| == |eqs| + 1 && (forall x :: x in t <==> x in eqs || x == r)
  {
    if eqs == [] || EqCmp(r, eqs[0], s) <= 0 then [r] + eqs
    else
      assert eqs == [eqs[0]] + eqs[1..];
      [eqs[0]] + InsertEq(r, eqs[1..], s)
  }

  function SortEqs(eqs: seq<Eq>, s: seq<Grp>): (t: seq<Eq>)
    requires forall x | x in eqs :: x.g < |s|
    ensures |t| == |eqs| && (forall x :: x in t <==> x in eqs)
  {
    if eqs == [] then []
    else
      assert eqs == [eqs[0]] + eqs[1..];
      InsertEq(eqs[0], SortEqs(eqs[1..], s), s)
  }

  function Unskipped(eqs: seq<Eq>): (n: nat)
    ensures n <= |eqs|
  {
    if eqs == [] then 0 else (if eqs[0].skip then 0 else 1) + Unskipped(eqs[1..])
  }

  predicate SkipsLast(eqs: seq<Eq>) {
    forall i, j | 0 <= i < j < |eqs| && eqs[i].skip :: eqs[j].skip
  }

  lemma {:induction false} InsertKeeps(r: Eq, eqs: seq<Eq>, s: seq<Grp>)
    requires r.g < |s| && (forall x | x in eqs :: x.g < |s|) && SkipsLast(eqs)
    ensures SkipsLast(InsertEq(r, eqs, s))
    ensures Unskipped(InsertEq(r, eqs, s)) == Unskipped(eqs) + if r.skip then 0 else 1
  {
    if !(eqs == [] || EqCmp(r, eqs[0], s) <= 0) {
      InsertKeeps(r, eqs[1..], s);
      var t := InsertEq(r, eqs[1..], s);
      assert ([eqs[0]] + t)[1..] == t;
      forall x | x in t && eqs[0].skip ensures x.skip {
        if x != r {
          var k :| 0 <= k < |eqs[1..]| && eqs[1..][k] == x;
          assert eqs[k + 1] == x;
        }
      }
    } else {
      assert ([r] + eqs)[1..] == eqs;
    }
  }

  lemma {:induction false} SortSplits(eqs: seq<Eq>, s: seq<Grp>)
    requires forall x | x in eqs :: x.g < |s|
    ensures SkipsLast(SortEqs(eqs, s)) && Unskipped(SortEqs(eqs, s)) == Unskipped(eqs)
  {
    if eqs != [] {
      assert forall x | x in eqs[1..] :: x in eqs;
      SortSplits(eqs[1..], s);
      InsertKeeps(eqs[0], SortEqs(eqs[1..], s), s);
    }
  }

  /** The records that are not skipped are the first ones. */
  lemma {:induction false} FirstUnskipped(eqs: seq<Eq>)
    requires SkipsLast(eqs)
    ensures Unskipped(eqs) <= |eqs|
    ensures forall i | 0 <= i < |eqs| :: eqs[i].skip <==> i >= Unskipped(eqs)
  {
    if eqs != [] {
      FirstUnskipped(eqs[1..]);
      if eqs[0].skip {
        assert forall i | 0 <= i < |eqs| :: eqs[i].skip;
        NoneUnskipped(eqs);
      } else {
        assert forall i | 0 < i < |eqs| :: eqs[i] == eqs[1..][i - 1];
      }
    }
  }

  lemma {:induction false} NoneUnskipped(eqs: seq<Eq>)
    requires forall i | 0 <= i < |eqs| :: eqs[i].skip
    ensures Unskipped(eqs) == 0
  {
    if eqs != [] {
      NoneUnskipped(eqs[1..]);
    }
  }

  lemma {:induction false} UnskippedUpdate(eqs: seq<Eq>, j: nat, r: Eq)
    requires j < |eqs|
    ensures Unskipped(eqs[j := r]) == Unskipped(eqs) - (if eqs[j].skip then 0 else 1) + if r.skip then 0 else 1
  {
    if j > 0 {
      UnskippedUpdate(eqs[1..], j - 1, r);
      assert eqs[j := r][1..] == eqs[1..][j - 1 := r];
    } else {
      assert eqs[j := r][1..] == eqs[1..];
    }
  }

  lemma {:induction false} UnskippedJoin(a: seq<Eq>, b: seq<Eq>)
    ensures Unskipped(a + b) == Unskipped(a) + Unskipped(b)
  {
    if a == [] {
      assert a + b == b;
    } else {
      UnskippedJoin(a[1..], b);
      assert (a + b)[1..] == a[1..] + b;
    }
  }

  /** Only errors were added, and only to sound aliases of the host. */
  predicate Grown(s: seq<Grp>, t: seq<Grp>, host: Host) {
    |s| == |t| && forall i | 0 <= i < |s| ::
      && t[i] == s[i].(errors := t[i].errors) && s[i].errors <= t[i].errors
      && (t[i].errors != s[i].errors ==> IsAlias(s[i]) && Sound(s[i], host))
  }

  /** Entry `g` gets an error. */
  function Flag(t: seq<Grp>, g: nat, p: Problem): seq<Grp>
    requires g < |t|
  {
    t[g := t[g].(errors := t[g].errors + {p})]
  }

  predicate InArray(eqs: seq<Eq>, n: nat) {
    forall x | 0 <= x < |eqs| :: eqs[x].g < n
  }

  predicate SameGs(eqs: seq<Eq>, fs: seq<Eq>) {
    |eqs| == |fs| && forall x | 0 <= x < |eqs| :: eqs[x].g == fs[x].g
  }

  /** The rest of a round, from entry `i` and record `j` on: the array and the first `n` records are walked with two
      cursors, as in a merge. */
  function Follow(t: seq<Grp>, host: Host, eqs: seq<Eq>, i: nat, j: nat, n: nat): (r: (seq<Grp>, seq<Eq>))
    requires InArray(eqs, |t|) && i <= |t| && j <= n <= |eqs|
    ensures |r.0| == |t| && SameGs(eqs, r.1)
    decreases |t| - i + n - j
  {
    if j == n then (t, eqs)
    else
      var done := eqs[j := eqs[j].(skip := true)];
      if i == |t| then Follow(Flag(t, eqs[j].g, NonEq), host, done, i, j + 1, n)
      else if !Sound(t[i], host) then Follow(t, host, eqs, i + 1, j, n)
      else
        var cmp := StrCmp(t[i].name, eqs[j].eq);
        if cmp < 0 then Follow(t, host, eqs, i + 1, j, n)
        else if cmp > 0 then Follow(Flag(t, eqs[j].g, NonEq), host, done, i + 1, j + 1, n)
        else if t[i].name == t[eqs[j].g].name then Follow(Flag(t, eqs[j].g, EqLoop), host, done, i, j + 1, n)
        else if !IsAlias(t[i]) then Follow(t, host, done, i, j + 1, n)
        else Follow(t, host, eqs[j := eqs[j].(eq := Target(t[i]))], i, j + 1, n)
  }

  /** One round of resolving.  The first `eqCnt` records are still to be resolved. */
  method FollowAll(grp: array<Grp>, host: Host, eqs0: seq<Eq>, eqCnt: nat) returns (eqs: seq<Eq>, newCnt: nat)
    requires InArray(eqs0, grp.Length)
    requires eqCnt <= |eqs0| && forall x | 0 <= x < |eqs0| :: eqs0[x].skip <==> x >= eqCnt
    modifies grp
    ensures (grp[..], eqs) == Follow(old(grp[..]), host, eqs0, 0, 0, eqCnt)
    ensures newCnt == Unskipped(eqs) <= eqCnt && forall x | eqCnt <= x < |eqs| :: eqs[x].skip
  {
    hide Unskipped, Follow;
    eqs, newCnt := eqs0, eqCnt;
    CountFirst(eqs, eqCnt);
    var i, j: nat := 0, 0;
    while i < grp.Length && j < eqCnt
      invariant i <= grp.Length && j <= eqCnt && SameGs(eqs0, eqs)
      invariant Follow(grp[..], host, eqs, i, j, eqCnt) == Follow(old(grp[..]), host, eqs0, 0, 0, eqCnt)
      invariant forall x | 0 <= x < |eqs| && x >= j :: eqs[x].skip <==> x >= eqCnt
      invariant newCnt == Unskipped(eqs) && eqCnt - j <= newCnt <= eqCnt
      decreases grp.Length - i + eqCnt - j
    {
      FollowStep(grp[..], host, eqs, i, j, eqCnt);
      if grp[i].host != host || grp[i].errors != {} {
        i := i + 1;
      } else {
        var cmp := StrCmp(grp[i].name, eqs[j].eq);
        if cmp == 0 {
          if grp[i].name == grp[eqs[j].g].name {
            UnskippedUpdate(eqs, j, eqs[j].(skip := true));
            Mark(grp, eqs[j].g, EqLoop);
            eqs, newCnt := eqs[j := eqs[j].(skip := true)], newCnt - 1;
          } else if !IsAlias(grp[i]) {
            UnskippedUpdate(eqs, j, eqs[j].(skip := true));
            eqs, newCnt := eqs[j := eqs[j].(skip := true)], newCnt - 1;
          } else {
            UnskippedUpdate(eqs, j, eqs[j].(eq := Target(grp[i])));
            eqs := eqs[j := eqs[j].(eq := Target(grp[i]))];
          }
          j := j + 1;
        } else if cmp > 0 {
          UnskippedUpdate(eqs, j, eqs[j].(skip := true));
          Mark(grp, eqs[j].g, NonEq);
          eqs, newCnt := eqs[j := eqs[j].(skip := true)], newCnt - 1;
          j := j + 1;
          i := i + 1;
        } else {
          i := i + 1;
        }
      }
    }
    while j < eqCnt
      invariant i <= grp.Length && j <= eqCnt && SameGs(eqs0, eqs) && (j < eqCnt ==> i == grp.Length)
      invariant Follow(grp[..], host, eqs, i, j, eqCnt) == Follow(old(grp[..]), host, eqs0, 0, 0, eqCnt)
      invariant forall x | 0 <= x < |eqs| && x >= j :: eqs[x].skip <==> x >= eqCnt
      invariant newCnt == Unskipped(eqs) && eqCnt - j <= newCnt <= eqCnt
    {
      FollowStep(grp[..], host, eqs, i, j, eqCnt);
      UnskippedUpdate(eqs, j, eqs[j].(skip := true));
      Mark(grp, eqs[j].g, NonEq);
      eqs, newCnt := eqs[j := eqs[j].(skip := true)], newCnt - 1;
      j := j + 1;
    }
    FollowEnd(grp[..], host, eqs, i, eqCnt);
  }

  lemma FollowStep(t: seq<Grp>, host: Host, eqs: seq<Eq>, i: nat, j: nat, n: nat)
    requires InArray(eqs, |t|) && i <= |t| && j < n <= |eqs|
    ensures Follow(t, host, eqs, i, j, n) ==
            var done := eqs[j := eqs[j].(skip := true)];
            if i == |t| then Follow(Flag(t, eqs[j].g, NonEq), host, done, i, j + 1, n)
            else if !Sound(t[i], host) then Follow(t, host, eqs, i + 1, j, n)
            else
              var cmp := StrCmp(t[i].name, eqs[j].eq);
              if cmp < 0 then Follow(t, host, eqs, i + 1, j, n)
              else if cmp > 0 then Follow(Flag(t, eqs[j].g, NonEq), host, done, i + 1, j + 1, n)
              else if t[i].name == t[eqs[j].g].name then Follow(Flag(t, eqs[j].g, EqLoop), host, done, i, j + 1, n)
              else if !IsAlias(t[i]) then Follow(t, host, done, i, j + 1, n)
              else Follow(t, host, eqs[j := eqs[j].(eq := Target(t[i]))], i, j + 1, n)
  {}

  lemma FollowEnd(t: seq<Grp>, host: Host, eqs: seq<Eq>, i: nat, n: nat)
    requires InArray(eqs, |t|) && i <= |t| && n <= |eqs|
    ensures Follow(t, host, eqs, i, n, n) == (t, eqs)
  {}

  method Mark(grp: array<Grp>, g: nat, p: Problem)
    requires g < grp.Length
    modifies grp
    ensures grp[..] == Flag(old(grp[..]), g, p)
  {
    grp[g] := grp[g].(errors := grp[g].errors + {p});
  }

  lemma CountFirst(eqs: seq<Eq>, n: nat)
    requires n <= |eqs| && forall x | 0 <= x < |eqs| :: eqs[x].skip <==> x >= n
    ensures Unskipped(eqs) == n
  {
    FirstUnskipped(eqs);
    var u := Unskipped(eqs);
    assert n < |eqs| ==> (eqs[n].skip <==> n >= u);
    assert u < |eqs| ==> (eqs[u].skip <==> u >= n);
  }

  /** Sorts the first `n` records. */
  function SortFirst(eqs: seq<Eq>, n: nat, s: seq<Grp>): (fs: seq<Eq>)
    requires n <= |eqs| && InArray(eqs, |s|)
    ensures |fs| == |eqs| && forall x :: x in fs <==> x in eqs
    ensures InArray(fs, |s|)
  {
    assert forall x | x in eqs[..n] :: x in eqs;
    assert eqs == eqs[..n] + eqs[n..];
    var fs := SortEqs(eqs[..n], s) + eqs[n..];
    assert forall x | 0 <= x < |fs| :: fs[x] in eqs;
    fs
  }

  lemma SortFirstSkips(eqs: seq<Eq>, n: nat, s: seq<Grp>)
    requires n <= |eqs| && InArray(eqs, |s|) && forall x | n <= x < |eqs| :: eqs[x].skip
    ensures var fs := SortFirst(eqs, n, s);
            Unskipped(eqs) <= n && forall x | 0 <= x < |fs| :: fs[x].skip <==> x >= Unskipped(eqs)
  {
    hide *;
    var a, b := eqs[..n], eqs[n..];
    assert eqs == a + b;
    assert forall x | x in a :: x.g < |s| by {
      assert forall x | x in a :: x in eqs;
      InArrayHas(eqs, |s|);
    }
    var c := SortEqs(a, s);
    SortFirstIs(eqs, n, s);
    SortSplits(a, s);
    FirstUnskipped(c);
    UnskippedJoin(a, b);
    NoneUnskipped(b);
    assert forall x | 0 <= x < |c + b| :: (c + b)[x] == if x < |c| then c[x] else b[x - |c|];
  }

  lemma InArrayHas(eqs: seq<Eq>, m: nat)
    requires InArray(eqs, m)
    ensures forall x | x in eqs :: x.g < m
  {}

  lemma SortFirstIs(eqs: seq<Eq>, n: nat, s: seq<Grp>)
    requires n <= |eqs| && InArray(eqs, |s|) && forall x | x in eqs[..n] :: x.g < |s|
    ensures SortFirst(eqs, n, s) == SortEqs(eqs[..n], s) + eqs[n..]
  {
    hide SortEqs;
  }

  /** The records of the sound aliases among the first `i` entries. */
  function Collected(t: seq<Grp>, host: Host, i: nat): (eqs: seq<Eq>)
    requires i <= |t|
    ensures InArray(eqs, |t|) && forall x | 0 <= x < |eqs| :: !eqs[x].skip
  {
    if i == 0 then []
    else if Sound(t[i - 1], host) && IsAlias(t[i - 1]) then
      Collected(t, host, i - 1) + [Eq(false, i - 1, Target(t[i - 1]))]
    else Collected(t, host, i - 1)
  }

  /** The rounds from the `k`th on. */
  function Rounds(t: seq<Grp>, host: Host, eqs: seq<Eq>, n: nat, k: nat): (r: (seq<Grp>, seq<Eq>, nat))
    requires InArray(eqs, |t|) && n <= |eqs| && k <= EQ_LOOP
    ensures |r.0| == |t| && InArray(r.1, |t|) && r.2 <= |r.1|
    decreases EQ_LOOP - k
  {
    var fs, m := SortFirst(eqs, n, t), Unskipped(eqs);
    if k == EQ_LOOP then (t, fs, m)
    else
      var (u, gs) := Follow(t, host, fs, 0, 0, m);
      Rounds(u, host, gs, m, k + 1)
  }

  /** The aliases of the first `m` records from the `j`th on are in a chain that is too long. */
  function FlagLong(t: seq<Grp>, eqs: seq<Eq>, j: nat, m: nat): (r: seq<Grp>)
    requires InArray(eqs, |t|) && j <= m <= |eqs|
    ensures |r| == |t|
    decreases m - j
  {
    if j == m then t
    else FlagLong(if eqs[j].skip then t else Flag(t, eqs[j].g, LongLoop), eqs, j + 1, m)
  }

  /** The array after the aliases of a host were checked. */
  function Resolved(s: seq<Grp>, host: Host): (r: seq<Grp>)
    ensures |r| == |s|
  {
    var eqs := Collected(s, host, |s|);
    var (t, fs, m) := Rounds(s, host, eqs, |eqs|, 0);
    FlagLong(t, fs, 0, m)
  }

  /** Marks the aliases of a host that do not lead to a group. */
  method MarkEqProbs(grp: array<Grp>, host: Host)
    modifies grp
    ensures grp[..] == Resolved(old(grp[..]), host)
    ensures Grown(old(grp[..]), grp[..], host)
    ensures forall i | 0 <= i < grp.Length ::
              IsAlias(grp[i]) && Sound(grp[i], host) ==> Leads(old(grp[..]), host, Target(grp[i]), EQ_LOOP - 1)
    ensures Sorted(old(grp[..])) && Distinct(old(grp[..])) ==>
              (grp[..] == old(grp[..]) <==> AllLead(old(grp[..]), host))
  {
    hide Unskipped, Rounds, Leads, AllLead, Follow, SortFirst, FlagLong, Collected;
    ghost var s := grp[..];
    var eqs := Collect(grp, host);
    var eqCnt, newCnt := |eqs|, |eqs|;
    ghost var goal := Rounds(s, host, eqs, eqCnt, 0);
    CountFirst(eqs, eqCnt);
    var step := 0;
    while step < EQ_LOOP && newCnt >= 0
      invariant 0 <= step <= EQ_LOOP && newCnt == Unskipped(eqs) <= eqCnt <= |eqs| && InArray(eqs, grp.Length)
      invariant Rounds(grp[..], host, eqs, eqCnt, step) == goal
      invariant forall x | eqCnt <= x < |eqs| :: eqs[x].skip
    {
      RoundsStep(grp[..], host, eqs, eqCnt, step);
      SortFirstSkips(eqs, eqCnt, grp[..]);
      eqs := SortFirst(eqs, eqCnt, grp[..]);
      eqCnt := newCnt;
      eqs, newCnt := FollowAll(grp, host, eqs, eqCnt);
      step := step + 1;
    }
    RoundsStep(grp[..], host, eqs, eqCnt, step);
    eqs := SortFirst(eqs, eqCnt, grp[..]);
    MarkLong(grp, eqs, newCnt);
    ResolvedSound(s, host);
    if Sorted(s) && Distinct(s) {
      ResolvedExact(s, host);
    }
  }

  lemma RoundsStep(t: seq<Grp>, host: Host, eqs: seq<Eq>, n: nat, k: nat)
    requires InArray(eqs, |t|) && n <= |eqs| && k <= EQ_LOOP
    ensures var fs, m := SortFirst(eqs, n, t), Unskipped(eqs);
            Rounds(t, host, eqs, n, k) ==
            if k == EQ_LOOP then (t, fs, m)
            else
              var (u, gs) := Follow(t, host, fs, 0, 0, m);
              Rounds(u, host, gs, m, k + 1)
  {}

  /** The records of all sound aliases of the host. */
  method Collect(grp: array<Grp>, host: Host) returns (eqs: seq<Eq>)
    ensures eqs == Collected(grp[..], host, grp.Length)
  {
    eqs := [];
    var i := 0;
    while i < grp.Length
      invariant 0 <= i <= grp.Length && eqs == Collected(grp[..], host, i)
    {
      if grp[i].host == host && grp[i].errors == {} && IsAlias(grp[i]) {
        eqs := eqs + [Eq(false, i, Target(grp[i]))];
      }
      i := i + 1;
    }
  }

  /** Marks the aliases that are still not resolved. */
  method MarkLong(grp: array<Grp>, eqs: seq<Eq>, newCnt: nat)
    requires InArray(eqs, grp.Length) && newCnt <= |eqs|
    modifies grp
    ensures grp[..] == FlagLong(old(grp[..]), eqs, 0, newCnt)
  {
    var j := 0;
    while j < newCnt
      invariant 0 <= j <= newCnt && FlagLong(grp[..], eqs, j, newCnt) == FlagLong(old(grp[..]), eqs, 0, newCnt)
    {
      if !eqs[j].skip {
        Mark(grp, eqs[j].g, LongLoop);
      }
      j := j + 1;
    }
  }

  // --- soundness: an alias that gets no error leads to a group -----------------------------------

  /** Whatever the name `b` leads to, `a` leads to with `k` more hops. */
  ghost predicate Follows(s: seq<Grp>, host: Host, a: string, b: string, k: nat) {
    forall n: nat :: Leads(s, host, b, n) ==> Leads(s, host, a, n + k)
  }

  /** Resolving has reached this record with `k` hops done: it is finished, by an error or a group, or was followed. */
  ghost predicate RecOk(s: seq<Grp>, t: seq<Grp>, host: Host, r: Eq, k: nat) {
    && r.g < |s| == |t| && IsAlias(s[r.g]) && Sound(s[r.g], host)
    && if r.skip then t[r.g].errors != {} || Leads(s, host, Target(s[r.g]), EQ_LOOP - 1)
       else Follows(s, host, Target(s[r.g]), r.eq, k)
  }

  ghost predicate RecsOk(s: seq<Grp>, t: seq<Grp>, host: Host, eqs: seq<Eq>, j: nat, k: nat) {
    forall x | 0 <= x < |eqs| :: RecOk(s, t, host, eqs[x], if x < j then k + 1 else k)
  }

  lemma MarkKeeps(s: seq<Grp>, t: seq<Grp>, host: Host, eqs: seq<Eq>, j: nat, k: nat, p: Problem)
    requires Grown(s, t, host) && RecsOk(s, t, host, eqs, j, k) && j < |eqs|
    ensures var r := eqs[j];
            var u := Flag(t, r.g, p);
            Grown(s, u, host) && RecsOk(s, u, host, eqs[j := r.(skip := true)], j + 1, k)
  {
    hide Leads, Follows;
    var r := eqs[j];
    assert RecOk(s, t, host, r, k);
    var u := Flag(t, r.g, p);
    var v := eqs[j := r.(skip := true)];
    assert p in u[r.g].errors;
    forall x | 0 <= x < |v| ensures RecOk(s, u, host, v[x], if x < j + 1 then k + 1 else k) {
      assert RecOk(s, t, host, eqs[x], if x < j then k + 1 else k);
    }
  }

  /** The record is followed to the entry `i`, which has the name that is looked for. */
  lemma HopKeeps(s: seq<Grp>, t: seq<Grp>, host: Host, eqs: seq<Eq>, j: nat, k: nat, i: nat)
    requires Grown(s, t, host) && RecsOk(s, t, host, eqs, j, k) && j < |eqs| && k < EQ_LOOP
    requires !eqs[j].skip && i < |t| && Sound(t[i], host) && t[i].name == eqs[j].eq
    ensures var r := if IsAlias(t[i]) then eqs[j].(eq := Target(t[i])) else eqs[j].(skip := true);
            RecsOk(s, t, host, eqs[j := r], j + 1, k)
  {
    hide Leads, Follows;
    var r := if IsAlias(t[i]) then eqs[j].(eq := Target(t[i])) else eqs[j].(skip := true);
    assert RecOk(s, t, host, eqs[j], k);
    assert Sound(s[i], host);
    OneHop(s, host, Target(s[r.g]), eqs[j].eq, k, i);
    var v := eqs[j := r];
    forall x | 0 <= x < |v| ensures RecOk(s, t, host, v[x], if x < j + 1 then k + 1 else k) {
      assert RecOk(s, t, host, eqs[x], if x < j then k + 1 else k);
    }
  }

  lemma OneHop(s: seq<Grp>, host: Host, a: string, b: string, k: nat, i: nat)
    requires Follows(s, host, a, b, k) && i < |s| && Sound(s[i], host) && s[i].name == b && k < EQ_LOOP
    ensures if IsAlias(s[i]) then Follows(s, host, a, Target(s[i]), k + 1) else Leads(s, host, a, EQ_LOOP - 1)
  {
    if IsAlias(s[i]) {
      forall n: nat | Leads(s, host, Target(s[i]), n) ensures Leads(s, host, a, n + (k + 1)) {
        assert Leads(s, host, b, n + 1);
      }
    } else {
      assert Leads(s, host, b, 0);
      assert Leads(s, host, a, 0 + k);
      LeadsLonger(s, host, a, k, EQ_LOOP - 1);
    }
  }

  lemma RoundStart(s: seq<Grp>, t: seq<Grp>, host: Host, eqs: seq<Eq>, k: nat)
    requires RecsOk(s, t, host, eqs, 0, k)
    ensures forall x | x in eqs :: RecOk(s, t, host, x, k)
  {
    forall x | x in eqs ensures RecOk(s, t, host, x, k) {
      var y :| 0 <= y < |eqs| && eqs[y] == x;
      assert RecOk(s, t, host, eqs[y], k);
    }
  }

  lemma {:induction false} FollowSound(s: seq<Grp>, t: seq<Grp>, host: Host, eqs: seq<Eq>, i: nat, j: nat, n: nat,
                                       k: nat)
    requires Grown(s, t, host) && RecsOk(s, t, host, eqs, j, k) && InArray(eqs, |t|)
    requires i <= |t| && j <= n <= |eqs| && k < EQ_LOOP
    requires forall x | 0 <= x < |eqs| && x >= j :: eqs[x].skip <==> x >= n
    ensures var (u, fs) := Follow(t, host, eqs, i, j, n);
            && Grown(s, u, host) && RecsOk(s, u, host, fs, 0, k + 1)
            && forall x | n <= x < |fs| :: fs[x].skip
    decreases |t| - i + n - j
  {
    hide RecsOk, Grown, Follow, Leads;
    if j == n {
      FollowEnd(t, host, eqs, i, n);
      RoundDone(s, t, host, eqs, n, k);
    } else {
      FollowStep(t, host, eqs, i, j, n);
      var done := eqs[j := eqs[j].(skip := true)];
      if i == |t| {
        MarkKeeps(s, t, host, eqs, j, k, NonEq);
        FollowSound(s, Flag(t, eqs[j].g, NonEq), host, done, i, j + 1, n, k);
      } else if !Sound(t[i], host) {
        FollowSound(s, t, host, eqs, i + 1, j, n, k);
      } else {
        var cmp := StrCmp(t[i].name, eqs[j].eq);
        CmpZero(t[i].name, eqs[j].eq);
        if cmp < 0 {
          FollowSound(s, t, host, eqs, i + 1, j, n, k);
        } else if cmp > 0 {
          MarkKeeps(s, t, host, eqs, j, k, NonEq);
          FollowSound(s, Flag(t, eqs[j].g, NonEq), host, done, i + 1, j + 1, n, k);
        } else if t[i].name == t[eqs[j].g].name {
          MarkKeeps(s, t, host, eqs, j, k, EqLoop);
          FollowSound(s, Flag(t, eqs[j].g, EqLoop), host, done, i, j + 1, n, k);
        } else {
          HopKeeps(s, t, host, eqs, j, k, i);
          if !IsAlias(t[i]) {
            FollowSound(s, t, host, done, i, j + 1, n, k);
          } else {
            FollowSound(s, t, host, eqs[j := eqs[j].(eq := Target(t[i]))], i, j + 1, n, k);
          }
        }
      }
    }
  }

  lemma RoundDone(s: seq<Grp>, t: seq<Grp>, host: Host, eqs: seq<Eq>, n: nat, k: nat)
    requires RecsOk(s, t, host, eqs, n, k) && forall x | n <= x < |eqs| :: eqs[x].skip
    ensures RecsOk(s, t, host, eqs, 0, k + 1)
  {
    forall x | 0 <= x < |eqs| ensures RecOk(s, t, host, eqs[x], k + 1) {
      assert RecOk(s, t, host, eqs[x], if x < n then k + 1 else k);
    }
  }

  /** Every sound alias of the host has a record. */
  predicate Covered(s: seq<Grp>, host: Host, eqs: seq<Eq>) {
    forall i | 0 <= i < |s| && IsAlias(s[i]) && Sound(s[i], host) :: exists x :: x in eqs && x.g == i
  }

  lemma SameCover(s: seq<Grp>, host: Host, eqs: seq<Eq>, fs: seq<Eq>)
    requires Covered(s, host, eqs) && SameGs(eqs, fs)
    ensures Covered(s, host, fs)
  {
    forall i | 0 <= i < |s| && IsAlias(s[i]) && Sound(s[i], host) ensures exists x :: x in fs && x.g == i {
      var e :| e in eqs && e.g == i;
      var x :| 0 <= x < |eqs| && eqs[x] == e;
      assert fs[x] in fs && fs[x].g == i;
    }
  }

  lemma SortFirstKeeps(s: seq<Grp>, t: seq<Grp>, host: Host, eqs: seq<Eq>, n: nat, k: nat)
    requires Grown(s, t, host) && RecsOk(s, t, host, eqs, 0, k) && n <= |eqs| && Covered(s, host, eqs)
    requires InArray(eqs, |t|)
    ensures RecsOk(s, t, host, SortFirst(eqs, n, t), 0, k) && Covered(s, host, SortFirst(eqs, n, t))
  {
    RoundStart(s, t, host, eqs, k);
    hide RecOk, Grown, SortFirst, Sound, IsAlias;
    var fs := SortFirst(eqs, n, t);
    forall x | 0 <= x < |fs| ensures RecOk(s, t, host, fs[x], k) {
      assert fs[x] in eqs;
    }
  }

  lemma {:induction false} RoundsSound(s: seq<Grp>, t: seq<Grp>, host: Host, eqs: seq<Eq>, n: nat, k: nat)
    requires Grown(s, t, host) && RecsOk(s, t, host, eqs, 0, k) && Covered(s, host, eqs) && InArray(eqs, |t|)
    requires n <= |eqs| && k <= EQ_LOOP && forall x | n <= x < |eqs| :: eqs[x].skip
    ensures var (u, fs, m) := Rounds(t, host, eqs, n, k);
            && Grown(s, u, host) && RecsOk(s, u, host, fs, 0, EQ_LOOP) && Covered(s, host, fs)
            && forall x | 0 <= x < |fs| :: fs[x].skip <==> x >= m
    decreases EQ_LOOP - k
  {
    hide RecsOk, Grown, Follow, Rounds, SortFirst, Unskipped, Covered;
    RoundsStep(t, host, eqs, n, k);
    SortFirstKeeps(s, t, host, eqs, n, k);
    SortFirstSkips(eqs, n, t);
    if k < EQ_LOOP {
      var fs, m := SortFirst(eqs, n, t), Unskipped(eqs);
      FollowSound(s, t, host, fs, 0, 0, m, k);
      var (u, gs) := Follow(t, host, fs, 0, 0, m);
      SameCover(s, host, fs, gs);
      RoundsSound(s, u, host, gs, m, k + 1);
    }
  }

  lemma {:induction false} CollectedOk(s: seq<Grp>, host: Host, i: nat)
    requires i <= |s|
    ensures forall x | x in Collected(s, host, i) :: RecOk(s, s, host, x, 0)
    ensures forall m | 0 <= m < i && IsAlias(s[m]) && Sound(s[m], host) ::
              exists x :: x in Collected(s, host, i) && x.g == m
  {
    if i > 0 {
      CollectedOk(s, host, i - 1);
      hide Leads;
      var eqs, init := Collected(s, host, i), Collected(s, host, i - 1);
      assert forall x | x in init :: x in eqs;
      if Sound(s[i - 1], host) && IsAlias(s[i - 1]) {
        assert eqs[|eqs| - 1] in eqs && eqs[|eqs| - 1].g == i - 1;
      }
    }
  }

  lemma {:induction false} FlagLongSound(s: seq<Grp>, t: seq<Grp>, host: Host, eqs: seq<Eq>, j: nat, m: nat)
    requires Grown(s, t, host) && RecsOk(s, t, host, eqs, 0, EQ_LOOP) && InArray(eqs, |t|) && j <= m <= |eqs|
    requires forall x | 0 <= x < |eqs| :: eqs[x].skip <==> x >= m
    requires forall x | 0 <= x < j :: t[eqs[x].g].errors != {}
    ensures var u := FlagLong(t, eqs, j, m);
            Grown(s, u, host) && RecsOk(s, u, host, eqs, 0, EQ_LOOP)
            && forall x | 0 <= x < m :: u[eqs[x].g].errors != {}
    decreases m - j
  {
    hide RecsOk, Grown;
    if j < m {
      LongKeeps(s, t, host, eqs, j);
      var u := Flag(t, eqs[j].g, LongLoop);
      assert LongLoop in u[eqs[j].g].errors;
      assert forall i | 0 <= i < |t| :: t[i].errors <= u[i].errors;
      FlagLongSound(s, u, host, eqs, j + 1, m);
    }
  }

  lemma LongKeeps(s: seq<Grp>, t: seq<Grp>, host: Host, eqs: seq<Eq>, j: nat)
    requires Grown(s, t, host) && RecsOk(s, t, host, eqs, 0, EQ_LOOP) && j < |eqs| && InArray(eqs, |t|)
    ensures var u := Flag(t, eqs[j].g, LongLoop);
            Grown(s, u, host) && RecsOk(s, u, host, eqs, 0, EQ_LOOP)
  {
    hide Leads, Follows;
    RoundStart(s, t, host, eqs, EQ_LOOP);
    assert eqs[j] in eqs;
    var u := Flag(t, eqs[j].g, LongLoop);
    assert LongLoop in u[eqs[j].g].errors;
    forall x | 0 <= x < |eqs| ensures RecOk(s, u, host, eqs[x], EQ_LOOP) {
      assert eqs[x] in eqs;
    }
  }

  /** Errors are added to sound aliases of the host only, and each that gets none leads to a group. */
  lemma ResolvedSound(s: seq<Grp>, host: Host)
    ensures var u := Resolved(s, host);
            && Grown(s, u, host)
            && forall i | 0 <= i < |s| && IsAlias(u[i]) && Sound(u[i], host) ::
                 Leads(s, host, Target(u[i]), EQ_LOOP - 1)
  {
    hide Rounds, Leads, Follows, FlagLong, Collected;
    var eqs := Collected(s, host, |s|);
    CollectedOk(s, host, |s|);
    assert RecsOk(s, s, host, eqs, 0, 0);
    RoundsSound(s, s, host, eqs, |eqs|, 0);
    var (t, fs, m) := Rounds(s, host, eqs, |eqs|, 0);
    FlagLongSound(s, t, host, fs, 0, m);
    var u := FlagLong(t, fs, 0, m);
    RoundStart(s, u, host, fs, EQ_LOOP);
    forall i | 0 <= i < |s| && IsAlias(u[i]) && Sound(u[i], host) ensures Leads(s, host, Target(u[i]), EQ_LOOP - 1) {
      assert s[i].errors <= {};
      var x :| x in fs && x.g == i;
      var y :| 0 <= y < |fs| && fs[y] == x;
    }
  }

  // --- which error an alias gets ------------------------------------------------------------------

  /** From the name `a` the name `b` is reached in `k` hops, over sound aliases of the host with other names than
      `own`. */
  ghost predicate Away(s: seq<Grp>, host: Host, own: string, a: string, b: string, k: nat)
    decreases k
  {
    if k == 0 then a == b
    else exists i :: 0 <= i < |s| && Sound(s[i], host) && IsAlias(s[i]) && s[i].name != own && Target(s[i]) == b
                       && Away(s, host, own, a, s[i].name, k - 1)
  }

  /** The alias comes back to its own name after `k` hops over others. */
  ghost predicate ComesBack(s: seq<Grp>, host: Host, g: Grp, k: nat)
    requires IsAlias(g)
  {
    Away(s, host, g.name, Target(g), g.name, k)
  }

  /** The alias has been followed over sixteen others. */
  ghost predicate GoesOn(s: seq<Grp>, host: Host, g: Grp)
    requires IsAlias(g)
  {
    exists b :: Away(s, host, g.name, Target(g), b, EQ_LOOP)
  }

  /** Only sound aliases get errors, and those that are due to a loop or a long chain have their reason. */
  ghost predicate Reason(s: seq<Grp>, g: Grp, h: Grp, host: Host) {
    h == g.(errors := h.errors) &&
    (h.errors != g.errors ==>
      && IsAlias(g) && Sound(g, host)
      && (forall p | p in h.errors :: p.NonEq? || p.EqLoop? || p.LongLoop?)
      && (EqLoop in h.errors ==> exists k: nat :: k < EQ_LOOP && ComesBack(s, host, g, k))
      && (LongLoop in h.errors ==> GoesOn(s, host, g)))
  }

  ghost predicate Reasons(s: seq<Grp>, t: seq<Grp>, host: Host) {
    |s| == |t| && forall i | 0 <= i < |s| :: Reason(s, s[i], t[i], host)
  }

  /** A record that is still followed has come `k` hops without coming back. */
  ghost predicate RecAway(s: seq<Grp>, host: Host, r: Eq, k: nat) {
    && r.g < |s| && IsAlias(s[r.g]) && Sound(s[r.g], host)
    && (!r.skip ==> Away(s, host, s[r.g].name, Target(s[r.g]), r.eq, k))
  }

  ghost predicate RecsAway(s: seq<Grp>, host: Host, eqs: seq<Eq>, j: nat, k: nat) {
    forall x | 0 <= x < |eqs| :: RecAway(s, host, eqs[x], if x < j then k + 1 else k)
  }

  lemma AwayMoves(s: seq<Grp>, host: Host, eqs: seq<Eq>, j: nat, k: nat, r: Eq)
    requires RecsAway(s, host, eqs, j, k) && j < |eqs| && RecAway(s, host, r, k + 1)
    ensures RecsAway(s, host, eqs[j := r], j + 1, k)
  {
    hide RecAway;
    var v := eqs[j := r];
    forall x | 0 <= x < |v| ensures RecAway(s, host, v[x], if x < j + 1 then k + 1 else k) {
      assert RecAway(s, host, eqs[x], if x < j then k + 1 else k);
    }
  }

  lemma AwayAt(s: seq<Grp>, host: Host, eqs: seq<Eq>, j: nat, k: nat)
    requires RecsAway(s, host, eqs, j, k) && j < |eqs|
    ensures RecAway(s, host, eqs[j], k) && RecAway(s, host, eqs[j].(skip := true), k + 1)
  {}

  lemma SoundBefore(s: seq<Grp>, t: seq<Grp>, host: Host, i: nat)
    requires Reasons(s, t, host) && i < |t| && Sound(t[i], host)
    ensures |s| == |t| && s[i] == t[i]
  {
    assert Reason(s, s[i], t[i], host);
  }

  lemma SameName(s: seq<Grp>, t: seq<Grp>, host: Host, i: nat)
    requires Reasons(s, t, host) && i < |t|
    ensures s[i].name == t[i].name
  {
    assert Reason(s, s[i], t[i], host);
  }

  lemma SameLength(s: seq<Grp>, t: seq<Grp>, host: Host)
    requires Reasons(s, t, host)
    ensures |s| == |t|
  {}

  /** An error that has its reason is added. */
  lemma FlagReasons(s: seq<Grp>, t: seq<Grp>, host: Host, g: nat, p: Problem, k: nat)
    requires Reasons(s, t, host) && g < |t| && IsAlias(s[g]) && Sound(s[g], host) && k < EQ_LOOP
    requires p.NonEq? || (p.EqLoop? && ComesBack(s, host, s[g], k)) || (p.LongLoop? && GoesOn(s, host, s[g]))
    ensures Reasons(s, Flag(t, g, p), host)
  {
    hide ComesBack, GoesOn;
    var u := Flag(t, g, p);
    forall i | 0 <= i < |s| ensures Reason(s, s[i], u[i], host) {
      assert Reason(s, s[i], t[i], host);
    }
  }

  lemma OneHopAway(s: seq<Grp>, host: Host, r: Eq, k: nat, i: nat)
    requires RecAway(s, host, r, k) && !r.skip && i < |s| && Sound(s[i], host) && IsAlias(s[i]) && s[i].name == r.eq
    requires s[i].name != s[r.g].name
    ensures RecAway(s, host, r.(eq := Target(s[i])), k + 1)
  {}

  /** No sound entry of the host has this name. */
  ghost predicate Nowhere(t: seq<Grp>, host: Host, name: string) {
    forall m | 0 <= m < |t| && Sound(t[m], host) :: t[m].name != name
  }

  /** The alias `g` leads to the name `b`, which no sound entry has. */
  ghost predicate DeadEnd(s: seq<Grp>, t: seq<Grp>, host: Host, g: nat, b: string, k: nat) {
    && g < |s| && k < EQ_LOOP && IsAlias(s[g]) && Sound(s[g], host)
    && Away(s, host, s[g].name, Target(s[g]), b, k) && Nowhere(t, host, b)
  }

  ghost predicate Missing(s: seq<Grp>, t: seq<Grp>, host: Host) {
    exists g: nat, b, k: nat :: DeadEnd(s, t, host, g, b, k)
  }

  ghost predicate NoneMissed(s: seq<Grp>, t: seq<Grp>) {
    |s| == |t| && forall i | 0 <= i < |s| && NonEq in t[i].errors :: NonEq in s[i].errors
  }

  /** Either an alias leads nowhere, or none was taken to do so and the cursor has not passed anything looked for. */
  ghost predicate Walked(s: seq<Grp>, t: seq<Grp>, host: Host, eqs: seq<Eq>, i: nat, j: nat, n: nat) {
    i <= |t| && n <= |eqs| && (Missing(s, t, host) || (NoneMissed(s, t) && Unpassed(t, host, eqs, i, j, n)))
  }

  lemma StillMissing(s: seq<Grp>, t: seq<Grp>, host: Host, g: nat, p: Problem)
    requires Missing(s, t, host) && g < |t|
    ensures Missing(s, Flag(t, g, p), host)
  {
    hide Away;
    var m, b, k :| DeadEnd(s, t, host, m, b, k);
    assert DeadEnd(s, Flag(t, g, p), host, m, b, k);
  }

  lemma WalkedFlag(s: seq<Grp>, t: seq<Grp>, host: Host, eqs: seq<Eq>, i: nat, j: nat, n: nat, r: Eq, p: Problem)
    requires Walked(s, t, host, eqs, i, j, n) && j < n && r.g < |t| && !p.NonEq?
    ensures Walked(s, Flag(t, r.g, p), host, eqs[j := r], i, j + 1, n)
  {
    if Missing(s, t, host) {
      StillMissing(s, t, host, r.g, p);
    }
  }

  lemma WalkedHop(s: seq<Grp>, t: seq<Grp>, host: Host, eqs: seq<Eq>, i: nat, j: nat, n: nat, r: Eq)
    requires Walked(s, t, host, eqs, i, j, n) && j < n
    ensures Walked(s, t, host, eqs[j := r], i, j + 1, n)
  {
    hide Missing;
  }

  predicate Ordered(eqs: seq<Eq>, j: nat, n: nat)
    requires n <= |eqs|
  {
    forall x, y | j <= x < y < n :: StrCmp(eqs[x].eq, eqs[y].eq) <= 0
  }

  lemma WalkedOn(s: seq<Grp>, t: seq<Grp>, host: Host, eqs: seq<Eq>, i: nat, j: nat, n: nat)
    requires Walked(s, t, host, eqs, i, j, n) && i < |t| && j < n && Ordered(eqs, j, n)
    requires Sound(t[i], host) ==> StrCmp(t[i].name, eqs[j].eq) < 0
    ensures Walked(s, t, host, eqs, i + 1, j, n)
  {
    hide Missing, NoneMissed;
    if !Missing(s, t, host) {
      StillUnpassed(t, host, eqs, i, j, n);
    }
  }

  /** The first alias that is taken to lead nowhere does so. */
  lemma PastIsMissing(s: seq<Grp>, t: seq<Grp>, host: Host, eqs: seq<Eq>, i: nat, j: nat, n: nat, k: nat)
    requires Sorted(s) && Reasons(s, t, host) && i <= |t| && j < n <= |eqs| && Unpassed(t, host, eqs, i, j, n)
    requires k < EQ_LOOP && RecAway(s, host, eqs[j], k) && !eqs[j].skip
    requires i < |t| ==> StrCmp(t[i].name, eqs[j].eq) > 0
    ensures Missing(s, t, host)
  {
    hide Reasons, Away;
    var name := eqs[j].eq;
    SameLength(s, t, host);
    forall m | 0 <= m < |t| && Sound(t[m], host) ensures t[m].name != name {
      SameName(s, t, host, m);
      if i <= m && t[m].name == name {
        SameName(s, t, host, i);
        NotAbove(s, i, m, name);
      }
    }
    assert DeadEnd(s, t, host, eqs[j].g, name, k);
  }

  lemma WalkedPast(s: seq<Grp>, t: seq<Grp>, host: Host, eqs: seq<Eq>, i: nat, j: nat, n: nat, k: nat)
    requires Walked(s, t, host, eqs, i, j, n) && j < n && k < EQ_LOOP && RecAway(s, host, eqs[j], k) && !eqs[j].skip
    requires Sorted(s) && Reasons(s, t, host)
    requires i < |t| ==> StrCmp(t[i].name, eqs[j].eq) > 0
    ensures Missing(s, Flag(t, eqs[j].g, NonEq), host)
  {
    hide Reasons, Away, Missing, NoneMissed;
    if !Missing(s, t, host) {
      PastIsMissing(s, t, host, eqs, i, j, n, k);
    }
    SameLength(s, t, host);
    StillMissing(s, t, host, eqs[j].g, NonEq);
  }

  lemma {:induction false} FollowReasons(s: seq<Grp>, t: seq<Grp>, host: Host, eqs: seq<Eq>, i: nat, j: nat, n: nat,
                                         k: nat)
    requires Sorted(s) && Reasons(s, t, host) && RecsAway(s, host, eqs, j, k) && InArray(eqs, |t|)
    requires i <= |t| && j <= n <= |eqs| && k < EQ_LOOP && Walked(s, t, host, eqs, i, j, n) && Ordered(eqs, j, n)
    requires forall x | 0 <= x < |eqs| && x >= j :: eqs[x].skip <==> x >= n
    ensures var (u, fs) := Follow(t, host, eqs, i, j, n);
            && Reasons(s, u, host) && RecsAway(s, host, fs, 0, k + 1) && (Missing(s, u, host) || NoneMissed(s, u))
            && forall x | n <= x < |fs| :: fs[x].skip
    decreases |t| - i + n - j
  {
    hide Reasons, RecsAway, Follow, Away, Sound, Missing, NoneMissed, Unpassed, Sorted;
    if j == n {
      FollowEnd(t, host, eqs, i, n);
      AwayDone(s, host, eqs, n, k);
    } else {
      FollowStep(t, host, eqs, i, j, n);
      AwayAt(s, host, eqs, j, k);
      var skipped := eqs[j].(skip := true);
      var done := eqs[j := skipped];
      AwayMoves(s, host, eqs, j, k, skipped);
      if i < |t| && (!Sound(t[i], host) || StrCmp(t[i].name, eqs[j].eq) < 0) {
        WalkedOn(s, t, host, eqs, i, j, n);
        FollowReasons(s, t, host, eqs, i + 1, j, n, k);
      } else if i == |t| || StrCmp(t[i].name, eqs[j].eq) > 0 {
        FlagReasons(s, t, host, eqs[j].g, NonEq, k);
        WalkedPast(s, t, host, eqs, i, j, n, k);
        FollowReasons(s, Flag(t, eqs[j].g, NonEq), host, done, if i == |t| then i else i + 1, j + 1, n, k);
      } else {
        CmpZero(t[i].name, eqs[j].eq);
        SoundBefore(s, t, host, i);
        SameName(s, t, host, eqs[j].g);
        if t[i].name == t[eqs[j].g].name {
          FlagReasons(s, t, host, eqs[j].g, EqLoop, k);
          WalkedFlag(s, t, host, eqs, i, j, n, skipped, EqLoop);
          FollowReasons(s, Flag(t, eqs[j].g, EqLoop), host, done, i, j + 1, n, k);
        } else if !IsAlias(t[i]) {
          WalkedHop(s, t, host, eqs, i, j, n, skipped);
          FollowReasons(s, t, host, done, i, j + 1, n, k);
        } else {
          var r := eqs[j].(eq := Target(t[i]));
          OneHopAway(s, host, eqs[j], k, i);
          AwayMoves(s, host, eqs, j, k, r);
          WalkedHop(s, t, host, eqs, i, j, n, r);
          FollowReasons(s, t, host, eqs[j := r], i, j + 1, n, k);
        }
      }
    }
  }

  lemma AwayDone(s: seq<Grp>, host: Host, eqs: seq<Eq>, n: nat, k: nat)
    requires RecsAway(s, host, eqs, n, k) && forall x | 0 <= x < |eqs| && x >= n :: eqs[x].skip
    ensures RecsAway(s, host, eqs, 0, k + 1)
  {
    hide Away;
    forall x | 0 <= x < |eqs| ensures RecAway(s, host, eqs[x], k + 1) {
      assert RecAway(s, host, eqs[x], if x < n then k + 1 else k);
    }
  }

  lemma SortFirstAway(s: seq<Grp>, host: Host, eqs: seq<Eq>, n: nat, t: seq<Grp>, k: nat)
    requires RecsAway(s, host, eqs, 0, k) && n <= |eqs| && InArray(eqs, |t|)
    ensures RecsAway(s, host, SortFirst(eqs, n, t), 0, k)
  {
    hide RecAway, SortFirst;
    var fs := SortFirst(eqs, n, t);
    forall x | 0 <= x < |fs| ensures RecAway(s, host, fs[x], k) {
      assert fs[x] in eqs;
      var y :| 0 <= y < |eqs| && eqs[y] == fs[x];
      assert RecAway(s, host, eqs[y], k);
    }
  }

  lemma SortFirstOrders(eqs: seq<Eq>, n: nat, t: seq<Grp>)
    requires n <= |eqs| && InArray(eqs, |t|) && forall x | n <= x < |eqs| :: eqs[x].skip
    ensures Unskipped(eqs) <= |SortFirst(eqs, n, t)| && Ordered(SortFirst(eqs, n, t), 0, Unskipped(eqs))
  {
    var fs := SortFirst(eqs, n, t);
    assert forall x | x in eqs[..n] :: x in eqs;
    SortSortsEqs(eqs[..n], t);
    SortFirstSkips(eqs, n, t);
    hide SortEqs, StrCmp;
  }

  lemma WalkStarts(s: seq<Grp>, t: seq<Grp>, host: Host, eqs: seq<Eq>, n: nat)
    requires (Missing(s, t, host) || NoneMissed(s, t)) && n <= |eqs|
    ensures Walked(s, t, host, eqs, 0, 0, n)
  {
    hide Missing, NoneMissed;
  }

  lemma {:induction false} RoundsReasons(s: seq<Grp>, t: seq<Grp>, host: Host, eqs: seq<Eq>, n: nat, k: nat)
    requires Sorted(s) && Reasons(s, t, host) && RecsAway(s, host, eqs, 0, k) && InArray(eqs, |t|)
    requires n <= |eqs| && k <= EQ_LOOP && forall x | n <= x < |eqs| :: eqs[x].skip
    requires Missing(s, t, host) || NoneMissed(s, t)
    ensures var (u, fs, m) := Rounds(t, host, eqs, n, k);
            Reasons(s, u, host) && RecsAway(s, host, fs, 0, EQ_LOOP) && (Missing(s, u, host) || NoneMissed(s, u))
    decreases EQ_LOOP - k
  {
    hide Reasons, RecsAway, Follow, Rounds, SortFirst, Unskipped, Missing, NoneMissed, Walked, Ordered, Sorted;
    RoundsStep(t, host, eqs, n, k);
    SortFirstAway(s, host, eqs, n, t, k);
    SortFirstSkips(eqs, n, t);
    SortFirstOrders(eqs, n, t);
    if k < EQ_LOOP {
      var fs, m := SortFirst(eqs, n, t), Unskipped(eqs);
      WalkStarts(s, t, host, fs, m);
      FollowReasons(s, t, host, fs, 0, 0, m, k);
      var (u, gs) := Follow(t, host, fs, 0, 0, m);
      RoundsReasons(s, u, host, gs, m, k + 1);
    }
  }

  lemma {:induction false} FlagLongReasons(s: seq<Grp>, t: seq<Grp>, host: Host, eqs: seq<Eq>, j: nat, m: nat)
    requires Reasons(s, t, host) && RecsAway(s, host, eqs, 0, EQ_LOOP) && InArray(eqs, |t|) && j <= m <= |eqs|
    requires Missing(s, t, host) || NoneMissed(s, t)
    ensures var u := FlagLong(t, eqs, j, m);
            Reasons(s, u, host) && (Missing(s, u, host) || NoneMissed(s, u))
    decreases m - j
  {
    hide Reasons, Away, Sound, Missing;
    if j < m {
      assert RecAway(s, host, eqs[j], EQ_LOOP);
      if eqs[j].skip {
        FlagLongReasons(s, t, host, eqs, j + 1, m);
      } else {
        FlagReasons(s, t, host, eqs[j].g, LongLoop, 0);
        if Missing(s, t, host) {
          StillMissing(s, t, host, eqs[j].g, LongLoop);
        }
        FlagLongReasons(s, Flag(t, eqs[j].g, LongLoop), host, eqs, j + 1, m);
      }
    }
  }

  lemma {:induction false} CollectedAway(s: seq<Grp>, host: Host, i: nat)
    requires i <= |s|
    ensures forall x | 0 <= x < |Collected(s, host, i)| :: RecAway(s, host, Collected(s, host, i)[x], 0)
  {
    if i > 0 {
      CollectedAway(s, host, i - 1);
    }
  }

  /** An alias is in error for looping only if it comes back to its own name in at most sixteen hops, and for a long
      chain only if it can be followed over sixteen others without coming back.  It is said not to lead to a group only
      if some alias, this one or another, leads to a name that no entry without an error has.  There are no other
      errors. */
  lemma ErrorReasons(s: seq<Grp>, host: Host, i: nat)
    requires Sorted(s) && i < |s| && Resolved(s, host)[i].errors != s[i].errors
    ensures var p := Resolved(s, host)[i].errors;
            && IsAlias(s[i]) && (forall x | x in p :: x.NonEq? || x.EqLoop? || x.LongLoop?)
            && (EqLoop in p ==> exists k: nat :: k < 16 && Away(s, host, s[i].name, Target(s[i]), s[i].name, k))
            && (LongLoop in p ==> exists b :: Away(s, host, s[i].name, Target(s[i]), b, 16))
            && (NonEq in p ==> exists g: nat, b, k: nat :: DeadEnd(s, Resolved(s, host), host, g, b, k))
  {
    hide Rounds, FlagLong, Collected, Away, Missing, Sorted;
    var eqs := Collected(s, host, |s|);
    CollectedAway(s, host, |s|);
    assert RecsAway(s, host, eqs, 0, 0);
    assert Reasons(s, s, host) && NoneMissed(s, s);
    RoundsReasons(s, s, host, eqs, |eqs|, 0);
    var (t, fs, m) := Rounds(s, host, eqs, |eqs|, 0);
    FlagLongReasons(s, t, host, fs, 0, m);
    var u := FlagLong(t, fs, 0, m);
    assert Reason(s, s[i], u[i], host);
    if NonEq in u[i].errors {
      IsMissing(s, u, host);
    }
  }

  lemma IsMissing(s: seq<Grp>, u: seq<Grp>, host: Host)
    requires Missing(s, u, host)
    ensures exists g: nat, b, k: nat :: DeadEnd(s, u, host, g, b, k)
  {}

  // --- completeness: if every alias leads to a group, none gets an error -------------------------

  /** Every sound alias of the host leads to a group that is not an alias. */
  ghost predicate AllLead(s: seq<Grp>, host: Host) {
    forall i | 0 <= i < |s| && IsAlias(s[i]) && Sound(s[i], host) :: Leads(s, host, Target(s[i]), EQ_LOOP - 1)
  }

  /** Whatever `a` leads to, `b` leads to with `k` hops less. */
  ghost predicate Tracks(s: seq<Grp>, host: Host, a: string, b: string, k: nat) {
    forall n: nat :: Leads(s, host, a, n + k) ==> Leads(s, host, b, n)
  }

  /** A record of a good alias after `k` hops. */
  ghost predicate RecGood(s: seq<Grp>, host: Host, r: Eq, k: nat) {
    && r.g < |s| && IsAlias(s[r.g]) && Sound(s[r.g], host)
    && (!r.skip ==> k < EQ_LOOP && Tracks(s, host, Target(s[r.g]), r.eq, k))
  }

  ghost predicate RecsGood(s: seq<Grp>, host: Host, eqs: seq<Eq>, j: nat, k: nat) {
    forall x | 0 <= x < |eqs| :: RecGood(s, host, eqs[x], if x < j then k + 1 else k)
  }

  lemma OneSound(s: seq<Grp>, host: Host, i: nat, j: nat)
    requires Distinct(s) && i < |s| && j < |s| && Sound(s[i], host) && Sound(s[j], host) && s[i].name == s[j].name
    ensures i == j
  {}

  lemma LeadsAt(s: seq<Grp>, host: Host, i: nat, n: nat)
    requires Distinct(s) && i < |s| && Sound(s[i], host) && Leads(s, host, s[i].name, n) && IsAlias(s[i])
    ensures n > 0 && Leads(s, host, Target(s[i]), n - 1)
  {
    var m :| 0 <= m < |s| && Sound(s[m], host) && s[m].name == s[i].name &&
      (!IsAlias(s[m]) || (n > 0 && Leads(s, host, Target(s[m]), n - 1)));
    OneSound(s, host, i, m);
  }

  /** A good alias never comes back to itself. */
  lemma {:induction false} NoCycle(s: seq<Grp>, host: Host, g: nat, k: nat, n: nat)
    requires Distinct(s) && g < |s| && IsAlias(s[g]) && Sound(s[g], host) && Tracks(s, host, Target(s[g]), s[g].name, k)
    ensures !Leads(s, host, Target(s[g]), n)
    decreases n
  {
    if Leads(s, host, Target(s[g]), n) {
      var m := if n < k then k else n;
      LeadsLonger(s, host, Target(s[g]), n, m);
      assert Leads(s, host, Target(s[g]), (m - k) + k);
      LeadsAt(s, host, g, m - k);
      NoCycle(s, host, g, k, m - k - 1);
    }
  }

  lemma GoodLeads(s: seq<Grp>, host: Host, r: Eq, k: nat)
    requires AllLead(s, host) && RecGood(s, host, r, k) && !r.skip
    ensures k < EQ_LOOP && Leads(s, host, r.eq, EQ_LOOP - 1 - k)
  {
    assert Leads(s, host, Target(s[r.g]), (EQ_LOOP - 1 - k) + k);
  }

  /** None of the names that are still looked for belongs to an entry before `i`. */
  predicate Unpassed(s: seq<Grp>, host: Host, eqs: seq<Eq>, i: nat, j: nat, n: nat)
    requires i <= |s| && n <= |eqs|
  {
    forall x, m | j <= x < n && 0 <= m < i && Sound(s[m], host) :: s[m].name != eqs[x].eq
  }

  predicate EqSorted(eqs: seq<Eq>) {
    forall x, y | 0 <= x < y < |eqs| && !eqs[y].skip :: StrCmp(eqs[x].eq, eqs[y].eq) <= 0
  }

  /** The target of a good record that is still looked for is at or after the cursor. */
  lemma TargetAhead(s: seq<Grp>, host: Host, eqs: seq<Eq>, i: nat, j: nat, n: nat, k: nat) returns (m: nat)
    requires AllLead(s, host) && RecsGood(s, host, eqs, j, k) && j < n <= |eqs| && i <= |s| && !eqs[j].skip
    requires Unpassed(s, host, eqs, i, j, n)
    ensures i <= m < |s| && Sound(s[m], host) && s[m].name == eqs[j].eq
  {
    assert RecGood(s, host, eqs[j], k);
    GoodLeads(s, host, eqs[j], k);
    m :| 0 <= m < |s| && Sound(s[m], host) && s[m].name == eqs[j].eq;
  }

  /** The cursor does not run past a name that is looked for. */
  lemma NotAbove(s: seq<Grp>, i: nat, m: nat, name: string)
    requires Sorted(s) && i <= m < |s| && s[m].name == name
    ensures StrCmp(s[i].name, name) <= 0
  {
    if i < m {
      assert MergeCmp(s[i], s[m]) < 0;
    } else {
      CmpZero(s[i].name, name);
    }
  }

  lemma RecMoves(s: seq<Grp>, host: Host, eqs: seq<Eq>, j: nat, k: nat, r: Eq)
    requires RecsGood(s, host, eqs, j, k) && j < |eqs| && RecGood(s, host, r, k + 1)
    ensures RecsGood(s, host, eqs[j := r], j + 1, k)
  {
    hide RecGood;
    var v := eqs[j := r];
    forall x | 0 <= x < |v| ensures RecGood(s, host, v[x], if x < j + 1 then k + 1 else k) {
      assert RecGood(s, host, eqs[x], if x < j then k + 1 else k);
    }
  }

  /** What a good record becomes at its target. */
  lemma GoodHop(s: seq<Grp>, host: Host, r: Eq, k: nat, i: nat)
    requires Distinct(s) && AllLead(s, host) && RecGood(s, host, r, k) && !r.skip
    requires i < |s| && Sound(s[i], host) && s[i].name == r.eq
    ensures s[i].name != s[r.g].name
    ensures RecGood(s, host, if IsAlias(s[i]) then r.(eq := Target(s[i])) else r.(skip := true), k + 1)
  {
    GoodLeads(s, host, r, k);
    if s[i].name == s[r.g].name {
      NoCycle(s, host, r.g, k, EQ_LOOP - 1);
      assert false;
    }
    if IsAlias(s[i]) {
      LeadsAt(s, host, i, EQ_LOOP - 1 - k);
      forall n: nat | Leads(s, host, Target(s[r.g]), n + (k + 1)) ensures Leads(s, host, Target(s[i]), n) {
        assert Leads(s, host, Target(s[r.g]), (n + 1) + k);
        LeadsAt(s, host, i, n + 1);
      }
    }
  }

  /** A round among good aliases adds no error. */
  lemma {:induction false} FollowGood(s: seq<Grp>, host: Host, eqs: seq<Eq>, i: nat, j: nat, n: nat, k: nat)
    requires Sorted(s) && Distinct(s) && AllLead(s, host) && RecsGood(s, host, eqs, j, k) && InArray(eqs, |s|)
    requires i <= |s| && j <= n <= |eqs| && Unpassed(s, host, eqs, i, j, n)
    requires forall x | 0 <= x < |eqs| && x >= j :: eqs[x].skip <==> x >= n
    requires forall x, y | j <= x < y < n :: StrCmp(eqs[x].eq, eqs[y].eq) <= 0
    ensures var (u, fs) := Follow(s, host, eqs, i, j, n);
            u == s && RecsGood(s, host, fs, 0, k + 1) && forall x | n <= x < |fs| :: fs[x].skip
    decreases |s| - i + n - j
  {
    hide Follow, Leads, AllLead, Sorted, Distinct, RecsGood;
    if j == n {
      FollowEnd(s, host, eqs, i, n);
      GoodDone(s, host, eqs, n, k);
    } else {
      FollowStep(s, host, eqs, i, j, n);
      var m := TargetAhead(s, host, eqs, i, j, n, k);
      NotAbove(s, i, m, eqs[j].eq);
      if !Sound(s[i], host) || StrCmp(s[i].name, eqs[j].eq) < 0 {
        StillUnpassed(s, host, eqs, i, j, n);
        FollowGood(s, host, eqs, i + 1, j, n, k);
      } else {
        CmpZero(s[i].name, eqs[j].eq);
        GoodAt(s, host, eqs, j, k);
        GoodHop(s, host, eqs[j], k, i);
        var r := if IsAlias(s[i]) then eqs[j].(eq := Target(s[i])) else eqs[j].(skip := true);
        RecMoves(s, host, eqs, j, k, r);
        var next := eqs[j := r];
        assert Unpassed(s, host, next, i, j + 1, n);
        FollowGood(s, host, next, i, j + 1, n, k);
      }
    }
  }

  lemma GoodAt(s: seq<Grp>, host: Host, eqs: seq<Eq>, j: nat, k: nat)
    requires RecsGood(s, host, eqs, j, k) && j < |eqs|
    ensures RecGood(s, host, eqs[j], k)
  {}

  /** An entry below the name that is looked for is not looked for later. */
  lemma StillUnpassed(s: seq<Grp>, host: Host, eqs: seq<Eq>, i: nat, j: nat, n: nat)
    requires i < |s| && j < n <= |eqs| && Unpassed(s, host, eqs, i, j, n)
    requires forall x, y | j <= x < y < n :: StrCmp(eqs[x].eq, eqs[y].eq) <= 0
    requires Sound(s[i], host) ==> StrCmp(s[i].name, eqs[j].eq) < 0
    ensures Unpassed(s, host, eqs, i + 1, j, n)
  {
    forall x | j <= x < n && Sound(s[i], host) ensures s[i].name != eqs[x].eq {
      CmpTurned(s[i].name, eqs[j].eq);
      CmpZero(eqs[j].eq, eqs[j].eq);
    }
  }

  lemma GoodDone(s: seq<Grp>, host: Host, eqs: seq<Eq>, n: nat, k: nat)
    requires RecsGood(s, host, eqs, n, k) && forall x | 0 <= x < |eqs| && x >= n :: eqs[x].skip
    ensures RecsGood(s, host, eqs, 0, k + 1)
  {
    forall x | 0 <= x < |eqs| ensures RecGood(s, host, eqs[x], k + 1) {
      assert RecGood(s, host, eqs[x], if x < n then k + 1 else k);
    }
  }

  lemma CmpLeast(a: string, b: string, c: string)
    requires StrCmp(a, b) <= 0 && StrCmp(b, c) <= 0
    ensures StrCmp(a, c) <= 0
  {
    CmpZero(a, b);
    CmpZero(b, c);
    if StrCmp(a, b) < 0 && StrCmp(b, c) < 0 {
      CmpTransitive(a, b, c);
    }
  }

  lemma {:induction false} InsertSortsEqs(r: Eq, eqs: seq<Eq>, s: seq<Grp>)
    requires r.g < |s| && (forall x | x in eqs :: x.g < |s|) && SkipsLast(eqs) && EqSorted(eqs)
    ensures EqSorted(InsertEq(r, eqs, s))
  {
    hide StrCmp;
    if eqs == [] || EqCmp(r, eqs[0], s) <= 0 {
      var t := [r] + eqs;
      forall y | 0 < y < |t| && !t[y].skip ensures StrCmp(r.eq, t[y].eq) <= 0 {
        assert t[y] == eqs[y - 1];
        CmpZero(r.eq, eqs[0].eq);
        if y > 1 {
          CmpLeast(r.eq, eqs[0].eq, t[y].eq);
        }
      }
    } else {
      InsertSortsEqs(r, eqs[1..], s);
      var u := InsertEq(r, eqs[1..], s);
      var t := [eqs[0]] + u;
      forall y | 0 < y < |t| && !t[y].skip ensures StrCmp(eqs[0].eq, t[y].eq) <= 0 {
        assert t[y] == u[y - 1] && u[y - 1] in u;
        CmpTurned(r.eq, eqs[0].eq);
        if t[y] != r {
          var x :| 0 <= x < |eqs[1..]| && eqs[1..][x] == t[y];
          assert eqs[x + 1] == t[y];
        }
      }
    }
  }

  lemma {:induction false} SortSortsEqs(eqs: seq<Eq>, s: seq<Grp>)
    requires forall x | x in eqs :: x.g < |s|
    ensures EqSorted(SortEqs(eqs, s))
  {
    if eqs != [] {
      assert forall x | x in eqs[1..] :: x in eqs;
      SortSortsEqs(eqs[1..], s);
      SortSplits(eqs[1..], s);
      InsertSortsEqs(eqs[0], SortEqs(eqs[1..], s), s);
    }
  }

  lemma SortFirstGood(s: seq<Grp>, host: Host, eqs: seq<Eq>, n: nat, k: nat)
    requires RecsGood(s, host, eqs, 0, k) && n <= |eqs| && InArray(eqs, |s|)
    requires forall x | n <= x < |eqs| :: eqs[x].skip
    ensures var fs := SortFirst(eqs, n, s);
            && RecsGood(s, host, fs, 0, k)
            && forall x, y | 0 <= x < y < Unskipped(eqs) :: StrCmp(fs[x].eq, fs[y].eq) <= 0
  {
    var fs := SortFirst(eqs, n, s);
    assert forall x | x in eqs[..n] :: x in eqs;
    SortSortsEqs(eqs[..n], s);
    SortFirstSkips(eqs, n, s);
    hide RecGood, SortEqs;
    forall x | 0 <= x < |fs| ensures RecGood(s, host, fs[x], k) {
      assert fs[x] in eqs;
      var y :| 0 <= y < |eqs| && eqs[y] == fs[x];
    }
  }

  lemma {:induction false} RoundsGood(s: seq<Grp>, host: Host, eqs: seq<Eq>, n: nat, k: nat)
    requires Sorted(s) && Distinct(s) && AllLead(s, host) && RecsGood(s, host, eqs, 0, k) && InArray(eqs, |s|)
    requires n <= |eqs| && k <= EQ_LOOP && forall x | n <= x < |eqs| :: eqs[x].skip
    ensures Rounds(s, host, eqs, n, k).0 == s && Rounds(s, host, eqs, n, k).2 == 0
    decreases EQ_LOOP - k
  {
    hide Follow, Rounds, SortFirst, Unskipped, AllLead, Sorted, Distinct;
    RoundsStep(s, host, eqs, n, k);
    var fs, m := SortFirst(eqs, n, s), Unskipped(eqs);
    SortFirstSkips(eqs, n, s);
    SortFirstGood(s, host, eqs, n, k);
    if k == EQ_LOOP {
      NoneUnskipped(eqs);
    } else {
      FollowGood(s, host, fs, 0, 0, m, k);
      RoundsGood(s, host, Follow(s, host, fs, 0, 0, m).1, m, k + 1);
    }
  }

  /** No alias gets an error if and only if every sound one leads to a group in at most sixteen hops. */
  lemma ResolvedExact(s: seq<Grp>, host: Host)
    requires Sorted(s) && Distinct(s)
    ensures Resolved(s, host) == s <==> AllLead(s, host)
    ensures AllLead(s, host) <==>
            forall i | 0 <= i < |s| && IsAlias(s[i]) && Sound(s[i], host) :: Leads(s, host, Target(s[i]), 15)
  {
    if AllLead(s, host) {
      var eqs := Collected(s, host, |s|);
      CollectedOk(s, host, |s|);
      assert RecsGood(s, host, eqs, 0, 0) by {
        CollectedGood(s, host, |s|);
      }
      RoundsGood(s, host, eqs, |eqs|, 0);
    } else {
      ResolvedSound(s, host);
    }
  }

  lemma {:induction false} CollectedGood(s: seq<Grp>, host: Host, i: nat)
    requires i <= |s|
    ensures forall x | 0 <= x < |Collected(s, host, i)| :: RecGood(s, host, Collected(s, host, i)[x], 0)
  {
    if i > 0 {
      CollectedGood(s, host, i - 1);
    }
  }

  // --- a good alias in error --------------------------------------------------------------------

  /** When all records are finished, nothing more happens. */
  lemma {:induction false} RoundsIdle(t: seq<Grp>, host: Host, eqs: seq<Eq>, n: nat, k: nat)
    requires InArray(eqs, |t|) && n <= |eqs| && k <= EQ_LOOP && forall x | x in eqs :: x.skip
    ensures Rounds(t, host, eqs, n, k).0 == t && Rounds(t, host, eqs, n, k).2 == 0
    decreases EQ_LOOP - k
  {
    hide SortFirst, Rounds, Unskipped;
    RoundsStep(t, host, eqs, n, k);
    NoneUnskipped(eqs);
    if k < EQ_LOOP {
      FollowEnd(t, host, SortFirst(eqs, n, t), 0, 0);
      RoundsIdle(t, host, SortFirst(eqs, n, t), 0, k + 1);
    }
  }

  function Plain(name: string, typ: string, line: nat): Grp {
    Grp(name, typ, Host1, line, "", "", {}, {}, false, false, "", "", "")
  }

  /** A group, an alias of a group that is missing, and an alias of the group. */
  function ThreeGroups(): seq<Grp> {
    [Plain("b", "y", 1), Plain("x", "=a", 2), Plain("z", "=b", 3)]
  }

  /** The other half fails for single aliases: after one that leads nowhere, the cursor in the array skips the group
      that a good alias refers to, and the good alias is in error too. */
  lemma GoodAliasFlagged()
    ensures var s := ThreeGroups();
            && Sorted(s) && Distinct(s) && IsAlias(s[2]) && Leads(s, Host1, Target(s[2]), 0)
            && Resolved(s, Host1)[2].errors == {NonEq}
  {
    var s, e, f := ThreeGroups(), Eq(false, 1, "a"), Eq(false, 2, "b");
    hide *;
    ThreeSorted();
    ThreeCollected();
    ThreeRounds();
    LongNone(Rounds(s, Host1, [e, f], 2, 0).0, Rounds(s, Host1, [e, f], 2, 0).1);
    ThreeResolved();
  }

  lemma ThreeRounds()
    ensures var s, e, f := ThreeGroups(), Eq(false, 1, "a"), Eq(false, 2, "b");
            && |s| == 3 && InArray([e, f], 3)
            && Rounds(s, Host1, [e, f], 2, 0).0 == Flag(Flag(s, 1, NonEq), 2, NonEq)
            && Rounds(s, Host1, [e, f], 2, 0).2 == 0
  {
    var s, e, f := ThreeGroups(), Eq(false, 1, "a"), Eq(false, 2, "b");
    hide *;
    ThreeFollowed();
    Letters();
    SortedPair(s, e, f);
    RoundsStep(s, Host1, [e, f], 2, 0);
    var u, hs := Flag(Flag(s, 1, NonEq), 2, NonEq), [e.(skip := true), f.(skip := true)];
    RoundsIdle(u, Host1, hs, 2, 1);
  }

  lemma ThreeCollected()
    ensures var s := ThreeGroups();
            && |s| == 3 && Collected(s, Host1, 3) == [Eq(false, 1, "a"), Eq(false, 2, "b")]
            && IsAlias(s[2]) && Leads(s, Host1, Target(s[2]), 0)
  {
    var s, e, f := ThreeGroups(), Eq(false, 1, "a"), Eq(false, 2, "b");
    assert s[0].name == "b" && Target(s[2]) == "b" && Target(s[1]) == "a" && Sound(s[0], Host1);
    assert Collected(s, Host1, 1) == [] && Collected(s, Host1, 2) == [e] && Collected(s, Host1, 3) == [e, f];
  }

  lemma ThreeResolved()
    ensures var s := ThreeGroups();
            && Resolved(s, Host1) ==
               (var eqs := Collected(s, Host1, |s|);
                var r := Rounds(s, Host1, eqs, |eqs|, 0);
                FlagLong(r.0, r.1, 0, r.2))
            && Flag(Flag(s, 1, NonEq), 2, NonEq)[2].errors == {NonEq} && |s| == 3
            && |Flag(Flag(s, 1, NonEq), 2, NonEq)| == 3
  {
    hide Collected, Rounds, FlagLong;
  }

  lemma ThreeFollowed()
    ensures var s, e, f := ThreeGroups(), Eq(false, 1, "a"), Eq(false, 2, "b");
            && |s| == 3 && InArray([e, f], 3)
            && Follow(s, Host1, [e, f], 0, 0, 2)
               == (Flag(Flag(s, 1, NonEq), 2, NonEq), [e.(skip := true), f.(skip := true)])
  {
    var s, e, f := ThreeGroups(), Eq(false, 1, "a"), Eq(false, 2, "b");
    var t, gs := Flag(s, 1, NonEq), [e.(skip := true), f];
    var u, hs := Flag(t, 2, NonEq), [e.(skip := true), f.(skip := true)];
    assert [e, f][0 := e.(skip := true)] == gs && gs[1 := f.(skip := true)] == hs;
    assert NonEq in t[1].errors;
    Letters();
    hide Follow, StrCmp;
    FollowStep(s, Host1, [e, f], 0, 0, 2);
    FollowStep(t, Host1, gs, 1, 1, 2);
    FollowStep(t, Host1, gs, 2, 1, 2);
    FollowEnd(u, Host1, hs, 3, 2);
  }

  lemma LongNone(t: seq<Grp>, eqs: seq<Eq>)
    requires InArray(eqs, |t|)
    ensures FlagLong(t, eqs, 0, 0) == t
  {}

  lemma Letters()
    ensures StrCmp("b", "a") > 0 && StrCmp("z", "b") > 0 && StrCmp("a", "b") < 0
    ensures StrCmp("b", "x") < 0 && StrCmp("x", "z") < 0 && StrCmp("b", "z") < 0
  {}

  lemma ThreeSorted()
    ensures Sorted(ThreeGroups()) && Distinct(ThreeGroups())
  {
    Letters();
    hide StrCmp;
    CmpZero("b", "x");
    CmpZero("x", "z");
    CmpZero("b", "z");
  }

  lemma SortedPair(s: seq<Grp>, e: Eq, f: Eq)
    requires e.g < |s| && f.g < |s| && !e.skip && !f.skip && StrCmp(e.eq, f.eq) < 0
    ensures InArray([e, f], |s|) && SortFirst([e, f], 2, s) == [e, f] && Unskipped([e, f]) == 2
  {
    var eqs := [e, f];
    assert eqs[..2] == eqs && eqs[2..] == [] && eqs[1..] == [f] && eqs[1..][1..] == [];
    assert SortEqs([f], s) == [f];
    assert SortEqs(eqs, s) == InsertEq(e, [f], s) == [e, f];
  }

  // --- sorting --------------------------------------------------------------------------------

  lemma {:induction false} CmpTransitive(a: string, b: string, c: string)
    requires StrCmp(a, b) < 0 && StrCmp(b, c) < 0
    ensures StrCmp(a, c) < 0
  {
    if a != [] && b != [] && c != [] && a[0] == b[0] == c[0] {
      CmpTransitive(a[1..], b[1..], c[1..]);
    }
  }

  lemma MergeTransitive(a: Grp, b: Grp, c: Grp)
    requires MergeCmp(a, b) < 0 && MergeCmp(b, c) < 0
    ensures MergeCmp(a, c) < 0
  {
    CmpZero(a.name, b.name);
    CmpZero(b.name, c.name);
    CmpZero(a.name, c.name);
    if StrCmp(a.name, b.name) != 0 && StrCmp(b.name, c.name) != 0 {
      CmpTransitive(a.name, b.name, c.name);
    }
  }

  /** Different lines of the two active files. */
  predicate Other(g: Grp, x: Grp) {
    g.host != x.host || g.name != x.name || g.line != x.line
  }

  /** No two entries are from the same line.  Otherwise the program dies while it sorts. */
  predicate Unique(s: seq<Grp>) {
    forall i, j | 0 <= i < j < |s| :: Other(s[i], s[j])
  }

  /** Different lines are never equal in the order, and only one comes first. */
  lemma MergeTotal(a: Grp, b: Grp)
    requires Other(a, b)
    ensures MergeCmp(a, b) < 0 <==> !(MergeCmp(b, a) < 0)
  {
    CmpZero(a.name, b.name);
    CmpTurned(a.name, b.name);
  }

  function InsertGrp(g: Grp, s: seq<Grp>): (t: seq<Grp>)
    ensures |t| == |s| + 1 && (forall x :: x in t <==> x in s || x == g)
  {
    if s == [] || MergeCmp(g, s[0]) < 0 then [g] + s
    else
      assert s == [s[0]] + s[1..];
      [s[0]] + InsertGrp(g, s[1..])
  }

  function SortGrps(s: seq<Grp>): (t: seq<Grp>)
    ensures |t| == |s| && (forall x :: x in t <==> x in s)
  {
    if s == [] then []
    else
      assert s == [s[0]] + s[1..];
      InsertGrp(s[0], SortGrps(s[1..]))
  }

  lemma ConsSorted(g: Grp, s: seq<Grp>)
    requires Sorted(s) && forall x | x in s :: MergeCmp(g, x) < 0
    ensures Sorted([g] + s)
  {
    hide MergeCmp;
    var t := [g] + s;
    assert forall j | 0 < j < |t| :: t[j] == s[j - 1] && t[j] in s;
  }

  lemma {:induction false} InsertSorts(g: Grp, s: seq<Grp>)
    requires Sorted(s) && forall x | x in s :: Other(g, x)
    ensures Sorted(InsertGrp(g, s))
  {
    hide MergeCmp, Other;
    if s != [] {
      assert s[0] in s && Other(g, s[0]);
      MergeTotal(g, s[0]);
      FirstIsLeast(s);
      if MergeCmp(g, s[0]) < 0 {
        forall x | x in s ensures MergeCmp(g, x) < 0 {
          if x != s[0] {
            MergeTransitive(g, s[0], x);
          }
        }
        ConsSorted(g, s);
      } else {
        assert forall x | x in s[1..] :: x in s;
        InsertSorts(g, s[1..]);
        ConsSorted(s[0], InsertGrp(g, s[1..]));
      }
    }
  }

  lemma FirstIsLeast(s: seq<Grp>)
    requires s != [] && Sorted(s)
    ensures forall x | x in s[1..] :: MergeCmp(s[0], x) < 0
    ensures forall x | x in s && x != s[0] :: MergeCmp(s[0], x) < 0
  {
    hide MergeCmp;
    forall x | x in s && x != s[0] ensures MergeCmp(s[0], x) < 0 {
      var k :| 0 <= k < |s| && s[k] == x;
    }
    forall x | x in s[1..] ensures MergeCmp(s[0], x) < 0 {
      var k :| 0 <= k < |s[1..]| && s[1..][k] == x;
      assert s[k + 1] == x;
    }
  }

  /** Sorting orders any two different lines, even if a host names a group twice. */
  lemma {:induction false} SortSorts(s: seq<Grp>)
    requires Unique(s)
    ensures Sorted(SortGrps(s)) && (Distinct(s) ==> Distinct(SortGrps(s))) && (Untouched(s) ==> Untouched(SortGrps(s)))
  {
    hide MergeCmp, Other;
    if s != [] {
      SortSorts(s[1..]);
      forall x | x in SortGrps(s[1..]) ensures Other(s[0], x) {
        var k :| 0 <= k < |s[1..]| && s[1..][k] == x;
        assert s[k + 1] == x;
      }
      InsertSorts(s[0], SortGrps(s[1..]));
    }
    DistinctKept(s, SortGrps(s));
    UntouchedKept(s, SortGrps(s));
  }

  lemma DistinctKept(s: seq<Grp>, t: seq<Grp>)
    requires Sorted(t) && forall x | x in t :: x in s
    ensures Distinct(s) ==> Distinct(t)
  {
    hide MergeCmp;
    if Distinct(s) {
      forall i, j | 0 <= i < j < |t| && t[i].host == t[j].host ensures t[i].name != t[j].name {
        assert t[i] in s && t[j] in s;
        var a :| 0 <= a < |s| && s[a] == t[i];
        var b :| 0 <= b < |s| && s[b] == t[j];
        CmpSelf(t[i]);
        assert MergeCmp(t[i], t[j]) < 0;
      }
    }
  }

  lemma CmpSelf(g: Grp)
    ensures MergeCmp(g, g) == 0
  {
    CmpZero(g.name, g.name);
  }

  lemma UntouchedKept(s: seq<Grp>, t: seq<Grp>)
    requires forall x | x in t :: x in s
    ensures Untouched(s) ==> Untouched(t)
  {
    if Untouched(s) {
      forall i | 0 <= i < |t| ensures !t[i].output && !t[i].remove {
        assert t[i] in s;
        var k :| 0 <= k < |s| && s[k] == t[i];
      }
    }
  }

  lemma DistinctUnique(s: seq<Grp>)
    requires Distinct(s)
    ensures Unique(s)
  {}

  /** Sorting does not change what host 1's active file says. */
  lemma SortedTable(s: seq<Grp>)
    requires Distinct(s)
    ensures Table(SortGrps(s), Of1, Type) == Table(s, Of1, Type)
  {
    var l, r := Table(SortGrps(s), Of1, Type), Table(s, Of1, Type);
    forall n: string ensures (n in l <==> n in r) && (n in l ==> l[n] == r[n]) {
      SortedByName(s, n);
    }
    assert l == r;
  }

  lemma SortedByName(s: seq<Grp>, n: string)
    requires Distinct(s)
    ensures var l, r := Table(SortGrps(s), Of1, Type), Table(s, Of1, Type);
            (n in l <==> n in r) && (n in l ==> l[n] == r[n])
  {
    var t := SortGrps(s);
    TableHas(t, Of1, Type, n);
    TableHas(s, Of1, Type, n);
    hide Table, SortGrps;
    forall i | 0 <= i < |t| ensures exists j :: 0 <= j < |s| && s[j] == t[i] {
      assert t[i] in s;
    }
    forall i | 0 <= i < |s| ensures exists j :: 0 <= j < |t| && t[j] == s[i] {
      assert s[i] in t;
    }
  }

  /** Puts the array into the order for the merge. */
  method SortForMerge(grp: array<Grp>)
    requires Unique(grp[..])
    modifies grp
    ensures grp[..] == SortGrps(old(grp[..])) && Sorted(grp[..])
  {
    ghost var s := grp[..];
    SortSorts(s);
    var t := SortGrps(grp[..]);
    forall i | 0 <= i < grp.Length {
      grp[i] := t[i];
    }
    assert grp[..] == t;
  }

  // --- marking errors and the files -----------------------------------------------------------

  lemma {:induction false} SameTable(s: seq<Grp>, t: seq<Grp>)
    requires SameLines(s, t)
    ensures Table(s, Of1, Type) == Table(t, Of1, Type)
  {
    if s != [] {
      SameTable(s[..|s| - 1], t[..|t| - 1]);
    }
  }

  lemma GrownLines(s: seq<Grp>, t: seq<Grp>, host: Host)
    requires Grown(s, t, host)
    ensures SameLines(s, t)
    ensures Distinct(s) ==> Distinct(t)
    ensures Sorted(s) ==> Sorted(t)
    ensures Untouched(s) ==> Untouched(t)
  {
    assert SameLines(s, t);
    if Sorted(s) {
      LinesSorted(s, t);
    }
  }

  lemma {:induction false} GrownFile(s: seq<Grp>, t: seq<Grp>, host: Host)
    requires Grown(s, t, host)
    ensures Clean(s) ==> Clean(t)
    ensures ActiveFile(t) == ActiveFile(s)
  {
    if s != [] {
      GrownFile(s[..|s| - 1], t[..|t| - 1], host);
    }
  }

  predicate KeptInError(g: Grp) {
    Keep(g) && g.host.Host1? && g.errors != {}
  }

  lemma GrownSelf(s: seq<Grp>)
    ensures Grown(s, s, Host1) && Grown(s, s, Host2)
  {}

  /** Marking errors takes the groups of host 1 in error out of the new file, and nothing else. */
  lemma ErrorsRemove(s: seq<Grp>, t: seq<Grp>)
    requires Clean(s) && |s| == |t| && forall i | 0 <= i < |s| :: t[i] == Doomed(s[i], Host1)
    ensures Clean(t) && SameLines(s, t)
    ensures Listed(ActiveFile(t)) == Listed(ActiveFile(s)) - Table(s, KeptInError, Type).Keys
  {
    FileListed(s);
    FileListed(t);
    var l, r := Table(t, Keep, OutType), Table(s, Keep, OutType) - Table(s, KeptInError, Type).Keys;
    forall n: string ensures (n in l <==> n in r) && (n in l ==> l[n] == r[n]) {
      ErrorsByName(s, t, n);
    }
    assert l == r;
  }

  lemma ErrorsByName(s: seq<Grp>, t: seq<Grp>, n: string)
    requires Clean(s) && |s| == |t| && forall i | 0 <= i < |s| :: t[i] == Doomed(s[i], Host1)
    ensures var l, r := Table(t, Keep, OutType), Table(s, Keep, OutType) - Table(s, KeptInError, Type).Keys;
            (n in l <==> n in r) && (n in l ==> l[n] == r[n])
  {
    TableHas(t, Keep, OutType, n);
    TableHas(s, Keep, OutType, n);
    TableHas(s, KeptInError, Type, n);
    assert forall i | 0 <= i < |s| :: (Keep(t[i]) <==> Keep(s[i]) && !KeptInError(s[i])) && t[i].name == s[i].name
                                      && t[i].outType == s[i].outType;
    hide Table, Doomed;
  }

  // --- which groups are lost --------------------------------------------------------------------

  /** Every sound entry of the host in `s` has one in `t` that says the same. */
  predicate Echoed(s: seq<Grp>, t: seq<Grp>, host: Host) {
    forall x | x in s && Sound(x, host) :: exists y :: y in t && Sound(y, host) && y.name == x.name && y.typ == x.typ
  }

  lemma {:induction false} LeadsEchoed(s: seq<Grp>, t: seq<Grp>, host: Host, name: string, n: nat)
    requires Echoed(s, t, host) && Leads(s, host, name, n)
    ensures Leads(t, host, name, n)
    decreases n
  {
    var i :| 0 <= i < |s| && Sound(s[i], host) && s[i].name == name &&
      (!IsAlias(s[i]) || (n > 0 && Leads(s, host, Target(s[i]), n - 1)));
    assert s[i] in s;
    var y :| y in t && Sound(y, host) && y.name == s[i].name && y.typ == s[i].typ;
    var j :| 0 <= j < |t| && t[j] == y;
    if IsAlias(s[i]) {
      LeadsEchoed(s, t, host, Target(s[i]), n - 1);
    }
  }

  lemma AllLeadEchoed(s: seq<Grp>, t: seq<Grp>, host: Host)
    requires Echoed(s, t, host) && Echoed(t, s, host)
    ensures AllLead(s, host) <==> AllLead(t, host)
  {
    if AllLead(s, host) {
      AllLeadOver(s, t, host);
    }
    if AllLead(t, host) {
      AllLeadOver(t, s, host);
    }
  }

  lemma AllLeadOver(s: seq<Grp>, t: seq<Grp>, host: Host)
    requires Echoed(s, t, host) && Echoed(t, s, host) && AllLead(s, host)
    ensures AllLead(t, host)
  {
    hide Leads, Echoed;
    forall i | 0 <= i < |t| && IsAlias(t[i]) && Sound(t[i], host) ensures Leads(t, host, Target(t[i]), EQ_LOOP - 1) {
      var j := EchoOf(t, s, host, i);
      LeadsEchoed(s, t, host, Target(s[j]), EQ_LOOP - 1);
    }
  }

  lemma EchoOf(s: seq<Grp>, t: seq<Grp>, host: Host, i: nat) returns (j: nat)
    requires Echoed(s, t, host) && i < |s| && Sound(s[i], host)
    ensures j < |t| && Sound(t[j], host) && t[j].name == s[i].name && t[j].typ == s[i].typ
  {
    assert s[i] in s;
    var y :| y in t && Sound(y, host) && y.name == s[i].name && y.typ == s[i].typ;
    j :| j < |t| && t[j] == y;
  }

  /** The array after sorting and, if that is wanted, after the aliases of host 2 were checked. */
  function Marked(s: seq<Grp>, check: bool): seq<Grp> {
    if check then Resolved(SortGrps(s), Host2) else SortGrps(s)
  }

  /** The array after the aliases of host 1 were checked, if that is wanted. */
  function Flagged(paired: seq<Grp>, check: bool): seq<Grp> {
    if check then Resolved(paired, Host1) else paired
  }

  /** The result of the merge alone: host 2's groups, with -m over host 1's. */
  function Expected(s: seq<Grp>, o: Options): map<string, string> {
    (if o.merge then Table(s, Passes1, Type) else map[]) + Table(s, Passes2, Type)
  }

  /** Checking host 2 and pairing leave what host 1 says alone. */
  lemma Host1Stays(s: seq<Grp>, check: bool, paired: seq<Grp>, o: Options)
    requires Distinct(s) && Untouched(s) && MergedAll(Marked(s, check), paired, o)
    ensures Distinct(Marked(s, check)) && Untouched(Marked(s, check)) && Sorted(Marked(s, check))
    ensures forall x | x in s && x.host.Host1? :: x in Marked(s, check)
    ensures forall x | x in Marked(s, check) && x.host.Host1? :: x in s
    ensures Echoed(s, paired, Host1) && Echoed(paired, s, Host1)
  {
    hide Resolved, Merged, SortGrps, MergeCmp, Grown;
    var t, m := SortGrps(s), Marked(s, check);
    DistinctUnique(s);
    SortSorts(s);
    ResolvedSound(t, Host2);
    GrownSelf(t);
    GrownLines(t, m, Host2);
    OnlyHost2(t, m);
    forall x | x in s && x.host.Host1? ensures x in m {
      var j :| 0 <= j < |t| && t[j] == x;
      assert m[j] in m;
    }
    forall x | x in m && x.host.Host1? ensures x in s {
      var j :| 0 <= j < |m| && m[j] == x;
      assert t[j] in t;
    }
    PairedEchoes(m, paired, o);
    forall x | x in paired && Sound(x, Host1)
      ensures exists y :: y in s && Sound(y, Host1) && y.name == x.name && y.typ == x.typ
    {
      var y :| y in m && Sound(y, Host1) && y.name == x.name && y.typ == x.typ;
    }
  }

  lemma OnlyHost2(s: seq<Grp>, t: seq<Grp>)
    requires Grown(s, t, Host2)
    ensures |s| == |t| && forall i | 0 <= i < |s| && (s[i].host.Host1? || t[i].host.Host1?) :: t[i] == s[i]
  {}

  lemma PairedEchoes(m: seq<Grp>, paired: seq<Grp>, o: Options)
    requires MergedAll(m, paired, o) && Distinct(m) && Untouched(m)
    ensures Echoed(m, paired, Host1) && Echoed(paired, m, Host1)
  {
    forall i | 0 <= i < |m| ensures SameLine(m[i], paired[i]) && paired[i].errors == m[i].errors {
      MergedEntry(m, paired, i, o);
    }
    hide MergedAll, Merged;
    forall x | x in m && Sound(x, Host1)
      ensures exists y :: y in paired && Sound(y, Host1) && y.name == x.name && y.typ == x.typ
    {
      var i :| 0 <= i < |m| && m[i] == x;
      assert paired[i] in paired;
    }
    forall x | x in paired && Sound(x, Host1)
      ensures exists y :: y in m && Sound(y, Host1) && y.name == x.name && y.typ == x.typ
    {
      var i :| 0 <= i < |paired| && paired[i] == x;
      assert m[i] in m;
    }
  }

  /** A group of host 1 in error after the check is one that passed as an alias. */
  lemma OnlyAliasesLost(m: seq<Grp>, paired: seq<Grp>, o: Options, i: nat)
    requires Distinct(m) && Untouched(m) && MergedAll(m, paired, o) && i < |m|
    requires KeptInError(Resolved(paired, Host1)[i])
    ensures Passes1(m[i]) && IsAlias(m[i]) && m[i].name == Resolved(paired, Host1)[i].name
  {
    hide Resolved, Merged;
    ResolvedSound(paired, Host1);
    MergedEntry(m, paired, i, o);
  }

  /** A group of host 1 that passes as an alias but leads nowhere is not in the new file. */
  lemma BrokenLost(m: seq<Grp>, paired: seq<Grp>, o: Options, i: nat)
    requires Distinct(m) && Untouched(m) && MergedAll(m, paired, o) && i < |m|
    requires Passes1(m[i]) && IsAlias(m[i]) && !Leads(paired, Host1, Target(m[i]), EQ_LOOP - 1)
    ensures m[i].name !in Expected(m, o) - Table(Resolved(paired, Host1), KeptInError, Type).Keys
  {
    hide Resolved, Table, Leads, MergedAll, KeptInError;
    var u, n := Resolved(paired, Host1), m[i].name;
    ResolvedSound(paired, Host1);
    MergedEntry(m, paired, i, o);
    TableHas(u, KeptInError, Type, n);
    MergedLength(m, paired, o);
    ErrorAt(paired, u, i);
    if Keep(paired[i]) {
      assert KeptInError(u[i]) by {
        ShowKeptInError(u[i]);
      }
      assert u[i].name == n;
    } else {
      NotExpected(m, o, i);
    }
  }

  lemma ShowKeptInError(g: Grp)
    ensures Keep(g) && g.host.Host1? && g.errors != {} ==> KeptInError(g)
  {}

  lemma ErrorAt(s: seq<Grp>, u: seq<Grp>, i: nat)
    requires Grown(s, u, Host1) && i < |s|
    requires forall j | 0 <= j < |s| && IsAlias(u[j]) && Sound(u[j], Host1) ::
               Leads(s, Host1, Target(u[j]), EQ_LOOP - 1)
    ensures u[i].name == s[i].name && u[i].host == s[i].host && (Keep(s[i]) ==> Keep(u[i]))
    ensures s[i].host.Host1? && IsAlias(s[i]) && !Leads(s, Host1, Target(s[i]), EQ_LOOP - 1) ==> u[i].errors != {}
  {
    hide Leads;
  }

  lemma NotExpected(m: seq<Grp>, o: Options, i: nat)
    requires Distinct(m) && i < |m| && Passes1(m[i]) && !HasMate(m, i) && !o.merge
    ensures m[i].name !in Expected(m, o)
  {
    var n := m[i].name;
    TableHas(m, Passes2, Type, n);
    hide Table;
    assert forall j | 0 <= j < |m| :: Mates(m, i, j) <==> Passes2(m[j]) && m[j].name == n;
  }

  /** The aliases of host 1 all pass, and their groups are wanted: by -m, or because host 2 has them too. */
  predicate AliasesWanted(s: seq<Grp>, check: bool, o: Options) {
    forall x | x in s && Sound(x, Host1) && IsAlias(x) ::
      Passes(x) && (o.merge || x.name in Table(Marked(s, check), Passes2, Type))
  }

  /** What checking the aliases of host 1 takes out of the merge, said of the two active files as they were read.  All
      groups whose alias leads nowhere are lost; what is lost was an alias; and nothing is lost if every alias leads to
      a group. */
  lemma LossExact(s: seq<Grp>, check: bool, paired: seq<Grp>, o: Options, file: map<string, string>)
    requires Distinct(s) && Untouched(s) && MergedAll(Marked(s, check), paired, o)
    requires file == Expected(Marked(s, check), o) - Table(Resolved(paired, Host1), KeptInError, Type).Keys
    ensures forall x | x in s && Passes1(x) && IsAlias(x) && !Leads(s, Host1, Target(x), EQ_LOOP - 1) :: x.name !in file
    ensures forall n | n in Expected(Marked(s, check), o) && n !in file ::
              exists x :: x in s && Passes1(x) && IsAlias(x) && x.name == n
    ensures AllLead(s, Host1) ==> file == Expected(Marked(s, check), o)
    ensures AliasesWanted(s, check, o) ==> (file == Expected(Marked(s, check), o) <==> AllLead(s, Host1))
  {
    hide Resolved, Table, Leads, MergedAll, Merged, SortGrps, Expected, Marked, KeptInError;
    var m := Marked(s, check);
    Host1Stays(s, check, paired, o);
    AllLeadEchoed(s, paired, Host1);
    forall x | x in s && Passes1(x) && IsAlias(x) && !Leads(s, Host1, Target(x), EQ_LOOP - 1) ensures x.name !in file {
      AliasLost(s, check, paired, o, x);
    }
    forall n | n in Expected(m, o) && n !in file ensures exists x :: x in s && Passes1(x) && IsAlias(x) && x.name == n {
      LostWasAlias(m, paired, o, n);
      var x :| x in m && Passes1(x) && IsAlias(x) && x.name == n;
    }
    if AllLead(s, Host1) {
      NothingLost(s, check, paired, o);
      assert file == Expected(m, o);
    } else if AliasesWanted(s, check, o) {
      var i :| 0 <= i < |s| && IsAlias(s[i]) && Sound(s[i], Host1) && !Leads(s, Host1, Target(s[i]), EQ_LOOP - 1);
      assert s[i] in s && Passes1(s[i]);
      WantedIsExpected(m, o, s[i]);
    }
  }

  lemma WantedIsExpected(m: seq<Grp>, o: Options, x: Grp)
    requires x in m && Passes1(x) && (o.merge || x.name in Table(m, Passes2, Type))
    ensures x.name in Expected(m, o)
  {
    TableHas(m, Passes1, Type, x.name);
    hide Table;
    var i :| 0 <= i < |m| && m[i] == x;
  }

  lemma AliasLost(s: seq<Grp>, check: bool, paired: seq<Grp>, o: Options, x: Grp)
    requires Distinct(s) && Untouched(s) && MergedAll(Marked(s, check), paired, o)
    requires x in s && Passes1(x) && IsAlias(x) && !Leads(s, Host1, Target(x), EQ_LOOP - 1)
    ensures x.name !in Expected(Marked(s, check), o) - Table(Resolved(paired, Host1), KeptInError, Type).Keys
  {
    hide Resolved, Table, Leads, MergedAll, Merged, SortGrps, Expected, Marked, KeptInError;
    var m := Marked(s, check);
    Host1Stays(s, check, paired, o);
    if Leads(paired, Host1, Target(x), EQ_LOOP - 1) {
      LeadsEchoed(paired, s, Host1, Target(x), EQ_LOOP - 1);
    }
    var i :| 0 <= i < |m| && m[i] == x;
    BrokenLost(m, paired, o, i);
  }

  lemma LostWasAlias(m: seq<Grp>, paired: seq<Grp>, o: Options, n: string)
    requires Distinct(m) && Untouched(m) && MergedAll(m, paired, o)
    requires n in Table(Resolved(paired, Host1), KeptInError, Type)
    ensures exists x :: x in m && Passes1(x) && IsAlias(x) && x.name == n
  {
    hide Resolved, MergedAll, KeptInError, Table;
    var u := Resolved(paired, Host1);
    TableHas(u, KeptInError, Type, n);
    ResolvedSound(paired, Host1);
    var i :| 0 <= i < |u| && KeptInError(u[i]) && u[i].name == n;
    MergedLength(m, paired, o);
    OnlyAliasesLost(m, paired, o, i);
    assert m[i] in m;
  }

  lemma MergedLength(m: seq<Grp>, paired: seq<Grp>, o: Options)
    requires MergedAll(m, paired, o)
    ensures |m| == |paired|
  {}

  lemma NothingLost(s: seq<Grp>, check: bool, paired: seq<Grp>, o: Options)
    requires Distinct(s) && Untouched(s) && MergedAll(Marked(s, check), paired, o) && AllLead(s, Host1)
    ensures Table(Resolved(paired, Host1), KeptInError, Type).Keys == {}
  {
    hide Resolved, Leads, Merged, SortGrps, Marked, Sorted;
    var m := Marked(s, check);
    Host1Stays(s, check, paired, o);
    AllLeadEchoed(s, paired, Host1);
    forall i | 0 <= i < |m| ensures SameLine(m[i], paired[i]) && !KeptInError(paired[i]) {
      MergedEntry(m, paired, i, o);
    }
    LinesSorted(m, paired);
    ResolvedExact(paired, Host1);
    forall n: string ensures n !in Table(paired, KeptInError, Type) {
      TableHas(paired, KeptInError, Type, n);
    }
  }

  // --- the whole program ----------------------------------------------------------------------

  /** The entries after those of host 1 in error were marked for removal, if that is wanted. */
  predicate Ended(u: seq<Grp>, t: seq<Grp>, keepErrors: bool) {
    |t| == |u| && forall i | 0 <= i < |u| :: t[i] == if keepErrors then u[i] else Doomed(u[i], Host1)
  }

  /** Merges the groups of both hosts and puts the result out in both forms.  `paired` is the array after pairing.  What
      comes out is stated for any two active files; the rest is for hosts that name each group once. */
  method Synchronize(grp: array<Grp>, o: Options, checkHost1: bool, checkHost2: bool, keepErrors: bool)
    returns (lines: seq<Line>, cmds: seq<Command>, ghost paired: seq<Grp>)
    requires Unique(grp[..]) && Untouched(grp[..])
    modifies grp
    ensures Sorted(Marked(old(grp[..]), checkHost2)) && Untouched(Marked(old(grp[..]), checkHost2))
    ensures MergedAll(Marked(old(grp[..]), checkHost2), paired, o)
    ensures Ended(Flagged(paired, checkHost1), grp[..], keepErrors)
    ensures lines == ActiveFile(grp[..]) && cmds == Script(grp[..])
    ensures Distinct(old(grp[..])) ==>
              ApplyAll(Table(old(grp[..]), Of1, Type), cmds) == Table(grp[..], Left1, Type) + Listed(lines)
    ensures Distinct(old(grp[..])) ==>
              Listed(lines) == Expected(Marked(old(grp[..]), checkHost2), o)
                               - if keepErrors then {} else Table(Flagged(paired, checkHost1), KeptInError, Type).Keys
    ensures Distinct(old(grp[..])) && (keepErrors || !checkHost1 || AllLead(old(grp[..]), Host1)) ==>
              Listed(lines) == Expected(Marked(old(grp[..]), checkHost2), o)
    ensures Distinct(old(grp[..])) && !keepErrors && checkHost1 && AliasesWanted(old(grp[..]), checkHost2, o) ==>
              (Listed(lines) == Expected(Marked(old(grp[..]), checkHost2), o) <==> AllLead(old(grp[..]), Host1))
    ensures Distinct(old(grp[..])) && !keepErrors && checkHost1 ==>
              forall x | x in old(grp[..]) && Passes1(x) && IsAlias(x)
                         && !Leads(old(grp[..]), Host1, Target(x), EQ_LOOP - 1) :: x.name !in Listed(lines)
    ensures Distinct(old(grp[..])) ==>
              forall n | n in Expected(Marked(old(grp[..]), checkHost2), o) && n !in Listed(lines) ::
                exists x :: x in old(grp[..]) && Passes1(x) && IsAlias(x) && x.name == n
    ensures Distinct(old(grp[..])) ==> forall l | l in lines :: NumbersOf(Marked(old(grp[..]), checkHost2), o, l)
    ensures Distinct(old(grp[..])) ==> forall c | c in cmds :: CommandOf(Marked(old(grp[..]), checkHost2), c)
  {
    hide *;
    ghost var s := grp[..];
    SortSorts(s);
    SortForMerge(grp);
    ghost var sorted := grp[..];
    if checkHost2 {
      MarkEqProbs(grp, Host2);
    }
    ghost var m := grp[..];
    MarkedSorted(s, checkHost2);
    MarkedIs(s, checkHost2);
    PairUp(grp, o);
    paired := grp[..];
    ShowMergedAll(m, paired, o);
    if checkHost1 {
      MarkEqProbs(grp, Host1);
    }
    FlaggedIs(paired, checkHost1);
    ghost var flagged := grp[..];
    if !keepErrors {
      ErrorMark(grp, Host1);
    }
    ShowEnded(flagged, grp[..], keepErrors);
    lines := OutputActive(grp);
    cmds := OutputScript(grp);
    if Distinct(s) {
      OnceNamed(s, checkHost1, checkHost2, keepErrors, paired, o, grp[..]);
      forall l | l in lines ensures NumbersOf(m, o, l) {
        NumbersRight(s, checkHost1, checkHost2, keepErrors, paired, o, grp[..], l);
      }
      forall c | c in cmds ensures CommandOf(m, c) {
        CommandsFit(s, checkHost1, checkHost2, keepErrors, paired, o, grp[..], c);
      }
    }
  }

  lemma MarkedIs(s: seq<Grp>, check: bool)
    ensures Marked(s, check) == if check then Resolved(SortGrps(s), Host2) else SortGrps(s)
  {}

  lemma FlaggedIs(paired: seq<Grp>, check: bool)
    ensures Flagged(paired, check) == if check then Resolved(paired, Host1) else paired
  {}

  lemma ShowMergedAll(m: seq<Grp>, paired: seq<Grp>, o: Options)
    requires |m| == |paired| && forall i | 0 <= i < |m| :: Merged(m, i, paired[i], o)
    ensures MergedAll(m, paired, o)
  {
    hide Merged;
  }

  lemma ShowEnded(u: seq<Grp>, t: seq<Grp>, keepErrors: bool)
    requires |t| == |u| && forall i | 0 <= i < |u| :: t[i] == if keepErrors then u[i] else Doomed(u[i], Host1)
    ensures Ended(u, t, keepErrors)
  {}

  /** The array before pairing is sorted, whatever the aliases of host 2. */
  lemma MarkedSorted(s: seq<Grp>, check: bool)
    requires Unique(s)
    ensures Sorted(Marked(s, check)) && SameLines(SortGrps(s), Marked(s, check))
    ensures Untouched(s) ==> Untouched(Marked(s, check))
  {
    hide Resolved, SortGrps, Sorted, Grown, Untouched, SameLines;
    SortSorts(s);
    GrownSelf(SortGrps(s));
    if check {
      ResolvedSound(SortGrps(s), Host2);
    }
    GrownLines(SortGrps(s), Marked(s, check), Host2);
  }

  /** Script and file agree, and the file is the merge less the groups of aliases of host 1 that were found broken. */
  lemma OnceNamed(s: seq<Grp>, check1: bool, check2: bool, keepErrors: bool, paired: seq<Grp>, o: Options, t: seq<Grp>)
    requires Distinct(s) && Untouched(s) && MergedAll(Marked(s, check2), paired, o)
    requires Ended(Flagged(paired, check1), t, keepErrors)
    ensures var lines, cmds, wanted := ActiveFile(t), Script(t), Expected(Marked(s, check2), o);
            && ApplyAll(Table(s, Of1, Type), cmds) == Table(t, Left1, Type) + Listed(lines)
            && Listed(lines) ==
               wanted - (if keepErrors then {} else Table(Flagged(paired, check1), KeptInError, Type).Keys)
            && (keepErrors || !check1 || AllLead(s, Host1) ==> Listed(lines) == wanted)
            && (!keepErrors && check1 && AliasesWanted(s, check2, o) ==>
                  (Listed(lines) == wanted <==> AllLead(s, Host1)))
            && (!keepErrors && check1 ==>
                  forall x | x in s && Passes1(x) && IsAlias(x) && !Leads(s, Host1, Target(x), EQ_LOOP - 1) ::
                    x.name !in Listed(lines))
            && forall n | n in wanted && n !in Listed(lines) ::
                 exists x :: x in s && Passes1(x) && IsAlias(x) && x.name == n
  {
    hide *;
    var m, u := Marked(s, check2), Flagged(paired, check1);
    OnceNamedScript(s, check1, check2, keepErrors, paired, o, t);
    OnceNamedFile(s, check1, check2, keepErrors, paired, o, t);
    if !keepErrors {
      FlaggedIs(paired, check1);
      if check1 {
        LossExact(s, check2, paired, o, Listed(ActiveFile(t)));
      } else {
        Host1Stays(s, check2, paired, o);
        NoErrorKept(m, paired, o);
      }
    }
  }

  lemma PairedClean(s: seq<Grp>, check1: bool, check2: bool, paired: seq<Grp>, o: Options)
    requires Distinct(s) && Untouched(s) && MergedAll(Marked(s, check2), paired, o)
    ensures Clean(Flagged(paired, check1)) && ActiveFile(Flagged(paired, check1)) == ActiveFile(paired)
    ensures SameLines(paired, Flagged(paired, check1))
  {
    hide *;
    Host1Stays(s, check2, paired, o);
    MergeClean(Marked(s, check2), paired, o);
    FlaggedIs(paired, check1);
    GrownSelf(paired);
    if check1 {
      ResolvedSound(paired, Host1);
    }
    GrownFile(paired, Flagged(paired, check1), Host1);
    GrownLines(paired, Flagged(paired, check1), Host1);
  }

  lemma OnceNamedFile(s: seq<Grp>, check1: bool, check2: bool, keepErrors: bool, paired: seq<Grp>, o: Options,
                      t: seq<Grp>)
    requires Distinct(s) && Untouched(s) && MergedAll(Marked(s, check2), paired, o)
    requires Ended(Flagged(paired, check1), t, keepErrors)
    ensures Listed(ActiveFile(t)) ==
            Expected(Marked(s, check2), o)
            - if keepErrors then {} else Table(Flagged(paired, check1), KeptInError, Type).Keys
    ensures Clean(t) && SameLines(Flagged(paired, check1), t)
  {
    hide *;
    var u := Flagged(paired, check1);
    PairedClean(s, check1, check2, paired, o);
    Host1Stays(s, check2, paired, o);
    MergeResult(Marked(s, check2), paired, o);
    ExpectedIs(Marked(s, check2), o);
    EndedIs(u, t, keepErrors);
    if !keepErrors {
      ErrorsRemove(u, t);
    }
  }

  lemma EndedIs(u: seq<Grp>, t: seq<Grp>, keepErrors: bool)
    requires Ended(u, t, keepErrors)
    ensures |t| == |u| && if keepErrors then t == u else forall i | 0 <= i < |u| :: t[i] == Doomed(u[i], Host1)
    ensures SameLines(u, t)
  {}

  lemma OnceNamedScript(s: seq<Grp>, check1: bool, check2: bool, keepErrors: bool, paired: seq<Grp>, o: Options,
                        t: seq<Grp>)
    requires Distinct(s) && Untouched(s) && MergedAll(Marked(s, check2), paired, o)
    requires Ended(Flagged(paired, check1), t, keepErrors)
    ensures ApplyAll(Table(s, Of1, Type), Script(t)) == Table(t, Left1, Type) + Listed(ActiveFile(t))
  {
    hide *;
    OnceNamedFile(s, check1, check2, keepErrors, paired, o, t);
    ScriptIsFile(t);
    DistinctUnique(s);
    SortedTable(s);
    MarkedSorted(s, check2);
    SameTable(SortGrps(s), Marked(s, check2));
    MergedLines(Marked(s, check2), paired, o);
    SameTable(Marked(s, check2), paired);
    PairedClean(s, check1, check2, paired, o);
    SameTable(paired, Flagged(paired, check1));
    SameTable(Flagged(paired, check1), t);
  }

  lemma MergedLines(s: seq<Grp>, t: seq<Grp>, o: Options)
    requires MergedAll(s, t, o)
    ensures SameLines(s, t)
  {
    forall i | 0 <= i < |s| ensures SameLine(s[i], t[i]) {
      assert Merged(s, i, t[i], o);
    }
  }

  // --- article numbers ------------------------------------------------------------------------

  ghost predicate Has1(s: seq<Grp>, n: string) {
    exists g :: g in s && Passes1(g) && g.name == n
  }

  ghost predicate Has2(s: seq<Grp>, n: string) {
    exists g :: g in s && Passes2(g) && g.name == n
  }

  /** The article numbers of a line that is put out.  Of a group of host 1 they are host 1's, unless host 2 has the
      group too and its numbers are wanted; of a group of host 2 alone they are host 2's or those of an empty group. */
  ghost predicate NumbersOf(s: seq<Grp>, o: Options, l: Line) {
    && (Has1(s, l.name) || Has2(s, l.name))
    && (forall g | g in s && Passes1(g) && g.name == l.name && !(o.host2HiLowAll && Has2(s, l.name)) ::
          l.hi == g.hi && l.low == g.low)
    && (forall g | g in s && Passes2(g) && g.name == l.name ::
          && (Has1(s, l.name) && o.host2HiLowAll ==> l.hi == g.hi && l.low == g.low)
          && (!Has1(s, l.name) && o.host2HiLowNew ==> l.hi == g.hi && l.low == g.low)
          && (!Has1(s, l.name) && !o.host2HiLowNew ==> l.hi == "0000000000" && l.low == "0000000001"))
  }

  lemma {:induction false} FileLine(t: seq<Grp>, l: Line) returns (i: nat)
    requires l in ActiveFile(t)
    ensures i < |t| && Keep(t[i]) && l == Line(t[i].name, t[i].outHi, t[i].outLow, t[i].outType)
  {
    var init := t[..|t| - 1];
    if l in ActiveFile(init) {
      i := FileLine(init, l);
    } else {
      i := |t| - 1;
    }
  }

  lemma MergedNumbers(s: seq<Grp>, t: seq<Grp>, i: nat, o: Options)
    requires Distinct(s) && Untouched(s) && MergedAll(s, t, o) && i < |s| && Keep(t[i])
    ensures t[i].name == s[i].name && Passes(s[i])
    ensures s[i].host.Host2? ==>
              !HasMate(s, i) && if o.host2HiLowNew then t[i].outHi == s[i].hi && t[i].outLow == s[i].low
                                else t[i].outHi == "0000000000" && t[i].outLow == "0000000001"
    ensures s[i].host.Host1? && !(o.host2HiLowAll && HasMate(s, i)) ==> t[i].outHi == s[i].hi && t[i].outLow == s[i].low
    ensures s[i].host.Host1? && o.host2HiLowAll && HasMate(s, i) ==>
              exists j :: 0 <= j < |s| && Mates(s, i, j) && t[i].outHi == s[j].hi && t[i].outLow == s[j].low
  {
    assert Merged(s, i, t[i], o);
    assert forall j | 0 <= j < i :: !Twin(s, i, j);
  }

  lemma OnlyOne(s: seq<Grp>, i: nat, g: Grp)
    requires Distinct(s) && i < |s| && g in s && g.host == s[i].host && g.name == s[i].name
    ensures g == s[i]
  {
    var k :| 0 <= k < |s| && s[k] == g;
  }

  lemma MateIs(s: seq<Grp>, i: nat)
    requires i < |s|
    ensures HasMate(s, i) <==> if s[i].host.Host1? then Has2(s, s[i].name) else Has1(s, s[i].name)
  {
    if HasMate(s, i) {
      var j :| 0 <= j < |s| && Mates(s, i, j);
      assert s[j] in s && (Passes1(s[j]) || Passes2(s[j]));
    }
    if g :| g in s && (if s[i].host.Host1? then Passes2(g) else Passes1(g)) && g.name == s[i].name {
      var j :| 0 <= j < |s| && s[j] == g;
      assert Mates(s, i, j);
    }
  }

  lemma KeptNumbers(s: seq<Grp>, t: seq<Grp>, i: nat, o: Options)
    requires Distinct(s) && Untouched(s) && MergedAll(s, t, o) && i < |s| && Keep(t[i])
    ensures NumbersOf(s, o, Line(t[i].name, t[i].outHi, t[i].outLow, t[i].outType))
  {
    MergedNumbers(s, t, i, o);
    MateIs(s, i);
    assert s[i] in s && (if s[i].host.Host1? then Passes1(s[i]) else Passes2(s[i]));
    hide MergedAll, Keep, HasMate, Untouched;
    var l := Line(t[i].name, t[i].outHi, t[i].outLow, t[i].outType);
    forall g | g in s && Passes1(g) && g.name == l.name && !(o.host2HiLowAll && Has2(s, l.name))
      ensures l.hi == g.hi && l.low == g.low
    {
      if s[i].host.Host1? {
        OnlyOne(s, i, g);
      }
    }
    forall g | g in s && Passes2(g) && g.name == l.name
      ensures Has1(s, l.name) && o.host2HiLowAll ==> l.hi == g.hi && l.low == g.low
      ensures !Has1(s, l.name) && o.host2HiLowNew ==> l.hi == g.hi && l.low == g.low
      ensures !Has1(s, l.name) && !o.host2HiLowNew ==> l.hi == "0000000000" && l.low == "0000000001"
    {
      if s[i].host.Host2? {
        OnlyOne(s, i, g);
      } else if o.host2HiLowAll {
        var j :| 0 <= j < |s| && Mates(s, i, j) && t[i].outHi == s[j].hi && t[i].outLow == s[j].low;
        OnlyOne(s, j, g);
      }
    }
  }

  /** What a command is for: only groups of host 1 are removed, only groups that host 1 does not have are made, and only
      the type of a group of host 1 is changed, to the one that host 2 has. */
  ghost predicate CommandOf(s: seq<Grp>, c: Command) {
    match c
    case RmGroup(n) => exists g :: g in s && g.host.Host1? && g.name == n
    case NewGroup(n, typ) => !Has1(s, n) && exists g :: g in s && Passes2(g) && g.name == n && g.typ == typ
    case ChangeGroup(n, typ) =>
      && (exists g :: g in s && Passes1(g) && g.name == n && g.typ != typ)
      && exists g :: g in s && Passes2(g) && g.name == n && g.typ == typ
  }

  lemma {:induction false} RemovalFrom(t: seq<Grp>, c: Command) returns (i: nat)
    requires c in Removals(t)
    ensures i < |t| && Removed(t[i]) && c == RmGroup(t[i].name)
  {
    var init := t[..|t| - 1];
    if c in Removals(init) {
      i := RemovalFrom(init, c);
    } else {
      i := |t| - 1;
    }
  }

  lemma {:induction false} AdditionFrom(t: seq<Grp>, c: Command) returns (i: nat)
    requires c in Additions(t)
    ensures i < |t| && NeedsCommand(t[i])
    ensures c == if t[i].host.Host2? then NewGroup(t[i].name, t[i].outType) else ChangeGroup(t[i].name, t[i].outType)
  {
    hide NeedsCommand;
    var init := t[..|t| - 1];
    if c in Additions(init) {
      i := AdditionFrom(init, c);
    } else {
      i := |t| - 1;
    }
  }

  lemma AddedFor(s: seq<Grp>, t: seq<Grp>, i: nat, o: Options)
    requires Distinct(s) && Untouched(s) && MergedAll(s, t, o) && i < |s| && NeedsCommand(t[i])
    ensures CommandOf(s, if t[i].host.Host2? then NewGroup(t[i].name, t[i].outType)
                         else ChangeGroup(t[i].name, t[i].outType))
  {
    MergedEntry(s, t, i, o);
    MateIs(s, i);
    hide MergedAll, Untouched, Distinct;
    assert s[i] in s && (Passes1(s[i]) || Passes2(s[i]));
    if s[i].host.Host1? && HasMate(s, i) {
      var j :| 0 <= j < |s| && Mates(s, i, j) && t[i].outType == s[j].typ;
      assert s[j] in s && Passes2(s[j]);
    }
  }

  lemma EndedCommand(s: seq<Grp>, t: seq<Grp>, u: seq<Grp>, keepErrors: bool, i: nat)
    requires Grown(s, u, Host1) && Ended(u, t, keepErrors) && i < |t| && NeedsCommand(t[i])
    ensures i < |s| && NeedsCommand(s[i]) && t[i].name == s[i].name && t[i].host == s[i].host
    ensures t[i].outType == s[i].outType
  {}

  lemma EndedRemoval(s: seq<Grp>, t: seq<Grp>, u: seq<Grp>, keepErrors: bool, i: nat)
    requires Grown(s, u, Host1) && Ended(u, t, keepErrors) && i < |t| && Removed(t[i])
    requires forall j | 0 <= j < |s| && s[j].remove :: s[j].host.Host1?
    ensures i < |s| && t[i].name == s[i].name && s[i].host.Host1?
  {}

  /** Every command is for a group that needs it. */
  lemma CommandsFit(s: seq<Grp>, check1: bool, check2: bool, keepErrors: bool, paired: seq<Grp>, o: Options,
                    t: seq<Grp>, c: Command)
    requires Distinct(s) && Untouched(s) && MergedAll(Marked(s, check2), paired, o)
    requires Ended(Flagged(paired, check1), t, keepErrors) && c in Script(t)
    ensures CommandOf(Marked(s, check2), c)
  {
    var m := Marked(s, check2);
    assert c in Removals(t) || c in Additions(t);
    hide *;
    Host1Stays(s, check2, paired, o);
    FlaggedIs(paired, check1);
    GrownSelf(paired);
    if check1 {
      ResolvedSound(paired, Host1);
    }
    MergedLength(m, paired, o);
    if c in Additions(t) {
      var i := AdditionFrom(t, c);
      EndedCommand(paired, t, Flagged(paired, check1), keepErrors, i);
      AddedFor(m, paired, i, o);
    } else {
      var i := RemovalFrom(t, c);
      MergeClean(m, paired, o);
      CleanRemoves(paired);
      EndedRemoval(paired, t, Flagged(paired, check1), keepErrors, i);
      MergedLines(m, paired, o);
      RemovedFor(m, paired, i);
    }
  }

  lemma CleanRemoves(t: seq<Grp>)
    requires Clean(t)
    ensures forall j | 0 <= j < |t| && t[j].remove :: t[j].host.Host1?
  {}

  lemma RemovedFor(m: seq<Grp>, paired: seq<Grp>, i: nat)
    requires SameLines(m, paired) && i < |m| && paired[i].host.Host1?
    ensures CommandOf(m, RmGroup(paired[i].name))
  {
    assert m[i] in m;
  }

  lemma KeptBefore(s: seq<Grp>, t: seq<Grp>, u: seq<Grp>, keepErrors: bool, i: nat)
    requires Grown(s, u, Host1) && Ended(u, t, keepErrors) && i < |t| && Keep(t[i])
    ensures i < |s| && Keep(s[i]) && t[i].name == s[i].name
    ensures t[i].outHi == s[i].outHi && t[i].outLow == s[i].outLow && t[i].outType == s[i].outType
  {}

  /** Every line that is put out has the article numbers that the options ask for. */
  lemma NumbersRight(s: seq<Grp>, check1: bool, check2: bool, keepErrors: bool, paired: seq<Grp>, o: Options,
                     t: seq<Grp>, l: Line)
    requires Distinct(s) && Untouched(s) && MergedAll(Marked(s, check2), paired, o)
    requires Ended(Flagged(paired, check1), t, keepErrors) && l in ActiveFile(t)
    ensures NumbersOf(Marked(s, check2), o, l)
  {
    hide *;
    var i := FileLine(t, l);
    Host1Stays(s, check2, paired, o);
    FlaggedIs(paired, check1);
    GrownSelf(paired);
    if check1 {
      ResolvedSound(paired, Host1);
    }
    KeptBefore(paired, t, Flagged(paired, check1), keepErrors, i);
    MergedLength(Marked(s, check2), paired, o);
    KeptNumbers(Marked(s, check2), paired, i, o);
  }

  lemma ExpectedIs(s: seq<Grp>, o: Options)
    ensures Expected(s, o) == (if o.merge then Table(s, Passes1, Type) else map[]) + Table(s, Passes2, Type)
  {}

  lemma NoErrorKept(m: seq<Grp>, paired: seq<Grp>, o: Options)
    requires Distinct(m) && Untouched(m) && MergedAll(m, paired, o)
    ensures Table(paired, KeptInError, Type).Keys == {}
  {
    hide Merged;
    forall i | 0 <= i < |m| ensures !KeptInError(paired[i]) {
      MergedEntry(m, paired, i, o);
    }
    forall n: string ensures n !in Table(paired, KeptInError, Type) {
      TableHas(paired, KeptInError, Type, n);
    }
  }

  /** A group of both hosts disappears although host 2 has it in good order, because host 1's old alias for it is
      broken: the error removes the line that already stands for the type of host 2. */
  method BrokenAliasLost(grp: array<Grp>, o: Options) returns (lines: seq<Line>)
    requires grp[..] == [Grp("a", "=b", Host1, 1, "", "", {}, {}, false, false, "", "", ""),
                         Grp("a", "y", Host2, 1, "", "", {}, {}, false, false, "", "", "")]
    modifies grp
    ensures Expected(SortGrps(old(grp[..])), o) == map["a" := "y"] && Listed(lines) == map[]
  {
    hide Resolved, SortGrps, Listed, Table, MergedAll;
    ghost var s := grp[..];
    assert forall i | 0 <= i < |s| :: s[i].name == "a";
    assert !Leads(s, Host1, "b", EQ_LOOP - 1) by {
      assert "a"[0] != "b"[0];
    }
    assert s[0] in s && Target(s[0]) == "b";
    ExampleExpected(s, o);
    var cmds;
    ghost var paired;
    lines, cmds, paired := Synchronize(grp, o, true, false, false);
    assert forall n | n in Listed(lines) :: n in Expected(Marked(s, false), o);
    assert "a" !in Listed(lines);
  }

  lemma ExampleExpected(s: seq<Grp>, o: Options)
    requires s == [Grp("a", "=b", Host1, 1, "", "", {}, {}, false, false, "", "", ""),
                   Grp("a", "y", Host2, 1, "", "", {}, {}, false, false, "", "", "")]
    ensures Expected(SortGrps(s), o) == map["a" := "y"]
  {
    var t := SortGrps(s);
    hide SortGrps;
    assert s[0] in s && s[1] in s;
    forall x | x in t ensures x == s[0] || x == s[1] {
      assert x in s;
    }
    var k :| 0 <= k < |t| && t[k] == s[1];
    forall n: string
      ensures n in Expected(t, o) <==> n == "a"
      ensures n in Expected(t, o) ==> Expected(t, o)[n] == "y"
    {
      TableHas(t, Passes1, Type, n);
      TableHas(t, Passes2, Type, n);
      hide Table;
      assert forall i | 0 <= i < |t| :: t[i] in t;
      assert Passes2(t[k]) && t[k].name == "a";
    }
    assert Expected(t, o) == map["a" := "y"];
  }

  // --- a group that is named twice ------------------------------------------------------------

  lemma {:induction false} SortedStays(s: seq<Grp>)
    requires Sorted(s)
    ensures SortGrps(s) == s
  {
    hide MergeCmp;
    if s != [] {
      SortedStays(s[1..]);
      assert |s| > 1 ==> MergeCmp(s[0], s[1]) < 0;
    }
  }

  function Line1(line: nat): Grp {
    Grp("a", "y", Host1, line, "", "", {}, {}, false, false, "", "", "")
  }

  function Line2(): Grp {
    Line1(1).(host := Host2)
  }

  lemma TwiceSorted()
    ensures var s := [Line1(1), Line1(2), Line2()];
            Sorted(s) && Unique(s) && Untouched(s) && SortGrps(s) == s
  {
    var s := [Line1(1), Line1(2), Line2()];
    CmpZero("a", "a");
    SortedStays(s);
  }

  lemma TwiceMerged(t: seq<Grp>, u: seq<Grp>, o: Options)
    requires MergedAll([Line1(1), Line1(2), Line2()], t, o) && Ended(t, u, false)
    ensures |u| == 3 && Keep(u[0]) && Removed(u[1]) && !Keep(u[2]) && u[0].typ == u[0].outType
    ensures u[0].name == "a" == u[1].name && u[0].host.Host1?
  {
    var s := [Line1(1), Line1(2), Line2()];
    assert Merged(s, 0, t[0], o) && Merged(s, 1, t[1], o) && Merged(s, 2, t[2], o);
    assert Mates(s, 0, 2) && Twin(s, 1, 0) && Mates(s, 2, 0);
  }

  /** Both hosts have the group, and host 1 has it twice: the new file has the group, but all that the script does is to
      remove it. */
  method DuplicateLost(grp: array<Grp>, o: Options) returns (lines: seq<Line>, cmds: seq<Command>)
    requires grp[..] == [Line1(1), Line1(2), Line2()]
    modifies grp
    ensures "a" in Listed(lines) && "a" !in ApplyAll(Table(grp[..], Of1, Type), cmds)
  {
    hide *;
    TwiceSorted();
    ghost var s := grp[..];
    ghost var paired;
    lines, cmds, paired := Synchronize(grp, o, false, false, false);
    ghost var u := grp[..];
    MarkedIs(s, false);
    FlaggedIs(paired, false);
    TwiceMerged(paired, u, o);
    TwiceLost(u);
    LostByScript(u, "a");
  }

  lemma TwiceLost(u: seq<Grp>)
    requires |u| == 3 && Keep(u[0]) && Removed(u[1]) && !Keep(u[2]) && u[0].typ == u[0].outType
    requires u[0].name == "a" == u[1].name && u[0].host.Host1?
    ensures LostName(u, 0, 1, "a") && forall k | 0 <= k < |u| && NeedsCommand(u[k]) :: u[k].name != "a"
  {}
}
