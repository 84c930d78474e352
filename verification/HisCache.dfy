/** The history API: a direct-mapped cache of positive and negative answers in front of the history database. */
module HisCache {

  /** The hash of a message-ID; `tail` is its last four bytes, read as an unsigned integer. */
  datatype Hash = Hash(head: nat, tail: nat)

  datatype Entry = Entry(hash: Hash, found: bool)

  /** What freshly allocated cache memory reads as. */
  const ZERO := Hash(0, 0)
  const BLANK := Entry(ZERO, false)

  datatype Stats = Stats(hitpos: nat, hitneg: nat, misses: nat, dne: nat)

  datatype Found = Hit | Miss | Dne

  function Total(s: Stats): nat {
    s.hitpos + s.hitneg + s.misses + s.dne
  }

  /** The place of a hash in the cache. */
  function Loc(h: Hash, size: nat): (i: nat)
    requires size > 0
    ensures i < size && (h.tail == 0 ==> i == 0)
  {
    h.tail % size
  }

  function Times(q: int, n: nat): int {
    q * n
  }

  lemma Differ(x: int, y: int, n: nat)
    ensures Times(x, n) - Times(y, n) == Times(x - y, n)
  {
    assert x * n - y * n == (x - y) * n;
  }

  lemma {:induction false} Grows(q: int, n: nat)
    requires q > 0
    ensures Times(q, n) >= n
  {
    if q > 1 {
      Grows(q - 1, n);
      Differ(q, q - 1, n);
    }
  }

  /** A multiple that is less than the number itself is zero. */
  lemma NearZero(q: int, n: nat, r: int)
    requires 0 < r + n && r < n && Times(q, n) == r
    ensures r == 0
  {
    hide Times;
    Differ(0, q, n);
    assert Times(0, n) == 0 by {
      Differ(0, 0, n);
    }
    if q > 0 {
      Grows(q, n);
    } else if q < 0 {
      Grows(-q, n);
    }
  }

  lemma Divided(t: nat, n: nat) returns (q: int, r: nat)
    requires n > 0
    ensures t == Times(q, n) + r && r < n && r == t % n
  {
    q, r := t / n, t % n;
  }

  /** Two hashes share a place if and only if their tails differ by a multiple of the size. */
  lemma SamePlace(a: Hash, b: Hash, size: nat)
    requires size > 0
    ensures Loc(a, size) == Loc(b, size) <==> exists q: int :: a.tail - b.tail == Times(q, size)
  {
    var x, i := Divided(a.tail, size);
    var y, j := Divided(b.tail, size);
    assert Loc(a, size) == i && Loc(b, size) == j;
    hide *;
    Differ(x, y, size);
    if i == j {
      assert a.tail - b.tail == Times(x - y, size);
    }
    if q :| a.tail - b.tail == Times(q, size) {
      Differ(q, x - y, size);
      NearZero(q - (x - y), size, i - j);
    }
  }

  /** An entry says of its hash what the database says. */
  predicate EntryOk(db: set<Hash>, size: nat, i: nat, e: Entry) {
    e == BLANK || (size > 0 && Loc(e.hash, size) == i && (e.found <==> e.hash in db))
  }

  // --- what calls do --------------------------------------------------------------------------

  /** A call of the API, with the size or the report of the database where it matters. */
  datatype Call = Check(h: Hash) | Store(h: Hash, stored: bool) | SetCache(size: nat) | ReadStats

  function DbAfter(db: set<Hash>, c: Call): set<Hash> {
    if c.Store? && c.stored then db + {c.h} else db
  }

  /** The answer of the database, if one is asked for. */
  function Answer(db: set<Hash>, c: Call): seq<bool> {
    if c.Check? then [c.h in db] else []
  }

  /** The size of the cache, and whether its first entry reads as one that was never set. */
  datatype Slot = Slot(size: nat, blank: bool)

  /** The first entry after a call: a new cache is blank, and so is the entry that says that the all-zero hash is not in
      the database; any other entry is not. */
  function Touched(first: Slot, db: set<Hash>, c: Call): Slot {
    match c
    case Check(h) =>
      if first.size > 0 && Loc(h, first.size) == 0 then
        first.(blank := h == ZERO && (ZERO !in db || first.blank))
      else first
    case Store(h, stored) =>
      if stored && first.size > 0 && Loc(h, first.size) == 0 then first.(blank := false) else first
    case SetCache(size) => Slot(size, size > 0)
    case ReadStats => first
  }

  /** A blind check: of the all-zero hash, while it is stored and the first entry is blank. */
  predicate Blinds(first: Slot, db: set<Hash>, c: Call) {
    c == Check(ZERO) && ZERO in db && first.blank
  }

  class History {
    /** The hashes that the database has. */
    var db: set<Hash>
    /** The cache; no cache is one of length 0. */
    var cache: array<Entry>
    var stats: Stats
    /** Checks since the counters were last reset. */
    ghost var checks: nat

    ghost predicate Valid()
      reads this, cache
    {
      && Total(stats) == checks
      && forall i | 0 <= i < cache.Length :: EntryOk(db, cache.Length, i, cache[i])
    }

    /** A check of the all-zero hash would read an entry that was never set, or one from before it was stored. */
    predicate Blind(h: Hash)
      reads this, cache
    {
      h == ZERO && ZERO in db && cache.Length > 0 && cache[0] == BLANK
    }

    function First(): Slot
      reads this, cache
    {
      Slot(cache.Length, cache.Length > 0 && cache[0] == BLANK)
    }

    predicate Cached(h: Hash)
      reads this, cache
    {
      cache.Length > 0 && cache[Loc(h, cache.Length)].hash == h
    }

    constructor (db: set<Hash>)
      ensures Valid() && this.db == db && checks == 0 && fresh(cache)
    {
      hide Loc;
      this.db, stats, checks := db, Stats(0, 0, 0, 0), 0;
      cache := new Entry[0];
    }

    method CacheAdd(h: Hash, found: bool)
      requires found <==> h in db
      requires forall i | 0 <= i < cache.Length ::
                 EntryOk(db, cache.Length, i, cache[i]) || (cache[i].hash == h && Loc(h, cache.Length) == i)
      modifies cache
      ensures forall i | 0 <= i < cache.Length :: EntryOk(db, cache.Length, i, cache[i])
      ensures cache[..] == if cache.Length == 0 then [] else old(cache[..])[Loc(h, cache.Length) := Entry(h, found)]
    {
      hide Loc;
      if cache.Length != 0 {
        cache[Loc(h, cache.Length)] := Entry(h, found);
      }
    }

    method CacheLookup(h: Hash) returns (r: Found)
      requires Valid()
      ensures !Blind(h) && r.Hit? ==> h in db
      ensures !Blind(h) && r.Miss? ==> h !in db
      ensures Blind(h) ==> r.Miss?
      ensures r.Dne? <==> !Cached(h)
    {
      hide Loc;
      if cache.Length == 0 {
        return Dne;
      }
      var i := Loc(h, cache.Length);
      if cache[i].hash == h {
        assert EntryOk(db, cache.Length, i, cache[i]);
        return if cache[i].found then Hit else Miss;
      }
      return Dne;
    }

    /** Whether the message-ID is in the history.  The answer is the one of the database, except in one state. */
    method HisCheck(h: Hash) returns (r: bool)
      requires Valid()
      modifies this`stats, this`checks, cache
      ensures Valid() && checks == old(checks) + 1
      ensures First() == Touched(old(First()), db, Check(h))
      ensures (r <==> h in db) <==> !old(Blind(h))
      ensures h != ZERO ==> (r <==> h in db)
      ensures stats.hitpos + stats.misses == old(stats.hitpos + stats.misses) + if r then 1 else 0
      ensures stats.hitpos + stats.hitneg == old(stats.hitpos + stats.hitneg) + if old(Cached(h)) then 1 else 0
    {
      hide Loc;
      var c := CacheLookup(h);
      match c {
        case Hit =>
          stats := stats.(hitpos := stats.hitpos + 1);
          r := true;
        case Miss =>
          stats := stats.(hitneg := stats.hitneg + 1);
          r := false;
        case Dne =>
          r := h in db;
          CacheAdd(h, r);
          stats := if r then stats.(misses := stats.misses + 1) else stats.(dne := stats.dne + 1);
      }
      checks := checks + 1;
    }

    /** Stores a message-ID: writing, remembering and replacing an entry treat the cache alike.  `stored` is what the
        database reports. */
    method HisStore(h: Hash, stored: bool)
      requires Valid()
      modifies this`db, cache
      ensures Valid() && db == if stored then old(db) + {h} else old(db)
      ensures stored && cache.Length > 0 ==> cache[Loc(h, cache.Length)] == Entry(h, true)
      ensures First() == Touched(old(First()), old(db), Store(h, stored))
    {
      hide Loc;
      if stored {
        assert forall i | 0 <= i < cache.Length :: EntryOk(db, cache.Length, i, cache[i]);
        db := db + {h};
        CacheAdd(h, true);
      }
    }

    /** Gives the cache a new size; it starts empty, and the counters start again. */
    method HisSetCache(size: nat)
      requires Valid()
      modifies this`cache, this`stats, this`checks
      ensures Valid() && fresh(cache) && cache.Length == size && stats == Stats(0, 0, 0, 0) && checks == 0
      ensures forall i | 0 <= i < size :: cache[i] == BLANK
    {
      hide Loc;
      cache := new Entry[size](_ => BLANK);
      stats, checks := Stats(0, 0, 0, 0), 0;
    }

    /** Returns the counters and resets them; together they count the checks. */
    method HisStats() returns (r: Stats)
      requires Valid()
      modifies this`stats, this`checks
      ensures Valid() && r == old(stats) && Total(r) == old(checks) && stats == Stats(0, 0, 0, 0) && checks == 0
    {
      hide Loc;
      r := stats;
      stats, checks := Stats(0, 0, 0, 0), 0;
    }
  }

  // --- runs -----------------------------------------------------------------------------------

  /** The answers of a history without a cache. */
  function Plain(db: set<Hash>, calls: seq<Call>): (r: (set<Hash>, seq<bool>))
    ensures db <= r.0
  {
    if calls == [] then (db, []) else
      var (d, answers) := Plain(db, calls[..|calls| - 1]);
      var c := calls[|calls| - 1];
      (DbAfter(d, c), answers + Answer(d, c))
  }

  /** What has become of the first entry of the cache. */
  function FirstAfter(db: set<Hash>, first: Slot, calls: seq<Call>): Slot {
    if calls == [] then first else
      var earlier := calls[..|calls| - 1];
      Touched(FirstAfter(db, first, earlier), Plain(db, earlier).0, calls[|calls| - 1])
  }

  /** The all-zero hash is never checked while the database has it and the first entry is blank. */
  predicate NeverBlind(db: set<Hash>, first: Slot, calls: seq<Call>) {
    calls == [] ||
    (var earlier := calls[..|calls| - 1];
     && NeverBlind(db, first, earlier)
     && !Blinds(FirstAfter(db, first, earlier), Plain(db, earlier).0, calls[|calls| - 1]))
  }

  /** The all-zero hash is not checked while the database has it. */
  predicate ZeroUnasked(db: set<Hash>, calls: seq<Call>) {
    forall k | 0 <= k < |calls| && calls[k] == Check(ZERO) :: ZERO !in Plain(db, calls[..k]).0
  }

  lemma {:induction false} UnaskedNeverBlind(db: set<Hash>, first: Slot, calls: seq<Call>)
    requires ZeroUnasked(db, calls)
    ensures NeverBlind(db, first, calls)
  {
    hide Plain, FirstAfter, Touched;
    if calls != [] {
      var earlier := calls[..|calls| - 1];
      forall k | 0 <= k < |earlier| && earlier[k] == Check(ZERO) ensures ZERO !in Plain(db, earlier[..k]).0 {
        assert calls[k] == earlier[k] && earlier[..k] == calls[..k];
      }
      UnaskedNeverBlind(db, first, earlier);
    }
  }

  lemma PlainStep(db: set<Hash>, calls: seq<Call>, k: nat)
    requires k < |calls|
    ensures var (d, answers) := Plain(db, calls[..k]);
            Plain(db, calls[..k + 1]) == (DbAfter(d, calls[k]), answers + Answer(d, calls[k]))
  {
    assert calls[..k + 1][..k] == calls[..k];
  }

  lemma FirstStep(db: set<Hash>, first: Slot, calls: seq<Call>, k: nat)
    requires k < |calls|
    ensures var d, f := Plain(db, calls[..k]).0, FirstAfter(db, first, calls[..k]);
            && FirstAfter(db, first, calls[..k + 1]) == Touched(f, d, calls[k])
            && (NeverBlind(db, first, calls[..k + 1]) <==>
                  NeverBlind(db, first, calls[..k]) && !Blinds(f, d, calls[k]))
  {
    hide Plain, Touched, Blinds;
    assert calls[..k + 1][..k] == calls[..k];
  }

  /** Serves one call.  Its answer is the one of the database if and only if the call is not a blind check. */
  method ServeOne(his: History, c: Call) returns (answer: seq<bool>)
    requires his.Valid()
    modifies his, his.cache
    ensures his.Valid() && (his.cache == old(his.cache) || fresh(his.cache))
    ensures his.db == DbAfter(old(his.db), c) && his.First() == Touched(old(his.First()), old(his.db), c)
    ensures |answer| == |Answer(old(his.db), c)|
    ensures answer == Answer(old(his.db), c) <==> !Blinds(old(his.First()), old(his.db), c)
  {
    hide Loc, EntryOk, Total;
    answer := [];
    match c {
      case Check(h) =>
        var r := his.HisCheck(h);
        answer := [r];
      case Store(h, stored) =>
        his.HisStore(h, stored);
      case SetCache(size) =>
        his.HisSetCache(size);
      case ReadStats =>
        var _ := his.HisStats();
    }
  }

  /** Serves any sequence of calls.  The database becomes what it would be without a cache; the answers are those of a
      history without a cache if and only if no check is blind, so certainly if the all-zero hash is not checked while
      it is stored. */
  method Serve(his: History, calls: seq<Call>) returns (answers: seq<bool>)
    requires his.Valid()
    modifies his, his.cache
    ensures his.Valid() && his.db == Plain(old(his.db), calls).0
    ensures |answers| == |Plain(old(his.db), calls).1|
    ensures answers == Plain(old(his.db), calls).1 <==> NeverBlind(old(his.db), old(his.First()), calls)
    ensures ZeroUnasked(old(his.db), calls) ==> answers == Plain(old(his.db), calls).1
  {
    hide *;
    ghost var db, first := his.db, his.First();
    answers := [];
    StartOfRun(db, first, calls);
    var k := 0;
    while k < |calls|
      invariant 0 <= k <= |calls| && his.Valid() && (his.cache == old(his.cache) || fresh(his.cache))
      invariant his.db == Plain(db, calls[..k]).0 && his.First() == FirstAfter(db, first, calls[..k])
      invariant |answers| == |Plain(db, calls[..k]).1|
      invariant answers == Plain(db, calls[..k]).1 <==> NeverBlind(db, first, calls[..k])
    {
      PlainStep(db, calls, k);
      FirstStep(db, first, calls, k);
      var answer := ServeOne(his, calls[k]);
      SameParts(answers, answer, Plain(db, calls[..k]).1, Answer(Plain(db, calls[..k]).0, calls[k]));
      answers := answers + answer;
      k := k + 1;
    }
    assert calls[..k] == calls;
    if ZeroUnasked(db, calls) {
      UnaskedNeverBlind(db, first, calls);
    }
  }

  lemma StartOfRun(db: set<Hash>, first: Slot, calls: seq<Call>)
    ensures Plain(db, calls[..0]) == (db, []) && FirstAfter(db, first, calls[..0]) == first
    ensures NeverBlind(db, first, calls[..0])
  {}

  lemma SameParts<T>(a: seq<T>, b: seq<T>, c: seq<T>, d: seq<T>)
    requires |a| == |c|
    ensures a + b == c + d <==> a == c && b == d
  {
    if a + b == c + d {
      assert a == (a + b)[..|a|] && b == (a + b)[|a|..];
      assert c == (c + d)[..|a|] && d == (c + d)[|a|..];
    }
  }

  /** A hash of zeros that is in the database is denied as long as its entry has not been used. */
  method ZeroDenied(his: History, size: nat) returns (r: bool)
    requires his.Valid() && ZERO in his.db && size > 0
    modifies his, his.cache
    ensures his.Valid() && ZERO in his.db && !r
  {
    hide Loc, EntryOk, Total;
    his.HisSetCache(size);
    assert his.Blind(ZERO);
    r := his.HisCheck(ZERO);
  }
}
