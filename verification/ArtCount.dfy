/** innd, what the parser counts: the fields and lines of the header, the lines of the body, and bare characters. */
module ArtCount {
  import opened ArtParse
  import opened ArtLimit

  // --- counters -------------------------------------------------------------------------------

  /** A line ends at `k`, and the next one begins with a dot. */
  predicate DotFollows(d: string, k: nat) {
    LineEnds(d, k) && k + 2 < |d| && d[k + 2] == '.'
  }

  predicate BareCr(d: string, k: nat) {
    k < |d| && d[k] == '\r' && !LineEnds(d, k)
  }

  predicate BareLf(d: string, k: nat) {
    k < |d| && d[k] == '\n' && (k == 0 || d[k - 1] != '\r')
  }

  /** How many positions from `lo` up to `hi` have a property. */
  function Count(d: string, lo: int, hi: int, p: (string, nat) -> bool): nat
    decreases if lo < hi then hi - lo else 0
  {
    if lo >= hi then 0 else Count(d, lo, hi - 1, p) + if hi > 0 && p(d, hi - 1) then 1 else 0
  }

  lemma {:induction false} CountSplit(d: string, lo: int, mid: int, hi: int, p: (string, nat) -> bool)
    requires lo <= mid <= hi
    ensures Count(d, lo, hi, p) == Count(d, lo, mid, p) + Count(d, mid, hi, p)
    decreases hi - mid
  {
    if mid < hi {
      CountSplit(d, lo, mid, hi - 1, p);
    }
  }

  lemma CountOne(d: string, k: nat, p: (string, nat) -> bool)
    ensures Count(d, k, k + 1, p) == if p(d, k) then 1 else 0
  {
    assert Count(d, k, k, p) == 0;
  }

  lemma CountTwo(d: string, k: nat, p: (string, nat) -> bool)
    ensures Count(d, k, k + 2, p) == (if p(d, k) then 1 else 0) + if p(d, k + 1) then 1 else 0
  {
    CountOne(d, k, p);
  }

  /** The counters of `r` are those of `s` and what is found from `s.next` up to `hi`; a line that the terminator ends
      is counted, but its "." is not a stuffed one. */
  predicate Counted(d: string, s: Scan, r: Scan, hi: int, hiDots: int) {
    && r.lines == s.lines + Count(d, s.next, hi, LineEnds)
    && r.dotStuffed == s.dotStuffed + Count(d, s.next, hiDots, DotFollows)
    && r.crs == s.crs + Count(d, s.next, hi, BareCr)
    && r.lfs == s.lfs + Count(d, s.next, hi, BareLf)
  }

  /** The scan does not begin in the middle of a line end. */
  predicate Aligned(d: string, i: nat) {
    0 < i < |d| && d[i - 1] == '\r' ==> d[i] != '\n'
  }

  predicate InBody(d: string, s: Scan) {
    (s.state.GetBody? || s.state.EatArticle?) && s.body <= s.next && Aligned(d, s.next)
  }

  lemma BodyStepCounts(d: string, s: Scan)
    requires InBody(d, s) && Ready(d, s)
    ensures var r := Step(d, s);
            && r.body == s.body && s.body <= r.next
            && if Terminal(r.state) then Counted(d, s, r, r.next - 3, r.next - 5)
               else Counted(d, s, r, r.next, r.next) && InBody(d, r)
  {
    hide Count;
    var i, r := s.next, Step(d, s);
    CountOne(d, i, LineEnds);
    CountOne(d, i, DotFollows);
    CountOne(d, i, BareCr);
    CountOne(d, i, BareLf);
    CountTwo(d, i, LineEnds);
    CountTwo(d, i, DotFollows);
    CountTwo(d, i, BareCr);
    CountTwo(d, i, BareLf);
    NoCount(d);
  }

  lemma NoCount(d: string)
    ensures forall lo, hi, p :: lo >= hi ==> Count(d, lo, hi, p) == 0
  {}

  /** The scan ended at the terminator, or at a "." in the first line of the body. */
  predicate BodyEnd(d: string, s: Scan, r: Scan) {
    || (s.next + 5 <= r.next && Counted(d, s, r, r.next - 3, r.next - 5))
    || (r.next == s.body + 3 && s.next <= s.body + 1 && s.body < |d| && d[s.body] == '.'
        && r.lines == s.lines && r.dotStuffed == s.dotStuffed && r.crs == s.crs && r.lfs == s.lfs)
  }

  lemma {:induction false} ScanCounts(d: string, u: nat, s: Scan)
    requires u <= |d| && InBody(d, s)
    ensures var r := ScanTo(d, u, s);
            && r.body == s.body && s.next <= r.next
            && if Terminal(r.state) then BodyEnd(d, s, r)
               else Counted(d, s, r, r.next, r.next) && InBody(d, r)
    decreases if s.next < u then u - s.next else 0
  {
    hide Count, Aligned;
    NoCount(d);
    if !Stuck(d, u, s) {
      BodyStepCounts(d, s);
      if Terminal(Step(d, s).state) {
        BodyStepEnds(d, s);
      }
      Unfold(d, u, s);
      hide Step, ScanTo, Stuck;
      var t, r := Step(d, s), ScanTo(d, u, s);
      if !Terminal(t.state) {
        ScanCounts(d, u, t);
        if !Terminal(r.state) {
          JoinCounts(d, s, t, r, r.next, r.next);
        } else if t.next + 5 <= r.next {
          JoinCounts(d, s, t, r, r.next - 3, r.next - 5);
        } else {
          DotCounts(d, s);
        }
      }
    }
  }

  lemma JoinCounts(d: string, s: Scan, t: Scan, r: Scan, hi: int, hiDots: int)
    requires Counted(d, s, t, t.next, t.next) && Counted(d, t, r, hi, hiDots) && s.next <= t.next <= hiDots <= hi
    ensures Counted(d, s, r, hi, hiDots)
  {
    hide Count;
    CountSplit(d, s.next, t.next, hi, LineEnds);
    CountSplit(d, s.next, t.next, hiDots, DotFollows);
    CountSplit(d, s.next, t.next, hi, BareCr);
    CountSplit(d, s.next, t.next, hi, BareLf);
  }

  lemma BodyStepEnds(d: string, s: Scan)
    requires InBody(d, s) && Ready(d, s) && Terminal(Step(d, s).state)
             && Counted(d, s, Step(d, s), Step(d, s).next - 3, Step(d, s).next - 5)
    ensures BodyEnd(d, s, Step(d, s))
  {}

  /** The dot that a first line begins with counts for nothing. */
  lemma DotCounts(d: string, s: Scan)
    requires InBody(d, s) && Ready(d, s) && d[s.next] == '.'
    ensures var t := Step(d, s); t.lines == s.lines && t.dotStuffed == s.dotStuffed && t.crs == s.crs && t.lfs == s.lfs
  {}

  // --- header fields --------------------------------------------------------------------------

  /** The scan as far as the end of the header. */
  function HeaderTo(d: string, used: nat, s: Scan): (r: Scan)
    requires used <= |d|
    ensures r.state.GetHeader? ==> Stuck(d, used, r)
    decreases if s.next < used then used - s.next else 0
  {
    if !s.state.GetHeader? || Stuck(d, used, s) then s else HeaderTo(d, used, Step(d, s))
  }

  lemma {:induction false} HeaderFirst(d: string, u: nat, s: Scan)
    requires u <= |d|
    ensures ScanTo(d, u, HeaderTo(d, u, s)) == ScanTo(d, u, s)
    decreases if s.next < u then u - s.next else 0
  {
    if s.state.GetHeader? && !Stuck(d, u, s) {
      HeaderFirst(d, u, Step(d, s));
    }
  }

  /** The calls that check a header field. */
  function Headers(log: seq<Event>): seq<Event> {
    if log == [] then []
    else if log[|log| - 1].Header? then Headers(log[..|log| - 1]) + [log[|log| - 1]]
    else Headers(log[..|log| - 1])
  }

  lemma OneMore(log: seq<Event>, e: Event)
    ensures Headers(log + [e]) == if e.Header? then Headers(log) + [e] else Headers(log)
  {
    assert (log + [e])[..|log|] == log;
  }

  /** A header field ends before `p`: a line ends there, and the next one does not continue it. */
  predicate FieldEnd(d: string, p: nat) {
    2 <= p < |d| && LineEnds(d, p - 2) && d[p] != ' ' && d[p] != '\t'
  }

  /** The calls take the text up to `end` apart into header fields, each with its continuation lines. */
  predicate Tiles(d: string, hs: seq<Event>, end: int)
    decreases |hs|
  {
    if hs == [] then end == 0 else
      var h := hs[|hs| - 1];
      && h.Header? && h.start < end == h.start + h.size && FieldEnd(d, end)
      && (forall p | h.start < p < end :: !FieldEnd(d, p))
      && Tiles(d, hs[..|hs| - 1], h.start)
  }

  predicate InHeader(d: string, s: Scan) {
    && s.state.GetHeader? && s.cur <= s.next && s.body == 0 && s.lines == 0 && s.dotStuffed == 0
    && Tiles(d, Headers(s.log), s.cur) && (forall p | s.cur < p <= s.next + 1 :: !FieldEnd(d, p))
    && s.headerLines == Count(d, 0, s.next, LineEnds)
  }

  /** The header is complete and the body begins. */
  predicate HeaderDone(d: string, s: Scan) {
    && s.state.GetBody? && 2 <= s.body == s.next <= |d| && LineEnds(d, s.body - 2) && s.lines == 0 && s.dotStuffed == 0
    && Tiles(d, Headers(s.log), s.body - 2)
    && s.headerLines == Count(d, 0, s.body - 2, LineEnds)
  }

  lemma TileMore(d: string, log: seq<Event>, cur: nat, j: nat)
    requires Tiles(d, Headers(log), cur) && cur < j && FieldEnd(d, j) && forall p | cur < p < j :: !FieldEnd(d, p)
    ensures Tiles(d, Headers(log + [Header(cur, j - cur)]), j)
  {
    var e := Header(cur, j - cur);
    OneMore(log, e);
    assert (Headers(log) + [e])[..|Headers(log)|] == Headers(log);
  }

  lemma HeaderStepKeeps(d: string, s: Scan)
    requires InHeader(d, s) && Ready(d, s)
    ensures var r := Step(d, s);
            InHeader(d, r) || HeaderDone(d, r) || (Terminal(r.state) && r.body == 0)
  {
    hide Tiles, Headers, Count;
    var i, r := s.next, Step(d, s);
    CountSplit(d, 0, i, i + 1, LineEnds);
    CountOne(d, i, LineEnds);
    OneMore(s.log, NulInHeader);
    OneMore(s.log, NoHeaders);
    if LineEnds(d, i) {
      CountSplit(d, 0, i, i + 2, LineEnds);
      CountTwo(d, i, LineEnds);
      CountSplit(d, 0, i + 2, i + 3, LineEnds);
      CountOne(d, i + 2, LineEnds);
      if i > 0 && FieldEnd(d, i + 2) {
        TileMore(d, s.log, s.cur, i + 2);
      }
    }
    NoCount(d);
  }

  lemma {:induction false} HeaderKeeps(d: string, u: nat, s: Scan)
    requires u <= |d| && InHeader(d, s)
    ensures var r := HeaderTo(d, u, s);
            InHeader(d, r) || HeaderDone(d, r) || (Terminal(r.state) && r.body == 0)
    decreases if s.next < u then u - s.next else 0
  {
    if !Stuck(d, u, s) {
      HeaderStepKeeps(d, s);
      hide InHeader, HeaderDone;
      if Step(d, s).state.GetHeader? {
        HeaderKeeps(d, u, Step(d, s));
      }
    }
  }

  lemma {:induction false} BodyKeepsHeader(d: string, u: nat, s: Scan)
    requires u <= |d| && s.state.GetBody?
    ensures var r := ScanTo(d, u, s);
            r.headerLines == s.headerLines && Headers(r.log) == Headers(s.log)
    decreases if s.next < u then u - s.next else 0
  {
    if !Stuck(d, u, s) {
      var r := Step(d, s);
      OneMore(s.log, NulInBody);
      if !Terminal(r.state) {
        BodyKeepsHeader(d, u, r);
      }
    }
  }

  /** When an article with a body has been received, in pieces that do not matter and whether it is too large or not:
      the header was taken apart into its fields, its lines were counted, and so were the lines of the body and those
      that begin with a dot. */
  lemma ParsedArticle(d: string, pieces: seq<nat>, maxSize: nat, n: int)
    requires Growing(d, pieces) && pieces != [] && EndOrNone(d, n) && Noticed(n, pieces[|pieces| - 1], maxSize)
    requires InTime(d, pieces, maxSize)
    ensures var r := Run(d, pieces, maxSize);
            Terminal(r.state) && r.body > 0 ==>
              && Tiles(d, Headers(r.log), r.body - 2)
              && r.headerLines == Count(d, 0, r.body - 2, LineEnds)
              && r.lines == Count(d, r.body, r.next - 3, LineEnds)
              && r.dotStuffed == Count(d, r.body, r.next - 5, DotFollows)
  {
    hide Tiles, Headers, Count, Step, ScanTo, HeaderTo, Run, Stuck, InTime;
    var u := pieces[|pieces| - 1];
    InTimeRun(d, pieces, maxSize, n);
    AtOnceFrames(d, u, n);
    var h, r := HeaderTo(d, u, FRESH), ScanTo(d, u, FRESH);
    OneMore(r.log, TooLarge(r.next));
    if r.state.GotArticle? && r.body > 0 {
      BodyBegins(d, u);
      BodyTotals(d, u, h);
      BodyKeepsHeader(d, u, h);
    }
  }

  lemma BodyBegins(d: string, u: nat)
    requires u <= |d|
    ensures var h, r := HeaderTo(d, u, FRESH), ScanTo(d, u, FRESH);
            r == ScanTo(d, u, h) && (r.state.GotArticle? && r.body > 0 ==> HeaderDone(d, h))
  {
    HeaderFirst(d, u, FRESH);
    assert InHeader(d, FRESH) by {
      NoCount(d);
    }
    HeaderKeeps(d, u, FRESH);
    hide Tiles, Headers, Count, Step, HeaderTo;
    Unfold(d, u, HeaderTo(d, u, FRESH));
  }

  lemma BodyTotals(d: string, u: nat, h: Scan)
    requires u <= |d| && HeaderDone(d, h) && Terminal(ScanTo(d, u, h).state)
    ensures var r := ScanTo(d, u, h);
            && r.body == h.body
            && r.lines == Count(d, r.body, r.next - 3, LineEnds)
            && r.dotStuffed == Count(d, r.body, r.next - 5, DotFollows)
            && r.crs == h.crs + Count(d, r.body, r.next - 3, BareCr)
            && r.lfs == h.lfs + Count(d, r.body, r.next - 3, BareLf)
  {
    hide Tiles, Headers, Count, ScanTo;
    ScanCounts(d, u, h);
    NoCount(d);
  }

  /** In the same way bare CRs and LFs of the body are counted, on top of those of the header. */
  lemma BareCharacters(d: string, pieces: seq<nat>, maxSize: nat, n: int)
    requires Growing(d, pieces) && pieces != [] && EndOrNone(d, n) && Noticed(n, pieces[|pieces| - 1], maxSize)
    requires InTime(d, pieces, maxSize)
    ensures var h, r := HeaderTo(d, pieces[|pieces| - 1], FRESH), Run(d, pieces, maxSize);
            Terminal(r.state) && r.body > 0 ==>
              && r.crs == h.crs + Count(d, r.body, r.next - 3, BareCr)
              && r.lfs == h.lfs + Count(d, r.body, r.next - 3, BareLf)
  {
    hide Tiles, Headers, Count, Step, ScanTo, HeaderTo, Run, Stuck, InTime;
    var u := pieces[|pieces| - 1];
    InTimeRun(d, pieces, maxSize, n);
    AtOnceFrames(d, u, n);
    var h, r := HeaderTo(d, u, FRESH), ScanTo(d, u, FRESH);
    BodyBegins(d, u);
    if r.state.GotArticle? && r.body > 0 {
      BodyTotals(d, u, h);
    }
  }

  // --- what is said about an article ------------------------------------------------------------

  /** An empty line ends at `b`: the first line, or one after another. */
  predicate EmptyAt(d: string, b: int) {
    (b == 2 && LineEnds(d, 0)) || (b >= 4 && LineEnds(d, b - 4) && LineEnds(d, b - 2))
  }

  ghost predicate FirstEmpty(d: string, b: int) {
    EmptyAt(d, b) && forall c | EmptyAt(d, c) :: b <= c
  }

  /** No empty line lies behind. */
  ghost predicate NoneEmpty(d: string, i: int) {
    forall b | EmptyAt(d, b) :: b - 4 >= i || (b == 2 && i == 0)
  }

  predicate Usual(log: seq<Event>) {
    forall e | e in log :: e.Header? || e == NulInHeader
  }

  /** What has been said when the header is done, or the article is over. */
  ghost predicate Said(d: string, r: Scan) {
    if r.body > 0 then
      && FirstEmpty(d, r.body) && !r.state.GetHeader? && !r.state.NoArticle?
      && (NoHeaders in r.log <==> r.body == 2)
      && (forall e | e in r.log :: e.Header? || e == NulInHeader || e == NulInBody || e == NoHeaders)
    else if r.state.GetHeader? then NoneEmpty(d, r.next) && Usual(r.log)
    else
      && Terminal(r.state) && (forall b | EmptyAt(d, b) && r.next > 5 :: b > r.next - 3)
      && (EmptyArticle in r.log <==> r.next == 3) && (EmptyHeadersAndBody in r.log <==> r.next == 5)
      && (NoBody in r.log <==> r.next > 5)
      && (forall e | e in r.log ::
            e.Header? || e == NulInHeader || e == EmptyArticle || e == EmptyHeadersAndBody || e == NoBody)
  }

  lemma HeaderStepSays(d: string, s: Scan)
    requires s.state.GetHeader? && s.body == 0 && Ready(d, s) && NoneEmpty(d, s.next) && Usual(s.log)
    ensures Said(d, Step(d, s))
    ensures Step(d, s).body > 0 ==> Step(d, s).state.GetBody? && Step(d, s).next == Step(d, s).body
  {
    var i, r := s.next, Step(d, s);
    assert LineEnds(d, 0) ==> EmptyAt(d, 2);
    if r.body > 0 {
      assert EmptyAt(d, r.body);
    }
  }

  lemma {:induction false} BodySays(d: string, u: nat, s: Scan)
    requires u <= |d| && s.state.GetBody? && s.body <= s.next
    ensures var r := ScanTo(d, u, s);
            && r.body == s.body && !r.state.GetHeader? && !r.state.NoArticle? && s.next <= r.next
            && (forall e | e in r.log :: e in s.log || e == NulInBody) && (forall e | e in s.log :: e in r.log)
            && (NulInBody in r.log <==>
                  NulInBody in s.log || exists k :: s.next <= k < r.next && k < |d| && d[k] == '\0')
            && (Terminal(r.state) ==> r.body + 3 <= r.next)
    decreases if s.next < u then u - s.next else 0
  {
    Unfold(d, u, s);
    if !Stuck(d, u, s) {
      var t := Step(d, s);
      assert forall k | s.next <= k < t.next && k < |d| && d[k] == '\0' :: k == s.next;
      if Terminal(t.state) {
        Unfold(d, u, t);
      } else {
        BodySays(d, u, t);
      }
    }
  }

  lemma {:induction false} HeaderSays(d: string, u: nat, s: Scan)
    requires u <= |d| && s.state.GetHeader? && s.body == 0 && NoneEmpty(d, s.next) && Usual(s.log)
    ensures var r := ScanTo(d, u, s);
            && Said(d, r)
            && (r.body > 0 ==> (NulInBody in r.log <==> exists k :: r.body <= k < r.next && k < |d| && d[k] == '\0'))
            && (r.body > 0 && Terminal(r.state) ==> r.body + 3 <= r.next)
    decreases if s.next < u then u - s.next else 0
  {
    hide Step, NoneEmpty, FirstEmpty, Stuck;
    Unfold(d, u, s);
    if !Stuck(d, u, s) {
      StepBound(d, u, s);
      HeaderStepSays(d, s);
      var t := Step(d, s);
      StepForward(d, s);
      if t.state.GetHeader? {
        HeaderSays(d, u, t);
      } else if t.body > 0 {
        BodySays(d, u, t);
      } else {
        Unfold(d, u, t);
      }
    }
  }

  lemma StepForward(d: string, s: Scan)
    requires Ready(d, s) && s.state.GetHeader? && s.body == 0
    ensures s.next < Step(d, s).next && (Step(d, s).state.GetHeader? ==> Step(d, s).body == 0)
    ensures NulInBody !in s.log ==> NulInBody !in Step(d, s).log
  {}

  /** What the parser says about an article that has been received in pieces that do not matter: empty articles and
      articles without a body are told apart by where the first end and the first empty line are; the body begins after
      that line; an article beyond the limit is too large; and a NUL in the body is noticed. */
  lemma Events(d: string, pieces: seq<nat>, maxSize: nat, n: int)
    requires Growing(d, pieces) && pieces != [] && FirstEnd(d, n) && n <= pieces[|pieces| - 1]
    requires Noticed(n, pieces[|pieces| - 1], maxSize) && InTime(d, pieces, maxSize)
    ensures var r := Run(d, pieces, maxSize);
            && (EmptyArticle in r.log <==> n == 3)
            && (EmptyHeadersAndBody in r.log <==> n == 5)
            && (n > 5 ==> (NoBody in r.log <==> forall b | EmptyAt(d, b) :: b > n - 3))
            && (n > 5 && NoBody !in r.log ==> FirstEmpty(d, r.body))
            && (n > 5 ==> (NoHeaders in r.log <==> LineEnds(d, 0)))
            && (forall k :: TooLarge(k) in r.log <==> k == n > 5 && n > maxSize > 0)
            && (r.body > 0 ==> (NulInBody in r.log <==> exists k :: r.body <= k < n && d[k] == '\0'))
  {
    var u := pieces[|pieces| - 1];
    InTimeRun(d, pieces, maxSize, n);
    AtOnceFrames(d, u, n);
    HeaderSays(d, u, FRESH);
    hide ScanTo, InTime, Growing;
    var r := ScanTo(d, u, FRESH);
    assert LineEnds(d, 0) ==> EmptyAt(d, 2);
  }
}
