/** innd, the limit on the size of articles.  It is checked between the pieces in which an article arrives; this module
    says for which articles and pieces that makes a difference. */
module ArtLimit {
  import opened ArtParse

  // --- pieces and the limit -------------------------------------------------------------------

  /** The article is eaten from where the scan has come to. */
  function Eaten(s: Scan): Scan {
    s.(state := if s.state.GotArticle? then GotLargeArticle else EatArticle)
  }

  /** When that much has arrived, the parser is still in the header but beyond the limit. */
  predicate OverInHeader(d: string, used: nat, maxSize: nat)
    requires used <= |d|
  {
    var h := ScanTo(d, used, FRESH);
    maxSize != 0 && h.state.GetHeader? && h.next > maxSize
  }

  /** No line ends there, and there is no NUL. */
  predicate Quiet(d: string, lo: nat, hi: nat) {
    forall i | lo <= i < hi && i < |d| :: d[i] != '\0' && !LineEnds(d, i)
  }

  /** The parser does not notice in the middle of the header that the limit is exceeded; or if it does, nothing that
      counts has come after that. */
  predicate InTime(d: string, pieces: seq<nat>, maxSize: nat)
    requires Growing(d, pieces) && pieces != []
  {
    var r := ScanTo(d, pieces[|pieces| - 1], FRESH);
    forall k | 0 <= k < |pieces| - 1 && OverInHeader(d, pieces[k], maxSize) ::
      r.state.GetHeader? && Quiet(d, ScanTo(d, pieces[k], FRESH).next, r.next)
  }

  /** In the body being eaten makes no difference but to the state. */
  lemma {:induction false} EatBody(d: string, u: nat, s: Scan)
    requires u <= |d| && s.state.GetBody?
    ensures var r := ScanTo(d, u, s);
            (r.state.GetBody? || r.state.GotArticle?) && ScanTo(d, u, Eaten(s)) == Eaten(r)
    decreases if s.next < u then u - s.next else 0
  {
    Unfold(d, u, s);
    Unfold(d, u, Eaten(s));
    if !Stuck(d, u, s) {
      var t := Step(d, s);
      assert Step(d, Eaten(s)) == Eaten(t);
      hide Step, Stuck;
      if Terminal(t.state) {
        Unfold(d, u, t);
        Unfold(d, u, Eaten(t));
      } else {
        EatBody(d, u, t);
      }
    }
  }

  /** The header has nothing in it yet that only a body can have. */
  predicate HeaderOnly(s: Scan) {
    s.state.GetHeader? && s.body == 0 && s.lines == 0 && NulInBody !in s.log
  }

  lemma {:induction false} BodyStays(d: string, u: nat, s: Scan)
    requires u <= |d| && (s.state.GetBody? || s.state.EatArticle?)
    ensures var r := ScanTo(d, u, s);
            && r.body == s.body && s.lines <= r.lines && (NulInBody in s.log ==> NulInBody in r.log)
            && !r.state.GetHeader? && !r.state.NoArticle?
            && (s.state.EatArticle? && s.body == 0 && s.next >= 2 && Terminal(r.state) ==> s.lines < r.lines)
    decreases if s.next < u then u - s.next else 0
  {
    Unfold(d, u, s);
    if !Stuck(d, u, s) {
      var t := Step(d, s);
      if Terminal(t.state) {
        Unfold(d, u, t);
      } else {
        BodyStays(d, u, t);
      }
    }
  }

  /** What is parsed at once has a body or nothing of one. */
  lemma {:induction false} OnceShape(d: string, u: nat, s: Scan)
    requires u <= |d| && HeaderOnly(s)
    ensures var r := ScanTo(d, u, s);
            if r.body > 0 then !r.state.NoArticle?
            else r.lines == 0 && NulInBody !in r.log && !r.state.GetBody? && (r.state.GetHeader? ==> HeaderOnly(r))
    decreases if s.next < u then u - s.next else 0
  {
    Unfold(d, u, s);
    if !Stuck(d, u, s) {
      var t := Step(d, s);
      if t.state.GetHeader? {
        OnceShape(d, u, t);
      } else if Terminal(t.state) {
        Unfold(d, u, t);
      } else {
        BodyStays(d, u, t);
      }
    }
  }

  /** A step in the header and one that eats. */
  lemma EatStep(d: string, u: nat, s: Scan)
    requires u <= |d| && HeaderOnly(s) && s.next >= 2 && !Stuck(d, u, s)
    ensures !Stuck(d, u, Eaten(s))
    ensures var t, e := Step(d, s), Step(d, Eaten(s));
            if Quiet(d, s.next, s.next + 1) then t.state.GetHeader? && t.next == s.next + 1 && e == Eaten(t)
            else e.lines > 0 || NulInBody in e.log
  {
    var t := Step(d, s);
    assert d[s.next] == '\r' ==> !Terminator(d, s.next) || (d[s.next + 1] == '\n' && s.next + 1 < |d|);
    if !Quiet(d, s.next, s.next + 1) {
      var i :| s.next <= i < s.next + 1 && i < |d|
               && !(d[i] != '\0' && !LineEnds(d, i));
      assert i == s.next;
    }
  }

  lemma QuietParts(d: string, lo: nat, mid: nat, hi: nat)
    requires lo <= mid <= hi
    ensures Quiet(d, lo, hi) <==> Quiet(d, lo, mid) && Quiet(d, mid, hi)
  {}

  /** Where nothing that counts comes, eating an article from the header on makes no difference but to the state; where
      something does, it makes one. */
  lemma {:induction false} EatHeader(d: string, u: nat, s: Scan)
    requires u <= |d| && HeaderOnly(s) && s.next >= 2 && ScanTo(d, u, s).state.GetHeader?
    ensures var r, e := ScanTo(d, u, s), ScanTo(d, u, Eaten(s));
            if Quiet(d, s.next, r.next) then e == Eaten(r) else e.lines > 0 || NulInBody in e.log
    decreases if s.next < u then u - s.next else 0
  {
    hide Quiet, Stuck, Step;
    Unfold(d, u, s);
    Unfold(d, u, Eaten(s));
    var r := ScanTo(d, u, s);
    if Stuck(d, u, s) {
      StuckEaten(d, u, s);
    } else {
      StepBound(d, u, s);
      EatStep(d, u, s);
      var t := Step(d, s);
      ScanMovesOn(d, u, t);
      if Quiet(d, s.next, s.next + 1) {
        HeaderStays(d, s);
        QuietParts(d, s.next, s.next + 1, r.next);
        EatHeader(d, u, t);
      } else {
        QuietParts(d, s.next, s.next + 1, r.next);
        StepBound(d, u, Eaten(s));
        var e := Step(d, Eaten(s));
        EatenStays(d, s);
        if Terminal(e.state) {
          Unfold(d, u, e);
        } else {
          BodyStays(d, u, e);
        }
      }
    }
  }

  lemma StuckEaten(d: string, u: nat, s: Scan)
    requires u <= |d| && HeaderOnly(s) && s.next >= 2 && Stuck(d, u, s)
    ensures Stuck(d, u, Eaten(s)) && Quiet(d, s.next, s.next)
  {}

  lemma ScanMovesOn(d: string, u: nat, s: Scan)
    requires u <= |d|
    ensures s.next <= ScanTo(d, u, s).next
  {
    if !Terminal(s.state) {
      ScanMoves(d, u, s);
    }
  }

  lemma HeaderStays(d: string, s: Scan)
    requires HeaderOnly(s) && Ready(d, s) && Step(d, s).state.GetHeader?
    ensures HeaderOnly(Step(d, s)) && s.next < Step(d, s).next
  {}

  lemma EatenStays(d: string, s: Scan)
    requires HeaderOnly(s) && Ready(d, Eaten(s))
    ensures var e := Step(d, Eaten(s)); e.state.EatArticle? || Terminal(e.state)
  {}

  /** The limit does not hide the end of an empty article that has arrived. */
  predicate Noticed(n: int, used: nat, maxSize: nat) {
    Sensible(n, maxSize) || n > used
  }

  lemma OnceRun(d: string, used: nat, maxSize: nat)
    requires used <= |d|
    ensures Run(d, [used], maxSize) == Parse(d, used, maxSize, FRESH)
  {
    var pieces: seq<nat> := [used];
    assert pieces[..0] == [] && Run(d, pieces[..0], maxSize) == FRESH;
  }

  lemma AtOnceFrames(d: string, v: nat, n: int)
    requires v <= |d| && EndOrNone(d, n)
    ensures var h := ScanTo(d, v, FRESH);
            && h.next <= v
            && (n <= v <==> Terminal(h.state))
            && (if n <= v then h.next == n && h.state == (if n <= 5 then NoArticle else GotArticle)
                else Good(d, h) && h.next < n && (h.state.GetHeader? || h.state.GetBody?))
            && (h.state.GetHeader? ==> HeaderOnly(h) && Stuck(d, v, h))
            && (h.state.GetBody? ==> h.body > 0) && (h.state.NoArticle? ==> h.body == 0)
            && h.state != EatArticle && h.state != GotLargeArticle
  {
    ScanFrames(d, v, FRESH);
    ScanBounds(d, v, FRESH);
    StaysNotLarge(d, v, FRESH);
    OnceShape(d, v, FRESH);
    if n <= v {
      assert EndAt(d, n);
    }
    hide ScanTo, Step;
  }

  /** The limit is checked between the pieces, and it makes no difference. */
  lemma InTimeStep(d: string, v: nat, u: nat, maxSize: nat, n: int)
    requires v <= u <= |d| && EndOrNone(d, n) && Noticed(n, u, maxSize)
    requires OverInHeader(d, v, maxSize) ==>
               ScanTo(d, u, FRESH).state.GetHeader? && Quiet(d, ScanTo(d, v, FRESH).next, ScanTo(d, u, FRESH).next)
    ensures var s := Parse(d, v, maxSize, FRESH);
            Parse(d, u, maxSize, FRESH) == if Terminal(s.state) then s else Parse(d, u, maxSize, s)
  {
    AtOnceFrames(d, v, n);
    Resume(d, v, u, FRESH);
    var h, r := ScanTo(d, v, FRESH), ScanTo(d, u, FRESH);
    ScanMovesOn(d, u, h);
    if Terminal(h.state) {
      Unfold(d, u, h);
    } else if maxSize != 0 && h.next > maxSize {
      hide ScanTo, Step, Stuck, Quiet;
      if h.state.GetHeader? {
        EatHeader(d, u, h);
      } else {
        EatBody(d, u, h);
      }
    }
  }

  lemma InTimeInit(d: string, pieces: seq<nat>, maxSize: nat, n: int)
    requires Growing(d, pieces) && |pieces| > 1 && EndOrNone(d, n) && InTime(d, pieces, maxSize)
    ensures InTime(d, pieces[..|pieces| - 1], maxSize)
  {
    var init, v, u := pieces[..|pieces| - 1], pieces[|pieces| - 2], pieces[|pieces| - 1];
    var q, r := ScanTo(d, v, FRESH), ScanTo(d, u, FRESH);
    AtOnceFrames(d, v, n);
    Resume(d, v, u, FRESH);
    ScanMovesOn(d, u, q);
    hide ScanTo, Quiet;
    Unfold(d, u, q);
    forall k | 0 <= k < |init| - 1 && OverInHeader(d, init[k], maxSize)
      ensures q.state.GetHeader? && Quiet(d, ScanTo(d, init[k], FRESH).next, q.next)
    {
      assert init[k] == pieces[k];
      if q.state.GetBody? {
        BodyStays(d, u, q);
      }
      Resume(d, pieces[k], v, FRESH);
      ScanMovesOn(d, v, ScanTo(d, pieces[k], FRESH));
      QuietParts(d, ScanTo(d, pieces[k], FRESH).next, q.next, r.next);
    }
  }

  lemma {:induction false} InTimeRun(d: string, pieces: seq<nat>, maxSize: nat, n: int)
    requires Growing(d, pieces) && pieces != [] && EndOrNone(d, n) && Noticed(n, pieces[|pieces| - 1], maxSize)
    requires InTime(d, pieces, maxSize)
    ensures Run(d, pieces, maxSize) == Parse(d, pieces[|pieces| - 1], maxSize, FRESH)
  {
    var init, u := pieces[..|pieces| - 1], pieces[|pieces| - 1];
    if init == [] {
      assert Run(d, init, maxSize) == FRESH;
    } else {
      var v := pieces[|pieces| - 2];
      InTimeInit(d, pieces, maxSize, n);
      InTimeRun(d, init, maxSize, n);
      hide Parse, OverInHeader, Quiet, ScanTo;
      InTimeStep(d, v, u, maxSize, n);
    }
  }

  /** Once the article is eaten, the pieces do not matter any more. */
  lemma {:induction false} EatRest(d: string, pieces: seq<nat>, k: nat, maxSize: nat, e: Scan)
    requires Growing(d, pieces) && k < |pieces| && maxSize != 0 && maxSize < e.next && e.state.EatArticle?
    requires Run(d, pieces[..k + 1], maxSize) == e
    ensures Run(d, pieces, maxSize) ==
            if k == |pieces| - 1 then e else CheckSize(ScanTo(d, pieces[|pieces| - 1], e), maxSize)
  {
    if k == |pieces| - 1 {
      assert pieces[..k + 1] == pieces;
    } else {
      var init, v, u := pieces[..|pieces| - 1], pieces[|pieces| - 2], pieces[|pieces| - 1];
      assert init[..k + 1] == pieces[..k + 1];
      EatRest(d, init, k, maxSize, e);
      var y := ScanTo(d, v, e);
      EatKeepsOn(d, v, e);
      Resume(d, v, u, e);
      Unfold(d, u, y);
    }
  }

  lemma EatKeepsOn(d: string, v: nat, e: Scan)
    requires v <= |d| && e.state.EatArticle?
    ensures var y := ScanTo(d, v, e); (y.state.EatArticle? || y.state.GotLargeArticle?) && e.next <= y.next
  {
    EatLarge(d, v, e);
    ScanMovesOn(d, v, e);
  }

  lemma {:induction false} EatLarge(d: string, v: nat, e: Scan)
    requires v <= |d| && e.state.EatArticle?
    ensures var y := ScanTo(d, v, e); y.state.EatArticle? || y.state.GotLargeArticle?
    decreases if e.next < v then v - e.next else 0
  {
    Unfold(d, v, e);
    if !Stuck(d, v, e) {
      var t := Step(d, e);
      if Terminal(t.state) {
        Unfold(d, v, t);
      } else {
        EatLarge(d, v, t);
      }
    }
  }

  /** The first piece, up to the `j`th, with which the parser is beyond the limit in the header. */
  lemma {:induction false} FirstOver(d: string, pieces: seq<nat>, maxSize: nat, j: nat) returns (k: nat)
    requires Growing(d, pieces) && j < |pieces| && OverInHeader(d, pieces[j], maxSize)
    ensures k <= j && OverInHeader(d, pieces[k], maxSize)
    ensures forall i | 0 <= i < k :: !OverInHeader(d, pieces[i], maxSize)
  {
    hide OverInHeader;
    k := 0;
    while !OverInHeader(d, pieces[k], maxSize)
      invariant k <= j && forall i | 0 <= i < k :: !OverInHeader(d, pieces[i], maxSize)
      decreases j - k
    {
      k := k + 1;
    }
  }

  /** An article eaten from the header on, and the same parsed at once. */
  lemma EatDiffers(d: string, v: nat, u: nat, maxSize: nat, n: int)
    requires v <= u <= |d| && EndOrNone(d, n) && OverInHeader(d, v, maxSize)
    requires var h, r := ScanTo(d, v, FRESH), ScanTo(d, u, FRESH); !(r.state.GetHeader? && Quiet(d, h.next, r.next))
    ensures CheckSize(ScanTo(d, u, Eaten(ScanTo(d, v, FRESH))), maxSize) != Parse(d, u, maxSize, FRESH)
  {
    AtOnceFrames(d, v, n);
    AtOnceFrames(d, u, n);
    Resume(d, v, u, FRESH);
    OnceShape(d, u, FRESH);
    var h, r := ScanTo(d, v, FRESH), ScanTo(d, u, FRESH);
    var e := ScanTo(d, u, Eaten(h));
    BodyStays(d, u, Eaten(h));
    hide ScanTo, Quiet, Stuck, Step;
    if r.state.GetHeader? {
      EatHeader(d, u, h);
    } else if r.body == 0 {
      assert Good(d, Eaten(h));
      ScanFrames(d, u, Eaten(h));
      assert EndAt(d, n);
    }
  }

  lemma LateRun(d: string, pieces: seq<nat>, maxSize: nat, n: int)
    requires Growing(d, pieces) && pieces != [] && EndOrNone(d, n) && !InTime(d, pieces, maxSize)
    ensures Run(d, pieces, maxSize) != Parse(d, pieces[|pieces| - 1], maxSize, FRESH)
  {
    var u := pieces[|pieces| - 1];
    var r := ScanTo(d, u, FRESH);
    var j :| 0 <= j < |pieces| - 1 && OverInHeader(d, pieces[j], maxSize)
             && !(r.state.GetHeader? && Quiet(d, ScanTo(d, pieces[j], FRESH).next, r.next));
    var k := FirstOver(d, pieces, maxSize, j);
    var v, h := pieces[k], ScanTo(d, pieces[k], FRESH);
    AtOnceFrames(d, v, n);
    assert InTime(d, pieces[..k + 1], maxSize);
    InTimeRun(d, pieces[..k + 1], maxSize, n);
    EatRest(d, pieces, k, maxSize, Eaten(h));
    Resume(d, v, pieces[j], FRESH);
    ScanMovesOn(d, pieces[j], h);
    Resume(d, pieces[j], u, FRESH);
    ScanMovesOn(d, u, ScanTo(d, pieces[j], FRESH));
    QuietParts(d, h.next, ScanTo(d, pieces[j], FRESH).next, r.next);
    EatDiffers(d, v, u, maxSize, n);
  }

  /** An article parsed in pieces is parsed as if it had arrived at once, with the same state, positions, counters and
      calls, if and only if the parser does not notice within the header that the limit is exceeded, or nothing that
      counts comes after that. */
  lemma ChunkIndependence(d: string, pieces: seq<nat>, maxSize: nat, n: int)
    requires Growing(d, pieces) && pieces != [] && EndOrNone(d, n) && Noticed(n, pieces[|pieces| - 1], maxSize)
    ensures Run(d, pieces, maxSize) == Run(d, [pieces[|pieces| - 1]], maxSize) <==> InTime(d, pieces, maxSize)
  {
    OnceRun(d, pieces[|pieces| - 1], maxSize);
    if InTime(d, pieces, maxSize) {
      InTimeRun(d, pieces, maxSize, n);
    } else {
      LateRun(d, pieces, maxSize, n);
    }
  }

  /** For an article that has arrived as a whole, pieces matter if and only if one of them but the last ends within the
      header and beyond the limit. */
  lemma WholeInTime(d: string, pieces: seq<nat>, maxSize: nat, n: int)
    requires Growing(d, pieces) && pieces != [] && FirstEnd(d, n) && n <= pieces[|pieces| - 1]
    ensures InTime(d, pieces, maxSize) <==> forall k | 0 <= k < |pieces| - 1 :: !OverInHeader(d, pieces[k], maxSize)
  {
    AtOnceFrames(d, pieces[|pieces| - 1], n);
  }

  /** If the limit hides the end of an empty article, the parser goes on behind the end; pieces matter if and only if
      there is one after the piece with the end, and something in it to go on with. */
  lemma MissedEnd(d: string, pieces: seq<nat>, maxSize: nat, n: int)
    requires Growing(d, pieces) && pieces != [] && EndOrNone(d, n) && !Noticed(n, pieces[|pieces| - 1], maxSize)
    ensures var u := pieces[|pieces| - 1];
            Run(d, pieces, maxSize) == Run(d, [u], maxSize) <==>
            |pieces| == 1 || pieces[|pieces| - 2] < n || Stuck(d, u, Eaten(ScanTo(d, u, FRESH)))
  {
    var u := pieces[|pieces| - 1];
    OnceRun(d, u, maxSize);
    AtOnceFrames(d, u, n);
    var e := Eaten(ScanTo(d, u, FRESH));
    var k := FirstFrom(d, pieces, n);
    MissedRun(d, pieces[..k + 1], maxSize, n);
    Resume(d, pieces[k], u, FRESH);
    AtOnceFrames(d, pieces[k], n);
    Unfold(d, u, ScanTo(d, pieces[k], FRESH));
    EatRest(d, pieces, k, maxSize, e);
    Unfold(d, u, e);
    if !Stuck(d, u, e) {
      StepBound(d, u, e);
      ScanMovesOn(d, u, Step(d, e));
    }
  }

  lemma FirstFrom(d: string, pieces: seq<nat>, n: int) returns (k: nat)
    requires Growing(d, pieces) && pieces != [] && n <= pieces[|pieces| - 1]
    ensures k < |pieces| && n <= pieces[k] && forall i | 0 <= i < k :: pieces[i] < n
  {
    k := 0;
    while pieces[k] < n
      invariant k < |pieces| && forall i | 0 <= i < k :: pieces[i] < n
      decreases |pieces| - k
    {
      k := k + 1;
    }
  }

  /** The parser is never in the header beyond the limit before an empty article ends. */
  lemma EmptyWaits(d: string, v: nat, n: int)
    requires EndOrNone(d, n) && v < n <= 5 && n <= |d|
    ensures ScanTo(d, v, FRESH).state.GetHeader? && ScanTo(d, v, FRESH).next <= 1
  {
    Unfold(d, v, FRESH);
    if !Stuck(d, v, FRESH) {
      var t := Step(d, FRESH);
      Unfold(d, v, t);
    }
  }

  /** The piece with the end of the empty article. */
  lemma MissedRun(d: string, pieces: seq<nat>, maxSize: nat, n: int)
    requires Growing(d, pieces) && pieces != [] && EndOrNone(d, n) && 0 < maxSize < n <= 5
    requires n <= pieces[|pieces| - 1] && forall i | 0 <= i < |pieces| - 1 :: pieces[i] < n
    ensures Run(d, pieces, maxSize) == Eaten(ScanTo(d, pieces[|pieces| - 1], FRESH))
  {
    var init, u := pieces[..|pieces| - 1], pieces[|pieces| - 1];
    AtOnceFrames(d, u, n);
    if init == [] {
      assert Run(d, init, maxSize) == FRESH;
    } else {
      var v := pieces[|pieces| - 2];
      forall k | 0 <= k < |init| ensures !OverInHeader(d, init[k], maxSize) {
        EmptyWaits(d, init[k], n);
      }
      InTimeRun(d, init, maxSize, n);
      EmptyWaits(d, v, n);
      Resume(d, v, u, FRESH);
    }
  }

  /** The limit is not exceeded: there is none, or the article ends within it, or no more than that has arrived. */
  predicate Within(pieces: seq<nat>, maxSize: nat, n: int) {
    maxSize == 0 || n <= maxSize || pieces == [] || pieces[|pieces| - 1] <= maxSize
  }

  lemma {:induction false} LimitUnused(d: string, pieces: seq<nat>, maxSize: nat, n: int)
    requires Growing(d, pieces) && EndOrNone(d, n) && Within(pieces, maxSize, n)
    ensures Run(d, pieces, maxSize) == Run(d, pieces, 0)
  {
    if pieces != [] && maxSize != 0 {
      var init, u := pieces[..|pieces| - 1], pieces[|pieces| - 1];
      LimitUnused(d, init, maxSize, n);
      RunFrames(d, init, 0, n);
      var s := Run(d, init, 0);
      if !Terminal(s.state) {
        ParseFrames(d, u, 0, s);
        ScanFrames(d, u, s);
      }
    }
  }

  /** A limit that is not exceeded is not noticed. */
  lemma WithinInTime(d: string, pieces: seq<nat>, maxSize: nat, n: int)
    requires Growing(d, pieces) && pieces != [] && EndOrNone(d, n) && Within(pieces, maxSize, n)
    ensures Noticed(n, pieces[|pieces| - 1], maxSize) && InTime(d, pieces, maxSize)
    ensures Run(d, pieces, maxSize) == ScanTo(d, pieces[|pieces| - 1], FRESH)
  {
    forall k | 0 <= k < |pieces| - 1 ensures !OverInHeader(d, pieces[k], maxSize) {
      AtOnceFrames(d, pieces[k], n);
    }
    LimitUnused(d, pieces, maxSize, n);
    UnlimitedPieces(d, pieces);
  }

  lemma {:induction false} PlainPrefix(d: string, u: nat, s: Scan, k: nat)
    requires u <= |d| && !Terminal(s.state) && s.next <= k <= u
    requires forall i | s.next <= i < k :: d[i] != '\r' && d[i] != '\n' && d[i] != '\0'
    ensures ScanTo(d, u, s) == ScanTo(d, u, s.(next := k))
    decreases k - s.next
  {
    if s.next < k {
      Unfold(d, u, s);
      assert Step(d, s) == s.(next := s.next + 1);
      PlainPrefix(d, u, s.(next := s.next + 1), k);
    } else {
      assert s == s.(next := k);
    }
  }

  /** An article of one header line, with a limit of six. */
  const OVERSIZED := "abcdefg\r\n\r\n.\r\n"

  /** An article whose pieces matter: the parser notices within the header that the limit is exceeded, and the lines of
      the header are counted as lines of the body. */
  lemma OverLimit()
    ensures |OVERSIZED| == 14 && !InTime(OVERSIZED, [7, 14], 6)
    ensures Run(OVERSIZED, [14], 6).headerLines == 1 && Run(OVERSIZED, [14], 6).lines == 0
    ensures Run(OVERSIZED, [7, 14], 6).headerLines == 0 && Run(OVERSIZED, [7, 14], 6).lines == 2
  {
    AtOnce();
    InTwo();
    hide ScanTo;
    assert Run(OVERSIZED, [7, 14], 6) != Run(OVERSIZED, [14], 6);
    OversizedEnds();
    var pieces: seq<nat> := [7, 14];
    assert [pieces[|pieces| - 1]] == [14];
    ChunkIndependence(OVERSIZED, pieces, 6, 14);
  }

  lemma OversizedEnds()
    ensures |OVERSIZED| == 14 && EndOrNone(OVERSIZED, 14)
  {
    forall m | EndAt(OVERSIZED, m) ensures 14 <= m {
      assert OVERSIZED[m - 3] == '.';
    }
  }

  lemma AtOnce()
    ensures Run(OVERSIZED, [14], 6) == Scan(GotLargeArticle, 14, 11, 9, 1, 0, 0, 0, 0, [Header(0, 9), TooLarge(14)])
  {
    var pieces: seq<nat> := [14];
    hide ScanTo;
    assert pieces[..0] == [] && Run(OVERSIZED, pieces[..0], 6) == FRESH;
    AtOnceHeader();
    AtOnceBody();
  }

  lemma AtOnceHeader()
    ensures ScanTo(OVERSIZED, 14, FRESH)
         == ScanTo(OVERSIZED, 14, Scan(GetBody, 11, 11, 9, 1, 0, 0, 0, 0, [Header(0, 9)]))
  {
    hide ScanTo;
    PlainPrefix(OVERSIZED, 14, FRESH, 7);
    Unfold(OVERSIZED, 14, FRESH.(next := 7));
    assert Step(OVERSIZED, FRESH.(next := 7)) == Scan(GetBody, 11, 11, 9, 1, 0, 0, 0, 0, [Header(0, 9)]);
  }

  lemma AtOnceBody()
    ensures ScanTo(OVERSIZED, 14, Scan(GetBody, 11, 11, 9, 1, 0, 0, 0, 0, [Header(0, 9)]))
         == Scan(GotArticle, 14, 11, 9, 1, 0, 0, 0, 0, [Header(0, 9)])
  {
    hide ScanTo;
    var t := Scan(GetBody, 11, 11, 9, 1, 0, 0, 0, 0, [Header(0, 9)]);
    PlainPrefix(OVERSIZED, 14, t, 12);
    Unfold(OVERSIZED, 14, t.(next := 12));
    Unfold(OVERSIZED, 14, t.(next := 14, state := GotArticle));
  }

  lemma InTwo()
    ensures Run(OVERSIZED, [7, 14], 6) == Scan(GotLargeArticle, 14, 0, 0, 0, 2, 0, 0, 0, [TooLarge(14)])
  {
    var pieces: seq<nat> := [7, 14];
    hide Parse, Step;
    assert pieces[..1] == [7] && pieces[..1][..0] == [] && Run(OVERSIZED, pieces[..1][..0], 6) == FRESH;
    FirstPiece();
    SecondPiece();
  }

  lemma FirstPiece()
    ensures Parse(OVERSIZED, 7, 6, FRESH) == FRESH.(next := 7, state := EatArticle)
  {
    hide ScanTo;
    PlainPrefix(OVERSIZED, 7, FRESH, 7);
    Unfold(OVERSIZED, 7, FRESH.(next := 7));
  }

  lemma SecondPiece()
    ensures Parse(OVERSIZED, 14, 6, FRESH.(next := 7, state := EatArticle))
         == Scan(GotLargeArticle, 14, 0, 0, 0, 2, 0, 0, 0, [TooLarge(14)])
  {
    hide ScanTo;
    var s := FRESH.(next := 7, state := EatArticle);
    Unfold(OVERSIZED, 14, s);
    Unfold(OVERSIZED, 14, s.(next := 9, lines := 1));
    Unfold(OVERSIZED, 14, s.(next := 14, lines := 2, state := GotLargeArticle));
  }
}
