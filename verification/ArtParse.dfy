/** innd, the incremental article parser: it finds the end of an article that arrives in pieces, hands its header fields
    over one by one, counts what the overview needs, and gives up collecting an article that is too large.

    Positions are relative to the start of the article in the buffer.  `d` is everything the peer ever sends, of which
    the first `used` characters have arrived. */
module ArtParse {

  datatype State = GetHeader | GetBody | EatArticle | GotArticle | GotLargeArticle | NoArticle

  /** What the parser says about an article: a header field that is checked, or an error. */
  datatype Event =
    | Header(start: nat, size: int)
    | EmptyArticle
    | EmptyHeadersAndBody
    | NoBody
    | NoHeaders
    | NulInHeader
    | NulInBody
    | TooLarge(total: nat)

  datatype Scan = Scan(state: State, next: nat, body: nat, cur: nat, headerLines: nat, lines: nat, dotStuffed: nat,
                       crs: nat, lfs: nat, log: seq<Event>)

  const FRESH := Scan(GetHeader, 0, 0, 0, 0, 0, 0, 0, 0, [])

  predicate Terminal(state: State) {
    state.GotArticle? || state.GotLargeArticle? || state.NoArticle?
  }

  // --- one step of the scan -------------------------------------------------------------------

  /** CR LF "." CR LF. */
  predicate Terminator(d: string, i: nat) {
    i + 5 <= |d| && d[i] == '\r' && d[i + 1] == '\n' && d[i + 2] == '.' && d[i + 3] == '\r' && d[i + 4] == '\n'
  }

  /** The CR at `i` belongs to a line "." that is the first one after `start`. */
  predicate DotLine(d: string, used: nat, i: nat, start: nat)
    requires i < |d| && used <= |d|
  {
    i == start + 1 && used > i + 1 && d[i - 1] == '.' && d[i] == '\r' && d[i + 1] == '\n'
  }

  /** A line ends with the CR at `k`. */
  predicate LineEnds(d: string, k: nat) {
    k + 1 < |d| && d[k] == '\r' && d[k + 1] == '\n'
  }

  function Origin(s: Scan): nat {
    if s.state.GetHeader? then 0 else s.body
  }

  /** The scan has to wait for more data. */
  predicate Stuck(d: string, used: nat, s: Scan)
    requires used <= |d|
  {
    s.next >= used || (d[s.next] == '\r' && !DotLine(d, used, s.next, Origin(s)) && used < s.next + 5)
  }

  predicate Ready(d: string, s: Scan) {
    !Terminal(s.state) && s.next < |d|
    && (d[s.next] == '\r' ==> DotLine(d, |d|, s.next, Origin(s)) || s.next + 5 <= |d|)
  }

  function Ended(state: State): State {
    if state.EatArticle? then GotLargeArticle else GotArticle
  }

  predicate White(c: char) {
    c == ' ' || c == '\t'
  }

  function Step(d: string, s: Scan): (r: Scan)
    requires Ready(d, s)
    ensures s.next < r.next
  {
    if d[s.next] != '\r' then Plain(d[s.next], s)
    else if s.state.GetHeader? then HeaderStep(d, s)
    else BodyStep(d, s)
  }

  function Plain(c: char, s: Scan): Scan {
    s.(next := s.next + 1,
    lfs := if c == '\n' then s.lfs + 1 else s.lfs,
    log := if c != '\0' then s.log else s.log + [if s.state.GetHeader? then NulInHeader else NulInBody])
  }

  function HeaderStep(d: string, s: Scan): (r: Scan)
    requires Ready(d, s) && d[s.next] == '\r' && s.state.GetHeader?
    ensures s.next < r.next
  {
    var i := s.next;
    if DotLine(d, |d|, i, 0) then s.(state := NoArticle, next := i + 2, log := s.log + [EmptyArticle])
    else if Terminator(d, i) then
      if i == 0 then s.(state := NoArticle, next := i + 5, log := s.log + [EmptyHeadersAndBody])
      else s.(state := GotArticle, next := i + 5, log := s.log + [NoBody])
    else if d[i + 1] == '\n' then
      if i == 0 then s.(state := GetBody, next := 2, body := 2, log := s.log + [NoHeaders])
      else LineEnd(d, s, i + 2)
    else s.(next := i + 1, crs := s.crs + 1)
  }

  /** A header line ends before `j`. */
  function LineEnd(d: string, s: Scan, j: nat): (r: Scan)
    requires j + 1 < |d|
    ensures j < r.next
  {
    var t := if White(d[j]) then s else s.(cur := j, log := s.log + [Header(s.cur, j - s.cur)]);
    var u := t.(headerLines := s.headerLines + 1);
    if d[j] == '\r' && d[j + 1] == '\n' then u.(state := GetBody, next := j + 2, body := j + 2)
    else u.(next := j + 1)
  }

  function BodyStep(d: string, s: Scan): (r: Scan)
    requires Ready(d, s) && d[s.next] == '\r' && !s.state.GetHeader?
    ensures s.next < r.next
  {
    var i := s.next;
    if DotLine(d, |d|, i, s.body) then s.(state := Ended(s.state), next := i + 2)
    else if Terminator(d, i) then s.(state := Ended(s.state), next := i + 5, lines := s.lines + 1)
    else if d[i + 1] == '\n' then
      s.(next := i + 2, lines := s.lines + 1, dotStuffed := if d[i + 2] == '.' then s.dotStuffed + 1 else s.dotStuffed)
    else s.(next := i + 1, crs := s.crs + 1)
  }

  // --- scanning what has arrived --------------------------------------------------------------

  /** The scan, carried as far as the first `used` characters allow. */
  function ScanTo(d: string, used: nat, s: Scan): (r: Scan)
    requires used <= |d|
    ensures Terminal(r.state) || Stuck(d, used, r)
    decreases if s.next < used then used - s.next else 0
  {
    if Terminal(s.state) || Stuck(d, used, s) then s else ScanTo(d, used, Step(d, s))
  }

  /** The state after a piece of an article has been scanned. */
  function CheckSize(s: Scan, maxSize: nat): Scan {
    var t := if maxSize == 0 || s.next <= maxSize then s
             else s.(state := if s.state.GotArticle? || s.state.GotLargeArticle? then GotLargeArticle else EatArticle);
    if t.state.GotLargeArticle? then t.(log := t.log + [TooLarge(t.next)]) else t
  }

  function Parse(d: string, used: nat, maxSize: nat, s: Scan): Scan
    requires used <= |d|
  {
    CheckSize(ScanTo(d, used, s), maxSize)
  }

  /** The numbers of characters that have arrived at each call; they grow. */
  predicate Growing(d: string, pieces: seq<nat>) {
    forall i, j | 0 <= i <= j < |pieces| :: pieces[i] <= pieces[j] <= |d|
  }

  /** A new article, parsed once for every read until its end is found. */
  function Run(d: string, pieces: seq<nat>, maxSize: nat): Scan
    requires Growing(d, pieces)
  {
    if pieces == [] then FRESH else
      var s := Run(d, pieces[..|pieces| - 1], maxSize);
      if Terminal(s.state) then s else Parse(d, pieces[|pieces| - 1], maxSize, s)
  }

  /** The parser and its channel. */
  class Channel {
    const stream: string
    const maxSize: nat

    var used: nat
    var state: State
    var next: nat
    var body: nat
    var curHeader: nat
    var headerLines: nat
    var lines: nat
    var dotStuffed: nat
    var crWithoutLf: nat
    var lfWithoutCr: nat
    var log: seq<Event>

    function At(i: nat): Scan
      reads this
    {
      Scan(state, i, body, curHeader, headerLines, lines, dotStuffed, crWithoutLf, lfWithoutCr, log)
    }

    function View(): Scan
      reads this
    {
      At(next)
    }

    constructor (stream: string, maxSize: nat)
      ensures this.stream == stream && this.maxSize == maxSize && used == 0 && View() == FRESH
    {
      this.stream, this.maxSize, used := stream, maxSize, 0;
      state, next, body, curHeader := GetHeader, 0, 0, 0;
      headerLines, lines, dotStuffed, crWithoutLf, lfWithoutCr, log := 0, 0, 0, 0, 0, [];
    }

    /** Scans the header, and the body if it begins. */
    method ParseHeader()
      requires state.GetHeader? && used <= |stream|
      modifies this
      ensures used == old(used) && View() == ScanTo(stream, used, old(View()))
    {
      hide ScanTo, Terminator, BodyStep;
      var i := next;
      while i < used
        invariant state.GetHeader? && used == old(used)
        invariant ScanTo(stream, used, At(i)) == ScanTo(stream, used, old(View()))
        decreases used - i
      {
        Unfold(stream, used, At(i));
        ghost var s := At(i);
        if stream[i] == '\0' {
          log := log + [NulInHeader];
        }
        if stream[i] == '\n' {
          lfWithoutCr := lfWithoutCr + 1;
        }
        if stream[i] == '\r' {
          if i == 1 && used - i > 1 && stream[i - 1] == '.' && stream[i + 1] == '\n' {
            log := log + [EmptyArticle];
            state, next := NoArticle, i + 2;
            assert View() == Step(stream, s);
            Unfold(stream, used, View());
            return;
          }
          if used - i < 5 {
            next := i;
            return;
          }
          if Terminator(stream, i) {
            if i == 0 {
              log := log + [EmptyHeadersAndBody];
              state := NoArticle;
            } else {
              log := log + [NoBody];
              state := GotArticle;
            }
            next := i + 5;
            assert View() == Step(stream, s);
            Unfold(stream, used, View());
            return;
          } else if stream[i + 1] == '\n' {
            i := EndHeaderLine(i);
            assert At(i) == Step(stream, s);
            if state.GetBody? {
              next := i;
              ParseBody();
              return;
            }
            continue;
          } else {
            crWithoutLf := crWithoutLf + 1;
          }
        }
        i := i + 1;
        assert At(i) == Step(stream, s);
      }
      Unfold(stream, used, At(i));
      next := i;
    }

    /** A header line ends at `i`, and perhaps the header with it; the scan goes on from `j`. */
    method EndHeaderLine(i: nat) returns (j: nat)
      requires state.GetHeader? && Ready(stream, At(i)) && i + 4 < |stream|
      requires stream[i] == '\r' && stream[i + 1] == '\n' && !Terminator(stream, i)
      requires !DotLine(stream, |stream|, i, 0)
      modifies this
      ensures used == old(used) && At(j) == Step(stream, old(At(i)))
      ensures state.GetHeader? || state.GetBody?
    {
      hide Terminator;
      j := i;
      if j == 0 {
        log := log + [NoHeaders];
      } else {
        j := j + 2;
        headerLines := headerLines + 1;
        if stream[j] != ' ' && stream[j] != '\t' {
          log := log + [Header(curHeader, j - curHeader)];
          curHeader := j;
        }
      }
      if stream[j] == '\r' && stream[j + 1] == '\n' {
        j := j + 2;
        body, state := j, GetBody;
      } else {
        j := j + 1;
      }
    }

    /** Scans the body, or what is left of an article that is too large. */
    method ParseBody()
      requires (state.GetBody? || state.EatArticle?) && used <= |stream|
      modifies this
      ensures used == old(used) && View() == ScanTo(stream, used, old(View()))
    {
      hide ScanTo, Terminator, HeaderStep;
      var i := next;
      while i < used
        invariant (state.GetBody? || state.EatArticle?) && used == old(used) && body == old(body)
        invariant ScanTo(stream, used, At(i)) == ScanTo(stream, used, old(View()))
        decreases used - i
      {
        Unfold(stream, used, At(i));
        ghost var s := At(i);
        if stream[i] == '\0' {
          log := log + [NulInBody];
        }
        if stream[i] == '\n' {
          lfWithoutCr := lfWithoutCr + 1;
        }
        if stream[i] == '\r' {
          assert At(i) == s;
          if i == body + 1 && used - i > 1 && stream[i - 1] == '.' && stream[i + 1] == '\n' {
            state, next := if state.EatArticle? then GotLargeArticle else GotArticle, i + 2;
            assert View() == Step(stream, s);
            Unfold(stream, used, View());
            return;
          }
          if used - i < 5 {
            next := i;
            return;
          }
          if Terminator(stream, i) {
            state, next := if state.EatArticle? then GotLargeArticle else GotArticle, i + 5;
            lines := lines + 1;
            assert View() == Step(stream, s);
            Unfold(stream, used, View());
            return;
          }
          EndBodyLine(i);
          i := if stream[i + 1] == '\n' then i + 2 else i + 1;
          continue;
        }
        i := i + 1;
        assert At(i) == Step(stream, s);
      }
      Unfold(stream, used, At(i));
      next := i;
    }

    /** Counts the line that ends at `i`, or the bare carriage return there. */
    method EndBodyLine(i: nat)
      requires (state.GetBody? || state.EatArticle?) && Ready(stream, At(i)) && i + 4 < |stream|
      requires stream[i] == '\r' && !Terminator(stream, i) && !DotLine(stream, |stream|, i, body)
      modifies this
      ensures used == old(used) && body == old(body) && state == old(state)
      ensures At(if stream[i + 1] == '\n' then i + 2 else i + 1) == Step(stream, old(At(i)))
    {
      hide Terminator;
      if stream[i + 1] == '\n' {
        lines := lines + 1;
        if stream[i + 2] == '.' {
          dotStuffed := dotStuffed + 1;
        }
      } else {
        crWithoutLf := crWithoutLf + 1;
      }
    }

    /** Switches to an article that is too large, or notes that one is complete. */
    method CheckArticleSize()
      modifies this`state, this`log
      ensures View() == CheckSize(old(View()), maxSize)
    {
      if maxSize != 0 && next > maxSize {
        if state.GotArticle? || state.GotLargeArticle? {
          state := GotLargeArticle;
        } else {
          state := EatArticle;
        }
      }
      if state.GotLargeArticle? {
        log := log + [TooLarge(next)];
      }
    }

    method ParseMore()
      requires !Terminal(state) && used <= |stream|
      modifies this
      ensures used == old(used) && View() == Parse(stream, used, maxSize, old(View()))
    {
      if state.GetHeader? {
        ParseHeader();
      } else {
        ParseBody();
      }
      CheckArticleSize();
    }

    /** Reads an article piece by piece. */
    method Receive(pieces: seq<nat>)
      requires View() == FRESH && Growing(stream, pieces)
      modifies this
      ensures View() == Run(stream, pieces, maxSize)
    {
      var k := 0;
      while k < |pieces| && !Terminal(state)
        invariant 0 <= k <= |pieces| && View() == Run(stream, pieces[..k], maxSize)
      {
        assert pieces[..k + 1][..k] == pieces[..k];
        used := pieces[k];
        ParseMore();
        k := k + 1;
      }
      RunEnds(stream, pieces, k, maxSize);
    }
  }

  lemma Unfold(d: string, used: nat, s: Scan)
    requires used <= |d|
    ensures ScanTo(d, used, s) == if Terminal(s.state) || Stuck(d, used, s) then s else ScanTo(d, used, Step(d, s))
  {}

  /** Nothing changes after the end of the article. */
  lemma {:induction false} RunEnds(d: string, pieces: seq<nat>, k: nat, maxSize: nat)
    requires Growing(d, pieces) && k <= |pieces|
    requires k == |pieces| || Terminal(Run(d, pieces[..k], maxSize).state)
    ensures Run(d, pieces, maxSize) == Run(d, pieces[..k], maxSize)
  {
    if k == |pieces| {
      assert pieces[..k] == pieces;
    } else {
      assert pieces[..|pieces| - 1][..k] == pieces[..k];
      RunEnds(d, pieces[..|pieces| - 1], k, maxSize);
    }
  }

  // --- pieces do not matter -------------------------------------------------------------------

  /** Scanning can stop and be resumed. */
  lemma {:induction false} Resume(d: string, u: nat, v: nat, s: Scan)
    requires u <= v <= |d|
    ensures ScanTo(d, v, ScanTo(d, u, s)) == ScanTo(d, v, s)
    decreases if s.next < u then u - s.next else 0
  {
    if !Terminal(s.state) && !Stuck(d, u, s) {
      Resume(d, u, v, Step(d, s));
    }
  }

  /** What has not arrived does not matter. */
  lemma {:induction false} OnlyArrived(d: string, e: string, u: nat, s: Scan)
    requires u <= |d| && u <= |e| && d[..u] == e[..u]
    ensures ScanTo(d, u, s) == ScanTo(e, u, s)
    decreases if s.next < u then u - s.next else 0
  {
    assert forall i | 0 <= i < u :: d[i] == d[..u][i] && e[i] == e[..u][i];
    assert forall i | 0 <= i < u :: d[i] == e[i];
    if !Terminal(s.state) && !Stuck(d, u, s) {
      assert !Stuck(e, u, s);
      assert Step(d, s) == Step(e, s);
      OnlyArrived(d, e, u, Step(d, s));
    }
  }

  predicate NotLarge(state: State) {
    !state.EatArticle? && !state.GotLargeArticle?
  }

  lemma {:induction false} StaysNotLarge(d: string, u: nat, s: Scan)
    requires u <= |d| && NotLarge(s.state)
    ensures NotLarge(ScanTo(d, u, s).state)
    decreases if s.next < u then u - s.next else 0
  {
    if !Terminal(s.state) && !Stuck(d, u, s) {
      StaysNotLarge(d, u, Step(d, s));
    }
  }

  lemma {:induction false} UnlimitedPieces(d: string, pieces: seq<nat>)
    requires Growing(d, pieces) && pieces != []
    ensures Run(d, pieces, 0) == ScanTo(d, pieces[|pieces| - 1], FRESH)
  {
    var u := pieces[|pieces| - 1];
    var init := pieces[..|pieces| - 1];
    StaysNotLarge(d, u, FRESH);
    if init != [] {
      UnlimitedPieces(d, init);
      StaysNotLarge(d, init[|init| - 1], FRESH);
      Resume(d, init[|init| - 1], u, FRESH);
    } else {
      assert Run(d, init, 0) == FRESH;
    }
  }

  // --- framing --------------------------------------------------------------------------------

  /** CR LF followed by the article, up to `m`, ends with CR LF "." CR LF. */
  predicate EndAt(d: string, m: int) {
    && 3 <= m <= |d| && d[m - 3] == '.' && d[m - 2] == '\r' && d[m - 1] == '\n'
    && (m == 3 || (m >= 5 && d[m - 5] == '\r' && d[m - 4] == '\n'))
  }

  /** The article ends at `n`, where its first end is. */
  ghost predicate FirstEnd(d: string, n: int) {
    EndAt(d, n) && forall m | EndAt(d, m) :: n <= m
  }

  /** No end lies behind, except that the first line after the origin may turn out to be one. */
  ghost predicate Clear(d: string, s: Scan) {
    forall m | EndAt(d, m) :: m - 5 >= s.next || (m == Origin(s) + 3 && s.next < Origin(s) + 2)
  }

  predicate Placed(d: string, s: Scan) {
    && (s.state.GetHeader? ==> s.body == 0)
    && (s.state.GetBody? ==> s.body > 0)
    && (s.body > 0 ==> 2 <= s.body <= s.next && s.body <= |d| && d[s.body - 2] == '\r' && d[s.body - 1] == '\n'
                       && !Terminator(d, 0))
    && (s.state.EatArticle? ==> s.next >= 2)
  }

  ghost predicate Good(d: string, s: Scan) {
    !Terminal(s.state) && Placed(d, s) && Clear(d, s)
  }

  lemma StepFrames(d: string, s: Scan)
    requires Good(d, s) && Ready(d, s)
    ensures var r := Step(d, s);
            if Terminal(r.state) then
              FirstEnd(d, r.next) && (r.state.NoArticle? <==> r.next <= 5)
              && (r.state.GotLargeArticle? <==> s.state.EatArticle?)
            else Good(d, r) && (r.state.EatArticle? <==> s.state.EatArticle?)
  {
    var i, r := s.next, Step(d, s);
    assert EndAt(d, 5) <==> Terminator(d, 0);
    if d[i] != '\r' {
      assert Good(d, r);
    } else if s.state.GetHeader? {
      if DotLine(d, |d|, i, 0) {
        assert EndAt(d, 3);
      } else if Terminator(d, i) {
        assert EndAt(d, i + 5);
      }
    } else {
      if DotLine(d, |d|, i, s.body) {
        assert EndAt(d, s.body + 3);
      } else if Terminator(d, i) {
        assert EndAt(d, i + 5);
      }
    }
  }

  lemma StuckFrames(d: string, u: nat, s: Scan)
    requires u <= |d| && Good(d, s) && Stuck(d, u, s)
    ensures forall m | EndAt(d, m) :: u < m && s.next < m
  {}

  lemma {:induction false} ScanFrames(d: string, u: nat, s: Scan)
    requires u <= |d| && Good(d, s)
    ensures var r := ScanTo(d, u, s);
            if Terminal(r.state) then
              FirstEnd(d, r.next) && r.next <= u && (r.state.NoArticle? <==> r.next <= 5)
              && (r.state.GotLargeArticle? <==> s.state.EatArticle?)
            else
              Good(d, r) && (r.state.EatArticle? <==> s.state.EatArticle?)
              && forall m | EndAt(d, m) :: u < m && r.next < m
    decreases if s.next < u then u - s.next else 0
  {
    hide Placed, Clear, Step, EndAt;
    if Stuck(d, u, s) {
      StuckFrames(d, u, s);
    } else {
      StepFrames(d, s);
      StepBound(d, u, s);
      Unfold(d, u, s);
      if !Terminal(Step(d, s).state) {
        ScanFrames(d, u, Step(d, s));
      }
    }
  }

  lemma StepBound(d: string, u: nat, s: Scan)
    requires u <= |d| && !Terminal(s.state) && !Stuck(d, u, s)
    ensures Ready(d, s) && Step(d, s).next <= u
  {}

  // --- the whole run --------------------------------------------------------------------------

  /** The state in which an article that ends at `n` is handed on. */
  function Outcome(n: int, maxSize: nat): State {
    if n <= 5 then NoArticle else if maxSize != 0 && n > maxSize then GotLargeArticle else GotArticle
  }

  lemma ParseFrames(d: string, u: nat, maxSize: nat, s: Scan)
    requires u <= |d| && Good(d, s) && s.next <= u
    requires s.state.EatArticle? ==> maxSize != 0 && s.next > maxSize
    ensures var r := Parse(d, u, maxSize, s);
            && s.next <= r.next <= u && (r.state.EatArticle? ==> maxSize != 0 && r.next > maxSize)
            && if exists n | 0 <= n <= u :: EndAt(d, n) then
                 FirstEnd(d, r.next)
                 && r.state == if maxSize != 0 && maxSize < r.next <= 5 then EatArticle else Outcome(r.next, maxSize)
               else Good(d, r)
  {
    ScanFrames(d, u, s);
    ScanBounds(d, u, s);
    var t, r := ScanTo(d, u, s), Parse(d, u, maxSize, s);
    if Terminal(t.state) {
      assert EndAt(d, t.next);
    }
  }

  lemma {:induction false} ScanBounds(d: string, u: nat, s: Scan)
    requires u <= |d| && s.next <= u
    ensures s.next <= ScanTo(d, u, s).next <= u
    decreases u - s.next
  {
    hide Step, Stuck;
    Unfold(d, u, s);
    if !Terminal(s.state) && !Stuck(d, u, s) {
      StepBound(d, u, s);
      ScanBounds(d, u, Step(d, s));
    }
  }

  lemma {:induction false} ScanMoves(d: string, u: nat, s: Scan)
    requires u <= |d| && !Terminal(s.state)
    ensures s.next <= ScanTo(d, u, s).next
    ensures Terminal(ScanTo(d, u, s).state) ==> s.next < ScanTo(d, u, s).next
    decreases if s.next < u then u - s.next else 0
  {
    hide Stuck;
    Unfold(d, u, s);
    if !Stuck(d, u, s) {
      StepBound(d, u, s);
      if !Terminal(Step(d, s).state) {
        ScanMoves(d, u, Step(d, s));
      }
    }
  }

  /** The article ends at `n`, or its end never comes. */
  ghost predicate EndOrNone(d: string, n: int) {
    (EndAt(d, n) || n > |d|) && forall m | EndAt(d, m) :: n <= m
  }

  /** The limit does not get in the way of noticing that an article is empty. */
  predicate Sensible(n: int, maxSize: nat) {
    maxSize == 0 || n <= maxSize || n > 5
  }

  lemma {:induction false} RunFrames(d: string, pieces: seq<nat>, maxSize: nat, n: int)
    requires Growing(d, pieces) && EndOrNone(d, n)
    ensures var r, u := Run(d, pieces, maxSize), if pieces == [] then 0 else pieces[|pieces| - 1];
            if n > u then
              Good(d, r) && r.next <= u && (r.state.EatArticle? ==> maxSize != 0 && r.next > maxSize)
            else if Sensible(n, maxSize) then r.state == Outcome(n, maxSize) && r.next == n
            else n <= r.next && !(Terminal(r.state) && r.next == n)
  {
    if pieces != [] {
      var init, u := pieces[..|pieces| - 1], pieces[|pieces| - 1];
      RunFrames(d, init, maxSize, n);
      var s := Run(d, init, maxSize);
      if !Terminal(s.state) {
        if init == [] || n > init[|init| - 1] {
          ParseFrames(d, u, maxSize, s);
        } else {
          ScanMoves(d, u, s);
        }
      }
    }
  }

  /** In whatever pieces an article arrives, the parser asks for more until the first end has arrived, and then stops
      exactly there, telling an empty article from one that is too large and from a good one; except for a limit of less
      than five, which makes it miss the end of an empty article. */
  lemma Framing(d: string, pieces: seq<nat>, maxSize: nat, n: int)
    requires Growing(d, pieces) && pieces != [] && EndOrNone(d, n)
    ensures var r := Run(d, pieces, maxSize);
            if n > pieces[|pieces| - 1] then !Terminal(r.state)
            else r.state == Outcome(n, maxSize) && r.next == n <==> maxSize == 0 || n <= maxSize || n > 5
  {
    RunFrames(d, pieces, maxSize, n);
  }

  /** With a limit of 3, the empty article is eaten and its end is missed. */
  lemma TinyLimit()
    ensures EndOrNone("\r\n.\r\n", 5) && Run("\r\n.\r\n", [5], 3).state == EatArticle
  {
    var d := "\r\n.\r\n";
    assert EndAt(d, 5);
    var pieces: seq<nat> := [5];
    assert pieces[..0] == [] && Run(d, pieces[..0], 3) == FRESH;
    ParseFrames(d, 5, 3, FRESH);
  }

  /** What comes after the end of an article does not matter, nor in what pieces it arrives. */
  lemma AfterTheEnd(d: string, e: string, u: nat, v: nat, n: nat)
    requires FirstEnd(d, n) && n <= u <= |d| && n <= v <= |e| && d[..n] == e[..n]
    ensures ScanTo(d, u, FRESH) == ScanTo(e, v, FRESH)
  {
    ScanFrames(d, n, FRESH);
    OnlyArrived(d, e, n, FRESH);
    Resume(d, n, u, FRESH);
    Resume(e, n, v, FRESH);
  }
}
