/** innd, the text of an article as it is stored: the site is prepended to the Path header field, Xref is replaced or
    added, and Bytes is dropped.  The article is not copied; an I/O vector is put together from pieces of it. */
module ArtStore {
  import ArtTree

  /** Where a header field was found: the position and length of its value, without the final CR LF. */
  datatype Field = Missing | Found(at: nat, len: nat)

  datatype Kind = Path | Xref | Bytes

  /** The article, from its start to the end of its terminator. */
  datatype Article = Article(text: string, body: nat, path: Field, xref: Field, bytes: Field, bytesHeader: nat)

  /** What the site contributes; `xref` ends with CR LF. */
  datatype Site = Site(path: string, cluster: string, alias: string, addAlias: bool, samePath: bool, sameCluster: bool,
                       xref: string, xrefSlave: bool)

  // --- the layout of the header ---------------------------------------------------------------

  function FieldOf(a: Article, k: Kind): Field {
    match k case Path => a.path case Xref => a.xref case Bytes => a.bytes
  }

  /** The lines of the field begin here, or later but before the value. */
  function Begin(a: Article, k: Kind): int
    requires FieldOf(a, k).Found?
  {
    if k.Bytes? then a.bytesHeader else FieldOf(a, k).at - 1
  }

  function End(a: Article, k: Kind): int
    requires FieldOf(a, k).Found?
  {
    FieldOf(a, k).at + FieldOf(a, k).len + 2
  }

  predicate Apart(a: Article, j: Kind, k: Kind) {
    FieldOf(a, j).Found? && FieldOf(a, k).Found? ==> End(a, j) <= Begin(a, k) || End(a, k) <= Begin(a, j)
  }

  /** What the header parser has found: every field lies before the empty line, and no two overlap. */
  predicate Layout(a: Article, s: Site) {
    && 2 < a.body <= |a.text| && a.path.Found? && |s.xref| >= 2
    && (forall k: Kind | FieldOf(a, k).Found? :: 0 <= Begin(a, k) < FieldOf(a, k).at && End(a, k) <= a.body - 2)
    && Apart(a, Path, Xref) && Apart(a, Path, Bytes) && Apart(a, Xref, Bytes)
    && (s.sameCluster ==> |s.cluster| <= a.path.len + 1)
  }

  // --- the edit -------------------------------------------------------------------------------

  /** The field is edited at all. */
  predicate Edits(a: Article, s: Site, k: Kind) {
    && FieldOf(a, k).Found?
    && match k
       case Path => !s.samePath || s.addAlias || s.cluster != ""
       case Xref => !s.xrefSlave
       case Bytes => true
  }

  /** The text from `Lo` up to `Hi` is replaced with `New`. */
  function Lo(a: Article, k: Kind): nat
    requires FieldOf(a, k).Found? && 0 <= Begin(a, k)
  {
    if k.Bytes? then a.bytesHeader else FieldOf(a, k).at
  }

  function Hi(a: Article, s: Site, k: Kind): nat
    requires FieldOf(a, k).Found?
  {
    match k
    case Path => a.path.at + if s.sameCluster then |s.cluster| else 0
    case Xref => a.xref.at + a.xref.len
    case Bytes => a.bytes.at + a.bytes.len + 2
  }

  function New(s: Site, k: Kind): string
    requires |s.xref| >= 2
  {
    match k
    case Path => s.cluster + s.path + if s.addAlias then s.alias else ""
    case Xref => s.xref[..|s.xref| - 2]
    case Bytes => ""
  }

  /** What is inserted at position `i` because of one field. */
  function InsertFor(a: Article, s: Site, k: Kind, i: nat): string
    requires Layout(a, s)
  {
    if Edits(a, s, k) && Lo(a, k) == i then New(s, k) else ""
  }

  predicate CutFor(a: Article, s: Site, k: Kind, i: nat)
    requires Layout(a, s)
  {
    Edits(a, s, k) && Lo(a, k) <= i < Hi(a, s, k)
  }

  predicate Cut(a: Article, s: Site, i: nat)
    requires Layout(a, s)
  {
    CutFor(a, s, Path, i) || CutFor(a, s, Xref, i) || CutFor(a, s, Bytes, i)
  }

  function InsertHere(a: Article, s: Site, i: nat): string
    requires Layout(a, s)
  {
    InsertFor(a, s, Path, i) + InsertFor(a, s, Xref, i)
  }

  /** A new Xref header field is added at the end of the header. */
  function Added(a: Article, s: Site, i: nat): string
    requires Layout(a, s)
  {
    if a.xref.Missing? && i == a.body - 2 then "Xref: " + s.xref else ""
  }

  /** The edited text of what lies before position `i`, looking at one position after the other. */
  function Edited(a: Article, s: Site, i: nat): string
    requires Layout(a, s) && i <= |a.text|
  {
    if i == 0 then "" else
      Edited(a, s, i - 1) + InsertHere(a, s, i - 1) + Added(a, s, i - 1)
      + if Cut(a, s, i - 1) then "" else [a.text[i - 1]]
  }

  lemma {:induction false} Copy(a: Article, s: Site, p: nat, q: nat)
    requires Layout(a, s) && p < q <= |a.text|
    requires forall i | p <= i < q :: !Cut(a, s, i)
    requires forall i | p < i < q :: InsertHere(a, s, i) + Added(a, s, i) == ""
    ensures Edited(a, s, q) == Edited(a, s, p) + InsertHere(a, s, p) + Added(a, s, p) + a.text[p..q]
  {
    hide InsertHere, Added, Cut;
    if p + 1 < q {
      Copy(a, s, p, q - 1);
      assert a.text[p..q] == a.text[p..q - 1] + [a.text[q - 1]];
      assert InsertHere(a, s, q - 1) + Added(a, s, q - 1) == "";
    }
  }

  lemma {:induction false} Drop(a: Article, s: Site, p: nat, q: nat)
    requires Layout(a, s) && p < q <= |a.text|
    requires forall i | p <= i < q :: Cut(a, s, i)
    requires forall i | p < i < q :: InsertHere(a, s, i) + Added(a, s, i) == ""
    ensures Edited(a, s, q) == Edited(a, s, p) + InsertHere(a, s, p) + Added(a, s, p)
  {
    hide InsertHere, Added, Cut;
    assert Cut(a, s, q - 1);
    if p + 1 < q {
      Drop(a, s, p, q - 1);
      assert InsertHere(a, s, q - 1) + Added(a, s, q - 1) == "";
    }
  }

  // --- the I/O vector -------------------------------------------------------------------------

  function Concat(iov: seq<string>): string {
    if iov == [] then "" else Concat(iov[..|iov| - 1]) + iov[|iov| - 1]
  }

  lemma ConcatMore(iov: seq<string>, x: string)
    ensures Concat(iov + [x]) == Concat(iov) + x
  {
    assert (iov + [x])[..|iov|] == iov;
  }

  predicate InOrder(a: Article, ks: seq<Kind>) {
    && (forall j | j in ks :: FieldOf(a, j).Found?)
    && forall i, j | 0 <= i < j < |ks| :: FieldOf(a, ks[i]).at < FieldOf(a, ks[j]).at
  }

  /** One more field, put where its value comes. */
  function Inserted(a: Article, ks: seq<Kind>, k: Kind): (r: seq<Kind>)
    requires FieldOf(a, k).Found? && forall j | j in ks :: FieldOf(a, j).Found?
    ensures |r| == |ks| + 1 && forall j :: j in r <==> j in ks || j == k
  {
    if ks == [] || FieldOf(a, ks[|ks| - 1]).at < FieldOf(a, k).at then ks + [k]
    else
      var init := ks[..|ks| - 1];
      assert ks == init + [ks[|ks| - 1]];
      Inserted(a, init, k) + [ks[|ks| - 1]]
  }

  lemma LastInOrder(a: Article, ks: seq<Kind>, last: Kind)
    requires InOrder(a, ks) && FieldOf(a, last).Found?
    requires forall j | j in ks :: FieldOf(a, j).at < FieldOf(a, last).at
    ensures InOrder(a, ks + [last])
  {
    hide FieldOf;
    assert forall i | 0 <= i < |ks| :: ks[i] in ks;
  }

  lemma FirstInOrder(a: Article, ks: seq<Kind>, n: nat)
    requires InOrder(a, ks) && n <= |ks|
    ensures InOrder(a, ks[..n])
    ensures forall j, k | j in ks[..n] && k in ks[n..] :: FieldOf(a, j).at < FieldOf(a, k).at
  {
    hide FieldOf;
    assert forall j | j in ks[..n] :: j in ks;
  }

  lemma {:induction false} StaysInOrder(a: Article, ks: seq<Kind>, k: Kind)
    requires InOrder(a, ks) && FieldOf(a, k).Found? && forall j | j in ks :: FieldOf(a, j).at != FieldOf(a, k).at
    ensures InOrder(a, Inserted(a, ks, k))
  {
    assert forall j | j in ks :: FieldOf(a, j).Found?;
    hide FieldOf, InOrder;
    if ks == [] {
      LastInOrder(a, ks, k);
    } else {
      var init, last := ks[..|ks| - 1], ks[|ks| - 1];
      FirstInOrder(a, ks, |ks| - 1);
      assert ks == init + [last] && ks[|ks| - 1..] == [last];
      if FieldOf(a, last).at < FieldOf(a, k).at {
        LastInOrder(a, ks, k);
      } else {
        StaysInOrder(a, init, k);
        LastInOrder(a, Inserted(a, init, k), last);
      }
    }
  }

  /** What was written so far is the edit of everything before `p`, with the insertion at `p`. */
  predicate Written(a: Article, s: Site, iov: seq<string>, p: nat)
    requires Layout(a, s)
  {
    p <= |a.text| && Concat(iov) == Edited(a, s, p) + InsertHere(a, s, p)
  }

  /** Everything from `p` up to `h` is kept, if the fields handled so far lie before `p` and the others at or after
      `h`. */
  predicate Between(a: Article, s: Site, p: nat, h: nat)
    requires Layout(a, s)
  {
    && (forall i | p <= i < h :: !Cut(a, s, i))
    && (forall i | p < i < h :: InsertHere(a, s, i) + Added(a, s, i) == "")
  }

  /** `done` are the fields that are finished. */
  predicate Splits(a: Article, s: Site, ks: seq<Kind>, j: nat, p: nat)
    requires Layout(a, s) && j <= |ks|
  {
    && InOrder(a, ks)
    && (forall k: Kind | FieldOf(a, k).Found? :: k in ks)
    && p <= a.body - 2
    && (forall i | 0 <= i < j && Edits(a, s, ks[i]) :: Hi(a, s, ks[i]) <= p)
    && (forall i | j <= i < |ks| :: p <= Begin(a, ks[i]))
  }

  lemma Ahead(a: Article, s: Site, ks: seq<Kind>, j: nat, p: nat)
    requires Layout(a, s) && j < |ks| && Splits(a, s, ks, j, p)
    ensures Between(a, s, p, Lo(a, ks[j])) && p <= Lo(a, ks[j]) && Added(a, s, p) == ""
    ensures p < Lo(a, ks[j]) || InsertHere(a, s, p) == ""
  {
    NextBegins(a, s, ks, j);
    forall i | p <= i < Lo(a, ks[j]) ensures !Cut(a, s, i) {
      forall k: Kind | FieldOf(a, k).Found? ensures !CutFor(a, s, k, i) {
        Elsewhere(a, s, ks, j, p, k, i);
      }
    }
    forall i | p <= i < Lo(a, ks[j]) ensures (p < i ==> InsertHere(a, s, i) == "") && Added(a, s, i) == "" {
      Elsewhere(a, s, ks, j, p, Path, i);
      if a.xref.Found? {
        Elsewhere(a, s, ks, j, p, Xref, i);
      }
    }
  }

  lemma Elsewhere(a: Article, s: Site, ks: seq<Kind>, j: nat, p: nat, k: Kind, i: nat)
    requires Layout(a, s) && j < |ks| && Splits(a, s, ks, j, p) && FieldOf(a, k).Found? && p <= i < Lo(a, ks[j])
    ensures !CutFor(a, s, k, i) && (p < i ==> InsertFor(a, s, k, i) == "")
  {
    NextBegins(a, s, ks, j);
    var m :| 0 <= m < |ks| && ks[m] == k;
  }

  /** Inside the cut of an edit nothing is inserted, and nothing is kept. */
  lemma Inside(a: Article, s: Site, k: Kind)
    requires Layout(a, s) && Edits(a, s, k)
    ensures Begin(a, k) <= Lo(a, k) <= Hi(a, s, k) <= End(a, k) && Hi(a, s, k) <= a.body - 2
    ensures InsertHere(a, s, Lo(a, k)) == New(s, k) && Added(a, s, Lo(a, k)) == ""
    ensures forall i | Lo(a, k) <= i < Hi(a, s, k) :: Cut(a, s, i)
    ensures forall i | Lo(a, k) < i < Hi(a, s, k) :: InsertHere(a, s, i) + Added(a, s, i) == ""
    ensures Lo(a, k) < Hi(a, s, k) ==> InsertHere(a, s, Hi(a, s, k)) == ""
  {
    if k.Path? {
      assert Apart(a, Path, Xref) && Apart(a, Path, Bytes);
    }
  }

  /** One edit: the text up to it is kept, the new text is added, and the scan goes on after what is replaced. */
  lemma OneEdit(a: Article, s: Site, ks: seq<Kind>, j: nat, p: nat)
    requires Layout(a, s) && j < |ks| && Splits(a, s, ks, j, p) && Edits(a, s, ks[j])
    ensures p <= Lo(a, ks[j]) <= |a.text| && Splits(a, s, ks, j + 1, Hi(a, s, ks[j]))
    ensures Edited(a, s, Hi(a, s, ks[j])) + InsertHere(a, s, Hi(a, s, ks[j])) ==
            Edited(a, s, p) + InsertHere(a, s, p) + a.text[p..Lo(a, ks[j])] + New(s, ks[j])
  {
    var k := ks[j];
    Ahead(a, s, ks, j, p);
    Inside(a, s, k);
    NextSplits(a, s, ks, j, p);
    var l, q := Lo(a, k), Hi(a, s, k);
    hide Cut, InsertHere, Added, Splits, Layout, Edited, Edits, Lo, Hi, Between, New;
    KeepTo(a, s, p, l);
    if l < q {
      Drop(a, s, l, q);
      assert Edited(a, s, q) == Edited(a, s, l) + New(s, k);
    }
  }

  lemma KeepTo(a: Article, s: Site, p: nat, l: nat)
    requires Layout(a, s) && p <= l <= |a.text| && Between(a, s, p, l)
    requires if p < l then Added(a, s, p) == "" else InsertHere(a, s, p) == ""
    ensures Edited(a, s, l) == Edited(a, s, p) + InsertHere(a, s, p) + a.text[p..l]
  {
    hide Cut, InsertHere, Added, Layout, Edited;
    if p < l {
      Copy(a, s, p, l);
    }
  }

  lemma NextSplits(a: Article, s: Site, ks: seq<Kind>, j: nat, p: nat)
    requires Layout(a, s) && j < |ks| && Splits(a, s, ks, j, p) && Edits(a, s, ks[j])
    ensures Splits(a, s, ks, j + 1, Hi(a, s, ks[j]))
  {
    NextBegins(a, s, ks, j);
    var q := Hi(a, s, ks[j]);
    assert Begin(a, ks[j]) <= q <= End(a, ks[j]) by {
      Inside(a, s, ks[j]);
    }
    forall i | 0 <= i < j && Edits(a, s, ks[i]) ensures Hi(a, s, ks[i]) <= q {
      Inside(a, s, ks[i]);
    }
  }

  lemma NextBegins(a: Article, s: Site, ks: seq<Kind>, j: nat)
    requires Layout(a, s) && InOrder(a, ks) && j < |ks|
    ensures forall i | j < i < |ks| :: End(a, ks[j]) <= Begin(a, ks[i])
    ensures forall i | 0 <= i < j :: End(a, ks[i]) <= Begin(a, ks[j])
  {
  }

  lemma NoEdit(a: Article, s: Site, ks: seq<Kind>, j: nat, p: nat)
    requires Layout(a, s) && j < |ks| && Splits(a, s, ks, j, p) && !Edits(a, s, ks[j])
    ensures Splits(a, s, ks, j + 1, p)
  {
    NextBegins(a, s, ks, j);
  }

  /** After the last field only the new Xref is left to be added. */
  lemma Rest(a: Article, s: Site, ks: seq<Kind>, p: nat)
    requires Layout(a, s) && Splits(a, s, ks, |ks|, p)
    ensures forall i | p <= i < |a.text| :: !Cut(a, s, i)
    ensures forall i | p < i < |a.text| :: InsertHere(a, s, i) == "" && (i != a.body - 2 ==> Added(a, s, i) == "")
    ensures a.xref.Found? ==> forall i | p <= i < |a.text| :: Added(a, s, i) == ""
    ensures p < a.body - 2 ==> Added(a, s, p) == ""
    ensures InsertHere(a, s, a.body - 2) == ""
    ensures a.xref.Missing? ==> Added(a, s, a.body - 2) == "Xref: " + s.xref
  {}

  lemma Ending(a: Article, s: Site, ks: seq<Kind>, p: nat)
    requires Layout(a, s) && Splits(a, s, ks, |ks|, p)
    ensures p <= a.body - 2
    ensures Edited(a, s, |a.text|) == Edited(a, s, p) + InsertHere(a, s, p)
            + if a.xref.Missing? then a.text[p..a.body - 2] + "Xref: " + s.xref + a.text[a.body - 2..] else a.text[p..]
  {
    var b := a.body - 2;
    assert p <= b < |a.text|;
    hide Cut, InsertHere, Added, Splits, Layout, Edited;
    if a.xref.Missing? {
      EndingAdded(a, s, ks, p);
      Assoc(Edited(a, s, p) + InsertHere(a, s, p), a.text[p..b], "Xref: ", s.xref, a.text[b..], Edited(a, s, |a.text|));
    } else {
      EndingKept(a, s, ks, p);
    }
  }

  lemma EndingKept(a: Article, s: Site, ks: seq<Kind>, p: nat)
    requires Layout(a, s) && Splits(a, s, ks, |ks|, p) && a.xref.Found?
    ensures p <= |a.text| && Edited(a, s, |a.text|) == Edited(a, s, p) + InsertHere(a, s, p) + a.text[p..]
  {
    Rest(a, s, ks, p);
    hide Cut, InsertHere, Added, Splits, Edited;
    assert Added(a, s, p) == "";
    Copy(a, s, p, |a.text|);
    assert a.text[p..|a.text|] == a.text[p..];
    hide *;
    assert Edited(a, s, p) + InsertHere(a, s, p) + "" == Edited(a, s, p) + InsertHere(a, s, p);
  }

  lemma EndingAdded(a: Article, s: Site, ks: seq<Kind>, p: nat)
    requires Layout(a, s) && Splits(a, s, ks, |ks|, p) && a.xref.Missing?
    ensures p <= a.body - 2
    ensures Edited(a, s, |a.text|) ==
            Edited(a, s, p) + InsertHere(a, s, p) + a.text[p..a.body - 2] + "" + ("Xref: " + s.xref)
            + a.text[a.body - 2..]
  {
    var b, n := a.body - 2, |a.text|;
    Rest(a, s, ks, p);
    hide Cut, InsertHere, Added, Splits, Layout, Edited;
    KeepTo(a, s, p, b);
    Copy(a, s, b, n);
    assert a.text[b..n] == a.text[b..];
    hide *;
    Grouped(Edited(a, s, p) + InsertHere(a, s, p), a.text[p..b], InsertHere(a, s, b), Added(a, s, b), a.text[b..],
            Edited(a, s, b), Edited(a, s, n));
  }

  lemma Grouped(v: string, w: string, x: string, y: string, z: string, some: string, all: string)
    requires some == v + w && all == some + x + y + z && x == ""
    ensures all == v + w + "" + y + z
  {}

  lemma Assoc(v: string, w: string, x: string, y: string, z: string, all: string)
    requires all == v + w + "" + (x + y) + z
    ensures all == v + (w + x + y + z)
  {}

  /** The fields that are found, in the order in which they appear. */
  method InOrderOfAppearance(a: Article, s: Site) returns (hp: seq<Kind>)
    requires Layout(a, s)
    ensures Splits(a, s, hp, 0, 0) && |hp| <= 3
  {
    hp := [Path];
    if a.xref.Found? {
      assert a.xref.at != a.path.at;
      StaysInOrder(a, hp, Xref);
      hp := Inserted(a, hp, Xref);
    }
    if a.bytes.Found? {
      assert a.bytes.at != a.path.at && (a.xref.Found? ==> a.bytes.at != a.xref.at);
      StaysInOrder(a, hp, Bytes);
      hp := Inserted(a, hp, Bytes);
    }
    forall k: Kind | FieldOf(a, k).Found? ensures k in hp {
      match k case Path => case Xref => case Bytes =>
    }
  }

  lemma OrderedSplits(a: Article, s: Site, ks: seq<Kind>)
    requires Layout(a, s) && Splits(a, s, ks, 0, 0)
    ensures Ordered(a, ks)
  {}

  lemma Start(a: Article, s: Site)
    requires Layout(a, s)
    ensures Written(a, s, [], 0) && Concat([]) == ""
  {}

  // --- the stored text ------------------------------------------------------------------------

  /** The text from position `lo` up to `hi` is replaced. */
  datatype Patch = Patch(lo: nat, hi: nat, text: string)

  /** The text from `p` on with all patches, of which the first is the first to be applied. */
  function Patched(text: string, ps: seq<Patch>, p: nat): string {
    if ps == [] then text[(if p <= |text| then p else |text|)..]
    else if p <= ps[0].lo <= |text| then text[p..ps[0].lo] + ps[0].text + Patched(text, ps[1..], ps[0].hi)
    else ""
  }

  /** What becomes of a whole header field, from its value on, or for Bytes from its name on. */
  function FieldPatch(a: Article, s: Site, k: Kind): Patch
    requires Layout(a, s) && FieldOf(a, k).Found?
  {
    match k
    case Path =>
      var start, end := a.path.at, a.path.at + a.path.len + 2;
      if s.samePath && !s.addAlias && s.cluster == "" then Patch(start, end, a.text[start..end])
      else
        Patch(start, end,
              s.cluster + s.path + (if s.addAlias then s.alias else "")
              + a.text[(if s.sameCluster then start + |s.cluster| else start)..end])
    case Xref =>
      var start, end := a.xref.at, a.xref.at + a.xref.len + 2;
      Patch(start, end,
            if s.xrefSlave then a.text[start..end] else s.xref[..|s.xref| - 2] + a.text[start + a.xref.len..end])
    case Bytes =>
      Patch(a.bytesHeader, a.bytes.at + a.bytes.len + 2, "")
  }

  /** An Xref header field that was not there is added before the empty line. */
  function NewXref(a: Article, s: Site): seq<Patch>
    requires Layout(a, s)
  {
    if a.xref.Missing? then [Patch(a.body - 2, a.body - 2, "Xref: " + s.xref)] else []
  }

  /** All fields that were found, in the order in which they appear. */
  predicate Ordered(a: Article, ks: seq<Kind>) {
    InOrder(a, ks) && forall k: Kind | FieldOf(a, k).Found? :: k in ks
  }

  function FieldPatches(a: Article, s: Site, ks: seq<Kind>, j: nat): seq<Patch>
    requires Layout(a, s) && InOrder(a, ks) && j <= |ks|
    decreases |ks| - j
  {
    if j == |ks| then NewXref(a, s) else [FieldPatch(a, s, ks[j])] + FieldPatches(a, s, ks, j + 1)
  }

  /** What lies before the first patch can be split off. */
  lemma PatchedFrom(text: string, ps: seq<Patch>, p: nat, q: nat)
    requires p <= q <= |text| && (ps != [] ==> q <= ps[0].lo <= |text|)
    ensures Patched(text, ps, p) == text[p..q] + Patched(text, ps, q)
  {
    if ps == [] {
      assert text[p..] == text[p..q] + text[q..];
    } else {
      assert text[p..ps[0].lo] == text[p..q] + text[q..ps[0].lo];
      Grouping(text[p..q], text[q..ps[0].lo], ps[0].text, Patched(text, ps[1..], ps[0].hi));
    }
  }

  lemma Grouping(w: string, x: string, y: string, z: string)
    ensures (w + x) + y + z == w + (x + y + z)
  {}

  /** The first patch of those that are left lies after the last one. */
  lemma NextPatch(a: Article, s: Site, ks: seq<Kind>, j: nat)
    requires Layout(a, s) && Ordered(a, ks) && j < |ks|
    ensures var ps, x := FieldPatches(a, s, ks, j + 1), FieldPatch(a, s, ks[j]);
            x.lo <= x.hi <= a.body - 2 && (ps != [] ==> x.hi <= ps[0].lo <= |a.text|)
  {
    NextBegins(a, s, ks, j);
    hide InOrder;
    if j + 1 < |ks| {
      assert End(a, ks[j]) <= Begin(a, ks[j + 1]);
    }
  }

  lemma FirstPatch(a: Article, s: Site, ks: seq<Kind>, j: nat, p: nat)
    requires Layout(a, s) && j < |ks| && Splits(a, s, ks, j, p)
    ensures p <= FieldPatch(a, s, ks[j]).lo
    ensures FieldPatch(a, s, ks[j]).lo <= FieldPatch(a, s, ks[j]).hi <= |a.text|
  {}

  /** One patch does what one edit does. */
  lemma EditIsPatch(a: Article, s: Site, k: Kind)
    requires Layout(a, s) && FieldOf(a, k).Found?
    ensures var x := FieldPatch(a, s, k);
            && x.lo <= x.hi <= |a.text|
            && if Edits(a, s, k) then
                 Lo(a, k) == x.lo && Hi(a, s, k) <= x.hi && x.text == New(s, k) + a.text[Hi(a, s, k)..x.hi]
               else x.text == a.text[x.lo..x.hi]
  {
    if k.Bytes? {
      assert a.text[Hi(a, s, k)..FieldPatch(a, s, k).hi] == "";
    }
  }

  lemma Unpatched(text: string, ps: seq<Patch>, p: nat, x: Patch)
    requires p <= x.lo <= x.hi <= |text| && x.text == text[x.lo..x.hi] && (ps != [] ==> x.hi <= ps[0].lo <= |text|)
    ensures Patched(text, [x] + ps, p) == Patched(text, ps, p)
  {
    PatchedFrom(text, ps, p, x.hi);
    assert ([x] + ps)[1..] == ps;
    assert text[p..x.hi] == text[p..x.lo] + text[x.lo..x.hi];
  }

  lemma Repatched(text: string, ps: seq<Patch>, p: nat, x: Patch, h: nat, n: string)
    requires p <= x.lo <= h <= x.hi <= |text| && x.text == n + text[h..x.hi]
    requires ps != [] ==> x.hi <= ps[0].lo <= |text|
    ensures Patched(text, [x] + ps, p) == text[p..x.lo] + n + Patched(text, ps, h)
  {
    PatchedFrom(text, ps, h, x.hi);
    assert ([x] + ps)[1..] == ps;
    Middle(text[p..x.lo], n, text[h..x.hi], Patched(text, ps, x.hi));
  }

  lemma Middle(v: string, n: string, t: string, z: string)
    ensures v + (n + t) + z == v + n + (t + z)
  {}

  /** From any point of the scan on, the edit is the patches of the fields that are left. */
  lemma {:induction false} PatchesLeft(a: Article, s: Site, ks: seq<Kind>, j: nat, p: nat)
    requires Layout(a, s) && j <= |ks| && Splits(a, s, ks, j, p) && Ordered(a, ks)
    ensures Edited(a, s, |a.text|) ==
            Edited(a, s, p) + InsertHere(a, s, p) + Patched(a.text, FieldPatches(a, s, ks, j), p)
    decreases |ks| - j
  {
    PatchFacts(a, s, ks, j);
    hide *;
    if j == |ks| {
      LastPatch(a, s, ks, p);
    } else {
      MorePatches(a, s, ks, j);
      if Edits(a, s, ks[j]) {
        OneEdit(a, s, ks, j, p);
        Inside(a, s, ks[j]);
        PatchesLeft(a, s, ks, j + 1, Hi(a, s, ks[j]));
        OnePatch(a, s, ks, j, p);
        var h, l := Hi(a, s, ks[j]), Lo(a, ks[j]);
        Joined(Edited(a, s, p) + InsertHere(a, s, p), a.text[p..l], New(s, ks[j]),
               Patched(a.text, FieldPatches(a, s, ks, j + 1), h), Edited(a, s, h) + InsertHere(a, s, h),
               Edited(a, s, |a.text|));
      } else {
        NoEdit(a, s, ks, j, p);
        PatchesLeft(a, s, ks, j + 1, p);
        NoPatch(a, s, ks, j, p);
      }
    }
  }

  lemma OnePatch(a: Article, s: Site, ks: seq<Kind>, j: nat, p: nat)
    requires Layout(a, s) && j < |ks| && Splits(a, s, ks, j, p) && Ordered(a, ks) && Edits(a, s, ks[j])
    ensures var k, ps := ks[j], FieldPatches(a, s, ks, j + 1);
            && p <= Lo(a, k) <= |a.text|
            && Patched(a.text, [FieldPatch(a, s, k)] + ps, p)
               == a.text[p..Lo(a, k)] + New(s, k) + Patched(a.text, ps, Hi(a, s, k))
  {
    assert InOrder(a, ks) && |s.xref| >= 2 && ks[j] in ks && FieldOf(a, ks[j]).Found?;
    hide Layout, Splits, New, Lo, Hi, Edits, Patched, FieldPatch, FieldPatches, InOrder, Ordered;
    var k, ps := ks[j], FieldPatches(a, s, ks, j + 1);
    FirstPatch(a, s, ks, j, p);
    NextPatch(a, s, ks, j);
    EditIsPatch(a, s, k);
    Inside(a, s, k);
    Repatched(a.text, ps, p, FieldPatch(a, s, k), Hi(a, s, k), New(s, k));
  }

  lemma NoPatch(a: Article, s: Site, ks: seq<Kind>, j: nat, p: nat)
    requires Layout(a, s) && j < |ks| && Splits(a, s, ks, j, p) && Ordered(a, ks) && !Edits(a, s, ks[j])
    ensures var ps := FieldPatches(a, s, ks, j + 1);
            Patched(a.text, [FieldPatch(a, s, ks[j])] + ps, p) == Patched(a.text, ps, p)
  {
    assert InOrder(a, ks) && ks[j] in ks && FieldOf(a, ks[j]).Found?;
    hide Layout, Splits, Edits, Patched, FieldPatch, FieldPatches, InOrder, Ordered;
    FirstPatch(a, s, ks, j, p);
    NextPatch(a, s, ks, j);
    EditIsPatch(a, s, ks[j]);
    Unpatched(a.text, FieldPatches(a, s, ks, j + 1), p, FieldPatch(a, s, ks[j]));
  }

  lemma PatchFacts(a: Article, s: Site, ks: seq<Kind>, j: nat)
    requires Layout(a, s) && Ordered(a, ks) && j <= |ks|
    ensures InOrder(a, ks) && |s.xref| >= 2 && a.body - 2 <= |a.text|
    ensures if j == |ks| then FieldPatches(a, s, ks, j) == NewXref(a, s)
            else FieldOf(a, ks[j]).Found? && 0 <= Begin(a, ks[j])
  {
    assert j < |ks| ==> ks[j] in ks;
  }

  lemma MorePatches(a: Article, s: Site, ks: seq<Kind>, j: nat)
    requires Layout(a, s) && InOrder(a, ks) && j < |ks|
    ensures FieldPatches(a, s, ks, j) == [FieldPatch(a, s, ks[j])] + FieldPatches(a, s, ks, j + 1)
  {}

  lemma Joined(e: string, v: string, n: string, z: string, mid: string, all: string)
    requires mid == e + v + n && all == mid + z
    ensures all == e + (v + n + z)
  {}

  lemma LastPatch(a: Article, s: Site, ks: seq<Kind>, p: nat)
    requires Layout(a, s) && Splits(a, s, ks, |ks|, p)
    ensures Edited(a, s, |a.text|) == Edited(a, s, p) + InsertHere(a, s, p) + Patched(a.text, NewXref(a, s), p)
  {
    Ending(a, s, ks, p);
    hide Edited, InsertHere, Splits;
    var b := a.body - 2;
    if a.xref.Missing? {
      var x := Patch(b, b, "Xref: " + s.xref);
      assert [x][1..] == [] && Patched(a.text, [], b) == a.text[b..];
      Middle(a.text[p..b], "Xref: ", s.xref, a.text[b..]);
    }
  }

  /** The text that is stored for any article: each field is patched, and Xref is added if it was not there. */
  lemma StoredText(a: Article, s: Site, ks: seq<Kind>)
    requires Layout(a, s) && Ordered(a, ks)
    ensures Edited(a, s, |a.text|) == Patched(a.text, FieldPatches(a, s, ks, 0), 0)
  {
    Start(a, s);
    assert Splits(a, s, ks, 0, 0);
    PatchesLeft(a, s, ks, 0, 0);
    hide *;
    assert Edited(a, s, 0) + InsertHere(a, s, 0) == "";
  }

  /** Adds the names of the cluster, the site and the alias. */
  method PutPath(s: Site, iov: seq<string>, len: nat) returns (v: seq<string>, n: nat)
    requires |s.xref| >= 2
    ensures Concat(v) == Concat(iov) + New(s, Path) && n == len + |New(s, Path)| && |v| <= |iov| + 3
  {
    v, n := iov, len;
    if s.cluster != "" {
      ConcatMore(v, s.cluster);
      v, n := v + [s.cluster], n + |s.cluster|;
    }
    ConcatMore(v, s.path);
    v, n := v + [s.path], n + |s.path|;
    if s.addAlias {
      ConcatMore(v, s.alias);
      v, n := v + [s.alias], n + |s.alias|;
    }
  }

  /** Adds the new text of a field; the scan goes on at `p`, after what it replaces. */
  method PutField(a: Article, s: Site, k: Kind, iov: seq<string>, len: nat)
      returns (v: seq<string>, n: nat, p: nat)
    requires |s.xref| >= 2 && FieldOf(a, k).Found?
    ensures Concat(v) == Concat(iov) + New(s, k) && n == len + |New(s, k)| && |v| <= |iov| + 3
    ensures p == Hi(a, s, k)
  {
    hide Concat;
    v, n := iov, len;
    match k {
      case Path =>
        v, n := PutPath(s, iov, len);
        p := a.path.at;
        if s.sameCluster {
          p := p + |s.cluster|;
        }
      case Xref =>
        ConcatMore(v, s.xref[..|s.xref| - 2]);
        v, n := v + [s.xref[..|s.xref| - 2]], n + |s.xref| - 2;
        p := a.xref.at + a.xref.len;
      case Bytes =>
        p := a.bytes.at + a.bytes.len + 2;
    }
  }

  /** Puts the I/O vector together. */
  method Splice(a: Article, s: Site) returns (iov: seq<string>, len: nat, ghost order: seq<Kind>)
    requires Layout(a, s)
    ensures Ordered(a, order) && Concat(iov) == Patched(a.text, FieldPatches(a, s, order, 0), 0)
    ensures Concat(iov) == Edited(a, s, |a.text|)
    ensures len == |Concat(iov)|
    ensures |iov| <= 16
  {
    hide Splits, Edited, Cut, InsertHere, Added, Concat, Patched, FieldPatches;
    var hp := InOrderOfAppearance(a, s);
    order := hp;
    OrderedSplits(a, s, hp);
    StoredText(a, s, hp);
    iov, len := [], 0;
    var p: nat := 0;
    var j: nat := 0;
    Start(a, s);
    while j < |hp|
      invariant 0 <= j <= |hp| && Splits(a, s, hp, j, p)
      invariant Written(a, s, iov, p) && len == |Concat(iov)| && |iov| <= 4 * j
    {
      if Edits(a, s, hp[j]) {
        var k := hp[j];
        OneEdit(a, s, hp, j, p);
        ConcatMore(iov, a.text[p..Lo(a, k)]);
        iov, len := iov + [a.text[p..Lo(a, k)]], len + Lo(a, k) - p;
        iov, len, p := PutField(a, s, k, iov, len);
      } else {
        NoEdit(a, s, hp, j, p);
      }
      j := j + 1;
    }
    Ending(a, s, hp, p);
    if a.xref.Missing? {
      ConcatMore(iov, a.text[p..a.body - 2]);
      iov, len := iov + [a.text[p..a.body - 2]], len + a.body - 2 - p;
      ConcatMore(iov, "Xref: ");
      iov, len := iov + ["Xref: "], len + 6;
      ConcatMore(iov, s.xref);
      iov, len := iov + [s.xref], len + |s.xref|;
      p := a.body - 2;
    }
    ConcatMore(iov, a.text[p..]);
    iov, len := iov + [a.text[p..]], len + |a.text| - p;
  }

  // --- the hops of the path -------------------------------------------------------------------

  predicate White(c: char) {
    c == ' ' || c == '\t'
  }

  predicate HostChar(c: char) {
    'a' <= c <= 'z' || 'A' <= c <= 'Z' || '0' <= c <= '9' || c == '.' || c == '-' || c == '_'
  }

  /** The first position from `i` on that is not blank. */
  function Unblank(v: string, i: nat): (j: nat)
    requires i <= |v|
    ensures i <= j <= |v| && (j < |v| ==> !White(v[j])) && forall k | i <= k < j :: White(v[k])
    decreases |v| - i
  {
    if i < |v| && White(v[i]) then Unblank(v, i + 1) else i
  }

  function HostEnd(v: string, i: nat): (j: nat)
    requires i <= |v|
    ensures i <= j <= |v| && (j < |v| ==> !HostChar(v[j])) && forall k | i <= k < j :: HostChar(v[k])
    decreases |v| - i
  {
    if i < |v| && HostChar(v[i]) then HostEnd(v, i + 1) else i
  }

  /** The names in a path from `i` on: blanks before a name are skipped, and the character that ends it is dropped. */
  function Hops(v: string, i: nat): seq<string>
    decreases |v| - i
  {
    if i >= |v| then [] else
      var b := Unblank(v, i);
      if b == |v| then [] else
        var e := HostEnd(v, b);
        [v[b..e]] + Hops(v, e + 1)
  }

  lemma NextHop(v: string, i: nat)
    requires i < |v|
    ensures var b := Unblank(v, i);
            Hops(v, i) == if b == |v| then [] else [v[b..HostEnd(v, b)]] + Hops(v, HostEnd(v, b) + 1)
  {}

  /** The first position from `i` on that is not blank, in the path. */
  method SkipBlanks(v: string, i: nat) returns (b: nat)
    requires i <= |v|
    ensures b == Unblank(v, i)
  {
    b := i;
    while b < |v| && !HostChar(v[b]) && White(v[b])
      invariant i <= b <= |v| && Unblank(v, b) == Unblank(v, i)
    {
      b := b + 1;
    }
  }

  method SkipHost(v: string, i: nat) returns (e: nat)
    requires i <= |v|
    ensures e == HostEnd(v, i)
  {
    e := i;
    while e < |v| && HostChar(v[e]) && !White(v[e])
      invariant i <= e <= |v| && HostEnd(v, e) == HostEnd(v, i)
    {
      e := e + 1;
    }
  }

  /** Splits a path into its names. */
  method ParsePath(v: string) returns (hops: seq<string>)
    ensures hops == Hops(v, 0)
  {
    hide HostChar, White, Hops, Unblank, HostEnd;
    hops := [];
    var i := 0;
    while i < |v|
      invariant hops + Hops(v, i) == Hops(v, 0)
      decreases |v| - i
    {
      NextHop(v, i);
      var b := SkipBlanks(v, i);
      if b == |v| {
        return;
      }
      var e := SkipHost(v, b);
      hops := hops + [v[b..e]];
      i := e + 1;
    }
    NoHops(v, i);
  }

  lemma NoHops(v: string, i: nat)
    requires i >= |v|
    ensures Hops(v, i) == []
  {}

  /** So many characters from `c` on. */
  function From(c: char, n: nat): string
    requires c as int + n < 256
  {
    seq(n, i requires 0 <= i < n => (c as int + i) as char)
  }

  /** The letters, the digits, and three more characters. */
  function SiteCharacters(): string {
    From('a', 26) + From('A', 26) + From('0', 10) + ".-_"
  }

  predicate SiteName(w: string) {
    w != "" && forall i | 0 <= i < |w| :: w[i] in SiteCharacters()
  }

  function PathFrom(names: seq<string>): string {
    if names == [] then "" else if |names| == 1 then names[0] else names[0] + ("!" + PathFrom(names[1..]))
  }

  lemma UnblankMoves(p: string, v: string, i: nat)
    requires i <= |v|
    ensures Unblank(p + v, |p| + i) == |p| + Unblank(v, i)
    decreases |v| - i
  {
    if i < |v| {
      UnblankMoves(p, v, i + 1);
    }
  }

  lemma HostEndMoves(p: string, v: string, i: nat)
    requires i <= |v|
    ensures HostEnd(p + v, |p| + i) == |p| + HostEnd(v, i)
    decreases |v| - i
  {
    if i < |v| {
      HostEndMoves(p, v, i + 1);
    }
  }

  lemma SliceMoves(p: string, v: string, b: nat, e: nat)
    requires b <= e <= |v|
    ensures (p + v)[|p| + b..|p| + e] == v[b..e]
  {}

  lemma NextHopIs(v: string, i: nat, b: nat, e: nat)
    requires i < |v| && b == Unblank(v, i) < |v| && e == HostEnd(v, b)
    ensures Hops(v, i) == [v[b..e]] + Hops(v, e + 1)
  {}

  lemma NoMoreHops(v: string, i: nat)
    requires i < |v| && Unblank(v, i) == |v|
    ensures Hops(v, i) == []
  {}

  lemma {:induction false} HopsMove(p: string, v: string, i: nat)
    ensures Hops(p + v, |p| + i) == Hops(v, i)
    decreases |v| - i
  {
    hide *;
    var t, n := p + v, |p|;
    if i >= |v| {
      NoHops(v, i);
      NoHops(t, n + i);
    } else {
      UnblankMoves(p, v, i);
      var b := Unblank(v, i);
      if b == |v| {
        NoMoreHops(v, i);
        NoMoreHops(t, n + i);
      } else {
        HostEndMoves(p, v, b);
        var e := HostEnd(v, b);
        NextHopIs(v, i, b, e);
        NextHopIs(t, n + i, n + b, n + e);
        HopsMove(p, v, e + 1);
        SliceMoves(p, v, b, e);
      }
    }
  }

  lemma InFrom(c: char, d: char, n: nat)
    requires d as int + n < 256
    ensures c in From(d, n) <==> d as int <= c as int < d as int + n
  {
    if d as int <= c as int < d as int + n {
      assert From(d, n)[c as int - d as int] == c;
    }
  }

  lemma SiteCharacter(c: char)
    ensures c in SiteCharacters() <==> HostChar(c)
  {
    InFrom(c, 'a', 26);
    InFrom(c, 'A', 26);
    InFrom(c, '0', 10);
    hide From;
    var t := From('a', 26) + From('A', 26) + From('0', 10);
    assert SiteCharacters() == t + ".-_";
    assert c in ".-_" <==> c == '.' || c == '-' || c == '_' by {
      var u := ".-_";
      assert u[0] == '.' && u[1] == '-' && u[2] == '_' && |u| == 3;
    }
  }

  lemma SiteNameHosts(w: string, more: string)
    requires SiteName(w) && (more != "" ==> more[0] == '!')
    ensures Unblank(w + more, 0) == 0 && HostEnd(w + more, 0) == |w|
  {
    forall i | 0 <= i < |w| ensures HostChar(w[i]) {
      SiteCharacter(w[i]);
    }
    HostNotWhite(w[0]);
    hide SiteCharacters;
    assert !HostChar('!');
    HostsTo(w + more, 0, |w|);
    assert (w + more)[0] == w[0];
  }

  lemma {:induction false} HostsTo(v: string, i: nat, e: nat)
    requires i <= e <= |v| && (forall k | i <= k < e :: HostChar(v[k])) && (e < |v| ==> !HostChar(v[e]))
    ensures HostEnd(v, i) == e
    decreases e - i
  {
    if i < e {
      HostsTo(v, i + 1, e);
    }
  }

  lemma LastName(w: string)
    requires SiteName(w)
    ensures Hops(w, 0) == [w]
  {
    NotEmpty(w);
    SiteNameHosts(w, "");
    assert w + "" == w;
    hide *;
    NextHopIs(w, 0, 0, |w|);
    NoHops(w, |w| + 1);
    assert w[0..|w|] == w;
  }

  lemma WordAndMore(w: string, c: string, more: string)
    ensures (w + (c + more))[0..|w|] == w && (w + c) + more == w + (c + more)
  {}

  lemma AfterBang(more: string)
    ensures ("!" + more)[0] == '!'
  {}

  lemma NameAndMore(w: string, more: string)
    requires SiteName(w)
    ensures Hops(w + ("!" + more), 0) == [w] + Hops(more, 0)
  {
    hide *;
    var c := "!";
    var t := w + (c + more);
    NotEmpty(w);
    AfterBang(more);
    SiteNameHosts(w, c + more);
    NextHopIs(t, 0, 0, |w|);
    HopsMove(w + c, more, 0);
    WordAndMore(w, c, more);
  }

  lemma FirstName(names: seq<string>)
    requires |names| > 1
    ensures PathFrom(names) == names[0] + ("!" + PathFrom(names[1..]))
  {}

  /** A path that names of sites are joined to is split into these names again. */
  lemma {:induction false} PathSplits(names: seq<string>)
    requires forall i | 0 <= i < |names| :: SiteName(names[i])
    ensures Hops(PathFrom(names), 0) == names
  {
    if names == [] {
      NoHops("", 0);
    } else if |names| == 1 {
      LastName(names[0]);
    } else {
      hide *;
      FirstName(names);
      NameAndMore(names[0], PathFrom(names[1..]));
      PathSplits(names[1..]);
      assert names == [names[0]] + names[1..];
    }
  }

  lemma NotEmpty(w: string)
    requires SiteName(w)
    ensures w != ""
  {}

  /** Blanks and tabs before a path do not matter to its names. */
  lemma BlanksSkipped(v: string)
    ensures Hops(" " + v, 0) == Hops(v, 0) == Hops("\t" + v, 0)
  {
    BlankSkipped(" ", v);
    BlankSkipped("\t", v);
  }

  lemma UnblankOne(t: string, i: nat)
    requires i < |t| && White(t[i])
    ensures Unblank(t, i) == Unblank(t, i + 1)
  {}

  lemma HopsFromBlank(t: string, i: nat)
    requires i < |t| && White(t[i])
    ensures Hops(t, i) == Hops(t, i + 1)
  {
    hide *;
    UnblankOne(t, i);
    var b := Unblank(t, i);
    if b == |t| {
      NoMoreHops(t, i);
      if i + 1 < |t| {
        NoMoreHops(t, i + 1);
      } else {
        NoHops(t, i + 1);
      }
    } else {
      NextHopIs(t, i, b, HostEnd(t, b));
      NextHopIs(t, i + 1, b, HostEnd(t, b));
    }
  }

  lemma BlankSkipped(c: string, v: string)
    requires c == " " || c == "\t"
    ensures Hops(c + v, 0) == Hops(v, 0)
  {
    assert |c| == 1 && White(c[0]) && (c + v)[0] == c[0];
    hide *;
    HopsFromBlank(c + v, 0);
    HopsMove(c, v, 0);
  }

  function PathOf(a: Article): string
    requires a.path.Found? && a.path.at + a.path.len <= |a.text|
  {
    a.text[a.path.at..a.path.at + a.path.len]
  }

  /** The site knows its cluster by the first name in the path, whatever its case; `cluster` is the name with a "!". */
  predicate KnowsCluster(a: Article, s: Site)
    requires a.path.Found? && a.path.at + a.path.len <= |a.text|
  {
    var hops := Hops(PathOf(a), 0);
    s.sameCluster <==> s.cluster != "" && hops != [] && ArtTree.SameName(s.cluster[..|s.cluster| - 1], hops[0])
  }

  /** What is cut from the path for the cluster is as long as its name and the character after it, and it is the name
      if and only if the path does not begin with a blank. */
  lemma ClusterCut(a: Article, s: Site)
    requires a.path.Found? && a.path.at + a.path.len < |a.text| && KnowsCluster(a, s) && s.sameCluster
    ensures |s.cluster| <= a.path.len + 1
    ensures var v, cut := PathOf(a), a.text[a.path.at..a.path.at + |s.cluster|];
            && Hops(v, 0) != []
            && var hop := Hops(v, 0)[0];
            && |cut| == |hop| + 1
            && (cut[..|hop|] == hop <==> hop == "" || !White(v[0]))
            && (cut[..|hop|] == hop && hop != "" && |hop| < |v| ==> !HostChar(cut[|hop|]))
  {
    var v := PathOf(a);
    var b := Unblank(v, 0);
    var e := HostEnd(v, b);
    var hop, cut := v[b..e], a.text[a.path.at..a.path.at + |s.cluster|];
    assert Hops(v, 0)[0] == hop;
    assert forall k | 0 <= k < e - b :: cut[k] == v[k];
    if hop != "" && White(v[0]) {
      assert HostChar(hop[0]) && cut[..|hop|][0] == v[0];
    } else if hop != "" {
      assert cut[..|hop|] == hop;
    }
  }

  /** The CR at the end of the Path line is cut away, and the line merges into the next one for a strict reader, exactly
      when the first name of the path is the cluster's and there is nothing else in the path, not even a blank. */
  lemma PathLineBroken(a: Article, s: Site)
    requires Layout(a, s) && KnowsCluster(a, s)
    ensures Cut(a, s, a.path.at + a.path.len) <==> s.sameCluster && Hops(PathOf(a), 0) == [PathOf(a)]
  {
    assert Apart(a, Path, Xref) && Apart(a, Path, Bytes);
    var v := PathOf(a);
    if s.sameCluster {
      ClusterCut(a, s);
      WholePath(v);
    }
  }

  lemma WholePath(v: string)
    requires Hops(v, 0) != []
    ensures |Hops(v, 0)[0]| <= |v|
    ensures |Hops(v, 0)[0]| == |v| <==> Hops(v, 0) == [v]
  {
    assert v != "";
    NextHop(v, 0);
    var b := Unblank(v, 0);
    var e := HostEnd(v, b);
    assert Hops(v, 0)[0] == v[b..e];
    if e - b == |v| {
      NoHops(v, e + 1);
      assert v[b..e] == v;
    }
  }

  lemma HostNotWhite(c: char)
    requires HostChar(c)
    ensures !White(c)
  {}

  lemma OneName(v: string)
    requires v != "" && forall i | 0 <= i < |v| :: HostChar(v[i])
    ensures Hops(v, 0) == [v]
  {
    hide *;
    HostNotWhite(v[0]);
    assert Unblank(v, 0) == 0 && HostEnd(v, 0) == |v|;
    NextHop(v, 0);
    NoHops(v, |v| + 1);
    assert v[0..|v|] == v;
  }

  /** A path that is just the name of the cluster: the stored article has an LF without its CR. */
  lemma OneHopPath()
    ensures var a := Article("Path: c\r\n\r\n.\r\n", 11, Found(6, 1), Missing, Missing, 0);
            var s := Site("me!", "c!", "", false, false, true, "x\r\n", false);
            Layout(a, s) && KnowsCluster(a, s) && Cut(a, s, 7) && !Cut(a, s, 8)
  {
    OneName("c");
    var text := "Path: c\r\n\r\n.\r\n";
    assert text[6..7] == "c" && "c!"[..1] == "c";
  }

  /** An article that has neither Xref nor Bytes. */
  lemma PathOnly(a: Article, s: Site)
    requires Layout(a, s) && a.xref.Missing? && a.bytes.Missing? && Edits(a, s, Path)
    ensures a.path.at <= |a.text| && Hi(a, s, Path) <= a.body - 2 <= |a.text|
    ensures Edited(a, s, |a.text|) ==
            a.text[..a.path.at] + New(s, Path) + a.text[Hi(a, s, Path)..a.body - 2] + "Xref: " + s.xref
            + a.text[a.body - 2..]
  {
    PathBounds(a, s);
    var h, e := Hi(a, s, Path), a.body - 2;
    hide *;
    PathOnlyEdited(a, s);
    PathOnlyEnding(a, s);
    Chain(a.text[..a.path.at], New(s, Path), Edited(a, s, h) + InsertHere(a, s, h),
          a.text[h..e], "Xref: ", s.xref, a.text[e..], Edited(a, s, |a.text|));
  }

  lemma PathBounds(a: Article, s: Site)
    requires Layout(a, s) && Edits(a, s, Path)
    ensures a.path.Found? && |s.xref| >= 2 && a.path.at <= Hi(a, s, Path) <= a.body - 2 <= |a.text|
  {}

  lemma PathOnlyEdited(a: Article, s: Site)
    requires Layout(a, s) && a.xref.Missing? && a.bytes.Missing? && Edits(a, s, Path)
    ensures |s.xref| >= 2 && a.path.at <= Hi(a, s, Path) <= |a.text|
    ensures Edited(a, s, Hi(a, s, Path)) + InsertHere(a, s, Hi(a, s, Path)) == a.text[..a.path.at] + New(s, Path)
  {
    PathBounds(a, s);
    hide Layout, Edits, Edited, InsertHere, New, Splits, Hi, Added, Cut;
    PathFirst(a, s);
    OneEdit(a, s, [Path], 0, 0);
    assert "" + a.text[0..a.path.at] == a.text[..a.path.at];
  }

  lemma PathOnlyEnding(a: Article, s: Site)
    requires Layout(a, s) && a.xref.Missing? && a.bytes.Missing? && Edits(a, s, Path)
    ensures |s.xref| >= 2 && a.path.at <= Hi(a, s, Path) <= a.body - 2 <= |a.text|
    ensures var h, e := Hi(a, s, Path), a.body - 2;
            Edited(a, s, |a.text|) ==
            Edited(a, s, h) + InsertHere(a, s, h) + (a.text[h..e] + "Xref: " + s.xref + a.text[e..])
  {
    PathBounds(a, s);
    hide Layout, Edits, Edited, InsertHere, New, Splits, Hi, Added, Cut;
    PathFirst(a, s);
    OneEdit(a, s, [Path], 0, 0);
    Ending(a, s, [Path], Hi(a, s, Path));
  }

  lemma PathFirst(a: Article, s: Site)
    requires Layout(a, s) && a.xref.Missing? && a.bytes.Missing? && Edits(a, s, Path)
    ensures Splits(a, s, [Path], 0, 0) && Edited(a, s, 0) + InsertHere(a, s, 0) == ""
    ensures Lo(a, Path) == a.path.at && a.body - 2 <= |a.text| && a.body >= 2
  {
    assert Path in [Path];
  }

  lemma Chain(v: string, n: string, mid: string, w: string, x: string, y: string, z: string, all: string)
    requires mid == v + n && all == mid + (w + x + y + z)
    ensures all == v + n + w + x + y + z
  {}

  const BLANK_ARTICLE := Article("Path:  c!x\r\n\r\n.\r\n", 14, Found(6, 4), Missing, Missing, 0)
  const CLUSTERED := Site("me!", "c!", "", false, false, true, "y\r\n", false)

  /** A path that begins with a blank: the blank and the first letter of the cluster's name are cut, and the rest of it
      stays. */
  lemma BlankPath()
    ensures Layout(BLANK_ARTICLE, CLUSTERED) && KnowsCluster(BLANK_ARTICLE, CLUSTERED)
    ensures Edited(BLANK_ARTICLE, CLUSTERED, 17) == "Path: c!me!!x\r\nXref: y\r\n\r\n.\r\n"
  {
    BlankKnown();
    BlankParts();
    hide *;
    PathOnly(BLANK_ARTICLE, CLUSTERED);
  }

  lemma BlankKnown()
    ensures Layout(BLANK_ARTICLE, CLUSTERED) && KnowsCluster(BLANK_ARTICLE, CLUSTERED)
    ensures Edits(BLANK_ARTICLE, CLUSTERED, Path)
  {
    var v := " c!x";
    assert BLANK_ARTICLE.text[6..10] == v && CLUSTERED.cluster[..1] == "c";
    assert Unblank(v, 0) == 1 && HostEnd(v, 1) == 2 && v[1..2] == "c";
    NextHop(v, 0);
  }

  lemma BlankParts()
    ensures BLANK_ARTICLE.xref.Missing? && BLANK_ARTICLE.bytes.Missing? && BLANK_ARTICLE.path.at == 6
    ensures BLANK_ARTICLE.body == 14 && |BLANK_ARTICLE.text| == 17 && |CLUSTERED.xref| >= 2
    ensures Hi(BLANK_ARTICLE, CLUSTERED, Path) == 8
    ensures BLANK_ARTICLE.text[..6] + New(CLUSTERED, Path) + BLANK_ARTICLE.text[8..12] + "Xref: " + CLUSTERED.xref
            + BLANK_ARTICLE.text[12..]
         == "Path: c!me!!x\r\nXref: y\r\n\r\n.\r\n"
  {
    var text := BLANK_ARTICLE.text;
    assert text[..6] == "Path: " && text[8..12] == "!x\r\n" && text[12..] == "\r\n.\r\n";
  }

  const BYTES_TEXT := "Path: " + ("a\r\n" + ("Bytes: 9\r\n" + "\r\n.\r\n"))
  const WITH_BYTES := Article(BYTES_TEXT, 21, Found(6, 1), Missing, Found(16, 1), 9)
  const PLAIN_SITE := Site("me!", "", "", false, false, false, "y\r\n", false)

  /** Bytes is dropped, and Xref is added. */
  lemma BytesDropped()
    ensures Layout(WITH_BYTES, PLAIN_SITE)
    ensures Edited(WITH_BYTES, PLAIN_SITE, |WITH_BYTES.text|) == "Path: me!a\r\nXref: y\r\n\r\n.\r\n"
  {
    BytesPatches();
    var t := WITH_BYTES.text;
    BytesParts();
    hide *;
    StoredText(WITH_BYTES, PLAIN_SITE, [Path, Bytes]);
    var x, y, z := Patch(6, 9, "me!a\r\n"), Patch(9, 19, ""), Patch(19, 19, "Xref: y\r\n");
    OnePatched(t, x, [y] + ([z] + []), 0);
    OnePatched(t, y, [z] + [], 9);
    OnePatched(t, z, [], 19);
    NonePatched(t, 19);
    BytesGlue();
  }

  lemma BytesGlue()
    ensures "Path: " + "me!a\r\n" + ("" + "" + ("" + "Xref: y\r\n" + "\r\n.\r\n"))
         == "Path: me!a\r\nXref: y\r\n\r\n.\r\n"
  {}

  lemma BytesParts()
    ensures var t := WITH_BYTES.text;
            && |t| == 24 && t[0..6] == "Path: " && t[6..9] == "a\r\n" && t[9..9] == "" && t[19..19] == ""
            && t[19..] == "\r\n.\r\n"
  {
    var t := BYTES_TEXT;
    assert WITH_BYTES.text == t;
    var c := "Bytes: 9\r\n" + "\r\n.\r\n";
    var b := "a\r\n" + c;
    assert t[0..] == t == "Path: " + b;
    hide *;
    Step(t, 0, "Path: ", b);
    Step(t, 6, "a\r\n", c);
    Step(t, 9, "Bytes: 9\r\n", "\r\n.\r\n");
  }

  lemma BytesPatches()
    ensures var ks := [Path, Bytes];
            && Layout(WITH_BYTES, PLAIN_SITE) && Ordered(WITH_BYTES, ks)
            && FieldPatches(WITH_BYTES, PLAIN_SITE, ks, 0) ==
               [Patch(6, 9, "me!a\r\n")] + ([Patch(9, 19, "")] + ([Patch(19, 19, "Xref: y\r\n")] + []))
  {
    var a, s, ks := WITH_BYTES, PLAIN_SITE, [Path, Bytes];
    BytesParts();
    BytesValues();
    assert Path in ks && Bytes in ks;
    assert FieldPatches(a, s, ks, 2) == NewXref(a, s) == [Patch(19, 19, "Xref: y\r\n")] + [];
    assert FieldPatch(a, s, Path) == Patch(6, 9, "me!a\r\n");
    assert FieldPatches(a, s, ks, 1) == [Patch(9, 19, "")] + FieldPatches(a, s, ks, 2);
  }

  lemma BytesValues()
    ensures "" + "me!" + "" + "a\r\n" == "me!a\r\n" && "Xref: " + PLAIN_SITE.xref == "Xref: y\r\n"
  {}

  lemma OnePatched(text: string, x: Patch, ps: seq<Patch>, p: nat)
    requires p <= x.lo <= |text|
    ensures Patched(text, [x] + ps, p) == text[p..x.lo] + x.text + Patched(text, ps, x.hi)
  {
    assert ([x] + ps)[1..] == ps;
  }

  lemma NonePatched(text: string, p: nat)
    requires p <= |text|
    ensures Patched(text, [], p) == text[p..]
  {}

  const FULL_TEXT := "Xref: " + ("h g:1" + ("\r\n" + ("Bytes: 99\r\n" + ("Path: " + ("a!b\r\n" + "\r\n.\r\n")))))
  const FULL := Article(FULL_TEXT, 37, Found(30, 3), Found(6, 5), Found(20, 2), 13)
  const FULL_SITE := Site("me!", "c!", "al!", true, false, false, "me g:7\r\n", false)

  /** All three fields, in another order: Xref is replaced, Bytes dropped, and three names are prepended to the path. */
  lemma AllPatched()
    ensures Layout(FULL, FULL_SITE)
    ensures Edited(FULL, FULL_SITE, |FULL.text|) == "Xref: me g:7\r\nPath: c!me!al!a!b\r\n\r\n.\r\n"
  {
    FullPatches();
    FullParts();
    var t := FULL.text;
    hide *;
    StoredText(FULL, FULL_SITE, [Xref, Bytes, Path]);
    var x, y, z := Patch(6, 13, "me g:7\r\n"), Patch(13, 24, ""), Patch(30, 35, "c!me!al!a!b\r\n");
    OnePatched(t, x, [y] + ([z] + []), 0);
    OnePatched(t, y, [z] + [], 13);
    OnePatched(t, z, [], 24);
    NonePatched(t, 35);
    FullGlue();
  }

  lemma FullGlue()
    ensures "Xref: " + "me g:7\r\n" + ("" + "" + ("Path: " + "c!me!al!a!b\r\n" + "\r\n.\r\n"))
         == "Xref: me g:7\r\nPath: c!me!al!a!b\r\n\r\n.\r\n"
  {}

  /** The text from `i` on is `x`, and then `more`. */
  lemma Step(t: string, i: nat, x: string, more: string)
    requires i <= |t| && t[i..] == x + more
    ensures i + |x| <= |t| && t[i..i + |x|] == x && t[i + |x|..] == more
  {
    assert t[i..i + |x|] == t[i..][..|x|] == (x + more)[..|x|];
    assert t[i + |x|..] == t[i..][|x|..] == (x + more)[|x|..];
  }

  lemma FullParts()
    ensures var t := FULL.text;
            && |t| == 40 && t[0..6] == "Xref: " && t[11..13] == "\r\n" && t[13..13] == "" && t[24..30] == "Path: "
            && t[30..35] == "a!b\r\n" && t[35..] == "\r\n.\r\n"
  {
    var t := FULL_TEXT;
    assert FULL.text == t;
    var f := "a!b\r\n" + "\r\n.\r\n";
    var e := "Path: " + f;
    var d := "Bytes: 99\r\n" + e;
    var c := "\r\n" + d;
    var b := "h g:1" + c;
    assert t[0..] == t == "Xref: " + b;
    hide *;
    Step(t, 0, "Xref: ", b);
    Step(t, 6, "h g:1", c);
    Step(t, 11, "\r\n", d);
    Step(t, 13, "Bytes: 99\r\n", e);
    Step(t, 24, "Path: ", f);
    Step(t, 30, "a!b\r\n", "\r\n.\r\n");
  }

  lemma FullPatches()
    ensures var ks := [Xref, Bytes, Path];
            && Layout(FULL, FULL_SITE) && Ordered(FULL, ks)
            && FieldPatches(FULL, FULL_SITE, ks, 0) ==
               [Patch(6, 13, "me g:7\r\n")] + ([Patch(13, 24, "")] + ([Patch(30, 35, "c!me!al!a!b\r\n")] + []))
  {
    var a, s, ks := FULL, FULL_SITE, [Xref, Bytes, Path];
    assert Path in ks && Bytes in ks && Xref in ks;
    FullParts();
    FullValues();
    assert FieldPatch(a, s, Path) == Patch(30, 35, "c!me!al!a!b\r\n");
    assert FieldPatch(a, s, Xref) == Patch(6, 13, "me g:7\r\n");
    assert FieldPatches(a, s, ks, 3) == [];
    assert FieldPatches(a, s, ks, 2) == [Patch(30, 35, "c!me!al!a!b\r\n")] + [];
    assert FieldPatches(a, s, ks, 1) == [Patch(13, 24, "")] + FieldPatches(a, s, ks, 2);
  }

  lemma FullValues()
    ensures FULL_SITE.xref[..6] + FULL.text[11..13] == "me g:7\r\n"
    ensures "c!" + "me!" + "al!" + FULL.text[30..35] == "c!me!al!a!b\r\n"
  {
    assert FULL_SITE.xref[..6] == "me g:7";
    FullParts();
  }
}
