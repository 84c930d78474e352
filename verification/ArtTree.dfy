/** innd, the search tree for the names of header fields. */
module ArtTree {

  datatype Tree = Null | Node(header: nat, name: string, before: Tree, after: Tree)

  // --- names ----------------------------------------------------------------------------------

  predicate IsUpper(c: char) {
    'A' <= c <= 'Z'
  }

  predicate IsLower(c: char) {
    'a' <= c <= 'z'
  }

  function ToLower(c: char): char {
    if IsUpper(c) then c + 32 as char else c
  }

  function ToUpper(c: char): char {
    if IsLower(c) then c - 32 as char else c
  }

  /** The order of names in which upper and lower case are the same. */
  function StrCaseCmp(a: string, b: string): int {
    if a == [] && b == [] then 0
    else if a == [] then -1
    else if b == [] then 1
    else if ToLower(a[0]) != ToLower(b[0]) then ToLower(a[0]) as int - ToLower(b[0]) as int
    else StrCaseCmp(a[1..], b[1..])
  }

  /** The same name, whatever the case of its letters. */
  predicate SameName(a: string, b: string) {
    |a| == |b| && forall i | 0 <= i < |a| :: ToLower(a[i]) == ToLower(b[i])
  }

  /** Names are the same if and only if they differ in nothing but the case of letters. */
  lemma LetterCase(c: char, d: char)
    ensures ToLower(c) == ToLower(d) <==>
            || c == d
            || ('A' <= c <= 'Z' && d as int == c as int - 'A' as int + 'a' as int)
            || ('A' <= d <= 'Z' && c as int == d as int - 'A' as int + 'a' as int)
  {}

  /** A value of the type `char`, which is signed. */
  function Signed(c: char): int {
    var n := c as int % 256;
    if n >= 128 then n - 256 else n
  }

  predicate Name(name: string) {
    name != "" && IsUpper(name[0])
  }

  /** A table as it is after sorting: its names differ in more than case and begin with a capital letter. */
  predicate Table(names: seq<string>) {
    && (forall i | 0 <= i < |names| :: Name(names[i]))
    && forall i, j | 0 <= i < j < |names| :: StrCaseCmp(names[i], names[j]) < 0
  }

  lemma {:induction false} CmpZero(a: string, b: string)
    ensures StrCaseCmp(a, b) == 0 <==> SameName(a, b)
  {
    if a != [] && b != [] && ToLower(a[0]) == ToLower(b[0]) {
      CmpZero(a[1..], b[1..]);
      if SameName(a[1..], b[1..]) {
        forall i | 0 <= i < |a| ensures ToLower(a[i]) == ToLower(b[i]) {
          if i > 0 {
            assert a[i] == a[1..][i - 1] && b[i] == b[1..][i - 1];
          }
        }
      }
    }
  }

  lemma {:induction false} CmpTurned(a: string, b: string)
    ensures StrCaseCmp(a, b) == -StrCaseCmp(b, a)
  {
    if a != [] && b != [] {
      CmpTurned(a[1..], b[1..]);
    }
  }

  /** Case does not matter to the order. */
  lemma {:induction false} CmpSame(a: string, b: string, x: string)
    requires SameName(a, b)
    ensures StrCaseCmp(a, x) == StrCaseCmp(b, x)
  {
    if a != [] && x != [] {
      assert SameName(a[1..], b[1..]);
      CmpSame(a[1..], b[1..], x[1..]);
    }
  }

  // --- the tree -------------------------------------------------------------------------------

  function Mid(lo: nat, hi: nat): (mid: nat)
    requires lo < hi
    ensures lo <= mid < hi
  {
    lo + (hi - lo) / 2
  }

  /** A balanced tree for the names from `lo` up to `hi`. */
  function Build(names: seq<string>, lo: nat, hi: nat): Tree
    requires lo < hi <= |names|
    decreases hi - lo
  {
    var mid := Mid(lo, hi);
    Node(mid, names[mid],
         if mid == lo then Null else Build(names, lo, mid),
         if mid == hi - 1 then Null else Build(names, mid + 1, hi))
  }

  function Depth(t: Tree): nat {
    if t.Null? then 0 else 1 + if Depth(t.before) > Depth(t.after) then Depth(t.before) else Depth(t.after)
  }

  function Power(n: nat): nat {
    if n == 0 then 1 else 2 * Power(n - 1)
  }

  /** The depth is the logarithm of the number of names. */
  lemma {:induction false} Balanced(names: seq<string>, lo: nat, hi: nat)
    requires lo < hi <= |names|
    ensures var d := Depth(Build(names, lo, hi));
            d > 0 && Power(d - 1) <= hi - lo < Power(d)
    decreases hi - lo
  {
    var mid := Mid(lo, hi);
    if mid > lo {
      Balanced(names, lo, mid);
    }
    if mid < hi - 1 {
      Balanced(names, mid + 1, hi);
      PowerGrows(Depth(Build(names, mid + 1, hi)), Depth(Build(names, lo, mid)));
      PowerGrows(Depth(Build(names, lo, mid)), Depth(Build(names, mid + 1, hi)));
    }
  }

  lemma {:induction false} PowerGrows(a: nat, b: nat)
    ensures a <= b ==> Power(a) <= Power(b)
    ensures a < b ==> 2 * Power(a) <= Power(b)
  {
    if a < b {
      PowerGrows(a, b - 1);
    }
  }

  // --- the search -----------------------------------------------------------------------------

  /** One comparison of the descent: by the first character, and only if that is the same by the whole name. */
  function Compare(c: char, header: string, name: string): int
    requires name != ""
  {
    var i := Signed(c) - Signed(name[0]);
    if i != 0 then i else StrCaseCmp(header, name)
  }

  /** The first character of a header as it is compared. */
  function FirstChar(header: string): char {
    if header == "" then '\0' else ToUpper(header[0])
  }

  predicate Rooted(t: Tree) {
    t.Node? ==> t.name != "" && Rooted(t.before) && Rooted(t.after)
  }

  function Descend(t: Tree, header: string): Tree
    requires Rooted(t)
  {
    if t.Null? then t else
      var i := Compare(FirstChar(header), header, t.name);
      if i == 0 then t else if i < 0 then Descend(t.before, header) else Descend(t.after, header)
  }

  method Lookup(tree: Tree, header: string) returns (t: Tree)
    requires Rooted(tree)
    ensures t == Descend(tree, header)
  {
    var c := if header != "" && IsLower(header[0]) then ToUpper(header[0]) else FirstChar(header);
    t := tree;
    while t.Node?
      invariant Rooted(t) && Descend(t, header) == Descend(tree, header)
      decreases t
    {
      var i := Signed(c) - Signed(t.name[0]);
      if i == 0 {
        i := StrCaseCmp(header, t.name);
        if i == 0 {
          return;
        }
      }
      t := if i < 0 then t.before else t.after;
    }
  }

  lemma {:induction false} BuiltRooted(names: seq<string>, lo: nat, hi: nat)
    requires lo < hi <= |names| && Table(names)
    ensures Rooted(Build(names, lo, hi))
    decreases hi - lo
  {
    var mid := Mid(lo, hi);
    assert Name(names[mid]);
    if mid > lo {
      BuiltRooted(names, lo, mid);
    }
    if mid < hi - 1 {
      BuiltRooted(names, mid + 1, hi);
    }
  }

  /** The mixed comparison never sends the descent away from the name it is looking for. */
  lemma CompareGuides(names: seq<string>, mid: nat, k: nat, header: string)
    requires Table(names) && mid < |names| && k < |names| && SameName(header, names[k])
    requires names[mid] != ""
    ensures var i := Compare(FirstChar(header), header, names[mid]);
            (i == 0 <==> k == mid) && (i < 0 <==> k < mid)
  {
    assert Name(names[mid]) && Name(names[k]);
    CmpSame(header, names[k], names[mid]);
    CmpTurned(names[k], names[mid]);
    CmpZero(names[k], names[mid]);
    assert ToLower(header[0]) == ToLower(names[k][0]);
    assert FirstChar(header) == names[k][0];
  }

  lemma DescendParts(names: seq<string>, lo: nat, hi: nat, header: string)
    requires lo < hi <= |names| && Rooted(Build(names, lo, hi))
    ensures var mid := Mid(lo, hi);
            names[mid] != "" && Descend(Build(names, lo, hi), header) ==
            var i := Compare(FirstChar(header), header, names[mid]);
            if i == 0 then Build(names, lo, hi)
            else if i < 0 then (if mid == lo then Null else Descend(Build(names, lo, mid), header))
            else (if mid == hi - 1 then Null else Descend(Build(names, mid + 1, hi), header))
    ensures Build(names, lo, hi).Node? && Build(names, lo, hi).header == Mid(lo, hi)
  {
    hide Compare, FirstChar, Mid;
  }

  lemma CompareFinds(header: string, name: string)
    requires name != "" && Compare(FirstChar(header), header, name) == 0
    ensures SameName(header, name)
  {
    CmpZero(header, name);
  }

  /** The descent finds a header exactly when a linear search that ignores case would, and the same one. */
  lemma {:induction false} DescendIsSearch(names: seq<string>, lo: nat, hi: nat, header: string)
    requires Table(names) && lo < hi <= |names|
    ensures Rooted(Build(names, lo, hi))
    ensures var t := Descend(Build(names, lo, hi), header);
            if t.Null? then forall k | lo <= k < hi :: !SameName(header, names[k])
            else lo <= t.header < hi && SameName(header, names[t.header])
                 && forall k | lo <= k < hi && SameName(header, names[k]) :: k == t.header
    decreases hi - lo
  {
    BuiltRooted(names, lo, hi);
    var mid := Mid(lo, hi);
    assert Name(names[mid]);
    var i := Compare(FirstChar(header), header, names[mid]);
    forall k | lo <= k < hi && SameName(header, names[k])
      ensures (i == 0 <==> k == mid) && (i < 0 <==> k < mid)
    {
      CompareGuides(names, mid, k, header);
    }
    DescendParts(names, lo, hi, header);
    hide *;
    if i == 0 {
      CompareFinds(header, names[mid]);
    } else if i < 0 && mid > lo {
      DescendIsSearch(names, lo, mid, header);
    } else if i > 0 && mid < hi - 1 {
      DescendIsSearch(names, mid + 1, hi, header);
    }
  }
}
