// Elements in memory.  A list holds its elements in place, and an element with sub-elements points to a list of
// its own; copying an element swaps the sub-elements out of the original.  The lemmas and contracts here show
// that lists are never shared, and that what happens in memory is what Elements says on values.
module Ownership {
  import opened Tokens
  import opened Elements

  datatype Cell = Cell(token: Token, cb: int, ce: int, subs: Chain?)

  // A list in memory.
  class Chain {
    var format: Format
    var cells: seq<Cell>

    constructor (format: Format)
      ensures this.format == format && cells == []
    {
      this.format, cells := format, [];
    }
  }

  // The contents of some lists at one moment.
  datatype Record = Record(format: Format, cells: seq<Cell>)

  type Memory = map<Chain, Record>

  ghost function Heap(u: set<Chain>): Memory
    reads u
  {
    map c | c in u :: Record(c.format, c.cells)
  }

  // No two elements point to the same list.
  ghost predicate Linear(h: Memory)
  {
    forall c, d, i, j |
        c in h && d in h && 0 <= i < |h[c].cells| && 0 <= j < |h[d].cells|
        && h[c].cells[i].subs != null && h[c].cells[i].subs == h[d].cells[j].subs ::
      c == d && i == j
  }

  // The lists point to each other only, and always to a list of lower rank.
  ghost predicate Ranked(h: Memory, r: map<Chain, nat>)
  {
    forall c | c in h :: c in r && forall i | 0 <= i < |h[c].cells| :: Below(h, r, h[c].cells[i], r[c])
  }

  ghost predicate Below(h: Memory, r: map<Chain, nat>, x: Cell, rank: nat)
  {
    x.subs != null ==> x.subs in h && x.subs in r && r[x.subs] < rank
  }

  // Every list has one owner at most, and none contains itself.
  ghost predicate Owned(h: Memory, r: map<Chain, nat>)
  {
    Linear(h) && Ranked(h, r)
  }

  // No element points to the list.
  ghost predicate Free(h: Memory, c: Chain)
  {
    forall d, i | d in h && 0 <= i < |h[d].cells| :: h[d].cells[i].subs != c
  }

  // ---------- the values that lists stand for ----------

  ghost function View(h: Memory, r: map<Chain, nat>, c: Chain): (v: seq<Element>)
    requires Ranked(h, r) && c in h
    ensures |v| == |h[c].cells|
    ensures forall k | 0 <= k < |v| :: v[k] == ElementOf(h, r, h[c].cells[k], r[c])
    decreases r[c], 1
  {
    seq(|h[c].cells|, k requires 0 <= k < |h[c].cells| => ElementOf(h, r, h[c].cells[k], r[c]))
  }

  ghost function ElementOf(h: Memory, r: map<Chain, nat>, x: Cell, rank: nat): Element
    requires Ranked(h, r) && Below(h, r, x, rank)
    decreases rank, 0
  {
    Element(x.token, x.cb, x.ce, if x.subs == null then Null else List(h[x.subs].format, View(h, r, x.subs)))
  }

  // A set of lists that point to each other only and are the same in two heaps stands for the same values.
  ghost predicate Kept(h: Memory, h': Memory, s: set<Chain>)
  {
    forall c | c in s ::
      c in h && c in h' && h[c] == h'[c] && forall i | 0 <= i < |h[c].cells| :: InSet(h[c].cells[i], s)
  }

  predicate InSet(x: Cell, s: set<Chain>)
  {
    x.subs != null ==> x.subs in s
  }

  lemma {:induction false} KeptView(
      h: Memory, r: map<Chain, nat>, h': Memory, r': map<Chain, nat>, s: set<Chain>, c: Chain)
    requires Ranked(h, r) && Ranked(h', r') && Kept(h, h', s) && c in s
    ensures View(h, r, c) == View(h', r', c)
    decreases r[c]
  {
    forall k | 0 <= k < |h[c].cells|
      ensures View(h, r, c)[k] == View(h', r', c)[k]
    {
      var x := h[c].cells[k];
      assert Below(h, r, x, r[c]) && Below(h', r', x, r'[c]) && InSet(x, s);
      if x.subs != null {
        KeptView(h, r, h', r', s, x.subs);
      }
    }
  }

  // Values do not depend on the ranks.
  lemma SameView(h: Memory, r: map<Chain, nat>, r': map<Chain, nat>, c: Chain)
    requires Ranked(h, r) && Ranked(h, r') && c in h
    ensures View(h, r, c) == View(h, r', c)
  {
    assert Kept(h, h, h.Keys) by {
      forall d, i | d in h && 0 <= i < |h[d].cells|
        ensures InSet(h[d].cells[i], h.Keys)
      {
        assert Below(h, r, h[d].cells[i], r[d]);
      }
    }
    KeptView(h, r, h, r', h.Keys, c);
  }

  // ---------- what a list contains ----------

  ghost predicate Reaches(h: Memory, r: map<Chain, nat>, c: Chain, d: Chain)
    requires Ranked(h, r) && c in h
    decreases r[c], 0
  {
    || c == d
    || exists i | 0 <= i < |h[c].cells| ::
         h[c].cells[i].subs != null && ReachesFrom(h, r, h[c].cells[i], r[c], d)
  }

  ghost predicate ReachesFrom(h: Memory, r: map<Chain, nat>, x: Cell, rank: nat, d: Chain)
    requires Ranked(h, r) && x.subs != null && Below(h, r, x, rank)
    decreases r[x.subs], 1
  {
    Reaches(h, r, x.subs, d)
  }

  lemma {:induction false} ReachRank(h: Memory, r: map<Chain, nat>, c: Chain, d: Chain)
    requires Ranked(h, r) && c in h && Reaches(h, r, c, d)
    ensures d in h && (c != d ==> r[d] < r[c])
    decreases r[c]
  {
    if c == d {
    } else {
      var i :| 0 <= i < |h[c].cells| && h[c].cells[i].subs != null && ReachesFrom(h, r, h[c].cells[i], r[c], d);
      ReachRank(h, r, h[c].cells[i].subs, d);
    }
  }

  // The last list but one on the way.
  lemma {:induction false} ReachLast(h: Memory, r: map<Chain, nat>, c: Chain, d: Chain) returns (e: Chain, i: nat)
    requires Ranked(h, r) && c in h && Reaches(h, r, c, d) && c != d
    ensures e in h && i < |h[e].cells| && h[e].cells[i].subs == d && Reaches(h, r, c, e)
    decreases r[c]
  {
    var k :| 0 <= k < |h[c].cells| && h[c].cells[k].subs != null && ReachesFrom(h, r, h[c].cells[k], r[c], d);
    if h[c].cells[k].subs == d {
      e, i := c, k;
    } else {
      e, i := ReachLast(h, r, h[c].cells[k].subs, d);
      assert ReachesFrom(h, r, h[c].cells[k], r[c], e);
    }
  }

  lemma ReachCell(h: Memory, r: map<Chain, nat>, c: Chain, i: nat, d: Chain)
    requires Ranked(h, r) && c in h && i < |h[c].cells| && h[c].cells[i].subs != null
    ensures h[c].cells[i].subs in h && Below(h, r, h[c].cells[i], r[c])
    ensures Reaches(h, r, h[c].cells[i].subs, d) ==> Reaches(h, r, c, d)
  {
    assert Below(h, r, h[c].cells[i], r[c]);
    if Reaches(h, r, h[c].cells[i].subs, d) {
      assert ReachesFrom(h, r, h[c].cells[i], r[c], d);
    }
  }

  // A list from which none of the changed lists can be reached stands for what it stood for.
  lemma Untouched(
      h: Memory, r: map<Chain, nat>, h': Memory, r': map<Chain, nat>, changed: set<Chain>, c: Chain)
    requires Ranked(h, r) && Ranked(h', r') && c in h
    requires forall d | d in h && d !in changed :: d in h' && h'[d] == h[d]
    requires forall t | t in changed :: !Reaches(h, r, c, t)
    ensures c in h' && View(h', r', c) == View(h, r, c)
  {
    var s := set d | d in h && forall t | t in changed :: !Reaches(h, r, d, t);
    forall d, i | d in s && 0 <= i < |h[d].cells| && h[d].cells[i].subs != null
      ensures h[d].cells[i].subs in s
    {
      var x := h[d].cells[i];
      forall t | t in changed
        ensures !Reaches(h, r, x.subs, t)
      {
        ReachCell(h, r, d, i, t);
      }
    }
    forall d | d in s
      ensures d !in changed
    {
      assert Reaches(h, r, d, d);
    }
    KeptView(h, r, h', r', s, c);
  }

  // ---------- nothing is reachable in two ways ----------

  ghost predicate PointsTo(h: Memory, c: Chain, d: Chain)
  {
    c in h && exists i | 0 <= i < |h[c].cells| :: h[c].cells[i].subs == d
  }

  // Each list points to the next one.
  ghost predicate IsPath(h: Memory, p: seq<Chain>)
  {
    p != [] && forall k | 0 < k < |p| :: PointsTo(h, p[k - 1], p[k])
  }

  lemma PathEnd(h: Memory, p: seq<Chain>)
    requires IsPath(h, p)
    ensures p != [] && (|p| == 1 ==> p == [p[0]])
    ensures |p| > 1 ==>
      && PointsTo(h, p[|p| - 2], p[|p| - 1])
      && IsPath(h, p[..|p| - 1]) && p == p[..|p| - 1] + [p[|p| - 1]]
  {
    var n := |p| - 1;
    assert forall k | 0 < k <= n :: PointsTo(h, p[k - 1], p[k]);
    hide PointsTo;
  }

  // Two paths from free lists to the same list are the same path.
  lemma {:induction false} OnePath(h: Memory, p: seq<Chain>, q: seq<Chain>)
    requires Linear(h) && IsPath(h, p) && IsPath(h, q) && Free(h, p[0]) && Free(h, q[0])
    requires p[|p| - 1] == q[|q| - 1]
    ensures p == q
    decreases |p|
  {
    hide IsPath;
    PathEnd(h, p);
    PathEnd(h, q);
    if |p| == 1 || |q| == 1 {
    } else {
      OnePath(h, p[..|p| - 1], q[..|q| - 1]);
    }
  }

  // A free list does not contain what belongs to another free list.
  lemma {:induction false} NotInside(h: Memory, r: map<Chain, nat>, p: seq<Chain>, c: Chain)
    requires Owned(h, r) && IsPath(h, p) && Free(h, p[0]) && Free(h, c) && c in h && c != p[0]
    ensures !Reaches(h, r, c, p[|p| - 1])
    decreases |p|
  {
    hide IsPath;
    PathEnd(h, p);
    var d := p[|p| - 1];
    if c == d || !Reaches(h, r, c, d) {
    } else {
      var e, i := ReachLast(h, r, c, d);
      if |p| > 1 {
        NotInside(h, r, p[..|p| - 1], c);
      }
    }
  }

  // ---------- what the operations do to the heap ----------

  function Inserted<T>(a: seq<T>, at: nat, m: seq<T>): seq<T>
    requires at <= |a|
  {
    a[..at] + m + a[at..]
  }

  function Removed<T>(a: seq<T>, lo: nat, hi: nat): seq<T>
    requires lo <= hi <= |a|
  {
    a[..lo] + a[hi..]
  }

  ghost function With(h: Memory, c: Chain, cells: seq<Cell>): Memory
    requires c in h
  {
    h[c := h[c].(cells := cells)]
  }

  // The lists exchange their elements, not their formats.
  ghost function SwapHeap(h: Memory, a: Chain, b: Chain): Memory
    requires a in h && b in h
  {
    With(With(h, a, h[b].cells), b, h[a].cells)
  }

  ghost function InsertHeap(h: Memory, dst: Chain, at: nat, x: Cell): Memory
    requires dst in h && at <= |h[dst].cells|
  {
    With(h, dst, Inserted(h[dst].cells, at, [x]))
  }

  ghost function SpliceHeap(h: Memory, dst: Chain, at: nat, src: Chain, lo: nat, hi: nat): Memory
    requires dst in h && src in h && at <= |h[dst].cells| && lo <= hi <= |h[src].cells|
  {
    With(With(h, dst, Inserted(h[dst].cells, at, h[src].cells[lo..hi])), src, Removed(h[src].cells, lo, hi))
  }

  ghost function DropHeap(h: Memory, c: Chain, lo: nat, hi: nat): Memory
    requires c in h && lo <= hi <= |h[c].cells|
  {
    With(h, c, Removed(h[c].cells, lo, hi))
  }

  // A list of the given format takes over all elements of another.
  ghost function MoveHeap(h: Memory, list: Chain, mine: Chain): Memory
    requires list in h
  {
    SwapHeap(h[mine := Record(h[list].format, [])], list, mine)
  }

  // The list that has the cells of c once those of a and b are swapped.
  function Other(a: Chain, b: Chain, c: Chain): Chain
  {
    if c == a then b else if c == b then a else c
  }

  lemma SwapLinear(h: Memory, a: Chain, b: Chain)
    requires Linear(h) && a in h && b in h && a != b
    ensures Linear(SwapHeap(h, a, b)) && forall c | Free(h, c) :: Free(SwapHeap(h, a, b), c)
  {
    var h' := SwapHeap(h, a, b);
    assert forall c | c in h' :: c in h && h'[c].cells == h[Other(a, b, c)].cells;
    hide SwapHeap, With;
    assert forall c, d | Other(a, b, c) == Other(a, b, d) :: c == d;
  }

  lemma NewLinear(h: Memory, c: Chain, format: Format)
    requires Linear(h) && c !in h
    ensures Linear(h[c := Record(format, [])]) && forall d | Free(h, d) :: Free(h[c := Record(format, [])], d)
  {}

  lemma InsertedAt<T>(a: seq<T>, at: nat, m: seq<T>, k: nat)
    requires at <= |a| && k < |a| + |m|
    ensures |Inserted(a, at, m)| == |a| + |m|
    ensures Inserted(a, at, m)[k] == if k < at then a[k] else if k < at + |m| then m[k - at] else a[k - |m|]
  {}

  lemma InsertLinear(h: Memory, dst: Chain, at: nat, x: Cell)
    requires Linear(h) && dst in h && at <= |h[dst].cells| && (x.subs != null ==> Free(h, x.subs))
    ensures
      var h' := InsertHeap(h, dst, at, x);
      Linear(h') && forall c | Free(h, c) && c != x.subs :: Free(h', c)
  {
    var h', a := InsertHeap(h, dst, at, x), h[dst].cells;
    forall k | 0 <= k < |a| + 1
      ensures h'[dst].cells[k] == if k < at then a[k] else if k == at then x else a[k - 1]
    {
      InsertedAt(a, at, [x], k);
    }
    assert |h'[dst].cells| == |a| + 1;
    hide Inserted;
  }

  lemma DropLinear(h: Memory, c: Chain, lo: nat, hi: nat)
    requires Linear(h) && c in h && lo <= hi <= |h[c].cells|
    ensures Linear(DropHeap(h, c, lo, hi)) && forall d | Free(h, d) :: Free(DropHeap(h, c, lo, hi), d)
  {
    var h', a := DropHeap(h, c, lo, hi), h[c].cells;
    assert |h'[c].cells| == |a| - (hi - lo);
    assert forall k | 0 <= k < |h'[c].cells| :: h'[c].cells[k] == if k < lo then a[k] else a[k + (hi - lo)];
    hide Removed;
  }

  // Where the k-th cell of c was before a splice.
  function Origin(dst: Chain, at: int, src: Chain, lo: int, hi: int, c: Chain, k: int): (Chain, int)
  {
    if c == dst then
      if k < at then (dst, k) else if k < at + hi - lo then (src, k - at + lo) else (dst, k - (hi - lo))
    else if c == src && k >= lo then (src, k + hi - lo)
    else (c, k)
  }

  lemma SplicedCells(h: Memory, dst: Chain, at: nat, src: Chain, lo: nat, hi: nat, c: Chain, k: nat)
    requires dst in h && src in h && dst != src && at <= |h[dst].cells| && lo <= hi <= |h[src].cells|
    requires c in h && k < |SpliceHeap(h, dst, at, src, lo, hi)[c].cells|
    ensures
      var h', (d, i) := SpliceHeap(h, dst, at, src, lo, hi), Origin(dst, at, src, lo, hi, c, k);
      d in h && 0 <= i < |h[d].cells| && h'[c].cells[k] == h[d].cells[i]
  {
    if c == dst {
      InsertedAt(h[dst].cells, at, h[src].cells[lo..hi], k);
    }
  }

  // No two cells come from the same place.
  lemma SpliceLinear(h: Memory, dst: Chain, at: nat, src: Chain, lo: nat, hi: nat)
    requires Linear(h) && dst in h && src in h && dst != src && at <= |h[dst].cells| && lo <= hi <= |h[src].cells|
    ensures
      var h' := SpliceHeap(h, dst, at, src, lo, hi);
      Linear(h') && forall c | Free(h, c) :: Free(h', c)
  {
    var h' := SpliceHeap(h, dst, at, src, lo, hi);
    assert h'.Keys == h.Keys;
    hide SpliceHeap;
    forall c, d, i, j |
        c in h' && d in h' && 0 <= i < |h'[c].cells| && 0 <= j < |h'[d].cells|
        && h'[c].cells[i].subs != null && h'[c].cells[i].subs == h'[d].cells[j].subs
      ensures c == d && i == j
    {
      SplicedCells(h, dst, at, src, lo, hi, c, i);
      SplicedCells(h, dst, at, src, lo, hi, d, j);
    }
    forall c, d, i | Free(h, c) && d in h' && 0 <= i < |h'[d].cells|
      ensures h'[d].cells[i].subs != c
    {
      SplicedCells(h, dst, at, src, lo, hi, d, i);
    }
  }

  // ---------- ranks for the new heap ----------

  // A list that nothing points to can be ranked as high as its new cells need.
  lemma RaiseRank(h: Memory, r: map<Chain, nat>, dst: Chain, cells: seq<Cell>, rank: nat) returns (r': map<Chain, nat>)
    requires Ranked(h, r) && dst in h && Free(h, dst)
    requires forall i | 0 <= i < |cells| :: Below(h, r, cells[i], rank) && cells[i].subs != dst
    ensures Ranked(With(h, dst, cells), r')
    ensures forall c | c in h && c != dst :: r'[c] == r[c]
  {
    r' := r[dst := rank];
    var h' := With(h, dst, cells);
    forall c, i | c in h' && 0 <= i < |h'[c].cells|
      ensures Below(h', r', h'[c].cells[i], r'[c])
    {
      if c != dst {
        assert Below(h, r, h[c].cells[i], r[c]);
      }
    }
  }

  // Fewer cells need no higher rank.
  lemma LowerRank(h: Memory, r: map<Chain, nat>, c: Chain, cells: seq<Cell>)
    requires Ranked(h, r) && c in h && forall i | 0 <= i < |cells| :: cells[i] in h[c].cells
    ensures Ranked(With(h, c, cells), r)
  {
    var h' := With(h, c, cells);
    forall d, i | d in h' && 0 <= i < |h'[d].cells|
      ensures Below(h', r, h'[d].cells[i], r[d])
    {
      var k :| 0 <= k < |h[d].cells| && h[d].cells[k] == h'[d].cells[i];
      assert Below(h, r, h[d].cells[k], r[d]);
    }
  }

  // ---------- copying and building ----------

  // A cell that spans the cells of its list, when there are any.
  function Captured(token: Token, cb: int, ce: int, cells: seq<Cell>, subs: Chain): Cell
  {
    if cells == [] then Cell(token, cb, ce, subs) else Cell(token, cells[0].cb, cells[|cells| - 1].ce, subs)
  }

  // A new list takes the elements of any list over, whoever owns that.
  lemma MoveOwned(h: Memory, r: map<Chain, nat>, list: Chain, mine: Chain) returns (r': map<Chain, nat>)
    requires Owned(h, r) && list in h && mine !in h
    ensures
      var h' := MoveHeap(h, list, mine);
      Owned(h', r') && Free(h', mine) && forall c | Free(h, c) :: Free(h', c)
    ensures r' == r[mine := r[list]]
  {
    var h1 := h[mine := Record(h[list].format, [])];
    NewLinear(h, mine, h[list].format);
    SwapLinear(h1, list, mine);
    NotYetFree(h, r, mine);
    hide Linear, Free;
    r' := r[mine := r[list]];
    var h' := MoveHeap(h, list, mine);
    forall c, i | c in h' && 0 <= i < |h'[c].cells|
      ensures Below(h', r', h'[c].cells[i], r'[c])
    {
      assert Below(h, r, h[if c == mine then list else c].cells[i], r'[c]);
    }
  }

  lemma NotYetFree(h: Memory, r: map<Chain, nat>, mine: Chain)
    requires Ranked(h, r) && mine !in h
    ensures Free(h, mine)
  {
    forall c, i | c in h && 0 <= i < |h[c].cells|
      ensures h[c].cells[i].subs != mine
    {
      assert Below(h, r, h[c].cells[i], r[c]);
    }
  }

  // A cell whose list nothing points to is put into a list that nothing points to.
  lemma InsertOwned(h: Memory, r: map<Chain, nat>, dst: Chain, at: nat, x: Cell) returns (r': map<Chain, nat>)
    requires Owned(h, r) && dst in h && Free(h, dst) && at <= |h[dst].cells|
    requires x.subs != null ==> x.subs in h && x.subs != dst && Free(h, x.subs)
    ensures
      var h' := InsertHeap(h, dst, at, x);
      Owned(h', r') && forall c | Free(h, c) && c != x.subs :: Free(h', c)
    ensures forall c | c in h && c != dst :: r'[c] == r[c]
  {
    InsertLinear(h, dst, at, x);
    var cells := Inserted(h[dst].cells, at, [x]);
    var rank := r[dst] + if x.subs == null then 0 else r[x.subs] + 1;
    assert |cells| == |h[dst].cells| + 1;
    forall i | 0 <= i < |cells|
      ensures Below(h, r, cells[i], rank) && cells[i].subs != dst
    {
      InsertedAt(h[dst].cells, at, [x], i);
      assert forall k | 0 <= k < |h[dst].cells| :: Below(h, r, h[dst].cells[k], r[dst]);
    }
    hide Linear, Inserted;
    r' := RaiseRank(h, r, dst, cells, rank);
  }

  ghost function CopiedCell(h: Memory, x: Cell, mine: Chain): Cell
    requires x.subs != null ==> x.subs in h
  {
    if x.subs == null then x else Captured(x.token, x.cb, x.ce, h[x.subs].cells, mine)
  }

  ghost function CopyHeap(h: Memory, x: Cell, mine: Chain): Memory
    requires x.subs != null ==> x.subs in h
  {
    if x.subs == null then h else MoveHeap(h, x.subs, mine)
  }

  // Copying an element of any list, at whatever depth that list is owned.
  lemma CopyOwned(h: Memory, r: map<Chain, nat>, src: Chain, i: nat, mine: Chain) returns (r': map<Chain, nat>)
    requires Owned(h, r) && src in h && i < |h[src].cells| && mine !in h
    ensures
      var x := h[src].cells[i];
      && Below(h, r, x, r[src])
      && var h', y := CopyHeap(h, x, mine), CopiedCell(h, x, mine);
      && Owned(h', r') && (y.subs != null ==> y.subs == mine && mine in h' && Free(h', mine))
      && (forall c | Free(h, c) :: Free(h', c)) && h'[src] == h[src]
    ensures forall c | c in h :: r'[c] == r[c]
  {
    var x := h[src].cells[i];
    assert Below(h, r, x, r[src]);
    hide Linear, Free;
    if x.subs == null {
      r' := r;
    } else {
      r' := MoveOwned(h, r, x.subs, mine);
    }
  }

  // ---------- moving cells ----------

  // Cells of any list are moved into a list that nothing points to.
  lemma SpliceOwned(h: Memory, r: map<Chain, nat>, dst: Chain, at: nat, src: Chain, lo: nat, hi: nat)
    returns (r': map<Chain, nat>)
    requires Owned(h, r) && dst in h && src in h && dst != src && Free(h, dst)
    requires at <= |h[dst].cells| && lo <= hi <= |h[src].cells|
    ensures
      var h' := SpliceHeap(h, dst, at, src, lo, hi);
      Owned(h', r') && forall c | Free(h, c) :: Free(h', c)
    ensures forall c | c in h && c != dst :: r'[c] == r[c]
  {
    SpliceLinear(h, dst, at, src, lo, hi);
    var a, b, rank := h[dst].cells, h[src].cells, r[dst] + r[src];
    var cells := Inserted(a, at, b[lo..hi]);
    forall i | 0 <= i < |cells|
      ensures Below(h, r, cells[i], rank) && cells[i].subs != dst
    {
      assert |cells| == |a| + |b[lo..hi]|;
      InsertedAt(a, at, b[lo..hi], i);
      assert forall k | 0 <= k < |a| :: Below(h, r, a[k], r[dst]);
      assert forall k | 0 <= k < |b| :: Below(h, r, b[k], r[src]);
    }
    hide Linear, Inserted;
    r' := RaiseRank(h, r, dst, cells, rank);
    LowerRank(With(h, dst, cells), r', src, Removed(b, lo, hi));
  }

  lemma DropOwned(h: Memory, r: map<Chain, nat>, c: Chain, lo: nat, hi: nat)
    requires Owned(h, r) && c in h && lo <= hi <= |h[c].cells|
    ensures Owned(DropHeap(h, c, lo, hi), r) && forall d | Free(h, d) :: Free(DropHeap(h, c, lo, hi), d)
  {
    DropLinear(h, c, lo, hi);
    hide Linear, Free;
    LowerRank(h, r, c, Removed(h[c].cells, lo, hi));
  }

  // Two lists that nothing points to exchange their elements.
  lemma SwapOwned(h: Memory, r: map<Chain, nat>, a: Chain, b: Chain) returns (r': map<Chain, nat>)
    requires Owned(h, r) && a in h && b in h && a != b && Free(h, a) && Free(h, b)
    ensures Owned(SwapHeap(h, a, b), r') && forall c | Free(h, c) :: Free(SwapHeap(h, a, b), c)
    ensures forall c | c in h && c != a && c != b :: r'[c] == r[c]
  {
    SwapLinear(h, a, b);
    r' := r[a := r[b]][b := r[a]];
    var h' := SwapHeap(h, a, b);
    forall c, i | c in h' && 0 <= i < |h'[c].cells|
      ensures Below(h', r', h'[c].cells[i], r'[c])
    {
      assert Below(h, r, h[if c == a then b else if c == b then a else c].cells[i], r'[c]);
    }
  }

  // ---------- assigning sub-elements ----------

  // An element of owner is given the elements of list: it exchanges its own for them, or gets a new list.
  ghost function AssignHeap(h: Memory, owner: Chain, i: nat, list: Chain, mine: Chain): Memory
    requires owner in h && i < |h[owner].cells| && list in h && owner != list
    requires var t := h[owner].cells[i].subs; t == null || (t in h && t != owner)
    requires mine !in h
  {
    var x, cells := h[owner].cells[i], h[list].cells;
    if x.subs == null then
      var h1 := MoveHeap(h, list, mine);
      With(h1, owner, h1[owner].cells[i := Captured(x.token, x.cb, x.ce, cells, mine)])
    else
      var h1 := SwapHeap(h, x.subs, list);
      With(h1, owner, h1[owner].cells[i := Captured(x.token, x.cb, x.ce, cells, x.subs)])
  }

  // The cell is the same but for its capture, so nothing changes hands.
  lemma CaptureLinear(h: Memory, c: Chain, i: nat, x: Cell)
    requires Linear(h) && c in h && i < |h[c].cells| && x.subs == h[c].cells[i].subs
    ensures
      var h' := With(h, c, h[c].cells[i := x]);
      Linear(h') && forall d | Free(h, d) :: Free(h', d)
  {}

  lemma FillLinear(h: Memory, c: Chain, i: nat, x: Cell)
    requires Linear(h) && c in h && i < |h[c].cells| && x.subs != null && Free(h, x.subs)
    ensures
      var h' := With(h, c, h[c].cells[i := x]);
      Linear(h') && forall d | Free(h, d) && d != x.subs :: Free(h', d)
  {}

  // All lists that contain a given one, raised so that it may hold more.
  ghost function Raised(h: Memory, r: map<Chain, nat>, t: Chain, lift: nat): map<Chain, nat>
    requires Ranked(h, r)
  {
    map c | c in h :: if Reaches(h, r, c, t) then r[c] + lift else r[c]
  }

  lemma RaisedBelow(h: Memory, r: map<Chain, nat>, t: Chain, lift: nat, c: Chain, i: nat)
    requires Ranked(h, r) && c in h && i < |h[c].cells|
    ensures Below(h, Raised(h, r, t, lift), h[c].cells[i], Raised(h, r, t, lift)[c])
  {
    assert Below(h, r, h[c].cells[i], r[c]);
    if h[c].cells[i].subs != null {
      ReachCell(h, r, c, i, t);
    }
  }

  // Assigning keeps every list owned once, when the list that is assigned is free and does not hold the owner.
  lemma AssignOwned(h: Memory, r: map<Chain, nat>, owner: Chain, i: nat, list: Chain, mine: Chain)
    returns (r': map<Chain, nat>)
    requires Owned(h, r) && owner in h && i < |h[owner].cells| && list in h && mine !in h
    requires Free(h, list) && !Reaches(h, r, list, owner)
    ensures owner != list && var t := h[owner].cells[i].subs; t == null || (t in h && t != owner && t != list)
    ensures
      var h' := AssignHeap(h, owner, i, list, mine);
      Owned(h', r') && forall c | c in h && Free(h, c) :: Free(h', c)
  {
    var x := h[owner].cells[i];
    assert Below(h, r, x, r[owner]);
    hide Linear, Free, AssignHeap;
    if x.subs == null {
      NewLinks(h, r, owner, i, list, mine);
      r' := NewRanks(h, r, owner, i, list, mine);
    } else {
      NotPointed(h, owner, i, list);
      OldLinks(h, owner, i, list, mine);
      r' := OldRanks(h, r, owner, i, list, mine);
    }
  }

  lemma NotPointed(h: Memory, c: Chain, i: nat, d: Chain)
    requires c in h && i < |h[c].cells| && Free(h, d)
    ensures h[c].cells[i].subs != d
  {}

  lemma NewLinks(h: Memory, r: map<Chain, nat>, owner: Chain, i: nat, list: Chain, mine: Chain)
    requires Owned(h, r) && owner in h && i < |h[owner].cells| && list in h && mine !in h
    requires owner != list && h[owner].cells[i].subs == null
    ensures
      var h' := AssignHeap(h, owner, i, list, mine);
      Linear(h') && forall c | c in h && Free(h, c) :: Free(h', c)
  {
    var h1, h' := MoveHeap(h, list, mine), AssignHeap(h, owner, i, list, mine);
    var r1 := MoveOwned(h, r, list, mine);
    hide MoveHeap, Ranked, Linear, Free;
    FillLinear(h1, owner, i, h'[owner].cells[i]);
  }

  lemma OldLinks(h: Memory, owner: Chain, i: nat, list: Chain, mine: Chain)
    requires Linear(h) && owner in h && i < |h[owner].cells| && list in h && mine !in h
    requires var t := h[owner].cells[i].subs; owner != list && t != null && t in h && t != owner && t != list
    ensures
      var h' := AssignHeap(h, owner, i, list, mine);
      Linear(h') && forall c | c in h && Free(h, c) :: Free(h', c)
  {
    hide Linear, Free;
    var t: Chain := h[owner].cells[i].subs;
    var h1, h' := SwapHeap(h, t, list), AssignHeap(h, owner, i, list, mine);
    SwapLinear(h, t, list);
    CaptureLinear(h1, owner, i, h'[owner].cells[i]);
  }

  lemma NewRanks(h: Memory, r: map<Chain, nat>, owner: Chain, i: nat, list: Chain, mine: Chain)
    returns (r': map<Chain, nat>)
    requires Ranked(h, r) && owner in h && i < |h[owner].cells| && list in h && mine !in h
    requires owner != list && !Reaches(h, r, list, owner) && h[owner].cells[i].subs == null
    ensures Ranked(AssignHeap(h, owner, i, list, mine), r')
  {
    var h', lift := AssignHeap(h, owner, i, list, mine), r[list] + 1;
    var high := Raised(h, r, owner, lift);
    r' := high[mine := r[list]];
    assert high[owner] == r[owner] + lift;
    forall c, k | c in h' && 0 <= k < |h'[c].cells|
      ensures Below(h', r', h'[c].cells[k], r'[c])
    {
      if c == mine {
        LowBelow(h, r, owner, lift, list, k);
      } else if c != owner || k != i {
        RaisedBelow(h, r, owner, lift, c, k);
      }
    }
  }

  lemma OldRanks(h: Memory, r: map<Chain, nat>, owner: Chain, i: nat, list: Chain, mine: Chain)
    returns (r': map<Chain, nat>)
    requires Owned(h, r) && owner in h && i < |h[owner].cells| && list in h && mine !in h && Free(h, list)
    requires var t := h[owner].cells[i].subs; owner != list && t != null && t in h && t != owner && t != list
    requires !Reaches(h, r, list, owner)
    ensures Ranked(AssignHeap(h, owner, i, list, mine), r')
  {
    var t: Chain := h[owner].cells[i].subs;
    var h', lift := AssignHeap(h, owner, i, list, mine), r[list] + 1;
    OnlyOwner(h, r, owner, i, list);
    var high := Raised(h, r, t, lift);
    r' := high[list := r[t]];
    assert high[t] == r[t] + lift;
    hide Linear;
    forall c, k | c in h' && 0 <= k < |h'[c].cells|
      ensures Below(h', r', h'[c].cells[k], r'[c])
    {
      var d := if c == t then list else if c == list then t else c;
      NotPointed(h, d, k, list);
      if c == t {
        LowBelow(h, r, t, lift, list, k);
      } else if c == list {
        SelfBelow(h, r, t, lift, k);
      } else {
        RaisedBelow(h, r, t, lift, c, k);
      }
    }
  }

  // The list that is assigned does not hold the list it is exchanged with.
  lemma OnlyOwner(h: Memory, r: map<Chain, nat>, owner: Chain, i: nat, list: Chain)
    requires Owned(h, r) && owner in h && i < |h[owner].cells| && list in h && h[owner].cells[i].subs != null
    requires !Reaches(h, r, list, owner) && h[owner].cells[i].subs != list
    ensures !Reaches(h, r, list, h[owner].cells[i].subs)
  {
    var t: Chain := h[owner].cells[i].subs;
    if Reaches(h, r, list, t) {
      var e, k := ReachLast(h, r, list, t);
    }
  }

  // What is in a list that does not contain t is not raised.
  lemma LowBelow(h: Memory, r: map<Chain, nat>, t: Chain, lift: nat, list: Chain, k: nat)
    requires Ranked(h, r) && list in h && k < |h[list].cells| && !Reaches(h, r, list, t)
    ensures Below(h, Raised(h, r, t, lift), h[list].cells[k], r[list])
  {
    assert Below(h, r, h[list].cells[k], r[list]);
    if h[list].cells[k].subs != null {
      ReachCell(h, r, list, k, t);
    }
  }

  lemma SelfBelow(h: Memory, r: map<Chain, nat>, t: Chain, lift: nat, k: nat)
    requires Ranked(h, r) && t in h && k < |h[t].cells|
    ensures Below(h, Raised(h, r, t, lift), h[t].cells[k], r[t])
  {
    var x := h[t].cells[k];
    assert Below(h, r, x, r[t]);
    if x.subs != null && Reaches(h, r, x.subs, t) {
      ReachRank(h, r, x.subs, t);
    }
  }

  // ---------- the values afterwards ----------

  // The lists not named are the same in both heaps.
  ghost predicate Changes(h: Memory, h': Memory, changed: set<Chain>)
  {
    forall d | d in h && d !in changed :: d in h' && h'[d] == h[d]
  }

  // No changed list can be reached from the cell.
  ghost predicate Apart(h: Memory, r: map<Chain, nat>, x: Cell, changed: set<Chain>)
    requires Ranked(h, r)
  {
    x.subs != null ==> x.subs in h && forall t | t in changed :: !Reaches(h, r, x.subs, t)
  }

  lemma ApartElement(
      h: Memory, r: map<Chain, nat>, h': Memory, r': map<Chain, nat>, changed: set<Chain>, x: Cell, m: nat, n: nat)
    requires Ranked(h, r) && Ranked(h', r') && Changes(h, h', changed) && Apart(h, r, x, changed)
    requires Below(h, r, x, m) && Below(h', r', x, n)
    ensures ElementOf(h, r, x, m) == ElementOf(h', r', x, n)
  {
    if x.subs != null {
      Untouched(h, r, h', r', changed, x.subs);
      assert Reaches(h, r, x.subs, x.subs);
    }
  }

  lemma AllBelow(h: Memory, r: map<Chain, nat>, c: Chain)
    requires Ranked(h, r) && c in h
    ensures forall k | 0 <= k < |h[c].cells| :: Below(h, r, h[c].cells[k], r[c])
  {}

  // A list in the new heap with the cells of one in the old heap stands for what that stood for.
  lemma ApartView(
      h: Memory, r: map<Chain, nat>, h': Memory, r': map<Chain, nat>, changed: set<Chain>, c: Chain, c': Chain)
    requires Ranked(h, r) && Ranked(h', r') && Changes(h, h', changed) && c in h && c' in h'
    requires h'[c'].cells == h[c].cells && forall k | 0 <= k < |h[c].cells| :: Apart(h, r, h[c].cells[k], changed)
    ensures View(h', r', c') == View(h, r, c)
  {
    AllBelow(h, r, c);
    AllBelow(h', r', c');
    forall k | 0 <= k < |h[c].cells|
      ensures View(h', r', c')[k] == View(h, r, c)[k]
    {
      ApartElement(h, r, h', r', changed, h[c].cells[k], r[c], r'[c']);
    }
  }

  // What lies in a list does not contain the list, nor a list that nothing points to.
  lemma CellsApart(h: Memory, r: map<Chain, nat>, c: Chain, free: set<Chain>)
    requires Ranked(h, r) && c in h && forall t | t in free :: Free(h, t)
    ensures forall k | 0 <= k < |h[c].cells| :: Apart(h, r, h[c].cells[k], {c} + free)
  {
    AllBelow(h, r, c);
    forall k, t | 0 <= k < |h[c].cells| && h[c].cells[k].subs != null && t in {c} + free
      ensures !Reaches(h, r, h[c].cells[k].subs, t)
    {
      var d: Chain := h[c].cells[k].subs;
      assert Below(h, r, h[c].cells[k], r[c]);
      if Reaches(h, r, d, t) {
        ReachRank(h, r, d, t);
        if t in free && d != t {
          var e, i := ReachLast(h, r, d, t);
        }
      }
    }
  }

  // A cell apart from the list that owns t is apart from t, unless it is the one that points to t.
  lemma OwnerApart(h: Memory, r: map<Chain, nat>, owner: Chain, i: nat, c: Chain, k: nat)
    requires Owned(h, r) && owner in h && i < |h[owner].cells| && h[owner].cells[i].subs != null
    requires c in h && k < |h[c].cells| && (c != owner || k != i) && Apart(h, r, h[c].cells[k], {owner})
    ensures Apart(h, r, h[c].cells[k], {h[owner].cells[i].subs})
  {
    var x, t: Chain := h[c].cells[k], h[owner].cells[i].subs;
    if x.subs != null && Reaches(h, r, x.subs, t) {
      if x.subs != t {
        var e, j := ReachLast(h, r, x.subs, t);
      }
    }
  }

  lemma ListApart(h: Memory, r: map<Chain, nat>, c: Chain, t: Chain)
    requires Ranked(h, r) && c in h && !Reaches(h, r, c, t)
    ensures forall k | 0 <= k < |h[c].cells| :: Apart(h, r, h[c].cells[k], {t})
  {
    forall k | 0 <= k < |h[c].cells|
      ensures Apart(h, r, h[c].cells[k], {t})
    {
      assert Below(h, r, h[c].cells[k], r[c]);
      if h[c].cells[k].subs != null {
        ReachCell(h, r, c, k, t);
      }
    }
  }

  // What the copy and the original stand for.
  lemma CopyView(h: Memory, r: map<Chain, nat>, r': map<Chain, nat>, src: Chain, i: nat, mine: Chain)
    requires Owned(h, r) && src in h && i < |h[src].cells| && mine !in h
    requires
      var x := h[src].cells[i];
      Below(h, r, x, r[src]) && Ranked(CopyHeap(h, x, mine), r')
    ensures
      var x := h[src].cells[i];
      var h', y := CopyHeap(h, x, mine), CopiedCell(h, x, mine);
      && src in h'
      && (y.subs != null ==> y.subs in h' && y.subs in r')
      && View(h', r', src) == View(h, r, src)[i := Gutted(View(h, r, src)[i])]
      && forall n | Below(h', r', y, n) :: ElementOf(h', r', y, n) == Copy(View(h, r, src)[i])
  {
    var x := h[src].cells[i];
    var h', y := CopyHeap(h, x, mine), CopiedCell(h, x, mine);
    var v := View(h, r, src);
    assert Below(h, r, x, r[src]);
    if x.subs == null {
      SameView(h, r, r', src);
      assert Gutted(v[i]) == v[i];
    } else {
      var t: Chain := x.subs;
      CellsApart(h, r, t, {});
      CellsApart(h, r, src, {});
      assert {t} + {} == {t} && {src} + {} == {src};
      ApartView(h, r, h', r', {t}, t, mine);
      AllBelow(h, r, src);
      AllBelow(h', r', src);
      forall k | 0 <= k < |h[src].cells| && k != i
        ensures View(h', r', src)[k] == v[k]
      {
        OwnerApart(h, r, src, i, src, k);
        ApartElement(h, r, h', r', {t}, h[src].cells[k], r[src], r'[src]);
      }
      assert View(h', r', t) == [];
      Spans(h, r, t);
      assert View(h', r', src)[i] == Gutted(v[i]);
    }
  }

  // The values have the captures of the cells.
  lemma Spans(h: Memory, r: map<Chain, nat>, c: Chain)
    requires Ranked(h, r) && c in h
    ensures forall k | 0 <= k < |h[c].cells| ::
      View(h, r, c)[k].cb == h[c].cells[k].cb && View(h, r, c)[k].ce == h[c].cells[k].ce
  {
    AllBelow(h, r, c);
  }

  lemma FreeReached(h: Memory, r: map<Chain, nat>, c: Chain, d: Chain)
    requires Ranked(h, r) && c in h && Free(h, d) && c != d
    ensures !Reaches(h, r, c, d)
  {
    if Reaches(h, r, c, d) {
      var e, i := ReachLast(h, r, c, d);
    }
  }

  lemma InsertView(h: Memory, r: map<Chain, nat>, r': map<Chain, nat>, dst: Chain, at: nat, x: Cell, n: nat)
    requires Ranked(h, r) && dst in h && Free(h, dst) && at <= |h[dst].cells| && Below(h, r, x, n) && x.subs != dst
    requires Ranked(InsertHeap(h, dst, at, x), r')
    ensures
      var h' := InsertHeap(h, dst, at, x);
      && View(h', r', dst) == Inserted(View(h, r, dst), at, [ElementOf(h, r, x, n)])
      && forall c | c in h && c != dst :: View(h', r', c) == View(h, r, c)
  {
    hide View, Linear, Reaches, ReachesFrom, Inserted;
    forall c | c in h && c != dst
      ensures View(InsertHeap(h, dst, at, x), r', c) == View(h, r, c)
    {
      InsertOther(h, r, r', dst, at, x, c);
    }
    InsertInto(h, r, r', dst, at, x, n);
  }

  lemma InsertOther(h: Memory, r: map<Chain, nat>, r': map<Chain, nat>, dst: Chain, at: nat, x: Cell, c: Chain)
    requires Ranked(h, r) && dst in h && Free(h, dst) && at <= |h[dst].cells| && c in h && c != dst
    requires Ranked(InsertHeap(h, dst, at, x), r')
    ensures View(InsertHeap(h, dst, at, x), r', c) == View(h, r, c)
  {
    hide View;
    FreeReached(h, r, c, dst);
    Untouched(h, r, InsertHeap(h, dst, at, x), r', {dst}, c);
  }

  lemma InsertInto(h: Memory, r: map<Chain, nat>, r': map<Chain, nat>, dst: Chain, at: nat, x: Cell, n: nat)
    requires Ranked(h, r) && dst in h && Free(h, dst) && at <= |h[dst].cells| && Below(h, r, x, n) && x.subs != dst
    requires Ranked(InsertHeap(h, dst, at, x), r')
    ensures View(InsertHeap(h, dst, at, x), r', dst) == Inserted(View(h, r, dst), at, [ElementOf(h, r, x, n)])
  {
    var h', a := InsertHeap(h, dst, at, x), h[dst].cells;
    CellsApart(h, r, dst, {});
    assert {dst} + {} == {dst};
    AllBelow(h, r, dst);
    AllBelow(h', r', dst);
    if x.subs != null {
      FreeReached(h, r, x.subs, dst);
    }
    forall k | 0 <= k < |a| + 1
      ensures View(h', r', dst)[k] == Inserted(View(h, r, dst), at, [ElementOf(h, r, x, n)])[k]
    {
      InsertedAt(a, at, [x], k);
      InsertedAt(View(h, r, dst), at, [ElementOf(h, r, x, n)], k);
      var y, m := h'[dst].cells[k], if k == at then n else r[dst];
      ApartElement(h, r, h', r', {dst}, y, m, r'[dst]);
    }
    assert |h'[dst].cells| == |a| + 1;
  }

  // ---------- the operations of the parser, on memory ----------

  // A copy of an element is put into a list.
  ghost function PutHeap(h: Memory, dst: Chain, at: nat, src: Chain, i: nat, mine: Chain): Memory
    requires dst in h && src in h && at <= |h[dst].cells| && i < |h[src].cells|
    requires h[src].cells[i].subs != null ==> h[src].cells[i].subs in h && h[src].cells[i].subs != dst
    requires mine !in h
  {
    var x := h[src].cells[i];
    InsertHeap(CopyHeap(h, x, mine), dst, at, CopiedCell(h, x, mine))
  }

  lemma PutOwned(h: Memory, r: map<Chain, nat>, dst: Chain, at: nat, src: Chain, i: nat, mine: Chain)
    returns (r': map<Chain, nat>)
    requires Owned(h, r) && dst in h && src in h && Free(h, dst) && mine !in h
    requires at <= |h[dst].cells| && i < |h[src].cells|
    ensures h[src].cells[i].subs != null ==> h[src].cells[i].subs in h && h[src].cells[i].subs != dst
    ensures
      var h' := PutHeap(h, dst, at, src, i, mine);
      Owned(h', r') && forall c | c in h && Free(h, c) :: Free(h', c)
  {
    NotPointed(h, src, i, dst);
    var x := h[src].cells[i];
    var r1 := CopyOwned(h, r, src, i, mine);
    r' := InsertOwned(CopyHeap(h, x, mine), r1, dst, at, CopiedCell(h, x, mine));
  }

  // In memory the push is the push of the copied value, and the original loses its sub-elements.
  lemma PutView(
      h: Memory, r: map<Chain, nat>, r': map<Chain, nat>, dst: Chain, at: nat, src: Chain, i: nat, mine: Chain)
    requires Owned(h, r) && dst in h && src in h && Free(h, dst) && mine !in h
    requires at <= |h[dst].cells| && i < |h[src].cells| && !Reaches(h, r, dst, src)
    requires h[src].cells[i].subs != null ==> h[src].cells[i].subs in h && h[src].cells[i].subs != dst
    requires Ranked(PutHeap(h, dst, at, src, i, mine), r')
    ensures
      var h', e := PutHeap(h, dst, at, src, i, mine), View(h, r, src)[i];
      && View(h', r', dst) == Inserted(View(h, r, dst), at, [Copy(e)])
      && View(h', r', src) == View(h, r, src)[i := Gutted(e)]
  {
    var x := h[src].cells[i];
    var h1, y := CopyHeap(h, x, mine), CopiedCell(h, x, mine);
    var r1 := CopyOwned(h, r, src, i, mine);
    CopyView(h, r, r1, src, i, mine);
    var n := if y.subs == null then 0 else r1[y.subs] + 1;
    InsertView(h1, r1, r', dst, at, y, n);
    assert Reaches(h, r, dst, dst);
    if x.subs == null {
      SameView(h, r, r1, dst);
    } else {
      OnlyOwner(h, r, src, i, dst);
      Untouched(h, r, h1, r1, {x.subs}, dst);
    }
  }

  // The element built around a list is put at the back of another; a temporary is a list of its own.
  ghost function BuildHeap(h: Memory, dst: Chain, list: Chain, token: Token, mine: Chain): Memory
    requires dst in h && list in h && dst != list && mine !in h
  {
    InsertHeap(
      MoveHeap(h, list, mine), dst, |h[dst].cells|, Captured(token, 0, 0, h[list].cells, mine))
  }

  lemma BuildOwned(h: Memory, r: map<Chain, nat>, dst: Chain, list: Chain, token: Token, mine: Chain)
    returns (r': map<Chain, nat>)
    requires Owned(h, r) && dst in h && list in h && dst != list && Free(h, dst) && mine !in h
    ensures
      var h' := BuildHeap(h, dst, list, token, mine);
      Owned(h', r') && forall c | c in h && Free(h, c) :: Free(h', c)
  {
    var r1 := MoveOwned(h, r, list, mine);
    r' := InsertOwned(MoveHeap(h, list, mine), r1, dst, |h[dst].cells|, Captured(token, 0, 0, h[list].cells, mine));
  }

  // The element holds the values of the list, in the format of the list, and spans them.
  lemma BuildView(
      h: Memory, r: map<Chain, nat>, r': map<Chain, nat>, dst: Chain, list: Chain, token: Token, mine: Chain)
    requires Owned(h, r) && dst in h && list in h && dst != list && Free(h, dst) && mine !in h
    requires h[list].cells != [] && !Reaches(h, r, dst, list) && Ranked(BuildHeap(h, dst, list, token, mine), r')
    ensures
      var h', v := BuildHeap(h, dst, list, token, mine), View(h, r, list);
      && View(h', r', dst) ==
         View(h, r, dst) + [Make(token, v).(subs := List(h[list].format, v))]
      && View(h', r', list) == []
  {
    var h1, y := MoveHeap(h, list, mine), Captured(token, 0, 0, h[list].cells, mine);
    var r1 := MoveOwned(h, r, list, mine);
    hide Linear;
    CellsApart(h, r, list, {});
    assert {list} + {} == {list};
    ApartView(h, r, h1, r1, {list}, list, mine);
    Untouched(h, r, h1, r1, {list}, dst);
    Spans(h, r, list);
    InsertView(h1, r1, r', dst, |h[dst].cells|, y, r1[mine] + 1);
    assert |View(h, r, dst)| == |h[dst].cells|;
    AtEnd(View(h, r, dst), ElementOf(h1, r1, y, r1[mine] + 1));
  }

  lemma AtEnd<T>(a: seq<T>, x: T)
    ensures Inserted(a, |a|, [x]) == a + [x]
  {}

  lemma SpliceView(
      h: Memory, r: map<Chain, nat>, r': map<Chain, nat>, dst: Chain, at: nat, src: Chain, lo: nat, hi: nat)
    requires Owned(h, r) && dst in h && src in h && dst != src && Free(h, dst) && !Reaches(h, r, dst, src)
    requires at <= |h[dst].cells| && lo <= hi <= |h[src].cells| && Ranked(SpliceHeap(h, dst, at, src, lo, hi), r')
    ensures
      var h' := SpliceHeap(h, dst, at, src, lo, hi);
      && View(h', r', dst) == Inserted(View(h, r, dst), at, View(h, r, src)[lo..hi])
      && View(h', r', src) == Removed(View(h, r, src), lo, hi)
  {
    var h' := SpliceHeap(h, dst, at, src, lo, hi);
    hide Linear, Free;
    AllBelow(h, r, dst);
    AllBelow(h, r, src);
    AllBelow(h', r', dst);
    AllBelow(h', r', src);
    BothApart(h, r, dst, src);
    forall k | 0 <= k < |h'[dst].cells|
      ensures View(h', r', dst)[k] == Inserted(View(h, r, dst), at, View(h, r, src)[lo..hi])[k]
    {
      assert |h'[dst].cells| == |h[dst].cells| + (hi - lo);
      InsertedAt(h[dst].cells, at, h[src].cells[lo..hi], k);
      InsertedAt(View(h, r, dst), at, View(h, r, src)[lo..hi], k);
      var m := if at <= k < at + (hi - lo) then r[src] else r[dst];
      ApartElement(h, r, h', r', {dst, src}, h'[dst].cells[k], m, r'[dst]);
    }
    forall k | 0 <= k < |h'[src].cells|
      ensures View(h', r', src)[k] == Removed(View(h, r, src), lo, hi)[k]
    {
      ApartElement(h, r, h', r', {dst, src}, h'[src].cells[k], r[src], r'[src]);
    }
    assert |h'[dst].cells| == |h[dst].cells| + (hi - lo);
  }

  // Neither list can be reached from what lies in them.
  lemma BothApart(h: Memory, r: map<Chain, nat>, dst: Chain, src: Chain)
    requires Ranked(h, r) && dst in h && src in h && Free(h, dst) && !Reaches(h, r, dst, src)
    ensures forall k | 0 <= k < |h[dst].cells| :: Apart(h, r, h[dst].cells[k], {dst, src})
    ensures forall k | 0 <= k < |h[src].cells| :: Apart(h, r, h[src].cells[k], {dst, src})
  {
    CellsApart(h, r, src, {dst});
    assert {src} + {dst} == {dst, src};
    CellsApart(h, r, dst, {});
    assert {dst} + {} == {dst};
    ListApart(h, r, dst, src);
  }

  lemma DropView(h: Memory, r: map<Chain, nat>, r': map<Chain, nat>, c: Chain, lo: nat, hi: nat)
    requires Ranked(h, r) && c in h && lo <= hi <= |h[c].cells| && Ranked(DropHeap(h, c, lo, hi), r')
    ensures View(DropHeap(h, c, lo, hi), r', c) == Removed(View(h, r, c), lo, hi)
  {
    var h' := DropHeap(h, c, lo, hi);
    CellsApart(h, r, c, {});
    assert {c} + {} == {c};
    AllBelow(h, r, c);
    AllBelow(h', r', c);
    forall k | 0 <= k < |h'[c].cells|
      ensures View(h', r', c)[k] == Removed(View(h, r, c), lo, hi)[k]
    {
      ApartElement(h, r, h', r', {c}, h'[c].cells[k], r[c], r'[c]);
    }
  }

  lemma SwapView(h: Memory, r: map<Chain, nat>, r': map<Chain, nat>, a: Chain, b: Chain)
    requires Ranked(h, r) && a in h && b in h && a != b && Free(h, a) && Free(h, b)
    requires Ranked(SwapHeap(h, a, b), r')
    ensures View(SwapHeap(h, a, b), r', a) == View(h, r, b) && View(SwapHeap(h, a, b), r', b) == View(h, r, a)
  {
    CellsApart(h, r, a, {b});
    CellsApart(h, r, b, {a});
    assert {a} + {b} == {b} + {a} == {a, b};
    ApartView(h, r, SwapHeap(h, a, b), r', {a, b}, a, b);
    ApartView(h, r, SwapHeap(h, a, b), r', {a, b}, b, a);
  }

  // The element that is assigned to holds the values of the list, within their capture, and the list holds
  // what the element had.
  lemma AssignView(
      h: Memory, r: map<Chain, nat>, r': map<Chain, nat>, owner: Chain, i: nat, list: Chain, mine: Chain)
    requires Owned(h, r) && owner in h && i < |h[owner].cells| && list in h && mine !in h
    requires Free(h, list) && owner != list && !Reaches(h, r, list, owner)
    requires var t := h[owner].cells[i].subs; t == null || (t in h && t != owner && t != list)
    requires Ranked(AssignHeap(h, owner, i, list, mine), r')
    ensures
      var h', v, e := AssignHeap(h, owner, i, list, mine), View(h, r, list), View(h, r, owner)[i];
      var format := if e.subs.Null? then h[list].format else e.subs.format;
      && View(h', r', owner) == View(h, r, owner)[i := UpdateCapture(e.(subs := List(format, v)))]
      && View(h', r', list) == if e.subs.Null? then [] else e.subs.elems
  {
    hide Linear, AssignHeap, Free, Reaches, ReachesFrom, Apart, PointsTo;
    var x := h[owner].cells[i];
    var h' := AssignHeap(h, owner, i, list, mine);
    AssignedCells(h, owner, i, list, mine);
    AllBelow(h, r, owner);
    AllBelow(h', r', owner);
    AssignLists(h, r, r', owner, i, list, mine);
    forall k | 0 <= k < |h[owner].cells| && k != i
      ensures View(h', r', owner)[k] == View(h, r, owner)[k]
    {
      AssignOther(h, r, r', owner, i, list, mine, k);
    }
    Spans(h, r, list);
  }

  // The lists that change hands.
  lemma AssignLists(
      h: Memory, r: map<Chain, nat>, r': map<Chain, nat>, owner: Chain, i: nat, list: Chain, mine: Chain)
    requires Owned(h, r) && owner in h && i < |h[owner].cells| && list in h && mine !in h
    requires Free(h, list) && owner != list && !Reaches(h, r, list, owner)
    requires var t := h[owner].cells[i].subs; t == null || (t in h && t != owner && t != list)
    requires Ranked(AssignHeap(h, owner, i, list, mine), r')
    ensures
      var h', x := AssignHeap(h, owner, i, list, mine), h[owner].cells[i];
      && View(h', r', if x.subs == null then mine else x.subs) == View(h, r, list)
      && View(h', r', list) == if x.subs == null then [] else View(h, r, x.subs)
  {
    hide View, Linear, Free, AssignHeap, Reaches, ReachesFrom, Apart, PointsTo;
    var x, h' := h[owner].cells[i], AssignHeap(h, owner, i, list, mine);
    var t: Chain := if x.subs == null then mine else x.subs;
    var changed := {owner, list, t};
    AssignedCells(h, owner, i, list, mine);
    ListsApart(h, r, owner, i, list, mine);
    ApartView(h, r, h', r', changed, list, t);
    if x.subs == null {
      NoView(h', r', list);
    } else {
      ApartView(h, r, h', r', changed, t, list);
    }
  }

  lemma NoView(h: Memory, r: map<Chain, nat>, c: Chain)
    requires Ranked(h, r) && c in h && h[c].cells == []
    ensures View(h, r, c) == []
  {}

  // The other elements of the owner.
  lemma AssignOther(
      h: Memory, r: map<Chain, nat>, r': map<Chain, nat>, owner: Chain, i: nat, list: Chain, mine: Chain, k: nat)
    requires Owned(h, r) && owner in h && i < |h[owner].cells| && list in h && mine !in h
    requires Free(h, list) && owner != list && !Reaches(h, r, list, owner) && k < |h[owner].cells| && k != i
    requires var t := h[owner].cells[i].subs; t == null || (t in h && t != owner && t != list)
    requires Ranked(AssignHeap(h, owner, i, list, mine), r')
    ensures
      var h' := AssignHeap(h, owner, i, list, mine);
      && owner in h' && |h'[owner].cells| == |h[owner].cells|
      && View(h', r', owner)[k] == View(h, r, owner)[k]
  {
    hide Linear, Free, AssignHeap, Reaches, ReachesFrom, Apart, PointsTo;
    var x, h' := h[owner].cells[i], AssignHeap(h, owner, i, list, mine);
    AssignedCells(h, owner, i, list, mine);
    ListsApart(h, r, owner, i, list, mine);
    AllBelow(h, r, owner);
    AllBelow(h', r', owner);
    var changed := {owner, list, if x.subs == null then mine else x.subs};
    assert h'[owner].cells[k] == h[owner].cells[k];
    ApartElement(h, r, h', r', changed, h[owner].cells[k], r[owner], r'[owner]);
  }

  lemma AssignedCells(h: Memory, owner: Chain, i: nat, list: Chain, mine: Chain)
    requires owner in h && i < |h[owner].cells| && list in h && owner != list && mine !in h
    requires var t := h[owner].cells[i].subs; t == null || (t in h && t != owner && t != list)
    ensures
      var h', x := AssignHeap(h, owner, i, list, mine), h[owner].cells[i];
      var t := if x.subs == null then mine else x.subs;
      && Changes(h, h', {owner, list, t}) && owner in h' && list in h' && t in h'
      && h'[owner].cells == h[owner].cells[i := Captured(x.token, x.cb, x.ce, h[list].cells, t)]
      && h'[t] == Record(if x.subs == null then h[list].format else h[t].format, h[list].cells)
      && h'[list].cells == if x.subs == null then [] else h[t].cells
  {}

  // What is in the lists that change hands does not contain any of them.
  lemma ListsApart(h: Memory, r: map<Chain, nat>, owner: Chain, i: nat, list: Chain, mine: Chain)
    requires Owned(h, r) && owner in h && i < |h[owner].cells| && list in h && mine !in h
    requires Free(h, list) && owner != list && !Reaches(h, r, list, owner)
    ensures
      var t := h[owner].cells[i].subs;
      var changed := {owner, list, if t == null then mine else t};
      && (forall k | 0 <= k < |h[list].cells| :: Apart(h, r, h[list].cells[k], changed))
      && (forall k | 0 <= k < |h[owner].cells| && k != i :: Apart(h, r, h[owner].cells[k], changed))
      && (t != null ==> t in h && forall k | 0 <= k < |h[t].cells| :: Apart(h, r, h[t].cells[k], changed))
  {
    var t := h[owner].cells[i].subs;
    AllBelow(h, r, owner);
    NotYetFree(h, r, mine);
    CellsApart(h, r, list, {list, mine});
    ListApart(h, r, list, owner);
    CellsApart(h, r, owner, {list, mine});
    if t != null {
      CellsApart(h, r, t, {list});
      TargetApart(h, r, owner, i, t);
      forall k | 0 <= k < |h[list].cells|
        ensures Apart(h, r, h[list].cells[k], {t})
      {
        OwnerApart(h, r, owner, i, list, k);
      }
      forall k | 0 <= k < |h[owner].cells| && k != i
        ensures Apart(h, r, h[owner].cells[k], {t})
      {
        OwnerApart(h, r, owner, i, owner, k);
      }
    }
  }

  lemma TargetApart(h: Memory, r: map<Chain, nat>, owner: Chain, i: nat, t: Chain)
    requires Ranked(h, r) && owner in h && i < |h[owner].cells| && h[owner].cells[i].subs == t
    ensures t in h && forall k | 0 <= k < |h[t].cells| :: Apart(h, r, h[t].cells[k], {owner})
  {
    assert Below(h, r, h[owner].cells[i], r[owner]);
    if Reaches(h, r, t, owner) {
      ReachRank(h, r, t, owner);
    }
    ListApart(h, r, t, owner);
  }

  // ---------- every run ----------

  // What the parser does to lists; mine is the list that a new element gets, and the owner of an element that
  // is assigned to is the last list of a path.
  datatype Op =
    | New(list: Chain, format: Format)
    | SetFormat(list: Chain, format: Format)
    | Plain(dst: Chain, x: Cell)
    | Put(dst: Chain, at: nat, src: Chain, i: nat, mine: Chain)
    | Build(dst: Chain, list: Chain, token: Token, mine: Chain)
    | Move(dst: Chain, at: nat, src: Chain, lo: nat, hi: nat)
    | Drop(list: Chain, lo: nat, hi: nat)
    | Swap(a: Chain, b: Chain)
    | Assign(path: seq<Chain>, i: nat, list: Chain, mine: Chain)

  // The lists in memory, and those among them that are variables of the parser.
  datatype Store = Store(h: Memory, locals: set<Chain>)

  // Elements are put only into lists that are variables, and taken from any list, however deep it is.  Only a
  // variable is assigned to an element, and the element belongs to another variable.
  ghost predicate Allowed(s: Store, op: Op)
  {
    match op
    case New(list, format) => list !in s.h
    case SetFormat(list, format) => list in s.h
    case Plain(dst, x) => dst in s.locals && x.subs == null
    case Put(dst, at, src, i, mine) =>
      && dst in s.locals && dst in s.h && src in s.h && mine !in s.h
      && at <= |s.h[dst].cells| && i < |s.h[src].cells|
    case Build(dst, list, token, mine) =>
      dst in s.locals && list in s.h && list != dst && s.h[list].cells != [] && mine !in s.h
    case Move(dst, at, src, lo, hi) =>
      && dst in s.locals && dst in s.h && src in s.h && dst != src
      && at <= |s.h[dst].cells| && lo <= hi <= |s.h[src].cells|
    case Drop(list, lo, hi) => list in s.h && lo <= hi <= |s.h[list].cells|
    case Swap(a, b) => a in s.locals && b in s.locals && a != b
    case Assign(path, i, list, mine) =>
      && IsPath(s.h, path) && path[0] in s.locals && list in s.locals && list != path[0] && mine !in s.h
      && path[|path| - 1] in s.h && i < |s.h[path[|path| - 1]].cells|
  }

  // The operation makes sense in memory.
  ghost predicate Ready(h: Memory, op: Op)
  {
    match op
    case New(list, format) => true
    case SetFormat(list, format) => list in h
    case Plain(dst, x) => dst in h
    case Put(dst, at, src, i, mine) =>
      && dst in h && src in h && mine !in h && at <= |h[dst].cells| && i < |h[src].cells|
      && (h[src].cells[i].subs != null ==> h[src].cells[i].subs in h && h[src].cells[i].subs != dst)
    case Build(dst, list, token, mine) => dst in h && list in h && dst != list && mine !in h
    case Move(dst, at, src, lo, hi) =>
      dst in h && src in h && at <= |h[dst].cells| && lo <= hi <= |h[src].cells|
    case Drop(list, lo, hi) => list in h && lo <= hi <= |h[list].cells|
    case Swap(a, b) => a in h && b in h
    case Assign(path, i, list, mine) =>
      && path != []
      && var owner := path[|path| - 1];
      && owner in h && i < |h[owner].cells| && list in h && owner != list && mine !in h
      && var t := h[owner].cells[i].subs;
      t == null || (t in h && t != owner)
  }

  ghost function Changed(h: Memory, op: Op): Memory
    requires Ready(h, op)
  {
    match op
    case New(list, format) => h[list := Record(format, [])]
    case SetFormat(list, format) => h[list := h[list].(format := format)]
    case Plain(dst, x) => InsertHeap(h, dst, |h[dst].cells|, x)
    case Put(dst, at, src, i, mine) => PutHeap(h, dst, at, src, i, mine)
    case Build(dst, list, token, mine) => BuildHeap(h, dst, list, token, mine)
    case Move(dst, at, src, lo, hi) => SpliceHeap(h, dst, at, src, lo, hi)
    case Drop(list, lo, hi) => DropHeap(h, list, lo, hi)
    case Swap(a, b) => SwapHeap(h, a, b)
    case Assign(path, i, list, mine) => AssignHeap(h, path[|path| - 1], i, list, mine)
  }

  ghost function Apply(s: Store, op: Op): Store
  {
    if Ready(s.h, op) then Store(Changed(s.h, op), if op.New? then s.locals + {op.list} else s.locals) else s
  }

  ghost function RunAll(s: Store, ops: seq<Op>): Store
  {
    if ops == [] then s else Apply(RunAll(s, ops[..|ops| - 1]), ops[|ops| - 1])
  }

  // Every operation is allowed where it happens.
  ghost predicate AllAllowed(s: Store, ops: seq<Op>)
  {
    forall n | 0 <= n < |ops| :: Allowed(RunAll(s, ops[..n]), ops[n])
  }

  // Every list has one owner at most, none contains itself, and nothing points to the variables.
  ghost predicate Tidy(s: Store, r: map<Chain, nat>)
  {
    Owned(s.h, r) && forall c | c in s.locals :: c in s.h && Free(s.h, c)
  }

  lemma FormatOwned(h: Memory, r: map<Chain, nat>, c: Chain, format: Format)
    requires Owned(h, r) && c in h
    ensures
      var h' := h[c := h[c].(format := format)];
      Owned(h', r) && forall d | Free(h, d) :: Free(h', d)
  {
    var h' := h[c := h[c].(format := format)];
    assert forall d | d in h' :: h'[d].cells == h[d].cells;
    forall d, i | d in h' && 0 <= i < |h'[d].cells|
      ensures Below(h', r, h'[d].cells[i], r[d])
    {
      assert Below(h, r, h[d].cells[i], r[d]);
    }
  }

  lemma NewOwned(h: Memory, r: map<Chain, nat>, c: Chain, format: Format)
    requires Owned(h, r) && c !in h
    ensures
      var h' := h[c := Record(format, [])];
      Owned(h', r[c := 0]) && Free(h', c) && forall d | Free(h, d) :: Free(h', d)
  {
    NewLinear(h, c, format);
    NotYetFree(h, r, c);
    hide Linear, Free;
    var h' := h[c := Record(format, [])];
    forall d, i | d in h' && 0 <= i < |h'[d].cells|
      ensures Below(h', r[c := 0], h'[d].cells[i], r[c := 0][d])
    {
      assert Below(h, r, h[d].cells[i], r[d]);
    }
  }

  lemma ChangedKeys(h: Memory, op: Op)
    requires Ready(h, op)
    ensures h.Keys <= Changed(h, op).Keys
  {}

  // An operation that is allowed makes sense, and keeps the lists tidy.
  lemma StepTidy(s: Store, r: map<Chain, nat>, op: Op) returns (r': map<Chain, nat>)
    requires Tidy(s, r) && Allowed(s, op)
    ensures Ready(s.h, op) && Tidy(Apply(s, op), r') && s.locals <= Apply(s, op).locals
  {
    hide Linear, Free, Ranked, PointsTo, InsertHeap, PutHeap, BuildHeap, SpliceHeap, DropHeap, SwapHeap, AssignHeap;
    if Ready(s.h, op) {
      ChangedKeys(s.h, op);
    }
    match op {
      case New(list, format) =>
        NewOwned(s.h, r, list, format);
        r' := r[list := 0];
      case SetFormat(list, format) =>
        FormatOwned(s.h, r, list, format);
        r' := r;
      case Plain(dst, x) =>
        r' := InsertOwned(s.h, r, dst, |s.h[dst].cells|, x);
      case Put(dst, at, src, i, mine) =>
        r' := PutOwned(s.h, r, dst, at, src, i, mine);
      case Build(dst, list, token, mine) =>
        r' := BuildOwned(s.h, r, dst, list, token, mine);
      case Move(dst, at, src, lo, hi) =>
        r' := SpliceOwned(s.h, r, dst, at, src, lo, hi);
      case Drop(list, lo, hi) =>
        DropOwned(s.h, r, list, lo, hi);
        r' := r;
      case Swap(a, b) =>
        r' := SwapOwned(s.h, r, a, b);
      case Assign(path, i, list, mine) =>
        NotInside(s.h, r, path, list);
        r' := AssignOwned(s.h, r, path[|path| - 1], i, list, mine);
    }
  }

  // Over every run of such operations, of whatever depth, no list is shared.
  lemma {:induction false} EveryRunTidy(s: Store, r: map<Chain, nat>, ops: seq<Op>) returns (r': map<Chain, nat>)
    requires Tidy(s, r) && AllAllowed(s, ops)
    ensures Tidy(RunAll(s, ops), r')
    decreases |ops|
  {
    hide Tidy, Allowed, Apply;
    if ops == [] {
      r' := r;
    } else {
      var n := |ops| - 1;
      assert forall k | 0 <= k < n :: ops[..n][k] == ops[k] && ops[..n][..k] == ops[..k];
      var r1 := EveryRunTidy(s, r, ops[..n]);
      r' := StepTidy(RunAll(s, ops[..n]), r1, ops[n]);
    }
  }

  // So after any run from nothing, each list is in one variable only, in one way.
  lemma NothingShared(ops: seq<Op>, p: seq<Chain>, q: seq<Chain>)
    requires AllAllowed(Store(map[], {}), ops)
    requires
      var s := RunAll(Store(map[], {}), ops);
      && IsPath(s.h, p) && IsPath(s.h, q) && p[0] in s.locals && q[0] in s.locals
      && p[|p| - 1] == q[|q| - 1]
    ensures p == q
  {
    hide PointsTo, AllAllowed, RunAll, Tidy;
    NothingTidy();
    var r := EveryRunTidy(Store(map[], {}), map[], ops);
    TidyEnds(RunAll(Store(map[], {}), ops), r, p[0]);
    TidyEnds(RunAll(Store(map[], {}), ops), r, q[0]);
    OnePath(RunAll(Store(map[], {}), ops).h, p, q);
  }

  lemma NothingTidy()
    ensures Tidy(Store(map[], {}), map[])
  {}

  lemma TidyEnds(s: Store, r: map<Chain, nat>, c: Chain)
    requires Tidy(s, r) && c in s.locals
    ensures Linear(s.h) && Free(s.h, c)
  {}

  // A push from a list at any depth of one variable into another is the push of the value.
  lemma NestedPush(s: Store, r: map<Chain, nat>, path: seq<Chain>, dst: Chain, i: nat, mine: Chain)
    returns (r': map<Chain, nat>)
    requires Tidy(s, r) && IsPath(s.h, path) && path[0] in s.locals && dst in s.locals && dst != path[0]
    requires var src := path[|path| - 1]; src in s.h && i < |s.h[src].cells|
    requires mine !in s.h
    requires PushOk(View(s.h, r, dst), View(s.h, r, path[|path| - 1])[i])
    ensures
      var src := path[|path| - 1];
      var op := Put(dst, |s.h[dst].cells|, src, i, mine);
      && Allowed(s, op) && Tidy(Apply(s, op), r') && src in Apply(s, op).h
      && var e, h' := View(s.h, r, src)[i], Apply(s, op).h;
      && View(h', r', dst) == PushBack(View(s.h, r, dst), e)
      && View(h', r', src) == View(s.h, r, src)[i := Gutted(e)]
  {
    hide Linear, Free, Ranked, PointsTo, PutHeap;
    var src, at := path[|path| - 1], |s.h[dst].cells|;
    r' := StepTidy(s, r, Put(dst, at, src, i, mine));
    ChangedKeys(s.h, Put(dst, at, src, i, mine));
    NotInside(s.h, r, path, dst);
    PutView(s.h, r, r', dst, at, src, i, mine);
    AtEnd(View(s.h, r, dst), Copy(View(s.h, r, src)[i]));
  }

  // ---------- the operations themselves ----------

  // The copy constructor: a new list takes the sub-elements over, whoever owns the list that holds the original.
  method CopyCell(src: Chain, i: nat, ghost u: set<Chain>, ghost r: map<Chain, nat>)
    returns (cell: Cell, ghost mine: Chain, ghost u': set<Chain>, ghost r': map<Chain, nat>)
    requires Owned(Heap(u), r) && src in u && i < |src.cells|
    modifies src.cells[i].subs
    ensures mine !in u && u <= u' <= u + {mine} && fresh(u' - u) && Below(old(Heap(u)), r, old(src.cells[i]), r[src])
    ensures Heap(u') == CopyHeap(old(Heap(u)), old(src.cells[i]), mine)
    ensures cell == CopiedCell(old(Heap(u)), old(src.cells[i]), mine)
    ensures Owned(Heap(u'), r') && (forall c | c in u && old(Free(Heap(u), c)) :: Free(Heap(u'), c))
    ensures View(Heap(u'), r', src) == old(View(Heap(u), r, src)[i := Gutted(View(Heap(u), r, src)[i])])
    ensures forall n | Below(Heap(u'), r', cell, n) ::
              ElementOf(Heap(u'), r', cell, n) == Copy(old(View(Heap(u), r, src)[i]))
  {
    hide Linear, Free, View, ElementOf, MoveHeap;
    ghost var h := Heap(u);
    var other := src.cells[i];
    assert Below(h, r, other, r[src]);
    u' := u;
    if other.subs == null {
      cell := other;
      var spare := new Chain(DEFAULT_FORMAT);
      mine := spare;
    } else {
      var theirs: Chain := other.subs;
      var list := new Chain(theirs.format);
      mine := list;
      cell := Captured(other.token, other.cb, other.ce, theirs.cells, list);
      list.cells, theirs.cells := theirs.cells, [];
      u' := u + {list};
      MovedHeap(h, theirs, list, Heap(u'));
    }
    r' := CopyOwned(h, r, src, i, mine);
    CopyView(h, r, r', src, i, mine);
  }

  lemma MovedHeap(h: Memory, list: Chain, mine: Chain, h': Memory)
    requires list in h && mine !in h && h'.Keys == h.Keys + {mine}
    requires h'[mine] == h[list] && h'[list] == Record(h[list].format, [])
    requires forall c | c in h && c != list :: h'[c] == h[c]
    ensures h' == MoveHeap(h, list, mine)
  {}

  // A copy of an element of any list is pushed at the back of a list that nothing points to.
  method PushBackCell(dst: Chain, src: Chain, i: nat, ghost u: set<Chain>, ghost r: map<Chain, nat>)
    returns (ghost u': set<Chain>, ghost r': map<Chain, nat>)
    requires Owned(Heap(u), r) && {dst, src} <= u && Free(Heap(u), dst) && i < |src.cells|
    requires PushOk(View(Heap(u), r, dst), View(Heap(u), r, src)[i])
    modifies dst, src.cells[i].subs
    ensures u <= u' && fresh(u' - u) && Owned(Heap(u'), r')
    ensures forall c | c in u && old(Free(Heap(u), c)) :: Free(Heap(u'), c)
    ensures !old(Reaches(Heap(u), r, dst, src)) ==>
      var e := old(View(Heap(u), r, src)[i]);
      && View(Heap(u'), r', dst) == PushBack(old(View(Heap(u), r, dst)), e)
      && View(Heap(u'), r', src) == old(View(Heap(u), r, src))[i := Gutted(e)]
  {
    hide Linear, Free, Ranked, View, Reaches, MoveHeap, PushOk;
    ghost var h := Heap(u);
    ghost var at := |dst.cells|;
    NotPointed(h, src, i, dst);
    var cell;
    ghost var mine, r1;
    cell, mine, u', r1 := CopyCell(src, i, u, r);
    ghost var h1 := Heap(u');
    dst.cells := dst.cells + [cell];
    AtEnd(h1[dst].cells, cell);
    assert Heap(u') == InsertHeap(h1, dst, at, cell);
    assert Heap(u') == PutHeap(h, dst, at, src, i, mine);
    r' := PutOwned(h, r, dst, at, src, i, mine);
    if !Reaches(h, r, dst, src) {
      PutView(h, r, r', dst, at, src, i, mine);
      ViewLength(h, r, dst);
      AtEnd(View(h, r, dst), Copy(View(h, r, src)[i]));
    }
  }

  lemma ViewLength(h: Memory, r: map<Chain, nat>, c: Chain)
    requires Ranked(h, r) && c in h
    ensures |View(h, r, c)| == |h[c].cells|
  {}

  // An element is built around a list and kept at the back of another, such as a temporary.
  method BuildCell(dst: Chain, list: Chain, token: Token, ghost u: set<Chain>, ghost r: map<Chain, nat>)
    returns (ghost u': set<Chain>, ghost r': map<Chain, nat>)
    requires Owned(Heap(u), r) && {dst, list} <= u && dst != list && Free(Heap(u), dst) && list.cells != []
    modifies dst, list
    ensures u <= u' && fresh(u' - u) && Owned(Heap(u'), r')
    ensures forall c | c in u && old(Free(Heap(u), c)) :: Free(Heap(u'), c)
    ensures !old(Reaches(Heap(u), r, dst, list)) ==>
      var v := old(View(Heap(u), r, list));
      && v != [] && View(Heap(u'), r', list) == []
      && View(Heap(u'), r', dst) == old(View(Heap(u), r, dst)) + [Make(token, v).(subs := List(old(list.format), v))]
  {
    hide Linear, Free, Ranked, View, Reaches, MoveHeap;
    ghost var h := Heap(u);
    var mine := new Chain(list.format);
    var cell := Captured(token, 0, 0, list.cells, mine);
    mine.cells, list.cells := list.cells, [];
    u' := u + {mine};
    ghost var h1 := Heap(u');
    MovedHeap(h, list, mine, h1);
    dst.cells := dst.cells + [cell];
    AtEnd(h1[dst].cells, cell);
    assert Heap(u') == InsertHeap(h1, dst, |h[dst].cells|, cell);
    r' := BuildOwned(h, r, dst, list, token, mine);
    ViewLength(h, r, list);
    if !Reaches(h, r, dst, list) {
      BuildView(h, r, r', dst, list, token, mine);
    }
  }

  // Elements of any list are moved into one that nothing points to, without being copied.
  method Splice(dst: Chain, at: nat, src: Chain, lo: nat, hi: nat, ghost u: set<Chain>, ghost r: map<Chain, nat>)
    returns (ghost r': map<Chain, nat>)
    requires Owned(Heap(u), r) && {dst, src} <= u && dst != src && Free(Heap(u), dst)
    requires at <= |dst.cells| && lo <= hi <= |src.cells|
    modifies dst, src
    ensures Owned(Heap(u), r') && forall c | c in u && old(Free(Heap(u), c)) :: Free(Heap(u), c)
    ensures !old(Reaches(Heap(u), r, dst, src)) ==>
      && View(Heap(u), r', dst) == Inserted(old(View(Heap(u), r, dst)), at, old(View(Heap(u), r, src))[lo..hi])
      && View(Heap(u), r', src) == Removed(old(View(Heap(u), r, src)), lo, hi)
  {
    hide Linear, Free, Ranked, View, Reaches, Inserted, Removed;
    ghost var h := Heap(u);
    dst.cells, src.cells := Inserted(dst.cells, at, src.cells[lo..hi]), Removed(src.cells, lo, hi);
    assert Heap(u) == SpliceHeap(h, dst, at, src, lo, hi);
    r' := SpliceOwned(h, r, dst, at, src, lo, hi);
    if !Reaches(h, r, dst, src) {
      SpliceView(h, r, r', dst, at, src, lo, hi);
    }
  }

  // Two lists that nothing points to exchange their elements.
  method SwapLists(a: Chain, b: Chain, ghost u: set<Chain>, ghost r: map<Chain, nat>)
    returns (ghost r': map<Chain, nat>)
    requires Owned(Heap(u), r) && {a, b} <= u && a != b && Free(Heap(u), a) && Free(Heap(u), b)
    modifies a, b
    ensures Owned(Heap(u), r') && forall c | c in u && old(Free(Heap(u), c)) :: Free(Heap(u), c)
    ensures View(Heap(u), r', a) == old(View(Heap(u), r, b)) && View(Heap(u), r', b) == old(View(Heap(u), r, a))
  {
    hide Linear, Free, Ranked, View;
    ghost var h := Heap(u);
    a.cells, b.cells := b.cells, a.cells;
    assert Heap(u) == SwapHeap(h, a, b);
    r' := SwapOwned(h, r, a, b);
    SwapView(h, r, r', a, b);
  }

  // An element of any list is given the elements of a list that nothing points to and that does not hold it.
  method AssignElements(owner: Chain, i: nat, list: Chain, ghost u: set<Chain>, ghost r: map<Chain, nat>)
    returns (ghost u': set<Chain>, ghost r': map<Chain, nat>)
    requires Owned(Heap(u), r) && {owner, list} <= u && i < |owner.cells|
    requires Free(Heap(u), list) && !Reaches(Heap(u), r, list, owner)
    modifies owner, list, owner.cells[i].subs
    ensures u <= u' && fresh(u' - u) && Owned(Heap(u'), r')
    ensures forall c | c in u && old(Free(Heap(u), c)) :: Free(Heap(u'), c)
    ensures
      var e, v := old(View(Heap(u), r, owner)[i]), old(View(Heap(u), r, list));
      var format := if e.subs.Null? then old(list.format) else e.subs.format;
      && View(Heap(u'), r', owner) == old(View(Heap(u), r, owner))[i := UpdateCapture(e.(subs := List(format, v)))]
      && View(Heap(u'), r', list) == if e.subs.Null? then [] else e.subs.elems
  {
    ghost var h := Heap(u);
    var x := owner.cells[i];
    assert Below(h, r, x, r[owner]);
    NotPointed(h, owner, i, list);
    assert Reaches(h, r, list, list);
    hide Linear, Free, Ranked, View, Reaches, MoveHeap, AssignHeap;
    var mine := new Chain(list.format);
    if x.subs == null {
      u' := u + {mine};
      owner.cells := owner.cells[i := Captured(x.token, x.cb, x.ce, list.cells, mine)];
      mine.cells, list.cells := list.cells, [];
    } else {
      u' := u;
      var theirs: Chain := x.subs;
      owner.cells := owner.cells[i := Captured(x.token, x.cb, x.ce, list.cells, theirs)];
      theirs.cells, list.cells := list.cells, theirs.cells;
    }
    AssignedHeap(h, owner, i, list, mine, Heap(u'));
    r' := AssignOwned(h, r, owner, i, list, mine);
    AssignView(h, r, r', owner, i, list, mine);
  }

  lemma AssignedHeap(h: Memory, owner: Chain, i: nat, list: Chain, mine: Chain, h': Memory)
    requires owner in h && i < |h[owner].cells| && list in h && owner != list && mine !in h
    requires var t := h[owner].cells[i].subs; t == null || (t in h && t != owner && t != list)
    requires h'.Keys == if h[owner].cells[i].subs == null then h.Keys + {mine} else h.Keys
    requires
      var x := h[owner].cells[i];
      var t := if x.subs == null then mine else x.subs;
      && h'[owner] ==
         h[owner].(cells := h[owner].cells[i := Captured(x.token, x.cb, x.ce, h[list].cells, t)])
      && h'[t] == Record(if x.subs == null then h[list].format else h[t].format, h[list].cells)
      && h'[list] == h[list].(cells := if x.subs == null then [] else h[t].cells)
      && forall c | c in h && c !in {owner, list, t} :: h'[c] == h[c]
    ensures h' == AssignHeap(h, owner, i, list, mine)
  {}
}
