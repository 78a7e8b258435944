// What the discovered structure keeps: every token but the brackets, in order, in lists and groups that
// lie in order; and the stack machine is recursive descent.
module DiscoverProof {
  import opened Tokens
  import opened Elements
  import opened KeyScan
  import opened PairsProof
  import opened Dfs
  import opened Discover

  // ---------- trees ----------

  lemma {:induction false} TreeConcat(a: seq<Element>, b: seq<Element>)
    ensures Tree(a + b) == Tree(a) + Tree(b)
    decreases |a|
  {
    hide TreeOf;
    if a == [] {
      assert a + b == b;
    } else {
      TreeConcat(a[1..], b);
      assert (a + b)[1..] == a[1..] + b;
    }
  }

  lemma TreeOne(e: Element)
    ensures Tree([e]) == TreeOf(e)
  {
    assert [e][1..] == [];
    assert TreeOf(e) + [] == TreeOf(e);
  }

  // The leaves that carry text are among the tokens of a tree.
  lemma {:induction false} LeavesInTree(s: seq<Element>)
    ensures Subseq(Leaves(s), Tree(s))
    decreases s, 1
  {
    if s == [] {
    } else {
      LeavesInTreeOf(s[0]);
      LeavesInTree(s[1..]);
      SubseqConcat(LeavesOf(s[0]), TreeOf(s[0]), Leaves(s[1..]), Tree(s[1..]));
    }
  }

  lemma {:induction false} LeavesInTreeOf(e: Element)
    ensures Subseq(LeavesOf(e), TreeOf(e))
    decreases e, 0
  {
    if e.subs.List? {
      LeavesInTree(e.subs.elems);
    }
  }

  lemma KeptNothing()
    ensures Subseq(Kept([]), [])
  {}

  lemma KeptLast(toks: seq<Tok>) returns (last: seq<Tok>)
    requires toks != []
    ensures Kept(toks) == Kept(toks[..|toks| - 1]) + last && Subseq(last, [toks[|toks| - 1]])
  {
    var t := toks[|toks| - 1];
    var s := OpenAfter(toks[..|toks| - 1]);
    last := if IsStructure(s[|s| - 1], t.token) then [] else [t];
    hide OpenAfter, IsStructure;
    SubseqRefl([t]);
  }

  lemma {:induction false} KeptInOrder(toks: seq<Tok>)
    ensures Subseq(Kept(toks), toks)
    decreases |toks|
  {
    hide Kept, Subseq;
    if toks == [] {
      KeptNothing();
    } else {
      var before, t := toks[..|toks| - 1], [toks[|toks| - 1]];
      KeptInOrder(before);
      var last := KeptLast(toks);
      SubseqConcat(Kept(before), before, last, t);
      assert toks == before + t;
    }
  }

  // ---------- formats ----------

  lemma FinalFormatOk(st: FormatState)
    requires st.format == DEFAULT_FORMAT
    ensures FormatOk(Finalize(st).format)
  {}

  lemma {:induction false} FoldFormat(toks: seq<Token>)
    ensures Fold(toks).format == DEFAULT_FORMAT && FormatOk(FormatOf(toks))
    decreases |toks|
  {
    if toks == [] {
    } else {
      FoldFormat(toks[..|toks| - 1]);
    }
    FinalFormatOk(Fold(toks));
  }

  // ---------- the elements of the tree ----------

  lemma InputSplit(a: seq<Element>, b: seq<Element>)
    requires AreInput(a + b)
    ensures AreInput(a) && AreInput(b)
  {
    assert forall i | 0 <= i < |a| :: a[i] == (a + b)[i];
    assert forall i | 0 <= i < |b| :: b[i] == (a + b)[|a| + i];
  }

  // Elements in order that the parser can be given, holding exactly the tokens listed.
  ghost predicate Holds(s: seq<Element>, toks: seq<Tok>, lo: int, hi: int)
  {
    Laid(s, lo, hi) && AreInput(s) && Tree(s) == toks
  }

  lemma HoldsPush(s: seq<Element>, toks: seq<Tok>, e: Element, more: seq<Tok>, lo: int, mid: int, hi: int)
    requires Holds(s, toks, lo, mid) && Ok(e) && mid <= e.cb && e.ce <= hi && IsInput(e) && TreeOf(e) == more
    ensures Holds(s + [e], toks + more, lo, hi)
  {
    TreeConcat(s, [e]);
    TreeOne(e);
    hide Tree, TreeOf;
    assert Laid([e], mid, hi);
    LaidConcat(s, [e], lo, mid, hi);
  }

  // The last part of a list replaced by a single element made from it.
  lemma HoldsFold(a: seq<Element>, b: seq<Element>, e: Element, toks: seq<Tok>, lo: int, hi: int)
    requires Holds(a + b, toks, lo, hi)
    requires Laid(b, Start(b, hi), hi) ==> Ok(e) && Start(b, hi) <= e.cb && e.ce <= hi
    requires AreInput(b) ==> IsInput(e)
    requires TreeOf(e) == Tree(b)
    ensures Holds(a + [e], toks, lo, hi)
  {
    TreeConcat(a, b);
    hide Tree, TreeOf, Laid, Ok, IsInput;
    InputSplit(a, b);
    LaidSplit(a, b, lo, hi);
    HoldsPush(a, Tree(a), e, Tree(b), lo, Start(b, hi), hi);
  }

  lemma GroupMade(format: Format, b: seq<Element>, lo: int, hi: int)
    requires b != [] && FormatOk(format) && Laid(b, lo, hi) && AreInput(b)
    ensures
      var e := MakeGroup(format, b);
      Ok(e) && lo <= e.cb && e.ce <= hi && IsInput(e) && TreeOf(e) == Tree(b)
  {
    forall i | 0 <= i < |b|
      ensures Fair(b[i])
    {
      OkIsFair(b[i]);
    }
    assert |b| > 1 ==> b[0].ce <= b[|b| - 1].cb;
  }

  // ---------- one step of the machine ----------

  // A token that is not wide of nothing, placed behind p.
  ghost predicate TokOk(t: Tok, p: int)
  {
    && IsTerminal(t.token) && 0 <= p <= t.cb <= t.ce
    && (IsWide(t.token) || t.token.EmptyContainer? ==> t.cb < t.ce)
  }

  lemma AppendHolds(a: seq<Element>, b: seq<Element>, toks: seq<Tok>, t: Tok, lo: int, p: int)
    requires Holds(a + b, toks, lo, p) && TokOk(t, p) && (t.token.Unit? ==> b != [])
    ensures Holds(a + Append(b, t), toks + if t.token.EmptyContainer? then [] else [t], lo, t.ce)
  {
    hide Holds, TokOk, IsTerminal, FormatOf;
    var all := a + b;
    if t.token.EmptyContainer? {
      var e := EmptyGroup(FormatOf([]), t.cb + 1);
      EmptyHolds(all, toks, t, lo, p);
      assert all + [e] == a + (b + [e]) && toks + [] == toks;
    } else {
      LeafHolds(all, toks, t, lo, p);
      if t.token.Unit? {
        var init, last, leaf := b[..|b| - 1], b[|b| - 1], Leaf(t);
        var e := Make(Measurement, [last, leaf]);
        assert all + [leaf] == (a + init) + [last, leaf];
        MeasureMade(last, leaf, Start([last, leaf], t.ce), t.ce);
        HoldsFold(a + init, [last, leaf], e, toks + [t], lo, t.ce);
        assert a + init + [e] == a + (init + [e]);
      } else {
        assert all + [Leaf(t)] == a + (b + [Leaf(t)]);
      }
    }
  }

  lemma LeafHolds(s: seq<Element>, toks: seq<Tok>, t: Tok, lo: int, p: int)
    requires Holds(s, toks, lo, p) && TokOk(t, p) && !t.token.EmptyContainer?
    ensures Holds(s + [Leaf(t)], toks + [t], lo, t.ce)
  {
    hide Holds;
    HoldsPush(s, toks, Leaf(t), [t], lo, p, t.ce);
  }

  lemma EmptyHolds(s: seq<Element>, toks: seq<Tok>, t: Tok, lo: int, p: int)
    requires Holds(s, toks, lo, p) && TokOk(t, p) && t.token.EmptyContainer?
    ensures Holds(s + [EmptyGroup(FormatOf([]), t.cb + 1)], toks, lo, t.ce)
  {
    hide Holds, FormatOf;
    FoldFormat([]);
    HoldsPush(s, toks, EmptyGroup(FormatOf([]), t.cb + 1), [], lo, p, t.ce);
    assert toks + [] == toks;
  }

  lemma MeasureMade(x: Element, y: Element, lo: int, hi: int)
    ensures
      var e := Make(Measurement, [x, y]);
      && (Laid([x, y], lo, hi) ==> Ok(e) && lo <= e.cb && e.ce <= hi)
      && IsInput(e) && TreeOf(e) == Tree([x, y])
  {
    var s := [x, y];
    if Laid(s, lo, hi) {
      MakeOk(Measurement, s, lo, hi);
      assert [Make(Measurement, s)][0] == Make(Measurement, s);
    }
  }

  lemma CloseHolds(a: seq<Element>, b: seq<Element>, toks: seq<Tok>, t: Tok, format: Format, lo: int, p: int)
    requires Holds(a + b, toks, lo, p) && TokOk(t, p) && FormatOk(format)
    ensures Holds(a + [ClosedGroup(format, b, t)], toks, lo, t.ce)
  {
    var e := ClosedGroup(format, b, t);
    if b == [] {
      HoldsPush(a + b, toks, e, [], lo, p, t.ce);
      assert a + b == a && toks + [] == toks;
    } else {
      FoldHolds(a, b, toks, format, lo, p);
      HoldsUp(a + [e], toks, lo, p, t.ce);
    }
  }

  lemma FoldHolds(a: seq<Element>, b: seq<Element>, toks: seq<Tok>, format: Format, lo: int, p: int)
    requires Holds(a + b, toks, lo, p) && b != [] && FormatOk(format)
    ensures Holds(a + [MakeGroup(format, b)], toks, lo, p)
  {
    LaidSplit(a, b, lo, p);
    InputSplit(a, b);
    hide Laid, Ok, IsInput, Tree, TreeOf;
    GroupMade(format, b, Start(b, p), p);
    HoldsFold(a, b, MakeGroup(format, b), toks, lo, p);
  }

  lemma HoldsUp(s: seq<Element>, toks: seq<Tok>, lo: int, p: int, q: int)
    requires Holds(s, toks, lo, p) && p <= q
    ensures Holds(s, toks, lo, q)
  {}

  // Every format state still has the default format.
  ghost predicate Unset(states: seq<FormatState>)
  {
    forall i | 0 <= i < |states| :: states[i].format == DEFAULT_FORMAT
  }

  lemma FlatPush(lists: seq<seq<Element>>, top: seq<Element>)
    ensures Flat(lists + [top]) == Flat(lists) + top
  {
    assert Pop(lists + [top]) == lists;
  }

  lemma AdvanceHolds(m: Machine, t: Tok, kept: seq<Tok>, lo: int, p: int)
    requires Level(m) && Level(Advance(m, t)) && Unset(m.states)
    requires Holds(Flat(m.lists), kept, lo, p) && TokOk(t, p) && (t.token.Unit? ==> Top(m.lists) != [])
    ensures Unset(Advance(m, t).states)
    ensures Holds(Flat(Advance(m, t).lists), kept + if IsStructure(Top(m.open), t.token) then [] else [t], lo, t.ce)
  {
    hide Holds, Append, Update, ClosedGroup, Flat;
    UpdateFormat(Top(m.states), t.token);
    FlatTop(m.lists);
    assert kept + [] == kept;
    var top := Top(m.lists);
    if IsOpener(t.token) {
      FlatPush(m.lists, []);
      assert Flat(m.lists) + [] == Flat(m.lists);
      HoldsUp(Flat(m.lists), kept, lo, p, t.ce);
    } else if Closes(Top(m.open), t.token) {
      var format := Finalize(Update(Top(m.states), t.token)).format;
      FinalFormatOk(Update(Top(m.states), t.token));
      CloseHolds(Flat(Pop(m.lists)), top, kept, t, format, lo, p);
      FlatParent(Pop(m.lists), ClosedGroup(format, top, t));
    } else {
      AppendHolds(Flat(Pop(m.lists)), top, kept, t, lo, p);
      FlatPush(Pop(m.lists), Append(top, t));
    }
  }

  lemma FlatTop(lists: seq<seq<Element>>)
    requires lists != []
    ensures Flat(lists) == Flat(Pop(lists)) + Top(lists)
  {}

  lemma FlatParent(lists: seq<seq<Element>>, e: Element)
    requires lists != []
    ensures Flat(Pop(lists) + [Top(lists) + [e]]) == Flat(lists) + [e]
  {
    FlatPush(Pop(lists), Top(lists) + [e]);
    assert Flat(Pop(lists)) + (Top(lists) + [e]) == Flat(lists) + [e];
  }

  lemma UpdateFormat(st: FormatState, t: Token)
    ensures Update(st, t).format == st.format
  {}

  function LastEnd(toks: seq<Tok>, lo: int): int
  {
    if toks == [] then lo else toks[|toks| - 1].ce
  }

  lemma TokensSplit(toks: seq<Tok>, lo: int, hi: int)
    requires TokensOk(toks, lo, hi) && toks != []
    ensures
      var before, t := toks[..|toks| - 1], toks[|toks| - 1];
      && TokensOk(before, lo, hi) && TokOk(t, LastEnd(before, lo)) && t.ce <= hi
      && (t.token.Unit? ==> before != [] && !IsOpener(before[|before| - 1].token))
  {
    var before, t := toks[..|toks| - 1], toks[|toks| - 1];
    hide IsWide, IsTerminal, IsOpener;
    assert forall i | 0 <= i < |before| :: before[i] == toks[i];
    assert before != [] ==> before[|before| - 1].ce <= t.cb;
  }

  lemma AppendsOne(elems: seq<Element>, t: Tok)
    ensures Append(elems, t) != []
  {}

  // A list is empty just after its opening bracket, and never later.
  lemma TopEmpty(toks: seq<Tok>)
    ensures Top(Advanced(toks).lists) == [] <==> toks == [] || IsOpener(toks[|toks| - 1].token)
    ensures toks != [] && IsOpener(toks[|toks| - 1].token) ==> |Advanced(toks).lists| > 1
  {
    if toks != [] {
      hide Finalize, Update, ClosedGroup, FormatOf, Closes, IsOpener;
      AppendsOne(Top(Advanced(toks[..|toks| - 1]).lists), toks[|toks| - 1]);
    }
  }

  lemma AdvanceOpen(m: Machine, t: Tok)
    requires Level(m) && Level(Advance(m, t))
    ensures Advance(m, t).open ==
      if IsOpener(t.token) then m.open + [t.token]
      else if Closes(Top(m.open), t.token) then Pop(m.open)
      else m.open
  {}

  // The open brackets of the machine are those of OpenAfter.
  lemma {:induction false} OpenMatches(toks: seq<Tok>)
    ensures Advanced(toks).open == OpenAfter(toks)
    decreases |toks|
  {
    if toks == [] {
    } else {
      OpenMatches(toks[..|toks| - 1]);
      AdvanceOpen(Advanced(toks[..|toks| - 1]), toks[|toks| - 1]);
      hide Advance;
    }
  }

  lemma AdvancedStep(toks: seq<Tok>)
    requires toks != []
    ensures
      var before, t := toks[..|toks| - 1], toks[|toks| - 1];
      && Advanced(toks) == Advance(Advanced(before), t)
      && Kept(toks) ==
         Kept(before) +
         if IsStructure(Top(OpenAfter(before)), t.token) then [] else [t]
  {
    hide Advance, IsStructure;
  }

  lemma NothingHeld(lo: int)
    ensures Unset(Advanced([]).states) && Holds(Flat(Advanced([]).lists), Kept([]), lo, lo)
  {
    assert Flat(START.lists) == [];
  }

  // The machine holds exactly the kept tokens, in order.
  lemma {:induction false} AdvancedHolds(toks: seq<Tok>, lo: int, hi: int)
    requires TokensOk(toks, lo, hi)
    ensures Unset(Advanced(toks).states)
    ensures Holds(Flat(Advanced(toks).lists), Kept(toks), lo, LastEnd(toks, lo)) && LastEnd(toks, lo) <= hi
    decreases |toks|
  {
    if toks == [] {
      NothingHeld(lo);
    } else {
      hide Holds, Flat, Advance, TokensOk, TokOk, IsOpener, IsStructure, Unset, Advanced, Kept, OpenAfter;
      var before, t := toks[..|toks| - 1], toks[|toks| - 1];
      TokensSplit(toks, lo, hi);
      AdvancedHolds(before, lo, hi);
      TopEmpty(before);
      OpenMatches(before);
      AdvancedStep(toks);
      AdvanceHolds(Advanced(before), t, Kept(before), lo, LastEnd(before, lo));
    }
  }

  lemma {:induction false} FlushHolds(
    lists: seq<seq<Element>>, states: seq<FormatState>, kept: seq<Tok>, lo: int, hi: int)
    requires 0 < |lists| <= |states| && Unset(states) && Holds(Flat(lists), kept, lo, hi)
    ensures
      var r := Flush(lists, states);
      Holds(r.0, kept, lo, hi) && Unset(r.1) && |r.1| <= |states|
    decreases |lists|
  {
    hide Holds, MakeGroup;
    var below, top := Pop(lists), Top(lists);
    if |lists| == 1 {
      assert Flat(below) == [] && [] + top == top;
    } else if top == [] {
      assert Flat(below) + [] == Flat(below);
      FlushHolds(below, states, kept, lo, hi);
    } else {
      FinalFormatOk(Top(states));
      var group := MakeGroup(Finalize(Top(states)).format, top);
      FoldHolds(Flat(below), top, kept, Finalize(Top(states)).format, lo, hi);
      var folded := Pop(below) + [Top(below) + [group]];
      FlatParent(below, group);
      FlushHolds(folded, Pop(states), kept, lo, hi);
    }
  }

  // The discovered structure holds exactly the kept tokens, lies in order at every depth, and has a
  // named format in every list.
  lemma DiscoveredHolds(toks: seq<Tok>, lo: int, hi: int)
    requires TokensOk(toks, lo, hi)
    ensures
      var d := Discovered(toks);
      Holds(d.elems, Kept(toks), lo, hi) && FormatOk(d.format)
  {
    hide Holds, Kept;
    AdvancedHolds(toks, lo, hi);
    var m := Advanced(toks);
    HoldsUp(Flat(m.lists), Kept(toks), lo, LastEnd(toks, lo), hi);
    FlushHolds(m.lists, m.states, Kept(toks), lo, hi);
    FinalFormatOk(Top(Flush(m.lists, m.states).1));
  }

  // ---------- the heights of the stacks ----------

  // The lists on top of the stack that hold nothing.
  function Empties(lists: seq<seq<Element>>): (n: nat)
    requires lists != []
    ensures n < |lists|
  {
    if |lists| > 1 && Top(lists) == [] then 1 + Empties(Pop(lists)) else 0
  }

  // One state is left for the message, and one for every empty list on top.
  lemma {:induction false} FlushHeight(lists: seq<seq<Element>>, states: seq<FormatState>)
    requires 0 < |lists| <= |states|
    ensures |Flush(lists, states).1| == |states| - |lists| + 1 + Empties(lists)
    decreases |lists|
  {
    hide MakeGroup;
    if |lists| == 1 {
    } else if Top(lists) == [] {
      FlushHeight(Pop(lists), states);
    } else {
      var below := Pop(lists);
      var group := MakeGroup(Finalize(Top(states)).format, Top(lists));
      FlushHeight(Pop(below) + [Top(below) + [group]], Pop(states));
    }
  }

  // How many opening brackets end the stream.
  function Trailing(toks: seq<Tok>): (n: nat)
    ensures n <= |toks|
  {
    if toks != [] && IsOpener(toks[|toks| - 1].token) then 1 + Trailing(toks[..|toks| - 1]) else 0
  }

  // Each of them leaves an empty list.
  lemma {:induction false} TrailingEmpty(toks: seq<Tok>)
    ensures Empties(Advanced(toks).lists) == Trailing(toks)
    decreases |toks|
  {
    hide Append, Update, Finalize, ClosedGroup, IsOpener;
    TopEmpty(toks);
    if toks == [] || !IsOpener(toks[|toks| - 1].token) {
    } else {
      TrailingEmpty(toks[..|toks| - 1]);
      assert Pop(Advanced(toks).lists) == Advanced(toks[..|toks| - 1]).lists;
    }
  }

  // The three stacks have the same height after every token; at the end one format state is left for the message
  // and one for every opening bracket that ends the stream.
  lemma HeightsAgree(toks: seq<Tok>)
    ensures
      var m := Advanced(toks);
      && |m.open| == |m.lists| == |m.states|
      && |Flush(m.lists, m.states).1| == 1 + Trailing(toks)
      && (|Flush(m.lists, m.states).1| == 1 <==> toks == [] || !IsOpener(toks[|toks| - 1].token))
  {
    hide Flush, Advanced, IsOpener;
    var m := Advanced(toks);
    TrailingEmpty(toks);
    FlushHeight(m.lists, m.states);
  }

  lemma StartHeight()
    ensures Advanced([]) == START
  {}
}
