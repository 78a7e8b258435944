// Units in the tree that is discovered: each is joined with what stands before it, at whatever depth.
module Units {
  import opened Tokens
  import opened Elements
  import opened Dfs
  import opened Discover
  import opened DiscoverProof

  // No unit stands on its own, here or in any group or measurement inside; a measurement is made of two elements, the
  // second of which is a unit, and nothing else but a group has elements.
  ghost predicate Joined(e: Element)
    decreases e, 0
  {
    match e.token
    case Unit => false
    case Measurement =>
      && e.subs.List? && |e.subs.elems| == 2 && e.subs.elems[1].token.Unit? && e.subs.elems[1].subs.Null?
      && e.cb == e.subs.elems[0].cb && e.ce == e.subs.elems[1].ce
      && Joined(e.subs.elems[0])
    case Group => e.subs.List? && AllJoined(e.subs.elems)
    case _ => e.subs.Null?
  }

  ghost predicate AllJoined(s: seq<Element>)
    decreases s, 1
  {
    forall i | 0 <= i < |s| :: Joined(s[i])
  }

  lemma LeafJoined(t: Tok)
    requires IsTerminal(t.token) && !t.token.Unit?
    ensures Joined(Leaf(t))
  {}

  lemma GroupJoined(format: Format, elems: seq<Element>, closer: Tok)
    requires AllJoined(elems)
    ensures Joined(ClosedGroup(format, elems, closer)) && (elems != [] ==> Joined(MakeGroup(format, elems)))
  {}

  lemma EmptyJoined(format: Format, at: int)
    ensures Joined(EmptyGroup(format, at))
  {}

  lemma UnitJoined(e: Element, t: Tok)
    requires Joined(e) && t.token.Unit?
    ensures Joined(Make(Measurement, [e, Leaf(t)]))
  {}

  lemma AppendJoined(elems: seq<Element>, t: Tok)
    requires AllJoined(elems) && IsTerminal(t.token) && (t.token.Unit? ==> elems != [])
    ensures AllJoined(Append(elems, t))
  {
    hide Joined, IsTerminal, FormatOf, Make;
    if t.token.EmptyContainer? {
      EmptyJoined(FormatOf([]), t.cb + 1);
    } else if t.token.Unit? {
      UnitJoined(elems[|elems| - 1], t);
    } else {
      LeafJoined(t);
    }
  }

  ghost predicate ListsJoined(lists: seq<seq<Element>>)
  {
    forall i | 0 <= i < |lists| :: AllJoined(lists[i])
  }

  lemma AdvanceJoined(m: Machine, t: Tok)
    requires Level(m) && Level(Advance(m, t)) && ListsJoined(m.lists)
    requires IsTerminal(t.token) && (t.token.Unit? ==> Top(m.lists) != [])
    ensures ListsJoined(Advance(m, t).lists)
  {
    hide Joined, IsTerminal, Append, ClosedGroup, Update, Finalize;
    if IsOpener(t.token) {
    } else if Closes(Top(m.open), t.token) {
      GroupJoined(Finalize(Update(Top(m.states), t.token)).format, Top(m.lists), t);
    } else {
      AppendJoined(Top(m.lists), t);
    }
  }

  lemma {:induction false} AdvancedJoined(toks: seq<Tok>, lo: int, hi: int)
    requires TokensOk(toks, lo, hi)
    ensures ListsJoined(Advanced(toks).lists)
    decreases |toks|
  {
    hide Joined, Advance, TokensOk, TokOk, IsOpener;
    if toks == [] {
      NothingJoined();
    } else {
      var before, t := toks[..|toks| - 1], toks[|toks| - 1];
      TokensSplit(toks, lo, hi);
      TokTerminal(t, LastEnd(before, lo));
      AdvancedJoined(before, lo, hi);
      TopEmpty(before);
      AdvanceJoined(Advanced(before), t);
    }
  }

  lemma TokTerminal(t: Tok, p: int)
    requires TokOk(t, p)
    ensures IsTerminal(t.token)
  {
    hide IsTerminal;
  }

  lemma NothingJoined()
    ensures ListsJoined(Advanced([]).lists)
  {}

  lemma {:induction false} FlushJoined(lists: seq<seq<Element>>, states: seq<FormatState>)
    requires 0 < |lists| <= |states| && ListsJoined(lists)
    ensures AllJoined(Flush(lists, states).0)
    decreases |lists|
  {
    hide Joined, MakeGroup, Finalize;
    if |lists| == 1 {
    } else if Top(lists) == [] {
      FlushJoined(Pop(lists), states);
    } else {
      var below, format := Pop(lists), Finalize(Top(states)).format;
      GroupJoined(format, Top(lists), Tok(Invalid, 0, 0));
      FlushJoined(Pop(below) + [Top(below) + [MakeGroup(format, Top(lists))]], Pop(states));
    }
  }

  // In what is discovered no unit stands on its own, and every measurement is made of one element and a unit.
  lemma DiscoveredJoined(toks: seq<Tok>, lo: int, hi: int)
    requires TokensOk(toks, lo, hi)
    ensures AllJoined(Discovered(toks).elems) && Tree(Discovered(toks).elems) == Kept(toks)
  {
    hide Joined, Kept, Tree, Advanced, Flush, TokensOk;
    AdvancedJoined(toks, lo, hi);
    FlushJoined(Advanced(toks).lists, Advanced(toks).states);
    DiscoveredHolds(toks, lo, hi);
  }

  // That element is what stood last in the list the unit came to, be it a token, a group or another measurement; all
  // other lists stay as they are.
  lemma UnitJoinsLast(toks: seq<Tok>, lo: int, hi: int)
    requires TokensOk(toks, lo, hi) && toks != [] && toks[|toks| - 1].token.Unit?
    ensures
      var t, lists, lists' := toks[|toks| - 1], Advanced(toks[..|toks| - 1]).lists, Advanced(toks).lists;
      var n := |lists| - 1;
      && |lists'| == |lists| && lists'[..n] == lists[..n]
      && lists[n] != [] && |lists'[n]| == |lists[n]| && lists'[n][..|lists[n]| - 1] == lists[n][..|lists[n]| - 1]
      && var last := lists[n][|lists[n]| - 1];
      lists'[n][|lists[n]| - 1] == Element(Measurement, last.cb, t.ce, List(DEFAULT_FORMAT, [last, Leaf(t)]))
  {
    hide *;
    var before, t := toks[..|toks| - 1], toks[|toks| - 1];
    UnitFollows(toks, lo, hi);
    AdvanceUnit(Advanced(before), t);
  }

  lemma UnitFollows(toks: seq<Tok>, lo: int, hi: int)
    requires TokensOk(toks, lo, hi) && toks != [] && toks[|toks| - 1].token.Unit?
    ensures
      var before := toks[..|toks| - 1];
      Advanced(toks) == Advance(Advanced(before), toks[|toks| - 1]) && Top(Advanced(before).lists) != []
  {
    TokensSplit(toks, lo, hi);
    TopEmpty(toks[..|toks| - 1]);
    hide TokensOk, Advance, Top;
  }

  lemma AdvanceUnit(m: Machine, t: Tok)
    requires Level(m) && t.token.Unit? && Top(m.lists) != []
    ensures
      var lists, lists' := m.lists, Advance(m, t).lists;
      var n := |lists| - 1;
      && |lists'| == |lists| && lists'[..n] == lists[..n]
      && lists[n] != [] && |lists'[n]| == |lists[n]| && lists'[n][..|lists[n]| - 1] == lists[n][..|lists[n]| - 1]
      && var last := lists[n][|lists[n]| - 1];
      lists'[n][|lists[n]| - 1] == Element(Measurement, last.cb, t.ce, List(DEFAULT_FORMAT, [last, Leaf(t)]))
  {
    hide Update;
  }
}
