// The pairs of a list are in order, use its leaves at most once and in their order, and have the
// shape their readers rely on.
module PairsProof {
  import opened Tokens
  import opened Elements
  import opened KeyScan
  import opened Pairing
  import opened Slack
  import opened Pairs

  // ---------- single pairs ----------

  lemma FitsBlankPair(e: Element)
    ensures Fits([BlankPair(e)], [e])
  {
    var s := [BlankKey(e.cb), e];
    assert Leaves(s) == Leaves([e]) by {
      LeavesOne(BlankKey(e.cb));
      LeavesConcat([BlankKey(e.cb)], [e]);
      assert s == [BlankKey(e.cb)] + [e];
    }
    LeavesOne(BlankPair(e));
    SubseqRefl(Leaves([e]));
    forall lo, hi | Laid([e], lo, hi)
      ensures Laid([BlankPair(e)], lo, hi)
    {
      assert [e][0] == e;
      assert Laid(s, lo, hi);
      MakeOk(Pair, s, lo, hi);
    }
  }

  lemma BlankValueOk(text: string, key: Element)
    requires 0 <= key.ce
    ensures Ok(BlankValue(text, key)) && Leaves([BlankValue(text, key)]) == []
    ensures BlankValue(text, key).cb == BlankValue(text, key).ce == AfterKey(text, key.ce)
  {
    var b := BlankValue(text, key);
    assert b.subs.elems[1..] == [];
    assert LeavesOf(b) == Leaves(b.subs.elems) == [];
  }

  // ---------- the pairs of a stack ----------

  // Where the pairs of the first n positions have to end.
  function Bound(s: seq<Element>, n: nat, hi: int): int
    requires n <= |s|
  {
    if 0 < n < |s| && s[n - 1].token.Key? && s[n].token.Value? then s[n].ce
    else if n < |s| then s[n].cb
    else hi
  }

  lemma KeyPairLaid(key: Element, value: Element)
    requires Ok(key) && Ok(value) && key.ce <= value.cb
    ensures Laid([Make(Pair, [key, value])], key.cb, value.ce)
  {
    var s := [key, value];
    assert Laid(s, key.cb, value.ce);
    MakeOk(Pair, s, key.cb, value.ce);
  }

  lemma PairAtLaid(text: string, s: seq<Element>, i: nat, lo: int, hi: int)
    requires i < |s| && Laid(s, lo, hi) && Room(s, hi)
    ensures Laid(PairAt(text, s, i), Bound(s, i, hi), Bound(s, i + 1, hi))
  {
    var e := s[i];
    assert Ok(e);
    if e.token.Value? {
      assert Laid([e], e.cb, e.ce);
      FitsBlankPair(e);
    } else if e.token.Key? && i + 1 < |s| {
      var v := if s[i + 1].token.Value? then s[i + 1] else BlankValue(text, e);
      BlankValueOk(text, e);
      assert Ok(v) && e.ce <= v.cb;
      KeyPairLaid(e, v);
    }
  }

  lemma {:induction false} PairsLaid(text: string, s: seq<Element>, n: nat, lo: int, hi: int)
    requires n <= |s| && Laid(s, lo, hi) && Room(s, hi)
    ensures Laid(PairsUpTo(text, s, n), lo, Bound(s, n, hi))
  {
    if n == 0 {
    } else {
      PairsLaid(text, s, n - 1, lo, hi);
      PairAtLaid(text, s, n - 1, lo, hi);
      hide Laid;
      LaidConcat(PairsUpTo(text, s, n - 1), PairAt(text, s, n - 1), lo, Bound(s, n - 1, hi), Bound(s, n, hi));
    }
  }

  // How much of the stack the pairs of the first n positions have used.
  function Used(s: seq<Element>, n: nat): (m: nat)
    requires n <= |s|
    ensures n <= m <= |s|
  {
    if 0 < n < |s| && s[n - 1].token.Key? && s[n].token.Value? then n + 1 else n
  }

  lemma PairAtLeaves(text: string, s: seq<Element>, i: nat, lo: int, hi: int)
    requires i < |s| && Laid(s, lo, hi)
    ensures Used(s, i) <= Used(s, i + 1)
    ensures Subseq(Leaves(PairAt(text, s, i)), Leaves(s[Used(s, i)..Used(s, i + 1)]))
  {
    var e := s[i];
    assert Ok(e);
    if e.token.Value? {
      FitsBlankPair(e);
      if Used(s, i) == i {
        assert s[i..i + 1] == [e];
      }
    } else if e.token.Key? && i + 1 < |s| {
      if s[i + 1].token.Value? {
        assert s[i..i + 2] == [e, s[i + 1]];
        FitsMake(Pair, [e, s[i + 1]]);
      } else {
        var b := BlankValue(text, e);
        BlankValueOk(text, e);
        assert s[i..i + 1] == [e];
        assert [e, b] == [e] + [b];
        LeavesConcat([e], [b]);
        FitsMake(Pair, [e, b]);
        assert Leaves([e]) + [] == Leaves([e]);
      }
    }
  }

  lemma UpToNothing(text: string, s: seq<Element>)
    ensures Subseq(Leaves(PairsUpTo(text, s, 0)), Leaves(s[..Used(s, 0)]))
  {}

  lemma UpToStep(text: string, s: seq<Element>, n: nat)
    requires 0 < n <= |s|
    ensures PairsUpTo(text, s, n) == PairsUpTo(text, s, n - 1) + PairAt(text, s, n - 1)
  {}

  lemma {:induction false} PairsLeaves(text: string, s: seq<Element>, n: nat, lo: int, hi: int)
    requires n <= |s| && Laid(s, lo, hi)
    ensures Subseq(Leaves(PairsUpTo(text, s, n)), Leaves(s[..Used(s, n)]))
  {
    hide *;
    if n == 0 {
      UpToNothing(text, s);
    } else {
      UpToStep(text, s, n);
      PairsLeaves(text, s, n - 1, lo, hi);
      PairAtLeaves(text, s, n - 1, lo, hi);
      var a, b := s[..Used(s, n - 1)], s[Used(s, n - 1)..Used(s, n)];
      LeavesConcat(PairsUpTo(text, s, n - 1), PairAt(text, s, n - 1));
      LeavesConcat(a, b);
      assert a + b == s[..Used(s, n)];
      SubseqConcat(Leaves(PairsUpTo(text, s, n - 1)), Leaves(a), Leaves(PairAt(text, s, n - 1)), Leaves(b));
    }
  }

  // ---------- lists that fit ----------

  lemma {:induction false} FitsValues(s: seq<Element>)
    ensures Fits(Values(s), s)
    decreases |s|
  {
    hide Fits;
    FitsNothing(s);
    if s == [] {
    } else {
      var a, x := s[..|s| - 1], [s[|s| - 1]];
      FitsValues(a);
      FitsRefl(x);
      FitsNothing(x);
      FitsConcat(Values(a), a, if x[0].token.Value? then x else [], x);
      assert s == a + x;
    }
  }

  lemma {:induction false} FitsRowPairs(free: seq<Element>)
    ensures Fits(RowPairs(free), free)
    decreases |free|
  {
    hide Fits, IsColumn;
    FitsNothing(free);
    if free == [] {
    } else {
      var a, x := free[..|free| - 1], [free[|free| - 1]];
      FitsRowPairs(a);
      FitsBlankPair(x[0]);
      FitsNothing(x);
      FitsConcat(RowPairs(a), a, if IsColumn(x[0].token) then [BlankPair(x[0])] else [], x);
      assert free == a + x;
    }
  }

  lemma FitsRowOf(depth: nat, free: seq<Element>)
    ensures Fits(RowOf(depth, free), free)
  {
    hide Fits;
    FitsRowPairs(free);
    FitsRefl(free);
  }

  // The key and the value list of a sole pair, taken apart again.
  lemma FitsPrefixed(depth: nat, pair: Element)
    requires IsPrefixed([pair]) && pair.token.Pair?
    ensures Fits([BlankPair(pair.subs.elems[0])] + RowOf(depth, pair.subs.elems[1].subs.elems), [pair])
  {
    var k, v := pair.subs.elems[0], pair.subs.elems[1];
    FitsBlankPair(k);
    FitsRowOf(depth, v.subs.elems);
    FitsTaken(v);
    FitsTaken(pair);
    hide Fits, RowOf;
    FitsTrans(RowOf(depth, v.subs.elems), v.subs.elems, [v]);
    FitsConcat([BlankPair(k)], [k], RowOf(depth, v.subs.elems), [v]);
    assert [k] + [v] == pair.subs.elems;
    FitsTrans([BlankPair(k)] + RowOf(depth, v.subs.elems), pair.subs.elems, [pair]);
  }

  lemma FitsTaken(e: Element)
    requires e.subs.List? && !e.token.Group?
    ensures Fits(e.subs.elems, [e])
  {
    LeavesOne(e);
    SubseqRefl(Leaves(e.subs.elems));
    forall lo, hi | Laid([e], lo, hi)
      ensures Laid(e.subs.elems, lo, hi)
    {
      assert [e][0] == e;
      SubsLaid(e);
      forall i | 0 <= i < |e.subs.elems|
        ensures lo <= e.subs.elems[i].cb && e.subs.elems[i].ce <= hi
      {
      }
    }
  }

  // ---------- the pairs of a list ----------

  // Every element is a pair of a key and something else.
  predicate ArePairs(s: seq<Element>)
  {
    forall i | 0 <= i < |s| ::
      && s[i].token.Pair? && s[i].subs.List? && |s[i].subs.elems| == 2
      && s[i].subs.elems[0].token.Key?
  }

  lemma {:induction false} PairsUpToShape(text: string, s: seq<Element>, n: nat)
    requires n <= |s|
    ensures ArePairs(PairsUpTo(text, s, n))
  {
    if n == 0 {
    } else {
      PairsUpToShape(text, s, n - 1);
    }
  }

  // In order between lo and hi, with leaves taken from inp.
  ghost predicate Sound(out: seq<Element>, inp: seq<Element>, lo: int, hi: int)
  {
    Laid(out, lo, hi) && Subseq(Leaves(out), Leaves(inp))
  }

  lemma SoundFits(out: seq<Element>, mid: seq<Element>, inp: seq<Element>, lo: int, hi: int)
    requires Fits(out, mid) && Sound(mid, inp, lo, hi)
    ensures Sound(out, inp, lo, hi)
  {
    SubseqTrans(Leaves(out), Leaves(mid), Leaves(inp));
  }

  lemma PairsOfSound(text: string, s: seq<Element>, lo: int, hi: int)
    requires Laid(s, lo, hi) && Room(s, hi)
    ensures Sound(PairsOf(text, s), s, lo, hi)
  {
    PairsLaid(text, s, |s|, lo, hi);
    PairsLeaves(text, s, |s|, lo, hi);
    assert s[..|s|] == s;
    hide Leaves, PairsUpTo;
  }

  // The free elements, when no key has started a pair.
  lemma FitsLoose(s: seq<Element>, free: seq<Element>)
    requires s == [] || free == []
    ensures Fits(free + FreeOf(s), s + free)
  {
    hide Fits;
    FitsRefl(free);
    FitsNothing(s);
    FitsValues(s);
    if s == [] {
      FitsConcat(free, free, FreeOf(s), s);
      assert free + s == s + free;
    } else {
      assert free + FreeOf(s) == FreeOf(s) && s + free == s;
    }
  }

  lemma GatherSound(text: string, depth: nat, s: seq<Element>, free: seq<Element>, lo: int, hi: int)
    requires Laid(s, lo, hi) && Room(s, hi) && Laid(free, lo, hi)
    requires s == [] || free == []
    ensures Sound(Gather(text, depth, s, free), s + free, lo, hi)
  {
    hide Fits, PairsOf, FreeOf, RowOf, Laid, Leaves, Subseq, Room;
    var pairs := PairsOf(text, s);
    var loose := free + FreeOf(s);
    PairsOfSound(text, s, lo, hi);
    PairsOfNothing(text, s);
    if IsPrefixed(pairs) {
      assert pairs == [pairs[0]] && s + free == s;
      FitsPrefixed(depth, pairs[0]);
      SoundFits(Gather(text, depth, s, free), pairs, s, lo, hi);
    } else if pairs == [] {
      FitsRowOf(depth, loose);
      FitsLoose(s, free);
      FitsTrans(RowOf(depth, loose), loose, s + free);
      assert s + free == s || s + free == free;
      FitsSound(RowOf(depth, loose), s + free, lo, hi);
    } else {
      assert s + free == s;
    }
  }

  lemma PairsOfNothing(text: string, s: seq<Element>)
    ensures ArePairs(PairsOf(text, s))
    ensures PairsOf(text, s) != [] ==> s != []
  {
    PairsUpToShape(text, s, |s|);
  }

  lemma FitsSound(out: seq<Element>, inp: seq<Element>, lo: int, hi: int)
    requires Fits(out, inp) && Laid(inp, lo, hi)
    ensures Sound(out, inp, lo, hi)
  {}

  // ---------- the loop ----------

  function End(list: seq<Element>, lo: int): int
  {
    if list == [] then lo else list[|list| - 1].ce
  }

  lemma {:induction false} RunInv(fmt: Format, list: seq<Element>, lo: int, hi: int)
    requires FormatOk(fmt) && FairlyLaid(list, lo, hi) && AllRaw(list)
    ensures Inv(Run(fmt, list), lo, End(list, lo)) && lo <= End(list, lo) <= hi
    ensures Subseq(Leaves(Run(fmt, list).stack + Run(fmt, list).comps), Leaves(list))
    decreases |list|
  {
    if list != [] {
      var a, e := list[..|list| - 1], list[|list| - 1];
      assert list == a + [e];
      hide Laid, FairlyLaid, Step, Fits, Subseq, Leaves, Fair, Ok, Copy;
      FairSplit(a, e, lo, hi);
      RawSplit(a, e);
      RunInv(fmt, a, lo, e.cb);
      var st := Run(fmt, a);
      CopyLaid(e, End(a, lo));
      StepInv(st, Copy(e), lo, End(a, lo));
      InvUp(Step(st, Copy(e)), lo, Copy(e).ce, e.ce);
      StepLeaves(st, e, a);
    } else {
      assert Run(fmt, list).stack + Run(fmt, list).comps == [];
    }
  }

  lemma RawSplit(a: seq<Element>, e: Element)
    requires AllRaw(a + [e])
    ensures AllRaw(a) && IsRaw(e.token)
  {
    assert (a + [e])[|a|] == e;
    assert forall i | 0 <= i < |a| :: a[i] == (a + [e])[i];
  }

  lemma CopyLaid(e: Element, p: int)
    requires Fair(e) && p <= e.cb
    ensures Laid([Copy(e)], p, Copy(e).ce) && Copy(e).token == e.token && Copy(e).ce <= e.ce
  {
    CopyFair(e);
  }

  lemma InvUp(st: State, lo: int, p: int, q: int)
    requires Inv(st, lo, p) && p <= q
    ensures Inv(st, lo, q)
  {}

  lemma StepLeaves(st: State, e: Element, list: seq<Element>)
    requires !st.fmt.prefixTerminator.Invalid? ==> st.comps == []
    requires Subseq(Leaves(st.stack + st.comps), Leaves(list))
    ensures
      var st' := Step(st, Copy(e));
      Subseq(Leaves(st'.stack + st'.comps), Leaves(list + [e]))
  {
    var c := Copy(e);
    FitsStep(st, c);
    LeavesOne(e);
    LeavesOne(c);
    hide Step, Leaves;
    var all := st.stack + st.comps;
    LeavesConcat(all, [c]);
    LeavesConcat(list, [e]);
    SubseqRefl(Leaves([e]));
    SubseqConcat(Leaves(all), Leaves(list), Leaves([e]), Leaves([e]));
    SubseqTrans(Leaves(Step(st, c).stack + Step(st, c).comps), Leaves(all + [c]), Leaves(list + [e]));
  }

  lemma CollectSound(text: string, depth: nat, fmt: Format, list: seq<Element>, lo: int, hi: int)
    requires FormatOk(fmt) && FairlyLaid(list, lo, hi) && AllRaw(list)
    ensures Sound(Collect(text, depth, fmt, list), list, lo, hi)
  {
    RunInv(fmt, list, lo, hi);
    var st := Run(fmt, list);
    var all := st.stack + st.comps;
    LaidUp(all, lo, End(list, lo), hi);
    if depth < 1 && st.stack == [] {
      assert all == st.comps;
      hide Laid, Fits, Subseq, Leaves, Gather, Run;
      EmptyLaid(lo, hi);
      GatherSound(text, depth, [], st.comps, lo, hi);
      assert [] + st.comps == st.comps;
      SoundTrans(Gather(text, depth, [], st.comps), st.comps, list, lo, hi);
    } else {
      hide Laid, Fits, Subseq, Leaves, Gather, Run;
      var s := AtEnd(st.fmt, st.stack, st.comps);
      RoomUp(st.stack, Start(st.comps, End(list, lo)), Start(st.comps, hi));
      AtEndRoom(st.fmt, st.stack, st.comps, lo, hi);
      FitsAtEnd(st.fmt, st.stack, st.comps);
      SoundFits(s, all, list, lo, hi);
      EmptyLaid(lo, hi);
      GatherSound(text, depth, s, [], lo, hi);
      assert s + [] == s;
      SoundTrans(Gather(text, depth, s, []), s, list, lo, hi);
    }
  }

  lemma EmptyLaid(lo: int, hi: int)
    requires lo <= hi
    ensures Laid([], lo, hi)
  {}

  lemma SoundTrans(out: seq<Element>, mid: seq<Element>, inp: seq<Element>, lo: int, hi: int)
    requires Sound(out, mid, lo, hi) && Subseq(Leaves(mid), Leaves(inp))
    ensures Sound(out, inp, lo, hi)
  {
    SubseqTrans(Leaves(out), Leaves(mid), Leaves(inp));
  }

  // The same for elements that are only fair.
  ghost predicate FairlySound(out: seq<Element>, inp: seq<Element>, lo: int, hi: int)
  {
    FairlyLaid(out, lo, hi) && Subseq(Leaves(out), Leaves(inp))
  }

  lemma FairlySoundPush(out: seq<Element>, inp: seq<Element>, e': Element, e: Element, lo: int, hi: int)
    requires FairlySound(out, inp, lo, e.cb)
    requires Fair(e') && e.cb <= e'.cb && e'.ce <= e.ce <= hi && Subseq(LeavesOf(e'), LeavesOf(e))
    ensures FairlySound(out + [e'], inp + [e], lo, hi)
  {
    LeavesOne(e);
    LeavesOne(e');
    LeavesConcat(out, [e']);
    LeavesConcat(inp, [e]);
    SubseqConcat(Leaves(out), Leaves(inp), Leaves([e']), Leaves([e]));
    hide Leaves, LeavesOf, Subseq;
    FairPush(out, e', lo, hi);
  }

  lemma GuttedFair(e: Element)
    requires Fair(e)
    ensures Fair(Gutted(e)) && Subseq(LeavesOf(Gutted(e)), LeavesOf(e))
  {
    SubseqRefl(LeavesOf(e));
  }

  lemma {:induction false} LeftoverSound(fmt: Format, list: seq<Element>, lo: int, hi: int)
    requires FairlyLaid(list, lo, hi)
    ensures FairlySound(Leftover(fmt, list), list, lo, hi)
    decreases |list|
  {
    if list == [] {
    } else {
      var a, e := list[..|list| - 1], list[|list| - 1];
      assert list == a + [e];
      FairSplit(a, e, lo, hi);
      LeftoverSound(fmt, a, lo, e.cb);
      GuttedFair(e);
      SubseqRefl(LeavesOf(e));
      var e' := if Moves(Run(fmt, a), Copy(e)) then Gutted(e) else e;
      hide FairlySound, Moves, Run, Fair, LeavesOf, Subseq;
      FairlySoundPush(Leftover(fmt, a), a, e', e, lo, hi);
    }
  }

  // ---------- groups ----------

  // A list as the tokenizer and the structure discovery leave it: every group has a list of its own, in
  // a named format.
  ghost predicate IsInput(e: Element)
  {
    && IsRaw(e.token)
    && (e.token.Group? ==>
          e.subs.List? && FormatOk(e.subs.format) && forall i | 0 <= i < |e.subs.elems| :: IsInput(e.subs.elems[i]))
  }

  ghost predicate AreInput(s: seq<Element>)
  {
    forall i | 0 <= i < |s| :: IsInput(s[i])
  }

  lemma {:induction false} PairupSound(text: string, depth: nat, fmt: Format, list: seq<Element>, lo: int, hi: int)
    requires FormatOk(fmt) && FairlyLaid(list, lo, hi) && AreInput(list)
    ensures
      var r := Pairup(text, depth, fmt, list);
      Sound(r.pairs, list, lo, hi) && FairlySound(r.left, list, lo, hi)
    decreases list, 1
  {
    var r := Pairup(text, depth, fmt, list);
    var paired := PairedAll(text, depth, list);
    PairedAllSound(text, depth, list, lo, hi);
    CollectSound(text, depth, fmt, paired, lo, hi);
    LeftoverSound(fmt, paired, lo, hi);
    SubseqTrans(Leaves(r.left), Leaves(paired), Leaves(list));
    hide Fits, Laid, Leaves, Subseq, Collect, Leftover, PairedAll, Run;
    var pairs := Collect(text, depth, fmt, paired);
    FitsRefl(pairs);
    if |pairs| > MAX_PAIRS {
      FitsSlice(pairs, 0, MAX_PAIRS);
      assert pairs[0..MAX_PAIRS] == pairs[..MAX_PAIRS];
    }
    SoundFits(r.pairs, pairs, paired, lo, hi);
    SoundTrans(r.pairs, paired, list, lo, hi);
  }

  lemma {:induction false} PairedAllSound(text: string, depth: nat, list: seq<Element>, lo: int, hi: int)
    requires FairlyLaid(list, lo, hi) && AreInput(list)
    ensures FairlySound(PairedAll(text, depth, list), list, lo, hi) && AllRaw(PairedAll(text, depth, list))
    decreases list, 0
  {
    hide FairlyLaid, Paired, Fair;
    if list == [] {
    } else {
      var a, e := list[..|list| - 1], list[|list| - 1];
      assert list == a + [e];
      FairSplit(a, e, lo, hi);
      PairedAllSound(text, depth, a, lo, e.cb);
      PairedSound(text, depth, e);
      hide Leaves, LeavesOf, Subseq, FairlySound;
      FairlySoundPush(PairedAll(text, depth, a), a, Paired(text, depth, e), e, lo, hi);
    }
  }

  lemma {:induction false} PairedSound(text: string, depth: nat, e: Element)
    requires Fair(e) && IsInput(e)
    ensures
      var e' := Paired(text, depth, e);
      && Fair(e') && e'.token == e.token && e.cb <= e'.cb && e'.ce <= e.ce
      && Subseq(LeavesOf(e'), LeavesOf(e))
    decreases e, 0
  {
    SubseqRefl(LeavesOf(e));
    if e.token.Group? {
      SubsFair(e);
      PairupSound(text, depth + 1, e.subs.format, e.subs.elems, e.cb, e.ce);
      var r := Pairup(text, depth + 1, e.subs.format, e.subs.elems);
      LaidIsFair(r.pairs, e.cb, e.ce);
      assert FairlyLaid(r.left, e.cb, e.ce);
      hide Subseq, Pairup, Fair, FairlyLaid, Laid;
      GroupFair(e, r.fmt, r.pairs);
      GroupFair(e, r.fmt, r.left);
    }
  }

  // ---------- the shape of the top-level pairs ----------

  lemma {:induction false} RowPairsShape(free: seq<Element>)
    ensures ArePairs(RowPairs(free))
    decreases |free|
  {
    hide IsColumn;
    if free == [] {
    } else {
      RowPairsShape(free[..|free| - 1]);
    }
  }

  lemma CollectShape(text: string, fmt: Format, list: seq<Element>)
    ensures ArePairs(Collect(text, 0, fmt, list))
  {
    hide Gather, AtEnd, Run;
    var st := Run(fmt, list);
    GatherShape(text, [], st.comps);
    GatherShape(text, AtEnd(st.fmt, st.stack, st.comps), []);
  }

  // At the top level every result is a pair of a key and one other element, and there are at most a
  // thousand of them.
  lemma PairupShape(text: string, fmt: Format, list: seq<Element>)
    ensures
      var r := Pairup(text, 0, fmt, list);
      ArePairs(r.pairs) && |r.pairs| <= MAX_PAIRS
  {
    hide Collect, Run, PairedAll, Leftover;
    CollectShape(text, fmt, PairedAll(text, 0, list));
  }

  lemma GatherShape(text: string, s: seq<Element>, free: seq<Element>)
    ensures ArePairs(Gather(text, 0, s, free))
  {
    PairsOfNothing(text, s);
    RowPairsShape(free + FreeOf(s));
    var pairs := PairsOf(text, s);
    if IsPrefixed(pairs) {
      RowPairsShape(pairs[0].subs.elems[1].subs.elems);
    }
    hide RowPairs, PairsOf, FreeOf;
  }
}
