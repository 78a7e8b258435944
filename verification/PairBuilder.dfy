// The second half of the pairing method: the loop that turns the stack into pairs, the row of free
// elements, and the method as a whole.
module PairBuilder {
  import opened Tokens
  import opened Elements
  import opened KeyScan
  import opened Pairing
  import opened Slack
  import opened Pairs
  import opened PairsProof
  import opened Pairer

  // An element with an empty key in front of it.
  method MakeBlankPair(e: Element) returns (pair: Element)
    requires Ok(e)
    ensures pair == BlankPair(e)
  {
    CopyOk(e);
    var subs := PushBack([], BlankKey(e.cb));
    subs := PushBack(subs, e);
    assert subs == [BlankKey(e.cb), e];
    pair := Make(Pair, subs);
  }

  // ---------- the stack ----------

  // A key with something behind it among the first n positions.
  ghost predicate Keyed(s: seq<Element>, n: nat)
  {
    exists i :: 0 <= i < n && i < |s| - 1 && s[i].token.Key?
  }

  // The blank pairs of the values met so far, as long as no key has started a pair.
  lemma {:induction false} ValuePairs(text: string, s: seq<Element>, n: nat)
    requires n <= |s| && !Keyed(s, n)
    ensures |PairsUpTo(text, s, n)| == |Values(s[..n])|
    ensures forall i | 0 <= i < |Values(s[..n])| :: PairsUpTo(text, s, n)[i] == BlankPair(Values(s[..n])[i])
  {
    if n == 0 {
    } else {
      assert forall i | 0 <= i < n - 1 && i < |s| - 1 :: !s[i].token.Key?;
      ValuePairs(text, s, n - 1);
      assert s[..n][..n - 1] == s[..n - 1];
    }
  }

  // The state of the loop after the first n positions.
  ghost predicate Built(text: string, s: seq<Element>, n: nat, pairs: seq<Element>, free: seq<Element>)
  {
    && n <= |s|
    && (0 < n < |s| && s[n - 1].token.Key? ==> !s[n].token.Value?)
    && (if Keyed(s, n) then pairs == PairsUpTo(text, s, n) && pairs != [] && free == []
        else pairs == [] && free == Values(s[..n]))
  }

  method FlushFree(
      text: string, ghost s: seq<Element>, ghost n: nat, pairsOut: seq<Element>, free: seq<Element>,
      ghost lo: int, ghost hi: int)
    returns (pairs: seq<Element>)
    requires n <= |s| && !Keyed(s, n) && free == Values(s[..n]) && pairsOut == []
    requires Laid(s, lo, hi) && Room(s, hi)
    ensures pairs == PairsUpTo(text, s, n)
  {
    hide Values, PairsUpTo, Laid, Ok, Room, Keyed, BlankPair;
    ghost var all := PairsUpTo(text, s, n);
    ValuePairs(text, s, n);
    pairs := pairsOut;
    var freeRow := free;
    while freeRow != []
      invariant |freeRow| <= |free| && freeRow == free[|free| - |freeRow|..]
      invariant pairs == all[..|free| - |freeRow|]
    {
      FlushPush(text, s, n, |pairs|, lo, hi);
      var pair := MakeBlankPair(freeRow[0]);
      pairs := PushBack(pairs, pair);
      freeRow := freeRow[1..];
    }
  }

  lemma FlushPush(text: string, s: seq<Element>, n: nat, i: nat, lo: int, hi: int)
    requires n <= |s| && !Keyed(s, n) && i < |Values(s[..n])| && Laid(s, lo, hi) && Room(s, hi)
    ensures |PairsUpTo(text, s, n)| == |Values(s[..n])|
    ensures
      var all, e := PairsUpTo(text, s, n), Values(s[..n])[i];
      Ok(e) && PushOk(all[..i], BlankPair(e)) && all[..i + 1] == all[..i] + [Copy(BlankPair(e))]
  {
    ValuePairs(text, s, n);
    PairsLaid(text, s, n, lo, hi);
    ValuesLaid(s, n, lo, hi);
    hide Values, PairsUpTo, Laid, Ok, Room, Keyed, BlankPair;
    var all, e := PairsUpTo(text, s, n), Values(s[..n])[i];
    LaidAt(Values(s[..n]), i, lo, hi);
    assert all[..i + 1] == all[..i] + [BlankPair(e)];
    LaidTake(all, i + 1, lo, Bound(s, n, hi));
    LaidPush(all[..i], BlankPair(e), lo, Bound(s, n, hi));
  }

  lemma LaidAt(s: seq<Element>, i: nat, lo: int, hi: int)
    requires Laid(s, lo, hi) && i < |s|
    ensures Ok(s[i]) && lo <= s[i].cb && s[i].ce <= hi
  {}

  lemma LaidTake(s: seq<Element>, n: nat, lo: int, hi: int)
    requires Laid(s, lo, hi) && n <= |s|
    ensures Laid(s[..n], lo, hi)
  {}

  lemma ValuesLaid(s: seq<Element>, n: nat, lo: int, hi: int)
    requires Laid(s, lo, hi) && n <= |s|
    ensures Laid(Values(s[..n]), lo, hi)
  {
    FitsValues(s[..n]);
    LaidTake(s, n, lo, hi);
  }

  // Pushing the pair of the next position is in order.
  lemma PairPush(text: string, s: seq<Element>, n: nat, pair: Element, lo: int, hi: int)
    requires n < |s| && Laid(s, lo, hi) && Room(s, hi) && PairAt(text, s, n) == [pair]
    ensures PushOk(PairsUpTo(text, s, n), pair) && Copy(pair) == pair
    ensures PairsUpTo(text, s, n + 1) == PairsUpTo(text, s, n) + [pair]
  {
    PairsLaid(text, s, n + 1, lo, hi);
    hide Laid, Room, PairAt;
    LaidPush(PairsUpTo(text, s, n), pair, lo, Bound(s, n + 1, hi));
  }

  // The value given to a key: the next element, or an empty value just behind the key.
  method MakePair(text: string, key: Element, next: Element) returns (pair: Element, hasValue: bool)
    requires Ok(key) && Ok(next) && key.ce <= next.cb
    ensures hasValue == (next.token.Value?)
    ensures pair == Make(Pair, [key, if hasValue then next else BlankValue(text, key)])
  {
    assert 0 <= key.ce;
    hide Ok;
    var subs := [key];
    hasValue := next.token.Value?;
    if hasValue {
      subs := subs + [next];
      assert subs == [key, next];
    } else {
      var at := key.ce;
      if 0 <= at < |text| && (text[at] == '=' || text[at] == ':') {
        at := at + 1;
      }
      var blankValue := PushBack([], Element(QuotedString, at, at, Null));
      assert blankValue == BlankValue(text, key).subs.elems;
      subs := PushBack(subs, Make(Value, blankValue));
      assert subs[1] == BlankValue(text, key) && subs == [key, subs[1]];
    }
    pair := Make(Pair, subs);
  }

  lemma BuiltPlain(text: string, s: seq<Element>, n: nat, pairs: seq<Element>, free: seq<Element>)
    requires n < |s| && Built(text, s, n, pairs, free)
    requires s[n].token.Key? ==> n == |s| - 1
    ensures
      var isValue := s[n].token.Value?;
      if pairs == [] then Built(text, s, n + 1, pairs, if isValue then free + [s[n]] else free)
      else Built(text, s, n + 1, if isValue then pairs + [BlankPair(s[n])] else pairs, free)
  {
    hide BlankPair;
    assert Keyed(s, n + 1) == Keyed(s, n) by {
      if Keyed(s, n) {
        var i :| 0 <= i < n && i < |s| - 1 && s[i].token.Key?;
        assert 0 <= i < n + 1;
      }
    }
    assert s[..n + 1][..n] == s[..n];
    assert free + [] == free && pairs + [] == pairs;
  }

  lemma BuiltKey(text: string, s: seq<Element>, n: nat)
    requires n < |s| - 1 && s[n].token.Key?
    ensures
      var m := if s[n + 1].token.Value? then n + 2 else n + 1;
      Built(text, s, m, PairsUpTo(text, s, n + 1), [])
  {
    hide BlankPair, BlankValue;
    assert Keyed(s, n + 1);
    if s[n + 1].token.Value? {
      assert Keyed(s, n + 2);
      assert PairAt(text, s, n + 1) == [];
      assert PairsUpTo(text, s, n + 2) == PairsUpTo(text, s, n + 1) + [];
    }
  }

  lemma BuiltAll(text: string, s: seq<Element>, pairs: seq<Element>, free: seq<Element>)
    requires Built(text, s, |s|, pairs, free)
    ensures pairs == PairsOf(text, s) && free == FreeOf(s)
  {
    assert s[..|s|] == s;
    assert Keyed(s, |s|) == HasPair(s);
  }

  lemma BuiltNothing(text: string, s: seq<Element>)
    requires s != []
    ensures Built(text, s, 0, [], [])
  {}

  // What the loop finds at a key: free elements only when no pair has been made.
  lemma BuiltReady(text: string, s: seq<Element>, n: nat, pairs: seq<Element>, free: seq<Element>)
    requires Built(text, s, n, pairs, free)
    ensures free != [] ==> pairs == [] && !Keyed(s, n) && free == Values(s[..n])
    ensures free == [] ==> pairs == PairsUpTo(text, s, n)
  {
    if !Keyed(s, n) {
      ValuePairs(text, s, n);
    }
  }

  lemma FreePush(text: string, s: seq<Element>, n: nat, free: seq<Element>, lo: int, hi: int)
    requires n < |s| && Built(text, s, n, [], free) && s[n].token.Value? && Laid(s, lo, hi)
    ensures PushOk(free, s[n]) && Copy(s[n]) == s[n]
  {
    assert s[..n + 1][..n] == s[..n];
    assert Values(s[..n + 1]) == free + [s[n]];
    ValuesLaid(s, n + 1, lo, hi);
    LaidPush(free, s[n], lo, hi);
  }

  lemma ValuePush(text: string, s: seq<Element>, n: nat, pairs: seq<Element>, free: seq<Element>, lo: int, hi: int)
    requires n < |s| && Built(text, s, n, pairs, free) && pairs != [] && s[n].token.Value?
    requires Laid(s, lo, hi) && Room(s, hi)
    ensures PushOk(pairs, BlankPair(s[n])) && Copy(BlankPair(s[n])) == BlankPair(s[n])
  {
    PairPush(text, s, n, BlankPair(s[n]), lo, hi);
  }

  lemma LaidPair(s: seq<Element>, n: nat, lo: int, hi: int)
    requires Laid(s, lo, hi) && n + 1 < |s|
    ensures Ok(s[n]) && Ok(s[n + 1]) && s[n].ce <= s[n + 1].cb
  {}

  // The key at the front makes a pair with what is behind it, after the values that were free so far.
  method PairKey(
      text: string, ghost stack: seq<Element>, ghost n: nat, elements: seq<Element>, pairs: seq<Element>,
      free: seq<Element>,
      ghost lo: int, ghost hi: int)
    returns (elStack: seq<Element>, pairsOut: seq<Element>, freeRow: seq<Element>, ghost m: nat)
    requires Laid(stack, lo, hi) && Room(stack, hi)
    requires n < |stack| - 1 && stack[n].token.Key? && elements == stack[n..] && Built(text, stack, n, pairs, free)
    ensures n < m <= |stack| && elStack == stack[m..] && Built(text, stack, m, pairsOut, freeRow)
  {
    hide Laid, Room, Values, PairsUpTo, Built, Ok, Keyed, BlankPair, BlankValue;
    elStack, pairsOut, freeRow := elements, pairs, free;
    BuiltReady(text, stack, n, pairsOut, freeRow);
    if freeRow != [] {
      pairsOut := FlushFree(text, stack, n, pairsOut, freeRow, lo, hi);
      freeRow := [];
    }
    LaidPair(stack, n, lo, hi);
    var pair, hasValue := MakePair(text, elStack[0], elStack[1]);
    PairPush(text, stack, n, pair, lo, hi);
    BuiltKey(text, stack, n);
    pairsOut := PushBack(pairsOut, pair);
    if hasValue {
      elStack, m := elStack[2..], n + 2;
    } else {
      elStack, m := elStack[1..], n + 1;
    }
  }

  // The stack, from the front.
  method BuildPairs(text: string, stack: seq<Element>, freeElements: seq<Element>, ghost lo: int, ghost hi: int)
    returns (pairsOut: seq<Element>, freeRow: seq<Element>)
    requires Laid(stack, lo, hi) && Room(stack, hi)
    requires stack == [] || freeElements == []
    ensures pairsOut == PairsOf(text, stack) && freeRow == freeElements + FreeOf(stack)
  {
    hide Laid, Room, Values, PairsUpTo, Built, Ok, PairsOf, FreeOf, Keyed, BlankPair, BlankValue;
    var elStack := stack;
    pairsOut, freeRow := [], freeElements;
    ghost var n := 0;
    if stack == [] {
      NothingBuilt(text);
      assert freeElements + [] == freeElements;
    } else {
      BuiltNothing(text, stack);
    }
    while elStack != []
      invariant 0 <= n <= |stack| && elStack == stack[n..]
      invariant stack != [] ==> Built(text, stack, n, pairsOut, freeRow)
      invariant stack == [] ==> pairsOut == [] && freeRow == freeElements
      decreases |elStack|
    {
      LaidAt(stack, n, lo, hi);
      var front := elStack[0];
      if !front.token.Key? || |elStack| == 1 {
        BuiltPlain(text, stack, n, pairsOut, freeRow);
      }
      if front.token.Value? {
        if pairsOut == [] {
          FreePush(text, stack, n, freeRow, lo, hi);
          freeRow := PushBack(freeRow, front);
        } else {
          var pair := MakeBlankPair(front);
          ValuePush(text, stack, n, pairsOut, freeRow, lo, hi);
          pairsOut := PushBack(pairsOut, pair);
        }
      }
      if !front.token.Key? || |elStack| == 1 {
        elStack := elStack[1..];
        n := n + 1;
      } else {
        elStack, pairsOut, freeRow, n := PairKey(text, stack, n, elStack, pairsOut, freeRow, lo, hi);
      }
    }
    if stack != [] {
      BuiltAll(text, stack, pairsOut, freeRow);
      assert freeElements + FreeOf(stack) == FreeOf(stack);
    }
  }

  lemma NothingBuilt(text: string)
    ensures PairsOf(text, []) == [] && FreeOf([]) == []
  {}

  // ---------- the row of free elements ----------

  method BuildRow(freeElements: seq<Element>, ghost lo: int, ghost hi: int) returns (pairsOut: seq<Element>)
    requires Laid(freeElements, lo, hi)
    ensures pairsOut == RowPairs(freeElements)
  {
    hide Laid, IsColumn, Ok, BlankPair;
    pairsOut := [];
    var i := 0;
    while i < |freeElements|
      invariant 0 <= i <= |freeElements| && pairsOut == RowPairs(freeElements[..i])
    {
      assert freeElements[..i + 1][..i] == freeElements[..i];
      if IsColumn(freeElements[i].token) {
        LaidAt(freeElements, i, lo, hi);
        RowPush(freeElements, i, lo, hi);
        var pair := MakeBlankPair(freeElements[i]);
        pairsOut := PushBack(pairsOut, pair);
      }
      i := i + 1;
    }
    assert freeElements[..i] == freeElements;
  }

  lemma RowPush(free: seq<Element>, i: nat, lo: int, hi: int)
    requires Laid(free, lo, hi) && i < |free| && IsColumn(free[i].token)
    ensures PushOk(RowPairs(free[..i]), BlankPair(free[i])) && Copy(BlankPair(free[i])) == BlankPair(free[i])
  {
    hide Laid, IsColumn, BlankPair;
    LaidTake(free, i + 1, lo, hi);
    FitsRowPairs(free[..i + 1]);
    FitsLaid(RowPairs(free[..i + 1]), free[..i + 1], lo, hi);
    assert free[..i + 1][..i] == free[..i];
    LaidPush(RowPairs(free[..i]), BlankPair(free[i]), lo, hi);
  }

  // Stack and free elements together; a sole pair with a list for a value is taken for a prefix and a row.
  method GatherPairs(
      text: string, depth: nat, stack: seq<Element>, freeElements: seq<Element>, ghost lo: int, ghost hi: int)
    returns (pairsOut: seq<Element>)
    requires Laid(stack, lo, hi) && Room(stack, hi) && Laid(freeElements, lo, hi)
    requires stack == [] || freeElements == []
    ensures pairsOut == Gather(text, depth, stack, freeElements)
  {
    hide Laid, Fits, Room, PairsOf, FreeOf, RowPairs, BlankPair, Ok;
    var freeRow;
    pairsOut, freeRow := BuildPairs(text, stack, freeElements, lo, hi);
    PairsOfNothing(text, stack);
    ghost var made := pairsOut;
    var prefix: seq<Element> := [];
    if |pairsOut| == 1 {
      var pair := pairsOut[0];
      var value := pair.subs.elems[|pair.subs.elems| - 1];
      if value.token.Value? && value.subs.List? && |value.subs.elems| > 1 {
        prefix := pair.subs.elems[..1];
        freeRow := value.subs.elems;
        pairsOut := [];
      }
    }
    GatherLaid(text, stack, freeElements, lo, hi);
    if depth >= 1 && pairsOut == [] && freeRow != [] {
      pairsOut, freeRow := freeRow, pairsOut;
    }
    if pairsOut == [] && freeRow != [] {
      pairsOut := BuildRow(freeRow, lo, hi);
      freeRow := [];
    }
    RowOfNothing(depth);
    if prefix != [] {
      var pair := MakeBlankPair(prefix[0]);
      CopyBlankPair(prefix[0]);
      pairsOut := [Copy(pair)] + pairsOut;
    }
  }

  lemma RowOfNothing(depth: nat)
    ensures RowOf(depth, []) == []
  {}

  lemma CopyBlankPair(e: Element)
    ensures Copy(BlankPair(e)) == BlankPair(e)
  {}

  lemma GatherLaid(text: string, s: seq<Element>, free: seq<Element>, lo: int, hi: int)
    requires Laid(s, lo, hi) && Room(s, hi) && Laid(free, lo, hi)
    requires s == [] || free == []
    ensures
      var pairs := PairsOf(text, s);
      if IsPrefixed(pairs) then Ok(pairs[0].subs.elems[0]) && Laid(pairs[0].subs.elems[1].subs.elems, lo, hi)
      else Laid(free + FreeOf(s), lo, hi)
  {
    hide *;
    PairsOfNothing(text, s);
    PairsOfSound(text, s, lo, hi);
    PrefixLaid(PairsOf(text, s), s, lo, hi);
    LooseLaid(s, free, lo, hi);
  }

  lemma PrefixLaid(pairs: seq<Element>, s: seq<Element>, lo: int, hi: int)
    requires Sound(pairs, s, lo, hi) && ArePairs(pairs)
    ensures IsPrefixed(pairs) ==>
      Ok(pairs[0].subs.elems[0]) && Laid(pairs[0].subs.elems[1].subs.elems, lo, hi)
  {
    hide Leaves, Subseq;
    if IsPrefixed(pairs) {
      LaidAt(pairs, 0, lo, hi);
      SubsLaid(pairs[0]);
      SubsLaid(pairs[0].subs.elems[1]);
    }
  }

  lemma LooseLaid(s: seq<Element>, free: seq<Element>, lo: int, hi: int)
    requires Laid(s, lo, hi) && Laid(free, lo, hi) && (s == [] || free == [])
    ensures Laid(free + FreeOf(s), lo, hi)
  {
    hide FreeOf, Fits, Laid;
    FitsLoose(s, free);
    assert s + free == s || s + free == free;
    FitsLaid(free + FreeOf(s), s + free, lo, hi);
  }

  // ---------- a whole list ----------

  // Where the loop stands before element i: the elements before it have been paired up and pushed in
  // order, and the pairs of a group at i stay within its capture.
  lemma LoopState(text: string, depth: nat, fmt: Format, list: seq<Element>, i: nat, lo: int, hi: int)
    requires FormatOk(fmt) && FairlyLaid(list, lo, hi) && AreInput(list) && i < |list|
    ensures
      var before := PairedAll(text, depth, list[..i]);
      && Inv(Run(fmt, before), lo, End(before, lo)) && End(before, lo) <= list[i].cb
      && Fair(list[i]) && IsInput(list[i])
      && Fair(Paired(text, depth, list[i])) && list[i].cb <= Paired(text, depth, list[i]).cb
  {
    assert FairlyLaid(list[..i], lo, list[i].cb);
    PairedAllSound(text, depth, list[..i], lo, list[i].cb);
    RunInv(fmt, PairedAll(text, depth, list[..i]), lo, list[i].cb);
    PairedSound(text, depth, list[i]);
    hide Paired, PairedAll, Run, Leaves, Subseq;
  }

  lemma PairedStep(text: string, depth: nat, fmt: Format, list: seq<Element>, i: nat)
    requires i < |list|
    ensures
      var before, after := PairedAll(text, depth, list[..i]), PairedAll(text, depth, list[..i + 1]);
      var e := Paired(text, depth, list[i]);
      && after == before + [e]
      && Run(fmt, after) == Step(Run(fmt, before), Copy(e))
      && Leftover(fmt, after) == Leftover(fmt, before) + [if Moves(Run(fmt, before), Copy(e)) then Gutted(e) else e]
  {
    hide Paired, Step, Moves, Copy, Gutted;
    assert list[..i + 1][..i] == list[..i];
    var after := PairedAll(text, depth, list[..i + 1]);
    assert after[..|after| - 1] == PairedAll(text, depth, list[..i]);
  }

  // Pairs up a list found by the structure discovery, its groups first; the pairs are not limited yet.
  method CollectPairs(text: string, list: seq<Element>, fmt: Format, depth: nat, ghost lo: int, ghost hi: int)
    returns (pairsOut: seq<Element>, left: seq<Element>, format: Format)
    requires FormatOk(fmt) && FairlyLaid(list, lo, hi) && AreInput(list)
    ensures
      var paired := PairedAll(text, depth, list);
      pairsOut == Collect(text, depth, fmt, paired) && left == Leftover(fmt, paired) && format == Run(fmt, paired).fmt
    decreases list, 1
  {
    hide FairlyLaid, Fair, Step, Moves, Copy, Gutted, Collect, Run, Leftover, PairedAll, Paired, Inv;
    assert fmt.name != Unnamed;
    var elStack, keyComps: seq<Element> := [], [];
    left, format := [], fmt;
    var i := 0;
    NothingPaired(text, depth, fmt);
    while i < |list|
      invariant 0 <= i <= |list|
      invariant State(format, elStack, keyComps) == Run(fmt, PairedAll(text, depth, list[..i]))
      invariant left == Leftover(fmt, PairedAll(text, depth, list[..i]))
    {
      LoopState(text, depth, fmt, list, i, lo, hi);
      PairedStep(text, depth, fmt, list, i);
      var e := PairGroup(text, list[i], depth);
      var moved;
      format, elStack, keyComps, moved :=
        PushElement(format, elStack, keyComps, e, lo, End(PairedAll(text, depth, list[..i]), lo));
      left := left + [if moved then Gutted(e) else e];
      i := i + 1;
    }
    assert list[..i] == list;
    pairsOut := FinishPairs(text, list, fmt, depth, format, elStack, keyComps, lo, hi);
  }

  method PairUp(text: string, list: seq<Element>, fmt: Format, depth: nat, ghost lo: int, ghost hi: int)
    returns (pairsOut: seq<Element>, left: seq<Element>, format: Format)
    requires FormatOk(fmt) && FairlyLaid(list, lo, hi) && AreInput(list)
    ensures Result(pairsOut, left, format) == Pairup(text, depth, fmt, list)
    decreases list, 2
  {
    pairsOut, left, format := CollectPairs(text, list, fmt, depth, lo, hi);
    if |pairsOut| > MAX_PAIRS {
      pairsOut := pairsOut[..MAX_PAIRS];
    }
  }

  lemma NothingPaired(text: string, depth: nat, fmt: Format)
    ensures Run(fmt, PairedAll(text, depth, [])) == State(fmt, [], [])
    ensures Leftover(fmt, PairedAll(text, depth, [])) == []
  {}

  // A group is paired up on its own; the pairs found replace its elements.
  method PairGroup(text: string, group: Element, depth: nat) returns (e: Element)
    requires Fair(group) && IsInput(group)
    ensures e == Paired(text, depth, group)
    decreases group, 0
  {
    e := group;
    if e.token.Group? {
      SubsFair(e);
      hide Fair, FairlyLaid, Pairup, UpdateCapture;
      var groupPairs, groupLeft, groupFormat := PairUp(text, e.subs.elems, e.subs.format, depth + 1, e.cb, e.ce);
      e := e.(subs := List(groupFormat, groupLeft));
      if groupPairs != [] {
        e := UpdateCapture(e.(subs := List(groupFormat, groupPairs)));
      }
    }
  }

  // After the loop: what is left over is the end of a value, or a free row at the top level.
  method FinishPairs(
      text: string, ghost list: seq<Element>, ghost fmt: Format, depth: nat, format: Format, stack: seq<Element>,
      comps: seq<Element>, ghost lo: int, ghost hi: int)
    returns (pairsOut: seq<Element>)
    requires FormatOk(fmt) && FairlyLaid(list, lo, hi) && AreInput(list)
    requires State(format, stack, comps) == Run(fmt, PairedAll(text, depth, list))
    ensures pairsOut == Collect(text, depth, fmt, PairedAll(text, depth, list))
  {
    FinishState(text, depth, fmt, list, lo, hi);
    EmptyLaid(lo, hi);
    hide Laid, FairlyLaid, Gather, AtEnd, Run, PairedAll, Room;
    if depth < 1 && stack == [] {
      assert stack + comps == comps;
      EmptyRoom(hi);
      pairsOut := GatherPairs(text, depth, stack, comps, lo, hi);
    } else {
      AtEndRoom(format, stack, comps, lo, hi);
      FitsAtEnd(format, stack, comps);
      FitsLaid(AtEnd(format, stack, comps), stack + comps, lo, hi);
      var elStack, keyComps := EndOfValue(format, stack, comps, AtListEnd, lo, hi);
      pairsOut := GatherPairs(text, depth, elStack, [], lo, hi);
    }
  }

  lemma EmptyRoom(hi: int)
    ensures Room([], hi)
  {}

  lemma FinishState(text: string, depth: nat, fmt: Format, list: seq<Element>, lo: int, hi: int)
    requires FormatOk(fmt) && FairlyLaid(list, lo, hi) && AreInput(list)
    ensures
      var st := Run(fmt, PairedAll(text, depth, list));
      && lo <= hi && FormatOk(st.fmt)
      && Laid(st.stack + st.comps, lo, hi) && Room(st.stack, Start(st.comps, hi))
  {
    PairedAllSound(text, depth, list, lo, hi);
    var paired := PairedAll(text, depth, list);
    RunInv(fmt, paired, lo, hi);
    hide PairedAll, Run, Leaves, Subseq;
    var st := Run(fmt, paired);
    LaidUp(st.stack + st.comps, lo, End(paired, lo), hi);
    RoomUp(st.stack, Start(st.comps, End(paired, lo)), Start(st.comps, hi));
  }
}
