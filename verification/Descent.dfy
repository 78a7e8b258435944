// The stack machine of the structure discovery and recursive descent, which gives every list the format of its
// own tokens: they agree unless opening brackets at the end of the message move the formats.
module Descent {
  import opened Tokens
  import opened Elements
  import opened Dfs
  import opened Discover
  import opened DiscoverProof

  // The machine run on a stream from a given state.
  function RunFrom(m: Machine, toks: seq<Tok>): (r: Machine)
    requires Level(m) && m.open[0].Invalid?
    ensures Level(r) && r.open[0].Invalid?
    decreases |toks|
  {
    if toks == [] then m else RunFrom(Advance(m, toks[0]), toks[1..])
  }

  lemma {:induction false} RunFromMore(m: Machine, toks: seq<Tok>, t: Tok)
    requires Level(m) && m.open[0].Invalid?
    ensures RunFrom(m, toks + [t]) == Advance(RunFrom(m, toks), t)
    decreases |toks|
  {
    hide Advance;
    if toks == [] {
      assert (toks + [t])[1..] == [];
    } else {
      RunFromMore(AdvanceLevel(m, toks[0]), toks[1..], t);
      assert (toks + [t])[1..] == toks[1..] + [t];
    }
  }

  // Advance, with the fact that the bottom of the stack stays open.
  function AdvanceLevel(m: Machine, t: Tok): (r: Machine)
    requires Level(m) && m.open[0].Invalid?
    ensures r == Advance(m, t) && Level(r) && r.open[0].Invalid?
  {
    Advance(m, t)
  }

  lemma {:induction false} RunIsAdvanced(toks: seq<Tok>)
    ensures RunFrom(START, toks) == Advanced(toks)
    decreases |toks|
  {
    hide Advance;
    if toks == [] {
    } else {
      var before := toks[..|toks| - 1];
      RunIsAdvanced(before);
      RunFromMore(START, before, toks[|toks| - 1]);
      assert toks == before + [toks[|toks| - 1]];
    }
  }

  // The stream does not end with an opening bracket.
  predicate EndsWell(toks: seq<Tok>)
  {
    toks == [] || !IsOpener(toks[|toks| - 1].token)
  }

  // A list with what was read of one inside it that is never closed, unless that is nothing.
  function WithInner(elems: seq<Element>, inner: ListRead): seq<Element>
  {
    if inner.elems == [] then elems else elems + [MakeGroup(FormatOf(inner.seen), inner.elems)]
  }

  // One step of the descent.
  lemma ReadCases(open: Token, elems: seq<Element>, seen: seq<Token>, toks: seq<Tok>)
    requires toks != []
    ensures
      var r, t, seen1, rest := Read(open, elems, seen, toks), toks[0], seen + [toks[0].token], toks[1..];
      if IsOpener(t.token) then
        var inner := Read(t.token, [], [], rest);
        if inner.closed then
          r == Read(open, elems + [ClosedGroup(FormatOf(inner.seen), inner.elems, inner.closer)], seen1, inner.rest)
        else
          && !r.closed && r.seen == seen1
          && r.elems == WithInner(elems, inner)
      else if Closes(open, t.token) then r == ListRead(elems, seen1, true, t, rest)
      else r == Read(open, Append(elems, t), seen1, rest)
  {
    hide IsOpener, Closes, FormatOf, MakeGroup, ClosedGroup, Append;
  }

  // The machine with a new top list and state.
  function WithTop(m: Machine, elems: seq<Element>, seen: seq<Token>): Machine
    requires Level(m)
  {
    Machine(m.open, Pop(m.lists) + [elems], Pop(m.states) + [Fold(seen)])
  }

  // The machine after the top list was closed.
  function Closed(m: Machine, elems: seq<Element>, seen: seq<Token>, closer: Tok): Machine
    requires Level(m) && |m.open| > 1
  {
    var below := Pop(m.lists);
    var group := ClosedGroup(FormatOf(seen), elems, closer);
    Machine(Pop(m.open), Pop(below) + [Top(below) + [group]], Pop(m.states))
  }

  // ---------- lists and their formats ----------

  function Formats(states: seq<FormatState>): (fs: seq<Format>)
    ensures |fs| == |states| && forall i | 0 <= i < |fs| :: fs[i] == Finalize(states[i]).format
  {
    seq(|states|, i requires 0 <= i < |states| => Finalize(states[i]).format)
  }

  // The open lists folded into each other, each in the format given for it.
  function Nest(lists: seq<seq<Element>>, formats: seq<Format>): (d: Subs)
    requires 0 < |lists| == |formats|
    ensures d.List?
    decreases |lists|
  {
    if |lists| == 1 then List(formats[0], lists[0])
    else if Top(lists) == [] then Nest(Pop(lists), Pop(formats))
    else
      var below := Pop(lists);
      Nest(Pop(below) + [Top(below) + [MakeGroup(Top(formats), Top(lists))]], Pop(formats))
  }

  function Nested(m: Machine): Subs
    requires Level(m)
  {
    Nest(m.lists, Formats(m.states))
  }

  // ---------- the descent ----------

  // What reading the top list does to the machine: a closed list becomes a group of its parent and the
  // machine goes on behind its bracket; a list that is never closed is folded with what was read.
  ghost predicate Follows(m: Machine, toks: seq<Tok>, r: ListRead)
    requires Level(m) && m.open[0].Invalid?
  {
    if r.closed then
      |m.open| > 1 && RunFrom(m, toks) == RunFrom(Closed(m, r.elems, r.seen, r.closer), r.rest)
    else Nested(RunFrom(m, toks)) == Nested(WithTop(m, r.elems, r.seen))
  }

  lemma {:induction false} ReadFollows(m: Machine, elems: seq<Element>, seen: seq<Token>, toks: seq<Tok>)
    requires Level(m) && m.open[0].Invalid? && Top(m.lists) == elems && Top(m.states) == Fold(seen)
    ensures Follows(m, toks, Read(Top(m.open), elems, seen, toks))
    decreases |toks|
  {
    hide Read, RunFrom, WithTop, Closed, IsOpener, Closes, FormatOf, MakeGroup, ClosedGroup, Fold, Append, Nested,
      AdvanceLevel, WithInner;
    if toks == [] {
      NothingFollows(m, elems, seen);
    } else {
      var t, rest, m1, seen1 := toks[0], toks[1..], AdvanceLevel(m, toks[0]), seen + [toks[0].token];
      RunFromStep(m, toks);
      ReadCases(Top(m.open), elems, seen, toks);
      AdvanceCases(m, elems, seen, t);
      var r := Read(Top(m.open), elems, seen, toks);
      if IsOpener(t.token) {
        var inner := Read(t.token, [], [], rest);
        ReadFollows(m1, [], [], rest);
        if inner.closed {
          var group := ClosedGroup(FormatOf(inner.seen), inner.elems, inner.closer);
          var m2 := Closed(m1, inner.elems, inner.seen, inner.closer);
          ClosedInner(m, m1, elems, seen1, inner);
          ReadFollows(m2, elems + [group], seen1, inner.rest);
          SameBelow(m, m2, r);
        } else {
          NestInner(m, m1, elems, seen1, inner);
        }
      } else if !Closes(Top(m.open), t.token) {
        ReadFollows(m1, Append(elems, t), seen1, rest);
        SameBelow(m, m1, r);
      }
    }
  }

  lemma NothingFollows(m: Machine, elems: seq<Element>, seen: seq<Token>)
    requires Level(m) && m.open[0].Invalid? && Top(m.lists) == elems && Top(m.states) == Fold(seen)
    ensures Follows(m, [], Read(Top(m.open), elems, seen, []))
  {
    hide Fold, Nested;
    assert WithTop(m, elems, seen) == m;
  }

  lemma RunFromStep(m: Machine, toks: seq<Tok>)
    requires Level(m) && m.open[0].Invalid? && toks != []
    ensures RunFrom(m, toks) == RunFrom(AdvanceLevel(m, toks[0]), toks[1..])
  {
    hide Advance;
  }

  // A closed list is a group of the list below, which is on top again.
  lemma ClosedInner(m: Machine, m1: Machine, elems: seq<Element>, seen1: seq<Token>, inner: ListRead)
    requires Level(m) && Level(m1) && m1.open[..|m1.open| - 1] == m.open && |m.open| > 0
    requires m1.lists == Pop(m.lists) + [elems] + [[]] && m1.states == Pop(m.states) + [Fold(seen1)] + [INITIAL]
    ensures
      var m2 := Closed(m1, inner.elems, inner.seen, inner.closer);
      && Level(m2) && m2.open == m.open && Top(m2.states) == Fold(seen1)
      && Top(m2.lists) == elems + [ClosedGroup(FormatOf(inner.seen), inner.elems, inner.closer)]
      && Pop(m2.lists) == Pop(m.lists) && Pop(m2.states) == Pop(m.states)
  {
    hide Fold, FormatOf, ClosedGroup;
    assert Pop(m1.lists) == Pop(m.lists) + [elems];
    assert Pop(m1.states) == Pop(m.states) + [Fold(seen1)];
  }

  // One token, seen from the list on top.
  lemma AdvanceCases(m: Machine, elems: seq<Element>, seen: seq<Token>, t: Tok)
    requires Level(m) && m.open[0].Invalid? && Top(m.lists) == elems && Top(m.states) == Fold(seen)
    ensures
      var m1, seen1 := AdvanceLevel(m, t), seen + [t.token];
      if IsOpener(t.token) then
        && m1.lists == Pop(m.lists) + [elems] + [[]] && m1.open == m.open + [t.token]
        && m1.states == Pop(m.states) + [Fold(seen1)] + [INITIAL] && INITIAL == Fold([])
      else if Closes(Top(m.open), t.token) then |m.open| > 1 && m1 == Closed(m, elems, seen1, t)
      else
        && m1.open == m.open && m1.lists == Pop(m.lists) + [Append(elems, t)]
        && m1.states == Pop(m.states) + [Fold(seen1)]
  {
    hide Append, ClosedGroup, Finalize, Update;
    assert (seen + [t.token])[..|seen|] == seen;
    assert Fold(seen + [t.token]) == Update(Fold(seen), t.token);
  }

  // Only the top of the stacks matters to what is read.
  lemma SameBelow(m: Machine, n: Machine, r: ListRead)
    requires Level(m) && Level(n) && m.open == n.open
    requires Pop(m.lists) == Pop(n.lists) && Pop(m.states) == Pop(n.states)
    ensures WithTop(m, r.elems, r.seen) == WithTop(n, r.elems, r.seen)
    ensures |m.open| > 1 ==> Closed(m, r.elems, r.seen, r.closer) == Closed(n, r.elems, r.seen, r.closer)
  {}

  // A list that was never closed is the last group of its parent.
  lemma NestInner(m: Machine, m1: Machine, elems: seq<Element>, seen1: seq<Token>, inner: ListRead)
    requires Level(m) && Level(m1)
    requires m1.lists == Pop(m.lists) + [elems] + [[]] && m1.states == Pop(m.states) + [Fold(seen1)] + [INITIAL]
    ensures Nested(WithTop(m1, inner.elems, inner.seen)) == Nested(WithTop(m, WithInner(elems, inner), seen1))
  {
    hide Fold, Finalize, MakeGroup;
    var w, v := WithTop(m1, inner.elems, inner.seen), WithTop(m, WithInner(elems, inner), seen1);
    assert Pop(w.lists) == Pop(m.lists) + [elems];
    assert Pop(Pop(w.lists)) == Pop(m.lists) && Top(Pop(w.lists)) == elems;
    assert Pop(w.states) == Pop(m.states) + [Fold(seen1)] && Top(w.states) == Fold(inner.seen);
    assert Pop(Formats(w.states)) == Formats(v.states);
    assert Top(Formats(w.states)) == FormatOf(inner.seen);
  }

  // Recursive descent folds the open lists each in the format of its own tokens.
  lemma ReadIsNested(toks: seq<Tok>)
    ensures ReadMessage(toks) == Nested(Advanced(toks))
  {
    hide Read, Fold, Finalize, RunFrom, Advanced;
    var r := Read(Invalid, [], [], toks);
    RunIsAdvanced(toks);
    NothingRead();
    ReadFollows(START, [], [], toks);
    assert !r.closed;
    assert WithTop(START, r.elems, r.seen) == Machine([Invalid], [r.elems], [Fold(r.seen)]);
  }

  lemma NothingRead()
    ensures Fold([]) == INITIAL
  {}

  // ---------- the machine ----------

  lemma FormatsPop(states: seq<FormatState>, n: nat)
    requires n < |states|
    ensures Top(Formats(states)[n..]) == Finalize(Top(states)).format
    ensures Pop(Formats(states)[n..]) == Formats(Pop(states))[n..]
  {
    hide Finalize;
  }

  // Without an empty list on top, the machine folds each list in the format of the state of the same height.
  lemma {:induction false} FlushNest(lists: seq<seq<Element>>, states: seq<FormatState>)
    requires 0 < |lists| <= |states| && Empties(lists) == 0
    ensures
      var r := Flush(lists, states);
      List(Finalize(Top(r.1)).format, r.0) == Nest(lists, Formats(states)[|states| - |lists|..])
    decreases |lists|
  {
    hide MakeGroup, Finalize, Formats;
    var n := |states| - |lists|;
    var fs := Formats(states)[n..];
    FormatsPop(states, n);
    if |lists| == 1 {
    } else {
      var below := Pop(lists);
      FlushNest(Pop(below) + [Top(below) + [MakeGroup(Top(fs), Top(lists))]], Pop(states));
    }
  }

  // Empty lists on top are dropped, their states are not.
  lemma {:induction false} FlushEmpties(lists: seq<seq<Element>>, states: seq<FormatState>)
    requires 0 < |lists| <= |states|
    ensures
      var l := lists[..|lists| - Empties(lists)];
      Empties(l) == 0 && Flush(lists, states) == Flush(l, states)
    decreases |lists|
  {
    if |lists| > 1 && Top(lists) == [] {
      FlushEmpties(Pop(lists), states);
      assert Pop(lists)[..|lists| - Empties(lists)] == lists[..|lists| - Empties(lists)];
    } else {
      assert lists[..|lists|] == lists;
    }
  }

  lemma {:induction false} NestEmpties(lists: seq<seq<Element>>, formats: seq<Format>)
    requires 0 < |lists| == |formats|
    ensures
      var n := |lists| - Empties(lists);
      Nest(lists, formats) == Nest(lists[..n], formats[..n])
    decreases |lists|
  {
    if |lists| > 1 && Top(lists) == [] {
      NestEmpties(Pop(lists), Pop(formats));
      var n := |lists| - Empties(lists);
      assert Pop(lists)[..n] == lists[..n] && Pop(formats)[..n] == formats[..n];
    } else {
      assert lists[..|lists|] == lists && formats[..|lists|] == formats;
    }
  }

  // A message that ends with k opening brackets: every other open list gets the format that belongs to the list
  // k levels further in.
  lemma FormatsShift(toks: seq<Tok>)
    ensures
      var m, k := Advanced(toks), Trailing(toks);
      && k < |m.lists| == |m.states| && Empties(m.lists[..|m.lists| - k]) == 0
      && Discovered(toks) == Nest(m.lists[..|m.lists| - k], Formats(m.states)[k..])
      && ReadMessage(toks) == Nest(m.lists[..|m.lists| - k], Formats(m.states)[..|m.lists| - k])
  {
    hide Advanced, Trailing, Flush, Nest, Finalize, Formats;
    var m, k := Advanced(toks), Trailing(toks);
    TrailingEmpty(toks);
    FlushEmpties(m.lists, m.states);
    FlushNest(m.lists[..|m.lists| - k], m.states);
    ReadIsNested(toks);
    NestEmpties(m.lists, Formats(m.states));
  }

  lemma GroupsApart(f: Format, a: seq<Element>, g: Format, b: seq<Element>)
    requires a != [] && b != [] && MakeGroup(f, a) == MakeGroup(g, b)
    ensures f == g && a == b
  {}

  lemma LastPushed<T>(s: seq<T>, x: T, t: seq<T>, y: T)
    requires s + [x] == t + [y]
    ensures s == t && x == y
  {
    assert |s| == |t| && (s + [x])[|s|] == x && (t + [y])[|t|] == y;
    assert s == (s + [x])[..|s|] && t == (t + [y])[..|t|];
  }

  // The formats can be told from the result.
  lemma {:induction false} NestApart(
      a: seq<seq<Element>>, b: seq<seq<Element>>, f: seq<Format>, g: seq<Format>)
    requires 0 < |a| == |b| == |f| == |g| && Pop(a) == Pop(b)
    requires |a| > 1 ==> Top(a) != [] && Top(b) != []
    requires Nest(a, f) == Nest(b, g)
    ensures a == b && f == g
    decreases |a|
  {
    hide MakeGroup, Nest;
    if |a| == 1 {
      NestOne(a, f);
      NestOne(b, g);
    } else {
      var below, x, y := Pop(a), MakeGroup(Top(f), Top(a)), MakeGroup(Top(g), Top(b));
      NestStep(a, f);
      NestStep(b, g);
      PushTop(below, x);
      PushTop(below, y);
      NestApart(Pop(below) + [Top(below) + [x]], Pop(below) + [Top(below) + [y]], Pop(f), Pop(g));
      LastPushed(Top(below), x, Top(below), y);
      GroupsApart(Top(f), Top(a), Top(g), Top(b));
      SameParts(a, b);
      SameParts(f, g);
    }
  }

  lemma NestOne(lists: seq<seq<Element>>, formats: seq<Format>)
    requires |lists| == |formats| == 1
    ensures Nest(lists, formats) == List(formats[0], lists[0]) && lists == [lists[0]] && formats == [formats[0]]
  {}

  lemma NestStep(lists: seq<seq<Element>>, formats: seq<Format>)
    requires 1 < |lists| == |formats| && Top(lists) != []
    ensures
      var below, group := Pop(lists), MakeGroup(Top(formats), Top(lists));
      Nest(lists, formats) == Nest(Pop(below) + [Top(below) + [group]], Pop(formats))
  {}

  lemma PushTop(lists: seq<seq<Element>>, x: Element)
    requires lists != []
    ensures
      var r := Pop(lists) + [Top(lists) + [x]];
      |r| == |lists| && Pop(r) == Pop(lists) && Top(r) == Top(lists) + [x]
  {}

  lemma SameParts<T>(s: seq<T>, t: seq<T>)
    requires s != [] && t != [] && Pop(s) == Pop(t) && Top(s) == Top(t)
    ensures s == t
  {
    assert s == Pop(s) + [Top(s)] && t == Pop(t) + [Top(t)];
  }

  // So the machine is recursive descent, every list in the format of its own tokens, exactly when moving the formats
  // by as many levels as there are opening brackets at the end changes none of them.
  lemma DescentOrShift(toks: seq<Tok>)
    ensures
      var f, k := Formats(Advanced(toks).states), Trailing(toks);
      && k < |f|
      && (Discovered(toks) == ReadMessage(toks) <==> forall l | 0 <= l < |f| - k :: f[l] == f[l + k])
  {
    hide Advanced, Trailing, Nest, Finalize, Formats, Discovered, ReadMessage, Empties;
    var m, k := Advanced(toks), Trailing(toks);
    var f, n := Formats(m.states), |m.lists| - k;
    FormatsShift(toks);
    if Discovered(toks) == ReadMessage(toks) {
      NoEmptyTop(m.lists[..n]);
      NestApart(m.lists[..n], m.lists[..n], f[k..], f[..n]);
      assert forall l | 0 <= l < n :: f[k..][l] == f[l + k] && f[..n][l] == f[l];
    } else {
      assert f[k..] == f[..n] <==> forall l | 0 <= l < n :: f[k..][l] == f[..n][l];
    }
  }

  lemma NoEmptyTop(lists: seq<seq<Element>>)
    requires lists != [] && Empties(lists) == 0
    ensures |lists| > 1 ==> Top(lists) != []
  {}

  // In particular it is when the message does not end with an opening bracket.
  lemma MachineIsDescent(toks: seq<Tok>)
    requires EndsWell(toks)
    ensures Discovered(toks) == ReadMessage(toks)
  {
    DescentOrShift(toks);
    hide Discovered, ReadMessage, Formats, Advanced, IsOpener;
  }

  // ---------- the formats of the open lists ----------

  // The tokens seen so far in each open list.
  function SeenIn(toks: seq<Tok>): (s: seq<seq<Token>>)
    ensures s != []
  {
    if toks == [] then [[]]
    else
      var s, t := SeenIn(toks[..|toks| - 1]), toks[|toks| - 1].token;
      if IsOpener(t) then Pop(s) + [Top(s) + [t]] + [[]]
      else if Closes(Top(OpenAfter(toks[..|toks| - 1])), t) && |s| > 1 then Pop(s)
      else Pop(s) + [Top(s) + [t]]
  }

  lemma {:induction false} StatesSeen(toks: seq<Tok>)
    ensures
      var states, s := Advanced(toks).states, SeenIn(toks);
      |s| == |states| && forall l | 0 <= l < |s| :: states[l] == Fold(s[l])
    decreases |toks|
  {
    hide Fold, Finalize, Update, Append, ClosedGroup, IsOpener, Closes, Advance, OpenAfter, Advanced;
    NothingRead();
    if toks == [] {
      StartStates();
    } else {
      var n := |toks| - 1;
      var s, t := SeenIn(toks[..n]), toks[n].token;
      AdvancedStep(toks);
      StatesSeen(toks[..n]);
      OpenMatches(toks[..n]);
      FoldStep(Top(s), t);
      AdvanceStates(Advanced(toks[..n]), toks[n]);
    }
  }

  lemma StartStates()
    ensures Advanced([]).states == [INITIAL]
  {}

  lemma FoldStep(seen: seq<Token>, t: Token)
    ensures Fold(seen + [t]) == Update(Fold(seen), t)
  {
    hide Update;
    assert (seen + [t])[..|seen|] == seen;
  }

  lemma AdvanceStates(m: Machine, t: Tok)
    requires Level(m) && m.open[0].Invalid?
    ensures
      var u := Pop(m.states) + [Update(Top(m.states), t.token)];
      Advance(m, t).states ==
        if IsOpener(t.token) then u + [INITIAL]
        else if Closes(Top(m.open), t.token) then Pop(m.states)
        else u
    ensures Closes(Top(m.open), t.token) ==> |m.states| > 1
  {
    hide Update, Append, ClosedGroup, Finalize;
  }

  // The formats that are moved are those of the tokens of each list, and for the lists of the closing run of opening
  // brackets the plain one.
  lemma FormatsSeen(toks: seq<Tok>)
    ensures
      var f, s, k := Formats(Advanced(toks).states), SeenIn(toks), Trailing(toks);
      && |f| == |s| && k < |f| && (forall l | 0 <= l < |f| :: f[l] == FormatOf(s[l]))
      && forall l | |f| - k <= l < |f| :: f[l] == FORMAT_PLAIN
  {
    hide Fold, Finalize, Advanced, SeenIn, Trailing;
    StatesSeen(toks);
    FormatsShift(toks);
    TrailingSeen(toks);
    forall l | |SeenIn(toks)| - Trailing(toks) <= l < |SeenIn(toks)|
      ensures FormatOf(SeenIn(toks)[l]) == FORMAT_PLAIN
    {
      OpenerPlain(SeenIn(toks)[l]);
    }
  }

  // The same in terms of the tokens: with k opening brackets at the end, every list gets the format of its own
  // tokens exactly when those of the list k levels further in have the same format.
  lemma FormatsCoincide(toks: seq<Tok>)
    ensures
      var s, k := SeenIn(toks), Trailing(toks);
      && k < |s|
      && (Discovered(toks) == ReadMessage(toks) <==>
            forall l | 0 <= l < |s| - k :: FormatOf(s[l]) == FormatOf(s[l + k]))
  {
    hide Fold, Finalize, Advanced, SeenIn, Trailing, Discovered, ReadMessage, FormatOf;
    DescentOrShift(toks);
    FormatsSeen(toks);
    var f, s, k := Formats(Advanced(toks).states), SeenIn(toks), Trailing(toks);
    forall l | 0 <= l < |s| - k
      ensures f[l] == f[l + k] <==> FormatOf(s[l]) == FormatOf(s[l + k])
    {
      assert f[l] == FormatOf(s[l]);
    }
  }

  // In the lists that the last opening brackets open, nothing but the next of them has been seen.
  lemma {:induction false} TrailingSeen(toks: seq<Tok>)
    ensures
      var s, k := SeenIn(toks), Trailing(toks);
      && k < |s| && (k > 0 ==> Top(s) == [])
      && forall l | |s| - k <= l < |s| :: s[l] == [] || (|s[l]| == 1 && IsOpener(s[l][0]))
    decreases |toks|
  {
    hide IsOpener, Closes;
    if toks == [] || !IsOpener(toks[|toks| - 1].token) {
    } else {
      var n := |toks| - 1;
      TrailingSeen(toks[..n]);
      var a, b := SeenIn(toks[..n]), SeenIn(toks);
      assert |b| == |a| + 1 && b[|a|] == [] && forall l | 0 <= l < |a| - 1 :: b[l] == a[l];
      assert b[|a| - 1] == Top(a) + [toks[n].token];
    }
  }

  lemma OpenerPlain(seen: seq<Token>)
    requires seen == [] || (|seen| == 1 && IsOpener(seen[0]))
    ensures FormatOf(seen) == FORMAT_PLAIN
  {
    FoldCounts(seen);
    hide Fold;
    assert seen == [] || seen == [seen[0]];
  }

  // An opening bracket at the very end of a message whose brackets all match replaces the format of the
  // message by the plain one, whatever its tokens were.
  lemma LostFormat(toks: seq<Tok>, o: Tok)
    requires OpenAfter(toks) == [Invalid] && IsOpener(o.token)
    ensures Discovered(toks + [o]) == List(FORMAT_PLAIN, Discovered(toks).elems)
  {
    OpenMatches(toks);
    var m := Advanced(toks);
    assert (toks + [o])[..|toks|] == toks;
    var m1 := Advance(m, o);
    assert Advanced(toks + [o]) == m1;
    hide Advanced, Advance, Update, Finalize;
    assert |m.lists| == 1 && |m1.lists| == 2;
    assert Pop(m1.lists) == m.lists && Top(m1.states) == INITIAL;
    assert Flush(m.lists, m1.states) == (m.lists[0], m1.states);
    assert Flush(m1.lists, m1.states) == Flush(m.lists, m1.states);
    assert Flush(m.lists, m.states) == (m.lists[0], m.states);
    PlainStart();
  }

  lemma PlainStart()
    ensures Finalize(INITIAL).format == FORMAT_PLAIN
  {}

  lemma {:induction false} FoldCounts(seen: seq<Token>)
    ensures Fold(seen).hist == multiset(seen) && Fold(seen).format == DEFAULT_FORMAT
    decreases |seen|
  {
    if seen == [] {
    } else {
      FoldCounts(seen[..|seen| - 1]);
      assert seen == seen[..|seen| - 1] + [seen[|seen| - 1]];
    }
  }

  // A list with an equals sign separates its keys by equals signs, and only such a list does.
  lemma EqualsSeparates(seen: seq<Token>)
    ensures FormatOf(seen).separator.Equals? <==> Equals in seen
  {
    FoldCounts(seen);
    hide Fold;
  }

  // So "=(" loses the separator that its own tokens call for.
  lemma FormatIsLost()
    ensures
      var toks := [Tok(Equals, 0, 1), Tok(LParen, 1, 2)];
      && TokensOk(toks, 0, 2) && !EndsWell(toks)
      && FormatOf(TokenSeq(toks)).separator.Equals?
      && Discovered(toks).format.separator.Colon?
  {
    var a, b := Tok(Equals, 0, 1), Tok(LParen, 1, 2);
    TwoTokensOk(a, b);
    hide FormatOf, Discovered, TokensOk;
    assert [a][..0] == [] && [a] + [b] == [a, b];
    LostFormat([a], b);
    var seen := TokenSeq([a, b]);
    assert seen[0].Equals?;
    EqualsSeparates(seen);
  }

  lemma TwoTokensOk(a: Tok, b: Tok)
    requires a == Tok(Equals, 0, 1) && b == Tok(LParen, 1, 2)
    ensures TokensOk([a, b], 0, 2)
  {}

  // And "(=[" gets the separator that the tokens of the list inside it call for.
  lemma FormatLeaks()
    ensures
      var toks := [Tok(LParen, 0, 1), Tok(Equals, 1, 2), Tok(LSquare, 2, 3)];
      && TokensOk(toks, 0, 3) && SeenIn(toks)[0] == [LParen] && !FormatOf([LParen]).separator.Equals?
      && Discovered(toks).format.separator.Equals?
  {
    hide Advanced, SeenIn, Trailing, FormatOf, Discovered, ReadMessage, TokensOk, Nest;
    var a, b, c := Tok(LParen, 0, 1), Tok(Equals, 1, 2), Tok(LSquare, 2, 3);
    ThreeSeen(a, b, c);
    EqualsSeparates([LParen]);
    EqualsSeparates([Equals, LSquare]);
    assert [Equals, LSquare][0].Equals?;
    OneLevelIn([a, b, c]);
  }

  // With one opening bracket at the end and a list open before it, the message gets the format of that list.
  lemma OneLevelIn(toks: seq<Tok>)
    requires Trailing(toks) == 1 && |SeenIn(toks)| > 1
    ensures Discovered(toks).format == FormatOf(SeenIn(toks)[1])
  {
    hide Advanced, SeenIn, Trailing, FormatOf, Discovered, ReadMessage, Nest, Finalize;
    FormatsShift(toks);
    FormatsSeen(toks);
    var m := Advanced(toks);
    NestFormat(m.lists[..|m.lists| - 1], Formats(m.states)[1..]);
  }

  lemma {:induction false} NestFormat(lists: seq<seq<Element>>, formats: seq<Format>)
    requires 0 < |lists| == |formats|
    ensures Nest(lists, formats).format == formats[0]
    decreases |lists|
  {
    if |lists| == 1 {
    } else if Top(lists) == [] {
      NestFormat(Pop(lists), Pop(formats));
    } else {
      var below := Pop(lists);
      NestFormat(Pop(below) + [Top(below) + [MakeGroup(Top(formats), Top(lists))]], Pop(formats));
    }
  }

  lemma SeenMore(toks: seq<Tok>, t: Tok)
    requires !IsCloser(t.token)
    ensures
      var s := SeenIn(toks);
      SeenIn(toks + [t]) == Pop(s) + [Top(s) + [t.token]] + if IsOpener(t.token) then [[]] else []
  {
    assert (toks + [t])[..|toks|] == toks;
    hide OpenAfter;
  }

  lemma ThreeSeen(a: Tok, b: Tok, c: Tok)
    requires a == Tok(LParen, 0, 1) && b == Tok(Equals, 1, 2) && c == Tok(LSquare, 2, 3)
    ensures TokensOk([a, b, c], 0, 3) && Trailing([a, b, c]) == 1
    ensures SeenIn([a, b, c]) == [[LParen], [Equals, LSquare], []]
  {
    hide SeenIn, OpenAfter, TokensOk;
    ThreeTokensOk(a, b, c);
    assert [a, b, c][..2] == [a, b];
    assert [] + [a] == [a] && [a] + [b] == [a, b] && [a, b] + [c] == [a, b, c];
    NothingSeen();
    SeenMore([], a);
    var s1 := SeenIn([a]);
    assert |s1| == 2 && s1[0] == [LParen] && s1[1] == [];
    SeenMore([a], b);
    var s2 := SeenIn([a, b]);
    assert |s2| == 2 && s2[0] == [LParen] && s2[1] == [Equals];
    SeenMore([a, b], c);
    var s3 := SeenIn([a, b, c]);
    assert |s3| == 3 && s3[0] == [LParen] && s3[1] == [Equals, LSquare] && s3[2] == [];
    assert s3 == [s3[0], s3[1], s3[2]];
  }

  lemma NothingSeen()
    ensures SeenIn([]) == [[]]
  {}

  lemma ThreeTokensOk(a: Tok, b: Tok, c: Tok)
    requires a == Tok(LParen, 0, 1) && b == Tok(Equals, 1, 2) && c == Tok(LSquare, 2, 3)
    ensures TokensOk([a, b, c], 0, 3)
  {}
}
