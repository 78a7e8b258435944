// A group in which nothing is found keeps the capture of its brackets' contents, although a group inside it may have
// been narrowed to its pairs.  So lists that are paired up are in order in a weaker sense than the lists that come out.
module WideGroups {
  import opened Tokens
  import opened Elements
  import opened Pairing
  import opened Pairs
  import opened Dfs
  import opened Discover
  import opened Boards
  import opened Fields
  import opened FieldFormats
  import opened FieldTrees
  import opened FieldPairing
  import opened PrefixedLists

  predicate Spans(e: Element)
  {
    e.subs.List? && e.subs.elems != [] ==>
      e.cb == e.subs.elems[0].cb && e.ce == e.subs.elems[|e.subs.elems| - 1].ce
  }

  // What the loop leaves has the captures it found.
  lemma {:induction false} LeftCaptures(fmt: Format, list: seq<Element>, i: nat)
    requires i < |list|
    ensures |Leftover(fmt, list)| == |list|
    ensures Leftover(fmt, list)[i].cb == list[i].cb && Leftover(fmt, list)[i].ce == list[i].ce
    decreases |list|
  {
    hide Moves, Run, Copy;
    var n := |list| - 1;
    if n == 0 {
      assert Leftover(fmt, list[..n]) == [];
    } else {
      LeftCaptures(fmt, list[..n], if i < n then i else 0);
    }
  }

  lemma {:induction false} PairedAt(text: string, depth: nat, list: seq<Element>, i: nat)
    requires i < |list|
    ensures |PairedAll(text, depth, list)| == |list| && PairedAll(text, depth, list)[i] == Paired(text, depth, list[i])
    decreases |list|
  {
    hide Paired;
    var n := |list| - 1;
    if n == 0 {
      assert PairedAll(text, depth, list[..n]) == [];
    } else {
      PairedAt(text, depth, list[..n], if i < n then i else 0);
    }
  }

  // A group spans what it holds afterwards exactly when something was found in it, or when neither the first nor the
  // last element has been narrowed at its side.
  lemma SpansIff(text: string, depth: nat, e: Element)
    requires e.token.Group? && e.subs.List? && e.subs.elems != [] && Spans(e)
    ensures
      var elems, n := e.subs.elems, |e.subs.elems| - 1;
      Spans(Paired(text, depth, e)) <==>
        || Pairup(text, depth + 1, e.subs.format, elems).pairs != []
        || (Paired(text, depth + 1, elems[0]).cb == elems[0].cb && Paired(text, depth + 1, elems[n]).ce == elems[n].ce)
  {
    hide PairedAll, Collect, Run, Leftover;
    var elems, n := e.subs.elems, |e.subs.elems| - 1;
    var paired := PairedAll(text, depth + 1, elems);
    PairedAt(text, depth + 1, elems, 0);
    PairedAt(text, depth + 1, elems, n);
    LeftCaptures(e.subs.format, paired, 0);
    LeftCaptures(e.subs.format, paired, n);
    var r := Pairup(text, depth + 1, e.subs.format, elems);
    assert r.left == Leftover(e.subs.format, paired);
    hide Pairup;
    assert Paired(text, depth, e) ==
      if r.pairs != [] then UpdateCapture(e.(subs := List(r.fmt, r.pairs))) else e.(subs := List(r.fmt, r.left));
  }

  // ---------- a list whose first colon ends a prefix ----------

  lemma WidePrefixed()
    ensures FormatOf([LParen, Comma, Comma, Colon, RParen]) == PREFIXED
  {
    hide Update, Seen, Finalize, Auto;
    var st := Style(Comma, Colon);
    OddStates(st);
    OddFormat(Update(Update(Update(Update(Update(INITIAL, LParen), Comma), Comma), Colon), RParen), 2, 1);
    FoldFive(LParen, Comma, Comma, Colon, RParen);
    hide Fold;
  }

  lemma OddStates(st: Style)
    requires st == Style(Comma, Colon)
    ensures
      var m := Update(Update(Update(Update(Update(INITIAL, LParen), Comma), Comma), Colon), RParen);
      Seen(m, st, 2, 1) && !Auto(m, st).DfsError?
  {
    hide Update, Seen, Fold, Finalize, Auto;
    var m1 := Update(INITIAL, LParen);
    var m2 := Update(m1, Comma);
    var m3 := Update(m2, Comma);
    var m4 := Update(m3, Colon);
    NothingSeen(st);
    NothingFolded(st);
    SeenStep(INITIAL, st, LParen, 0, 0);
    SeenStep(m1, st, Comma, 0, 0);
    SeenStep(m2, st, Comma, 1, 0);
    SeenStep(m3, st, Colon, 2, 0);
    SeenStep(m4, st, RParen, 2, 1);
  }

  lemma FoldFive(a: Token, b: Token, c: Token, d: Token, e: Token)
    ensures Fold([a, b, c, d, e]) == Update(Update(Update(Update(Update(INITIAL, a), b), c), d), e)
  {
    hide Update, Fold;
    NothingFolded(Style(Comma, Colon));
    FoldMore([], a);
    FoldMore([a], b);
    FoldMore([a, b], c);
    FoldMore([a, b, c], d);
    FoldMore([a, b, c, d], e);
    assert [] + [a] == [a] && [a] + [b] == [a, b] && [a, b] + [c] == [a, b, c];
    assert [a, b, c] + [d] == [a, b, c, d] && [a, b, c, d] + [e] == [a, b, c, d, e];
  }

  lemma NothingFolded(st: Style)
    ensures Fold([]) == INITIAL == FoldFrom(INITIAL, []) && Auto(INITIAL, st).DfsInit?
  {}

  // The brackets hold a value in brackets, two commas and a colon.
  predicate IsBehind(behind: seq<Tok>)
  {
    |behind| == 3 && behind[0].token.Comma? && behind[1].token.Comma? && behind[2].token.Colon?
  }

  // Nothing is found in such a list.
  lemma NothingFound(text: string, e: Element, behind: seq<Tok>)
    requires e.token.Group? && Copy(e) == e && IsBehind(behind)
    ensures Collect(text, 1, PREFIXED, [e] + LeafList(behind)) == []
  {
    hide *;
    var fmt := BEHIND_PREFIX;
    AllPushed(e, behind);
    BehindTokens(e, behind);
    var stack := [e, Leaf(behind[0]), Leaf(behind[1])];
    NothingEnds(fmt, stack);
    NothingGathered(text, stack);
    CollectSome(text, 1, PREFIXED, [e] + LeafList(behind));
  }

  lemma BehindTokens(e: Element, behind: seq<Tok>)
    requires e.token.Group? && IsBehind(behind)
    ensures |behind| == 3 && LeafList(behind) == [Leaf(behind[0]), Leaf(behind[1]), Leaf(behind[2])]
    ensures
      var stack := [e, Leaf(behind[0]), Leaf(behind[1])];
      forall i | 0 <= i < |stack| :: !stack[i].token.Value? && !stack[i].token.Key? && !stack[i].token.Colon?
    ensures Leaf(behind[2]).token.Colon? && forall t: Tok :: Copy(Leaf(t)) == Leaf(t)
  {}

  // Up to the colon everything is put on the stack as it is.
  lemma AllPushed(e: Element, behind: seq<Tok>)
    requires e.token.Group? && Copy(e) == e && IsBehind(behind)
    ensures |behind| == 3
    ensures
      var fmt := BEHIND_PREFIX;
      Run(PREFIXED, [e] + LeafList(behind)) == State(fmt, [e, Leaf(behind[0]), Leaf(behind[1])], [])
  {
    hide *;
    BehindTokens(e, behind);
    var a, b, c := Leaf(behind[0]), Leaf(behind[1]), Leaf(behind[2]);
    var stack := [e, a, b];
    assert stack[0] == e && stack[1] == a && stack[2] == b;
    RunEmpty();
    RunStep(PREFIXED, [], e);
    RunStep(PREFIXED, [e], a);
    RunStep(PREFIXED, [e, a], b);
    RunStep(PREFIXED, [e, a, b], c);
    assert [] + [e] == [e] && [e] + [a] == [e, a] && [e, a] + [b] == [e, a, b];
    assert [e] + LeafList(behind) == [e, a, b] + [c];
    PrefixStep([], e);
    PrefixStep([e], a);
    PrefixStep([e, a], b);
    PrefixEnd([e, a, b], c);
  }

  lemma RunEmpty()
    ensures Run(PREFIXED, []) == State(PREFIXED, [], [])
  {}

  lemma RunStep(fmt: Format, list: seq<Element>, e: Element)
    requires Copy(e) == e
    ensures Run(fmt, list + [e]) == Step(Run(fmt, list), e)
  {
    hide Step, Copy;
    assert (list + [e])[..|list|] == list;
  }

  lemma {:induction false} NoValues(s: seq<Element>)
    requires forall i | 0 <= i < |s| :: !s[i].token.Value?
    ensures Values(s) == []
    decreases |s|
  {
    if s == [] {
    } else {
      NoValues(s[..|s| - 1]);
    }
  }

  lemma NothingGathered(text: string, s: seq<Element>)
    requires forall i | 0 <= i < |s| :: !s[i].token.Value? && !s[i].token.Key?
    ensures Gather(text, 1, s, []) == []
  {
    NoValues(s);
    hide Values;
  }

  // ---------- a message ----------

  function Message(open: Tok, v: Content, behind: seq<Tok>, close: Tok): seq<Tok>
  {
    [open] + ContentToks(v) + behind + [close]
  }

  function OuterGroup(v: Content, behind: seq<Tok>, close: Tok): Element
  {
    ClosedGroup(PREFIXED, ContentList(v) + LeafList(behind), close)
  }

  predicate IsMessage(open: Tok, v: Content, st: Style, behind: seq<Tok>, close: Tok)
  {
    && ContentOk(v, st) && v.Nested? && v.before == [] && v.after == [] && v.open.token.LParen?
    && open.token.LParen? && close.token.RParen? && IsBehind(behind)
  }

  lemma MessageParts(open: Tok, v: Content, st: Style, behind: seq<Tok>, close: Tok)
    requires IsMessage(open, v, st, behind, close)
    ensures
      var toks := Message(open, v, behind, close);
      && toks != [] && toks[0] == open && IsOpener(open.token) && Closes(open.token, close.token)
      && toks[1..] == ContentToks(v) + (behind + [close]) && Descent.EndsWell(toks) && AllFlat(behind)
      && ContentOk(v, st)
  {
    hide ContentOk, ContentToks, FieldsOk, Whole;
    var toks := Message(open, v, behind, close);
    assert toks[|toks| - 1] == close;
  }

  // The tokens that count for the outer brackets.
  lemma OuterSeen(open: Tok, v: Content, st: Style, behind: seq<Tok>, close: Tok)
    requires IsMessage(open, v, st, behind, close)
    ensures TokenSeq(ContentLevel(v)) + TokenSeq(behind) + [close.token] ==
      [LParen, Comma, Comma, Colon, RParen]
  {
    hide ContentOk;
    assert ContentLevel(v) == [v.open];
  }

  lemma MessageDiscovered(open: Tok, v: Content, st: Style, behind: seq<Tok>, close: Tok)
    requires IsMessage(open, v, st, behind, close)
    ensures Discovered(Message(open, v, behind, close)).elems == [OuterGroup(v, behind, close)]
  {
    hide *;
    var toks, rest := Message(open, v, behind, close), behind + [close];
    var inner, seen := ContentList(v) + LeafList(behind), TokenSeq(ContentLevel(v)) + TokenSeq(behind);
    MessageParts(open, v, st, behind, close);
    ReadContent(open.token, [], [], v, st, rest);
    Nothing(ContentList(v), TokenSeq(ContentLevel(v)));
    ReadFlat(open.token, ContentList(v), TokenSeq(ContentLevel(v)), behind, [close]);
    ReadGroup(Invalid, [], [], toks, inner, seen, [close]);
    OuterSeen(open, v, st, behind, close);
    WidePrefixed();
    Outer(v, behind, close);
    var group := OuterGroup(v, behind, close);
    assert [close][1..] == [] && [] + [group] == [group] && [] + [open.token] == [open.token];
    ReadEnd([group], [open.token]);
    Descent.MachineIsDescent(toks);
    MessageRead(toks);
  }

  lemma Outer(v: Content, behind: seq<Tok>, close: Tok)
    ensures OuterGroup(v, behind, close) == ClosedGroup(PREFIXED, ContentList(v) + LeafList(behind), close)
  {}

  // In the message that is discovered the group in brackets keeps its capture, while the one inside has that of its
  // pairs.
  lemma OuterPaired(text: string, open: Tok, v: Content, st: Style, behind: seq<Tok>, close: Tok)
    requires IsMessage(open, v, st, behind, close)
    ensures
      var e := OuterGroup(v, behind, close);
      && e.token.Group? && e.subs.List? && e.subs.elems != [] && Spans(e)
      && e.subs.elems[0] == ContentList(v)[0] && ContentList(v) != []
      && Paired(text, 1, e.subs.elems[0]) == GroupOf(v)
      && Pairup(text, 1, e.subs.format, e.subs.elems).pairs == []
  {
    hide *;
    OneElement(v, st, open, behind, close);
    var g := ContentList(v)[0];
    OuterShape(v, behind, close);
    MessageOk(open, v, st, behind, close);
    ContentCases(v, st);
    ListPaired(text, 2, v.fields, v.style);
    FoundInside(2, v.fields);
    PairedGroup(text, 1, v);
    PairedMore(text, 1, [g], LeafList(behind));
    PairedOne(text, 1, g);
    PairedLeaves(text, 1, behind);
    GroupToken(v);
    NothingFound(text, GroupOf(v), behind);
    PairupCut(text, 1, PREFIXED, [g] + LeafList(behind));
    NothingCut();
  }

  lemma NothingCut()
    ensures Cut([]) == []
  {}

  lemma MessageOk(open: Tok, v: Content, st: Style, behind: seq<Tok>, close: Tok)
    requires IsMessage(open, v, st, behind, close)
    ensures ContentOk(v, st) && v.Nested? && IsBehind(behind) && forall i | 0 <= i < |behind| :: !behind[i].token.Group?
  {
    hide ContentOk;
  }

  lemma OneElement(v: Content, st: Style, open: Tok, behind: seq<Tok>, close: Tok)
    requires IsMessage(open, v, st, behind, close)
    ensures ContentList(v) ==
      [ClosedGroup(FormatOfFields(v.style, v.fields), ListOf(v.fields), v.close)]
  {
    hide ContentOk, ClosedGroup, ListOf, FormatOfFields;
  }

  lemma OuterShape(v: Content, behind: seq<Tok>, close: Tok)
    requires |ContentList(v)| == 1
    ensures
      var e := OuterGroup(v, behind, close);
      && e.token.Group? && e.subs == List(PREFIXED, [ContentList(v)[0]] + LeafList(behind)) && Spans(e)
      && e.subs.elems != [] && e.subs.elems[0] == ContentList(v)[0]
  {
    hide ContentList, LeafList;
    assert ContentList(v) == [ContentList(v)[0]];
  }

  // Where the list of fields and their pairs begin.
  lemma {:induction false} ListBegins(fs: seq<Field>)
    requires fs != [] && fs[0].Field?
    ensures ListOf(fs) != [] && ListOf(fs)[0] == Leaf((fs[0].space + [fs[0].key])[0])
    decreases |fs|
  {
    hide ContentList, LeafList;
    var n := |fs| - 1;
    if n == 0 {
      assert ListOf(fs[..n]) == [];
      assert Head(fs[0])[0] == (fs[0].space + [fs[0].key])[0];
    } else {
      ListBegins(fs[..n]);
    }
  }

  lemma GroupBegins(v: Content)
    requires v.Nested? && v.fields != [] && v.fields[0].Field?
    ensures GroupOf(v).cb == v.fields[0].key.cb
  {
    BoardAt(v.fields, 0);
    assert !AllAlone(Board(v.fields));
    hide ValueOfField, FieldPairs, Board, AllAlone;
    FieldPairAt(v.fields, 0);
    assert Cut(Found(1, v.fields)) != [] && Cut(Found(1, v.fields))[0] == FieldPairs(v.fields)[0];
  }

  // So with white space before the first key the group is wider than what it holds.
  lemma StaysWide(text: string, open: Tok, v: Content, st: Style, behind: seq<Tok>, close: Tok)
    requires IsMessage(open, v, st, behind, close)
    requires v.fields[0].Field? && v.fields[0].space != [] && v.fields[0].space[0].cb < v.fields[0].key.cb
    ensures
      var d := Discovered(Message(open, v, behind, close));
      |d.elems| == 1 && Spans(d.elems[0]) && !Spans(Paired(text, 0, d.elems[0]))
  {
    hide *;
    MessageDiscovered(open, v, st, behind, close);
    OuterPaired(text, open, v, st, behind, close);
    SpansIff(text, 0, OuterGroup(v, behind, close));
    MessageOk(open, v, st, behind, close);
    ContentCases(v, st);
    OneElement(v, st, open, behind, close);
    GroupBegins(v);
    ListBegins(v.fields);
    FirstCapture(v);
  }

  lemma FirstCapture(v: Content)
    requires v.Nested? && v.fields != [] && ListOf(v.fields) != []
    requires v.fields[0].Field? && v.fields[0].space != []
    requires ListOf(v.fields)[0] == Leaf((v.fields[0].space + [v.fields[0].key])[0])
    ensures ClosedGroup(FormatOfFields(v.style, v.fields), ListOf(v.fields), v.close).cb == v.fields[0].space[0].cb
  {
    hide ListOf, FormatOfFields;
  }

  const EXAMPLE_FIELD := Field(
    Tok(Comma, 0, 0), [Tok(White, 2, 3)], Tok(Word, 3, 4), [], Tok(Equals, 4, 5), Plain([Tok(Number, 5, 6)]))
  const EXAMPLE :=
    Nested([], Tok(LParen, 1, 2), Style(Comma, Equals), [EXAMPLE_FIELD], Tok(RParen, 6, 7), [])
  const EXAMPLE_END := [Tok(Comma, 7, 8), Tok(Comma, 8, 9), Tok(Colon, 9, 10)]

  lemma ExampleField(st: Style)
    requires st == Style(Comma, Equals)
    ensures FieldOk(EXAMPLE_FIELD, st) && StyleOk(st) && Whole([EXAMPLE_FIELD], st)
  {
    hide ContentOk, Solid, Parts, LeafList;
    TokenValue(Tok(Number, 5, 6), st);
  }

  lemma NestedOk(open: Tok, f: Field, st: Style, close: Tok, outer: Style)
    requires FieldOk(f, st) && StyleOk(st) && Whole([f], st) && IsOpener(open.token) && Closes(open.token, close.token)
    ensures ContentOk(Nested([], open, st, [f], close, []), outer)
  {
    hide FieldOk, StyleOk, Whole;
    assert forall i | 0 <= i < |[f]| :: [f][i] == f;
  }

  lemma ExampleMessage(st: Style)
    requires st == Style(Comma, Equals)
    ensures IsMessage(Tok(LParen, 0, 1), EXAMPLE, st, EXAMPLE_END, Tok(RParen, 10, 11))
  {
    hide FieldOk, Whole, StyleOk, ContentOk;
    ExampleField(st);
    NestedOk(Tok(LParen, 1, 2), EXAMPLE_FIELD, st, Tok(RParen, 6, 7), st);
    assert EXAMPLE == Nested([], Tok(LParen, 1, 2), st, [EXAMPLE_FIELD], Tok(RParen, 6, 7), []);
  }

  lemma ExampleTokens()
    ensures TokensOk(Message(Tok(LParen, 0, 1), EXAMPLE, EXAMPLE_END, Tok(RParen, 10, 11)), 0, 11)
  {
    var f := EXAMPLE_FIELD;
    hide TokensOk, Stream, Consecutive;
    OneFieldStream(f);
    assert Head(f) == [Tok(White, 2, 3), Tok(Word, 3, 4), Tok(Equals, 4, 5)];
    assert ContentToks(f.value) == [Tok(Number, 5, 6)];
    assert Message(Tok(LParen, 0, 1), EXAMPLE, EXAMPLE_END, Tok(RParen, 10, 11)) == [
      Tok(LParen, 0, 1), Tok(LParen, 1, 2), Tok(White, 2, 3), Tok(Word, 3, 4), Tok(Equals, 4, 5), Tok(Number, 5, 6),
      Tok(RParen, 6, 7), Tok(Comma, 7, 8), Tok(Comma, 8, 9), Tok(Colon, 9, 10), Tok(RParen, 10, 11)];
    ElevenTokens();
    ConsecutiveOk(Message(Tok(LParen, 0, 1), EXAMPLE, EXAMPLE_END, Tok(RParen, 10, 11)));
  }

  lemma OneFieldStream(f: Field)
    ensures Stream([f]) == Head(f) + ContentToks(f.value)
  {
    hide Head, ContentToks;
    assert [f][..0] == [] && Stream([f]) == Stream([f][..0]) + Lead([f]) + Head(f) + ContentToks(f.value);
  }

  // Tokens of a character each, one behind the other.
  predicate Consecutive(toks: seq<Tok>)
  {
    forall i | 0 <= i < |toks| :: toks[i] == Tok(toks[i].token, i, i + 1) && IsTerminal(toks[i].token)
                                  && !toks[i].token.Unit?
  }

  lemma ConsecutiveOk(toks: seq<Tok>)
    requires Consecutive(toks)
    ensures TokensOk(toks, 0, |toks|)
  {
    hide IsTerminal;
  }

  lemma ElevenTokens()
    ensures Consecutive([
      Tok(LParen, 0, 1), Tok(LParen, 1, 2), Tok(White, 2, 3), Tok(Word, 3, 4), Tok(Equals, 4, 5), Tok(Number, 5, 6),
      Tok(RParen, 6, 7), Tok(Comma, 7, 8), Tok(Comma, 8, 9), Tok(Colon, 9, 10), Tok(RParen, 10, 11)])
  {}

  // The message (( a=1),,:) is one of them.
  lemma WideExample(text: string)
    ensures
      var toks := Message(Tok(LParen, 0, 1), EXAMPLE, EXAMPLE_END, Tok(RParen, 10, 11));
      && TokensOk(toks, 0, 11)
      && var d := Discovered(toks);
      |d.elems| == 1 && Spans(d.elems[0]) && !Spans(Paired(text, 0, d.elems[0]))
  {
    hide Message, TokensOk, Discovered, Spans, Paired, IsMessage;
    ExampleTokens();
    ExampleMessage(Style(Comma, Equals));
    StaysWide(text, Tok(LParen, 0, 1), EXAMPLE, Style(Comma, Equals), EXAMPLE_END, Tok(RParen, 10, 11));
  }
}
