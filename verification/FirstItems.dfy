// Lists whose first field has no key and several elements, such as "user bob7, id 7, level=3": before anything has been
// pushed its values are taken apart.
module FirstItems {
  import opened Tokens
  import opened Elements
  import opened KeyScan
  import opened Pairing
  import opened Pairs
  import opened Dfs
  import opened Discover
  import opened Boards
  import opened Fields
  import opened FieldFormats
  import opened FieldTrees
  import opened FieldPairing
  import opened PlainLists
  import PlainPairing
  import LateSeparators

  // Such a list, and the elements of its first field as values with all that comes before each.
  predicate FirstOk(first: Field, x: Stretch, fs: seq<Field>, st: Style)
  {
    && fs != [] && FieldsOk([first] + fs, st) && Shaped([first] + fs, st) && !st.end.Semi?
    && first.Item? && first.value.Plain? && PlainPairing.ShapeOk(x)
    && Glued(x.chunks) + x.rest == LeafList(Solid(first.value.toks))
  }

  // What the list says: its first field as in a list that nothing ends fields of, and then the others.
  function FirstBoard(text: string, x: Stretch, fs: seq<Field>): seq<Said>
  {
    SayEnd(text, [], x) + Board(fs)
  }

  lemma FirstParts(first: Field, x: Stretch, fs: seq<Field>, st: Style)
    requires FirstOk(first, x, fs, st)
    ensures fs != [] && FieldsOk([first] + fs, st) && Shaped([first] + fs, st) && StyleOk(st) && !st.end.Semi?
    ensures first.Item? && first.value.Plain? && PlainPairing.ShapeOk(x) && ContentOk(first.value, st)
    ensures Glued(x.chunks) + x.rest == LeafList(Solid(first.value.toks)) != []
  {
    hide Shaped, PlainPairing.ShapeOk, Solid, Parts, IsPart;
    assert ([first] + fs)[0] == first;
    NoParts();
    assert FieldOk(first, st);
  }

  lemma NoParts()
    ensures Parts([]) == []
  {}

  // ---------- the board ----------

  lemma {:induction false} SpreadJoin(a: seq<Said>, b: seq<Said>)
    ensures Spread(a + b) == Spread(a) + Spread(b)
    decreases |b|
  {
    hide SpreadOne;
    if b == [] {
      assert a + b == a;
    } else {
      SpreadJoin(a, b[..|b| - 1]);
      assert (a + b)[..|a + b| - 1] == a + b[..|b| - 1];
    }
  }

  // The first field leaves no key that waits.
  lemma FirstAnswers(text: string, x: Stretch)
    requires x.chunks != [] || x.rest != []
    ensures SayEnd(text, [], x) != [] && !Awaits(SayEnd(text, [], x))
  {
    hide SayValues, Make, MakeBare;
    if x.chunks != [] {
      var n := |x.chunks| - 1;
      hide SayChunks, SayChunk, EndsInWord;
      ChunksAnswer(text, [], x.chunks);
    }
  }

  lemma ChunksAnswer(text: string, b: seq<Said>, cs: seq<Chunk>)
    requires cs != [] && b == []
    ensures SayValues(text, b, cs) != [] && !Awaits(SayValues(text, b, cs))
  {
    var n := |cs| - 1;
    hide HasWord, Make, BlankValue;
    assert SayValues(text, b, cs) == SayChunk(text, SayChunks(text, b, cs[..n]), cs[n]);
  }

  lemma FirstBoardOk(text: string, x: Stretch, fs: seq<Field>)
    requires BoardOk(text, SayEnd(text, [], x)) && (x.chunks != [] || x.rest != [])
    ensures
      var b := FirstBoard(text, x, fs);
      b != [] && BoardOk(text, b) && !Awaits(b)
  {
    hide *;
    FirstAnswers(text, x);
    BoardIsOk(text, fs);
    FirstBoardIs(text, x, fs);
    JoinOk(text, SayEnd(text, [], x), Board(fs));
  }

  lemma JoinOk(text: string, a: seq<Said>, b: seq<Said>)
    requires a != [] && BoardOk(text, a) && BoardOk(text, b) && !Awaits(a) && !Awaits(b)
    ensures BoardOk(text, a + b) && !Awaits(a + b) && a + b != []
  {
    hide SaidOk;
    var all := a + b;
    assert forall i | 0 <= i < |all| :: all[i] == if i < |a| then a[i] else b[i - |a|];
  }

  lemma FirstBoardStep(text: string, x: Stretch, fs: seq<Field>)
    requires fs != []
    ensures Spread(FirstBoard(text, x, fs)) == Spread(FirstBoard(text, x, fs[..|fs| - 1])) + SpreadOne(SaidOf(fs[|fs| - 1]))
    ensures FirstBoard(text, x, []) == SayEnd(text, [], x)
  {
    hide *;
    var a, n := SayEnd(text, [], x), |fs| - 1;
    FirstBoardIs(text, x, fs);
    FirstBoardIs(text, x, fs[..n]);
    FirstBoardIs(text, x, []);
    SpreadJoin(a, Board(fs));
    SpreadJoin(a, Board(fs[..n]));
    FieldPairing.BoardStep(fs);
    NoBoard();
    assert a + [] == a;
  }

  lemma FirstBoardIs(text: string, x: Stretch, fs: seq<Field>)
    ensures FirstBoard(text, x, fs) == SayEnd(text, [], x) + Board(fs)
  {}

  lemma NoBoard()
    ensures Board([]) == []
  {}

  // ---------- the end of the first field ----------

  // As long as nothing has been pushed and nothing ends a field, the end of the list does not depend on the format.
  lemma SameEnd(fmt: Format, fmt': Format, comps: seq<Element>)
    requires forall i | 0 <= i < |comps| :: !IsBreak(fmt, comps[i]) && !IsBreak(fmt', comps[i])
    ensures AtEnd(fmt, [], comps) == AtEnd(fmt', [], comps)
  {
    SameScan(fmt, fmt', comps);
    hide Scan, ValueOf, KeyOf, IsKeyed, IsBreak;
  }

  lemma SameScan(fmt: Format, fmt': Format, comps: seq<Element>)
    requires forall i | 0 <= i < |comps| :: !IsBreak(fmt, comps[i]) && !IsBreak(fmt', comps[i])
    ensures Scan(fmt, [], comps) == Scan(fmt', [], comps)
  {
    LateSeparators.NoBreaks(fmt, comps);
    LateSeparators.NoBreaks(fmt', comps);
    hide LastBreak, IsBreak, LastValue, Runs, Absorb, LastKeyWord, NoKeys;
    assert TakesApart(fmt, [], comps) == TakesApart(fmt', [], comps);
  }

  lemma FirstEnds(text: string, fmt: Format, first: Field, x: Stretch, st: Style)
    requires first.Item? && first.value.Plain? && ContentOk(first.value, st) && ListFormat(fmt, st) && !st.end.Semi?
    requires PlainPairing.ShapeOk(x) && Glued(x.chunks) + x.rest == LeafList(Solid(first.value.toks))
    ensures
      var s := StepAll(State(fmt, [], []), ShownContent(first.value));
      && s == State(fmt, [], LeafList(Solid(first.value.toks)))
      && AtEnd(fmt, [], s.comps) == Spread(SayEnd(text, [], x)) && BoardOk(text, SayEnd(text, [], x))
  {
    hide *;
    var s0, comps := State(fmt, [], []), LeafList(Solid(first.value.toks));
    PlainItem(first, st);
    StepPlain(s0, first.value.toks, st);
    assert [] + comps == comps;
    FirstBreaks(fmt, first.value.toks, st);
    SameEnd(fmt, FORMAT_PLAIN, comps);
    NothingYetSaid(text);
    PlainPairing.EndSaid(text, FORMAT_PLAIN, [], x);
  }

  lemma PlainItem(first: Field, st: Style)
    requires first.value.Plain? && ContentOk(first.value, st)
    ensures ShownContent(first.value) == LeafList(first.value.toks)
    ensures forall i | 0 <= i < |first.value.toks| :: IsPart(first.value.toks[i].token, st)
  {
    hide IsPart, Parts, Solid;
  }

  lemma NothingYetSaid(text: string)
    ensures BoardOk(text, []) && Spread([]) == [] && PlainPairing.IsPlainFormat(FORMAT_PLAIN)
  {}

  lemma FirstBreaks(fmt: Format, toks: seq<Tok>, st: Style)
    requires ListFormat(fmt, st) && !st.end.Semi? && forall i | 0 <= i < |toks| :: IsPart(toks[i].token, st)
    ensures
      forall i | 0 <= i < |Solid(toks)| ::
        !IsBreak(fmt, LeafList(Solid(toks))[i]) && !IsBreak(FORMAT_PLAIN, LeafList(Solid(toks))[i])
  {
    SolidParts(toks, st);
    var vs := LeafList(Solid(toks));
    hide Solid, IsPart, ListFormat, IsBreak;
    forall i | 0 <= i < |vs|
      ensures !IsBreak(fmt, vs[i]) && !IsBreak(FORMAT_PLAIN, vs[i])
    {
      BitBreaks(fmt, vs[i], st);
      NoPlainBreak(vs[i], st);
    }
  }

  lemma NoPlainBreak(e: Element, st: Style)
    requires IsBit(e.token, st)
    ensures !IsBreak(FORMAT_PLAIN, e)
  {}

  // ---------- the other fields ----------

  // Behind the end of another field, an item adds what it says.
  lemma ItemBehind(here: State, f: Field, st: Style)
    requires f.Item? && ContentOk(f.value, st) && ListFormat(here.fmt, st) && !st.end.Semi? && OnlyEnd(here.comps, st)
    requires here.comps != [] && here.fmt.terminator == st.end && !here.fmt.terminator.Invalid?
    requires here.stack != [] && !here.stack[|here.stack| - 1].token.Key?
    ensures
      var s := StepAll(here, ShownContent(f.value));
      && s.fmt == here.fmt && s.stack != []
      && AtEnd(here.fmt, s.stack, s.comps) == here.stack + SpreadOne(SaidOf(f))
  {
    hide *;
    ContentStep(here, f.value, st);
    AfterFormat(here, f.value);
    LateSeparators.AfterSome(here, f.value);
    AfterIs(here, f.value);
    if f.value.Nested? {
      BareGroup(f);
      AnsweredSpread(ValueOfField(f), ValueOfField(f));
      NothingEnds(here.fmt, here.stack + [Make(Value, [GroupOf(f.value)])]);
    } else {
      IsBare(here, Components(f.value), st);
      ComponentParts(f.value, st);
      BareIsSaid(f, st);
      BareEnds(here, Components(f.value), st);
    }
  }

  lemma AfterIs(s: State, v: Content)
    ensures v.Nested? ==> After(s, v) == State(s.fmt, s.stack + [Make(Value, [GroupOf(v)])], [])
    ensures !v.Nested? ==> After(s, v) == State(s.fmt, s.stack, s.comps + Components(v))
  {
    hide GroupOf, Components;
  }

  lemma IsBare(here: State, vs: seq<Element>, st: Style)
    requires ListFormat(here.fmt, st) && !st.end.Semi? && OnlyEnd(here.comps, st)
    requires here.comps != [] && here.fmt.terminator == st.end && !here.fmt.terminator.Invalid?
    requires here.stack != [] && !here.stack[|here.stack| - 1].token.Key?
    ensures Bare(here, vs, st)
  {
    hide ListFormat, OnlyEnd;
  }

  lemma IsStart(here: State, st: Style)
    requires ListFormat(here.fmt, st) && OnlyEnd(here.comps, st) && here.fmt.separator == st.sep
    requires here.comps != [] && here.fmt.terminator == st.end && here.stack != []
    ensures Starts(here, st)
  {
    hide ListFormat, OnlyEnd;
  }

  lemma OneEnd(lead: Tok, st: Style)
    requires lead.token == st.end
    ensures OnlyEnd([Leaf(lead)], st)
  {}

  // Whatever the field is, behind the end of another one it adds what it says.
  lemma FieldBehind(fmt: Format, stack: seq<Element>, f: Field, st: Style)
    requires FieldOk(f, st) && ListFormat(fmt, st) && !st.end.Semi? && fmt.terminator == st.end && !fmt.terminator.Invalid?
    requires stack != [] && !stack[|stack| - 1].token.Key? && (f.Field? ==> fmt.separator == st.sep)
    ensures
      var here := State(fmt, stack, [Leaf(f.lead)]);
      var s := StepAll(StepAll(here, LeafList(Head(f))), ShownContent(f.value));
      s.fmt == fmt && s.stack != [] && AtEnd(fmt, s.stack, s.comps) == stack + SpreadOne(SaidOf(f))
  {
    hide *;
    var here := State(fmt, stack, [Leaf(f.lead)]);
    FieldIsOk(f, st);
    OneEnd(f.lead, st);
    if f.Field? {
      IsStart(here, st);
      HeadStep(here, f, st);
      LateSeparators.KeyedBehind(here, f, st);
      SaidIsOk("", f);
      AnsweredSpread(KeyOfField(f), ValueOfField(f));
      assert stack + [KeyOfField(f)] + [ValueOfField(f)] == stack + [KeyOfField(f), ValueOfField(f)];
    } else {
      NoHeadThen(f);
      StepNone(here);
      ItemBehind(here, f, st);
    }
  }

  lemma NoHeadThen(f: Field)
    requires f.Item?
    ensures LeafList(Head(f)) == []
  {}

  lemma FieldIsOk(f: Field, st: Style)
    requires FieldOk(f, st)
    ensures f.lead.token == st.end && ContentOk(f.value, st)
  {
    hide ContentOk;
  }

  lemma {:induction false} FirstRun(text: string, fmt: Format, first: Field, x: Stretch, fs: seq<Field>, st: Style)
    requires FieldsOk([first] + fs, st) && ListFormat(fmt, st) && !st.end.Semi? && (x.chunks != [] || x.rest != [])
    requires fmt.terminator == st.end && !fmt.terminator.Invalid?
    requires forall i | 0 <= i < |fs| && fs[i].Field? :: fmt.separator == st.sep
    requires first.Item? && first.value.Plain? && ContentOk(first.value, st)
    requires PlainPairing.ShapeOk(x) && Glued(x.chunks) + x.rest == LeafList(Solid(first.value.toks))
    ensures
      var s := StepAll(State(fmt, [], []), Shown([first] + fs));
      && s.fmt == fmt && (fs != [] ==> s.stack != [])
      && AtEnd(fmt, s.stack, s.comps) == Spread(FirstBoard(text, x, fs)) && BoardOk(text, SayEnd(text, [], x))
    decreases |fs|
  {
    hide *;
    var all, s0 := [first] + fs, State(fmt, [], []);
    FirstEnds(text, fmt, first, x, st);
    if fs == [] {
      assert all == [first];
      FirstShown(first);
      FirstBoardIs(text, x, fs);
      NoBoard();
      assert SayEnd(text, [], x) + [] == SayEnd(text, [], x);
    } else {
      var m, n := |fs| - 1, |fs|;
      var f := fs[m];
      assert all[..n] == [first] + fs[..m] && all[n] == f;
      var before, lead := Shown(all[..n]), LeafList(Lead(all));
      FieldStepOk(all, st);
      FirstRun(text, fmt, first, x, fs[..m], st);
      FirstBoardOk(text, x, fs[..m]);
      SpreadTop(text, FirstBoard(text, x, fs[..m]));
      LeadLeaf(all, st);
      StepOne(s0, before, Leaf(f.lead));
      EndStep(StepAll(s0, before), Leaf(f.lead), st);
      FieldBehind(fmt, Spread(FirstBoard(text, x, fs[..m])), f, st);
      ShownStep(all);
      StepParts(s0, before + lead, LeafList(Head(f)));
      StepParts(s0, before + lead + LeafList(Head(f)), ShownContent(f.value));
      FirstBoardStep(text, x, fs);
    }
  }

  lemma FirstShown(first: Field)
    requires first.Item?
    ensures Shown([first]) == ShownContent(first.value)
  {
    hide ShownContent;
    assert [first][..0] == [] && LeafList([] + []) == [];
  }

  // ---------- messages ----------

  lemma FirstFormat(first: Field, fs: seq<Field>, st: Style)
    requires fs != [] && StyleOk(st) && !st.end.Semi? && Shaped([first] + fs, st)
    ensures
      var fmt := FormatOfFields(st, [first] + fs);
      && ListFormat(fmt, st) && fmt.terminator == st.end && !fmt.terminator.Invalid?
      && forall i | 0 <= i < |fs| && fs[i].Field? :: fmt.separator == st.sep
  {
    hide *;
    SomeKeyed(first, fs);
    ListHasFormat([first] + fs, st);
  }

  lemma SomeKeyed(first: Field, fs: seq<Field>)
    ensures KeyedCount([first] + fs) == 0 ==> forall i | 0 <= i < |fs| :: fs[i].Item?
  {
    hide KeyedCount;
    assert forall i | 0 <= i < |fs| :: ([first] + fs)[i + 1] == fs[i];
  }

  lemma ListHasFormat(fs: seq<Field>, st: Style)
    requires |fs| > 1 && StyleOk(st) && !st.end.Semi? && Shaped(fs, st)
    ensures
      var fmt := FormatOfFields(st, fs);
      && ListFormat(fmt, st) && fmt.terminator == st.end && !fmt.terminator.Invalid?
      && (KeyedCount(fs) > 0 ==> fmt.separator == st.sep)
  {
    hide KeyedCount, Guessed;
  }

  // The pairs are those of the first field, taken apart, and then those of the others, in order.
  lemma FirstApart(text: string, first: Field, x: Stretch, fs: seq<Field>, st: Style)
    requires FirstOk(first, x, fs, st)
    ensures
      var d := Discovered(Stream([first] + fs));
      Pairup(text, 0, d.format, d.elems).pairs == Cut(PairsOn(SayEnd(text, [], x)) + FieldPairs(fs))
  {
    hide *;
    FirstParts(first, x, fs, st);
    var all := [first] + fs;
    var fmt := FormatOfFields(st, all);
    var b := FirstBoard(text, x, fs);
    FieldsDiscovered(all, st);
    ShownAll(text, 0, all, st);
    PairupCut(text, 0, fmt, ListOf(all));
    ShownSettled(all);
    RunIsSteps(fmt, Shown(all));
    FirstFormat(first, fs, st);
    SomeElements(x);
    FirstRun(text, fmt, first, x, fs, st);
    FirstBoardOk(text, x, fs);
    CollectSome(text, 0, fmt, Shown(all));
    EmptyBase();
    GatherTold(text, 0, [], b);
    assert [] + Spread(b) == Spread(b);
    FirstTold(text, x, fs);
  }

  lemma SomeElements(x: Stretch)
    requires Glued(x.chunks) + x.rest != []
    ensures x.chunks != [] || x.rest != []
  {}

  lemma {:induction false} PairsJoin(a: seq<Said>, b: seq<Said>)
    ensures PairsOn(a + b) == PairsOn(a) + PairsOn(b)
    decreases |b|
  {
    hide PairOf;
    if b == [] {
      assert a + b == a;
    } else {
      PairsJoin(a, b[..|b| - 1]);
      assert (a + b)[..|a + b| - 1] == a + b[..|b| - 1];
    }
  }

  lemma FirstTold(text: string, x: Stretch, fs: seq<Field>)
    requires fs != [] && (x.chunks != [] || x.rest != []) && !Awaits(FirstBoard(text, x, fs))
    ensures Told(0, FirstBoard(text, x, fs)) == PairsOn(SayEnd(text, [], x)) + FieldPairs(fs)
  {
    hide SayEnd, Board, PairsOn;
    FirstAnswers(text, x);
    PairsJoin(SayEnd(text, [], x), Board(fs));
    LateSeparators.PairsOfFields(fs);
  }

  // So a word and a value, ended like any field, are a key and its value also where they come first.
  lemma FirstWordTaken(text: string, first: Field, word: Tok, value: Tok, fs: seq<Field>, st: Style)
    requires fs != [] && FieldsOk([first] + fs, st) && Shaped([first] + fs, st) && !st.end.Semi?
    requires first.Item? && first.value.Plain? && Solid(first.value.toks) == [word, value]
    requires word.token.Word? && IsValue(value.token)
    ensures
      var d := Discovered(Stream([first] + fs));
      Pairup(text, 0, d.format, d.elems).pairs ==
        Cut([Make(Pair, [Make(Key, [Leaf(word)]), Make(Value, [Leaf(value)])])] + FieldPairs(fs))
  {
    hide *;
    var x := Stretch([], [Chunk([Leaf(word)], Leaf(value))], []);
    WordShape(word, value);
    WordIsFirst(first, x, fs, st);
    FirstApart(text, first, x, fs, st);
    WordSaid(text, word, value);
  }

  lemma WordShape(word: Tok, value: Tok)
    requires word.token.Word? && IsValue(value.token)
    ensures
      var x := Stretch([], [Chunk([Leaf(word)], Leaf(value))], []);
      PlainPairing.ShapeOk(x) && Glued(x.chunks) + x.rest == LeafList([word, value])
  {
    var c := Chunk([Leaf(word)], Leaf(value));
    assert [c][..0] == [] && Glued([c]) == Glued([c][..0]) + c.junk + [c.value];
    assert Glued([c]) + [] == LeafList([word, value]);
    KeyNoValue(word.token, value.token);
    hide IsValue, IsSpace;
  }

  lemma KeyNoValue(word: Token, value: Token)
    requires word.Word? && IsValue(value)
    ensures !IsValue(word) && !IsSpace(word) && !IsSpace(value) && !value.Comma? && !value.Invalid?
  {}

  lemma WordIsFirst(first: Field, x: Stretch, fs: seq<Field>, st: Style)
    requires fs != [] && FieldsOk([first] + fs, st) && Shaped([first] + fs, st) && !st.end.Semi?
    requires first.Item? && first.value.Plain? && PlainPairing.ShapeOk(x)
    requires Glued(x.chunks) + x.rest == LeafList(Solid(first.value.toks))
    ensures FirstOk(first, x, fs, st)
  {
    hide FieldsOk, Shaped, PlainPairing.ShapeOk, Glued, Solid;
  }

  lemma WordSaid(text: string, word: Tok, value: Tok)
    requires word.token.Word?
    ensures
      PairsOn(SayEnd(text, [], Stretch([], [Chunk([Leaf(word)], Leaf(value))], []))) ==
        [Make(Pair, [Make(Key, [Leaf(word)]), Make(Value, [Leaf(value)])])]
  {
    var c := Chunk([Leaf(word)], Leaf(value));
    var k, v := Make(Key, [Leaf(word)]), Make(Value, [Leaf(value)]);
    hide Make, BlankValue;
    assert HasWord(c) && [c][..0] == [];
    var asked := AddKey(text, [], k);
    assert asked[..0] == [] && SayChunk(text, [], c) == [Answered(k, v)];
    assert SayChunks(text, [], [c]) == SayChunk(text, SayChunks(text, [], [c][..0]), c);
    assert [Answered(k, v)][..0] == [];
  }
}
