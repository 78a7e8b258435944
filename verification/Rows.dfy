// Rows of values without keys: when commas make a list of them, and what is left of them otherwise.
module Rows {
  import opened Tokens
  import opened Elements
  import opened Pairing
  import opened Pairs
  import opened Dfs
  import opened Discover
  import opened Boards
  import opened Fields
  import opened FieldFormats
  import opened FieldTrees
  import opened FieldPairing
  import Descent

  // ---------- when commas end the fields ----------

  // Of a value without a key that is not in brackets, the first token is passed over, and then a word expects a separator.
  lemma {:induction false} BareState(m: FormatState, st: Style, toks: seq<Tok>, ends: nat, seps: nat)
    requires StyleOk(st) && st.end.Comma? && Seen(m, st, ends, seps) && Auto(m, st).DfsInit? && toks != []
    requires forall i | 0 <= i < |toks| :: IsInner(toks[i].token, st) && !IsOpener(toks[i].token)
    ensures Seen(FoldFrom(m, toks), st, ends, seps)
    ensures Auto(FoldFrom(m, toks), st) ==
      if exists i | 0 < i < |toks| :: toks[i].token.Word? then DfsExpectingSep else DfsKey
    decreases |toks|
  {
    hide Update, Seen, Auto, Next, IsInner, Counts, StyleOk, IsOpener;
    var n := |toks| - 1;
    var m1, t := FoldFrom(m, toks[..n]), toks[n].token;
    KeyCounts(st, t);
    if n == 0 {
      assert toks[..0] == [];
      OneInner(st, Auto(m, st), t);
    } else {
      BareState(m, st, toks[..n], ends, seps);
      OneInner(st, Auto(m1, st), t);
      assert forall i | 0 < i < n :: toks[..n][i] == toks[i];
    }
    SeenStep(m1, st, t, ends, seps);
  }

  lemma OneInner(st: Style, a: DfsState, t: Token)
    requires StyleOk(st) && st.end.Comma? && IsInner(t, st) && !IsOpener(t)
    ensures a.DfsInit? ==> Next(st, a, t).DfsKey?
    ensures a.DfsKey? ==> Next(st, a, t) == if t.Word? then DfsExpectingSep else DfsKey
    ensures a.DfsExpectingSep? ==> Next(st, a, t).DfsExpectingSep?
  {
    hide CommaNext, SemiNext;
    CommaStates(a, t);
  }

  // Then a comma makes the automaton fail for good.
  lemma CommaFails(m: FormatState, st: Style)
    requires st.end.Comma? && Auto(m, st).DfsExpectingSep? && (m.prefix.DfsInit? || m.prefix.DfsError?)
    ensures Update(m, Comma).prefix == DfsError && Update(m, Comma).comma == DfsError
  {}

  lemma PrefixStates(toks: seq<Tok>)
    ensures FoldFrom(INITIAL, toks).prefix.DfsInit? || FoldFrom(INITIAL, toks).prefix.DfsError?
  {
    FoldIsFold(toks);
    PrefixRun(TokenSeq(toks));
    hide Fold, FoldFrom;
  }

  lemma {:induction false} FailedStays(m: FormatState, toks: seq<Tok>)
    requires m.prefix == DfsError && m.comma == DfsError
    ensures FoldFrom(m, toks).comma == DfsError && FoldFrom(m, toks).prefix == DfsError
    decreases |toks|
  {
    hide SemiNext;
    if toks == [] {
    } else {
      FailedStays(m, toks[..|toks| - 1]);
    }
  }

  // The tokens of the first fields, the end of the last of these, and the others.
  lemma {:induction false} LevelSplit(fs: seq<Field>, j: nat) returns (rest: seq<Tok>)
    requires 0 < j < |fs|
    ensures LevelToks(fs) == LevelToks(fs[..j]) + [fs[j].lead] + rest
    decreases |fs|
  {
    hide LevelToks, Head, ContentLevel;
    var n := |fs| - 1;
    var here := LevelLast(fs);
    if j == n {
      rest := here;
    } else {
      var r := LevelSplit(fs[..n], j);
      assert fs[..n][..j] == fs[..j];
      var last := [fs[n].lead] + here;
      rest := r + last;
      var first := LevelToks(fs[..j]) + [fs[j].lead];
      assert first + r + last == first + (r + last);
    }
  }

  lemma LevelLast(fs: seq<Field>) returns (here: seq<Tok>)
    requires |fs| > 1
    ensures
      var n := |fs| - 1;
      LevelToks(fs) == LevelToks(fs[..n]) + [fs[n].lead] + here == LevelToks(fs[..n]) + ([fs[n].lead] + here)
  {
    hide Head, ContentLevel;
    var n := |fs| - 1;
    here := Head(fs[n]) + ContentLevel(fs[n].value);
    var before, lead, head, value := LevelToks(fs[..n]), Lead(fs), Head(fs[n]), ContentLevel(fs[n].value);
    assert before + lead + head + value == before + lead + (head + value);
  }

  predicate NoneExpects(fs: seq<Field>)
  {
    forall i | 0 <= i < |fs| - 1 :: !ExpectsSep(fs[i])
  }

  // The first field that a comma must not follow.
  lemma {:induction false} FirstExpecting(fs: seq<Field>) returns (i: nat)
    requires !NoneExpects(fs)
    ensures i < |fs| - 1 && ExpectsSep(fs[i]) && NoneExpects(fs[..i + 1])
    decreases |fs|
  {
    hide ExpectsSep;
    var k :| 0 <= k < |fs| - 1 && ExpectsSep(fs[k]);
    var less := fs[..k + 1];
    assert forall j | 0 <= j < k :: less[j] == fs[j];
    if NoneExpects(less) {
      i := k;
    } else {
      i := FirstExpecting(less);
      assert less[..i + 1] == fs[..i + 1];
    }
  }

  lemma AcceptedIff(fs: seq<Field>, st: Style)
    requires st.end.Comma?
    ensures Accepted(fs, st, false) <==> NoneExpects(fs)
  {
    hide ExpectsSep;
  }

  // The automaton accepts the fields exactly when none but the last expects a separator.
  lemma CommaAccepts(fs: seq<Field>, st: Style)
    requires fs != [] && FieldsOk(fs, st) && st.end.Comma?
    ensures FoldFrom(INITIAL, LevelToks(fs)).comma != DfsError <==> NoneExpects(fs)
  {
    hide *;
    StyleIsOk(fs, st);
    AcceptedIff(fs, st);
    NothingSeen(st);
    StartsNew(INITIAL, fs, st);
    var m := FoldFrom(INITIAL, LevelToks(fs));
    CommaIsAuto(m, st);
    if NoneExpects(fs) {
      SeenLevel(INITIAL, fs, st, false, 0, 0);
      StageRuns(Auto(m, st), fs, st, false);
    } else {
      var i := FirstExpecting(fs);
      Expecting(fs, st, i);
    }
  }

  lemma CommaIsAuto(m: FormatState, st: Style)
    requires st.end.Comma?
    ensures Auto(m, st) == m.comma
  {}

  lemma Expecting(fs: seq<Field>, st: Style, i: nat)
    requires FieldsOk(fs, st) && st.end.Comma? && i < |fs| - 1 && ExpectsSep(fs[i]) && NoneExpects(fs[..i + 1])
    ensures FoldFrom(INITIAL, LevelToks(fs)).comma == DfsError
  {
    hide *;
    var less := fs[..i + 1];
    FieldsLess(fs, st, i);
    StyleIsOk(less, st);
    LevelStep(less, st);
    StyleIsOk(fs, st);
    var m := FoldFrom(INITIAL, LevelToks(less));
    ExpectingLast(less, st);
    PrefixStates(LevelToks(less));
    CommaFails(m, st);
    var rest := LevelSplit(fs, i + 1);
    FoldOne(INITIAL, LevelToks(less), fs[i + 1].lead);
    FoldParts(INITIAL, LevelToks(less) + [fs[i + 1].lead], rest);
    FailedStays(Update(m, Comma), rest);
  }

  lemma FieldsLess(fs: seq<Field>, st: Style, i: nat)
    requires FieldsOk(fs, st) && st.end.Comma? && i < |fs| - 1
    ensures FieldsOk(fs[..i + 1], st) && fs[i + 1].lead.token == Comma
  {
    hide ContentOk;
    assert FieldOk(fs[i + 1], st);
  }

  // Behind a list whose last field expects a separator.
  lemma ExpectingLast(fs: seq<Field>, st: Style)
    requires fs != [] && FieldsOk(fs, st) && st.end.Comma? && ExpectsSep(fs[|fs| - 1]) && NoneExpects(fs)
    ensures Auto(FoldFrom(INITIAL, LevelToks(fs)), st).DfsExpectingSep?
  {
    hide *;
    var n := |fs| - 1;
    var f, before := fs[n], LevelToks(fs[..n]);
    StyleIsOk(fs, st);
    LevelStep(fs, st);
    LevelInner(f.value, st);
    ExpectsItem(f, st);
    FoldParts(INITIAL, before + Lead(fs), ContentLevel(f.value));
    assert before + Lead(fs) + [] == before + Lead(fs);
    var m := FoldFrom(INITIAL, before + Lead(fs));
    if n == 0 {
      assert fs[..0] == [] && before + Lead(fs) == [];
      NothingSeen(st);
      BareState(m, st, ContentLevel(f.value), 0, 0);
    } else {
      AcceptedIff(fs, st);
      AcceptedLess(fs, st, false);
      NothingSeen(st);
      StartsNew(INITIAL, fs[..n], st);
      SeenLevel(INITIAL, fs[..n], st, false, 0, 0);
      SeenEnd(FoldFrom(INITIAL, before), fs, st, false, n - 1, KeyedCount(fs[..n]));
      FoldOne(INITIAL, before, f.lead);
      CommaStyle(st);
      BareState(m, st, ContentLevel(f.value), n, KeyedCount(fs[..n]));
    }
  }

  lemma CommaStyle(st: Style)
    requires st.end.Comma?
    ensures !st.end.Emdash? && !st.end.Semi?
  {}

  lemma ExpectsItem(f: Field, st: Style)
    requires ExpectsSep(f) && FieldOk(f, st)
    ensures f.Item? && !f.value.Nested? && Head(f) == []
    ensures exists i | 0 < i < |ContentLevel(f.value)| :: ContentLevel(f.value)[i].token.Word?
  {
    hide FieldsOk, Whole, Parts;
    if f.value.Nested? {
      NoWords(f.value, st);
    }
  }

  lemma NoWords(v: Content, st: Style)
    requires v.Nested? && ContentOk(v, st)
    ensures forall i | 0 <= i < |ContentLevel(v)| :: !ContentLevel(v)[i].token.Word?
  {
    hide FieldsOk, Whole;
    forall i | 0 <= i < |ContentLevel(v)|
      ensures !ContentLevel(v)[i].token.Word?
    {
      TokenKinds(ContentLevel(v)[i].token);
      hide IsSkipped;
    }
  }

  // ---------- text without separators ----------

  predicate NoSeparators(toks: seq<Tok>)
  {
    forall i | 0 <= i < |toks| :: IsFlat(toks[i].token) && IsTerminal(toks[i].token) && !toks[i].token.Colon?
                                  && !toks[i].token.Equals? && !toks[i].token.Semi? && !toks[i].token.Emdash?
  }

  lemma RowStep(s: State, e: Element)
    requires s.fmt == FORMAT_PLAIN && !e.token.Colon? && !e.token.Group? && !e.token.Invalid?
    ensures Step(s, e) == if IsSkipped(e.token) then s else State(s.fmt, s.stack, s.comps + [e])
  {
    hide AtEnd, AtSeparator, QualifierValue;
  }

  lemma {:induction false} RowRun(toks: seq<Tok>)
    requires NoSeparators(toks)
    ensures StepAll(State(FORMAT_PLAIN, [], []), LeafList(toks)) == State(FORMAT_PLAIN, [], LeafList(Solid(toks)))
    decreases |toks|
  {
    hide Step, IsFlat, IsSkipped;
    if toks == [] {
    } else {
      var n := |toks| - 1;
      RowRun(toks[..n]);
      assert LeafList(toks)[..n] == LeafList(toks[..n]);
      RowStep(State(FORMAT_PLAIN, [], LeafList(Solid(toks[..n]))), Leaf(toks[n]));
      assert !IsSkipped(toks[n].token) ==> LeafList(Solid(toks)) == LeafList(Solid(toks[..n])) + [Leaf(toks[n])];
    }
  }

  // Nothing separates, and commas end no value.
  lemma RowFormat(toks: seq<Tok>)
    requires NoSeparators(toks)
    requires Fold(TokenSeq(toks)).comma == DfsError || forall i | 0 <= i < |toks| :: !toks[i].token.Comma?
    ensures FormatOf(TokenSeq(toks)) == FORMAT_PLAIN
  {
    hide Fold, IsFlat, Finalize, NoSeparators;
    var s, m := TokenSeq(toks), Fold(TokenSeq(toks));
    HistIs(s);
    NoneSeen(toks);
    assert m.comma == DfsError || Comma !in multiset(s);
    RowFinal(m);
  }

  lemma NoneSeen(toks: seq<Tok>)
    requires NoSeparators(toks)
    ensures
      var s := multiset(TokenSeq(toks));
      Semi !in s && Emdash !in s && Colon !in s && Equals !in s
  {
    hide IsFlat, IsTerminal;
  }

  lemma RowFinal(m: FormatState)
    requires m.format == DEFAULT_FORMAT && m.hist[Semi] == m.hist[Emdash] == m.hist[Colon] == m.hist[Equals] == 0
    requires m.comma == DfsError || m.hist[Comma] == 0
    ensures Finalize(m).format == FORMAT_PLAIN
  {}

  lemma FlatRow(toks: seq<Tok>)
    requires NoSeparators(toks)
    ensures AllFlat(toks) && Descent.EndsWell(toks) && forall i | 0 <= i < |toks| :: !toks[i].token.Group?
  {}

  // Text without separators, which no commas make a list, is a row: a column for each token but words, commas and what
  // else is not worth one.
  lemma RowParsed(text: string, toks: seq<Tok>)
    requires NoSeparators(toks)
    requires Fold(TokenSeq(toks)).comma == DfsError || forall i | 0 <= i < |toks| :: !toks[i].token.Comma?
    ensures
      var d := Discovered(toks);
      Pairup(text, 0, d.format, d.elems).pairs == Cut(Columns(LeafList(Solid(toks))))
  {
    hide *;
    var list := LeafList(toks);
    FlatRow(toks);
    Descent.MachineIsDescent(toks);
    assert toks + [] == toks;
    ReadFlat(Invalid, [], [], toks, []);
    Nothing(list, TokenSeq(toks));
    ReadEnd(list, TokenSeq(toks));
    MessageRead(toks);
    RowFormat(toks);
    PairupCut(text, 0, FORMAT_PLAIN, list);
    PairedLeaves(text, 0, toks);
    LeavesSettled(toks);
    RunIsSteps(FORMAT_PLAIN, list);
    RowRun(toks);
    CollectSome(text, 0, FORMAT_PLAIN, list);
    RowTold(text, LeafList(Solid(toks)));
  }

  // ---------- values ended by commas ----------

  const ROW_STYLE := Style(Comma, Colon)

  // Values of one token each, without keys.
  predicate AllSingle(fs: seq<Field>)
  {
    forall i | 0 <= i < |fs| :: fs[i].Item? && fs[i].value.Plain? && |Solid(fs[i].value.toks)| == 1
  }

  predicate IsRow(fs: seq<Field>)
  {
    FieldsOk(fs, ROW_STYLE) && AllSingle(fs)
  }

  function TokenOf(f: Field): Tok
    requires f.value.Plain? && |Solid(f.value.toks)| == 1
  {
    Solid(f.value.toks)[0]
  }

  // A pair for each value, in order, with an empty key.
  function OnePairEach(fs: seq<Field>): (ps: seq<Element>)
    requires AllSingle(fs)
    ensures |ps| == |fs|
  {
    seq(|fs|, i requires 0 <= i < |fs| =>
      var t := TokenOf(fs[i]);
      Make(Pair, [Element(Key, t.cb, t.cb, Null), Make(Value, [Leaf(t)])]))
  }

  lemma OneSolid(f: Field, st: Style)
    requires FieldOk(f, st) && f.Item? && f.value.Plain? && |Solid(f.value.toks)| == 1
    ensures LeafList(Solid(f.value.toks)) == Parts([Leaf(TokenOf(f))]) == [Leaf(TokenOf(f))]
  {
    hide Solid, Parts, IsPart;
    var t := TokenOf(f);
    assert Solid(f.value.toks) == [t] && LeafList([t]) == [Leaf(t)];
    OnePart([Leaf(t)]);
  }

  lemma SinglePair(f: Field, st: Style)
    requires FieldOk(f, st) && f.Item? && f.value.Plain? && |Solid(f.value.toks)| == 1
    ensures PairOf(SaidOf(f)) ==
      Make(Pair, [Element(Key, TokenOf(f).cb, TokenOf(f).cb, Null), Make(Value, [Leaf(TokenOf(f))])])
  {
    OneSolid(f, st);
    hide Solid, Parts, FieldOk, LeafList, Leaf;
  }

  lemma SinglePairs(fs: seq<Field>, st: Style)
    requires FieldsOk(fs, st) && AllSingle(fs)
    ensures FieldPairs(fs) == OnePairEach(fs)
  {
    forall i | 0 <= i < |fs|
      ensures FieldPairs(fs)[i] == OnePairEach(fs)[i]
    {
      BoardAt(fs, i);
      PairsAt(Board(fs), i);
      SinglePair(fs[i], st);
      hide Board, PairsOn, FieldOk, Solid, PairOf, SaidOf;
    }
    hide *;
    assert |FieldPairs(fs)| == |OnePairEach(fs)| == |fs|;
  }

  lemma RowWhole(fs: seq<Field>)
    requires IsRow(fs) && |fs| > 1 && NoneExpects(fs)
    ensures Whole(fs, ROW_STYLE) && FieldsOk(fs, ROW_STYLE)
  {
    hide FieldsOk, Solid, ExpectsSep;
  }

  // Of a row that is refused, no token separates.
  lemma {:induction false} RowStream(fs: seq<Field>)
    requires IsRow(fs)
    ensures Stream(fs) == LevelToks(fs) && NoSeparators(Stream(fs))
    decreases |fs|
  {
    hide Solid, Parts, IsPart, IsFlat, IsTerminal;
    if fs == [] {
    } else {
      var n := |fs| - 1;
      var f := fs[n];
      RowStream(fs[..n]);
      RowField(f);
      CommaSeparatesNot(f.lead);
      var s := Stream(fs[..n]) + Lead(fs) + f.value.toks;
      assert Stream(fs) == s && LevelToks(fs) == s;
      hide Stream, LevelToks, FieldsOk;
      assert NoSeparators(Lead(fs));
      BothSeparateNot(Stream(fs[..n]), Lead(fs));
      BothSeparateNot(Stream(fs[..n]) + Lead(fs), f.value.toks);
    }
  }

  lemma BothSeparateNot(a: seq<Tok>, b: seq<Tok>)
    requires NoSeparators(a) && NoSeparators(b)
    ensures NoSeparators(a + b)
  {
    hide IsFlat, IsTerminal;
  }

  lemma RowField(f: Field)
    requires FieldOk(f, ROW_STYLE) && f.Item? && f.value.Plain?
    ensures NoSeparators(f.value.toks) && f.lead.token.Comma?
  {
    hide Parts, Solid, IsPart, IsFlat, IsTerminal;
    forall i | 0 <= i < |f.value.toks|
      ensures NoSeparators([f.value.toks[i]])
    {
      PartSeparatesNot(f.value.toks[i]);
    }
    assert forall i | 0 <= i < |f.value.toks| :: f.value.toks[i] == [f.value.toks[i]][0];
  }

  lemma PartSeparatesNot(t: Tok)
    requires IsPart(t.token, ROW_STYLE)
    ensures NoSeparators([t])
  {}

  lemma CommaSeparatesNot(t: Tok)
    requires t.token.Comma?
    ensures IsFlat(t.token) && IsTerminal(t.token)
  {}

  // Values that are ended by commas become one pair each, in order, cut off after the largest number, exactly when none
  // but the last is a word with white space before it.  Otherwise the text is a row in which words are dropped.
  lemma ItemsParsed(text: string, fs: seq<Field>)
    requires IsRow(fs) && |fs| > 1
    ensures
      var d := Discovered(Stream(fs));
      var pairs := Pairup(text, 0, d.format, d.elems).pairs;
      && (NoneExpects(fs) <==> pairs == Cut(OnePairEach(fs)))
      && (!NoneExpects(fs) ==> pairs == Cut(Columns(LeafList(Solid(Stream(fs))))))
  {
    hide *;
    RowIsRow(fs);
    if NoneExpects(fs) {
      RowWhole(fs);
      FieldsParsed(text, fs, ROW_STYLE);
      SinglePairs(fs, ROW_STYLE);
      ManyFound(fs);
    } else {
      RowStream(fs);
      CommaAccepts(fs, ROW_STYLE);
      FoldIsFold(LevelToks(fs));
      RowParsed(text, Stream(fs));
      ColumnsDiffer(fs);
    }
  }

  lemma RowIsRow(fs: seq<Field>)
    requires IsRow(fs) && fs != []
    ensures FieldsOk(fs, ROW_STYLE) && AllSingle(fs) && ROW_STYLE.end.Comma?
  {
    hide FieldsOk, Solid;
  }

  lemma ManyFound(fs: seq<Field>)
    requires |fs| > 1
    ensures Found(0, fs) == FieldPairs(fs)
  {
    hide Board, FieldPairs;
  }

  // A column holds its token, a pair its value.
  lemma {:induction false} FirstColumn(s: seq<Element>)
    requires forall i | 0 <= i < |s| :: !s[i].token.Value?
    ensures forall i | 0 <= i < |Columns(s)| ::
      && Columns(s)[i].subs.List? && |Columns(s)[i].subs.elems| == 2
      && !Columns(s)[i].subs.elems[1].token.Value?
    decreases |s|
  {
    hide IsDropped;
    if s == [] {
    } else {
      FirstColumn(s[..|s| - 1]);
    }
  }

  lemma {:induction false} SolidTokens(toks: seq<Tok>)
    requires NoSeparators(toks)
    ensures forall i | 0 <= i < |Solid(toks)| :: !Solid(toks)[i].token.Value?
    decreases |toks|
  {
    hide IsFlat, IsSkipped;
    if toks == [] {
    } else {
      SolidTokens(toks[..|toks| - 1]);
      assert IsTerminal(toks[|toks| - 1].token);
    }
  }

  lemma ColumnsDiffer(fs: seq<Field>)
    requires IsRow(fs) && fs != [] && NoSeparators(Stream(fs))
    ensures Cut(Columns(LeafList(Solid(Stream(fs))))) != Cut(OnePairEach(fs))
  {
    var c, p := Columns(LeafList(Solid(Stream(fs)))), OnePairEach(fs);
    SolidTokens(Stream(fs));
    FirstColumn(LeafList(Solid(Stream(fs))));
    hide Columns, Solid, Stream, IsRow, NoSeparators;
    assert Cut(p)[0] == p[0] && p[0].subs.elems[1].token.Value?;
    assert c != [] ==> Cut(c)[0] == c[0];
  }
}
