// The tokens of a list of fields are discovered as the list that is meant, its values in brackets as groups.
module FieldTrees {
  import opened Tokens
  import opened Elements
  import opened Dfs
  import opened Discover
  import opened Fields
  import opened FieldFormats
  import Descent
  import Languages

  predicate AllFlat(toks: seq<Tok>)
  {
    forall i | 0 <= i < |toks| :: IsFlat(toks[i].token)
  }

  lemma {:induction false} ReadFlat(
      open: Token, elems: seq<Element>, seen: seq<Token>, toks: seq<Tok>, rest: seq<Tok>)
    requires AllFlat(toks)
    ensures Read(open, elems, seen, toks + rest) == Read(open, elems + LeafList(toks), seen + TokenSeq(toks), rest)
    decreases |toks|
  {
    hide Read, IsFlat, LeafList, TokenSeq;
    if toks == [] {
      assert toks + rest == rest && elems + LeafList(toks) == elems && seen + TokenSeq(toks) == seen;
    } else {
      var t, more := toks[0], toks[1..];
      assert (toks + rest)[0] == t && (toks + rest)[1..] == more + rest;
      ReadOne(open, elems, seen, toks + rest);
      ReadFlat(open, elems + [Leaf(t)], seen + [t.token], more, rest);
      assert elems + [Leaf(t)] + LeafList(more) == elems + LeafList(toks);
      assert seen + [t.token] + TokenSeq(more) == seen + TokenSeq(toks);
    }
  }

  lemma ReadOne(open: Token, elems: seq<Element>, seen: seq<Token>, toks: seq<Tok>)
    requires toks != [] && IsFlat(toks[0].token)
    ensures Read(open, elems, seen, toks) == Read(open, elems + [Leaf(toks[0])], seen + [toks[0].token], toks[1..])
  {
    hide Read;
    Descent.ReadCases(open, elems, seen, toks);
  }

  // A bracket, a list that is closed by its partner, and what follows.
  lemma ReadGroup(
      open: Token, elems: seq<Element>, seen: seq<Token>, toks: seq<Tok>, inner: seq<Element>,
      innerSeen: seq<Token>, rest: seq<Tok>)
    requires toks != [] && IsOpener(toks[0].token) && rest != [] && Closes(toks[0].token, rest[0].token)
    requires Read(toks[0].token, [], [], toks[1..]) == Read(toks[0].token, inner, innerSeen, rest)
    ensures
      var group := ClosedGroup(FormatOf(innerSeen + [rest[0].token]), inner, rest[0]);
      Read(open, elems, seen, toks) == Read(open, elems + [group], seen + [toks[0].token], rest[1..])
  {
    hide Read, FormatOf, ClosedGroup;
    Descent.ReadCases(open, elems, seen, toks);
    Descent.ReadCases(toks[0].token, inner, innerSeen, rest);
    assert !IsOpener(rest[0].token);
  }

  // A unit joins the token before it.
  lemma ReadAmount(open: Token, elems: seq<Element>, seen: seq<Token>, amount: Tok, unit: Tok, rest: seq<Tok>)
    requires IsFlat(amount.token) && unit.token.Unit?
    ensures Read(open, elems, seen, [amount, unit] + rest) ==
      Read(open, elems + [Amount(amount, unit)], seen + [amount.token, unit.token], rest)
  {
    var toks := [amount, unit] + rest;
    var elems1, seen1 := elems + [Leaf(amount)], seen + [amount.token];
    hide Read, IsFlat, Make, Leaf;
    assert toks[0] == amount && toks[1..] == [unit] + rest;
    ReadOne(open, elems, seen, toks);
    ReadUnit(open, elems1, seen1, [unit] + rest);
    assert ([unit] + rest)[1..] == rest && elems1[..|elems1| - 1] == elems;
    assert seen + [amount.token] + [unit.token] == seen + [amount.token, unit.token];
  }

  lemma ReadUnit(open: Token, elems: seq<Element>, seen: seq<Token>, toks: seq<Tok>)
    requires toks != [] && toks[0].token.Unit? && elems != []
    ensures
      var n := |elems| - 1;
      Read(open, elems, seen, toks) ==
        Read(open, elems[..n] + [Make(Measurement, [elems[n], Leaf(toks[0])])], seen + [toks[0].token], toks[1..])
  {
    hide Read;
    Descent.ReadCases(open, elems, seen, toks);
  }

  lemma PlainFlat(toks: seq<Tok>, st: Style)
    requires forall i | 0 <= i < |toks| :: IsPart(toks[i].token, st)
    ensures AllFlat(toks)
  {
    hide IsTerminal;
  }

  lemma SkippedFlat(toks: seq<Tok>)
    requires AllSkipped(toks)
    ensures AllFlat(toks)
  {}

  lemma HeadFlat(fs: seq<Field>, st: Style)
    requires fs != [] && FieldsOk(fs, st)
    ensures AllFlat(Lead(fs) + Head(fs[|fs| - 1]))
  {
    hide *;
    var f := fs[|fs| - 1];
    StyleIsOk(fs, st);
    FieldStepOk(fs, st);
    FieldFlat(f, st);
    if f.Field? {
      SkippedFlat(f.space);
      SkippedFlat(f.gap);
    }
    HeadParts(fs);
  }

  lemma HeadParts(fs: seq<Field>)
    requires fs != []
    requires
      var f := fs[|fs| - 1];
      IsFlat(f.lead.token)
      && (f.Field? ==> IsFlat(f.key.token) && IsFlat(f.sep.token) && AllFlat(f.space) && AllFlat(f.gap))
    ensures AllFlat(Lead(fs) + Head(fs[|fs| - 1]))
  {
    hide IsFlat;
  }

  lemma FieldFlat(f: Field, st: Style)
    requires FieldOk(f, st) && StyleOk(st)
    ensures IsFlat(f.lead.token)
    ensures f.Field? ==> IsFlat(f.key.token) && IsFlat(f.sep.token) && AllSkipped(f.space) && AllSkipped(f.gap)
  {
    hide ContentOk, AllSkipped;
  }

  lemma {:induction false} ReadContent(
      open: Token, elems: seq<Element>, seen: seq<Token>, v: Content, st: Style, rest: seq<Tok>)
    requires ContentOk(v, st)
    ensures Read(open, elems, seen, ContentToks(v) + rest) ==
      Read(open, elems + ContentList(v), seen + TokenSeq(ContentLevel(v)), rest)
    decreases v, 0
  {
    hide *;
    ContentCases(v, st);
    if v.Plain? {
      ReadFlat(open, elems, seen, v.toks, rest);
    } else if v.Measured? {
      var elems1, seen1 := elems + LeafList(v.before), seen + TokenSeq(v.before);
      var e, two := Amount(v.amount, v.unit), [v.amount.token, v.unit.token];
      assert ContentToks(v) + rest == v.before + ([v.amount, v.unit] + (v.after + rest));
      ReadFlat(open, elems, seen, v.before, [v.amount, v.unit] + (v.after + rest));
      ReadAmount(open, elems1, seen1, v.amount, v.unit, v.after + rest);
      ReadFlat(open, elems1 + [e], seen1 + two, v.after, rest);
      Level(v);
      assert elems1 + [e] + LeafList(v.after) == elems + ContentList(v);
      assert seen1 + two + TokenSeq(v.after) == seen + TokenSeq(ContentLevel(v));
    } else {
      var start, close := [v.open], [v.close];
      var elems1, seen1 := elems + LeafList(v.before), seen + TokenSeq(v.before);
      var behind := close + v.after + rest;
      assert ContentToks(v) + rest == v.before + (start + Stream(v.fields) + behind);
      ReadFlat(open, elems, seen, v.before, start + Stream(v.fields) + behind);
      assert (start + Stream(v.fields) + behind)[1..] == Stream(v.fields) + behind;
      ReadFields(v.open.token, [], [], v.fields, v.style, behind);
      Nothing(ListOf(v.fields), TokenSeq(LevelToks(v.fields)));
      ReadGroup(
        open, elems1, seen1, start + Stream(v.fields) + behind,
        ListOf(v.fields), TokenSeq(LevelToks(v.fields)), behind);
      WholeShaped(v.fields, v.style);
      LevelFormat(v.fields, v.style, v.close.token);
      assert behind[1..] == v.after + rest;
      var group := ClosedGroup(FormatOfFields(v.style, v.fields), ListOf(v.fields), v.close);
      ReadFlat(open, elems1 + [group], seen1 + [v.open.token], v.after, rest);
      Level(v);
      assert elems1 + [group] + LeafList(v.after) == elems + ContentList(v);
      assert seen1 + [v.open.token] + TokenSeq(v.after) == seen + TokenSeq(ContentLevel(v));
    }
  }

  lemma Nothing(elems: seq<Element>, seen: seq<Token>)
    ensures [] + elems == elems && [] + seen == seen
  {}

  lemma Level(v: Content)
    ensures v.Nested? ==> TokenSeq(ContentLevel(v)) == TokenSeq(v.before) + [v.open.token] + TokenSeq(v.after)
    ensures v.Measured? ==>
      TokenSeq(ContentLevel(v)) == TokenSeq(v.before) + [v.amount.token, v.unit.token] + TokenSeq(v.after)
  {}

  lemma ContentCases(v: Content, st: Style)
    requires ContentOk(v, st)
    ensures v.Plain? ==>
      AllFlat(v.toks) && ContentToks(v) == ContentLevel(v) == v.toks && ContentList(v) == LeafList(v.toks)
    ensures v.Measured? ==>
      && AllFlat(v.before) && AllFlat(v.after) && IsFlat(v.amount.token) && v.unit.token.Unit?
      && ContentToks(v) == ContentLevel(v) == v.before + [v.amount, v.unit] + v.after
      && ContentList(v) == LeafList(v.before) + [Amount(v.amount, v.unit)] + LeafList(v.after)
    ensures v.Nested? ==>
      && AllFlat(v.before) && AllFlat(v.after) && IsOpener(v.open.token) && Closes(v.open.token, v.close.token)
      && v.fields != [] && FieldsOk(v.fields, v.style) && Whole(v.fields, v.style) && IsCloser(v.close.token)
      && ContentToks(v) == v.before + [v.open] + Stream(v.fields) + [v.close] + v.after
      && ContentList(v) ==
         LeafList(v.before) + [ClosedGroup(FormatOfFields(v.style, v.fields), ListOf(v.fields), v.close)]
         + LeafList(v.after)
  {
    hide FieldsOk, Whole, FormatOfFields, ListOf, Stream, AllFlat, Make;
    if v.Plain? {
      PlainFlat(v.toks, st);
    } else {
      SkippedFlat(v.before);
      SkippedFlat(v.after);
    }
  }

  lemma {:induction false} ReadFields(
      open: Token, elems: seq<Element>, seen: seq<Token>, fs: seq<Field>, st: Style, rest: seq<Tok>)
    requires FieldsOk(fs, st)
    ensures Read(open, elems, seen, Stream(fs) + rest) ==
      Read(open, elems + ListOf(fs), seen + TokenSeq(LevelToks(fs)), rest)
    decreases fs
  {
    hide *;
    if fs == [] {
      NoFields();
      assert [] + rest == rest && elems + [] == elems && seen + [] == seen;
    } else {
      var n := |fs| - 1;
      var head, v := Lead(fs) + Head(fs[n]), fs[n].value;
      FieldStep(fs, st);
      assert Stream(fs) + rest == Stream(fs[..n]) + (head + (ContentToks(v) + rest));
      ReadFields(open, elems, seen, fs[..n], st, head + (ContentToks(v) + rest));
      var elems1, seen1 := elems + ListOf(fs[..n]), seen + TokenSeq(LevelToks(fs[..n]));
      ReadFlat(open, elems1, seen1, head, ContentToks(v) + rest);
      ValueIsPart(fs[n]);
      ReadContent(open, elems1 + LeafList(head), seen1 + TokenSeq(head), v, st, rest);
      assert elems1 + LeafList(head) + ContentList(v) == elems + ListOf(fs);
      assert seen1 + TokenSeq(head) + TokenSeq(ContentLevel(v)) == seen + TokenSeq(LevelToks(fs));
    }
  }

  lemma NoFields()
    ensures Stream([]) == [] && ListOf([]) == [] && TokenSeq(LevelToks([])) == []
  {}

  lemma FieldStep(fs: seq<Field>, st: Style)
    requires fs != [] && FieldsOk(fs, st)
    ensures
      var n := |fs| - 1;
      var head, v := Lead(fs) + Head(fs[n]), fs[n].value;
      && FieldsOk(fs[..n], st) && ContentOk(v, st) && AllFlat(head)
      && Stream(fs) == Stream(fs[..n]) + head + ContentToks(v)
      && ListOf(fs) == ListOf(fs[..n]) + LeafList(head) + ContentList(v)
      && TokenSeq(LevelToks(fs)) == TokenSeq(LevelToks(fs[..n])) + TokenSeq(head) + TokenSeq(ContentLevel(v))
  {
    hide *;
    FieldStepOk(fs, st);
    HeadFlat(fs, st);
    FieldStepToks(fs);
  }

  lemma FieldStepOk(fs: seq<Field>, st: Style)
    requires fs != [] && FieldsOk(fs, st)
    ensures FieldsOk(fs[..|fs| - 1], st) && FieldOk(fs[|fs| - 1], st) && ContentOk(fs[|fs| - 1].value, st)
  {
    hide ContentOk, AllSkipped, IsKeyToken;
  }

  lemma FieldStepToks(fs: seq<Field>)
    requires fs != []
    ensures
      var n := |fs| - 1;
      var head, v := Lead(fs) + Head(fs[n]), fs[n].value;
      && Stream(fs) == Stream(fs[..n]) + head + ContentToks(v)
      && ListOf(fs) == ListOf(fs[..n]) + LeafList(head) + ContentList(v)
      && TokenSeq(LevelToks(fs)) == TokenSeq(LevelToks(fs[..n])) + TokenSeq(head) + TokenSeq(ContentLevel(v))
  {
    hide Head, Lead, ContentToks, ContentList, ContentLevel, TokenSeq, LeafList;
    var n := |fs| - 1;
    var head, v := Lead(fs) + Head(fs[n]), fs[n].value;
    Regrouped(Stream(fs[..n]), Lead(fs), Head(fs[n]), ContentToks(v));
    Regrouped(LevelToks(fs[..n]), Lead(fs), Head(fs[n]), ContentLevel(v));
    TokenParts(LevelToks(fs[..n]), head);
    TokenParts(LevelToks(fs[..n]) + head, ContentLevel(v));
  }

  lemma Regrouped<T>(a: seq<T>, b: seq<T>, c: seq<T>, d: seq<T>)
    ensures a + b + c + d == a + (b + c) + d
  {}

  lemma TokenParts(a: seq<Tok>, b: seq<Tok>)
    ensures TokenSeq(a + b) == TokenSeq(a) + TokenSeq(b)
  {}

  // A message of fields does not end with an opening bracket, so what is discovered is what descent reads.
  lemma FieldsDiscovered(fs: seq<Field>, st: Style)
    requires fs != [] && FieldsOk(fs, st) && Shaped(fs, st)
    ensures Discovered(Stream(fs)) == List(FormatOfFields(st, fs), ListOf(fs))
  {
    hide *;
    StreamEnds(fs, st);
    Descent.MachineIsDescent(Stream(fs));
    assert Stream(fs) + [] == Stream(fs);
    ReadFields(Invalid, [], [], fs, st, []);
    Nothing(ListOf(fs), TokenSeq(LevelToks(fs)));
    AnyCloser(RParen);
    LevelFormat(fs, st, RParen);
    ReadEnd(ListOf(fs), TokenSeq(LevelToks(fs)));
    MessageRead(Stream(fs));
  }

  lemma AnyCloser(t: Token)
    requires t.RParen?
    ensures IsCloser(t)
  {}

  lemma ReadEnd(elems: seq<Element>, seen: seq<Token>)
    ensures Read(Invalid, elems, seen, []).elems == elems && Read(Invalid, elems, seen, []).seen == seen
  {}

  lemma MessageRead(toks: seq<Tok>)
    ensures ReadMessage(toks) == List(FormatOf(Read(Invalid, [], [], toks).seen), Read(Invalid, [], [], toks).elems)
  {}

  lemma StreamEnds(fs: seq<Field>, st: Style)
    requires fs != [] && FieldsOk(fs, st)
    ensures Descent.EndsWell(Stream(fs))
  {
    hide *;
    var n := |fs| - 1;
    FieldStep(fs, st);
    ContentEnds(fs[n].value, st);
    LastToken(Stream(fs), Stream(fs[..n]) + (Lead(fs) + Head(fs[n])), ContentToks(fs[n].value));
  }

  lemma LastToken(toks: seq<Tok>, a: seq<Tok>, b: seq<Tok>)
    requires toks == a + b && b != [] && !IsOpener(b[|b| - 1].token)
    ensures Descent.EndsWell(toks)
  {
    assert toks[|toks| - 1] == b[|b| - 1];
  }

  lemma ContentEnds(v: Content, st: Style)
    requires ContentOk(v, st)
    ensures ContentToks(v) != [] && !IsOpener(ContentToks(v)[|ContentToks(v)| - 1].token)
  {
    hide FieldsOk, Whole, Stream;
    ContentCases(v, st);
    if v.Plain? {
      assert v.toks == [] ==> Solid(v.toks) == [] && LeafList([]) == [] && Parts([]) == [];
    } else if v.after != [] {
      assert IsFlat(v.after[|v.after| - 1].token);
    } else if v.Measured? {
      assert ContentToks(v)[|ContentToks(v)| - 1] == v.unit;
    }
  }

  // ---------- brackets with nothing in them ----------

  // An empty group stands between its brackets, be they one token or two.
  lemma EmptyGroups(open: Tok, close: Tok, both: Tok)
    requires Closes(open.token, close.token) && both.token.EmptyContainer?
    ensures Discovered([both]) == List(FORMAT_PLAIN, [Element(Group, both.cb + 1, both.cb + 1, List(FORMAT_PLAIN, []))])
    ensures
      Discovered([open, close]) == List(FORMAT_PLAIN, [Element(Group, close.cb, close.cb, List(FORMAT_PLAIN, []))])
  {
    NothingGuessed([]);
    NothingGuessed([both.token]);
    NothingGuessed([open.token]);
    NothingGuessed([close.token]);
    OneEmpty(both);
    TwoEmpty(open, close);
    hide FormatOf, Discovered;
  }

  lemma OneEmpty(both: Tok)
    requires both.token.EmptyContainer?
    ensures Discovered([both]) == List(FormatOf([both.token]), [EmptyGroup(FormatOf([]), both.cb + 1)])
  {
    var toks, e := [both], EmptyGroup(FormatOf([]), both.cb + 1);
    assert Append([], both) == [] + [e] == [e];
    assert toks[1..] == [] && [] + [both.token] == [both.token];
    assert !IsOpener(both.token) && !Closes(Invalid, both.token) && Descent.EndsWell(toks);
    hide *;
    Descent.MachineIsDescent(toks);
    Descent.ReadCases(Invalid, [], [], toks);
    ReadEnd([e], [both.token]);
    MessageRead(toks);
  }

  lemma TwoEmpty(open: Tok, close: Tok)
    requires Closes(open.token, close.token)
    ensures Discovered([open, close]) == List(FormatOf([open.token]), [EmptyGroup(FormatOf([close.token]), close.cb)])
  {
    var toks, e := [open, close], EmptyGroup(FormatOf([close.token]), close.cb);
    assert ClosedGroup(FormatOf([close.token]), [], close) == e;
    assert toks[1..] == [close] && [close][1..] == [];
    assert [] + [open.token] == [open.token] && [] + [close.token] == [close.token] && [] + [e] == [e];
    assert IsOpener(open.token) && Descent.EndsWell(toks);
    hide *;
    Descent.MachineIsDescent(toks);
    ReadGroup(Invalid, [], [], toks, [], [], [close]);
    ReadEnd([e], [open.token]);
    MessageRead(toks);
  }

  // Without any marks the format is plain.
  lemma NothingGuessed(toks: seq<Token>)
    requires Comma !in toks && Semi !in toks && Emdash !in toks && Colon !in toks && Equals !in toks
    ensures FormatOf(toks) == FORMAT_PLAIN
  {
    Languages.FormatGuessed(toks);
    hide FormatOf, Languages.SemiList, Languages.CommaList;
    assert multiset(toks)[Colon] == 0 == multiset(toks)[Comma];
  }
}
