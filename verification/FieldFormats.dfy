// The format of a list of fields: its automaton does not fail, and the counts are those of the fields.
module FieldFormats {
  import opened Tokens
  import opened Elements
  import opened Pairing
  import opened Dfs
  import opened Discover
  import opened Fields

  // What has been counted after some fields.  Colons and commas do not matter where fields end with semicolons.
  ghost predicate Seen(m: FormatState, st: Style, ends: nat, seps: nat)
  {
    && m.format == DEFAULT_FORMAT && m.hist[st.end] == ends
    && m.hist[Equals] == (if st.sep.Equals? then seps else 0)
    && (!st.end.Emdash? ==> m.hist[Emdash] == 0)
    && (!st.end.Semi? ==> m.hist[Semi] == 0 && m.hist[Colon] == if st.sep.Colon? then seps else 0)
    && (st.end.Emdash? ==> m.hist[Comma] == 0)
  }

  // The automaton for the end of the fields.
  function Auto(m: FormatState, st: Style): DfsState
  {
    if st.end.Semi? then m.semi else m.comma
  }

  function Next(st: Style, a: DfsState, t: Token): DfsState
  {
    if st.end.Semi? then SemiNext(a, t) else CommaNext(a, t)
  }

  lemma SeenFormat(m: FormatState, fs: seq<Field>, st: Style)
    requires fs != [] && StyleOk(st) && Shaped(fs, st)
    requires Seen(m, st, |fs| - 1, KeyedCount(fs)) && !Auto(m, st).DfsError?
    ensures Finalize(m).format == FormatOfFields(st, fs)
  {
    hide IsSingle, ExpectsSep, HasBare;
  }

  // ---------- one token ----------

  predicate Counts(t: Token, st: Style)
  {
    && (t.Emdash? ==> st.end.Emdash?) && (t.Equals? ==> t == st.sep)
    && (!st.end.Semi? ==> !t.Semi? && (t.Colon? ==> t == st.sep))
    && (st.end.Emdash? ==> !t.Comma?)
  }

  lemma SeenStep(m: FormatState, st: Style, t: Token, ends: nat, seps: nat)
    requires StyleOk(st) && Seen(m, st, ends, seps) && Counts(t, st) && !Next(st, Auto(m, st), t).DfsError?
    ensures Seen(Update(m, t), st, ends + (if t == st.end then 1 else 0), seps + if t == st.sep then 1 else 0)
    ensures Auto(Update(m, t), st) == Next(st, Auto(m, st), t)
  {
    AutoStep(m, st, t);
    CountStep(m, t, st.end);
    CountStep(m, t, Equals);
    CountStep(m, t, Colon);
    CountStep(m, t, Emdash);
    CountStep(m, t, Semi);
    CountStep(m, t, Comma);
    hide Update, Auto, Next;
  }

  lemma AutoStep(m: FormatState, st: Style, t: Token)
    requires !Next(st, Auto(m, st), t).DfsError?
    ensures Auto(Update(m, t), st) == Next(st, Auto(m, st), t)
  {
    hide CommaNext, SemiNext, PrefixNext;
  }

  lemma CountStep(m: FormatState, t: Token, u: Token)
    ensures Update(m, t).hist[u] == m.hist[u] + (if t == u then 1 else 0) && Update(m, t).format == m.format
  {
    hide CommaNext, SemiNext, PrefixNext;
  }

  // Between a key and its separator.
  predicate Keyed(a: DfsState, st: Style)
  {
    a.DfsKey? || (a.DfsExpectingSep? && !st.end.Semi?)
  }

  // Before a key, too.
  predicate Unkeyed(a: DfsState, st: Style)
  {
    a.DfsInit? || Keyed(a, st)
  }

  // Somewhere in a field.
  predicate Begun(a: DfsState, st: Style)
  {
    a.DfsValue? || Keyed(a, st)
  }

  // A token that is part of a value, as far as the automata can see.
  predicate IsInner(t: Token, st: Style)
  {
    !t.Emdash? && !t.Semi? && !t.Colon? && !t.Equals? && !t.EmptyContainer? && (t.Comma? ==> st.end.Semi?)
  }

  lemma NextStates(st: Style, a: DfsState, t: Token)
    requires StyleOk(st)
    ensures Unkeyed(a, st) && (IsSkipped(t) || IsKeyToken(t)) ==> Keyed(Next(st, a, t), st)
    ensures Keyed(a, st) && t == st.sep ==> Next(st, a, t).DfsValue?
    ensures a.DfsValue? && IsInner(t, st) ==> Next(st, a, t).DfsValue?
    ensures a.DfsValue? && t == st.end && !t.Emdash? ==> Next(st, a, t).DfsInit?
  {
    hide IsSkipped, IsKeyToken, CommaNext, SemiNext;
    TokenKinds(t);
    SemiStates(a, t);
    CommaStates(a, t);
  }

  // Fields without a key do not end with semicolons.
  lemma BareStates(st: Style, a: DfsState, t: Token)
    requires StyleOk(st) && !st.end.Semi?
    ensures (a.DfsInit? || Begun(a, st)) && IsInner(t, st) ==> Begun(Next(st, a, t), st)
    ensures (a.DfsInit? || (a.DfsKey? && !t.Word?)) && IsInner(t, st) ==> Next(st, a, t).DfsKey?
    ensures Unkeyed(a, st) && IsInner(t, st) && !IsOpener(t) ==> Keyed(Next(st, a, t), st)
    ensures st.end.Comma? && a.DfsKey? && t.Comma? ==> Next(st, a, t).DfsInit?
    ensures Begun(a, st) && t.Emdash? ==> Begun(Next(st, a, t), st)
    ensures Keyed(a, st) && t.Emdash? ==> Keyed(Next(st, a, t), st)
  {
    hide CommaNext, SemiNext;
    CommaStates(a, t);
    CommaOpens(a, t);
  }

  // Neither white space nor keys are of interest to the automata, except that a second word expects a separator.
  predicate IsOther(t: Token)
  {
    !t.Comma? && !t.Semi? && !t.Colon? && !t.Equals? && !t.EmptyContainer? && !IsOpener(t)
  }

  lemma TokenKinds(t: Token)
    ensures IsSkipped(t) || IsKeyToken(t) ==> IsOther(t)
    ensures IsSkipped(t) ==> !t.Word?
  {}

  lemma SemiStates(a: DfsState, t: Token)
    ensures (a.DfsInit? || a.DfsKey?) && IsOther(t) ==> SemiNext(a, t).DfsKey?
    ensures a.DfsKey? && (t.Colon? || t.Equals?) ==> SemiNext(a, t).DfsValue?
    ensures a.DfsValue? ==> SemiNext(a, t) == if t.Semi? then DfsInit else DfsValue
  {}

  lemma CommaStates(a: DfsState, t: Token)
    ensures a.DfsInit? && IsOther(t) ==> CommaNext(a, t).DfsKey?
    ensures a.DfsKey? && IsOther(t) ==> CommaNext(a, t) == if t.Word? then DfsExpectingSep else DfsKey
    ensures a.DfsExpectingSep? && IsOther(t) ==> CommaNext(a, t).DfsExpectingSep?
    ensures (a.DfsKey? || a.DfsExpectingSep?) && (t.Colon? || t.Equals?) ==> CommaNext(a, t).DfsValue?
    ensures a.DfsValue? && !t.Colon? && !t.Equals? ==> CommaNext(a, t) == if t.Comma? then DfsInit else DfsValue
  {}

  lemma CommaOpens(a: DfsState, t: Token)
    ensures (a.DfsInit? || a.DfsKey?) && IsOpener(t) ==> CommaNext(a, t).DfsKey?
    ensures a.DfsExpectingSep? && IsOpener(t) ==> CommaNext(a, t).DfsValue?
    ensures a.DfsKey? && t.Comma? ==> CommaNext(a, t).DfsInit?
  {}

  lemma KeyCounts(st: Style, t: Token)
    requires StyleOk(st)
    ensures IsSkipped(t) || IsKeyToken(t) || IsInner(t, st) || t == st.sep || t == st.end ==> Counts(t, st)
    ensures IsSkipped(t) ==> IsInner(t, st)
    ensures IsSkipped(t) || IsKeyToken(t) || IsInner(t, st) ==> t != st.sep && t != st.end
    ensures st.end != st.sep
  {}

  // ---------- many tokens ----------

  function FoldFrom(m: FormatState, toks: seq<Tok>): FormatState
  {
    if toks == [] then m else Update(FoldFrom(m, toks[..|toks| - 1]), toks[|toks| - 1].token)
  }

  lemma {:induction false} FoldParts(m: FormatState, a: seq<Tok>, b: seq<Tok>)
    ensures FoldFrom(m, a + b) == FoldFrom(FoldFrom(m, a), b)
    decreases |b|
  {
    hide Update;
    if b == [] {
      assert a + b == a;
    } else {
      var n := |b| - 1;
      FoldParts(m, a, b[..n]);
      assert (a + b)[..|a| + n] == a + b[..n];
    }
  }

  lemma {:induction false} FoldIsFold(toks: seq<Tok>)
    ensures FoldFrom(INITIAL, toks) == Fold(TokenSeq(toks))
    decreases |toks|
  {
    hide Update;
    if toks == [] {
    } else {
      var n := |toks| - 1;
      FoldIsFold(toks[..n]);
      assert TokenSeq(toks)[..n] == TokenSeq(toks[..n]);
    }
  }

  lemma FoldOne(m: FormatState, a: seq<Tok>, x: Tok)
    ensures FoldFrom(m, a + [x]) == Update(FoldFrom(m, a), x.token)
  {
    hide Update;
    assert (a + [x])[..|a|] == a;
  }

  lemma {:induction false} SeenSkipped(m: FormatState, st: Style, space: seq<Tok>, ends: nat, seps: nat)
    requires StyleOk(st) && Seen(m, st, ends, seps) && AllSkipped(space) && Unkeyed(Auto(m, st), st)
    ensures
      var a, m' := Auto(m, st), FoldFrom(m, space);
      Seen(m', st, ends, seps) && Unkeyed(Auto(m', st), st) && (Keyed(a, st) ==> Keyed(Auto(m', st), st))
    decreases |space|
  {
    hide Update, Seen, Auto, Next, IsSkipped, Counts, IsInner, StyleOk, Keyed;
    if space == [] {
    } else {
      var n := |space| - 1;
      SeenSkipped(m, st, space[..n], ends, seps);
      var m1, t := FoldFrom(m, space[..n]), space[n].token;
      NextStates(st, Auto(m1, st), t);
      KeyCounts(st, t);
      KeyedRuns(Next(st, Auto(m1, st), t), st);
      SeenStep(m1, st, t, ends, seps);
    }
  }

  lemma KeyedRuns(a: DfsState, st: Style)
    ensures Keyed(a, st) || a.DfsValue? || a.DfsInit? || Begun(a, st) ==> !a.DfsError?
  {}

  lemma {:induction false} SeenInner(m: FormatState, st: Style, toks: seq<Tok>, ends: nat, seps: nat)
    requires StyleOk(st) && Seen(m, st, ends, seps) && Auto(m, st).DfsValue?
    requires forall i | 0 <= i < |toks| :: IsInner(toks[i].token, st)
    ensures Seen(FoldFrom(m, toks), st, ends, seps) && Auto(FoldFrom(m, toks), st).DfsValue?
    decreases |toks|
  {
    hide Update, Seen, Auto, Next, IsInner, Counts, StyleOk;
    if toks == [] {
    } else {
      var n := |toks| - 1;
      SeenInner(m, st, toks[..n], ends, seps);
      var m1, t := FoldFrom(m, toks[..n]), toks[n].token;
      NextStates(st, Auto(m1, st), t);
      KeyCounts(st, t);
      SeenStep(m1, st, t, ends, seps);
    }
  }

  // A value without a key.
  lemma {:induction false} SeenBare(m: FormatState, st: Style, toks: seq<Tok>, ends: nat, seps: nat)
    requires StyleOk(st) && !st.end.Semi? && Seen(m, st, ends, seps) && toks != []
    requires Auto(m, st).DfsInit? || Begun(Auto(m, st), st)
    requires forall i | 0 <= i < |toks| :: IsInner(toks[i].token, st)
    ensures Seen(FoldFrom(m, toks), st, ends, seps) && Begun(Auto(FoldFrom(m, toks), st), st)
    ensures Auto(m, st).DfsInit? && (forall i | 0 < i < |toks| :: !toks[i].token.Word?) ==>
      Auto(FoldFrom(m, toks), st).DfsKey?
    ensures Unkeyed(Auto(m, st), st) && (forall i | 0 <= i < |toks| :: !IsOpener(toks[i].token)) ==>
      Keyed(Auto(FoldFrom(m, toks), st), st)
    decreases |toks|
  {
    hide Update, Seen, Auto, Next, IsInner, Counts, StyleOk, IsOpener, Begun, Keyed;
    var n := |toks| - 1;
    var m1, t := FoldFrom(m, toks[..n]), toks[n].token;
    if n == 0 {
      assert toks[..0] == [];
    } else {
      SeenBare(m, st, toks[..n], ends, seps);
    }
    BareStates(st, Auto(m1, st), t);
    KeyedRuns(Next(st, Auto(m1, st), t), st);
    KeyCounts(st, t);
    SeenStep(m1, st, t, ends, seps);
    assert Keyed(Auto(m1, st), st) ==> Unkeyed(Auto(m1, st), st);
  }

  // ---------- fields ----------

  lemma LevelInner(v: Content, st: Style)
    requires StyleOk(st) && ContentOk(v, st)
    ensures forall i | 0 <= i < |ContentLevel(v)| :: IsInner(ContentLevel(v)[i].token, st)
    ensures ContentLevel(v) != []
    ensures !v.Nested? ==> forall i | 0 <= i < |ContentLevel(v)| :: !IsOpener(ContentLevel(v)[i].token)
  {
    hide FieldsOk, Whole, Parts;
    forall i | 0 <= i < |ContentLevel(v)|
      ensures IsInner(ContentLevel(v)[i].token, st) && (!v.Nested? ==> !IsOpener(ContentLevel(v)[i].token))
    {
      var t := ContentLevel(v)[i].token;
      assert v.Plain? ==> IsPart(v.toks[i].token, st);
      assert v.Nested? ==> t == v.open.token || IsSkipped(t) by {
        hide IsSkipped;
      }
      assert v.Measured? ==> t == v.amount.token || t == v.unit.token || IsSkipped(t) by {
        hide IsSkipped;
      }
    }
    if v.Plain? && v.toks == [] {
      NoPartsThen();
    }
  }

  lemma NoPartsThen()
    ensures Parts(LeafList(Solid([]))) == []
  {}

  lemma SeenHead(m: FormatState, f: Field, st: Style, ends: nat, seps: nat)
    requires StyleOk(st) && f.Field? && FieldOk(f, st) && Seen(m, st, ends, seps) && Unkeyed(Auto(m, st), st)
    ensures
      var m' := FoldFrom(m, Head(f));
      Seen(m', st, ends, seps + 1) && Auto(m', st).DfsValue?
  {
    hide Update, Seen, FoldFrom, Auto, Next, IsSkipped, IsKeyToken, Counts, IsInner, StyleOk, ContentOk, Keyed;
    SeenSkipped(m, st, f.space, ends, seps);
    var m0 := FoldFrom(m, f.space);
    NextStates(st, Auto(m0, st), f.key.token);
    KeyCounts(st, f.key.token);
    KeyedRuns(Next(st, Auto(m0, st), f.key.token), st);
    SeenStep(m0, st, f.key.token, ends, seps);
    var m1 := Update(m0, f.key.token);
    SeenSkipped(m1, st, f.gap, ends, seps);
    var m2 := FoldFrom(m1, f.gap);
    NextStates(st, Auto(m2, st), st.sep);
    KeyCounts(st, st.sep);
    SeenStep(m2, st, st.sep, ends, seps);
    FoldOne(m, f.space, f.key);
    FoldParts(m, f.space + [f.key], f.gap);
    FoldOne(m, f.space + [f.key] + f.gap, f.sep);
  }

  lemma LevelStep(fs: seq<Field>, st: Style)
    requires fs != [] && FieldsOk(fs, st)
    ensures
      var n := |fs| - 1;
      && LevelToks(fs) == LevelToks(fs[..n]) + Lead(fs) + Head(fs[n]) + ContentLevel(fs[n].value)
      && FieldsOk(fs[..n], st) && FieldOk(fs[n], st) && ContentOk(fs[n].value, st) && fs[n].lead.token == st.end
      && Lead(fs) == (if n == 0 then [] else [fs[n].lead]) && LevelToks([]) == []
  {
    hide ContentOk, AllSkipped, IsKeyToken;
  }

  // Where the automaton is after some fields; headed tells whether it has seen a separator before them.
  predicate Stage(a: DfsState, fs: seq<Field>, st: Style, headed: bool)
    requires fs != []
  {
    if st.end.Semi? then a.DfsValue?
    else if st.end.Comma? then
      if ExpectsSep(fs[|fs| - 1]) && !(headed && |fs| == 1) then Begun(a, st) else a.DfsKey? || a.DfsValue?
    else if KeyedCount(fs) == 0 && !HasBare(fs) then Keyed(a, st)
    else Begun(a, st)
  }

  predicate Starting(a: DfsState, fs: seq<Field>, st: Style, headed: bool)
    requires fs != []
  {
    if headed then a.DfsValue? && st.end.Comma? && fs[0].Item? else a.DfsInit?
  }

  lemma AcceptedLess(fs: seq<Field>, st: Style, headed: bool)
    requires |fs| > 1 && Accepted(fs, st, headed)
    ensures
      var n := |fs| - 1;
      && Accepted(fs[..n], st, headed)
      && (st.end.Comma? && ExpectsSep(fs[n - 1]) ==> headed && n == 1)
      && (st.end.Emdash? && fs[n].Field? ==> KeyedCount(fs[..n]) == 0 && !HasBare(fs[..n]))
      && (st.end.Semi? ==> fs[n].Field?)
  {
    hide ExpectsSep, HasBare, KeyedCount;
    var n := |fs| - 1;
    CountLess(fs);
    BareLess(fs);
    assert forall i | 0 <= i < n :: fs[..n][i] == fs[i];
  }

  lemma CountLess(fs: seq<Field>)
    requires fs != []
    ensures KeyedCount(fs) == KeyedCount(fs[..|fs| - 1]) + if fs[|fs| - 1].Field? then 1 else 0
  {}

  lemma BareLess(fs: seq<Field>)
    requires fs != []
    ensures
      var n := |fs| - 1;
      HasBare(fs) <==> HasBare(fs[..n]) || (fs[n].Item? && fs[n].value.Nested?)
  {
    var n := |fs| - 1;
    if HasBare(fs[..n]) {
      var i :| 0 <= i < n && fs[..n][i].Item? && fs[..n][i].value.Nested?;
      assert fs[i].Item?;
    }
    if HasBare(fs) {
      var i :| 0 <= i < |fs| && fs[i].Item? && fs[i].value.Nested?;
      assert i < n ==> fs[..n][i].Item?;
    }
  }

  // The end of a field leads to the start of the next one.
  lemma SeenEnd(m: FormatState, fs: seq<Field>, st: Style, headed: bool, ends: nat, seps: nat)
    requires |fs| > 1 && StyleOk(st) && Accepted(fs, st, headed)
    requires Seen(m, st, ends, seps) && Stage(Auto(m, st), fs[..|fs| - 1], st, headed)
    ensures
      var m', f := Update(m, st.end), fs[|fs| - 1];
      && Seen(m', st, ends + 1, seps)
      && (f.Field? ==> Unkeyed(Auto(m', st), st))
      && (f.Item? ==> !st.end.Semi? && (Auto(m', st).DfsInit? || (st.end.Emdash? && Begun(Auto(m', st), st))))
      && (st.end.Emdash? && KeyedCount(fs[..|fs| - 1]) == 0 && !HasBare(fs[..|fs| - 1]) ==> Unkeyed(Auto(m', st), st))
  {
    var a := Auto(m, st);
    AcceptedLess(fs, st, headed);
    hide Seen, Auto, Update, Next, Counts, Accepted, ExpectsSep, HasBare;
    NextStates(st, a, st.end);
    KeyCounts(st, st.end);
    if !st.end.Semi? {
      BareStates(st, a, st.end);
    }
    KeyedRuns(Next(st, a, st.end), st);
    SeenStep(m, st, st.end, ends, seps);
  }

  // A field of either kind.
  lemma SeenField(m: FormatState, fs: seq<Field>, st: Style, headed: bool, ends: nat, seps: nat)
    requires fs != [] && StyleOk(st) && Accepted(fs, st, headed) && FieldOk(fs[|fs| - 1], st) && Seen(m, st, ends, seps)
    requires
      var a, f := Auto(m, st), fs[|fs| - 1];
      && (f.Field? ==> Unkeyed(a, st))
      && (f.Item? ==> !st.end.Semi?)
      && (f.Item? && !(headed && |fs| == 1) ==> a.DfsInit? || (st.end.Emdash? && Begun(a, st)))
      && (f.Item? && headed && |fs| == 1 ==> a.DfsValue? && st.end.Comma?)
      && (st.end.Emdash? && (|fs| == 1 || (KeyedCount(fs[..|fs| - 1]) == 0 && !HasBare(fs[..|fs| - 1]))) ==>
            Unkeyed(a, st))
    ensures
      var f := fs[|fs| - 1];
      var m' := FoldFrom(m, Head(f) + ContentLevel(f.value));
      && Seen(m', st, ends, seps + if f.Field? then 1 else 0) && Stage(Auto(m', st), fs, st, headed)
  {
    var f := fs[|fs| - 1];
    var toks := ContentLevel(f.value);
    assert ContentOk(f.value, st);
    if |fs| > 1 {
      AcceptedLess(fs, st, headed);
    }
    hide Seen, Auto, Update, Next, Counts, Accepted, FieldOk, ContentOk, FoldFrom, Head, ContentLevel, IsInner;
    LevelInner(f.value, st);
    if f.Field? {
      SeenHead(m, f, st, ends, seps);
      SeenInner(FoldFrom(m, Head(f)), st, toks, ends, seps + 1);
      FoldParts(m, Head(f), toks);
    } else {
      assert Head(f) + toks == toks by {
        NoHead(f);
      }
      if headed && |fs| == 1 {
        SeenInner(m, st, toks, ends, seps);
      } else {
        SeenBare(m, st, toks, ends, seps);
      }
    }
  }

  lemma NoHead(f: Field)
    requires f.Item?
    ensures Head(f) == []
  {}

  // On a list of fields the automaton never fails, and the counts are those of the fields.
  lemma {:induction false} SeenLevel(m0: FormatState, fs: seq<Field>, st: Style, headed: bool, ends: nat, seps: nat)
    requires fs != [] && FieldsOk(fs, st) && Accepted(fs, st, headed)
    requires Seen(m0, st, ends, seps) && Starting(Auto(m0, st), fs, st, headed)
    ensures
      var m := FoldFrom(m0, LevelToks(fs));
      Seen(m, st, ends + |fs| - 1, seps + KeyedCount(fs)) && Stage(Auto(m, st), fs, st, headed)
    decreases |fs|
  {
    hide *;
    var n := |fs| - 1;
    var before, here := LevelToks(fs[..n]), Head(fs[n]) + ContentLevel(fs[n].value);
    LevelStep(fs, st);
    CountLess(fs);
    StyleIsOk(fs, st);
    FoldParts(m0, before, Lead(fs));
    var m1 := FoldFrom(m0, before + Lead(fs));
    if n == 0 {
      assert fs[..0] == [] && before + Lead(fs) == [];
      FoldNothing(m0);
      NoneCounted();
      StartsField(Auto(m0, st), fs, st, headed);
      SeenField(m1, fs, st, headed, ends, seps);
    } else {
      AcceptedLess(fs, st, headed);
      StartsLess(Auto(m0, st), fs, st, headed);
      SeenLevel(m0, fs[..n], st, headed, ends, seps);
      FoldOne(m0, before, fs[n].lead);
      SeenEnd(FoldFrom(m0, before), fs, st, headed, ends + n - 1, seps + KeyedCount(fs[..n]));
      SeenField(m1, fs, st, headed, ends + n, seps + KeyedCount(fs[..n]));
    }
    FoldParts(m0, before + Lead(fs), here);
    assert before + Lead(fs) + here == LevelToks(fs);
  }

  lemma StyleIsOk(fs: seq<Field>, st: Style)
    requires FieldsOk(fs, st)
    ensures StyleOk(st)
  {}

  lemma NoneCounted()
    ensures KeyedCount([]) == 0
  {}

  lemma StartsField(a: DfsState, fs: seq<Field>, st: Style, headed: bool)
    requires |fs| == 1 && Starting(a, fs, st, headed) && Accepted(fs, st, headed)
    ensures
      var f := fs[0];
      && (f.Field? ==> Unkeyed(a, st)) && (f.Item? ==> !st.end.Semi?)
      && (if headed then f.Item? && a.DfsValue? && st.end.Comma? else a.DfsInit? && Unkeyed(a, st))
  {
    hide HasBare, ExpectsSep;
  }

  lemma StartsLess(a: DfsState, fs: seq<Field>, st: Style, headed: bool)
    requires |fs| > 1 && Starting(a, fs, st, headed)
    ensures Starting(a, fs[..|fs| - 1], st, headed)
  {}

  lemma FoldNothing(m: FormatState)
    ensures FoldFrom(m, []) == m
  {}

  lemma NothingSeen(st: Style)
    requires StyleOk(st)
    ensures Seen(FoldFrom(INITIAL, []), st, 0, 0) && Auto(FoldFrom(INITIAL, []), st).DfsInit?
    ensures FoldFrom(INITIAL, []) == INITIAL
  {}

  lemma StageRuns(a: DfsState, fs: seq<Field>, st: Style, headed: bool)
    requires fs != [] && Stage(a, fs, st, headed)
    ensures Begun(a, st) && !a.DfsError?
  {
    hide ExpectsSep, HasBare;
  }

  // A list of one field is accepted by the automaton for commas.
  lemma ShapedAccepted(fs: seq<Field>, st: Style)
    requires fs != [] && Shaped(fs, st)
    ensures Accepted(fs, st, false)
  {
    hide IsSingle, ExpectsSep, HasBare;
  }

  // So the list has the format for its fields, also when a closing bracket is counted with it.
  lemma LevelFormat(fs: seq<Field>, st: Style, close: Token)
    requires fs != [] && FieldsOk(fs, st) && Shaped(fs, st) && IsCloser(close)
    ensures FormatOf(TokenSeq(LevelToks(fs))) == FormatOfFields(st, fs)
    ensures FormatOf(TokenSeq(LevelToks(fs)) + [close]) == FormatOfFields(st, fs)
  {
    hide *;
    var toks, m := LevelToks(fs), FoldFrom(INITIAL, LevelToks(fs));
    StyleIsOk(fs, st);
    ShapedAccepted(fs, st);
    NothingSeen(st);
    StartsNew(INITIAL, fs, st);
    SeenLevel(INITIAL, fs, st, false, 0, 0);
    StageRuns(Auto(m, st), fs, st, false);
    SeenFormat(m, fs, st);
    FoldIsFold(toks);
    SeenClose(m, fs, st, close);
    FoldMore(TokenSeq(toks), close);
    FormatIsFinal(TokenSeq(toks));
    FormatIsFinal(TokenSeq(toks) + [close]);
  }

  lemma StartsNew(m: FormatState, fs: seq<Field>, st: Style)
    requires fs != [] && Auto(m, st).DfsInit?
    ensures Starting(Auto(m, st), fs, st, false)
  {}

  lemma FormatIsFinal(toks: seq<Token>)
    ensures FormatOf(toks) == Finalize(Fold(toks)).format
  {}

  lemma SeenClose(m: FormatState, fs: seq<Field>, st: Style, close: Token)
    requires fs != [] && StyleOk(st) && Shaped(fs, st) && IsCloser(close)
    requires Seen(m, st, |fs| - 1, KeyedCount(fs)) && Begun(Auto(m, st), st)
    ensures Finalize(Update(m, close)).format == FormatOfFields(st, fs)
  {
    hide Seen, Auto, Next, Update, Finalize, FormatOfFields, Counts, Shaped;
    KeyCounts(st, close);
    CloserKeeps(st, Auto(m, st), close);
    SeenStep(m, st, close, |fs| - 1, KeyedCount(fs));
    SeenFormat(Update(m, close), fs, st);
  }

  lemma CloserKeeps(st: Style, a: DfsState, close: Token)
    requires StyleOk(st) && IsCloser(close) && Begun(a, st)
    ensures !Next(st, a, close).DfsError? && IsInner(close, st)
  {}

  lemma FoldMore(toks: seq<Token>, t: Token)
    ensures Fold(toks + [t]) == Update(Fold(toks), t)
  {
    hide Update;
    assert (toks + [t])[..|toks|] == toks;
  }
}
