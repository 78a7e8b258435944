// The lists that the automata accept, said without automata: what a list must look like to be one of fields that
// semicolons, or commas, end.
module Languages {
  import opened Tokens
  import opened Elements
  import opened Dfs

  predicate IsSep(t: Token)
  {
    t.Colon? || t.Equals?
  }

  // ---------- the prefix ----------

  // The tokens that end a prefix.
  predicate EndsPrefix(t: Token)
  {
    || t.Invalid? || t.QuotedString? || t.Comment? || t.Url? || t.MacAddress? || t.Date? || t.Time? || t.DateTime?
    || t.Ipv6Address? || t.HexDump? || t.XmlDeclTag? || t.XmlEmptyTag? || t.XmlOpenTag? || t.XmlCloseTag?
    || t.H1? || t.H2? || t.H3? || t.Comma? || t.Semi? || t.Emdash? || t.LCurly? || t.RCurly? || t.LParen? || t.RParen?
    || t.Ipv4Address? || t.Uuid? || t.CreditCardNumber? || t.VersionNumber? || t.Percentage? || t.Unit? || t.Line?
    || t.Dot? || t.EscapedChar? || t.Garbage? || t.ZeroWidthSpace? || t.DiffFileHeader? || t.DiffHunkHeading?
    || t.CodeBlock? || t.Key? || t.Pair? || t.Value? || t.Row? || t.Units? || t.Measurement? || t.VariableKey?
    || t.RowRange? || t.Group?
  }

  lemma PrefixOrNot(t: Token)
    ensures InPrefix(t) <==> !EndsPrefix(t)
  {}

  predicate OnlyPrefix(toks: seq<Token>)
  {
    forall i | 0 <= i < |toks| :: !EndsPrefix(toks[i])
  }

  lemma {:induction false} PrefixState(toks: seq<Token>)
    ensures Fold(toks).prefix == if OnlyPrefix(toks) then DfsInit else DfsError
    decreases |toks|
  {
    hide InPrefix, EndsPrefix, SemiNext, CommaNext;
    if toks == [] {
    } else {
      PrefixState(toks[..|toks| - 1]);
      PrefixOrNot(toks[|toks| - 1]);
    }
  }

  // ---------- semicolons ----------

  // Behind the first token of the field that is open at n there is a separator.
  predicate HasSep(toks: seq<Token>, n: nat)
    requires n <= |toks|
  {
    exists j | 0 < j < n :: SepAt(toks, j, n)
  }

  predicate SepAt(toks: seq<Token>, j: int, n: nat)
    requires n <= |toks|
  {
    0 < j < n && IsSep(toks[j]) && !toks[j - 1].Semi? && forall k | j < k < n :: !toks[k].Semi?
  }

  predicate StartsField(toks: seq<Token>, i: nat)
    requires i <= |toks|
  {
    i == 0 || toks[i - 1].Semi?
  }

  // No field starts with a comma or a semicolon, and no semicolon ends a field without a separator.
  predicate SemiList(toks: seq<Token>)
  {
    && (forall i | 0 <= i < |toks| && StartsField(toks, i) :: !toks[i].Comma? && !toks[i].Semi?)
    && (forall i | 0 <= i < |toks| && toks[i].Semi? :: HasSep(toks, i))
  }

  function SemiState(toks: seq<Token>): DfsState
  {
    if StartsField(toks, |toks|) then DfsInit else if HasSep(toks, |toks|) then DfsValue else DfsKey
  }

  lemma HasSepStep(toks: seq<Token>)
    requires toks != []
    ensures
      var n := |toks| - 1;
      && (forall i | 0 <= i <= n :: HasSep(toks, i) <==> HasSep(toks[..n], i))
      && (HasSep(toks, |toks|) <==>
           || (n > 0 && IsSep(toks[n]) && !toks[n - 1].Semi?)
           || (HasSep(toks[..n], n) && !toks[n].Semi?))
  {
    hide IsSep;
    var n := |toks| - 1;
    assert forall i, j | 0 <= i <= n :: SepAt(toks, j, i) <==> SepAt(toks[..n], j, i);
    assert forall j | j < n :: SepAt(toks, j, |toks|) <==> SepAt(toks, j, n) && !toks[n].Semi?;
    assert n > 0 && IsSep(toks[n]) && !toks[n - 1].Semi? <==> SepAt(toks, n, |toks|);
  }

  lemma SemiListStep(toks: seq<Token>)
    requires toks != []
    ensures
      var n, t := |toks| - 1, toks[|toks| - 1];
      SemiList(toks) <==>
        && SemiList(toks[..n]) && (StartsField(toks[..n], n) ==> !t.Comma? && !t.Semi?)
        && (t.Semi? ==> HasSep(toks[..n], n))
  {
    HasSepStep(toks);
    hide HasSep;
    var n := |toks| - 1;
    assert forall i | 0 <= i < n :: toks[..n][i] == toks[i];
    assert forall i | 0 <= i <= n :: StartsField(toks[..n], i) <==> StartsField(toks, i);
  }

  lemma UpdateSemi(toks: seq<Token>)
    requires toks != []
    ensures
      var st, st', t := Fold(toks[..|toks| - 1]), Fold(toks), toks[|toks| - 1];
      st'.semi == if st'.prefix != DfsError && SemiNext(st.semi, t) == DfsError then DfsInit else SemiNext(st.semi, t)
  {
    hide CommaNext, PrefixNext, SemiNext;
  }

  lemma SemiStep(toks: seq<Token>)
    requires toks != []
    ensures
      var n, t := |toks| - 1, toks[|toks| - 1];
      var fits := (StartsField(toks[..n], n) ==> !t.Comma? && !t.Semi?) && (t.Semi? ==> HasSep(toks[..n], n));
      && SemiNext(SemiState(toks[..n]), t) == (if fits then SemiState(toks) else DfsError)
      && (!fits ==> t.Comma? || t.Semi?) && SemiNext(DfsError, t) == DfsError && SemiState(toks) != DfsError
  {
    HasSepStep(toks);
    hide HasSep;
  }

  // The automaton for semicolons accepts exactly these lists; nothing it does is ever forgiven.
  lemma {:induction false} SemiAccepts(toks: seq<Token>)
    ensures Fold(toks).semi == if SemiList(toks) then SemiState(toks) else DfsError
    decreases |toks|
  {
    hide Fold;
    if toks == [] {
      NothingFolded();
    } else {
      hide SemiList, SemiState, HasSep, EndsPrefix, OnlyPrefix, SemiNext;
      var n, t := |toks| - 1, toks[|toks| - 1];
      SemiAccepts(toks[..n]);
      SemiListStep(toks);
      SemiStep(toks);
      UpdateSemi(toks);
      PrefixState(toks);
      StaysPrefix(toks);
      SepInPrefix(t);
      PrefixRun(toks[..n]);
      PrefixState(toks[..n]);
    }
  }

  lemma NothingFolded()
    ensures Fold([]) == INITIAL
  {}

  lemma SepInPrefix(t: Token)
    ensures IsSep(t) ==> !EndsPrefix(t)
    ensures t.Comma? || t.Semi? ==> EndsPrefix(t)
  {}

  lemma StaysPrefix(toks: seq<Token>)
    requires toks != []
    ensures OnlyPrefix(toks) <==> OnlyPrefix(toks[..|toks| - 1]) && !EndsPrefix(toks[|toks| - 1])
  {
    hide EndsPrefix;
  }

  // ---------- commas ----------

  // Of a field that is not complete: a word stands behind its first token.
  predicate Worded(f: seq<Token>)
  {
    exists i | 0 < i < |f| :: f[i].Word?
  }

  // Its value has begun: a separator stands behind its first token, or a bracket behind such a word.
  predicate Valued(f: seq<Token>)
  {
    exists j | 0 < j < |f| :: IsSep(f[j]) || (IsOpener(f[j]) && Worded(f[..j]))
  }

  // The token belongs to the field.
  predicate Continues(f: seq<Token>, t: Token)
  {
    && !t.Comma?
    && (Valued(f) ==> !IsSep(t))
    && (!Valued(f) ==> !t.Semi?)
    && (Worded(f) && !Valued(f) ==> !t.EmptyContainer?)
  }

  predicate IsField(f: seq<Token>)
  {
    forall i | 0 <= i < |f| :: Continues(f[..i], f[i])
  }

  // The token ends the field: a comma, unless a word has raised the hope for a value; instead of that value an empty
  // pair of brackets; or a second separator, as long as there has been nothing but a prefix.
  predicate EndsField(before: seq<Token>, f: seq<Token>, t: Token)
  {
    || (t.Comma? && (Worded(f) ==> Valued(f)))
    || (t.EmptyContainer? && Worded(f) && !Valued(f))
    || (IsSep(t) && Valued(f) && OnlyPrefix(before))
  }

  // The list is one of fields that end so, and its last field, which has not ended, starts at s.
  ghost predicate Listed(toks: seq<Token>, s: nat)
    decreases |toks|, 0
  {
    s <= |toks| && IsField(toks[s..]) && (s > 0 ==> Ended(toks[..s - 1], toks[s - 1]))
  }

  ghost predicate Ended(before: seq<Token>, t: Token)
    decreases |before|, 2
  {
    exists r: nat :: EndsLast(before, r, t)
  }

  // The token ends the last field, which starts at r.
  ghost predicate EndsLast(before: seq<Token>, r: nat, t: Token)
    decreases |before|, 1
  {
    Listed(before, r) && EndsField(before, before[r..], t)
  }

  ghost predicate CommaList(toks: seq<Token>)
  {
    exists s :: Listed(toks, s)
  }

  function FieldState(f: seq<Token>): DfsState
  {
    if f == [] then DfsInit else if Valued(f) then DfsValue else if Worded(f) then DfsExpectingSep else DfsKey
  }

  // How a field grows.
  lemma FieldGrows(f: seq<Token>, t: Token)
    ensures Worded(f + [t]) <==> Worded(f) || (f != [] && t.Word?)
    ensures Valued(f + [t]) <==> Valued(f) || (f != [] && (IsSep(t) || (IsOpener(t) && Worded(f))))
    ensures IsField(f + [t]) <==> IsField(f) && Continues(f, t)
  {
    var g := f + [t];
    assert g[..|f|] == f && g[|f|] == t;
    assert forall i | 0 <= i <= |f| :: g[..i] == f[..i];
    hide IsSep, Continues, IsOpener;
    if f != [] && t.Word? {
      assert g[|f|].Word?;
    }
    if Worded(f) {
      var i :| 0 < i < |f| && f[i].Word?;
      assert g[i].Word?;
    }
    hide Worded;
    if f != [] && (IsSep(t) || (IsOpener(t) && Worded(f))) {
      assert IsSep(g[|f|]) || (IsOpener(g[|f|]) && Worded(g[..|f|]));
    }
    if Valued(f) {
      var j :| 0 < j < |f| && (IsSep(f[j]) || (IsOpener(f[j]) && Worded(f[..j])));
      assert IsSep(g[j]) || (IsOpener(g[j]) && Worded(g[..j]));
    }
  }

  // One step of the automaton, on what the state of the field says.
  lemma CommaStep(f: seq<Token>, t: Token)
    ensures Continues(f, t) ==> CommaNext(FieldState(f), t) == FieldState(f + [t])
    ensures
      (t.Comma? && (Worded(f) ==> Valued(f))) || (t.EmptyContainer? && Worded(f) && !Valued(f)) ==>
        CommaNext(FieldState(f), t) == DfsInit
    ensures IsSep(t) && Valued(f) ==> CommaNext(FieldState(f), t) == DfsError
    ensures
      || Continues(f, t) || EndsField([], f, t)
      || (CommaNext(FieldState(f), t) == DfsError && (t.Comma? || t.Semi?))
  {
    FieldGrows(f, t);
    EmptyField();
    hide Worded, Valued;
  }

  lemma EmptyField()
    ensures !Worded([]) && !Valued([])
  {}

  lemma UpdateComma(toks: seq<Token>)
    requires toks != []
    ensures
      var st, st', t := Fold(toks[..|toks| - 1]), Fold(toks), toks[|toks| - 1];
      st'.comma == if st'.prefix != DfsError && CommaNext(st.comma, t) == DfsError then DfsInit else CommaNext(st.comma, t)
  {
    hide CommaNext, PrefixNext, SemiNext;
  }

  // How a list grows: its last field does, or a new one starts.
  lemma ListedGrows(toks: seq<Token>, s: nat)
    requires toks != [] && s < |toks|
    ensures
      var before, t := toks[..|toks| - 1], toks[|toks| - 1];
      && toks[s..] == before[s..] + [t]
      && (Listed(toks, s) <==> Listed(before, s) && Continues(before[s..], t))
  {
    var before, t := toks[..|toks| - 1], toks[|toks| - 1];
    assert toks[s..] == before[s..] + [t];
    FieldGrows(before[s..], t);
    assert s > 0 ==> before[..s - 1] == toks[..s - 1];
    hide IsField, Continues, Ended;
  }

  lemma ListedNew(toks: seq<Token>)
    requires toks != []
    ensures
      var before, t := toks[..|toks| - 1], toks[|toks| - 1];
      Listed(toks, |toks|) <==> Ended(before, t)
  {
    assert toks[|toks|..] == [] && IsField([]);
    hide Continues, Ended;
  }

  lemma {:induction false} ListedState(toks: seq<Token>, s: nat)
    requires Listed(toks, s)
    ensures s <= |toks| && Fold(toks).comma == FieldState(toks[s..])
    decreases |toks|
  {
    ListedWithin(toks, s);
    hide CommaNext, Continues, EndsField, OnlyPrefix, Fold, Listed, FieldState;
    if toks == [] {
      NothingFolded();
      FieldStateRuns([]);
    } else {
      var n, t := |toks| - 1, toks[|toks| - 1];
      var before := toks[..n];
      if s == |toks| {
        ListedNew(toks);
        var r: nat :| EndsLast(before, r, t);
        ListedState(before, r);
        FieldEnded(toks, r);
      } else {
        ListedGrows(toks, s);
        ListedState(before, s);
        UpdateComma(toks);
        CommaStep(before[s..], t);
        FieldStateRuns(toks[s..]);
      }
    }
  }

  lemma ListedWithin(toks: seq<Token>, s: nat)
    requires Listed(toks, s)
    ensures s <= |toks|
  {
    hide IsField;
  }

  lemma FieldStateRuns(f: seq<Token>)
    ensures FieldState(f) != DfsError
    ensures FieldState([]) == DfsInit
  {
    hide Worded, Valued;
  }

  lemma FieldEnded(toks: seq<Token>, r: nat)
    requires toks != [] && r < |toks|
    requires
      var n, t := |toks| - 1, toks[|toks| - 1];
      var before := toks[..n];
      Fold(before).comma == FieldState(before[r..]) && EndsField(before, before[r..], t)
    ensures Fold(toks).comma == DfsInit && FieldState(toks[|toks|..]) == DfsInit
  {
    hide CommaNext, Worded, Valued, EndsPrefix, Fold, OnlyPrefix, FieldState;
    var before, t := toks[..|toks| - 1], toks[|toks| - 1];
    CommaStep(before[r..], t);
    UpdateComma(toks);
    PrefixState(toks);
    SepInPrefix(t);
    StaysPrefix(toks);
    FieldStateRuns(before[r..]);
    assert toks[|toks|..] == [];
  }

  lemma {:induction false} StateListed(toks: seq<Token>) returns (s: nat)
    requires Fold(toks).comma != DfsError
    ensures Listed(toks, s)
    decreases |toks|
  {
    if toks == [] {
      s := 0;
    } else {
      hide *;
      var before, t := toks[..|toks| - 1], toks[|toks| - 1];
      NotFailed(toks);
      var r := StateListed(before);
      ListedState(before, r);
      if Continues(before[r..], t) {
        s := r;
        ListedGrows(toks, s);
      } else {
        s := |toks|;
        FieldMustEnd(toks, r);
        ListedNew(toks);
      }
    }
  }

  lemma NotFailed(toks: seq<Token>)
    requires toks != [] && Fold(toks).comma != DfsError
    ensures Fold(toks[..|toks| - 1]).comma != DfsError
  {
    var before, t := toks[..|toks| - 1], toks[|toks| - 1];
    UpdateComma(toks);
    PrefixRun(before);
    PrefixState(before);
    PrefixState(toks);
    StaysPrefix(toks);
    hide Fold, OnlyPrefix, EndsPrefix;
  }

  lemma FieldMustEnd(toks: seq<Token>, r: nat)
    requires toks != [] && Fold(toks).comma != DfsError && r < |toks|
    requires
      var before, t := toks[..|toks| - 1], toks[|toks| - 1];
      Listed(before, r) && Fold(before).comma == FieldState(before[r..]) && !Continues(before[r..], t)
    ensures EndsLast(toks[..|toks| - 1], r, toks[|toks| - 1])
  {
    hide CommaNext, Worded, Valued, EndsPrefix, Fold, OnlyPrefix, FieldState, Listed;
    var before, t := toks[..|toks| - 1], toks[|toks| - 1];
    CommaStep(before[r..], t);
    UpdateComma(toks);
    PrefixState(toks);
    SepInPrefix(t);
    StaysPrefix(toks);
    FieldStateRuns(before[r..]);
  }

  // The automaton for commas accepts exactly the lists of such fields.
  lemma CommaAccepts(toks: seq<Token>)
    ensures Fold(toks).comma != DfsError <==> CommaList(toks)
  {
    hide Fold, Listed;
    if Fold(toks).comma != DfsError {
      var s := StateListed(toks);
    }
    forall s: nat | Listed(toks, s)
      ensures Fold(toks).comma != DfsError
    {
      ListedState(toks, s);
      FieldStateRuns(toks[s..]);
    }
  }

  // ---------- the format ----------

  // So the format of any list: what ends its fields, what separates keys from values, and what ends its prefix.
  lemma FormatGuessed(toks: seq<Token>)
    ensures
      var f, colons, commas := FormatOf(toks), multiset(toks)[Colon], multiset(toks)[Comma];
      var semi, list := SemiList(toks) && Semi in toks, CommaList(toks);
      && f.terminator ==
           (if semi then Semi else if list && Comma in toks then Comma else if list && Emdash in toks then Emdash
            else Invalid)
      && f.appender == (if semi then Comma else Invalid)
      && f.name == (match f.terminator case Semi => SemiFormat case Comma => CommaFormat case Emdash => EmdashFormat
                    case _ => PlainFormat)
      && (f.separator.Equals? <==> Equals in toks) && (f.qualifier == if Equals in toks then Colon else Invalid)
      && (f.separator.Invalid? <==>
            f.terminator.Comma? && Equals !in toks && colons != commas && colons != commas + 1)
      && (f.separator.Colon? || f.separator.Equals? || f.separator.Invalid?)
      && f.prefixTerminator == if f.separator.Invalid? && Colon in toks then Colon else Invalid
  {
    HistIs(toks);
    SemiAccepts(toks);
    CommaAccepts(toks);
    SemiRuns(toks);
    hide Fold, SemiList, CommaList, SemiState;
  }

  lemma SemiRuns(toks: seq<Token>)
    ensures SemiState(toks) != DfsError
  {}
}
