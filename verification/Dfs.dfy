// The three automata that guess the format of a list from its tokens.
module Dfs {
  import opened Tokens
  import opened Elements

  datatype DfsState = DfsError | DfsInit | DfsKey | DfsExpectingSep | DfsValue

  // The tokens of a message prefix.
  predicate InPrefix(t: Token)
  {
    || t.Path? || t.Colon? || t.Equals? || t.Constant? || t.Email? || t.Word? || t.Symbol? || t.Id?
    || t.OctalNumber? || t.HexNumber? || t.Number? || t.White? || t.Csi? || t.LSquare? || t.RSquare?
    || t.LAngle? || t.RAngle? || t.EmptyContainer? || t.Anchor?
  }

  function PrefixNext(state: DfsState, t: Token): DfsState
  {
    match state
    case DfsInit => if InPrefix(t) then state else DfsError
    case DfsExpectingSep => DfsError
    case DfsError => DfsError
    case _ => state
  }

  function SemiNext(state: DfsState, t: Token): DfsState
  {
    match state
    case DfsInit => if t.Comma? || t.Semi? then DfsError else DfsKey
    case DfsKey => if t.Colon? || t.Equals? then DfsValue else if t.Semi? then DfsError else state
    case DfsValue => if t.Semi? then DfsInit else state
    case DfsExpectingSep => DfsError
    case DfsError => DfsError
  }

  function CommaNext(state: DfsState, t: Token): DfsState
  {
    match state
    case DfsInit => if t.Comma? then state else if t.Semi? then DfsError else DfsKey
    case DfsKey =>
      if t.Colon? || t.Equals? then DfsValue
      else if t.Comma? then DfsInit
      else if t.Word? then DfsExpectingSep
      else if t.Semi? then DfsError
      else state
    case DfsExpectingSep =>
      if t.Colon? || t.Equals? || IsOpener(t) then DfsValue
      else if t.EmptyContainer? then DfsInit
      else if t.Comma? || t.Semi? then DfsError
      else state
    case DfsValue =>
      if t.Comma? then DfsInit else if t.Colon? || t.Equals? then DfsError else state
    case DfsError => DfsError
  }

  // What is known about a list while its tokens are read; hist counts the tokens seen.
  datatype FormatState = FormatState(
    prefix: DfsState, semi: DfsState, comma: DfsState, hist: multiset<Token>, format: Format)

  const INITIAL := FormatState(DfsInit, DfsInit, DfsInit, multiset{}, DEFAULT_FORMAT)

  // While only prefix tokens have been seen the other automata start over instead of failing.
  function Restart(prefix: DfsState, s: DfsState): DfsState
  {
    if prefix != DfsError && s == DfsError then DfsInit else s
  }

  function Update(st: FormatState, t: Token): FormatState
  {
    var p := PrefixNext(st.prefix, t);
    FormatState(
      p, Restart(p, SemiNext(st.semi, t)), Restart(p, CommaNext(st.comma, t)), st.hist + multiset{t}, st.format)
  }

  function Finalize(st: FormatState): FormatState
  {
    var commas: int, colons: int := st.hist[Comma], st.hist[Colon];
    var qualifier := if st.hist[Equals] > 0 then Colon else st.format.qualifier;
    var separator := if st.hist[Equals] > 0 then Equals else st.format.separator;
    var semi := st.semi != DfsError && st.hist[Semi] > 0;
    var listed := !semi && st.comma != DfsError;
    var base :=
      if semi then FORMAT_SEMI
      else if listed && commas > 0 then FORMAT_COMMA
      else if listed && st.hist[Emdash] > 0 then FORMAT_EMDASH
      else FORMAT_PLAIN;
    // In a comma-separated list the colons separate keys only when there are as many as there are
    // commas, or one more; otherwise the first colon ends a prefix.
    var odd := listed && separator.Colon? && commas > 0 && !(colons == commas || colons - 1 == commas);
    st.(format := base.(
      qualifier := qualifier,
      separator := if odd then Invalid else separator,
      prefixTerminator := if odd && colons > 0 then Colon else st.format.prefixTerminator))
  }

  function Fold(toks: seq<Token>): FormatState
  {
    if toks == [] then INITIAL else Update(Fold(toks[..|toks| - 1]), toks[|toks| - 1])
  }

  // The format of a list in which the given tokens were seen.
  function FormatOf(toks: seq<Token>): Format
  {
    Finalize(Fold(toks)).format
  }

  // Every token seen is counted, and the format is not touched.
  lemma {:induction false} HistIs(toks: seq<Token>)
    ensures Fold(toks).hist == multiset(toks) && Fold(toks).format == DEFAULT_FORMAT
    decreases |toks|
  {
    if toks == [] {
    } else {
      var n := |toks| - 1;
      HistIs(toks[..n]);
      assert toks == toks[..n] + [toks[n]];
      hide PrefixNext, SemiNext, CommaNext, Restart;
    }
  }

  // ---------- the prefix automaton ----------

  // How many tokens from the start belong to the prefix.
  function PrefixLength(toks: seq<Token>): (n: nat)
    ensures n <= |toks|
    ensures forall i | 0 <= i < n :: InPrefix(toks[i])
    ensures n < |toks| ==> !InPrefix(toks[n])
  {
    if toks == [] then 0
    else
      var n := PrefixLength(toks[..|toks| - 1]);
      if n == |toks| - 1 && InPrefix(toks[n]) then n + 1 else n
  }

  lemma {:induction false} PrefixRun(toks: seq<Token>)
    ensures Fold(toks).prefix == if PrefixLength(toks) == |toks| then DfsInit else DfsError
    ensures Fold(toks).prefix != DfsError ==> Fold(toks).semi != DfsError && Fold(toks).comma != DfsError
    decreases |toks|
  {
    hide InPrefix;
    if toks == [] {
    } else {
      PrefixRun(toks[..|toks| - 1]);
    }
  }

  // The automata without the restarts, from a given state.
  function SemiRun(s: DfsState, toks: seq<Token>): DfsState
  {
    if toks == [] then s else SemiNext(SemiRun(s, toks[..|toks| - 1]), toks[|toks| - 1])
  }

  function CommaRun(s: DfsState, toks: seq<Token>): DfsState
  {
    if toks == [] then s else CommaNext(CommaRun(s, toks[..|toks| - 1]), toks[|toks| - 1])
  }

  lemma {:induction false} RunExtends(s: DfsState, toks: seq<Token>, n: nat)
    requires n <= |toks|
    ensures SemiRun(s, toks) == SemiRun(SemiRun(s, toks[..n]), toks[n..])
    ensures CommaRun(s, toks) == CommaRun(CommaRun(s, toks[..n]), toks[n..])
    decreases |toks| - n
  {
    hide SemiNext, CommaNext;
    if n == |toks| {
      assert toks[..n] == toks;
    } else {
      var last := |toks| - 1;
      RunExtends(s, toks[..last], n);
      assert toks[..last][..n] == toks[..n] && toks[..last][n..] == toks[n..][..last - n];
    }
  }

  lemma {:induction false} ErrorAbsorbs(toks: seq<Token>)
    ensures SemiRun(DfsError, toks) == DfsError && CommaRun(DfsError, toks) == DfsError
    decreases |toks|
  {
    if toks == [] {
    } else {
      ErrorAbsorbs(toks[..|toks| - 1]);
    }
  }

  // From the first token that is not of the prefix on, the automata run without restarts.
  lemma {:induction false} AfterPrefix(toks: seq<Token>)
    ensures
      var n := PrefixLength(toks);
      var start := Fold(toks[..n]);
      && Fold(toks).semi == SemiRun(start.semi, toks[n..])
      && Fold(toks).comma == CommaRun(start.comma, toks[n..])
    decreases |toks|
  {
    hide Update;
    var n, last := PrefixLength(toks), |toks| - 1;
    if n == |toks| {
      assert toks[..n] == toks;
    } else {
      hide InPrefix, SemiNext, CommaNext;
      AfterPrefix(toks[..last]);
      PrefixRun(toks);
      NoRestart(Fold(toks[..last]), toks[last]);
      assert PrefixLength(toks[..last]) == n;
      assert toks[..last][..n] == toks[..n] && toks[..last][n..] == toks[n..][..last - n];
      assert toks[n..][|toks| - n - 1] == toks[last];
    }
  }

  lemma NoRestart(st: FormatState, t: Token)
    ensures
      var st' := Update(st, t);
      st'.prefix == DfsError ==> st'.semi == SemiNext(st.semi, t) && st'.comma == CommaNext(st.comma, t)
  {
    hide SemiNext, CommaNext, PrefixNext;
  }

  // A list is refused by an automaton exactly when the automaton fails at some token at or behind the
  // first one that is not of the prefix, whatever comes later; failures within the prefix are forgiven.
  lemma Refused(toks: seq<Token>)
    ensures
      var n := PrefixLength(toks);
      var start := Fold(toks[..n]);
      && start.semi != DfsError && start.comma != DfsError
      && (Fold(toks).semi == DfsError <==>
            exists i | n < i <= |toks| :: SemiRun(start.semi, toks[n..i]) == DfsError)
      && (Fold(toks).comma == DfsError <==>
            exists i | n < i <= |toks| :: CommaRun(start.comma, toks[n..i]) == DfsError)
  {
    hide Fold, PrefixLength, SemiRun, CommaRun, SemiNext, CommaNext;
    var n := PrefixLength(toks);
    var start := Fold(toks[..n]);
    PrefixIsPrefix(toks);
    PrefixRun(toks[..n]);
    AfterPrefix(toks);
    RunOfNothing(start);
    var rest := toks[n..];
    forall i | n < i <= |toks|
      ensures SemiRun(start.semi, toks[n..i]) == DfsError ==> SemiRun(start.semi, rest) == DfsError
      ensures CommaRun(start.comma, toks[n..i]) == DfsError ==> CommaRun(start.comma, rest) == DfsError
    {
      assert rest[..i - n] == toks[n..i];
      RunExtends(start.semi, rest, i - n);
      RunExtends(start.comma, rest, i - n);
      ErrorAbsorbs(rest[i - n..]);
    }
    assert toks[n..|toks|] == rest;
    assert n == |toks| ==> rest == [];
  }

  lemma RunOfNothing(start: FormatState)
    ensures SemiRun(start.semi, []) == start.semi && CommaRun(start.comma, []) == start.comma
  {}

  lemma PrefixIsPrefix(toks: seq<Token>)
    ensures PrefixLength(toks[..PrefixLength(toks)]) == PrefixLength(toks)
  {
    hide InPrefix;
    var n := PrefixLength(toks);
    assert forall i | 0 <= i < n :: InPrefix(toks[..n][i]);
  }
}
