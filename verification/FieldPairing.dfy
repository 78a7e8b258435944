// Pairing up a list of fields finds exactly the pairs that are written in it, at every depth.
module FieldPairing {
  import opened Tokens
  import opened Elements
  import opened KeyScan
  import opened Pairing
  import opened Pairs
  import opened Discover
  import opened Boards
  import opened Fields
  import opened FieldFormats
  import opened FieldTrees

  // ---------- the loop over the list ----------

  // The list when its groups have been paired up.
  function Shown(fs: seq<Field>): seq<Element>
  {
    if fs == [] then []
    else
      var n := |fs| - 1;
      Shown(fs[..n]) + LeafList(Lead(fs) + Head(fs[n])) + ShownContent(fs[n].value)
  }

  function ShownContent(v: Content): seq<Element>
  {
    match v
    case Plain(toks) => LeafList(toks)
    case Measured(before, amount, unit, after) => LeafList(before) + [Amount(amount, unit)] + LeafList(after)
    case Nested(before, open, style, fields, close, after) => LeafList(before) + [GroupOf(v)] + LeafList(after)
  }

  function StepAll(st: State, list: seq<Element>): State
  {
    if list == [] then st else Step(StepAll(st, list[..|list| - 1]), list[|list| - 1])
  }

  // Elements that copying leaves as they are.
  predicate Settled(list: seq<Element>)
  {
    forall i | 0 <= i < |list| :: Copy(list[i]) == list[i]
  }

  lemma {:induction false} RunMore(fmt: Format, a: seq<Element>, b: seq<Element>)
    requires Settled(b)
    ensures Run(fmt, a + b) == StepAll(Run(fmt, a), b)
    decreases |b|
  {
    hide Step, Copy;
    if b == [] {
      assert a + b == a;
    } else {
      var n := |b| - 1;
      RunMore(fmt, a, b[..n]);
      assert (a + b)[..|a| + n] == a + b[..n];
    }
  }

  lemma {:induction false} StepParts(st: State, a: seq<Element>, b: seq<Element>)
    ensures StepAll(st, a + b) == StepAll(StepAll(st, a), b)
    decreases |b|
  {
    hide Step;
    if b == [] {
      assert a + b == a;
    } else {
      var n := |b| - 1;
      StepParts(st, a, b[..n]);
      assert (a + b)[..|a| + n] == a + b[..n];
    }
  }

  lemma StepOne(st: State, a: seq<Element>, x: Element)
    ensures StepAll(st, a + [x]) == Step(StepAll(st, a), x)
  {
    hide Step;
    assert (a + [x])[..|a|] == a;
  }

  // The format, as far as it matters to a list of fields; without keys there may be no separator.
  predicate ListFormat(fmt: Format, st: Style)
  {
    && StyleOk(st) && fmt.prefixTerminator.Invalid? && (fmt.separator == st.sep || fmt.separator.Invalid?)
    && fmt.qualifier == (if fmt.separator.Equals? then Colon else Invalid)
    && (if fmt.terminator.Invalid? then fmt.appender.Invalid? && st.end.Comma?
        else fmt.terminator == st.end && fmt.appender == if st.end.Semi? then Comma else Invalid)
  }

  // ---------- single elements ----------

  // What can be part of a value: a token, or an amount with its unit.
  predicate IsBit(t: Token, st: Style)
  {
    (IsPart(t, st) && !IsSkipped(t)) || t.Measurement?
  }

  lemma SpaceStep(s: State, e: Element, st: Style)
    requires ListFormat(s.fmt, st) && IsSkipped(e.token)
    ensures Step(s, e) == s
  {
    hide AtEnd, AtSeparator, QualifierValue;
  }

  // The key components are pushed as they come when nothing makes the loop act on them.
  lemma PlainStep(s: State, e: Element, st: Style)
    requires ListFormat(s.fmt, st) && IsBit(e.token, st)
    ensures Step(s, e) == State(s.fmt, s.stack, s.comps + [e])
  {
    hide AtEnd, AtSeparator, QualifierValue;
  }

  lemma EndStep(s: State, e: Element, st: Style)
    requires ListFormat(s.fmt, st) && s.fmt.terminator == st.end && e.token == st.end
    ensures Step(s, e) == State(s.fmt, AtEnd(s.fmt, s.stack, s.comps), [e])
  {
    hide AtEnd, AtSeparator, QualifierValue;
  }

  // A group behind a separator, or at the start of a field, is a value.
  lemma GroupStep(s: State, e: Element, st: Style)
    requires ListFormat(s.fmt, st) && e.token.Group? && OnlyEnd(s.comps, st)
    requires s.comps != [] ==> s.fmt.terminator == st.end
    ensures Step(s, e) == State(s.fmt, s.stack + [Make(Value, [e])], [])
  {
    hide *;
    GroupPushed(s.fmt, s.stack, s.comps, e, st);
    GroupKind(s.fmt, e, st);
    GroupMoves(s, e);
  }

  lemma GroupKind(fmt: Format, e: Element, st: Style)
    requires ListFormat(fmt, st) && e.token.Group?
    ensures fmt.prefixTerminator.Invalid? && e.token != fmt.terminator && e.token != fmt.qualifier
  {}

  lemma GroupMoves(s: State, e: Element)
    requires s.fmt.prefixTerminator.Invalid? && e.token.Group?
    requires e.token != s.fmt.terminator && e.token != s.fmt.qualifier
    ensures
      var (stack, comps) := AtSeparator(s.fmt, s.stack, s.comps, e);
      Step(s, e) == State(s.fmt, stack, comps)
  {
    hide AtEnd, QualifierValue, AtSeparator;
  }

  lemma GroupAlone(e: Element)
    requires e.token.Group?
    ensures GroupValue(e) == [Make(Value, [e])]
  {}

  lemma GroupPushed(fmt: Format, stack: seq<Element>, comps: seq<Element>, e: Element, st: Style)
    requires ListFormat(fmt, st) && e.token.Group? && OnlyEnd(comps, st) && (comps != [] ==> fmt.terminator == st.end)
    ensures AtSeparator(fmt, stack, comps, e) == (stack + [Make(Value, [e])], [])
  {
    hide *;
    EndScanned(fmt, stack, comps, st);
    NothingPushed();
    GroupAlone(e);
    var o := Scan(fmt, stack, comps);
    SeparatorOf(fmt, stack, comps, e);
    assert stack + [] + [] + GroupValue(e) == stack + GroupValue(e);
  }

  lemma SeparatorOf(fmt: Format, stack: seq<Element>, comps: seq<Element>, e: Element)
    ensures
      var o := Scan(fmt, stack, comps);
      o.comps == [] ==>
        AtSeparator(fmt, stack, comps, e) ==
          (o.stack + ValueOf(o.value) + KeyOf([], o.mixed, o.keyIsValues && !o.mixed) + GroupValue(e), [])
  {
    hide Scan, ValueOf, KeyOf, GroupValue;
  }

  // What the end of a field leaves, and nothing else.
  predicate OnlyEnd(comps: seq<Element>, st: Style)
  {
    |comps| <= 1 && forall i | 0 <= i < |comps| :: comps[i].token == st.end
  }

  // It is passed over.
  lemma EndScanned(fmt: Format, stack: seq<Element>, comps: seq<Element>, st: Style)
    requires ListFormat(fmt, st) && OnlyEnd(comps, st) && (comps != [] ==> fmt.terminator == st.end)
    ensures
      var o := Scan(fmt, stack, comps);
      o.stack == stack && o.comps == [] && o.value == [] && !o.mixed
  {
    if comps != [] {
      EndBreaks(fmt, comps[0], st);
      hide IsBreak, IsValue, TakesApart, NoKeys, ListFormat;
      assert LastValue(comps) == -1 && LastBreak(fmt, comps) == 0;
      assert comps[..0] == [] && comps[1..] == [] && Stripped([]) == [];
    }
  }

  lemma NothingPushed()
    ensures ValueOf([]) == [] && forall mixed, asValue :: KeyOf([], mixed, asValue) == []
  {}

  // ---------- white space and plain values ----------

  // The solid tokens join the key components.
  lemma {:induction false} StepPlain(s: State, toks: seq<Tok>, st: Style)
    requires ListFormat(s.fmt, st)
    requires forall i | 0 <= i < |toks| :: IsPart(toks[i].token, st) || IsSkipped(toks[i].token)
    ensures StepAll(s, LeafList(toks)) == State(s.fmt, s.stack, s.comps + LeafList(Solid(toks)))
    decreases |toks|
  {
    hide Step, ListFormat, IsSkipped, IsPart, IsBit, StepAll, Solid;
    var a := LeafList(toks);
    if toks == [] {
      NoSolid(toks);
      StepNone(s);
      assert s.comps + LeafList(Solid(toks)) == s.comps;
    } else {
      var n := |toks| - 1;
      var before := LeafList(Solid(toks[..n]));
      StepPlain(s, toks[..n], st);
      assert a == LeafList(toks[..n]) + [a[n]];
      StepLast(s, LeafList(toks[..n]), a[n]);
      SolidLast(toks[..n], toks[n]);
      assert toks[..n] + [toks[n]] == toks;
      if IsSkipped(toks[n].token) {
        SpaceStep(StepAll(s, LeafList(toks[..n])), a[n], st);
      } else {
        TokenIsBit(toks[n].token, st);
        PlainStep(StepAll(s, LeafList(toks[..n])), a[n], st);
        assert s.comps + before + [a[n]] == s.comps + (before + [a[n]]);
      }
    }
  }

  lemma StepNone(s: State)
    ensures StepAll(s, []) == s
  {}

  lemma StepLast(s: State, a: seq<Element>, e: Element)
    ensures StepAll(s, a + [e]) == Step(StepAll(s, a), e)
  {
    assert (a + [e])[..|a|] == a;
    hide Step;
  }

  lemma SolidLast(toks: seq<Tok>, t: Tok)
    ensures LeafList(Solid(toks + [t])) == LeafList(Solid(toks)) + if IsSkipped(t.token) then [] else [Leaf(t)]
  {
    assert (toks + [t])[..|toks|] == toks;
    hide IsSkipped, Leaf;
  }

  lemma TokenIsBit(t: Token, st: Style)
    requires IsPart(t, st) && !IsSkipped(t)
    ensures IsBit(t, st)
  {}

  lemma StepSpaces(s: State, space: seq<Tok>, st: Style)
    requires ListFormat(s.fmt, st) && AllSkipped(space)
    ensures StepAll(s, LeafList(space)) == s
  {
    StepPlain(s, space, st);
    NoSolid(space);
    assert s.comps + LeafList([]) == s.comps;
    hide StepAll;
  }

  lemma {:induction false} NoSolid(space: seq<Tok>)
    requires AllSkipped(space)
    ensures Solid(space) == []
    decreases |space|
  {
    if space == [] {
    } else {
      NoSolid(space[..|space| - 1]);
    }
  }

  // ---------- a key and its separator ----------

  // Where a key can be read: at the start of the list, behind a first key, or behind the end of another field.
  predicate Starts(s: State, st: Style)
  {
    && ListFormat(s.fmt, st) && s.fmt.separator == st.sep && OnlyEnd(s.comps, st)
    && (s.comps == [] ==> |s.stack| <= 1) && (s.comps != [] ==> s.stack != [] && s.fmt.terminator == st.end)
  }

  lemma KeyScanned(s: State, key: Element, st: Style)
    requires Starts(s, st) && IsKeyToken(key.token)
    ensures
      var o := Scan(s.fmt, s.stack, s.comps + [key]);
      && o.stack == s.stack && o.comps == [key] && o.value == [] && !o.mixed && !o.keyIsValues
      && (o.found || s.comps == [])
  {
    hide TakesApart, Absorb, Runs, LastValue, LastBreak, ListFormat, OnlyEnd, Stripped, NoKeys, IsKeyToken;
    var c := s.comps + [key];
    StartsAre(s, st);
    KeyPlaces(s.fmt, s.comps, key, st);
    NotApart(s, key, st);
    HasKey(key);
    assert s.comps == [] ==> c == [key];
    assert s.comps != [] ==> c[1..] == [key] && c[..0] == [] && c[0] == s.comps[0];
  }

  lemma StartsAre(s: State, st: Style)
    requires Starts(s, st)
    ensures |s.comps| <= 1
  {}

  // A lone identifier is left to be a key.
  lemma NotApart(s: State, key: Element, st: Style)
    requires Starts(s, st) && IsKeyToken(key.token)
    ensures key.token.Id? ==> !TakesApart(s.fmt, s.stack, s.comps + [key])
  {}

  lemma HasKey(key: Element)
    requires IsKeyToken(key.token)
    ensures !NoKeys([key])
  {
    assert [key][0] == key;
  }

  lemma KeyPlaces(fmt: Format, comps: seq<Element>, key: Element, st: Style)
    requires ListFormat(fmt, st) && OnlyEnd(comps, st) && (comps != [] ==> fmt.terminator == st.end)
    requires IsKeyToken(key.token)
    ensures (LastValue(comps + [key]) == -1 || key.token.Id?) && Stripped([key]) == [key]
    ensures LastBreak(fmt, comps + [key]) == |comps| - 1
    ensures comps != [] ==> comps[0].token != fmt.appender
  {
    hide LastValue, LastBreak, IsValue, IsBreak, ListFormat, Stripped;
    var c := comps + [key];
    KeyBreaks(fmt, key, st);
    StrippedAlone(key);
    assert c[|comps|] == key;
    if comps != [] {
      assert c[0] == comps[0];
      EndBreaks(fmt, c[0], st);
    }
    assert forall i | 0 <= i < |c| :: !IsValue(c[i].token) || (i == |comps| && key.token.Id?);
  }

  lemma StrippedAlone(e: Element)
    requires !IsSpace(e.token)
    ensures Stripped([e]) == [e] && Stripped([]) == []
  {
    hide IsSpace;
    assert StripFront([e]) == [e] && StripBack([e]) == [e];
  }

  lemma KeyBreaks(fmt: Format, e: Element, st: Style)
    requires ListFormat(fmt, st) && IsKeyToken(e.token)
    ensures !IsBreak(fmt, e) && (IsValue(e.token) ==> e.token.Id?) && !IsSpace(e.token)
  {}

  lemma EndBreaks(fmt: Format, e: Element, st: Style)
    requires ListFormat(fmt, st) && fmt.terminator == st.end && e.token == st.end
    ensures IsBreak(fmt, e) && !IsValue(e.token) && e.token != fmt.appender
  {}

  lemma KeyAlone(key: Element)
    requires IsKeyToken(key.token)
    ensures ValueOf([]) == [] && KeyOf([key], false, false) == [MakeBare(Key, [key])]
  {
    StrippedAlone(key);
    hide Stripped;
  }

  lemma KeySeparates(s: State, key: Element, sep: Element, st: Style)
    requires Starts(s, st) && IsKeyToken(key.token) && sep.token == st.sep
    ensures AtSeparator(s.fmt, s.stack, s.comps + [key], sep) == (s.stack + [MakeBare(Key, [key])], [])
  {
    hide Scan, ListFormat, OnlyEnd, ValueOf, KeyOf, IsKeyToken;
    KeyScanned(s, key, st);
    KeyAlone(key);
    assert [key][..0] == [] && [key][0..] == [key];
    assert s.stack + [] + [MakeBare(Key, [key])] + [] == s.stack + [MakeBare(Key, [key])];
    SepIsNoGroup(s, st);
  }

  lemma SepIsNoGroup(s: State, st: Style)
    requires Starts(s, st)
    ensures !st.sep.Group? && st.sep != st.end && st.sep != s.fmt.qualifier && st.sep != s.fmt.terminator
    ensures s.fmt.prefixTerminator.Invalid? && s.fmt.separator == st.sep && StyleOk(st)
  {}

  lemma KeyStep(s: State, key: Element, sep: Element, st: Style)
    requires Starts(s, st) && IsKeyToken(key.token) && sep.token == st.sep
    ensures Step(State(s.fmt, s.stack, s.comps + [key]), sep) ==
      State(s.fmt, s.stack + [MakeBare(Key, [key])], [])
  {
    hide AtSeparator, AtEnd, QualifierValue, Starts;
    KeySeparates(s, key, sep, st);
    SepIsNoGroup(s, st);
  }

  lemma KeyIsPlain(f: Field, st: Style)
    requires f.Field? && FieldOk(f, st) && StyleOk(st)
    ensures IsBit(f.key.token, st) && IsKeyToken(f.key.token)
    ensures AllSkipped(f.space) && AllSkipped(f.gap) && f.sep.token == st.sep && f.lead.token == st.end
  {
    hide ContentOk;
  }

  lemma HeadLeaves(f: Field)
    requires f.Field?
    ensures LeafList(Head(f)) == LeafList(f.space) + [Leaf(f.key)] + LeafList(f.gap) + [Leaf(f.sep)]
  {}

  lemma HeadStep(s: State, f: Field, st: Style)
    requires Starts(s, st) && f.Field? && FieldOk(f, st)
    ensures StepAll(s, LeafList(Head(f))) == State(s.fmt, s.stack + [KeyOfField(f)], [])
  {
    hide Step, StepAll, OnlyEnd, ListFormat, IsPart, IsBit, IsSkipped, FieldOk, IsKeyToken, AllSkipped, LeafList, Head;
    var x, y := Leaf(f.key), Leaf(f.sep);
    var a, b := LeafList(f.space) + [x], LeafList(f.space) + [x] + LeafList(f.gap);
    HeadLeaves(f);
    SepIsNoGroup(s, st);
    KeyIsPlain(f, st);
    StepSpaces(s, f.space, st);
    StepOne(s, LeafList(f.space), x);
    PlainStep(s, x, st);
    StepParts(s, a, LeafList(f.gap));
    StepSpaces(State(s.fmt, s.stack, s.comps + [x]), f.gap, st);
    StepOne(s, b, y);
    KeyStep(s, x, y, st);
  }

  // ---------- values ----------

  // The state behind a value.
  function After(s: State, v: Content): State
  {
    if v.Nested? then State(s.fmt, s.stack + [Make(Value, [GroupOf(v)])], [])
    else State(s.fmt, s.stack, s.comps + Components(v))
  }

  lemma ContentStep(s: State, v: Content, st: Style)
    requires ListFormat(s.fmt, st) && ContentOk(v, st)
    requires v.Nested? ==> OnlyEnd(s.comps, st) && (s.comps != [] ==> s.fmt.terminator == st.end)
    ensures StepAll(s, ShownContent(v)) == After(s, v)
  {
    hide Step, StepAll, ListFormat, IsPart, IsBit, IsSkipped, FieldsOk, Whole, GroupOf, LeafList, Solid, Parts, OnlyEnd,
      Amount;
    if v.Plain? {
      StepPlain(s, v.toks, st);
    } else {
      var a, e := LeafList(v.before), if v.Nested? then GroupOf(v) else Amount(v.amount, v.unit);
      StepSpaces(s, v.before, st);
      StepOne(s, a, e);
      StepParts(s, a + [e], LeafList(v.after));
      if v.Nested? {
        GroupToken(v);
        GroupStep(s, e, st);
        StepSpaces(State(s.fmt, s.stack + [Make(Value, [e])], []), v.after, st);
      } else {
        AmountToken(v);
        PlainStep(s, e, st);
        StepSpaces(State(s.fmt, s.stack, s.comps + [e]), v.after, st);
      }
    }
  }

  lemma GroupToken(v: Content)
    requires v.Nested?
    ensures GroupOf(v).token.Group? && Copy(GroupOf(v)) == GroupOf(v)
  {
    hide Found, Cut;
  }

  lemma AmountToken(v: Content)
    requires v.Measured?
    ensures Amount(v.amount, v.unit).token.Measurement? && Copy(Amount(v.amount, v.unit)) == Amount(v.amount, v.unit)
    ensures forall st :: IsBit(Amount(v.amount, v.unit).token, st)
  {}

  // Elements that do not separate, and are no white space.
  predicate AllParts(vs: seq<Element>, st: Style)
  {
    forall i | 0 <= i < |vs| :: IsBit(vs[i].token, st)
  }

  lemma {:induction false} SolidParts(toks: seq<Tok>, st: Style)
    requires forall i | 0 <= i < |toks| :: IsPart(toks[i].token, st)
    ensures AllParts(LeafList(Solid(toks)), st)
    decreases |toks|
  {
    hide IsPart, IsSkipped;
    if toks == [] {
    } else {
      SolidParts(toks[..|toks| - 1], st);
    }
  }

  lemma BitBreaks(fmt: Format, e: Element, st: Style)
    requires ListFormat(fmt, st) && IsBit(e.token, st)
    ensures IsBreak(fmt, e) <==> e.token.Comma?
    ensures e.token.Comma? ==> e.token == fmt.appender && st.end.Semi?
    ensures !IsSpace(e.token)
  {}

  // The scan finds the last comma, which only a list with semicolons has.
  lemma PartsBreak(fmt: Format, vs: seq<Element>, st: Style)
    requires ListFormat(fmt, st) && AllParts(vs, st)
    ensures LastBreak(fmt, vs) == LastComma(vs)
    ensures LastComma(vs) >= 0 ==> vs[LastComma(vs)].token == fmt.appender && st.end.Semi?
    ensures Stripped(vs) == vs && forall i | 0 <= i < |vs| :: !IsSpace(vs[i].token)
  {
    forall i | 0 <= i < |vs|
      ensures IsBreak(fmt, vs[i]) <==> vs[i].token.Comma?
      ensures vs[i].token.Comma? ==> vs[i].token == fmt.appender && st.end.Semi?
      ensures !IsSpace(vs[i].token)
    {
      BitBreaks(fmt, vs[i], st);
    }
    hide IsBreak, IsBit, ListFormat, LastBreak, LastComma, IsSpace, AllParts;
    NoSpaces(vs);
  }

  lemma NoSpaces(vs: seq<Element>)
    requires forall i | 0 <= i < |vs| :: !IsSpace(vs[i].token)
    ensures Stripped(vs) == vs
  {}

  // A key waits on the stack; only under a terminator may its value have several parts.
  predicate Waiting(fmt: Format, stack: seq<Element>, vs: seq<Element>)
  {
    && vs != [] && stack != [] && stack[|stack| - 1].token.Key?
    && (!fmt.terminator.Invalid? || |vs| == 1)
  }

  lemma ValueScanned(fmt: Format, stack: seq<Element>, vs: seq<Element>, st: Style)
    requires ListFormat(fmt, st) && AllParts(vs, st) && Waiting(fmt, stack, vs)
    ensures
      var o, r := Scan(fmt, stack, vs), LastComma(vs);
      && (o.mixed ==> o.stack == stack + [Make(Value, vs)] && o.value == [] && o.comps == [] && r == -1)
      && (!o.mixed ==>
            && o.stack == stack && o.value == vs[..r + 1]
            && o.comps == if r == -1 then vs else if r + 1 < |vs| then vs[r + 2..] else [])
  {
    hide *;
    PartsBreak(fmt, vs, st);
    ScanCases(fmt, stack, vs);
    assert vs[..0] == [];
    if LastValue(vs) > LastBreak(fmt, vs) && TakesApart(fmt, stack, vs) {
      OneTaken(fmt, stack, vs);
      OneRun(stack, vs[0]);
      NoKeyLeft(vs);
    }
  }

  lemma ScanCases(fmt: Format, stack: seq<Element>, vs: seq<Element>)
    ensures
      var o, r, v := Scan(fmt, stack, vs), LastBreak(fmt, vs), LastValue(vs);
      && (o.mixed <==> v > r && TakesApart(fmt, stack, vs))
      && (o.mixed ==> o.stack == Absorb(stack, Runs(vs[..v + 1])) && o.value == [] && o.comps == LastKeyWord(vs))
      && (!o.mixed ==> o.stack == stack)
      && (!o.mixed && r < 0 ==> o.value == [] && o.comps == vs)
      && (!o.mixed && r >= 0 && vs[r].token == fmt.appender ==>
            o.value == vs[..r + 1] && o.comps == if r + 1 < |vs| then vs[r + 2..] else [])
  {
    hide NoKeys, Stripped, LastBreak, LastValue, TakesApart, LastKeyWord, Runs, Absorb, IsBreak, IsValue;
    var r := LastBreak(fmt, vs);
    if r < 0 {
    } else if vs[r].token == fmt.appender {
    }
  }

  // Only a value that is a single element is taken apart.
  lemma OneTaken(fmt: Format, stack: seq<Element>, vs: seq<Element>)
    requires Waiting(fmt, stack, vs) && TakesApart(fmt, stack, vs) && LastValue(vs) > LastBreak(fmt, vs)
    ensures vs == [vs[0]] && LastValue(vs) == 0 && IsValue(vs[0].token) && LastBreak(fmt, vs) == -1 && vs[..1] == vs
  {
    hide IsValue, IsBreak;
  }

  lemma NoKeyLeft(vs: seq<Element>)
    requires vs != [] && !IsKeyWord(vs[|vs| - 1])
    ensures LastKeyWord(vs) == []
  {
    hide IsKeyWord;
  }

  lemma OneRun(stack: seq<Element>, e: Element)
    requires IsValue(e.token)
    ensures Absorb(stack, Runs([e])) == stack + [Make(Value, [e])] && !e.token.Comma? && !IsKeyWord(e)
  {
    assert [e][..0] == [] && Runs([e]) == Runs([e][..0]) + RunAt([e], 0);
    assert Runs([e]) == [Make(Value, [e])];
  }

  lemma ValueEnds(fmt: Format, stack: seq<Element>, vs: seq<Element>, st: Style)
    requires ListFormat(fmt, st) && AllParts(vs, st) && Waiting(fmt, stack, vs) && Parts(vs) != []
    ensures AtEnd(fmt, stack, vs) == stack + [Make(Value, Parts(vs))]
  {
    hide Scan, ValueOf, KeyOf, ListFormat, AllParts, LastComma, Parts;
    ValueScanned(fmt, stack, vs, st);
    PartsBreak(fmt, vs, st);
    NothingPushed();
    PartsOf(vs);
  }

  // What is left of the value, in the two ways in which the end of a value puts it together.
  lemma PartsOf(vs: seq<Element>)
    requires vs != [] && Parts(vs) != [] && forall i | 0 <= i < |vs| :: !IsSpace(vs[i].token)
    ensures
      var r := LastComma(vs);
      var comps := if r == -1 then vs else if r + 1 < |vs| then vs[r + 2..] else [];
      && ValueOf(vs[..r + 1] + comps) == [Make(Value, Parts(vs))]
      && (comps == [] ==> ValueOf(vs[..r + 1]) == [Make(Value, Parts(vs))])
      && (r == -1 ==> Parts(vs) == vs)
  {
    hide IsSpace, WithoutCommas, LastComma, ValueOf, Shortened;
    PutTogether(vs);
    ValueMade(Shortened(vs));
    if LastComma(vs) == -1 {
      NoCommas(vs);
    }
  }

  lemma PutTogether(vs: seq<Element>)
    requires forall i | 0 <= i < |vs| :: !IsSpace(vs[i].token)
    ensures
      var r := LastComma(vs);
      var comps := if r == -1 then vs else if r + 1 < |vs| then vs[r + 2..] else [];
      vs[..r + 1] + comps == Shortened(vs) && (r == -1 ==> Shortened(vs) == vs) && vs[..r + 1] + [] == vs[..r + 1]
    ensures forall i | 0 <= i < |Shortened(vs)| :: !IsSpace(Shortened(vs)[i].token)
  {
    hide IsSpace, LastComma;
  }

  lemma ValueMade(value: seq<Element>)
    requires WithoutCommas(value) != [] && forall i | 0 <= i < |value| :: !IsSpace(value[i].token)
    ensures ValueOf(value) == [Make(Value, WithoutCommas(value))]
  {
    hide IsSpace, WithoutCommas, Stripped;
    NoSpaces(value);
  }

  // ---------- values with a key ----------

  lemma {:induction false} ComponentParts(v: Content, st: Style)
    requires ContentOk(v, st) && !v.Nested?
    ensures AllParts(Components(v), st) && Components(v) != [] && Parts(Components(v)) != []
  {
    if v.Plain? {
      hide IsPart, IsBit, Parts, LeafList, Solid;
      SolidParts(v.toks, st);
      NoParts();
    } else {
      hide IsValueToken, IsSkipped, IsBit, IsPart, Parts;
      AmountToken(v);
      AmountParts(v);
    }
  }

  lemma AmountParts(v: Content)
    requires v.Measured?
    ensures Components(v) == [Amount(v.amount, v.unit)] && Parts([Amount(v.amount, v.unit)]) == [Amount(v.amount, v.unit)]
  {
    AmountToken(v);
    NoComma(Amount(v.amount, v.unit));
    hide Amount, Parts;
  }

  lemma NoComma(e: Element)
    requires !e.token.Comma?
    ensures Parts([e]) == [e]
  {
    hide LastComma, Parts;
    PartsLose([e]);
  }

  lemma NoParts()
    ensures Parts([]) == []
  {}

  // The end of a field puts its value behind its key.
  lemma KeyedEnds(fmt: Format, stack: seq<Element>, f: Field, st: Style)
    requires ListFormat(fmt, st) && ContentOk(f.value, st)
    requires stack != [] && stack[|stack| - 1].token.Key?
    requires fmt.terminator.Invalid? ==> IsSingle(f.value)
    ensures
      var s := After(State(fmt, stack, []), f.value);
      AtEnd(fmt, s.stack, s.comps) == stack + [ValueOfField(f)]
  {
    hide AtEnd, ListFormat, GroupOf, Parts, Solid, ContentOk, Amount;
    if f.value.Nested? {
      NothingEnds(fmt, stack + [Make(Value, [GroupOf(f.value)])]);
    } else {
      var vs := Components(f.value);
      assert [] + vs == vs;
      ComponentParts(f.value, st);
      ValueEnds(fmt, stack, vs, st);
      if f.value.Measured? {
        AmountParts(f.value);
      }
    }
  }

  lemma NothingScanned(fmt: Format, stack: seq<Element>)
    ensures
      var o := Scan(fmt, stack, []);
      o.stack == stack && o.comps == [] && o.value == [] && !o.found && !o.mixed
  {}

  lemma NothingEnds(fmt: Format, stack: seq<Element>)
    ensures AtEnd(fmt, stack, []) == stack
  {
    NothingScanned(fmt, stack);
    NothingPushed();
    hide Scan, ValueOf, KeyOf;
  }

  // ---------- values without a key ----------

  // Where such a value stands: at the start of the list, behind something that is neither key nor value, or behind the
  // end of another field.
  predicate Bare(s: State, vs: seq<Element>, st: Style)
  {
    && ListFormat(s.fmt, st) && !st.end.Semi? && OnlyEnd(s.comps, st)
    && (s.stack != [] ==> !s.stack[|s.stack| - 1].token.Key? && !s.fmt.terminator.Invalid?)
    && (s.stack == [] ==> s.comps == [] && |vs| == 1)
    && (s.comps != [] ==> s.fmt.terminator == st.end)
  }

  lemma BareScanned(s: State, vs: seq<Element>, st: Style)
    requires Bare(s, vs, st) && AllParts(vs, st) && vs != []
    ensures
      var o := Scan(s.fmt, s.stack, s.comps + vs);
      && (o.mixed ==> s.stack == [] && o.stack == [Make(Value, vs)] && o.value == [] && o.comps == [])
      && (!o.mixed ==> o.stack == s.stack && o.value == [] && o.comps == vs)
  {
    hide NoKeys, LastBreak, LastValue, LastComma, ListFormat, AllParts, IsBreak, IsValue, Runs, Absorb, OnlyEnd;
    PartsBreak(s.fmt, vs, st);
    if s.comps == [] {
      assert s.comps + vs == vs;
      if s.stack == [] && TakesApart(s.fmt, s.stack, vs) && LastValue(vs) > LastBreak(s.fmt, vs) {
        assert vs == [vs[0]] && LastValue(vs) == 0 && vs[..1] == vs;
        OneRun(s.stack, vs[0]);
        assert [] + [Make(Value, vs)] == [Make(Value, vs)];
      }
    } else {
      EndThenParts(s.fmt, s.comps, vs, st);
      var c := s.comps + vs;
      assert c[..0] == [] && c[1..] == vs;
    }
  }

  // Behind the end of a field that end is what the scan finds.
  lemma EndThenParts(fmt: Format, comps: seq<Element>, vs: seq<Element>, st: Style)
    requires ListFormat(fmt, st) && !st.end.Semi? && OnlyEnd(comps, st) && comps != [] && fmt.terminator == st.end
    requires AllParts(vs, st)
    ensures LastBreak(fmt, comps + vs) == 0 && (comps + vs)[0].token != fmt.appender && |comps| == 1
    ensures !IsValue((comps + vs)[0].token)
  {
    var c := comps + vs;
    assert c[0] == comps[0];
    EndBreaks(fmt, c[0], st);
    forall i | 0 < i < |c|
      ensures !IsBreak(fmt, c[i])
    {
      assert c[i] == vs[i - 1];
      BitBreaks(fmt, vs[i - 1], st);
    }
    hide IsBreak, ListFormat, LastBreak, IsBit, AllParts, IsValue;
  }

  lemma KeyWords(e: Element)
    ensures IsKeyToken(e.token) <==> IsKeyWord(e) || e.token.Id?
  {}

  // Two tokens become a key and its value, anything else a value on its own.
  function BareSaid(vs: seq<Element>): Said
    requires vs != []
  {
    if |vs| == 2 && IsKeyToken(vs[0].token) then Answered(MakeBare(Key, vs[..1]), Make(Value, vs[1..]))
    else Alone(Make(Value, vs))
  }

  lemma BareEnds(s: State, vs: seq<Element>, st: Style)
    requires Bare(s, vs, st) && AllParts(vs, st) && vs != []
    ensures AtEnd(s.fmt, s.stack, s.comps + vs) == s.stack + SpreadOne(BareSaid(vs))
  {
    hide *;
    BareStands(s, vs, st);
    BarePushed(vs, st, s.fmt);
    BareScanned(s, vs, st);
    BareCases(vs);
    BareEnd(s.fmt, s.stack, s.comps + vs, vs);
  }

  lemma BareStands(s: State, vs: seq<Element>, st: Style)
    requires Bare(s, vs, st)
    ensures ListFormat(s.fmt, st) && !st.end.Semi?
    ensures (s.stack == [] ==> |vs| == 1) && (s.stack != [] ==> !s.stack[|s.stack| - 1].token.Key?)
  {
    hide ListFormat, OnlyEnd;
  }

  lemma BareEnd(fmt: Format, stack: seq<Element>, comps: seq<Element>, vs: seq<Element>)
    requires vs != []
    requires
      var o := Scan(fmt, stack, comps);
      && (o.mixed ==> stack == [] && o.stack == [Make(Value, vs)] && o.value == [] && o.comps == [])
      && (!o.mixed ==> o.stack == stack && o.value == [] && o.comps == vs)
    requires (stack == [] ==> |vs| == 1) && (stack != [] ==> !stack[|stack| - 1].token.Key?)
    requires ValueOf(vs) == [Make(Value, vs)] && KeyOf(vs, false, true) == [Make(Value, vs)]
    requires |vs| > 1 ==> ValueOf(vs[1..]) == [Make(Value, vs[1..])]
    ensures AtEnd(fmt, stack, comps) == stack +
      if |vs| == 2 && (IsKeyWord(vs[0]) || vs[0].token.Id?) then [MakeBare(Key, vs[..1]), Make(Value, vs[1..])]
      else [Make(Value, vs)]
  {
    NothingPushed();
    hide Scan, ValueOf, KeyOf, IsKeyWord, MakeBare, Make;
    var o, all := Scan(fmt, stack, comps), [Make(Value, vs)];
    if o.mixed {
      assert all + [] + [] == all && [] + all == all;
    } else if stack == [] {
      assert [] + [] + all == all && [] + all == all;
    } else {
      assert [] + vs == vs;
      if |vs| == 2 {
        assert stack + [MakeBare(Key, vs[..1])] + [Make(Value, vs[1..])]
          == stack + [MakeBare(Key, vs[..1]), Make(Value, vs[1..])];
      }
    }
  }

  lemma BareCases(vs: seq<Element>)
    requires vs != []
    ensures SpreadOne(BareSaid(vs)) ==
      if |vs| == 2 && (IsKeyWord(vs[0]) || vs[0].token.Id?) then [MakeBare(Key, vs[..1]), Make(Value, vs[1..])]
      else [Make(Value, vs)]
  {
    KeyWords(vs[0]);
    hide IsKeyToken, IsKeyWord, Make, MakeBare;
  }

  lemma BarePushed(vs: seq<Element>, st: Style, fmt: Format)
    requires AllParts(vs, st) && ListFormat(fmt, st) && !st.end.Semi? && vs != []
    ensures ValueOf(vs) == [Make(Value, vs)] && KeyOf(vs, false, true) == [Make(Value, vs)]
    ensures |vs| > 1 ==> ValueOf(vs[1..]) == [Make(Value, vs[1..])]
  {
    PartsBreak(fmt, vs, st);
    hide AllParts, ListFormat, LastBreak, LastComma, WithoutCommas, Stripped, IsSpace;
    assert forall i | 0 <= i < |vs| :: !vs[i].token.Comma?;
    NoCommas(vs);
    ValueMade(vs);
    if |vs| > 1 {
      NoCommas(vs[1..]);
      ValueMade(vs[1..]);
    }
  }

  lemma BareIsSaid(f: Field, st: Style)
    requires f.Item? && ContentOk(f.value, st) && !f.value.Nested? && !st.end.Semi?
    ensures Components(f.value) != [] && BareSaid(Components(f.value)) == SaidOf(f)
  {
    ComponentParts(f.value, st);
    var vs := Components(f.value);
    if f.value.Measured? {
      AmountParts(f.value);
    } else {
      hide AllParts, Solid, LeafList, Parts, LastComma;
      PlainComplete(f.value.toks, st);
      var s := Solid(f.value.toks);
      assert vs == LeafList(s);
      assert |s| == 2 ==> vs[..1] == [Leaf(s[0])] && vs[1..] == [Leaf(s[1])];
    }
  }

  lemma {:induction false} PlainComplete(toks: seq<Tok>, st: Style)
    requires (forall i | 0 <= i < |toks| :: IsPart(toks[i].token, st)) && !st.end.Semi?
    ensures Parts(LeafList(Solid(toks))) == LeafList(Solid(toks))
  {
    var vs := LeafList(Solid(toks));
    SolidParts(toks, st);
    forall i | 0 <= i < |vs|
      ensures !vs[i].token.Comma?
    {
      assert IsBit(vs[i].token, st);
    }
    hide Solid, LeafList, Parts, LastComma, IsPart, AllParts;
    assert LastComma(vs) == -1;
    PartsLose(vs);
  }

  // ---------- the whole list ----------

  // What stands on the stack before the last field, and what is left of the end of the field before it.
  function Behind(fmt: Format, base: seq<Element>, fs: seq<Field>): State
    requires fs != []
  {
    var n := |fs| - 1;
    var stack := base + Spread(Board(fs[..n]));
    if fs[n].Field? then State(fmt, stack + [KeyOfField(fs[n])], [])
    else State(fmt, stack, if n == 0 then [] else [Leaf(fs[n].lead)])
  }

  // The list has a terminator where there is a next field or something before the first one, which then has no key.
  predicate Separable(fmt: Format, base: seq<Element>, fs: seq<Field>, st: Style)
  {
    && ListFormat(fmt, st) && IsBase(base)
    && (|fs| > 1 || base != [] ==> !fmt.terminator.Invalid?)
    && (KeyedCount(fs) > 0 ==> fmt.separator == st.sep)
    && (st.end.Semi? ==> KeyedCount(fs) == |fs|)
    && (fs != [] && fmt.terminator.Invalid? ==> IsSingle(fs[0].value))
    && (fs != [] && base == [] && fs[0].Item? ==> IsSingle(fs[0].value))
    && (fs != [] && base != [] ==> fs[0].Item?)
  }

  lemma SeparableLess(fmt: Format, base: seq<Element>, fs: seq<Field>, st: Style)
    requires |fs| > 1 && Separable(fmt, base, fs, st)
    ensures Separable(fmt, base, fs[..|fs| - 1], st)
  {
    hide ListFormat, IsSingle, IsBase, KeyedCount;
    CountLess(fs);
    assert fs[..|fs| - 1][0] == fs[0];
    assert KeyedCount(fs) == |fs| ==> KeyedCount(fs[..|fs| - 1]) == |fs| - 1;
  }

  lemma SeparableNow(fmt: Format, base: seq<Element>, fs: seq<Field>, st: Style)
    requires fs != [] && Separable(fmt, base, fs, st)
    ensures ListFormat(fmt, st) && IsBase(base)
    ensures
      var n := |fs| - 1;
      && (n > 0 || base != [] ==> fmt.terminator == st.end && !fmt.terminator.Invalid?)
      && (fs[n].Field? ==> fmt.separator == st.sep && (n == 0 ==> base == []))
      && (fs[n].Item? ==> !st.end.Semi? && (n == 0 && base == [] ==> IsSingle(fs[n].value)))
      && (fmt.terminator.Invalid? ==> IsSingle(fs[n].value))
  {
    hide IsSingle, IsBase;
  }

  // How the boards of a list grow.
  lemma BoardStep(fs: seq<Field>)
    requires fs != []
    ensures
      var n := |fs| - 1;
      && Board(fs) == Board(fs[..n]) + [SaidOf(fs[n])]
      && Spread(Board(fs)) == Spread(Board(fs[..n])) + SpreadOne(SaidOf(fs[n]))
  {
    hide SaidOf, Spread, SpreadOne;
    SpreadMore(Board(fs[..|fs| - 1]), SaidOf(fs[|fs| - 1]));
  }

  lemma {:induction false} BoardIsOk(text: string, fs: seq<Field>)
    ensures BoardOk(text, Board(fs)) && !Awaits(Board(fs))
    ensures forall i | 0 <= i < |Board(fs)| :: !Board(fs)[i].Asked?
    decreases |fs|
  {
    hide SaidOf, SaidOk;
    if fs == [] {
    } else {
      BoardIsOk(text, fs[..|fs| - 1]);
      SaidIsOk(text, fs[|fs| - 1]);
    }
  }

  lemma SaidIsOk(text: string, f: Field)
    ensures SaidOk(text, SaidOf(f)) && !SaidOf(f).Asked?
    ensures f.Field? ==> SaidOf(f) == Answered(KeyOfField(f), ValueOfField(f))
  {
    hide Solid, Parts, GroupOf, Amount;
  }

  // No key waits on the stack between two fields.
  lemma BaseTop(base: seq<Element>, fs: seq<Field>)
    requires IsBase(base)
    ensures
      var s := base + Spread(Board(fs));
      && (s != [] ==> !s[|s| - 1].token.Key?)
      && (s == [] <==> base == [] && fs == [])
  {
    hide Spread, Board;
    BoardIsOk("", fs);
    SpreadTop("", Board(fs));
    var s := base + Spread(Board(fs));
    if fs != [] {
      assert s[|s| - 1] == Spread(Board(fs))[|Spread(Board(fs))| - 1];
    }
  }

  // At the end of the list a plain last value is still among the key components.
  lemma {:induction false} FieldsRun(fmt: Format, base: seq<Element>, fs: seq<Field>, st: Style)
    requires fs != [] && FieldsOk(fs, st) && Separable(fmt, base, fs, st)
    ensures
      StepAll(State(fmt, base, []), Shown(fs)) == After(Behind(fmt, base, fs), fs[|fs| - 1].value)
    decreases |fs|
  {
    hide *;
    var n := |fs| - 1;
    var s0, before, lead := State(fmt, base, []), Shown(fs[..n]), LeafList(Lead(fs));
    FieldStepOk(fs, st);
    ShownStep(fs);
    SeparableNow(fmt, base, fs, st);
    BaseTop(base, fs[..n]);
    var s := StepAll(s0, before + lead);
    if n == 0 {
      NothingYet(s0, fs);
    } else {
      SeparableLess(fmt, base, fs, st);
      FieldsRun(fmt, base, fs[..n], st);
      FieldsEnd(fmt, base, fs[..n], st);
      LeadLeaf(fs, st);
      StepOne(s0, before, Leaf(fs[n].lead));
      EndStep(StepAll(s0, before), Leaf(fs[n].lead), st);
    }
    StepParts(s0, before + lead, LeafList(Head(fs[n])));
    StepParts(s0, before + lead + LeafList(Head(fs[n])), ShownContent(fs[n].value));
    HeadBehind(s, base, fs, st);
    ContentStep(Behind(fmt, base, fs), fs[n].value, st);
  }

  lemma NothingYet(s0: State, fs: seq<Field>)
    requires |fs| == 1
    ensures Spread(Board(fs[..0])) == []
    ensures StepAll(s0, Shown(fs[..0]) + LeafList(Lead(fs))) == s0 && Shown(fs[..0]) + LeafList(Lead(fs)) == []
  {
    assert Shown(fs[..0]) + LeafList(Lead(fs)) == [];
    hide Step;
  }

  // Before its value, a field is where its kind wants it.
  lemma HeadBehind(s: State, base: seq<Element>, fs: seq<Field>, st: Style)
    requires fs != [] && FieldOk(fs[|fs| - 1], st) && ListFormat(s.fmt, st)
    requires
      var n := |fs| - 1;
      && s.stack == base + Spread(Board(fs[..n])) && s.comps == (if n == 0 then [] else [Leaf(fs[n].lead)])
      && (n > 0 ==> s.stack != [] && s.fmt.terminator == st.end)
      && (fs[n].Field? ==> s.fmt.separator == st.sep && (n == 0 ==> s.stack == []))
    ensures
      var n := |fs| - 1;
      && StepAll(s, LeafList(Head(fs[n]))) == Behind(s.fmt, base, fs) && Behind(s.fmt, base, fs).fmt == s.fmt
      && OnlyEnd(Behind(s.fmt, base, fs).comps, st)
      && (Behind(s.fmt, base, fs).comps != [] ==> s.fmt.terminator == st.end)
  {
    hide Step, Spread, Board, ContentOk, ListFormat, AllSkipped, IsKeyToken;
    var f := fs[|fs| - 1];
    if f.Field? {
      hide Head, FieldOk, KeyOfField;
      LeadToken(f, st);
      HeadStep(s, f, st);
    } else {
      assert LeafList(Head(f)) == [];
    }
  }

  lemma LeadToken(f: Field, st: Style)
    requires FieldOk(f, st)
    ensures Leaf(f.lead).token == st.end
  {
    hide ContentOk;
  }

  lemma ShownStep(fs: seq<Field>)
    requires fs != []
    ensures
      var n := |fs| - 1;
      Shown(fs) == Shown(fs[..n]) + LeafList(Lead(fs)) + LeafList(Head(fs[n])) + ShownContent(fs[n].value)
  {
    hide Lead, Head, ShownContent, LeafList;
    var n := |fs| - 1;
    LeafParts(Lead(fs), Head(fs[n]));
    Regrouped(Shown(fs[..n]), LeafList(Lead(fs)), LeafList(Head(fs[n])), ShownContent(fs[n].value));
  }

  lemma LeafParts(a: seq<Tok>, b: seq<Tok>)
    ensures LeafList(a + b) == LeafList(a) + LeafList(b)
  {}

  lemma LeadLeaf(fs: seq<Field>, st: Style)
    requires |fs| > 1 && FieldsOk(fs, st)
    ensures LeafList(Lead(fs)) == [Leaf(fs[|fs| - 1].lead)] && Leaf(fs[|fs| - 1].lead).token == st.end
  {
    FieldStepOk(fs, st);
    hide ContentOk, FieldsOk, AllSkipped;
  }

  // The end of a field puts what it says on the stack.
  lemma FieldsEnd(fmt: Format, base: seq<Element>, fs: seq<Field>, st: Style)
    requires fs != [] && FieldsOk(fs, st) && Separable(fmt, base, fs, st)
    ensures
      var s := After(Behind(fmt, base, fs), fs[|fs| - 1].value);
      s.fmt == fmt && AtEnd(fmt, s.stack, s.comps) == base + Spread(Board(fs))
  {
    hide *;
    var n := |fs| - 1;
    var f, stack := fs[n], base + Spread(Board(fs[..n]));
    FieldStepOk(fs, st);
    SeparableNow(fmt, base, fs, st);
    BoardStep(fs);
    BaseTop(base, fs[..n]);
    BehindCases(fmt, base, fs, st);
    AfterFormat(Behind(fmt, base, fs), f.value);
    if f.Field? {
      SaidIsOk("", f);
      KeyIsKey(f);
      KeyedEnds(fmt, stack + [KeyOfField(f)], f, st);
      AnsweredSpread(KeyOfField(f), ValueOfField(f));
      assert stack + [KeyOfField(f)] + [ValueOfField(f)]
        == base + (Spread(Board(fs[..n])) + [KeyOfField(f), ValueOfField(f)]);
    } else {
      ItemEnds(fmt, base, fs, st);
      assert stack + SpreadOne(SaidOf(f)) == base + (Spread(Board(fs[..n])) + SpreadOne(SaidOf(f)));
    }
  }

  lemma AnsweredSpread(key: Element, value: Element)
    ensures SpreadOne(Answered(key, value)) == [key, value] && SpreadOne(Alone(value)) == [value]
  {}

  lemma AfterFormat(s: State, v: Content)
    ensures After(s, v).fmt == s.fmt
  {
    hide GroupOf, Components;
  }

  lemma BehindCases(fmt: Format, base: seq<Element>, fs: seq<Field>, st: Style)
    requires fs != [] && FieldOk(fs[|fs| - 1], st)
    ensures
      var n := |fs| - 1;
      var stack := base + Spread(Board(fs[..n]));
      && Behind(fmt, base, fs).fmt == fmt
      && (fs[n].Field? ==> Behind(fmt, base, fs) == State(fmt, stack + [KeyOfField(fs[n])], []))
      && (fs[n].Item? ==>
            Behind(fmt, base, fs).stack == stack && OnlyEnd(Behind(fmt, base, fs).comps, st)
            && (Behind(fmt, base, fs).comps == [] <==> n == 0))
  {
    hide Spread, Board, KeyOfField, ContentOk;
  }

  lemma ItemEnds(fmt: Format, base: seq<Element>, fs: seq<Field>, st: Style)
    requires fs != [] && fs[|fs| - 1].Item? && ContentOk(fs[|fs| - 1].value, st) && ListFormat(fmt, st)
    requires
      var s, n := Behind(fmt, base, fs), |fs| - 1;
      && s.fmt == fmt && s.stack == base + Spread(Board(fs[..n])) && OnlyEnd(s.comps, st) && (s.comps == [] <==> n == 0)
      && (s.stack != [] ==> !s.stack[|s.stack| - 1].token.Key?) && (s.stack == [] <==> base == [] && n == 0)
      && (n > 0 || base != [] ==> fmt.terminator == st.end && !fmt.terminator.Invalid?)
      && !st.end.Semi? && (n == 0 && base == [] ==> IsSingle(fs[n].value))
    ensures
      var s := After(Behind(fmt, base, fs), fs[|fs| - 1].value);
      AtEnd(fmt, s.stack, s.comps) == base + Spread(Board(fs[..|fs| - 1])) + SpreadOne(SaidOf(fs[|fs| - 1]))
  {
    var s, f := Behind(fmt, base, fs), fs[|fs| - 1];
    hide Behind, Spread, Board, AtEnd, SaidOf, SpreadOne, GroupOf, ContentOk, Components, ListFormat, OnlyEnd, Make;
    if f.value.Nested? {
      BareGroup(f);
      AnsweredSpread(ValueOfField(f), ValueOfField(f));
      NothingEnds(fmt, s.stack + [Make(Value, [GroupOf(f.value)])]);
    } else {
      SingleComponent(f.value);
      ComponentParts(f.value, st);
      BareIsSaid(f, st);
      BareEnds(s, Components(f.value), st);
    }
  }

  lemma SingleComponent(v: Content)
    requires !v.Nested?
    ensures IsSingle(v) ==> |Components(v)| == 1
  {
    hide Solid;
  }

  lemma BareGroup(f: Field)
    requires f.Item? && f.value.Nested?
    ensures SaidOf(f) == Alone(ValueOfField(f)) && ValueOfField(f) == Make(Value, [GroupOf(f.value)])
  {
    hide GroupOf;
  }

  lemma KeyIsKey(f: Field)
    requires f.Field?
    ensures KeyOfField(f).token.Key?
    ensures forall s: seq<Element> :: (s + [KeyOfField(f)])[|s + [KeyOfField(f)]| - 1].token.Key?
  {}

  // ---------- the pairs ----------

  lemma OnePart(vs: seq<Element>)
    requires |vs| == 1 && Parts(vs) != []
    ensures Parts(vs) == vs
  {
    CommaAlone(vs);
    PartsLose(vs);
    hide Parts;
  }

  lemma CommaAlone(vs: seq<Element>)
    requires |vs| == 1
    ensures vs[0].token.Comma? ==> Parts(vs) == []
  {
    assert vs[..0] == [] && WithoutCommas(vs[..0]) == [];
    assert WithoutCommas(vs) == WithoutCommas(vs[..0]) + if vs[0].token.Comma? then [] else [vs[0]];
  }

  // A single element is not taken for a list behind a heading.
  lemma NoHeading(fs: seq<Field>, st: Style)
    requires fs != [] && FieldsOk(fs, st) && Whole(fs, st)
    ensures !IsHeading(Board(fs))
  {
    FieldStepOk(fs, st);
    hide FieldOk, FieldsOk, GroupOf, Solid, Amount, Board;
    if |fs| == 1 {
      BoardAt(fs, 0);
      if fs[0].value.Plain? {
        OnePart(LeafList(Solid(fs[0].value.toks)));
      }
      hide Parts;
      assert fs[0].Field? ==> |ValueOfField(fs[0]).subs.elems| == 1;
      assert !IsKeyedItem(fs[0]);
    }
  }

  lemma FoundTold(depth: nat, fs: seq<Field>, st: Style)
    requires fs != [] && FieldsOk(fs, st) && Whole(fs, st)
    requires !(depth == 0 && |fs| == 1 && fs[0].Item? && !fs[0].value.Nested?)
    ensures Told(depth, Board(fs)) == Found(depth, fs)
  {
    hide PairsOn, AloneValues, Board, FieldsOk, Whole, IsHeading;
    BoardIsOk("", fs);
    NoHeading(fs, st);
  }

  lemma RowTold(text: string, comps: seq<Element>)
    ensures Gather(text, 0, [], comps) == Columns(comps)
  {
    hide RowPairs, Columns, IsPrefixed;
    NotPrefixed();
    assert PairsOf(text, []) == [] && FreeOf([]) == [];
    assert comps + [] == comps;
    RowIsColumns(comps);
  }

  lemma {:induction false} ShownSettled(fs: seq<Field>)
    ensures Settled(Shown(fs))
    decreases |fs|
  {
    hide Lead, Head, GroupOf, Amount, Copy;
    if fs == [] {
    } else {
      var n := |fs| - 1;
      var v := fs[n].value;
      ShownSettled(fs[..n]);
      if v.Nested? {
        GroupToken(v);
      } else if v.Measured? {
        AmountToken(v);
      }
      forall t: Tok
        ensures Copy(Leaf(t)) == Leaf(t)
      {
        LeafCopies(t);
      }
      hide Leaf;
      assert forall i | 0 <= i < |ShownContent(v)| :: Copy(ShownContent(v)[i]) == ShownContent(v)[i];
    }
  }

  lemma LeafCopies(t: Tok)
    ensures Copy(Leaf(t)) == Leaf(t)
  {}

  lemma LeavesSettled(toks: seq<Tok>)
    ensures Settled(LeafList(toks))
  {
    forall i | 0 <= i < |toks|
      ensures Copy(LeafList(toks)[i]) == LeafList(toks)[i]
    {
      LeafCopies(toks[i]);
    }
    hide Copy;
  }

  lemma ContentSettled(v: Content)
    ensures Settled(ShownContent(v))
  {
    if v.Nested? {
      GroupToken(v);
    } else if v.Measured? {
      AmountToken(v);
    }
    forall t: Tok
      ensures Copy(Leaf(t)) == Leaf(t)
    {
      LeafCopies(t);
    }
    hide GroupOf, Amount, Copy, Leaf;
  }

  lemma BothSettled(a: seq<Element>, b: seq<Element>)
    requires Settled(a) && Settled(b)
    ensures Settled(a + b)
  {
    hide Copy;
  }

  lemma RunIsSteps(fmt: Format, list: seq<Element>)
    requires Settled(list)
    ensures Run(fmt, list) == StepAll(State(fmt, [], []), list)
  {
    RunMore(fmt, [], list);
    hide Step, StepAll, Copy;
    assert [] + list == list;
  }

  lemma CollectShown(text: string, depth: nat, fmt: Format, fs: seq<Field>, st: Style)
    requires fs != [] && FieldsOk(fs, st) && Whole(fs, st) && Separable(fmt, [], fs, st)
    ensures Collect(text, depth, fmt, Shown(fs)) == Found(depth, fs) && Run(fmt, Shown(fs)).fmt == fmt
  {
    hide *;
    var s := After(Behind(fmt, [], fs), fs[|fs| - 1].value);
    ShownSettled(fs);
    RunIsSteps(fmt, Shown(fs));
    FieldsRun(fmt, [], fs, st);
    FieldsEnd(fmt, [], fs, st);
    BoardIsOk(text, fs);
    assert [] + Spread(Board(fs)) == Spread(Board(fs));
    EmptyBase();
    GatherTold(text, depth, [], Board(fs));
    AfterStack(fmt, fs, st);
    CollectSome(text, depth, fmt, Shown(fs));
    if depth == 0 && s.stack == [] {
      RowTold(text, s.comps);
    } else {
      FoundTold(depth, fs, st);
    }
  }

  lemma EmptyBase()
    ensures IsBase([])
  {}

  // Only a single element without a key leaves nothing on the stack.
  lemma AfterStack(fmt: Format, fs: seq<Field>, st: Style)
    requires fs != [] && FieldsOk(fs, st)
    ensures
      var s, f := After(Behind(fmt, [], fs), fs[|fs| - 1].value), fs[|fs| - 1];
      && (s.stack == [] <==> |fs| == 1 && fs[0].Item? && !fs[0].value.Nested?)
      && (s.stack == [] ==> s.comps == Components(f.value) && Found(0, fs) == Columns(s.comps))
  {
    var n := |fs| - 1;
    EmptyBase();
    BaseTop([], fs[..n]);
    hide Spread, Board, GroupOf, Columns, FieldPairs, KeyOfField, FieldsOk;
    if n == 0 && fs[0].Item? && !fs[0].value.Nested? {
      hide Components;
      assert [] + Components(fs[0].value) == Components(fs[0].value);
    }
  }

  lemma CollectSome(text: string, depth: nat, fmt: Format, list: seq<Element>)
    ensures
      var st := Run(fmt, list);
      Collect(text, depth, fmt, list) ==
        if depth == 0 && st.stack == [] then Gather(text, depth, [], st.comps)
        else Gather(text, depth, AtEnd(st.fmt, st.stack, st.comps), [])
  {
    hide Run, AtEnd, Gather;
  }

  // ---------- the groups ----------

  lemma {:induction false} PairedMore(text: string, depth: nat, a: seq<Element>, b: seq<Element>)
    ensures PairedAll(text, depth, a + b) == PairedAll(text, depth, a) + PairedAll(text, depth, b)
    decreases |b|
  {
    hide Paired;
    if b == [] {
      assert a + b == a && PairedAll(text, depth, a) + [] == PairedAll(text, depth, a);
    } else {
      var n := |b| - 1;
      PairedMore(text, depth, a, b[..n]);
      assert (a + b)[..|a + b| - 1] == a + b[..n];
    }
  }

  lemma PairedOne(text: string, depth: nat, e: Element)
    ensures PairedAll(text, depth, [e]) == [Paired(text, depth, e)]
  {
    hide Paired;
    assert [e][..0] == [];
    assert PairedAll(text, depth, [e]) == PairedAll(text, depth, [e][..0]) + [Paired(text, depth, e)];
  }

  // Tokens are left as they are.
  lemma {:induction false} PairedLeaves(text: string, depth: nat, toks: seq<Tok>)
    requires forall i | 0 <= i < |toks| :: !toks[i].token.Group?
    ensures PairedAll(text, depth, LeafList(toks)) == LeafList(toks)
    decreases |toks|
  {
    hide Paired, LeafList, PairedAll;
    if toks == [] {
      PairedNone(text, depth);
    } else {
      var n := |toks| - 1;
      var x := Leaf(toks[n]);
      PairedLeaves(text, depth, toks[..n]);
      assert LeafList(toks) == LeafList(toks[..n]) + [x];
      PairedMore(text, depth, LeafList(toks[..n]), [x]);
      PairedOne(text, depth, x);
      PairedLeaf(text, depth, toks[n]);
    }
  }

  lemma PairedNone(text: string, depth: nat)
    ensures PairedAll(text, depth, []) == [] && LeafList([]) == []
  {}

  lemma PairedLeaf(text: string, depth: nat, t: Tok)
    requires !t.token.Group?
    ensures Paired(text, depth, Leaf(t)) == Leaf(t)
  {
    hide Pairup;
  }

  lemma PartsNoGroups(toks: seq<Tok>, st: Style)
    requires forall i | 0 <= i < |toks| :: IsPart(toks[i].token, st) || IsSkipped(toks[i].token)
    ensures forall i | 0 <= i < |toks| :: !toks[i].token.Group?
  {}

  lemma HeadNoGroups(fs: seq<Field>, st: Style)
    requires fs != [] && FieldsOk(fs, st)
    ensures
      var head := Lead(fs) + Head(fs[|fs| - 1]);
      forall i | 0 <= i < |head| :: !head[i].token.Group?
  {
    hide FieldOk, ContentOk, FieldsOk;
    var f := fs[|fs| - 1];
    FieldStepOk(fs, st);
    StyleIsOk(fs, st);
    FieldNoGroups(f, st);
  }

  lemma FieldNoGroups(f: Field, st: Style)
    requires FieldOk(f, st) && StyleOk(st)
    ensures !f.lead.token.Group?
    ensures f.Field? ==>
      && !f.key.token.Group? && !f.sep.token.Group?
      && (forall i | 0 <= i < |f.space| :: !f.space[i].token.Group?)
      && forall i | 0 <= i < |f.gap| :: !f.gap[i].token.Group?
  {
    hide ContentOk;
    if f.Field? {
      PartsNoGroups(f.space, st);
      PartsNoGroups(f.gap, st);
    }
  }

  lemma {:induction false} ShownAll(text: string, depth: nat, fs: seq<Field>, st: Style)
    requires FieldsOk(fs, st)
    ensures PairedAll(text, depth, ListOf(fs)) == Shown(fs)
    decreases fs, 0
  {
    hide *;
    if fs == [] {
      NoneShown(text, depth);
    } else {
      var n := |fs| - 1;
      var a, head := ListOf(fs[..n]), LeafList(Lead(fs) + Head(fs[n]));
      FieldStepOk(fs, st);
      ShownAll(text, depth, fs[..n], st);
      HeadNoGroups(fs, st);
      PairedLeaves(text, depth, Lead(fs) + Head(fs[n]));
      ValueIsPart(fs[n]);
      ContentShown(text, depth, fs[n].value, st);
      PairedMore(text, depth, a, head);
      PairedMore(text, depth, a + head, ContentList(fs[n].value));
      ListStep(fs);
    }
  }

  lemma NoneShown(text: string, depth: nat)
    ensures PairedAll(text, depth, ListOf([])) == Shown([])
  {}

  lemma ListStep(fs: seq<Field>)
    requires fs != []
    ensures
      var n := |fs| - 1;
      var head := LeafList(Lead(fs) + Head(fs[n]));
      && ListOf(fs) == ListOf(fs[..n]) + head + ContentList(fs[n].value)
      && Shown(fs) == Shown(fs[..n]) + head + ShownContent(fs[n].value)
  {
    hide Lead, Head, ContentList, ShownContent;
  }

  lemma {:induction false} ContentShown(text: string, depth: nat, v: Content, st: Style)
    requires ContentOk(v, st)
    ensures PairedAll(text, depth, ContentList(v)) == ShownContent(v)
    decreases v, 0
  {
    hide *;
    ContentCases(v, st);
    ShownCases(v);
    ContentNoGroups(v, st);
    if v.Plain? {
      PairedLeaves(text, depth, v.toks);
    } else if v.Measured? {
      var a, e := LeafList(v.before), Amount(v.amount, v.unit);
      PairedLeaves(text, depth, v.before);
      PairedLeaves(text, depth, v.after);
      PairedMore(text, depth, a, [e]);
      PairedMore(text, depth, a + [e], LeafList(v.after));
      PairedOne(text, depth, e);
      PairedAmount(text, depth, v);
    } else {
      var a, e := LeafList(v.before), ClosedGroup(FormatOfFields(v.style, v.fields), ListOf(v.fields), v.close);
      PairedLeaves(text, depth, v.before);
      PairedLeaves(text, depth, v.after);
      PairedMore(text, depth, a, [e]);
      PairedMore(text, depth, a + [e], LeafList(v.after));
      PairedOne(text, depth, e);
      ListPaired(text, depth + 1, v.fields, v.style);
      FoundInside(depth + 1, v.fields);
      PairedGroup(text, depth, v);
    }
  }

  lemma PairedAmount(text: string, depth: nat, v: Content)
    requires v.Measured?
    ensures Paired(text, depth, Amount(v.amount, v.unit)) == Amount(v.amount, v.unit)
  {
    hide Pairup;
  }

  lemma ShownCases(v: Content)
    ensures v.Plain? ==> ShownContent(v) == LeafList(v.toks)
    ensures v.Measured? ==> ShownContent(v) == LeafList(v.before) + [Amount(v.amount, v.unit)] + LeafList(v.after)
    ensures v.Nested? ==> ShownContent(v) == LeafList(v.before) + [GroupOf(v)] + LeafList(v.after)
  {
    hide GroupOf, Amount;
  }

  lemma ContentNoGroups(v: Content, st: Style)
    requires ContentOk(v, st)
    ensures v.Plain? ==> forall i | 0 <= i < |v.toks| :: !v.toks[i].token.Group?
    ensures !v.Plain? ==>
      && (forall i | 0 <= i < |v.before| :: !v.before[i].token.Group?)
      && (forall i | 0 <= i < |v.after| :: !v.after[i].token.Group?)
  {
    hide FieldsOk, Whole;
    if v.Plain? {
      PartsNoGroups(v.toks, st);
    } else {
      PartsNoGroups(v.before, st);
      PartsNoGroups(v.after, st);
    }
  }

  lemma PairedGroup(text: string, depth: nat, v: Content)
    requires v.Nested? && v.fields != []
    requires
      var fmt := FormatOfFields(v.style, v.fields);
      var r := Pairup(text, depth + 1, fmt, ListOf(v.fields));
      r.pairs == Cut(Found(1, v.fields)) && r.fmt == fmt
    ensures
      var fmt := FormatOfFields(v.style, v.fields);
      Paired(text, depth, ClosedGroup(fmt, ListOf(v.fields), v.close)) == GroupOf(v)
  {
    hide Pairup, Found, ListOf, FormatOfFields;
    SomethingFound(v.fields);
    assert Cut(Found(1, v.fields)) != [];
    hide Cut;
  }

  // Inside brackets the depth makes no difference.
  lemma FoundInside(depth: nat, fs: seq<Field>)
    requires depth >= 1
    ensures Found(depth, fs) == Found(1, fs)
  {
    hide Board, AloneValues, FieldPairs;
  }

  lemma SomethingFound(fs: seq<Field>)
    requires fs != []
    ensures Found(1, fs) != []
  {
    hide SaidOf, PairsOn;
  }

  lemma {:induction false} ListPaired(text: string, depth: nat, fs: seq<Field>, st: Style)
    requires fs != [] && FieldsOk(fs, st) && Whole(fs, st)
    ensures
      var fmt := FormatOfFields(st, fs);
      var r := Pairup(text, depth, fmt, ListOf(fs));
      r.pairs == Cut(Found(depth, fs)) && r.fmt == fmt
    decreases fs, 1
  {
    hide *;
    var fmt := FormatOfFields(st, fs);
    ShownAll(text, depth, fs, st);
    FormatFits(fs, st);
    CollectShown(text, depth, fmt, fs, st);
    PairupCut(text, depth, fmt, ListOf(fs));
  }

  lemma FormatFits(fs: seq<Field>, st: Style)
    requires fs != [] && FieldsOk(fs, st) && Whole(fs, st)
    ensures Separable(FormatOfFields(st, fs), [], fs, st)
  {
    hide FieldOk, IsSingle, HasBare, ExpectsSep;
  }

  lemma PairupCut(text: string, depth: nat, fmt: Format, list: seq<Element>)
    ensures
      var paired := PairedAll(text, depth, list);
      && Pairup(text, depth, fmt, list).pairs == Cut(Collect(text, depth, fmt, paired))
      && Pairup(text, depth, fmt, list).fmt == Run(fmt, paired).fmt
  {
    hide PairedAll, Collect, Run, Leftover;
  }

  // ---------- messages ----------

  // What is collected from a message of fields, before it is cut off.
  lemma FieldsCollected(text: string, fs: seq<Field>, st: Style)
    requires fs != [] && FieldsOk(fs, st) && Whole(fs, st)
    ensures
      var d := Discovered(Stream(fs));
      Collect(text, 0, d.format, PairedAll(text, 0, d.elems)) == Found(0, fs)
  {
    hide *;
    WholeShaped(fs, st);
    FieldsDiscovered(fs, st);
    ShownAll(text, 0, fs, st);
    FormatFits(fs, st);
    CollectShown(text, 0, FormatOfFields(st, fs), fs, st);
  }

  // Parsing a message of fields finds exactly its keys and values, in pairs and in order, cut off after the largest
  // number of pairs, and so in the brackets of its values.
  lemma FieldsParsed(text: string, fs: seq<Field>, st: Style)
    requires fs != [] && FieldsOk(fs, st) && Whole(fs, st)
    ensures
      var d := Discovered(Stream(fs));
      Pairup(text, 0, d.format, d.elems).pairs == Cut(Found(0, fs))
  {
    hide *;
    WholeShaped(fs, st);
    FieldsDiscovered(fs, st);
    ListPaired(text, 0, fs, st);
  }

  // ---------- a part of a value is lost ----------

  // Behind the last comma of a value one element is passed over, so of the list a=1,2;b=3 the number 2 is lost.
  lemma PartIsLost(text: string)
    ensures
      var one := Tok(Number, 2, 3);
      var a := Field(
        Tok(Semi, 0, 0), [], Tok(Word, 0, 1), [], Tok(Equals, 1, 2), Plain([one, Tok(Comma, 3, 4), Tok(Number, 4, 5)]));
      var b := Field(
        Tok(Semi, 5, 6), [], Tok(Word, 6, 7), [], Tok(Equals, 7, 8), Plain([Tok(Number, 8, 9)]));
      var d := Discovered(Stream([a, b]));
      var pairs := Pairup(text, 0, d.format, d.elems).pairs;
      |pairs| == 2 && pairs[0] == Make(Pair, [KeyOfField(a), Make(Value, [Leaf(one)])])
  {
    var st := Style(Semi, Equals);
    var one, comma, two := Tok(Number, 2, 3), Tok(Comma, 3, 4), Tok(Number, 4, 5);
    var a := Field(Tok(Semi, 0, 0), [], Tok(Word, 0, 1), [], Tok(Equals, 1, 2), Plain([one, comma, two]));
    var b := Field(Tok(Semi, 5, 6), [], Tok(Word, 6, 7), [], Tok(Equals, 7, 8), Plain([Tok(Number, 8, 9)]));
    hide *;
    ListValue(one, comma, two, st);
    TokenValue(Tok(Number, 8, 9), st);
    BothOk(a, b, st);
    FieldsParsed(text, [a, b], st);
    TwoPairs(a, b);
    ListValueOf(a, one, comma, two);
  }

  lemma ListValue(one: Tok, comma: Tok, two: Tok, st: Style)
    requires one.token.Number? && comma.token.Comma? && two.token.Number? && st.end.Semi?
    ensures Solid([one, comma, two]) == [one, comma, two]
    ensures Parts(LeafList([one, comma, two])) == [Leaf(one)]
    ensures ContentOk(Plain([one, comma, two]), st)
  {
    SolidThree(one, comma, two);
    PartsThree(Leaf(one), Leaf(comma), Leaf(two));
    assert LeafList([one, comma, two]) == [Leaf(one), Leaf(comma), Leaf(two)];
    hide Solid, Parts, LeafList;
  }

  lemma SolidThree(one: Tok, comma: Tok, two: Tok)
    requires one.token.Number? && comma.token.Comma? && two.token.Number?
    ensures Solid([one, comma, two]) == [one, comma, two]
  {
    var s := [one, comma, two];
    assert s[..2] == [one, comma] && [one, comma][..1] == [one] && [one][..0] == [];
    assert Solid([one]) == [one] && Solid([one, comma]) == [one, comma];
  }

  lemma PartsThree(a: Element, b: Element, c: Element)
    requires b.token.Comma? && !a.token.Comma? && !c.token.Comma?
    ensures Parts([a, b, c]) == [a]
  {
    var s := [a, b, c];
    hide LastComma;
    assert LastComma(s) == 1 by {
      assert s[1] == b && s[2] == c;
    }
    assert Shortened(s) == [a, b] && [a, b][..1] == [a] && [a][..0] == [];
    assert WithoutCommas([a]) == [a];
  }

  lemma BothOk(a: Field, b: Field, st: Style)
    requires st == Style(Semi, Equals) && ContentOk(a.value, st) && ContentOk(b.value, st)
    requires a.Field? && b.Field?
    requires a.lead.token.Semi? && a.space == a.gap == [] && a.key.token.Word? && a.sep.token.Equals?
    requires b.lead.token.Semi? && b.space == b.gap == [] && b.key.token.Word? && b.sep.token.Equals?
    ensures FieldsOk([a, b], st) && Whole([a, b], st)
  {
    hide ContentOk;
    assert FieldOk(a, st) && FieldOk(b, st);
    hide FieldOk;
  }

  lemma TwoPairs(a: Field, b: Field)
    requires a.Field?
    ensures |Cut(Found(0, [a, b]))| == 2
    ensures Cut(Found(0, [a, b]))[0] == Make(Pair, [KeyOfField(a), ValueOfField(a)])
  {
    hide KeyOfField, ValueOfField, FieldPairs;
    FieldPairAt([a, b], 0);
  }

  lemma ListValueOf(a: Field, one: Tok, comma: Tok, two: Tok)
    requires a.value == Plain([one, comma, two]) && Solid([one, comma, two]) == [one, comma, two]
    requires Parts(LeafList([one, comma, two])) == [Leaf(one)]
    ensures ValueOfField(a) == Make(Value, [Leaf(one)])
  {
    hide Solid, Parts, LeafList;
  }
}
