// Further separators, or brackets, where fields end with semicolons: in "a=1; b=c=2" the last separator is passed over,
// and so is the group in "a=1; b=c (d)", but in "a=c=2; b=3" the second one makes c a key of its own.
module LateSeparators {
  import opened Tokens
  import opened Elements
  import opened KeyScan
  import opened Pairing
  import opened Pairs
  import opened Dfs
  import opened Discover
  import opened Boards
  import opened Fields
  import opened FieldFormats
  import opened FieldTrees
  import opened FieldPairing
  import opened PlainLists
  import opened Languages
  import Descent

  // What interrupts a value: a separator or a value in brackets.
  predicate StopOk(stop: Stop, st: Style)
  {
    match stop
    case Mark(tok) => tok.token == st.sep
    case Bracket(group) => group.Nested? && ContentOk(group, st)
  }

  // Several fields that semicolons end, the last of which has the plain value a + b, and what comes between a and b.
  predicate LateOk(fs: seq<Field>, st: Style, a: seq<Tok>, stop: Stop, b: seq<Tok>)
  {
    && |fs| > 1 && FieldsOk(fs, st) && Whole(fs, st) && st.end.Semi? && StopOk(stop, st)
    && fs[|fs| - 1].value == Plain(a + b) && Solid(a) != [] && NoCommaIn(a)
  }

  predicate NoCommaIn(toks: seq<Tok>)
  {
    forall i | 0 <= i < |toks| :: !toks[i].token.Comma?
  }

  // The fields up to the interruption.
  function UpTo(fs: seq<Field>, a: seq<Tok>): seq<Field>
    requires fs != []
  {
    var n := |fs| - 1;
    fs[..n] + [fs[n].(value := Plain(a))]
  }

  function LateToks(fs: seq<Field>, a: seq<Tok>, stop: Stop, b: seq<Tok>): seq<Tok>
    requires fs != []
  {
    Stream(UpTo(fs, a)) + StopToks(stop) + b
  }

  // ---------- what is known of the parts ----------

  lemma LateParts(fs: seq<Field>, st: Style, a: seq<Tok>, stop: Stop, b: seq<Tok>)
    requires LateOk(fs, st, a, stop, b)
    ensures |fs| > 1 && FieldsOk(fs, st) && Whole(fs, st) && StyleOk(st) && st.end.Semi? && StopOk(stop, st)
    ensures fs[|fs| - 1].value == Plain(a + b) && fs[|fs| - 1].Field? && Solid(a) != [] && NoCommaIn(a)
    ensures forall i | 0 <= i < |b| :: IsPart(b[i].token, st)
    ensures forall i | 0 <= i < |a| :: IsPart(a[i].token, st)
  {
    hide Whole, Solid, Parts, IsPart, AllSkipped, IsKeyToken, StopOk;
    AllKeyed(fs, st);
    var f := fs[|fs| - 1];
    assert FieldOk(f, st);
    assert forall i | 0 <= i < |b| :: (a + b)[|a| + i] == b[i];
    assert forall i | 0 <= i < |a| :: (a + b)[i] == a[i];
  }

  lemma StopCases(stop: Stop, st: Style)
    requires StopOk(stop, st)
    ensures stop.Mark? ==>
      && stop.tok.token == st.sep && StopToks(stop) == StopLevel(stop) == [stop.tok]
      && StopList(stop) == LeafList([stop.tok]) == [Leaf(stop.tok)]
    ensures stop.Bracket? ==>
      && ContentOk(stop.group, st) && StopToks(stop) == ContentToks(stop.group) && stop.group.Nested?
      && StopLevel(stop) == ContentLevel(stop.group) && StopList(stop) == ContentList(stop.group)
  {
    hide ContentOk, ContentToks, ContentLevel, ContentList;
  }

  lemma AllKeyed(fs: seq<Field>, st: Style)
    requires |fs| > 1 && Whole(fs, st) && st.end.Semi?
    ensures fs[|fs| - 1].Field? && KeyedCount(fs) == |fs|
  {
    hide IsSingle, ExpectsSep, HasBare;
  }

  lemma UpToOk(fs: seq<Field>, st: Style, a: seq<Tok>, stop: Stop, b: seq<Tok>)
    requires LateOk(fs, st, a, stop, b)
    ensures FieldsOk(UpTo(fs, a), st) && Whole(UpTo(fs, a), st) && |UpTo(fs, a)| == |fs|
    ensures KeyedCount(UpTo(fs, a)) == |fs|
  {
    LateParts(fs, st, a, stop, b);
    AllKeyed(fs, st);
    PlainValue(a, st);
    var s := UpTo(fs, a);
    hide Solid, ContentOk, IsPart, Parts, AllSkipped, IsKeyToken, Whole, KeyedCount, StopOk;
    assert forall i | 0 <= i < |s| :: FieldOk(s[i], st);
    assert forall i | 0 <= i < |s| :: s[i].Field? && fs[i].Field?;
    KeyedWhole(s, fs, st);
  }

  lemma KeyedWhole(s: seq<Field>, fs: seq<Field>, st: Style)
    requires |s| == |fs| > 1 && st.end.Semi? && Whole(fs, st)
    requires forall i | 0 <= i < |s| :: s[i].Field? && fs[i].Field?
    ensures Whole(s, st) && KeyedCount(s) == |s|
  {
    hide ExpectsSep, IsSingle, HasBare;
  }

  lemma PlainValue(a: seq<Tok>, st: Style)
    requires Solid(a) != [] && NoCommaIn(a) && forall i | 0 <= i < |a| :: IsPart(a[i].token, st)
    ensures ContentOk(Plain(a), st) && LastComma(LeafList(Solid(a))) == -1
  {
    SolidNoComma(a);
    hide Solid, LastComma, Parts, IsPart;
    PartsLose(LeafList(Solid(a)));
  }

  lemma {:induction false} SolidNoComma(a: seq<Tok>)
    requires NoCommaIn(a)
    ensures NoCommaIn(Solid(a))
    decreases |a|
  {
    hide IsSkipped;
    if a != [] {
      SolidNoComma(a[..|a| - 1]);
    }
  }

  // ---------- the format ----------

  lemma SemiFinal(m: FormatState, fs: seq<Field>, st: Style, ends: nat, seps: nat)
    requires Seen(m, st, ends, seps) && Auto(m, st).DfsValue? && st.end.Semi? && StyleOk(st) && |fs| > 1
    requires ends > 0 && seps > 0
    ensures Finalize(m).format == FormatOfFields(st, fs)
  {}

  lemma ValueStays(st: Style, a: DfsState, t: Token)
    requires st.end.Semi? && StyleOk(st) && a.DfsValue? && t == st.sep
    ensures Next(st, a, t).DfsValue?
  {}

  lemma StageOfValue(a: DfsState, fs: seq<Field>, st: Style)
    requires fs != [] && st.end.Semi? && Stage(a, fs, st, false)
    ensures a.DfsValue?
  {}

  lemma PartsInner(b: seq<Tok>, st: Style)
    requires st.end.Semi? && forall i | 0 <= i < |b| :: IsPart(b[i].token, st)
    ensures forall i | 0 <= i < |b| :: IsInner(b[i].token, st)
  {}

  // An interruption does not end the value.
  lemma SeenStop(m: FormatState, st: Style, stop: Stop, ends: nat, seps: nat) returns (more: nat)
    requires StyleOk(st) && st.end.Semi? && StopOk(stop, st) && Seen(m, st, ends, seps) && Auto(m, st).DfsValue?
    ensures Seen(FoldFrom(m, StopLevel(stop)), st, ends, more) && Auto(FoldFrom(m, StopLevel(stop)), st).DfsValue?
    ensures more >= seps
  {
    hide *;
    StopCases(stop, st);
    if stop.Mark? {
      KeyCounts(st, stop.tok.token);
      ValueStays(st, Auto(m, st), stop.tok.token);
      SeenStep(m, st, stop.tok.token, ends, seps);
      FoldOne(m, [], stop.tok);
      FoldNothing(m);
      assert [] + [stop.tok] == [stop.tok];
      more := seps + 1;
    } else {
      LevelInner(stop.group, st);
      SeenInner(m, st, ContentLevel(stop.group), ends, seps);
      more := seps;
    }
  }

  lemma LateFormat(fs: seq<Field>, st: Style, a: seq<Tok>, stop: Stop, b: seq<Tok>)
    requires LateOk(fs, st, a, stop, b)
    ensures FormatOf(TokenSeq(LevelToks(UpTo(fs, a)) + StopLevel(stop) + b)) == FormatOfFields(st, fs)
  {
    hide *;
    LateParts(fs, st, a, stop, b);
    var s := UpTo(fs, a);
    var level, mid := LevelToks(s), StopLevel(stop);
    UpToOk(fs, st, a, stop, b);
    NothingSeen(st);
    WholeShaped(s, st);
    ShapedAccepted(s, st);
    StartsNew(INITIAL, s, st);
    SeenLevel(INITIAL, s, st, false, 0, 0);
    StageOfValue(Auto(FoldFrom(INITIAL, level), st), s, st);
    var seps := SeenStop(FoldFrom(INITIAL, level), st, stop, |s| - 1, KeyedCount(s));
    FoldParts(INITIAL, level, mid);
    PartsInner(b, st);
    SeenInner(FoldFrom(INITIAL, level + mid), st, b, |s| - 1, seps);
    FoldParts(INITIAL, level + mid, b);
    SemiFinal(FoldFrom(INITIAL, level + mid + b), fs, st, |s| - 1, seps);
    FoldIsFold(level + mid + b);
    FormatIsFinal(TokenSeq(level + mid + b));
  }

  // ---------- the list that is discovered ----------

  lemma MarkFlat(t: Tok, st: Style)
    requires StyleOk(st) && t.token == st.sep
    ensures AllFlat([t]) && !t.token.Group? && !IsOpener(t.token)
  {}

  lemma EndsBehind(a: seq<Tok>, b: seq<Tok>)
    requires b != [] && Descent.EndsWell(b)
    ensures Descent.EndsWell(a + b)
  {
    assert (a + b)[|a + b| - 1] == b[|b| - 1];
  }

  lemma LateEnds(stop: Stop, b: seq<Tok>, st: Style)
    requires StyleOk(st) && StopOk(stop, st) && forall i | 0 <= i < |b| :: IsPart(b[i].token, st)
    ensures StopToks(stop) + b != [] && Descent.EndsWell(StopToks(stop) + b)
  {
    hide *;
    StopCases(stop, st);
    if stop.Mark? {
      MarkFlat(stop.tok, st);
    } else {
      ContentEnds(stop.group, st);
    }
    PlainFlat(b, st);
    EndsPlain(StopToks(stop), b);
  }

  lemma EndsPlain(a: seq<Tok>, b: seq<Tok>)
    requires a != [] && !IsOpener(a[|a| - 1].token) && AllFlat(b)
    ensures a + b != [] && Descent.EndsWell(a + b)
  {
    assert (a + b)[|a + b| - 1] == if b == [] then a[|a| - 1] else b[|b| - 1];
  }

  lemma ReadStop(elems: seq<Element>, seen: seq<Token>, stop: Stop, st: Style, rest: seq<Tok>)
    requires StyleOk(st) && StopOk(stop, st)
    ensures Read(Invalid, elems, seen, StopToks(stop) + rest) ==
      Read(Invalid, elems + StopList(stop), seen + TokenSeq(StopLevel(stop)), rest)
  {
    hide *;
    StopCases(stop, st);
    if stop.Mark? {
      MarkFlat(stop.tok, st);
      ReadFlat(Invalid, elems, seen, [stop.tok], rest);
    } else {
      ReadContent(Invalid, elems, seen, stop.group, st, rest);
    }
  }

  lemma LateDiscovered(fs: seq<Field>, st: Style, a: seq<Tok>, stop: Stop, b: seq<Tok>)
    requires LateOk(fs, st, a, stop, b)
    ensures
      Discovered(LateToks(fs, a, stop, b)) ==
        List(FormatOfFields(st, fs), ListOf(UpTo(fs, a)) + StopList(stop) + LeafList(b))
  {
    hide *;
    LateParts(fs, st, a, stop, b);
    var s, toks := UpTo(fs, a), LateToks(fs, a, stop, b);
    var list, level, mid := ListOf(s), LevelToks(s), StopLevel(stop);
    LateAre(fs, a, stop, b);
    UpToOk(fs, st, a, stop, b);
    LateEnds(stop, b, st);
    EndsBehind(Stream(s), StopToks(stop) + b);
    Descent.MachineIsDescent(toks);
    ReadFields(Invalid, [], [], s, st, StopToks(stop) + b);
    Nothing(list, TokenSeq(level));
    ReadStop(list, TokenSeq(level), stop, st, b);
    TokenParts(level, mid);
    PlainFlat(b, st);
    assert b + [] == b;
    ReadFlat(Invalid, list + StopList(stop), TokenSeq(level + mid), b, []);
    TokenParts(level + mid, b);
    ReadEnd(list + StopList(stop) + LeafList(b), TokenSeq(level + mid + b));
    MessageRead(toks);
    LateFormat(fs, st, a, stop, b);
  }

  lemma LateAre(fs: seq<Field>, a: seq<Tok>, stop: Stop, b: seq<Tok>)
    requires fs != []
    ensures LateToks(fs, a, stop, b) == Stream(UpTo(fs, a)) + (StopToks(stop) + b)
  {
    hide Stream, UpTo, StopToks;
  }

  // ---------- the loop over the list ----------

  // Where a separator or a group is passed over: a key on the stack waits for its value, and some of it has been seen.
  predicate Halfway(s: State, st: Style)
  {
    && ListFormat(s.fmt, st) && st.end.Semi? && !s.fmt.terminator.Invalid? && s.fmt.separator == st.sep
    && |s.stack| > 1 && s.comps != [] && forall i | 0 <= i < |s.comps| :: !IsBreak(s.fmt, s.comps[i])
  }

  lemma LateStep(s: State, e: Element, st: Style)
    requires Halfway(s, st) && (e.token == st.sep || e.token.Group?)
    ensures Step(s, e) == s
  {
    LateScanned(s.fmt, s.stack, s.comps);
    LateWaits(s, st);
    hide Scan, AtEnd, ValueOf, KeyOf, GroupValue, QualifierValue, IsBreak, ListFormat;
    LateKinds(s, e, st);
  }

  // It is neither the end of a field nor a qualifier.
  lemma LateKinds(s: State, e: Element, st: Style)
    requires Halfway(s, st) && (e.token == st.sep || e.token.Group?)
    ensures s.fmt.prefixTerminator.Invalid? && e.token != s.fmt.terminator && e.token != s.fmt.qualifier
    ensures e.token == s.fmt.separator || e.token.Group?
  {
    hide IsBreak;
  }

  lemma LateWaits(s: State, st: Style)
    requires Halfway(s, st)
    ensures |s.stack| > 1 && s.comps != [] && !s.fmt.appender.Invalid? && !s.fmt.terminator.Invalid?
  {
    hide IsBreak;
  }

  lemma LateScanned(fmt: Format, stack: seq<Element>, comps: seq<Element>)
    requires stack != [] && !fmt.terminator.Invalid? && forall i | 0 <= i < |comps| :: !IsBreak(fmt, comps[i])
    ensures
      var o := Scan(fmt, stack, comps);
      o.stack == stack && o.comps == comps && !o.found && !o.mixed
  {
    NoBreaks(fmt, comps);
    hide IsBreak, LastBreak, LastValue, NoKeys, Runs, Absorb;
  }

  function StopShown(stop: Stop): seq<Element>
  {
    match stop
    case Mark(tok) => [Leaf(tok)]
    case Bracket(group) => ShownContent(group)
  }

  lemma ShownStop(stop: Stop, st: Style)
    requires StopOk(stop, st)
    ensures stop.Mark? ==> StopShown(stop) == [Leaf(stop.tok)] && Leaf(stop.tok).token == st.sep
    ensures stop.Bracket? ==>
      && AllSkipped(stop.group.before) && AllSkipped(stop.group.after)
      && StopShown(stop) == LeafList(stop.group.before) + [GroupOf(stop.group)] + LeafList(stop.group.after)
  {
    hide GroupOf, FieldsOk, Whole;
  }

  lemma StopIgnored(s: State, stop: Stop, st: Style)
    requires Halfway(s, st) && StopOk(stop, st)
    ensures StepAll(s, StopShown(stop)) == s
  {
    hide *;
    ShownStop(stop, st);
    StopCases(stop, st);
    HalfwayFormat(s, st);
    if stop.Mark? {
      StepNone(s);
      StepLast(s, [], Leaf(stop.tok));
      assert [] + [Leaf(stop.tok)] == [Leaf(stop.tok)];
      LateStep(s, Leaf(stop.tok), st);
    } else {
      var v := stop.group;
      GroupToken(v);
      StepSpaces(s, v.before, st);
      StepLast(s, LeafList(v.before), GroupOf(v));
      LateStep(s, GroupOf(v), st);
      StepParts(s, LeafList(v.before) + [GroupOf(v)], LeafList(v.after));
      StepSpaces(s, v.after, st);
    }
  }

  lemma HalfwayFormat(s: State, st: Style)
    requires Halfway(s, st)
    ensures ListFormat(s.fmt, st)
  {}

  lemma {:induction false} NoBreaks(fmt: Format, comps: seq<Element>)
    requires forall i | 0 <= i < |comps| :: !IsBreak(fmt, comps[i])
    ensures LastBreak(fmt, comps) == -1
  {
    hide IsBreak;
  }

  lemma SolidBreaks(a: seq<Tok>, fmt: Format, st: Style)
    requires ListFormat(fmt, st) && NoCommaIn(a) && forall i | 0 <= i < |a| :: IsPart(a[i].token, st)
    ensures forall i | 0 <= i < |Solid(a)| :: !IsBreak(fmt, LeafList(Solid(a))[i])
  {
    SolidNoComma(a);
    SolidParts(a, st);
    var vs := LeafList(Solid(a));
    hide Solid, IsPart, ListFormat, IsBreak;
    forall i | 0 <= i < |vs|
      ensures !IsBreak(fmt, vs[i])
    {
      BitBreaks(fmt, vs[i], st);
    }
  }

  lemma {:induction false} SolidBoth(a: seq<Tok>, b: seq<Tok>)
    ensures LeafList(Solid(a + b)) == LeafList(Solid(a)) + LeafList(Solid(b))
    decreases |b|
  {
    hide Solid, Leaf, LeafList;
    if b == [] {
      assert a + b == a;
      NothingSolid();
    } else {
      var n := |b| - 1;
      SolidBoth(a, b[..n]);
      SolidLast(b[..n], b[n]);
      SolidLast(a + b[..n], b[n]);
      assert b[..n] + [b[n]] == b && a + b[..n] + [b[n]] == a + b;
    }
  }

  lemma NothingSolid()
    ensures LeafList(Solid([])) == []
  {}

  // Behind the key of the last field it makes no difference whether its value is interrupted.
  lemma LateRun(fs: seq<Field>, st: Style, a: seq<Tok>, stop: Stop, b: seq<Tok>)
    requires LateOk(fs, st, a, stop, b)
    ensures
      var s0 := State(FormatOfFields(st, fs), [], []);
      StepAll(s0, Shown(UpTo(fs, a)) + StopShown(stop) + LeafList(b)) == StepAll(s0, Shown(fs))
  {
    hide *;
    LateParts(fs, st, a, stop, b);
    var fmt, short := FormatOfFields(st, fs), UpTo(fs, a);
    var s0, shown := State(fmt, [], []), Shown(short);
    UpToOk(fs, st, a, stop, b);
    SameFormat(st, fs, short);
    FormatFits(short, st);
    FormatFits(fs, st);
    FieldsRun(fmt, [], short, st);
    FieldsRun(fmt, [], fs, st);
    BehindSame(fmt, fs, st, a, b);
    var s := StepAll(s0, shown);
    SemiSeparates(fs, st);
    SolidBreaks(a, fmt, st);
    IsHalfway(s, st);
    StopIgnored(s, stop, st);
    StepParts(s0, shown, StopShown(stop));
    StepPlain(s, b, st);
    SolidBoth(a, b);
    StepParts(s0, shown + StopShown(stop), LeafList(b));
  }

  lemma IsHalfway(s: State, st: Style)
    requires ListFormat(s.fmt, st) && st.end.Semi? && !s.fmt.terminator.Invalid? && s.fmt.separator == st.sep
    requires |s.stack| > 1 && s.comps != [] && forall i | 0 <= i < |s.comps| :: !IsBreak(s.fmt, s.comps[i])
    ensures Halfway(s, st)
  {}

  lemma SameFormat(st: Style, fs: seq<Field>, gs: seq<Field>)
    requires |fs| == |gs| > 1 && st.end.Semi?
    ensures FormatOfFields(st, fs) == FormatOfFields(st, gs)
  {}

  lemma SemiSeparates(fs: seq<Field>, st: Style)
    requires |fs| > 1 && st.end.Semi? && StyleOk(st)
    ensures
      var fmt := FormatOfFields(st, fs);
      fmt.separator == st.sep && !fmt.terminator.Invalid? && ListFormat(fmt, st)
  {}

  lemma BehindSame(fmt: Format, fs: seq<Field>, st: Style, a: seq<Tok>, b: seq<Tok>)
    requires |fs| > 1 && FieldsOk(fs, st) && fs[|fs| - 1].Field? && fs[|fs| - 1].value == Plain(a + b) && Solid(a) != []
    ensures
      var s := After(Behind(fmt, [], UpTo(fs, a)), UpTo(fs, a)[|fs| - 1].value);
      var s' := After(Behind(fmt, [], fs), fs[|fs| - 1].value);
      && s.fmt == s'.fmt == fmt && s.stack == s'.stack && |s.stack| > 1
      && s.comps == LeafList(Solid(a)) && s.comps != [] && s'.comps == LeafList(Solid(a + b))
  {
    var n, short := |fs| - 1, UpTo(fs, a);
    assert short[..n] == fs[..n] && short[n].key == fs[n].key;
    EmptyBase();
    BaseTop([], fs[..n]);
    hide Spread, Board, Solid, FieldsOk, LeafList;
    assert LeafList(Solid(a)) != [];
    assert [] + LeafList(Solid(a)) == LeafList(Solid(a)) && [] + LeafList(Solid(a + b)) == LeafList(Solid(a + b));
  }

  // ---------- messages ----------

  lemma StopPaired(text: string, depth: nat, stop: Stop, st: Style)
    requires StopOk(stop, st) && StyleOk(st)
    ensures PairedAll(text, depth, StopList(stop)) == StopShown(stop) && Settled(StopShown(stop))
  {
    hide *;
    StopCases(stop, st);
    StopShownIs(stop);
    if stop.Mark? {
      MarkFlat(stop.tok, st);
      PairedLeaves(text, depth, [stop.tok]);
      LeavesSettled([stop.tok]);
    } else {
      ContentShown(text, depth, stop.group, st);
      ContentSettled(stop.group);
    }
  }

  lemma StopShownIs(stop: Stop)
    ensures stop.Mark? ==> StopShown(stop) == [Leaf(stop.tok)]
    ensures stop.Bracket? ==> StopShown(stop) == ShownContent(stop.group)
  {}

  // Where fields end with semicolons, a separator or a group within the value of the last of several fields is passed
  // over: the pairs are those of the same fields without it, so the group is lost with all that is in it.
  lemma LateSeparatorIgnored(text: string, fs: seq<Field>, st: Style, a: seq<Tok>, stop: Stop, b: seq<Tok>)
    requires LateOk(fs, st, a, stop, b)
    ensures
      var d := Discovered(LateToks(fs, a, stop, b));
      Pairup(text, 0, d.format, d.elems).pairs == Cut(Found(0, fs))
  {
    hide *;
    LateParts(fs, st, a, stop, b);
    var fmt, short := FormatOfFields(st, fs), UpTo(fs, a);
    var list, mid, rest := ListOf(short), StopList(stop), LeafList(b);
    var shown := Shown(short) + StopShown(stop) + rest;
    UpToOk(fs, st, a, stop, b);
    LateDiscovered(fs, st, a, stop, b);
    ShownAll(text, 0, short, st);
    StopPaired(text, 0, stop, st);
    PartsNoGroups(b, st);
    PairedLeaves(text, 0, b);
    PairedMore(text, 0, list, mid);
    PairedMore(text, 0, list + mid, rest);
    PairupCut(text, 0, fmt, list + mid + rest);
    ShownSettled(short);
    ShownSettled(fs);
    LeavesSettled(b);
    BothSettled(Shown(short), StopShown(stop));
    BothSettled(Shown(short) + StopShown(stop), rest);
    RunIsSteps(fmt, shown);
    RunIsSteps(fmt, Shown(fs));
    LateRun(fs, st, a, stop, b);
    CollectSome(text, 0, fmt, shown);
    CollectSome(text, 0, fmt, Shown(fs));
    FormatFits(fs, st);
    CollectShown(text, 0, fmt, fs, st);
  }

  // ---------- a second separator in the first field ----------

  // A key and a separator, and behind them several fields with keys, which semicolons end.
  predicate EarlyOk(key: Tok, sep: Tok, fs: seq<Field>, st: Style)
  {
    && IsKeyToken(key.token) && sep.token == st.sep
    && |fs| > 1 && FieldsOk(fs, st) && Whole(fs, st) && st.end.Semi?
  }

  lemma EarlyParts(key: Tok, sep: Tok, fs: seq<Field>, st: Style)
    requires EarlyOk(key, sep, fs, st)
    ensures IsKeyToken(key.token) && sep.token == st.sep && |fs| > 1 && StyleOk(st) && st.end.Semi?
    ensures FieldsOk(fs, st) && Whole(fs, st) && KeyedCount(fs) == |fs| && forall i | 0 <= i < |fs| :: fs[i].Field?
  {
    AllKeyed(fs, st);
    hide FieldOk, Whole;
  }

  // The tokens before a list of fields that semicolons end do not change that it is one.
  lemma SemiBehind(a: Token, b: Token, toks: seq<Token>)
    requires SemiList(toks) && !a.Comma? && !a.Semi? && IsSep(b)
    ensures SemiList([a, b] + toks)
  {
    hide HasSep;
    var all := [a, b] + toks;
    assert forall i | 2 <= i < |all| :: all[i] == toks[i - 2];
    forall i | 0 <= i < |all| && all[i].Semi?
      ensures HasSep(all, i)
    {
      HasSepBehind(a, b, toks, i - 2);
    }
  }

  lemma HasSepBehind(a: Token, b: Token, toks: seq<Token>, i: nat)
    requires i <= |toks| && HasSep(toks, i)
    ensures HasSep([a, b] + toks, i + 2)
  {
    hide IsSep;
    var all := [a, b] + toks;
    var j :| 0 < j < i && SepAt(toks, j, i);
    assert forall k | 0 <= k < |toks| :: all[k + 2] == toks[k];
    assert SepAt(all, j + 2, i + 2);
  }

  // What is known of the tokens of a list of such fields.
  lemma SemiTokens(fs: seq<Field>, st: Style)
    requires |fs| > 1 && FieldsOk(fs, st) && Whole(fs, st) && st.end.Semi?
    ensures
      var s := TokenSeq(LevelToks(fs));
      SemiList(s) && Semi in s && (Equals in s <==> st.sep.Equals?)
  {
    hide *;
    var m, s := FoldFrom(INITIAL, LevelToks(fs)), TokenSeq(LevelToks(fs));
    StyleIsOk(fs, st);
    AllKeyed(fs, st);
    NothingSeen(st);
    WholeShaped(fs, st);
    ShapedAccepted(fs, st);
    StartsNew(INITIAL, fs, st);
    SeenLevel(INITIAL, fs, st, false, 0, 0);
    StageOfValue(Auto(m, st), fs, st);
    FoldIsFold(LevelToks(fs));
    HistIs(s);
    SemiCounted(m, s, st, |fs| - 1, KeyedCount(fs));
    SemiAccepts(s);
  }

  lemma SemiCounted(m: FormatState, s: seq<Token>, st: Style, ends: nat, seps: nat)
    requires Seen(m, st, ends, seps) && Auto(m, st).DfsValue? && st.end.Semi? && m.hist == multiset(s)
    requires ends > 0 && seps > 0 && StyleOk(st)
    ensures m.semi != DfsError && Semi in s && (Equals in s <==> st.sep.Equals?)
  {}

  lemma EarlyFormat(key: Tok, sep: Tok, fs: seq<Field>, st: Style)
    requires EarlyOk(key, sep, fs, st)
    ensures FormatOf(TokenSeq([key, sep] + LevelToks(fs))) == FormatOfFields(st, fs)
  {
    hide *;
    EarlyParts(key, sep, fs, st);
    SemiTokens(fs, st);
    KeyAndSep(key.token, sep.token, st);
    var s, all := TokenSeq(LevelToks(fs)), TokenSeq([key, sep] + LevelToks(fs));
    SemiBehind(key.token, sep.token, s);
    assert all == [key.token, sep.token] + s;
    FormatGuessed(all);
    SemiFields(FormatOf(all), fs, st);
  }

  lemma KeyAndSep(key: Token, sep: Token, st: Style)
    requires IsKeyToken(key) && sep == st.sep && StyleOk(st)
    ensures !key.Comma? && !key.Semi? && !key.Equals? && IsSep(sep)
  {}

  lemma SemiFields(f: Format, fs: seq<Field>, st: Style)
    requires |fs| > 1 && st.end.Semi? && StyleOk(st)
    requires f.terminator.Semi? && f.appender.Comma? && f.name == SemiFormat
    requires f.qualifier == (if st.sep.Equals? then Colon else Invalid) && f.prefixTerminator.Invalid?
    requires f.separator == st.sep
    ensures f == FormatOfFields(st, fs)
  {}

  lemma EarlyDiscovered(key: Tok, sep: Tok, fs: seq<Field>, st: Style)
    requires EarlyOk(key, sep, fs, st)
    ensures
      Discovered([key, sep] + Stream(fs)) == List(FormatOfFields(st, fs), [Leaf(key), Leaf(sep)] + ListOf(fs))
  {
    hide *;
    EarlyParts(key, sep, fs, st);
    var head, base := [key, sep], [Leaf(key), Leaf(sep)];
    var toks := head + Stream(fs);
    StreamEnds(fs, st);
    EarlyFlat(key, sep, fs, st);
    Descent.MachineIsDescent(toks);
    ReadFlat(Invalid, [], [], head, Stream(fs));
    assert Stream(fs) + [] == Stream(fs) && LeafList(head) == base;
    ReadFields(Invalid, base, TokenSeq(head), fs, st, []);
    Nothing(base, TokenSeq(head));
    TokenParts(head, LevelToks(fs));
    ReadEnd(base + ListOf(fs), TokenSeq(head + LevelToks(fs)));
    MessageRead(toks);
    EarlyFormat(key, sep, fs, st);
  }

  lemma EarlyFlat(key: Tok, sep: Tok, fs: seq<Field>, st: Style)
    requires IsKeyToken(key.token) && sep.token == st.sep && StyleOk(st) && Descent.EndsWell(Stream(fs))
    ensures AllFlat([key, sep]) && Descent.EndsWell([key, sep] + Stream(fs))
    ensures LeafList([key, sep]) == [Leaf(key), Leaf(sep)]
    ensures forall i | 0 <= i < 2 :: ![key, sep][i].token.Group?
  {
    hide Stream;
    if Stream(fs) == [] {
      assert ([key, sep] + Stream(fs))[1] == sep;
    } else {
      EndsBehind([key, sep], Stream(fs));
    }
  }

  // Fields with keys, behind nothing or a first key: at their end the stack holds what they say.
  lemma {:induction false} KeyedRun(fmt: Format, stack: seq<Element>, fs: seq<Field>, st: Style)
    requires fs != [] && FieldsOk(fs, st) && (forall i | 0 <= i < |fs| :: fs[i].Field?) && |stack| <= 1
    requires ListFormat(fmt, st) && fmt.separator == st.sep && fmt.terminator == st.end && !fmt.terminator.Invalid?
    ensures
      var s := StepAll(State(fmt, stack, []), Shown(fs));
      s.fmt == fmt && s.stack != [] && AtEnd(fmt, s.stack, s.comps) == stack + Spread(Board(fs))
    decreases |fs|
  {
    hide *;
    var n := |fs| - 1;
    var f := fs[n];
    var s0, before, lead := State(fmt, stack, []), Shown(fs[..n]), LeafList(Lead(fs));
    var here := State(fmt, stack + Spread(Board(fs[..n])), if n == 0 then [] else [Leaf(f.lead)]);
    FieldStepOk(fs, st);
    ShownStep(fs);
    if n == 0 {
      NothingYet(s0, fs);
      assert stack + [] == stack;
    } else {
      KeyedRun(fmt, stack, fs[..n], st);
      LeadLeaf(fs, st);
      StepOne(s0, before, Leaf(f.lead));
      EndStep(StepAll(s0, before), Leaf(f.lead), st);
    }
    assert StepAll(s0, before + lead) == here;
    HereStarts(here, fs, st);
    StepParts(s0, before + lead, LeafList(Head(f)));
    HeadStep(here, f, st);
    StepParts(s0, before + lead + LeafList(Head(f)), ShownContent(f.value));
    KeyedBehind(here, f, st);
    FieldPairing.BoardStep(fs);
    SaidIsOk("", f);
    AnsweredSpread(KeyOfField(f), ValueOfField(f));
    assert here.stack + [KeyOfField(f)] + [ValueOfField(f)]
      == stack + (Spread(Board(fs[..n])) + [KeyOfField(f), ValueOfField(f)]);
  }

  lemma HereStarts(here: State, fs: seq<Field>, st: Style)
    requires ListFormat(here.fmt, st) && here.fmt.separator == st.sep && here.fmt.terminator == st.end
    requires fs != [] && FieldsOk(fs, st)
    requires |fs| == 1 ==> here.comps == [] && |here.stack| <= 1
    requires |fs| > 1 ==> here.comps == [Leaf(fs[|fs| - 1].lead)] && |here.stack| >= |Spread(Board(fs[..|fs| - 1]))|
    ensures Starts(here, st)
  {
    hide ListFormat, ContentOk, Spread, Board;
    EmptyBase();
    BaseTop([], fs[..|fs| - 1]);
    if |fs| > 1 {
      assert [] + Spread(Board(fs[..|fs| - 1])) == Spread(Board(fs[..|fs| - 1]));
      LeadToken(fs[|fs| - 1], st);
    }
  }

  lemma KeyedBehind(here: State, f: Field, st: Style)
    requires f.Field? && ContentOk(f.value, st) && ListFormat(here.fmt, st) && !here.fmt.terminator.Invalid?
    ensures
      var s := StepAll(State(here.fmt, here.stack + [KeyOfField(f)], []), ShownContent(f.value));
      && s.fmt == here.fmt && s.stack != []
      && AtEnd(here.fmt, s.stack, s.comps) == here.stack + [KeyOfField(f)] + [ValueOfField(f)]
  {
    hide *;
    var s := State(here.fmt, here.stack + [KeyOfField(f)], []);
    NoneIsEnd(st);
    KeyIsKey(f);
    ContentStep(s, f.value, st);
    KeyedEnds(here.fmt, s.stack, f, st);
    AfterFormat(s, f.value);
    AfterSome(s, f.value);
  }

  lemma NoneIsEnd(st: Style)
    ensures OnlyEnd([], st)
  {}

  lemma AfterSome(s: State, v: Content)
    requires s.stack != []
    ensures After(s, v).stack != []
  {
    hide GroupOf, Components;
  }

  // The first key gets nothing, not even when the second separator follows it at once.
  lemma EarlySeparatorSplits(text: string, key: Tok, sep: Tok, fs: seq<Field>, st: Style)
    requires EarlyOk(key, sep, fs, st)
    ensures
      var d := Discovered([key, sep] + Stream(fs));
      var at := if 0 <= key.ce < |text| && (text[key.ce] == '=' || text[key.ce] == ':') then key.ce + 1 else key.ce;
      var none := Make(Value, [Element(QuotedString, at, at, Null)]);
      Pairup(text, 0, d.format, d.elems).pairs ==
        Cut([Make(Pair, [Element(Key, key.cb, key.ce, Null), none])] + FieldPairs(fs))
  {
    hide *;
    EarlyParts(key, sep, fs, st);
    var fmt, head, list := FormatOfFields(st, fs), [Leaf(key), Leaf(sep)], ListOf(fs);
    var s0, shown, k := State(fmt, [], []), head + Shown(fs), Element(Key, key.cb, key.ce, Null);
    StreamEnds(fs, st);
    EarlyFlat(key, sep, fs, st);
    EarlyDiscovered(key, sep, fs, st);
    ShownAll(text, 0, fs, st);
    PairedLeaves(text, 0, [key, sep]);
    PairedMore(text, 0, head, list);
    PairupCut(text, 0, fmt, head + list);
    ShownSettled(fs);
    LeavesSettled([key, sep]);
    BothSettled(head, Shown(fs));
    RunIsSteps(fmt, shown);
    SemiSeparates(fs, st);
    StepParts(s0, head, Shown(fs));
    FirstKey(fmt, key, sep, st);
    KeyedRun(fmt, [k], fs, st);
    CollectSome(text, 0, fmt, shown);
    EarlyTold(text, k, fs);
  }

  lemma FirstKey(fmt: Format, key: Tok, sep: Tok, st: Style)
    requires ListFormat(fmt, st) && fmt.separator == st.sep == sep.token && IsKeyToken(key.token)
    ensures
      StepAll(State(fmt, [], []), [Leaf(key), Leaf(sep)]) == State(fmt, [Element(Key, key.cb, key.ce, Null)], [])
  {
    var s, a := State(fmt, [], []), [Leaf(key)];
    assert [Leaf(key), Leaf(sep)] == a + [Leaf(sep)] && a == [] + a;
    assert Starts(s, st) && MakeBare(Key, [Leaf(key)]) == Element(Key, key.cb, key.ce, Null);
    KeyIsBit(key.token, st);
    assert ListFormat(s.fmt, st);
    hide ListFormat, Step, StepAll, Starts, IsBit, IsKeyToken;
    StepNone(s);
    StepLast(s, [], Leaf(key));
    StepLast(s, a, Leaf(sep));
    PlainStep(s, Leaf(key), st);
    KeyStep(s, Leaf(key), Leaf(sep), st);
    assert [] + [MakeBare(Key, [Leaf(key)])] == [MakeBare(Key, [Leaf(key)])];
  }

  lemma KeyIsBit(t: Token, st: Style)
    requires IsKeyToken(t) && StyleOk(st)
    ensures IsBit(t, st)
  {}

  lemma EarlyTold(text: string, k: Element, fs: seq<Field>)
    requires |fs| > 1 && k.token.Key? && fs[0].Field?
    ensures
      var at := if 0 <= k.ce < |text| && (text[k.ce] == '=' || text[k.ce] == ':') then k.ce + 1 else k.ce;
      Gather(text, 0, [k] + Spread(Board(fs)), []) ==
        [Make(Pair, [k, Make(Value, [Element(QuotedString, at, at, Null)])])] + FieldPairs(fs)
  {
    hide *;
    var first := Asked(k, BlankValue(text, k));
    AskedOk(text, k);
    AskedOne(text, k);
    BoardTold(text, first, fs);
    PairsOfFields(fs);
  }

  lemma BoardTold(text: string, first: Said, fs: seq<Field>)
    requires SaidOk(text, first) && first.Asked? && |fs| > 1 && fs[0].Field?
    ensures Gather(text, 0, SpreadOne(first) + Spread(Board(fs)), []) == [PairOf(first)] + PairsOn(Board(fs))
  {
    hide *;
    var b := [first] + Board(fs);
    EarlyBoard(text, first, fs);
    EmptyBase();
    GatherTold(text, 0, [], b);
    assert [] + Spread(b) == Spread(b);
    SpreadFirst(first, Board(fs));
    PairsFirst(first, Board(fs));
    ToldAll(b);
  }

  lemma EarlyBoard(text: string, first: Said, fs: seq<Field>)
    requires SaidOk(text, first) && first.Asked? && |fs| > 1 && fs[0].Field?
    ensures
      var b := [first] + Board(fs);
      BoardOk(text, b) && !Awaits(b) && b[0].Asked? && |b| > 1
  {
    BoardIsOk(text, fs);
    FieldsTell(fs);
    hide Board, SaidOk;
  }

  lemma AskedOk(text: string, k: Element)
    requires k.token.Key?
    ensures SaidOk(text, Asked(k, BlankValue(text, k)))
  {
    hide BlankValue;
  }

  // A field with a key has its value.
  lemma FieldsTell(fs: seq<Field>)
    requires fs != [] && fs[0].Field?
    ensures Board(fs)[0].Answered?
  {
    BoardAt(fs, 0);
    hide Board, ValueOfField;
  }

  lemma ToldAll(b: seq<Said>)
    requires |b| > 1 && !Awaits(b) && b[0].Asked?
    ensures Told(0, b) == PairsOn(b)
  {
    hide PairsOn;
  }

  lemma PairsOfFields(fs: seq<Field>)
    ensures FieldPairs(fs) == PairsOn(Board(fs))
  {
    hide PairsOn, Board;
  }

  lemma AskedOne(text: string, k: Element)
    ensures
      var at := if 0 <= k.ce < |text| && (text[k.ce] == '=' || text[k.ce] == ':') then k.ce + 1 else k.ce;
      PairOf(Asked(k, BlankValue(text, k))) == Make(Pair, [k, Make(Value, [Element(QuotedString, at, at, Null)])])
    ensures SpreadOne(Asked(k, BlankValue(text, k))) == [k]
  {}

  lemma {:induction false} SpreadFirst(first: Said, b: seq<Said>)
    ensures Spread([first] + b) == SpreadOne(first) + Spread(b)
    decreases |b|
  {
    hide SpreadOne;
    var all := [first] + b;
    if b == [] {
      assert all == [first] && [first][..0] == [];
    } else {
      SpreadFirst(first, b[..|b| - 1]);
      assert all[..|all| - 1] == [first] + b[..|b| - 1];
    }
  }

  lemma {:induction false} PairsFirst(first: Said, b: seq<Said>)
    ensures PairsOn([first] + b) == [PairOf(first)] + PairsOn(b)
    decreases |b|
  {
    hide PairOf;
    var all := [first] + b;
    if b == [] {
      assert all == [first] && [first][..0] == [];
    } else {
      PairsFirst(first, b[..|b| - 1]);
      assert all[..|all| - 1] == [first] + b[..|b| - 1];
    }
  }
}
