// Lists behind a prefix, such as "values: 1, 2, 3": when there are too few colons for keys, the first one ends a prefix.
module PrefixedLists {
  import opened Tokens
  import opened Elements
  import opened Pairing
  import opened Pairs
  import opened Dfs
  import opened Discover
  import opened Boards
  import opened Fields
  import opened FieldFormats
  import opened FieldTrees
  import opened FieldPairing
  import Descent

  const PREFIXED := FORMAT_COMMA.(separator := Invalid, prefixTerminator := Colon)
  const BEHIND_PREFIX := FORMAT_COMMA
  const COMMAS := Style(Comma, Colon)

  // Something before a colon, and fields of which at least three have no key, the first one among them.
  predicate PrefixOk(head: seq<Tok>, colon: Tok, fs: seq<Field>)
  {
    && head != [] && (forall i | 0 <= i < |head| :: IsValueToken(head[i].token)) && colon.token.Colon?
    && fs != [] && FieldsOk(fs, COMMAS) && fs[0].Item? && Accepted(fs, COMMAS, true)
    && KeyedCount(fs) + 3 <= |fs|
  }

  function PrefixedToks(head: seq<Tok>, colon: Tok, fs: seq<Field>): seq<Tok>
  {
    head + [colon] + Stream(fs)
  }

  function PrefixedElems(head: seq<Tok>, colon: Tok, fs: seq<Field>): seq<Element>
  {
    LeafList(head + [colon]) + ListOf(fs)
  }

  // ---------- the format ----------

  lemma OddFormat(m: FormatState, ends: nat, seps: nat)
    requires Seen(m, COMMAS, ends, seps) && !Auto(m, COMMAS).DfsError? && 0 < seps < ends
    ensures Finalize(m).format == PREFIXED
  {}

  lemma HeadInner(head: seq<Tok>)
    requires forall i | 0 <= i < |head| :: IsValueToken(head[i].token)
    ensures forall i | 0 <= i < |head| :: IsInner(head[i].token, COMMAS) && !IsOpener(head[i].token)
    ensures AllFlat(head)
  {}

  lemma CommasStyle()
    ensures StyleOk(COMMAS) && !COMMAS.end.Semi? && COMMAS.end.Comma? && COMMAS.sep == Colon && COMMAS.end == Comma
  {}

  lemma PrefixSeen(head: seq<Tok>, colon: Tok)
    requires head != [] && (forall i | 0 <= i < |head| :: IsValueToken(head[i].token)) && colon.token.Colon?
    ensures
      var m := FoldFrom(INITIAL, head + [colon]);
      Seen(m, COMMAS, 0, 1) && Auto(m, COMMAS).DfsValue?
  {
    hide *;
    HeadInner(head);
    CommasStyle();
    NothingSeen(COMMAS);
    StartUnkeyed(Auto(INITIAL, COMMAS));
    SeenBare(INITIAL, COMMAS, head, 0, 0);
    var m := FoldFrom(INITIAL, head);
    NextStates(COMMAS, Auto(m, COMMAS), Colon);
    KeyCounts(COMMAS, Colon);
    KeyedRuns(Next(COMMAS, Auto(m, COMMAS), Colon), COMMAS);
    SeenStep(m, COMMAS, Colon, 0, 0);
    FoldOne(INITIAL, head, colon);
  }

  lemma StartUnkeyed(a: DfsState)
    ensures a.DfsInit? ==> Unkeyed(a, COMMAS)
  {}

  lemma PrefixedFormat(head: seq<Tok>, colon: Tok, fs: seq<Field>)
    requires PrefixOk(head, colon, fs)
    ensures FormatOf(TokenSeq(head + [colon] + LevelToks(fs))) == PREFIXED
  {
    hide *;
    PrefixParts(head, colon, fs);
    var m0 := FoldFrom(INITIAL, head + [colon]);
    var m := FoldFrom(INITIAL, head + [colon] + LevelToks(fs));
    PrefixSeen(head, colon);
    StartsHeaded(Auto(m0, COMMAS), fs);
    SeenLevel(m0, fs, COMMAS, true, 0, 1);
    FoldParts(INITIAL, head + [colon], LevelToks(fs));
    StageRuns(Auto(m, COMMAS), fs, COMMAS, true);
    OddFormat(m, |fs| - 1, 1 + KeyedCount(fs));
    FoldIsFold(head + [colon] + LevelToks(fs));
    FormatIsFinal(TokenSeq(head + [colon] + LevelToks(fs)));
  }

  lemma StartsHeaded(a: DfsState, fs: seq<Field>)
    requires a.DfsValue? && fs != [] && fs[0].Item?
    ensures Starting(a, fs, COMMAS, true)
  {}

  lemma PrefixParts(head: seq<Tok>, colon: Tok, fs: seq<Field>)
    requires PrefixOk(head, colon, fs)
    ensures head != [] && (forall i | 0 <= i < |head| :: IsValueToken(head[i].token)) && colon.token.Colon?
    ensures fs != [] && FieldsOk(fs, COMMAS) && fs[0].Item? && Accepted(fs, COMMAS, true)
    ensures KeyedCount(fs) + 3 <= |fs|
  {
    hide FieldsOk, Accepted, IsValueToken, KeyedCount;
  }

  // ---------- the list that is discovered ----------

  lemma PrefixedDiscovered(head: seq<Tok>, colon: Tok, fs: seq<Field>)
    requires PrefixOk(head, colon, fs)
    ensures Discovered(PrefixedToks(head, colon, fs)) == List(PREFIXED, PrefixedElems(head, colon, fs))
  {
    hide *;
    var toks, before := PrefixedToks(head, colon, fs), head + [colon];
    PrefixParts(head, colon, fs);
    PrefixedAre(head, colon, fs);
    StreamEnds(fs, COMMAS);
    HeadInner(head);
    ColonFlat(head, colon);
    EndsBehind(before, fs);
    Descent.MachineIsDescent(toks);
    ReadFlat(Invalid, [], [], before, Stream(fs));
    assert Stream(fs) + [] == Stream(fs);
    ReadFields(Invalid, LeafList(before), TokenSeq(before), fs, COMMAS, []);
    Nothing(LeafList(before), TokenSeq(before));
    TokenParts(before, LevelToks(fs));
    ReadEnd(PrefixedElems(head, colon, fs), TokenSeq(before + LevelToks(fs)));
    MessageRead(toks);
    PrefixedFormat(head, colon, fs);
  }

  lemma PrefixedAre(head: seq<Tok>, colon: Tok, fs: seq<Field>)
    ensures PrefixedToks(head, colon, fs) == head + [colon] + Stream(fs)
    ensures PrefixedElems(head, colon, fs) == LeafList(head + [colon]) + ListOf(fs)
  {}

  lemma EndsBehind(before: seq<Tok>, fs: seq<Field>)
    requires Descent.EndsWell(Stream(fs)) && before != [] && !IsOpener(before[|before| - 1].token)
    ensures Descent.EndsWell(before + Stream(fs))
  {
    hide Stream;
    var s := before + Stream(fs);
    assert s[|s| - 1] == if Stream(fs) == [] then before[|before| - 1] else Stream(fs)[|Stream(fs)| - 1];
  }

  lemma ColonFlat(head: seq<Tok>, colon: Tok)
    requires AllFlat(head) && colon.token.Colon?
    ensures AllFlat(head + [colon]) && !IsOpener(colon.token) && (head + [colon])[|head|] == colon
  {}

  // ---------- the loop over the list ----------

  lemma PrefixStep(stack: seq<Element>, e: Element)
    requires !e.token.Colon?
    ensures Step(State(PREFIXED, stack, []), e) == State(PREFIXED, stack + [e], [])
  {}

  // The colon behind the prefix makes all others separators.
  lemma PrefixEnd(stack: seq<Element>, e: Element)
    requires e.token.Colon?
    ensures Step(State(PREFIXED, stack, []), e) == State(BEHIND_PREFIX, stack, [])
  {}

  // Up to the colon everything is put on the stack as it is.
  lemma {:induction false} PrefixRun(stack: seq<Element>, list: seq<Element>)
    requires forall i | 0 <= i < |list| :: !list[i].token.Colon?
    ensures StepAll(State(PREFIXED, stack, []), list) == State(PREFIXED, stack + list, [])
    decreases |list|
  {
    hide Step;
    if list == [] {
      assert stack + list == stack;
    } else {
      var n := |list| - 1;
      PrefixRun(stack, list[..n]);
      PrefixStep(stack + list[..n], list[n]);
      assert stack + list[..n] + [list[n]] == stack + list;
    }
  }

  lemma HeadBase(head: seq<Tok>)
    requires forall i | 0 <= i < |head| :: IsValueToken(head[i].token)
    ensures IsBase(LeafList(head)) && |LeafList(head)| == |head|
    ensures forall i | 0 <= i < |head| :: !LeafList(head)[i].token.Colon? && !head[i].token.Group?
  {}

  lemma BehindSeparable(head: seq<Tok>, fs: seq<Field>)
    requires head != [] && IsBase(LeafList(head)) && fs != [] && fs[0].Item?
    ensures Separable(BEHIND_PREFIX, LeafList(head), fs, COMMAS)
  {
    hide KeyedCount, IsBase, IsSingle;
  }

  lemma PrefixedCollected(text: string, depth: nat, head: seq<Tok>, colon: Tok, fs: seq<Field>)
    requires PrefixOk(head, colon, fs)
    ensures Collect(text, depth, PREFIXED, PairedAll(text, depth, PrefixedElems(head, colon, fs))) == Told(depth, Board(fs))
  {
    hide *;
    var base, x := LeafList(head), Leaf(colon);
    var shown := base + [x] + Shown(fs);
    PrefixParts(head, colon, fs);
    PrefixedAre(head, colon, fs);
    HeadBase(head);
    OneMore(head, colon);
    ShownAll(text, depth, fs, COMMAS);
    PairedLeaves(text, depth, head + [colon]);
    PairedMore(text, depth, base + [x], ListOf(fs));
    ShownSettled(fs);
    LeavesSettled(head + [colon]);
    BothSettled(base + [x], Shown(fs));
    RunIsSteps(PREFIXED, shown);
    StepParts(State(PREFIXED, [], []), base + [x], Shown(fs));
    StepOne(State(PREFIXED, [], []), base, x);
    PrefixRun([], base);
    assert [] + base == base;
    PrefixEnd(base, x);
    BehindSeparable(head, fs);
    FieldsRun(BEHIND_PREFIX, base, fs, COMMAS);
    FieldsEnd(BEHIND_PREFIX, base, fs, COMMAS);
    BoardIsOk(text, fs);
    GatherTold(text, depth, base, Board(fs));
    StackKept(base, fs);
    CollectSome(text, depth, PREFIXED, shown);
  }

  lemma OneMore(head: seq<Tok>, colon: Tok)
    requires colon.token.Colon? && forall i | 0 <= i < |head| :: !head[i].token.Group?
    ensures LeafList(head + [colon]) == LeafList(head) + [Leaf(colon)] && Leaf(colon).token.Colon?
    ensures forall i | 0 <= i < |head + [colon]| :: !(head + [colon])[i].token.Group?
  {}

  lemma StackKept(base: seq<Element>, fs: seq<Field>)
    requires base != [] && fs != []
    ensures After(Behind(BEHIND_PREFIX, base, fs), fs[|fs| - 1].value).stack != []
  {
    hide Spread, Board, GroupOf, Components, KeyOfField;
  }

  // ---------- messages ----------

  lemma ManyPairs(fs: seq<Field>)
    requires |fs| > 1
    ensures Told(0, Board(fs)) == FieldPairs(fs)
  {
    BoardIsOk("", fs);
    hide Board, PairsOn;
  }

  lemma PrefixEndsAtColon()
    ensures PREFIXED.prefixTerminator.Colon?
  {}

  // The prefix is dropped, and the pairs are those of the fields behind it.
  lemma PrefixedParsed(text: string, head: seq<Tok>, colon: Tok, fs: seq<Field>)
    requires PrefixOk(head, colon, fs)
    ensures
      var d := Discovered(PrefixedToks(head, colon, fs));
      d.format.prefixTerminator.Colon? && Pairup(text, 0, d.format, d.elems).pairs == Cut(FieldPairs(fs))
  {
    hide *;
    PrefixParts(head, colon, fs);
    PrefixedDiscovered(head, colon, fs);
    PrefixedCollected(text, 0, head, colon, fs);
    PairupCut(text, 0, PREFIXED, PrefixedElems(head, colon, fs));
    ManyPairs(fs);
    PrefixEndsAtColon();
  }
}
