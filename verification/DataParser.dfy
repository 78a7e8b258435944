// The parser object: its stacks, the pairs it finds and the message template.
module DataParser {
  import opened Wrappers
  import opened Tokens
  import opened Elements
  import opened KeyScan
  import opened Pairs
  import opened PairsProof
  import opened PairBuilder
  import opened Template
  import opened Dfs
  import opened Discover
  import opened DiscoverProof
  import opened Fields
  import opened FieldPairing

  class Parser {
    const text: string
    const initOffset: nat
    var groupToken: seq<Token>
    var groupStack: seq<seq<Element>>
    // The format of the list at the bottom of groupStack.
    var format: Format
    var pairs: seq<Element>
    // The template is built only when a caller has asked for it.
    var msgFormat: Option<string>
    var msgFormatBegin: nat

    constructor (text: string, initOffset: nat, msgFormat: Option<string>)
      ensures this.text == text && this.initOffset == initOffset && this.msgFormat == msgFormat
      ensures groupToken == [] && groupStack == [] && pairs == [] && msgFormatBegin == initOffset
    {
      this.text, this.initOffset, this.msgFormat := text, initOffset, msgFormat;
      groupToken, groupStack, pairs, msgFormatBegin, format := [], [], [], initOffset, DEFAULT_FORMAT;
    }

    // One token: the bracket stacks grow or shrink, or the token joins the list on top.
    method AddToken(t: Tok, states: seq<FormatState>, ghost lo: int, ghost p: int)
      returns (stateStack: seq<FormatState>)
      requires Level(Machine(groupToken, groupStack, states)) && groupToken[0].Invalid?
      requires Laid(Flat(groupStack), lo, p) && TokOk(t, p) && (t.token.Unit? ==> Top(groupStack) != [])
      modifies this`groupToken, this`groupStack
      ensures Machine(groupToken, groupStack, stateStack)
           == Advance(Machine(old(groupToken), old(groupStack), states), t)
    {
      hide Laid, Flat, Finalize, Update, TokOk, Append, ClosedGroup;
      stateStack := Pop(states) + [Update(Top(states), t.token)];
      if IsOpener(t.token) {
        groupToken := groupToken + [t.token];
        groupStack := groupStack + [[]];
        stateStack := stateStack + [INITIAL];
      } else {
        if IsCloser(t.token) {
          CloserFollowsOpener(Top(groupToken), t.token);
        }
        if IsCloser(t.token) && Code(Top(groupToken)) == Code(t.token) - 1 {
          stateStack := CloseGroup(t, stateStack, lo, p);
        } else {
          TopLaid(groupStack, lo, p);
          var top := AppendToken(Top(groupStack), t, p);
          groupStack := Pop(groupStack) + [top];
        }
      }
    }

    // A token that opens or closes nothing, at the end of a list.
    static method AppendToken(elems: seq<Element>, t: Tok, ghost p: int) returns (list: seq<Element>)
      requires Laid(elems, Start(elems, p), p) && TokOk(t, p) && (t.token.Unit? ==> elems != [])
      ensures list == Append(elems, t)
    {
      hide Finalize;
      LeafPush(elems, t, p);
      hide Laid;
      list := elems;
      if t.token.EmptyContainer? {
        var dfs := Finalize(INITIAL);
        list := PushBack(list, Element(Invalid, -1, -1, Null));
        list := list[..|list| - 1] + [EmptyGroup(dfs.format, t.cb + 1)];
        assert Fold([]) == INITIAL && list == elems + [EmptyGroup(FormatOf([]), t.cb + 1)];
      } else if t.token.Unit? {
        UnitPush(list, Leaf(t), p);
        var measurement := [list[|list| - 1]];
        measurement := PushBack(measurement, Leaf(t));
        assert measurement == [elems[|elems| - 1], Leaf(t)];
        list := PushBack(list[..|list| - 1], Make(Measurement, measurement));
      } else {
        list := PushBack(list, Leaf(t));
      }
    }

    // A closing bracket that matches: the list on top becomes a group of the one below.
    method CloseGroup(t: Tok, states: seq<FormatState>, ghost lo: int, ghost p: int)
      returns (stateStack: seq<FormatState>)
      requires Level(Machine(groupToken, groupStack, states)) && groupToken[0].Invalid?
      requires Closes(Top(groupToken), t.token) && Laid(Flat(groupStack), lo, p)
      modifies this`groupToken, this`groupStack
      ensures
        var lists, group := Pop(old(groupStack)), ClosedGroup(Finalize(Top(states)).format, Top(old(groupStack)), t);
        && |old(groupStack)| > 1
        && groupToken == Pop(old(groupToken)) && stateStack == Pop(states)
        && groupStack == Pop(lists) + [Top(lists) + [group]]
    {
      hide Laid, Flat, Finalize;
      groupToken := Pop(groupToken);
      var groupFormat := Finalize(Top(states)).format;
      stateStack := Pop(states);
      var elems, below := Top(groupStack), Pop(groupStack);
      var parent := Top(below);
      if elems != [] {
        ParentPush(groupStack, groupFormat, lo, p);
        parent := PushBack(parent, MakeGroup(groupFormat, elems));
      } else {
        parent := PushBack(parent, Element(Invalid, -1, -1, Null));
        parent := parent[..|parent| - 1] + [EmptyGroup(groupFormat, t.cb)];
      }
      groupStack := Pop(below) + [parent];
    }

    // Folds the groups that were never closed into their parents; an empty one is dropped without
    // giving up its format state.
    method FlushGroups(states: seq<FormatState>, ghost lo: int, ghost hi: int)
      requires 0 < |groupStack| == |groupToken| == |states| && Laid(Flat(groupStack), lo, hi)
      modifies this`groupToken, this`groupStack, this`format
      ensures
        var (elems, left) := Flush(old(groupStack), states);
        groupStack == [elems] && format == Finalize(Top(left)).format
    {
      hide Laid, Flat, Finalize;
      ghost var result := Flush(groupStack, states);
      var stateStack := states;
      while |groupStack| > 1
        invariant 0 < |groupStack| == |groupToken| <= |stateStack|
        invariant Laid(Flat(groupStack), lo, hi) && Flush(groupStack, stateStack) == result
        decreases |groupStack|
      {
        groupToken := Pop(groupToken);
        var elems, below := Top(groupStack), Pop(groupStack);
        FlatTop(groupStack);
        if elems != [] {
          var groupFormat := Finalize(Top(stateStack)).format;
          stateStack := Pop(stateStack);
          ParentPush(groupStack, groupFormat, lo, hi);
          FlatParent(below, MakeGroup(groupFormat, elems));
          below := Pop(below) + [PushBack(Top(below), MakeGroup(groupFormat, elems))];
        } else {
          assert Flat(below) + elems == Flat(below);
        }
        groupStack := below;
      }
      format := Finalize(Top(stateStack)).format;
    }

    // Reads the tokens into a tree of groups; toks is everything the scanner returns.
    method DiscoverFormat(toks: seq<Tok>)
      requires groupToken == [] && groupStack == []
      requires TokensOk(toks, initOffset, |text|)
      modifies this`groupToken, this`groupStack, this`format
      ensures |groupStack| == 1 && List(format, groupStack[0]) == Discovered(toks)
    {
      hide Advanced, Advance, Finalize, Update, Laid, Flat, TokensOk, TokOk;
      groupToken := groupToken + [Invalid];
      groupStack := [[]];
      var stateStack := [INITIAL];
      var i := 0;
      StartHeight();
      while i < |toks|
        invariant 0 <= i <= |toks|
        invariant Machine(groupToken, groupStack, stateStack) == Advanced(toks[..i])
      {
        NextToken(toks, i, initOffset, |text|);
        stateStack := AddToken(toks[i], stateStack, initOffset, LastEnd(toks[..i], initOffset));
        i := i + 1;
      }
      assert toks[..i] == toks;
      LastToken(toks, initOffset, |text|);
      FlushGroups(stateStack, initOffset, |text|);
    }

    // Drops a quote at the end of a text, with the letter of a raw or unicode string before it, and a
    // quote at its start.
    static method DropQuotes(segment: string) returns (s: string)
      ensures s == Trimmed(segment)
    {
      var begin, end := 0, |segment|;
      if |segment| >= 2 {
        if IsQuote(segment[end - 1]) {
          end := end - 1;
          if segment[end - 1] == 'r' || segment[end - 1] == 'u' {
            end := end - 1;
          }
        }
        if IsQuote(segment[0]) {
          begin := 1;
          assert segment[..end][1..] == segment[1..end];
        }
      }
      s := segment[begin..end];
    }

    // The text up to the value of an element, less the quotes at its ends.
    method GetStringUpToValue(e: Element) returns (s: string)
      requires Within(text, ValueElem(e))
      modifies this`msgFormatBegin
      ensures s == UpToValue(text, old(msgFormatBegin), e) && msgFormatBegin == ValueElem(e).ce
    {
      hide Trimmed;
      var value := if e.token.Pair? && e.subs.List? && e.subs.elems != [] then e.subs.elems[|e.subs.elems| - 1] else e;
      s := "";
      if msgFormatBegin <= value.cb {
        s := DropQuotes(text[msgFormatBegin..value.cb]);
      }
      msgFormatBegin := value.ce;
    }

    // Appends the template of the pairs to the one asked for.
    method AppendTemplate(pairsOut: seq<Element>)
      requires msgFormat.Some? && AllWithin(text, pairsOut)
      modifies this`msgFormat, this`msgFormatBegin
      ensures msgFormat == Some(old(msgFormat).value + Render(text, old(msgFormatBegin), pairsOut).template)
    {
      hide UpToValue;
      ghost var begin := msgFormatBegin;
      var template := msgFormat.value;
      var i := 0;
      while i < |pairsOut|
        invariant 0 <= i <= |pairsOut| && msgFormatBegin == BeginAfter(begin, pairsOut, i)
        invariant template == old(msgFormat).value + RenderUpTo(text, begin, pairsOut, i).template
      {
        ghost var before := RenderUpTo(text, begin, pairsOut, i).template;
        var part := GetStringUpToValue(pairsOut[i]);
        template := template + part + "#";
        Regrouped(old(msgFormat).value, before, part + "#");
        assert template == old(msgFormat).value + before + (part + "#") && before + (part + "#") == before + part + "#";
        i := i + 1;
      }
      ghost var before := RenderUpTo(text, begin, pairsOut, i).template;
      var tail := "";
      if msgFormatBegin < |text| {
        var last := msgFormatBegin;
        if IsQuote(text[last]) {
          last := last + 1;
        }
        tail := text[last..];
      }
      Regrouped(old(msgFormat).value, before, tail);
      msgFormat := Some(template + tail);
    }

    // The whole parse of a message, for a parser that has not been used before.
    method Parse(toks: seq<Tok>)
      requires groupToken == [] && groupStack == [] && pairs == [] && msgFormatBegin == initOffset
      requires TokensOk(toks, initOffset, |text|)
      modifies this
      ensures
        var d := Discovered(toks);
        var all := Collect(text, 0, d.format, PairedAll(text, 0, d.elems));
        && pairs == Pairup(text, 0, d.format, d.elems).pairs
        && InOrder(text, initOffset, all)
        && msgFormat ==
           (if old(msgFormat).None? then None
            else Some(old(msgFormat).value + Render(text, initOffset, all).template))
    {
      hide Discovered, Pairup, Collect, PairedAll, Render, InOrder;
      DiscoverFormat(toks);
      ParseState(text, toks, initOffset);
      var pairsOut, left, fmt := CollectPairs(text, groupStack[0], format, 0, initOffset, |text|);
      PairupPairs(text, format, groupStack[0]);
      groupStack, format := [left], fmt;
      if msgFormat.Some? {
        OrderWithin(text, initOffset, pairsOut);
        AppendTemplate(pairsOut);
      }
      if |pairsOut| > MAX_PAIRS {
        pairsOut := pairsOut[..MAX_PAIRS];
      }
      pairs := pairsOut;
    }
  }

  lemma Regrouped(a: string, b: string, c: string)
    ensures a + b + c == a + (b + c)
  {}

  lemma OrderWithin(text: string, begin: nat, pairs: seq<Element>)
    requires InOrder(text, begin, pairs)
    ensures AllWithin(text, pairs)
  {}

  lemma PairupPairs(text: string, fmt: Format, list: seq<Element>)
    ensures
      var all := Collect(text, 0, fmt, PairedAll(text, 0, list));
      Pairup(text, 0, fmt, list).pairs == if |all| > MAX_PAIRS then all[..MAX_PAIRS] else all
  {}

  // The discovered list can be paired up, and the values of its pairs follow each other in the text.
  lemma ParseState(text: string, toks: seq<Tok>, lo: nat)
    requires TokensOk(toks, lo, |text|)
    ensures
      var d := Discovered(toks);
      && FormatOk(d.format) && FairlyLaid(d.elems, lo, |text|) && AreInput(d.elems)
      && InOrder(text, lo, Collect(text, 0, d.format, PairedAll(text, 0, d.elems)))
  {
    hide Discovered, Laid, FairlyLaid, Collect, PairedAll, ArePairs, Tree, Leaves, Subseq, InOrder, Kept;
    var d, hi := Discovered(toks), |text|;
    DiscoveredHolds(toks, lo, hi);
    LaidIsFair(d.elems, lo, hi);
    PairedAllSound(text, 0, d.elems, lo, hi);
    var paired := PairedAll(text, 0, d.elems);
    CollectSound(text, 0, d.format, paired, lo, hi);
    CollectShape(text, d.format, paired);
    LaidInOrder(text, lo, Collect(text, 0, d.format, paired));
  }

  // The template of a message has one hole for each pair, and filling the holes with the values gives the
  // message back exactly when no quote was dropped; so it always does for a message without quotes.
  lemma ParsedTemplate(text: string, toks: seq<Tok>, lo: nat)
    requires TokensOk(toks, lo, |text|)
    ensures
      var d := Discovered(toks);
      var all := Collect(text, 0, d.format, PairedAll(text, 0, d.elems));
      && InOrder(text, lo, all)
      && var f := Render(text, lo, all);
      && IsHoled(f) && |f.holes| == |all|
      && (Fill(f) == text[lo..] <==> KeepsAll(text, lo, all, |all|) && KeepsTail(text, lo, all))
      && ((forall i | lo <= i < |text| :: !IsQuote(text[i])) ==> Fill(f) == text[lo..])
  {
    hide Discovered, Collect, PairedAll, Render, InOrder, KeepsAll, KeepsTail, IsHoled, Fill, AllWithin;
    var d := Discovered(toks);
    var all := Collect(text, 0, d.format, PairedAll(text, 0, d.elems));
    ParseState(text, toks, lo);
    OrderWithin(text, lo, all);
    TemplateRoundTrip(text, lo, all);
    if forall i | lo <= i < |text| :: !IsQuote(text[i]) {
      UnquotedRoundTrip(text, lo, all);
    }
  }

  // All pairs of a message, before they are cut off.
  function MessagePairs(text: string, toks: seq<Tok>): seq<Element>
  {
    var d := Discovered(toks);
    Collect(text, 0, d.format, PairedAll(text, 0, d.elems))
  }

  // Filling the holes of its template gives the message back.
  ghost predicate Restored(text: string, lo: nat, pairs: seq<Element>)
    requires InOrder(text, lo, pairs)
  {
    IsHoled(Render(text, lo, pairs)) && Fill(Render(text, lo, pairs)) == text[lo..]
  }

  // The value of a field on its own is a single token, and a quote stands before it.
  predicate QuotedField(text: string, f: Field, lo: nat)
  {
    && f.Field? && f.value.Plain? && |Solid(f.value.toks)| == 1
    && var v := Solid(f.value.toks)[0];
    lo + 2 <= v.cb <= |text| && IsQuote(text[v.cb - 1])
  }

  // A field on its own whose value stands in quotes, as in a="b": its value is the token inside the quotes, and
  // the template keeps neither quote, so filling the hole never gives back the message.
  lemma QuoteIsLost(text: string, f: Field, st: Style, lo: nat)
    requires FieldsOk([f], st) && st.end.Comma? && QuotedField(text, f, lo) && TokensOk(Stream([f]), lo, |text|)
    ensures
      var all := MessagePairs(text, Stream([f]));
      |all| == 1 && InOrder(text, lo, all) && !Restored(text, lo, all)
  {
    hide *;
    OneWhole(text, f, st, lo);
    OneCollected(text, f, st);
    RestoredIff(text, Stream([f]), lo);
    QuoteBefore(text, f, st, lo);
  }

  // Its template exactly: the text before the quote, or before the letter of a raw or unicode string, a hole, and
  // the text behind the closing quote.
  lemma QuotedTemplate(text: string, f: Field, st: Style, lo: nat)
    requires FieldsOk([f], st) && st.end.Comma? && QuotedField(text, f, lo) && TokensOk(Stream([f]), lo, |text|)
    requires !IsQuote(text[lo])
    ensures
      var all, v := MessagePairs(text, Stream([f])), Solid(f.value.toks)[0];
      && 0 <= v.ce <= |text| && AllWithin(text, all)
      && var letter := if text[v.cb - 2] == 'r' || text[v.cb - 2] == 'u' then 1 else 0;
      var quote := if v.ce < |text| && IsQuote(text[v.ce]) then 1 else 0;
      Render(text, lo, all).template == text[lo..v.cb - 1 - letter] + "#" + text[v.ce + quote..]
  {
    hide Solid, FieldPairs, FieldsOk, TokensOk, Stream, MessagePairs, InOrder, Render, Trimmed, Tail, IsQuote, Whole,
      AllWithin;
    OneWhole(text, f, st, lo);
    OneCollected(text, f, st);
    RestoredIff(text, Stream([f]), lo);
    QuotedPair(text, f, st, lo);
    RenderQuoted(text, lo, FieldPairs([f]));
  }

  // The one pair holds the token in quotes.
  lemma QuotedPair(text: string, f: Field, st: Style, lo: nat)
    requires FieldsOk([f], st) && QuotedField(text, f, lo)
    ensures
      var ps, v := FieldPairs([f]), Solid(f.value.toks)[0];
      |ps| == 1 && ValueElem(ps[0]).cb == v.cb && ValueElem(ps[0]).ce == v.ce
  {
    hide Solid, FieldPairs, ValueOfField, KeyOfField, FieldsOk, IsQuote;
    OneValue(f, st);
    FieldPairAt([f], 0);
    OneValueElem(FieldPairs([f]), f);
  }

  lemma RenderQuoted(text: string, lo: nat, ps: seq<Element>)
    requires |ps| == 1 && InOrder(text, lo, ps)
    requires
      var e := ValueElem(ps[0]);
      lo + 2 <= e.cb <= |text| && IsQuote(text[e.cb - 1]) && !IsQuote(text[lo])
    ensures
      var e := ValueElem(ps[0]);
      && 0 <= e.ce <= |text| && AllWithin(text, ps)
      && var letter := if text[e.cb - 2] == 'r' || text[e.cb - 2] == 'u' then 1 else 0;
      var quote := if e.ce < |text| && IsQuote(text[e.ce]) then 1 else 0;
      Render(text, lo, ps).template == text[lo..e.cb - 1 - letter] + "#" + text[e.ce + quote..]
  {
    hide IsQuote, ValueElem, InOrder, Render, Trimmed, Tail;
    WithinAll(text, lo, ps);
    RenderSingle(text, lo, ps);
    BehindQuote(text, lo, ValueElem(ps[0]).cb);
    TailFrom(text, ValueElem(ps[0]).ce);
  }

  lemma OneValueElem(ps: seq<Element>, f: Field)
    requires f.Field? && ps != [] && ps[0] == Make(Pair, [KeyOfField(f), ValueOfField(f)])
    ensures ValueElem(ps[0]) == ValueOfField(f)
  {
    hide KeyOfField, ValueOfField;
  }

  lemma WithinAll(text: string, lo: nat, ps: seq<Element>)
    requires InOrder(text, lo, ps) && ps != []
    ensures AllWithin(text, ps) && lo <= ValueElem(ps[0]).cb <= ValueElem(ps[0]).ce <= |text|
  {
    assert BeginAfter(lo, ps, 0) <= ValueElem(ps[0]).cb && Within(text, ValueElem(ps[0]));
  }

  lemma RenderSingle(text: string, lo: nat, ps: seq<Element>)
    requires |ps| == 1 && AllWithin(text, ps) && lo <= ValueElem(ps[0]).cb <= ValueElem(ps[0]).ce <= |text|
    ensures
      var e := ValueElem(ps[0]);
      Render(text, lo, ps).template == Trimmed(text[lo..e.cb]) + "#" + Tail(text, e.ce)
  {
    hide Trimmed, Tail, ValueElem;
    assert RenderUpTo(text, lo, ps, 0) == Holed("", [], []);
  }

  lemma BehindQuote(text: string, lo: nat, cb: nat)
    requires lo + 2 <= cb <= |text| && IsQuote(text[cb - 1]) && !IsQuote(text[lo])
    ensures Trimmed(text[lo..cb]) == text[lo..cb - 1 - if text[cb - 2] == 'r' || text[cb - 2] == 'u' then 1 else 0]
  {
    var s := text[lo..cb];
    assert s[|s| - 1] == text[cb - 1] && s[|s| - 2] == text[cb - 2] && s[0] == text[lo];
    assert s[..|s| - 1] == text[lo..cb - 1] && s[..|s| - 2] == text[lo..cb - 2];
  }

  lemma TailFrom(text: string, at: nat)
    requires at <= |text|
    ensures
      var quote := if at < |text| && IsQuote(text[at]) then 1 else 0;
      at + quote <= |text| && Tail(text, at) == text[at + quote..]
  {}

  lemma RestoredIff(text: string, toks: seq<Tok>, lo: nat)
    requires TokensOk(toks, lo, |text|)
    ensures
      var all := MessagePairs(text, toks);
      && InOrder(text, lo, all)
      && (Restored(text, lo, all) <==> KeepsAll(text, lo, all, |all|) && KeepsTail(text, lo, all))
  {
    hide Discovered, Collect, PairedAll, Render, InOrder, KeepsAll, KeepsTail, IsHoled, Fill;
    ParsedTemplate(text, toks, lo);
  }

  lemma OneWhole(text: string, f: Field, st: Style, lo: nat)
    requires QuotedField(text, f, lo) && st.end.Comma?
    ensures Whole([f], st) && f.Field?
  {
    hide Solid, IsQuote, Guessed;
  }

  lemma OneCollected(text: string, f: Field, st: Style)
    requires FieldsOk([f], st) && Whole([f], st) && f.Field?
    ensures MessagePairs(text, Stream([f])) == FieldPairs([f])
  {
    hide FieldsOk, Whole, Stream, FieldPairs, Discovered, Collect, PairedAll;
    FieldsCollected(text, [f], st);
  }

  lemma QuoteBefore(text: string, f: Field, st: Style, lo: nat)
    requires FieldsOk([f], st) && QuotedField(text, f, lo) && InOrder(text, lo, FieldPairs([f]))
    ensures |FieldPairs([f])| == 1 && !KeepsAll(text, lo, FieldPairs([f]), 1)
  {
    var ps, v := FieldPairs([f]), Solid(f.value.toks)[0];
    hide Solid, IsQuote, FieldPairs, ValueElem, FieldsOk, InOrder;
    QuotedPair(text, f, st, lo);
    WithinAll(text, lo, ps);
    assert text[lo..v.cb][v.cb - lo - 1] == text[v.cb - 1];
  }

  lemma OneValue(f: Field, st: Style)
    requires FieldsOk([f], st) && f.value.Plain? && |Solid(f.value.toks)| == 1
    ensures ValueOfField(f) == Make(Value, [Leaf(Solid(f.value.toks)[0])])
  {
    var v := Solid(f.value.toks)[0];
    assert FieldOk([f][0], st);
    hide FieldOk, FieldsOk, Solid, Parts;
    assert LeafList([v]) == [Leaf(v)];
    OneToken(f, st);
    PartsLose([Leaf(v)]);
  }

  lemma OneToken(f: Field, st: Style)
    requires FieldOk(f, st) && f.value.Plain? && |Solid(f.value.toks)| == 1
    ensures Parts(LeafList(Solid(f.value.toks))) == LeafList(Solid(f.value.toks))
  {
    hide Solid, AllSkipped, IsKeyToken, IsPart;
    OnePart(LeafList(Solid(f.value.toks)));
  }

  const EXAMPLE_TEXT := "a=\"b\""
  const EXAMPLE_FIELD :=
    Field(Tok(Comma, 0, 0), [], Tok(Word, 0, 1), [], Tok(Equals, 1, 2), Plain([Tok(QuotedString, 3, 4)]))
  const EXAMPLE_STYLE := Style(Comma, Equals)

  lemma ExampleField()
    ensures FieldsOk([EXAMPLE_FIELD], EXAMPLE_STYLE) && QuotedField(EXAMPLE_TEXT, EXAMPLE_FIELD, 0)
    ensures EXAMPLE_STYLE.end.Comma?
  {
    hide *;
    ExampleStyle();
    ExampleFieldOk();
    OneField(EXAMPLE_FIELD, EXAMPLE_STYLE);
    ExampleQuoted();
  }

  lemma OneField(f: Field, st: Style)
    requires FieldOk(f, st) && StyleOk(st)
    ensures FieldsOk([f], st)
  {
    hide FieldOk, StyleOk;
  }

  lemma ExampleQuoted()
    ensures QuotedField(EXAMPLE_TEXT, EXAMPLE_FIELD, 0)
  {
    hide Solid, ContentOk, Parts, LeafList;
    var v := Tok(QuotedString, 3, 4);
    TokenValue(v, EXAMPLE_STYLE);
    assert EXAMPLE_FIELD.value == Plain([v]) && EXAMPLE_TEXT[2] == '"';
  }

  lemma ExampleStyle()
    ensures StyleOk(EXAMPLE_STYLE) && EXAMPLE_STYLE.end.Comma?
  {}

  lemma ExampleFieldOk()
    ensures FieldOk(EXAMPLE_FIELD, EXAMPLE_STYLE)
  {
    hide Solid, ContentOk, Parts, LeafList;
    TokenValue(Tok(QuotedString, 3, 4), EXAMPLE_STYLE);
  }

  lemma ExampleTokens()
    ensures TokensOk(Stream([EXAMPLE_FIELD]), 0, |EXAMPLE_TEXT|)
  {
    ExampleStream();
    hide Stream;
  }

  lemma ExampleStream()
    ensures Stream([EXAMPLE_FIELD]) == [Tok(Word, 0, 1), Tok(Equals, 1, 2), Tok(QuotedString, 3, 4)]
  {
    var f := EXAMPLE_FIELD;
    assert [f][..0] == [] && Stream([f]) == Stream([f][..0]) + Lead([f]) + Head(f) + ContentToks(f.value);
    assert Head(f) == [Tok(Word, 0, 1), Tok(Equals, 1, 2)] && Lead([f]) == [];
  }

  // The message a="b" is one of them.
  lemma QuotedExample()
    ensures TokensOk(Stream([EXAMPLE_FIELD]), 0, |EXAMPLE_TEXT|)
    ensures
      var all := MessagePairs(EXAMPLE_TEXT, Stream([EXAMPLE_FIELD]));
      InOrder(EXAMPLE_TEXT, 0, all) && !Restored(EXAMPLE_TEXT, 0, all)
  {
    hide *;
    ExampleField();
    ExampleTokens();
    QuoteIsLost(EXAMPLE_TEXT, EXAMPLE_FIELD, EXAMPLE_STYLE, 0);
  }

  // The pairs of a message: each is a key and one other element, in order within the text, and their
  // leaves are tokens of the message, none used twice and none out of order.
  lemma ParseSound(text: string, toks: seq<Tok>, lo: nat)
    requires TokensOk(toks, lo, |text|)
    ensures
      var d := Discovered(toks);
      var pairs := Pairup(text, 0, d.format, d.elems).pairs;
      && Laid(pairs, lo, |text|) && ArePairs(pairs) && |pairs| <= MAX_PAIRS
      && Subseq(Leaves(pairs), toks)
  {
    hide Discovered, Laid, FairlyLaid, Pairup, Tree, Leaves, Kept, ArePairs, Subseq;
    var d, hi := Discovered(toks), |text|;
    DiscoveredHolds(toks, lo, hi);
    LaidIsFair(d.elems, lo, hi);
    PairupSound(text, 0, d.format, d.elems, lo, hi);
    PairupShape(text, d.format, d.elems);
    LeavesInTree(d.elems);
    KeptInOrder(toks);
    var leaves := Leaves(Pairup(text, 0, d.format, d.elems).pairs);
    SubseqTrans(leaves, Leaves(d.elems), Tree(d.elems));
    SubseqTrans(leaves, Kept(toks), toks);
  }

  lemma TopLaid(lists: seq<seq<Element>>, lo: int, p: int)
    requires lists != [] && Laid(Flat(lists), lo, p)
    ensures Laid(Top(lists), Start(Top(lists), p), p)
  {
    FlatTop(lists);
    hide Flat, Laid;
    LaidSplit(Flat(Pop(lists)), Top(lists), lo, p);
  }

  lemma LeafPush(elems: seq<Element>, t: Tok, p: int)
    requires Laid(elems, Start(elems, p), p) && TokOk(t, p)
    ensures PushOk(elems, Leaf(t))
  {}

  lemma ParentPush(lists: seq<seq<Element>>, format: Format, lo: int, p: int)
    requires |lists| > 1 && Laid(Flat(lists), lo, p) && Top(lists) != []
    ensures PushOk(Top(Pop(lists)), MakeGroup(format, Top(lists)))
    ensures Copy(MakeGroup(format, Top(lists))) == MakeGroup(format, Top(lists))
    ensures Laid(Flat(Pop(lists)) + [MakeGroup(format, Top(lists))], lo, p)
  {
    var a, b := Flat(Pop(lists)), Top(lists);
    FlatTop(lists);
    LaidSplit(a, b, lo, p);
    FlatTop(Pop(lists));
    LaidSplit(Flat(Pop(Pop(lists))), Top(Pop(lists)), lo, b[0].cb);
    GroupLaid(format, b, Start(b, p), p);
    hide Flat, Laid;
    LaidConcat(a, [MakeGroup(format, b)], lo, Start(b, p), p);
  }

  lemma GroupLaid(format: Format, b: seq<Element>, lo: int, hi: int)
    requires b != [] && Laid(b, lo, hi)
    ensures Laid([MakeGroup(format, b)], lo, hi)
  {
    LaidIsFair(b, lo, hi);
    assert |b| > 1 ==> b[0].ce <= b[|b| - 1].cb;
    assert Ok(MakeGroup(format, b));
  }

  lemma UnitPush(top: seq<Element>, unit: Element, p: int)
    requires top != [] && Laid(top, Start(top, p), p) && p <= unit.cb && 0 <= unit.ce
    ensures PushOk([top[|top| - 1]], unit)
    ensures PushOk(top[..|top| - 1], Make(Measurement, [top[|top| - 1], unit]))
  {
    var n := |top|;
    assert n > 1 ==> top[n - 2].ce <= top[n - 1].cb;
  }

  // Before token i the lists of the machine are in order, and the token lies behind them.
  lemma NextToken(toks: seq<Tok>, i: nat, lo: int, hi: int)
    requires TokensOk(toks, lo, hi) && i < |toks|
    ensures
      var m, t, p := Advanced(toks[..i]), toks[i], LastEnd(toks[..i], lo);
      && Laid(Flat(m.lists), lo, p) && TokOk(t, p) && (t.token.Unit? ==> Top(m.lists) != [])
      && Advanced(toks[..i + 1]) == Advance(m, t)
  {
    hide Tree, Kept, TokensOk, TokOk, Laid, Flat, Advance, Advanced, OpenAfter, AreInput;
    var upTo := toks[..i + 1];
    TokensTake(toks, i + 1, lo, hi);
    TokensSplit(upTo, lo, hi);
    assert upTo[..i] == toks[..i];
    AdvancedStep(upTo);
    AdvancedHolds(toks[..i], lo, hi);
    TopEmpty(toks[..i]);
  }

  lemma TokensTake(toks: seq<Tok>, n: nat, lo: int, hi: int)
    requires TokensOk(toks, lo, hi) && n <= |toks|
    ensures TokensOk(toks[..n], lo, hi)
  {
    hide IsWide, IsTerminal, IsOpener;
    var s := toks[..n];
    assert forall i | 0 <= i < n :: s[i] == toks[i] && (FollowsToken(toks, i) ==> FollowsToken(s, i));
  }

  lemma LastToken(toks: seq<Tok>, lo: int, hi: int)
    requires TokensOk(toks, lo, hi)
    ensures Laid(Flat(Advanced(toks).lists), lo, hi)
  {
    AdvancedHolds(toks, lo, hi);
    hide Tree, Kept, TokensOk;
    LaidUp(Flat(Advanced(toks).lists), lo, LastEnd(toks, lo), hi);
  }
}
