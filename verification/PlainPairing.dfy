// Pairing up a list in the plain format tells exactly what is meant by it.
module PlainPairing {
  import opened Tokens
  import opened Elements
  import opened KeyScan
  import opened Pairing
  import opened Pairs
  import opened Dfs
  import opened Discover
  import opened Boards
  import opened Fields
  import opened FieldFormats
  import opened FieldTrees
  import opened FieldPairing
  import opened PlainLists
  import Descent

  // ---------- values taken apart ----------

  function ChunkRun(c: Chunk): seq<Element>
  {
    (if HasWord(c) then [Make(Key, [c.junk[|c.junk| - 1]])] else []) + [Make(Value, [c.value])]
  }

  function RunsOf(cs: seq<Chunk>): seq<Element>
  {
    if cs == [] then [] else RunsOf(cs[..|cs| - 1]) + ChunkRun(cs[|cs| - 1])
  }

  predicate ChunksOk(cs: seq<Chunk>)
  {
    forall i | 0 <= i < |cs| :: ChunkOk(cs[i])
  }

  lemma {:induction false} GluedRuns(cs: seq<Chunk>)
    requires ChunksOk(cs)
    ensures Runs(Glued(cs)) == RunsOf(cs)
    ensures cs != [] ==> Glued(cs) != [] && IsValue(Glued(cs)[|Glued(cs)| - 1].token)
    decreases |cs|
  {
    hide IsValue, Make;
    if cs == [] {
    } else {
      var n := |cs| - 1;
      var a, c, s := Glued(cs[..n]), cs[n], Glued(cs);
      assert ChunkOk(c);
      GluedRuns(cs[..n]);
      assert s[..|s| - 1] == a + c.junk && s[|s| - 1] == c.value;
      RunsPrefix(a + c.junk, |a|);
      assert (a + c.junk)[..|a|] == a;
      LastRun(a, c);
    }
  }

  lemma LastRun(a: seq<Element>, c: Chunk)
    requires ChunkOk(c) && (a != [] ==> IsValue(a[|a| - 1].token))
    ensures RunAt(a + c.junk + [c.value], |a + c.junk|) == ChunkRun(c)
  {
    var s := a + c.junk + [c.value];
    var i := |a + c.junk|;
    ValueIsNoWord();
    hide IsValue, Make;
    assert s[i] == c.value;
    if c.junk != [] {
      assert s[i - 1] == c.junk[|c.junk| - 1];
    } else if a != [] {
      assert s[i - 1] == a[|a| - 1];
    }
    assert ChunkRun(c) ==
      if HasWord(c) then [Make(Key, [c.junk[|c.junk| - 1]]), Make(Value, [c.value])] else [Make(Value, [c.value])];
  }

  lemma ValueIsNoWord()
    ensures forall t | IsValue(t) :: !t.Word? && !t.Symbol?
  {}

  lemma MadeTokens(s: seq<Element>)
    requires s != []
    ensures Make(Key, s).token.Key? && Make(Value, s).token.Value? && MakeBare(Key, s).token.Key?
  {}

  lemma ChunkSaid(text: string, b: seq<Said>, c: Chunk)
    requires BoardOk(text, b)
    ensures
      var b' := SayChunk(text, b, c);
      Spread(b') == Spread(b) + ChunkRun(c) && BoardOk(text, b') && !Awaits(b')
  {
    hide BoardOk, Spread, Awaits, AddKey, AddValue, Make;
    MadeTokens([c.value]);
    if HasWord(c) {
      var k := [c.junk[|c.junk| - 1]];
      MadeTokens(k);
      SpreadKey(text, b, Make(Key, k));
      SpreadValue(text, AddKey(text, b, Make(Key, k)), Make(Value, [c.value]));
      assert Spread(b) + [Make(Key, k)] + [Make(Value, [c.value])]
        == Spread(b) + ([Make(Key, k)] + [Make(Value, [c.value])]);
    } else {
      SpreadValue(text, b, Make(Value, [c.value]));
      assert [] + [Make(Value, [c.value])] == [Make(Value, [c.value])];
    }
  }

  lemma {:induction false} ChunksSaid(text: string, b: seq<Said>, cs: seq<Chunk>)
    requires BoardOk(text, b)
    ensures
      var b' := SayChunks(text, b, cs);
      Spread(b') == Spread(b) + RunsOf(cs) && BoardOk(text, b') && (cs != [] ==> !Awaits(b'))
    decreases |cs|
  {
    hide BoardOk, Spread, Awaits, SayChunk, ChunkRun;
    if cs == [] {
      assert Spread(b) + [] == Spread(b);
    } else {
      var n := |cs| - 1;
      ChunksSaid(text, b, cs[..n]);
      ChunkSaid(text, SayChunks(text, b, cs[..n]), cs[n]);
      assert Spread(b) + RunsOf(cs[..n]) + ChunkRun(cs[n]) == Spread(b) + RunsOf(cs);
    }
  }

  lemma {:induction false} FirstRun(cs: seq<Chunk>)
    requires cs != []
    ensures RunsOf(cs) != [] && (RunsOf(cs)[0].token.Key? <==> HasWord(cs[0]))
    decreases |cs|
  {
    var n := |cs| - 1;
    if n == 0 {
      assert RunsOf(cs[..0]) == [] && [] + ChunkRun(cs[0]) == ChunkRun(cs[0]);
    } else {
      hide HasWord, ChunkRun;
      FirstRun(cs[..n]);
    }
  }

  // What is taken apart goes on the stack as it is said.
  lemma ValuesSaid(text: string, b: seq<Said>, cs: seq<Chunk>)
    requires BoardOk(text, b) && cs != []
    ensures
      var b' := SayValues(text, b, cs);
      Absorb(Spread(b), RunsOf(cs)) == Spread(b') && BoardOk(text, b') && !Awaits(b')
  {
    FirstRun(cs);
    SpreadTop(text, b);
    hide Spread, RunsOf, SayChunks, HasWord, SaidOk;
    var c := if HasWord(cs[0]) && Awaits(b) then b[..|b| - 1] else b;
    assert Awaits(b) ==> Spread(b)[..|Spread(b)| - 1] == Spread(b[..|b| - 1]);
    if Awaits(b) {
      BoardSplit(text, b);
    }
    ChunksSaid(text, c, cs);
  }

  // ---------- the scan ----------

  predicate IsPlainFormat(fmt: Format)
  {
    fmt.appender.Invalid? && fmt.terminator.Invalid? && fmt.prefixTerminator.Invalid?
  }

  // Elements of a list without white space and commas.
  predicate CompsOk(s: seq<Element>)
  {
    forall i | 0 <= i < |s| :: !s[i].token.Invalid? && !IsSpace(s[i].token) && !s[i].token.Comma?
  }

  predicate ShapeOk(x: Stretch)
  {
    && ChunksOk(x.chunks) && CompsOk(Glued(x.chunks) + x.rest)
    && (if x.chunks == [] then NoValues(x.rest) || IsLoneId(x.rest)
        else NoValues(x.rest) && !IsLoneId(Glued(x.chunks) + x.rest))
  }

  lemma NoBreaks(fmt: Format, s: seq<Element>)
    requires IsPlainFormat(fmt) && CompsOk(s)
    ensures LastBreak(fmt, s) == -1
  {
    hide LastBreak, IsSpace;
  }

  lemma ScanRest(fmt: Format, stack: seq<Element>, x: Stretch)
    requires IsPlainFormat(fmt) && ShapeOk(x) && x.chunks == []
    ensures Scan(fmt, stack, x.rest) == Outcome(stack, x.rest, [], false, Keyless(x.rest), false)
  {
    assert Glued(x.chunks) + x.rest == x.rest;
    NoBreaks(fmt, x.rest);
    KeylessIs(x.rest);
    hide IsValue, LastBreak, LastValue, NoKeys, Keyless, IsKeyToken, IsPlainFormat, CompsOk;
    assert NoValues(x.rest) ==> LastValue(x.rest) == -1;
    assert IsLoneId(x.rest) ==> !TakesApart(fmt, stack, x.rest);
  }

  lemma KeylessIs(s: seq<Element>)
    ensures NoKeys(s) <==> Keyless(s)
  {
    forall i | 0 <= i < |s|
      ensures IsKeyToken(s[i].token) <==> IsKeyWord(s[i]) || s[i].token.Id?
    {
      KeyWords(s[i]);
    }
    hide IsKeyToken, IsKeyWord;
  }

  lemma ScanChunks(fmt: Format, stack: seq<Element>, x: Stretch)
    requires IsPlainFormat(fmt) && ShapeOk(x) && x.chunks != []
    ensures
      var comps := Glued(x.chunks) + x.rest;
      var o := Scan(fmt, stack, comps);
      && o.stack == Absorb(stack, RunsOf(x.chunks)) && o.value == [] && !o.found && o.mixed
      && o.comps == if EndsInWord(x.rest) then [x.rest[|x.rest| - 1]] else []
  {
    var a, comps := Glued(x.chunks), Glued(x.chunks) + x.rest;
    GluedRuns(x.chunks);
    NoBreaks(fmt, comps);
    LastIsValue(a, x.rest);
    assert comps[..|a|] == a;
    hide IsValue, LastBreak, LastValue, NoKeys, Runs, RunsOf, Glued, CompsOk, Absorb;
    assert TakesApart(fmt, stack, comps);
    assert comps[|comps| - 1] == if x.rest == [] then a[|a| - 1] else x.rest[|x.rest| - 1];
    ValueIsNoWord();
  }

  lemma LastIsValue(a: seq<Element>, rest: seq<Element>)
    requires a != [] && IsValue(a[|a| - 1].token) && NoValues(rest)
    ensures LastValue(a + rest) == |a| - 1
  {
    hide IsValue, LastValue;
    var s := a + rest;
    assert s[|a| - 1] == a[|a| - 1];
    assert forall i | |a| <= i < |s| :: s[i] == rest[i - |a|];
  }

  // ---------- what is pushed ----------

  lemma OnePushed(e: Element, mixed: bool)
    requires CompsOk([e])
    ensures KeyOf([e], mixed, false) == [MakeBare(Key, [e])] && KeyOf([e], mixed, true) == [Make(Value, [e])]
  {
    assert [e][0] == e;
    StrippedAlone(e);
    hide IsSpace, Stripped;
    assert [e][0..] == [e];
  }

  lemma AllPushed(s: seq<Element>)
    requires CompsOk(s) && s != []
    ensures ValueOf(s) == [Make(Value, s)] && QualifierValue(s) == [Make(Value, s)]
    ensures KeyOf(s, false, true) == [Make(Value, s)] && KeyOf(s, false, false) == [MakeBare(Key, s)]
  {
    NoSpaces(s);
    NoCommas(s);
    hide Stripped, WithoutCommas, IsSpace;
  }

  lemma CompsParts(s: seq<Element>, t: seq<Element>)
    requires CompsOk(s + t)
    ensures CompsOk(s) && CompsOk(t)
  {
    hide IsSpace;
    assert forall i | 0 <= i < |s| :: (s + t)[i] == s[i];
    assert forall i | 0 <= i < |t| :: (s + t)[|s| + i] == t[i];
  }

  lemma CompsInit(s: seq<Element>)
    requires CompsOk(s) && s != []
    ensures CompsOk(s[..|s| - 1]) && CompsOk([s[|s| - 1]])
  {
    assert s == s[..|s| - 1] + [s[|s| - 1]];
    CompsParts(s[..|s| - 1], [s[|s| - 1]]);
    hide CompsOk;
  }

  // What a separator or a bracket e adds to the stack for the text before it.
  lemma KeySaid(text: string, fmt: Format, b: seq<Said>, x: Stretch, e: Element)
    requires IsPlainFormat(fmt) && ShapeOk(x) && BoardOk(text, b)
    ensures
      var b' := SayKey(text, b, x);
      && AtSeparator(fmt, Spread(b), Glued(x.chunks) + x.rest, e) == (Spread(b') + GroupValue(e), [])
      && BoardOk(text, b')
  {
    hide *;
    SpreadTop(text, b);
    if x.chunks != [] {
      KeyBehindChunks(text, fmt, b, x, e);
    } else {
      RestAlone(x);
      if x.rest == [] {
        NothingBefore(text, fmt, b, x, e);
      } else if b == [] {
        KeyAtStart(text, fmt, b, x, e);
      } else {
        KeyBehindRest(text, fmt, b, x, e);
      }
    }
  }

  lemma RestAlone(x: Stretch)
    ensures x.chunks == [] ==> Glued(x.chunks) + x.rest == x.rest
  {}

  // The pieces a separator puts together when the format has neither appender nor terminator.
  lemma SeparatorPushes(fmt: Format, stack: seq<Element>, comps: seq<Element>, e: Element)
    requires IsPlainFormat(fmt)
    ensures
      var o := Scan(fmt, stack, comps);
      var n := |o.comps|;
      var split := !o.found && !o.mixed && o.stack != [] && o.comps != [];
      var value := if split then o.comps[..n - 1] else o.value;
      var keys := if split then o.comps[n - 1..] else o.comps;
      AtSeparator(fmt, stack, comps, e) ==
        (o.stack + ValueOf(value) + KeyOf(keys, o.mixed, o.keyIsValues && !o.mixed) + GroupValue(e), [])
  {
    hide Scan, ValueOf, KeyOf, GroupValue;
  }

  lemma KeyBehindChunks(text: string, fmt: Format, b: seq<Said>, x: Stretch, e: Element)
    requires IsPlainFormat(fmt) && ShapeOk(x) && BoardOk(text, b) && x.chunks != []
    ensures
      var b' := SayKey(text, b, x);
      && AtSeparator(fmt, Spread(b), Glued(x.chunks) + x.rest, e) == (Spread(b') + GroupValue(e), [])
      && BoardOk(text, b')
  {
    var b1, n := SayValues(text, b, x.chunks), |x.rest| - 1;
    ScanChunks(fmt, Spread(b), x);
    SeparatorPushes(fmt, Spread(b), Glued(x.chunks) + x.rest, e);
    ValuesSaid(text, b, x.chunks);
    NothingPushed();
    CompsParts(Glued(x.chunks), x.rest);
    if EndsInWord(x.rest) {
      CompsInit(x.rest);
      OnePushed(x.rest[n], true);
      MadeTokens([x.rest[n]]);
      SpreadKey(text, b1, MakeBare(Key, [x.rest[n]]));
    }
    hide Scan, AtSeparator, ValueOf, KeyOf, GroupValue, Spread, BoardOk, Glued, SayValues, ShapeOk, AddKey, MakeBare,
      RunsOf, Absorb, IsPlainFormat, CompsOk, EndsInWord;
    assert Spread(b1) + [] == Spread(b1);
  }

  lemma NothingBefore(text: string, fmt: Format, b: seq<Said>, x: Stretch, e: Element)
    requires IsPlainFormat(fmt) && ShapeOk(x) && BoardOk(text, b) && x.chunks == [] && x.rest == []
    ensures SayKey(text, b, x) == b && AtSeparator(fmt, Spread(b), [], e) == (Spread(b) + GroupValue(e), [])
  {
    ScanRest(fmt, Spread(b), x);
    SeparatorPushes(fmt, Spread(b), [], e);
    NothingPushed();
    hide Scan, AtSeparator, ValueOf, KeyOf, GroupValue, Spread, BoardOk, ShapeOk, IsPlainFormat;
    assert Spread(b) + [] + [] == Spread(b);
  }

  lemma RestOk(x: Stretch)
    requires ShapeOk(x) && x.chunks == []
    ensures CompsOk(x.rest)
  {
    RestAlone(x);
  }

  // What is meant by text without values, case by case.
  lemma SayKeyCases(text: string, b: seq<Said>, x: Stretch)
    requires x.chunks == [] && x.rest != []
    ensures
      var r, n := x.rest, |x.rest| - 1;
      var b1 := if n > 0 then AddValue(b, Make(Value, r[..n])) else b;
      SayKey(text, b, x) ==
        if b == [] then if Keyless(r) then AddValue(b, Make(Value, r)) else AddKey(text, b, MakeBare(Key, r))
        else if Keyless(r) then AddValue(b1, Make(Value, [r[n]]))
        else AddKey(text, b1, MakeBare(Key, [r[n]]))
  {
    hide AddValue, AddKey, Make, MakeBare, Keyless;
  }

  lemma KeyAtStart(text: string, fmt: Format, b: seq<Said>, x: Stretch, e: Element)
    requires IsPlainFormat(fmt) && ShapeOk(x) && BoardOk(text, b) && x.chunks == [] && x.rest != []
    requires b == [] && Spread(b) == []
    ensures
      var b' := SayKey(text, b, x);
      && AtSeparator(fmt, Spread(b), x.rest, e) == (Spread(b') + GroupValue(e), []) && BoardOk(text, b')
  {
    hide *;
    ScanRest(fmt, Spread(b), x);
    SeparatorPushes(fmt, Spread(b), x.rest, e);
    NothingPushed();
    RestOk(x);
    AllPushed(x.rest);
    MadeTokens(x.rest);
    SayKeyCases(text, b, x);
    assert Spread(b) + [] == Spread(b);
    if Keyless(x.rest) {
      SpreadValue(text, b, Make(Value, x.rest));
    } else {
      SpreadKey(text, b, MakeBare(Key, x.rest));
    }
  }

  lemma KeyBehindRest(text: string, fmt: Format, b: seq<Said>, x: Stretch, e: Element)
    requires IsPlainFormat(fmt) && ShapeOk(x) && BoardOk(text, b) && x.chunks == [] && x.rest != []
    requires b != [] && Spread(b) != []
    ensures
      var b' := SayKey(text, b, x);
      && AtSeparator(fmt, Spread(b), x.rest, e) == (Spread(b') + GroupValue(e), []) && BoardOk(text, b')
  {
    hide *;
    var r, n := x.rest, |x.rest| - 1;
    var b1 := if n > 0 then AddValue(b, Make(Value, r[..n])) else b;
    ScanRest(fmt, Spread(b), x);
    SeparatorPushes(fmt, Spread(b), r, e);
    RestOk(x);
    CompsInit(r);
    OnePushed(r[n], false);
    MadeTokens([r[n]]);
    SayKeyCases(text, b, x);
    BeforeLast(text, b, r);
    assert r[n..] == [r[n]];
    if Keyless(r) {
      SpreadValue(text, b1, Make(Value, [r[n]]));
    } else {
      SpreadKey(text, b1, MakeBare(Key, [r[n]]));
    }
  }

  // All but the last element answer the key before the text.
  lemma BeforeLast(text: string, b: seq<Said>, r: seq<Element>)
    requires BoardOk(text, b) && CompsOk(r) && r != []
    ensures
      var n := |r| - 1;
      var b1 := if n > 0 then AddValue(b, Make(Value, r[..n])) else b;
      Spread(b1) == Spread(b) + ValueOf(r[..n]) && BoardOk(text, b1)
  {
    hide *;
    var n := |r| - 1;
    CompsInit(r);
    if n > 0 {
      AllPushed(r[..n]);
      MadeTokens(r[..n]);
      SpreadValue(text, b, Make(Value, r[..n]));
    } else {
      NothingPushed();
      assert r[..n] == [] && Spread(b) + [] == Spread(b);
    }
  }

  // What the end of the list adds.
  lemma EndSaid(text: string, fmt: Format, b: seq<Said>, x: Stretch)
    requires IsPlainFormat(fmt) && ShapeOk(x) && BoardOk(text, b)
    ensures
      var b' := SayEnd(text, b, x);
      AtEnd(fmt, Spread(b), Glued(x.chunks) + x.rest) == Spread(b') && BoardOk(text, b')
  {
    hide *;
    SpreadTop(text, b);
    if x.chunks != [] {
      EndBehindChunks(text, fmt, b, x);
    } else {
      RestAlone(x);
      if x.rest == [] {
        NothingEnds(fmt, Spread(b));
        NothingSaid(text, b, x);
      } else {
        EndBehindRest(text, fmt, b, x);
      }
    }
  }

  lemma NothingSaid(text: string, b: seq<Said>, x: Stretch)
    requires x.chunks == [] && x.rest == []
    ensures SayEnd(text, b, x) == b
  {}

  lemma EndBehindChunks(text: string, fmt: Format, b: seq<Said>, x: Stretch)
    requires IsPlainFormat(fmt) && ShapeOk(x) && BoardOk(text, b) && x.chunks != []
    ensures
      var b' := SayEnd(text, b, x);
      AtEnd(fmt, Spread(b), Glued(x.chunks) + x.rest) == Spread(b') && BoardOk(text, b')
  {
    var b1, n := SayValues(text, b, x.chunks), |x.rest| - 1;
    ScanChunks(fmt, Spread(b), x);
    ValuesSaid(text, b, x.chunks);
    NothingPushed();
    CompsParts(Glued(x.chunks), x.rest);
    if EndsInWord(x.rest) {
      CompsInit(x.rest);
      OnePushed(x.rest[n], true);
      MadeTokens([x.rest[n]]);
      SpreadValue(text, b1, Make(Value, [x.rest[n]]));
    }
    hide Scan, ValueOf, KeyOf, Spread, BoardOk, Glued, SayValues, ShapeOk, AddValue, Make,
      RunsOf, Absorb, IsPlainFormat, CompsOk, EndsInWord, IsKeyed;
    assert Spread(b1) + [] == Spread(b1);
  }

  lemma SayEndCases(text: string, b: seq<Said>, x: Stretch)
    requires x.chunks == [] && x.rest != []
    ensures
      var r := x.rest;
      SayEnd(text, b, x) ==
        if b != [] && !Awaits(b) && |r| == 2 && (IsKeyWord(r[0]) || r[0].token.Id?) then
          AddValue(AddKey(text, b, MakeBare(Key, [r[0]])), Make(Value, [r[1]]))
        else AddValue(b, Make(Value, r))
  {
    KeyWords(x.rest[0]);
    hide AddValue, AddKey, Make, MakeBare, IsKeyWord, IsKeyToken, Awaits;
  }

  // The pieces the end of a list puts together without a scan that took values apart.
  lemma EndPushes(fmt: Format, stack: seq<Element>, comps: seq<Element>)
    requires
      var o := Scan(fmt, stack, comps);
      !o.mixed && o.stack == stack && o.value == [] && o.comps == comps && comps != []
    ensures AtEnd(fmt, stack, comps) ==
      if stack == [] then ValueOf([]) + KeyOf(comps, false, true)
      else if |comps| == 2 && (IsKeyWord(comps[0]) || comps[0].token.Id?) && !stack[|stack| - 1].token.Key? then
        stack + [MakeBare(Key, comps[..1])] + ValueOf(comps[1..])
      else stack + ValueOf(comps)
  {
    hide Scan, ValueOf, KeyOf, IsKeyWord, MakeBare;
    assert [] + comps == comps;
    assert stack == [] ==> stack + ValueOf([]) + KeyOf(comps, false, true) == ValueOf([]) + KeyOf(comps, false, true);
  }

  lemma EndBehindRest(text: string, fmt: Format, b: seq<Said>, x: Stretch)
    requires IsPlainFormat(fmt) && ShapeOk(x) && BoardOk(text, b) && x.chunks == [] && x.rest != []
    requires Spread(b) == [] <==> b == []
    requires b != [] ==> (Spread(b)[|Spread(b)| - 1].token.Key? <==> Awaits(b))
    ensures
      var b' := SayEnd(text, b, x);
      AtEnd(fmt, Spread(b), x.rest) == Spread(b') && BoardOk(text, b')
  {
    hide *;
    var r := x.rest;
    ScanRest(fmt, Spread(b), x);
    EndPushes(fmt, Spread(b), r);
    NothingPushed();
    RestOk(x);
    AllPushed(r);
    MadeTokens(r);
    SayEndCases(text, b, x);
    SpreadValue(text, b, Make(Value, r));
    assert Spread(b) == [] ==> [] + [Make(Value, r)] == Spread(b) + [Make(Value, r)];
    if |r| == 2 {
      TwoSaid(text, b, r);
    }
  }

  lemma TwoSaid(text: string, b: seq<Said>, r: seq<Element>)
    requires BoardOk(text, b) && CompsOk(r) && |r| == 2
    ensures
      var b' := AddValue(AddKey(text, b, MakeBare(Key, [r[0]])), Make(Value, [r[1]]));
      Spread(b') == Spread(b) + [MakeBare(Key, r[..1])] + ValueOf(r[1..]) && BoardOk(text, b')
  {
    hide *;
    var k := MakeBare(Key, [r[0]]);
    assert r == [r[0]] + [r[1]] && r[..1] == [r[0]] && r[1..] == [r[1]];
    CompsParts([r[0]], [r[1]]);
    AllPushed([r[1]]);
    MadeTokens([r[0]]);
    MadeTokens([r[1]]);
    SpreadKey(text, b, k);
    SpreadValue(text, AddKey(text, b, k), Make(Value, [r[1]]));
  }

  // ---------- the run ----------

  function TextShown(text: seq<Content>): seq<Element>
  {
    if text == [] then [] else TextShown(text[..|text| - 1]) + ShownContent(text[|text| - 1])
  }

  function StopShown(x: Stop): seq<Element>
  {
    match x
    case Mark(tok) => [Leaf(tok)]
    case Bracket(group) => ShownContent(group)
  }

  function PiecesShown(ps: seq<Piece>): seq<Element>
  {
    if ps == [] then []
    else
      var n := |ps| - 1;
      PiecesShown(ps[..n]) + TextShown(ps[n].before.text) + StopShown(ps[n].stop)
  }

  predicate TextOk(text: seq<Content>, st: Style)
  {
    forall i | 0 <= i < |text| :: ContentOk(text[i], st) && !text[i].Nested?
  }

  predicate PlainStyle(st: Style)
  {
    st.end.Comma? && (st.sep.Colon? || st.sep.Equals?)
  }

  lemma FormatIsPlain(st: Style)
    requires PlainStyle(st)
    ensures ListFormat(FormatOfPlain(st), st) && IsPlainFormat(FormatOfPlain(st)) && FormatOfPlain(st).separator == st.sep
  {}

  lemma {:induction false} StepText(s: State, text: seq<Content>, st: Style)
    requires ListFormat(s.fmt, st) && TextOk(text, st)
    ensures StepAll(s, TextShown(text)) == State(s.fmt, s.stack, s.comps + TextComps(text))
    decreases |text|
  {
    hide Step, ListFormat, ShownContent, Components, ContentOk;
    if text == [] {
      assert s.comps + [] == s.comps;
    } else {
      var n := |text| - 1;
      StepText(s, text[..n], st);
      StepParts(s, TextShown(text[..n]), ShownContent(text[n]));
      ContentStep(State(s.fmt, s.stack, s.comps + TextComps(text[..n])), text[n], st);
      assert s.comps + TextComps(text[..n]) + Components(text[n]) == s.comps + TextComps(text);
    }
  }

  lemma BitIsComp(t: Token, st: Style)
    requires PlainStyle(st) && IsBit(t, st)
    ensures !t.Invalid? && !IsSpace(t) && !t.Comma?
  {}

  lemma ComponentsOk(v: Content, st: Style)
    requires PlainStyle(st) && ContentOk(v, st) && !v.Nested?
    ensures CompsOk(Components(v))
  {
    ComponentParts(v, st);
    forall i | 0 <= i < |Components(v)|
      ensures !Components(v)[i].token.Invalid? && !IsSpace(Components(v)[i].token) && !Components(v)[i].token.Comma?
    {
      BitIsComp(Components(v)[i].token, st);
    }
    hide IsSpace, Components, AllParts;
  }

  lemma {:induction false} TextCompsOk(text: seq<Content>, st: Style)
    requires PlainStyle(st) && TextOk(text, st)
    ensures CompsOk(TextComps(text))
    decreases |text|
  {
    hide ContentOk, Components, IsSpace;
    if text == [] {
    } else {
      TextCompsOk(text[..|text| - 1], st);
      ComponentsOk(text[|text| - 1], st);
    }
  }

  lemma StretchShape(x: Stretch, st: Style)
    requires PlainStyle(st) && StretchOk(x, st)
    ensures ShapeOk(x) && TextOk(x.text, st) && TextComps(x.text) == Glued(x.chunks) + x.rest
  {
    assert TextOk(x.text, st) by {
      hide ContentOk;
    }
    TextCompsOk(x.text, st);
    hide ContentOk, CompsOk, TextComps, Glued, NoValues, IsLoneId, ChunkOk;
  }

  lemma SeparatorStep(s: State, e: Element)
    requires IsPlainFormat(s.fmt) && (e.token == s.fmt.separator || e.token.Group?)
    requires e.token != s.fmt.qualifier && !e.token.Invalid?
    ensures
      var r := AtSeparator(s.fmt, s.stack, s.comps, e);
      Step(s, e) == State(s.fmt, r.0, r.1)
  {
    hide AtSeparator, AtEnd, QualifierValue;
  }

  lemma QualifierStep(s: State, e: Element)
    requires IsPlainFormat(s.fmt) && e.token == s.fmt.qualifier && !e.token.Invalid?
    ensures Step(s, e) == State(s.fmt, s.stack + QualifierValue(s.comps), [])
  {
    hide AtSeparator, AtEnd, QualifierValue;
  }

  lemma AllSaid(text: string, b: seq<Said>, x: Stretch)
    requires BoardOk(text, b) && ShapeOk(x)
    ensures Spread(SayAll(b, x)) == Spread(b) + QualifierValue(Glued(x.chunks) + x.rest) && BoardOk(text, SayAll(b, x))
  {
    var all := Glued(x.chunks) + x.rest;
    if all == [] {
      assert Spread(b) + [] == Spread(b);
    } else {
      AllPushed(all);
      MadeTokens(all);
      SpreadValue(text, b, Make(Value, all));
    }
    hide Spread, BoardOk, AddValue, Make, QualifierValue, Glued, ShapeOk;
  }

  lemma MarkCases(p: Piece, st: Style)
    requires PieceOk(p, st) && PlainStyle(st)
    ensures StretchOk(p.before, st)
    ensures p.stop.Mark? ==>
      var t, fmt := p.stop.tok.token, FormatOfPlain(st);
      && !t.Invalid? && !t.Group?
      && (t == st.sep ==> t == fmt.separator && t != fmt.qualifier)
      && (t != st.sep ==> t == fmt.qualifier)
    ensures p.stop.Bracket? ==> p.stop.group.Nested? && ContentOk(p.stop.group, st)
  {
    hide ContentOk, StretchOk;
  }

  lemma NoGroupValue(e: Element)
    ensures !e.token.Group? ==> GroupValue(e) == []
    ensures e.token.Group? ==> GroupValue(e) == [Make(Value, [e])]
  {}

  lemma SayPieceCases(text: string, b: seq<Said>, p: Piece, st: Style)
    ensures p.stop.Mark? ==>
      SayPiece(text, b, p, st) == if p.stop.tok.token == st.sep then SayKey(text, b, p.before) else SayAll(b, p.before)
    ensures p.stop.Bracket? && p.stop.group.Nested? ==>
      SayPiece(text, b, p, st) == AddValue(SayKey(text, b, p.before), Make(Value, [GroupOf(p.stop.group)]))
  {
    hide SayKey, SayAll, AddValue, GroupOf, Make;
  }

  // One piece: what it says goes on the stack.
  lemma PieceStep(text: string, b: seq<Said>, p: Piece, st: Style)
    requires PlainStyle(st) && PieceOk(p, st) && BoardOk(text, b)
    ensures
      var b' := SayPiece(text, b, p, st);
      && StepAll(State(FormatOfPlain(st), Spread(b), []), TextShown(p.before.text) + StopShown(p.stop)) ==
           State(FormatOfPlain(st), Spread(b'), [])
      && BoardOk(text, b')
  {
    hide *;
    var fmt, x := FormatOfPlain(st), p.before;
    var s0 := State(fmt, Spread(b), []);
    var s := State(fmt, Spread(b), Glued(x.chunks) + x.rest);
    FormatIsPlain(st);
    MarkCases(p, st);
    StretchShape(x, st);
    StepText(s0, x.text, st);
    assert [] + TextComps(x.text) == TextComps(x.text);
    StepParts(s0, TextShown(x.text), StopShown(p.stop));
    SayPieceCases(text, b, p, st);
    StopCases(p.stop);
    if p.stop.Mark? {
      var e := Leaf(p.stop.tok);
      LeafToken(p.stop.tok);
      StepOne(s, [], e);
      StepNone(s);
      assert [] + [e] == [e];
      NoGroupValue(e);
      if p.stop.tok.token == st.sep {
        KeySaid(text, fmt, b, x, e);
        SeparatorStep(s, e);
        assert Spread(SayKey(text, b, x)) + [] == Spread(SayKey(text, b, x));
      } else {
        QualifierStep(s, e);
        AllSaid(text, b, x);
      }
    } else {
      BracketStep(text, b, x, p.stop.group, st);
    }
  }

  lemma LeafToken(t: Tok)
    ensures Leaf(t).token == t.token
  {}

  lemma StopCases(x: Stop)
    ensures x.Mark? ==> StopShown(x) == [Leaf(x.tok)]
    ensures x.Bracket? ==> StopShown(x) == ShownContent(x.group)
  {
    hide ShownContent;
  }

  lemma BracketStep(text: string, b: seq<Said>, x: Stretch, v: Content, st: Style)
    requires PlainStyle(st) && v.Nested? && ContentOk(v, st) && ShapeOk(x) && BoardOk(text, b)
    ensures
      var fmt, e := FormatOfPlain(st), GroupOf(v);
      var b' := AddValue(SayKey(text, b, x), Make(Value, [e]));
      && StepAll(State(fmt, Spread(b), Glued(x.chunks) + x.rest), ShownContent(v)) == State(fmt, Spread(b'), [])
      && BoardOk(text, b')
  {
    hide *;
    var fmt, e, b1 := FormatOfPlain(st), GroupOf(v), SayKey(text, b, x);
    var s := State(fmt, Spread(b), Glued(x.chunks) + x.rest);
    FormatIsPlain(st);
    ContentSpaces(v, st);
    GroupToken(v);
    GroupSep(e, fmt, st);
    StepSpaces(s, v.before, st);
    StepOne(s, LeafList(v.before), e);
    KeySaid(text, fmt, b, x, e);
    SeparatorStep(s, e);
    NoGroupValue(e);
    MadeTokens([e]);
    SpreadValue(text, b1, Make(Value, [e]));
    StepParts(s, LeafList(v.before) + [e], LeafList(v.after));
    StepSpaces(State(fmt, Spread(b1) + [Make(Value, [e])], []), v.after, st);
  }

  lemma GroupSep(e: Element, fmt: Format, st: Style)
    requires e.token.Group? && fmt == FormatOfPlain(st)
    ensures e.token != fmt.qualifier && !e.token.Invalid?
  {}

  lemma ContentSpaces(v: Content, st: Style)
    requires v.Nested? && ContentOk(v, st)
    ensures AllSkipped(v.before) && AllSkipped(v.after)
    ensures ShownContent(v) == LeafList(v.before) + [GroupOf(v)] + LeafList(v.after)
  {
    hide FieldsOk, Whole, GroupOf;
  }

  predicate AllPiecesOk(ps: seq<Piece>, st: Style)
  {
    forall i | 0 <= i < |ps| :: PieceOk(ps[i], st)
  }

  lemma {:induction false} PiecesRun(text: string, ps: seq<Piece>, st: Style)
    requires PlainStyle(st) && AllPiecesOk(ps, st)
    ensures
      var b := SayPieces(text, ps, st);
      && StepAll(State(FormatOfPlain(st), [], []), PiecesShown(ps)) == State(FormatOfPlain(st), Spread(b), [])
      && BoardOk(text, b)
    decreases |ps|
  {
    hide Step, PieceOk, SayPiece, TextShown, StopShown, BoardOk, FormatOfPlain;
    var s0 := State(FormatOfPlain(st), [], []);
    if ps == [] {
      EmptyBoard(text);
    } else {
      var n := |ps| - 1;
      PiecesRun(text, ps[..n], st);
      PieceStep(text, SayPieces(text, ps[..n], st), ps[n], st);
      StepParts(s0, PiecesShown(ps[..n]), TextShown(ps[n].before.text) + StopShown(ps[n].stop));
      assert PiecesShown(ps[..n]) + (TextShown(ps[n].before.text) + StopShown(ps[n].stop)) == PiecesShown(ps);
    }
  }

  lemma EmptyBoard(text: string)
    ensures BoardOk(text, []) && Spread([]) == []
  {}

  // ---------- the list that is discovered ----------

  lemma {:induction false} ReadText(
      open: Token, elems: seq<Element>, seen: seq<Token>, text: seq<Content>, st: Style, rest: seq<Tok>)
    requires TextOk(text, st)
    ensures Read(open, elems, seen, TextToks(text) + rest) ==
      Read(open, elems + TextList(text), seen + TokenSeq(TextLevel(text)), rest)
    decreases |text|
  {
    hide Read, ContentOk, ContentToks, ContentList, ContentLevel, TokenSeq;
    if text == [] {
      assert [] + rest == rest && elems + [] == elems;
      assert seen + TokenSeq([]) == seen by {
        NoTokens();
      }
    } else {
      var n := |text| - 1;
      var v := text[n];
      assert TextToks(text) + rest == TextToks(text[..n]) + (ContentToks(v) + rest);
      ReadText(open, elems, seen, text[..n], st, ContentToks(v) + rest);
      ReadContent(open, elems + TextList(text[..n]), seen + TokenSeq(TextLevel(text[..n])), v, st, rest);
      TokenParts(TextLevel(text[..n]), ContentLevel(v));
      assert elems + TextList(text[..n]) + ContentList(v) == elems + TextList(text);
      assert seen + TokenSeq(TextLevel(text[..n])) + TokenSeq(ContentLevel(v)) == seen + TokenSeq(TextLevel(text));
    }
  }

  lemma NoTokens()
    ensures TokenSeq([]) == []
  {}

  lemma MarkFlat(p: Piece, st: Style)
    requires PieceOk(p, st) && PlainStyle(st)
    ensures p.stop.Mark? ==>
      && IsFlat(p.stop.tok.token) && StopToks(p.stop) == StopLevel(p.stop) == [p.stop.tok]
      && StopList(p.stop) == LeafList([p.stop.tok])
    ensures p.stop.Bracket? ==>
      && ContentOk(p.stop.group, st) && StopToks(p.stop) == ContentToks(p.stop.group)
      && StopLevel(p.stop) == ContentLevel(p.stop.group) && StopList(p.stop) == ContentList(p.stop.group)
  {
    hide ContentOk, StretchOk, ContentToks, ContentLevel, ContentList;
  }

  lemma ReadStop(
      open: Token, elems: seq<Element>, seen: seq<Token>, p: Piece, st: Style, rest: seq<Tok>)
    requires PieceOk(p, st) && PlainStyle(st)
    ensures Read(open, elems, seen, StopToks(p.stop) + rest) ==
      Read(open, elems + StopList(p.stop), seen + TokenSeq(StopLevel(p.stop)), rest)
  {
    hide *;
    MarkFlat(p, st);
    if p.stop.Mark? {
      FlatOne(p.stop.tok);
      ReadFlat(open, elems, seen, [p.stop.tok], rest);
    } else {
      ReadContent(open, elems, seen, p.stop.group, st, rest);
    }
  }

  lemma FlatOne(t: Tok)
    requires IsFlat(t.token)
    ensures AllFlat([t])
  {}

  lemma {:induction false} ReadPieces(
      open: Token, elems: seq<Element>, seen: seq<Token>, ps: seq<Piece>, st: Style, rest: seq<Tok>)
    requires AllPiecesOk(ps, st) && PlainStyle(st)
    ensures Read(open, elems, seen, PiecesToks(ps) + rest) ==
      Read(open, elems + PiecesList(ps), seen + TokenSeq(PiecesLevel(ps)), rest)
    decreases |ps|
  {
    hide *;
    if ps == [] {
      NoTokens();
      NoPieces();
      assert [] + rest == rest && elems + [] == elems && seen + [] == seen;
    } else {
      AllPieces(ps, st);
      PiecesSplit(ps);
      var n := |ps| - 1;
      var x, y := ps[n].before.text, ps[n].stop;
      var elems1, seen1 := elems + PiecesList(ps[..n]), seen + TokenSeq(PiecesLevel(ps[..n]));
      assert PiecesToks(ps) + rest == PiecesToks(ps[..n]) + (TextToks(x) + (StopToks(y) + rest));
      ReadPieces(open, elems, seen, ps[..n], st, TextToks(x) + (StopToks(y) + rest));
      PieceText(ps[n], st);
      ReadText(open, elems1, seen1, x, st, StopToks(y) + rest);
      ReadStop(open, elems1 + TextList(x), seen1 + TokenSeq(TextLevel(x)), ps[n], st, rest);
      TokenParts(PiecesLevel(ps[..n]), TextLevel(x));
      TokenParts(PiecesLevel(ps[..n]) + TextLevel(x), StopLevel(y));
      assert elems1 + TextList(x) + StopList(y) == elems + PiecesList(ps);
      assert seen1 + TokenSeq(TextLevel(x)) + TokenSeq(StopLevel(y)) == seen + TokenSeq(PiecesLevel(ps));
    }
  }

  lemma NoPieces()
    ensures PiecesToks([]) == [] && PiecesList([]) == [] && PiecesLevel([]) == []
  {}

  lemma AllPieces(ps: seq<Piece>, st: Style)
    requires AllPiecesOk(ps, st) && ps != []
    ensures AllPiecesOk(ps[..|ps| - 1], st) && PieceOk(ps[|ps| - 1], st)
  {
    hide PieceOk;
  }

  lemma PiecesSplit(ps: seq<Piece>)
    requires ps != []
    ensures
      var n := |ps| - 1;
      && PiecesToks(ps) == PiecesToks(ps[..n]) + TextToks(ps[n].before.text) + StopToks(ps[n].stop)
      && PiecesList(ps) == PiecesList(ps[..n]) + TextList(ps[n].before.text) + StopList(ps[n].stop)
      && PiecesLevel(ps) == PiecesLevel(ps[..n]) + TextLevel(ps[n].before.text) + StopLevel(ps[n].stop)
  {
    hide TextToks, TextList, TextLevel, StopToks, StopList, StopLevel;
  }

  lemma PieceText(p: Piece, st: Style)
    requires PieceOk(p, st)
    ensures TextOk(p.before.text, st) && StretchOk(p.before, st)
  {
    hide ContentOk;
  }

  // ---------- the format ----------

  // Nothing ends a value, and equals signs are there exactly when they separate.
  predicate PlainTokens(toks: seq<Token>, st: Style)
  {
    && (forall i | 0 <= i < |toks| :: !toks[i].Comma? && !toks[i].Semi? && !toks[i].Emdash?)
    && (st.sep.Equals? <==> exists i | 0 <= i < |toks| :: toks[i].Equals?)
  }

  lemma PlainFinal(m: FormatState, st: Style)
    requires PlainStyle(st) && m.format == DEFAULT_FORMAT
    requires m.hist[Comma] == m.hist[Semi] == m.hist[Emdash] == 0 && (m.hist[Equals] > 0 <==> st.sep.Equals?)
    ensures Finalize(m).format == FormatOfPlain(st)
  {}

  lemma PlainGuessed(toks: seq<Token>, st: Style)
    requires PlainTokens(toks, st) && PlainStyle(st)
    ensures FormatOf(toks) == FormatOfPlain(st)
  {
    HistIs(toks);
    hide Fold, Finalize, FormatOfPlain;
    assert Comma !in multiset(toks) && Semi !in multiset(toks) && Emdash !in multiset(toks);
    assert Equals in multiset(toks) <==> st.sep.Equals?;
    PlainFinal(Fold(toks), st);
  }

  // Neither ends nor separators.
  predicate AllInner(toks: seq<Tok>)
  {
    forall i | 0 <= i < |toks| ::
      !toks[i].token.Comma? && !toks[i].token.Semi? && !toks[i].token.Emdash? && !toks[i].token.Equals?
  }

  lemma ContentInner(v: Content, st: Style)
    requires PlainStyle(st) && ContentOk(v, st)
    ensures AllInner(ContentLevel(v))
  {
    LevelInner(v, st);
    hide ContentOk, ContentLevel;
  }

  lemma {:induction false} TextInner(text: seq<Content>, st: Style)
    requires PlainStyle(st) && TextOk(text, st)
    ensures AllInner(TextLevel(text))
    decreases |text|
  {
    hide ContentOk, ContentLevel;
    if text == [] {
    } else {
      TextInner(text[..|text| - 1], st);
      ContentInner(text[|text| - 1], st);
    }
  }

  // No token ends a field, and an equals sign is one that separates.
  predicate EndsNothing(toks: seq<Tok>, st: Style)
  {
    forall i | 0 <= i < |toks| ::
      var t := toks[i].token;
      !t.Comma? && !t.Semi? && !t.Emdash? && (t.Equals? ==> st.sep.Equals?)
  }

  lemma StopTokens(p: Piece, st: Style)
    requires PlainStyle(st) && PieceOk(p, st)
    ensures EndsNothing(StopLevel(p.stop), st)
    ensures Separates(p, st) && st.sep.Equals? ==> |StopLevel(p.stop)| > 0 && StopLevel(p.stop)[0].token.Equals?
  {
    hide ContentOk, StretchOk, ContentLevel;
    if p.stop.Bracket? {
      ContentInner(p.stop.group, st);
    }
  }

  lemma InnerEnds(toks: seq<Tok>, st: Style)
    requires AllInner(toks)
    ensures EndsNothing(toks, st)
  {}

  lemma EndsJoin(a: seq<Tok>, b: seq<Tok>, st: Style)
    requires EndsNothing(a, st) && EndsNothing(b, st)
    ensures EndsNothing(a + b, st)
  {}

  lemma {:induction false} PiecesTokens(ps: seq<Piece>, st: Style)
    requires PlainStyle(st) && AllPiecesOk(ps, st)
    ensures EndsNothing(PiecesLevel(ps), st)
    decreases |ps|
  {
    hide PieceOk, TextLevel, StopLevel, Separates, EndsNothing, AllInner;
    if ps == [] {
      NothingEndsNothing(st);
    } else {
      var n := |ps| - 1;
      var x := TextLevel(ps[n].before.text);
      PiecesTokens(ps[..n], st);
      PieceText(ps[n], st);
      TextInner(ps[n].before.text, st);
      InnerEnds(x, st);
      StopTokens(ps[n], st);
      EndsJoin(PiecesLevel(ps[..n]), x, st);
      EndsJoin(PiecesLevel(ps[..n]) + x, StopLevel(ps[n].stop), st);
    }
  }

  lemma NothingEndsNothing(st: Style)
    ensures EndsNothing([], st)
  {}

  lemma {:induction false} PiecesEquals(ps: seq<Piece>, st: Style, i: nat)
    requires PlainStyle(st) && AllPiecesOk(ps, st) && st.sep.Equals? && i < |ps| && Separates(ps[i], st)
    ensures exists j | 0 <= j < |PiecesLevel(ps)| :: PiecesLevel(ps)[j].token.Equals?
    decreases |ps|
  {
    hide PieceOk, TextLevel, StopLevel, Separates;
    var n := |ps| - 1;
    var a, x, y := PiecesLevel(ps[..n]), TextLevel(ps[n].before.text), StopLevel(ps[n].stop);
    var s := a + x + y;
    assert PiecesLevel(ps) == s;
    if i < n {
      PiecesEquals(ps[..n], st, i);
      var j :| 0 <= j < |a| && a[j].token.Equals?;
      assert s[j] == a[j];
    } else {
      StopTokens(ps[n], st);
      assert s[|a + x|] == y[0];
    }
  }

  // The tokens of a list: its pieces and what follows the last one.
  function ListToks(ps: seq<Piece>, last: Stretch): seq<Tok>
  {
    PiecesToks(ps) + TextToks(last.text)
  }

  function ListElems(ps: seq<Piece>, last: Stretch): seq<Element>
  {
    PiecesList(ps) + TextList(last.text)
  }

  function ListLevel(ps: seq<Piece>, last: Stretch): seq<Tok>
  {
    PiecesLevel(ps) + TextLevel(last.text)
  }

  lemma ListOfPieces(ps: seq<Piece>, st: Style)
    requires PiecesOk(ps, st)
    ensures PlainStyle(st) && AllPiecesOk(ps, st)
    ensures st.sep.Equals? ==> exists i | 0 <= i < |ps| :: Separates(ps[i], st)
  {
    hide PieceOk;
  }

  lemma LevelPlain(ps: seq<Piece>, last: Stretch, st: Style)
    requires PiecesOk(ps, st) && StretchOk(last, st)
    ensures PlainTokens(TokenSeq(ListLevel(ps, last)), st)
  {
    hide PiecesOk, StretchOk, PiecesLevel, TextLevel, Separates;
    ListOfPieces(ps, st);
    StretchText(last, st);
    PiecesTokens(ps, st);
    TextInner(last.text, st);
    var a, x := PiecesLevel(ps), TextLevel(last.text);
    var s := TokenSeq(ListLevel(ps, last));
    assert forall i | 0 <= i < |s| :: s[i] == if i < |a| then a[i].token else x[i - |a|].token;
    if st.sep.Equals? {
      var k :| 0 <= k < |ps| && Separates(ps[k], st);
      PiecesEquals(ps, st, k);
      var i :| 0 <= i < |a| && a[i].token.Equals?;
      assert s[i].Equals?;
    }
  }

  lemma StretchText(x: Stretch, st: Style)
    requires StretchOk(x, st)
    ensures TextOk(x.text, st)
  {
    hide ContentOk;
  }

  lemma {:induction false} TextEnds(text: seq<Content>, st: Style)
    requires TextOk(text, st) && text != []
    ensures TextToks(text) != [] && !IsOpener(TextToks(text)[|TextToks(text)| - 1].token)
  {
    hide ContentOk, ContentToks;
    ContentEnds(text[|text| - 1], st);
  }

  lemma StopEnds(p: Piece, st: Style)
    requires PlainStyle(st) && PieceOk(p, st)
    ensures StopToks(p.stop) != [] && !IsOpener(StopToks(p.stop)[|StopToks(p.stop)| - 1].token)
  {
    MarkFlat(p, st);
    hide PieceOk, ContentToks, StopLevel, StopList, ContentOk;
    if p.stop.Bracket? {
      ContentEnds(p.stop.group, st);
    }
  }

  lemma ListEnds(ps: seq<Piece>, last: Stretch, st: Style)
    requires PlainStyle(st) && AllPiecesOk(ps, st) && TextOk(last.text, st)
    ensures Descent.EndsWell(ListToks(ps, last))
  {
    var s := ListToks(ps, last);
    if last.text != [] {
      TextEnds(last.text, st);
      assert s[|s| - 1] == TextToks(last.text)[|TextToks(last.text)| - 1];
    } else if ps != [] {
      var n := |ps| - 1;
      StopEnds(ps[n], st);
      assert s == PiecesToks(ps);
      assert s[|s| - 1] == StopToks(ps[n].stop)[|StopToks(ps[n].stop)| - 1];
    }
    hide PieceOk, ContentOk, TextToks, StopToks;
  }

  lemma PlainDiscovered(ps: seq<Piece>, last: Stretch, st: Style)
    requires PiecesOk(ps, st) && StretchOk(last, st)
    ensures Discovered(ListToks(ps, last)) == List(FormatOfPlain(st), ListElems(ps, last))
  {
    hide *;
    var toks := ListToks(ps, last);
    var elems, level := ListElems(ps, last), ListLevel(ps, last);
    ListOfPieces(ps, st);
    StretchText(last, st);
    ListEnds(ps, last, st);
    Descent.MachineIsDescent(toks);
    ListParts(ps, last);
    ReadPieces(Invalid, [], [], ps, st, TextToks(last.text));
    assert TextToks(last.text) + [] == TextToks(last.text);
    ReadText(Invalid, PiecesList(ps), TokenSeq(PiecesLevel(ps)), last.text, st, []);
    Nothing(PiecesList(ps), TokenSeq(PiecesLevel(ps)));
    TokenParts(PiecesLevel(ps), TextLevel(last.text));
    ReadEnd(elems, TokenSeq(level));
    MessageRead(toks);
    LevelPlain(ps, last, st);
    PlainGuessed(TokenSeq(level), st);
  }

  lemma ListParts(ps: seq<Piece>, last: Stretch)
    ensures ListToks(ps, last) == PiecesToks(ps) + TextToks(last.text)
    ensures ListElems(ps, last) == PiecesList(ps) + TextList(last.text)
    ensures ListLevel(ps, last) == PiecesLevel(ps) + TextLevel(last.text)
  {}

  // ---------- the groups ----------

  lemma {:induction false} TextPaired(text: string, depth: nat, cs: seq<Content>, st: Style)
    requires TextOk(cs, st)
    ensures PairedAll(text, depth, TextList(cs)) == TextShown(cs)
    decreases |cs|
  {
    hide PairedAll, ContentList, ShownContent, ContentOk;
    if cs == [] {
      PairedNone(text, depth);
    } else {
      var n := |cs| - 1;
      TextPaired(text, depth, cs[..n], st);
      ContentShown(text, depth, cs[n], st);
      PairedMore(text, depth, TextList(cs[..n]), ContentList(cs[n]));
    }
  }

  lemma StopPaired(text: string, depth: nat, p: Piece, st: Style)
    requires PieceOk(p, st) && PlainStyle(st)
    ensures PairedAll(text, depth, StopList(p.stop)) == StopShown(p.stop)
  {
    hide *;
    MarkFlat(p, st);
    StopCases(p.stop);
    MarkCases(p, st);
    if p.stop.Mark? {
      OneLeaf(p.stop.tok);
      PairedLeaves(text, depth, [p.stop.tok]);
    } else {
      ContentShown(text, depth, p.stop.group, st);
    }
  }

  lemma OneLeaf(t: Tok)
    ensures LeafList([t]) == [Leaf(t)]
  {}

  lemma {:induction false} PiecesPaired(text: string, depth: nat, ps: seq<Piece>, st: Style)
    requires AllPiecesOk(ps, st) && PlainStyle(st)
    ensures PairedAll(text, depth, PiecesList(ps)) == PiecesShown(ps)
    decreases |ps|
  {
    hide PairedAll, PieceOk, TextList, TextShown, StopList, StopShown;
    if ps == [] {
      PairedNone(text, depth);
    } else {
      var n := |ps| - 1;
      PiecesPaired(text, depth, ps[..n], st);
      PieceText(ps[n], st);
      TextPaired(text, depth, ps[n].before.text, st);
      StopPaired(text, depth, ps[n], st);
      PairedMore(text, depth, PiecesList(ps[..n]), TextList(ps[n].before.text));
      PairedMore(text, depth, PiecesList(ps[..n]) + TextList(ps[n].before.text), StopList(ps[n].stop));
    }
  }

  // ---------- messages ----------

  lemma {:induction false} TextSettled(text: seq<Content>)
    ensures Settled(TextShown(text))
    decreases |text|
  {
    hide ShownContent, Copy;
    if text == [] {
    } else {
      TextSettled(text[..|text| - 1]);
      ContentSettled(text[|text| - 1]);
    }
  }

  lemma {:induction false} PiecesSettled(ps: seq<Piece>)
    ensures Settled(PiecesShown(ps))
    decreases |ps|
  {
    hide ShownContent, Copy, TextShown;
    if ps == [] {
    } else {
      var n := |ps| - 1;
      PiecesSettled(ps[..n]);
      TextSettled(ps[n].before.text);
      if ps[n].stop.Bracket? {
        ContentSettled(ps[n].stop.group);
      } else {
        LeafCopies(ps[n].stop.tok);
      }
      hide Leaf;
    }
  }

  // A list in the plain format, at any depth: what is found in it is what is meant.
  lemma PlainCollected(text: string, depth: nat, ps: seq<Piece>, last: Stretch, st: Style)
    requires PiecesOk(ps, st) && StretchOk(last, st)
    ensures Collect(text, depth, FormatOfPlain(st), PairedAll(text, depth, ListElems(ps, last))) ==
      Meant(text, depth, ps, last, st)
  {
    hide *;
    var fmt, b := FormatOfPlain(st), SayPieces(text, ps, st);
    var shown := PiecesShown(ps) + TextShown(last.text);
    ListOfPieces(ps, st);
    StretchShape(last, st);
    FormatIsPlain(st);
    ListParts(ps, last);
    PiecesPaired(text, depth, ps, st);
    TextPaired(text, depth, last.text, st);
    PairedMore(text, depth, PiecesList(ps), TextList(last.text));
    PiecesSettled(ps);
    TextSettled(last.text);
    BothSettled(PiecesShown(ps), TextShown(last.text));
    RunIsSteps(fmt, shown);
    StepParts(State(fmt, [], []), PiecesShown(ps), TextShown(last.text));
    PiecesRun(text, ps, st);
    StepText(State(fmt, Spread(b), []), last.text, st);
    assert [] + TextComps(last.text) == TextComps(last.text);
    SpreadTop(text, b);
    CollectSome(text, depth, fmt, shown);
    if depth == 0 && b == [] {
      RowTold(text, TextComps(last.text));
    } else {
      EndSaid(text, fmt, b, last);
      EmptyBase();
      assert [] + Spread(SayEnd(text, b, last)) == Spread(SayEnd(text, b, last));
      GatherTold(text, depth, [], SayEnd(text, b, last));
    }
    MeantCases(text, depth, ps, last, st);
  }

  lemma MeantCases(text: string, depth: nat, ps: seq<Piece>, last: Stretch, st: Style)
    ensures
      var b := SayPieces(text, ps, st);
      Meant(text, depth, ps, last, st) ==
        if depth == 0 && b == [] then Columns(TextComps(last.text)) else Told(depth, SayEnd(text, b, last))
  {
    hide SayPieces, Columns, Told, SayEnd;
  }

  // Parsing a message in the plain format finds exactly the pairs that are meant, cut off after the largest number.
  lemma PlainParsed(text: string, ps: seq<Piece>, last: Stretch, st: Style)
    requires PiecesOk(ps, st) && StretchOk(last, st)
    ensures
      var d := Discovered(ListToks(ps, last));
      Pairup(text, 0, d.format, d.elems).pairs == Cut(Meant(text, 0, ps, last, st))
  {
    hide *;
    PlainDiscovered(ps, last, st);
    PlainCollected(text, 0, ps, last, st);
    PairupCut(text, 0, FormatOfPlain(st), ListElems(ps, last));
  }
}
