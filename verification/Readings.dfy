// Messages as they are written, and the pairs they are read as.
module Readings {
  import opened Tokens
  import opened Elements
  import opened Pairing
  import opened Pairs
  import opened Discover
  import opened Boards
  import opened Fields
  import opened FieldFormats
  import opened FieldTrees
  import opened FieldPairing
  import opened PlainLists
  import opened PlainPairing
  import opened Rows

  // ---------- words with values, and a key behind them ----------

  // word value word value ...
  function WordsAndValues(words: seq<Tok>, values: seq<Tok>): seq<Tok>
    requires |words| == |values|
  {
    if words == [] then []
    else
      var n := |words| - 1;
      WordsAndValues(words[..n], values[..n]) + [words[n], values[n]]
  }

  function WordChunks(words: seq<Tok>, values: seq<Tok>): (cs: seq<Chunk>)
    requires |words| == |values|
    ensures |cs| == |words|
  {
    if words == [] then []
    else
      var n := |words| - 1;
      WordChunks(words[..n], values[..n]) + [Chunk([Leaf(words[n])], Leaf(values[n]))]
  }

  // Each word is the key of the value behind it.
  function WordPairs(words: seq<Tok>, values: seq<Tok>): (ps: seq<Element>)
    requires |words| == |values|
    ensures |ps| == |words|
  {
    if words == [] then []
    else
      var n := |words| - 1;
      WordPairs(words[..n], values[..n])
      + [Make(Pair, [Make(Key, [Leaf(words[n])]), Make(Value, [Leaf(values[n])])])]
  }

  function WordBoard(words: seq<Tok>, values: seq<Tok>): (b: seq<Said>)
    requires |words| == |values|
    ensures |b| == |words| && forall i | 0 <= i < |b| :: b[i].Answered?
  {
    if words == [] then []
    else
      var n := |words| - 1;
      WordBoard(words[..n], values[..n]) + [Answered(Make(Key, [Leaf(words[n])]), Make(Value, [Leaf(values[n])]))]
  }

  predicate AreWords(words: seq<Tok>, values: seq<Tok>)
  {
    && |words| == |values| > 0
    && (forall i | 0 <= i < |words| :: words[i].token.Word?)
    && (forall i | 0 <= i < |values| :: IsValue(values[i].token))
  }

  // A text of tokens that neither separate nor end anything, with white space anywhere.
  predicate IsText(toks: seq<Tok>)
  {
    forall i | 0 <= i < |toks| :: IsValueToken(toks[i].token)
  }

  // The words and their values, and a key behind the last one.
  predicate IsRun(toks: seq<Tok>, words: seq<Tok>, values: seq<Tok>, key: Tok)
  {
    && IsText(toks) && AreWords(words, values) && (key.token.Word? || key.token.Symbol?)
    && Solid(toks) == WordsAndValues(words, values) + [key]
  }

  // A separator, and a single token for its value.
  predicate IsEnd(sep: Tok, toks: seq<Tok>, value: Tok)
  {
    (sep.token.Colon? || sep.token.Equals?) && IsText(toks) && Solid(toks) == [value]
  }

  function RunStretch(toks: seq<Tok>, words: seq<Tok>, values: seq<Tok>, key: Tok): Stretch
    requires |words| == |values|
  {
    Stretch([Plain(toks)], WordChunks(words, values), [Leaf(key)])
  }

  // A lone identifier is not taken for a value, but it ends up as one all the same.
  function OneStretch(toks: seq<Tok>, value: Tok): Stretch
  {
    if IsValue(value.token) && !value.token.Id? then Stretch([Plain(toks)], [Chunk([], Leaf(value))], [])
    else Stretch([Plain(toks)], [], [Leaf(value)])
  }

  lemma OneText(toks: seq<Tok>)
    ensures TextComps([Plain(toks)]) == LeafList(Solid(toks)) && TextToks([Plain(toks)]) == toks
  {
    hide Solid;
    var text := [Plain(toks)];
    assert text[..0] == [];
    assert TextComps(text) == TextComps(text[..0]) + Components(Plain(toks));
    assert TextToks(text) == TextToks(text[..0]) + ContentToks(Plain(toks));
  }

  lemma TextIsContent(toks: seq<Tok>, st: Style)
    requires IsText(toks) && st.end.Comma? && Solid(toks) != []
    ensures ContentOk(Plain(toks), st)
  {
    forall i | 0 <= i < |toks|
      ensures IsPart(toks[i].token, st)
    {}
    PlainComplete(toks, st);
    hide Solid, Parts, IsPart, IsText;
  }

  lemma {:induction false} WordsGlued(words: seq<Tok>, values: seq<Tok>)
    requires |words| == |values|
    ensures Glued(WordChunks(words, values)) == LeafList(WordsAndValues(words, values))
    decreases |words|
  {
    if words == [] {
    } else {
      var n := |words| - 1;
      WordsGlued(words[..n], values[..n]);
      var cs := WordChunks(words, values);
      assert cs[..n] == WordChunks(words[..n], values[..n]);
    }
  }

  lemma {:induction false} WordChunkAt(words: seq<Tok>, values: seq<Tok>, i: nat)
    requires |words| == |values| && i < |words|
    ensures WordChunks(words, values)[i] == Chunk([Leaf(words[i])], Leaf(values[i]))
    decreases |words|
  {
    var n := |words| - 1;
    if i < n {
      WordChunkAt(words[..n], values[..n], i);
    }
  }

  lemma {:induction false} StretchMade(toks: seq<Tok>, cs: seq<Chunk>, rest: seq<Element>, st: Style)
    requires IsText(toks) && Solid(toks) != [] && st.end.Comma? && LeafList(Solid(toks)) == Glued(cs) + rest
    requires forall i | 0 <= i < |cs| :: ChunkOk(cs[i])
    requires if cs == [] then NoValues(rest) || IsLoneId(rest) else NoValues(rest) && !IsLoneId(Glued(cs) + rest)
    ensures StretchOk(Stretch([Plain(toks)], cs, rest), st)
  {
    hide *;
    OneText(toks);
    TextIsContent(toks, st);
    StretchOfOne(Stretch([Plain(toks)], cs, rest), Plain(toks), st);
  }

  lemma {:induction false} StretchOfOne(x: Stretch, v: Content, st: Style)
    requires x.text == [v] && ContentOk(v, st) && !v.Nested? && TextComps(x.text) == Glued(x.chunks) + x.rest
    requires forall i | 0 <= i < |x.chunks| :: ChunkOk(x.chunks[i])
    requires
      if x.chunks == [] then NoValues(x.rest) || IsLoneId(x.rest)
      else NoValues(x.rest) && !IsLoneId(Glued(x.chunks) + x.rest)
    ensures StretchOk(x, st)
  {
    hide ContentOk, TextComps, Glued, ChunkOk, NoValues, IsLoneId;
  }

  lemma RunOk(toks: seq<Tok>, words: seq<Tok>, values: seq<Tok>, key: Tok, st: Style)
    requires IsRun(toks, words, values, key) && st.end.Comma?
    ensures |words| == |values| > 0 && StretchOk(RunStretch(toks, words, values, key), st)
  {
    var cs := WordChunks(words, values);
    WordsGlued(words, values);
    WordsThere(words, values);
    KeyIsNoValue(key);
    hide Solid, IsText, StretchOk, Glued, IsValue, WordChunks, WordsAndValues;
    forall i | 0 <= i < |cs|
      ensures ChunkOk(cs[i])
    {
      WordChunkAt(words, values, i);
      WordIsNoValue(words[i]);
    }
    assert LeafList(WordsAndValues(words, values) + [key]) == LeafList(WordsAndValues(words, values)) + [Leaf(key)];
    StretchMade(toks, cs, [Leaf(key)], st);
  }

  lemma WordsThere(words: seq<Tok>, values: seq<Tok>)
    requires |words| == |values| > 0
    ensures WordsAndValues(words, values) != []
  {}

  lemma WordIsNoValue(t: Tok)
    ensures t.token.Word? ==> !IsValue(Leaf(t).token)
  {}

  lemma KeyIsNoValue(t: Tok)
    ensures t.token.Word? || t.token.Symbol? ==> !IsValue(Leaf(t).token)
  {}

  lemma EndOk(sep: Tok, toks: seq<Tok>, value: Tok, st: Style)
    requires IsEnd(sep, toks, value) && st.end.Comma?
    ensures StretchOk(OneStretch(toks, value), st)
  {
    var x := OneStretch(toks, value);
    hide Solid, IsText, StretchOk, IsValue;
    assert LeafList([value]) == [Leaf(value)];
    if x.chunks != [] {
      assert x.chunks[..0] == [];
      assert Glued(x.chunks) == Glued(x.chunks[..0]) + [] + [Leaf(value)];
    }
    StretchMade(toks, x.chunks, x.rest, st);
  }

  // ---------- what is said ----------

  lemma {:induction false} WordsSaid(text: string, words: seq<Tok>, values: seq<Tok>)
    requires |words| == |values| && forall i | 0 <= i < |words| :: words[i].token.Word?
    ensures SayChunks(text, [], WordChunks(words, values)) == WordBoard(words, values)
    decreases |words|
  {
    if words == [] {
    } else {
      var n := |words| - 1;
      var cs := WordChunks(words, values);
      WordsSaid(text, words[..n], values[..n]);
      assert cs[..n] == WordChunks(words[..n], values[..n]);
      var b, c := WordBoard(words[..n], values[..n]), Chunk([Leaf(words[n])], Leaf(values[n]));
      hide BlankValue, Make;
      assert HasWord(c);
      var k := AddKey(text, b, Make(Key, [Leaf(words[n])]));
      assert k[..|k| - 1] == b;
    }
  }

  // A key that waits before the words is given up.
  lemma RunSaid(text: string, b: seq<Said>, toks: seq<Tok>, words: seq<Tok>, values: seq<Tok>, key: Tok)
    requires IsRun(toks, words, values, key) && (b == [] || (|b| == 1 && b[0].Asked?))
    ensures
      var k := MakeBare(Key, [Leaf(key)]);
      SayKey(text, b, RunStretch(toks, words, values, key)) ==
        WordBoard(words, values) + [Asked(k, BlankValue(text, k))]
  {
    hide *;
    RunWords(toks, words, values, key);
    WordChunkAt(words, values, 0);
    WordsSaid(text, words, values);
    FirstWord(words[0], values[0]);
    RunSays(text, b, toks, WordChunks(words, values), key);
    RunIs(toks, words, values, key);
  }

  lemma RunWords(toks: seq<Tok>, words: seq<Tok>, values: seq<Tok>, key: Tok)
    requires IsRun(toks, words, values, key)
    ensures |words| == |values| > 0 && (forall i | 0 <= i < |words| :: words[i].token.Word?)
    ensures key.token.Word? || key.token.Symbol?
  {
    hide Solid, IsText, IsValue;
  }

  lemma RunIs(toks: seq<Tok>, words: seq<Tok>, values: seq<Tok>, key: Tok)
    requires |words| == |values|
    ensures RunStretch(toks, words, values, key) == Stretch([Plain(toks)], WordChunks(words, values), [Leaf(key)])
  {}

  lemma FirstWord(word: Tok, value: Tok)
    requires word.token.Word?
    ensures HasWord(Chunk([Leaf(word)], Leaf(value)))
  {}

  lemma RunSays(text: string, b: seq<Said>, toks: seq<Tok>, cs: seq<Chunk>, key: Tok)
    requires cs != [] && HasWord(cs[0]) && (b == [] || (|b| == 1 && b[0].Asked?))
    requires key.token.Word? || key.token.Symbol?
    ensures
      var k := MakeBare(Key, [Leaf(key)]);
      SayKey(text, b, Stretch([Plain(toks)], cs, [Leaf(key)])) == SayChunks(text, [], cs) + [Asked(k, BlankValue(text, k))]
  {
    hide BlankValue, SayChunks, HasWord, MakeBare;
    assert b != [] ==> b[..|b| - 1] == [];
    assert EndsInWord([Leaf(key)]);
  }

  lemma EndSaidOne(text: string, b: seq<Said>, toks: seq<Tok>, value: Tok)
    requires Awaits(b)
    ensures SayEnd(text, b, OneStretch(toks, value)) ==
      b[..|b| - 1] + [Answered(b[|b| - 1].key, Make(Value, [Leaf(value)]))]
  {
    hide Make, IsValue, IsKeyToken;
    var x := OneStretch(toks, value);
    if x.chunks != [] {
      assert x.chunks[..0] == [] && SayChunks(text, b, x.chunks[..0]) == b;
    }
  }

  lemma {:induction false} WordPairsOn(words: seq<Tok>, values: seq<Tok>)
    requires |words| == |values|
    ensures PairsOn(WordBoard(words, values)) == WordPairs(words, values)
    decreases |words|
  {
    hide Make;
    if words == [] {
    } else {
      var n := |words| - 1;
      var b := WordBoard(words, values);
      WordPairsOn(words[..n], values[..n]);
      assert b[..n] == WordBoard(words[..n], values[..n]);
    }
  }

  // Several answered keys are told as their pairs.
  lemma RunTold(words: seq<Tok>, values: seq<Tok>, key: Element, value: Element)
    requires |words| == |values| > 0
    ensures Told(0, WordBoard(words, values) + [Answered(key, value)]) ==
      WordPairs(words, values) + [Make(Pair, [key, value])]
  {
    hide WordBoard, WordPairs, Make;
    var c := WordBoard(words, values);
    var b := c + [Answered(key, value)];
    assert b[..|b| - 1] == c && b[|b| - 1] == Answered(key, value);
    WordPairsOn(words, values);
  }

  function ReadPairs(words: seq<Tok>, values: seq<Tok>, key: Tok, value: Tok): seq<Element>
    requires |words| == |values|
  {
    WordPairs(words, values) + [Make(Pair, [MakeBare(Key, [Leaf(key)]), Make(Value, [Leaf(value)])])]
  }

  lemma OnePiece(p: Piece)
    ensures PiecesToks([p]) == TextToks(p.before.text) + StopToks(p.stop)
    ensures forall text, st :: SayPieces(text, [p], st) == SayPiece(text, [], p, st)
  {
    hide TextToks, StopToks, SayPiece;
    assert [p][..0] == [];
    assert PiecesToks([p]) == PiecesToks([p][..0]) + TextToks(p.before.text) + StopToks(p.stop);
    assert [] + TextToks(p.before.text) == TextToks(p.before.text);
  }

  lemma TwoPieces(p: Piece, q: Piece)
    ensures PiecesToks([p, q]) == PiecesToks([p]) + (TextToks(q.before.text) + StopToks(q.stop))
    ensures forall text, st :: SayPieces(text, [p, q], st) == SayPiece(text, SayPieces(text, [p], st), q, st)
  {
    hide TextToks, StopToks, SayPiece;
    assert [p, q][..1] == [p];
  }

  lemma MarkOk(x: Stretch, sep: Tok, st: Style)
    requires StretchOk(x, st) && sep.token == st.sep
    ensures PieceOk(Piece(x, Mark(sep)), st) && Separates(Piece(x, Mark(sep)), st)
    ensures StopToks(Mark(sep)) == [sep]
    ensures forall text, b :: SayPiece(text, b, Piece(x, Mark(sep)), st) == SayKey(text, b, x)
  {
    hide StretchOk, SayKey;
  }

  lemma PiecesAre(ps: seq<Piece>, st: Style)
    requires st.end.Comma? && (st.sep.Colon? || st.sep.Equals?) && ps != []
    requires forall i | 0 <= i < |ps| :: PieceOk(ps[i], st) && Separates(ps[i], st)
    ensures PiecesOk(ps, st)
  {
    hide PieceOk, Separates;
    assert Separates(ps[0], st);
  }

  // A message of words with values, and then a key, a separator and a value: each word is the key of the value behind
  // it, and the last word, or symbol, that of the value behind the separator.
  lemma KeyBehindValues(
      text: string, toks: seq<Tok>, words: seq<Tok>, values: seq<Tok>, key: Tok, sep: Tok, more: seq<Tok>, value: Tok)
    requires IsRun(toks, words, values, key) && IsEnd(sep, more, value)
    ensures
      var d := Discovered(toks + [sep] + more);
      Pairup(text, 0, d.format, d.elems).pairs == Cut(ReadPairs(words, values, key, value))
  {
    hide *;
    StretchToks(toks, words, values, key, more, value);
    var st, x, y := Style(Comma, sep.token), RunStretch(toks, words, values, key), OneStretch(more, value);
    var p, k := Piece(x, Mark(sep)), MakeBare(Key, [Leaf(key)]);
    EndStyle(sep, more, value);
    RunOk(toks, words, values, key, st);
    EndOk(sep, more, value, st);
    MarkOk(x, sep, st);
    PiecesAre([p], st);
    PlainParsed(text, [p], y, st);
    OnePiece(p);
    ListParts([p], y);
    RunSaid(text, [], toks, words, values, key);
    MeantRun(text, [p], y, st, more, words, values, key, value);
  }

  lemma EndStyle(sep: Tok, more: seq<Tok>, value: Tok)
    requires IsEnd(sep, more, value)
    ensures
      var st := Style(Comma, sep.token);
      st.end.Comma? && (st.sep.Colon? || st.sep.Equals?) && st.sep == sep.token
  {
    hide IsText, Solid;
  }

  lemma StretchToks(toks: seq<Tok>, words: seq<Tok>, values: seq<Tok>, key: Tok, more: seq<Tok>, value: Tok)
    requires IsRun(toks, words, values, key)
    ensures |words| == |values| > 0
    ensures TextToks(RunStretch(toks, words, values, key).text) == toks && TextToks(OneStretch(more, value).text) == more
  {
    hide Solid, IsText, IsValue;
    OneText(toks);
    OneText(more);
  }

  lemma MeantRun(
      text: string, ps: seq<Piece>, y: Stretch, st: Style, more: seq<Tok>, words: seq<Tok>, values: seq<Tok>, key: Tok,
      value: Tok)
    requires |words| == |values| > 0 && y == OneStretch(more, value)
    requires
      var k := MakeBare(Key, [Leaf(key)]);
      SayPieces(text, ps, st) == WordBoard(words, values) + [Asked(k, BlankValue(text, k))]
    ensures Meant(text, 0, ps, y, st) == ReadPairs(words, values, key, value)
  {
    hide SayPieces, WordBoard, WordPairs, Make, MakeBare, BlankValue, SayEnd, OneStretch, Told;
    var k, c := MakeBare(Key, [Leaf(key)]), WordBoard(words, values);
    var b := SayPieces(text, ps, st);
    assert b[..|b| - 1] == c && b[|b| - 1].Asked? && b[|b| - 1].key == k;
    EndSaidOne(text, b, more, value);
    RunTold(words, values, k, Make(Value, [Leaf(value)]));
  }

  // When a key already waits for its value before the words, it is given up, since the first value has a word.
  lemma WaitingKeyGoes(
      text: string, first: Tok, sep: Tok, toks: seq<Tok>, words: seq<Tok>, values: seq<Tok>, key: Tok, more: seq<Tok>,
      value: Tok)
    requires first.token.Word? || first.token.Symbol?
    requires IsRun(toks, words, values, key) && IsEnd(sep, more, value)
    ensures
      var d := Discovered([first, sep] + toks + [sep] + more);
      Pairup(text, 0, d.format, d.elems).pairs == Cut(ReadPairs(words, values, key, value))
  {
    hide *;
    StretchToks(toks, words, values, key, more, value);
    var st, x, y := Style(Comma, sep.token), RunStretch(toks, words, values, key), OneStretch(more, value);
    var x0 := Stretch([Plain([first])], [], [Leaf(first)]);
    var p0, p := Piece(x0, Mark(sep)), Piece(x, Mark(sep));
    EndStyle(sep, more, value);
    FirstOk(text, first, st);
    RunOk(toks, words, values, key, st);
    EndOk(sep, more, value, st);
    MarkOk(x0, sep, st);
    MarkOk(x, sep, st);
    PiecesAre([p0, p], st);
    PlainParsed(text, [p0, p], y, st);
    OnePiece(p0);
    TwoPieces(p0, p);
    ListParts([p0, p], y);
    assert [first] + [sep] + (toks + [sep]) + more == [first, sep] + toks + [sep] + more;
    RunSaid(text, SayKey(text, [], x0), toks, words, values, key);
    MeantRun(text, [p0, p], y, st, more, words, values, key, value);
  }

  lemma FirstOk(text: string, first: Tok, st: Style)
    requires st.end.Comma? && (first.token.Word? || first.token.Symbol?)
    ensures
      var x0 := Stretch([Plain([first])], [], [Leaf(first)]);
      && StretchOk(x0, st) && TextToks(x0.text) == [first]
      && |SayKey(text, [], x0)| == 1 && SayKey(text, [], x0)[0].Asked?
  {
    var x0 := Stretch([Plain([first])], [], [Leaf(first)]);
    hide *;
    OneText([first]);
    FirstSolid(first);
    KeyIsNoValue(first);
    FirstSaid(text, first);
    OneElement(first);
    StretchMade([first], [], [Leaf(first)], st);
  }

  lemma OneElement(t: Tok)
    ensures LeafList([t]) == [Leaf(t)] && Glued([]) + [Leaf(t)] == [Leaf(t)]
    ensures !IsValue(Leaf(t).token) ==> NoValues([Leaf(t)])
  {
    hide IsValue;
  }

  lemma FirstSolid(first: Tok)
    requires first.token.Word? || first.token.Symbol?
    ensures Solid([first]) == [first] && IsText([first])
  {
    assert [first][..0] == [] && Solid([first]) == Solid([first][..0]) + [first];
  }

  // ---------- a heading and a row ----------

  // A key with several elements behind its separator, none of them a value: the key is read as a value, and what is
  // behind it as a row.
  lemma HeadingParsed(text: string, key: Tok, sep: Tok, more: seq<Tok>)
    requires (key.token.Word? || key.token.Symbol?) && (sep.token.Colon? || sep.token.Equals?)
    requires IsText(more) && |Solid(more)| > 1 && NoValues(LeafList(Solid(more)))
    ensures
      var d := Discovered([key, sep] + more);
      Pairup(text, 0, d.format, d.elems).pairs ==
        Cut([Make(Pair, [Element(Key, key.cb, key.cb, Null), Element(Key, key.cb, key.ce, Null)])]
            + Columns(LeafList(Solid(more))))
  {
    hide *;
    var st := Style(Comma, sep.token);
    var x := Stretch([Plain([key])], [], [Leaf(key)]);
    var y := Stretch([Plain(more)], [], LeafList(Solid(more)));
    var p := Piece(x, Mark(sep));
    SepStyle(sep);
    FirstOk(text, key, st);
    RestStretch(more, st);
    MarkOk(x, sep, st);
    PiecesAre([p], st);
    PlainParsed(text, [p], y, st);
    OnePiece(p);
    OneText(more);
    ListParts([p], y);
    assert [key] + [sep] == [key, sep];
    HeadingMeant(text, [p], x, y, st, key, more);
  }

  lemma SepStyle(sep: Tok)
    requires sep.token.Colon? || sep.token.Equals?
    ensures
      var st := Style(Comma, sep.token);
      st.end.Comma? && (st.sep.Colon? || st.sep.Equals?) && st.sep == sep.token
  {}

  lemma RestStretch(more: seq<Tok>, st: Style)
    requires st.end.Comma? && IsText(more) && |Solid(more)| > 1 && NoValues(LeafList(Solid(more)))
    ensures StretchOk(Stretch([Plain(more)], [], LeafList(Solid(more))), st)
  {
    hide Solid, IsText, StretchOk, NoValues;
    assert [] + LeafList(Solid(more)) == LeafList(Solid(more));
    StretchMade(more, [], LeafList(Solid(more)), st);
  }

  lemma FirstSaid(text: string, key: Tok)
    requires key.token.Word? || key.token.Symbol?
    ensures
      var k := Element(Key, key.cb, key.ce, Null);
      SayKey(text, [], Stretch([Plain([key])], [], [Leaf(key)])) == [Asked(k, BlankValue(text, k))]
  {
    hide BlankValue;
    assert IsKeyToken([Leaf(key)][0].token);
    assert !Keyless([Leaf(key)]);
  }

  lemma AnswerSaid(text: string, key: Element, blank: Element, y: Stretch)
    requires y.chunks == [] && y.rest != []
    ensures SayEnd(text, [Asked(key, blank)], y) == [Answered(key, Make(Value, y.rest))]
  {
    hide IsKeyToken, Make;
    var b := [Asked(key, blank)];
    assert b[..0] == [];
  }

  lemma HeadingTold(key: Element, rest: seq<Element>)
    requires |rest| > 1
    ensures Told(0, [Answered(key, Make(Value, rest))]) ==
      [Make(Pair, [Element(Key, key.cb, key.cb, Null), key])] + Columns(rest)
  {
    hide Columns;
    var b := [Answered(key, Make(Value, rest))];
    assert !b[0].Alone? && !Awaits(b) && IsHeading(b);
  }

  lemma HeadingMeant(text: string, ps: seq<Piece>, x: Stretch, y: Stretch, st: Style, key: Tok, more: seq<Tok>)
    requires x == Stretch([Plain([key])], [], [Leaf(key)]) && (key.token.Word? || key.token.Symbol?)
    requires y == Stretch([Plain(more)], [], LeafList(Solid(more))) && |Solid(more)| > 1
    requires SayPieces(text, ps, st) == SayKey(text, [], x)
    ensures Meant(text, 0, ps, y, st) ==
      [Make(Pair, [Element(Key, key.cb, key.cb, Null), Element(Key, key.cb, key.ce, Null)])]
      + Columns(LeafList(Solid(more)))
  {
    hide Solid, SayPieces, BlankValue, Columns, SayKey, SayEnd, Told, Make;
    var k := Element(Key, key.cb, key.ce, Null);
    FirstSaid(text, key);
    AnswerSaid(text, k, BlankValue(text, k), y);
    HeadingTold(k, y.rest);
  }

  // Of a row, numbers, identifiers and quoted strings are columns, as are the other kinds of values and symbols; words
  // are not.
  lemma ColumnKinds(e: Element)
    ensures
      e.token.Number? || e.token.Id? || e.token.QuotedString? || e.token.Symbol? || e.token.Measurement?
      || e.token.HexNumber? || e.token.Path? || e.token.Url? || e.token.Uuid? || e.token.Ipv4Address?
      || e.token.Value? || e.token.Group? ==>
        Columns([e]) == [Make(Pair, [BlankKey(e.cb), e])]
    ensures e.token.Word? || e.token.Comma? || e.token.White? || e.token.Dot? ==> Columns([e]) == []
  {
    assert [e][..0] == [];
  }

  // ---------- an item, and fields with keys ----------

  // The pairs of some fields that all have keys.
  function KeyPairs(fs: seq<Field>): (ps: seq<Element>)
    requires forall i | 0 <= i < |fs| :: fs[i].Field?
    ensures |ps| == |fs|
  {
    seq(|fs|, i requires 0 <= i < |fs| => Make(Pair, [Element(Key, fs[i].key.cb, fs[i].key.ce, Null), ValueOfField(fs[i])]))
  }

  // A value without a key, and fields with keys behind colons, all ended by commas: the colons separate, the value gets
  // an empty key, and no key is lost.
  lemma ItemThenFields(text: string, item: Field, fs: seq<Field>)
    requires item.Item? && IsSingle(item.value) && fs != [] && FieldsOk([item] + fs, ROW_STYLE) && !ExpectsSep(item)
    requires forall i | 0 <= i < |fs| :: fs[i].Field?
    ensures
      var d, v := Discovered(Stream([item] + fs)), ValueOfField(item);
      && d.format.terminator.Comma? && d.format.separator.Colon? && d.format.prefixTerminator.Invalid?
      && Pairup(text, 0, d.format, d.elems).pairs ==
         Cut([Make(Pair, [Element(Key, v.cb, v.cb, Null), v])] + KeyPairs(fs))
  {
    hide *;
    var all := [item] + fs;
    ItemFirst(item, fs);
    WholeShaped(all, ROW_STYLE);
    FieldsDiscovered(all, ROW_STYLE);
    FieldsParsed(text, all, ROW_STYLE);
    ManyFound(all);
    ItemPairs(item, fs);
  }

  lemma {:induction false} CountKeyed(item: Field, fs: seq<Field>)
    requires item.Item? && forall i | 0 <= i < |fs| :: fs[i].Field?
    ensures KeyedCount([item] + fs) == |fs|
    decreases |fs|
  {
    var all := [item] + fs;
    if fs == [] {
      assert all == [item] && [item][..0] == [];
    } else {
      CountKeyed(item, fs[..|fs| - 1]);
      assert all[..|all| - 1] == [item] + fs[..|fs| - 1];
    }
  }

  lemma ItemFirst(item: Field, fs: seq<Field>)
    requires item.Item? && IsSingle(item.value) && fs != [] && !ExpectsSep(item)
    requires forall i | 0 <= i < |fs| :: fs[i].Field?
    ensures
      var all := [item] + fs;
      && Whole(all, ROW_STYLE) && |all| > 1
      && FormatOfFields(ROW_STYLE, all) == FORMAT_COMMA.(qualifier := Invalid, separator := Colon)
      && FORMAT_COMMA.terminator.Comma? && FORMAT_COMMA.prefixTerminator.Invalid?
  {
    var all := [item] + fs;
    CountKeyed(item, fs);
    forall i | 0 <= i < |all| - 1
      ensures !ExpectsSep(all[i])
    {
      assert i > 0 ==> all[i] == fs[i - 1];
      hide ContentLevel;
    }
    hide ExpectsSep, IsSingle, KeyedCount;
  }

  lemma {:induction false} ItemPairs(item: Field, fs: seq<Field>)
    requires item.Item? && IsSingle(item.value) && forall i | 0 <= i < |fs| :: fs[i].Field?
    ensures
      var v := ValueOfField(item);
      FieldPairs([item] + fs) == [Make(Pair, [Element(Key, v.cb, v.cb, Null), v])] + KeyPairs(fs)
  {
    hide *;
    var all := [item] + fs;
    ItemPair(item, all);
    RestPairs(all, fs);
    assert FieldPairs(all) == [FieldPairs(all)[0]] + FieldPairs(all)[1..];
  }

  lemma {:induction false} RestPairs(all: seq<Field>, fs: seq<Field>)
    requires |all| == |fs| + 1 && all[1..] == fs && forall i | 0 <= i < |fs| :: fs[i].Field?
    ensures FieldPairs(all)[1..] == KeyPairs(fs)
  {
    hide *;
    var a, b := FieldPairs(all)[1..], KeyPairs(fs);
    forall i | 0 <= i < |fs|
      ensures a[i] == b[i]
    {
      assert all[i + 1] == all[1..][i];
      KeyPair(all, fs, i + 1);
    }
  }

  lemma ItemPair(item: Field, all: seq<Field>)
    requires all != [] && all[0] == item && item.Item? && IsSingle(item.value)
    ensures
      var v := ValueOfField(item);
      FieldPairs(all)[0] == Make(Pair, [Element(Key, v.cb, v.cb, Null), v])
  {
    hide ValueOfField, Solid, PairsOn, Board;
    BoardAt(all, 0);
    PairsAt(Board(all), 0);
  }

  lemma {:induction false} KeyPair(all: seq<Field>, fs: seq<Field>, i: nat)
    requires 0 < i < |all| && |all| == |fs| + 1 && all[i] == fs[i - 1] && forall i | 0 <= i < |fs| :: fs[i].Field?
    ensures FieldPairs(all)[i] == KeyPairs(fs)[i - 1]
  {
    hide ValueOfField, FieldPairs;
    FieldPairAt(all, i);
  }

  // ---------- em dashes ----------

  const DASH_STYLE := Style(Emdash, Colon)

  // Values of one token each that em dashes end become one pair each, whatever they are.
  lemma DashesParsed(text: string, fs: seq<Field>)
    requires |fs| > 1 && FieldsOk(fs, DASH_STYLE) && AllSingle(fs)
    ensures
      var d := Discovered(Stream(fs));
      d.format.terminator.Emdash? && Pairup(text, 0, d.format, d.elems).pairs == Cut(OnePairEach(fs))
  {
    hide *;
    DashesWhole(fs);
    WholeShaped(fs, DASH_STYLE);
    FieldsDiscovered(fs, DASH_STYLE);
    FieldsParsed(text, fs, DASH_STYLE);
    ManyFound(fs);
    SinglePairs(fs, DASH_STYLE);
  }

  lemma DashesWhole(fs: seq<Field>)
    requires |fs| > 1 && AllSingle(fs)
    ensures Whole(fs, DASH_STYLE) && FormatOfFields(DASH_STYLE, fs).terminator.Emdash?
  {
    hide Solid, ExpectsSep, HasBare;
  }

  // ---------- amounts ----------

  // White space, ends of lines and control sequences.
  predicate IsBlank(toks: seq<Tok>)
  {
    forall i | 0 <= i < |toks| :: toks[i].token.White? || toks[i].token.Line? || toks[i].token.Csi?
  }

  // A key, a separator, a number and its unit, as in size=5KB, are one pair whose value is one measurement of both; it
  // does not matter what white space stands around the key and behind the separator and the unit.
  lemma AmountParsed(
      text: string, space: seq<Tok>, key: Tok, gap: seq<Tok>, sep: Tok, before: seq<Tok>, amount: Tok, unit: Tok,
      after: seq<Tok>)
    requires IsKeyToken(key.token) && (sep.token.Colon? || sep.token.Equals?)
    requires amount.token.Number? && unit.token.Unit?
    requires IsBlank(space) && IsBlank(gap) && IsBlank(before) && IsBlank(after)
    ensures
      var d := Discovered(space + [key] + gap + [sep] + (before + [amount, unit] + after));
      var both := Element(Measurement, amount.cb, unit.ce, List(DEFAULT_FORMAT, [Leaf(amount), Leaf(unit)]));
      var value := Element(Value, amount.cb, unit.ce, List(DEFAULT_FORMAT, [both]));
      Pairup(text, 0, d.format, d.elems).pairs == [Make(Pair, [Element(Key, key.cb, key.ce, Null), value])]
  {
    hide *;
    var st := Style(Comma, sep.token);
    var f := Field(Tok(Comma, 0, 0), space, key, gap, sep, Measured(before, amount, unit, after));
    BlankSkipped(space);
    BlankSkipped(gap);
    BlankSkipped(before);
    BlankSkipped(after);
    AmountField(f, st);
    AmountStream(f);
    FieldsParsed(text, [f], st);
    AmountFound(f);
  }

  lemma BlankSkipped(toks: seq<Tok>)
    requires IsBlank(toks)
    ensures AllSkipped(toks)
  {}

  lemma AmountField(f: Field, st: Style)
    requires f.Field? && f.lead.token.Comma? && AllSkipped(f.space) && AllSkipped(f.gap) && IsKeyToken(f.key.token)
    requires st == Style(Comma, f.sep.token) && (f.sep.token.Colon? || f.sep.token.Equals?)
    requires f.value.Measured? && AllSkipped(f.value.before) && AllSkipped(f.value.after)
    requires f.value.amount.token.Number? && f.value.unit.token.Unit?
    ensures FieldsOk([f], st) && Whole([f], st)
  {
    hide IsKeyToken, AllSkipped;
    assert FieldOk(f, st);
  }

  lemma AmountStream(f: Field)
    requires f.Field? && f.value.Measured?
    ensures
      var v := f.value;
      Stream([f]) == f.space + [f.key] + f.gap + [f.sep] + (v.before + [v.amount, v.unit] + v.after)
  {
    assert [f][..0] == [];
    assert Stream([f]) == Stream([f][..0]) + Lead([f]) + Head(f) + ContentToks(f.value);
    hide Head, ContentToks;
    assert [] + [] + Head(f) == Head(f);
  }

  lemma AmountFound(f: Field)
    requires f.Field? && f.value.Measured?
    ensures
      var both := Element(Measurement, f.value.amount.cb, f.value.unit.ce,
                          List(DEFAULT_FORMAT, [Leaf(f.value.amount), Leaf(f.value.unit)]));
      var value := Element(Value, f.value.amount.cb, f.value.unit.ce, List(DEFAULT_FORMAT, [both]));
      Cut(Found(0, [f])) == [Make(Pair, [Element(Key, f.key.cb, f.key.ce, Null), value])]
  {
    FieldPairAt([f], 0);
    hide FieldPairs;
    assert |FieldPairs([f])| == 1;
  }
}
