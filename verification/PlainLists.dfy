// Messages in the plain format, in which nothing ends a value: "foo 5 bar: 7" says that foo is 5 and bar is 7.  What is
// meant by the text before each separator, each bracket and the end of the message.
module PlainLists {
  import opened Tokens
  import opened Elements
  import opened Pairing
  import opened Boards
  import opened Fields

  // Some elements that are no values, and the value behind them.
  datatype Chunk = Chunk(junk: seq<Element>, value: Element)

  // A stretch of text: what it is made of, its values with all that comes before each, and what follows the last one.
  datatype Stretch = Stretch(text: seq<Content>, chunks: seq<Chunk>, rest: seq<Element>)

  // What a stretch ends at: a separator or a qualifier, or a value in brackets.
  datatype Stop = Mark(tok: Tok) | Bracket(group: Content)

  datatype Piece = Piece(before: Stretch, stop: Stop)

  // ---------- tokens and elements ----------

  function TextToks(text: seq<Content>): seq<Tok>
  {
    if text == [] then [] else TextToks(text[..|text| - 1]) + ContentToks(text[|text| - 1])
  }

  function TextLevel(text: seq<Content>): seq<Tok>
  {
    if text == [] then [] else TextLevel(text[..|text| - 1]) + ContentLevel(text[|text| - 1])
  }

  function TextList(text: seq<Content>): seq<Element>
  {
    if text == [] then [] else TextList(text[..|text| - 1]) + ContentList(text[|text| - 1])
  }

  // Without white space.
  function TextComps(text: seq<Content>): seq<Element>
  {
    if text == [] then [] else TextComps(text[..|text| - 1]) + Components(text[|text| - 1])
  }

  function StopToks(x: Stop): seq<Tok>
  {
    match x
    case Mark(tok) => [tok]
    case Bracket(group) => ContentToks(group)
  }

  function StopLevel(x: Stop): seq<Tok>
  {
    match x
    case Mark(tok) => [tok]
    case Bracket(group) => ContentLevel(group)
  }

  function StopList(x: Stop): seq<Element>
  {
    match x
    case Mark(tok) => [Leaf(tok)]
    case Bracket(group) => ContentList(group)
  }

  function PiecesToks(ps: seq<Piece>): seq<Tok>
  {
    if ps == [] then []
    else
      var n := |ps| - 1;
      PiecesToks(ps[..n]) + TextToks(ps[n].before.text) + StopToks(ps[n].stop)
  }

  function PiecesLevel(ps: seq<Piece>): seq<Tok>
  {
    if ps == [] then []
    else
      var n := |ps| - 1;
      PiecesLevel(ps[..n]) + TextLevel(ps[n].before.text) + StopLevel(ps[n].stop)
  }

  function PiecesList(ps: seq<Piece>): seq<Element>
  {
    if ps == [] then []
    else
      var n := |ps| - 1;
      PiecesList(ps[..n]) + TextList(ps[n].before.text) + StopList(ps[n].stop)
  }

  function Glued(cs: seq<Chunk>): seq<Element>
  {
    if cs == [] then []
    else
      var n := |cs| - 1;
      Glued(cs[..n]) + cs[n].junk + [cs[n].value]
  }

  // ---------- what counts as a plain list ----------

  predicate NoValues(s: seq<Element>)
  {
    forall i | 0 <= i < |s| :: !IsValue(s[i].token)
  }

  // A single identifier is not taken for a value.
  predicate IsLoneId(s: seq<Element>)
  {
    |s| == 1 && s[0].token.Id?
  }

  predicate ChunkOk(c: Chunk)
  {
    NoValues(c.junk) && IsValue(c.value.token)
  }

  predicate StretchOk(x: Stretch, st: Style)
  {
    && (forall i | 0 <= i < |x.text| :: ContentOk(x.text[i], st) && !x.text[i].Nested?)
    && TextComps(x.text) == Glued(x.chunks) + x.rest
    && (forall i | 0 <= i < |x.chunks| :: ChunkOk(x.chunks[i]))
    && (if x.chunks == [] then NoValues(x.rest) || IsLoneId(x.rest)
        else NoValues(x.rest) && !IsLoneId(Glued(x.chunks) + x.rest))
  }

  // Colons are qualifiers where equals signs separate.
  predicate PieceOk(p: Piece, st: Style)
  {
    && StretchOk(p.before, st)
    && match p.stop
       case Mark(tok) => tok.token == st.sep || (st.sep.Equals? && tok.token.Colon?)
       case Bracket(group) => group.Nested? && ContentOk(group, st)
  }

  predicate Separates(p: Piece, st: Style)
  {
    p.stop.Mark? && p.stop.tok.token == st.sep
  }

  predicate PiecesOk(ps: seq<Piece>, st: Style)
  {
    && st.end.Comma? && (st.sep.Colon? || st.sep.Equals?)
    && (forall i | 0 <= i < |ps| :: PieceOk(ps[i], st))
    && (st.sep.Equals? ==> exists i | 0 <= i < |ps| :: Separates(ps[i], st))
  }

  function FormatOfPlain(st: Style): Format
  {
    FORMAT_PLAIN.(qualifier := if st.sep.Equals? then Colon else Invalid, separator := st.sep)
  }

  // ---------- what is meant ----------

  // The word just before a value is its key.
  predicate HasWord(c: Chunk)
  {
    c.junk != [] && c.junk[|c.junk| - 1].token.Word?
  }

  function SayChunk(text: string, b: seq<Said>, c: Chunk): seq<Said>
  {
    AddValue(
      if HasWord(c) then AddKey(text, b, Make(Key, [c.junk[|c.junk| - 1]])) else b,
      Make(Value, [c.value]))
  }

  function SayChunks(text: string, b: seq<Said>, cs: seq<Chunk>): seq<Said>
  {
    if cs == [] then b else SayChunk(text, SayChunks(text, b, cs[..|cs| - 1]), cs[|cs| - 1])
  }

  // The first value answers the key before the text, but when it has a word of its own that key is given up.
  function SayValues(text: string, b: seq<Said>, cs: seq<Chunk>): seq<Said>
  {
    SayChunks(text, if cs != [] && HasWord(cs[0]) && Awaits(b) then b[..|b| - 1] else b, cs)
  }

  predicate EndsInWord(s: seq<Element>)
  {
    s != [] && (s[|s| - 1].token.Word? || s[|s| - 1].token.Symbol?)
  }

  // Among some elements there is none that can be a key.
  predicate Keyless(s: seq<Element>)
  {
    forall i | 0 <= i < |s| :: !IsKeyToken(s[i].token)
  }

  // Before a separator or a bracket.  Behind values only a last word is a key.  Without values the last element is the
  // key, and those before it answer the key before the text; at the very start they all are one key.
  function SayKey(text: string, b: seq<Said>, x: Stretch): seq<Said>
  {
    var r, n := x.rest, |x.rest| - 1;
    if x.chunks != [] then
      var b1 := SayValues(text, b, x.chunks);
      if EndsInWord(r) then AddKey(text, b1, MakeBare(Key, [r[n]])) else b1
    else if r == [] then b
    else if b == [] then
      if Keyless(r) then AddValue(b, Make(Value, r)) else AddKey(text, b, MakeBare(Key, r))
    else
      var b1 := if n > 0 then AddValue(b, Make(Value, r[..n])) else b;
      if Keyless(r) then AddValue(b1, Make(Value, [r[n]])) else AddKey(text, b1, MakeBare(Key, [r[n]]))
  }

  // Before a qualifier all of the text is one value.
  function SayAll(b: seq<Said>, x: Stretch): seq<Said>
  {
    var all := Glued(x.chunks) + x.rest;
    if all == [] then b else AddValue(b, Make(Value, all))
  }

  // At the end of the list.  Behind values a last word is a value too.  Two elements that nothing asked for are a key
  // and its value when the first can be a key; otherwise all is one value.
  function SayEnd(text: string, b: seq<Said>, x: Stretch): seq<Said>
  {
    var r := x.rest;
    if x.chunks != [] then
      var b1 := SayValues(text, b, x.chunks);
      if EndsInWord(r) then AddValue(b1, Make(Value, [r[|r| - 1]])) else b1
    else if r == [] then b
    else if b != [] && !Awaits(b) && |r| == 2 && IsKeyToken(r[0].token) then
      AddValue(AddKey(text, b, MakeBare(Key, [r[0]])), Make(Value, [r[1]]))
    else AddValue(b, Make(Value, r))
  }

  function SayPiece(text: string, b: seq<Said>, p: Piece, st: Style): seq<Said>
  {
    match p.stop
    case Mark(tok) => if tok.token == st.sep then SayKey(text, b, p.before) else SayAll(b, p.before)
    case Bracket(group) =>
      var b1 := SayKey(text, b, p.before);
      if group.Nested? then AddValue(b1, Make(Value, [GroupOf(group)])) else b1
  }

  function SayPieces(text: string, ps: seq<Piece>, st: Style): seq<Said>
  {
    if ps == [] then [] else SayPiece(text, SayPieces(text, ps[..|ps| - 1], st), ps[|ps| - 1], st)
  }

  // A message without anything but text is a row of columns.
  function Meant(text: string, depth: nat, ps: seq<Piece>, last: Stretch, st: Style): seq<Element>
  {
    var b := SayPieces(text, ps, st);
    if depth == 0 && b == [] then Columns(TextComps(last.text)) else Told(depth, SayEnd(text, b, last))
  }
}
