// What the parser is for: a list of fields, such as "a=1, b=2", and the pairs that are written in it.  A field may come
// without a key, and the value of a field may be an amount with its unit, or a list of fields in brackets.
module Fields {
  import opened Tokens
  import opened Elements
  import opened Pairing
  import opened Pairs
  import opened Discover
  import opened Boards

  // What ends the fields of a list, and what comes between a key and its value.
  datatype Style = Style(end: Token, sep: Token)

  // One field: what ends the field before it, a key, a separator and a value, or a value only; there may be white
  // space before the key, before the separator, anywhere in a plain value, and around any other.
  datatype Field =
    | Field(lead: Tok, space: seq<Tok>, key: Tok, gap: seq<Tok>, sep: Tok, value: Content)
    | Item(lead: Tok, value: Content)

  datatype Content =
    | Plain(toks: seq<Tok>)
    | Measured(before: seq<Tok>, amount: Tok, unit: Tok, after: seq<Tok>)
    | Nested(before: seq<Tok>, open: Tok, style: Style, fields: seq<Field>, close: Tok, after: seq<Tok>)

  // The value is a part of the field, whether there is a key or not.
  lemma ValueIsPart(f: Field)
    ensures f.value < f
  {
    match f {
      case Field(_, _, _, _, _, _) =>
      case Item(_, _) =>
    }
  }

  // ---------- what counts as a list of fields ----------

  predicate StyleOk(st: Style)
  {
    (st.end.Comma? || st.end.Semi? || st.end.Emdash?) && (st.sep.Colon? || st.sep.Equals?)
  }

  predicate IsKeyToken(t: Token)
  {
    t.Word? || t.Symbol? || t.Id?
  }

  // A token that goes to the end of the list as it is.
  predicate IsFlat(t: Token)
  {
    !IsOpener(t) && !IsCloser(t) && !t.EmptyContainer? && !t.Unit?
  }

  // Whatever does not end the value, start another key or open a group may be part of a value.
  predicate IsValueToken(t: Token)
  {
    IsTerminal(t) && IsFlat(t) && !t.Comma? && !t.Semi? && !t.Colon? && !t.Equals? && !t.Emdash?
  }

  // So may be a comma, when fields end with semicolons.
  predicate IsPart(t: Token, st: Style)
  {
    IsValueToken(t) || (st.end.Semi? && t.Comma?)
  }

  predicate AllSkipped(toks: seq<Tok>)
  {
    forall i | 0 <= i < |toks| :: IsSkipped(toks[i].token)
  }

  // The tokens that are not white space.
  function Solid(toks: seq<Tok>): seq<Tok>
  {
    if toks == [] then []
    else
      var t := toks[|toks| - 1];
      Solid(toks[..|toks| - 1]) + if IsSkipped(t.token) then [] else [t]
  }

  predicate FieldOk(f: Field, st: Style)
  {
    && f.lead.token == st.end && ContentOk(f.value, st)
    && (f.Field? ==> AllSkipped(f.space) && AllSkipped(f.gap) && IsKeyToken(f.key.token) && f.sep.token == st.sep)
  }

  predicate ContentOk(v: Content, st: Style)
  {
    match v
    case Plain(toks) => (forall i | 0 <= i < |toks| :: IsPart(toks[i].token, st)) && Parts(LeafList(Solid(toks))) != []
    case Measured(before, amount, unit, after) =>
      && AllSkipped(before) && AllSkipped(after)
      && IsValueToken(amount.token) && !IsSkipped(amount.token) && unit.token.Unit?
    case Nested(before, open, style, fields, close, after) =>
      && AllSkipped(before) && AllSkipped(after) && IsOpener(open.token) && Closes(open.token, close.token)
      && fields != [] && FieldsOk(fields, style) && Whole(fields, style)
  }

  // All fields of a list have the same style.
  predicate FieldsOk(fs: seq<Field>, st: Style)
  {
    StyleOk(st) && forall i | 0 <= i < |fs| :: FieldOk(fs[i], st)
  }

  // How many fields have a key and a separator.
  function KeyedCount(fs: seq<Field>): (n: nat)
    ensures n <= |fs|
    ensures n == 0 <==> forall i | 0 <= i < |fs| :: fs[i].Item?
    ensures n == |fs| <==> forall i | 0 <= i < |fs| :: fs[i].Field?
  {
    if fs == [] then 0 else KeyedCount(fs[..|fs| - 1]) + if fs[|fs| - 1].Field? then 1 else 0
  }

  // A single element of the list that is discovered.
  predicate IsSingle(v: Content)
  {
    v.Plain? ==> |Solid(v.toks)| == 1
  }

  // A field without a key that no comma may follow: behind a word that is not its first token, a separator is expected.
  predicate ExpectsSep(f: Field)
  {
    f.Item? && exists i | 0 < i < |ContentLevel(f.value)| :: ContentLevel(f.value)[i].token.Word?
  }

  // The automata accept the list.  Fields that end with semicolons must all have a key, and those that end with commas
  // must not expect a separator; the first one may, when something with a separator came before it.  Em dashes do not
  // end a value, so there a key can be found but once, and then only when no bracket has been taken for its value.
  predicate Accepted(fs: seq<Field>, st: Style, headed: bool)
  {
    && (st.end.Semi? ==> KeyedCount(fs) == |fs|)
    && (st.end.Comma? ==> forall i | (if headed then 1 else 0) <= i < |fs| - 1 :: !ExpectsSep(fs[i]))
    && (st.end.Emdash? ==> KeyedCount(fs) <= 1 && (KeyedCount(fs) == 1 ==> !HasBare(fs)))
  }

  // Some value in brackets comes without a key.
  predicate HasBare(fs: seq<Field>)
  {
    exists i | 0 <= i < |fs| :: fs[i].Item? && fs[i].value.Nested?
  }

  // When the format of several fields is guessed from what ends them: of fields with keys before colons that end with
  // commas at most one may be without a key, unless all are.
  predicate Guessed(fs: seq<Field>, st: Style)
  {
    && Accepted(fs, st, false)
    && (st.end.Comma? ==> KeyedCount(fs) == 0 || st.sep.Equals? || KeyedCount(fs) + 1 >= |fs|)
  }

  predicate Shaped(fs: seq<Field>, st: Style)
  {
    && (|fs| == 1 ==> st.end.Comma?)
    && (|fs| > 1 ==> Guessed(fs, st))
    && (KeyedCount(fs) == 0 ==> st.sep.Colon?)
  }

  // Before anything ends a field the values of a list are taken apart, so a field on its own, and the first one if it
  // has no key, is a single element.
  predicate Whole(fs: seq<Field>, st: Style)
  {
    && Shaped(fs, st)
    && (fs != [] && (|fs| == 1 || fs[0].Item?) ==> IsSingle(fs[0].value))
  }

  lemma WholeShaped(fs: seq<Field>, st: Style)
    requires Whole(fs, st)
    ensures Shaped(fs, st)
  {
    hide Shaped, IsSingle;
  }

  // ---------- the tokens ----------

  // The first field comes without the end of a field before it.
  function Lead(fs: seq<Field>): seq<Tok>
    requires fs != []
  {
    if |fs| == 1 then [] else [fs[|fs| - 1].lead]
  }

  function Head(f: Field): seq<Tok>
  {
    if f.Field? then f.space + [f.key] + f.gap + [f.sep] else []
  }

  function Stream(fs: seq<Field>): seq<Tok>
  {
    if fs == [] then []
    else
      var n := |fs| - 1;
      ValueIsPart(fs[n]);
      Stream(fs[..n]) + Lead(fs) + Head(fs[n]) + ContentToks(fs[n].value)
  }

  function ContentToks(v: Content): seq<Tok>
  {
    match v
    case Plain(toks) => toks
    case Measured(before, amount, unit, after) => before + [amount, unit] + after
    case Nested(before, open, style, fields, close, after) => before + [open] + Stream(fields) + [close] + after
  }

  // The tokens that count for the format of the list itself: of a value in brackets only the opening one.
  function LevelToks(fs: seq<Field>): seq<Tok>
  {
    if fs == [] then []
    else
      var n := |fs| - 1;
      LevelToks(fs[..n]) + Lead(fs) + Head(fs[n]) + ContentLevel(fs[n].value)
  }

  function ContentLevel(v: Content): seq<Tok>
  {
    match v
    case Plain(toks) => toks
    case Measured(before, amount, unit, after) => before + [amount, unit] + after
    case Nested(before, open, style, fields, close, after) => before + [open] + after
  }

  // ---------- the list that is discovered ----------

  function LeafList(toks: seq<Tok>): (s: seq<Element>)
    ensures |s| == |toks| && forall i | 0 <= i < |toks| :: s[i] == Leaf(toks[i])
  {
    seq(|toks|, i requires 0 <= i < |toks| => Leaf(toks[i]))
  }

  // A unit and what it measures.
  function Amount(amount: Tok, unit: Tok): Element
  {
    Make(Measurement, [Leaf(amount), Leaf(unit)])
  }

  // A list without keys has no separator when commas end its fields.
  function FormatOfFields(st: Style, fs: seq<Field>): Format
  {
    var base :=
      if |fs| <= 1 then FORMAT_PLAIN
      else if st.end.Semi? then FORMAT_SEMI
      else if st.end.Comma? then FORMAT_COMMA
      else FORMAT_EMDASH;
    base.(
      qualifier := if st.sep.Equals? then Colon else Invalid,
      separator := if |fs| > 1 && st.end.Comma? && KeyedCount(fs) == 0 then Invalid else st.sep)
  }

  function ListOf(fs: seq<Field>): seq<Element>
  {
    if fs == [] then []
    else
      var n := |fs| - 1;
      ValueIsPart(fs[n]);
      ListOf(fs[..n]) + LeafList(Lead(fs) + Head(fs[n])) + ContentList(fs[n].value)
  }

  function ContentList(v: Content): seq<Element>
  {
    match v
    case Plain(toks) => LeafList(toks)
    case Measured(before, amount, unit, after) => LeafList(before) + [Amount(amount, unit)] + LeafList(after)
    case Nested(before, open, style, fields, close, after) =>
      LeafList(before) + [ClosedGroup(FormatOfFields(style, fields), ListOf(fields), close)] + LeafList(after)
  }

  // ---------- the pairs that are meant ----------

  // The position of the last comma, -1 when there is none.
  function LastComma(s: seq<Element>): (r: int)
    ensures -1 <= r < |s|
    ensures r >= 0 ==> s[r].token.Comma?
    ensures forall i | r < i < |s| :: !s[i].token.Comma?
  {
    if s == [] then -1 else if s[|s| - 1].token.Comma? then |s| - 1 else LastComma(s[..|s| - 1])
  }

  // Whatever stands right behind the last comma is dropped.
  function Shortened(vs: seq<Element>): seq<Element>
  {
    var r := LastComma(vs);
    if 0 <= r < |vs| - 1 then vs[..r + 1] + vs[r + 2..] else vs
  }

  // What a value is made of: its commas are dropped too.
  function Parts(vs: seq<Element>): seq<Element>
  {
    WithoutCommas(Shortened(vs))
  }

  function Around(token: Token, elems: seq<Element>): Element
  {
    if elems == [] then Element(token, -1, -1, Null) else Make(token, elems)
  }

  function Cut(pairs: seq<Element>): seq<Element>
  {
    if |pairs| > MAX_PAIRS then pairs[..MAX_PAIRS] else pairs
  }

  function KeyOfField(f: Field): Element
    requires f.Field?
  {
    MakeBare(Key, [Leaf(f.key)])
  }

  function ValueOfField(f: Field): Element
    decreases f, 0
  {
    ValueIsPart(f);
    Around(Value, match f.value
                  case Plain(toks) => Parts(LeafList(Solid(toks)))
                  case Measured(_, amount, unit, _) => [Amount(amount, unit)]
                  case Nested(_, _, _, _, _, _) => [GroupOf(f.value)])
  }

  // Two tokens without a separator are a key and its value when the first of them can be a key.
  predicate IsKeyedItem(f: Field)
  {
    f.Item? && f.value.Plain? && |Solid(f.value.toks)| == 2 && IsKeyToken(Solid(f.value.toks)[0].token)
  }

  function SaidOf(f: Field): Said
    decreases f, 1
  {
    if f.Field? then Answered(KeyOfField(f), ValueOfField(f))
    else if IsKeyedItem(f) then
      var s := Solid(f.value.toks);
      Answered(MakeBare(Key, [Leaf(s[0])]), Make(Value, [Leaf(s[1])]))
    else Alone(ValueOfField(f))
  }

  function Board(fs: seq<Field>): (b: seq<Said>)
    ensures |b| == |fs|
    decreases fs, 0
  {
    if fs == [] then [] else Board(fs[..|fs| - 1]) + [SaidOf(fs[|fs| - 1])]
  }

  // A value in brackets is a group of what is found in it.
  function GroupOf(v: Content): Element
    requires v.Nested?
  {
    ClosedGroup(FormatOfFields(v.style, v.fields), Cut(Found(1, v.fields)), v.close)
  }

  // One pair for each field, with an empty key where there is none.
  function FieldPairs(fs: seq<Field>): (ps: seq<Element>)
    ensures |ps| == |fs|
    decreases fs, 1
  {
    PairsOn(Board(fs))
  }

  // What is found in a list.  At the top level a token on its own is a column; in brackets values stay values when no
  // key is found with them.
  function Found(depth: nat, fs: seq<Field>): seq<Element>
    decreases fs, 2
  {
    if depth == 0 && |fs| == 1 && fs[0].Item? && !fs[0].value.Nested? then Columns(Components(fs[0].value))
    else if depth >= 1 && AllAlone(Board(fs)) then AloneValues(Board(fs))
    else FieldPairs(fs)
  }

  // The elements of a value that are neither white space nor a group.
  function Components(v: Content): seq<Element>
  {
    match v
    case Plain(toks) => LeafList(Solid(toks))
    case Measured(_, amount, unit, _) => [Amount(amount, unit)]
    case Nested(_, _, _, _, _, _) => []
  }

  lemma {:induction false} BoardAt(fs: seq<Field>, i: nat)
    requires i < |fs|
    ensures Board(fs)[i] == SaidOf(fs[i])
    decreases |fs|
  {
    hide SaidOf;
    var n := |fs| - 1;
    if i == n {
    } else {
      BoardAt(fs[..n], i);
    }
  }

  lemma {:induction false} PairsAt(b: seq<Said>, i: nat)
    requires i < |b|
    ensures PairsOn(b)[i] == PairOf(b[i])
    decreases |b|
  {
    hide PairOf;
    var n := |b| - 1;
    if i == n {
    } else {
      PairsAt(b[..n], i);
    }
  }

  lemma FieldPairAt(fs: seq<Field>, i: nat)
    requires i < |fs| && fs[i].Field?
    ensures FieldPairs(fs)[i] == Make(Pair, [KeyOfField(fs[i]), ValueOfField(fs[i])])
  {
    hide ValueOfField, KeyOfField, PairsOn, Board;
    BoardAt(fs, i);
    PairsAt(Board(fs), i);
  }

  // A value loses a part exactly when something stands behind its last comma, and then just one.
  lemma PartsLose(vs: seq<Element>)
    ensures |Parts(vs)| == |WithoutCommas(vs)| - if 0 <= LastComma(vs) < |vs| - 1 then 1 else 0
    ensures LastComma(vs) == -1 ==> Parts(vs) == vs
  {
    hide WithoutCommas, LastComma;
    var r := LastComma(vs);
    if r == -1 {
      NoCommas(vs);
    } else if r < |vs| - 1 {
      var a, b := vs[..r + 1], vs[r + 1..];
      assert vs == a + b && vs[r + 2..] == b[1..];
      BehindLast(a, b);
    }
  }

  lemma BehindLast(a: seq<Element>, b: seq<Element>)
    requires b != [] && forall i | 0 <= i < |b| :: !b[i].token.Comma?
    ensures |WithoutCommas(a + b[1..])| == |WithoutCommas(a + b)| - 1
  {
    hide WithoutCommas;
    WithoutMore(a, b);
    WithoutMore(a, b[1..]);
    NoCommas(b);
    NoCommas(b[1..]);
  }

  lemma {:induction false} NoCommas(vs: seq<Element>)
    requires forall i | 0 <= i < |vs| :: !vs[i].token.Comma?
    ensures WithoutCommas(vs) == vs
    decreases |vs|
  {
    if vs == [] {
    } else {
      NoCommas(vs[..|vs| - 1]);
      assert vs == vs[..|vs| - 1] + [vs[|vs| - 1]];
    }
  }

  lemma {:induction false} WithoutMore(a: seq<Element>, b: seq<Element>)
    ensures WithoutCommas(a + b) == WithoutCommas(a) + WithoutCommas(b)
    decreases |b|
  {
    if b == [] {
      assert a + b == a;
    } else {
      WithoutMore(a, b[..|b| - 1]);
      assert (a + b)[..|a + b| - 1] == a + b[..|b| - 1];
    }
  }

  // A value of one token is made of that.
  lemma TokenValue(t: Tok, st: Style)
    requires t.token.Number? || t.token.QuotedString?
    ensures Solid([t]) == [t] && ContentOk(Plain([t]), st) && Parts(LeafList([t])) == [Leaf(t)]
  {
    hide *;
    TokenIsPart(t, st);
    SolidOne(t);
    LeafOne(t);
    PartsLose([Leaf(t)]);
    PlainOk(t, st);
  }

  lemma TokenIsPart(t: Tok, st: Style)
    requires t.token.Number? || t.token.QuotedString?
    ensures IsPart(t.token, st) && !IsSkipped(t.token) && !t.token.Comma?
  {}

  lemma LeafOne(t: Tok)
    requires !t.token.Comma?
    ensures LeafList([t]) == [Leaf(t)] && LastComma([Leaf(t)]) == -1
  {
    hide LastComma;
  }

  lemma PlainOk(t: Tok, st: Style)
    requires Solid([t]) == [t] && Parts(LeafList([t])) != [] && IsPart(t.token, st)
    ensures ContentOk(Plain([t]), st)
  {
    hide Solid, Parts, LeafList, IsPart;
  }

  lemma SolidOne(t: Tok)
    requires !IsSkipped(t.token)
    ensures Solid([t]) == [t]
  {
    hide IsSkipped;
    assert [t][..0] == [] && Solid([t]) == Solid([t][..0]) + [t];
  }
}
