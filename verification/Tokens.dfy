// The token vocabulary shared by the scanner and the parser.
module Tokens {

  // One constructor per token of the scanner, in the order of their numbers; the tokens from Key on
  // are made by the parser only.
  datatype Token =
    | Invalid
    | QuotedString | Comment | Url | Path | MacAddress | Date | Time | DateTime
    | Ipv6Address | HexDump | XmlDeclTag | XmlEmptyTag | XmlOpenTag | XmlCloseTag
    | H1 | H2 | H3
    | Colon | Equals | Comma | Semi | Emdash
    | EmptyContainer
    | LCurly | RCurly | LSquare | RSquare | LParen | RParen | LAngle | RAngle
    | Ipv4Address | Uuid | CreditCardNumber | VersionNumber | OctalNumber | Percentage
    | Number | HexNumber | Email | Constant | Word | Id | Symbol | Unit | Line | White
    | Dot | EscapedChar | Csi | Garbage | ZeroWidthSpace | DiffFileHeader
    | DiffHunkHeading | CodeBlock | Anchor
    | Key | Pair | Value | Row | Units | Measurement | VariableKey | RowRange | Group

  // The number the source gives a token.
  function Code(t: Token): int
  {
    match t
    case Invalid => -1
    case QuotedString => 0
    case Comment => 1
    case Url => 2
    case Path => 3
    case MacAddress => 4
    case Date => 5
    case Time => 6
    case DateTime => 7
    case Ipv6Address => 8
    case HexDump => 9
    case XmlDeclTag => 10
    case XmlEmptyTag => 11
    case XmlOpenTag => 12
    case XmlCloseTag => 13
    case H1 => 14
    case H2 => 15
    case H3 => 16
    case Colon => 17
    case Equals => 18
    case Comma => 19
    case Semi => 20
    case Emdash => 21
    case EmptyContainer => 22
    case LCurly => 23
    case RCurly => 24
    case LSquare => 25
    case RSquare => 26
    case LParen => 27
    case RParen => 28
    case LAngle => 29
    case RAngle => 30
    case Ipv4Address => 31
    case Uuid => 32
    case CreditCardNumber => 33
    case VersionNumber => 34
    case OctalNumber => 35
    case Percentage => 36
    case Number => 37
    case HexNumber => 38
    case Email => 39
    case Constant => 40
    case Word => 41
    case Id => 42
    case Symbol => 43
    case Unit => 44
    case Line => 45
    case White => 46
    case Dot => 47
    case EscapedChar => 48
    case Csi => 49
    case Garbage => 50
    case ZeroWidthSpace => 51
    case DiffFileHeader => 52
    case DiffHunkHeading => 53
    case CodeBlock => 54
    case Anchor => 55
    case Key => 56
    case Pair => 57
    case Value => 58
    case Row => 59
    case Units => 60
    case Measurement => 61
    case VariableKey => 62
    case RowRange => 63
    case Group => 64
  }

  // A token found in the text: the part of the text it covers, quotes excluded.
  datatype Tok = Tok(token: Token, cb: int, ce: int)

  predicate IsOpener(t: Token)
  {
    t.LParen? || t.LAngle? || t.LCurly? || t.LSquare?
  }

  predicate IsCloser(t: Token)
  {
    t.RParen? || t.RAngle? || t.RCurly? || t.RSquare?
  }

  // True when closer c ends what opener o began.
  predicate Closes(o: Token, c: Token)
  {
    (o.LParen? && c.RParen?) || (o.LAngle? && c.RAngle?)
    || (o.LCurly? && c.RCurly?) || (o.LSquare? && c.RSquare?)
  }

  // A token the scanner itself can produce.
  predicate IsTerminal(t: Token)
  {
    !(t.Invalid? || t.Key? || t.Pair? || t.Value? || t.Row? || t.Units? || t.Measurement?
      || t.VariableKey? || t.RowRange? || t.Group?)
  }

  // Tokens that stand for a value on their own.
  predicate IsValue(t: Token)
  {
    || t.Measurement? || t.Id? || t.QuotedString? || t.Url? || t.Path? || t.MacAddress? || t.Date? || t.Time?
    || t.DateTime? || t.Ipv4Address? || t.Ipv6Address? || t.HexDump? || t.Uuid? || t.CreditCardNumber?
    || t.VersionNumber? || t.OctalNumber? || t.Percentage? || t.Number? || t.HexNumber? || t.Email?
    || t.Constant? || t.Anchor?
  }

  // The tokens that do not: marks and brackets, words and symbols, units and white space, and all lists but measurements.
  predicate IsNoValue(t: Token)
  {
    || t.Invalid? || t.Comment? || t.XmlDeclTag? || t.XmlEmptyTag? || t.XmlOpenTag? || t.XmlCloseTag? || t.H1? || t.H2?
    || t.H3? || t.Colon? || t.Equals? || t.Comma? || t.Semi? || t.Emdash? || t.EmptyContainer? || IsOpener(t)
    || IsCloser(t) || t.Word? || t.Symbol? || t.Unit? || t.Line? || t.White? || t.Dot? || t.EscapedChar? || t.Csi?
    || t.Garbage? || t.ZeroWidthSpace? || t.DiffFileHeader? || t.DiffHunkHeading? || t.CodeBlock? || t.Key? || t.Pair?
    || t.Value? || t.Row? || t.Units? || t.VariableKey? || t.RowRange? || t.Group?
  }

  lemma ValueOrNot(t: Token)
    ensures IsValue(t) <==> !IsNoValue(t)
  {}

  predicate IsSpace(t: Token)
  {
    t.White? || t.Csi?
  }

  // The parser's test "the open group is numbered one below this closer" is bracket matching.
  lemma CloserFollowsOpener(o: Token, c: Token)
    requires IsCloser(c)
    ensures Code(o) == Code(c) - 1 <==> Closes(o, c)
  {
    OpenersByCode(o);
  }

  lemma OpenersByCode(t: Token)
    ensures Code(t) == 23 <==> t.LCurly?
    ensures Code(t) == 25 <==> t.LSquare?
    ensures Code(t) == 27 <==> t.LParen?
    ensures Code(t) == 29 <==> t.LAngle?
  {}
}
