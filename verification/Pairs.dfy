// The pairs made from a stack of keys and values, and the pairs of a whole list.
module Pairs {
  import opened Tokens
  import opened Elements
  import opened Pairing

  const MAX_PAIRS := 1000

  // ---------- pairs ----------

  function BlankKey(at: int): Element
  {
    Element(Key, at, at, Null)
  }

  // Where the empty value of a key goes: after the key, and after a separator that follows it at once.
  function AfterKey(text: string, ce: int): int
  {
    if 0 <= ce < |text| && (text[ce] == '=' || text[ce] == ':') then ce + 1 else ce
  }

  function BlankValue(text: string, key: Element): Element
  {
    var at := AfterKey(text, key.ce);
    Make(Value, [Element(QuotedString, at, at, Null)])
  }

  function BlankPair(e: Element): Element
  {
    Make(Pair, [BlankKey(e.cb), e])
  }

  // What position i of the stack contributes: a key makes a pair with the value behind it, or with an
  // empty one when something else follows; a value that no key has taken gets an empty key.
  function PairAt(text: string, s: seq<Element>, i: nat): seq<Element>
    requires i < |s|
  {
    if s[i].token.Value? then
      if i > 0 && s[i - 1].token.Key? then [] else [BlankPair(s[i])]
    else if s[i].token.Key? && i + 1 < |s| then
      [Make(Pair, [s[i], if s[i + 1].token.Value? then s[i + 1] else BlankValue(text, s[i])])]
    else []
  }

  function PairsUpTo(text: string, s: seq<Element>, n: nat): seq<Element>
    requires n <= |s|
  {
    if n == 0 then [] else PairsUpTo(text, s, n - 1) + PairAt(text, s, n - 1)
  }

  // Only a key with something behind it starts the pairs; without one the values stay free.
  predicate HasPair(s: seq<Element>)
  {
    exists i :: 0 <= i < |s| - 1 && s[i].token.Key?
  }

  function PairsOf(text: string, s: seq<Element>): seq<Element>
  {
    if HasPair(s) then PairsUpTo(text, s, |s|) else []
  }

  function Values(s: seq<Element>): seq<Element>
  {
    if s == [] then []
    else Values(s[..|s| - 1]) + if s[|s| - 1].token.Value? then [s[|s| - 1]] else []
  }

  function FreeOf(s: seq<Element>): seq<Element>
  {
    if HasPair(s) then [] else Values(s)
  }

  // ---------- a row of free elements ----------

  predicate IsColumn(t: Token)
  {
    || t.Group? || t.Value? || t.Email? || t.Constant? || t.Number? || t.Symbol? || t.Id? || t.HexNumber?
    || t.OctalNumber? || t.VersionNumber? || t.QuotedString? || t.Ipv4Address? || t.Ipv6Address?
    || t.MacAddress? || t.HexDump? || t.XmlDeclTag? || t.XmlOpenTag? || t.XmlCloseTag? || t.XmlEmptyTag?
    || t.Uuid? || t.Url? || t.Anchor? || t.Path? || t.Date? || t.Time? || t.Percentage? || t.Measurement?
  }

  function RowPairs(free: seq<Element>): seq<Element>
  {
    if free == [] then []
    else RowPairs(free[..|free| - 1]) + if IsColumn(free[|free| - 1].token) then [BlankPair(free[|free| - 1])] else []
  }

  // A single pair whose value is a list is taken for a prefix before a row.
  predicate IsPrefixed(pairs: seq<Element>)
  {
    && |pairs| == 1
    && pairs[0].subs.List? && |pairs[0].subs.elems| == 2
    && pairs[0].subs.elems[1].token.Value?
    && pairs[0].subs.elems[1].subs.List? && |pairs[0].subs.elems[1].subs.elems| > 1
  }

  // At the top level free elements become columns; inside a group they stay a plain list.
  function RowOf(depth: nat, free: seq<Element>): seq<Element>
  {
    if depth >= 1 then free else RowPairs(free)
  }

  function Gather(text: string, depth: nat, stack: seq<Element>, free: seq<Element>): seq<Element>
  {
    var pairs := PairsOf(text, stack);
    if IsPrefixed(pairs) then
      [BlankPair(pairs[0].subs.elems[0])] + RowOf(depth, pairs[0].subs.elems[1].subs.elems)
    else if pairs != [] then pairs
    else RowOf(depth, free + FreeOf(stack))
  }

  // ---------- a list of elements ----------

  // The pairs of a list whose groups have been paired up already.
  function Collect(text: string, depth: nat, fmt: Format, list: seq<Element>): seq<Element>
  {
    var st := Run(fmt, list);
    if depth < 1 && st.stack == [] then Gather(text, depth, [], st.comps)
    else Gather(text, depth, AtEnd(st.fmt, st.stack, st.comps), [])
  }

  // What the loop leaves in the list: the elements it has pushed elsewhere have lost their sub-elements.
  function Leftover(fmt: Format, list: seq<Element>): seq<Element>
  {
    if list == [] then []
    else
      var n := |list| - 1;
      Leftover(fmt, list[..n]) + [if Moves(Run(fmt, list[..n]), Copy(list[n])) then Gutted(list[n]) else list[n]]
  }

  datatype Result = Result(pairs: seq<Element>, left: seq<Element>, fmt: Format)

  function Pairup(text: string, depth: nat, fmt: Format, list: seq<Element>): Result
    decreases list, 1
  {
    var paired := PairedAll(text, depth, list);
    var pairs := Collect(text, depth, fmt, paired);
    Result(
      if |pairs| > MAX_PAIRS then pairs[..MAX_PAIRS] else pairs, Leftover(fmt, paired), Run(fmt, paired).fmt)
  }

  // A group is paired up on its own first; it holds the pairs found, if there are any.
  function Paired(text: string, depth: nat, e: Element): Element
    decreases e, 0
  {
    if e.token.Group? && e.subs.List? then
      var r := Pairup(text, depth + 1, e.subs.format, e.subs.elems);
      if r.pairs != [] then UpdateCapture(e.(subs := List(r.fmt, r.pairs)))
      else e.(subs := List(r.fmt, r.left))
    else e
  }

  function PairedAll(text: string, depth: nat, list: seq<Element>): seq<Element>
    decreases list, 0
  {
    if list == [] then []
    else PairedAll(text, depth, list[..|list| - 1]) + [Paired(text, depth, list[|list| - 1])]
  }
}
