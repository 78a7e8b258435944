// Structure discovery: a stream of tokens becomes a tree of bracketed groups.  Machine is the loop with
// its three stacks; Read is the same thing by recursive descent.
module Discover {
  import opened Tokens
  import opened Elements
  import opened Dfs

  // Token i directly follows a token that is not an opening bracket.
  predicate FollowsToken(toks: seq<Tok>, i: nat)
  {
    0 < i <= |toks| && !IsOpener(toks[i - 1].token)
  }

  // What the tokenizer promises: captures within the text, in order and without overlap, of at least a
  // character for separators and spaces and around an empty container; a unit directly follows a token
  // of its own list.
  ghost predicate TokensOk(toks: seq<Tok>, lo: int, hi: int)
  {
    && 0 <= lo <= hi
    && (forall i | 0 <= i < |toks| ::
          && IsTerminal(toks[i].token) && lo <= toks[i].cb <= toks[i].ce <= hi
          && (IsWide(toks[i].token) || toks[i].token.EmptyContainer? ==> toks[i].cb < toks[i].ce)
          && (toks[i].token.Unit? ==> FollowsToken(toks, i)))
    && (forall i, j | 0 <= i < j < |toks| :: toks[i].ce <= toks[j].cb)
  }

  function TokenSeq(toks: seq<Tok>): (s: seq<Token>)
    ensures |s| == |toks|
    ensures forall i | 0 <= i < |s| :: s[i] == toks[i].token
  {
    seq(|toks|, i requires 0 <= i < |toks| => toks[i].token)
  }

  // ---------- elements of the tree ----------

  function MakeGroup(format: Format, elems: seq<Element>): Element
    requires elems != []
  {
    Element(Group, elems[0].cb, elems[|elems| - 1].ce, List(format, elems))
  }

  function EmptyGroup(format: Format, at: int): Element
  {
    Element(Group, at, at, List(format, []))
  }

  // The group made for a closing bracket.
  function ClosedGroup(format: Format, elems: seq<Element>, closer: Tok): Element
  {
    if elems == [] then EmptyGroup(format, closer.cb) else MakeGroup(format, elems)
  }

  // A token that opens or closes nothing goes to the end of a list; a unit joins the element before it.
  function Append(elems: seq<Element>, t: Tok): seq<Element>
  {
    if t.token.EmptyContainer? then elems + [EmptyGroup(FormatOf([]), t.cb + 1)]
    else if t.token.Unit? && elems != [] then
      elems[..|elems| - 1] + [Make(Measurement, [elems[|elems| - 1], Leaf(t)])]
    else elems + [Leaf(t)]
  }

  // ---------- recursive descent ----------

  // The elements of a list, the tokens seen in it, what follows its closing bracket, if it has one.
  datatype ListRead = ListRead(elems: seq<Element>, seen: seq<Token>, closed: bool, closer: Tok, rest: seq<Tok>)

  function Read(open: Token, elems: seq<Element>, seen: seq<Token>, toks: seq<Tok>): (r: ListRead)
    ensures |r.rest| <= |toks| && (r.closed ==> |r.rest| < |toks|) && (!r.closed ==> r.rest == [])
    decreases |toks|
  {
    if toks == [] then ListRead(elems, seen, false, Tok(Invalid, 0, 0), [])
    else
      var t, seen', rest := toks[0], seen + [toks[0].token], toks[1..];
      if IsOpener(t.token) then
        var inner := Read(t.token, [], [], rest);
        if inner.closed then
          Read(open, elems + [ClosedGroup(FormatOf(inner.seen), inner.elems, inner.closer)], seen', inner.rest)
        else
          ListRead(
            if inner.elems == [] then elems else elems + [MakeGroup(FormatOf(inner.seen), inner.elems)],
            seen', false, inner.closer, [])
      else if Closes(open, t.token) then ListRead(elems, seen', true, t, rest)
      else Read(open, Append(elems, t), seen', rest)
  }

  // The whole message: its top-level elements and their format.
  function ReadMessage(toks: seq<Tok>): (d: Subs)
    ensures d.List?
  {
    var r := Read(Invalid, [], [], toks);
    List(FormatOf(r.seen), r.elems)
  }

  // ---------- the stack machine ----------

  datatype Machine = Machine(open: seq<Token>, lists: seq<seq<Element>>, states: seq<FormatState>)

  const START := Machine([Invalid], [[]], [INITIAL])

  // The three stacks have the same height and are never empty.
  predicate Level(m: Machine)
  {
    |m.open| == |m.lists| == |m.states| > 0
  }

  function Top<T>(s: seq<T>): T
    requires s != []
  {
    s[|s| - 1]
  }

  function Pop<T>(s: seq<T>): seq<T>
    requires s != []
  {
    s[..|s| - 1]
  }

  function Advance(m: Machine, t: Tok): (m': Machine)
    requires Level(m)
    ensures Level(m') || (|m.open| == 1 && Closes(m.open[0], t.token))
  {
    var states := Pop(m.states) + [Update(Top(m.states), t.token)];
    if IsOpener(t.token) then
      Machine(m.open + [t.token], m.lists + [[]], states + [INITIAL])
    else if Closes(Top(m.open), t.token) then
      if |m.lists| == 1 then Machine([], [], [])
      else
        var format := Finalize(Top(states)).format;
        var lists := Pop(m.lists);
        var parent := Top(lists) + [ClosedGroup(format, Top(m.lists), t)];
        Machine(Pop(m.open), Pop(lists) + [parent], Pop(states))
    else
      Machine(m.open, Pop(m.lists) + [Append(Top(m.lists), t)], states)
  }

  // The machine after a stream; the bottom of the stack is never closed.
  function Advanced(toks: seq<Tok>): (m: Machine)
    ensures Level(m) && m.open[0].Invalid?
  {
    if toks == [] then START else Advance(Advanced(toks[..|toks| - 1]), toks[|toks| - 1])
  }

  // At the end of the stream the open lists are folded into their parents, from the innermost out.  An
  // empty one is dropped, but its format state stays on the stack.
  function Flush(lists: seq<seq<Element>>, states: seq<FormatState>): (r: (seq<Element>, seq<FormatState>))
    requires 0 < |lists| <= |states|
    ensures |r.1| > 0
    decreases |lists|
  {
    if |lists| == 1 then (lists[0], states)
    else if Top(lists) == [] then Flush(Pop(lists), states)
    else
      var format := Finalize(Top(states)).format;
      var below := Pop(lists);
      Flush(Pop(below) + [Top(below) + [MakeGroup(format, Top(lists))]], Pop(states))
  }

  function Discovered(toks: seq<Tok>): (d: Subs)
    ensures d.List?
  {
    var m := Advanced(toks);
    var (elems, states) := Flush(m.lists, m.states);
    List(Finalize(Top(states)).format, elems)
  }

  // ---------- which tokens are kept ----------

  // The brackets that are open after a stream, on top of an entry that nothing closes.
  function OpenAfter(toks: seq<Tok>): (s: seq<Token>)
    ensures s != [] && s[0].Invalid?
  {
    if toks == [] then [Invalid]
    else
      var s, t := OpenAfter(toks[..|toks| - 1]), toks[|toks| - 1].token;
      if IsOpener(t) then s + [t] else if Closes(s[|s| - 1], t) then s[..|s| - 1] else s
  }

  // With open as the innermost open bracket, the token becomes structure.
  predicate IsStructure(open: Token, t: Token)
  {
    IsOpener(t) || t.EmptyContainer? || Closes(open, t)
  }

  // Openers, matched closers and empty containers become structure; every other token is kept.
  function Kept(toks: seq<Tok>): seq<Tok>
  {
    if toks == [] then []
    else
      var before, t := toks[..|toks| - 1], toks[|toks| - 1];
      var s := OpenAfter(before);
      Kept(before) +
      if IsStructure(s[|s| - 1], t.token) then [] else [t]
  }

  // All tokens of a tree, in order.
  ghost function TreeOf(e: Element): seq<Tok>
    decreases e, 0
  {
    if e.subs.Null? then [Tok(e.token, e.cb, e.ce)] else Tree(e.subs.elems)
  }

  ghost function Tree(s: seq<Element>): seq<Tok>
    decreases s, 1
  {
    if s == [] then [] else TreeOf(s[0]) + Tree(s[1..])
  }

  ghost function Flat(lists: seq<seq<Element>>): seq<Element>
  {
    if lists == [] then [] else Flat(Pop(lists)) + Top(lists)
  }
}
