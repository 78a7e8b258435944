// Elements of a parsed message and the lists that hold them.
module Elements {
  import opened Tokens

  datatype FormatName = Unnamed | SemiFormat | CommaFormat | EmdashFormat | PlainFormat

  datatype Format = Format(
    name: FormatName, appender: Token, terminator: Token, qualifier: Token, separator: Token, prefixTerminator: Token)

  const DEFAULT_FORMAT := Format(Unnamed, Invalid, Invalid, Invalid, Colon, Invalid)
  const FORMAT_SEMI := DEFAULT_FORMAT.(name := SemiFormat, appender := Comma, terminator := Semi)
  const FORMAT_COMMA := DEFAULT_FORMAT.(name := CommaFormat, terminator := Comma)
  const FORMAT_EMDASH := DEFAULT_FORMAT.(name := EmdashFormat, terminator := Emdash)
  const FORMAT_PLAIN := DEFAULT_FORMAT.(name := PlainFormat)

  // An element owns its list of sub-elements; Null means that it has none.
  datatype Element = Element(token: Token, cb: int, ce: int, subs: Subs)
  datatype Subs = Null | List(format: Format, elems: seq<Element>)

  function Leaf(t: Tok): Element
  {
    Element(t.token, t.cb, t.ce, Null)
  }

  // The element built around a list: it takes the list over and spans it.
  function Make(token: Token, elems: seq<Element>): Element
    requires elems != []
  {
    Element(token, elems[0].cb, elems[|elems| - 1].ce, List(DEFAULT_FORMAT, elems))
  }

  // The element built around a list without keeping it.
  function MakeBare(token: Token, elems: seq<Element>): Element
    requires elems != []
  {
    Element(token, elems[0].cb, elems[|elems| - 1].ce, Null)
  }

  // Recomputes the capture from the sub-elements, when there are any.
  function UpdateCapture(e: Element): Element
  {
    if e.subs.Null? || e.subs.elems == [] then e
    else e.(cb := e.subs.elems[0].cb, ce := e.subs.elems[|e.subs.elems| - 1].ce)
  }

  // The copy constructor swaps the sub-elements out of its source: Copy is what the new element
  // holds, Gutted is what is left of the source.
  function Copy(e: Element): Element
  {
    UpdateCapture(e)
  }

  function Gutted(e: Element): Element
  {
    if e.subs.Null? then e else e.(subs := List(e.subs.format, []))
  }

  // The run-time requirement checked by every push at the back of a list.
  predicate PushOk(list: seq<Element>, e: Element)
  {
    && -1 <= e.ce
    && (list == [] || (e.cb == -1 && e.ce == -1) || list[|list| - 1].ce <= e.cb)
  }

  function PushBack(list: seq<Element>, e: Element): seq<Element>
    requires PushOk(list, e)
  {
    list + [Copy(e)]
  }

  // ---------- captures in order ----------

  ghost predicate Sorted(s: seq<Element>)
  {
    forall i, j | 0 <= i < j < |s| :: s[i].ce <= s[j].cb
  }

  // Tokens that always cover at least one character.
  predicate IsWide(t: Token)
  {
    t.Colon? || t.Equals? || t.Comma? || IsSpace(t)
  }

  ghost predicate Plain(e: Element)
  {
    0 <= e.cb <= e.ce && !e.token.Invalid? && (IsWide(e.token) ==> e.cb < e.ce)
  }

  // An element that spans its sub-elements exactly, and these are in order; the elements of a group
  // need only be fair.
  ghost predicate Ok(e: Element)
    decreases e, 1
  {
    && Plain(e)
    && (e.subs.List? && e.subs.elems != [] ==>
          && e.subs.elems[0].cb == e.cb
          && e.subs.elems[|e.subs.elems| - 1].ce == e.ce
          && Sorted(e.subs.elems)
          && forall i | 0 <= i < |e.subs.elems| ::
               if e.token.Group? then Fair(e.subs.elems[i]) else Ok(e.subs.elems[i]))
  }

  // A group still in the list it was found in may be wider than the elements it holds: its capture is
  // brought up to date only when it is copied.
  ghost predicate Fair(e: Element)
    decreases e, 2
  {
    if !e.token.Group? then Ok(e)
    else
      && Plain(e)
      && (e.subs.List? && e.subs.elems != [] ==>
            && e.cb <= e.subs.elems[0].cb
            && e.subs.elems[|e.subs.elems| - 1].ce <= e.ce
            && Sorted(e.subs.elems)
            && forall i | 0 <= i < |e.subs.elems| :: Fair(e.subs.elems[i]))
  }

  // The elements are in order and lie between lo and hi.
  ghost predicate Laid(s: seq<Element>, lo: int, hi: int)
  {
    && lo <= hi
    && Sorted(s)
    && forall i | 0 <= i < |s| :: Ok(s[i]) && lo <= s[i].cb && s[i].ce <= hi
  }

  ghost predicate FairlyLaid(s: seq<Element>, lo: int, hi: int)
  {
    && lo <= hi
    && Sorted(s)
    && forall i | 0 <= i < |s| :: Fair(s[i]) && lo <= s[i].cb && s[i].ce <= hi
  }

  lemma OkIsFair(e: Element)
    requires Ok(e)
    ensures Fair(e)
  {}

  lemma FairIsPlain(e: Element)
    requires Fair(e)
    ensures Plain(e)
  {}

  // What fairness says about a group, once.
  lemma FairGroup(e: Element)
    requires e.token.Group?
    ensures Fair(e) <==>
      && Plain(e)
      && (e.subs.List? && e.subs.elems != [] ==>
            && e.cb <= e.subs.elems[0].cb
            && e.subs.elems[|e.subs.elems| - 1].ce <= e.ce
            && FairlyLaid(e.subs.elems, e.subs.elems[0].cb, e.subs.elems[|e.subs.elems| - 1].ce))
  {
    if e.subs.List? && e.subs.elems != [] {
      hide Ok;
      var s := e.subs.elems;
      if Sorted(s) && forall i | 0 <= i < |s| :: Fair(s[i]) {
        FairBounds(s);
      }
    }
  }

  // A group that spans fair elements exactly is in order.
  lemma GroupOk(e: Element)
    requires e.token.Group? && e.subs.List? && e.subs.elems != [] && Plain(e)
    requires e.subs.elems[0].cb == e.cb && e.subs.elems[|e.subs.elems| - 1].ce == e.ce
    requires FairlyLaid(e.subs.elems, e.cb, e.ce)
    ensures Ok(e)
  {
    hide Fair;
  }

  // Fair elements in order lie between the ends of the first and the last.
  lemma FairBounds(s: seq<Element>)
    requires s != [] && Sorted(s) && forall i | 0 <= i < |s| :: Fair(s[i])
    ensures FairlyLaid(s, s[0].cb, s[|s| - 1].ce)
  {
    hide Fair;
    FairIsPlain(s[0]);
    FairIsPlain(s[|s| - 1]);
    forall i | 0 <= i < |s|
      ensures s[0].cb <= s[i].cb && s[i].ce <= s[|s| - 1].ce
    {
      FairIsPlain(s[i]);
      assert i > 0 ==> s[0].ce <= s[i].cb;
      assert i < |s| - 1 ==> s[i].ce <= s[|s| - 1].cb;
    }
  }

  lemma LaidIsFair(s: seq<Element>, lo: int, hi: int)
    requires Laid(s, lo, hi)
    ensures FairlyLaid(s, lo, hi)
  {
    forall i | 0 <= i < |s|
      ensures Fair(s[i])
    {
      OkIsFair(s[i]);
    }
  }

  lemma CopyOk(e: Element)
    requires Ok(e)
    ensures Copy(e) == e
  {}

  lemma CopyLeaves(e: Element)
    ensures LeavesOf(Copy(e)) == LeavesOf(e)
  {}

  // Copying a fair element tightens it within its capture.
  lemma CopyFair(e: Element)
    requires Fair(e)
    ensures Ok(Copy(e)) && e.cb <= Copy(e).cb && Copy(e).ce <= e.ce
    ensures LeavesOf(Copy(e)) == LeavesOf(e)
  {
    CopyLeaves(e);
    if !e.token.Group? {
      CopyOk(e);
    } else {
      FairGroup(e);
      hide Fair, Ok, LeavesOf;
      if e.subs.List? && e.subs.elems != [] {
        FairIsPlain(e.subs.elems[0]);
        FairIsPlain(e.subs.elems[|e.subs.elems| - 1]);
        GroupOk(Copy(e));
      } else {
        BareGroupOk(e);
      }
    }
  }

  lemma BareGroupOk(e: Element)
    requires Plain(e) && e.token.Group? && (e.subs.Null? || e.subs.elems == [])
    ensures Ok(e)
  {}

  lemma SubsLaid(e: Element)
    requires Ok(e) && e.subs.List? && !e.token.Group?
    ensures Laid(e.subs.elems, e.cb, e.ce)
  {
    var s := e.subs.elems;
    forall i | 0 <= i < |s|
      ensures Ok(s[i]) && e.cb <= s[i].cb && s[i].ce <= e.ce
    {
      assert i > 0 ==> s[0].ce <= s[i].cb;
      assert i < |s| - 1 ==> s[i].ce <= s[|s| - 1].cb;
    }
  }

  lemma SubsFair(e: Element)
    requires Fair(e) && e.subs.List? && e.token.Group?
    ensures FairlyLaid(e.subs.elems, e.cb, e.ce)
  {
    hide Fair, Ok;
    FairGroup(e);
  }

  // A group keeps its place whatever fair elements it is given within its capture.
  lemma GroupFair(e: Element, format: Format, s: seq<Element>)
    requires Plain(e) && e.token.Group? && FairlyLaid(s, e.cb, e.ce)
    ensures
      var e' := e.(subs := List(format, s));
      && Fair(e') && Fair(UpdateCapture(e'))
      && e.cb <= UpdateCapture(e').cb && UpdateCapture(e').ce <= e.ce
  {
    hide Fair, Ok, Sorted;
    var e' := e.(subs := List(format, s));
    FairGroup(e');
    if s != [] {
      assert FairlyLaid(s, s[0].cb, s[|s| - 1].ce) by {
        FairBounds(s);
      }
      FairIsPlain(s[0]);
      FairIsPlain(s[|s| - 1]);
      var e'' := UpdateCapture(e');
      FairGroup(e'');
    }
  }

  lemma MakeOk(token: Token, s: seq<Element>, lo: int, hi: int)
    requires Laid(s, lo, hi) && s != [] && !token.Invalid? && !IsWide(token)
    ensures Laid([Make(token, s)], lo, hi)
    ensures Laid([MakeBare(token, s)], lo, hi)
  {
    forall i | 0 <= i < |s|
      ensures Fair(s[i])
    {
      OkIsFair(s[i]);
    }
    hide Fair;
    assert |s| > 1 ==> s[0].ce <= s[|s| - 1].cb;
    assert Ok(Make(token, s));
  }

  lemma LaidConcat(a: seq<Element>, b: seq<Element>, lo: int, mid: int, hi: int)
    requires Laid(a, lo, mid) && Laid(b, mid, hi)
    ensures Laid(a + b, lo, hi)
  {}

  // Where b begins, or hi when it is empty.
  function Start(b: seq<Element>, hi: int): int
  {
    if b == [] then hi else b[0].cb
  }

  lemma LaidSplit(a: seq<Element>, b: seq<Element>, lo: int, hi: int)
    requires Laid(a + b, lo, hi)
    ensures lo <= Start(b, hi) <= hi
    ensures Laid(a, lo, Start(b, hi)) && Laid(b, Start(b, hi), hi)
  {
    var s := a + b;
    forall i | 0 <= i < |a|
      ensures Ok(a[i]) && lo <= a[i].cb && a[i].ce <= Start(b, hi)
    {
      assert a[i] == s[i];
      assert b != [] ==> s[|a|] == b[0];
    }
    forall i | 0 <= i < |b|
      ensures Ok(b[i]) && Start(b, hi) <= b[i].cb && b[i].ce <= hi
    {
      assert b[i] == s[|a| + i] && b[0] == s[|a|];
    }
    forall i, j | 0 <= i < j < |a|
      ensures a[i].ce <= a[j].cb
    {
      assert a[i] == s[i] && a[j] == s[j];
    }
    forall i, j | 0 <= i < j < |b|
      ensures b[i].ce <= b[j].cb
    {
      assert b[i] == s[|a| + i] && b[j] == s[|a| + j];
    }
  }

  lemma FairSplit(a: seq<Element>, e: Element, lo: int, hi: int)
    requires FairlyLaid(a + [e], lo, hi)
    ensures FairlyLaid(a, lo, e.cb) && Fair(e) && lo <= e.cb && e.ce <= hi
  {
    var s := a + [e];
    assert s[|a|] == e;
    forall i | 0 <= i < |a|
      ensures Fair(a[i]) && lo <= a[i].cb && a[i].ce <= e.cb
    {
      assert a[i] == s[i];
    }
    forall i, j | 0 <= i < j < |a|
      ensures a[i].ce <= a[j].cb
    {
      assert a[i] == s[i] && a[j] == s[j];
    }
  }

  lemma FairPush(a: seq<Element>, e: Element, lo: int, hi: int)
    requires FairlyLaid(a, lo, e.cb) && Fair(e) && e.ce <= hi
    ensures FairlyLaid(a + [e], lo, hi)
  {
    FairIsPlain(e);
    hide Fair;
  }

  lemma LaidUp(s: seq<Element>, lo: int, p: int, q: int)
    requires Laid(s, lo, p) && p <= q
    ensures Laid(s, lo, q)
  {
    hide Ok;
  }

  lemma LaidPush(a: seq<Element>, e: Element, lo: int, hi: int)
    requires Laid(a + [e], lo, hi)
    ensures PushOk(a, e) && Copy(e) == e
  {
    var s := a + [e];
    assert s[|a|] == e;
    if a != [] {
      assert s[|a| - 1] == a[|a| - 1];
    }
    CopyOk(e);
  }

  // ---------- leaves ----------

  // The leaves that carry text: every terminal token except an empty quoted string, which cannot be
  // told from the placeholder the parser inserts for a missing value.
  predicate IsText(t: Token, cb: int, ce: int)
  {
    IsTerminal(t) && !(t.QuotedString? && cb == ce)
  }

  ghost function LeavesOf(e: Element): seq<Tok>
    decreases e, 0
  {
    if e.subs.Null? then (if IsText(e.token, e.cb, e.ce) then [Tok(e.token, e.cb, e.ce)] else [])
    else Leaves(e.subs.elems)
  }

  ghost function Leaves(s: seq<Element>): seq<Tok>
    decreases s, 1
  {
    if s == [] then [] else LeavesOf(s[0]) + Leaves(s[1..])
  }

  lemma {:induction false} LeavesConcat(a: seq<Element>, b: seq<Element>)
    ensures Leaves(a + b) == Leaves(a) + Leaves(b)
    decreases |a|
  {
    hide LeavesOf;
    if a == [] {
      assert a + b == b;
    } else {
      LeavesConcat(a[1..], b);
      assert (a + b)[1..] == a[1..] + b && (a + b)[0] == a[0];
    }
  }

  lemma LeavesOne(e: Element)
    ensures Leaves([e]) == LeavesOf(e)
  {
    assert [e][1..] == [];
    assert LeavesOf(e) + [] == LeavesOf(e);
  }

  // ---------- subsequences ----------

  ghost predicate Subseq<T(!new)>(a: seq<T>, b: seq<T>)
    decreases |b|
  {
    a == [] || (b != [] && (Subseq(a, b[1..]) || (a[0] == b[0] && Subseq(a[1..], b[1..]))))
  }

  lemma {:induction false} SubseqRefl<T(!new)>(a: seq<T>)
    ensures Subseq(a, a)
    decreases |a|
  {
    if a == [] {
    } else {
      SubseqRefl(a[1..]);
    }
  }

  lemma {:induction false} SubseqConcat<T(!new)>(a: seq<T>, b: seq<T>, c: seq<T>, d: seq<T>)
    requires Subseq(a, b) && Subseq(c, d)
    ensures Subseq(a + c, b + d)
    decreases |b|
  {
    if b == [] {
      assert a + c == c && b + d == d;
    } else {
      assert (b + d)[1..] == b[1..] + d;
      if Subseq(a, b[1..]) {
        SubseqConcat(a, b[1..], c, d);
      } else {
        SubseqConcat(a[1..], b[1..], c, d);
        assert (a + c)[1..] == a[1..] + c;
      }
    }
  }

  lemma {:induction false} SubseqTrans<T(!new)>(a: seq<T>, b: seq<T>, c: seq<T>)
    requires Subseq(a, b) && Subseq(b, c)
    ensures Subseq(a, c)
    decreases |c|
  {
    if a == [] || b == [] {
    } else if Subseq(b, c[1..]) {
      SubseqTrans(a, b, c[1..]);
    } else if Subseq(a, b[1..]) {
      SubseqTrans(a, b[1..], c[1..]);
    } else {
      SubseqTrans(a[1..], b[1..], c[1..]);
    }
  }

  // ---------- lists made from other lists ----------

  // out is built from the elements of inp, in their order and without using any of them twice: its
  // leaves are a subsequence of those of inp, and it lies in order wherever inp does.
  ghost predicate Fits(out: seq<Element>, inp: seq<Element>)
  {
    && Subseq(Leaves(out), Leaves(inp))
    && forall lo, hi | Laid(inp, lo, hi) :: Laid(out, lo, hi)
  }

  lemma FitsLaid(out: seq<Element>, inp: seq<Element>, lo: int, hi: int)
    requires Fits(out, inp) && Laid(inp, lo, hi)
    ensures Laid(out, lo, hi)
  {
    hide Laid, Subseq;
  }

  lemma FitsRefl(s: seq<Element>)
    ensures Fits(s, s)
  {
    SubseqRefl(Leaves(s));
  }

  lemma FitsNothing(s: seq<Element>)
    ensures Fits([], s)
  {}

  lemma FitsTrans(a: seq<Element>, b: seq<Element>, c: seq<Element>)
    requires Fits(a, b) && Fits(b, c)
    ensures Fits(a, c)
  {
    SubseqTrans(Leaves(a), Leaves(b), Leaves(c));
  }

  lemma FitsConcat(a: seq<Element>, b: seq<Element>, c: seq<Element>, d: seq<Element>)
    requires Fits(a, b) && Fits(c, d)
    ensures Fits(a + c, b + d)
  {
    LeavesConcat(a, c);
    LeavesConcat(b, d);
    SubseqConcat(Leaves(a), Leaves(b), Leaves(c), Leaves(d));
    forall lo, hi | Laid(b + d, lo, hi)
      ensures Laid(a + c, lo, hi)
    {
      LaidSplit(b, d, lo, hi);
      LaidConcat(a, c, lo, Start(d, hi), hi);
    }
  }

  // A stretch of a list fits it.
  lemma FitsSlice(s: seq<Element>, i: nat, j: nat)
    requires i <= j <= |s|
    ensures Fits(s[i..j], s)
  {
    hide Fits;
    FitsNothing(s[..i]);
    FitsRefl(s[i..j]);
    FitsNothing(s[j..]);
    FitsConcat([], s[..i], s[i..j], s[i..j]);
    FitsConcat([] + s[i..j], s[..i] + s[i..j], [], s[j..]);
    assert [] + s[i..j] + [] == s[i..j];
    assert s[..i] + s[i..j] + s[j..] == s;
  }

  // So does what is left when a stretch is taken out.
  lemma FitsWithout(s: seq<Element>, i: nat, j: nat)
    requires i <= j <= |s|
    ensures Fits(s[..i] + s[j..], s)
  {
    FitsRefl(s[..i]);
    FitsRefl(s[j..]);
    FitsNothing(s[i..j]);
    FitsConcat(s[..i], s[..i], [], s[i..j]);
    FitsConcat(s[..i] + [], s[..i] + s[i..j], s[j..], s[j..]);
    assert s[..i] + [] + s[j..] == s[..i] + s[j..];
    assert s[..i] + s[i..j] + s[j..] == s;
  }

  lemma FitsMake(token: Token, s: seq<Element>)
    requires s != [] && !token.Invalid? && !IsWide(token)
    ensures Fits([Make(token, s)], s)
  {
    hide Ok, Subseq;
    LeavesOne(Make(token, s));
    SubseqRefl(Leaves(s));
    forall lo, hi | Laid(s, lo, hi)
      ensures Laid([Make(token, s)], lo, hi)
    {
      MakeOk(token, s, lo, hi);
    }
  }

  lemma FitsMakeBare(token: Token, s: seq<Element>)
    requires s != [] && !IsTerminal(token) && !token.Invalid? && !IsWide(token)
    ensures Fits([MakeBare(token, s)], s)
  {
    assert Leaves([MakeBare(token, s)]) == [];
    forall lo, hi | Laid(s, lo, hi)
      ensures Laid([MakeBare(token, s)], lo, hi)
    {
      MakeOk(token, s, lo, hi);
    }
  }
}
