// The message template: the text up to each value, with a '#' in place of the value.
module Template {
  import opened Elements
  import opened PairsProof

  predicate IsQuote(c: char)
  {
    c == '\'' || c == '"'
  }

  // The text before a value without the quotes at its ends, and without the prefix letter of a quoted
  // string.  Texts of a single character are left alone.
  function Trimmed(segment: string): string
  {
    var n := |segment|;
    if n < 2 then segment
    else
      var s :=
        if !IsQuote(segment[n - 1]) then segment
        else if segment[n - 2] == 'r' || segment[n - 2] == 'u' then segment[..n - 2]
        else segment[..n - 1];
      if s != [] && IsQuote(s[0]) then s[1..] else s
  }

  // What may stand at the end of a text and goes: a quote, alone or behind the letter of a raw or a unicode string.
  predicate IsEnding(back: string)
  {
    back == "" || (|back| == 1 && IsQuote(back[0]))
    || (|back| == 2 && (back[0] == 'r' || back[0] == 'u') && IsQuote(back[1]))
  }

  // Of a text in quotes exactly the text is left.
  lemma TrimmedBody(front: string, body: string, back: string)
    requires front == "" || (|front| == 1 && IsQuote(front[0]))
    requires |body| >= 2 && !IsQuote(body[0]) && !IsQuote(body[|body| - 1]) && IsEnding(back)
    requires |back| == 1 ==> body[|body| - 1] != 'r' && body[|body| - 1] != 'u'
    ensures Trimmed(front + body + back) == body
  {
    var t := front + body;
    assert t[|t| - 1] == body[|body| - 1] && t[0] == (if front == "" then body[0] else front[0]);
    EndingGone(t, back);
    assert t[|front|..] == body;
    assert front + body + back == t + back;
  }

  lemma EndingGone(t: string, back: string)
    requires |t| >= 2 && !IsQuote(t[|t| - 1]) && IsEnding(back)
    requires |back| == 1 ==> t[|t| - 1] != 'r' && t[|t| - 1] != 'u'
    ensures Trimmed(t + back) == if IsQuote(t[0]) then t[1..] else t
  {
    hide IsQuote;
    var s, n := t + back, |t + back|;
    assert s[0] == t[0] && s[..|t|] == t;
    if back == "" {
      assert s == t;
    } else {
      assert s[n - 1] == back[|back| - 1] && s[n - 2] == if |back| == 1 then t[|t| - 1] else back[0];
    }
  }

  function ValueElem(e: Element): Element
  {
    if e.token.Pair? && e.subs.List? && e.subs.elems != [] then e.subs.elems[|e.subs.elems| - 1] else e
  }

  // A value's capture lies within the text.
  predicate Within(text: string, e: Element)
  {
    0 <= e.cb <= e.ce <= |text|
  }

  // The text from begin up to the value of an element; nothing when the value starts before begin.
  function UpToValue(text: string, begin: nat, e: Element): string
    requires Within(text, ValueElem(e))
  {
    if begin <= ValueElem(e).cb then Trimmed(text[begin..ValueElem(e).cb]) else ""
  }

  ghost predicate AllWithin(text: string, pairs: seq<Element>)
  {
    forall i | 0 <= i < |pairs| :: Within(text, ValueElem(pairs[i]))
  }

  // Where the text after the first n values begins.
  function BeginAfter(begin: nat, pairs: seq<Element>, n: nat): int
    requires n <= |pairs|
  {
    if n == 0 then begin else ValueElem(pairs[n - 1]).ce
  }

  function Tail(text: string, begin: nat): string
  {
    if begin < |text| then text[if IsQuote(text[begin]) then begin + 1 else begin..] else ""
  }

  // ---------- templates with holes ----------

  // A template, the positions of its holes and the texts that belong there.
  datatype Holed = Holed(template: string, holes: seq<int>, values: seq<string>)

  ghost predicate IsHoled(f: Holed)
  {
    && |f.holes| == |f.values|
    && (forall i | 0 <= i < |f.holes| :: 0 <= f.holes[i] < |f.template| && f.template[f.holes[i]] == '#')
    && (forall i, j | 0 <= i < j < |f.holes| :: f.holes[i] < f.holes[j])
  }

  function Init(f: Holed, hole: int): Holed
    requires |f.holes| == |f.values| > 0 && 0 <= hole < |f.template|
  {
    Holed(f.template[..hole], f.holes[..|f.holes| - 1], f.values[..|f.values| - 1])
  }

  // Each hole is replaced by the value of the same number, from the last one on.
  ghost function Fill(f: Holed): string
    requires IsHoled(f)
    decreases |f.holes|
  {
    var n := |f.holes| - 1;
    if n < 0 then f.template
    else Fill(Init(f, f.holes[n])) + f.values[n] + f.template[f.holes[n] + 1..]
  }

  function AddText(f: Holed, part: string): Holed
  {
    f.(template := f.template + part)
  }

  function AddHole(f: Holed, value: string): Holed
  {
    Holed(f.template + "#", f.holes + [|f.template|], f.values + [value])
  }

  // The template up to the n-th value, with the values it leaves out.
  ghost function RenderUpTo(text: string, begin: nat, pairs: seq<Element>, n: nat): Holed
    requires n <= |pairs| && AllWithin(text, pairs)
  {
    if n == 0 then Holed("", [], [])
    else
      var e := ValueElem(pairs[n - 1]);
      var part := UpToValue(text, BeginAfter(begin, pairs, n - 1), pairs[n - 1]);
      AddHole(AddText(RenderUpTo(text, begin, pairs, n - 1), part), text[e.cb..e.ce])
  }

  ghost function Render(text: string, begin: nat, pairs: seq<Element>): Holed
    requires AllWithin(text, pairs)
  {
    AddText(RenderUpTo(text, begin, pairs, |pairs|), Tail(text, BeginAfter(begin, pairs, |pairs|)))
  }

  // ---------- the round trip ----------

  // The values follow each other from begin on.
  ghost predicate InOrder(text: string, begin: nat, pairs: seq<Element>)
  {
    && begin <= |text|
    && AllWithin(text, pairs)
    && forall n | 0 <= n < |pairs| :: BeginAfter(begin, pairs, n) <= ValueElem(pairs[n]).cb
  }

  // A text that loses characters: two or more of them, with a quote at either end.
  predicate IsTrimmed(segment: string)
  {
    |segment| >= 2 && (IsQuote(segment[0]) || IsQuote(segment[|segment| - 1]))
  }

  // None of the texts before the first n values loses characters.
  ghost predicate KeepsAll(text: string, begin: nat, pairs: seq<Element>, n: nat)
    requires n <= |pairs| && InOrder(text, begin, pairs)
  {
    forall i | 0 <= i < n :: !IsTrimmed(text[BeginAfter(begin, pairs, i)..ValueElem(pairs[i]).cb])
  }

  ghost predicate KeepsTail(text: string, begin: nat, pairs: seq<Element>)
    requires InOrder(text, begin, pairs)
  {
    var b := BeginAfter(begin, pairs, |pairs|);
    b < |text| ==> !IsQuote(text[b])
  }

  lemma TrimmedLength(segment: string)
    ensures !IsTrimmed(segment) ==> Trimmed(segment) == segment
    ensures IsTrimmed(segment) ==> |Trimmed(segment)| < |segment|
  {}

  lemma FillText(f: Holed, part: string)
    requires IsHoled(f)
    ensures IsHoled(AddText(f, part)) && Fill(AddText(f, part)) == Fill(f) + part
  {
    var g, n := AddText(f, part), |f.holes| - 1;
    assert forall i | 0 <= i < |f.holes| :: g.template[f.holes[i]] == f.template[f.holes[i]];
    if n >= 0 {
      assert g.template[..f.holes[n]] == f.template[..f.holes[n]];
      assert g.template[f.holes[n] + 1..] == f.template[f.holes[n] + 1..] + part;
    }
  }

  lemma FillHole(f: Holed, value: string)
    requires IsHoled(f)
    ensures IsHoled(AddHole(f, value)) && Fill(AddHole(f, value)) == Fill(f) + value
  {
    var g, n := AddHole(f, value), |f.holes|;
    assert forall i | 0 <= i < n :: g.template[f.holes[i]] == f.template[f.holes[i]];
    assert g.template[..|f.template|] == f.template && g.template[|f.template| + 1..] == "";
    assert g.holes[..n] == f.holes && g.values[..n] == f.values;
    assert Init(g, |f.template|) == f;
  }

  // What filling the first n holes gives: never more than the text up to there, and the text itself
  // exactly when nothing was trimmed.
  lemma {:induction false} FillUpTo(text: string, begin: nat, pairs: seq<Element>, n: nat)
    requires n <= |pairs| && InOrder(text, begin, pairs)
    ensures
      var f, b := RenderUpTo(text, begin, pairs, n), BeginAfter(begin, pairs, n);
      && IsHoled(f) && |f.holes| == n && begin <= b <= |text|
      && (KeepsAll(text, begin, pairs, n) ==> Fill(f) == text[begin..b])
      && (!KeepsAll(text, begin, pairs, n) ==> |Fill(f)| < b - begin)
  {
    hide Fill, Trimmed, KeepsAll, IsHoled, IsTrimmed, InOrder, RenderUpTo, BeginAfter, AddText, AddHole, AllWithin;
    if n == 0 {
      RenderNothing(text, begin, pairs);
    } else {
      KeepsStep(text, begin, pairs, n);
      RenderStep(text, begin, pairs, n);
      FillUpTo(text, begin, pairs, n - 1);
      var f, b, e := RenderUpTo(text, begin, pairs, n - 1), BeginAfter(begin, pairs, n - 1), ValueElem(pairs[n - 1]);
      var segment, value := text[b..e.cb], text[e.cb..e.ce];
      TrimmedLength(segment);
      FillText(f, Trimmed(segment));
      FillHole(AddText(f, Trimmed(segment)), value);
      Slices(text, begin, b, e.cb, e.ce);
    }
  }

  lemma Slices(text: string, a: nat, b: nat, c: nat, d: nat)
    requires a <= b <= c <= d <= |text|
    ensures text[a..b] + text[b..c] + text[c..d] == text[a..d]
  {}

  lemma RenderNothing(text: string, begin: nat, pairs: seq<Element>)
    requires InOrder(text, begin, pairs)
    ensures
      var f, b := RenderUpTo(text, begin, pairs, 0), BeginAfter(begin, pairs, 0);
      && IsHoled(f) && f.holes == [] && Fill(f) == "" && b == begin <= |text| && KeepsAll(text, begin, pairs, 0)
  {}

  lemma RenderStep(text: string, begin: nat, pairs: seq<Element>, n: nat)
    requires 0 < n <= |pairs| && InOrder(text, begin, pairs)
    ensures
      var f, b, e := RenderUpTo(text, begin, pairs, n - 1), BeginAfter(begin, pairs, n - 1), ValueElem(pairs[n - 1]);
      && RenderUpTo(text, begin, pairs, n) == AddHole(AddText(f, Trimmed(text[b..e.cb])), text[e.cb..e.ce])
      && BeginAfter(begin, pairs, n) == e.ce && |RenderUpTo(text, begin, pairs, n).holes| == |f.holes| + 1
  {
    hide Trimmed, IsTrimmed;
  }

  lemma KeepsStep(text: string, begin: nat, pairs: seq<Element>, n: nat)
    requires 0 < n <= |pairs| && InOrder(text, begin, pairs)
    ensures AllWithin(text, pairs) && Within(text, ValueElem(pairs[n - 1]))
    ensures 0 <= BeginAfter(begin, pairs, n - 1) <= ValueElem(pairs[n - 1]).cb
    ensures KeepsAll(text, begin, pairs, n) <==>
      KeepsAll(text, begin, pairs, n - 1)
      && !IsTrimmed(text[BeginAfter(begin, pairs, n - 1)..ValueElem(pairs[n - 1]).cb])
  {
    hide IsTrimmed;
  }

  // Filling the holes of a template, one for each pair, with the values it was made from gives back the
  // text, exactly when no text around a value has a quote at its end.
  lemma TemplateRoundTrip(text: string, begin: nat, pairs: seq<Element>)
    requires InOrder(text, begin, pairs)
    ensures
      var f := Render(text, begin, pairs);
      && IsHoled(f) && |f.holes| == |pairs|
      && (Fill(f) == text[begin..] <==> KeepsAll(text, begin, pairs, |pairs|) && KeepsTail(text, begin, pairs))
  {
    hide Fill, IsHoled, KeepsAll, RenderUpTo, Tail;
    var n := |pairs|;
    FillUpTo(text, begin, pairs, n);
    var f, b := RenderUpTo(text, begin, pairs, n), BeginAfter(begin, pairs, n);
    FillText(f, Tail(text, b));
    TailLength(text, b);
    Slices(text, begin, b, |text|, |text|);
    assert text[begin..] == text[begin..|text|] && text[b..|text|] == text[b..];
    assert KeepsTail(text, begin, pairs) <==> (b < |text| ==> !IsQuote(text[b]));
  }

  lemma TailLength(text: string, b: nat)
    requires b <= |text|
    ensures (b < |text| ==> !IsQuote(text[b])) ==> Tail(text, b) == text[b..]
    ensures b < |text| && IsQuote(text[b]) ==> |Tail(text, b)| < |text| - b
  {}

  // A text without quotes always comes back.
  lemma UnquotedRoundTrip(text: string, begin: nat, pairs: seq<Element>)
    requires InOrder(text, begin, pairs)
    requires forall i | begin <= i < |text| :: !IsQuote(text[i])
    ensures KeepsAll(text, begin, pairs, |pairs|) && KeepsTail(text, begin, pairs)
  {
    forall n | 0 <= n <= |pairs|
      ensures begin <= BeginAfter(begin, pairs, n)
    {
      FillUpTo(text, begin, pairs, n);
    }
  }

  // ---------- the values of ordered pairs follow each other ----------

  lemma LaidInOrder(text: string, begin: nat, pairs: seq<Element>)
    requires Laid(pairs, begin, |text|) && ArePairs(pairs)
    ensures InOrder(text, begin, pairs)
  {
    forall i | 0 <= i < |pairs|
      ensures pairs[i].cb <= ValueElem(pairs[i]).cb <= ValueElem(pairs[i]).ce == pairs[i].ce <= |text|
    {
      SubsLaid(pairs[i]);
    }
  }
}
