// What has been said so far in a list: keys with their values, values without a key, and keys that nothing answers.
// The stack of the parser holds just that, and the pairs of a list are read off it.
module Boards {
  import opened Tokens
  import opened Elements
  import opened Pairing
  import opened Pairs

  // A key that gets no value has an empty one to take its place.
  datatype Said = Answered(key: Element, value: Element) | Alone(value: Element) | Asked(key: Element, blank: Element)

  function AddKey(text: string, b: seq<Said>, key: Element): seq<Said>
  {
    b + [Asked(key, BlankValue(text, key))]
  }

  predicate Awaits(b: seq<Said>)
  {
    b != [] && b[|b| - 1].Asked?
  }

  // A value answers the key just before it.
  function AddValue(b: seq<Said>, value: Element): seq<Said>
  {
    if Awaits(b) then b[..|b| - 1] + [Answered(b[|b| - 1].key, value)] else b + [Alone(value)]
  }

  function SpreadOne(s: Said): seq<Element>
  {
    match s
    case Answered(key, value) => [key, value]
    case Alone(value) => [value]
    case Asked(key, _) => [key]
  }

  function Spread(b: seq<Said>): seq<Element>
  {
    if b == [] then [] else Spread(b[..|b| - 1]) + SpreadOne(b[|b| - 1])
  }

  predicate SaidOk(text: string, s: Said)
  {
    match s
    case Answered(key, value) => key.token.Key? && value.token.Value?
    case Alone(value) => value.token.Value?
    case Asked(key, blank) => key.token.Key? && blank == BlankValue(text, key)
  }

  predicate BoardOk(text: string, b: seq<Said>)
  {
    && (forall i | 0 <= i < |b| :: SaidOk(text, b[i]))
    && (forall i | 0 < i < |b| :: b[i - 1].Asked? ==> !b[i].Alone?)
  }

  // ---------- what the list has to tell ----------

  // The tokens that are not worth a column of their own.
  predicate IsDropped(t: Token)
  {
    || t.Invalid? || t.Comment? || t.DateTime? || t.H1? || t.H2? || t.H3? || t.Colon? || t.Equals? || t.Comma? || t.Semi?
    || t.Emdash? || t.EmptyContainer? || IsOpener(t) || IsCloser(t) || t.CreditCardNumber? || t.Word? || t.Unit?
    || t.Line? || t.White? || t.Dot? || t.EscapedChar? || t.Csi? || t.Garbage? || t.ZeroWidthSpace?
    || t.DiffFileHeader? || t.DiffHunkHeading? || t.CodeBlock? || t.Key? || t.Pair? || t.Row? || t.Units?
    || t.VariableKey? || t.RowRange?
  }

  // One column for each element that is worth one.
  function Columns(s: seq<Element>): seq<Element>
  {
    if s == [] then []
    else
      var n := |s| - 1;
      Columns(s[..n]) + if IsDropped(s[n].token) then [] else [Make(Pair, [BlankKey(s[n].cb), s[n]])]
  }

  function PairOf(s: Said): Element
  {
    match s
    case Answered(key, value) => Make(Pair, [key, value])
    case Alone(value) => Make(Pair, [BlankKey(value.cb), value])
    case Asked(key, blank) => Make(Pair, [key, blank])
  }

  function PairsOn(b: seq<Said>): (ps: seq<Element>)
    ensures |ps| == |b|
  {
    if b == [] then [] else PairsOn(b[..|b| - 1]) + [PairOf(b[|b| - 1])]
  }

  predicate AllAlone(b: seq<Said>)
  {
    forall i | 0 <= i < |b| :: b[i].Alone?
  }

  // Only a key at the very end gets no pair.
  function Heard(b: seq<Said>): seq<Said>
  {
    if Awaits(b) then b[..|b| - 1] else b
  }

  function AloneValues(b: seq<Said>): seq<Element>
    requires AllAlone(b)
  {
    if b == [] then [] else AloneValues(b[..|b| - 1]) + [b[|b| - 1].value]
  }

  // A single key with a list behind it comes before a row.
  predicate IsHeading(b: seq<Said>)
  {
    |b| == 1 && b[0].Answered? && b[0].value.subs.List? && |b[0].value.subs.elems| > 1
  }

  // Pairs, in the order in which they were said.  In brackets values stay values when there is no key among them.
  function Told(depth: nat, b: seq<Said>): seq<Element>
  {
    var h := Heard(b);
    if AllAlone(h) && depth >= 1 then AloneValues(h)
    else if IsHeading(h) then
      var key, parts := h[0].key, h[0].value.subs.elems;
      [Make(Pair, [BlankKey(key.cb), key])] + if depth >= 1 then parts else Columns(parts)
    else PairsOn(h)
  }

  // ---------- the stack ----------

  lemma SpreadMore(b: seq<Said>, s: Said)
    ensures Spread(b + [s]) == Spread(b) + SpreadOne(s)
  {
    hide SpreadOne;
    assert (b + [s])[..|b|] == b;
  }

  lemma SpreadKey(text: string, b: seq<Said>, key: Element)
    requires BoardOk(text, b) && key.token.Key?
    ensures Spread(AddKey(text, b, key)) == Spread(b) + [key]
    ensures BoardOk(text, AddKey(text, b, key)) && Awaits(AddKey(text, b, key))
  {
    hide Spread, BlankValue;
    SpreadMore(b, Asked(key, BlankValue(text, key)));
  }

  lemma SpreadValue(text: string, b: seq<Said>, value: Element)
    requires BoardOk(text, b) && value.token.Value?
    ensures Spread(AddValue(b, value)) == Spread(b) + [value]
    ensures BoardOk(text, AddValue(b, value)) && !Awaits(AddValue(b, value))
  {
    hide Spread, BlankValue;
    if Awaits(b) {
      var c, k := b[..|b| - 1], b[|b| - 1];
      SpreadMore(c, k);
      SpreadMore(c, Answered(k.key, value));
      assert b == c + [k];
      assert Spread(c) + [k.key, value] == Spread(c) + [k.key] + [value];
    } else {
      SpreadMore(b, Alone(value));
    }
  }

  // The top of the stack is a key exactly when a key has no answer yet.
  lemma SpreadTop(text: string, b: seq<Said>)
    requires BoardOk(text, b)
    ensures Spread(b) == [] <==> b == []
    ensures b != [] ==>
      var top := Spread(b)[|Spread(b)| - 1];
      (top.token.Key? <==> Awaits(b)) && (Awaits(b) ==> top == b[|b| - 1].key && Spread(b[..|b| - 1]) + [top] == Spread(b))
  {
    if b != [] {
      hide Spread, BlankValue;
      SpreadMore(b[..|b| - 1], b[|b| - 1]);
      assert b == b[..|b| - 1] + [b[|b| - 1]];
    } else {
      assert Spread(b) == [];
    }
  }

  lemma BoardSplit(text: string, b: seq<Said>)
    requires BoardOk(text, b) && b != []
    ensures BoardOk(text, b[..|b| - 1]) && SaidOk(text, b[|b| - 1])
    ensures Awaits(b[..|b| - 1]) ==> !b[|b| - 1].Alone?
  {
    hide SaidOk;
  }

  // ---------- reading it off ----------

  // What stands below on the stack is neither key nor value.
  predicate IsBase(base: seq<Element>)
  {
    forall i | 0 <= i < |base| :: !base[i].token.Key? && !base[i].token.Value?
  }

  lemma {:induction false} BaseSilent(text: string, s: seq<Element>, n: nat)
    requires n <= |s| && IsBase(s[..n])
    ensures PairsUpTo(text, s, n) == []
    decreases n
  {
    hide PairAt;
    if n == 0 {
    } else {
      assert forall i | 0 <= i < n :: s[i] == s[..n][i];
      assert s[..n - 1] == s[..n][..n - 1];
      BaseSilent(text, s, n - 1);
      BaseAt(text, s, n - 1);
    }
  }

  lemma BaseAt(text: string, s: seq<Element>, i: nat)
    requires i < |s| && !s[i].token.Key? && !s[i].token.Value?
    ensures PairAt(text, s, i) == []
  {}

  lemma {:induction false} PairsBefore(text: string, s: seq<Element>, t: seq<Element>, n: nat)
    requires n < |s|
    ensures PairsUpTo(text, s + t, n) == PairsUpTo(text, s, n)
    decreases n
  {
    hide BlankValue, BlankPair;
    if n == 0 {
    } else {
      PairsBefore(text, s, t, n - 1);
      assert (s + t)[n - 1] == s[n - 1] && (s + t)[n] == s[n];
      assert n >= 2 ==> (s + t)[n - 2] == s[n - 2];
    }
  }

  // Read from the bottom, the stack gives the pairs of the board; a key on top is not read yet.
  lemma {:induction false} BoardRead(text: string, base: seq<Element>, b: seq<Said>)
    requires IsBase(base) && BoardOk(text, b)
    ensures
      var s := base + Spread(b);
      PairsUpTo(text, s, |s|) == PairsOn(Heard(b))
    decreases |b|
  {
    hide PairsUpTo, Spread, BlankValue, SaidOk;
    if b == [] {
      assert Spread(b) == [] by {
        SpreadTop(text, b);
      }
      assert base + Spread(b) == base && base[..|base|] == base;
      BaseSilent(text, base, |base|);
      assert PairsOn(Heard(b)) == [];
    } else {
      var c, x := b[..|b| - 1], b[|b| - 1];
      var s := base + Spread(c);
      BoardSplit(text, b);
      BoardRead(text, base, c);
      SpreadMore(c, x);
      assert b == c + [x] && base + (Spread(c) + SpreadOne(x)) == s + SpreadOne(x);
      SpreadTop(text, c);
      BoardStep(text, base, c, x);
      assert !Awaits(b) ==> PairsOn(b) == PairsOn(c) + [PairOf(x)];
      assert Awaits(b) ==> Heard(b) == c;
      assert Awaits(c) ==> PairsOn(c) == PairsOn(Heard(c)) + [PairOf(c[|c| - 1])];
    }
  }

  // One thing more: what it adds, and the pair of a key before it that now goes without a value.
  lemma BoardStep(text: string, base: seq<Element>, c: seq<Said>, x: Said)
    requires IsBase(base) && BoardOk(text, c) && SaidOk(text, x) && (Awaits(c) ==> !x.Alone?)
    ensures
      var s := base + Spread(c);
      PairsUpTo(text, s + SpreadOne(x), |s + SpreadOne(x)|) ==
        PairsUpTo(text, s, |s|) + (if Awaits(c) then [PairOf(c[|c| - 1])] else [])
        + if x.Asked? then [] else [PairOf(x)]
  {
    var s, t := base + Spread(c), SpreadOne(x);
    var all, m := s + t, |s|;
    SpreadTop(text, c);
    hide Spread, BoardOk;
    assert m > 0 ==> all[m - 1] == s[m - 1];
    assert m > 0 && c != [] ==> s[m - 1] == Spread(c)[|Spread(c)| - 1];
    assert m > 0 && c == [] ==> s == base;
    assert all[m] == t[0] && (|t| == 2 ==> all[m + 1] == t[1]);
    if m > 0 {
      PairsBefore(text, s, t, m - 1);
      AskedPair(text, s, t, c);
    }
    AddedPairs(text, all, m, x);
  }

  // The last position of what was there before.
  lemma AskedPair(text: string, s: seq<Element>, t: seq<Element>, c: seq<Said>)
    requires s != [] && t != [] && PairsUpTo(text, s + t, |s| - 1) == PairsUpTo(text, s, |s| - 1)
    requires s[|s| - 1].token.Key? <==> Awaits(c)
    requires Awaits(c) ==>
      s[|s| - 1] == c[|c| - 1].key && c[|c| - 1].blank == BlankValue(text, c[|c| - 1].key) && !t[0].token.Value?
    ensures PairsUpTo(text, s + t, |s|) ==
      PairsUpTo(text, s, |s|) + if Awaits(c) then [PairOf(c[|c| - 1])] else []
  {
    hide BlankValue, BlankPair, BlankKey;
    var all, m := s + t, |s|;
    assert all[m - 1] == s[m - 1] && all[m] == t[0] && (m >= 2 ==> all[m - 2] == s[m - 2]);
    assert PairsUpTo(text, all, m) == PairsUpTo(text, all, m - 1) + PairAt(text, all, m - 1);
    assert PairsUpTo(text, s, m) == PairsUpTo(text, s, m - 1) + PairAt(text, s, m - 1);
    hide PairsUpTo;
  }

  // The positions that are added.
  lemma AddedPairs(text: string, all: seq<Element>, m: nat, x: Said)
    requires SaidOk(text, x) && m + |SpreadOne(x)| == |all| && all[m..] == SpreadOne(x)
    requires m > 0 && all[m - 1].token.Key? ==> !x.Alone?
    ensures PairsUpTo(text, all, |all|) == PairsUpTo(text, all, m) + if x.Asked? then [] else [PairOf(x)]
  {
    hide BlankValue;
    var t := SpreadOne(x);
    assert all[m] == all[m..][0] && (|t| == 2 ==> all[m + 1] == all[m..][1]);
    assert PairsUpTo(text, all, m + 1) == PairsUpTo(text, all, m) + PairAt(text, all, m);
    if x.Answered? {
      assert PairsUpTo(text, all, m + 2) == PairsUpTo(text, all, m + 1) + PairAt(text, all, m + 1);
    }
    hide PairsUpTo;
  }

  // ---------- keys that get pairs ----------

  lemma HasPairMore(s: seq<Element>, t: seq<Element>)
    requires 1 <= |t| <= 2 && (|t| == 2 ==> t[0].token.Key?)
    ensures HasPair(s + t) <==> HasPair(s) || (s != [] && s[|s| - 1].token.Key?) || |t| == 2
  {
    var all := s + t;
    if HasPair(s) {
      var i :| 0 <= i < |s| - 1 && s[i].token.Key?;
      assert all[i] == s[i];
    }
    if s != [] {
      assert all[|s| - 1] == s[|s| - 1];
    }
    if |t| == 2 {
      assert all[|s|] == t[0];
    }
    if HasPair(all) {
      var i :| 0 <= i < |all| - 1 && all[i].token.Key?;
      assert i < |s| ==> all[i] == s[i];
    }
  }

  // There are pairs exactly when a key is heard.
  lemma {:induction false} KeysHeard(text: string, base: seq<Element>, b: seq<Said>)
    requires IsBase(base) && BoardOk(text, b)
    ensures HasPair(base + Spread(b)) <==> !AllAlone(Heard(b))
    decreases |b|
  {
    hide HasPair, Spread, BlankValue, SaidOk;
    if b == [] {
      assert Spread(b) == [] by {
        SpreadTop(text, b);
      }
      assert base + [] == base;
      NoKeyInBase(base);
    } else {
      var c, x := b[..|b| - 1], b[|b| - 1];
      var s := base + Spread(c);
      BoardSplit(text, b);
      KeysHeard(text, base, c);
      SpreadMore(c, x);
      SpreadTop(text, c);
      assert b == c + [x] && base + (Spread(c) + SpreadOne(x)) == s + SpreadOne(x);
      OneSpread(text, x);
      HasPairMore(s, SpreadOne(x));
      assert s != [] ==> s[|s| - 1] == if c == [] then base[|base| - 1] else Spread(c)[|Spread(c)| - 1];
      HeardMore(c, x);
    }
  }

  lemma NoKeyInBase(base: seq<Element>)
    requires IsBase(base)
    ensures !HasPair(base)
  {}

  lemma OneSpread(text: string, x: Said)
    requires SaidOk(text, x)
    ensures 1 <= |SpreadOne(x)| <= 2 && (|SpreadOne(x)| == 2 <==> x.Answered?)
    ensures |SpreadOne(x)| == 2 ==> SpreadOne(x)[0].token.Key?
  {
    hide BlankValue;
  }

  lemma HeardMore(c: seq<Said>, x: Said)
    ensures AllAlone(Heard(c + [x])) <==> AllAlone(Heard(c)) && !Awaits(c) && !x.Answered?
  {
    var b := c + [x];
    assert b[..|b| - 1] == c;
    if x.Asked? {
      assert Heard(b) == c;
      assert Awaits(c) ==> c[|c| - 1].Asked?;
    } else {
      assert Heard(b) == b;
      assert b[|c|] == x && forall i | 0 <= i < |c| :: b[i] == c[i];
    }
  }

  // ---------- rows ----------

  lemma ColumnOrDropped(t: Token)
    ensures IsColumn(t) <==> !IsDropped(t)
  {}

  lemma {:induction false} RowIsColumns(s: seq<Element>)
    ensures RowPairs(s) == Columns(s)
    decreases |s|
  {
    hide IsColumn, IsDropped;
    if s == [] {
    } else {
      RowIsColumns(s[..|s| - 1]);
      ColumnOrDropped(s[|s| - 1].token);
    }
  }

  lemma {:induction false} AloneColumns(text: string, b: seq<Said>)
    requires AllAlone(b) && BoardOk(text, b)
    ensures RowPairs(AloneValues(b)) == PairsOn(b)
    decreases |b|
  {
    if b == [] {
    } else {
      BoardSplit(text, b);
      hide IsColumn;
      AloneColumns(text, b[..|b| - 1]);
      ColumnOrDropped(b[|b| - 1].value.token);
      var vs := AloneValues(b);
      assert vs[..|vs| - 1] == AloneValues(b[..|b| - 1]);
    }
  }

  lemma {:induction false} ValuesMore(s: seq<Element>, t: seq<Element>)
    ensures Values(s + t) == Values(s) + Values(t)
    decreases |t|
  {
    if t == [] {
      assert s + t == s && Values(s) + [] == Values(s);
    } else {
      ValuesMore(s, t[..|t| - 1]);
      assert (s + t)[..|s + t| - 1] == s + t[..|t| - 1];
    }
  }

  lemma {:induction false} NoBaseValues(base: seq<Element>)
    requires IsBase(base)
    ensures Values(base) == []
    decreases |base|
  {
    if base == [] {
    } else {
      NoBaseValues(base[..|base| - 1]);
    }
  }

  lemma {:induction false} AloneSpread(text: string, b: seq<Said>)
    requires AllAlone(b) && BoardOk(text, b)
    ensures Values(Spread(b)) == AloneValues(b)
    decreases |b|
  {
    hide BlankValue;
    if b == [] {
    } else {
      BoardSplit(text, b);
      AloneSpread(text, b[..|b| - 1]);
      ValuesMore(Spread(b[..|b| - 1]), SpreadOne(b[|b| - 1]));
      ValueAlone(b[|b| - 1].value);
    }
  }

  lemma ValueAlone(v: Element)
    ensures v.token.Value? ==> Values([v]) == [v]
    ensures v.token.Key? ==> Values([v]) == []
  {
    assert [v][..0] == [];
    assert Values([v]) == Values([v][..0]) + if v.token.Value? then [v] else [];
  }

  // The values that no key has taken.
  lemma FreeValues(text: string, base: seq<Element>, b: seq<Said>)
    requires IsBase(base) && BoardOk(text, b) && AllAlone(Heard(b))
    ensures Values(base + Spread(b)) == AloneValues(Heard(b))
  {
    hide Values, Spread, BlankValue, AloneValues;
    ValuesMore(base, Spread(b));
    NoBaseValues(base);
    if Awaits(b) {
      var c, x := b[..|b| - 1], b[|b| - 1];
      BoardSplit(text, b);
      SpreadMore(c, x);
      assert b == c + [x];
      ValuesMore(Spread(c), [x.key]);
      AloneSpread(text, c);
      ValueAlone(x.key);
    } else {
      AloneSpread(text, b);
    }
  }

  lemma HeadingPrefixed(text: string, h: seq<Said>)
    requires forall i | 0 <= i < |h| :: SaidOk(text, h[i])
    requires !AllAlone(h)
    ensures IsPrefixed(PairsOn(h)) <==> IsHeading(h)
    ensures IsHeading(h) ==> PairsOn(h) == [Make(Pair, [h[0].key, h[0].value])]
  {
    hide SaidOk, PairOf;
    if |h| == 1 {
      assert h[..0] == [] && PairsOn(h) == [PairOf(h[0])];
      assert h[0].Alone? ==> AllAlone(h);
      OnePair(text, h[0]);
    }
    hide PairsOn;
  }

  lemma OnePair(text: string, x: Said)
    requires SaidOk(text, x) && !x.Alone?
    ensures
      var p, v := PairOf(x), if x.Answered? then x.value else x.blank;
      && p.subs.List? && |p.subs.elems| == 2 && p.subs.elems[1] == v && v.token.Value?
      && (x.Asked? ==> v.subs.List? && |v.subs.elems| == 1)
      && (x.Answered? ==> p == Make(Pair, [x.key, x.value]))
  {
    hide AfterKey;
  }

  lemma HeadingRow(h: seq<Said>)
    requires IsHeading(h)
    ensures
      var key, parts := h[0].key, h[0].value.subs.elems;
      && Make(Pair, [key, h[0].value]).subs.elems == [key, h[0].value]
      && RowPairs(parts) == Columns(parts) && BlankPair(key) == Make(Pair, [BlankKey(key.cb), key])
  {
    RowIsColumns(h[0].value.subs.elems);
    hide RowPairs, Columns;
  }

  // At the end of a list the parser tells exactly what is on the board.
  lemma GatherTold(text: string, depth: nat, base: seq<Element>, b: seq<Said>)
    requires IsBase(base) && BoardOk(text, b)
    ensures Gather(text, depth, base + Spread(b), []) == Told(depth, b)
  {
    hide PairsUpTo, HasPair, Spread, BlankValue, AllAlone, AloneValues, Values, PairsOn, Columns, RowPairs, IsPrefixed,
      SaidOk, BlankPair, Make;
    var s, h := base + Spread(b), Heard(b);
    BoardRead(text, base, b);
    KeysHeard(text, base, b);
    if AllAlone(h) {
      FreeValues(text, base, b);
      HeardOk(text, b);
      AloneColumns(text, h);
      assert [] + FreeOf(s) == AloneValues(h) && PairsOf(text, s) == [];
      NotPrefixed();
      HeadingHasKey(h);
    } else {
      HeardOk(text, b);
      HeadingPrefixed(text, h);
      if IsHeading(h) {
        HeadingRow(h);
      } else {
        assert PairsOn(h) != [] by {
          NotAlone(h);
        }
      }
    }
  }

  lemma HeadingHasKey(h: seq<Said>)
    ensures AllAlone(h) ==> !IsHeading(h)
  {}

  lemma NotAlone(h: seq<Said>)
    ensures !AllAlone(h) ==> h != []
  {}

  lemma NotPrefixed()
    ensures !IsPrefixed([])
  {}

  lemma HeardOk(text: string, b: seq<Said>)
    requires BoardOk(text, b)
    ensures BoardOk(text, Heard(b)) && forall i | 0 <= i < |Heard(b)| :: SaidOk(text, Heard(b)[i])
  {
    hide SaidOk;
  }
}
