// One pass of the pairing loop: how each element of a list moves the key components to the stack of
// keys and values.
module Pairing {
  import opened Tokens
  import opened Elements
  import opened KeyScan

  // ---------- the parts pushed on the stack ----------

  function WithoutCommas(s: seq<Element>): seq<Element>
  {
    if s == [] then []
    else WithoutCommas(s[..|s| - 1]) + if s[|s| - 1].token.Comma? then [] else [s[|s| - 1]]
  }

  function ValueOf(value: seq<Element>): seq<Element>
  {
    var v := WithoutCommas(Stripped(value));
    if v == [] then [] else [Make(Value, v)]
  }

  // What remains of the key components becomes a value, or a key that keeps no sub-elements; after a
  // scan that took values apart only the last component counts.
  function KeyOf(comps: seq<Element>, mixed: bool, asValue: bool): seq<Element>
  {
    var k := Stripped(comps);
    if k == [] then []
    else
      var k' := if mixed then k[|k| - 1..] else k;
      if asValue then [Make(Value, k')] else [MakeBare(Key, k')]
  }

  function GroupValue(e: Element): seq<Element>
  {
    if e.token.Group? then [Make(Value, [e])] else []
  }

  // ---------- a separator or a group ----------

  // A key is on the stack and its terminator is still to come, so the components belong to its value.
  predicate Waits(fmt: Format, o: Outcome)
  {
    && !o.found && !o.mixed && o.comps != []
    && |o.stack| > 1 && !fmt.appender.Invalid? && !fmt.terminator.Invalid?
  }

  // Without any break the last component is the new key and those before it the value of the old one.
  predicate SplitsLast(o: Outcome)
  {
    !o.found && !o.mixed && o.stack != [] && o.comps != []
  }

  function AtSeparator(fmt: Format, stack: seq<Element>, comps: seq<Element>, e: Element): (seq<Element>, seq<Element>)
  {
    var o := Scan(fmt, stack, comps);
    if Waits(fmt, o) then (stack, comps)
    else
      var n := |o.comps|;
      var value := if SplitsLast(o) then o.comps[..n - 1] else o.value;
      var keys := if SplitsLast(o) then o.comps[n - 1..] else o.comps;
      (o.stack + ValueOf(value) + KeyOf(keys, o.mixed, o.keyIsValues && !o.mixed) + GroupValue(e), [])
  }

  // ---------- the end of a value ----------

  // Two components left over and no key waiting for them: the first is the key of the second.
  predicate IsKeyed(stack: seq<Element>, value: seq<Element>)
  {
    && |value| == 2
    && (IsKeyWord(value[0]) || value[0].token.Id?)
    && stack != [] && !stack[|stack| - 1].token.Key?
  }

  function AtEnd(fmt: Format, stack: seq<Element>, comps: seq<Element>): seq<Element>
  {
    var o := Scan(fmt, stack, comps);
    if !o.mixed && o.stack != [] && o.comps != [] then
      var value := o.value + o.comps;
      if IsKeyed(o.stack, value) then o.stack + [MakeBare(Key, value[..1])] + ValueOf(value[1..])
      else o.stack + ValueOf(value)
    else
      o.stack + ValueOf(o.value) + KeyOf(o.comps, o.mixed, true)
  }

  // ---------- one element ----------

  datatype State = State(fmt: Format, stack: seq<Element>, comps: seq<Element>)

  predicate IsSkipped(t: Token)
  {
    IsSpace(t) || t.Line?
  }

  function QualifierValue(comps: seq<Element>): seq<Element>
  {
    var v := Stripped(comps);
    if v == [] then [] else [Make(Value, v)]
  }

  function Step(st: State, e: Element): State
  {
    if !st.fmt.prefixTerminator.Invalid? then
      if e.token == st.fmt.prefixTerminator
      then st.(fmt := st.fmt.(prefixTerminator := Invalid, separator := Colon))
      else st.(stack := st.stack + [e])
    else if e.token == st.fmt.terminator then
      st.(stack := AtEnd(st.fmt, st.stack, st.comps), comps := [e])
    else if e.token == st.fmt.qualifier then
      st.(stack := st.stack + QualifierValue(st.comps), comps := [])
    else if e.token == st.fmt.separator || e.token.Group? then
      var (stack, comps) := AtSeparator(st.fmt, st.stack, st.comps, e);
      st.(stack := stack, comps := comps)
    else if !IsSkipped(e.token) then
      st.(comps := st.comps + [e])
    else
      st
  }

  // True when the element itself is pushed somewhere, which empties the one in the list.
  predicate Moves(st: State, e: Element)
  {
    if !st.fmt.prefixTerminator.Invalid? then e.token != st.fmt.prefixTerminator
    else if e.token == st.fmt.terminator then true
    else if e.token == st.fmt.qualifier then false
    else if e.token == st.fmt.separator || e.token.Group? then
      e.token.Group? && !Waits(st.fmt, Scan(st.fmt, st.stack, st.comps))
    else !IsSkipped(e.token)
  }

  function Run(fmt: Format, list: seq<Element>): State
  {
    if list == [] then State(fmt, [], [])
    else Step(Run(fmt, list[..|list| - 1]), Copy(list[|list| - 1]))
  }

  // ---------- nothing is duplicated or moved out of order ----------

  lemma {:induction false} FitsWithoutCommas(s: seq<Element>)
    ensures Fits(WithoutCommas(s), s)
    decreases |s|
  {
    hide Fits;
    if s == [] {
      FitsNothing(s);
    } else {
      var a, x := s[..|s| - 1], [s[|s| - 1]];
      FitsWithoutCommas(a);
      FitsRefl(x);
      FitsNothing(x);
      FitsConcat(WithoutCommas(a), a, if x[0].token.Comma? then [] else x, x);
      assert s == a + x;
    }
  }

  lemma FitsValueOf(value: seq<Element>)
    ensures Fits(ValueOf(value), value)
  {
    hide Fits, Stripped, WithoutCommas;
    FitsNothing(value);
    var s := Stripped(value);
    var v := WithoutCommas(s);
    if v != [] {
      FitsStripped(value);
      FitsWithoutCommas(s);
      FitsTrans(v, s, value);
      FitsMake(Value, v);
      FitsTrans([Make(Value, v)], v, value);
    }
  }

  lemma FitsQualifierValue(comps: seq<Element>)
    ensures Fits(QualifierValue(comps), comps)
  {
    hide Fits, Stripped;
    FitsNothing(comps);
    var v := Stripped(comps);
    if v != [] {
      FitsStripped(comps);
      FitsMake(Value, v);
      FitsTrans([Make(Value, v)], v, comps);
    }
  }

  lemma FitsKeyOf(comps: seq<Element>, mixed: bool, asValue: bool)
    ensures Fits(KeyOf(comps, mixed, asValue), comps)
  {
    hide Fits, Stripped;
    FitsNothing(comps);
    var k := Stripped(comps);
    if k != [] {
      FitsStripped(comps);
      FitsSlice(k, |k| - 1, |k|);
      FitsRefl(k);
      assert k[|k| - 1..|k|] == k[|k| - 1..];
      var k' := if mixed then k[|k| - 1..] else k;
      FitsTrans(k', k, comps);
      FitsMake(Value, k');
      FitsMakeBare(Key, k');
      FitsTrans([Make(Value, k')], k', comps);
      FitsTrans([MakeBare(Key, k')], k', comps);
    }
  }

  lemma FitsGroupValue(e: Element)
    ensures Fits(GroupValue(e), [e])
  {
    hide Fits;
    FitsNothing([e]);
    FitsMake(Value, [e]);
  }

  lemma FitsAbsorb(stack: seq<Element>, runs: seq<Element>, comps: seq<Element>)
    requires Fits(runs, comps)
    ensures Fits(Absorb(stack, runs), stack + comps)
  {
    hide Fits;
    FitsRefl(stack);
    FitsConcat(stack, stack, runs, comps);
    if stack != [] {
      FitsSlice(stack, 0, |stack| - 1);
      assert stack[0..|stack| - 1] == stack[..|stack| - 1];
      FitsConcat(stack[..|stack| - 1], stack, runs, comps);
    }
  }

  lemma FitsKeyWord(comps: seq<Element>)
    requires LastValue(comps) >= 0
    ensures Fits(LastKeyWord(comps), comps[LastValue(comps) + 1..])
  {
    hide Fits, IsValue;
    var v := LastValue(comps);
    var b := comps[v + 1..];
    FitsNothing(b);
    if LastKeyWord(comps) != [] {
      ValueIsNoBreak(FORMAT_PLAIN, comps[v]);
      FitsSlice(b, |b| - 1, |b|);
      assert b[|b| - 1..|b|] == LastKeyWord(comps);
    }
  }

  lemma FitsScanMixed(stack: seq<Element>, comps: seq<Element>)
    requires LastValue(comps) >= 0
    ensures Fits(Absorb(stack, Runs(comps[..LastValue(comps) + 1])) + LastKeyWord(comps), stack + comps)
  {
    hide *;
    var v := LastValue(comps);
    var a, b := comps[..v + 1], comps[v + 1..];
    RunsFit(a);
    FitsAbsorb(stack, Runs(a), a);
    FitsKeyWord(comps);
    FitsConcat(Absorb(stack, Runs(a)), stack + a, LastKeyWord(comps), b);
    assert stack + a + b == stack + comps;
  }

  lemma FitsScanAtBreak(comps: seq<Element>, r: nat)
    requires r < |comps|
    ensures Fits(comps[..r + 1] + if r + 1 < |comps| then comps[r + 2..] else [], comps)
    ensures Fits(comps[..r] + Stripped(comps[r + 1..]), comps)
  {
    hide Fits, Stripped;
    var a, b := comps[..r], comps[r + 1..];
    if r + 1 < |comps| {
      FitsWithout(comps, r + 1, r + 2);
    } else {
      FitsRefl(comps);
      assert comps[..r + 1] + [] == comps;
    }
    FitsRefl(a);
    FitsStripped(b);
    FitsConcat(a, a, Stripped(b), b);
    FitsWithout(comps, r, r + 1);
    FitsTrans(a + Stripped(b), a + b, comps);
  }

  lemma FitsScanRest(fmt: Format, stack: seq<Element>, comps: seq<Element>)
    ensures
      var o := Scan(fmt, stack, comps);
      !o.mixed ==> o.stack == stack && Fits(o.value + o.comps, comps)
  {
    hide *;
    ScanParts(fmt, stack, comps);
    var r := LastBreak(fmt, comps);
    if r < 0 {
      FitsRefl(comps);
      assert [] + comps == comps;
    } else {
      FitsScanAtBreak(comps, r);
    }
  }

  // What the scan leaves behind, in the order it is pushed.
  lemma ScanParts(fmt: Format, stack: seq<Element>, comps: seq<Element>)
    ensures
      var o, r, v := Scan(fmt, stack, comps), LastBreak(fmt, comps), LastValue(comps);
      if o.mixed then
        v >= 0 && o.stack == Absorb(stack, Runs(comps[..v + 1])) && o.value == [] && o.comps == LastKeyWord(comps)
      else if r < 0 then
        o.stack == stack && o.value == [] && o.comps == comps
      else
        && o.stack == stack
        && ((o.value == comps[..r + 1] && o.comps == if r + 1 < |comps| then comps[r + 2..] else [])
            || (o.value == comps[..r] && o.comps == Stripped(comps[r + 1..])))
  {
    hide Runs, Absorb, Stripped, TakesApart, NoKeys, LastKeyWord, LastBreak, LastValue;
  }

  // The three parts a scan leaves behind, in the order they are pushed.
  lemma FitsScan(fmt: Format, stack: seq<Element>, comps: seq<Element>)
    ensures
      var o := Scan(fmt, stack, comps);
      Fits(o.stack + (o.value + o.comps), stack + comps)
  {
    hide *;
    var o := Scan(fmt, stack, comps);
    ScanParts(fmt, stack, comps);
    if o.mixed {
      FitsScanMixed(stack, comps);
      assert [] + o.comps == o.comps;
    } else {
      FitsRefl(stack);
      FitsScanRest(fmt, stack, comps);
      FitsConcat(stack, stack, o.value + o.comps, comps);
    }
  }

  // ---------- one pass of the loop ----------

  lemma FitsAtSeparator(fmt: Format, stack: seq<Element>, comps: seq<Element>, e: Element)
    ensures
      var r := AtSeparator(fmt, stack, comps, e);
      Fits(r.0 + r.1, stack + comps + [e])
  {
    hide Fits, Scan, ValueOf, KeyOf, GroupValue;
    var o := Scan(fmt, stack, comps);
    FitsNothing([e]);
    FitsRefl(stack + comps);
    FitsScan(fmt, stack, comps);
    if Waits(fmt, o) {
      FitsConcat(stack + comps, stack + comps, [], [e]);
      assert stack + comps + [] == stack + comps;
    } else {
      var n := |o.comps|;
      var value := if SplitsLast(o) then o.comps[..n - 1] else o.value;
      var keys := if SplitsLast(o) then o.comps[n - 1..] else o.comps;
      ScanNotFound(fmt, stack, comps);
      assert value + keys == o.value + o.comps;
      var k := KeyOf(keys, o.mixed, o.keyIsValues && !o.mixed);
      FitsRefl(o.stack);
      FitsValueOf(value);
      FitsKeyOf(keys, o.mixed, o.keyIsValues && !o.mixed);
      FitsConcat(ValueOf(value), value, k, keys);
      FitsConcat(o.stack, o.stack, ValueOf(value) + k, value + keys);
      FitsTrans(o.stack + (ValueOf(value) + k), o.stack + (value + keys), stack + comps);
      FitsGroupValue(e);
      FitsConcat(o.stack + (ValueOf(value) + k), stack + comps, GroupValue(e), [e]);
      assert o.stack + (ValueOf(value) + k) + GroupValue(e) == o.stack + ValueOf(value) + k + GroupValue(e) + [];
    }
  }

  lemma ScanNotFound(fmt: Format, stack: seq<Element>, comps: seq<Element>)
    ensures
      var o := Scan(fmt, stack, comps);
      !o.found ==> o.value == []
  {}

  lemma FitsAtEnd(fmt: Format, stack: seq<Element>, comps: seq<Element>)
    ensures Fits(AtEnd(fmt, stack, comps), stack + comps)
  {
    hide Fits, Scan, ValueOf, KeyOf, IsKeyed;
    var o := Scan(fmt, stack, comps);
    FitsRefl(o.stack);
    FitsScan(fmt, stack, comps);
    var value := o.value + o.comps;
    if !o.mixed && o.stack != [] && o.comps != [] {
      FitsValueOf(value);
      FitsConcat(o.stack, o.stack, ValueOf(value), value);
      FitsTrans(o.stack + ValueOf(value), o.stack + value, stack + comps);
      if IsKeyed(o.stack, value) {
        FitsKeyed(value);
        var w := [MakeBare(Key, value[..1])] + ValueOf(value[1..]);
        FitsConcat(o.stack, o.stack, w, value);
        FitsTrans(o.stack + w, o.stack + value, stack + comps);
        assert o.stack + w == o.stack + [MakeBare(Key, value[..1])] + ValueOf(value[1..]);
      }
    } else {
      var w := ValueOf(o.value) + KeyOf(o.comps, o.mixed, true);
      FitsValueOf(o.value);
      FitsKeyOf(o.comps, o.mixed, true);
      FitsConcat(ValueOf(o.value), o.value, KeyOf(o.comps, o.mixed, true), o.comps);
      FitsConcat(o.stack, o.stack, w, value);
      FitsTrans(o.stack + w, o.stack + value, stack + comps);
      assert o.stack + w == o.stack + ValueOf(o.value) + KeyOf(o.comps, o.mixed, true);
    }
  }

  lemma FitsKeyed(value: seq<Element>)
    requires value != []
    ensures Fits([MakeBare(Key, value[..1])] + ValueOf(value[1..]), value)
  {
    hide Fits, ValueOf;
    FitsMakeBare(Key, value[..1]);
    FitsValueOf(value[1..]);
    FitsConcat([MakeBare(Key, value[..1])], value[..1], ValueOf(value[1..]), value[1..]);
    assert value[..1] + value[1..] == value;
  }

  lemma FitsStep(st: State, e: Element)
    requires !st.fmt.prefixTerminator.Invalid? ==> st.comps == []
    ensures
      var st' := Step(st, e);
      Fits(st'.stack + st'.comps, st.stack + st.comps + [e])
  {
    hide Fits, AtEnd, AtSeparator, QualifierValue;
    var all := st.stack + st.comps;
    FitsNothing([e]);
    FitsNothing(st.comps);
    FitsRefl([e]);
    FitsRefl(st.stack);
    FitsRefl(all);
    FitsConcat(all, all, [], [e]);
    assert all + [] == all;
    if !st.fmt.prefixTerminator.Invalid? {
      FitsConcat(st.stack, st.stack, [e], [e]);
      assert all == st.stack;
      assert st.stack + [e] + [] == st.stack + [e];
    } else if e.token == st.fmt.terminator {
      FitsAtEnd(st.fmt, st.stack, st.comps);
      FitsConcat(AtEnd(st.fmt, st.stack, st.comps), all, [e], [e]);
    } else if e.token == st.fmt.qualifier {
      FitsQualifierValue(st.comps);
      FitsConcat(st.stack, st.stack, QualifierValue(st.comps), st.comps);
      FitsConcat(st.stack + QualifierValue(st.comps), all, [], [e]);
    } else if e.token == st.fmt.separator || e.token.Group? {
      FitsAtSeparator(st.fmt, st.stack, st.comps, e);
    } else {
      FitsConcat(all, all, [e], [e]);
      assert st.stack + (st.comps + [e]) == all + [e];
    }
  }
}
