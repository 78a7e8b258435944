// Room for the placeholders of missing values.  A key without a value is given an empty value just
// after it, or one character further when a ':' or '=' follows it; the lemmas here show that this
// character is always free.
module Slack {
  import opened Tokens
  import opened Elements
  import opened KeyScan
  import opened Pairing

  // A key is followed by its value or leaves a character free before what comes next.
  ghost predicate KeysHaveRoom(s: seq<Element>)
  {
    forall i | 0 <= i < |s| - 1 && s[i].token.Key? ::
      s[i + 1].token.Value? || s[i].ce + 1 <= s[i + 1].cb
  }

  ghost predicate Room(s: seq<Element>, hi: int)
  {
    && KeysHaveRoom(s)
    && (s != [] && s[|s| - 1].token.Key? ==> s[|s| - 1].ce + 1 <= hi)
  }

  // A token the parser is given, as opposed to one it makes.
  predicate IsRaw(t: Token)
  {
    !t.Key? && !t.Value? && !t.Pair?
  }

  predicate AllRaw(s: seq<Element>)
  {
    forall i | 0 <= i < |s| :: IsRaw(s[i].token)
  }

  // What the loop keeps: stack and components in order below p, and room behind every key.
  ghost predicate Inv(st: State, lo: int, p: int)
  {
    && FormatOk(st.fmt)
    && Laid(st.stack + st.comps, lo, p)
    && Room(st.stack, Start(st.comps, p))
    && AllRaw(st.comps)
    && (!st.fmt.prefixTerminator.Invalid? ==> st.comps == [])
  }

  lemma RoomConcat(a: seq<Element>, b: seq<Element>, hi: int)
    requires KeysHaveRoom(a) && Room(b, hi)
    requires b == [] ==> Room(a, hi)
    requires b != [] ==> b[0].token.Value? || Room(a, b[0].cb)
    ensures Room(a + b, hi)
  {
    var s := a + b;
    forall i | 0 <= i < |s| - 1 && s[i].token.Key?
      ensures s[i + 1].token.Value? || s[i].ce + 1 <= s[i + 1].cb
    {
      if i + 1 < |a| {
        assert s[i] == a[i] && s[i + 1] == a[i + 1];
      } else if i + 1 == |a| {
        assert s[i] == a[i] && s[i + 1] == b[0];
      } else {
        assert s[i] == b[i - |a|] && s[i + 1] == b[i + 1 - |a|];
      }
    }
    if b == [] {
      assert s == a;
    }
  }

  lemma RoomPushValue(s: seq<Element>, values: seq<Element>, hi: int)
    requires Room(s, hi)
    requires |values| <= 1 && (values != [] ==> values[0].token.Value?)
    ensures Room(s + values, hi)
    ensures values != [] ==> forall p :: Room(s + values, p)
  {
    RoomConcat(s, values, hi);
  }

  // ---------- what the scan leaves ----------

  lemma RunAtRoom(s: seq<Element>, i: nat, hi: int)
    requires i < |s|
    ensures Room(RunAt(s, i), hi) && EndsInValue(RunAt(s, i))
  {
    hide IsValue;
  }

  predicate EndsInValue(s: seq<Element>)
  {
    s != [] ==>
      s[|s| - 1].token.Value? && (s[0].token.Key? || s[0].token.Value?)
  }

  lemma {:induction false} RunsRoom(s: seq<Element>, hi: int)
    ensures Room(Runs(s), hi) && EndsInValue(Runs(s))
    decreases |s|
  {
    hide IsValue, RunAt;
    if s == [] {
    } else {
      var before, last := Runs(s[..|s| - 1]), RunAt(s, |s| - 1);
      RunsRoom(s[..|s| - 1], hi);
      RunAtRoom(s, |s| - 1, hi);
      RoomConcat(before, last, hi);
      if last == [] {
        assert before + last == before;
      }
    }
  }

  lemma AbsorbRoom(stack: seq<Element>, runs: seq<Element>, lo: int, p: int, hi: int)
    requires KeysHaveRoom(stack) && Room(runs, hi) && runs != []
    requires runs[0].token.Key? || runs[0].token.Value?
    requires Laid(stack + runs, lo, p)
    ensures Room(Absorb(stack, runs), hi)
  {
    LaidSplit(stack, runs, lo, p);
    hide Laid;
    if stack != [] && stack[|stack| - 1].token.Key? && runs[0].token.Key? {
      var rest := stack[..|stack| - 1];
      if rest != [] && rest[|rest| - 1].token.Key? {
        assert stack[|rest| - 1].ce + 1 <= stack[|rest|].cb;
        assert stack[|rest|].cb <= runs[0].cb by { LastBefore(stack, lo, runs[0].cb); }
      }
      RoomConcat(rest, runs, hi);
    } else {
      RoomConcat(stack, runs, hi);
    }
  }

  lemma LastBefore(s: seq<Element>, lo: int, hi: int)
    requires Laid(s, lo, hi) && s != []
    ensures lo <= s[|s| - 1].cb <= s[|s| - 1].ce <= hi
    ensures lo <= s[0].cb <= s[0].ce <= hi
  {}

  lemma RunsNotEmpty(s: seq<Element>)
    requires s != [] && IsValue(s[|s| - 1].token)
    ensures Runs(s) != []
  {
    hide IsValue;
  }

  lemma ScanRoom(fmt: Format, stack: seq<Element>, comps: seq<Element>, lo: int, p: int)
    requires Laid(stack + comps, lo, p) && Room(stack, Start(comps, p))
    ensures
      var o := Scan(fmt, stack, comps);
      && Laid(o.stack + (o.value + o.comps), lo, p)
      && Room(o.stack, Start(o.value + o.comps, p))
  {
    hide Laid, Runs, Absorb, Stripped, TakesApart, NoKeys, LastKeyWord, Scan, LastValue, LastBreak;
    var o := Scan(fmt, stack, comps);
    var rest := o.value + o.comps;
    FitsScan(fmt, stack, comps);
    LaidSplit(stack, comps, lo, p);
    FitsScanRest(fmt, stack, comps);
    ScanParts(fmt, stack, comps);
    if o.mixed {
      var a := comps[..LastValue(comps) + 1];
      RunsRoom(a, Start(rest, p));
      RunsNotEmpty(a);
      RunsFit(a);
      FitsSlice(comps, 0, |a|);
      FitsTrans(Runs(a), a, comps);
      FitsRefl(stack);
      FitsConcat(stack, stack, Runs(a), comps);
      AbsorbRoom(stack, Runs(a), lo, p, Start(rest, p));
    } else if rest != [] {
      LastBefore(rest, Start(comps, p), p);
    }
  }

  // ---------- what is pushed ----------

  lemma AtEndRoom(fmt: Format, stack: seq<Element>, comps: seq<Element>, lo: int, p: int)
    requires Laid(stack + comps, lo, p) && Room(stack, Start(comps, p))
    ensures Room(AtEnd(fmt, stack, comps), p)
  {
    var o := Scan(fmt, stack, comps);
    var rest := o.value + o.comps;
    ScanRoom(fmt, stack, comps, lo, p);
    LaidSplit(o.stack, rest, lo, p);
    hide Laid, Scan, ValueOf, KeyOf;
    assert Room(o.stack, p);
    if !o.mixed && o.stack != [] && o.comps != [] {
      if IsKeyed(o.stack, rest) {
        KeyedRoom(rest, Start(rest, p), p);
        var w := [MakeBare(Key, rest[..1])] + ValueOf(rest[1..]);
        RoomConcat(o.stack, w, p);
        assert o.stack + w == o.stack + [MakeBare(Key, rest[..1])] + ValueOf(rest[1..]);
      } else {
        ValueOfToken(rest);
        RoomPushValue(o.stack, ValueOf(rest), p);
      }
    } else {
      ValueOfToken(o.value);
      KeyOfToken(o.comps, o.mixed);
      RoomPushValue(o.stack, ValueOf(o.value), p);
      RoomPushValue(o.stack + ValueOf(o.value), KeyOf(o.comps, o.mixed, true), p);
    }
  }

  lemma ValueOfToken(value: seq<Element>)
    ensures |ValueOf(value)| <= 1 && (ValueOf(value) != [] ==> ValueOf(value)[0].token.Value?)
  {
    hide Stripped;
  }

  lemma KeyOfToken(comps: seq<Element>, mixed: bool)
    ensures
      var k := KeyOf(comps, mixed, true);
      |k| <= 1 && (k != [] ==> k[0].token.Value?)
  {
    hide Stripped;
  }

  // When the second component is a comma or white space it is dropped, and the character it covers is free.
  lemma KeyedRoom(value: seq<Element>, lo: int, p: int)
    requires |value| == 2 && Laid(value, lo, p)
    ensures Room([MakeBare(Key, value[..1])] + ValueOf(value[1..]), p)
  {
    var x := value[1];
    assert value[1..] == [x];
    ValueOfToken([x]);
    ValueOfOne(x);
    hide ValueOf;
    assert Ok(x) && value[0].ce <= x.cb && x.ce <= p;
  }

  lemma ValueOfOne(x: Element)
    ensures ValueOf([x]) == [] ==> x.token.Comma? || IsSpace(x.token)
  {
    if !IsSpace(x.token) {
      assert Stripped([x]) == [x];
      if !x.token.Comma? {
        assert WithoutCommas([x]) == WithoutCommas([x][..0]) + [x];
      }
    }
  }

  // A bare key is pushed for a separator, which covers a character behind it, or before a group.
  lemma PartsRoom(
    stack: seq<Element>, value: seq<Element>, keys: seq<Element>, mixed: bool, asValue: bool, e: Element, lo: int)
    requires Laid(stack + (value + keys), lo, e.cb) && Room(stack, Start(value + keys, e.cb))
    requires e.cb <= e.ce && (e.token.Group? || e.cb < e.ce)
    ensures Room(stack + ValueOf(value) + KeyOf(keys, mixed, asValue) + GroupValue(e), e.ce)
  {
    hide Laid, Fits, ValueOf, KeyOf, GroupValue, KeysHaveRoom;
    var p, m := e.cb, Start(value + keys, e.cb);
    var v, k, g := ValueOf(value), KeyOf(keys, mixed, asValue), GroupValue(e);
    LaidSplit(stack, value + keys, lo, p);
    LaidSplit(value, keys, m, p);
    KeyOfLaid(keys, mixed, asValue, Start(keys, p), p);
    ValueOfToken(value);
    RoomPushValue(stack, v, m);
    KeyGroupRoom(k, e);
    GroupToken(e);
    RoomUp(stack + v, m, Start(k, p));
    RoomUp(stack + v, m, e.ce);
    RoomConcat(stack + v, k + g, e.ce);
    assert stack + v + (k + g) == stack + v + k + g;
  }

  lemma RoomUp(s: seq<Element>, p: int, q: int)
    requires Room(s, p) && p <= q
    ensures Room(s, q)
  {}

  lemma KeyOfLaid(comps: seq<Element>, mixed: bool, asValue: bool, lo: int, hi: int)
    requires Laid(comps, lo, hi)
    ensures
      var k := KeyOf(comps, mixed, asValue);
      |k| <= 1 && lo <= Start(k, hi) <= hi && (k != [] ==> k[0].ce <= hi)
  {
    FitsKeyOf(comps, mixed, asValue);
    assert Laid(KeyOf(comps, mixed, asValue), lo, hi);
    hide Fits, Stripped;
  }

  lemma GroupToken(e: Element)
    ensures GroupValue(e) != [] ==> GroupValue(e)[0].token.Value?
  {}

  lemma AtSeparatorRoom(fmt: Format, stack: seq<Element>, comps: seq<Element>, e: Element, lo: int)
    requires Laid(stack + comps, lo, e.cb) && Room(stack, Start(comps, e.cb))
    requires e.cb <= e.ce && (e.token.Group? || e.cb < e.ce)
    ensures
      var r := AtSeparator(fmt, stack, comps, e);
      Room(r.0, Start(r.1, e.ce))
  {
    hide Laid, Scan, ValueOf, KeyOf, KeysHaveRoom, GroupValue;
    var o := Scan(fmt, stack, comps);
    var n := |o.comps|;
    ScanRoom(fmt, stack, comps, lo, e.cb);
    ScanNotFound(fmt, stack, comps);
    var value := if SplitsLast(o) then o.comps[..n - 1] else o.value;
    var keys := if SplitsLast(o) then o.comps[n - 1..] else o.comps;
    assert value + keys == o.value + o.comps;
    if Waits(fmt, o) {
      LaidSplit(stack, comps, lo, e.cb);
      RoomUp(stack, Start(comps, e.cb), Start(comps, e.ce));
    } else {
      PartsRoom(o.stack, value, keys, o.mixed, o.keyIsValues && !o.mixed, e, lo);
    }
  }

  lemma KeyGroupRoom(k: seq<Element>, e: Element)
    requires |k| <= 1 && (k != [] ==> k[0].ce <= e.cb)
    requires e.cb <= e.ce && (e.token.Group? || e.cb < e.ce)
    ensures Room(k + GroupValue(e), e.ce)
  {}

  // ---------- the invariant of the loop ----------

  lemma StepInv(st: State, e: Element, lo: int, p: int)
    requires Inv(st, lo, p)
    requires Laid([e], p, e.ce) && IsRaw(e.token)
    ensures Inv(Step(st, e), lo, e.ce)
  {
    hide Step, Laid, Fits, Room, AllRaw;
    FitsStep(st, e);
    LaidConcat(st.stack + st.comps, [e], lo, p, e.ce);
    LaidOne(e, p, e.ce);
    var st' := Step(st, e);
    LaidUp(st.stack + st.comps, lo, p, e.cb);
    RoomUp(st.stack, Start(st.comps, p), Start(st.comps, e.cb));
    FitsLaid(st'.stack + st'.comps, st.stack + st.comps + [e], lo, e.ce);
    LaidSplit(st.stack, st.comps, lo, p);
    StepRoom(st, e, lo);
    StepFormat(st, e);
  }

  lemma LaidOne(e: Element, lo: int, hi: int)
    requires Laid([e], lo, hi)
    ensures lo <= e.cb <= e.ce <= hi && !e.token.Invalid? && (IsWide(e.token) ==> e.cb < e.ce)
  {
    assert [e][0] == e;
  }

  lemma StepFormat(st: State, e: Element)
    requires FormatOk(st.fmt)
    ensures FormatOk(Step(st, e).fmt)
    ensures !st.fmt.prefixTerminator.Invalid? && st.comps == [] ==> Step(st, e).comps == []
    ensures st.fmt.prefixTerminator.Invalid? ==> Step(st, e).fmt == st.fmt
    ensures Step(st, e).fmt.prefixTerminator.Invalid? || Step(st, e).fmt == st.fmt
  {
    hide AtEnd, AtSeparator, QualifierValue;
  }

  lemma StepRoom(st: State, e: Element, lo: int)
    requires Laid(st.stack + st.comps, lo, e.cb) && Room(st.stack, Start(st.comps, e.cb))
    requires AllRaw(st.comps) && IsRaw(e.token) && (!st.fmt.prefixTerminator.Invalid? ==> st.comps == [])
    requires e.cb <= e.ce && (e.token == st.fmt.separator ==> e.cb < e.ce)
    ensures Room(Step(st, e).stack, Start(Step(st, e).comps, e.ce))
    ensures AllRaw(Step(st, e).comps)
  {
    LaidSplit(st.stack, st.comps, lo, e.cb);
    hide Laid, AtEnd, QualifierValue, AtSeparator;
    if !st.fmt.prefixTerminator.Invalid? {
      assert Room([e], e.ce);
      RoomConcat(st.stack, [e], e.ce);
    } else if e.token == st.fmt.terminator {
      AtEndRoom(st.fmt, st.stack, st.comps, lo, e.cb);
    } else if e.token == st.fmt.qualifier {
      QualifierToken(st.comps);
      RoomPushValue(st.stack, QualifierValue(st.comps), e.ce);
    } else if e.token == st.fmt.separator || e.token.Group? {
      AtSeparatorRoom(st.fmt, st.stack, st.comps, e, lo);
      AtSeparatorComps(st.fmt, st.stack, st.comps, e);
    }
  }

  lemma QualifierToken(comps: seq<Element>)
    ensures |QualifierValue(comps)| <= 1
    ensures QualifierValue(comps) != [] ==> QualifierValue(comps)[0].token.Value?
  {
    hide Stripped;
  }

  lemma AtSeparatorComps(fmt: Format, stack: seq<Element>, comps: seq<Element>, e: Element)
    ensures AtSeparator(fmt, stack, comps, e).1 == comps || AtSeparator(fmt, stack, comps, e).1 == []
  {
    hide Scan;
  }
}
