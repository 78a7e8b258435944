// The pairing methods themselves.  Every push they make at the back of a list meets the requirement of
// PushBack; what they compute is given by the functions of Pairing and Pairs.
module Pairer {
  import opened Tokens
  import opened Elements
  import opened KeyScan
  import opened Pairing
  import opened Slack

  // The position the loop has reached: at an element, or past the last one.
  datatype Position = At(token: Token) | AtListEnd

  lemma FitsPush(stack: seq<Element>, x: Element, rest: seq<Element>, lo: int, p: int)
    requires Laid(stack + rest, lo, p) && Fits([x], rest)
    ensures PushOk(stack, x) && Copy(x) == x
  {
    FitsRefl(stack);
    FitsConcat(stack, stack, [x], rest);
    LaidPush(stack, x, lo, p);
  }

  method RemoveCommas(list: seq<Element>) returns (r: seq<Element>)
    ensures r == WithoutCommas(list)
  {
    r := [];
    var i := 0;
    while i < |list|
      invariant 0 <= i <= |list|
      invariant r == WithoutCommas(list[..i])
    {
      assert list[..i + 1][..i] == list[..i];
      if !list[i].token.Comma? {
        r := r + [list[i]];
      }
      i := i + 1;
    }
    assert list[..i] == list;
  }

  method PushValue(stack: seq<Element>, values: seq<Element>, ghost lo: int, ghost p: int)
    returns (elStack: seq<Element>)
    requires Laid(stack + values, lo, p)
    ensures elStack == stack + ValueOf(values)
  {
    FitsValueOf(values);
    hide Laid, Fits, WithoutCommas, Stripped;
    elStack := stack;
    var value := Strip(values);
    value := RemoveCommas(value);
    if value != [] {
      FitsPush(stack, Make(Value, value), values, lo, p);
      elStack := PushBack(elStack, Make(Value, value));
    }
  }

  method PushKey(
      stack: seq<Element>, comps: seq<Element>, mixedValues: bool, keyIsValues: bool, ghost lo: int, ghost p: int)
    returns (elStack: seq<Element>)
    requires Laid(stack + comps, lo, p)
    ensures elStack == stack + KeyOf(comps, mixedValues, keyIsValues)
  {
    FitsKeyOf(comps, mixedValues, keyIsValues);
    hide Laid, Fits, Stripped;
    elStack := stack;
    var keyComps := Strip(comps);
    if keyComps != [] {
      if mixedValues {
        while |keyComps| > 1
          invariant 0 < |keyComps| <= |Stripped(comps)|
          invariant keyComps == Stripped(comps)[|Stripped(comps)| - |keyComps|..]
        {
          keyComps := keyComps[1..];
        }
      }
      if keyIsValues {
        FitsPush(stack, Make(Value, keyComps), comps, lo, p);
        elStack := PushBack(elStack, Make(Value, keyComps));
      } else {
        FitsPush(stack, MakeBare(Key, keyComps), comps, lo, p);
        elStack := PushBack(elStack, MakeBare(Key, keyComps));
      }
    }
  }

  // The end of a value, at a terminator or at the end of the list.
  method EndOfValue(fmt: Format, stack: seq<Element>, comps: seq<Element>, iter: Position, ghost lo: int, ghost p: int)
    returns (elStack: seq<Element>, keyComps: seq<Element>)
    requires FormatOk(fmt) && Laid(stack + comps, lo, p)
    requires iter.At? ==> iter.token == fmt.terminator && !fmt.terminator.Invalid?
    ensures elStack == AtEnd(fmt, stack, comps) && keyComps == []
  {
    hide Laid, Fits, Scan, ValueOf, KeyOf;
    var value, found, keyIsValues, mixedValues;
    elStack, keyComps, value, found, keyIsValues, mixedValues := ScanKeyComps(fmt, stack, comps, lo, p);
    FitsScan(fmt, stack, comps);
    FitsLaid(elStack + (value + keyComps), stack + comps, lo, p);
    if !mixedValues && elStack != [] && keyComps != [] {
      if |elStack| > 1 && !fmt.appender.Invalid? && !fmt.terminator.Invalid?
        && iter.At? && iter.token == fmt.separator
      {
        // No format has the same separator and terminator.
        assert false;
      }
      value := value + keyComps;
      keyComps := [];
      if |value| == 2 && (IsKeyWord(value[0]) || value[0].token.Id?)
        && elStack != [] && !elStack[|elStack| - 1].token.Key?
      {
        var mixedKey := value[..1];
        KeyedLaid(elStack, value, lo, p);
        value := value[1..];
        elStack := PushBack(elStack, MakeBare(Key, mixedKey));
      }
      assert value + keyComps == value;
    }
    PartsLaid(elStack, value, keyComps, lo, p);
    elStack := PushValue(elStack, value, lo, p);
    if iter == AtListEnd || iter.token != fmt.separator {
      keyIsValues := true;
    }
    KeyOfNothing(mixedValues);
    elStack := PushKey(elStack, keyComps, mixedValues, keyIsValues, lo, p);
    keyComps := [];
  }

  lemma KeyOfNothing(mixed: bool)
    ensures KeyOf([], mixed, true) == []
  {}

  lemma KeyedLaid(stack: seq<Element>, value: seq<Element>, lo: int, p: int)
    requires Laid(stack + value, lo, p) && value != []
    ensures PushOk(stack, MakeBare(Key, value[..1])) && Laid(stack + [MakeBare(Key, value[..1])] + value[1..], lo, p)
  {
    hide Laid, Fits;
    var k, rest := MakeBare(Key, value[..1]), value[1..];
    assert value == value[..1] + rest;
    FitsMakeBare(Key, value[..1]);
    FitsSlice(value, 0, 1);
    assert value[0..1] == value[..1];
    FitsTrans([k], value[..1], value);
    FitsPush(stack, k, value, lo, p);
    FitsRefl(stack);
    FitsRefl(rest);
    FitsConcat([k], value[..1], rest, rest);
    FitsConcat(stack, stack, [k] + rest, value);
    FitsLaid(stack + ([k] + rest), stack + value, lo, p);
    assert stack + ([k] + rest) == stack + [k] + rest;
  }

  // The value can be pushed first, and the key components after it.
  lemma PartsLaid(stack: seq<Element>, value: seq<Element>, comps: seq<Element>, lo: int, p: int)
    requires Laid(stack + (value + comps), lo, p)
    ensures Laid(stack + value, lo, p)
    ensures Laid(stack + ValueOf(value) + comps, lo, p)
  {
    hide Laid, Fits, ValueOf;
    FitsRefl(stack);
    FitsRefl(comps);
    FitsValueOf(value);
    FitsSlice(value + comps, 0, |value|);
    assert (value + comps)[0..|value|] == value;
    FitsConcat(stack, stack, value, value + comps);
    FitsLaid(stack + value, stack + (value + comps), lo, p);
    FitsConcat(ValueOf(value), value, comps, comps);
    FitsConcat(stack, stack, ValueOf(value) + comps, value + comps);
    FitsLaid(stack + (ValueOf(value) + comps), stack + (value + comps), lo, p);
    assert stack + (ValueOf(value) + comps) == stack + ValueOf(value) + comps;
  }

  // A separator or a group: the components become the value of the last key and the next key, and a
  // group becomes a value.  moved says whether the group itself was pushed.
  method Separate(fmt: Format, stack: seq<Element>, comps: seq<Element>, e: Element, ghost lo: int)
    returns (elStack: seq<Element>, keyComps: seq<Element>, moved: bool)
    requires FormatOk(fmt) && Fair(e) && Laid(stack + comps, lo, e.cb)
    ensures (elStack, keyComps) == AtSeparator(fmt, stack, comps, Copy(e))
    ensures moved <==> e.token.Group? && !Waits(fmt, Scan(fmt, stack, comps))
  {
    hide Laid, Fits, Scan, ValueOf, KeyOf, Fair, Ok, GroupValue, Copy;
    ghost var p := e.cb;
    var value, found, keyIsValues, mixedValues;
    elStack, keyComps, value, found, keyIsValues, mixedValues := ScanKeyComps(fmt, stack, comps, lo, p);
    ghost var o := Scan(fmt, stack, comps);
    FitsScan(fmt, stack, comps);
    FitsLaid(elStack + (value + keyComps), stack + comps, lo, p);
    ScanNotFound(fmt, stack, comps);
    if !found && !mixedValues && elStack != [] && keyComps != [] {
      if |elStack| > 1 && !fmt.appender.Invalid? && !fmt.terminator.Invalid? {
        // A terminator is still expected, so this is part of the value.
        return stack, comps, false;
      }
      value := value + keyComps;
      keyComps := value[|value| - 1..];
      value := value[..|value| - 1];
      assert value == o.comps[..|o.comps| - 1] && keyComps == o.comps[|o.comps| - 1..];
      assert value + keyComps == o.value + o.comps;
    }
    if mixedValues {
      keyIsValues := false;
    }
    PartsLaid(elStack, value, keyComps, lo, p);
    elStack := PushValue(elStack, value, lo, p);
    KeyLaid(elStack, keyComps, mixedValues, keyIsValues, lo, p);
    elStack := PushKey(elStack, keyComps, mixedValues, keyIsValues, lo, p);
    keyComps := [];
    elStack, moved := PushGroup(elStack, e, lo);
  }

  method PushGroup(stack: seq<Element>, e: Element, ghost lo: int) returns (elStack: seq<Element>, moved: bool)
    requires Laid(stack, lo, e.cb) && Fair(e)
    ensures elStack == stack + GroupValue(Copy(e))
    ensures moved == (e.token.Group?) && Copy(e).token == e.token
  {
    elStack, moved := stack, false;
    if e.token.Group? {
      FairIsPlain(e);
      CopyFair(e);
      hide Laid, Fair, Ok;
      var value := PushBack([], e);
      assert value == [Copy(e)];
      EndBefore(elStack, lo, e.cb);
      elStack := PushBack(elStack, Make(Value, value));
      moved := true;
    }
  }

  lemma KeyLaid(stack: seq<Element>, comps: seq<Element>, mixed: bool, asValue: bool, lo: int, p: int)
    requires Laid(stack + comps, lo, p)
    ensures Laid(stack + KeyOf(comps, mixed, asValue), lo, p)
  {
    FitsRefl(stack);
    FitsKeyOf(comps, mixed, asValue);
    FitsConcat(stack, stack, KeyOf(comps, mixed, asValue), comps);
  }

  lemma EndBefore(s: seq<Element>, lo: int, p: int)
    requires Laid(s, lo, p)
    ensures s == [] || s[|s| - 1].ce <= p
  {}

  lemma InvParts(fmt: Format, stack: seq<Element>, comps: seq<Element>, lo: int, p: int)
    requires Inv(State(fmt, stack, comps), lo, p)
    ensures FormatOk(fmt) && Laid(stack + comps, lo, p)
  {
    hide Laid, Room, AllRaw;
  }

  lemma PlainCopy(e: Element)
    requires Fair(e)
    ensures 0 <= e.ce && Copy(e).token == e.token
  {
    FairIsPlain(e);
  }

  method PushQualified(stack: seq<Element>, comps: seq<Element>, ghost lo: int, ghost p: int)
    returns (elStack: seq<Element>)
    requires Laid(stack + comps, lo, p)
    ensures elStack == stack + QualifierValue(comps)
  {
    hide Laid, Fits, Stripped;
    FitsQualifierValue(comps);
    elStack := stack;
    var value := Strip(comps);
    if value != [] {
      FitsPush(stack, Make(Value, value), comps, lo, p);
      elStack := PushBack(elStack, Make(Value, value));
    }
  }

  // One element of the list.
  method PushElement(fmt: Format, stack: seq<Element>, comps: seq<Element>, e: Element, ghost lo: int, ghost p: int)
    returns (format: Format, elStack: seq<Element>, keyComps: seq<Element>, moved: bool)
    requires Inv(State(fmt, stack, comps), lo, p) && Fair(e) && p <= e.cb
    ensures State(format, elStack, keyComps) == Step(State(fmt, stack, comps), Copy(e))
    ensures moved == Moves(State(fmt, stack, comps), Copy(e))
  {
    hide Inv, Laid, Fair, Ok, AtEnd, AtSeparator, Scan, QualifierValue, Room, AllRaw, Stripped;
    format, elStack, keyComps, moved := fmt, stack, comps, false;
    InvParts(fmt, stack, comps, lo, p);
    LaidSplit(stack, comps, lo, p);
    LaidUp(stack + comps, lo, p, e.cb);
    FairIsPlain(e);
    PlainCopy(e);
    if !format.prefixTerminator.Invalid? {
      if e.token == format.prefixTerminator {
        format := format.(prefixTerminator := Invalid, separator := Colon);
      } else {
        EndBefore(stack, lo, Start(comps, p));
        elStack := PushBack(elStack, e);
        moved := true;
      }
    } else if e.token == format.terminator {
      elStack, keyComps := EndOfValue(format, elStack, keyComps, At(e.token), lo, p);
      keyComps := PushBack(keyComps, e);
      moved := true;
    } else if e.token == format.qualifier {
      elStack := PushQualified(stack, comps, lo, p);
      keyComps := [];
    } else if e.token == format.separator || e.token.Group? {
      elStack, keyComps, moved := Separate(format, elStack, keyComps, e, lo);
    } else if !e.token.White? && !e.token.Csi? && !e.token.Line? {
      EndBefore(comps, Start(comps, p), p);
      keyComps := PushBack(keyComps, e);
      moved := true;
    }
  }
}
