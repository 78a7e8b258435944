// The backward scan over the key components, which the parser runs at every separator, group,
// terminator and at the end of a list.  The specification says what is found in terms of the last
// break and the last value of the list; the method is the scan itself.
module KeyScan {
  import opened Tokens
  import opened Elements

  // What the parser relies on in the format of a list.
  predicate FormatOk(fmt: Format)
  {
    && fmt.name != Unnamed
    && fmt.appender in {Invalid, Comma}
    && fmt.terminator in {Invalid, Comma, Semi, Emdash}
    && fmt.qualifier in {Invalid, Colon}
    && fmt.separator in {Invalid, Colon, Equals}
    && fmt.prefixTerminator in {Invalid, Colon}
  }

  predicate IsBreak(fmt: Format, e: Element)
  {
    e.token == fmt.appender || e.token == fmt.terminator
  }

  predicate IsKeyWord(e: Element)
  {
    e.token.Word? || e.token.Symbol?
  }

  // No element that could be a key.
  predicate NoKeys(s: seq<Element>)
  {
    forall i | 0 <= i < |s| :: !IsKeyWord(s[i]) && !s[i].token.Id?
  }

  // The position of the last element that ends a value, -1 when there is none.
  function LastBreak(fmt: Format, s: seq<Element>): (r: int)
    ensures -1 <= r < |s|
    ensures r >= 0 ==> IsBreak(fmt, s[r])
    ensures forall i | r < i < |s| :: !IsBreak(fmt, s[i])
  {
    if s == [] then -1
    else if IsBreak(fmt, s[|s| - 1]) then |s| - 1
    else LastBreak(fmt, s[..|s| - 1])
  }

  // The position of the last element that is a value, -1 when there is none.
  function LastValue(s: seq<Element>): (v: int)
    ensures -1 <= v < |s|
    ensures v >= 0 ==> IsValue(s[v].token)
    ensures forall i | v < i < |s| :: !IsValue(s[i].token)
  {
    if s == [] then -1
    else if IsValue(s[|s| - 1].token) then |s| - 1
    else LastValue(s[..|s| - 1])
  }

  // ---------- stripping white space ----------

  function StripFront(s: seq<Element>): seq<Element>
  {
    if s != [] && IsSpace(s[0].token) then StripFront(s[1..]) else s
  }

  function StripBack(s: seq<Element>): seq<Element>
  {
    if s != [] && IsSpace(s[|s| - 1].token) then StripBack(s[..|s| - 1]) else s
  }

  function Stripped(s: seq<Element>): seq<Element>
  {
    StripBack(StripFront(s))
  }

  method Strip(container: seq<Element>) returns (r: seq<Element>)
    ensures r == Stripped(container)
  {
    r := container;
    while r != [] && IsSpace(r[0].token)
      invariant StripFront(r) == StripFront(container)
      decreases |r|
    {
      r := r[1..];
    }
    while r != [] && IsSpace(r[|r| - 1].token)
      invariant StripBack(r) == Stripped(container)
      decreases |r|
    {
      r := r[..|r| - 1];
    }
  }

  // Stripping removes exactly a leading and a trailing stretch of white space.
  lemma {:induction false} StrippedMiddle(s: seq<Element>) returns (i: nat, j: nat)
    ensures i <= j <= |s| && Stripped(s) == s[i..j]
    ensures forall k | 0 <= k < i || j <= k < |s| :: IsSpace(s[k].token)
    ensures i < j ==> !IsSpace(s[i].token) && !IsSpace(s[j - 1].token)
    decreases |s|
  {
    if s != [] && IsSpace(s[0].token) {
      i, j := StrippedMiddle(s[1..]);
      assert s[1..][i..j] == s[i + 1..j + 1];
      i, j := i + 1, j + 1;
    } else {
      j := StripBackLength(s);
      i := 0;
    }
  }

  lemma {:induction false} StripBackLength(s: seq<Element>) returns (j: nat)
    ensures j <= |s| && StripBack(s) == s[..j]
    ensures forall k | j <= k < |s| :: IsSpace(s[k].token)
    ensures j > 0 ==> !IsSpace(s[j - 1].token)
    decreases |s|
  {
    if s != [] && IsSpace(s[|s| - 1].token) {
      j := StripBackLength(s[..|s| - 1]);
      assert s[..|s| - 1][..j] == s[..j];
    } else {
      j := |s|;
      assert s[..j] == s;
    }
  }

  lemma FitsStripped(s: seq<Element>)
    ensures Fits(Stripped(s), s)
  {
    var i, j := StrippedMiddle(s);
    FitsSlice(s, i, j);
  }

  // ---------- runs of values without a separator ----------

  // What one position of a list of components contributes once its values are taken apart: a value
  // stands alone, and takes the word just before it as its key.
  function RunAt(s: seq<Element>, i: nat): seq<Element>
    requires i < |s|
  {
    if !IsValue(s[i].token) then []
    else if i > 0 && s[i - 1].token.Word? then [Make(Key, [s[i - 1]]), Make(Value, [s[i]])]
    else [Make(Value, [s[i]])]
  }

  function Runs(s: seq<Element>): seq<Element>
  {
    if s == [] then [] else Runs(s[..|s| - 1]) + RunAt(s, |s| - 1)
  }

  // The runs go on top of the stack; a key left waiting there is dropped when they bring their own.
  function Absorb(stack: seq<Element>, runs: seq<Element>): seq<Element>
  {
    if stack != [] && stack[|stack| - 1].token.Key? && runs != [] && runs[0].token.Key?
    then stack[..|stack| - 1] + runs
    else stack + runs
  }

  // ---------- the outcome of the scan ----------

  datatype Outcome = Outcome(
    stack: seq<Element>, comps: seq<Element>, value: seq<Element>, found: bool, keyIsValues: bool, mixed: bool)

  // Values are taken apart only when no terminator is expected for something already on the stack,
  // and a lone identifier is left to be a key.
  predicate TakesApart(fmt: Format, stack: seq<Element>, comps: seq<Element>)
  {
    && (fmt.terminator.Invalid? || stack == [])
    && !(|comps| == 1 && comps[0].token.Id?)
  }

  function LastKeyWord(comps: seq<Element>): seq<Element>
  {
    if comps != [] && IsKeyWord(comps[|comps| - 1]) then [comps[|comps| - 1]] else []
  }

  function Scan(fmt: Format, stack: seq<Element>, comps: seq<Element>): Outcome
  {
    var r := LastBreak(fmt, comps);
    var v := LastValue(comps);
    if v > r && TakesApart(fmt, stack, comps) then
      Outcome(Absorb(stack, Runs(comps[..v + 1])), LastKeyWord(comps), [], false, NoKeys(comps[v + 1..]), true)
    else if r < 0 then
      Outcome(stack, comps, [], false, NoKeys(comps), false)
    else if comps[r].token == fmt.appender then
      // The element after the appender is dropped.
      Outcome(stack, if r + 1 < |comps| then comps[r + 2..] else [], comps[..r + 1], true,
        NoKeys(comps[r + 1..]), false)
    else
      Outcome(stack, Stripped(comps[r + 1..]), comps[..r], true, NoKeys(comps[r + 1..]), false)
  }

  // Trailing elements that are not values contribute nothing.
  lemma {:induction false} RunsPrefix(s: seq<Element>, n: nat)
    requires n <= |s|
    requires forall i | n <= i < |s| :: !IsValue(s[i].token)
    ensures Runs(s) == Runs(s[..n])
    decreases |s|
  {
    if n < |s| {
      RunsPrefix(s[..|s| - 1], n);
      assert s[..|s| - 1][..n] == s[..n];
    } else {
      assert s[..n] == s;
    }
  }

  // How many components are left once the last one, a value, is taken with its key.
  function LeftBy(s: seq<Element>): (m: nat)
    requires s != []
    ensures m < |s|
  {
    if |s| > 1 && s[|s| - 2].token.Word? then |s| - 2 else |s| - 1
  }

  lemma RunsTake(s: seq<Element>)
    requires s != [] && IsValue(s[|s| - 1].token)
    ensures Runs(s) == Runs(s[..LeftBy(s)]) + RunAt(s, |s| - 1)
  {
    var n := |s|;
    if LeftBy(s) == n - 2 {
      RunsPrefix(s[..n - 1], n - 2);
      assert s[..n - 1][..n - 2] == s[..n - 2];
    }
  }

  lemma RunFits(s: seq<Element>)
    requires s != [] && IsValue(s[|s| - 1].token)
    ensures Fits(RunAt(s, |s| - 1), s[LeftBy(s)..])
  {
    hide Fits, IsValue;
    var n := |s|;
    var x := [s[n - 1]];
    FitsMake(Value, x);
    if n > 1 && s[n - 2].token.Word? {
      var k := [s[n - 2]];
      FitsMake(Key, k);
      FitsConcat([Make(Key, k)], k, [Make(Value, x)], x);
      assert s[n - 2..] == k + x;
      assert RunAt(s, n - 1) == [Make(Key, k)] + [Make(Value, x)];
    } else {
      assert s[n - 1..] == x;
    }
  }

  lemma {:induction false} RunsFit(s: seq<Element>)
    ensures Fits(Runs(s), s)
    decreases |s|
  {
    hide Fits, IsValue, RunAt, LeftBy;
    var n := |s|;
    if n == 0 {
      FitsNothing(s);
    } else if !IsValue(s[n - 1].token) {
      RunsFit(s[..n - 1]);
      RunsPrefix(s, n - 1);
      FitsSlice(s, 0, n - 1);
      assert s[0..n - 1] == s[..n - 1];
      FitsTrans(Runs(s), s[..n - 1], s);
    } else {
      var m := LeftBy(s);
      RunsFit(s[..m]);
      RunsTake(s);
      RunFits(s);
      FitsConcat(Runs(s[..m]), s[..m], RunAt(s, n - 1), s[m..]);
      assert s == s[..m] + s[m..];
    }
  }

  // ---------- the scan ----------

  // The components the scan has already taken apart: comps, then queue, stand for the components up
  // to and including the last value.
  ghost predicate Taken(
    stack0: seq<Element>, comps0: seq<Element>, stack: seq<Element>, comps: seq<Element>, queue: seq<Element>)
  {
    var v := LastValue(comps0);
    && v >= 0
    && |comps| <= v && comps == comps0[..|comps|]
    && (comps != [] ==>
          && IsValue(comps[|comps| - 1].token)
          && stack == stack0 && queue != []
          && Runs(comps0[..v + 1]) == Runs(comps) + queue)
    && (comps == [] ==> Absorb(stack, queue) == Absorb(stack0, Runs(comps0[..v + 1])))
  }

  lemma PushFirst(stack: seq<Element>, comps: seq<Element>, lo: int, hi: int)
    requires Laid(stack + comps, lo, hi) && comps != []
    ensures PushOk(stack, Make(Value, comps[..1]))
  {
    LaidSplit(stack, comps, lo, hi);
  }

  lemma AbsorbValue(stack: seq<Element>, value: Element, queue: seq<Element>)
    requires stack != [] && !value.token.Key?
    ensures Absorb(stack + [value], queue) == Absorb(stack, [value] + queue)
  {
    assert stack + [value] + queue == stack + ([value] + queue);
  }

  method PopNonValues(comps: seq<Element>) returns (r: seq<Element>)
    ensures |r| <= |comps| && r == comps[..|r|]
    ensures r != [] ==> IsValue(r[|r| - 1].token)
    ensures forall i | |r| <= i < |comps| :: !IsValue(comps[i].token)
  {
    hide IsValue;
    r := comps;
    while r != [] && !IsValue(r[|r| - 1].token)
      invariant |r| <= |comps| && r == comps[..|r|]
      invariant forall i | |r| <= i < |comps| :: !IsValue(comps[i].token)
    {
      r := r[..|r| - 1];
    }
  }

  lemma TakeCases(s: seq<Element>)
    requires s != [] && IsValue(s[|s| - 1].token)
    ensures
      var n := |s|;
      if n > 1 && s[n - 2].token.Word? then
        LeftBy(s) == n - 2 && RunAt(s, n - 1) == [Make(Key, [s[n - 2]]), Make(Value, [s[n - 1]])]
      else LeftBy(s) == n - 1 && RunAt(s, n - 1) == [Make(Value, [s[n - 1]])]
  {
    hide IsValue;
  }

  lemma MakeCopies()
    ensures forall token, s | s != [] :: Copy(Make(token, s)) == Make(token, s) && Make(token, s).token == token
  {}

  // One value taken from the end of the components, with its key, onto the front of the queue; or, when
  // it is all that is left and a key waits for it on the stack, onto the stack.
  method TakeValue(
      stack: seq<Element>, ghost comps0: seq<Element>, comps: seq<Element>, queue: seq<Element>)
    returns (elStack: seq<Element>, keyComps: seq<Element>, mixedQueue: seq<Element>)
    requires comps0 != [] && PushOk(stack, Make(Value, comps0[..1]))
    requires 0 < |comps| <= |comps0| && comps == comps0[..|comps|] && IsValue(comps[|comps| - 1].token)
    requires |comps| - 1 <= LastValue(comps0)
    requires Runs(comps0[..LastValue(comps0) + 1]) == Runs(comps) + queue
    ensures Taken(stack, comps0, elStack, keyComps, mixedQueue)
    ensures |keyComps| < |comps|
  {
    hide IsValue, Laid, Runs, LastValue, Absorb, Make, Copy, RunAt, LeftBy;
    elStack, keyComps, mixedQueue := stack, comps, queue;
    RunsTake(comps);
    TakeCases(comps);
    RunsEmpty();
    if elStack != [] && elStack[|elStack| - 1].token.Key? && |keyComps| == 1 {
      var mixedValue := keyComps;
      keyComps := [];
      assert mixedValue == comps0[..1] == [comps[0]] && comps[..0] == [];
      MakeCopies();
      AbsorbValue(elStack, Make(Value, mixedValue), queue);
      elStack := PushBack(elStack, Make(Value, mixedValue));
      assert [] + [Make(Value, mixedValue)] == [Make(Value, mixedValue)];
    } else {
      ghost var before := comps[..LeftBy(comps)];
      keyComps, mixedQueue := QueueRun(comps, queue);
      assert Runs(comps) + queue == Runs(keyComps) + mixedQueue;
      keyComps := PopNonValues(keyComps);
      RunsPrefix(before, |keyComps|);
      assert [] + mixedQueue == mixedQueue;
    }
  }

  // The last component, a value, goes to the front of the queue, with the word before it as its key.
  method QueueRun(comps: seq<Element>, queue: seq<Element>) returns (keyComps: seq<Element>, mixedQueue: seq<Element>)
    requires comps != [] && IsValue(comps[|comps| - 1].token)
    ensures keyComps == comps[..LeftBy(comps)] && mixedQueue == RunAt(comps, |comps| - 1) + queue && mixedQueue != []
  {
    hide IsValue, Make, Copy;
    var valueIter := |comps| - 1;
    var mixedValue := comps[valueIter..];
    keyComps := comps[..valueIter];
    MakeCopies();
    assert mixedValue == [comps[valueIter]];
    mixedQueue := [Copy(Make(Value, mixedValue))] + queue;
    if keyComps != [] {
      if keyComps[|keyComps| - 1].token.Word? {
        var mixedKey := keyComps[|keyComps| - 1..];
        keyComps := keyComps[..|keyComps| - 1];
        mixedQueue := [Copy(Make(Key, mixedKey))] + mixedQueue;
        assert mixedKey == [comps[valueIter - 1]];
      }
    }
  }

  lemma RunsEmpty()
    ensures Runs([]) == []
  {}

  lemma ValueIsNoBreak(fmt: Format, e: Element)
    requires FormatOk(fmt)
    ensures IsValue(e.token) ==> !IsBreak(fmt, e) && !IsKeyWord(e)
  {}

  lemma NoKeysStep(s: seq<Element>, i: nat)
    requires i < |s|
    ensures NoKeys(s[i..]) <==> NoKeys(s[i + 1..]) && !IsKeyWord(s[i]) && !s[i].token.Id?
  {
    var t := s[i..];
    assert t == [s[i]] + s[i + 1..];
    assert forall k {:trigger t[k + 1]} | 0 <= k < |s| - i - 1 :: s[i + 1..][k] == t[k + 1];
  }

  // The elements after the value at valueIter are set aside the first time when the last of them could
  // be a key, and dropped otherwise; then the value is taken.
  method TakeApart(
      stack: seq<Element>, ghost comps0: seq<Element>, comps: seq<Element>, valueIter: nat, lastIsKey: bool,
      queue: seq<Element>, tail: seq<Element>, ghost lo: int, ghost hi: int)
    returns (elStack: seq<Element>, keyComps: seq<Element>, mixedQueue: seq<Element>, mixedTail: seq<Element>)
    requires Laid(stack + comps0, lo, hi)
    requires lastIsKey <==> LastKeyWord(comps0) != []
    requires valueIter < |comps| && IsValue(comps[valueIter].token) && valueIter <= LastValue(comps0)
    requires
      || (comps == comps0 && valueIter == LastValue(comps0) && queue == [] && tail == [])
      || (Taken(stack, comps0, stack, comps, queue) && valueIter == |comps| - 1
          && tail == if lastIsKey then comps0[LastValue(comps0) + 1..] else [])
    ensures Taken(stack, comps0, elStack, keyComps, mixedQueue)
    ensures |keyComps| <= valueIter
    ensures mixedTail == if lastIsKey then comps0[LastValue(comps0) + 1..] else []
  {
    RunsEmpty();
    hide Laid, Runs, Absorb, IsValue, LastValue;
    PushFirst(stack, comps0, lo, hi);
    keyComps, mixedTail := comps, tail;
    if lastIsKey {
      if mixedTail == [] {
        mixedTail := keyComps[valueIter + 1..];
        keyComps := keyComps[..valueIter + 1];
      }
    } else {
      while |keyComps| - 1 != valueIter
        invariant valueIter < |keyComps| <= |comps| && keyComps == comps[..|keyComps|]
      {
        keyComps := keyComps[..|keyComps| - 1];
      }
    }
    assert keyComps == comps0[..valueIter + 1];
    assert queue == [] ==> Runs(keyComps) + queue == Runs(keyComps);
    elStack, keyComps, mixedQueue := TakeValue(stack, comps0, keyComps, queue);
  }

  // Nothing taken yet: the components from i on are neither breaks nor values to be taken apart.
  ghost predicate Scanning(fmt: Format, stack: seq<Element>, comps: seq<Element>, i: int, keyIsValues: bool)
  {
    && 0 <= i <= |comps|
    && LastBreak(fmt, comps) < i
    && (TakesApart(fmt, stack, comps) ==> LastValue(comps) < i)
    && keyIsValues == NoKeys(comps[i..])
  }

  lemma ScanAll(fmt: Format, stack: seq<Element>, comps: seq<Element>)
    ensures Scanning(fmt, stack, comps, |comps|, true)
  {}

  // One component further: whether it is a value, a break or neither, the scan knows what to do.
  lemma ScanStep(fmt: Format, stack: seq<Element>, comps: seq<Element>, i: nat, keyIsValues: bool)
    requires FormatOk(fmt) && i < |comps| && Scanning(fmt, stack, comps, i + 1, keyIsValues)
    ensures LastBreak(fmt, comps) <= i && keyIsValues == NoKeys(comps[i + 1..])
    ensures IsBreak(fmt, comps[i]) <==> LastBreak(fmt, comps) == i
    ensures IsBreak(fmt, comps[i]) ==> !IsValue(comps[i].token)
    ensures IsValue(comps[i].token) ==> !IsKeyWord(comps[i])
    ensures comps[i].token.Id? ==> IsValue(comps[i].token)
    ensures IsValue(comps[i].token) && TakesApart(fmt, stack, comps) <==>
      LastValue(comps) == i && TakesApart(fmt, stack, comps)
    ensures !IsBreak(fmt, comps[i]) && !(IsValue(comps[i].token) && TakesApart(fmt, stack, comps)) ==>
      Scanning(fmt, stack, comps, i, keyIsValues && !IsKeyWord(comps[i]) && !comps[i].token.Id?)
  {
    ValueIsNoBreak(fmt, comps[i]);
    assert comps[i].token.Id? ==> IsValue(comps[i].token);
    hide IsValue;
    NoKeysStep(comps, i);
  }

  lemma ScanNothing(fmt: Format, stack: seq<Element>, comps: seq<Element>, keyIsValues: bool)
    requires Scanning(fmt, stack, comps, 0, keyIsValues)
    ensures Outcome(stack, comps, [], false, keyIsValues, false) == Scan(fmt, stack, comps)
  {
    assert comps[0..] == comps;
  }

  lemma ScanMixed(fmt: Format, stack: seq<Element>, comps: seq<Element>)
    requires LastValue(comps) > LastBreak(fmt, comps) && TakesApart(fmt, stack, comps)
    ensures Scan(fmt, stack, comps) ==
      Outcome(
        Absorb(stack, Runs(comps[..LastValue(comps) + 1])), LastKeyWord(comps), [], false,
        NoKeys(comps[LastValue(comps) + 1..]), true)
  {}

  lemma ScanAtBreak(fmt: Format, stack: seq<Element>, comps: seq<Element>, i: nat)
    requires i < |comps| && LastBreak(fmt, comps) == i
    requires TakesApart(fmt, stack, comps) ==> LastValue(comps) <= i
    ensures Scan(fmt, stack, comps) ==
      if comps[i].token == fmt.appender then
        Outcome(stack, if i + 1 < |comps| then comps[i + 2..] else [], comps[..i + 1], true,
          NoKeys(comps[i + 1..]), false)
      else
        Outcome(stack, Stripped(comps[i + 1..]), comps[..i], true, NoKeys(comps[i + 1..]), false)
  {}

  // The break found at position i ends the scan.
  method TakeBreak(fmt: Format, ghost stack: seq<Element>, comps: seq<Element>, i: nat, ghost keyIsValues: bool)
    returns (keyComps: seq<Element>, value: seq<Element>)
    requires FormatOk(fmt) && i < |comps| && Scanning(fmt, stack, comps, i + 1, keyIsValues) && IsBreak(fmt, comps[i])
    ensures Outcome(stack, keyComps, value, true, keyIsValues, false) == Scan(fmt, stack, comps)
  {
    hide IsValue, LastValue, LastBreak, NoKeys, Stripped, Scan;
    ScanStep(fmt, stack, comps, i, keyIsValues);
    ScanAtBreak(fmt, stack, comps, i);
    keyComps := comps;
    if keyComps[i].token == fmt.appender {
      value := keyComps[..i + 1];
      keyComps := keyComps[i + 1..];
      if keyComps != [] {
        keyComps := keyComps[1..];
      }
    } else {
      value := keyComps[..i];
      keyComps := keyComps[i..];
      keyComps := keyComps[1..];
      assert keyComps == comps[i + 1..];
      keyComps := Strip(keyComps);
    }
  }

  // What has been taken apart goes on the stack; of the elements set aside only the last one is kept.
  method PutBack(stack: seq<Element>, comps: seq<Element>, mixedQueue: seq<Element>, mixedTail: seq<Element>)
    returns (elStack: seq<Element>, keyComps: seq<Element>)
    ensures elStack == Absorb(stack, mixedQueue)
    ensures mixedQueue == [] ==> elStack == stack
    ensures keyComps == if mixedTail == [] then comps else [mixedTail[|mixedTail| - 1]]
  {
    elStack, keyComps := stack, comps;
    if mixedQueue != [] {
      if elStack != [] && elStack[|elStack| - 1].token.Key? && mixedQueue[0].token.Key? {
        elStack := elStack[..|elStack| - 1];
      }
      elStack := elStack + mixedQueue;
    }
    if mixedTail != [] {
      keyComps := [];
      keyComps := mixedTail[|mixedTail| - 1..];
    }
  }

  // The scan of the key components, from the back.
  method ScanKeyComps(fmt: Format, stack: seq<Element>, comps: seq<Element>, ghost lo: int, ghost hi: int)
    returns (
      elStack: seq<Element>, keyComps: seq<Element>, value: seq<Element>, found: bool, keyIsValues: bool,
      mixedValues: bool)
    requires FormatOk(fmt)
    requires Laid(stack + comps, lo, hi)
    ensures
      var o := Scan(fmt, stack, comps);
      && elStack == o.stack && keyComps == o.comps && value == o.value
      && found == o.found && keyIsValues == o.keyIsValues && mixedValues == o.mixed
    ensures !(found && mixedValues)
  {
    hide Laid, Runs, Absorb, IsValue, NoKeys, LastValue, LastBreak, Scanning, Scan;
    ghost var v := LastValue(comps);
    elStack, keyComps, value := stack, comps, [];
    var keyIter := |keyComps|;
    found, keyIsValues, mixedValues := false, true, false;
    var lastIsKey := keyComps != [] && IsKeyWord(keyComps[|keyComps| - 1]);
    var mixedQueue, mixedTail: seq<Element> := [], [];
    ScanAll(fmt, stack, comps);
    while keyIter != 0 && !found
      invariant 0 <= keyIter
      invariant found ==>
        && !mixedValues && mixedQueue == [] && mixedTail == []
        && Outcome(elStack, keyComps, value, true, keyIsValues, false) == Scan(fmt, stack, comps)
      invariant !found && !mixedValues ==>
        && elStack == stack && keyComps == comps && value == [] && mixedQueue == [] && mixedTail == []
        && Scanning(fmt, stack, comps, keyIter, keyIsValues)
      invariant mixedValues ==>
        && !found && value == [] && keyIter == |keyComps|
        && v > LastBreak(fmt, comps) && TakesApart(fmt, stack, comps)
        && Taken(stack, comps, elStack, keyComps, mixedQueue)
        && mixedTail == (if lastIsKey then comps[v + 1..] else [])
        && keyIsValues == NoKeys(comps[v + 1..])
      decreases !found, keyIter
    {
      keyIter := keyIter - 1;
      if mixedValues {
        ValueIsNoBreak(fmt, keyComps[keyIter]);
      } else {
        ScanStep(fmt, stack, comps, keyIter, keyIsValues);
      }
      if keyComps[keyIter].token == fmt.appender || keyComps[keyIter].token == fmt.terminator {
        keyComps, value := TakeBreak(fmt, stack, keyComps, keyIter, keyIsValues);
        found := true;
      } else {
        if IsKeyWord(keyComps[keyIter]) {
          keyIsValues := false;
        } else if IsValue(keyComps[keyIter].token) {
          var token := keyComps[keyIter].token;
          if ((!fmt.terminator.Invalid? && elStack != []) || (|keyComps| == 1 && mixedQueue == [])) && token.Id? {
            keyIsValues := false;
          } else if fmt.terminator.Invalid? || elStack == [] {
            mixedValues := true;
            elStack, keyComps, mixedQueue, mixedTail :=
              TakeApart(elStack, comps, keyComps, keyIter, lastIsKey, mixedQueue, mixedTail, lo, hi);
            keyIter := |keyComps|;
          }
        }
      }
    }
    if !found && !mixedValues {
      ScanNothing(fmt, stack, comps, keyIsValues);
    }
    if mixedValues {
      ValueIsNoBreak(fmt, comps[v]);
      ScanMixed(fmt, stack, comps);
      assert lastIsKey ==> v + 1 < |comps|;
    }
    elStack, keyComps := PutBack(elStack, keyComps, mixedQueue, mixedTail);
  }
}
