// The scanner's bracket tracking.  A matched bracket is taken off the stack only when the next token is
// asked for; the stack machine that takes it off at once is OpenAt.
module Scanner {
  import opened Wrappers
  import opened Tokens

  predicate Opens(t: Token)
  {
    t.LSquare? || t.LCurly? || t.LParen?
  }

  predicate Ends(t: Token)
  {
    t.RSquare? || t.RCurly? || t.RParen?
  }

  function ToOpener(t: Token): Token
    requires Ends(t) || t.XmlCloseTag?
  {
    match t
    case XmlCloseTag => XmlOpenTag
    case RCurly => LCurly
    case RSquare => LSquare
    case _ => LParen
  }

  // ---------- the eager stack machine ----------

  // The positions of the brackets that are open after the first n tokens.
  function OpenAt(toks: seq<Tok>, n: nat): (s: seq<nat>)
    requires n <= |toks|
    ensures forall k | 0 <= k < |s| :: s[k] < n && Opens(toks[s[k]].token)
    decreases n, 0
  {
    if n == 0 then []
    else
      var s := OpenAt(toks, n - 1);
      if Opens(toks[n - 1].token) then s + [n - 1]
      else if Matched(toks, n - 1) then s[..|s| - 1]
      else s
  }

  // Token j closes the innermost open bracket.
  predicate Matched(toks: seq<Tok>, j: nat)
    requires j < |toks|
    decreases j, 1
  {
    var s := OpenAt(toks, j);
    Ends(toks[j].token) && s != [] && toks[s[|s| - 1]].token == ToOpener(toks[j].token)
  }

  // Token j is the bracket that closes the one at i.
  predicate IsPartner(toks: seq<Tok>, i: nat, j: nat)
  {
    i < j < |toks| && Matched(toks, j) && OpenAt(toks, j)[|OpenAt(toks, j)| - 1] == i
  }

  function Range(toks: seq<Tok>, i: nat, j: nat): Tok
    requires i < |toks| && j < |toks|
  {
    Tok(Group, toks[i].cb, toks[j].ce)
  }

  // The range from the partner of the closing bracket at j to that bracket.
  ghost predicate IsPartnerRange(toks: seq<Tok>, j: nat, range: Tok)
  {
    exists i: nat :: IsPartner(toks, i, j) && range == Range(toks, i, j)
  }

  // The position of bracket i on the stack is h, from the token after it up to its partner.
  lemma {:induction false} StaysOpen(toks: seq<Tok>, i: nat, n: nat)
    requires i < n <= |toks| && Opens(toks[i].token)
    requires forall j | i < j < n :: !IsPartner(toks, i, j)
    ensures
      var h := |OpenAt(toks, i)|;
      h < |OpenAt(toks, n)| && OpenAt(toks, n)[h] == i
      && forall k | h < k < |OpenAt(toks, n)| :: OpenAt(toks, n)[k] > i
  {
    hide ToOpener;
    if n == i + 1 {
    } else {
      StaysOpen(toks, i, n - 1);
      assert !IsPartner(toks, i, n - 1);
    }
  }

  // The brackets on the stack are in the order in which they were read.
  lemma {:induction false} Increasing(toks: seq<Tok>, n: nat)
    requires n <= |toks|
    ensures forall k, l | 0 <= k < l < |OpenAt(toks, n)| :: OpenAt(toks, n)[k] < OpenAt(toks, n)[l]
  {
    if n == 0 {
    } else {
      Increasing(toks, n - 1);
    }
  }

  // A bracket that was closed is never open again.
  lemma {:induction false} StaysClosed(toks: seq<Tok>, i: nat, j: nat, n: nat)
    requires IsPartner(toks, i, j) && j < n <= |toks|
    ensures i !in OpenAt(toks, n)
  {
    OpenStep(toks, n - 1);
    if n == j + 1 {
      Increasing(toks, j);
      PartnerGone(toks, i, j);
    } else {
      hide OpenAt;
      StaysClosed(toks, i, j, n - 1);
    }
  }

  lemma OpenStep(toks: seq<Tok>, n: nat)
    requires n < |toks|
    ensures forall k | k in OpenAt(toks, n + 1) :: k in OpenAt(toks, n) || k == n
  {
    hide Opens, Matched;
  }

  lemma PartnerGone(toks: seq<Tok>, i: nat, j: nat)
    requires IsPartner(toks, i, j)
    ensures OpenAt(toks, j + 1) == OpenAt(toks, j)[..|OpenAt(toks, j)| - 1] && OpenAt(toks, j) != []
  {
    assert !Opens(toks[j].token);
  }

  // A bracket has at most one partner.
  lemma PartnerIsUnique(toks: seq<Tok>, i: nat, j: nat, k: nat)
    requires IsPartner(toks, i, j) && IsPartner(toks, i, k)
    ensures j == k
  {
    if j < k {
      StaysClosed(toks, i, j, k);
    } else if k < j {
      StaysClosed(toks, i, k, j);
    }
  }

  // ---------- partners, without the stack ----------

  // The opening bracket looked for is the one that the closing one ends.
  lemma OpenerCloses(o: Token, c: Token)
    requires Ends(c)
    ensures o == ToOpener(c) <==> Closes(o, c)
    ensures Opens(ToOpener(c))
  {}

  // The tokens from a on and before j may stand within a bracket: every bracket that is opened is closed, and no
  // other bracket closes this one.  Closing brackets that end nothing do not matter.
  ghost predicate Inside(toks: seq<Tok>, open: Token, a: nat, j: nat)
    requires a <= j <= |toks|
    decreases j - a
  {
    || a == j
    || (!Opens(toks[a].token) && !Closes(open, toks[a].token) && Inside(toks, open, a + 1, j))
    || (Opens(toks[a].token) && exists k | a < k < j ::
          && Closes(toks[a].token, toks[k].token)
          && Inside(toks, toks[a].token, a + 1, k) && Inside(toks, open, k + 1, j))
  }

  predicate OnTop(toks: seq<Tok>, i: nat, n: nat)
    requires n <= |toks|
  {
    var s := OpenAt(toks, n);
    s != [] && s[|s| - 1] == i
  }

  lemma StackStep(toks: seq<Tok>, i: nat, n: nat)
    requires i < n < |toks| && OnTop(toks, i, n)
    ensures Opens(toks[i].token) && (Matched(toks, n) <==> Closes(toks[i].token, toks[n].token))
    ensures Matched(toks, n) <==> IsPartner(toks, i, n)
    ensures Opens(toks[n].token) ==> OpenAt(toks, n + 1) == OpenAt(toks, n) + [n] && OnTop(toks, n, n + 1)
    ensures !Opens(toks[n].token) ==>
      OpenAt(toks, n + 1) == if Matched(toks, n) then OpenAt(toks, n)[..|OpenAt(toks, n)| - 1] else OpenAt(toks, n)
  {
    if Ends(toks[n].token) {
      OpenerCloses(toks[i].token, toks[n].token);
    }
  }

  // What is inside a bracket leaves the stack as it was.
  lemma {:induction false} InsideKeeps(toks: seq<Tok>, i: nat, a: nat, j: nat)
    requires i < a <= j <= |toks| && OnTop(toks, i, a) && Inside(toks, toks[i].token, a, j)
    ensures OpenAt(toks, j) == OpenAt(toks, a)
    decreases j - a
  {
    hide OpenAt, Matched, IsPartner, Opens;
    if a == j {
    } else {
      StackStep(toks, i, a);
      if !Opens(toks[a].token) && !Closes(toks[i].token, toks[a].token) && Inside(toks, toks[i].token, a + 1, j) {
        InsideKeeps(toks, i, a + 1, j);
      } else {
        var k :| a < k < j && Closes(toks[a].token, toks[k].token)
                 && Inside(toks, toks[a].token, a + 1, k) && Inside(toks, toks[i].token, k + 1, j);
        InsideKeeps(toks, a, a + 1, k);
        StackStep(toks, a, k);
        ClosingOpensNothing(toks[a].token, toks[k].token);
        InsideKeeps(toks, i, k + 1, j);
      }
    }
  }

  lemma ClosingOpensNothing(o: Token, c: Token)
    requires Closes(o, c)
    ensures !Opens(c)
  {}

  // While a bracket is open the ones below it stay as they are.
  lemma {:induction false} StaysBelow(toks: seq<Tok>, i: nat, n: nat)
    requires i < n <= |toks| && Opens(toks[i].token)
    requires forall j | i < j < n :: !IsPartner(toks, i, j)
    ensures |OpenAt(toks, i)| < |OpenAt(toks, n)| && OpenAt(toks, n)[..|OpenAt(toks, i)|] == OpenAt(toks, i)
    decreases n
  {
    OpensOnTop(toks, i);
    hide OpenAt, Matched, IsPartner, Opens;
    if n == i + 1 {
    } else {
      StaysBelow(toks, i, n - 1);
      StaysOpen(toks, i, n - 1);
      BelowStep(toks, i, OpenAt(toks, i), n - 1);
    }
  }

  lemma OpensOnTop(toks: seq<Tok>, i: nat)
    requires i < |toks| && Opens(toks[i].token)
    ensures OpenAt(toks, i + 1) == OpenAt(toks, i) + [i]
  {
    hide Opens;
  }

  lemma BelowStep(toks: seq<Tok>, i: nat, below: seq<nat>, n: nat)
    requires i < n < |toks| && !IsPartner(toks, i, n)
    requires |below| < |OpenAt(toks, n)| && OpenAt(toks, n)[..|below|] == below && OpenAt(toks, n)[|below|] == i
    ensures |below| < |OpenAt(toks, n + 1)| && OpenAt(toks, n + 1)[..|below|] == below
  {
    var s := OpenAt(toks, n);
    hide Opens, Ends, ToOpener;
    assert Matched(toks, n) ==> s[|s| - 1] != i;
  }

  lemma LastIsLargest(toks: seq<Tok>, i: nat, n: nat)
    requires n <= |toks| && OnTop(toks, i, n)
    ensures forall k | 0 <= k < |OpenAt(toks, n)| :: OpenAt(toks, n)[k] <= i
  {
    Increasing(toks, n);
    hide OpenAt;
  }

  // Between two moments at which a bracket is the innermost open one, everything that is opened is closed.
  lemma {:induction false} KeepsInside(toks: seq<Tok>, i: nat, a: nat, j: nat)
    requires i < a <= j <= |toks| && OnTop(toks, i, a) && OnTop(toks, i, j)
    requires forall n | a <= n < j :: !IsPartner(toks, i, n)
    ensures Inside(toks, toks[i].token, a, j)
    decreases j - a
  {
    hide OpenAt, Matched, IsPartner, Opens, Closes;
    if a == j {
    } else {
      StackStep(toks, i, a);
      if Opens(toks[a].token) {
        var k := ClosedBefore(toks, i, a, j);
        KeepsInside(toks, a, a + 1, k);
        KeepsInside(toks, i, k + 1, j);
      } else {
        KeepsInside(toks, i, a + 1, j);
      }
    }
  }

  // A bracket opened inside another that is innermost again later has been closed in between.
  lemma ClosedBefore(toks: seq<Tok>, i: nat, a: nat, j: nat) returns (k: nat)
    requires i < a < j <= |toks| && OnTop(toks, i, a) && OnTop(toks, i, j) && Opens(toks[a].token)
    ensures a < k < j && Closes(toks[a].token, toks[k].token) && OnTop(toks, a, a + 1) && OnTop(toks, a, k)
    ensures OnTop(toks, i, k + 1) && forall n | a < n < k :: !IsPartner(toks, a, n)
  {
    hide OpenAt, Matched, Closes, Opens, Inside, IsPartner;
    StackStep(toks, i, a);
    if forall n | a < n < j :: !IsPartner(toks, a, n) {
      StaysOpen(toks, a, j);
      LastIsLargest(toks, i, j);
      assert false;
    }
    k :| a < k < j && IsPartner(toks, a, k);
    forall n | a < n < k
      ensures !IsPartner(toks, a, n)
    {
      if IsPartner(toks, a, n) {
        PartnerIsUnique(toks, a, k, n);
      }
    }
    PartnerOnTop(toks, a, k);
    StaysBelow(toks, a, k);
    StaysOpen(toks, a, k);
    LastIsLargest(toks, a, k);
    assert |OpenAt(toks, k)| == |OpenAt(toks, a)| + 1;
    StackStep(toks, a, k);
    ClosingOpensNothing(toks[a].token, toks[k].token);
    assert OpenAt(toks, k + 1) == OpenAt(toks, a);
  }

  lemma PartnerOnTop(toks: seq<Tok>, i: nat, j: nat)
    requires IsPartner(toks, i, j)
    ensures i < j < |toks| && OnTop(toks, i, j) && Opens(toks[i].token) && Matched(toks, j)
  {
    hide Matched, ToOpener;
    assert OpenAt(toks, j) != [] by {
      MatchedSomething(toks, j);
    }
  }

  lemma MatchedSomething(toks: seq<Tok>, j: nat)
    requires j < |toks| && Matched(toks, j)
    ensures OpenAt(toks, j) != []
  {
    hide OpenAt, ToOpener;
  }

  // Two brackets are partners exactly when the one closes the other and what is between them may stand within it.
  lemma PartnersClose(toks: seq<Tok>, i: nat, j: nat)
    ensures IsPartner(toks, i, j) <==>
      && i < j < |toks| && Opens(toks[i].token) && Closes(toks[i].token, toks[j].token)
      && Inside(toks, toks[i].token, i + 1, j)
  {
    hide OpenAt, Matched, IsPartner, Opens, Closes, Inside;
    if IsPartner(toks, i, j) {
      PartnerOnTop(toks, i, j);
      StackStep(toks, i, j);
      OpenedOnTop(toks, i);
      forall n | i + 1 <= n < j
        ensures !IsPartner(toks, i, n)
      {
        if IsPartner(toks, i, n) {
          PartnerIsUnique(toks, i, j, n);
        }
      }
      KeepsInside(toks, i, i + 1, j);
    }
    if i < j < |toks| && Opens(toks[i].token) && Closes(toks[i].token, toks[j].token)
       && Inside(toks, toks[i].token, i + 1, j) {
      OpenedOnTop(toks, i);
      InsideKeeps(toks, i, i + 1, j);
      StackStep(toks, i, j);
    }
  }

  lemma OpenedOnTop(toks: seq<Tok>, i: nat)
    requires i < |toks| && Opens(toks[i].token)
    ensures OnTop(toks, i, i + 1)
  {}

  // Only one range leads back from a closing bracket.
  lemma OneRange(toks: seq<Tok>, i: nat, j: nat, range: Tok)
    requires IsPartner(toks, i, j) && IsPartnerRange(toks, j, range)
    ensures range == Range(toks, i, j)
  {
    hide OpenAt, ToOpener;
  }

  // ---------- the scanner ----------

  function Picked(toks: seq<Tok>, s: seq<nat>): (r: seq<Tok>)
    requires forall k | 0 <= k < |s| :: s[k] < |toks|
    ensures |r| == |s| && forall k | 0 <= k < |s| :: r[k] == toks[s[k]]
  {
    seq(|s|, k requires 0 <= k < |s| => toks[s[k]])
  }

  lemma PickedPop(toks: seq<Tok>, s: seq<nat>)
    requires s != [] && forall k | 0 <= k < |s| :: s[k] < |toks|
    ensures Picked(toks, s[..|s| - 1]) == Picked(toks, s)[..|s| - 1]
  {}

  lemma PickedPush(toks: seq<Tok>, s: seq<nat>, i: nat)
    requires i < |toks| && forall k | 0 <= k < |s| :: s[k] < |toks|
    ensures Picked(toks, s + [i]) == Picked(toks, s) + [toks[i]]
  {}

  // The stack after token n, in terms of the brackets themselves.
  lemma PickedStep(toks: seq<Tok>, n: nat)
    requires n < |toks|
    ensures
      var s, s', t := Picked(toks, OpenAt(toks, n)), Picked(toks, OpenAt(toks, n + 1)), toks[n];
      && (Opens(t.token) ==> s' == s + [t] && !Matched(toks, n))
      && (Matched(toks, n) <==> Ends(t.token) && s != [] && s[|s| - 1].token == ToOpener(t.token))
      && (Matched(toks, n) ==> s' == s[..|s| - 1])
      && (!Opens(t.token) && !Matched(toks, n) ==> s' == s)
  {
    var s := OpenAt(toks, n);
    PickedPush(toks, s, n);
    if s != [] {
      PickedPop(toks, s);
    }
  }

  // The scanner's fields after n tokens: without the bracket that is still to be taken off, the stack
  // holds exactly the open brackets; with it, those that were open before the last token.
  ghost predicate Tracks(toks: seq<Tok>, n: nat, brackets: seq<Tok>, deferred: bool)
  {
    && n <= |toks|
    && (if deferred then
          && n > 0 && Matched(toks, n - 1) && brackets == Picked(toks, OpenAt(toks, n - 1))
          && brackets[..|brackets| - 1] == Picked(toks, OpenAt(toks, n))
        else brackets == Picked(toks, OpenAt(toks, n)))
  }

  function TakenOff(brackets: seq<Tok>, deferred: bool): seq<Tok>
  {
    if deferred && brackets != [] then brackets[..|brackets| - 1] else brackets
  }

  lemma EndsOpenNothing()
    ensures forall t | Ends(t) :: !Opens(t)
  {}

  lemma {:induction false} TracksStep(toks: seq<Tok>, n: nat, brackets: seq<Tok>, deferred: bool)
    requires Tracks(toks, n, brackets, deferred)
    ensures deferred ==> brackets != []
    ensures Tracks(toks, n, TakenOff(brackets, deferred), false)
    ensures n < |toks| ==>
      var b, t := TakenOff(brackets, deferred), toks[n];
      if Opens(t.token) then Tracks(toks, n + 1, b + [t], false) && !Matched(toks, n)
      else if Ends(t.token) && b != [] && b[|b| - 1].token == ToOpener(t.token) then
        Tracks(toks, n + 1, b, true) && Matched(toks, n)
      else Tracks(toks, n + 1, b, false) && !Matched(toks, n)
  {
    hide OpenAt, Matched, Picked, ToOpener, Opens, Ends;
    EndsOpenNothing();
    if deferred {
      PickedStep(toks, n - 1);
    }
    if n < |toks| {
      PickedStep(toks, n);
    }
  }

  lemma TracksHeight(toks: seq<Tok>, n: nat, brackets: seq<Tok>, deferred: bool)
    requires Tracks(toks, n, brackets, deferred)
    ensures n <= |toks|
    ensures deferred ==> n > 0 && Matched(toks, n - 1) && |brackets| == |OpenAt(toks, n - 1)|
    ensures !deferred ==> |brackets| == |OpenAt(toks, n)|
  {}

  // The bracket on top of a stack with a deferred bracket is the partner of the last token.
  lemma TracksTop(toks: seq<Tok>, n: nat, brackets: seq<Tok>)
    requires Tracks(toks, n, brackets, true)
    ensures 0 < n <= |toks| && brackets != [] && Ends(toks[n - 1].token)
    ensures
      var top := brackets[|brackets| - 1];
      top.token == ToOpener(toks[n - 1].token) && IsPartnerRange(toks, n - 1, Tok(Group, top.cb, toks[n - 1].ce))
  {
    var s := OpenAt(toks, n - 1);
    assert IsPartner(toks, s[|s| - 1], n - 1);
  }

  lemma SizeAtOpening(toks: seq<Tok>, i: nat)
    requires i < |toks| && Opens(toks[i].token)
    ensures !Matched(toks, i) && |OpenAt(toks, i + 1)| == |OpenAt(toks, i)| + 1
  {}

  // A token matches bracket i exactly when it matches a bracket at the height where i stands.
  lemma PartnerBySize(toks: seq<Tok>, i: nat, n: nat)
    requires i < n < |toks| && Opens(toks[i].token)
    requires NoPartnerUpTo(toks, i, n)
    ensures IsPartner(toks, i, n) <==> Matched(toks, n) && |OpenAt(toks, n)| == |OpenAt(toks, i)| + 1
  {
    StaysOpen(toks, i, n);
    hide OpenAt;
  }

  ghost predicate HasPartner(toks: seq<Tok>, i: nat)
  {
    exists j: nat :: IsPartner(toks, i, j)
  }

  ghost predicate NoPartnerUpTo(toks: seq<Tok>, i: nat, n: nat)
  {
    forall j: nat | j < n :: !IsPartner(toks, i, j)
  }

  lemma NoneYet(toks: seq<Tok>, i: nat)
    ensures NoPartnerUpTo(toks, i, i + 1)
  {}

  // One more token: either it is the partner, found by the height of the stack, or the search goes on.
  lemma NoneFurther(toks: seq<Tok>, i: nat, n: nat)
    requires i < n <= |toks| && Opens(toks[i].token) && NoPartnerUpTo(toks, i, n)
    ensures n == |toks| ==> !HasPartner(toks, i)
    ensures n < |toks| ==>
      if Matched(toks, n) && |OpenAt(toks, n)| == |OpenAt(toks, i)| + 1
      then IsPartner(toks, i, n) && HasPartner(toks, i)
      else NoPartnerUpTo(toks, i, n + 1)
  {
    if n < |toks| {
      PartnerBySize(toks, i, n);
    }
    hide OpenAt, Matched;
  }

  class DataScanner {
    // Everything the tokenizer will return, and how much of it has been returned.
    const toks: seq<Tok>
    var next: nat
    var matchingBrackets: seq<Tok>
    var lastBracketMatched: bool

    constructor (toks: seq<Tok>)
      ensures Valid() && this.toks == toks && next == 0 && !lastBracketMatched
    {
      this.toks, next, matchingBrackets, lastBracketMatched := toks, 0, [], false;
    }

    ghost predicate Valid()
      reads this
    {
      Tracks(toks, next, matchingBrackets, lastBracketMatched)
    }

    // What the stack would be if a matched bracket were taken off at once.
    ghost function Open(): seq<Tok>
      reads this
      requires Valid()
      ensures next <= |toks| && Open() == Picked(toks, OpenAt(toks, next))
    {
      TracksStep(toks, next, matchingBrackets, lastBracketMatched);
      TakenOff(matchingBrackets, lastBracketMatched)
    }

    // The next token; the deferred bracket goes first.
    method Tokenize2() returns (r: Option<Tok>)
      requires Valid()
      modifies this`next, this`matchingBrackets, this`lastBracketMatched
      ensures Valid() && old(next) <= |toks|
      ensures old(next) == |toks| ==> r == None && next == old(next) && !lastBracketMatched
      ensures old(next) < |toks| ==>
        && r == Some(toks[old(next)]) && next == old(next) + 1
        && lastBracketMatched == Matched(toks, old(next))
    {
      hide OpenAt, Matched, Picked, Tracks;
      TracksStep(toks, next, matchingBrackets, lastBracketMatched);
      TracksHeight(toks, next, matchingBrackets, lastBracketMatched);
      r := None;
      if next < |toks| {
        r := Some(toks[next]);
        next := next + 1;
      }
      if lastBracketMatched {
        matchingBrackets := matchingBrackets[..|matchingBrackets| - 1];
        lastBracketMatched := false;
      }
      if r.Some? {
        var dt := r.value.token;
        if dt.LSquare? || dt.LCurly? || dt.LParen? {
          matchingBrackets := matchingBrackets + [r.value];
        } else if dt.RSquare? || dt.RCurly? || dt.RParen? {
          if matchingBrackets != [] && matchingBrackets[|matchingBrackets| - 1].token == ToOpener(dt) {
            lastBracketMatched := true;
          }
        }
      }
    }

    // The range from an opening bracket just returned to its partner; reads on until it is found.
    method FindClosing(tr: Tok) returns (r: Option<Tok>)
      requires Valid() && 0 < next <= |toks| && tr == toks[next - 1] && Opens(tr.token)
      modifies this`next, this`matchingBrackets, this`lastBracketMatched
      ensures Valid()
      ensures r.Some? <==> HasPartner(toks, old(next) - 1)
      ensures r == None ==> next == |toks|
      ensures r.Some? ==>
        && 0 < next <= |toks| && IsPartner(toks, old(next) - 1, next - 1) && lastBracketMatched
        && r.value == Tok(Group, tr.cb, toks[next - 1].ce)
    {
      hide *;
      ghost var i := next - 1;
      var currSize := |matchingBrackets|;
      SizeAtOpening(toks, i);
      Height();
      NoneYet(toks, i);
      r := None;
      while true
        invariant Valid() && i < next <= |toks| && NoPartnerUpTo(toks, i, next)
        decreases |toks| - next
      {
        NoneFurther(toks, i, next);
        var token := Tokenize2();
        if token.None? {
          return;
        }
        Height();
        if |matchingBrackets| == currSize && lastBracketMatched {
          return Some(Tok(Group, tr.cb, token.value.ce));
        }
      }
    }

    // The height of the stack tells how many brackets are open.
    lemma Height()
      requires Valid()
      ensures next <= |toks|
      ensures lastBracketMatched ==>
        next > 0 && Matched(toks, next - 1) && |matchingBrackets| == |OpenAt(toks, next - 1)|
      ensures !lastBracketMatched ==> |matchingBrackets| == |OpenAt(toks, next)|
    {
      TracksHeight(toks, next, matchingBrackets, lastBracketMatched);
    }

    // The range from the innermost open bracket of the right kind to a closing bracket just returned.
    method FindOpening(tr: Tok) returns (r: Option<Tok>)
      requires Valid() && next <= |toks| && Ends(tr.token)
      ensures r == None ==> forall k | 0 <= k < |matchingBrackets| :: matchingBrackets[k].token != ToOpener(tr.token)
      ensures r.Some? ==>
        exists k | 0 <= k < |matchingBrackets| ::
          && matchingBrackets[k].token == ToOpener(tr.token)
          && (forall l | k < l < |matchingBrackets| :: matchingBrackets[l].token != ToOpener(tr.token))
          && r.value == Tok(Group, matchingBrackets[k].cb, tr.ce)
      ensures next > 0 && tr == toks[next - 1] && lastBracketMatched ==>
        r.Some? && IsPartnerRange(toks, next - 1, r.value)
    {
      if lastBracketMatched {
        TracksTop(toks, next, matchingBrackets);
      }
      hide OpenAt, Matched, Picked, IsPartner, Tracks, IsPartnerRange;
      var k := |matchingBrackets|;
      while k > 0
        invariant 0 <= k <= |matchingBrackets|
        invariant forall l | k <= l < |matchingBrackets| :: matchingBrackets[l].token != ToOpener(tr.token)
      {
        k := k - 1;
        if matchingBrackets[k].token == ToOpener(tr.token) {
          return Some(Tok(Group, matchingBrackets[k].cb, tr.ce));
        }
      }
      r := None;
    }

    // The range between a bracket just returned and its partner.
    method FindMatchingBracket(tr: Tok) returns (r: Option<Tok>)
      requires Valid() && 0 < next <= |toks| && tr == toks[next - 1]
      modifies this`next, this`matchingBrackets, this`lastBracketMatched
      ensures Valid()
      ensures Opens(tr.token) ==>
        && (r.Some? <==> HasPartner(toks, old(next) - 1))
        && (r.Some? ==>
              0 < next <= |toks| && IsPartner(toks, old(next) - 1, next - 1)
              && r.value == Range(toks, old(next) - 1, next - 1))
      ensures Ends(tr.token) && old(lastBracketMatched) ==>
        r.Some? && IsPartnerRange(toks, old(next) - 1, r.value)
      ensures !Opens(tr.token) ==> unchanged(this)
      ensures !Opens(tr.token) && !Ends(tr.token) ==> r == None
    {
      hide OpenAt, Matched, Picked, IsPartner, HasPartner, Tracks, IsPartnerRange;
      if tr.token.LSquare? || tr.token.LCurly? || tr.token.LParen? {
        r := FindClosing(tr);
      } else if tr.token.RSquare? || tr.token.RCurly? || tr.token.RParen? {
        r := FindOpening(tr);
      } else {
        r := None;
      }
    }
  }

  // A scanner that has returned token n and all before it.
  method ReadUpTo(s: DataScanner, n: nat) returns (tr: Tok)
    requires s.Valid() && s.next == 0 && n < |s.toks|
    modifies s
    ensures s.Valid() && s.next == n + 1 && tr == s.toks[n] && s.lastBracketMatched == Matched(s.toks, n)
  {
    hide *;
    var i := 0;
    while i < n
      invariant i <= n && s.Valid() && s.next == i
    {
      var before := s.Tokenize2();
      i := i + 1;
    }
    var last := s.Tokenize2();
    tr := last.value;
  }

  // The search forward from an opening bracket, and the search of another scanner back from the bracket that
  // was found: they agree, and there is something to find exactly when the bracket has a partner.
  method SearchThereAndBack(toks: seq<Tok>, i: nat) returns (forward: Option<Tok>, backward: Option<Tok>)
    requires i < |toks| && Opens(toks[i].token)
    ensures forward.Some? <==> HasPartner(toks, i)
    ensures forward == backward
    ensures forward.Some? ==> exists j: nat :: IsPartner(toks, i, j) && forward.value == Range(toks, i, j)
  {
    hide *;
    var scanner := new DataScanner(toks);
    var opener := ReadUpTo(scanner, i);
    forward := scanner.FindMatchingBracket(opener);
    backward := None;
    if forward.Some? {
      ghost var j := scanner.next - 1;
      var second := new DataScanner(toks);
      var closer := ReadUpTo(second, scanner.next - 1);
      ClosesMatched(toks, i, j);
      backward := second.FindMatchingBracket(closer);
      OneRange(toks, i, j, backward.value);
    }
  }

  lemma ClosesMatched(toks: seq<Tok>, i: nat, j: nat)
    requires IsPartner(toks, i, j)
    ensures j < |toks| && Matched(toks, j) && Ends(toks[j].token)
  {
    hide OpenAt, ToOpener;
  }

  // ---------- the end of the input ----------

  predicate IsTrailing(c: char)
  {
    c == '.' || c == ' ' || c == '\r' || c == '\n'
  }

  // Drops full stops, spaces and line ends from the end of the input, as many as there are.
  method CleanupEnd(input: string) returns (r: string)
    ensures |r| <= |input| && r == input[..|r|]
    ensures r != "" ==> !IsTrailing(r[|r| - 1])
    ensures forall i | |r| <= i < |input| :: IsTrailing(input[i])
  {
    r := input;
    var done := false;
    while r != "" && !done
      invariant |r| <= |input| && r == input[..|r|]
      invariant forall i | |r| <= i < |input| :: IsTrailing(input[i])
      invariant done ==> r != "" && !IsTrailing(r[|r| - 1])
      decreases |r|, !done
    {
      if IsTrailing(r[|r| - 1]) {
        r := r[..|r| - 1];
      } else {
        done := true;
      }
    }
  }
}
