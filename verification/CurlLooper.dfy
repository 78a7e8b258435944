// The life of a request in the transfer loop: it is added, becomes active, may poll and become active
// again, and leaves when it is closed or has finished.
module CurlLooper {

  class Request {
    const name: string
    const handle: nat
    // Requests due at the same time are ordered by their addresses.
    const address: nat
    var open: bool

    constructor (name: string, handle: nat, address: nat)
      ensures this.name == name && this.handle == handle && this.address == address && open
    {
      this.name, this.handle, this.address, open := name, handle, address, true;
    }

    method Close()
      modifies this
      ensures !open
    {
      open := false;
    }
  }

  // A request that waits for its next turn.
  datatype Due = Due(time: int, request: Request)

  // What the transfer library reports: a transfer is done, and the request asks to poll again after
  // delay, or not to when that is negative; anything else is of no interest.
  datatype Message = Done(handle: nat, delay: int, now: int) | Other

  // The fields of the loop, and the handles the library works on.
  datatype Queues = Queues(
    all: seq<Request>, incoming: seq<Request>, closing: seq<string>, active: map<nat, Request>,
    poll: seq<Due>, multi: set<nat>)

  // ---------- sorting the poll queue ----------

  predicate Before(a: Due, b: Due)
  {
    a.time < b.time || (a.time == b.time && a.request.address < b.request.address)
  }

  function Insert(q: seq<Due>, d: Due): seq<Due>
  {
    if q == [] || Before(d, q[0]) then [d] + q else [q[0]] + Insert(q[1..], d)
  }

  function SortAll(q: seq<Due>): seq<Due>
  {
    if q == [] then [] else Insert(SortAll(q[..|q| - 1]), q[|q| - 1])
  }

  ghost predicate InOrder(q: seq<Due>)
  {
    forall i, j | 0 <= i < j < |q| :: !Before(q[j], q[i])
  }

  // Inserting puts the new entry behind all those that are not later.
  lemma {:induction false} InsertPosition(q: seq<Due>, d: Due) returns (k: nat)
    ensures k <= |q| && Insert(q, d) == q[..k] + [d] + q[k..]
    ensures forall i | 0 <= i < k :: !Before(d, q[i])
    ensures k < |q| ==> Before(d, q[k])
    decreases |q|
  {
    if q == [] || Before(d, q[0]) {
      k := 0;
    } else {
      k := InsertPosition(q[1..], d);
      assert q[1..][..k] == q[1..k + 1] && q[1..][k..] == q[k + 1..];
      assert [q[0]] + (q[1..k + 1] + [d] + q[k + 1..]) == q[..k + 1] + [d] + q[k + 1..];
      assert forall i | 0 < i < k + 1 :: q[i] == q[1..][i - 1];
      k := k + 1;
    }
  }

  // A queue in order is left alone by sorting.
  lemma {:induction false} SortedStays(q: seq<Due>)
    requires InOrder(q)
    ensures SortAll(q) == q
    decreases |q|
  {
    if q == [] {
    } else {
      var a, d := q[..|q| - 1], q[|q| - 1];
      SortedStays(a);
      var k := InsertPosition(a, d);
      assert forall i | 0 <= i < |a| :: !Before(d, a[i]);
      assert a[..k] + [d] + a[k..] == q;
    }
  }

  // So sorting after one more entry has come in inserts that entry.
  lemma SortInserts(q: seq<Due>, d: Due) returns (k: nat)
    requires InOrder(q)
    ensures k <= |q| && SortAll(q + [d]) == q[..k] + [d] + q[k..] && InOrder(SortAll(q + [d]))
  {
    hide InOrder, Before, Insert;
    SortedStays(q);
    assert (q + [d])[..|q|] == q;
    assert SortAll(q + [d]) == Insert(q, d);
    k := InsertPosition(q, d);
    InsertedInOrder(q, d, k);
  }

  lemma InsertedInOrder(q: seq<Due>, d: Due, k: nat)
    requires InOrder(q) && k <= |q|
    requires forall i | 0 <= i < k :: !Before(d, q[i])
    requires k < |q| ==> Before(d, q[k])
    ensures InOrder(q[..k] + [d] + q[k..])
  {
    var q' := q[..k] + [d] + q[k..];
    assert forall i | 0 <= i < |q'| :: q'[i] == if i < k then q[i] else if i == k then d else q[i - 1];
    assert forall i | k <= i < |q| :: Before(d, q[i]);
  }

  // ---------- the steps ----------

  function Activate(s: Queues, r: Request): Queues
  {
    s.(active := s.active[r.handle := r], multi := s.multi + {r.handle})
  }

  // New requests become active, from the last one on.
  function StartNew(s: Queues): Queues
    decreases |s.incoming|
  {
    if s.incoming == [] then s
    else StartNew(Activate(s, s.incoming[|s.incoming| - 1]).(incoming := s.incoming[..|s.incoming| - 1]))
  }

  // The position of the first request with a name, or the length of the list.
  function FirstNamed(all: seq<Request>, name: string): (i: nat)
    ensures i <= |all| && (i < |all| ==> all[i].name == name)
    ensures forall k | 0 <= k < i :: all[k].name != name
  {
    if all == [] then 0 else if all[0].name == name then 0 else 1 + FirstNamed(all[1..], name)
  }

  function FirstDue(q: seq<Due>, name: string): (i: nat)
    ensures i <= |q| && (i < |q| ==> q[i].request.name == name)
    ensures forall k | 0 <= k < i :: q[k].request.name != name
  {
    if q == [] then 0 else if q[0].request.name == name then 0 else 1 + FirstDue(q[1..], name)
  }

  function Without<T>(s: seq<T>, i: nat): seq<T>
    requires i < |s|
  {
    s[..i] + s[i + 1..]
  }

  function CloseNamed(s: Queues, name: string): Queues
  {
    var i, p := FirstNamed(s.all, name), FirstDue(s.poll, name);
    if i == |s.all| then s
    else
      var h := s.all[i].handle;
      s.(all := Without(s.all, i),
         active := s.active - {h},
         multi := if h in s.active then s.multi - {h} else s.multi,
         poll := if p < |s.poll| then Without(s.poll, p) else s.poll)
  }

  // The names asked to be closed, from the last one on.
  function CloseRequested(s: Queues): Queues
    decreases |s.closing|
  {
    if s.closing == [] then s
    else
      var n := |s.closing| - 1;
      CloseRequested(CloseNamed(s, s.closing[n]).(closing := s.closing[..n]))
  }

  function CheckNew(s: Queues): Queues
  {
    CloseRequested(StartNew(s))
  }

  function Finish(s: Queues, m: Message): Queues
  {
    if m.Other? then s
    else if m.handle !in s.active then s.(multi := s.multi - {m.handle})
    else
      var r := s.active[m.handle];
      var rest := s.(multi := s.multi - {m.handle}, active := s.active - {m.handle});
      if m.delay < 0 then
        rest.(all := if r in s.all then Without(s.all, IndexOf(s.all, r)) else s.all)
      else rest.(poll := SortAll(s.poll + [Due(m.now + m.delay, r)]))
  }

  function IndexOf(all: seq<Request>, r: Request): (i: nat)
    requires r in all
    ensures i < |all| && all[i] == r
  {
    if all[0] == r then 0 else 1 + IndexOf(all[1..], r)
  }

  function FinishAll(s: Queues, ms: seq<Message>): Queues
  {
    if ms == [] then s else Finish(FinishAll(s, ms[..|ms| - 1]), ms[|ms| - 1])
  }

  // Requests that are due by the given time become active again.
  function Requeue(s: Queues, upTo: int): Queues
    decreases |s.poll|
  {
    if s.poll != [] && s.poll[0].time <= upTo
    then Requeue(Activate(s, s.poll[0].request).(poll := s.poll[1..]), upTo)
    else s
  }

  function LoopBody(s: Queues, ms: seq<Message>, now: int): Queues
  {
    Requeue(CheckNew(FinishAll(s, ms)), now + 5)
  }

  // ---------- the invariant ----------

  predicate DistinctRequests(all: seq<Request>)
  {
    forall i, j | 0 <= i < j < |all| ::
      all[i] != all[j] && all[i].handle != all[j].handle
  }

  // No two requests share a name.
  predicate DistinctNames(all: seq<Request>)
  {
    forall i, j | 0 <= i < j < |all| :: all[i].name != all[j].name
  }

  predicate IsActive(s: Queues, r: Request)
  {
    r.handle in s.active && s.active[r.handle] == r
  }

  predicate Polls(q: seq<Due>, r: Request)
  {
    exists i :: 0 <= i < |q| && q[i].request == r
  }

  predicate DistinctDues(q: seq<Due>)
  {
    forall i, j | 0 <= i < j < |q| :: q[i].request != q[j].request
  }

  predicate Distinct<T(==)>(s: seq<T>)
  {
    forall i, j | 0 <= i < j < |s| :: s[i] != s[j]
  }

  // The requests are exactly those that are new, active or polling, and each is in one place only.
  ghost predicate Partition(s: Queues)
  {
    && DistinctRequests(s.all) && Distinct(s.incoming) && DistinctDues(s.poll)
    && (forall r | r in s.all :: r in s.incoming || IsActive(s, r) || Polls(s.poll, r))
    && (forall r | r in s.incoming :: r in s.all && !IsActive(s, r) && !Polls(s.poll, r))
    && (forall h | h in s.active ::
          s.active[h].handle == h && s.active[h] in s.all && !Polls(s.poll, s.active[h]))
    && (forall d | d in s.poll :: d.request in s.all)
  }

  // The library works on the active requests, and the poll queue is in order of time.
  ghost predicate Inv(s: Queues)
  {
    Partition(s) && s.multi == s.active.Keys && InOrder(s.poll)
  }

  lemma SameHandle(s: Queues, a: Request, b: Request)
    requires DistinctRequests(s.all) && a in s.all && b in s.all && a.handle == b.handle
    ensures a == b
  {
    var i :| 0 <= i < |s.all| && s.all[i] == a;
    var j :| 0 <= j < |s.all| && s.all[j] == b;
  }

  lemma SameName(all: seq<Request>, a: Request, b: Request)
    requires DistinctNames(all) && a in all && b in all && a.name == b.name
    ensures a == b
  {
    var i :| 0 <= i < |all| && all[i] == a;
    var j :| 0 <= j < |all| && all[j] == b;
  }

  // A known request that is not active can be made active, when it leaves the place where it was.
  lemma ActivateInv(s: Queues, s': Queues, r: Request)
    requires Inv(s) && r in s.all && !IsActive(s, r)
    requires s' == Activate(s, r).(incoming := s'.incoming, poll := s'.poll)
    requires Distinct(s'.incoming) && DistinctDues(s'.poll) && InOrder(s'.poll)
    requires r !in s'.incoming && !Polls(s'.poll, r)
    requires forall x | x in s.incoming && x != r :: x in s'.incoming
    requires forall x | x in s'.incoming :: x in s.incoming
    requires forall d | d in s.poll && d.request != r :: d in s'.poll
    requires forall d | d in s'.poll :: d in s.poll
    ensures Inv(s')
  {
    hide InOrder;
    if r.handle in s.active {
      SameHandle(s, s.active[r.handle], r);
    }
    StillPoll(s.poll, s'.poll, r);
    forall x | x in s.all
      ensures x in s'.incoming || IsActive(s', x) || Polls(s'.poll, x)
    {
      if x != r {
        if x.handle == r.handle {
          SameHandle(s, x, r);
        }
      }
    }
  }

  lemma StillPoll(q: seq<Due>, q': seq<Due>, r: Request)
    requires forall d | d in q && d.request != r :: d in q'
    requires forall d | d in q' :: d in q
    ensures forall x | Polls(q, x) && x != r :: Polls(q', x)
    ensures forall x | Polls(q', x) :: Polls(q, x)
  {
    forall x | Polls(q, x) && x != r
      ensures Polls(q', x)
    {
      var i :| 0 <= i < |q| && q[i].request == x;
      assert q[i] in q';
    }
  }

  // ---------- every step keeps the invariant ----------

  lemma {:induction false} StartNewInv(s: Queues)
    requires Inv(s)
    ensures
      var s' := StartNew(s);
      Inv(s') && s'.incoming == [] && s'.all == s.all && s'.poll == s.poll && s'.closing == s.closing
    decreases |s.incoming|
  {
    hide Inv;
    if s.incoming == [] {
    } else {
      StartOnce(s);
      var n := |s.incoming| - 1;
      StartNewInv(Activate(s, s.incoming[n]).(incoming := s.incoming[..n]));
    }
  }

  lemma StartOnce(s: Queues)
    requires Inv(s) && s.incoming != []
    ensures
      var n := |s.incoming| - 1;
      Inv(Activate(s, s.incoming[n]).(incoming := s.incoming[..n]))
  {
    hide InOrder;
    var n := |s.incoming| - 1;
    var r := s.incoming[n];
    ActivateInv(s, Activate(s, r).(incoming := s.incoming[..n]), r);
  }

  // What is left after the element at i is taken out of a list of distinct elements.
  lemma WithoutMembers(all: seq<Request>, i: nat)
    requires DistinctRequests(all) && i < |all|
    ensures DistinctRequests(Without(all, i))
    ensures forall r | r in Without(all, i) :: r in all && r != all[i]
    ensures forall r | r in all && r != all[i] :: r in Without(all, i)
  {
    var w := Without(all, i);
    assert forall k | 0 <= k < |w| :: w[k] == if k < i then all[k] else all[k + 1];
    forall r | r in all && r != all[i]
      ensures r in w
    {
      var k :| 0 <= k < |all| && all[k] == r;
      assert w[if k < i then k else k - 1] == r;
    }
  }

  lemma WithoutDues(q: seq<Due>, i: nat)
    requires DistinctDues(q) && InOrder(q) && i < |q|
    ensures DistinctDues(Without(q, i)) && InOrder(Without(q, i))
    ensures forall d :: d in Without(q, i) <==> d in q && d != q[i]
    ensures forall r :: Polls(Without(q, i), r) <==> Polls(q, r) && r != q[i].request
  {
    hide Before;
    WithoutPolls(q, i);
    var w := Without(q, i);
    assert forall k | 0 <= k < |w| :: w[k] == if k < i then q[k] else q[k + 1];
    forall d | d in q && d != q[i]
      ensures d in w
    {
      var k :| 0 <= k < |q| && q[k] == d;
      assert w[if k < i then k else k - 1] == d;
    }
  }

  lemma WithoutPolls(q: seq<Due>, i: nat)
    requires DistinctDues(q) && i < |q|
    ensures forall r :: Polls(Without(q, i), r) <==> Polls(q, r) && r != q[i].request
  {
    var w := Without(q, i);
    assert forall k | 0 <= k < |w| :: w[k] == if k < i then q[k] else q[k + 1];
    forall r | Polls(q, r) && r != q[i].request
      ensures Polls(w, r)
    {
      var k :| 0 <= k < |q| && q[k].request == r;
      assert w[if k < i then k else k - 1].request == r;
    }
  }

  // A request that leaves for good: it is taken out of every place.
  lemma LeaveInv(s: Queues, s': Queues, r: Request)
    requires Inv(s) && r in s.all && r !in s.incoming
    requires s'.incoming == s.incoming && s'.active == s.active - {r.handle} && s'.multi == s.multi - {r.handle}
    requires DistinctRequests(s'.all)
    requires forall x | x in s'.all :: x in s.all && x != r
    requires forall x | x in s.all && x != r :: x in s'.all
    requires DistinctDues(s'.poll) && InOrder(s'.poll)
    requires forall d | d in s'.poll :: d in s.poll
    requires forall x :: Polls(s'.poll, x) <==> Polls(s.poll, x) && x != r
    ensures Inv(s')
  {
    forall x | x in s'.all
      ensures x in s'.incoming || IsActive(s', x) || Polls(s'.poll, x)
    {
      if x.handle == r.handle {
        SameHandle(s, x, r);
      }
    }
    forall h | h in s'.active
      ensures s'.active[h] in s'.all && s'.active[h].handle == h
    {
      assert h in s.active;
    }
    forall d | d in s'.poll
      ensures d.request in s'.all
    {
      var i :| 0 <= i < |s'.poll| && s'.poll[i] == d;
      assert Polls(s'.poll, d.request);
    }
  }

  // The first request in the list and the first one in the poll queue with a name are the same, if there are both.
  predicate ClosesRight(s: Queues, name: string)
  {
    var i, p := FirstNamed(s.all, name), FirstDue(s.poll, name);
    i < |s.all| && p < |s.poll| ==> s.poll[p].request == s.all[i]
  }

  // Closing a name keeps the partition exactly when it takes one and the same request out of the list and the
  // poll queue; it is always the first of that name that leaves the list.
  lemma CloseNamedInv(s: Queues, name: string)
    requires Inv(s) && s.incoming == []
    ensures
      var s', i := CloseNamed(s, name), FirstNamed(s.all, name);
      && s'.incoming == [] && s'.closing == s.closing
      && (Inv(s') <==> ClosesRight(s, name))
      && (i == |s.all| ==> s' == s)
      && (i < |s.all| ==> s'.all == Without(s.all, i))
  {
    hide Inv;
    if ClosesRight(s, name) {
      RightInv(s, name);
    } else {
      LostInv(s, name);
    }
  }

  lemma RightInv(s: Queues, name: string)
    requires Inv(s) && s.incoming == [] && ClosesRight(s, name)
    ensures Inv(CloseNamed(s, name))
  {
    var s' := CloseNamed(s, name);
    var i, p := FirstNamed(s.all, name), FirstDue(s.poll, name);
    hide FirstNamed, FirstDue, InOrder;
    if i < |s.all| {
      WithoutMembers(s.all, i);
      if p < |s.poll| {
        WithoutDues(s.poll, p);
        LeaveInv(s, s', s.all[i]);
      } else {
        NotDue(s, name, s.all[i]);
        LeaveInv(s, s', s.all[i]);
      }
    }
  }

  lemma NotDue(s: Queues, name: string, r: Request)
    requires FirstDue(s.poll, name) == |s.poll| && r.name == name
    ensures !Polls(s.poll, r)
  {}

  // Otherwise the request that leaves the poll queue stays in the list of all, and is in no place.
  lemma LostInv(s: Queues, name: string)
    requires Inv(s) && s.incoming == [] && !ClosesRight(s, name)
    ensures
      var s', x := CloseNamed(s, name), s.poll[FirstDue(s.poll, name)].request;
      x in s'.all && x !in s'.incoming && !IsActive(s', x) && !Polls(s'.poll, x) && !Inv(s')
  {
    var i, p := FirstNamed(s.all, name), FirstDue(s.poll, name);
    WithoutMembers(s.all, i);
    WithoutDues(s.poll, p);
    assert s.poll[p] in s.poll;
    hide InOrder;
  }

  // Every name that is asked to be closed is closed right when its turn comes.
  predicate ClosesAllRight(s: Queues)
    decreases |s.closing|
  {
    s.closing == [] ||
    var n := |s.closing| - 1;
    ClosesRight(s, s.closing[n]) && ClosesAllRight(CloseNamed(s, s.closing[n]).(closing := s.closing[..n]))
  }

  lemma {:induction false} CloseRequestedInv(s: Queues)
    requires Inv(s) && s.incoming == [] && ClosesAllRight(s)
    ensures Inv(CloseRequested(s)) && CloseRequested(s).incoming == [] && CloseRequested(s).closing == []
    ensures forall r | r in CloseRequested(s).all :: r in s.all
    decreases |s.closing|
  {
    hide Inv, CloseNamed, ClosesRight;
    if s.closing == [] {
    } else {
      var n := |s.closing| - 1;
      var s1 := CloseNamed(s, s.closing[n]).(closing := s.closing[..n]);
      CloseNamedInv(s, s.closing[n]);
      InvWithoutClosing(CloseNamed(s, s.closing[n]), s1);
      CloseRequestedInv(s1);
      hide CloseRequested, ClosesAllRight;
      WithoutSubset(s.all, FirstNamed(s.all, s.closing[n]));
    }
  }

  // The state after the last k names have been closed.
  function AfterCloses(s: Queues, k: nat): Queues
    requires k <= |s.closing|
    decreases k
  {
    if k == 0 then s
    else
      var n := |s.closing| - 1;
      AfterCloses(CloseNamed(s, s.closing[n]).(closing := s.closing[..n]), k - 1)
  }

  // The requests are partitioned after every single close.
  ghost predicate InvThroughout(s: Queues)
  {
    forall k | 0 <= k <= |s.closing| :: Inv(AfterCloses(s, k))
  }

  lemma InvThroughoutStep(s: Queues)
    ensures s.closing == [] ==> (InvThroughout(s) <==> Inv(s))
    ensures s.closing != [] ==>
      var n := |s.closing| - 1;
      var s1 := CloseNamed(s, s.closing[n]).(closing := s.closing[..n]);
      InvThroughout(s) <==> Inv(s) && InvThroughout(s1)
  {
    hide Inv, CloseNamed;
    assert AfterCloses(s, 0) == s;
    if s.closing != [] {
      var n := |s.closing| - 1;
      var s1 := CloseNamed(s, s.closing[n]).(closing := s.closing[..n]);
      assert forall k | 0 <= k <= n :: AfterCloses(s, k + 1) == AfterCloses(s1, k);
      assert forall k | 1 <= k <= n + 1 :: AfterCloses(s, k) == AfterCloses(s1, k - 1);
    }
  }

  // That is so exactly when every close is right when its turn comes.
  lemma {:induction false} EveryCloseInv(s: Queues)
    requires Inv(s) && s.incoming == []
    ensures ClosesAllRight(s) <==> InvThroughout(s)
    decreases |s.closing|
  {
    hide Inv, CloseNamed, ClosesRight, InvThroughout;
    InvThroughoutStep(s);
    if s.closing == [] {
    } else {
      var n := |s.closing| - 1;
      var s1 := CloseNamed(s, s.closing[n]).(closing := s.closing[..n]);
      CloseNamedInv(s, s.closing[n]);
      SameInv(CloseNamed(s, s.closing[n]), s1);
      InvThroughoutStart(s1);
      if Inv(s1) {
        EveryCloseInv(s1);
      }
    }
  }

  lemma InvThroughoutStart(s: Queues)
    ensures InvThroughout(s) ==> Inv(s)
  {
    hide Inv;
    assert AfterCloses(s, 0) == s;
  }

  // The invariant does not look at what is to be closed.
  lemma SameInv(s: Queues, s': Queues)
    requires s' == s.(closing := s'.closing)
    ensures Inv(s) <==> Inv(s')
  {}

  // A check can end well although a close was not right: closing the name again takes the lost request out of the
  // list.
  lemma TwiceClosed(a: Request, b: Request, time: int)
    requires a != b && a.name == b.name && a.handle != b.handle
    ensures
      var s := Queues([a, b], [], [a.name, a.name], map[a.handle := a], [Due(time, b)], {a.handle});
      Inv(s) && !ClosesAllRight(s) && Inv(CloseRequested(s))
  {
    hide Inv, CloseNamed, ClosesRight, FirstNamed, FirstDue;
    var s := Queues([a, b], [], [a.name, a.name], map[a.handle := a], [Due(time, b)], {a.handle});
    var s1 := Queues([b], [], [a.name], map[], [], {});
    assert s.closing[1] == a.name && s.closing[..1] == [a.name] && [a.name][..0] == [];
    TwoRequests(a, b, time);
    FirstClose(a, b, time);
    SecondClose(b);
    StartInv();
    assert CloseRequested(s) == CloseRequested(s1) == CloseRequested(START) == START;
  }

  lemma TwoRequests(a: Request, b: Request, time: int)
    requires a != b && a.handle != b.handle
    ensures Inv(Queues([a, b], [], [a.name, a.name], map[a.handle := a], [Due(time, b)], {a.handle}))
  {
    var s := Queues([a, b], [], [a.name, a.name], map[a.handle := a], [Due(time, b)], {a.handle});
    assert s.all[0] in s.all && s.all[1] in s.all && s.poll[0] in s.poll;
  }

  lemma FirstClose(a: Request, b: Request, time: int)
    requires a != b && a.name == b.name && a.handle != b.handle
    ensures
      var s := Queues([a, b], [], [a.name, a.name], map[a.handle := a], [Due(time, b)], {a.handle});
      && !ClosesRight(s, a.name)
      && CloseNamed(s, a.name).(closing := [a.name]) == Queues([b], [], [a.name], map[], [], {})
  {
    var s := Queues([a, b], [], [a.name, a.name], map[a.handle := a], [Due(time, b)], {a.handle});
    assert FirstNamed(s.all, a.name) == 0 && FirstDue(s.poll, a.name) == 0;
    assert Without(s.all, 0) == [b] && Without(s.poll, 0) == [];
  }

  lemma SecondClose(b: Request)
    ensures CloseNamed(Queues([b], [], [b.name], map[], [], {}), b.name).(closing := []) == START
  {
    assert FirstNamed([b], b.name) == 0 && Without([b], 0) == [];
  }

  lemma WithoutSubset(all: seq<Request>, i: nat)
    ensures i < |all| ==> forall r | r in Without(all, i) :: r in all
  {}

  // With distinct names every close is right, and takes exactly the request with that name out.
  lemma CloseNamedOnly(s: Queues, name: string)
    requires Inv(s) && s.incoming == [] && DistinctNames(s.all)
    ensures ClosesRight(s, name) && DistinctNames(CloseNamed(s, name).all)
    ensures forall r | r in CloseNamed(s, name).all :: r in s.all && r.name != name
    ensures forall r | r in s.all && r.name != name :: r in CloseNamed(s, name).all
  {
    var i, p := FirstNamed(s.all, name), FirstDue(s.poll, name);
    if i < |s.all| {
      WithoutMembers(s.all, i);
      WithoutNames(s.all, i);
      if p < |s.poll| {
        assert s.poll[p] in s.poll;
        SameName(s.all, s.poll[p].request, s.all[i]);
      }
      forall x | x in s.all && x.name == name
        ensures x == s.all[i]
      {
        SameName(s.all, x, s.all[i]);
      }
    }
    hide Inv, DistinctNames;
  }

  lemma WithoutNames(all: seq<Request>, i: nat)
    requires DistinctNames(all) && i < |all|
    ensures DistinctNames(Without(all, i))
  {
    var w := Without(all, i);
    assert forall k | 0 <= k < |w| :: w[k] == if k < i then all[k] else all[k + 1];
  }

  lemma {:induction false} CloseRequestedOnly(s: Queues)
    requires Inv(s) && s.incoming == [] && DistinctNames(s.all)
    ensures ClosesAllRight(s) && DistinctNames(CloseRequested(s).all)
    ensures forall r | r in CloseRequested(s).all :: r in s.all && r.name !in s.closing
    ensures forall r | r in s.all && r.name !in s.closing :: r in CloseRequested(s).all
    decreases |s.closing|
  {
    hide Inv, CloseNamed, ClosesRight, DistinctNames;
    if s.closing == [] {
    } else {
      var n := |s.closing| - 1;
      var name := s.closing[n];
      CloseNamedOnly(s, name);
      CloseNamedInv(s, name);
      var s1 := CloseNamed(s, name).(closing := s.closing[..n]);
      InvWithoutClosing(CloseNamed(s, name), s1);
      CloseRequestedOnly(s1);
      assert s.closing == s.closing[..n] + [name];
      assert forall x: string :: x in s.closing <==> x in s.closing[..n] || x == name;
    }
  }

  // After a check nothing is new and nothing waits to be closed.
  lemma CheckNewInv(s: Queues)
    requires Inv(s) && ClosesAllRight(StartNew(s))
    ensures Inv(CheckNew(s)) && CheckNew(s).incoming == [] && CheckNew(s).closing == []
    ensures forall r | r in CheckNew(s).all :: r in s.all
  {
    hide Inv;
    StartNewInv(s);
    CloseRequestedInv(StartNew(s));
  }

  // With distinct names, the requests that were asked to be closed are gone from every place, and all others
  // are still there.
  lemma CheckNewOnly(s: Queues)
    requires Inv(s) && DistinctNames(s.all)
    ensures
      var s' := CheckNew(s);
      && ClosesAllRight(StartNew(s)) && Inv(s') && DistinctNames(s'.all) && s'.incoming == [] && s'.closing == []
      && (forall r | r in s'.all :: r in s.all && r.name !in s.closing)
      && (forall r | r in s.all && r.name !in s.closing :: r in s'.all)
  {
    hide Inv;
    StartNewInv(s);
    CloseRequestedOnly(StartNew(s));
    CloseRequestedInv(StartNew(s));
  }

  // A finished request leaves for good when it does not ask to poll again, and waits for its turn in the
  // queue when it does.
  lemma FinishInv(s: Queues, m: Message)
    requires Inv(s)
    ensures
      var s' := Finish(s, m);
      var leaves := m.Done? && m.handle in s.active && m.delay < 0;
      && Inv(s') && s'.incoming == s.incoming && s'.closing == s.closing
      && (forall r | r in s'.all :: r in s.all && !(leaves && r == s.active[m.handle]))
      && (forall r | r in s.all && !(leaves && r == s.active[m.handle]) :: r in s'.all)
      && (m.Done? && m.handle in s.active && m.delay >= 0 ==>
            Due(m.now + m.delay, s.active[m.handle]) in s'.poll)
  {
    var s' := Finish(s, m);
    if m.Done? && m.handle in s.active {
      var r := s.active[m.handle];
      if m.delay < 0 {
        WithoutMembers(s.all, IndexOf(s.all, r));
        LeaveInv(s, s', r);
      } else {
        var d := Due(m.now + m.delay, r);
        var k := SortInserts(s.poll, d);
        PollInv(s, s', d, k);
      }
    }
  }

  lemma PollInv(s: Queues, s': Queues, d: Due, k: nat)
    requires Inv(s) && IsActive(s, d.request) && k <= |s.poll|
    requires s' == s.(multi := s.multi - {d.request.handle}, active := s.active - {d.request.handle}, poll := s'.poll)
    requires s'.poll == s.poll[..k] + [d] + s.poll[k..] && InOrder(s'.poll)
    ensures Inv(s') && d in s'.poll
  {
    var q', r := s'.poll, d.request;
    InsertedDues(s.poll, d, k);
    hide InOrder;
    forall x | x in s'.all
      ensures x in s'.incoming || IsActive(s', x) || Polls(q', x)
    {
      if x.handle == r.handle {
        SameHandle(s, x, r);
      }
    }
  }

  // A queue with one more entry.
  lemma InsertedDues(q: seq<Due>, d: Due, k: nat)
    requires DistinctDues(q) && k <= |q| && !Polls(q, d.request)
    ensures
      var q' := q[..k] + [d] + q[k..];
      && DistinctDues(q')
      && (forall x :: x in q' <==> x in q || x == d)
      && (forall r :: Polls(q', r) <==> Polls(q, r) || r == d.request)
  {
    var q' := q[..k] + [d] + q[k..];
    assert q'[k] == d;
    assert forall i | 0 <= i < |q'| :: q'[i] == if i < k then q[i] else if i == k then d else q[i - 1];
    forall x | x in q
      ensures x in q'
    {
      var i :| 0 <= i < |q| && q[i] == x;
      assert q'[if i < k then i else i + 1] == x;
    }
    forall r | Polls(q, r)
      ensures Polls(q', r)
    {
      var i :| 0 <= i < |q| && q[i].request == r;
      assert q'[if i < k then i else i + 1].request == r;
    }
  }

  lemma {:induction false} FinishAllInv(s: Queues, ms: seq<Message>)
    requires Inv(s)
    ensures
      var s' := FinishAll(s, ms);
      Inv(s') && s'.incoming == s.incoming && s'.closing == s.closing && (forall r | r in s'.all :: r in s.all)
    decreases |ms|
  {
    hide Inv, Finish;
    if ms == [] {
    } else {
      FinishAllInv(s, ms[..|ms| - 1]);
      var before := FinishAll(s, ms[..|ms| - 1]);
      FinishInv(before, ms[|ms| - 1]);
      assert forall r | r in FinishAll(s, ms).all :: r in before.all;
    }
  }

  // Afterwards every request due by the given time is active, and every other one still waits.
  lemma {:induction false} RequeueInv(s: Queues, upTo: int)
    requires Inv(s)
    ensures
      var s' := Requeue(s, upTo);
      && Inv(s') && s'.all == s.all && s'.incoming == s.incoming && s'.closing == s.closing
      && (forall d | d in s.poll :: if d.time <= upTo then IsActive(s', d.request) else d in s'.poll)
      && (forall d | d in s'.poll :: d in s.poll && d.time > upTo)
      && (forall r | r in s.all && IsActive(s, r) :: IsActive(s', r))
    decreases |s.poll|
  {
    if s.poll != [] && s.poll[0].time <= upTo {
      hide Inv;
      RequeueOnce(s);
      RequeueInv(Activate(s, s.poll[0].request).(poll := s.poll[1..]), upTo);
    } else if s.poll != [] {
      assert forall i | 0 < i < |s.poll| :: !Before(s.poll[i], s.poll[0]);
    }
  }

  lemma RequeueOnce(s: Queues)
    requires Inv(s) && s.poll != []
    ensures
      var d, s1 := s.poll[0], Activate(s, s.poll[0].request).(poll := s.poll[1..]);
      && Inv(s1) && IsActive(s1, d.request) && d.request in s.all
      && (forall x | x in s.poll :: x == d || x in s1.poll)
      && (forall x | x in s1.poll :: x in s.poll)
      && (forall r | r in s.all && IsActive(s, r) :: IsActive(s1, r))
  {
    var r := s.poll[0].request;
    assert s.poll == [s.poll[0]] + s.poll[1..];
    assert s.poll[0] in s.poll;
    NotInRest(s.poll, r);
    ActivateInv(s, Activate(s, r).(poll := s.poll[1..]), r);
  }

  lemma NotInRest(q: seq<Due>, r: Request)
    requires DistinctDues(q) && q != [] && q[0].request == r && InOrder(q)
    ensures !Polls(q[1..], r) && Polls(q, r) && DistinctDues(q[1..]) && InOrder(q[1..])
  {}

  // ---------- every run ----------

  // The steps, in any order: a request is added or asked to be closed, new and closing requests are checked, a
  // message of the library is handled, polling requests are put back.
  datatype Event =
    | Add(request: Request)
    | CloseRequest(name: string)
    | Check
    | Receive(message: Message)
    | PutBack(upTo: int)

  const START := Queues([], [], [], map[], [], {})

  function Apply(s: Queues, e: Event): Queues
  {
    match e
    case Add(r) => s.(all := s.all + [r], incoming := s.incoming + [r])
    case CloseRequest(name) => s.(closing := s.closing + [name])
    case Check => CheckNew(s)
    case Receive(m) => Finish(s, m)
    case PutBack(upTo) => Requeue(s, upTo)
  }

  function RunFrom(s: Queues, events: seq<Event>): Queues
  {
    if events == [] then s else Apply(RunFrom(s, events[..|events| - 1]), events[|events| - 1])
  }

  function RunAll(events: seq<Event>): Queues
  {
    RunFrom(START, events)
  }

  // A request is fresh when it is not known and nothing known has its handle.
  predicate IsFresh(s: Queues, r: Request)
  {
    forall x | x in s.all :: x != r && x.handle != r.handle
  }

  // Every request that is added is fresh when it is added.
  ghost predicate AddsFresh(events: seq<Event>)
  {
    forall n | 0 <= n < |events| && events[n].Add? :: IsFresh(RunAll(events[..n]), events[n].request)
  }

  predicate IsNewName(s: Queues, name: string)
  {
    forall x | x in s.all :: x.name != name
  }

  // And has a new name.
  ghost predicate AddsNames(events: seq<Event>)
  {
    forall n | 0 <= n < |events| && events[n].Add? :: IsNewName(RunAll(events[..n]), events[n].request.name)
  }

  // Every check closes the names it has to close right.
  ghost predicate ChecksRight(events: seq<Event>)
  {
    forall n | 0 <= n < |events| && events[n].Check? :: ClosesAllRight(StartNew(RunAll(events[..n])))
  }

  lemma AddInv(s: Queues, r: Request)
    requires Inv(s) && IsFresh(s, r)
    ensures Inv(Apply(s, Add(r)))
    ensures DistinctNames(s.all) && IsNewName(s, r.name) ==> DistinctNames(Apply(s, Add(r)).all)
  {
    var s' := Apply(s, Add(r));
    assert r !in s.all;
    assert forall x | x in s'.all :: x in s.all || x == r;
    assert !IsActive(s, r);
    assert forall i | 0 <= i < |s.poll| :: s.poll[i] in s.poll;
    hide InOrder;
  }

  lemma ApplyInv(s: Queues, e: Event)
    requires Inv(s) && (e.Add? ==> IsFresh(s, e.request)) && (e.Check? ==> ClosesAllRight(StartNew(s)))
    ensures Inv(Apply(s, e))
    ensures forall r | r in Apply(s, e).all :: r in s.all || (e.Add? && r == e.request)
  {
    hide Inv, CheckNew, Finish, Requeue, ClosesAllRight;
    match e {
      case Add(r) => AddInv(s, r);
      case CloseRequest(name) => InvWithoutClosing(s, Apply(s, e));
      case Check => CheckNewInv(s);
      case Receive(m) => FinishInv(s, m);
      case PutBack(upTo) => RequeueInv(s, upTo);
    }
  }

  lemma ApplyNames(s: Queues, e: Event)
    requires Inv(s) && DistinctNames(s.all)
    requires e.Add? ==> IsFresh(s, e.request) && IsNewName(s, e.request.name)
    ensures DistinctNames(Apply(s, e).all) && (e.Check? ==> ClosesAllRight(StartNew(s)))
  {
    hide Inv, CheckNew, Requeue, ClosesAllRight, DistinctNames;
    match e {
      case Add(r) => AddInv(s, r);
      case CloseRequest(name) =>
      case Check => CheckNewOnly(s);
      case Receive(m) => FinishNames(s, m);
      case PutBack(upTo) => RequeueInv(s, upTo);
    }
  }

  lemma FinishNames(s: Queues, m: Message)
    requires DistinctNames(s.all)
    ensures DistinctNames(Finish(s, m).all)
  {
    if m.Done? && m.handle in s.active && m.delay < 0 && s.active[m.handle] in s.all {
      WithoutNames(s.all, IndexOf(s.all, s.active[m.handle]));
    }
    hide DistinctNames;
  }

  // Over every run the requests stay partitioned, the library works on exactly the active ones, and the
  // poll queue stays in order, as long as handles are distinct and every close is right.
  lemma {:induction false} EveryRunKeepsInv(events: seq<Event>)
    requires AddsFresh(events) && ChecksRight(events)
    ensures Inv(RunAll(events))
    decreases |events|
  {
    hide Inv, Apply, ClosesAllRight;
    if events == [] {
      StartInv();
    } else {
      var n := |events| - 1;
      var before := events[..n];
      assert forall k | 0 <= k < n :: before[k] == events[k] && before[..k] == events[..k];
      EveryRunKeepsInv(before);
      ApplyInv(RunAll(before), events[n]);
    }
  }

  lemma StartInv()
    ensures Inv(START) && DistinctNames(START.all)
  {}

  // With distinct names every close is right.
  lemma {:induction false} EveryNamedRun(events: seq<Event>)
    requires AddsFresh(events) && AddsNames(events)
    ensures ChecksRight(events) && Inv(RunAll(events)) && DistinctNames(RunAll(events).all)
    decreases |events|
  {
    hide Inv, Apply, ClosesAllRight, DistinctNames;
    StartInv();
    if events == [] {
    } else {
      var n := |events| - 1;
      var before := events[..n];
      assert forall k | 0 <= k < n :: before[k] == events[k] && before[..k] == events[..k];
      EveryNamedRun(before);
      ApplyNames(RunAll(before), events[n]);
      assert ChecksRight(events);
      EveryRunKeepsInv(events);
    }
  }

  // ---------- the loops as runs ----------

  const LONG_MAX := 0x7fff_ffff_ffff_ffff

  function ReceiveAll(ms: seq<Message>): (es: seq<Event>)
    ensures |es| == |ms| && forall i | 0 <= i < |ms| :: es[i] == Receive(ms[i])
  {
    seq(|ms|, i requires 0 <= i < |ms| => Receive(ms[i]))
  }

  lemma {:induction false} FinishRun(s: Queues, ms: seq<Message>)
    ensures RunFrom(s, ReceiveAll(ms)) == FinishAll(s, ms)
    decreases |ms|
  {
    hide Finish;
    if ms == [] {
    } else {
      FinishRun(s, ms[..|ms| - 1]);
      assert ReceiveAll(ms)[..|ms| - 1] == ReceiveAll(ms[..|ms| - 1]);
    }
  }

  lemma {:induction false} RunMore(s: Queues, a: seq<Event>, b: seq<Event>)
    ensures RunFrom(s, a + b) == RunFrom(RunFrom(s, a), b)
    decreases |b|
  {
    hide Apply;
    if b == [] {
      assert a + b == a;
    } else {
      RunMore(s, a, b[..|b| - 1]);
      assert (a + b)[..|a + b| - 1] == a + b[..|b| - 1];
    }
  }

  lemma RunTwo(s: Queues, e: Event, f: Event)
    ensures RunFrom(s, [e, f]) == Apply(Apply(s, e), f)
  {
    hide Apply;
    assert [e, f][..1] == [e] && [e][..0] == [];
    assert RunFrom(s, [e]) == Apply(RunFrom(s, []), e);
  }

  // A pass of the loop is a run.
  lemma BodyRun(s: Queues, ms: seq<Message>, now: int)
    ensures LoopBody(s, ms, now) == RunFrom(s, ReceiveAll(ms) + [Check, PutBack(now + 5)])
  {
    hide FinishAll, CheckNew, Requeue;
    FinishRun(s, ms);
    RunMore(s, ReceiveAll(ms), [Check, PutBack(now + 5)]);
    RunTwo(FinishAll(s, ms), Check, PutBack(now + 5));
  }

  // Messages are handled, batch by batch, until nothing is active or no more come.
  function FinishBatches(s: Queues, batches: seq<seq<Message>>): Queues
    decreases |batches|
  {
    if batches == [] || s.active == map[] then s else FinishBatches(FinishAll(s, batches[0]), batches[1..])
  }

  // Everything is checked and put back once, and then finished.
  function ProcessAll(s: Queues, batches: seq<seq<Message>>): Queues
  {
    FinishBatches(Requeue(CheckNew(s), LONG_MAX), batches)
  }

  // The messages that are handled before nothing is active.
  function Handled(s: Queues, batches: seq<seq<Message>>): seq<Message>
    decreases |batches|
  {
    if batches == [] || s.active == map[] then []
    else batches[0] + Handled(FinishAll(s, batches[0]), batches[1..])
  }

  lemma {:induction false} FinishMore(s: Queues, a: seq<Message>, b: seq<Message>)
    ensures FinishAll(s, a + b) == FinishAll(FinishAll(s, a), b)
    decreases |b|
  {
    hide Finish;
    if b == [] {
      assert a + b == a;
    } else {
      FinishMore(s, a, b[..|b| - 1]);
      assert (a + b)[..|a + b| - 1] == a + b[..|b| - 1];
    }
  }

  lemma {:induction false} BatchesFinish(s: Queues, batches: seq<seq<Message>>)
    ensures FinishBatches(s, batches) == FinishAll(s, Handled(s, batches))
    decreases |batches|
  {
    if batches == [] || s.active == map[] {
    } else {
      hide FinishAll;
      var s1 := FinishAll(s, batches[0]);
      BatchesFinish(s1, batches[1..]);
      FinishMore(s, batches[0], Handled(s1, batches[1..]));
    }
  }

  // So is the processing of everything there is.
  lemma ProcessRun(s: Queues, batches: seq<seq<Message>>)
    ensures
      var ms := Handled(Requeue(CheckNew(s), LONG_MAX), batches);
      ProcessAll(s, batches) == RunFrom(s, [Check, PutBack(LONG_MAX)] + ReceiveAll(ms))
  {
    hide FinishAll, CheckNew, Requeue, FinishBatches, Handled;
    var s1 := Requeue(CheckNew(s), LONG_MAX);
    BatchesFinish(s1, batches);
    FinishRun(s1, Handled(s1, batches));
    RunTwo(s, Check, PutBack(LONG_MAX));
    RunMore(s, [Check, PutBack(LONG_MAX)], ReceiveAll(Handled(s1, batches)));
  }

  // When nothing is active any more, every request that is still known waits for another turn, and nothing is
  // new or to be closed.
  lemma ProcessAllInv(s: Queues, batches: seq<seq<Message>>)
    requires Inv(s) && ClosesAllRight(StartNew(s))
    ensures
      var s' := ProcessAll(s, batches);
      && Inv(s') && s'.incoming == [] && s'.closing == []
      && (s'.active == map[] ==> s'.multi == {} && forall r | r in s'.all :: Polls(s'.poll, r))
  {
    hide Inv, FinishAll, CheckNew, Requeue, FinishBatches, Handled, ClosesAllRight;
    CheckNewInv(s);
    RequeueInv(CheckNew(s), LONG_MAX);
    var s1 := Requeue(CheckNew(s), LONG_MAX);
    BatchesFinish(s1, batches);
    FinishAllInv(s1, Handled(s1, batches));
    OnlyPolling(ProcessAll(s, batches));
  }

  lemma OnlyPolling(s: Queues)
    requires Inv(s) && s.incoming == []
    ensures s.active == map[] ==> s.multi == {} && forall r | r in s.all :: Polls(s.poll, r)
  {
    hide InOrder;
  }

  lemma LoopBodyInv(s: Queues, ms: seq<Message>, now: int)
    requires Inv(s) && ClosesAllRight(StartNew(FinishAll(s, ms)))
    ensures
      var s' := LoopBody(s, ms, now);
      && Inv(s') && s'.incoming == [] && s'.closing == []
      && (forall r | r in s'.all :: r in s.all)
      && (forall d | d in s'.poll :: d.time > now + 5)
  {
    hide Inv, FinishAll, CheckNew, Requeue, ClosesAllRight;
    FinishAllInv(s, ms);
    var s1 := FinishAll(s, ms);
    CheckNewInv(s1);
    RequeueInv(CheckNew(s1), now + 5);
  }

  // ---------- closed requests ----------

  // The name stands for nothing in any place.
  ghost predicate Gone(s: Queues, name: string)
  {
    && (forall r | r in s.all :: r.name != name)
    && (forall r | r in s.incoming :: r.name != name)
    && (forall h | h in s.active :: s.active[h].name != name)
    && (forall d | d in s.poll :: d.request.name != name)
  }

  lemma GoneByAll(s: Queues, name: string)
    requires Inv(s) && forall r | r in s.all :: r.name != name
    ensures Gone(s, name)
  {
    hide InOrder;
  }

  // Once a close request has been checked, nothing is known by its name, and its handle is not with the library.
  lemma ClosedIsGone(events: seq<Event>, name: string)
    requires AddsFresh(events) && AddsNames(events) && name in RunAll(events).closing
    ensures
      var s := Apply(RunAll(events), Check);
      Gone(s, name) && forall r | r in RunAll(events).all && r.name == name :: r.handle !in s.multi
  {
    hide Inv, CheckNew, Gone, RunAll;
    EveryNamedRun(events);
    var s0 := RunAll(events);
    CheckNewOnly(s0);
    var s := CheckNew(s0);
    GoneByAll(s, name);
    forall r | r in s0.all && r.name == name
      ensures r.handle !in s.multi
    {
      NoHandle(s0, s, r);
    }
  }

  // A request that is not known any more has no handle with the library.
  lemma NoHandle(s0: Queues, s: Queues, r: Request)
    requires Inv(s0) && Inv(s) && r in s0.all && r !in s.all && forall x | x in s.all :: x in s0.all
    ensures r.handle !in s.multi
  {
    hide InOrder;
    if r.handle in s.active {
      SameHandle(s0, s.active[r.handle], r);
    }
  }

  // And it stays gone until a request of that name is added.
  lemma {:induction false} StaysGone(s: Queues, events: seq<Event>, name: string)
    requires Inv(s)
    requires forall n | 0 <= n < |events| && events[n].Add? ::
               events[n].request.name != name && IsFresh(RunFrom(s, events[..n]), events[n].request)
    requires forall n | 0 <= n < |events| && events[n].Check? :: ClosesAllRight(StartNew(RunFrom(s, events[..n])))
    requires Gone(s, name)
    ensures Inv(RunFrom(s, events)) && Gone(RunFrom(s, events), name)
    decreases |events|
  {
    hide Inv, Apply, ClosesAllRight;
    if events == [] {
    } else {
      var n := |events| - 1;
      var before := events[..n];
      assert forall k | 0 <= k < n :: before[k] == events[k];
      assert forall k | 0 <= k <= n :: before[..k] == events[..k];
      assert events[..|events|] == events;
      StaysGone(s, before, name);
      ApplyInv(RunFrom(s, before), events[n]);
      GoneByAll(RunFrom(s, events), name);
    }
  }

  // With distinct names, nothing is known by a name after it has been asked to be closed and that was checked,
  // until a request of that name is added.
  lemma ClosedStaysGone(events: seq<Event>, more: seq<Event>, name: string)
    requires
      var all := events + [Check] + more;
      AddsFresh(all) && AddsNames(all)
    requires name in RunAll(events).closing
    requires forall n | 0 <= n < |more| && more[n].Add? :: more[n].request.name != name
    ensures Gone(RunAll(events + [Check] + more), name)
  {
    hide Inv, Apply, RunFrom, Gone, ClosesAllRight, CheckNew;
    var before, all := events + [Check], events + [Check] + more;
    EveryNamedRun(all);
    AddsLess(all, events);
    EveryNamedRun(events);
    ClosedIsGone(events, name);
    RunOne(events, Check);
    AddsLess(all, before);
    EveryNamedRun(before);
    var s := RunAll(before);
    forall n | 0 <= n <= |more|
      ensures RunAll(all[..|before| + n]) == RunFrom(s, more[..n])
    {
      assert all[..|before| + n] == before + more[..n];
      RunMore(START, before, more[..n]);
    }
    assert forall n | 0 <= n < |more| :: all[|before| + n] == more[n];
    StaysGone(s, more, name);
    assert all[..|before| + |more|] == all && more[..|more|] == more;
  }

  lemma AddsLess(all: seq<Event>, events: seq<Event>)
    requires AddsFresh(all) && AddsNames(all) && events <= all
    ensures AddsFresh(events) && AddsNames(events)
  {
    hide RunAll, IsFresh, IsNewName;
    assert forall n | 0 <= n < |events| :: events[n] == all[n] && events[..n] == all[..n];
  }

  // ---------- shared names ----------

  // Two requests of one name, the second of which polls when the name is closed: the check takes the first one
  // out of the list and the second one out of the queue, and the second is in no place at all.
  lemma SharedNameIsLost(a: Request, b: Request, now: int, delay: nat)
    requires a != b && a.name == b.name && a.handle != b.handle
    ensures
      var events := [
        Add(a), Add(b), Check, Receive(Done(b.handle, delay, now)), CloseRequest(a.name), Check];
      AddsFresh(events) && RunAll(events) == Queues([b], [], [], map[], [], {})
  {
    var e3, e4 := [Add(a), Add(b), Check], Receive(Done(b.handle, delay, now));
    hide RunAll, AddsFresh;
    var more := [e4, CloseRequest(a.name), Check];
    SharedRun(a, b, now, delay);
    AddsTwo(a, b, more);
    assert e3 + more == e3 + [e4] + [CloseRequest(a.name)] + [Check];
    assert e3 + more == [Add(a), Add(b), Check, e4, CloseRequest(a.name), Check];
  }

  lemma SharedRun(a: Request, b: Request, now: int, delay: nat)
    requires a != b && a.name == b.name && a.handle != b.handle
    ensures
      var e4 := Receive(Done(b.handle, delay, now));
      RunAll([Add(a), Add(b), Check] + [e4] + [CloseRequest(a.name)] + [Check]) == Queues([b], [], [], map[], [], {})
  {
    var due, h, g := Due(now + delay, b), a.handle, b.handle;
    var e3, e4 := [Add(a), Add(b), Check], Receive(Done(g, delay, now));
    hide RunAll, Finish, CheckNew;
    BothActive(a, b);
    BothFinish(a, b, delay, now);
    RunOne(e3, e4);
    RunOne(e3 + [e4], CloseRequest(a.name));
    RunOne(e3 + [e4] + [CloseRequest(a.name)], Check);
    var s5 := Queues([a, b], [], [a.name], map[h := a], [due], {h});
    assert [] + [a.name] == [a.name];
    CloseFirst(a, b, s5);
    assert s5.active - {h} == map[] && s5.multi - {h} == {} && [due][1..] == [];
  }

  // The second of two active requests finishes, and polls.
  lemma BothFinish(a: Request, b: Request, delay: nat, now: int)
    requires a.handle != b.handle
    ensures
      var h, g := a.handle, b.handle;
      Finish(Queues([a, b], [], [], map[h := a, g := b], [], {h, g}), Done(g, delay, now)) ==
        Queues([a, b], [], [], map[h := a], [Due(now + delay, b)], {h})
  {
    var h, g, due := a.handle, b.handle, Due(now + delay, b);
    SortOne(due);
    assert map[h := a, g := b] - {g} == map[h := a] && {h, g} - {g} == {h} && [] + [due] == [due];
    hide SortAll;
  }

  // The run up to the first check.
  lemma BothActive(a: Request, b: Request)
    requires a != b && a.handle != b.handle
    ensures RunAll([Add(a), Add(b), Check]) ==
      Queues([a, b], [], [], map[a.handle := a, b.handle := b], [], {a.handle, b.handle})
  {
    var s2 := Queues([a, b], [a, b], [], map[], [], {});
    TwoAdded(a, b);
    RunOne([Add(a), Add(b)], Check);
    assert [Add(a), Add(b)] + [Check] == [Add(a), Add(b), Check];
    var t1 := Activate(s2, b).(incoming := [a]);
    var t2 := Activate(t1, a).(incoming := []);
    assert [a, b][..1] == [a] && [a][..0] == [];
    assert StartNew(s2) == StartNew(t1) == StartNew(t2) == t2;
    assert CheckNew(s2) == t2;
    assert t2.active == map[a.handle := a, b.handle := b] && t2.multi == {a.handle, b.handle};
  }

  lemma TwoAdded(a: Request, b: Request)
    ensures RunAll([Add(a)]) == Queues([a], [a], [], map[], [], {})
    ensures RunAll([Add(a), Add(b)]) == Queues([a, b], [a, b], [], map[], [], {})
  {
    RunOne([], Add(a));
    RunOne([Add(a)], Add(b));
    assert [] + [Add(a)] == [Add(a)] && [Add(a)] + [Add(b)] == [Add(a), Add(b)];
    assert [] + [a] == [a] && [a] + [b] == [a, b];
  }

  lemma RunOne(events: seq<Event>, e: Event)
    ensures RunAll(events + [e]) == Apply(RunAll(events), e)
  {
    hide Apply;
    assert (events + [e])[..|events|] == events;
  }

  // Closing a name that the first of two requests in the list has, and the second one too.
  lemma CloseFirst(a: Request, b: Request, s: Queues)
    requires a != b && a.name == b.name && a.handle != b.handle
    requires s.all == [a, b] && s.incoming == [] && s.closing == [a.name]
    requires s.poll != [] && s.poll[0].request == b
    ensures !ClosesRight(s, a.name)
    ensures CheckNew(s) ==
      s.(all := [b], closing := [], active := s.active - {a.handle}, poll := s.poll[1..],
         multi := if a.handle in s.active then s.multi - {a.handle} else s.multi)
  {
    assert FirstNamed(s.all, a.name) == 0 && FirstDue(s.poll, a.name) == 0;
    assert Without(s.all, 0) == [b] && Without(s.poll, 0) == s.poll[1..] by {
      assert s.poll[..0] == [] && [] + s.poll[1..] == s.poll[1..];
    }
    var s1 := CloseNamed(s, a.name).(closing := s.closing[..0]);
    assert s.closing[..0] == [];
    assert StartNew(s) == s && CloseRequested(s) == CloseRequested(s1) == s1;
  }

  lemma AddsTwo(a: Request, b: Request, more: seq<Event>)
    requires a != b && a.handle != b.handle && forall n | 0 <= n < |more| :: !more[n].Add?
    ensures AddsFresh([Add(a), Add(b), Check] + more)
  {
    TwoAdded(a, b);
    var e := [Add(a), Add(b), Check] + more;
    assert e[..0] == [] && e[..1] == [Add(a)];
    assert forall n | 3 <= n < |e| :: e[n] == more[n - 3];
    hide RunFrom;
  }

  // When both poll and the second is due first, the first one stays in the queue although it has left the list,
  // and becomes active again after it was closed.
  lemma ClosedIsActiveAgain(a: Request, b: Request, early: int, late: int, upTo: int)
    requires a != b && a.name == b.name && a.handle != b.handle && early < late <= upTo
    ensures
      var events := [
        Add(a), Add(b), Check, Receive(Done(b.handle, 0, early)),
        Receive(Done(a.handle, 0, late)), CloseRequest(a.name), Check, PutBack(upTo)];
      AddsFresh(events) && RunAll(events) == Queues([b], [], [], map[a.handle := a], [], {a.handle})
  {
    var e3 := [Add(a), Add(b), Check];
    var e4, e5 := Receive(Done(b.handle, 0, early)), Receive(Done(a.handle, 0, late));
    hide RunAll, AddsFresh;
    var more := [e4, e5, CloseRequest(a.name), Check, PutBack(upTo)];
    BothPoll(a, b, early, late);
    AgainRun(a, b, early, late, upTo, e3 + [e4] + [e5]);
    AddsTwo(a, b, more);
    assert e3 + more == e3 + [e4] + [e5] + [CloseRequest(a.name)] + [Check] + [PutBack(upTo)];
    assert e3 + more == [Add(a), Add(b), Check, e4, e5, CloseRequest(a.name), Check, PutBack(upTo)];
  }

  lemma BothPoll(a: Request, b: Request, early: int, late: int)
    requires a != b && a.handle != b.handle && early < late
    ensures
      var e4, e5 := Receive(Done(b.handle, 0, early)), Receive(Done(a.handle, 0, late));
      RunAll([Add(a), Add(b), Check] + [e4] + [e5]) ==
        Queues([a, b], [], [], map[], [Due(early, b), Due(late, a)], {})
  {
    var e3 := [Add(a), Add(b), Check];
    var e4, e5 := Receive(Done(b.handle, 0, early)), Receive(Done(a.handle, 0, late));
    hide RunAll, Finish, CheckNew;
    BothActive(a, b);
    BothFinish(a, b, 0, early);
    FinishesToo(a, b, early, late);
    RunOne(e3, e4);
    RunOne(e3 + [e4], e5);
  }

  lemma AgainRun(a: Request, b: Request, early: int, late: int, upTo: int, e: seq<Event>)
    requires a != b && a.name == b.name && a.handle != b.handle && late <= upTo
    requires RunAll(e) == Queues([a, b], [], [], map[], [Due(early, b), Due(late, a)], {})
    ensures RunAll(e + [CloseRequest(a.name)] + [Check] + [PutBack(upTo)]) ==
      Queues([b], [], [], map[a.handle := a], [], {a.handle})
  {
    var first, second := Due(early, b), Due(late, a);
    hide RunAll, CheckNew, Requeue;
    RunOne(e, CloseRequest(a.name));
    RunOne(e + [CloseRequest(a.name)], Check);
    RunOne(e + [CloseRequest(a.name)] + [Check], PutBack(upTo));
    var s6 := Queues([a, b], [], [a.name], map[], [first, second], {});
    assert [] + [a.name] == [a.name];
    CloseFirst(a, b, s6);
    assert s6.active - {a.handle} == map[] && [first, second][1..] == [second];
    RequeueOne(Queues([b], [], [], map[], [second], {}), upTo);
  }

  lemma FinishesToo(a: Request, b: Request, early: int, late: int)
    requires early < late
    ensures
      var h := a.handle;
      Finish(Queues([a, b], [], [], map[h := a], [Due(early, b)], {h}), Done(h, 0, late)) ==
        Queues([a, b], [], [], map[], [Due(early, b), Due(late, a)], {})
  {
    var h, first, second := a.handle, Due(early, b), Due(late, a);
    SortTwo(first, second);
    assert map[h := a] - {h} == map[] && {h} - {h} == {} && [first] + [second] == [first, second];
    hide SortAll;
  }

  lemma RequeueOne(s: Queues, upTo: int)
    requires |s.poll| == 1 && s.poll[0].time <= upTo
    ensures Requeue(s, upTo) == Activate(s, s.poll[0].request).(poll := [])
  {
    var s1 := Activate(s, s.poll[0].request).(poll := s.poll[1..]);
    assert s.poll[1..] == [] && Requeue(s1, upTo) == s1;
  }

  lemma SortOne(d: Due)
    ensures SortAll([d]) == [d]
  {
    assert [d][..0] == [];
  }

  lemma SortTwo(d: Due, e: Due)
    requires d.time < e.time
    ensures SortAll([d, e]) == [d, e]
  {
    SortOne(d);
    assert [d, e][..1] == [d] && [d][1..] == [];
    assert Insert([], e) == [e] && Insert([d], e) == [d] + Insert([], e);
  }

  // ---------- the loop itself ----------

  function Members(all: seq<Request>): set<Request>
  {
    set r | r in all
  }

  class Looper {
    var allRequests: seq<Request>
    var newRequests: seq<Request>
    var closeRequests: seq<string>
    var handleToRequest: map<nat, Request>
    var pollQueue: seq<Due>
    // The handles the transfer library works on.
    var multi: set<nat>

    ghost function State(): Queues
      reads this
    {
      Queues(allRequests, newRequests, closeRequests, handleToRequest, pollQueue, multi)
    }

    constructor ()
      ensures State() == START
    {
      allRequests, newRequests, closeRequests, handleToRequest, pollQueue, multi := [], [], [], map[], [], {};
    }

    method AddRequest(cr: Request)
      modifies this
      ensures State() == Apply(old(State()), Add(cr))
      ensures old(Inv(State()) && IsFresh(State(), cr)) ==> Inv(State())
    {
      if Inv(State()) && IsFresh(State(), cr) {
        AddInv(State(), cr);
      }
      allRequests := allRequests + [cr];
      newRequests := newRequests + [cr];
    }

    method Close(name: string)
      modifies this
      ensures State() == Apply(old(State()), CloseRequest(name))
    {
      closeRequests := closeRequests + [name];
    }

    method StartNewRequests()
      modifies this
      ensures State() == StartNew(old(State()))
    {
      while newRequests != []
        invariant StartNew(State()) == StartNew(old(State()))
        decreases |newRequests|
      {
        var cr := newRequests[|newRequests| - 1];
        handleToRequest := handleToRequest[cr.handle := cr];
        multi := multi + {cr.handle};
        newRequests := newRequests[..|newRequests| - 1];
      }
    }

    // Closes the request with a name, if there is one.
    method CloseOne(name: string) returns (ghost closed: set<Request>)
      modifies this, Members(allRequests)
      ensures State() == CloseNamed(old(State()), name)
      ensures forall r | r in old(allRequests) :: r.open == (old(r.open) && r !in closed)
      ensures closed == if FirstNamed(old(allRequests), name) == |old(allRequests)| then {}
                        else {old(allRequests)[FirstNamed(old(allRequests), name)]}
    {
      hide FirstNamed, FirstDue;
      var i := FindNamed(allRequests, name);
      closed := {};
      if i < |allRequests| {
        var cr := allRequests[i];
        closed := {cr};
        cr.Close();
        if cr.handle in handleToRequest {
          multi := multi - {cr.handle};
          handleToRequest := handleToRequest - {cr.handle};
        }
        var p := FindDue(pollQueue, name);
        if p < |pollQueue| {
          pollQueue := pollQueue[..p] + pollQueue[p + 1..];
        }
        allRequests := allRequests[..i] + allRequests[i + 1..];
      }
    }

    static method FindNamed(all: seq<Request>, name: string) returns (i: nat)
      ensures i == FirstNamed(all, name)
    {
      i := 0;
      while i < |all| && all[i].name != name
        invariant i <= |all| && forall k | 0 <= k < i :: all[k].name != name
      {
        i := i + 1;
      }
    }

    static method FindDue(q: seq<Due>, name: string) returns (i: nat)
      ensures i == FirstDue(q, name)
    {
      i := 0;
      while i < |q| && q[i].request.name != name
        invariant i <= |q| && forall k | 0 <= k < i :: q[k].request.name != name
      {
        i := i + 1;
      }
    }

    // New requests become active and requests asked to be closed are closed.
    method CheckForNewRequests()
      modifies this, Members(allRequests)
      ensures State() == CheckNew(old(State()))
      ensures forall r | r in old(allRequests) :: r.open == (old(r.open) && r !in ClosedBy(StartNew(old(State()))))
    {
      hide CloseNamed, StartNew, CloseRequested, FirstNamed, ClosedBy;
      ClosingNothing(StartNew(State()));
      StartKeeps(State());
      StartNewRequests();
      ghost var s0 := State();
      ghost var closed: set<Request> := {};
      while closeRequests != []
        invariant CloseRequested(State()) == CheckNew(old(State())) && closed + ClosedBy(State()) == ClosedBy(s0)
        invariant Members(allRequests) <= Members(old(allRequests))
        invariant forall r | r in old(allRequests) :: r.open == (old(r.open) && r !in closed)
        decreases |closeRequests|
      {
        var name := closeRequests[|closeRequests| - 1];
        ghost var before := State();
        CloseRequestedStep(before);
        ghost var more := CloseOne(name);
        assert more <= Members(before.all) by {
          NamedMember(before.all, name);
        }
        CloseKeeps(before, name);
        closeRequests := closeRequests[..|closeRequests| - 1];
        closed := closed + more;
      }
      ClosingNothing(State());
    }

    // Handles what the transfer library has finished.
    method CheckForFinishedRequests(ms: seq<Message>)
      modifies this
      ensures State() == FinishAll(old(State()), ms)
    {
      hide IndexOf, SortAll;
      var i := 0;
      while i < |ms|
        invariant 0 <= i <= |ms| && State() == FinishAll(old(State()), ms[..i])
      {
        assert ms[..i + 1][..i] == ms[..i];
        var msg := ms[i];
        if msg.Done? {
          multi := multi - {msg.handle};
          if msg.handle in handleToRequest {
            var cr := handleToRequest[msg.handle];
            handleToRequest := handleToRequest - {msg.handle};
            if msg.delay < 0 {
              if cr in allRequests {
                var k := FindRequest(allRequests, cr);
                allRequests := allRequests[..k] + allRequests[k + 1..];
              }
            } else {
              pollQueue := pollQueue + [Due(msg.now + msg.delay, cr)];
              pollQueue := Sort(pollQueue);
            }
          }
        }
        i := i + 1;
      }
      assert ms[..i] == ms;
    }

    static method FindRequest(all: seq<Request>, r: Request) returns (i: nat)
      requires r in all
      ensures i < |all| && i == IndexOf(all, r)
    {
      i := 0;
      while all[i] != r
        invariant i < |all| && r in all[i..] && IndexOf(all, r) == i + IndexOf(all[i..], r)
        decreases |all| - i
      {
        assert all[i..][1..] == all[i + 1..];
        assert all[i..] == [all[i]] + all[i + 1..];
        i := i + 1;
      }
    }

    static method Sort(q: seq<Due>) returns (r: seq<Due>)
      ensures r == SortAll(q)
    {
      r := [];
      var i := 0;
      while i < |q|
        invariant 0 <= i <= |q| && r == SortAll(q[..i])
      {
        assert q[..i + 1][..i] == q[..i];
        var k := InsertPosition(r, q[i]);
        r := Insert(r, q[i]);
        i := i + 1;
      }
      assert q[..i] == q;
    }

    // Requests whose time has come are active again.
    method RequeueRequests(upTo: int)
      modifies this
      ensures State() == Requeue(old(State()), upTo)
    {
      while pollQueue != [] && pollQueue[0].time <= upTo
        invariant Requeue(State(), upTo) == Requeue(old(State()), upTo)
        decreases |pollQueue|
      {
        var cr := pollQueue[0].request;
        handleToRequest := handleToRequest[cr.handle := cr];
        multi := multi + {cr.handle};
        pollQueue := pollQueue[1..];
      }
    }

    method RunBody(ms: seq<Message>, now: int)
      modifies this, Members(allRequests)
      ensures State() == LoopBody(old(State()), ms, now)
      ensures old(Inv(State()) && ClosesAllRight(StartNew(FinishAll(State(), ms)))) ==> Inv(State())
    {
      hide Inv, FinishAll, CheckNew, Requeue, ClosesAllRight, StartNew;
      if Inv(State()) && ClosesAllRight(StartNew(FinishAll(State(), ms))) {
        LoopBodyInv(State(), ms, now);
      }
      FinishKeeps(State(), ms);
      CheckForFinishedRequests(ms);
      assert Members(allRequests) <= Members(old(allRequests));
      CheckForNewRequests();
      RequeueRequests(now + 5);
    }

    // Everything is processed at once; the batches are what the library reports, pass by pass.
    method ProcessEverything(batches: seq<seq<Message>>)
      modifies this, Members(allRequests)
      ensures State() == ProcessAll(old(State()), batches)
      ensures old(Inv(State()) && ClosesAllRight(StartNew(State()))) ==> Inv(State())
    {
      hide Inv, FinishAll, CheckNew, Requeue, ClosesAllRight, StartNew, Handled;
      if Inv(State()) && ClosesAllRight(StartNew(State())) {
        ProcessAllInv(State(), batches);
      }
      CheckForNewRequests();
      RequeueRequests(LONG_MAX);
      ghost var s1 := State();
      var k := 0;
      while k < |batches| && handleToRequest != map[]
        invariant k <= |batches| && FinishBatches(State(), batches[k..]) == FinishBatches(s1, batches)
      {
        assert batches[k..][1..] == batches[k + 1..];
        CheckForFinishedRequests(batches[k]);
        k := k + 1;
      }
    }
  }

  // The requests that closing takes out of the list.
  ghost function ClosedBy(s: Queues): set<Request>
    decreases |s.closing|
  {
    if s.closing == [] then {}
    else
      var n := |s.closing| - 1;
      var i := FirstNamed(s.all, s.closing[n]);
      (if i < |s.all| then {s.all[i]} else {}) + ClosedBy(CloseNamed(s, s.closing[n]).(closing := s.closing[..n]))
  }

  // With distinct names these are the requests whose names were asked to be closed.
  lemma {:induction false} ClosedByName(s: Queues)
    requires Inv(s) && s.incoming == [] && DistinctNames(s.all)
    ensures forall r | r in s.all :: r in ClosedBy(s) <==> r.name in s.closing
    decreases |s.closing|
  {
    hide Inv, CloseNamed, ClosesRight, DistinctNames;
    if s.closing == [] {
    } else {
      var n := |s.closing| - 1;
      var name := s.closing[n];
      CloseNamedOnly(s, name);
      CloseNamedInv(s, name);
      var s1 := CloseNamed(s, name).(closing := s.closing[..n]);
      InvWithoutClosing(CloseNamed(s, name), s1);
      ClosedByName(s1);
      ClosedWithin(s1);
      FirstIsOnly(s.all, name);
      assert s.closing == s.closing[..n] + [name];
      assert forall x: string :: x in s.closing <==> x in s.closing[..n] || x == name;
    }
  }

  lemma FirstIsOnly(all: seq<Request>, name: string)
    requires DistinctNames(all)
    ensures
      var i := FirstNamed(all, name);
      if i == |all| then forall r | r in all :: r.name != name
      else forall r | r in all :: r.name == name <==> r == all[i]
  {
    var i := FirstNamed(all, name);
    if i < |all| {
      forall r | r in all && r.name == name
        ensures r == all[i]
      {
        SameName(all, r, all[i]);
      }
    }
  }

  lemma {:induction false} ClosedWithin(s: Queues)
    ensures forall r | r in ClosedBy(s) :: r in s.all
    decreases |s.closing|
  {
    hide FirstNamed;
    if s.closing == [] {
    } else {
      var n := |s.closing| - 1;
      ClosedWithin(CloseNamed(s, s.closing[n]).(closing := s.closing[..n]));
      CloseKeeps(s, s.closing[n]);
      NamedMember(s.all, s.closing[n]);
    }
  }

  lemma NamedMember(all: seq<Request>, name: string)
    ensures var i := FirstNamed(all, name); i < |all| ==> all[i] in all
  {}

  // No step but adding brings a request into the list.
  lemma CloseKeeps(s: Queues, name: string)
    ensures forall r | r in CloseNamed(s, name).all :: r in s.all
    ensures CloseNamed(s, name).closing == s.closing
  {
    WithoutSubset(s.all, FirstNamed(s.all, name));
    hide FirstNamed;
  }

  lemma {:induction false} StartKeeps(s: Queues)
    ensures StartNew(s).all == s.all
    decreases |s.incoming|
  {
    if s.incoming == [] {
    } else {
      var n := |s.incoming| - 1;
      StartKeeps(Activate(s, s.incoming[n]).(incoming := s.incoming[..n]));
    }
  }

  lemma {:induction false} FinishKeeps(s: Queues, ms: seq<Message>)
    ensures forall r | r in FinishAll(s, ms).all :: r in s.all
    decreases |ms|
  {
    if ms == [] {
    } else {
      FinishKeeps(s, ms[..|ms| - 1]);
    }
  }

  lemma ClosingNothing(s: Queues)
    ensures s.closing == [] ==> CloseRequested(s) == s && ClosedBy(s) == {}
  {}

  lemma CloseRequestedStep(s: Queues)
    requires s.closing != []
    ensures
      var n := |s.closing| - 1;
      && CloseRequested(s) == CloseRequested(CloseNamed(s, s.closing[n]).(closing := s.closing[..n]))
      && var i := FirstNamed(s.all, s.closing[n]);
      ClosedBy(s) ==
        (if i < |s.all| then {s.all[i]} else {}) + ClosedBy(CloseNamed(s, s.closing[n]).(closing := s.closing[..n]))
  {
    hide CloseNamed;
  }

  lemma InvWithoutClosing(s: Queues, s': Queues)
    requires Inv(s) && s' == s.(closing := s'.closing)
    ensures Inv(s')
  {}
}
