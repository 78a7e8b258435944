// Unique column names: a name that is taken is followed by longer and longer candidates.
module ColumnNamer {

  const BUILTIN_COL := "col"

  function Upper(c: char): char
  {
    if 'a' <= c <= 'z' then (c as int - 32) as char else c
  }

  function ToUpper(s: string): (r: string)
    ensures |r| == |s|
  {
    seq(|s|, i requires 0 <= i < |s| => Upper(s[i]))
  }

  function Decimal(n: nat): (r: string)
    ensures |r| > 0
  {
    if n < 10 then [(n + '0' as int) as char] else Decimal(n / 10) + [(n % 10 + '0' as int) as char]
  }

  // One more piece of a candidate.
  function Piece(base: string, n: nat): string
  {
    base + "_" + Decimal(n)
  }

  // The pieces numbered from n on, k of them: the buffer is never cleared between attempts.
  function Pieces(base: string, n: nat, k: nat): (r: string)
    ensures |r| >= k
  {
    if k == 0 then "" else Pieces(base, n, k - 1) + Piece(base, n + k - 1)
  }

  // The k-th name to be tried.
  function Candidate(base: string, counters: map<string, nat>, k: nat): string
  {
    if base in counters then Piece(base, counters[base] + 1) + Pieces(base, counters[base] + 1, k)
    else if k == 0 then base
    else Pieces(base, 0, k)
  }

  // What the first attempt leaves in the buffer, and the number the next piece gets.
  function Start(base: string, counters: map<string, nat>): nat
  {
    if base in counters then counters[base] + 1 else 0
  }

  function Buffer(base: string, counters: map<string, nat>, k: nat): string
  {
    if base !in counters && k == 0 then "" else Candidate(base, counters, k)
  }

  // Every candidate after the first is the buffer with one more piece.
  lemma NextCandidate(base: string, counters: map<string, nat>, k: nat)
    ensures Candidate(base, counters, k + 1)
         == Buffer(base, counters, k) + Piece(base, Start(base, counters) + k)
    ensures Buffer(base, counters, k + 1) == Candidate(base, counters, k + 1)
    ensures |Candidate(base, counters, k)| < |Candidate(base, counters, k + 1)|
  {
    hide ToUpper, Decimal;
    var n := Start(base, counters);
    assert Pieces(base, n, k + 1) == Pieces(base, n, k) + Piece(base, n + k);
    assert Pieces(base, n, 0) == "";
    if base in counters {
      assert Candidate(base, counters, k + 1)
          == (Piece(base, n) + Pieces(base, n, k)) + Piece(base, n + k);
    }
  }

  // The counters after a call: a base that was counted is counted once more, and a base that was
  // taken for the first time starts at zero.
  function Counted(base: string, counters: map<string, nat>, taken: bool): map<string, nat>
  {
    if base in counters then counters[base := counters[base] + 1]
    else if taken then counters[base := 0]
    else counters
  }

  // The length of the longest name.
  ghost function Longest(names: set<string>): (n: nat)
    ensures forall x | x in names :: |x| <= n
  {
    if names == {} then 0
    else
      var x :| x in names;
      var rest := Longest(names - {x});
      if |x| > rest then |x| else rest
  }

  // An empty name stands for the default one.
  function Base(inName: string): string
  {
    if inName == "" then BUILTIN_COL else inName
  }

  ghost predicate Distinct(s: seq<string>)
  {
    forall i, j | 0 <= i < j < |s| :: s[i] != s[j]
  }

  lemma DistinctAppend(s: seq<string>, x: string)
    requires Distinct(s) && x !in s
    ensures Distinct(s + [x])
  {
  }

  // The first candidate of a base that is not counted is the base itself.
  lemma FirstCandidate(base: string, counters: map<string, nat>)
    ensures Candidate(base, counters, 0)
         == if base in counters then Piece(base, counters[base] + 1) else base
    ensures Buffer(base, counters, 0) == if base in counters then Piece(base, counters[base] + 1) else ""
    ensures Start(base, counters) == if base in counters then counters[base] + 1 else 0
    ensures Counted(base, counters, false)
         == if base in counters then counters[base := counters[base] + 1] else counters
  {}

  // The first time a base is found taken its count starts, and the number to try is zero only then.
  lemma NextCount(base: string, counters: map<string, nat>, k: nat)
    ensures Counted(base, counters, true)
         == if Start(base, counters) + k == 0 then Counted(base, counters, false)[Candidate(base, counters, k) := 0]
            else Counted(base, counters, k > 0)
  {
    hide Piece, Pieces;
  }

  lemma CountedKeys(base: string, counters: map<string, nat>, taken: bool)
    ensures forall x | x in Counted(base, counters, taken) :: x in counters || (taken && x == base)
    ensures base in counters ==> Counted(base, counters, taken) == Counted(base, counters, true)
  {}

  class Namer {
    // SQL keywords are taken only when names are made for SQL.
    const sql: bool
    const keywords: set<string>
    const builtinNames: seq<string>
    var names: seq<string>
    var counters: map<string, nat>

    // extra holds the names a caller puts among the built-in ones before any column is added.
    constructor (sql: bool, keywords: set<string>, extra: seq<string>)
      ensures Valid() && names == [] && counters == map[]
      ensures this.sql == sql && this.keywords == keywords
      ensures builtinNames == [BUILTIN_COL, "log_time", "log_level", "log_opid"] + extra
    {
      this.sql, this.keywords, names, counters := sql, keywords, [], map[];
      builtinNames := [BUILTIN_COL, "log_time", "log_level", "log_opid"] + extra;
    }

    predicate Reserved(name: string)
    {
      (sql && ToUpper(name) in keywords) || name in builtinNames
    }

    predicate Existing(name: string)
      reads this`names
    {
      Reserved(name) || name in names
    }

    // All names given out are different from each other and from the reserved ones; only names that
    // exist are counted.
    ghost predicate Valid()
      reads this
    {
      && Distinct(names)
      && (forall x | x in names :: !Reserved(x))
      && (forall x | x in counters :: Existing(x))
      && BUILTIN_COL in builtinNames
    }

    // No existing name is longer than this.
    ghost function Limit(): (n: nat)
      reads this`names
      ensures forall x :: Existing(x) ==> |x| <= n
    {
      var n := Longest(keywords + (set x | x in builtinNames) + (set x | x in names));
      assert forall x | Existing(x) :: |x| <= n by {
        forall x | Existing(x)
          ensures |x| <= n
        {
          if sql && ToUpper(x) in keywords {
            assert |ToUpper(x)| <= n;
          }
        }
      }
      n
    }

    // The candidate that is tried after k others, all of them taken.
    ghost predicate Reached(base: string, k: nat, name: string)
      reads this
    {
      && name == Candidate(base, counters, k)
      && forall j: nat | j < k :: Existing(Candidate(base, counters, j))
    }

    method AddColumn(inName: string) returns (name: string)
      requires Valid()
      modifies this`names, this`counters
      ensures Valid()
      // The name was free, and it is the one asked for if that was free.
      ensures !old(Existing(name)) && names == old(names) + [name]
      ensures inName != "" && !old(Existing(inName)) ==> name == inName && counters == old(counters)
      // It is the first free candidate.
      ensures exists k: nat :: old(Reached(Base(inName), k, name))
      ensures counters == Counted(Base(inName), old(counters), old(Existing(Base(inName))))
    {
      hide Candidate, Piece, Pieces, Longest, ToUpper, Distinct, Counted, Start, Buffer, Reserved;
      var base := Base(inName);
      name := base;
      var buf, num := "", 0;
      ghost var before := counters;
      FirstCandidate(base, counters);
      if base in counters {
        num := counters[base] + 1;
        counters := counters[base := num];
        buf := Piece(base, num);
        name := buf;
      }
      ghost var k := 0;
      ghost var limit := Limit();
      while Existing(name)
        invariant name == Candidate(base, before, k) && buf == Buffer(base, before, k)
        invariant num == Start(base, before) + k && names == old(names)
        invariant forall j: nat | j < k :: Existing(Candidate(base, before, j))
        invariant counters == Counted(base, before, k > 0)
        decreases limit - |name|
      {
        NextCandidate(base, before, k);
        NextCount(base, before, k);
        if num == 0 {
          counters := counters[name := num];
        }
        buf := buf + Piece(base, num);
        name := buf;
        num := num + 1;
        k := k + 1;
      }
      assert old(Reached(base, k, name));
      CountedKeys(base, before, k > 0);
      if k > 0 {
        assert Existing(Candidate(base, before, 0));
      }
      DistinctAppend(names, name);
      names := names + [name];
    }
  }

  // ---------- the names themselves ----------

  // What a string of digits stands for.
  function NumberOf(digits: string): int
  {
    if digits == "" then 0 else 10 * NumberOf(digits[..|digits| - 1]) + (digits[|digits| - 1] as int - '0' as int)
  }

  // Numbers are written in decimal digits, so that they can be read back.
  lemma {:induction false} DecimalRead(n: nat)
    ensures NumberOf(Decimal(n)) == n
    ensures forall i | 0 <= i < |Decimal(n)| :: '0' <= Decimal(n)[i] <= '9'
    ensures n > 0 ==> Decimal(n)[0] != '0'
    decreases n
  {
    if n < 10 {
      assert Decimal(n)[..0] == "";
    } else {
      DecimalRead(n / 10);
      assert Decimal(n)[..|Decimal(n)| - 1] == Decimal(n / 10);
    }
  }

  // Different numbers make different pieces.
  lemma PiecesApart(base: string, m: nat, n: nat)
    ensures Piece(base, m) == Piece(base, n) <==> m == n
  {
    hide Decimal, NumberOf;
    DecimalRead(m);
    DecimalRead(n);
    if Piece(base, m) == Piece(base, n) {
      assert Piece(base, m)[|base + "_"|..] == Decimal(m) && Piece(base, n)[|base + "_"|..] == Decimal(n);
    }
  }

  // The names that one base is given in turn, as long as all of them are free: itself, and itself numbered from 0 on.
  function Numbered(base: string, i: nat): string
  {
    if i == 0 then base else base + "_" + Decimal(i - 1)
  }

  lemma NumberedApart(base: string, i: nat, j: nat)
    ensures Numbered(base, i) == Numbered(base, j) <==> i == j
  {
    hide Decimal;
    if i > 0 && j > 0 {
      PiecesApart(base, i - 1, j - 1);
    }
  }

  // The first candidates of a base that has been asked for i times.
  lemma FirstNames(base: string, counters: map<string, nat>, i: nat)
    requires if i < 2 then base !in counters else base in counters && counters[base] == i - 2
    ensures i < 2 ==> Candidate(base, counters, 0) == base && Candidate(base, counters, 1) == Numbered(base, 1)
    ensures i >= 2 ==> Candidate(base, counters, 0) == Numbered(base, i)
    ensures i > 0 ==> base in Counted(base, counters, true) && Counted(base, counters, true)[base] == i - 1
  {
    if i < 2 {
      assert Pieces(base, 0, 0) == "" && Pieces(base, 0, 1) == "" + Piece(base, 0);
    } else {
      assert Pieces(base, i - 1, 0) == "" && Piece(base, i - 1) + "" == Piece(base, i - 1);
    }
  }

  // A base that has been given its first i names, all others being free.
  ghost predicate Given(namer: Namer, base: string, i: nat)
    reads namer
  {
    && namer.Valid() && base != ""
    && (forall j: nat :: namer.Existing(Numbered(base, j)) <==> j < i)
    && if i < 2 then base !in namer.counters else base in namer.counters && namer.counters[base] == i - 2
  }

  method AskOnce(namer: Namer, base: string, ghost i: nat) returns (name: string)
    requires Given(namer, base, i)
    modifies namer`names, namer`counters
    ensures Given(namer, base, i + 1) && name == Numbered(base, i) && namer.names == old(namer.names) + [name]
  {
    hide Candidate, Numbered, Counted, Distinct;
    ghost var before := namer.counters;
    FirstNames(base, before, i);
    BaseIsFirst(base);
    assert namer.Existing(base) <==> 0 < i;
    assert !namer.Existing(Numbered(base, i));
    name := namer.AddColumn(base);
    assert name == Numbered(base, i) by {
      var k: nat :| old(namer.Reached(Base(base), k, name));
      assert i == 0 ==> name == base;
      assert i >= 1 ==> k < 2;
    }
    forall j: nat
      ensures namer.Existing(Numbered(base, j)) <==> j < i + 1
    {
      NumberedApart(base, i, j);
      assert old(namer.Existing(Numbered(base, j))) <==> j < i;
    }
  }

  lemma BaseIsFirst(base: string)
    ensures Numbered(base, 0) == base && (base != "" ==> Base(base) == base)
  {}

  // One name asked for again and again is given itself first, and then itself numbered, from 0 on.
  method AskAgain(namer: Namer, base: string, times: nat) returns (names: seq<string>)
    requires Given(namer, base, 0)
    modifies namer`names, namer`counters
    ensures namer.Valid() && namer.names == old(namer.names) + names && |names| == times
    ensures forall i | 0 <= i < times :: names[i] == if i == 0 then base else base + "_" + Decimal(i - 1)
  {
    hide Decimal, Distinct;
    names := [];
    var i := 0;
    while i < times
      invariant 0 <= i <= times && |names| == i && Given(namer, base, i) && namer.names == old(namer.names) + names
      invariant forall j | 0 <= j < i :: names[j] == Numbered(base, j)
    {
      var name := AskOnce(namer, base, i);
      names := names + [name];
      i := i + 1;
    }
  }
}
