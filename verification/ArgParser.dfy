// How the split arguments of a command are given to its parameters.
module ArgParser {

  datatype Arity = Required | Optional | ZeroOrMore | OneOrMore

  // The forms of a parameter, as far as parsing tells them apart: the rest of the command line, a single
  // argument, or its own name as a keyword.
  datatype Form = Text | Word | Keyword

  datatype Param = Param(name: string, arity: Arity, form: Form, choices: seq<string>)

  // An argument, and the command line from where it starts.
  datatype Arg = Arg(value: string, tail: string)

  predicate Repeats(p: Param)
  {
    p.arity.ZeroOrMore? || p.arity.OneOrMore?
  }

  predicate Needed(p: Param)
  {
    p.arity.Required? || p.arity.OneOrMore?
  }

  predicate IsFlag(a: Arg)
  {
    a.value == "-" || "--" <= a.value
  }

  // Keywords must not repeat: a keyword that does not match leaves the cursor where it is.
  predicate ParamsOk(params: seq<Param>)
  {
    forall j | 0 <= j < |params| :: params[j].form.Keyword? ==> !Repeats(params[j])
  }

  // ---------- the specification ----------

  // Where an argument went: among the free ones, to a parameter, or to a parameter with all that follows it.
  datatype Place = Free(arg: nat) | One(arg: nat, param: nat) | Rest(arg: nat, param: nat)

  datatype Cursor = Cursor(index: nat, places: seq<Place>)

  datatype Walked = At(cursor: Cursor) | Missing | BadChoice

  // A parameter meets the argument at the cursor.
  function Meet(call: bool, p: Param, j: nat, args: seq<Arg>, c: Cursor): Walked
    requires c.index < |args|
  {
    var a := args[c.index];
    var next := c.index + 1;
    if IsFlag(a) then At(Cursor(next, c.places + [Free(c.index)]))
    else if "-" <= p.name then At(c)
    else if p.form.Text? then At(Cursor(|args|, c.places + [Rest(c.index, j)]))
    else if p.form.Keyword? && a.value != p.name then At(c)
    else if p.form.Word? && p.choices != [] && a.value !in p.choices && call then BadChoice
    else At(Cursor(next, c.places + [One(c.index, j)]))
  }

  function Turn(call: bool, p: Param, j: nat, args: seq<Arg>, c: Cursor): (w: Walked)
    requires c.index < |args|
    ensures w.At? ==> c.index <= w.cursor.index <= |args|
    decreases |args| - c.index
  {
    var w := Meet(call, p, j, args, c);
    if w.At? && c.index < w.cursor.index < |args| && Repeats(p) then Turn(call, p, j, args, w.cursor) else w
  }

  function Walk(call: bool, params: seq<Param>, args: seq<Arg>, j: nat, c: Cursor): (w: Walked)
    requires j <= |params| && c.index <= |args|
    ensures w.At? ==> c.index <= w.cursor.index <= |args|
    decreases |params| - j
  {
    if j == |params| then At(c)
    else if c.index == |args| then
      if Needed(params[j]) && call then Missing else Walk(call, params, args, j + 1, c)
    else
      var w := Turn(call, params[j], j, args, c);
      if w.At? then Walk(call, params, args, j + 1, w.cursor) else w
  }

  // The values a parameter name is given, and the arguments left free, in order.
  function ValuesOf(params: seq<Param>, args: seq<Arg>, places: seq<Place>, name: string): seq<string>
  {
    if places == [] then []
    else
      var n := |places| - 1;
      ValuesOf(params, args, places[..n], name) + ValueAt(params, args, places[n], name)
  }

  function ValueAt(params: seq<Param>, args: seq<Arg>, x: Place, name: string): seq<string>
  {
    if x.Free? || x.param >= |params| || x.arg >= |args| || params[x.param].name != name then []
    else [if x.One? then args[x.arg].value else args[x.arg].tail]
  }

  function FreeOf(args: seq<Arg>, places: seq<Place>): seq<Arg>
  {
    if places == [] then []
    else
      var n := |places| - 1;
      FreeOf(args, places[..n]) + if places[n].Free? && places[n].arg < |args| then [args[places[n].arg]] else []
  }

  // ---------- every argument before the cursor has one place ----------

  // The places are those of the arguments up to the cursor, each once; parameters take theirs in order;
  // only flags are free, and no flag is a value.
  ghost predicate Placed(args: seq<Arg>, j: nat, c: Cursor)
  {
    && |c.places| <= c.index <= |args|
    && (c.index == |c.places| || (c.index == |args| && c.places != [] && c.places[|c.places| - 1].Rest?))
    && (forall k | 0 <= k < |c.places| ::
          && c.places[k].arg == k && (c.places[k].Free? <==> IsFlag(args[k]))
          && (c.places[k].Rest? ==> k == |c.places| - 1 && c.index == |args|)
          && (!c.places[k].Free? ==> c.places[k].param < j))
    && forall i, k | 0 <= i < k < |c.places| && !c.places[i].Free? && !c.places[k].Free? ::
         c.places[i].param <= c.places[k].param
  }

  lemma MeetPlaced(call: bool, p: Param, j: nat, args: seq<Arg>, c: Cursor)
    requires Placed(args, j + 1, c) && c.index < |args|
    ensures
      var w := Meet(call, p, j, args, c);
      w.At? ==> Placed(args, j + 1, w.cursor)
  {
    hide IsFlag;
  }

  lemma {:induction false} TurnPlaced(call: bool, p: Param, j: nat, args: seq<Arg>, c: Cursor)
    requires Placed(args, j + 1, c) && c.index < |args|
    ensures
      var w := Turn(call, p, j, args, c);
      w.At? ==> Placed(args, j + 1, w.cursor)
    decreases |args| - c.index
  {
    hide Placed, Meet;
    MeetPlaced(call, p, j, args, c);
    var w := Meet(call, p, j, args, c);
    if !(w.At? && c.index < w.cursor.index < |args| && Repeats(p)) {
    } else {
      TurnPlaced(call, p, j, args, w.cursor);
    }
  }

  lemma LaterPlaced(args: seq<Arg>, j: nat, c: Cursor)
    requires Placed(args, j, c)
    ensures Placed(args, j + 1, c) && c.index <= |args|
  {
    hide IsFlag;
  }

  lemma {:induction false} WalkPlaced(call: bool, params: seq<Param>, args: seq<Arg>, j: nat, c: Cursor)
    requires j <= |params| && c.index <= |args| && Placed(args, j, c)
    ensures
      var w := Walk(call, params, args, j, c);
      w.At? ==> Placed(args, |params|, w.cursor)
    decreases |params| - j
  {
    hide Placed, Turn;
    if j == |params| {
    } else {
      LaterPlaced(args, j, c);
      if c.index == |args| {
        WalkPlaced(call, params, args, j + 1, c);
      } else {
        TurnPlaced(call, params[j], j, args, c);
        var w := Turn(call, params[j], j, args, c);
        if w.At? {
          WalkPlaced(call, params, args, j + 1, w.cursor);
        }
      }
    }
  }

  // ---------- which parameters get a value ----------

  // What a parameter accepts: no flag, nothing when it is named like a flag, and its own name when it is a keyword.
  predicate CanTake(p: Param, a: Arg)
  {
    !IsFlag(a) && !("-" <= p.name) && (p.form.Keyword? ==> a.value == p.name)
  }

  // The first argument from i on that is not a flag.
  function FirstArg(args: seq<Arg>, i: nat): (k: nat)
    requires i <= |args|
    ensures i <= k <= |args| && forall m | i <= m < k :: IsFlag(args[m])
    decreases |args| - i
  {
    if i == |args| || !IsFlag(args[i]) then i else FirstArg(args, i + 1)
  }

  // A parameter only looks at the argument where its turn begins, a repeating one at the first that is not a flag.
  predicate Served(p: Param, args: seq<Arg>, i: nat)
    requires i <= |args|
  {
    var k := if Repeats(p) then FirstArg(args, i) else i;
    k < |args| && CanTake(p, args[k])
  }

  // A turn that does not fail adds values to a name exactly when it is the name of the parameter and the parameter
  // is served.
  lemma {:induction false} GetsValue(
      call: bool, params: seq<Param>, j: nat, args: seq<Arg>, c: Cursor, name: string)
    requires j < |params| && c.index < |args| && Turn(call, params[j], j, args, c).At?
    ensures
      var before := ValuesOf(params, args, c.places, name);
      var after := ValuesOf(params, args, Turn(call, params[j], j, args, c).cursor.places, name);
      before <= after && (before != after <==> params[j].name == name && Served(params[j], args, c.index))
    decreases |args| - c.index
  {
    hide IsFlag, ValuesOf, Turn;
    var p := params[j];
    var w := Meet(call, p, j, args, c);
    TurnStep(call, p, j, args, c);
    MeetValues(call, params, j, args, c, name);
    if c.index < w.cursor.index < |args| && Repeats(p) {
      GetsValue(call, params, j, args, w.cursor, name);
    } else {
    }
  }

  lemma MeetValues(call: bool, params: seq<Param>, j: nat, args: seq<Arg>, c: Cursor, name: string)
    requires j < |params| && c.index < |args| && Meet(call, params[j], j, args, c).At?
    ensures
      var before := ValuesOf(params, args, c.places, name);
      var after := ValuesOf(params, args, Meet(call, params[j], j, args, c).cursor.places, name);
      && before <= after
      && (before != after <==> params[j].name == name && CanTake(params[j], args[c.index]))
  {
    hide IsFlag, ValuesOf;
    var places := Meet(call, params[j], j, args, c).cursor.places;
    if places != c.places {
      MoreValues(params, args, c.places, places[|c.places|]);
    }
  }

  lemma TurnStep(call: bool, p: Param, j: nat, args: seq<Arg>, c: Cursor)
    requires c.index < |args|
    ensures
      var w := Meet(call, p, j, args, c);
      Turn(call, p, j, args, c) ==
        if w.At? && c.index < w.cursor.index < |args| && Repeats(p) then Turn(call, p, j, args, w.cursor) else w
  {
    hide Meet;
  }

  // Where the turn of parameter j begins, when no parameter before it has failed.
  function CursorAt(call: bool, params: seq<Param>, args: seq<Arg>, j: nat): (w: Walked)
    requires j <= |params|
    ensures w.At? ==> w.cursor.index <= |args|
  {
    if j == 0 then At(Cursor(0, []))
    else
      var w := CursorAt(call, params, args, j - 1);
      if !w.At? then w
      else if w.cursor.index == |args| then if Needed(params[j - 1]) && call then Missing else w
      else Turn(call, params[j - 1], j - 1, args, w.cursor)
  }

  lemma {:induction false} WalkOn(call: bool, params: seq<Param>, args: seq<Arg>, j: nat)
    requires j <= |params|
    ensures
      var w := CursorAt(call, params, args, j);
      Walk(call, params, args, 0, Cursor(0, [])) == if w.At? then Walk(call, params, args, j, w.cursor) else w
  {
    hide Turn;
    if j == 0 {
    } else {
      WalkOn(call, params, args, j - 1);
    }
  }

  // Parameter j is served when its turn comes.
  predicate ServedAt(call: bool, params: seq<Param>, args: seq<Arg>, j: nat)
    requires j < |params|
  {
    var w := CursorAt(call, params, args, j);
    w.At? && Served(params[j], args, w.cursor.index)
  }

  ghost predicate ServedBefore(call: bool, params: seq<Param>, args: seq<Arg>, j: nat, name: string)
    requires j <= |params|
  {
    exists i | 0 <= i < j :: params[i].name == name && ServedAt(call, params, args, i)
  }

  lemma {:induction false} ValuesAt(call: bool, params: seq<Param>, args: seq<Arg>, j: nat, name: string)
    requires j <= |params| && CursorAt(call, params, args, j).At?
    ensures
      var values := ValuesOf(params, args, CursorAt(call, params, args, j).cursor.places, name);
      values != [] <==> ServedBefore(call, params, args, j, name)
  {
    hide Turn, Served;
    if j == 0 {
    } else {
      var c := CursorAt(call, params, args, j - 1).cursor;
      ValuesAt(call, params, args, j - 1, name);
      ServedStep(call, params, args, j, name);
      if c.index == |args| {
        NoneServed(params[j - 1], args);
      } else {
        GetsValue(call, params, j - 1, args, c, name);
      }
    }
  }

  lemma ServedStep(call: bool, params: seq<Param>, args: seq<Arg>, j: nat, name: string)
    requires 0 < j <= |params|
    ensures ServedBefore(call, params, args, j, name) <==>
      ServedBefore(call, params, args, j - 1, name)
      || (params[j - 1].name == name && ServedAt(call, params, args, j - 1))
  {
    hide ServedAt;
  }

  lemma NoneServed(p: Param, args: seq<Arg>)
    ensures !Served(p, args, |args|)
  {}

  // So a command with a flag before its only required argument is accepted without that argument, and
  // what follows the flag is not looked at.
  lemma FlagTakesTurn(flag: Arg, value: Arg)
    requires IsFlag(flag) && !IsFlag(value)
    ensures
      var params := [Param("x", Required, Word, [])];
      Walk(true, params, [flag, value], 0, Cursor(0, [])) == At(Cursor(1, [Free(0)]))
  {
    var p := Param("x", Required, Word, []);
    hide IsFlag;
    var c := Cursor(1, [Free(0)]);
    assert Meet(true, p, 0, [flag, value], Cursor(0, [])) == At(c);
    assert Turn(true, p, 0, [flag, value], Cursor(0, [])) == At(c);
    assert Walk(true, [p], [flag, value], 1, c) == At(c);
  }

  // ---------- flags with values ----------

  function FlagEnd(v: string): (n: nat)
    ensures n <= |v| && (n < |v| ==> v[n] == '=') && forall k | 0 <= k < n :: v[k] != '='
  {
    if v == "" || v[0] == '=' then 0 else 1 + FlagEnd(v[1..])
  }

  function FlagValue(v: string): string
  {
    if FlagEnd(v) == |v| then "" else v[FlagEnd(v) + 1..]
  }

  // Of an argument of the form name=value the name ends before the first equals sign, and the value is all that is
  // behind it; without an equals sign there is no value.
  lemma NameAndValue(name: string, value: string)
    requires '=' !in name
    ensures
      var v := name + "=" + value;
      FlagEnd(v) == |name| && v[..FlagEnd(v)] == name && FlagValue(v) == value
    ensures FlagEnd(name) == |name| && name[..FlagEnd(name)] == name && FlagValue(name) == ""
  {
    EndsAtEquals(name, "=" + value);
    EndsAtEquals(name, "");
    hide FlagEnd;
    var v := name + ("=" + value);
    assert v == name + "=" + value;
    assert v[..|name|] == name && v[|name| + 1..] == value;
    assert name + "" == name && name[..|name|] == name;
  }

  lemma {:induction false} EndsAtEquals(name: string, rest: string)
    requires '=' !in name && (rest == "" || rest[0] == '=')
    ensures FlagEnd(name + rest) == |name|
    decreases |name|
  {
    var v := name + rest;
    if name == "" {
      assert v == rest;
    } else {
      EndsAtEquals(name[1..], rest);
      assert v[1..] == name[1..] + rest && v[0] == name[0];
    }
  }

  // A single dash is a flag, and so is whatever begins with two; a number with its sign is none.
  lemma FlagsAre(rest: string, tail: string)
    ensures IsFlag(Arg("-", tail)) && IsFlag(Arg("--" + rest, tail))
    ensures IsFlag(Arg("-" + rest, tail)) <==> rest == "" || rest[0] == '-'
    ensures rest != "" && rest[0] != '-' ==> !IsFlag(Arg(rest, tail))
    ensures !IsFlag(Arg("", tail))
  {
    assert ("--" + rest)[..2] == "--";
    var v := "-" + rest;
    if rest != "" {
      assert v[1] == rest[0];
      assert rest[0] == '-' ==> v[..2] == "--";
    } else {
      assert v == "-";
    }
  }

  predicate IsName(params: seq<Param>, name: string)
  {
    exists j | 0 <= j < |params| :: params[j].name == name
  }

  // The values that free arguments hold for a parameter name, and the arguments that name no parameter.
  function FlagValues(free: seq<Arg>, name: string): seq<string>
  {
    if free == [] then []
    else
      var n := |free| - 1;
      var v := free[n].value;
      FlagValues(free[..n], name) + if v[..FlagEnd(v)] == name then [FlagValue(v)] else []
  }

  function Unclaimed(params: seq<Param>, free: seq<Arg>): seq<Arg>
  {
    if free == [] then []
    else
      var n := |free| - 1;
      var v := free[n].value;
      Unclaimed(params, free[..n]) + if IsName(params, v[..FlagEnd(v)]) then [] else [free[n]]
  }

  predicate Names(a: Arg, name: string)
  {
    a.value[..FlagEnd(a.value)] == name
  }

  // So a flag name=value gives the parameter of that name exactly the value, and no other parameter anything.
  lemma FlagGives(name: string, value: string, tail: string, other: string)
    requires '=' !in name
    ensures FlagValues([Arg(name + "=" + value, tail)], other) == if other == name then [value] else []
  {
    hide FlagEnd, FlagValue;
    NameAndValue(name, value);
    var a := Arg(name + "=" + value, tail);
    NothingGiven(other);
    FlagAdded([], a, other);
    assert [] + [a] == [a];
  }

  lemma NothingGiven(name: string)
    ensures FlagValues([], name) == []
  {}

  lemma {:induction false} FlagsGiven(args: seq<Arg>, places: seq<Place>, name: string)
    requires |places| <= |args|
    requires forall k | 0 <= k < |places| :: places[k].arg == k && (places[k].Free? <==> IsFlag(args[k]))
    ensures FlagValues(FreeOf(args, places), name) != [] <==>
      exists k | 0 <= k < |places| :: IsFlag(args[k]) && Names(args[k], name)
    decreases |places|
  {
    hide IsFlag, Names, FlagValues, FreeOf;
    if places == [] {
      NoFlags(args, name);
    } else {
      var n := |places| - 1;
      FlagsGiven(args, places[..n], name);
      FreeStep(args, places);
      var free := FreeOf(args, places[..n]);
      assert free + [] == free;
      FlagAdded(free, args[n], name);
    }
  }

  lemma NoFlags(args: seq<Arg>, name: string)
    ensures FlagValues(FreeOf(args, []), name) == []
  {}

  lemma FreeStep(args: seq<Arg>, places: seq<Place>)
    requires places != [] && |places| <= |args|
    requires
      var n := |places| - 1;
      places[n].arg == n && (places[n].Free? <==> IsFlag(args[n]))
    ensures
      var n := |places| - 1;
      FreeOf(args, places) == FreeOf(args, places[..n]) + if IsFlag(args[n]) then [args[n]] else []
  {
    hide IsFlag;
  }

  lemma FlagAdded(free: seq<Arg>, a: Arg, name: string)
    ensures FlagValues(free + [a], name) == FlagValues(free, name) + if Names(a, name) then [FlagValue(a.value)] else []
  {
    hide FlagEnd, FlagValue;
    assert (free + [a])[..|free|] == free;
  }

  // A name is given a value: some parameter of that name was served at its turn, or a flag among the arguments
  // looked at names it.
  ghost predicate Given(call: bool, params: seq<Param>, args: seq<Arg>, c: Cursor, name: string)
    requires |c.places| <= |args|
  {
    || ServedBefore(call, params, args, |params|, name)
    || exists k | 0 <= k < |c.places| :: IsFlag(args[k]) && Names(args[k], name)
  }

  lemma ArgsGiven(call: bool, params: seq<Param>, args: seq<Arg>, name: string)
    requires Walk(call, params, args, 0, Cursor(0, [])).At?
    ensures
      var c := Walk(call, params, args, 0, Cursor(0, [])).cursor;
      && |c.places| <= |args|
      && (ValuesOf(params, args, c.places, name) + FlagValues(FreeOf(args, c.places), name) != [] <==>
            Given(call, params, args, c, name))
  {
    hide IsFlag, CursorAt, ServedBefore, ValuesOf, FlagValues, FreeOf, Names;
    var c := Walk(call, params, args, 0, Cursor(0, [])).cursor;
    WalkOn(call, params, args, |params|);
    ValuesAt(call, params, args, |params|, name);
    WalkPlaced(call, params, args, 0, Cursor(0, []));
    FlagsGiven(args, c.places, name);
  }

  // Without flags an accepted call serves every parameter that it needs, and so has a value for it.  Keywords are
  // served by their own name only, and parameters named like flags by no argument at all.
  lemma NeededServed(params: seq<Param>, args: seq<Arg>, j: nat)
    requires j < |params| && Needed(params[j]) && !params[j].form.Keyword? && !("-" <= params[j].name)
    requires forall i | 0 <= i < |args| :: !IsFlag(args[i])
    requires Walk(true, params, args, 0, Cursor(0, [])).At?
    ensures
      var c, name := Walk(true, params, args, 0, Cursor(0, [])).cursor, params[j].name;
      && ServedAt(true, params, args, j) && |c.places| <= |args|
      && ValuesOf(params, args, c.places, name) + FlagValues(FreeOf(args, c.places), name) != []
  {
    hide IsFlag, Walk, Turn, ValuesOf, FlagValues, FreeOf;
    WalkOn(true, params, args, j);
    WalkOn(true, params, args, j + 1);
    var i := CursorAt(true, params, args, j).cursor.index;
    assert i < |args| && FirstArg(args, i) == i;
    assert ServedBefore(true, params, args, |params|, params[j].name);
    ArgsGiven(true, params, args, params[j].name);
  }

  // ---------- the two loops ----------

  datatype Outcome = Parsed(args: map<string, seq<string>>, free: seq<Arg>) | MissingArg | BadArg

  ghost predicate Held(
    params: seq<Param>, j: nat, args: seq<Arg>, c: Cursor, pArgs: map<string, seq<string>>, pFree: seq<Arg>)
  {
    && j <= |params| && c.index <= |args| && Placed(args, j, c)
    && (forall name :: name in pArgs <==> IsName(params[..j], name))
    && (forall name | name in pArgs :: pArgs[name] == ValuesOf(params, args, c.places, name))
    && pFree == FreeOf(args, c.places)
  }

  lemma {:induction false} NoValues(params: seq<Param>, args: seq<Arg>, places: seq<Place>, j: nat, name: string)
    requires j <= |params| && !IsName(params[..j], name)
    requires forall k | 0 <= k < |places| && !places[k].Free? :: places[k].param < j
    ensures ValuesOf(params, args, places, name) == []
    decreases |places|
  {
    if places == [] {
    } else {
      NoValues(params, args, places[..|places| - 1], j, name);
      var x := places[|places| - 1];
      assert !x.Free? ==> params[..j][x.param].name != name;
    }
  }

  lemma MoreValues(params: seq<Param>, args: seq<Arg>, places: seq<Place>, x: Place)
    ensures forall name :: ValuesOf(params, args, places + [x], name) ==
              ValuesOf(params, args, places, name) + ValueAt(params, args, x, name)
    ensures FreeOf(args, places + [x]) ==
      FreeOf(args, places) + if x.Free? && x.arg < |args| then [args[x.arg]] else []
  {
    hide ValueAt;
    assert (places + [x])[..|places|] == places;
  }

  // The next parameter has an entry, which holds what its name was given so far.
  method Enter(
      params: seq<Param>, j: nat, pArgs: map<string, seq<string>>, ghost args: seq<Arg>, ghost c: Cursor,
      ghost pFree: seq<Arg>)
    returns (r: map<string, seq<string>>)
    requires j < |params| && Held(params, j, args, c, pArgs, pFree)
    ensures Held(params, j + 1, args, c, r, pFree) && params[j].name in r
  {
    hide Placed, ValuesOf, FreeOf;
    LaterPlaced(args, j, c);
    PlacedBelow(args, j, c);
    NamesMore(params, j);
    r := pArgs;
    if params[j].name !in pArgs {
      NoValues(params, args, c.places, j, params[j].name);
      r := pArgs[params[j].name := []];
    }
  }

  lemma PlacedBelow(args: seq<Arg>, j: nat, c: Cursor)
    requires Placed(args, j, c)
    ensures forall k | 0 <= k < |c.places| && !c.places[k].Free? :: c.places[k].param < j
  {
    hide IsFlag;
  }

  lemma NamesMore(params: seq<Param>, j: nat)
    requires j < |params|
    ensures forall name :: IsName(params[..j + 1], name) <==> IsName(params[..j], name) || name == params[j].name
  {
    var a, b := params[..j], params[..j + 1];
    assert b == a + [params[j]] && b[j] == params[j];
    forall name | IsName(a, name)
      ensures IsName(b, name)
    {
      var i :| 0 <= i < |a| && a[i].name == name;
      assert b[i].name == name;
    }
  }

  lemma HoldFree(
      call: bool, params: seq<Param>, j: nat, args: seq<Arg>, c: Cursor, pArgs: map<string, seq<string>>,
      pFree: seq<Arg>)
    requires j < |params| && Held(params, j + 1, args, c, pArgs, pFree) && c.index < |args| && IsFlag(args[c.index])
    ensures
      var c' := Cursor(c.index + 1, c.places + [Free(c.index)]);
      && Meet(call, params[j], j, args, c) == At(c')
      && Held(params, j + 1, args, c', pArgs, pFree + [args[c.index]])
  {
    MeetPlaced(call, params[j], j, args, c);
    MoreValues(params, args, c.places, Free(c.index));
    hide Placed, ValuesOf, FreeOf, IsFlag, IsName;
  }

  lemma HoldValue(
      params: seq<Param>, j: nat, args: seq<Arg>, c: Cursor, pArgs: map<string, seq<string>>, pFree: seq<Arg>,
      c': Cursor, x: Place, v: string)
    requires j < |params| && Held(params, j + 1, args, c, pArgs, pFree) && params[j].name in pArgs
    requires c'.places == c.places + [x] && c'.index <= |args| && Placed(args, j + 1, c')
    requires !x.Free? && x.param == j && ValueAt(params, args, x, params[j].name) == [v]
    ensures Held(params, j + 1, args, c', pArgs[params[j].name := pArgs[params[j].name] + [v]], pFree)
  {
    MoreValues(params, args, c.places, x);
    hide Placed, ValuesOf, FreeOf, IsFlag, IsName;
    assert FreeOf(args, c'.places) == FreeOf(args, c.places) + [];
  }

  lemma HeldIndex(
      params: seq<Param>, j: nat, args: seq<Arg>, c: Cursor, pArgs: map<string, seq<string>>, pFree: seq<Arg>)
    requires Held(params, j, args, c, pArgs, pFree)
    ensures c.index <= |args| && Placed(args, j, c)
  {}

  lemma PlacesWithin(args: seq<Arg>, j: nat, c: Cursor)
    requires Placed(args, j, c)
    ensures |c.places| <= |args|
  {}

  // One parameter takes its turn.
  method TakeTurn(
      call: bool, params: seq<Param>, j: nat, args: seq<Arg>, pArgs0: map<string, seq<string>>, pFree0: seq<Arg>,
      splitIndex0: nat, ghost c0: Cursor)
    returns (ok: bool, pArgs: map<string, seq<string>>, pFree: seq<Arg>, splitIndex: nat, ghost c: Cursor)
    requires ParamsOk(params) && j < |params| && Held(params, j + 1, args, c0, pArgs0, pFree0)
    requires splitIndex0 == c0.index < |args| && params[j].name in pArgs0
    ensures !ok ==> Turn(call, params[j], j, args, c0) == BadChoice
    ensures ok ==> Turn(call, params[j], j, args, c0) == At(c) && splitIndex == c.index
                   && Held(params, j + 1, args, c, pArgs, pFree)
  {
    hide Placed, Held, IsFlag, Turn;
    ok, pArgs, pFree, splitIndex, c := true, pArgs0, pFree0, splitIndex0, c0;
    var p := params[j];
    var go := true;
    while go
      invariant ok && splitIndex == c.index <= |args| && Held(params, j + 1, args, c, pArgs, pFree) && p.name in pArgs
      invariant go ==> splitIndex < |args| && Turn(call, p, j, args, c0) == Turn(call, p, j, args, c)
      invariant !go ==> Turn(call, p, j, args, c0) == At(c)
      decreases |args| - splitIndex, go
    {
      TurnStep(call, p, j, args, c);
      HeldIndex(params, j + 1, args, c, pArgs, pFree);
      MeetPlaced(call, p, j, args, c);
      var se := args[splitIndex];
      if IsFlag(se) {
        HoldFree(call, params, j, args, c, pArgs, pFree);
        pFree := pFree + [se];
        c := Cursor(c.index + 1, c.places + [Free(c.index)]);
      } else if "-" <= p.name {
        break;
      } else if p.form.Text? {
        ghost var x := Rest(c.index, j);
        HoldValue(params, j, args, c, pArgs, pFree, Cursor(|args|, c.places + [x]), x, se.tail);
        pArgs := pArgs[p.name := pArgs[p.name] + [se.tail]];
        splitIndex := |args| - 1;
        c := Cursor(|args|, c.places + [x]);
      } else {
        if p.form.Keyword? {
          if se.value != p.name {
            break;
          }
        } else if p.choices != [] && se.value !in p.choices && call {
          ok := false;
          return;
        }
        ghost var x := One(c.index, j);
        HoldValue(params, j, args, c, pArgs, pFree, Cursor(c.index + 1, c.places + [x]), x, se.value);
        pArgs := pArgs[p.name := pArgs[p.name] + [se.value]];
        c := Cursor(c.index + 1, c.places + [x]);
      }
      splitIndex := splitIndex + 1;
      go := splitIndex < |args| && Repeats(p);
    }
  }

  // The first parameter with the name of the flag, if there is one, gets its value.
  method ClaimFlag(params: seq<Param>, pArgs0: map<string, seq<string>>, v: string)
    returns (pArgs: map<string, seq<string>>, consumed: bool)
    requires IsName(params, v[..FlagEnd(v)]) ==> v[..FlagEnd(v)] in pArgs0
    ensures consumed == IsName(params, v[..FlagEnd(v)])
    ensures pArgs ==
      if consumed then pArgs0[v[..FlagEnd(v)] := pArgs0[v[..FlagEnd(v)]] + [FlagValue(v)]] else pArgs0
  {
    hide FlagEnd, FlagValue;
    var flagName := v[..FlagEnd(v)];
    pArgs, consumed := pArgs0, false;
    var j := 0;
    while j < |params|
      invariant j <= |params| && pArgs == pArgs0 && !consumed && forall k | 0 <= k < j :: params[k].name != flagName
    {
      if params[j].name == flagName {
        pArgs := pArgs[flagName := pArgs[flagName] + [FlagValue(v)]];
        consumed := true;
        break;
      }
      j := j + 1;
    }
  }

  // Each entry holds what it held before and the values of the free arguments.
  ghost predicate Extended(pArgs0: map<string, seq<string>>, free: seq<Arg>, pArgs: map<string, seq<string>>)
  {
    pArgs.Keys == pArgs0.Keys
    && forall name | name in pArgs :: pArgs[name] == pArgs0[name] + FlagValues(free, name)
  }

  lemma ExtendStep(pArgs0: map<string, seq<string>>, free: seq<Arg>, n: nat, pArgs: map<string, seq<string>>)
    requires n < |free| && Extended(pArgs0, free[..n], pArgs)
    ensures
      var v := free[n].value;
      var flagName := v[..FlagEnd(v)];
      Extended(
        pArgs0, free[..n + 1],
        if flagName in pArgs then pArgs[flagName := pArgs[flagName] + [FlagValue(v)]] else pArgs)
  {
    hide FlagEnd, FlagValue;
    assert free[..n + 1][..n] == free[..n];
  }

  lemma UnclaimedStep(params: seq<Param>, free: seq<Arg>, n: nat)
    requires n < |free|
    ensures
      var v := free[n].value;
      var more := if IsName(params, v[..FlagEnd(v)]) then [] else [free[n]];
      Unclaimed(params, free[..n + 1]) == Unclaimed(params, free[..n]) + more
  {
    hide IsName, FlagEnd;
    assert free[..n + 1][..n] == free[..n];
  }

  lemma NothingClaimed(params: seq<Param>, pArgs: map<string, seq<string>>)
    ensures Extended(pArgs, [], pArgs) && Unclaimed(params, []) == []
  {}

  lemma Parts(a: seq<Arg>, b: seq<Arg>)
    requires b != []
    ensures
      var s := a + b;
      s[|a|] == b[0] && s[..|a|] + s[|a| + 1..] == a + b[1..] && s == (a + [b[0]]) + b[1..]
  {}

  // Free arguments that name a parameter become its values.
  method ClaimFlags(params: seq<Param>, pArgs0: map<string, seq<string>>, pFree0: seq<Arg>)
    returns (pArgs: map<string, seq<string>>, pFree: seq<Arg>)
    requires forall name :: name in pArgs0 <==> IsName(params, name)
    ensures Extended(pArgs0, pFree0, pArgs) && pFree == Unclaimed(params, pFree0)
  {
    hide IsName, FlagEnd, FlagValue, FlagValues, Unclaimed;
    pArgs, pFree := pArgs0, pFree0;
    var iter := 0;
    ghost var seen, kept := 0, [];
    NothingClaimed(params, pArgs);
    assert pFree0[..0] == [] && pFree0[0..] == pFree0;
    while iter < |pFree|
      invariant seen <= |pFree0| && kept == Unclaimed(params, pFree0[..seen])
      invariant iter == |kept| && pFree == kept + pFree0[seen..]
      invariant Extended(pArgs0, pFree0[..seen], pArgs)
      decreases |pFree| - iter
    {
      UnclaimedStep(params, pFree0, seen);
      ExtendStep(pArgs0, pFree0, seen, pArgs);
      Parts(kept, pFree0[seen..]);
      assert pFree0[seen..][1..] == pFree0[seen + 1..];
      var consumed;
      pArgs, consumed := ClaimFlag(params, pArgs, pFree[iter].value);
      if consumed {
        pFree := pFree[..iter] + pFree[iter + 1..];
      } else {
        kept := kept + [pFree0[seen]];
        iter := iter + 1;
      }
      seen := seen + 1;
    }
    assert pFree0[..seen] == pFree0;
  }

  method ParseFor(call: bool, params: seq<Param>, args: seq<Arg>) returns (r: Outcome)
    requires ParamsOk(params)
    ensures
      var w := Walk(call, params, args, 0, Cursor(0, []));
      && (w.Missing? <==> r.MissingArg?) && (w.BadChoice? <==> r.BadArg?)
      && (w.At? ==>
            && r.Parsed? && (forall name :: name in r.args <==> IsName(params, name))
            && r.free == Unclaimed(params, FreeOf(args, w.cursor.places))
            && forall name | name in r.args :: r.args[name] ==
                 ValuesOf(params, args, w.cursor.places, name) + FlagValues(FreeOf(args, w.cursor.places), name))
    ensures
      var w := Walk(call, params, args, 0, Cursor(0, []));
      r.Parsed? ==> w.At? && |w.cursor.places| <= |args|
                    && forall name | name in r.args :: r.args[name] != [] <==> Given(call, params, args, w.cursor, name)
  {
    hide Given, ServedBefore, FlagEnd, Placed, ValuesOf, FreeOf, IsFlag, IsName, Turn, Unclaimed, FlagValues;
    var pArgs: map<string, seq<string>>, pFree: seq<Arg>, splitIndex := map[], [], 0;
    ghost var c := Cursor(0, []);
    NothingHeld(params, args);
    var j := 0;
    while j < |params|
      invariant j <= |params| && splitIndex == c.index && Held(params, j, args, c, pArgs, pFree)
      invariant Walk(call, params, args, 0, Cursor(0, [])) == Walk(call, params, args, j, c)
    {
      pArgs := Enter(params, j, pArgs, args, c, pFree);
      if splitIndex >= |args| {
        if Needed(params[j]) {
          if call {
            return MissingArg;
          }
        }
      } else {
        var ok;
        ok, pArgs, pFree, splitIndex, c := TakeTurn(call, params, j, args, pArgs, pFree, splitIndex, c);
        if !ok {
          return BadArg;
        }
      }
      j := j + 1;
    }
    assert params[..j] == params;
    HeldIndex(params, j, args, c, pArgs, pFree);
    PlacesWithin(args, j, c);
    pArgs, pFree := ClaimFlags(params, pArgs, pFree);
    r := Parsed(pArgs, pFree);
    forall name | name in pArgs
      ensures pArgs[name] != [] <==> Given(call, params, args, c, name)
    {
      ArgsGiven(call, params, args, name);
    }
  }

  lemma NothingHeld(params: seq<Param>, args: seq<Arg>)
    ensures Held(params, 0, args, Cursor(0, []), map[], [])
  {}
}
