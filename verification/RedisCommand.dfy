/** The two-pass argument builder of the Redis writer (pg2redis/redis_writer.go,
    pg2redis/redis_command.go): one pass adds up sizes, the other fills an array of that size. */
module RedisCommand {
  import opened WriteQueues
  import opened OrderedMaps

  /** A placeholder or a literal piece of a template. */
  datatype Part = Text(s: string) | Table | Schema | Xid | Pk | Old(col: string) | Col(col: string, placeholder: string)

  datatype Arg =
    | Literal(s: string)
    | PairsStar
    | PairsSubset(cols: seq<string>)
    | ColumnsStar
    | JsonStar
    | JsonSubset(cols: seq<string>)
    | Diff(col: string)
    | Template(parts: seq<Part>)

  datatype Row = Row(km: KeyMap, slots: Slots, prevKm: KeyMap, prev: Option<Slots>, table: string, schema: string,
      pk: string)

  /** Codecs are parameters: `json` fails with `None`. */
  datatype Env = Env(save: bool, timeName: string, time: string, xid: string, str: Value -> string,
                     json: seq<(string, Value)> -> Option<string>, minus: (Option<Value>, Option<Value>) -> string)

  ghost predicate RowOk(row: Row)
  {
    |row.slots| == |row.km.keys| && Indexed(row.km)
  }

  // ---- what an argument stands for

  datatype Outcome = Rendered(pieces: seq<string>) | JsonError | Panicked

  /** The tuple, before or after a `{json:*}` argument has put the commit time into it. */
  function TupleAt(env: Env, row: Row, seen: bool): (s: Slots)
    ensures |s| == |row.slots|
  {
    if seen && env.save then WithValue(row.km, row.slots, env.timeName, env.time) else row.slots
  }

  function FlatPairs(env: Env, pairs: seq<(string, Value)>): seq<string>
  {
    if pairs == [] then [] else [pairs[0].0, env.str(pairs[0].1)] + FlatPairs(env, pairs[1..])
  }

  /** Names and values alternate. */
  lemma {:induction false} FlatPairsAt(env: Env, pairs: seq<(string, Value)>)
    ensures |FlatPairs(env, pairs)| == 2 * |pairs|
    ensures forall i :: 0 <= i < |pairs| ==>
      FlatPairs(env, pairs)[2 * i] == pairs[i].0 && FlatPairs(env, pairs)[2 * i + 1] == env.str(pairs[i].1)
  {
    if pairs != [] {
      FlatPairsAt(env, pairs[1..]);
      var flat, rest := FlatPairs(env, pairs), FlatPairs(env, pairs[1..]);
      forall i | 0 < i < |pairs| ensures flat[2 * i] == pairs[i].0 && flat[2 * i + 1] == env.str(pairs[i].1) {
        assert flat[2 * i] == rest[2 * (i - 1)] && flat[2 * i + 1] == rest[2 * (i - 1) + 1];
        assert pairs[i] == pairs[1..][i - 1];
      }
    }
  }

  function Firsts(pairs: seq<(string, Value)>): (r: seq<string>)
    ensures |r| == |pairs|
  {
    if pairs == [] then [] else [pairs[0].0] + Firsts(pairs[1..])
  }

  /** The columns that are set, in the order asked for. */
  function Selected(km: KeyMap, slots: Slots, cols: seq<string>): seq<(string, Value)>
  {
    if cols == [] then []
    else (if Lookup(km, slots, cols[0]).Some? then [(cols[0], Lookup(km, slots, cols[0]).value)] else [])
         + Selected(km, slots, cols[1..])
  }

  function PartText(env: Env, row: Row, slots: Slots, p: Part): string
  {
    match p
    case Text(s) => s
    case Table => row.table
    case Schema => row.schema
    case Xid => env.xid
    case Pk => row.pk
    case Old(col) =>
      if row.prev.Some? && Lookup(row.prevKm, row.prev.value, col).Some?
      then env.str(Lookup(row.prevKm, row.prev.value, col).value) else ""
    case Col(col, placeholder) =>
      if Lookup(row.km, slots, col).Some? then env.str(Lookup(row.km, slots, col).value) else placeholder
  }

  function Joined(env: Env, row: Row, slots: Slots, parts: seq<Part>): string
  {
    if parts == [] then "" else PartText(env, row, slots, parts[0]) + Joined(env, row, slots, parts[1..])
  }

  function AsJson(env: Env, pairs: seq<(string, Value)>): Outcome
  {
    match env.json(pairs) case Some(s) => Rendered([s]) case None => JsonError
  }

  function Render(env: Env, row: Row, seen: bool, arg: Arg): Outcome
    requires |row.slots| == |row.km.keys|
  {
    var slots := TupleAt(env, row, seen);
    match arg
    case Literal(s) => Rendered([s])
    case PairsStar =>
      Rendered(FlatPairs(env, Pairs(row.km.keys, slots)) + if env.save then [env.timeName, env.time] else [])
    case PairsSubset(cols) => Rendered(FlatPairs(env, Selected(row.km, slots, cols)))
    case ColumnsStar => Rendered(Firsts(Pairs(row.km.keys, slots)) + if env.save then [env.timeName] else [])
    case JsonStar =>
      if env.save && GetIndex(row.km, env.timeName) < 0 then Panicked
      else AsJson(env, Pairs(row.km.keys, TupleAt(env, row, true)))
    case JsonSubset(cols) => AsJson(env, Selected(row.km, slots, cols))
    case Diff(col) =>
      Rendered([env.minus(Lookup(row.km, slots, col),
                          if row.prev.Some? then Lookup(row.prevKm, row.prev.value, col) else None)])
    case Template(parts) => Rendered([Joined(env, row, slots, parts)])
  }

  /** The size pass: the tuple has not been touched yet. */
  function Estimate(env: Env, row: Row, arg: Arg): nat
  {
    match arg
    case PairsStar => 2 * Count(row.slots) + if env.save then 2 else 0
    case PairsSubset(cols) => 2 * |cols|
    case ColumnsStar => Count(row.slots) + if env.save then 1 else 0
    case _ => 1
  }

  function EstimateAll(env: Env, row: Row, args: seq<Arg>): nat
  {
    if args == [] then 0 else Estimate(env, row, args[0]) + EstimateAll(env, row, args[1..])
  }

  // ---- the reference: the command without an array

  /** The pieces of all arguments in order; the first failure ends it. */
  function RenderAll(env: Env, row: Row, seen: bool, args: seq<Arg>): Outcome
    requires |row.slots| == |row.km.keys|
    decreases |args|
  {
    if args == [] then Rendered([]) else
    match Render(env, row, seen, args[0])
    case Rendered(xs) =>
      (match RenderAll(env, row, seen || args[0].JsonStar?, args[1..])
       case Rendered(ys) => Rendered(xs + ys)
       case other => other)
    case other => other
  }

  // ---- when the pieces fit

  /** Places that star arguments after a `{json:*}` need beyond their estimate, per added column. */
  function Excess(seen: bool, args: seq<Arg>): nat
    decreases |args|
  {
    if args == [] then 0 else ExcessOf(seen, args[0]) + Excess(seen || args[0].JsonStar?, args[1..])
  }

  function ExcessOf(seen: bool, arg: Arg): nat
  {
    if !seen then 0 else match arg case PairsStar => 2 case ColumnsStar => 1 case _ => 0
  }

  function Unset(km: KeyMap, slots: Slots, cols: seq<string>): nat
  {
    if cols == [] then 0 else (if Lookup(km, slots, cols[0]).None? then 1 else 0) + Unset(km, slots, cols[1..])
  }

  /** Places that `{pairs:...}` arguments leave free because a column is not set. */
  function Slack(env: Env, row: Row, seen: bool, args: seq<Arg>): nat
    decreases |args|
  {
    if args == [] then 0 else SlackOf(env, row, seen, args[0]) + Slack(env, row, seen || args[0].JsonStar?, args[1..])
  }

  function SlackOf(env: Env, row: Row, seen: bool, arg: Arg): nat
  {
    if arg.PairsSubset? then 2 * Unset(row.km, TupleAt(env, row, seen), arg.cols) else 0
  }

  /** `{json:*}` adds a column: the commit time is saved and its column was not set. */
  predicate Grows(env: Env, row: Row)
  {
    env.save && GetIndex(row.km, env.timeName) >= 0 && Lookup(row.km, row.slots, env.timeName).None?
  }

  function Extra(env: Env, row: Row, seen: bool, args: seq<Arg>): nat
  {
    if Grows(env, row) then Excess(seen, args) else 0
  }

  predicate Fits(env: Env, row: Row, args: seq<Arg>)
  {
    Extra(env, row, false, args) <= Slack(env, row, false, args)
  }

  lemma {:induction false} SelectedCount(km: KeyMap, slots: Slots, cols: seq<string>)
    ensures |Selected(km, slots, cols)| + Unset(km, slots, cols) == |cols|
  {
    if cols != [] {
      SelectedCount(km, slots, cols[1..]);
    }
  }

  lemma TupleCount(env: Env, row: Row)
    requires RowOk(row)
    ensures Count(TupleAt(env, row, true)) == Count(row.slots) + if Grows(env, row) then 1 else 0
  {
    assert LastPosition(row.km, |row.km.keys|, env.timeName);
    if env.save && GetIndex(row.km, env.timeName) >= 0 {
      CountUpdate(row.slots, GetIndex(row.km, env.timeName), env.time);
    }
  }

  lemma RenderLength(env: Env, row: Row, seen: bool, arg: Arg)
    requires RowOk(row) && Render(env, row, seen, arg).Rendered?
    ensures |Render(env, row, seen, arg).pieces| + SlackOf(env, row, seen, arg)
            == Estimate(env, row, arg) + if Grows(env, row) then ExcessOf(seen, arg) else 0
  {
    var slots := TupleAt(env, row, seen);
    TupleCount(env, row);
    PairsCount(row.km.keys, slots);
    if arg.PairsStar? {
      FlatPairsAt(env, Pairs(row.km.keys, slots));
    } else if arg.PairsSubset? {
      SelectedCount(row.km, slots, arg.cols);
      FlatPairsAt(env, Selected(row.km, slots, arg.cols));
    }
  }

  /** How many pieces there are, against what the size pass said. */
  lemma {:induction false} RenderAllLength(env: Env, row: Row, seen: bool, args: seq<Arg>)
    requires RowOk(row) && RenderAll(env, row, seen, args).Rendered?
    ensures |RenderAll(env, row, seen, args).pieces| + Slack(env, row, seen, args)
            == EstimateAll(env, row, args) + Extra(env, row, seen, args)
    decreases |args|
  {
    if args != [] {
      var next := seen || args[0].JsonStar?;
      RenderLength(env, row, seen, args[0]);
      RenderAllLength(env, row, next, args[1..]);
    }
  }

  // ---- the builder

  datatype Build = NoCommand | Built(args: seq<string>) | Failed | Crashed

  /** `buildCommand`; `Crashed` stands for a panic. */
  method BuildCommand(env: Env, row: Row, name: string, args: seq<Arg>) returns (r: Build)
    requires RowOk(row)
    ensures r == if name == "" then NoCommand else Filled(env, row, name, args)
  {
    if name == "" {
      return NoCommand;
    }
    var requiredLen := 1;
    for i := 0 to |args|
      invariant requiredLen == 1 + EstimateAll(env, row, args[..i])
    {
      EstimateMore(env, row, args[..i], args[i]);
      assert args[..i + 1] == args[..i] + [args[i]];
      requiredLen := requiredLen + Estimate(env, row, args[i]);
    }
    assert args[..|args|] == args;
    var arr := new string[requiredLen](i => "");
    arr[0] := name;
    var next, seen := 1, false;
    assert args[0..] == args && arr[..1] == [name];
    for i := 0 to |args|
      invariant 1 <= next <= arr.Length && arr.Length == requiredLen
      invariant seen == SeenIn(args[..i])
      invariant Fill(env, row, false, args, [name], requiredLen) == Fill(env, row, seen, args[i..], arr[..next],
          requiredLen)
    {
      assert args[i..][0] == args[i] && args[i..][1..] == args[i + 1..];
      SeenMore(args, i);
      var out := Render(env, row, seen, args[i]);
      if out.JsonError? {
        return Failed;
      }
      if out.Panicked? {
        return Crashed;
      }
      var ok := Store(arr, next, out.pieces);
      if !ok {
        return Crashed;
      }
      next := next + |out.pieces|;
      seen := seen || args[i].JsonStar?;
    }
    assert args[|args|..] == [];
    r := Built(arr[..next]);
  }

  /** Writes the pieces from `at` on; false stands for an index out of range. */
  method Store(arr: array<string>, at: nat, pieces: seq<string>) returns (ok: bool)
    requires at <= arr.Length
    modifies arr
    ensures ok == (at + |pieces| <= arr.Length)
    ensures ok ==> arr[..at + |pieces|] == old(arr[..at]) + pieces
  {
    for i := 0 to |pieces|
      invariant at + i <= arr.Length
      invariant arr[..at + i] == old(arr[..at]) + pieces[..i]
    {
      if at + i == arr.Length {
        return false;
      }
      arr[at + i] := pieces[i];
    }
    ok := true;
  }

  predicate SeenIn(args: seq<Arg>)
  {
    exists i :: 0 <= i < |args| && args[i].JsonStar?
  }

  lemma SeenMore(args: seq<Arg>, i: nat)
    requires i < |args|
    ensures SeenIn(args[..i + 1]) == (SeenIn(args[..i]) || args[i].JsonStar?)
  {
    assert args[..i + 1] == args[..i] + [args[i]];
    if SeenIn(args[..i]) {
      var j :| 0 <= j < i && args[..i][j].JsonStar?;
      assert args[..i + 1][j].JsonStar?;
    }
    if args[i].JsonStar? {
      assert args[..i + 1][i].JsonStar?;
    }
  }

  lemma {:induction false} EstimateMore(env: Env, row: Row, args: seq<Arg>, arg: Arg)
    ensures EstimateAll(env, row, args + [arg]) == EstimateAll(env, row, args) + Estimate(env, row, arg)
  {
    if args == [] {
      assert args + [arg] == [arg] && [arg][1..] == [];
    } else {
      assert (args + [arg])[1..] == args[1..] + [arg];
      EstimateMore(env, row, args[1..], arg);
    }
  }

  /** The fill pass, argument by argument, into `capacity` places. */
  ghost function Fill(env: Env, row: Row, seen: bool, args: seq<Arg>, written: seq<string>, capacity: nat): Build
    requires |row.slots| == |row.km.keys|
    decreases |args|
  {
    if args == [] then Built(written) else
    match Render(env, row, seen, args[0])
    case Rendered(xs) =>
      if |written| + |xs| > capacity then Crashed
      else Fill(env, row, seen || args[0].JsonStar?, args[1..], written + xs, capacity)
    case JsonError => Failed
    case Panicked => Crashed
  }

  ghost function Filled(env: Env, row: Row, name: string, args: seq<Arg>): Build
    requires |row.slots| == |row.km.keys|
  {
    Fill(env, row, false, args, [name], 1 + EstimateAll(env, row, args))
  }

  lemma {:induction false} FillIs(env: Env, row: Row, seen: bool, args: seq<Arg>, written: seq<string>, capacity: nat)
    requires |row.slots| == |row.km.keys| && RenderAll(env, row, seen, args).Rendered? && |written| <= capacity
    ensures Fill(env, row, seen, args, written, capacity) ==
      var pieces := RenderAll(env, row, seen, args).pieces;
      if |written| + |pieces| <= capacity then Built(written + pieces) else Crashed
    decreases |args|
  {
    if args == [] {
      assert written + [] == written;
    } else {
      var xs := Render(env, row, seen, args[0]).pieces;
      var next := seen || args[0].JsonStar?;
      var ys := RenderAll(env, row, next, args[1..]).pieces;
      if |written| + |xs| <= capacity {
        FillIs(env, row, next, args[1..], written + xs, capacity);
        assert written + xs + ys == written + (xs + ys);
      }
    }
  }

  /** The builder is sound exactly when the pieces fit: when every argument can be rendered it
      returns the command name followed by all renderings in order if and only if the places lost to
      a commit time added by `{json:*}` are made up for by unset `{pairs:...}` columns; otherwise it
      writes past its array. */
  lemma BuilderSoundExactly(env: Env, row: Row, name: string, args: seq<Arg>)
    requires RowOk(row) && RenderAll(env, row, false, args).Rendered?
    ensures Filled(env, row, name, args)
            == if Fits(env, row, args) then Built([name] + RenderAll(env, row, false, args).pieces) else Crashed
  {
    FillIs(env, row, false, args, [name], 1 + EstimateAll(env, row, args));
    RenderAllLength(env, row, false, args);
  }

  lemma {:induction false} NoExcess(seen: bool, args: seq<Arg>)
    requires forall i, j :: 0 <= i < j < |args| && args[i].JsonStar? ==> !args[j].PairsStar? && !args[j].ColumnsStar?
    requires seen ==> forall j :: 0 <= j < |args| ==> !args[j].PairsStar? && !args[j].ColumnsStar?
    ensures Excess(seen, args) == 0
    decreases |args|
  {
    if args != [] {
      assert forall i :: 0 <= i < |args| - 1 ==> args[1..][i] == args[i + 1];
      NoExcess(seen || args[0].JsonStar?, args[1..]);
    }
  }

  /** A safe use: no `{json:*}` before a star argument, or no commit time to add. */
  lemma SafeUse(env: Env, row: Row, args: seq<Arg>)
    requires
      || !env.save
      || Lookup(row.km, row.slots, env.timeName).Some?
      || forall i, j :: 0 <= i < j < |args| && args[i].JsonStar? ==> !args[j].PairsStar? && !args[j].ColumnsStar?
    ensures Fits(env, row, args)
  {
    if Grows(env, row) {
      NoExcess(false, args);
    }
  }

  /** An input that runs past the array: a row with one column set and one for the commit time. */
  function CrashRow(): Row
  {
    Row(KeyMap(map["a" := 0, "t" := 1], ["a", "t"]), [Some("1"), None], KeyMap(map[], []), None, "table", "public", "1")
  }

  lemma CrashExample(env: Env)
    requires env.save && env.timeName == "t" && Render(env, CrashRow(), false, JsonStar).Rendered?
    ensures RowOk(CrashRow()) && Filled(env, CrashRow(), "HSET", [JsonStar, PairsStar]) == Crashed
  {
    var row, args := CrashRow(), [JsonStar, PairsStar];
    CrashRowOk();
    assert args[1..] == [PairsStar] && [PairsStar][1..] == [];
    assert RenderAll(env, row, true, []) == Rendered([]);
    assert RenderAll(env, row, true, [PairsStar]).Rendered?;
    assert RenderAll(env, row, false, args).Rendered?;
    BuilderSoundExactly(env, row, "HSET", args);
    CrashExceeds(env);
  }

  lemma CrashRowOk()
    ensures RowOk(CrashRow())
  {
    var km := CrashRow().km;
    forall key ensures LastPosition(km, |km.keys|, key) {}
  }

  lemma CrashExceeds(env: Env)
    requires env.save && env.timeName == "t"
    ensures !Fits(env, CrashRow(), [JsonStar, PairsStar])
  {
    var args := [JsonStar, PairsStar];
    assert args[1..] == [PairsStar] && [PairsStar][1..] == [];
    assert Excess(true, []) == 0 && Excess(true, [PairsStar]) == 2;
    assert Excess(false, args) == 2;
    assert Slack(env, CrashRow(), true, []) == 0 && Slack(env, CrashRow(), true, [PairsStar]) == 0;
    assert Slack(env, CrashRow(), false, args) == 0;
  }
}
