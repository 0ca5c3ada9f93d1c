/** What each kind of argument of a Redis command stands for, said of the columns of the row alone, and
    that the builder writes exactly that. */
module RedisArguments {
  import opened WriteQueues
  import opened OrderedMaps
  import opened RedisCommand

  // ---- columns

  /** The last column of that name. */
  ghost predicate ColumnAt(keys: seq<string>, name: string, i: int)
  {
    0 <= i < |keys| && keys[i] == name && forall j :: i < j < |keys| ==> keys[j] != name
  }

  /** The value of a column, if it exists and is set. */
  ghost predicate HasValue(keys: seq<string>, slots: Slots, name: string, v: Option<Value>)
    requires |slots| == |keys|
  {
    && (forall i {:trigger slots[i]} :: ColumnAt(keys, name, i) ==> v == slots[i])
    && (name !in keys ==> v == None)
  }

  lemma LookupHas(km: KeyMap, slots: Slots, name: string)
    requires Indexed(km) && |slots| == |km.keys|
    ensures HasValue(km.keys, slots, name, Lookup(km, slots, name))
    ensures name in km.keys ==> ColumnAt(km.keys, name, GetIndex(km, name))
    ensures name !in km.keys ==> GetIndex(km, name) < 0
  {
    assert LastPosition(km, |km.keys|, name);
    forall i | ColumnAt(km.keys, name, i) ensures i == GetIndex(km, name) {
      assert km.keys[i] == name;
    }
  }

  /** There is only one such value. */
  lemma HasUnique(keys: seq<string>, slots: Slots, name: string, v: Option<Value>, w: Option<Value>)
    requires |slots| == |keys| && HasValue(keys, slots, name, v) && HasValue(keys, slots, name, w)
    ensures v == w
  {
    if name in keys {
      var i := LastColumn(keys, name);
      assert v == slots[i] && w == slots[i];
    }
  }

  lemma {:induction false} LastColumn(keys: seq<string>, name: string) returns (i: nat)
    requires name in keys
    ensures ColumnAt(keys, name, i)
  {
    var n := |keys| - 1;
    if keys[n] == name {
      i := n;
    } else {
      assert keys == keys[..n] + [keys[n]];
      i := LastColumn(keys[..n], name);
    }
  }

  ghost predicate Increasing(idx: seq<nat>)
  {
    forall a, b :: 0 <= a < b < |idx| ==> idx[a] < idx[b]
  }

  ghost predicate Named(s: seq<Option<Value>>, idx: seq<nat>, k: nat)
  {
    k < |s| && s[k].Some? ==> k in idx
  }

  /** `idx` are the positions that hold a value, in order. */
  ghost predicate Positions(s: seq<Option<Value>>, idx: seq<nat>)
  {
    && Increasing(idx) && (forall i :: 0 <= i < |idx| ==> idx[i] < |s| && s[idx[i]].Some?)
    && forall k: nat {:trigger Named(s, idx, k)} :: Named(s, idx, k)
  }

  lemma PositionsMore(s: seq<Option<Value>>, idx: seq<nat>, x: Option<Value>) returns (idx': seq<nat>)
    requires Positions(s, idx)
    ensures Positions(s + [x], idx') && idx' == if x.Some? then idx + [|s|] else idx
  {
    idx' := if x.Some? then idx + [|s|] else idx;
    forall k: nat ensures Named(s + [x], idx', k) {
      assert Named(s, idx, k);
      if x.Some? {
        assert idx'[|idx|] == |s|;
      }
      if k < |s| && s[k].Some? {
        var j :| 0 <= j < |idx| && idx[j] == k;
        assert idx'[j] == k;
      }
    }
  }

  /** Names with their values, for these positions. */
  ghost predicate ListsPairs(pairs: seq<(string, Value)>, names: seq<string>, s: seq<Option<Value>>)
    requires |s| == |names|
  {
    exists idx :: Positions(s, idx) && PairsAt(pairs, names, s, idx)
  }

  ghost predicate PairsAt(pairs: seq<(string, Value)>, names: seq<string>, s: seq<Option<Value>>, idx: seq<nat>)
    requires |s| == |names|
  {
    |pairs| == |idx| && forall i {:trigger PairAt(pairs, names, s, idx, i)} :: 0 <= i < |idx| ==>
      PairAt(pairs, names, s, idx, i)
  }

  ghost predicate PairAt(pairs: seq<(string, Value)>, names: seq<string>, s: seq<Option<Value>>, idx: seq<nat>, i: nat)
    requires i < |idx| == |pairs| && |s| == |names|
  {
    idx[i] < |s| && s[idx[i]].Some? && pairs[i] == (names[idx[i]], s[idx[i]].value)
  }

  lemma PairsMore(pairs: seq<(string, Value)>, names: seq<string>, s: seq<Option<Value>>, name: string,
      x: Option<Value>)
    requires |s| == |names| && ListsPairs(pairs, names, s)
    ensures ListsPairs(pairs + if x.Some? then [(name, x.value)] else [], names + [name], s + [x])
  {
    var idx :| Positions(s, idx) && PairsAt(pairs, names, s, idx);
    var idx' := PositionsMore(s, idx, x);
    var more := pairs + if x.Some? then [(name, x.value)] else [];
    forall i | 0 <= i < |idx'| ensures PairAt(more, names + [name], s + [x], idx', i) {
      if i < |idx| {
        assert PairAt(pairs, names, s, idx, i);
        assert more[i] == pairs[i] && idx'[i] == idx[i];
      }
    }
    assert PairsAt(more, names + [name], s + [x], idx');
  }

  /** `Iter` lists the set columns in key order. */
  lemma {:induction false} PairsAre(keys: seq<string>, slots: Slots, n: nat)
    requires n <= |slots| == |keys|
    ensures ListsPairs(Pairs(keys[..n], slots[..n]), keys[..n], slots[..n])
  {
    if n == 0 {
      assert keys[..0] == [] && slots[..0] == [];
      assert Positions([], []) && PairsAt([], [], [], []);
    } else {
      PairsAre(keys, slots, n - 1);
      PairsAppend(keys, slots, n - 1);
      PairsMore(Pairs(keys[..n - 1], slots[..n - 1]), keys[..n - 1], slots[..n - 1], keys[n - 1], slots[n - 1]);
      assert keys[..n] == keys[..n - 1] + [keys[n - 1]] && slots[..n] == slots[..n - 1] + [slots[n - 1]];
    }
  }

  /** The values of some columns. */
  ghost predicate ValuesOf(keys: seq<string>, slots: Slots, cols: seq<string>, vs: seq<Option<Value>>)
    requires |slots| == |keys|
  {
    |vs| == |cols| && forall i :: 0 <= i < |cols| ==> HasValue(keys, slots, cols[i], vs[i])
  }

  lemma {:induction false} SelectedMore(km: KeyMap, slots: Slots, cols: seq<string>, col: string)
    ensures Selected(km, slots, cols + [col])
            == Selected(km, slots, cols) + var v := Lookup(km, slots, col); if v.Some? then [(col, v.value)] else []
  {
    if cols == [] {
      assert cols + [col] == [col] && [col][1..] == [];
      assert Selected(km, slots, []) == [];
    } else {
      assert (cols + [col])[1..] == cols[1..] + [col];
      SelectedMore(km, slots, cols[1..], col);
      var head := if Lookup(km, slots, cols[0]).Some? then [(cols[0], Lookup(km, slots, cols[0]).value)] else [];
      var v := Lookup(km, slots, col);
      var last := if v.Some? then [(col, v.value)] else [];
      assert head + (Selected(km, slots, cols[1..]) + last) == head + Selected(km, slots, cols[1..]) + last;
    }
  }

  /** A subset lists the set ones of the columns asked for, in the order asked for. */
  lemma {:induction false} SelectedAre(km: KeyMap, slots: Slots, cols: seq<string>) returns (vs: seq<Option<Value>>)
    requires Indexed(km) && |slots| == |km.keys|
    ensures ValuesOf(km.keys, slots, cols, vs) && ListsPairs(Selected(km, slots, cols), cols, vs)
  {
    if cols == [] {
      vs := [];
      assert Positions([], []) && PairsAt([], [], [], []);
    } else {
      var n := |cols| - 1;
      var before := SelectedAre(km, slots, cols[..n]);
      var v := Lookup(km, slots, cols[n]);
      LookupHas(km, slots, cols[n]);
      SelectedMore(km, slots, cols[..n], cols[n]);
      PairsMore(Selected(km, slots, cols[..n]), cols[..n], before, cols[n], v);
      assert cols == cols[..n] + [cols[n]];
      vs := before + [v];
    }
  }

  lemma {:induction false} FirstsAt(pairs: seq<(string, Value)>)
    ensures |Firsts(pairs)| == |pairs| && forall i :: 0 <= i < |pairs| ==> Firsts(pairs)[i] == pairs[i].0
  {
    if pairs != [] {
      FirstsAt(pairs[1..]);
    }
  }

  // ---- the tuple the arguments see

  /** After a `{json:*}` argument the column of the commit time holds it, if there is one. */
  ghost predicate TupleNow(env: Env, row: Row, seen: bool, slots: Slots)
    requires |row.slots| == |row.km.keys|
  {
    |slots| == |row.slots| && forall i :: 0 <= i < |slots| ==>
      slots[i] == if seen && env.save && ColumnAt(row.km.keys, env.timeName, i) then Some(env.time) else row.slots[i]
  }

  lemma TupleIs(env: Env, row: Row, seen: bool)
    requires RowOk(row)
    ensures TupleNow(env, row, seen, TupleAt(env, row, seen))
  {
    LookupHas(row.km, row.slots, env.timeName);
    forall i | ColumnAt(row.km.keys, env.timeName, i) ensures i == GetIndex(row.km, env.timeName) {}
  }

  // ---- arguments

  ghost predicate PrevOk(row: Row)
  {
    row.prev.Some? ==> |row.prev.value| == |row.prevKm.keys| && Indexed(row.prevKm)
  }

  ghost predicate PrevHas(row: Row, col: string, v: Option<Value>)
    requires PrevOk(row)
  {
    if row.prev.Some? then HasValue(row.prevKm.keys, row.prev.value, col, v) else v == None
  }

  /** Names and values alternate; the commit time comes last. */
  ghost predicate Alternate(env: Env, pairs: seq<(string, Value)>, pieces: seq<string>, timed: bool)
  {
    && |pieces| == 2 * |pairs| + (if timed then 2 else 0)
    && (forall i :: 0 <= i < |pairs| ==> pieces[2 * i] == pairs[i].0 && pieces[2 * i + 1] == env.str(pairs[i].1))
    && (timed ==> pieces[2 * |pairs|] == env.timeName && pieces[2 * |pairs| + 1] == env.time)
  }

  /** The names alone; that of the commit time comes last. */
  ghost predicate NamesOf(env: Env, pairs: seq<(string, Value)>, pieces: seq<string>)
  {
    && |pieces| == |pairs| + (if env.save then 1 else 0)
    && (forall i :: 0 <= i < |pairs| ==> pieces[i] == pairs[i].0)
    && (env.save ==> pieces[|pairs|] == env.timeName)
  }

  /** What one part of a template stands for. */
  ghost predicate PartIs(env: Env, row: Row, slots: Slots, p: Part, text: string)
    requires |slots| == |row.km.keys| && PrevOk(row)
  {
    match p
    case Text(s) => text == s
    case Table => text == row.table
    case Schema => text == row.schema
    case Xid => text == env.xid
    case Pk => text == row.pk
    case Old(col) => exists v :: PrevHas(row, col, v) && text == if v.Some? then env.str(v.value) else ""
    case Col(col, placeholder) =>
      exists v :: HasValue(row.km.keys, slots, col, v) && text == if v.Some? then env.str(v.value) else placeholder
  }

  ghost function Concatenated(texts: seq<string>): string
  {
    if texts == [] then "" else Concatenated(texts[..|texts| - 1]) + texts[|texts| - 1]
  }

  ghost predicate TextsOf(env: Env, row: Row, slots: Slots, parts: seq<Part>, texts: seq<string>)
    requires |slots| == |row.km.keys| && PrevOk(row)
  {
    |texts| == |parts| && forall i :: 0 <= i < |parts| ==> PartIs(env, row, slots, parts[i], texts[i])
  }

  /** The pairs of some columns of the tuple. */
  ghost predicate SubsetPairs(row: Row, slots: Slots, cols: seq<string>, pairs: seq<(string, Value)>)
    requires |slots| == |row.km.keys|
  {
    exists vs :: ValuesOf(row.km.keys, slots, cols, vs) && ListsPairs(pairs, cols, vs)
  }

  /** The pieces an argument stands for, where `slots` is the tuple it sees and `after` the one it leaves. */
  ghost predicate Stands(env: Env, row: Row, slots: Slots, after: Slots, arg: Arg, pieces: seq<string>)
    requires |slots| == |after| == |row.km.keys| && PrevOk(row)
  {
    match arg
    case Literal(s) => pieces == [s]
    case PairsStar => exists pairs :: ListsPairs(pairs, row.km.keys, slots) && Alternate(env, pairs, pieces, env.save)
    case PairsSubset(cols) =>
      exists pairs :: SubsetPairs(row, slots, cols, pairs) && Alternate(env, pairs, pieces, false)
    case ColumnsStar => exists pairs :: ListsPairs(pairs, row.km.keys, slots) && NamesOf(env, pairs, pieces)
    case JsonStar =>
      exists pairs :: ListsPairs(pairs, row.km.keys, after) && JsonOf(env, pairs, pieces)
    case JsonSubset(cols) => exists pairs :: SubsetPairs(row, slots, cols, pairs) && JsonOf(env, pairs, pieces)
    case Diff(col) =>
      exists v, w :: HasValue(row.km.keys, slots, col, v) && PrevHas(row, col, w) && pieces == [env.minus(v, w)]
    case Template(parts) =>
      exists texts :: TextsOf(env, row, slots, parts, texts) && pieces == [Concatenated(texts)]
  }

  ghost predicate JsonOf(env: Env, pairs: seq<(string, Value)>, pieces: seq<string>)
  {
    env.json(pairs).Some? && pieces == [env.json(pairs).value]
  }

  // ---- what the builder renders

  lemma AllPairs(row: Row, slots: Slots)
    requires |slots| == |row.km.keys|
    ensures ListsPairs(Pairs(row.km.keys, slots), row.km.keys, slots)
  {
    PairsAre(row.km.keys, slots, |slots|);
    assert row.km.keys[..|slots|] == row.km.keys && slots[..|slots|] == slots;
  }

  lemma SomePairs(row: Row, slots: Slots, cols: seq<string>)
    requires RowOk(row) && |slots| == |row.slots|
    ensures SubsetPairs(row, slots, cols, Selected(row.km, slots, cols))
  {
    var vs := SelectedAre(row.km, slots, cols);
  }

  lemma FlatAlternates(env: Env, pairs: seq<(string, Value)>)
    ensures Alternate(env, pairs, FlatPairs(env, pairs), false)
    ensures env.save ==> Alternate(env, pairs, FlatPairs(env, pairs) + [env.timeName, env.time], true)
  {
    FlatPairsAt(env, pairs);
  }

  lemma PrevIs(row: Row, col: string)
    requires PrevOk(row)
    ensures PrevHas(row, col, if row.prev.Some? then Lookup(row.prevKm, row.prev.value, col) else None)
  {
    if row.prev.Some? {
      LookupHas(row.prevKm, row.prev.value, col);
    }
  }

  lemma PartTextIs(env: Env, row: Row, slots: Slots, p: Part)
    requires RowOk(row) && |slots| == |row.slots| && PrevOk(row)
    ensures PartIs(env, row, slots, p, PartText(env, row, slots, p))
  {
    if p.Old? {
      PrevIs(row, p.col);
    } else if p.Col? {
      LookupHas(row.km, slots, p.col);
    }
  }

  lemma {:induction false} JoinedMore(env: Env, row: Row, slots: Slots, parts: seq<Part>, p: Part)
    ensures Joined(env, row, slots, parts + [p]) == Joined(env, row, slots, parts) + PartText(env, row, slots, p)
  {
    if parts == [] {
      assert parts + [p] == [p] && [p][1..] == [];
      assert PartText(env, row, slots, p) + "" == PartText(env, row, slots, p);
    } else {
      assert (parts + [p])[1..] == parts[1..] + [p];
      JoinedMore(env, row, slots, parts[1..], p);
      var a, b, c := PartText(env, row, slots, parts[0]), Joined(env, row, slots, parts[1..]),
        PartText(env, row, slots, p);
      assert a + (b + c) == a + b + c;
    }
  }

  lemma {:induction false} JoinedIs(env: Env, row: Row, slots: Slots, parts: seq<Part>) returns (texts: seq<string>)
    requires RowOk(row) && |slots| == |row.slots| && PrevOk(row)
    ensures TextsOf(env, row, slots, parts, texts) && Joined(env, row, slots, parts) == Concatenated(texts)
  {
    if parts == [] {
      texts := [];
    } else {
      var n := |parts| - 1;
      var before := JoinedIs(env, row, slots, parts[..n]);
      var text := PartText(env, row, slots, parts[n]);
      PartTextIs(env, row, slots, parts[n]);
      JoinedMore(env, row, slots, parts[..n], parts[n]);
      assert parts == parts[..n] + [parts[n]];
      texts := before + [text];
      assert texts[..n] == before;
    }
  }

  /** Rendering gives what the argument stands for. It panics exactly when the commit time is to be put into
      a tuple without a column for it, and fails exactly when the JSON cannot be written. */
  lemma RenderedExactly(env: Env, row: Row, seen: bool, arg: Arg)
    requires RowOk(row) && PrevOk(row)
    ensures TupleNow(env, row, seen, TupleAt(env, row, seen)) && TupleNow(env, row, true, TupleAt(env, row, true))
    ensures OutcomeIs(env, row, TupleAt(env, row, seen), TupleAt(env, row, true), arg, Render(env, row, seen, arg))
  {
    TupleIs(env, row, seen);
    TupleIs(env, row, true);
    match arg
    case Literal(s) =>
    case PairsStar => PairsStarIs(env, row, seen);
    case PairsSubset(cols) => PairsSubsetIs(env, row, seen, cols);
    case ColumnsStar => ColumnsStarIs(env, row, seen);
    case JsonStar => JsonStarIs(env, row, seen);
    case JsonSubset(cols) => JsonSubsetIs(env, row, seen, cols);
    case Diff(col) => DiffIs(env, row, seen, col);
    case Template(parts) => TemplateIs(env, row, seen, parts);
  }

  ghost predicate OutcomeIs(env: Env, row: Row, slots: Slots, after: Slots, arg: Arg, out: Outcome)
    requires |slots| == |after| == |row.km.keys| && PrevOk(row)
  {
    && (out.Rendered? ==> Stands(env, row, slots, after, arg, out.pieces))
    && (out.Panicked? <==> arg.JsonStar? && env.save && env.timeName !in row.km.keys)
    && (out.JsonError? <==> !out.Panicked? && Unwritable(env, row, slots, after, arg))
  }

  lemma TemplateIs(env: Env, row: Row, seen: bool, parts: seq<Part>)
    requires RowOk(row) && PrevOk(row)
    ensures Stands(env, row, TupleAt(env, row, seen), TupleAt(env, row, true), Template(parts),
        Render(env, row, seen, Template(parts)).pieces)
  {
    var texts := JoinedIs(env, row, TupleAt(env, row, seen), parts);
  }

  lemma PairsStarIs(env: Env, row: Row, seen: bool)
    requires RowOk(row) && PrevOk(row)
    ensures Stands(env, row, TupleAt(env, row, seen), TupleAt(env, row, true), PairsStar,
        Render(env, row, seen, PairsStar).pieces)
  {
    var slots := TupleAt(env, row, seen);
    AllPairs(row, slots);
    FlatAlternates(env, Pairs(row.km.keys, slots));
    var flat := FlatPairs(env, Pairs(row.km.keys, slots));
    assert flat + [] == flat;
  }

  lemma PairsSubsetIs(env: Env, row: Row, seen: bool, cols: seq<string>)
    requires RowOk(row) && PrevOk(row)
    ensures Stands(env, row, TupleAt(env, row, seen), TupleAt(env, row, true), PairsSubset(cols),
        Render(env, row, seen, PairsSubset(cols)).pieces)
  {
    var slots := TupleAt(env, row, seen);
    SomePairs(row, slots, cols);
    FlatAlternates(env, Selected(row.km, slots, cols));
  }

  lemma ColumnsStarIs(env: Env, row: Row, seen: bool)
    requires RowOk(row) && PrevOk(row)
    ensures Stands(env, row, TupleAt(env, row, seen), TupleAt(env, row, true), ColumnsStar,
        Render(env, row, seen, ColumnsStar).pieces)
  {
    var slots := TupleAt(env, row, seen);
    AllPairs(row, slots);
    FirstsAt(Pairs(row.km.keys, slots));
    assert NamesOf(env, Pairs(row.km.keys, slots), Render(env, row, seen, ColumnsStar).pieces);
  }

  lemma DiffIs(env: Env, row: Row, seen: bool, col: string)
    requires RowOk(row) && PrevOk(row)
    ensures Stands(env, row, TupleAt(env, row, seen), TupleAt(env, row, true), Diff(col),
        Render(env, row, seen, Diff(col)).pieces)
  {
    LookupHas(row.km, TupleAt(env, row, seen), col);
    PrevIs(row, col);
  }

  /** The pairs the argument is to write as JSON cannot be. */
  ghost predicate Unwritable(env: Env, row: Row, slots: Slots, after: Slots, arg: Arg)
    requires |slots| == |after| == |row.km.keys|
  {
    || (arg.JsonStar? && exists pairs :: ListsPairs(pairs, row.km.keys, after) && env.json(pairs).None?)
    || (arg.JsonSubset? && exists pairs :: SubsetPairs(row, slots, arg.cols, pairs) && env.json(pairs).None?)
  }

  lemma JsonStarIs(env: Env, row: Row, seen: bool)
    requires RowOk(row) && PrevOk(row)
    ensures OutcomeIs(env, row, TupleAt(env, row, seen), TupleAt(env, row, true), JsonStar,
        Render(env, row, seen, JsonStar))
  {
    var after := TupleAt(env, row, true);
    var pairs := Pairs(row.km.keys, after);
    LookupHas(row.km, row.slots, env.timeName);
    AllPairs(row, after);
    forall other | ListsPairs(other, row.km.keys, after) ensures other == pairs {
      ListedUnique(other, pairs, row.km.keys, after);
    }
    assert env.json(pairs).Some? ==> JsonOf(env, pairs, [env.json(pairs).value]);
  }

  lemma JsonSubsetIs(env: Env, row: Row, seen: bool, cols: seq<string>)
    requires RowOk(row) && PrevOk(row)
    ensures OutcomeIs(env, row, TupleAt(env, row, seen), TupleAt(env, row, true), JsonSubset(cols),
        Render(env, row, seen, JsonSubset(cols)))
  {
    var slots := TupleAt(env, row, seen);
    var pairs := Selected(row.km, slots, cols);
    SomePairs(row, slots, cols);
    forall other | SubsetPairs(row, slots, cols, other) ensures other == pairs {
      SubsetUnique(row, slots, cols, other, pairs);
    }
    assert env.json(pairs).Some? ==> JsonOf(env, pairs, [env.json(pairs).value]);
  }

  /** A listing leaves no choice. */
  lemma ListedUnique(a: seq<(string, Value)>, b: seq<(string, Value)>, names: seq<string>, s: seq<Option<Value>>)
    requires |s| == |names| && ListsPairs(a, names, s) && ListsPairs(b, names, s)
    ensures a == b
  {
    var idx :| Positions(s, idx) && PairsAt(a, names, s, idx);
    var idx' :| Positions(s, idx') && PairsAt(b, names, s, idx');
    PositionsUnique(s, idx, idx');
    forall i | 0 <= i < |a| ensures a[i] == b[i] {
      assert PairAt(a, names, s, idx, i) && PairAt(b, names, s, idx, i);
    }
  }

  lemma SubsetUnique(row: Row, slots: Slots, cols: seq<string>, a: seq<(string, Value)>, b: seq<(string, Value)>)
    requires |slots| == |row.km.keys| && SubsetPairs(row, slots, cols, a) && SubsetPairs(row, slots, cols, b)
    ensures a == b
  {
    var vs :| ValuesOf(row.km.keys, slots, cols, vs) && ListsPairs(a, cols, vs);
    var ws :| ValuesOf(row.km.keys, slots, cols, ws) && ListsPairs(b, cols, ws);
    forall i | 0 <= i < |cols| ensures vs[i] == ws[i] {
      HasUnique(row.km.keys, slots, cols[i], vs[i], ws[i]);
    }
    assert vs == ws;
    ListedUnique(a, b, cols, vs);
  }

  lemma {:induction false} PositionsUnique(s: seq<Option<Value>>, a: seq<nat>, b: seq<nat>)
    requires Positions(s, a) && Positions(s, b)
    ensures a == b
  {
    forall x: nat ensures x in a <==> x in b {
      assert Named(s, a, x) && Named(s, b, x);
    }
    SameListing(a, b);
  }

  lemma {:induction false} SameListing(a: seq<nat>, b: seq<nat>)
    requires Increasing(a) && Increasing(b) && forall x: nat :: x in a <==> x in b
    ensures a == b
  {
    assert a == [] <==> b == [] by {
      if a != [] { assert a[0] in b; }
      if b != [] { assert b[0] in a; }
    }
    if a != [] {
      var m, n := |a| - 1, |b| - 1;
      assert a[m] in b && b[n] in a;
      assert a[m] == b[n];
      forall x: nat ensures x in a[..m] <==> x in b[..n] {
        assert x in a <==> x in a[..m] || x == a[m];
        assert x in b <==> x in b[..n] || x == b[n];
      }
      SameListing(a[..m], b[..n]);
      assert a == a[..m] + [a[m]] && b == b[..n] + [b[n]];
    }
  }

  // ---- the whole command

  ghost function Flattened(parts: seq<seq<string>>): seq<string>
  {
    if parts == [] then [] else Flattened(parts[..|parts| - 1]) + parts[|parts| - 1]
  }

  /** One piece list for each argument; an argument sees the commit time once a `{json:*}` came before it. */
  ghost predicate Spells(env: Env, row: Row, args: seq<Arg>, parts: seq<seq<string>>)
    requires RowOk(row) && PrevOk(row)
  {
    |parts| == |args| && forall k :: 0 <= k < |args| ==> SpellsAt(env, row, args, parts, k)
  }

  ghost predicate SpellsAt(env: Env, row: Row, args: seq<Arg>, parts: seq<seq<string>>, k: nat)
    requires RowOk(row) && PrevOk(row) && k < |args| == |parts|
  {
    exists slots, after :: TupleNow(env, row, SeenIn(args[..k]), slots) && TupleNow(env, row, true, after)
                           && Stands(env, row, slots, after, args[k], parts[k])
  }

  /** When the builder returns a command, it is the name followed by what each argument stands for. */
  lemma CommandIs(env: Env, row: Row, name: string, args: seq<Arg>) returns (parts: seq<seq<string>>)
    requires RowOk(row) && PrevOk(row) && Filled(env, row, name, args).Built?
    ensures Filled(env, row, name, args).args == [name] + Flattened(parts) && Spells(env, row, args, parts)
  {
    assert args[..0] == [] && args[0..] == args && !SeenIn([]) && [name] + Flattened([]) == [name];
    parts := FillSpells(env, row, name, args, 0, [], 1 + EstimateAll(env, row, args));
  }

  lemma {:induction false} FillSpells(env: Env, row: Row, name: string, args: seq<Arg>, k: nat,
      done: seq<seq<string>>, capacity: nat) returns (parts: seq<seq<string>>)
    requires RowOk(row) && PrevOk(row) && k <= |args| && Spells(env, row, args[..k], done)
    requires Fill(env, row, SeenIn(args[..k]), args[k..], [name] + Flattened(done), capacity).Built?
    ensures Spells(env, row, args, parts)
    ensures Fill(env, row, SeenIn(args[..k]), args[k..], [name] + Flattened(done), capacity).args
            == [name] + Flattened(parts)
    decreases |args| - k
  {
    if k == |args| {
      parts := done;
      assert args[..k] == args && args[k..] == [];
    } else {
      var seen := SeenIn(args[..k]);
      var out := Render(env, row, seen, args[k]);
      assert args[k..][0] == args[k] && args[k..][1..] == args[k + 1..];
      RenderedExactly(env, row, seen, args[k]);
      SeenMore(args, k);
      var more := done + [out.pieces];
      assert more[..k] == done;
      assert [name] + Flattened(done) + out.pieces == [name] + Flattened(more);
      SpellsNext(env, row, args, k, done, out.pieces);
      parts := FillSpells(env, row, name, args, k + 1, more, capacity);
    }
  }

  lemma SpellsNext(env: Env, row: Row, args: seq<Arg>, k: nat, done: seq<seq<string>>, pieces: seq<string>)
    requires RowOk(row) && PrevOk(row) && k < |args| && Spells(env, row, args[..k], done)
    requires var seen := SeenIn(args[..k]);
      Stands(env, row, TupleAt(env, row, seen), TupleAt(env, row, true), args[k], pieces)
    ensures Spells(env, row, args[..k + 1], done + [pieces])
  {
    var more, upTo := done + [pieces], args[..k + 1];
    TupleIs(env, row, SeenIn(args[..k]));
    TupleIs(env, row, true);
    forall j | 0 <= j < |upTo| ensures SpellsAt(env, row, upTo, more, j) {
      assert upTo[..j] == args[..j] && upTo[j] == args[j];
      if j < k {
        assert SpellsAt(env, row, args[..k], done, j);
        assert args[..k][..j] == args[..j] && more[j] == done[j];
      }
    }
  }

  /** The first argument that fails decides, if what comes before it fits. */
  lemma {:induction false} FailsAt(env: Env, row: Row, name: string, args: seq<Arg>, k: nat)
    requires RowOk(row) && k < |args| && RenderAll(env, row, false, args[..k]).Rendered?
    requires |RenderAll(env, row, false, args[..k]).pieces| <= EstimateAll(env, row, args)
    ensures var out := Render(env, row, SeenIn(args[..k]), args[k]);
      && (out.JsonError? ==> Filled(env, row, name, args) == Failed)
      && (out.Panicked? ==> Filled(env, row, name, args) == Crashed)
  {
    FillPrefix(env, row, false, args[..k], args[k..], [name], 1 + EstimateAll(env, row, args));
    assert args[..k] + args[k..] == args;
    assert args[k..][0] == args[k];
  }

  lemma {:induction false} FillPrefix(env: Env, row: Row, seen: bool, args: seq<Arg>, rest: seq<Arg>,
      written: seq<string>, capacity: nat)
    requires |row.slots| == |row.km.keys| && RenderAll(env, row, seen, args).Rendered?
    requires |written| + |RenderAll(env, row, seen, args).pieces| <= capacity
    ensures Fill(env, row, seen, args + rest, written, capacity)
            == Fill(env, row, seen || SeenIn(args), rest, written + RenderAll(env, row, seen, args).pieces, capacity)
    decreases |args|
  {
    if args == [] {
      assert args + rest == rest && written + [] == written;
    } else {
      assert (args + rest)[1..] == args[1..] + rest;
      var xs, next := Render(env, row, seen, args[0]).pieces, seen || args[0].JsonStar?;
      FillPrefix(env, row, next, args[1..], rest, written + xs, capacity);
      Assoc(written, xs, RenderAll(env, row, next, args[1..]).pieces);
      SeenTail(args);
    }
  }

  lemma Assoc(a: seq<string>, b: seq<string>, c: seq<string>)
    ensures a + b + c == a + (b + c)
  {
  }

  lemma SeenTail(args: seq<Arg>)
    requires args != []
    ensures SeenIn(args) == (args[0].JsonStar? || SeenIn(args[1..]))
  {
    if SeenIn(args[1..]) {
      var i :| 0 <= i < |args| - 1 && args[1..][i].JsonStar?;
      assert args[i + 1].JsonStar?;
    }
    if SeenIn(args) && !args[0].JsonStar? {
      var i :| 0 <= i < |args| && args[i].JsonStar?;
      assert args[1..][i - 1].JsonStar?;
    }
  }
}
