/** Row tuples (orderedmap/ordered_map.go, keymap/key_map.go): values in parallel arrays, in the
    order of a shared key map. */
module OrderedMaps {
  import opened WriteQueues

  /** Column values are opaque. */
  type Value = string

  // ---- key maps

  datatype KeyMap = KeyMap(index: map<string, nat>, keys: seq<string>)

  /** Each key leads to its last position. */
  ghost predicate LastPosition(km: KeyMap, n: nat, key: string)
    requires n <= |km.keys|
  {
    if key in km.index then
      && km.index[key] < n && km.keys[km.index[key]] == key
      && forall i :: km.index[key] < i < n ==> km.keys[i] != key
    else forall i :: 0 <= i < n ==> km.keys[i] != key
  }

  ghost predicate Indexed(km: KeyMap)
  {
    forall key {:trigger LastPosition(km, |km.keys|, key)} :: LastPosition(km, |km.keys|, key)
  }

  method NewKeyMap(keys: seq<string>) returns (km: KeyMap)
    ensures Indexed(km) && km.keys == keys
  {
    km := KeyMap(map[], keys);
    for i := 0 to |keys|
      invariant km.keys == keys
      invariant forall key {:trigger LastPosition(km, i, key)} :: LastPosition(km, i, key)
    {
      ghost var before := km;
      km := km.(index := km.index[keys[i] := i]);
      ghost var n := i + 1;
      forall key ensures LastPosition(km, n, key) {
        assert LastPosition(before, i, key);
      }
    }
  }

  function GetIndex(km: KeyMap, key: string): int
  {
    if key in km.index then km.index[key] else -1
  }

  // ---- what a tuple holds

  type Slots = seq<Option<Value>>

  /** Set columns in key order; a key that occurs twice has two slots. */
  function Pairs(keys: seq<string>, slots: Slots): seq<(string, Value)>
    requires |slots| == |keys|
  {
    if slots == [] then []
    else (if slots[0].Some? then [(keys[0], slots[0].value)] else []) + Pairs(keys[1..], slots[1..])
  }

  function Count(slots: Slots): nat
  {
    if slots == [] then 0 else (if slots[0].Some? then 1 else 0) + Count(slots[1..])
  }

  function Lookup(km: KeyMap, slots: Slots, key: string): Option<Value>
  {
    if 0 <= GetIndex(km, key) < |slots| then slots[GetIndex(km, key)] else None
  }

  function WithValue(km: KeyMap, slots: Slots, key: string, v: Value): (r: Slots)
    ensures |r| == |slots|
  {
    if 0 <= GetIndex(km, key) < |slots| then slots[GetIndex(km, key) := Some(v)] else slots
  }

  lemma {:induction false} PairsCount(keys: seq<string>, slots: Slots)
    requires |slots| == |keys|
    ensures |Pairs(keys, slots)| == Count(slots)
  {
    if slots != [] {
      PairsCount(keys[1..], slots[1..]);
    }
  }

  lemma {:induction false} CountAppend(a: Slots, b: Slots)
    ensures Count(a + b) == Count(a) + Count(b)
  {
    if a == [] {
      assert a + b == b;
    } else {
      assert (a + b)[1..] == a[1..] + b;
      CountAppend(a[1..], b);
    }
  }

  lemma CountUpdate(s: Slots, i: nat, v: Value)
    requires i < |s|
    ensures Count(s[i := Some(v)]) == Count(s) + if s[i].Some? then 0 else 1
  {
    var t := s[i := Some(v)];
    assert s == s[..i] + [s[i]] + s[i + 1..] && t == s[..i] + [Some(v)] + s[i + 1..];
    CountAppend(s[..i], [s[i]]);
    CountAppend(s[..i] + [s[i]], s[i + 1..]);
    CountAppend(s[..i], [Some(v)]);
    CountAppend(s[..i] + [Some(v)], s[i + 1..]);
    assert [s[i]][1..] == [] && [Some(v)][1..] == [];
  }

  lemma {:induction false} PairsAppend(keys: seq<string>, slots: Slots, n: nat)
    requires n < |slots| == |keys|
    ensures Pairs(keys[..n + 1], slots[..n + 1])
            == Pairs(keys[..n], slots[..n]) + if slots[n].Some? then [(keys[n], slots[n].value)] else []
    decreases n
  {
    if n > 0 {
      PairsAppend(keys[1..], slots[1..], n - 1);
      assert keys[..n + 1][1..] == keys[1..][..n] && slots[..n + 1][1..] == slots[1..][..n];
      assert keys[..n][1..] == keys[1..][..n - 1] && slots[..n][1..] == slots[1..][..n - 1];
      var head := if slots[0].Some? then [(keys[0], slots[0].value)] else [];
      var last := if slots[n].Some? then [(keys[n], slots[n].value)] else [];
      assert head + (Pairs(keys[..n][1..], slots[..n][1..]) + last) == head + Pairs(keys[..n][1..], slots[..n][1..])
          + last;
    } else {
      assert keys[..1][1..] == [] && slots[..1][1..] == [];
      assert keys[..0] == [] && slots[..0] == [];
    }
  }

  class OrderedMap {
    const keyMap: KeyMap
    const values: array<Value>
    const isSet: array<bool>
    var size: nat

    ghost predicate Shape()
    {
      isSet.Length == values.Length == |keyMap.keys| && Indexed(keyMap)
    }

    ghost function Slots(): (s: Slots)
      requires Shape()
      reads values, isSet
      ensures |s| == |keyMap.keys|
      ensures forall i :: 0 <= i < |s| ==> s[i] == if isSet[i] then Some(values[i]) else None
    {
      SlotsOf(values[..], isSet[..])
    }

    /** The cached size is the number of set slots. */
    ghost predicate Valid()
      reads this, values, isSet
    {
      Shape() && size == Count(Slots())
    }

    constructor (km: KeyMap)
      requires Indexed(km)
      ensures Valid() && keyMap == km && fresh(values) && fresh(isSet)
      ensures forall i :: 0 <= i < |Slots()| ==> Slots()[i] == None
    {
      keyMap, size := km, 0;
      values := new Value[|km.keys|](i => "");
      isSet := new bool[|km.keys|](i => false);
      new;
      CountNone(Slots());
    }

    /** False stands for the panic on an unknown key. */
    method Set(key: string, v: Value) returns (ok: bool)
      requires Valid()
      modifies this, values, isSet
      ensures Valid() && ok == (key in keyMap.keys)
      ensures Slots() == WithValue(keyMap, old(Slots()), key, v)
      ensures ok ==> Lookup(keyMap, Slots(), key) == Some(v)
    {
      assert LastPosition(keyMap, |keyMap.keys|, key);
      var index := GetIndex(keyMap, key);
      if index < 0 {
        return false;
      }
      CountUpdate(Slots(), index, v);
      if !isSet[index] {
        isSet[index] := true;
        size := size + 1;
      }
      values[index] := v;
      ok := true;
      assert Slots() == old(Slots())[index := Some(v)];
    }

    method Get(key: string) returns (r: Option<Value>)
      requires Valid()
      ensures r == Lookup(keyMap, Slots(), key)
    {
      assert LastPosition(keyMap, |keyMap.keys|, key);
      var index := GetIndex(keyMap, key);
      if index < 0 || !isSet[index] {
        return None;
      }
      r := Some(values[index]);
    }

    /** `Iter` yields exactly as many pairs as `Size` says. */
    method Iter() returns (pairs: seq<(string, Value)>)
      requires Valid()
      ensures pairs == Pairs(keyMap.keys, Slots()) && |pairs| == size
    {
      pairs := [];
      ghost var slots := Slots();
      for i := 0 to |keyMap.keys|
        invariant pairs == Pairs(keyMap.keys[..i], slots[..i])
      {
        PairsAppend(keyMap.keys, slots, i);
        if isSet[i] {
          pairs := pairs + [(keyMap.keys[i], values[i])];
        }
      }
      assert keyMap.keys[..|keyMap.keys|] == keyMap.keys && slots[..|slots|] == slots;
      PairsCount(keyMap.keys, slots);
    }

    method Clear()
      requires Valid()
      modifies this, values, isSet
      ensures Valid() && size == 0 && forall i :: 0 <= i < |Slots()| ==> Slots()[i] == None
    {
      for i := 0 to isSet.Length
        invariant forall j :: 0 <= j < i ==> !isSet[j]
      {
        if isSet[i] {
          isSet[i] := false;
          values[i] := "";
        }
      }
      size := 0;
      CountNone(Slots());
    }
  }

  ghost function SlotsOf(values: seq<Value>, isSet: seq<bool>): (s: Slots)
    requires |values| == |isSet|
    ensures |s| == |values| && forall i :: 0 <= i < |s| ==> s[i] == if isSet[i] then Some(values[i]) else None
  {
    seq(|values|, i requires 0 <= i < |values| => if isSet[i] then Some(values[i]) else None)
  }

  lemma {:induction false} CountNone(slots: Slots)
    requires forall i :: 0 <= i < |slots| ==> slots[i] == None
    ensures Count(slots) == 0
  {
    if slots != [] {
      CountNone(slots[1..]);
    }
  }
}
