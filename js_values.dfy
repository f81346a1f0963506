/** JavaScript values as JSON.parse produces them, and the few object
    operations the worker applies to them: property lookup, property
    assignment and Object.keys. */
module JsValues {
  import opened Wrappers

  /** A parsed JSON value. An object lists its own properties in creation
      order; JSON.parse never gives an object two properties with the same
      key. Numbers are kept as integers: the worker only asks for their
      typeof. */
  datatype Json =
    | JNull
    | JBool(b: bool)
    | JNum(n: int)
    | JStr(s: string)
    | JArr(items: seq<Json>)
    | JObj(props: seq<(string, Json)>)

  /** `typeof v === 'object' && v !== null`: true of arrays as well as of
      plain objects. */
  predicate IsObject(v: Json) {
    v.JArr? || v.JObj?
  }

  /** The keys of a property list, in creation order. */
  function Keys(props: seq<(string, Json)>): (ks: seq<string>)
    ensures |ks| == |props|
    ensures forall i :: 0 <= i < |props| ==> ks[i] == props[i].0
  {
    if props == [] then [] else [props[0].0] + Keys(props[1..])
  }

  /** `obj[key]` on a plain object; None stands for `undefined`. */
  function Get(props: seq<(string, Json)>, key: string): Option<Json>
  {
    if props == [] then None
    else if props[0].0 == key then Some(props[0].1)
    else Get(props[1..], key)
  }

  /** `v.key` for the property names the worker reads (content, text, type,
      read). Only a plain object can have them: an array's own properties
      are its indices and `length`, and a primitive has none of these. */
  function Prop(v: Json, key: string): Option<Json> {
    if v.JObj? then Get(v.props, key) else None
  }

  /** `obj[key] = v`: an existing property keeps its place and takes the new
      value; a new one is added after all the others. */
  function SetProp(props: seq<(string, Json)>, key: string, v: Json): seq<(string, Json)> {
    if props == [] then [(key, v)]
    else if props[0].0 == key then [(key, v)] + props[1..]
    else [props[0]] + SetProp(props[1..], key, v)
  }

  lemma {:induction false} GetAfterSet(props: seq<(string, Json)>, key: string, v: Json, other: string)
    ensures Get(SetProp(props, key, v), key) == Some(v)
    ensures other != key ==> Get(SetProp(props, key, v), other) == Get(props, other)
  {
    if props != [] && props[0].0 != key {
      GetAfterSet(props[1..], key, v, other);
    }
  }

  lemma {:induction false} KeysAfterSet(props: seq<(string, Json)>, key: string, v: Json)
    ensures Keys(SetProp(props, key, v)) == if key in Keys(props) then Keys(props) else Keys(props) + [key]
  {
    if props != [] && props[0].0 != key {
      KeysAfterSet(props[1..], key, v);
      assert Keys(props) == [props[0].0] + Keys(props[1..]);
    }
  }

  // ---------------------------------------------------------------------
  // Object.keys order: integer-like keys first, in ascending numeric
  // order, then every other key in creation order (section 10.1.11.1 of
  // ECMA-262, OrdinaryOwnPropertyKeys).

  predicate IsDigit(c: char) {
    '0' <= c <= '9'
  }

  predicate AllDigits(s: string) {
    s == [] || (IsDigit(s[0]) && AllDigits(s[1..]))
  }

  /** The decimal value of a string of digits (non-digits count as 0). */
  function NumericValue(s: string): nat {
    if s == [] then 0
    else
      var c := s[|s| - 1];
      10 * NumericValue(s[..|s| - 1]) + (if IsDigit(c) then c as int - '0' as int else 0)
  }

  /** An array index: the canonical decimal form of an integer in
      [0, 2^32 - 2], so no leading zero except "0" itself. */
  predicate IsArrayIndex(k: string) {
    && |k| > 0
    && AllDigits(k)
    && (k[0] != '0' || |k| == 1)
    && NumericValue(k) < 0xFFFF_FFFF
  }

  /** The array-index keys among `ks`, in their order in `ks`. */
  function IndexKeys(ks: seq<string>): seq<string> {
    if ks == [] then []
    else
      var last := ks[|ks| - 1];
      IndexKeys(ks[..|ks| - 1]) + (if IsArrayIndex(last) then [last] else [])
  }

  /** The keys among `ks` that are not array indices, in their order in `ks`. */
  function OtherKeys(ks: seq<string>): seq<string> {
    if ks == [] then []
    else
      var last := ks[|ks| - 1];
      OtherKeys(ks[..|ks| - 1]) + (if IsArrayIndex(last) then [] else [last])
  }

  predicate Ascending(ks: seq<string>) {
    forall i, j :: 0 <= i < j < |ks| ==> NumericValue(ks[i]) <= NumericValue(ks[j])
  }

  predicate AllAtLeast(n: nat, ks: seq<string>) {
    forall x :: x in ks ==> n <= NumericValue(x)
  }

  lemma {:induction false} AscendingCons(first: string, rest: seq<string>)
    requires Ascending(rest) && AllAtLeast(NumericValue(first), rest)
    ensures Ascending([first] + rest)
  {
    var r := [first] + rest;
    forall i, j | 0 <= i < j < |r| ensures NumericValue(r[i]) <= NumericValue(r[j]) {
      assert r[j] == rest[j - 1];
      if i > 0 { assert r[i] == rest[i - 1]; }
    }
  }

  /** What is inserted after the head of a sorted list is no smaller than it. */
  lemma {:induction false} BoundAfterInsert(k: string, sorted: seq<string>, rest: seq<string>)
    requires Ascending(sorted) && |sorted| > 0 && NumericValue(sorted[0]) <= NumericValue(k)
    requires multiset(rest) == multiset(sorted[1..]) + multiset{k}
    ensures AllAtLeast(NumericValue(sorted[0]), rest)
  {
    forall x | x in rest ensures NumericValue(sorted[0]) <= NumericValue(x) {
      assert x in multiset(rest);
      if x != k {
        assert x in multiset(sorted[1..]);
        var j :| 0 <= j < |sorted| - 1 && sorted[1..][j] == x;
        assert sorted[j + 1] == x;
      }
    }
  }

  function InsertByValue(k: string, sorted: seq<string>): (r: seq<string>)
    requires Ascending(sorted)
    ensures multiset(r) == multiset(sorted) + multiset{k}
    ensures Ascending(r)
  {
    if sorted == [] then [k]
    else if NumericValue(k) <= NumericValue(sorted[0]) then
      AscendingCons(k, sorted);
      [k] + sorted
    else
      var rest := InsertByValue(k, sorted[1..]);
      assert sorted == [sorted[0]] + sorted[1..];
      BoundAfterInsert(k, sorted, rest);
      AscendingCons(sorted[0], rest);
      [sorted[0]] + rest
  }

  /** Sorts keys by their numeric value: the result is a permutation of
      `ks` in ascending order. */
  function SortByValue(ks: seq<string>): (r: seq<string>)
    ensures multiset(r) == multiset(ks)
    ensures Ascending(r)
  {
    if ks == [] then []
    else
      assert ks == [ks[0]] + ks[1..];
      InsertByValue(ks[0], SortByValue(ks[1..]))
  }

  /** The order Object.keys gives to an object whose keys were created in
      the order `ks`. */
  function KeyOrder(ks: seq<string>): seq<string> {
    SortByValue(IndexKeys(ks)) + OtherKeys(ks)
  }

  /** Object.keys(obj) for a plain object with the given property list. */
  function OwnKeys(props: seq<(string, Json)>): seq<string> {
    KeyOrder(Keys(props))
  }

  lemma {:induction false} IndexKeysMembers(ks: seq<string>, k: string)
    ensures k in IndexKeys(ks) <==> k in ks && IsArrayIndex(k)
  {
    if ks != [] {
      var init, last := ks[..|ks| - 1], ks[|ks| - 1];
      assert ks == init + [last];
      IndexKeysMembers(init, k);
    }
  }

  lemma {:induction false} OtherKeysMembers(ks: seq<string>, k: string)
    ensures k in OtherKeys(ks) <==> k in ks && !IsArrayIndex(k)
  {
    if ks != [] {
      var init, last := ks[..|ks| - 1], ks[|ks| - 1];
      assert ks == init + [last];
      OtherKeysMembers(init, k);
    }
  }

  /** Object.keys lists every own key, and nothing else. */
  lemma KeyOrderMembers(ks: seq<string>, k: string)
    ensures k in KeyOrder(ks) <==> k in ks
  {
    var indices := IndexKeys(ks);
    var sorted := SortByValue(indices);
    assert k in sorted <==> k in multiset(sorted);
    assert k in indices <==> k in multiset(indices);
    IndexKeysMembers(ks, k);
    OtherKeysMembers(ks, k);
  }

  /** A key that is not an array index leaves IndexKeys as it was and is
      appended by OtherKeys. */
  lemma AppendOtherKey(ks: seq<string>, k: string)
    requires !IsArrayIndex(k)
    ensures IndexKeys(ks + [k]) == IndexKeys(ks)
    ensures OtherKeys(ks + [k]) == OtherKeys(ks) + [k]
  {
    assert (ks + [k])[..|ks|] == ks;
  }

  /** Object.keys lists the array-index keys first, ascending, and every
      other key after them in creation order. */
  lemma KeyOrderShape(ks: seq<string>)
    ensures exists n ::
              && 0 <= n <= |KeyOrder(ks)|
              && Ascending(KeyOrder(ks)[..n])
              && (forall i :: 0 <= i < n ==> IsArrayIndex(KeyOrder(ks)[i]))
              && KeyOrder(ks)[n..] == OtherKeys(ks)
  {
    var indices := IndexKeys(ks);
    var sorted := SortByValue(indices);
    assert KeyOrder(ks)[..|sorted|] == sorted;
    assert KeyOrder(ks)[|sorted|..] == OtherKeys(ks);
    forall i | 0 <= i < |sorted| ensures IsArrayIndex(sorted[i]) {
      assert sorted[i] in multiset(sorted);
      assert sorted[i] in multiset(indices);
      IndexKeysMembers(ks, sorted[i]);
    }
  }

  /** A new key that is not an array index goes last in Object.keys. */
  lemma KeyOrderSnoc(ks: seq<string>, k: string)
    requires !IsArrayIndex(k)
    ensures KeyOrder(ks + [k]) == KeyOrder(ks) + [k]
  {
    AppendOtherKey(ks, k);
  }

  /** Assigning a property whose key is not an array index keeps Object.keys
      as it was, or appends the key when it is new. */
  lemma OwnKeysAfterSet(props: seq<(string, Json)>, key: string, v: Json)
    requires !IsArrayIndex(key)
    ensures OwnKeys(SetProp(props, key, v)) == if key in Keys(props) then OwnKeys(props) else OwnKeys(props) + [key]
  {
    KeysAfterSet(props, key, v);
    if key !in Keys(props) {
      KeyOrderSnoc(Keys(props), key);
    }
  }

  /** An object none of whose keys is an array index lists its keys in
      creation order. */
  lemma {:induction false} KeyOrderWithoutIndices(ks: seq<string>)
    requires forall i :: 0 <= i < |ks| ==> !IsArrayIndex(ks[i])
    ensures KeyOrder(ks) == ks
  {
    if ks != [] {
      var init, last := ks[..|ks| - 1], ks[|ks| - 1];
      assert ks == init + [last];
      KeyOrderWithoutIndices(init);
      KeyOrderSnoc(init, last);
    }
  }
}
