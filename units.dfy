/**
 * Exponent maps over base dimensions (`Dimensions`) and named units built on them (`Unit`).
 *
 * A `Dimensions` object wraps a Python dict from a dimension letter to an integer exponent.
 * Dicts keep insertion order, and both the rendered string and the key order of a product
 * depend on it, so the map is modelled as a sequence of (letter, exponent) pairs whose
 * letters are distinct.
 */
module Units {
  import opened Wrappers

  /** A dict from dimension letter to exponent, in insertion order. */
  type DimMap = seq<(string, int)>

  /** The letters stored in a map. */
  function Keys(d: DimMap): set<string> {
    set i | 0 <= i < |d| :: d[i].0
  }

  /** The dict invariant: no letter is stored twice. */
  ghost predicate DistinctKeys(d: DimMap) {
    forall i, j :: 0 <= i < j < |d| ==> d[i].0 != d[j].0
  }

  /** The invariant `__setitem__` keeps: no stored exponent is zero. */
  predicate NoZero(d: DimMap) {
    forall i :: 0 <= i < |d| ==> d[i].1 != 0
  }

  /** The map as a Python dict compares: the set of stored letters and their exponents. */
  function AsMap(d: DimMap): map<string, int> {
    map k | k in Keys(d) :: Get(d, k)
  }

  /** `Dimensions.__getitem__`: the stored exponent of `k`, or 0 when `k` is not stored. */
  function Get(d: DimMap, k: string): (e: int)
    ensures k !in Keys(d) ==> e == 0
    ensures NoZero(d) ==> (e != 0 <==> k in Keys(d))
  {
    if d == [] then 0
    else if d[0].0 == k then d[0].1
    else
      assert Keys(d) == {d[0].0} + Keys(d[1..]) by { KeysCons(d); }
      Get(d[1..], k)
  }

  lemma {:induction false} KeysCons(d: DimMap)
    requires d != []
    ensures Keys(d) == {d[0].0} + Keys(d[1..])
  {
    forall k | k in Keys(d) ensures k in {d[0].0} + Keys(d[1..]) {
      var i :| 0 <= i < |d| && d[i].0 == k;
      if i > 0 { assert d[1..][i - 1].0 == k; }
    }
    forall k | k in Keys(d[1..]) ensures k in Keys(d) {
      var i :| 0 <= i < |d[1..]| && d[1..][i].0 == k;
      assert d[i + 1].0 == k;
    }
  }

  lemma {:induction false} KeysAppend(x: DimMap, y: DimMap)
    ensures Keys(x + y) == Keys(x) + Keys(y)
  {
    forall k | k in Keys(x + y) ensures k in Keys(x) + Keys(y) {
      var i :| 0 <= i < |x + y| && (x + y)[i].0 == k;
      if i < |x| { assert x[i].0 == k; } else { assert y[i - |x|].0 == k; }
    }
    forall k | k in Keys(x) + Keys(y) ensures k in Keys(x + y) {
      if k in Keys(x) {
        var i :| 0 <= i < |x| && x[i].0 == k;
        assert (x + y)[i].0 == k;
      } else {
        var i :| 0 <= i < |y| && y[i].0 == k;
        assert (x + y)[|x| + i].0 == k;
      }
    }
  }

  /** With distinct letters, reading an exponent finds the one entry stored for it. */
  lemma {:induction false} GetAt(d: DimMap, i: int)
    requires DistinctKeys(d)
    requires 0 <= i < |d|
    ensures Get(d, d[i].0) == d[i].1
  {
    if i > 0 {
      assert d[1..][i - 1] == d[i];
      GetAt(d[1..], i - 1);
    }
  }

  lemma {:induction false} GetAppend(x: DimMap, y: DimMap, k: string)
    ensures Get(x + y, k) == if k in Keys(x) then Get(x, k) else Get(y, k)
  {
    if x == [] {
      assert x + y == y;
    } else {
      assert (x + y)[1..] == x[1..] + y;
      KeysCons(x);
      GetAppend(x[1..], y, k);
    }
  }

  /** The position of the first entry stored for `k`. */
  function IndexOf(d: DimMap, k: string): (i: nat)
    requires k in Keys(d)
    ensures i < |d| && d[i].0 == k
    ensures forall j :: 0 <= j < i ==> d[j].0 != k
  {
    KeysCons(d);
    if d[0].0 == k then 0 else 1 + IndexOf(d[1..], k)
  }

  /** `dict.pop(k, None)`: drop the entry of `k`, if any, keeping the order of the rest. */
  function Remove(d: DimMap, k: string): DimMap {
    if k in Keys(d) then var i := IndexOf(d, k); d[..i] + d[i + 1..] else d
  }

  /** `dict[k] = v`: replace the entry of `k` where it stands, or append a new entry. */
  function Put(d: DimMap, k: string, v: int): DimMap {
    if k in Keys(d) then d[IndexOf(d, k) := (k, v)] else d + [(k, v)]
  }

  /** `Dimensions.__setitem__`: a zero exponent removes the letter, any other value is stored. */
  function Set(d: DimMap, k: string, v: int): (r: DimMap)
    requires DistinctKeys(d)
    ensures DistinctKeys(r)
  {
    if v == 0 then
      RemoveFacts(d, k);
      Remove(d, k)
    else
      PutFacts(d, k, v);
      Put(d, k, v)
  }

  /** What `__setitem__` does to the dict: `k` now reads `v` (0 meaning absent), every other
      letter reads as before, no zero exponent is introduced, and the letter is replaced where
      it stands or appended at the end. */
  lemma {:induction false} SetFacts(d: DimMap, k: string, v: int)
    requires DistinctKeys(d)
    ensures Get(Set(d, k, v), k) == v
    ensures forall k' :: k' != k ==> Get(Set(d, k, v), k') == Get(d, k')
    ensures Keys(Set(d, k, v)) == if v == 0 then Keys(d) - {k} else Keys(d) + {k}
    ensures NoZero(d) ==> NoZero(Set(d, k, v))
    ensures v != 0 && k !in Keys(d) ==> Set(d, k, v) == d + [(k, v)]
    ensures v == 0 && k !in Keys(d) ==> Set(d, k, v) == d
    ensures v != 0 && k in Keys(d) ==>
      |Set(d, k, v)| == |d| && forall j :: 0 <= j < |d| ==> Set(d, k, v)[j] == (if d[j].0 == k then (k, v) else d[j])
  {
    if v == 0 {
      RemoveFacts(d, k);
    } else {
      PutFacts(d, k, v);
    }
  }

  lemma KeysOne(k: string, v: int)
    ensures Keys([(k, v)]) == {k}
  {
    var d: DimMap := [(k, v)];
    assert d[0].0 == k;
  }

  lemma {:induction false} KeysPrefix(d: DimMap, n: int)
    requires 0 <= n <= |d|
    ensures Keys(d[..n]) <= Keys(d)
  {
    forall k | k in Keys(d[..n]) ensures k in Keys(d) {
      var j :| 0 <= j < n && d[..n][j].0 == k;
      assert d[j].0 == k;
    }
  }

  /** In a dict, a letter is not stored before its own entry. */
  lemma {:induction false} NotInPrefix(d: DimMap, i: int)
    requires DistinctKeys(d) && 0 <= i < |d|
    ensures d[i].0 !in Keys(d[..i])
  {
    forall j | 0 <= j < i ensures d[..i][j].0 != d[i].0 {
      assert d[..i][j] == d[j];
    }
  }

  lemma {:induction false} PrefixDistinct(d: DimMap, n: int)
    requires DistinctKeys(d) && 0 <= n <= |d|
    ensures DistinctKeys(d[..n])
  {
  }

  /** Deleting the entry at position i. */
  lemma {:induction false} DeleteShape(d: DimMap, i: int)
    requires 0 <= i < |d|
    ensures |d[..i] + d[i + 1..]| == |d| - 1
    ensures forall j :: 0 <= j < |d| - 1 ==> (d[..i] + d[i + 1..])[j] == if j < i then d[j] else d[j + 1]
  {
  }

  lemma {:induction false} DeleteKeys(d: DimMap, i: int)
    requires DistinctKeys(d) && 0 <= i < |d|
    ensures DistinctKeys(d[..i] + d[i + 1..])
    ensures Keys(d[..i] + d[i + 1..]) == Keys(d) - {d[i].0}
  {
    var r := d[..i] + d[i + 1..];
    DeleteShape(d, i);
    forall k' | k' in Keys(r) ensures k' in Keys(d) - {d[i].0} {
      var j :| 0 <= j < |r| && r[j].0 == k';
      if j < i { assert d[j].0 == k'; } else { assert d[j + 1].0 == k'; }
    }
    forall k' | k' in Keys(d) - {d[i].0} ensures k' in Keys(r) {
      var j :| 0 <= j < |d| && d[j].0 == k';
      if j < i { assert r[j].0 == k'; } else { assert j != i; assert r[j - 1].0 == k'; }
    }
  }

  lemma {:induction false} DeleteGet(d: DimMap, i: int, k': string)
    requires DistinctKeys(d) && 0 <= i < |d| && k' != d[i].0
    ensures Get(d[..i] + d[i + 1..], k') == Get(d, k')
  {
    var r := d[..i] + d[i + 1..];
    DeleteShape(d, i);
    DeleteKeys(d, i);
    if k' in Keys(r) {
      var j :| 0 <= j < |r| && r[j].0 == k';
      var jd := if j < i then j else j + 1;
      assert r[j] == d[jd];
      GetAt(r, j);
      GetAt(d, jd);
    } else {
      assert k' !in Keys(d);
    }
  }

  lemma {:induction false} RemoveFacts(d: DimMap, k: string)
    requires DistinctKeys(d)
    ensures DistinctKeys(Remove(d, k))
    ensures Keys(Remove(d, k)) == Keys(d) - {k}
    ensures Get(Remove(d, k), k) == 0
    ensures forall k' :: k' != k ==> Get(Remove(d, k), k') == Get(d, k')
    ensures NoZero(d) ==> NoZero(Remove(d, k))
  {
    if k in Keys(d) {
      var i := IndexOf(d, k);
      DeleteShape(d, i);
      DeleteKeys(d, i);
      forall k' | k' != k ensures Get(Remove(d, k), k') == Get(d, k') {
        DeleteGet(d, i, k');
      }
    }
  }

  lemma {:induction false} ReplaceFacts(d: DimMap, i: int, v: int)
    requires DistinctKeys(d) && 0 <= i < |d|
    ensures DistinctKeys(d[i := (d[i].0, v)])
    ensures Keys(d[i := (d[i].0, v)]) == Keys(d)
    ensures Get(d[i := (d[i].0, v)], d[i].0) == v
    ensures forall k' :: k' != d[i].0 ==> Get(d[i := (d[i].0, v)], k') == Get(d, k')
  {
    var r := d[i := (d[i].0, v)];
    forall k' | k' in Keys(r) ensures k' in Keys(d) {
      var j :| 0 <= j < |r| && r[j].0 == k';
      assert d[j].0 == k';
    }
    forall k' | k' in Keys(d) ensures k' in Keys(r) {
      var j :| 0 <= j < |d| && d[j].0 == k';
      assert r[j].0 == k';
    }
    GetAt(r, i);
    forall k' | k' != d[i].0 ensures Get(r, k') == Get(d, k') {
      if k' in Keys(d) {
        var j :| 0 <= j < |d| && d[j].0 == k';
        GetAt(r, j);
        GetAt(d, j);
      }
    }
  }

  lemma {:induction false} AppendFacts(d: DimMap, k: string, v: int)
    requires DistinctKeys(d) && k !in Keys(d)
    ensures DistinctKeys(d + [(k, v)])
    ensures Keys(d + [(k, v)]) == Keys(d) + {k}
    ensures forall k' :: Get(d + [(k, v)], k') == if k' == k then v else Get(d, k')
  {
    KeysAppend(d, [(k, v)]);
    KeysOne(k, v);
    forall j | 0 <= j < |d| ensures d[j].0 != k {
      assert d[j].0 in Keys(d);
    }
    forall k' ensures Get(d + [(k, v)], k') == if k' == k then v else Get(d, k') {
      GetAppend(d, [(k, v)], k');
    }
  }

  lemma {:induction false} PutFacts(d: DimMap, k: string, v: int)
    requires DistinctKeys(d)
    ensures DistinctKeys(Put(d, k, v))
    ensures Keys(Put(d, k, v)) == Keys(d) + {k}
    ensures Get(Put(d, k, v), k) == v
    ensures forall k' :: k' != k ==> Get(Put(d, k, v), k') == Get(d, k')
    ensures NoZero(d) && v != 0 ==> NoZero(Put(d, k, v))
    ensures k in Keys(d) ==> |Put(d, k, v)| == |d| && forall j :: 0 <= j < |d| ==> Put(d, k, v)[j] == (if d[j].0 == k then (k, v) else d[j])
  {
    if k in Keys(d) {
      var i := IndexOf(d, k);
      ReplaceFacts(d, i, v);
      forall j | 0 <= j < |d| && j != i ensures d[j].0 != k {
        assert i < j || j < i;
      }
    } else {
      AppendFacts(d, k, v);
    }
  }

  // ---------------------------------------------------------------------------------------
  // Products and quotients of exponent maps

  /** Which of `Dimensions.__mul__` and `Dimensions.__truediv__` is meant. */
  datatype Op = Times | Over

  /** The contribution of the right operand's exponent: added for `*`, subtracted for `/`. */
  function Signed(op: Op, e: int): int {
    if op == Times then e else -e
  }

  lemma {:induction false} KeysSnoc(d: DimMap, k: string, v: int)
    ensures Keys(d + [(k, v)]) == Keys(d) + {k}
  {
    KeysAppend(d, [(k, v)]);
    KeysOne(k, v);
  }

  lemma {:induction false} KeysLast(d: DimMap)
    requires d != []
    ensures Keys(d) == Keys(d[..|d| - 1]) + {d[|d| - 1].0}
  {
    assert d == d[..|d| - 1] + [d[|d| - 1]];
    KeysSnoc(d[..|d| - 1], d[|d| - 1].0, d[|d| - 1].1);
  }

  /** First loop of `__mul__`/`__truediv__`: the left operand's letters, in its order, with the
      combined exponent, skipping those whose combined exponent is zero. */
  function Own(a: DimMap, b: DimMap, op: Op): DimMap {
    if a == [] then []
    else
      var k := a[|a| - 1].0;
      var v := a[|a| - 1].1 + Signed(op, Get(b, k));
      var prefix := Own(a[..|a| - 1], b, op);
      if v == 0 then prefix else prefix + [(k, v)]
  }

  /** The first loop only stores letters of the left operand, and never a zero exponent. */
  lemma {:induction false} OwnKeys(a: DimMap, b: DimMap, op: Op)
    ensures Keys(Own(a, b, op)) <= Keys(a)
    ensures NoZero(Own(a, b, op))
  {
    if a != [] {
      var n := |a| - 1;
      var k := a[n].0;
      var v := a[n].1 + Signed(op, Get(b, k));
      OwnKeys(a[..n], b, op);
      KeysLast(a);
      if v != 0 {
        KeysSnoc(Own(a[..n], b, op), k, v);
      }
    }
  }

  /** Second loop: the right operand's letters the left one lacks, in the right operand's order,
      with their (negated, for `/`) exponent, skipping zero exponents. */
  function Extra(a: DimMap, b: DimMap, op: Op): DimMap {
    if b == [] then []
    else
      var k := b[|b| - 1].0;
      var v := Signed(op, b[|b| - 1].1);
      var prefix := Extra(a, b[..|b| - 1], op);
      if k in Keys(a) || v == 0 then prefix else prefix + [(k, v)]
  }

  /** The second loop only stores letters of the right operand that the left one lacks, and
      never a zero exponent. */
  lemma {:induction false} ExtraKeys(a: DimMap, b: DimMap, op: Op)
    ensures Keys(Extra(a, b, op)) <= Keys(b)
    ensures Keys(Extra(a, b, op)) !! Keys(a)
    ensures NoZero(Extra(a, b, op))
  {
    if b != [] {
      var n := |b| - 1;
      var k := b[n].0;
      var v := Signed(op, b[n].1);
      ExtraKeys(a, b[..n], op);
      KeysLast(b);
      if !(k in Keys(a) || v == 0) {
        KeysSnoc(Extra(a, b[..n], op), k, v);
      }
    }
  }

  /** The map `a * b` (op = Times) or `a / b` (op = Over) builds, entry order included. */
  function Combine(a: DimMap, b: DimMap, op: Op): DimMap {
    Own(a, b, op) + Extra(a, b, op)
  }

  function Product(a: DimMap, b: DimMap): DimMap {
    Combine(a, b, Times)
  }

  function Quotient(a: DimMap, b: DimMap): DimMap {
    Combine(a, b, Over)
  }

  lemma {:induction false} OwnDistinct(a: DimMap, b: DimMap, op: Op)
    requires DistinctKeys(a)
    ensures DistinctKeys(Own(a, b, op))
  {
    if a != [] {
      var n := |a| - 1;
      PrefixDistinct(a, n);
      OwnDistinct(a[..n], b, op);
      OwnKeys(a[..n], b, op);
      NotInPrefix(a, n);
      var v := a[n].1 + Signed(op, Get(b, a[n].0));
      if v != 0 {
        AppendFacts(Own(a[..n], b, op), a[n].0, v);
      }
    }
  }

  lemma {:induction false} ExtraDistinct(a: DimMap, b: DimMap, op: Op)
    requires DistinctKeys(b)
    ensures DistinctKeys(Extra(a, b, op))
  {
    if b != [] {
      var n := |b| - 1;
      PrefixDistinct(b, n);
      ExtraDistinct(a, b[..n], op);
      ExtraKeys(a, b[..n], op);
      NotInPrefix(b, n);
      var v := Signed(op, b[n].1);
      if !(b[n].0 in Keys(a) || v == 0) {
        AppendFacts(Extra(a, b[..n], op), b[n].0, v);
      }
    }
  }

  lemma {:induction false} DistinctAppend(x: DimMap, y: DimMap)
    requires DistinctKeys(x) && DistinctKeys(y) && Keys(x) !! Keys(y)
    ensures DistinctKeys(x + y)
  {
    forall i, j | 0 <= i < j < |x + y| ensures (x + y)[i].0 != (x + y)[j].0 {
      if i < |x| && j >= |x| {
        assert (x + y)[i].0 in Keys(x);
        assert (x + y)[j] == y[j - |x|];
        assert (x + y)[j].0 in Keys(y);
      }
    }
  }

  /** Reading a letter of `d` through its last entry and the rest. */
  lemma {:induction false} GetLast(d: DimMap, k: string)
    requires d != []
    ensures Get(d, k) == if k in Keys(d[..|d| - 1]) then Get(d[..|d| - 1], k) else Get([d[|d| - 1]], k)
  {
    assert d == d[..|d| - 1] + [d[|d| - 1]];
    GetAppend(d[..|d| - 1], [d[|d| - 1]], k);
  }

  /** One unfolding of `Own` at the last entry. */
  lemma {:induction false} OwnLast(a: DimMap, b: DimMap, op: Op)
    requires a != []
    ensures var n := |a| - 1; var v := a[n].1 + Signed(op, Get(b, a[n].0));
      Own(a, b, op) == if v == 0 then Own(a[..n], b, op) else Own(a[..n], b, op) + [(a[n].0, v)]
  {
  }

  lemma {:induction false} OwnGet(a: DimMap, b: DimMap, op: Op, k: string)
    requires DistinctKeys(a)
    ensures Get(Own(a, b, op), k) == if k in Keys(a) then Get(a, k) + Signed(op, Get(b, k)) else 0
  {
    if a != [] {
      var n := |a| - 1;
      PrefixDistinct(a, n);
      OwnGet(a[..n], b, op, k);
      OwnLastGet(a, b, op, k);
      NotInPrefix(a, n);
      KeysLast(a);
      GetLast(a, k);
      if k == a[n].0 {
        assert Get([a[n]], k) == a[n].1;
      }
    }
  }

  /** Reading a letter of `Own` through its last entry. */
  lemma {:induction false} OwnLastGet(a: DimMap, b: DimMap, op: Op, k: string)
    requires DistinctKeys(a) && a != []
    ensures var n := |a| - 1;
      Get(Own(a, b, op), k) == if k == a[n].0 then a[n].1 + Signed(op, Get(b, k)) else Get(Own(a[..n], b, op), k)
  {
    var n := |a| - 1;
    var key := a[n].0;
    var v := a[n].1 + Signed(op, Get(b, key));
    var p := Own(a[..n], b, op);
    PrefixDistinct(a, n);
    NotInPrefix(a, n);
    OwnKeys(a[..n], b, op);
    OwnLast(a, b, op);
    if v != 0 {
      OwnDistinct(a[..n], b, op);
      AppendFacts(p, key, v);
    } else {
      assert key !in Keys(p);
    }
  }

  lemma {:induction false} ExtraGet(a: DimMap, b: DimMap, op: Op, k: string)
    requires DistinctKeys(b)
    ensures Get(Extra(a, b, op), k) == if k in Keys(a) then 0 else Signed(op, Get(b, k))
  {
    if b != [] {
      var n := |b| - 1;
      PrefixDistinct(b, n);
      ExtraGet(a, b[..n], op, k);
      ExtraKeys(a, b[..n], op);
      NotInPrefix(b, n);
      KeysLast(b);
      GetLast(b, k);
      var v := Signed(op, b[n].1);
      if !(b[n].0 in Keys(a) || v == 0) {
        ExtraDistinct(a, b[..n], op);
        AppendFacts(Extra(a, b[..n], op), b[n].0, v);
      }
    }
  }

  /** `a * b` and `a / b` are dicts again, never store a zero exponent, and carry exponent
      a[k] + b[k] (respectively a[k] - b[k]) for every letter k. */
  lemma {:induction false} CombineExponents(a: DimMap, b: DimMap, op: Op)
    requires DistinctKeys(a) && DistinctKeys(b)
    ensures DistinctKeys(Combine(a, b, op))
    ensures NoZero(Combine(a, b, op))
    ensures forall k :: Get(Combine(a, b, op), k) == Get(a, k) + Signed(op, Get(b, k))
  {
    OwnDistinct(a, b, op);
    ExtraDistinct(a, b, op);
    OwnKeys(a, b, op);
    ExtraKeys(a, b, op);
    DistinctAppend(Own(a, b, op), Extra(a, b, op));
    forall k ensures Get(Combine(a, b, op), k) == Get(a, k) + Signed(op, Get(b, k)) {
      GetAppend(Own(a, b, op), Extra(a, b, op), k);
      OwnGet(a, b, op, k);
      ExtraGet(a, b, op, k);
    }
  }

  /** `Dimensions.__mul__`: exponents add letter by letter and no zero exponent is kept. */
  lemma {:induction false} ProductExponents(a: DimMap, b: DimMap)
    requires DistinctKeys(a) && DistinctKeys(b)
    ensures DistinctKeys(Product(a, b)) && NoZero(Product(a, b))
    ensures forall k :: Get(Product(a, b), k) == Get(a, k) + Get(b, k)
  {
    CombineExponents(a, b, Times);
  }

  /** `Dimensions.__truediv__`: exponents subtract letter by letter and no zero exponent is kept. */
  lemma {:induction false} QuotientExponents(a: DimMap, b: DimMap)
    requires DistinctKeys(a) && DistinctKeys(b)
    ensures DistinctKeys(Quotient(a, b)) && NoZero(Quotient(a, b))
    ensures forall k :: Get(Quotient(a, b), k) == Get(a, k) - Get(b, k)
  {
    CombineExponents(a, b, Over);
  }

  /** Two maps without zero exponents that agree on every exponent are equal as dicts. */
  lemma {:induction false} SameExponentsSameMap(x: DimMap, y: DimMap)
    requires NoZero(x) && NoZero(y)
    requires forall k :: Get(x, k) == Get(y, k)
    ensures AsMap(x) == AsMap(y)
  {
    assert Keys(x) == Keys(y) by {
      forall k ensures k in Keys(x) <==> k in Keys(y) {
        assert Get(x, k) == Get(y, k);
      }
    }
  }

  /** Ignoring entry order, `a * b` equals `b * a`. */
  lemma {:induction false} ProductCommutes(a: DimMap, b: DimMap)
    requires DistinctKeys(a) && DistinctKeys(b)
    ensures AsMap(Product(a, b)) == AsMap(Product(b, a))
  {
    ProductExponents(a, b);
    ProductExponents(b, a);
    SameExponentsSameMap(Product(a, b), Product(b, a));
  }

  /** Ignoring entry order, `(a * b) / b` gives back `a` when `a` stores no zero exponent. */
  lemma {:induction false} QuotientCancelsProduct(a: DimMap, b: DimMap)
    requires DistinctKeys(a) && DistinctKeys(b) && NoZero(a)
    ensures AsMap(Quotient(Product(a, b), b)) == AsMap(a)
  {
    ProductExponents(a, b);
    QuotientExponents(Product(a, b), b);
    SameExponentsSameMap(Quotient(Product(a, b), b), a);
  }

  /** `d / d` is the empty, dimensionless map, whatever `d` holds. */
  lemma {:induction false} SelfQuotientEmpty(d: DimMap)
    requires DistinctKeys(d)
    ensures Quotient(d, d) == []
  {
    OwnSelfEmpty(d, d);
    ExtraSelfEmpty(d, d);
  }

  lemma {:induction false} OwnSelfEmpty(a: DimMap, d: DimMap)
    requires DistinctKeys(d)
    requires |a| <= |d| && a == d[..|a|]
    ensures Own(a, d, Over) == []
  {
    if a != [] {
      var n := |a| - 1;
      assert a[..n] == d[..n];
      OwnSelfEmpty(a[..n], d);
      GetAt(d, n);
    }
  }

  lemma {:induction false} ExtraSelfEmpty(d: DimMap, b: DimMap)
    requires |b| <= |d| && b == d[..|b|]
    ensures Extra(d, b, Over) == []
  {
    if b != [] {
      var n := |b| - 1;
      assert b[..n] == d[..n];
      ExtraSelfEmpty(d, b[..n]);
      assert d[n].0 in Keys(d);
    }
  }

  /** When the operands share no letter, `a * b` is `a`'s entries followed by `b`'s: the order
      of the product is the left operand's order, then the right operand's. */
  lemma {:induction false} DisjointProductConcatenates(a: DimMap, b: DimMap)
    requires NoZero(a) && NoZero(b) && Keys(a) !! Keys(b)
    ensures Product(a, b) == a + b
  {
    OwnDisjoint(a, b, Times);
    ExtraDisjoint(a, b);
  }

  lemma {:induction false} OwnDisjoint(a: DimMap, b: DimMap, op: Op)
    requires NoZero(a) && Keys(a) !! Keys(b)
    ensures Own(a, b, op) == a
  {
    if a != [] {
      var n := |a| - 1;
      var a' := a[..n];
      KeysPrefix(a, n);
      assert NoZero(a') by {
        forall j | 0 <= j < n ensures a'[j].1 != 0 {
          assert a'[j] == a[j];
        }
      }
      assert a[n].0 in Keys(a);
      calc {
        Own(a, b, op);
        { OwnLast(a, b, op); assert Get(b, a[n].0) == 0; }
        Own(a', b, op) + [(a[n].0, a[n].1)];
        { OwnDisjoint(a', b, op); }
        a' + [a[n]];
        { assert a == a' + [a[n]]; }
        a;
      }
    }
  }

  lemma {:induction false} ExtraDisjoint(a: DimMap, b: DimMap)
    requires NoZero(b) && Keys(a) !! Keys(b)
    ensures Extra(a, b, Times) == b
  {
    if b != [] {
      var n := |b| - 1;
      var b' := b[..n];
      KeysPrefix(b, n);
      assert NoZero(b') by {
        forall j | 0 <= j < n ensures b'[j].1 != 0 {
          assert b'[j] == b[j];
        }
      }
      assert b[n].0 in Keys(b);
      calc {
        Extra(a, b, Times);
        { ExtraLast(a, b, Times); }
        Extra(a, b', Times) + [(b[n].0, b[n].1)];
        { ExtraDisjoint(a, b'); }
        b' + [b[n]];
        { assert b == b' + [b[n]]; }
        b;
      }
    }
  }

  /** One unfolding of `Extra` at the last entry. */
  lemma {:induction false} ExtraLast(a: DimMap, b: DimMap, op: Op)
    requires b != []
    ensures var n := |b| - 1; var v := Signed(op, b[n].1);
      Extra(a, b, op) == if b[n].0 in Keys(a) || v == 0 then Extra(a, b[..n], op) else Extra(a, b[..n], op) + [(b[n].0, v)]
  {
  }

  /** A map that ends with one letter `k`, combined with the single entry `{k: y}`: every
      other letter passes through unchanged and `k` takes the combined exponent, or is dropped
      when that is zero. */
  lemma {:induction false} CombineLastLetter(d: DimMap, k: string, x: int, y: int, op: Op)
    requires NoZero(d) && k !in Keys(d)
    ensures var v := x + Signed(op, y);
      Combine(d + [(k, x)], [(k, y)], op) == if v == 0 then d else d + [(k, v)]
  {
    var a := d + [(k, x)];
    var b := [(k, y)];
    var v := x + Signed(op, y);
    assert Get(b, k) == y;
    assert Keys(b) == {k};
    OwnSnoc(d, (k, x), b, op);
    OwnDisjoint(d, b, op);
    assert Own(a, b, op) == if v == 0 then d else d + [(k, v)];
    assert b[..0] == [];
    assert k in Keys(a) by { assert a[|d|].0 == k; }
    assert Extra(a, b, op) == Extra(a, [], op) == [];
    assert Combine(a, b, op) == Own(a, b, op) + [];
  }

  /** One pass of the first loop of `__mul__`/`__truediv__`. */
  lemma {:induction false} OwnStep(a: DimMap, b: DimMap, op: Op, i: int)
    requires DistinctKeys(a) && 0 <= i < |a|
    ensures DistinctKeys(Own(a[..i], b, op))
    ensures Own(a[..i + 1], b, op) == Set(Own(a[..i], b, op), a[i].0, Get(a, a[i].0) + Signed(op, Get(b, a[i].0)))
  {
    PrefixDistinct(a, i);
    OwnDistinct(a[..i], b, op);
    GetAt(a, i);
    NotInPrefix(a, i);
    OwnGrows(a[..i], a[i], b, op);
    assert a[..i + 1] == a[..i] + [a[i]];
  }

  /** Appending a letter that the prefix lacks sets it in the prefix's result. */
  lemma {:induction false} OwnGrows(p: DimMap, e: (string, int), b: DimMap, op: Op)
    requires DistinctKeys(Own(p, b, op)) && e.0 !in Keys(p)
    ensures Own(p + [e], b, op) == Set(Own(p, b, op), e.0, e.1 + Signed(op, Get(b, e.0)))
  {
    var o := Own(p, b, op);
    var v := e.1 + Signed(op, Get(b, e.0));
    OwnKeys(p, b, op);
    calc {
      Own(p + [e], b, op);
      { OwnSnoc(p, e, b, op); }
      if v == 0 then o else o + [(e.0, v)];
      { SetAbsent(o, e.0, v); }
      Set(o, e.0, v);
    }
  }

  /** One unfolding of `Own` at an appended letter. */
  lemma {:induction false} OwnSnoc(p: DimMap, e: (string, int), b: DimMap, op: Op)
    ensures var v := e.1 + Signed(op, Get(b, e.0));
      Own(p + [e], b, op) == if v == 0 then Own(p, b, op) else Own(p, b, op) + [(e.0, v)]
  {
    assert (p + [e])[..|p|] == p;
  }

  /** Setting a letter that is not stored appends it, or changes nothing for exponent 0. */
  lemma {:induction false} SetAbsent(d: DimMap, k: string, v: int)
    requires DistinctKeys(d) && k !in Keys(d)
    ensures Set(d, k, v) == if v == 0 then d else d + [(k, v)]
  {
  }

  /** One pass of the second loop of `__mul__`/`__truediv__`. */
  lemma {:induction false} ExtraStep(a: DimMap, b: DimMap, op: Op, j: int)
    requires DistinctKeys(a) && DistinctKeys(b) && 0 <= j < |b|
    ensures DistinctKeys(Own(a, b, op) + Extra(a, b[..j], op))
    ensures Own(a, b, op) + Extra(a, b[..j + 1], op) ==
      if b[j].0 in Keys(a) then Own(a, b, op) + Extra(a, b[..j], op)
      else Set(Own(a, b, op) + Extra(a, b[..j], op), b[j].0, Signed(op, Get(b, b[j].0)))
  {
    var x := Own(a, b, op);
    var y := Extra(a, b[..j], op);
    var k := b[j].0;
    var v := Signed(op, b[j].1);
    PrefixDistinct(b, j);
    OwnDistinct(a, b, op);
    ExtraDistinct(a, b[..j], op);
    OwnKeys(a, b, op);
    ExtraKeys(a, b[..j], op);
    DistinctAppend(x, y);
    assert b[..j + 1][..j] == b[..j] && b[..j + 1][j] == b[j];
    assert Extra(a, b[..j + 1], op) == if k in Keys(a) || v == 0 then y else y + [(k, v)];
    if k !in Keys(a) {
      GetAt(b, j);
      NotInPrefix(b, j);
      KeysAppend(x, y);
      assert k !in Keys(x + y);
      if v != 0 {
        assert (x + y) + [(k, v)] == x + (y + [(k, v)]);
      }
    }
  }

  // ---------------------------------------------------------------------------------------
  // Rendering

  function DigitChar(n: nat): (c: char)
    requires n < 10
    ensures '0' <= c <= '9'
    ensures c as int - '0' as int == n
  {
    ('0' as int + n) as char
  }

  /** The number a string of decimal digits denotes, most significant digit first. */
  function DigitsValue(s: string): nat
    requires forall i :: 0 <= i < |s| ==> '0' <= s[i] <= '9'
  {
    if s == [] then 0 else DigitsValue(s[..|s| - 1]) * 10 + (s[|s| - 1] as int - '0' as int)
  }

  /** Python's `str` of a non-negative int: the decimal digits of `n`, without leading zeros. */
  function NatToString(n: nat): (s: string)
    ensures |s| >= 1
    ensures forall i :: 0 <= i < |s| ==> '0' <= s[i] <= '9'
    ensures DigitsValue(s) == n
    ensures s[0] == '0' ==> n == 0
  {
    if n < 10 then [DigitChar(n)]
    else
      var t := NatToString(n / 10) + [DigitChar(n % 10)];
      assert t[..|t| - 1] == NatToString(n / 10);
      t
  }

  /** Python's `str` of an int. */
  function IntToString(i: int): string {
    if i < 0 then "-" + NatToString(-i) else NatToString(i)
  }

  /** One entry as `__str__` writes it: the bare letter for exponent 1, else `letter^exp`. */
  function Part(k: string, e: int): string {
    if e == 1 then k else k + "^" + IntToString(e)
  }

  function Parts(d: DimMap): seq<string> {
    seq(|d|, i requires 0 <= i < |d| => Part(d[i].0, d[i].1))
  }

  lemma {:induction false} PartsStep(d: DimMap, i: int)
    requires 0 <= i < |d|
    ensures Parts(d[..i + 1]) == Parts(d[..i]) + [Part(d[i].0, d[i].1)]
  {
    var longer := Parts(d[..i + 1]);
    var shorter := Parts(d[..i]);
    forall j | 0 <= j < i + 1 ensures longer[j] == (shorter + [Part(d[i].0, d[i].1)])[j] {
      assert d[..i + 1][j] == d[j];
      if j < i {
        assert d[..i][j] == d[j];
      }
    }
  }

  /** `"*".join(parts)` for a non-empty list. */
  function Join(parts: seq<string>): string
    requires parts != []
  {
    if |parts| == 1 then parts[0] else parts[0] + "*" + Join(parts[1..])
  }

  /** `Dimensions.__str__`. */
  function DimString(d: DimMap): string {
    if d == [] then "dimensionless" else Join(Parts(d))
  }

  /** The rendering of a non-empty map starts with the first stored letter. */
  lemma {:induction false} DimStringStartsWithFirstLetter(d: DimMap)
    requires d != [] && d[0].0 != ""
    ensures DimString(d) != "" && DimString(d)[0] == d[0].0[0]
  {
    var ps := Parts(d);
    assert ps[0] == Part(d[0].0, d[0].1);
    if |ps| > 1 {
      assert Join(ps) == ps[0] + "*" + Join(ps[1..]);
    }
  }

  /** The seven base letters. */
  const BaseLetters: set<string> := {"L", "M", "T", "I", "\U{0398}", "N", "J"}

  /** Over the base letters, `str` says "dimensionless" exactly for the empty map. */
  lemma {:induction false} DimensionlessStringIffEmpty(d: DimMap)
    requires forall i :: 0 <= i < |d| ==> d[i].0 in BaseLetters
    ensures DimString(d) == "dimensionless" <==> d == []
  {
    if d != [] {
      assert d[0].0 in BaseLetters;
      DimStringStartsWithFirstLetter(d);
      assert "dimensionless"[0] == 'd';
    }
  }

  lemma MassFlowRateString()
    ensures DimString([("M", 1), ("T", -1)]) == "M*T^-1"
  {
    var d: DimMap := [("M", 1), ("T", -1)];
    assert IntToString(-1) == "-1";
    assert Part("T", -1) == "T^-1";
    assert Parts(d) == [Part("M", 1), Part("T", -1)];
  }

  lemma VoltageString()
    ensures DimString([("M", 1), ("L", 2), ("T", -3), ("I", -1)]) == "M*L^2*T^-3*I^-1"
  {
    VoltageParts();
    VoltageJoin();
  }

  lemma VoltageParts()
    ensures Parts([("M", 1), ("L", 2), ("T", -3), ("I", -1)]) == ["M", "L^2", "T^-3", "I^-1"]
  {
    assert IntToString(2) == "2";
    assert IntToString(-3) == "-3";
    assert IntToString(-1) == "-1";
    assert Part("L", 2) == "L^2" && Part("T", -3) == "T^-3" && Part("I", -1) == "I^-1";
  }

  lemma VoltageJoin()
    ensures Join(["M", "L^2", "T^-3", "I^-1"]) == "M*L^2*T^-3*I^-1"
  {
    var ps := ["M", "L^2", "T^-3", "I^-1"];
    assert ps[1..] == ["L^2", "T^-3", "I^-1"] && ps[2..] == ["T^-3", "I^-1"] && ps[3..] == ["I^-1"];
    assert Join(ps[2..]) == "T^-3*I^-1";
    assert Join(ps[1..]) == "L^2*T^-3*I^-1";
  }

  // ---------------------------------------------------------------------------------------
  // The mutable Dimensions object

  /** A `Dimensions` object: its dict is updated in place by `__setitem__`. */
  class Dimensions {
    var entries: DimMap

    ghost predicate Valid()
      reads this
    {
      DistinctKeys(entries)
    }

    /** `Dimensions(d)` keeps the given dict as it is (zero exponents included). */
    constructor (initial: DimMap)
      requires DistinctKeys(initial)
      ensures Valid() && entries == initial
    {
      entries := initial;
    }

    /** `d[k] = v`. */
    method SetItem(k: string, v: int)
      requires Valid()
      modifies this
      ensures Valid()
      ensures entries == Set(old(entries), k, v)
    {
      entries := Set(entries, k, v);
    }

    /** `__mul__` and `__truediv__`: a fresh object filled by two loops through the setter. */
    method Combined(other: Dimensions, op: Op) returns (result: Dimensions)
      requires Valid() && other.Valid()
      ensures fresh(result) && result.Valid()
      ensures result.entries == Combine(entries, other.entries, op)
    {
      var a, b := entries, other.entries;
      result := new Dimensions([]);
      result.FillOwn(a, b, op);
      result.FillExtra(a, b, op);
    }

    /** The first loop: every letter of the left operand, with its combined exponent. */
    method FillOwn(a: DimMap, b: DimMap, op: Op)
      requires entries == [] && DistinctKeys(a)
      modifies this
      ensures Valid() && entries == Own(a, b, op)
    {
      for i := 0 to |a|
        invariant Valid()
        invariant entries == Own(a[..i], b, op)
      {
        var dim := a[i].0;
        OwnStep(a, b, op, i);
        SetItem(dim, Get(a, dim) + Signed(op, Get(b, dim)));
      }
      assert a[..|a|] == a;
    }

    /** The second loop: the letters only the right operand has. */
    method FillExtra(a: DimMap, b: DimMap, op: Op)
      requires entries == Own(a, b, op) && DistinctKeys(a) && DistinctKeys(b)
      modifies this
      ensures Valid() && entries == Own(a, b, op) + Extra(a, b, op)
    {
      OwnDistinct(a, b, op);
      assert b[..0] == [];
      assert entries == Own(a, b, op) + Extra(a, b[..0], op);
      for j := 0 to |b|
        invariant Valid()
        invariant entries == Own(a, b, op) + Extra(a, b[..j], op)
      {
        var dim := b[j].0;
        ExtraStep(a, b, op, j);
        if dim !in Keys(a) {
          SetItem(dim, Signed(op, Get(b, dim)));
        }
      }
      assert b[..|b|] == b;
    }

    method Multiply(other: Dimensions) returns (result: Dimensions)
      requires Valid() && other.Valid()
      ensures fresh(result) && result.Valid()
      ensures result.entries == Product(entries, other.entries)
    {
      result := Combined(other, Times);
    }

    method Divide(other: Dimensions) returns (result: Dimensions)
      requires Valid() && other.Valid()
      ensures fresh(result) && result.Valid()
      ensures result.entries == Quotient(entries, other.entries)
    {
      result := Combined(other, Over);
    }

    /** `__str__`: a loop collects the parts, which are then joined with "*". */
    method ToString() returns (s: string)
      ensures s == DimString(entries)
    {
      var parts: seq<string> := [];
      for i := 0 to |entries|
        invariant parts == Parts(entries[..i])
      {
        var (dim, exp) := entries[i];
        PartsStep(entries, i);
        if exp == 1 {
          parts := parts + [dim];
        } else {
          parts := parts + [dim + "^" + IntToString(exp)];
        }
      }
      assert entries[..|entries|] == entries;
      s := if parts == [] then "dimensionless" else Join(parts);
    }
  }

  // ---------------------------------------------------------------------------------------
  // Units

  /** A unit: display name, symbol and exponent map. */
  datatype Unit = Unit(name: string, symbol: string, dims: DimMap)

  /** The right operand of a unit operation, which Python does not constrain to be a Unit. */
  datatype UnitOperand = UnitArg(unit: Unit) | NonUnit

  /** Well-formed units hold a dict. */
  ghost predicate ValidUnit(u: Unit) {
    DistinctKeys(u.dims)
  }

  /** `Unit.__mul__`. */
  function Multiply(u: Unit, other: UnitOperand): (r: Result<Unit>)
    ensures r.Failure? <==> other.NonUnit?
    ensures other.NonUnit? ==> r.error == TypeError("Can only multiply by another Unit.")
    ensures other.UnitArg? ==> r.value.name == u.name + "*" + other.unit.name
    ensures other.UnitArg? ==> r.value.symbol == u.symbol + "*" + other.unit.symbol
    ensures other.UnitArg? ==> r.value.dims == Product(u.dims, other.unit.dims)
    ensures other.UnitArg? && ValidUnit(u) && ValidUnit(other.unit) ==>
      ValidUnit(r.value) && NoZero(r.value.dims) &&
      forall k :: Get(r.value.dims, k) == Get(u.dims, k) + Get(other.unit.dims, k)
  {
    match other
    case NonUnit => Failure(TypeError("Can only multiply by another Unit."))
    case UnitArg(v) =>
      assert ValidUnit(u) && ValidUnit(v) ==>
        (DistinctKeys(Product(u.dims, v.dims)) && NoZero(Product(u.dims, v.dims)) &&
         forall k :: Get(Product(u.dims, v.dims), k) == Get(u.dims, k) + Get(v.dims, k)) by {
        if ValidUnit(u) && ValidUnit(v) { ProductExponents(u.dims, v.dims); }
      }
      Success(Unit(u.name + "*" + v.name, u.symbol + "*" + v.symbol, Product(u.dims, v.dims)))
  }

  /** `Unit.__truediv__` as written: the name is joined with "*" as for a product. */
  function DivideAsWritten(u: Unit, other: UnitOperand): (r: Result<Unit>)
    ensures r.Failure? <==> other.NonUnit?
    ensures other.NonUnit? ==> r.error == TypeError("Can only divide by another Unit.")
    ensures other.UnitArg? ==> r.value.name == u.name + "*" + other.unit.name
    ensures other.UnitArg? ==> r.value.symbol == u.symbol + "/" + other.unit.symbol
    ensures other.UnitArg? ==> r.value.dims == Quotient(u.dims, other.unit.dims)
    ensures other.UnitArg? && ValidUnit(u) && ValidUnit(other.unit) ==>
      ValidUnit(r.value) && NoZero(r.value.dims) &&
      forall k :: Get(r.value.dims, k) == Get(u.dims, k) - Get(other.unit.dims, k)
  {
    match other
    case NonUnit => Failure(TypeError("Can only divide by another Unit."))
    case UnitArg(v) =>
      assert ValidUnit(u) && ValidUnit(v) ==>
        (DistinctKeys(Quotient(u.dims, v.dims)) && NoZero(Quotient(u.dims, v.dims)) &&
         forall k :: Get(Quotient(u.dims, v.dims), k) == Get(u.dims, k) - Get(v.dims, k)) by {
        if ValidUnit(u) && ValidUnit(v) { QuotientExponents(u.dims, v.dims); }
      }
      Success(Unit(u.name + "*" + v.name, u.symbol + "/" + v.symbol, Quotient(u.dims, v.dims)))
  }

  /** As written, the quotient of two units carries the same name as their product. */
  lemma DivideNameCollides(u: Unit, v: Unit)
    ensures DivideAsWritten(u, UnitArg(v)).value.name == Multiply(u, UnitArg(v)).value.name
  {
  }

  /** `Unit.__truediv__` with the name joined by "/", as the symbol is. */
  function Divide(u: Unit, other: UnitOperand): (r: Result<Unit>)
    ensures r.Failure? <==> other.NonUnit?
    ensures other.NonUnit? ==> r.error == TypeError("Can only divide by another Unit.")
    ensures other.UnitArg? ==> r.value.name == u.name + "/" + other.unit.name
    ensures other.UnitArg? ==> r.value.symbol == u.symbol + "/" + other.unit.symbol
    ensures other.UnitArg? ==> r.value.dims == Quotient(u.dims, other.unit.dims)
    ensures other.UnitArg? && ValidUnit(u) && ValidUnit(other.unit) ==>
      ValidUnit(r.value) && NoZero(r.value.dims) &&
      forall k :: Get(r.value.dims, k) == Get(u.dims, k) - Get(other.unit.dims, k)
  {
    match other
    case NonUnit => Failure(TypeError("Can only divide by another Unit."))
    case UnitArg(v) =>
      assert ValidUnit(u) && ValidUnit(v) ==>
        (DistinctKeys(Quotient(u.dims, v.dims)) && NoZero(Quotient(u.dims, v.dims)) &&
         forall k :: Get(Quotient(u.dims, v.dims), k) == Get(u.dims, k) - Get(v.dims, k)) by {
        if ValidUnit(u) && ValidUnit(v) { QuotientExponents(u.dims, v.dims); }
      }
      Success(Unit(u.name + "/" + v.name, u.symbol + "/" + v.symbol, Quotient(u.dims, v.dims)))
  }

  /** With the corrected name, a quotient is never named like the product of the same units. */
  lemma DivideNameDistinct(u: Unit, v: Unit)
    ensures Divide(u, UnitArg(v)).value.name != Multiply(u, UnitArg(v)).value.name
  {
    var q := Divide(u, UnitArg(v)).value.name;
    var p := Multiply(u, UnitArg(v)).value.name;
    assert q[|u.name|] == '/';
    assert p[|u.name|] == '*';
  }

  /** Dimensional compatibility: equal exponent maps. */
  predicate Compatible(u: Unit, v: Unit) {
    AsMap(u.dims) == AsMap(v.dims)
  }

  /** `Unit.is_compatible_with`, which rejects a non-Unit argument. */
  function IsCompatibleWith(u: Unit, other: UnitOperand): (r: Result<bool>)
    ensures other.NonUnit? <==> r.Failure?
    ensures other.NonUnit? ==> r.error.TypeError?
    ensures other.UnitArg? ==> (r.value <==> forall k :: Get(u.dims, k) == Get(other.unit.dims, k) && (k in Keys(u.dims) <==> k in Keys(other.unit.dims)))
  {
    match other
    case NonUnit => Failure(TypeError("Can only compare with another Unit."))
    case UnitArg(v) =>
      var same := Compatible(u, v);
      assert same ==> forall k :: Get(u.dims, k) == Get(v.dims, k) && (k in Keys(u.dims) <==> k in Keys(v.dims)) by {
        if same {
          forall k ensures Get(u.dims, k) == Get(v.dims, k) && (k in Keys(u.dims) <==> k in Keys(v.dims)) {
            assert k in Keys(u.dims) <==> k in AsMap(u.dims);
            assert k in Keys(u.dims) ==> AsMap(u.dims)[k] == Get(u.dims, k);
            assert k in Keys(v.dims) ==> AsMap(v.dims)[k] == Get(v.dims, k);
          }
        }
      }
      Success(same)
  }

  /** Unit equality: same symbol and same exponent map. */
  predicate SameUnit(u: Unit, v: Unit) {
    u.symbol == v.symbol && Compatible(u, v)
  }

  /** `m/s` is compatible with `cm/s`, and speed is not compatible with acceleration. */
  lemma SpeedCompatibility()
    ensures Compatible(Unit("meter/second", "m/s", [("L", 1), ("T", -1)]),
                       Unit("centimeter per second", "cm/s", [("L", 1), ("T", -1)]))
    ensures !Compatible(Unit("meter/second", "m/s", [("L", 1), ("T", -1)]),
                        Unit("meter per second squared", "m/s^2", [("L", 1), ("T", -2)]))
  {
    var speed: DimMap := [("L", 1), ("T", -1)];
    var accel: DimMap := [("L", 1), ("T", -2)];
    assert "T" in Keys(speed) && "T" in Keys(accel) by {
      assert speed[1].0 == "T" && accel[1].0 == "T";
    }
    assert AsMap(speed)["T"] == -1;
    assert AsMap(accel)["T"] == -2;
  }

  // ---------------------------------------------------------------------------------------
  // Unit.__str__

  /** `Unit.symbol_map`: SI unit symbol of each base letter; other letters are kept. */
  function SymbolFor(letter: string): string {
    if letter == "L" then "m"
    else if letter == "T" then "s"
    else if letter == "M" then "kg"
    else if letter == "I" then "A"
    else if letter == "\U{0398}" then "K"
    else if letter == "N" then "mol"
    else if letter == "J" then "cd"
    else letter
  }

  /** First loop of `Unit.__str__`: the plain dict `symbol_parts`, filled in order. */
  function SymbolParts(d: DimMap): DimMap {
    if d == [] then [] else Put(SymbolParts(d[..|d| - 1]), SymbolFor(d[|d| - 1].0), d[|d| - 1].1)
  }

  /** `Unit.__str__`. */
  function UnitString(u: Unit): string {
    var ps := SymbolParts(u.dims);
    if ps == [] then u.symbol else Join(Parts(ps))
  }

  /** Each letter replaced by its symbol, in place. */
  function Renamed(d: DimMap): (r: DimMap)
    ensures |r| == |d|
    ensures forall i :: 0 <= i < |d| ==> r[i] == (SymbolFor(d[i].0), d[i].1)
  {
    seq(|d|, i requires 0 <= i < |d| => (SymbolFor(d[i].0), d[i].1))
  }

  /** When distinct letters map to distinct symbols, `str` lists each stored letter's symbol
      with its exponent, in the map's order; a unit with no dimensions prints its own symbol. */
  lemma {:induction false} UnitStringRenames(u: Unit)
    requires DistinctKeys(u.dims)
    requires forall i, j :: 0 <= i < j < |u.dims| ==> SymbolFor(u.dims[i].0) != SymbolFor(u.dims[j].0)
    ensures UnitString(u) == if u.dims == [] then u.symbol else Join(Parts(Renamed(u.dims)))
  {
    SymbolPartsRenames(u.dims);
  }

  lemma {:induction false} SymbolPartsRenames(d: DimMap)
    requires forall i, j :: 0 <= i < j < |d| ==> SymbolFor(d[i].0) != SymbolFor(d[j].0)
    ensures SymbolParts(d) == Renamed(d)
  {
    if d != [] {
      var d' := d[..|d| - 1];
      SymbolPartsRenames(d');
      var s := SymbolFor(d[|d| - 1].0);
      forall j | 0 <= j < |d'| ensures Renamed(d')[j].0 != s {
        assert d'[j] == d[j];
      }
      assert Renamed(d) == Renamed(d') + [(s, d[|d| - 1].1)];
    }
  }

  /** Two letters with the same symbol ("L" and a raw "m") merge into one part: the later
      exponent wins, at the position of the first. */
  lemma SymbolCollisionMerges()
    ensures SymbolParts([("L", 1), ("m", 2)]) == [("m", 2)]
  {
    var one: DimMap := [("L", 1)];
    var both: DimMap := [("L", 1), ("m", 2)];
    var first := SymbolParts(one);
    assert both[..1] == one;
    assert one[..0] == [];
    assert first == [("m", 1)];
    assert "m" in Keys(first) by { assert first[0].0 == "m"; }
  }

  /** One pass of the first loop of `Unit.__str__`. */
  lemma {:induction false} SymbolPartsStep(d: DimMap, i: int)
    requires 0 <= i < |d|
    ensures SymbolParts(d[..i + 1]) == Put(SymbolParts(d[..i]), SymbolFor(d[i].0), d[i].1)
  {
    assert d[..i + 1][..i] == d[..i];
  }

  /** `Unit.__str__` as a loop over the exponent map, then a loop over the collected parts. */
  method FormatUnit(u: Unit) returns (s: string)
    ensures s == UnitString(u)
  {
    var symbolParts: DimMap := [];
    for i := 0 to |u.dims|
      invariant symbolParts == SymbolParts(u.dims[..i])
    {
      var (dim, exp) := u.dims[i];
      SymbolPartsStep(u.dims, i);
      symbolParts := Put(symbolParts, SymbolFor(dim), exp);
    }
    assert u.dims[..|u.dims|] == u.dims;
    var formatted: seq<string> := [];
    for i := 0 to |symbolParts|
      invariant formatted == Parts(symbolParts[..i])
    {
      var (symbol, exponent) := symbolParts[i];
      PartsStep(symbolParts, i);
      if exponent == 1 {
        formatted := formatted + [symbol];
      } else {
        formatted := formatted + [symbol + "^" + IntToString(exponent)];
      }
    }
    assert symbolParts[..|symbolParts|] == symbolParts;
    s := if formatted == [] then u.symbol else Join(formatted);
  }
}
