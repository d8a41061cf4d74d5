/** Form values (`url.Values`) as `Login` uses them: `Set` replaces a key's
    value, `Encode` writes `key=value` pairs sorted by key and joined by `&`.
    Percent-escaping is not part of this model. */
module Forms {

  /** One value per key, in the order the keys were first set. */
  type Values = seq<(string, string)>

  /** Byte-wise (here: character-wise) lexicographic order, as `sort.Strings`. */
  predicate KeyLessOrEqual(a: string, b: string)
  {
    a == [] || (b != [] && (a[0] < b[0] || (a[0] == b[0] && KeyLessOrEqual(a[1..], b[1..]))))
  }

  lemma {:induction false} KeyOrderTotal(a: string, b: string)
    ensures KeyLessOrEqual(a, b) || KeyLessOrEqual(b, a)
  {
    if a != [] && b != [] && a[0] == b[0] {
      KeyOrderTotal(a[1..], b[1..]);
    }
  }

  function Without(v: Values, key: string): (r: Values)
    ensures forall i :: 0 <= i < |r| ==> r[i].0 != key && r[i] in v
    ensures forall p :: p in v && p.0 != key ==> p in r
  {
    if v == [] then []
    else if v[0].0 == key then Without(v[1..], key)
    else [v[0]] + Without(v[1..], key)
  }

  /** `Values.Set`: afterwards `key` has exactly the one value `value`. */
  function SetValue(v: Values, key: string, value: string): (r: Values)
    ensures (key, value) in r
    ensures forall p :: p in r && p.0 == key ==> p.1 == value
    ensures forall p :: p in v && p.0 != key ==> p in r
    ensures forall p :: p in r ==> p in v || p == (key, value)
  {
    Without(v, key) + [(key, value)]
  }

  /** Removing a key that is not there changes nothing. */
  lemma {:induction false} WithoutAbsent(v: Values, key: string)
    requires forall i :: 0 <= i < |v| ==> v[i].0 != key
    ensures Without(v, key) == v
  {
    if v != [] {
      WithoutAbsent(v[1..], key);
      assert v == [v[0]] + v[1..];
    }
  }

  /** Setting a new key appends its pair. */
  lemma SetNewKey(v: Values, key: string, value: string)
    requires forall i :: 0 <= i < |v| ==> v[i].0 != key
    ensures SetValue(v, key, value) == v + [(key, value)]
  {
    WithoutAbsent(v, key);
  }

  predicate SortedByKey(v: Values)
  {
    forall i :: 0 < i < |v| ==> KeyLessOrEqual(v[i - 1].0, v[i].0)
  }

  function Insert(p: (string, string), v: Values): (r: Values)
  {
    if v == [] then [p]
    else if KeyLessOrEqual(p.0, v[0].0) then [p] + v
    else [v[0]] + Insert(p, v[1..])
  }

  function SortByKey(v: Values): Values
  {
    if v == [] then [] else Insert(v[0], SortByKey(v[1..]))
  }

  /** A pair whose key is not above the first key of a sorted list keeps it
      sorted when put in front. */
  lemma SortedCons(x: (string, string), t: Values)
    requires SortedByKey(t)
    requires t != [] ==> KeyLessOrEqual(x.0, t[0].0)
    ensures SortedByKey([x] + t)
  {
    var r := [x] + t;
    assert forall i :: 0 <= i < |t| ==> r[i + 1] == t[i];
  }

  /** Inserting puts the pair in front or keeps the old first pair there. */
  lemma InsertHead(p: (string, string), v: Values)
    ensures Insert(p, v)[0] == p || (v != [] && Insert(p, v)[0] == v[0])
  {
  }

  /** Inserting adds exactly the one pair. */
  lemma {:induction false} InsertPermutes(p: (string, string), v: Values)
    ensures multiset(Insert(p, v)) == multiset(v) + multiset{p}
  {
    if v != [] && !KeyLessOrEqual(p.0, v[0].0) {
      InsertPermutes(p, v[1..]);
      assert v == [v[0]] + v[1..];
    }
  }

  lemma {:induction false} InsertSorted(p: (string, string), v: Values)
    requires SortedByKey(v)
    ensures SortedByKey(Insert(p, v))
  {
    if v == [] {
    } else if KeyLessOrEqual(p.0, v[0].0) {
      SortedCons(p, v);
    } else {
      KeyOrderTotal(p.0, v[0].0);
      var tail := v[1..];
      assert forall i :: 0 <= i < |tail| ==> tail[i] == v[i + 1];
      InsertSorted(p, tail);
      InsertHead(p, tail);
      var t := Insert(p, tail);
      assert Insert(p, v) == [v[0]] + t;
      assert tail != [] ==> tail[0] == v[1];
      SortedCons(v[0], t);
    }
  }

  /** Sorting yields the same pairs in key order. */
  lemma {:induction false} SortByKeyCorrect(v: Values)
    ensures SortedByKey(SortByKey(v))
    ensures multiset(SortByKey(v)) == multiset(v)
  {
    if v != [] {
      SortByKeyCorrect(v[1..]);
      InsertSorted(v[0], SortByKey(v[1..]));
      InsertPermutes(v[0], SortByKey(v[1..]));
      assert v == [v[0]] + v[1..];
    }
  }

  function Join(v: Values): string
  {
    if v == [] then ""
    else if |v| == 1 then v[0].0 + "=" + v[0].1
    else v[0].0 + "=" + v[0].1 + "&" + Join(v[1..])
  }

  /** `Values.Encode`. */
  function Encode(v: Values): string
  {
    Join(SortByKey(v))
  }
}
