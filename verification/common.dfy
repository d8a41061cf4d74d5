/** Small shared vocabulary: optional values, Go-style error values, and
    facts about sequences used as iteration orders and as text buffers. */
module Common {

  /** A Go reference or interface value that may be nil. */
  datatype Option<T> = None | Some(value: T)

  /** A Go `error` value; only its message is observable. */
  datatype Error = Error(message: string)

  /** A value or the error that prevented it. */
  datatype Result<T> = Success(value: T) | Failure(error: Error)

  /** The text of a sequence of writes, in order. */
  function Concat(parts: seq<string>): string
  {
    if parts == [] then "" else Concat(parts[..|parts| - 1]) + parts[|parts| - 1]
  }

  lemma ConcatAppend(parts: seq<string>, s: string)
    ensures Concat(parts + [s]) == Concat(parts) + s
  {
    assert (parts + [s])[..|parts|] == parts;
  }

  /** Concatenation of the parts distributes over splitting the sequence. */
  lemma {:induction false} ConcatSplit(a: seq<string>, b: seq<string>)
    ensures Concat(a + b) == Concat(a) + Concat(b)
  {
    if b != [] {
      var init := b[..|b| - 1];
      assert (a + b)[..|a + b| - 1] == a + init;
      ConcatSplit(a, init);
    } else {
      assert a + b == a;
    }
  }

  // Proof helpers for string concatenation. They state nothing about
  // cloud-paint itself; the renderer's proofs call them.

  /** Proof helper: the text of seven groups written one after another. */
  lemma ConcatSeven(p0: string, p1: string, p2: string, p3: string, p4: string, p5: string, p6: string)
    ensures Concat([p0, p1, p2, p3, p4, p5, p6]) == p0 + p1 + p2 + p3 + p4 + p5 + p6
  {
    ConcatAppend([], p0);
    assert [] + [p0] == [p0];
    ConcatAppend([p0], p1);
    assert [p0] + [p1] == [p0, p1];
    ConcatAppend([p0, p1], p2);
    assert [p0, p1] + [p2] == [p0, p1, p2];
    ConcatAppend([p0, p1, p2], p3);
    assert [p0, p1, p2] + [p3] == [p0, p1, p2, p3];
    ConcatAppend([p0, p1, p2, p3], p4);
    assert [p0, p1, p2, p3] + [p4] == [p0, p1, p2, p3, p4];
    ConcatAppend([p0, p1, p2, p3, p4], p5);
    assert [p0, p1, p2, p3, p4] + [p5] == [p0, p1, p2, p3, p4, p5];
    ConcatAppend([p0, p1, p2, p3, p4, p5], p6);
    assert [p0, p1, p2, p3, p4, p5] + [p6] == [p0, p1, p2, p3, p4, p5, p6];
  }

  /** Proof helper: the text of two groups. */
  lemma ConcatPair(p0: string, p1: string)
    ensures Concat([p0, p1]) == p0 + p1
  {
    ConcatAppend([], p0);
    assert [] + [p0] == [p0];
    ConcatAppend([p0], p1);
    assert [p0] + [p1] == [p0, p1];
  }

  /** Proof helper: regrouping appended text (stated over plain strings, so that callers
      with long literal constants need not unfold them). */
  lemma AppendAssoc(a: string, b: string, c: string)
    ensures a + b + c == a + (b + c)
  {
  }

  /** Proof helper: the empty string appends nothing. */
  lemma AppendEmpty(a: string)
    ensures "" + a == a && a + "" == a
  {
  }

  /** The first part is a prefix of the text and the last part a suffix. */
  lemma {:induction false} ConcatEnds(parts: seq<string>)
    requires |parts| > 0
    ensures |parts[0]| <= |Concat(parts)| && Concat(parts)[..|parts[0]|] == parts[0]
    ensures |parts[|parts| - 1]| <= |Concat(parts)|
    ensures Concat(parts)[|Concat(parts)| - |parts[|parts| - 1]|..] == parts[|parts| - 1]
  {
    ConcatSplit([parts[0]], parts[1..]);
    assert [parts[0]] + parts[1..] == parts;
    assert Concat([parts[0]]) == Concat([]) + parts[0];
  }

  predicate Distinct<T(==)>(s: seq<T>)
  {
    forall i, j :: 0 <= i < j < |s| ==> s[i] != s[j]
  }

  function Elems<T>(s: seq<T>): set<T>
  {
    set x | x in s
  }

  /** `order` lists every key of `keys` exactly once: one possible order in
      which Go's `for ... range` may visit the entries of a map. */
  ghost predicate IsOrderOf<T>(order: seq<T>, keys: set<T>)
  {
    Distinct(order) && Elems(order) == keys
  }

  /** A sequence without repetitions has as many elements as its set. */
  lemma {:induction false} DistinctCard<T>(s: seq<T>)
    requires Distinct(s)
    ensures |Elems(s)| == |s|
  {
    if s != [] {
      var init := s[..|s| - 1];
      var last := s[|s| - 1];
      assert Distinct(init);
      DistinctCard(init);
      assert Elems(s) == Elems(init) + {last};
      assert forall i :: 0 <= i < |init| ==> init[i] == s[i] != last;
    } else {
      assert Elems(s) == {};
    }
  }

  /** A range loop over a map with key set `keys` has visited the keys in
      `order` and has `remaining` still to visit. */
  ghost predicate Visiting<T>(order: seq<T>, remaining: set<T>, keys: set<T>)
  {
    Distinct(order) && Elems(order) + remaining == keys && Elems(order) !! remaining
  }

  lemma VisitStart<T>(keys: set<T>)
    ensures Visiting([], keys, keys)
  {
    assert Elems<T>([]) == {};
  }

  /** Visiting one more, not yet visited key. */
  lemma VisitStep<T>(order: seq<T>, remaining: set<T>, keys: set<T>, k: T)
    requires Visiting(order, remaining, keys) && k in remaining
    ensures Visiting(order + [k], remaining - {k}, keys)
  {
    assert forall i :: 0 <= i < |order| ==> (order + [k])[i] == order[i];
    assert Elems(order + [k]) == Elems(order) + {k};
  }

  /** A finished loop visited every key once. */
  lemma VisitDone<T>(order: seq<T>, keys: set<T>)
    requires Visiting(order, {}, keys)
    ensures IsOrderOf(order, keys)
  {
  }
}
