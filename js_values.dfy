/**
 * The slice of JavaScript's value model that the editor state and the
 * tabs rely on: plain objects as string-keyed maps, truthiness, property
 * reads of missing keys, object spread and `Array.prototype.filter`.
 */
module JsValues {

  /** A JavaScript value. Numbers are integers here; `NaN` stands for `parseInt` of a non-number. */
  datatype Value =
    | Undefined
    | Null
    | Bool(b: bool)
    | Num(n: int)
    | NaN
    | Str(s: string)
    | Arr(items: seq<Value>)
    | Obj(fields: map<string, Value>)

  /** A plain object: its own enumerable properties. */
  type Record = map<string, Value>

  /** JavaScript truthiness (`if (v)`, `v || d`, `!v`). */
  predicate Truthy(v: Value) {
    match v
    case Undefined => false
    case Null => false
    case Bool(b) => b
    case Num(n) => n != 0
    case NaN => false
    case Str(s) => s != ""
    case Arr(_) => true
    case Obj(_) => true
  }

  /** Property read `o.k`: a missing property reads as `undefined`. */
  function Get(o: Record, k: string): Value {
    if k in o then o[k] else Undefined
  }

  /** The own properties that spreading `v` contributes (`{ ...v }`); anything but a plain object contributes none. */
  function Fields(v: Value): Record {
    if v.Obj? then v.fields else map[]
  }

  /**
   * Object spread `{ ...a, ...b }`: every key of either object, the value
   * from `b` where both have the key.
   */
  function Spread(a: Record, b: Record): (r: Record)
    ensures r.Keys == a.Keys + b.Keys
    ensures forall k :: k in b ==> r[k] == b[k]
    ensures forall k :: k in a && k !in b ==> r[k] == a[k]
  {
    a + b
  }

  /** `s.filter(keep)`: the elements that pass `keep`, in their original order. */
  function Filter<T>(s: seq<T>, keep: T -> bool): (r: seq<T>)
    ensures |r| <= |s|
    ensures forall i :: 0 <= i < |r| ==> r[i] in s && keep(r[i])
    ensures forall i :: 0 <= i < |s| && keep(s[i]) ==> s[i] in r
  {
    if s == [] then []
    else (if keep(s[0]) then [s[0]] else []) + Filter(s[1..], keep)
  }

  /** Filtering distributes over concatenation, so the relative order of the kept elements is the original one. */
  lemma {:induction false} FilterAppend<T>(s: seq<T>, t: seq<T>, keep: T -> bool)
    ensures Filter(s + t, keep) == Filter(s, keep) + Filter(t, keep)
  {
    if s == [] {
      assert s + t == t;
    } else {
      assert (s + t)[1..] == s[1..] + t;
      FilterAppend(s[1..], t, keep);
    }
  }

  /** The positions of `s` whose elements pass `keep`, in increasing order. */
  function KeptPositions<T>(s: seq<T>, keep: T -> bool): (p: seq<nat>)
    ensures forall k :: 0 <= k < |p| ==> p[k] < |s| && keep(s[p[k]])
    ensures forall k, l :: 0 <= k < l < |p| ==> p[k] < p[l]
  {
    if s == [] then []
    else
      var init := KeptPositions(s[..|s| - 1], keep);
      if keep(s[|s| - 1]) then init + [|s| - 1] else init
  }

  /** Every position whose element passes is among the kept positions. */
  lemma {:induction false} KeptPositionsComplete<T>(s: seq<T>, keep: T -> bool, i: nat)
    requires i < |s| && keep(s[i])
    ensures i in KeptPositions(s, keep)
  {
    if i < |s| - 1 {
      var init := s[..|s| - 1];
      assert init[i] == s[i];
      KeptPositionsComplete(init, keep, i);
    }
  }

  /** `r` lists the elements of `s` at positions `p`, one for one. */
  ghost predicate SubseqAt<T>(r: seq<T>, s: seq<T>, p: seq<nat>) {
    |r| == |p| && forall k :: 0 <= k < |p| ==> p[k] < |s| && r[k] == s[p[k]]
  }

  lemma SubseqAtExtend<T>(r: seq<T>, s: seq<T>, p: seq<nat>, x: T)
    requires SubseqAt(r, s, p)
    ensures SubseqAt(r, s + [x], p)
    ensures SubseqAt(r + [x], s + [x], p + [|s|])
  {
  }

  /**
   * `s.filter(keep)` is the subsequence of `s` at the kept positions: same
   * order, and each kept occurrence exactly once.
   */
  lemma {:induction false} FilterAtKeptPositions<T>(s: seq<T>, keep: T -> bool)
    ensures SubseqAt(Filter(s, keep), s, KeptPositions(s, keep))
  {
    if s != [] {
      var init, x := s[..|s| - 1], s[|s| - 1];
      FilterAtKeptPositions(init, keep);
      var r, p := Filter(init, keep), KeptPositions(init, keep);
      SubseqAtExtend(r, init, p, x);
      assert s == init + [x];
      FilterAppend(init, [x], keep);
      assert [x][1..] == [];
      if keep(x) {
        assert Filter(s, keep) == r + [x];
        assert KeptPositions(s, keep) == p + [|init|];
      } else {
        assert Filter(s, keep) == r;
        assert KeptPositions(s, keep) == p;
      }
    }
  }

  /** The first element of the filtered list is the first element of `s` that passes. */
  lemma FilterFirst<T>(s: seq<T>, keep: T -> bool)
    ensures forall i :: 0 <= i < |s| && keep(s[i]) && (forall j :: 0 <= j < i ==> !keep(s[j])) ==>
      |Filter(s, keep)| > 0 && Filter(s, keep)[0] == s[i]
  {
    forall i | 0 <= i < |s| && keep(s[i]) && (forall j :: 0 <= j < i ==> !keep(s[j]))
      ensures |Filter(s, keep)| > 0 && Filter(s, keep)[0] == s[i]
    {
      FilterFirstAt(s, keep, i);
    }
  }

  lemma {:induction false} FilterFirstAt<T>(s: seq<T>, keep: T -> bool, i: nat)
    requires i < |s| && keep(s[i])
    requires forall j :: 0 <= j < i ==> !keep(s[j])
    ensures |Filter(s, keep)| > 0 && Filter(s, keep)[0] == s[i]
  {
    if i > 0 {
      var rest := s[1..];
      assert !keep(s[0]);
      assert Filter(s, keep) == Filter(rest, keep);
      assert rest[i - 1] == s[i];
      assert forall j :: 0 <= j < i - 1 ==> rest[j] == s[j + 1];
      FilterFirstAt(rest, keep, i - 1);
    }
  }

  /** A filter that keeps every element returns the list itself. */
  lemma {:induction false} FilterKeepsAll<T>(s: seq<T>, keep: T -> bool)
    requires forall i :: 0 <= i < |s| ==> keep(s[i])
    ensures Filter(s, keep) == s
  {
    if s != [] {
      FilterKeepsAll(s[1..], keep);
    }
  }
}
