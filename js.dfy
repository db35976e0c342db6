/** JavaScript values as the dashboard's components see them.

    A JavaScript object is modelled as the ordered sequence of its
    (key, value) pairs, in the order `Object.entries` reports them, so that
    the order in which charts list their bars and slices is part of the
    model. A property that is absent (`undefined`) is `None`.
 */
module Js {

  datatype Option<+T> = None | Some(value: T) {
    /** The value, or `default` when there is none. */
    function GetOr(default: T): T {
      match this
      case Some(v) => v
      case None => default
    }
  }

  /** A decoded JSON value. Numbers are mathematical reals: NaN, infinities
      and rounding are not modelled. */
  datatype Json =
    | Null
    | Bool(b: bool)
    | Num(n: real)
    | Str(s: string)
    | Arr(items: seq<Json>)
    | Obj(fields: seq<(string, Json)>)

  /** An object: its properties as ordered (key, value) pairs. */
  type Entries<V> = seq<(string, V)>

  /** JavaScript truthiness of a property read (`undefined` is `None`). */
  predicate Truthy(v: Option<Json>) {
    match v
    case None => false
    case Some(j) =>
      match j
      case Null => false
      case Bool(b) => b
      case Num(n) => n != 0.0
      case Str(s) => s != ""
      case Arr(_) => true
      case Obj(_) => true
  }

  /** `s || d` for a property that holds a string or is absent: the empty
      string is falsy, so it too gives way to the default. */
  function OrElse(s: Option<string>, d: string): string {
    if s.Some? && s.value != "" then s.value else d
  }

  /** `Object.keys(o)`. */
  function Keys<V>(o: Entries<V>): seq<string> {
    seq(|o|, i requires 0 <= i < |o| => o[i].0)
  }

  /** `o[k]`: the value of the first pair whose key is `k`. */
  function Get<V>(o: Entries<V>, k: string): (r: Option<V>)
    ensures r.Some? <==> k in Keys(o)
    ensures r.Some? ==> exists i :: 0 <= i < |o| && o[i] == (k, r.value)
  {
    if |o| == 0 then None
    else if o[0].0 == k then
      assert Keys(o)[0] == k;
      Some(o[0].1)
    else
      assert Keys(o) == [o[0].0] + Keys(o[1..]);
      var r := Get(o[1..], k);
      assert r.Some? ==> exists i :: 0 <= i < |o[1..]| && o[1..][i] == (k, r.value);
      r
  }

  /** `o[k] = v`: an existing property keeps its place and takes the new
      value, a new property is appended after all the others. */
  function Put<V>(o: Entries<V>, k: string, v: V): (r: Entries<V>)
    ensures Get(r, k) == Some(v)
    ensures forall j :: j != k ==> Get(r, j) == Get(o, j)
    ensures Keys(r) == if k in Keys(o) then Keys(o) else Keys(o) + [k]
    ensures k !in Keys(o) ==> r == o + [(k, v)]
  {
    if |o| == 0 then [(k, v)]
    else
      ConsLookup(o[0], o[1..]);
      assert o == [o[0]] + o[1..];
      if o[0].0 == k then
        ConsLookup((k, v), o[1..]);
        [(k, v)] + o[1..]
      else
        var rest := Put(o[1..], k, v);
        ConsLookup(o[0], rest);
        [o[0]] + rest
  }

  /** Keys and property reads of an object given by its first pair and the
      rest. */
  lemma ConsLookup<V>(p: (string, V), o: Entries<V>)
    ensures Keys([p] + o) == [p.0] + Keys(o)
    ensures Get([p] + o, p.0) == Some(p.1)
    ensures forall j :: j != p.0 ==> Get([p] + o, j) == Get(o, j)
  {
    assert ([p] + o)[1..] == o;
  }
}
