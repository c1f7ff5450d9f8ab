/** The values `json.loads` produces and the Python builtins the analyzer applies to
    them: `dict.get`, `float()`, `set(a + b)` and slicing. A builtin that raises
    returns None here. */
module PyJson {
  import opened Wrappers

  /** A decoded JSON value. Objects are maps: `json.loads` keeps the last of repeated keys. */
  datatype Json =
    | JNull
    | JBool(b: bool)
    | JNum(n: real)
    | JStr(s: string)
    | JArr(items: seq<Json>)
    | JObj(fields: map<string, Json>)

  /** `d.get(key, default)`. */
  function Get(fields: map<string, Json>, key: string, default: Json): Json {
    if key in fields then fields[key] else default
  }

  /** `float(v)`: numbers convert as they are, booleans to 1.0 and 0.0, a string when
      Python's float parser accepts it (`floatOfStr`); null, lists and dicts raise. */
  function Float(floatOfStr: string -> Option<real>, v: Json): (r: Option<real>)
    ensures v.JNum? ==> r == Some(v.n)
    ensures v.JBool? ==> r == Some(if v.b then 1.0 else 0.0)
    ensures v.JStr? ==> r == floatOfStr(v.s)
    ensures v.JNull? || v.JArr? || v.JObj? ==> r.None?
  {
    match v
    case JNum(n) => Some(n)
    case JBool(b) => Some(if b then 1.0 else 0.0)
    case JStr(s) => floatOfStr(s)
    case _ => None
  }

  /** The single-character strings iterating a `str` yields. */
  function Chars(s: string): (r: seq<Json>)
    ensures |r| == |s| && forall k :: 0 <= k < |s| ==> r[k] == JStr([s[k]])
  {
    if s == [] then [] else [JStr([s[0]])] + Chars(s[1..])
  }

  /** What `set()` iterates over in `set(a + b)`: two lists concatenate, and two strings
      concatenate into a string whose characters are iterated. Any other pair either
      makes `+` raise, or (two numbers) adds up to a number, which is not iterable. */
  function ConcatElements(a: Json, b: Json): (r: Option<seq<Json>>)
    ensures r.Some? <==> (a.JArr? && b.JArr?) || (a.JStr? && b.JStr?)
    ensures a.JArr? && b.JArr? ==> r == Some(a.items + b.items)
  {
    if a.JArr? && b.JArr? then Some(a.items + b.items)
    else if a.JStr? && b.JStr? then Some(Chars(a.s + b.s))
    else None
  }

  /** Lists and dicts are unhashable: `set()` raises on them. */
  predicate Hashable(v: Json) {
    !v.JArr? && !v.JObj?
  }

  /** The value a Python set compares by: `True == 1` and `False == 0` in a set. */
  function SetKey(v: Json): Json {
    if v.JBool? then JNum(if v.b then 1.0 else 0.0) else v
  }

  function Keys(xs: seq<Json>): set<Json> {
    set x | x in xs :: SetKey(x)
  }

  /** No two elements are equal as set members. */
  predicate SetDistinct(xs: seq<Json>) {
    forall i, j :: 0 <= i < j < |xs| ==> SetKey(xs[i]) != SetKey(xs[j])
  }

  lemma KeysAppend(xs: seq<Json>, x: Json)
    ensures Keys(xs + [x]) == Keys(xs) + {SetKey(x)}
  {
    assert forall y :: y in xs + [x] <==> y in xs || y == x;
  }

  lemma KeysCons(xs: seq<Json>)
    requires xs != []
    ensures Keys(xs) == {SetKey(xs[0])} + Keys(xs[1..])
  {
    assert forall y :: y in xs <==> y == xs[0] || y in xs[1..];
  }

  /** Inserts the elements of `xs` one by one into a set that already holds `kept`, in
      order; an element equal to one already present is dropped, as Python's set does. */
  function InsertAll(kept: seq<Json>, xs: seq<Json>): (r: seq<Json>)
    requires SetDistinct(kept)
    ensures SetDistinct(r)
    ensures Keys(r) == Keys(kept) + Keys(xs)
    ensures forall x :: x in r ==> x in kept || x in xs
    decreases |xs|
  {
    if xs == [] then kept
    else
      KeysCons(xs);
      if SetKey(xs[0]) in Keys(kept) then InsertAll(kept, xs[1..])
      else
        KeysAppend(kept, xs[0]);
        assert forall i :: 0 <= i < |kept| ==> SetKey(kept[i]) in Keys(kept);
        InsertAll(kept + [xs[0]], xs[1..])
  }

  /** `list(set(a + b))`. The order of a Python set is not specified; the model lists
      the members in first-insertion order, which the contract does not promise. */
  function SetOfConcat(a: Json, b: Json): (r: Option<seq<Json>>)
    ensures r.Some? <==> ConcatElements(a, b).Some? && forall x :: x in ConcatElements(a, b).value ==> Hashable(x)
    ensures r.Some? ==>
      var xs := ConcatElements(a, b).value;
      && SetDistinct(r.value)
      && Keys(r.value) == Keys(xs)
      && (forall x :: x in r.value ==> x in xs)
  {
    match ConcatElements(a, b)
    case None => None
    case Some(xs) =>
      if forall x :: x in xs ==> Hashable(x) then Some(InsertAll([], xs)) else None
  }

  /** For lists of strings the set members are plain values: the result lists every
      element of either list once, and nothing else. */
  lemma SetOfStringLists(a: seq<Json>, b: seq<Json>)
    requires forall x :: x in a + b ==> x.JStr?
    ensures SetOfConcat(JArr(a), JArr(b)).Some?
    ensures var r := SetOfConcat(JArr(a), JArr(b)).value;
      && (forall i, j :: 0 <= i < j < |r| ==> r[i] != r[j])
      && (forall x :: x in r <==> x in a || x in b)
  {
    var r := SetOfConcat(JArr(a), JArr(b)).value;
    forall x | x in a || x in b ensures x in r {
      assert x in a + b;
      assert SetKey(x) in Keys(a + b);
      var y :| y in r && SetKey(y) == SetKey(x);
      assert y in a + b;
    }
  }

  function Min(x: nat, y: nat): nat {
    if x <= y then x else y
  }

  /** `v[:n]`: a list or a string keeps its first `n` elements; a number, a boolean or
      null is not subscriptable and a dict rejects a slice as key, so those raise. */
  function SliceTo(v: Json, n: nat): (r: Option<Json>)
    ensures r.Some? <==> v.JArr? || v.JStr?
    ensures v.JArr? ==>
      r.value.JArr? && |r.value.items| == Min(n, |v.items|) && r.value.items <= v.items
    ensures v.JStr? ==>
      r.value.JStr? && |r.value.s| == Min(n, |v.s|) && r.value.s <= v.s
  {
    match v
    case JArr(items) => Some(JArr(items[..Min(n, |items|)]))
    case JStr(s) => Some(JStr(s[..Min(n, |s|)]))
    case _ => None
  }
}
