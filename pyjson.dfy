/** The Python values the handler works on: what `json.loads` returns for the
    classifier's reply, and the few built-in operations the handler applies
    to them (truth value, `str`, subscripting, iteration, hashing). */
module PyJson {
  import opened Outcomes

  /** A value produced by `json.loads`. An object keeps its members in
      document order and may repeat a key; a number is carried as the text
      Python's `str` gives for it. */
  datatype Json =
    | JNull
    | JBool(b: bool)
    | JNum(text: string)
    | JStr(s: string)
    | JArr(items: seq<Json>)
    | JObj(members: seq<(string, Json)>)

  /** The exceptions the handler's own code raises on a badly shaped value. */
  datatype Fault =
    | MissingKey(key: string)         // KeyError: a dict without the key
    | NotSubscriptable(value: Json)   // TypeError: subscripting a non-dict with a string
    | NotIterable(value: Json)        // TypeError: `for` over null, a boolean or a number
    | Unhashable(value: Json)         // TypeError: a list or a dict used as a dict key

  /** Python's truth value of the value (`if v:`, `a and v`): a string, a
      list or a dict is true exactly when iterating it visits something. */
  predicate Truthy(v: Json)
    ensures v.JStr? || v.JArr? || v.JObj? ==>
      Iterate(v).Success? && (Truthy(v) <==> Iterate(v).value != [])
  {
    match v
    case JNull => false
    case JBool(b) => b
    case JNum(t) => t !in {"0", "0.0", "-0.0"}
    case JStr(s) => s != []
    case JArr(items) => items != []
    case JObj(members) =>
      assert members != [] ==> JStr(members[0].0) in Keys(members);
      members != []
  }

  /** Lists and dicts cannot be dict keys. */
  predicate Hashable(v: Json) {
    !v.JArr? && !v.JObj?
  }

  /** Python's `str(v)` for a value that can be a dict key: a string prints
      as itself, a boolean as `True` or `False`, null as `None`. */
  function Display(v: Json): (r: string)
    requires Hashable(v)
    ensures v.JStr? ==> r == v.s
    ensures v.JBool? ==> (r == "True" <==> v.b) && (r == "False" <==> !v.b)
    ensures v.JNull? ==> r == "None"
  {
    if v.JNull? then "None"
    else if v.JBool? then (if v.b then "True" else "False")
    else if v.JNum? then v.text
    else v.s
  }

  /** The value the dict built by `json.loads` holds for `key`: the last
      member with that key wins. */
  function Lookup(members: seq<(string, Json)>, key: string): (r: Option<Json>)
    ensures r.None? <==> forall i :: 0 <= i < |members| ==> members[i].0 != key
    ensures r.Some? ==>
      exists i :: 0 <= i < |members| && members[i] == (key, r.value) &&
        forall j :: i < j < |members| ==> members[j].0 != key
  {
    if members == [] then None
    else if members[|members| - 1].0 == key then Some(members[|members| - 1].1)
    else Lookup(members[..|members| - 1], key)
  }

  /** `v[key]` with a string key. */
  function Subscript(v: Json, key: string): (r: Result<Json, Fault>)
    ensures !v.JObj? ==> r == Failure(NotSubscriptable(v))
    ensures v.JObj? ==> (r.Success? <==> Lookup(v.members, key).Some?)
    ensures v.JObj? && r.Success? ==> Lookup(v.members, key) == Some(r.value)
    ensures v.JObj? && r.Failure? ==> r.error == MissingKey(key)
  {
    if !v.JObj? then Failure(NotSubscriptable(v))
    else match Lookup(v.members, key)
      case Some(x) => Success(x)
      case None => Failure(MissingKey(key))
  }

  /** No element occurs twice. */
  predicate Distinct(s: seq<Json>) {
    forall i, j :: 0 <= i < j < |s| ==> s[i] != s[j]
  }

  /** The distinct elements of `xs` in the order of their first occurrence:
      the key order of a dict filled from `xs` one element at a time. */
  function Dedup(xs: seq<Json>): seq<Json> {
    if xs == [] then []
    else
      var d := Dedup(xs[..|xs| - 1]);
      if xs[|xs| - 1] in d then d else d + [xs[|xs| - 1]]
  }

  /** The position of the first occurrence of `x` in `xs`. */
  function FirstIndex(xs: seq<Json>, x: Json): (i: nat)
    requires x in xs
    ensures i < |xs| && xs[i] == x
    ensures forall j :: 0 <= j < i ==> xs[j] != x
  {
    if xs[0] == x then 0 else 1 + FirstIndex(xs[1..], x)
  }

  /** Appending never moves a first occurrence. */
  lemma FirstIndexPrefix(xs: seq<Json>, ys: seq<Json>, x: Json)
    requires x in xs
    ensures x in xs + ys && FirstIndex(xs + ys, x) == FirstIndex(xs, x)
  {
    var p, q := FirstIndex(xs + ys, x), FirstIndex(xs, x);
    assert (xs + ys)[q] == x;
    assert xs[p] == x;
  }

  /** Every element of `xs` is kept, once, nothing is added, and the
      elements come in the order of their first occurrence in `xs`. */
  lemma {:induction false} DedupSpec(xs: seq<Json>)
    ensures Distinct(Dedup(xs))
    ensures forall x :: x in Dedup(xs) <==> x in xs
    ensures forall i, j :: 0 <= i < j < |Dedup(xs)| ==>
      FirstIndex(xs, Dedup(xs)[i]) < FirstIndex(xs, Dedup(xs)[j])
  {
    if xs != [] {
      var front, last := xs[..|xs| - 1], xs[|xs| - 1];
      assert xs == front + [last];
      DedupSpec(front);
      var d := Dedup(front);
      if last !in d {
        assert last !in front;
        assert FirstIndex(xs, last) == |front|;
      }
      forall i, j | 0 <= i < j < |Dedup(xs)|
        ensures FirstIndex(xs, Dedup(xs)[i]) < FirstIndex(xs, Dedup(xs)[j])
      {
        var a, b := Dedup(xs)[i], Dedup(xs)[j];
        assert a == d[i] && a in front;
        FirstIndexPrefix(front, [last], a);
        if j < |d| {
          assert b == d[j] && b in front;
          FirstIndexPrefix(front, [last], b);
        }
      }
    }
  }

  /** Adding elements at the end never reorders the keys already there. */
  lemma {:induction false} DedupPrefix(xs: seq<Json>, i: nat)
    requires i <= |xs|
    ensures Dedup(xs[..i]) <= Dedup(xs)
    decreases |xs| - i
  {
    if i < |xs| {
      var front := xs[..|xs| - 1];
      assert front[..i] == xs[..i];
      DedupPrefix(front, i);
      assert Dedup(front) <= Dedup(xs);
    } else {
      assert xs[..i] == xs;
    }
  }

  /** The keys of a dict's members, in document order, repeats included. */
  function Keys(members: seq<(string, Json)>): (keys: seq<Json>)
    ensures |keys| == |members|
    ensures forall i :: 0 <= i < |members| ==> keys[i] == JStr(members[i].0)
  {
    seq(|members|, i requires 0 <= i < |members| => JStr(members[i].0))
  }

  /** The elements `for x in v` visits: a list's items, a string's
      characters, a dict's distinct keys in the order each first occurs in
      the document. */
  function Iterate(v: Json): (r: Result<seq<Json>, Fault>)
    ensures r.Failure? <==> v.JNull? || v.JBool? || v.JNum?
    ensures r.Failure? ==> r.error == NotIterable(v)
    ensures v.JArr? ==> r == Success(v.items)
    ensures v.JStr? ==>
      r.Success? && |r.value| == |v.s| &&
      forall i :: 0 <= i < |v.s| ==> r.value[i] == JStr([v.s[i]])
    ensures v.JObj? ==>
      r.Success? && Distinct(r.value) &&
      forall x :: x in r.value <==> x in Keys(v.members)
    ensures v.JObj? ==>
      forall i, j :: 0 <= i < j < |r.value| ==>
        FirstIndex(Keys(v.members), r.value[i]) < FirstIndex(Keys(v.members), r.value[j])
  {
    match v
    case JArr(items) => Success(items)
    case JStr(s) => Success(seq(|s|, i requires 0 <= i < |s| => JStr([s[i]])))
    case JObj(members) =>
      DedupSpec(Keys(members));
      Success(Dedup(Keys(members)))
    case _ => Failure(NotIterable(v))
  }
}
