/** `get_stock_data`: one quote-provider lookup per symbol, collected in a
    dict from symbol to record; a failed lookup becomes an error record for
    that symbol only. */
module Quotes {
  import opened Outcomes
  import opened PyJson

  /** The provider's `info` dict for a symbol: field name to the text its
      value prints as. */
  type Info = map<string, string>

  /** The record stored for a symbol. */
  datatype Record =
    | Quote(price: string, name: string, currency: string)
    | Failed(error: string)

  /** A Python dict from symbol to record: `keys` is its insertion order. */
  datatype Table = Table(keys: seq<Json>, records: map<Json, Record>) {
    ghost predicate Valid() {
      && Distinct(keys)
      && (forall k :: k in records <==> k in keys)
      && (forall k :: k in keys ==> Hashable(k))
    }
  }

  /** `info.get(field, default)`. */
  function Get(info: Info, field: string, default: string): string {
    if field in info then info[field] else default
  }

  /** The record for `symbol` given what the provider did: its info dict, or
      None when the lookup raised. */
  function RecordFor(symbol: Json, fetched: Option<Info>): (r: Record)
    requires Hashable(symbol)
    ensures r.Failed? <==> fetched.None?
    ensures r.Failed? ==> r.error == "Could not fetch data for " + Display(symbol)
    ensures fetched.Some? ==>
      var info := fetched.value;
      && r.price == (if "regularMarketPrice" in info then info["regularMarketPrice"] else "N/A")
      && r.name == (if "longName" in info then info["longName"] else Display(symbol))
      && r.currency == (if "currency" in info then info["currency"] else "USD")
  {
    match fetched
    case None => Failed("Could not fetch data for " + Display(symbol))
    case Some(info) =>
      Quote(Get(info, "regularMarketPrice", "N/A"), Get(info, "longName", Display(symbol)),
            Get(info, "currency", "USD"))
  }

  /** Every symbol can be a dict key. */
  predicate AllHashable(xs: seq<Json>) {
    forall i :: 0 <= i < |xs| ==> Hashable(xs[i])
  }

  /** The first symbol that cannot be a dict key, if any. */
  function FirstUnhashable(xs: seq<Json>): Option<Json> {
    if xs == [] then None
    else if !Hashable(xs[0]) then Some(xs[0])
    else FirstUnhashable(xs[1..])
  }

  /** There is a first unhashable symbol exactly when some symbol is
      unhashable. */
  lemma {:induction false} FirstUnhashableSpec(xs: seq<Json>)
    ensures FirstUnhashable(xs).None? <==> AllHashable(xs)
    ensures FirstUnhashable(xs).Some? ==>
      FirstUnhashable(xs).value in xs && !Hashable(FirstUnhashable(xs).value)
  {
    if xs != [] {
      FirstUnhashableSpec(xs[1..]);
      assert forall i :: 1 <= i < |xs| ==> xs[i] == xs[1..][i - 1];
    }
  }

  /** The records the loop stores for the symbols `xs`, one symbol after
      the other; a later store under the same key replaces the earlier one. */
  function Records(quote: Json -> Option<Info>, xs: seq<Json>): map<Json, Record>
    requires AllHashable(xs)
  {
    if xs == [] then map[]
    else
      var front, last := xs[..|xs| - 1], xs[|xs| - 1];
      assert AllHashable(front) by {
        assert forall i :: 0 <= i < |front| ==> front[i] == xs[i];
      }
      Records(quote, front)[last := RecordFor(last, quote(last))]
  }

  /** The stored records are keyed by exactly the symbols, and each symbol's
      record depends only on the provider's answer for that symbol. */
  lemma {:induction false} RecordsSpec(quote: Json -> Option<Info>, xs: seq<Json>)
    requires AllHashable(xs)
    ensures forall x :: x in Records(quote, xs) <==> x in xs
    ensures forall x :: x in xs ==> Hashable(x) && Records(quote, xs)[x] == RecordFor(x, quote(x))
  {
    if xs != [] {
      var front := xs[..|xs| - 1];
      assert xs == front + [xs[|xs| - 1]];
      assert forall i :: 0 <= i < |front| ==> front[i] == xs[i];
      RecordsSpec(quote, front);
    }
  }

  /** The dict the loop builds over the symbols `xs`, or the TypeError raised
      at the first unhashable symbol (its error record cannot be stored
      either, and that second raise is outside the `try`). */
  function FetchAll(quote: Json -> Option<Info>, xs: seq<Json>): (r: Result<Table, Fault>)
    ensures r.Success? ==> r.value.Valid()
  {
    FirstUnhashableSpec(xs);
    match FirstUnhashable(xs)
    case Some(bad) => Failure(Unhashable(bad))
    case None =>
      DedupSpec(xs);
      RecordsSpec(quote, xs);
      Success(Table(Dedup(xs), Records(quote, xs)))
  }

  /** `get_stock_data(symbols)` for the value the classification holds. */
  function StockData(quote: Json -> Option<Info>, symbols: Json): (r: Result<Table, Fault>)
    ensures r.Success? ==> r.value.Valid()
  {
    match Iterate(symbols)
    case Failure(f) => Failure(f)
    case Success(xs) => FetchAll(quote, xs)
  }

  /** One more turn of the loop stores one more record and, for a symbol
      not seen before, appends it to the key order. */
  lemma {:induction false} CollectStep(quote: Json -> Option<Info>, xs: seq<Json>, i: nat)
    requires i < |xs| && AllHashable(xs[..i]) && Hashable(xs[i])
    ensures AllHashable(xs[..i + 1])
    ensures Records(quote, xs[..i + 1]) == Records(quote, xs[..i])[xs[i] := RecordFor(xs[i], quote(xs[i]))]
    ensures Dedup(xs[..i + 1]) ==
      if xs[i] in Records(quote, xs[..i]) then Dedup(xs[..i]) else Dedup(xs[..i]) + [xs[i]]
  {
    var prefix, next := xs[..i], xs[..i + 1];
    assert next[..i] == prefix;
    assert next[i] == xs[i];
    assert AllHashable(next) by {
      forall j | 0 <= j < |next|
        ensures Hashable(next[j])
      {
        if j < i {
          assert next[j] == prefix[j];
        }
      }
    }
    RecordsSpec(quote, prefix);
    DedupSpec(prefix);
    assert xs[i] in Records(quote, prefix) <==> xs[i] in Dedup(prefix);
  }

  /** The loop of `get_stock_data` over the symbols `xs`: look each one up
      in turn and store its record under it. */
  method CollectQuotes(quote: Json -> Option<Info>, xs: seq<Json>) returns (r: Result<Table, Fault>)
    ensures r == FetchAll(quote, xs)
  {
    var data: map<Json, Record> := map[];
    var order: seq<Json> := [];
    var i := 0;
    while i < |xs|
      invariant 0 <= i <= |xs|
      invariant FirstUnhashable(xs) == FirstUnhashable(xs[i..])
      invariant AllHashable(xs[..i])
      invariant order == Dedup(xs[..i])
      invariant data == Records(quote, xs[..i])
    {
      var symbol := xs[i];
      assert xs[i..][1..] == xs[i + 1..];
      if !Hashable(symbol) {
        return Failure(Unhashable(symbol));
      }
      var record := RecordFor(symbol, quote(symbol));
      CollectStep(quote, xs, i);
      if symbol !in data {
        order := order + [symbol];
      }
      data := data[symbol := record];
      i := i + 1;
    }
    assert xs[..i] == xs;
    r := Success(Table(order, data));
  }

  /** `get_stock_data(symbols)`: iterating a value that is not iterable
      raises before any lookup. */
  method FetchQuotes(quote: Json -> Option<Info>, symbols: Json) returns (r: Result<Table, Fault>)
    ensures r == StockData(quote, symbols)
  {
    var iterated := Iterate(symbols);
    if iterated.Failure? {
      return Failure(iterated.error);
    }
    r := CollectQuotes(quote, iterated.value);
  }

  /** The dict has exactly one entry per distinct symbol, in the order the
      symbols first occur, whenever no symbol is unhashable. */
  lemma {:induction false} TableKeys(quote: Json -> Option<Info>, xs: seq<Json>)
    requires AllHashable(xs)
    ensures FetchAll(quote, xs).Success?
    ensures FetchAll(quote, xs).value.records.Keys == set x | x in xs
    ensures FetchAll(quote, xs).value.keys == Dedup(xs)
  {
    FirstUnhashableSpec(xs);
    RecordsSpec(quote, xs);
  }

  /** A single hashable symbol gives a one-entry dict. */
  lemma {:induction false} SingleSymbol(quote: Json -> Option<Info>, s: Json)
    requires Hashable(s)
    ensures FetchAll(quote, [s]) == Success(Table([s], map[s := RecordFor(s, quote(s))]))
  {
    assert [s][1..] == [];
    assert [s][..0] == [];
    assert FirstUnhashable([s]) == None;
    assert Dedup([s]) == [s];
    assert Records(quote, [s]) == map[][s := RecordFor(s, quote(s))];
  }

  /** Whether the loop completes does not depend on the provider at all:
      it fails exactly when some symbol is unhashable. */
  lemma {:induction false} FailureIndependentOfProvider(q1: Json -> Option<Info>, q2: Json -> Option<Info>, xs: seq<Json>)
    ensures FetchAll(q1, xs).Success? == FetchAll(q2, xs).Success?
    ensures FetchAll(q1, xs).Failure? <==> !AllHashable(xs)
    ensures FetchAll(q1, xs).Failure? ==> FetchAll(q1, xs).error.Unhashable?
  {
    FirstUnhashableSpec(xs);
  }

  /** A failed lookup gives that symbol an error record and leaves every
      other entry as it would be had the lookup succeeded: two providers that
      agree on a symbol give it the same record. */
  lemma {:induction false} FailureIsIsolated(q1: Json -> Option<Info>, q2: Json -> Option<Info>, xs: seq<Json>, s: Json)
    requires AllHashable(xs)
    requires s in xs
    ensures FetchAll(q1, xs).Success? && FetchAll(q2, xs).Success?
    ensures s in FetchAll(q1, xs).value.records && s in FetchAll(q2, xs).value.records
    ensures q1(s).None? ==>
      FetchAll(q1, xs).value.records[s] == Failed("Could not fetch data for " + Display(s))
    ensures q1(s) == q2(s) ==>
      FetchAll(q1, xs).value.records[s] == FetchAll(q2, xs).value.records[s]
  {
    FirstUnhashableSpec(xs);
    RecordsSpec(q1, xs);
    RecordsSpec(q2, xs);
  }
}
