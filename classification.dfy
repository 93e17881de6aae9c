/** Classifying a query (the LLM is asked for `{"type": ..., "symbols": [...]}`)
    and the handler's test on that classification that decides whether
    quotes are fetched. */
module Classification {
  import opened Outcomes
  import opened PyJson

  /** What the handler works with when classification fails. */
  const DefaultClassification: Json := JObj([("type", JStr("general")), ("symbols", JArr([]))])

  /** `classify_query`: ask the model, parse its reply as JSON and return the
      parsed value as it is; fall back to the default on any exception.
      `classifier` is the model applied to the classification prompt built
      from the query, `parse` is `json.loads` (None when it raises). */
  function Classify(classifier: string -> Reply, parse: string -> Option<Json>, query: string): (c: Json)
    ensures classifier(query).Raised? ==> c == DefaultClassification
    ensures classifier(query).Generated? && parse(classifier(query).text).None? ==>
      c == DefaultClassification
    ensures classifier(query).Generated? && parse(classifier(query).text).Some? ==>
      c == parse(classifier(query).text).value
  {
    match classifier(query)
    case Raised(_) => DefaultClassification
    case Generated(text) =>
      match parse(text)
      case None => DefaultClassification
      case Some(parsed) => parsed
  }

  /** The member `key` of the classification, if it is a dict holding one. */
  function Field(c: Json, key: string): Option<Json> {
    if c.JObj? then Lookup(c.members, key) else None
  }

  /** The categories for which quotes are looked up. */
  predicate IsQuoteType(t: Json) {
    t == JStr("stock_price") || t == JStr("mixed")
  }

  /** The handler fetches quotes: the type is `stock_price` or `mixed` and
      the symbols are present and truthy. */
  predicate FetchesQuotes(c: Json) {
    && Field(c, "type").Some? && IsQuoteType(Field(c, "type").value)
    && Field(c, "symbols").Some? && Truthy(Field(c, "symbols").value)
  }

  /** The test `c["type"] in ["stock_price", "mixed"] and c["symbols"]`:
      Some(symbols) when quotes are to be fetched for `symbols`, None when the
      reply is generated from the query alone, or the exception the
      subscripts raise (`symbols` is looked at only when the type matched). */
  function Route(c: Json): (r: Result<Option<Json>, Fault>)
    ensures (r.Success? && r.value.Some?) <==> FetchesQuotes(c)
    ensures r.Success? && r.value.Some? ==> Field(c, "symbols") == r.value
    ensures r.Failure? <==>
      || !c.JObj?
      || Field(c, "type").None?
      || (IsQuoteType(Field(c, "type").value) && Field(c, "symbols").None?)
    ensures !c.JObj? ==> r == Failure(NotSubscriptable(c))
    ensures c.JObj? && Field(c, "type").None? ==> r == Failure(MissingKey("type"))
    ensures c.JObj? && Field(c, "type").Some? && r.Failure? ==> r == Failure(MissingKey("symbols"))
  {
    match Subscript(c, "type")
    case Failure(f) => Failure(f)
    case Success(t) =>
      if IsQuoteType(t) then
        match Subscript(c, "symbols")
        case Failure(f) => Failure(f)
        case Success(symbols) => Success(if Truthy(symbols) then Some(symbols) else None)
      else Success(None)
  }

  /** A failed classification never leads to a quote lookup and never
      makes the handler's test raise. */
  lemma {:induction false} DefaultIsGeneral()
    ensures Route(DefaultClassification) == Success(None)
  {
    var m := DefaultClassification.members;
    assert m[..|m| - 1] == [("type", JStr("general"))];
    assert Lookup(m, "type") == Some(JStr("general"));
  }
}
