/** The `POST /chat` handler: classify the message, fetch quotes when the
    classification asks for them, generate the reply, turn its line breaks
    into break tags; any exception becomes an apology. */
module ChatHandler {
  import opened Outcomes
  import opened PyJson
  import opened Classification
  import opened Quotes
  import opened Responder
  import opened Markup

  const GenericApology: string := "I apologize, but I encountered an error: "

  /** The outside services a request talks to. `classifier` and `responder`
      are the language model applied to the classification prompt for a
      query and to the reply prompt for a context; `parse` is `json.loads`;
      `quote` is the quote provider's `info` for a symbol (None when it
      raises); `typeErrorText` is the wording of Python's TypeError
      messages. */
  datatype Env = Env(
    classifier: string -> Reply,
    parse: string -> Option<Json>,
    quote: Json -> Option<Info>,
    responder: string -> Reply,
    typeErrorText: Fault -> string)

  datatype ChatRequest = ChatRequest(message: string)

  datatype ChatResponse = ChatResponse(response: string)

  /** `str(e)` for an exception the handler's own code raised; a KeyError
      prints as its quoted key. */
  function FaultText(env: Env, f: Fault): (r: string)
    ensures f.MissingKey? ==>
      && |r| == |f.key| + 2 && r[0] == '\'' && r[|r| - 1] == '\''
      && r[1..|r| - 1] == f.key
    ensures !f.MissingKey? ==> r == env.typeErrorText(f)
  {
    match f
    case MissingKey(key) => "'" + key + "'"
    case _ => env.typeErrorText(f)
  }

  /** Everything before the reply is generated: the quote dict the reply is
      generated with (None for a reply from the query alone), or the
      exception that escaped. */
  function Gather(env: Env, message: string): (r: Result<Option<Table>, Fault>)
    ensures r.Success? && r.value.Some? ==> r.value.value.Valid()
  {
    match Route(Classify(env.classifier, env.parse, message))
    case Failure(f) => Failure(f)
    case Success(None) => Success(None)
    case Success(Some(symbols)) =>
      match StockData(env.quote, symbols)
      case Failure(f) => Failure(f)
      case Success(t) => Success(Some(t))
  }

  /** What the handler answers: an escaped exception gives the generic
      apology, and otherwise the answer holds no line break. */
  function Handle(env: Env, message: string): (r: ChatResponse)
    ensures Gather(env, message).Failure? ==>
      |GenericApology| <= |r.response| && r.response[..|GenericApology|] == GenericApology
    ensures Gather(env, message).Success? ==> '\n' !in r.response
  {
    match Gather(env, message)
    case Failure(f) => ChatResponse(GenericApology + FaultText(env, f))
    case Success(data) =>
      NoNewlineRemains(Respond(env.responder, message, data));
      ChatResponse(ReplaceNewlines(Respond(env.responder, message, data)))
  }

  /** The handler. Besides the answer it reports the argument it called
      `get_stock_data` with, if it called it. */
  method Chat(env: Env, request: ChatRequest) returns (reply: ChatResponse, fetchedWith: Option<Json>)
    ensures reply == Handle(env, request.message)
    ensures fetchedWith.Some? <==> FetchesQuotes(Classify(env.classifier, env.parse, request.message))
    ensures fetchedWith.Some? ==>
      Some(fetchedWith.value) == Field(Classify(env.classifier, env.parse, request.message), "symbols")
  {
    fetchedWith := None;
    var classification := Classify(env.classifier, env.parse, request.message);
    var routed := Route(classification);
    if routed.Failure? {
      reply := ChatResponse(GenericApology + FaultText(env, routed.error));
      return;
    }
    var response: string;
    if routed.value.Some? {
      var symbols := routed.value.value;
      fetchedWith := Some(symbols);
      var stockData := FetchQuotes(env.quote, symbols);
      if stockData.Failure? {
        reply := ChatResponse(GenericApology + FaultText(env, stockData.error));
        return;
      }
      response := GenerateResponse(env.responder, request.message, Some(stockData.value));
    } else {
      response := GenerateResponse(env.responder, request.message, None);
    }
    reply := ChatResponse(ReplaceNewlines(response));
  }

  /** When nothing escapes before the reply is generated, the page shows
      the substituted text of `generate_response`. */
  lemma {:induction false} AnsweredFromReply(env: Env, message: string, data: Option<Table>)
    requires Gather(env, message) == Success(data)
    ensures Handle(env, message).response == ReplaceNewlines(Respond(env.responder, message, data))
  {
  }

  /** A reply the model generated reaches the page with its line breaks, and
      only those, turned into break tags: it holds no line break and is three
      characters longer per line break. */
  lemma {:induction false} GeneratedReplyShown(env: Env, message: string, data: Option<Table>, text: string)
    requires Gather(env, message) == Success(data)
    requires env.responder(ContextOf(message, data)) == Generated(text)
    ensures Handle(env, message).response == ReplaceNewlines(text)
    ensures '\n' !in Handle(env, message).response
    ensures |Handle(env, message).response| == |text| + 3 * NewlineCount(text)
  {
    NoNewlineRemains(text);
    ReplacedLength(text);
  }

  /** When generating the reply raises, the page shows the processing
      apology with the exception's message, break tags substituted in both. */
  lemma {:induction false} ResponderFailureApologised(env: Env, message: string, data: Option<Table>, error: string)
    requires Gather(env, message) == Success(data)
    requires env.responder(ContextOf(message, data)) == Raised(error)
    ensures Handle(env, message).response == ReplaceNewlines(ProcessingApology + error)
    ensures Handle(env, message).response == ReplaceNewlines(ProcessingApology) + ReplaceNewlines(error)
    ensures |Handle(env, message).response| >= |ProcessingApology| + |error|
  {
    AnsweredFromReply(env, message, data);
    assert Respond(env.responder, message, data) == ProcessingApology + error;
    ReplaceDistributes(ProcessingApology, error);
    ReplacedLength(ProcessingApology + error);
  }

  /** Any other exception, e.g. a classification without "type", is answered
      with the generic apology and the exception's text, unsubstituted. */
  lemma {:induction false} OtherFailureApologised(env: Env, message: string)
    requires Gather(env, message).Failure?
    ensures Handle(env, message).response == GenericApology + FaultText(env, Gather(env, message).error)
    ensures Classify(env.classifier, env.parse, message).JObj? &&
            Field(Classify(env.classifier, env.parse, message), "type").None? ==>
      Handle(env, message).response == GenericApology + "'type'"
  {
  }

  /** If the model cannot classify the message, the reply is generated from
      the query alone and no quote is looked up. */
  lemma {:induction false} ClassifierFailureAnswersFromQuery(env: Env, message: string)
    requires env.classifier(message).Raised?
    ensures Gather(env, message) == Success(None)
    ensures ContextOf(message, None) == QueryLead + message + "\n"
    ensures Handle(env, message).response == ReplaceNewlines(Respond(env.responder, message, None))
  {
    DefaultIsGeneral();
  }

  /** If both model calls raise, the handler still answers with a non-empty
      apology. */
  lemma {:induction false} AllServicesDown(env: Env, message: string, error: string)
    requires env.classifier(message).Raised?
    requires env.responder(QueryLead + message + "\n") == Raised(error)
    ensures Handle(env, message).response == ReplaceNewlines(ProcessingApology + error)
    ensures |Handle(env, message).response| > 0
  {
    ClassifierFailureAnswersFromQuery(env, message);
    ResponderFailureApologised(env, message, None, error);
  }

  /** A general question such as "What is inflation?" classified as
      general: no quote is looked up and the model sees the query alone. */
  lemma {:induction false} GeneralQuestion(env: Env, reply: string)
    requires env.classifier("What is inflation?") == Generated(reply)
    requires env.parse(reply) == Some(JObj([("type", JStr("general")), ("symbols", JArr([]))]))
    ensures !FetchesQuotes(Classify(env.classifier, env.parse, "What is inflation?"))
    ensures Gather(env, "What is inflation?") == Success(None)
  {
    DefaultIsGeneral();
  }

  const AppleQuery: string := "What is AAPL trading at?"
  const AppleSymbol: Json := JStr("AAPL")

  const AppleClassification: Json :=
    JObj([("type", JStr("stock_price")), ("symbols", JArr([AppleSymbol]))])
  const AppleInfo: Info := map["regularMarketPrice" := "150", "longName" := "Apple Inc.", "currency" := "USD"]
  const AppleTable: Table := Table([AppleSymbol], map[AppleSymbol := Quote("150", "Apple Inc.", "USD")])

  /** The routing test sends that classification to the quote lookup. */
  lemma {:induction false} AppleRoute()
    ensures Route(AppleClassification) == Success(Some(JArr([AppleSymbol])))
  {
    var m := AppleClassification.members;
    assert m[..1] == [("type", JStr("stock_price"))];
    assert Lookup(m, "type") == Some(JStr("stock_price"));
    assert Lookup(m, "symbols") == Some(JArr([AppleSymbol]));
  }

  /** The provider's answer for AAPL gives a record with its three fields. */
  lemma {:induction false} AppleRecord()
    ensures RecordFor(AppleSymbol, Some(AppleInfo)) == Quote("150", "Apple Inc.", "USD")
  {
    assert "regularMarketPrice" in AppleInfo && AppleInfo["regularMarketPrice"] == "150";
    assert "longName" in AppleInfo && AppleInfo["longName"] == "Apple Inc.";
    assert "currency" in AppleInfo && AppleInfo["currency"] == "USD";
  }

  /** The lookup loop stores AAPL's record. */
  lemma {:induction false} AppleFetch(quote: Json -> Option<Info>)
    requires quote(AppleSymbol) == Some(AppleInfo)
    ensures FetchAll(quote, [AppleSymbol]) == Success(AppleTable)
  {
    SingleSymbol(quote, AppleSymbol);
    AppleRecord();
  }

  /** A price question for AAPL: the symbol is looked up once and its
      record carries the provider's name, currency and price. */
  lemma {:induction false} ApplePriceQuestion(env: Env, reply: string)
    requires env.classifier(AppleQuery) == Generated(reply)
    requires env.parse(reply) == Some(AppleClassification)
    requires env.quote(AppleSymbol) == Some(AppleInfo)
    ensures Gather(env, AppleQuery) ==
      Success(Some(Table([AppleSymbol], map[AppleSymbol := Quote("150", "Apple Inc.", "USD")])))
  {
    assert Classify(env.classifier, env.parse, AppleQuery) == AppleClassification;
    AppleRoute();
    assert Iterate(JArr([AppleSymbol])) == Success([AppleSymbol]);
    AppleFetch(env.quote);
  }

  /** AAPL's record is shown as its name, currency and price. */
  lemma AppleLine()
    ensures Line(AppleSymbol, Quote("150", "Apple Inc.", "USD")) == "AAPL (Apple Inc.): USD 150"
  {
  }

  /** ... and the context the model is given for it names the symbol with
      its name, currency and price. */
  lemma {:induction false} ApplePriceContext()
    ensures
      var t := Table([AppleSymbol], map[AppleSymbol := Quote("150", "Apple Inc.", "USD")]);
      ContextOf(AppleQuery, Some(t)) ==
        QueryLead + AppleQuery + "\n" + DataLead + "AAPL (Apple Inc.): USD 150" + "\n"
  {
    var record := Quote("150", "Apple Inc.", "USD");
    var t := Table([AppleSymbol], map[AppleSymbol := record]);
    var line := "AAPL (Apple Inc.): USD 150";
    AppleLine();
    assert Lines(t) == [line];
    assert Join(Lines(t), "\n") == line;
    assert ContextOf(AppleQuery, Some(t)) == Framed(QueryLead + AppleQuery + "\n" + DataLead, [line]);
  }
}
