# Finance chat assistant: verified model of the request pipeline

The system is a small web backend. A user's financial question is classified by
a language model, live quotes are optionally fetched for the symbols the
classification names, and a second model call writes the reply. The reply's
line breaks are turned into HTML break tags. This project models that pipeline
as it is written in `app.py`:

- `classify_query`: the parsed model reply is passed on unchecked, with a
  fixed default when the call or the parse fails.
- `get_stock_data`: a loop that fills a dict from symbol to quote record,
  one provider lookup per symbol.
- The context block that `generate_response` hands to the model, and its
  apology when the model call raises.
- The routing test, the `<br>` substitution and the catch-all of `chat`.

The two outside services and the JSON parser are parameters of the model
(`ChatHandler.Env`), each of which either returns a value or fails, and one
more parameter gives the wording of TypeErrors:

- `classifier`: the language model applied to the classification prompt for a query.
- `parse`: `json.loads`.
- `quote`: the provider's `info` dict for a symbol.
- `responder`: the language model applied to the reply prompt for a context.
- `typeErrorText`: the wording of Python's TypeError messages.

The parsed classification is a JSON value (`PyJson.Json`), not a record with
fixed fields, and the model applies Python's own rules to it where the code
does:

- Subscripting and the truth value of `symbols` in the routing test (app.py:98).
- Iteration in the `for` of `get_stock_data` (app.py:44), reached through
  app.py:100.
- The truth value of the quote dict in `if stock_data:` (app.py:61), which
  holds exactly when the dict has an entry.

So a reply without `"type"`, or one that is not an object, or one whose
`"symbols"` is a string or a number, gets the same outcome as in the program.

Files, one module each:

- `outcomes.dfy`: Option, Result and the model client's Reply.
- `pyjson.dfy`: JSON values and the Python operations on them.
- `classification.dfy`: `classify_query` and the routing test.
- `quotes.dfy`: `get_stock_data`.
- `responder.dfy`: `generate_response`.
- `markup.dfy`: the `<br>` substitution.
- `chat.dfy`: the `/chat` handler.

Two properties of the code are worth noting:

- `classify_query` performs no shape check on the parsed reply
  (app.py:35-36). A badly shaped classification can fail in three places,
  each answered with the generic apology (`ChatHandler.OtherFailureApologised`):
  - at app.py:98, when it is not an object, lacks `type`, or has a quote type
    but no `symbols`;
  - at app.py:44, when its `symbols` cannot be iterated;
  - at app.py:54, when a symbol is a list or an object.

  Any other type, or empty or otherwise falsy `symbols`, raises nothing and
  is answered from the query alone.
- Only `"\n"` is replaced with `"<br>"`; nothing else is escaped
  (`Markup.ReplacedAt`).

## Model

| member | source | states |
|---|---|---|
| PyJson.Lookup | app.py:98 | The value a parsed dict holds for a key is that of the last member with the key; it is absent exactly when no member has the key |
| PyJson.Subscript | app.py:98 | `v[key]` raises a TypeError on anything but a dict, a KeyError naming the key when the dict lacks it, and otherwise yields the dict's value |
| PyJson.Truthy | app.py:98 | Python's truth value: a string, list or dict is true exactly when iterating it visits something |
| PyJson.Display | app.py:66-69 | `str()` of a symbol in the f-strings (and in the error text at app.py:54): a string prints as itself, a boolean as `True`/`False`, null as `None` |
| PyJson.Iterate | app.py:44 | `for x in v` visits a list's items, a string's characters one by one, a dict's distinct keys ordered by their first occurrence in the document; null, booleans and numbers raise a TypeError |
| PyJson.DedupSpec | app.py:43-55 | The key order of a dict filled element by element: every element once, nothing else, ordered by first occurrence |
| PyJson.DedupPrefix | app.py:48-54 | Storing more symbols never reorders the keys already in the dict (insertion order) |
| Classification.Classify | app.py:29-39 | A model failure or an unparsable reply gives exactly `{"type": "general", "symbols": []}`; a parsed reply is returned unchanged, unvalidated |
| Classification.Route | app.py:98 | Quotes are fetched exactly when the type is `stock_price` or `mixed` and `symbols` is present and truthy, and then for that `symbols` value; the test raises exactly when the classification is not a dict, lacks `type`, or has a quote type and lacks `symbols` (KeyError `type`/`symbols`, TypeError otherwise) |
| Classification.DefaultIsGeneral | app.py:39 | The fallback classification never leads to a quote lookup and never makes the routing test raise |
| Quotes.RecordFor | app.py:48-54 | A failed lookup gives `Could not fetch data for SYM`; otherwise price, name and currency are the provider's values when present, and `N/A`, the symbol itself and `USD` when absent |
| Quotes.FirstUnhashableSpec | app.py:53-54 | The first symbol that cannot be a dict key is one of the symbols and unhashable; there is none exactly when every symbol is hashable |
| Quotes.RecordsSpec | app.py:44-54 | Storing each symbol's record in turn leaves one entry per distinct symbol, and each symbol's record is the one its own lookup gives, whatever the other lookups do |
| Quotes.FetchAll | app.py:43-55 | The dict built from a list of symbols is a well-formed dict: distinct keys, all hashable, exactly the stored records |
| Quotes.StockData | app.py:42-55 | The result of `get_stock_data` for the classification's `symbols` value is a well-formed dict whenever no exception escapes |
| Quotes.CollectQuotes | app.py:43-55 | The loop returns the TypeError of the first unhashable symbol, or the dict mapping each symbol to its record in first-occurrence order |
| Quotes.FetchQuotes | app.py:42-55 | `get_stock_data` first iterates the value (TypeError if it is not iterable), then runs the loop |
| Quotes.TableKeys | app.py:43-55 | The dict's key set is exactly the set of input symbols, and its key order is their first-occurrence order |
| Quotes.SingleSymbol | app.py:43-55 | One hashable symbol gives a dict with exactly one entry, that symbol's record |
| Quotes.FailureIndependentOfProvider | app.py:44-54 | Whether the loop completes never depends on the provider: provider failures are all caught, and only an unhashable symbol escapes |
| Quotes.FailureIsIsolated | app.py:45-54 | A failed lookup gives that symbol its error record, and any symbol on which two providers agree gets the same record from both, whatever happens to the other symbols |
| Responder.Line | app.py:65-70 | An entry's line starts with the symbol as printed and ends with the error text, or with the price |
| Responder.Lines | app.py:63-70 | One formatted line per dict entry, in key order |
| Responder.Join | app.py:71 | `"\n".join(parts)` is as long as the parts together plus one separator between each two |
| Responder.JoinAt | app.py:71 | In `"\n".join(parts)` each part stands at its offset followed by the separator, the next part starting right after it, and the last part ends the text |
| Responder.ContextOf | app.py:60-71 | The context handed to the model always ends with a line break |
| Responder.ContextHeader | app.py:60-71 | The context always starts with `User Query: <query>\n`, is nothing more exactly when the quote dict is absent or empty, and otherwise continues with `Stock Data:\n` |
| Responder.ContextLineAt | app.py:63-71 | The k-th entry's line (`SYM: error` or `SYM (name): currency price`) stands in the context at the k-th position after `Stock Data:\n`, followed by a line break, and the next entry's line starts right after it; the last entry's line break is the last character of the context |
| Responder.BuildContext | app.py:60-71 | The loop that appends one line per entry and joins them builds exactly the specified context |
| Responder.Respond | app.py:82-85 | The text is the model's reply when it answers, and otherwise the processing apology followed by exactly the exception's message |
| Responder.GenerateResponse | app.py:58-85 | `generate_response` returns the model's reply to the context, or the processing apology followed by the exception's message; it never raises |
| Markup.ReplaceNewlines | app.py:107 | The substituted text is never shorter than the reply and is empty exactly when the reply is |
| Markup.NoNewlineRemains | app.py:107 | The text sent to the page holds no `"\n"` |
| Markup.ReplacedLength | app.py:107 | The output is the input's length plus 3 per line break |
| Markup.ReplaceDistributes | app.py:107 | Substituting a concatenation substitutes each part independently |
| Markup.ReplacedAt | app.py:107 | Each character becomes its own piece in place (a line break becomes `<br>`, any other character is kept), so other characters keep their order |
| Markup.NoNewlineUnchanged | app.py:107 | A text without line breaks passes unchanged |
| Markup.RestoreAfterReplace | app.py:107 | Round trip: replacing `<br>` back by `"\n"` recovers any reply that does not itself contain `<br>` |
| ChatHandler.FaultText | app.py:110 | `str(e)` of a KeyError is its key between single quotes; a TypeError prints with the interpreter's wording |
| ChatHandler.Handle | app.py:91-110 | An exception escaping to the catch-all gives an answer that starts with the generic apology; any other answer holds no line break |
| ChatHandler.Gather | app.py:93-104 | When no exception escapes classification, routing and quote lookup, the data the reply is generated with is absent or a well-formed dict |
| ChatHandler.Chat | app.py:91-110 | The handler answers per the model in every case, and calls `get_stock_data` exactly when the classification's type is `stock_price` or `mixed` and its symbols are truthy, passing those symbols |
| ChatHandler.GeneratedReplyShown | app.py:101-108 | A generated reply reaches the page with every line break turned into `<br>`, no line break left, 3 characters longer per line break |
| ChatHandler.ResponderFailureApologised | app.py:84-85 | A failed reply generation is answered with the processing apology plus the exception's message, `<br>`-substituted |
| ChatHandler.OtherFailureApologised | app.py:109-110 | Any other exception is answered with `I apologize, but I encountered an error: ` and its text, unsubstituted; a classification without `type` gives `... error: 'type'` |
| ChatHandler.ClassifierFailureAnswersFromQuery | app.py:37-39 | When the classification call fails, no quote is looked up and the reply is generated from the query line alone |
| ChatHandler.AllServicesDown | app.py:84-85 | With both model calls failing the handler still answers, with a non-empty apology |
| ChatHandler.GeneralQuestion | app.py:102-104 | A question classified `general` with no symbols never reaches the quote provider |
| ChatHandler.ApplePriceQuestion | app.py:98-101 | For a price question on AAPL the dict holds exactly AAPL's record with price 150, name `Apple Inc.`, currency `USD` |
| ChatHandler.ApplePriceContext | app.py:60-71 | The context for that dict is `User Query: ...\nStock Data:\nAAPL (Apple Inc.): USD 150\n` |

## Left out

- The prompt wording (app.py:31, app.py:73-81). The model is applied to "the prompt for this query" or "the prompt for this context". Its replies are the `classifier` and `responder` parameters.
- The model client configuration and the API key (app.py:12-16). These are process setup, with no logic.
- `json.loads` itself (app.py:35). It is the `parse` parameter, which either returns a JSON value or fails.
- The quote provider (app.py:46-47). It is the `quote` parameter: an `info` dict whose values are given as the text they print as, or a failure. Prices are opaque text, with no arithmetic.
- Repeated lookups of one symbol. The provider is a function here, so a symbol listed twice gets the same answer both times. In the program, the second lookup could answer differently, and its answer would replace the first in the dict.
- Python's equality of `1`, `1.0` and `True` as dict keys. Numbers and booleans used as symbols are distinct keys in the model whenever their printed texts differ.
- JSON numbers are carried as the text Python prints for them. Their truth value is read from that text (`0`, `0.0` and `-0.0` are false).
- The wording of Python's TypeError messages. It varies between interpreter versions, so it is the `typeErrorText` parameter. A KeyError's text, the quoted key, is modelled.
- FastAPI setup, the static mount, templates and `GET /` (app.py:18-26, app.py:87-89). This is HTTP plumbing with no logic. Every request that reaches the handler is answered with status 200. A body without a string `message` is rejected by FastAPI with status 422 before `chat` runs. Neither is modelled.
- `async`/`await`. Nothing runs concurrently within a request, so the model is sequential.
