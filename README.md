# Webhook trading bot: a Dafny model

A Dafny model of the decision core of `BWebhook_F_12.py`. This is a Flask bot. It
receives trading signals on `POST /webhook` and places market orders on the
Binance USDⓈ-M futures API. It also keeps a process-wide count of open long
positions, capped at two.

The model has four modules:

- `Text` (`text.dfy`): the `lower()`/`upper()` case mapping applied to the
  action and the symbol.
- `Orders` (`orders.dfy`): how an order is sized (`calculate_quantity`). It also
  covers the parameter dictionary `place_futures_order` builds, the signed
  request it posts, and how the exchange's answer becomes True, False or an
  exception.
- `Webhook` (`webhook.dfy`): the response table, with one constant per response
  the handler can give. `Handle` is the whole per-request decision as a
  function. The class `Server` holds the counter `openPositions` and the ceiling
  `maxOpenPositions = 2`. Its method `Webhook` is the handler, written as a chain
  of early returns that updates the counter in place. It is proved to agree with
  `Handle`, and to keep `0 <= openPositions <= maxOpenPositions`.
- `WebhookProperties` (`webhook_properties.dfy`): the response table, row by
  row, as lemmas about `Handle`, each with its frame condition. It also proves
  the bound on the counter over any sequence of signals, that a signal posts at
  most one order, and the two-buys-then-"Max erreicht" scenario.

Everything outside the process comes in as an input of the request:

- the parsed JSON body;
- the price the ticker query returns, or the fact that it raised;
- the exchange's reply to the POST;
- the timestamp.

The credentials, `urlencode` and the HMAC-SHA256 hex digest are fields of a
`Signer` value. The two library routines are uninterpreted function values.
Each result of `Handle` records which exchange calls the request made, in order
(`PriceQuery`, `OrderPost`). That is how the properties say "no price is
fetched" or "no order is placed".

Behaviour of the code that a reader might not expect:

- The API key goes in the header `X-MBX-APIKEY` (line 52).
- The handler catches no exceptions. A price query that fails, or a POST that
  raises, ends in Flask's 500 page (`InternalServerError`). It is not turned
  into "Ungültiger Preis" or "Buy fehlgeschlagen".
- A non-string `action` or `symbol` makes `lower()`/`upper()` raise, which also
  ends in the 500 page.
- A 200 answer whose body is not JSON makes `res.json()` on line 55 raise. The
  order has then been posted, but the counter does not move (`Reply.bodyIsJson`).
- `close_long` only lowers the local counter. It posts nothing to the exchange.

## Model

| member | source | states |
|---|---|---|
| `Text.Lower` | BWebhook_F_12.py:72 | the action is lower-cased character by character, same length, letters A-Z mapped to a-z |
| `Text.Upper` | BWebhook_F_12.py:73 | the symbol is upper-cased character by character, same length, letters a-z mapped to A-Z |
| `Text.LowerOfLowerCase` | BWebhook_F_12.py:72 | a string with no upper-case letter, such as "buy", is unchanged by lower-casing |
| `Text.UpperOfUpperCase` | BWebhook_F_12.py:42 | a string with no lower-case letter, such as "BUY", is unchanged by upper-casing |
| `Orders.RoundHalfEven` | BWebhook_F_12.py:35 | `round` gives an integer within one half of its argument, and a tie goes to the even neighbour |
| `Orders.CalculateQuantity` | BWebhook_F_12.py:33-35 | the quantity is non-negative and a whole number of thousandths: 80 USDT over the price, rounded at the third decimal |
| `Orders.QuantityIsNearest` | BWebhook_F_12.py:33-35 | the rounded quantity is within 0.0005 of 80 / price |
| `Orders.QuantityPositiveIff` | BWebhook_F_12.py:80-82 | for a positive price, the quantity is positive exactly when the price is below 160000 |
| `Orders.QuantityAtFortyThousand` | BWebhook_F_12.py:33-35 | at a price of 40000 the quantity is exactly 0.002 |
| `Orders.LookupDefined` | BWebhook_F_12.py:40-48 | a value is stored under a key exactly when the key is in the dictionary |
| `Orders.LookupFirst` | BWebhook_F_12.py:40-48 | the value under a key is the one at its first occurrence |
| `Orders.OrderParams` | BWebhook_F_12.py:40-48 | the keys are symbol, side, positionSide, type, quantity, timestamp, recvWindow, in that order |
| `Orders.OrderKeysDistinct` | BWebhook_F_12.py:40-48 | no order key appears twice |
| `Orders.OrderParamsLookup` | BWebhook_F_12.py:40-48 | each key holds what was given: the side upper-cased, type "MARKET", recvWindow 5000 |
| `Orders.SideIsUpperCased` | BWebhook_F_12.py:42 | a side spelled "buy" in any case is sent as "BUY" |
| `Orders.SignRequest` | BWebhook_F_12.py:49-53 | the signature is the HMAC of the secret over the urlencoded parameters; the URL is the order endpoint, then that query, then the signature; the API key is the only header |
| `Orders.Interpret` | BWebhook_F_12.py:54-59 | the submission succeeds exactly on status 200 with a JSON body; it fails exactly on a non-200 status; otherwise it raises |
| `Orders.OrderParamsNothingElse` | BWebhook_F_12.py:40-48 | an order carries no key besides the seven |
| `Orders.PlaceFuturesOrder` | BWebhook_F_12.py:38-59 | for any arguments: the posted parameters have the seven keys in order, the given symbol, position side, quantity and timestamp, the side upper-cased, type "MARKET" and recvWindow 5000; the signature is the HMAC of the secret over the urlencoded parameters; the call succeeds exactly on a 200 answer with a JSON body and fails exactly on a non-200 answer |
| `Webhook.Handle` | BWebhook_F_12.py:63-109 | the decision for one request as a function of the counter; it has no contract of its own, and its properties are the `WebhookProperties` rows below |
| `Webhook.Run` | BWebhook_F_12.py:63-109 | the counter after the process answers a sequence of signals one after another; it has no contract of its own, and its bound is `WebhookProperties.RunStaysWithinCapacity` |
| `Webhook.Server.constructor` | BWebhook_F_12.py:21-22 | at process start no long is open and the ceiling is 2 |
| `Webhook.Server.Webhook` | BWebhook_F_12.py:63-109 | the response, the new counter and the exchange calls are those of `Handle` for the old counter; the counter stays within 0..max |
| `WebhookProperties.Posts` | BWebhook_F_12.py:53 | the orders posted are exactly the `OrderPost` calls among the effects |
| `WebhookProperties.MissingDataIff` | BWebhook_F_12.py:69-70 | "Fehlende Daten" (400) is returned exactly when the payload, its action or its symbol is missing; then nothing is fetched or posted and the counter is unchanged |
| `WebhookProperties.InvalidPriceIff` | BWebhook_F_12.py:76-78 | for any action, "Ungültiger Preis" (400) is returned exactly when the fetched price is ≤ 0; then only the price was queried and the counter is unchanged |
| `WebhookProperties.QuantityTooLowIff` | BWebhook_F_12.py:80-82 | for any action and a positive price, "Menge zu gering" (400) is returned exactly when the quantity rounds to zero (price ≥ 160000); then the counter is unchanged and no order is posted |
| `WebhookProperties.BuyAtCapacity` | BWebhook_F_12.py:84-87 | a buy at the ceiling returns 200 "ignored"/"Max erreicht", posts nothing and leaves the counter unchanged |
| `WebhookProperties.BuyBelowCapacity` | BWebhook_F_12.py:89-94 | a buy below the ceiling posts exactly one signed BUY/LONG order for the computed quantity; on acceptance 200 "success" and count+1; on refusal 500 "Buy fehlgeschlagen" and the count unchanged; on an exception a 500 page and the count unchanged |
| `WebhookProperties.BuyOrderParameters` | BWebhook_F_12.py:38-59 | the one order a buy posts has the seven keys in order, side "BUY", positionSide "LONG", type "MARKET", recvWindow 5000, the computed quantity and the timestamp, and is signed over its own query |
| `WebhookProperties.CloseLong` | BWebhook_F_12.py:96-103 | close_long posts nothing; a positive count drops by exactly one with 200 "closed"; otherwise 200 "none_active" and the count unchanged |
| `WebhookProperties.CloseShort` | BWebhook_F_12.py:105-107 | close_short returns 200 "ignored"/"Short deaktiviert", posts nothing and leaves the counter unchanged |
| `WebhookProperties.UnknownAction` | BWebhook_F_12.py:109 | any other action returns 400 "unknown_action", posts nothing and leaves the counter unchanged |
| `WebhookProperties.CaseInsensitiveAction` | BWebhook_F_12.py:72 | two actions with the same lower-case form give identical outcomes |
| `WebhookProperties.HandleKeepsBounds` | BWebhook_F_12.py:84-103 | a request with the counter in 0..max leaves it in 0..max |
| `WebhookProperties.CountChanges` | BWebhook_F_12.py:89-103 | the counter rises by one exactly on "success" and falls by one exactly on "closed"; every other response leaves it unchanged |
| `WebhookProperties.AtMostOneOrder` | BWebhook_F_12.py:84-94 | a signal posts at most one order, and posts one exactly when it is a validated buy below the ceiling |
| `WebhookProperties.AcceptedBuyIsTradable` | BWebhook_F_12.py:72-84 | a "buy" of BTCUSDT at 40000 with a 200 JSON reply passes every check and its order is accepted |
| `WebhookProperties.RunStaysWithinCapacity` | BWebhook_F_12.py:84-103 | starting within 0..max, every sequence of signals ends within 0..max |
| `WebhookProperties.FromStartWithinCapacity` | BWebhook_F_12.py:21-22 | from process start (0 open, ceiling 2) every sequence of signals keeps the counter in 0..2 |
| `WebhookProperties.BuySaturation` | BWebhook_F_12.py:84-92 | three accepted buys from a fresh start answer "success", "success", "Max erreicht" and leave the counter at 2 |
| `WebhookProperties.SaturationScenario` | BWebhook_F_12.py:84-92 | the same three buys, run on a new `Server` object, give the same three responses and leave 2 longs open |

## Left out

- HTTP plumbing (Flask routing, `request.get_json`, `jsonify`, `app.run`): responses are a datatype. A body that is JSON but not an object (a list, a string, a number) is not modelled. A falsy body and an object without the keys take the same "Fehlende Daten" path.
- `get_symbol_price` and the `requests` calls are network I/O. The price (or the exception) and the exchange's reply are inputs.
- `Orders.CalculateQuantity`: computed on exact reals, not on binary floating point, so the program's quantity differs wherever 80 / price lands exactly on a rounding tie. At a price of 32000 the double 80.0 / 32000.0 is slightly above 0.0025, so Python's `round` gives 0.003 where the model gives 0.002; the tie rule of `Orders.RoundHalfEven` does not decide the program's quantity at such prices. Likewise 160000 in `Orders.QuantityPositiveIff` and `WebhookProperties.QuantityTooLowIff` is the exact-real threshold: at exactly 160000.0 the program still trades, with quantity 0.001. NaN and infinite prices are not modelled either.
- `Text.Lower`: only the ASCII letters are lower-cased, not all of Unicode (the Kelvin sign becomes "k" in Python, not here). No other character lower-cases into a letter of "buy", "close_long" or "close_short", so the dispatch on the action is the same.
- `Text.Upper`: only the ASCII letters are upper-cased, not all of Unicode ("ß" becomes "SS" in Python, not here). This affects only the symbol sent to the exchange.
- `urlencode` and the HMAC-SHA256 hex digest are foreign library calls. They are uninterpreted function values of the `Signer`.
- `time.time()` is a clock. The timestamp in milliseconds is an input.
- `load_dotenv`/`os.getenv` are configuration; the key and secret are given strings. A missing secret (raising on `.encode()`) is not modelled. The `print` diagnostics are logging.
- Concurrency: the model is sequential. The gap between the capacity check (line 85) and the increment (line 90) under concurrent requests is not modelled.
