/**
 * The `/webhook` endpoint: the decision chain one trading signal goes through
 * and the open-long counter it consults and updates. `Handle` is the decision
 * as a function of the counter and of everything the outside world supplies;
 * `Server.Webhook` is the handler itself, with early returns, proved to agree
 * with it.
 */
module Webhook {
  import opened Wrappers
  import opened Text
  import opened Orders

  // ---------------------------------------------------------------------------
  // Requests and responses

  /** A value of the JSON payload: a string, or any other JSON value. */
  datatype Field = JsonString(s: string) | JsonOther

  /** The parsed body: no (or a falsy) JSON value, or an object. */
  type Payload = Option<map<string, Field>>

  /** The price lookup: a price, or the exception `get_symbol_price` raised. */
  datatype PriceFetch = Price(value: real) | FetchRaised

  /** One incoming signal together with what the outside world answers for it. */
  datatype Request = Request(data: Payload, price: PriceFetch, reply: Reply, timestamp: int)

  /**
   * What the client receives: a JSON reply with its HTTP code, `status` field
   * and optional `message` field, or the 500 page Flask serves for an
   * exception that escaped the handler.
   */
  datatype Response = Json(code: int, status: string, message: Option<string>) | InternalServerError

  const MISSING_DATA := Json(400, "error", Some("Fehlende Daten"))
  const INVALID_PRICE := Json(400, "error", Some("Ungültiger Preis"))
  const QUANTITY_TOO_LOW := Json(400, "error", Some("Menge zu gering"))
  const MAX_REACHED := Json(200, "ignored", Some("Max erreicht"))
  const OPENED := Json(200, "success", None)
  const BUY_FAILED := Json(500, "error", Some("Buy fehlgeschlagen"))
  const CLOSED := Json(200, "closed", None)
  const NONE_ACTIVE := Json(200, "none_active", None)
  const SHORT_IGNORED := Json(200, "ignored", Some("Short deaktiviert"))
  const UNKNOWN_ACTION := Json(400, "unknown_action", None)

  /** The calls a request makes to the exchange, in order. */
  datatype Effect = PriceQuery(symbol: string) | OrderPost(request: SignedRequest)

  /** The response, the counter afterwards and the calls made to the exchange. */
  datatype Outcome = Outcome(response: Response, count: int, effects: seq<Effect>)

  const ACTION_KEY := "action"
  const SYMBOL_KEY := "symbol"

  /** The payload is present and carries both an `action` and a `symbol`. */
  predicate HasSignal(data: Payload) {
    data.Some? && ACTION_KEY in data.value && SYMBOL_KEY in data.value
  }

  /** Both fields are strings, so lower- and upper-casing them does not raise. */
  predicate TextualSignal(data: Payload) {
    HasSignal(data) && data.value[ACTION_KEY].JsonString? && data.value[SYMBOL_KEY].JsonString?
  }

  // ---------------------------------------------------------------------------
  // The decision

  /**
   * The handler's decision for one request, given the open-long count and its
   * ceiling: validation, price, quantity, then dispatch on the lower-cased
   * action. Only a buy below the ceiling posts an order, and only an accepted
   * one raises the count; a close of a long lowers it when it is positive.
   */
  function Handle(count: int, max: int, signer: Signer, req: Request): Outcome
  {
    if !HasSignal(req.data) then Outcome(MISSING_DATA, count, [])
    else if !TextualSignal(req.data) then Outcome(InternalServerError, count, [])
    else
      var action := Lower(req.data.value[ACTION_KEY].s);
      var symbol := Upper(req.data.value[SYMBOL_KEY].s);
      var queried := [PriceQuery(symbol)];
      match req.price
      case FetchRaised => Outcome(InternalServerError, count, queried)
      case Price(price) =>
        if price <= 0.0 then Outcome(INVALID_PRICE, count, queried)
        else
          var quantity := CalculateQuantity(price);
          if quantity <= 0.0 then Outcome(QUANTITY_TOO_LOW, count, queried)
          else if action == "buy" then
            if count >= max then Outcome(MAX_REACHED, count, queried)
            else
              var attempt := PlaceFuturesOrder(signer, symbol, "BUY", "LONG", quantity, req.timestamp, req.reply);
              var posted := queried + [OrderPost(attempt.request)];
              match attempt.result
              case Accepted => Outcome(OPENED, count + 1, posted)
              case Refused => Outcome(BUY_FAILED, count, posted)
              case Raised => Outcome(InternalServerError, count, posted)
          else if action == "close_long" then
            if count > 0 then Outcome(CLOSED, count - 1, queried)
            else Outcome(NONE_ACTIVE, count, queried)
          else if action == "close_short" then Outcome(SHORT_IGNORED, count, queried)
          else Outcome(UNKNOWN_ACTION, count, queried)
  }

  /** The counter after a sequence of requests. */
  function Run(count: int, max: int, signer: Signer, reqs: seq<Request>): int
    decreases |reqs|
  {
    if reqs == [] then count
    else Run(Handle(count, max, signer, reqs[0]).count, max, signer, reqs[1..])
  }

  /** The responses to a sequence of requests, in order. */
  function Responses(count: int, max: int, signer: Signer, reqs: seq<Request>): seq<Response>
    decreases |reqs|
  {
    if reqs == [] then []
    else
      var o := Handle(count, max, signer, reqs[0]);
      [o.response] + Responses(o.count, max, signer, reqs[1..])
  }

  // ---------------------------------------------------------------------------
  // The server

  /** The process state: the open-long counter, its ceiling and the credentials. */
  class Server {
    var openPositions: int
    const maxOpenPositions: int
    const signer: Signer

    ghost predicate Valid()
      reads this
    {
      0 <= openPositions <= maxOpenPositions
    }

    /** Process start: no long open, at most two at a time. */
    constructor (signer: Signer)
      ensures Valid()
      ensures openPositions == 0 && maxOpenPositions == 2 && this.signer == signer
    {
      openPositions := 0;
      maxOpenPositions := 2;
      this.signer := signer;
    }

    /** `webhook()`: answers one signal and updates the counter, as Handle says. */
    method Webhook(data: Payload, price: PriceFetch, reply: Reply, timestamp: int)
      returns (response: Response, effects: seq<Effect>)
      requires Valid()
      modifies this
      ensures Valid()
      ensures Outcome(response, openPositions, effects)
              == Handle(old(openPositions), maxOpenPositions, signer, Request(data, price, reply, timestamp))
    {
      effects := [];
      if data.None? || ACTION_KEY !in data.value || SYMBOL_KEY !in data.value {
        return MISSING_DATA, effects;
      }
      var fields := data.value;
      if !fields[ACTION_KEY].JsonString? || !fields[SYMBOL_KEY].JsonString? {
        return InternalServerError, effects;
      }
      var action := Lower(fields[ACTION_KEY].s);
      var symbol := Upper(fields[SYMBOL_KEY].s);

      effects := effects + [PriceQuery(symbol)];
      if price.FetchRaised? {
        return InternalServerError, effects;
      }
      if price.value <= 0.0 {
        return INVALID_PRICE, effects;
      }

      var quantity := CalculateQuantity(price.value);
      if quantity <= 0.0 {
        return QUANTITY_TOO_LOW, effects;
      }

      if action == "buy" {
        if openPositions >= maxOpenPositions {
          return MAX_REACHED, effects;
        }
        var attempt := PlaceFuturesOrder(signer, symbol, "BUY", "LONG", quantity, timestamp, reply);
        effects := effects + [OrderPost(attempt.request)];
        if attempt.result == Accepted {
          openPositions := openPositions + 1;
          return OPENED, effects;
        } else if attempt.result == Refused {
          return BUY_FAILED, effects;
        } else {
          return InternalServerError, effects;
        }
      } else if action == "close_long" {
        if openPositions > 0 {
          openPositions := openPositions - 1;
          return CLOSED, effects;
        } else {
          return NONE_ACTIVE, effects;
        }
      } else if action == "close_short" {
        return SHORT_IGNORED, effects;
      }
      return UNKNOWN_ACTION, effects;
    }
  }
}
